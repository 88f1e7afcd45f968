/** `ScheduledIO` of src/io/schedule.rs as an object over the packed word. Every method is stated on the
    unpacked fields, by name; the interleavings of the same operations are studied in `Readiness`. */
module ScheduledIo {
  import opened ReadyWord
  import Readiness

  type EventId = Readiness.EventId
  type Slot = Readiness.Slot

  const EMPTY := Readiness.Slot.Empty

  /** What the kernel reported concerns a reader, or a writer. */
  predicate ForReader(r: Ready) { r.readable || r.readClosed || r.error }

  predicate ForWriter(r: Ready) { r.writable || r.writeClosed || r.error }

  /** `readiness_from_event`: the readiness bits of what the kernel reported. */
  method ReadinessFromEvent(event: Ready) returns (ready: Word)
    ensures Mask(ready) && Bits(ready) == event
  {
    ready := 0;
    if event.readable { ready := ready | READABLE; }
    if event.writable { ready := ready | WRITABLE; }
    if event.readClosed { ready := ready | READ_CLOSED; }
    if event.writeClosed { ready := ready | WRITE_CLOSED; }
    if event.error { ready := ready | ERROR; }
  }

  class ScheduledIO {
    var readiness: Word
    var tickR: bv8
    var tickW: bv8
    var reader: Slot
    var writer: Slot

    ghost predicate Valid()
      reads this
    {
      Proper(readiness)
    }

    ghost function View(): Cache
      reads this
    {
      Unpacked(readiness)
    }

    constructor ()
      ensures Valid() && View() == Cache(0, false, Ready(false, false, false, false, false))
      ensures tickR == 0 && tickW == 0 && reader == EMPTY && writer == EMPTY
    {
      readiness, tickR, tickW, reader, writer := 0, 0, 0, EMPTY, EMPTY;
    }

    /** Wait with `event` if there is nothing to read, otherwise record the tick of the attempt. */
    method ArmR(event: EventId) returns (waits: bool)
      requires Valid()
      modifies this`reader, this`tickR
      ensures waits <==> !ForReader(View().bits) && !View().shutdown
      ensures reader == (if waits then Readiness.Armed(event) else old(reader))
      ensures tickR as int == (if waits then old(tickR) as int else View().tick)
    {
      BlockBits(readiness);
      if readiness & (READ_ALL | SHUTDOWN) != 0 {
        tickR := TickOf(readiness);
        return false;
      }
      reader := Readiness.Armed(event);
      return true;
    }

    method ArmW(event: EventId) returns (waits: bool)
      requires Valid()
      modifies this`writer, this`tickW
      ensures waits <==> !ForWriter(View().bits) && !View().shutdown
      ensures writer == (if waits then Readiness.Armed(event) else old(writer))
      ensures tickW as int == (if waits then old(tickW) as int else View().tick)
    {
      BlockBits(readiness);
      if readiness & (WRITE_ALL | SHUTDOWN) != 0 {
        tickW := TickOf(readiness);
        return false;
      }
      writer := Readiness.Armed(event);
      return true;
    }

    method Clear(ready: Word, tick: bv8)
      modifies this`readiness
      ensures readiness == Cleared(old(readiness), ready, tick)
    {
      if TickOf(readiness) == tick {
        readiness := readiness & !ready;
      }
    }

    method ClearR()
      requires Valid()
      modifies this`readiness
      ensures Valid() && View() == ClearRead(old(View()), tickR as int)
      ensures View() == old(View()).(bits := if old(View()).tick == tickR as int then WithoutRead(old(View()).bits)
                                             else old(View()).bits)
    {
      SidesNamed(View(), tickR as int);
      ClearUnpacked(readiness, tickR);
      ClearStaysProper(readiness, READ_ALL, tickR);
      Clear(READ_ALL, tickR);
    }

    method ClearW()
      requires Valid()
      modifies this`readiness
      ensures Valid() && View() == ClearWrite(old(View()), tickW as int)
      ensures View() == old(View()).(bits := if old(View()).tick == tickW as int then WithoutWrite(old(View()).bits)
                                             else old(View()).bits)
    {
      SidesNamed(View(), tickW as int);
      ClearUnpacked(readiness, tickW);
      ClearStaysProper(readiness, WRITE_ALL, tickW);
      Clear(WRITE_ALL, tickW);
    }

    method Consume(mask: Word) returns (any: bool)
      modifies this`readiness
      ensures readiness == Consumed(old(readiness), mask) && any == Has(old(readiness), mask)
    {
      any := readiness & mask != 0;
      if any {
        readiness := readiness & !mask;
      }
    }

    method ConsumeR() returns (any: bool)
      requires Valid()
      modifies this`readiness
      ensures Valid() && View() == old(View()).(bits := WithoutRead(old(View()).bits))
      ensures any == ForReader(old(View()).bits)
    {
      SidesNamed(View(), 0);
      ConsumeReadUnpacked(readiness);
      ConsumeStaysProper(readiness, READ_ALL);
      SideBits(readiness);
      any := Consume(READ_ALL);
    }

    method ConsumeW() returns (any: bool)
      requires Valid()
      modifies this`readiness
      ensures Valid() && View() == old(View()).(bits := WithoutWrite(old(View()).bits))
      ensures any == ForWriter(old(View()).bits)
    {
      SidesNamed(View(), 0);
      ConsumeWriteUnpacked(readiness);
      ConsumeStaysProper(readiness, WRITE_ALL);
      SideBits(readiness);
      any := Consume(WRITE_ALL);
    }

    method SetReadiness(ready: Word)
      requires Valid() && Mask(ready)
      modifies this`readiness
      ensures Valid() && View() == Update(old(View()), Bits(ready))
    {
      UpdateTicks(readiness, ready);
      UpdateUnpacked(readiness, ready);
      var tick := ((TickOf(readiness) + 1) as bv16) << 6;
      readiness := tick | (readiness & !TICK_MASK) | ready;
    }

    /** Takes the slots of the directions that `ready` concerns. */
    method Wake(ready: Word) returns (r: Slot, w: Slot)
      modifies this`reader, this`writer
      ensures (r, reader) == if ForReader(Bits(ready)) then (old(reader), EMPTY) else (EMPTY, old(reader))
      ensures (w, writer) == if ForWriter(Bits(ready)) then (old(writer), EMPTY) else (EMPTY, old(writer))
    {
      SideBits(ready);
      r, w := EMPTY, EMPTY;
      if ready & READ_ALL != 0 { r, reader := reader, EMPTY; }
      if ready & WRITE_ALL != 0 { w, writer := writer, EMPTY; }
    }

    method Shutdown() returns (r: Slot, w: Slot)
      requires Valid()
      modifies this`readiness, this`reader, this`writer
      ensures Valid() && View() == old(View()).(shutdown := true)
      ensures r == old(reader) && w == old(writer) && reader == EMPTY && writer == EMPTY
    {
      ShutdownUnpacked(readiness);
      ShutdownStaysProper(readiness);
      readiness := readiness | SHUTDOWN;
      EverySide();
      r, w := Wake(READ_ALL | WRITE_ALL);
    }

    /** What `poll` does with one event: the bits first, then the slots, so that nobody stays armed over a word
        that says ready. */
    method Dispatch(event: Ready) returns (r: Slot, w: Slot)
      requires Valid()
      modifies this`readiness, this`reader, this`writer
      ensures Valid() && View() == Update(old(View()), event)
      ensures (r, reader) == if ForReader(event) then (old(reader), EMPTY) else (EMPTY, old(reader))
      ensures (w, writer) == if ForWriter(event) then (old(writer), EMPTY) else (EMPTY, old(writer))
    {
      var ready := ReadinessFromEvent(event);
      SetReadiness(ready);
      r, w := Wake(ready);
    }
  }

  lemma DropsStayProper(w: Word, ready: Word)
    requires Proper(w)
    ensures Proper(w & !ready)
  {
  }

  lemma ClearStaysProper(w: Word, ready: Word, tick: bv8)
    requires Proper(w)
    ensures Proper(Cleared(w, ready, tick))
  {
    DropsStayProper(w, ready);
  }

  lemma ConsumeStaysProper(w: Word, mask: Word)
    requires Proper(w)
    ensures Proper(Consumed(w, mask))
  {
    DropsStayProper(w, mask);
  }

  lemma ShutdownStaysProper(w: Word)
    requires Proper(w)
    ensures Proper(w | SHUTDOWN)
  {
  }

  lemma EverySide()
    ensures ForReader(Bits(READ_ALL | WRITE_ALL)) && ForWriter(Bits(READ_ALL | WRITE_ALL))
  {
  }
}
