/** The readiness word of src/io/schedule.rs: five readiness bits at the bottom, the shutdown bit above them, and
    an 8-bit tick on top. */
module ReadyWord {

  type Word = bv16

  const READABLE: Word := 0x01
  const WRITABLE: Word := 0x02
  const READ_CLOSED: Word := 0x04
  const WRITE_CLOSED: Word := 0x08
  const ERROR: Word := 0x10
  const SHUTDOWN: Word := 0x20
  const TICK_MASK: Word := 0x3fc0
  const READ_ALL: Word := READABLE | READ_CLOSED | ERROR
  const WRITE_ALL: Word := WRITABLE | WRITE_CLOSED | ERROR

  /** A combination of the five readiness bits. */
  predicate Mask(m: Word) { m & 0x1f == m }

  /** A word that uses its fourteen bits only. */
  predicate Proper(w: Word) { w & 0x3fff == w }

  predicate Has(w: Word, m: Word) { w & m != 0 }

  function TickOf(w: Word): bv8 { ((w & TICK_MASK) >> 6) as bv8 }

  /** `clear`: drop `ready` unless the tick moved. */
  function Cleared(w: Word, ready: Word, tick: bv8): Word {
    if TickOf(w) != tick then w else w & !ready
  }

  /** `consume`: drain the bits of a mask; it reports `Has(w, mask)`. */
  function Consumed(w: Word, mask: Word): Word {
    if w & mask == 0 then w else w & !mask
  }

  /** `set_readiness`: a new tick, and `ready` on top of what was there. */
  function Updated(w: Word, ready: Word): Word {
    (((TickOf(w) + 1) as bv16) << 6) | (w & !TICK_MASK) | ready
  }

  // ---- the tick ----

  lemma UpdateTicks(w: Word, ready: Word)
    requires Proper(w) && Mask(ready)
    ensures Proper(Updated(w, ready)) && TickOf(Updated(w, ready)) == TickOf(w) + 1
  {
  }

  lemma TickAsInt(t: bv8)
    ensures (t + 1) as int == (t as int + 1) % 256
  {
  }

  lemma TickInjective(t: bv8, u: bv8)
    requires t as int == u as int
    ensures t == u
  {
    assert (t as int) as bv8 == t && (u as int) as bv8 == u;
  }

  /** After `n` updates the 8-bit tick is `n` modulo 256. */
  predicate Ticks(w: Word, n: nat) { TickOf(w) as int == n % 256 }

  lemma NextTick(n: nat)
    ensures (n % 256 + 1) % 256 == (n + 1) % 256
  {
  }

  lemma UpdateCounts(w: Word, ready: Word, n: nat)
    requires Proper(w) && Mask(ready) && Ticks(w, n)
    ensures Ticks(Updated(w, ready), n + 1)
  {
    UpdateTicks(w, ready);
    TickAsInt(TickOf(w));
    NextTick(n);
  }

  lemma SameTick(recorded: nat, now: nat)
    requires recorded <= now
    ensures now % 256 == recorded % 256 <==> (now - recorded) % 256 == 0
  {
    var q, r := recorded / 256, now / 256;
    assert recorded == 256 * q + recorded % 256 && now == 256 * r + now % 256;
  }

  lemma TickEqual(t: bv8, u: bv8)
    ensures t == u <==> t as int == u as int
  {
    if t as int == u as int {
      TickInjective(t, u);
    }
  }

  /** The 8-bit guard passes exactly when a multiple of 256 updates has intervened. */
  lemma GuardExact(w: Word, tick: bv8, recorded: nat, now: nat)
    requires Ticks(w, now) && tick as int == recorded % 256 && recorded <= now
    ensures TickOf(w) == tick <==> (now - recorded) % 256 == 0
  {
    TickEqual(TickOf(w), tick);
    SameTick(recorded, now);
  }

  /** With fewer than 256 updates since the tick was recorded, the guarded clear is the one with an
      unbounded tick: it does nothing exactly when an update intervened. */
  lemma ClearIsExact(w: Word, ready: Word, tick: bv8, recorded: nat, now: nat)
    requires Ticks(w, now) && tick as int == recorded % 256 && recorded <= now < recorded + 256
    ensures Cleared(w, ready, tick) == if now != recorded then w else w & !ready
  {
    GuardExact(w, tick, recorded, now);
  }

  // ---- what no operation drops ----

  /** No clear, consume or update drops SHUTDOWN or disturbs the tick; an update drops nothing. */
  lemma ShutdownSticks(w: Word, ready: Word, tick: bv8)
    requires Proper(w) && Has(w, SHUTDOWN) && Mask(ready)
    ensures Has(Cleared(w, ready, tick), SHUTDOWN)
    ensures Has(Consumed(w, ready), SHUTDOWN)
    ensures Has(Updated(w, ready), SHUTDOWN)
  {
  }

  /** An update adds its bits and drops none. */
  lemma UpdateAdds(w: Word, ready: Word)
    requires Proper(w) && Mask(ready)
    ensures Updated(w, ready) & 0x3f == (w & 0x3f) | ready
  {
  }

  lemma MaskSparesTick(w: Word, ready: Word)
    requires Mask(ready)
    ensures TickOf(w & !ready) == TickOf(w)
  {
    assert (w & !ready) & TICK_MASK == w & TICK_MASK;
  }

  /** The writer's clear never drops READABLE or READ_CLOSED, nor the reader's WRITABLE or WRITE_CLOSED. */
  lemma DirectionsApart(w: Word, tick: bv8)
    requires Proper(w)
    ensures Cleared(w, WRITE_ALL, tick) & (READABLE | READ_CLOSED) == w & (READABLE | READ_CLOSED)
    ensures Cleared(w, READ_ALL, tick) & (WRITABLE | WRITE_CLOSED) == w & (WRITABLE | WRITE_CLOSED)
  {
  }

  // ---- the word, field by field ----

  datatype Ready = Ready(readable: bool, writable: bool, readClosed: bool, writeClosed: bool, error: bool)

  datatype Cache = Cache(tick: nat, shutdown: bool, bits: Ready)

  function Bits(w: Word): Ready {
    Ready(Has(w, READABLE), Has(w, WRITABLE), Has(w, READ_CLOSED), Has(w, WRITE_CLOSED), Has(w, ERROR))
  }

  function Unpacked(w: Word): Cache { Cache(TickOf(w) as int, Has(w, SHUTDOWN), Bits(w)) }

  predicate ReadSide(r: Ready) { r.readable || r.readClosed || r.error }

  predicate WriteSide(r: Ready) { r.writable || r.writeClosed || r.error }

  function Update(c: Cache, r: Ready): Cache {
    Cache((c.tick + 1) % 256, c.shutdown,
          Ready(c.bits.readable || r.readable, c.bits.writable || r.writable, c.bits.readClosed || r.readClosed,
                c.bits.writeClosed || r.writeClosed, c.bits.error || r.error))
  }

  function DropRead(c: Cache): Cache {
    c.(bits := c.bits.(readable := false, readClosed := false, error := false))
  }

  function DropWrite(c: Cache): Cache {
    c.(bits := c.bits.(writable := false, writeClosed := false, error := false))
  }

  function ClearRead(c: Cache, tick: nat): Cache { if c.tick != tick then c else DropRead(c) }

  function ClearWrite(c: Cache, tick: nat): Cache { if c.tick != tick then c else DropWrite(c) }

  lemma BitsOfUpdate(w: Word, ready: Word)
    requires Proper(w) && Mask(ready)
    ensures Has(Updated(w, ready), SHUTDOWN) == Has(w, SHUTDOWN)
    ensures Bits(Updated(w, ready)) == Update(Unpacked(w), Bits(ready)).bits
  {
    UpdateAdds(w, ready);
  }

  /** The packed operations are the operations on the fields, for every word and mask. */
  lemma UpdateUnpacked(w: Word, ready: Word)
    requires Proper(w) && Mask(ready)
    ensures Unpacked(Updated(w, ready)) == Update(Unpacked(w), Bits(ready))
  {
    BitsOfUpdate(w, ready);
    UpdateTicks(w, ready);
    TickAsInt(TickOf(w));
  }

  lemma DropReadUnpacked(w: Word)
    ensures Unpacked(w & !READ_ALL) == DropRead(Unpacked(w))
  {
    MaskSparesTick(w, READ_ALL);
  }

  lemma DropWriteUnpacked(w: Word)
    ensures Unpacked(w & !WRITE_ALL) == DropWrite(Unpacked(w))
  {
    MaskSparesTick(w, WRITE_ALL);
  }

  lemma ClearUnpacked(w: Word, tick: bv8)
    ensures Unpacked(Cleared(w, READ_ALL, tick)) == ClearRead(Unpacked(w), tick as int)
    ensures Unpacked(Cleared(w, WRITE_ALL, tick)) == ClearWrite(Unpacked(w), tick as int)
  {
    TickEqual(TickOf(w), tick);
    DropReadUnpacked(w);
    DropWriteUnpacked(w);
  }

  function WithoutRead(r: Ready): Ready { Ready(false, r.writable, false, r.writeClosed, false) }

  function WithoutWrite(r: Ready): Ready { Ready(r.readable, false, r.readClosed, false, false) }

  /** Each direction by the names of its three bits: what it drops at its tick, keeps at any other, and looks at. */
  lemma SidesNamed(c: Cache, t: nat)
    ensures DropRead(c) == c.(bits := WithoutRead(c.bits)) && DropWrite(c) == c.(bits := WithoutWrite(c.bits))
    ensures ClearRead(c, t) == if c.tick == t then c.(bits := WithoutRead(c.bits)) else c
    ensures ClearWrite(c, t) == if c.tick == t then c.(bits := WithoutWrite(c.bits)) else c
    ensures ReadSide(c.bits) <==> c.bits.readable || c.bits.readClosed || c.bits.error
    ensures WriteSide(c.bits) <==> c.bits.writable || c.bits.writeClosed || c.bits.error
  {
  }

  /** The masked tests are the tests on the fields. */
  lemma SideBits(w: Word)
    ensures Has(w, READ_ALL) == ReadSide(Bits(w)) && Has(w, WRITE_ALL) == WriteSide(Bits(w))
  {
  }

  lemma BlockBits(w: Word)
    ensures var b := Bits(w);
      && Has(w, READ_ALL | SHUTDOWN) == (b.readable || b.readClosed || b.error || Has(w, SHUTDOWN))
      && Has(w, WRITE_ALL | SHUTDOWN) == (b.writable || b.writeClosed || b.error || Has(w, SHUTDOWN))
  {
  }

  lemma ConsumeReadUnpacked(w: Word)
    ensures Unpacked(Consumed(w, READ_ALL)) == DropRead(Unpacked(w))
  {
    DropReadUnpacked(w);
    assert w & READ_ALL == 0 ==> w & !READ_ALL == w;
  }

  lemma ConsumeWriteUnpacked(w: Word)
    ensures Unpacked(Consumed(w, WRITE_ALL)) == DropWrite(Unpacked(w))
  {
    DropWriteUnpacked(w);
    assert w & WRITE_ALL == 0 ==> w & !WRITE_ALL == w;
  }

  lemma ShutdownUnpacked(w: Word)
    ensures Unpacked(w | SHUTDOWN) == Unpacked(w).(shutdown := true)
  {
    assert (w | SHUTDOWN) & TICK_MASK == w & TICK_MASK;
  }
}
