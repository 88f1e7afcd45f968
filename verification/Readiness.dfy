/** A reader and a writer on an edge-triggered descriptor: the retry loops of tonio/_net/_socket.py over the readiness
    cache of src/io/schedule.rs, fed by the poller of src/runtime.rs. One step per atomic operation or lock section;
    one reader, one writer, one poller, a closer, and a kernel. */
module Readiness {
  import opened ReadyWord
  import R = Runs

  type EventId = nat

  datatype Slot = Empty | Armed(event: EventId)

  datatype Side = Reading | Writing

  /** The five things the kernel reports. */
  datatype Kind = Readable | Writable | ReadClosed | WriteClosed | Error

  type Kinds = set<Kind>

  /** The readiness word, with its bits as a set. */
  datatype View = View(tick: nat, shutdown: bool, bits: Kinds)

  datatype Pc =
    | Rest                       // outside `recv` or `send`
    | Arm | ArmLocked            // `arm`: the check, then the check under the lock
    | LoadTick | StoreTick(t: nat)
    | Try                        // `sock.recv` or `sock.send`
    | LoadClear | Clear(t: nat)  // `clear_r` or `clear_w`
    | Waiting(event: EventId)

  /** A reader or a writer, with its tick and its slot; `recorded` is history: the readiness updates made when it read
      the tick. */
  datatype Party = Party(pc: Pc, tick: nat, slot: Slot, recorded: nat)

  datatype Poller = Polling | Updating(ready: Kinds) | Waking(ready: Kinds)

  /** `shutdown`: the bit, then the wake. */
  datatype Closer = Open | Closing | Closed

  /** Unread data, room in the send buffer, no more data to come, nobody left to send to, and a pending error. */
  datatype Kernel = Kernel(data: nat, room: nat, ended: bool, broken: bool, error: bool)

  datatype State = State(
    kernel: Kernel,
    edge: bool,           // something has happened that the poller has not been told of
    word: View,           // the readiness word
    reader: Party,
    writer: Party,
    fired: set<EventId>,  // events handed to the scheduler to be set
    nextEvent: EventId,
    poller: Poller,
    closer: Closer,
    updates: nat,         // history: readiness updates so far
    lost: Kinds)          // history: what a clear wiped out, with nothing to report it since

  datatype Action =
    | Begin(d: Side)                  // `recv` or `send` is called
    | PartyStep(d: Side)
    | Transfer(d: Side, n: nat)       // the system call moves `n` units
    | Ended(d: Side, clears: bool)    // it returns end of file or raises; a pending error may be consumed
    | Interrupted(d: Side)
    | Abandon(d: Side)                // the wait is cancelled or times out
    | Happen(kernel: Kernel)          // data, room, an end or an error comes up
    | Poll(ready: Kinds)
    | PollerStep
    | CloserStep

  const ALL: Kinds := {Readable, Writable, ReadClosed, WriteClosed, Error}

  function If(b: bool, k: Kind): Kinds { if b then {k} else {} }

  /** What the kernel would report. */
  function Holds(k: Kernel): Kinds {
    If(k.data > 0, Readable) + If(k.room > 0, Writable) + If(k.ended, ReadClosed) + If(k.broken, WriteClosed)
    + If(k.error, Error)
  }

  /** The system call would not say that it would block. */
  predicate Something(k: Kernel, d: Side) {
    match d
    case Reading => k.data > 0 || k.ended || k.error
    case Writing => k.room > 0 || k.broken || k.error
  }

  /** What a side looks at and clears. */
  function Bits(d: Side): Kinds {
    match d
    case Reading => {Readable, ReadClosed, Error}
    case Writing => {Writable, WriteClosed, Error}
  }

  /** `set_readiness` and `clear` on the word. */
  function Updated(v: View, ready: Kinds): View { View((v.tick + 1) % 256, v.shutdown, v.bits + ready) }

  function Cleared(v: View, d: Side, t: nat): View { if v.tick != t then v else v.(bits := v.bits - Bits(d)) }

  function Idle(): Party { Party(Rest, 0, Empty, 0) }

  function Init(k: Kernel): State {
    State(k, true, View(0, false, {}), Idle(), Idle(), {}, 0, Polling, Open, 0, {})
  }

  /** Registration reports whatever holds from the start. */
  predicate Initial(s: State) { s == Init(s.kernel) }

  function Of(s: State, d: Side): Party { if d.Reading? then s.reader else s.writer }

  function With(s: State, d: Side, p: Party): State { if d.Reading? then s.(reader := p) else s.(writer := p) }

  function At(s: State, d: Side, pc: Pc): State { With(s, d, Of(s, d).(pc := pc)) }

  predicate Enabled(s: State, a: Action) {
    match a
    case Begin(d) => Of(s, d).pc.Rest?
    case PartyStep(d) =>
      var pc := Of(s, d).pc;
      && !pc.Rest? && (pc.Try? ==> !Something(s.kernel, d)) && (pc.Waiting? ==> pc.event in s.fired)
    case Transfer(d, n) =>
      // from the loop, or by the attempt that `send` makes before it
      && (Of(s, d).pc.Try? || Of(s, d).pc.Rest?)
      && 0 < n <= (if d.Reading? then s.kernel.data else s.kernel.room)
    case Ended(d, _) => Of(s, d).pc.Try?
    case Interrupted(d) => Of(s, d).pc.Try?
    case Abandon(d) => Of(s, d).pc.Waiting?
    case Happen(k) => s.kernel.data <= k.data && s.kernel.room <= k.room && Holds(s.kernel) <= Holds(k)
    case Poll(ready) =>
      // an edge not yet reported comes with all that holds
      s.poller.Polling? && (s.edge ==> Holds(s.kernel) <= ready)
    case PollerStep => !s.poller.Polling?
    case CloserStep => !s.closer.Closed?
  }

  /** Nothing for this side in the word: `arm` goes on to wait. */
  predicate Blocked(v: View, d: Side) { v.bits !! Bits(d) && !v.shutdown }

  function Step(s: State, a: Action): State
    requires Enabled(s, a)
  {
    match a
    case Begin(d) => At(s, d, Arm)
    case PartyStep(d) => PartyMove(s, d)
    case Transfer(d, n) =>
      var k := if d.Reading? then s.kernel.(data := s.kernel.data - n) else s.kernel.(room := s.kernel.room - n);
      At(s, d, Rest).(kernel := k, lost := s.lost * Holds(k))
    case Ended(d, clears) =>
      var k := s.kernel.(error := s.kernel.error && !clears);
      At(s, d, Rest).(kernel := k, lost := s.lost * Holds(k))
    case Interrupted(d) => At(s, d, Arm)
    case Abandon(d) => At(s, d, Rest)
    case Happen(k) => s.(kernel := k, edge := true, lost := {})
    case Poll(ready) => s.(edge := false, poller := Updating(ready), lost := s.lost - ready)
    case PollerStep => PollerMove(s)
    case CloserStep =>
      if s.closer.Open? then s.(word := s.word.(shutdown := true), closer := Closing)
      else Woken(Woken(s, Reading, true), Writing, true).(closer := Closed)
  }

  /** `wake`, for one slot: take it and hand its event to the scheduler. */
  function Woken(s: State, d: Side, ready: bool): State {
    var p := Of(s, d);
    if ready && p.slot.Armed? then With(s, d, p.(slot := Empty)).(fired := s.fired + {p.slot.event}) else s
  }

  predicate Concerns(ready: Kinds, d: Side) { !(ready !! Bits(d)) }

  function PollerMove(s: State): State {
    match s.poller
    case Polling => s
    case Updating(ready) => s.(word := Updated(s.word, ready), updates := s.updates + 1, poller := Waking(ready))
    case Waking(ready) =>
      Woken(Woken(s, Reading, Concerns(ready, Reading)), Writing, Concerns(ready, Writing)).(poller := Polling)
  }

  /** What the poller will still report: everything if it has not seen the edge, or the update not yet made. */
  function Coming(s: State): Kinds {
    if s.edge then ALL else if s.poller.Updating? then s.poller.ready else {}
  }

  /** What the clear about to be made wipes out: what holds, was reported, and will not be again. */
  function Wiped(s: State, d: Side): Kinds {
    var pc := Of(s, d).pc;
    if pc.Clear? && s.word.tick == pc.t then Bits(d) * Holds(s.kernel) * s.word.bits - Coming(s) else {}
  }

  function PartyMove(s: State, d: Side): State {
    var p := Of(s, d);
    match p.pc
    case Rest => s
    case Arm => At(s, d, if Blocked(s.word, d) then ArmLocked else LoadTick)
    case ArmLocked =>
      if Blocked(s.word, d) then
        With(s, d, p.(slot := Armed(s.nextEvent), pc := Waiting(s.nextEvent))).(nextEvent := s.nextEvent + 1)
      else At(s, d, LoadTick)
    case LoadTick => With(s, d, p.(pc := StoreTick(s.word.tick), recorded := s.updates))
    case StoreTick(t) => With(s, d, p.(tick := t, pc := Try))
    case Try => At(s, d, LoadClear)
    case LoadClear => At(s, d, Clear(p.tick))
    case Clear(t) =>
      At(s, d, Arm).(word := Cleared(s.word, d, t), lost := s.lost + Wiped(s, d))
    case Waiting(_) => At(s, d, Arm)
  }

  ghost predicate Next(s: State, s': State) { exists a :: Enabled(s, a) && s' == Step(s, a) }

  ghost predicate Reachable(s: State) { R.Reachable(Initial, Next, s) }

  // ---- the invariant ----

  predicate WakeComing(s: State, d: Side) {
    (s.poller.Waking? && Concerns(s.poller.ready, d)) || s.closer.Closing?
  }

  /** The ticks of a party, current and recorded. */
  predicate TickFits(p: Party, updates: nat) {
    && p.recorded <= updates
    && (p.pc.StoreTick? || p.pc.Clear? ==> p.pc.t == p.recorded % 256)
    && (p.pc.Try? || p.pc.LoadClear? ==> p.tick == p.recorded % 256)
  }

  /** What came after a failed attempt comes with an update of its own. */
  predicate AttemptFits(p: Party, bits: Kinds, updates: nat, held: Kinds, coming: Kinds) {
    p.pc.LoadClear? || p.pc.Clear? ==> updates > p.recorded || held * bits <= coming
  }

  /** An armed slot over a ready word is about to be woken, and a waiting party is in its slot or was handed over. */
  predicate SlotFits(s: State, d: Side) {
    var p := Of(s, d);
    && (p.slot.Armed? && !Blocked(s.word, d) ==> WakeComing(s, d))
    && (p.pc.Waiting? ==> p.slot == Armed(p.pc.event) || p.pc.event in s.fired)
  }

  /** What holds and is not lost. */
  function Held(s: State): Kinds { Holds(s.kernel) - s.lost }

  /** What holds and is not lost is in the word or coming; what is lost holds and is neither. */
  predicate Reported(s: State) {
    Held(s) <= Coming(s) + s.word.bits && s.lost <= Holds(s.kernel) - Coming(s) - s.word.bits
  }

  predicate Ticks(s: State) {
    s.word.tick == s.updates % 256 && TickFits(s.reader, s.updates) && TickFits(s.writer, s.updates)
  }

  predicate Attempts(s: State, d: Side) { AttemptFits(Of(s, d), Bits(d), s.updates, Held(s), Coming(s)) }

  predicate Inv(s: State) {
    && Ticks(s) && Reported(s)
    && Attempts(s, Reading) && Attempts(s, Writing)
    && SlotFits(s, Reading) && SlotFits(s, Writing)
  }

  lemma EveryKind(x: Kind)
    ensures x in ALL
  {
  }

  /** What a step of a party that is not a clear leaves alone. */
  lemma PartyFrame(s: State, d: Side)
    requires Enabled(s, PartyStep(d)) && !Of(s, d).pc.Clear?
    ensures var s' := PartyMove(s, d);
      && s'.kernel == s.kernel && s'.edge == s.edge && s'.word == s.word && s'.poller == s.poller
      && s'.lost == s.lost && s'.updates == s.updates && s'.closer == s.closer && s'.fired == s.fired
      && (d.Reading? ==> s'.writer == s.writer) && (d.Writing? ==> s'.reader == s.reader)
  {
  }

  lemma PartyTicks(s: State, d: Side)
    requires Ticks(s) && Enabled(s, PartyStep(d))
    ensures Ticks(PartyMove(s, d))
  {
    if !Of(s, d).pc.Clear? { PartyFrame(s, d); }
  }

  lemma TicksKept(s: State, a: Action)
    requires Ticks(s) && Enabled(s, a)
    ensures Ticks(Step(s, a))
  {
    if a.PartyStep? { PartyTicks(s, a.d); }
  }

  lemma ClearReported(s: State, d: Side)
    requires Reported(s) && Of(s, d).pc.Clear?
    ensures Reported(PartyMove(s, d))
  {
    var s' := PartyMove(s, d);
    assert s'.kernel == s.kernel && Coming(s') == Coming(s);
    forall x | x in Held(s') ensures x in Coming(s') + s'.word.bits {
      assert x in Held(s);
    }
  }

  /** The system call takes something away. */
  lemma TakenReported(s: State, a: Action)
    requires Reported(s) && Enabled(s, a) && (a.Transfer? || a.Ended?)
    ensures Reported(Step(s, a)) && Held(Step(s, a)) <= Held(s)
  {
    var s' := Step(s, a);
    HoldsNamed(s.kernel);
    HoldsNamed(s'.kernel);
    assert s'.word == s.word && Coming(s') == Coming(s);
    forall x | x in Holds(s'.kernel) ensures x in Holds(s.kernel) {
    }
  }

  lemma PollerReported(s: State)
    requires Reported(s) && Enabled(s, PollerStep)
    ensures Reported(PollerMove(s))
  {
    var s' := PollerMove(s);
    assert s'.kernel == s.kernel && s'.lost == s.lost && s'.edge == s.edge;
  }

  /** A step that touches neither the kernel nor what is reported of it. */
  predicate Aside(a: Action) { a.Begin? || a.Interrupted? || a.Abandon? || a.CloserStep? }

  lemma AsideFrame(s: State, a: Action)
    requires Enabled(s, a) && Aside(a)
    ensures var s' := Step(s, a);
      && s'.kernel == s.kernel && s'.lost == s.lost && s'.edge == s.edge && s'.poller == s.poller
      && s'.word.bits == s.word.bits && s'.word.tick == s.word.tick && s'.updates == s.updates
  {
  }

  lemma PollReported(s: State, ready: Kinds)
    requires Reported(s) && Enabled(s, Poll(ready))
    ensures Reported(Step(s, Poll(ready)))
  {
  }

  lemma ReportedKept(s: State, a: Action)
    requires Reported(s) && Enabled(s, a)
    ensures Reported(Step(s, a))
  {
    if a.PartyStep? {
      if Of(s, a.d).pc.Clear? { ClearReported(s, a.d); } else { PartyFrame(s, a.d); }
    } else if a.Happen? {
      forall x: Kind ensures x in ALL { EveryKind(x); }
    } else if a.Transfer? || a.Ended? {
      TakenReported(s, a);
    } else if a.Poll? {
      PollReported(s, a.ready);
    } else if a.PollerStep? {
      PollerReported(s);
    } else {
      AsideFrame(s, a);
    }
  }

  lemma PartyAttempts(s: State, e: Side, d: Side)
    requires Attempts(s, d) && Enabled(s, PartyStep(e))
    ensures Attempts(PartyMove(s, e), d)
  {
    if !Of(s, e).pc.Clear? { PartyFrame(s, e); }
  }

  lemma AttemptsKept(s: State, a: Action, d: Side)
    requires Ticks(s) && Reported(s) && Attempts(s, d) && Enabled(s, a)
    ensures Attempts(Step(s, a), d)
  {
    if a.PartyStep? {
      PartyAttempts(s, a.d, d);
    } else if a.Happen? {
      forall x: Kind ensures x in ALL { EveryKind(x); }
    } else if a.Transfer? || a.Ended? {
      TakenReported(s, a);
    } else if Aside(a) {
      AsideFrame(s, a);
    }
  }

  lemma PartySlots(s: State, e: Side, d: Side)
    requires SlotFits(s, d) && Enabled(s, PartyStep(e))
    ensures SlotFits(PartyMove(s, e), d)
  {
    if !Of(s, e).pc.Clear? { PartyFrame(s, e); }
  }

  lemma SlotsKept(s: State, a: Action, d: Side)
    requires SlotFits(s, d) && Enabled(s, a)
    ensures SlotFits(Step(s, a), d)
  {
    if a.PartyStep? { PartySlots(s, a.d, d); }
  }

  lemma InvKept(s: State, a: Action)
    requires Inv(s) && Enabled(s, a)
    ensures Inv(Step(s, a))
  {
    TicksKept(s, a);
    ReportedKept(s, a);
    AttemptsKept(s, a, Reading);
    AttemptsKept(s, a, Writing);
    SlotsKept(s, a, Reading);
    SlotsKept(s, a, Writing);
  }

  lemma ReachableInv(s: State)
    requires Reachable(s)
    ensures Inv(s)
  {
    forall r, r' | Inv(r) && Next(r, r') ensures Inv(r') {
      var a :| Enabled(r, a) && r' == Step(r, a);
      InvKept(r, a);
    }
    R.Always(Initial, Next, Inv, s);
  }

  // ---- theorems ----

  lemma HoldsNamed(k: Kernel)
    ensures Readable in Holds(k) <==> k.data > 0
    ensures Writable in Holds(k) <==> k.room > 0
    ensures ReadClosed in Holds(k) <==> k.ended
    ensures WriteClosed in Holds(k) <==> k.broken
    ensures Error in Holds(k) <==> k.error
  {
    assert forall b, x, y :: y in If(b, x) <==> b && x == y;
  }

  lemma KindReported(s: State, x: Kind)
    requires Reported(s) && x in Holds(s.kernel)
    ensures x in s.word.bits || x in Coming(s) <==> x !in s.lost
  {
    if x !in s.lost {
      assert x in Held(s);
    }
  }

  lemma KindPromised(s: State, d: Side, x: Kind)
    requires Inv(s) && Of(s, d).pc.Waiting? && Of(s, d).pc.event !in s.fired && x in Holds(s.kernel) && x in Bits(d)
    ensures Promised(s, d, x) || x in s.lost
  {
    KindReported(s, x);
    if x in s.word.bits {
      assert !Blocked(s.word, d);
    }
  }

  /** In every run, unread data, room to send, an end, a broken pipe and an error are each reported in the word or about
      to be reported if and only if no clear has wiped that out with nothing to report it since. */
  lemma ReportedExactly(s: State)
    requires Reachable(s)
    ensures s.kernel.data > 0 ==> (Readable in s.word.bits || Readable in Coming(s) <==> Readable !in s.lost)
    ensures s.kernel.room > 0 ==> (Writable in s.word.bits || Writable in Coming(s) <==> Writable !in s.lost)
    ensures s.kernel.ended ==> (ReadClosed in s.word.bits || ReadClosed in Coming(s) <==> ReadClosed !in s.lost)
    ensures s.kernel.broken ==> (WriteClosed in s.word.bits || WriteClosed in Coming(s) <==> WriteClosed !in s.lost)
    ensures s.kernel.error ==> (Error in s.word.bits || Error in Coming(s) <==> Error !in s.lost)
  {
    ReachableInv(s);
    HoldsNamed(s.kernel);
    forall x | x in Holds(s.kernel) ensures x in s.word.bits || x in Coming(s) <==> x !in s.lost {
      KindReported(s, x);
    }
  }

  /** A clear wipes out exactly what holds of its side, is not lost already and is not still to be reported, if it is
      made at a full turn of the tick, and nothing otherwise: this can be told before it is made. */
  lemma ClearLosesExactly(s: State, d: Side)
    requires Reachable(s) && Of(s, d).pc.Clear?
    ensures var turns := s.updates - Of(s, d).recorded;
      Step(s, PartyStep(d)).lost
        == s.lost + if turns % 256 == 0 then Bits(d) * Holds(s.kernel) - s.lost - Coming(s) else {}
  {
    ReachableInv(s);
    SameTick(Of(s, d).recorded, s.updates);
    forall x | x in Bits(d) * Holds(s.kernel) - s.lost - Coming(s) ensures x in s.word.bits {
      KindReported(s, x);
    }
  }

  /** What `d` waits for will come: an edge still to be delivered, an update still to be made, or a wake still to come
      from the poller or the closer. */
  predicate Promised(s: State, d: Side, k: Kind) { k in Coming(s) || WakeComing(s, d) }

  /** A parked reader is in its slot; and unread data, an end of file or an error that it could have is promised to it,
      unless it was lost. */
  lemma ReaderNeverStalls(s: State)
    requires Reachable(s) && s.reader.pc.Waiting? && s.reader.pc.event !in s.fired
    ensures s.reader.slot == Armed(s.reader.pc.event)
    ensures s.kernel.data > 0 ==> Promised(s, Reading, Readable) || Readable in s.lost
    ensures s.kernel.ended ==> Promised(s, Reading, ReadClosed) || ReadClosed in s.lost
    ensures s.kernel.error ==> Promised(s, Reading, Error) || Error in s.lost
  {
    ReachableInv(s);
    HoldsNamed(s.kernel);
    forall x | x in Holds(s.kernel) && x in Bits(Reading) ensures Promised(s, Reading, x) || x in s.lost {
      KindPromised(s, Reading, x);
    }
  }

  /** A parked writer is in its slot; and room to send, a broken pipe or an error that it could have is promised to it,
      unless it was lost. */
  lemma WriterNeverStalls(s: State)
    requires Reachable(s) && s.writer.pc.Waiting? && s.writer.pc.event !in s.fired
    ensures s.writer.slot == Armed(s.writer.pc.event)
    ensures s.kernel.room > 0 ==> Promised(s, Writing, Writable) || Writable in s.lost
    ensures s.kernel.broken ==> Promised(s, Writing, WriteClosed) || WriteClosed in s.lost
    ensures s.kernel.error ==> Promised(s, Writing, Error) || Error in s.lost
  {
    ReachableInv(s);
    HoldsNamed(s.kernel);
    forall x | x in Holds(s.kernel) && x in Bits(Writing) ensures Promised(s, Writing, x) || x in s.lost {
      KindPromised(s, Writing, x);
    }
  }

  /** No clear is made at a full turn of the tick since its attempt read it; in particular none with fewer than 256
      readiness updates in between. */
  predicate InTime(s: State, a: Action) {
    a.PartyStep? && Of(s, a.d).pc.Clear? ==>
      s.updates <= Of(s, a.d).recorded || (s.updates - Of(s, a.d).recorded) % 256 != 0
  }

  ghost predicate NextInTime(s: State, s': State) { exists a :: Enabled(s, a) && InTime(s, a) && s' == Step(s, a) }

  ghost predicate InvNotLost(s: State) { Inv(s) && s.lost == {} }

  /** A run whose clears are all in time loses nothing. */
  lemma NothingLostInTime(s: State)
    requires R.Reachable(Initial, NextInTime, s)
    ensures s.lost == {} && Holds(s.kernel) <= Coming(s) + s.word.bits
  {
    forall r, r' | InvNotLost(r) && NextInTime(r, r') ensures InvNotLost(r') {
      var a :| Enabled(r, a) && InTime(r, a) && r' == Step(r, a);
      InvKept(r, a);
      NotLostKept(r, a);
    }
    R.Always(Initial, NextInTime, InvNotLost, s);
  }

  lemma NotLostKept(s: State, a: Action)
    requires InvNotLost(s) && Enabled(s, a) && InTime(s, a)
    ensures Step(s, a).lost == {}
  {
    if a.PartyStep? {
      SameTick(Of(s, a.d).recorded, s.updates);
      if !Of(s, a.d).pc.Clear? { PartyFrame(s, a.d); }
    }
  }

  /** `arm` goes on to an attempt exactly over a word with something for its side, or shut down. */
  lemma ArmExact(s: State, d: Side)
    requires Enabled(s, PartyStep(d)) && (Of(s, d).pc.Arm? || Of(s, d).pc.ArmLocked?)
    ensures var b, pc := s.word.bits, Of(Step(s, PartyStep(d)), d).pc;
      pc.LoadTick? <==>
        s.word.shutdown || (if d.Reading? then Readable in b || ReadClosed in b || Error in b
                            else Writable in b || WriteClosed in b || Error in b)
  {
  }

  /** A call that moved something, ended, or was abandoned is over; it moved what it says, and only an end consumes an
      error. */
  lemma CallEnds(s: State, a: Action)
    requires Enabled(s, a) && (a.Transfer? || a.Ended? || a.Abandon?)
    ensures var k, s' := s.kernel, Step(s, a);
      && Of(s', a.d).pc.Rest? && s'.word == s.word && s'.fired == s.fired
      && s'.kernel.data == k.data - (if a.Transfer? && a.d.Reading? then a.n else 0)
      && s'.kernel.room == k.room - (if a.Transfer? && a.d.Writing? then a.n else 0)
      && s'.kernel.error == (k.error && !(a.Ended? && a.clears))
  {
  }

  ghost predicate By(d: Side, s: State, s': State) { Enabled(s, PartyStep(d)) && s' == Step(s, PartyStep(d)) }

  /** Party `d`, moving alone, gets from `origin` to `s`. */
  ghost predicate Leads(origin: State, d: Side, s: State) { R.Path((x, y) => By(d, x, y), origin, s) }

  lemma Stays(s: State, d: Side)
    ensures Leads(s, d, s)
  {
    R.Stays((x, y) => By(d, x, y), s);
  }

  lemma Goes(origin: State, d: Side, s: State)
    requires Leads(origin, d, s) && Enabled(s, PartyStep(d))
    ensures Leads(origin, d, PartyMove(s, d))
  {
    R.Goes((x, y) => By(d, x, y), origin, s, PartyMove(s, d));
  }

  /** A party that arms over a ready word attempts its call with the current tick recorded. */
  lemma ReadyAttempts(s: State, d: Side)
    requires Of(s, d).pc.Arm? && !Blocked(s.word, d)
    ensures Leads(s, d, With(s, d, Of(s, d).(pc := Try, tick := s.word.tick, recorded := s.updates)))
  {
    Stays(s, d);
    Goes(s, d, s);
    var s1 := At(s, d, LoadTick);
    Goes(s, d, s1);
    var s2 := PartyMove(s1, d);
    Goes(s, d, s2);
  }

  /** A party that was woken, or whose call was interrupted, tries again if the word still has something for it. */
  lemma TriesAgain(s: State, d: Side)
    requires !Blocked(s.word, d)
    ensures Of(s, d).pc.Waiting? && Of(s, d).pc.event in s.fired ==>
      Leads(s, d, With(s, d, Of(s, d).(pc := Try, tick := s.word.tick, recorded := s.updates)))
    ensures Of(s, d).pc.Try? ==>
      var s1 := Step(s, Interrupted(d));
      Leads(s1, d, With(s1, d, Of(s1, d).(pc := Try, tick := s.word.tick, recorded := s.updates)))
  {
    if Of(s, d).pc.Waiting? && Of(s, d).pc.event in s.fired {
      Stays(s, d);
      Goes(s, d, s);
      var s1 := At(s, d, Arm);
      ReadyAttempts(s1, d);
      var s2 := With(s1, d, Of(s1, d).(pc := Try, tick := s.word.tick, recorded := s.updates));
      R.PathOn((x, y) => By(d, x, y), s, s1, s2);
    } else if Of(s, d).pc.Try? {
      ReadyAttempts(Step(s, Interrupted(d)), d);
    }
  }

  /** A party whose call would block, left alone with no update since it armed, clears its side and parks. */
  lemma BlockedParks(s: State, d: Side) returns (s': State)
    requires Of(s, d).pc.Try? && !Something(s.kernel, d) && s.word.tick == Of(s, d).tick && !s.word.shutdown
    ensures Leads(s, d, s') && Of(s', d).pc == Waiting(s.nextEvent) && Of(s', d).slot == Armed(s.nextEvent)
    ensures s'.word == s.word.(bits := s.word.bits - Bits(d)) && s'.fired == s.fired
  {
    Stays(s, d);
    Goes(s, d, s);
    var s1 := PartyMove(s, d);
    Goes(s, d, s1);
    var s2 := PartyMove(s1, d);
    assert Of(s2, d).pc == Clear(s.word.tick) && s2.word == s.word;
    Goes(s, d, s2);
    var s3 := PartyMove(s2, d);
    assert Of(s3, d).pc == Arm && s3.word == s.word.(bits := s.word.bits - Bits(d)) && Blocked(s3.word, d);
    s' := Parks(s, d, s3);
  }

  lemma Parks(origin: State, d: Side, s: State) returns (s': State)
    requires Leads(origin, d, s) && Of(s, d).pc.Arm? && Blocked(s.word, d)
    ensures Leads(origin, d, s') && Of(s', d).pc == Waiting(s.nextEvent) && Of(s', d).slot == Armed(s.nextEvent)
    ensures s'.word == s.word && s'.fired == s.fired
  {
    Goes(origin, d, s);
    var s1 := At(s, d, ArmLocked);
    Goes(origin, d, s1);
    s' := PartyMove(s1, d);
  }

  // ---- closing ----

  predicate ClosedFits(s: State) {
    && (!s.closer.Open? ==> s.word.shutdown)
    && (s.closer.Closed? ==> s.reader.slot.Empty? && s.writer.slot.Empty?)
  }

  lemma ClosedKept(s: State, a: Action)
    requires ClosedFits(s) && Enabled(s, a)
    ensures ClosedFits(Step(s, a))
  {
    if a.PartyStep? && !Of(s, a.d).pc.Clear? { PartyFrame(s, a.d); }
  }

  /** Once the entry is shut down nobody stays parked on it: the event of every waiting party has been handed over, and
      the bit that keeps later ones from waiting is up. */
  lemma NobodyParkedOnClosed(s: State, d: Side)
    requires Reachable(s) && s.closer.Closed?
    ensures s.word.shutdown && Of(s, d).slot.Empty?
    ensures Of(s, d).pc.Waiting? ==> Of(s, d).pc.event in s.fired
  {
    ReachableInv(s);
    forall r, r' | ClosedFits(r) && Next(r, r') ensures ClosedFits(r') {
      var a :| Enabled(r, a) && r' == Step(r, a);
      ClosedKept(r, a);
    }
    R.Always(Initial, Next, ClosedFits, s);
  }

  // ---- the word of `ScheduledIO` ----

  predicate Has(r: Ready, x: Kind) {
    match x
    case Readable => r.readable
    case Writable => r.writable
    case ReadClosed => r.readClosed
    case WriteClosed => r.writeClosed
    case Error => r.error
  }

  function KindsOf(r: Ready): (ks: Kinds)
    ensures forall x :: x in ks <==> Has(r, x)
  {
    forall x: Kind ensures x in ALL { EveryKind(x); }
    set x | x in ALL && Has(r, x)
  }

  function ViewOf(c: Cache): View { View(c.tick, c.shutdown, KindsOf(c.bits)) }

  lemma SameUpdate(c: Cache, r: Ready)
    ensures ViewOf(Update(c, r)) == Updated(ViewOf(c), KindsOf(r))
  {
    forall x ensures Has(Update(c, r).bits, x) <==> Has(c.bits, x) || Has(r, x) {
    }
  }

  lemma SameClear(c: Cache, t: nat)
    ensures ViewOf(ClearRead(c, t)) == Cleared(ViewOf(c), Reading, t)
    ensures ViewOf(ClearWrite(c, t)) == Cleared(ViewOf(c), Writing, t)
  {
    forall x ensures Has(DropRead(c).bits, x) <==> Has(c.bits, x) && x !in Bits(Reading) {
    }
    forall x ensures Has(DropWrite(c).bits, x) <==> Has(c.bits, x) && x !in Bits(Writing) {
    }
    assert KindsOf(DropRead(c).bits) == KindsOf(c.bits) - Bits(Reading);
    assert KindsOf(DropWrite(c).bits) == KindsOf(c.bits) - Bits(Writing);
  }

  lemma SameSides(r: Ready)
    ensures ReadSide(r) <==> Concerns(KindsOf(r), Reading)
    ensures WriteSide(r) <==> Concerns(KindsOf(r), Writing)
  {
    if ReadSide(r) {
      var x := if r.readable then Readable else if r.readClosed then ReadClosed else Kind.Error;
      assert x in KindsOf(r) && x in Bits(Reading);
    }
    if WriteSide(r) {
      var x := if r.writable then Writable else if r.writeClosed then WriteClosed else Kind.Error;
      assert x in KindsOf(r) && x in Bits(Writing);
    }
  }

  /** The operations and tests of the step system are those on the unpacked word. */
  lemma SameOperations(c: Cache, r: Ready, t: nat)
    ensures ViewOf(Update(c, r)) == Updated(ViewOf(c), KindsOf(r))
    ensures ViewOf(ClearRead(c, t)) == Cleared(ViewOf(c), Reading, t)
    ensures ViewOf(ClearWrite(c, t)) == Cleared(ViewOf(c), Writing, t)
    ensures ReadSide(r) <==> Concerns(KindsOf(r), Reading)
    ensures WriteSide(r) <==> Concerns(KindsOf(r), Writing)
  {
    SameUpdate(c, r);
    SameClear(c, t);
    SameSides(r);
  }

  // ---- the bound is needed ----

  lemma Go(s: State, a: Action, s': State)
    requires Reachable(s) && Enabled(s, a) && Step(s, a) == s'
    ensures Reachable(s')
  {
    R.Extend(Initial, Next, s, s');
  }

  /** A state with the writer at rest. */
  function Rd(data: nat, edge: bool, word: View, reader: Party, poller: Poller, updates: nat): State {
    State(Kernel(data, 0, false, false, false), edge, word, reader, Idle(), {}, 0, poller, Open, updates, {})
  }

  /** One round of the poller. */
  lemma Round(data: nat, edge: bool, word: View, reader: Party, updates: nat, ready: Kinds)
    requires Reachable(Rd(data, edge, word, reader, Polling, updates)) && reader.slot.Empty?
    requires edge && data > 0 ==> Readable in ready
    ensures Reachable(Rd(data, false, Updated(word, ready), reader, Polling, updates + 1))
  {
    var s := Rd(data, edge, word, reader, Polling, updates);
    Go(s, Poll(ready), Rd(data, false, word, reader, Updating(ready), updates));
    var s2 := Rd(data, false, Updated(word, ready), reader, Waking(ready), updates + 1);
    Go(Rd(data, false, word, reader, Updating(ready), updates), PollerStep, s2);
    Go(s2, PollerStep, Rd(data, false, Updated(word, ready), reader, Polling, updates + 1));
  }

  /** The reader has found nothing and is about to clear. */
  lemma FindsNothing()
    ensures Reachable(Rd(0, false, View(1, false, {Readable}), Party(LoadClear, 1, Empty, 1), Polling, 1))
  {
    var word := View(1, false, {Readable});
    var s0 := Rd(0, true, View(0, false, {}), Idle(), Polling, 0);
    assert s0 == Init(s0.kernel);
    R.Begin(Initial, Next, s0);
    Round(0, true, View(0, false, {}), Idle(), 0, {Readable});
    assert Updated(View(0, false, {}), {Readable}) == word;
    var s1 := Rd(0, false, word, Party(Arm, 0, Empty, 0), Polling, 1);
    Go(Rd(0, false, word, Idle(), Polling, 1), Begin(Reading), s1);
    var s2 := Rd(0, false, word, Party(LoadTick, 0, Empty, 0), Polling, 1);
    assert Readable in word.bits && Readable in Bits(Reading);
    Go(s1, PartyStep(Reading), s2);
    Attempt(word, s2);
  }

  lemma Attempt(word: View, s2: State)
    requires word == View(1, false, {Readable}) && s2 == Rd(0, false, word, Party(LoadTick, 0, Empty, 0), Polling, 1)
    requires Reachable(s2)
    ensures Reachable(Rd(0, false, word, Party(LoadClear, 1, Empty, 1), Polling, 1))
  {
    var s3 := Rd(0, false, word, Party(StoreTick(1), 0, Empty, 1), Polling, 1);
    Go(s2, PartyStep(Reading), s3);
    var s4 := Rd(0, false, word, Party(Try, 1, Empty, 1), Polling, 1);
    Go(s3, PartyStep(Reading), s4);
    Go(s4, PartyStep(Reading), Rd(0, false, word, Party(LoadClear, 1, Empty, 1), Polling, 1));
  }

  /** Then a byte arrives and is reported, and `n` more updates follow. */
  function Missed(n: nat): State {
    Rd(1, false, View((2 + n) % 256, false, if n == 0 then {Readable} else {Readable, Writable}),
       Party(LoadClear, 1, Empty, 1), Polling, 2 + n)
  }

  lemma {:induction false} ManyRounds(n: nat)
    ensures Reachable(Missed(n))
  {
    var p := Party(LoadClear, 1, Empty, 1);
    if n == 0 {
      FindsNothing();
      var word := View(1, false, {Readable});
      var arrival := Happen(Kernel(1, 0, false, false, false));
      Go(Rd(0, false, word, p, Polling, 1), arrival, Rd(1, true, word, p, Polling, 1));
      Round(1, true, word, p, 1, {Readable});
      assert Updated(word, {Readable}) == Missed(0).word;
    } else {
      ManyRounds(n - 1);
      var word := Missed(n - 1).word;
      Round(1, false, word, p, 1 + n, {Writable});
      NextTick(1 + n);
      assert Updated(word, {Writable}) == Missed(n).word;
    }
  }

  /** After a clear made at a full turn. */
  function Late(p: Party): State {
    Rd(1, false, View(1, false, {Writable}), p, Polling, 257).(lost := {Readable})
  }

  function Stalled(): State {
    Late(Party(Waiting(0), 1, Armed(0), 1)).(nextEvent := 1)
  }

  lemma ClearsLate()
    ensures Reachable(Late(Party(Arm, 1, Empty, 1)))
  {
    ManyRounds(255);
    var word := View(1, false, {Readable, Writable});
    assert Missed(255) == Rd(1, false, word, Party(LoadClear, 1, Empty, 1), Polling, 257);
    var s1 := Rd(1, false, word, Party(Clear(1), 1, Empty, 1), Polling, 257);
    Go(Missed(255), PartyStep(Reading), s1);
    assert word.bits - Bits(Reading) == {Writable};
    assert Wiped(s1, Reading) == {Readable};
    Go(s1, PartyStep(Reading), Late(Party(Arm, 1, Empty, 1)));
  }

  /** With 256 updates inside one attempt the tick comes round, the stale clear goes through, and the
      reader parks over data that nothing will report. */
  lemma FullTurnStalls()
    ensures Reachable(Stalled())
    ensures Stalled().reader.pc == Waiting(0) && 0 !in Stalled().fired && Stalled().kernel.data > 0
    ensures !Promised(Stalled(), Reading, Readable)
  {
    ClearsLate();
    Go(Late(Party(Arm, 1, Empty, 1)), PartyStep(Reading), Late(Party(ArmLocked, 1, Empty, 1)));
    Go(Late(Party(ArmLocked, 1, Empty, 1)), PartyStep(Reading), Stalled());
  }
}
