/** The bounded and the unbounded channel of src/sync.rs with the `receive` loops of tonio/_sync.py. One step per atomic
    operation or lock section; a thread is one call to `send`, `receive` or `close`. */
module Channel {
  import opened Ledger
  import R = Runs

  type Message = nat

  /** The sender to notify when its message is pulled, if it was over the capacity. */
  datatype Want = Nobody | Sender(k: int)

  datatype Entry = Entry(msg: Message, want: Want)

  datatype Pc =
    // send
    | Check(msg: Message)
    | Grow(msg: Message)                  // `len.fetch_add`
    | Put(msg: Message, over: bool)       // the lock section of `push`
    | Ring(w: int, over: bool)            // set the event of the receiver popped there
    | Blocked                             // waits for its message to be pulled
    | Sent | Broken
    // receive
    | Pull(second: bool, woken: bool)     // the two lock sections of `pull`
    | Parked
    | Shrink(e: Entry)                    // `len.fetch_sub`
    | Tell(k: int, msg: Message)          // set the event of the sender
    | Got(msg: Message) | Shut
    // close
    | Mark | Take | RingAll(ws: seq<int>) | Finished

  /** `rung` is the flag of the event the thread waits for; `put` is history: its message has been enqueued. */
  datatype Thread = Thread(pc: Pc, rung: bool, put: bool)

  datatype State = State(
    bounded: bool,          // an unbounded channel keeps no `len` and no sender events
    size: nat,
    len: int,
    closed: bool,
    queue: seq<Entry>,
    waiters: seq<int>,
    ts: seq<Thread>,
    sent: seq<Message>,     // history: enqueued
    taken: seq<Message>)    // history: dequeued

  datatype Action = Send(msg: Message) | Receive | Close | Tick(k: int)

  function Init(bounded: bool, size: nat): State { State(bounded, size, 0, false, [], [], [], [], []) }

  predicate Enabled(s: State, a: Action) {
    a.Tick? ==>
      && 0 <= a.k < |s.ts|
      && var t := s.ts[a.k];
      && !t.pc.Sent? && !t.pc.Broken? && !t.pc.Got? && !t.pc.Shut? && !t.pc.Finished?
      && (t.pc.Blocked? || t.pc.Parked? ==> t.rung)
  }

  function Step(s: State, a: Action): State
    requires Enabled(s, a)
  {
    match a
    case Send(msg) => s.(ts := s.ts + [Thread(Check(msg), false, false)])
    case Receive => s.(ts := s.ts + [Thread(Pull(false, false), false, false)])
    case Close => s.(ts := s.ts + [Thread(Mark, false, false)])
    case Tick(k) =>
      var t := s.ts[k];
      s.(ts := RungBy(s.ts, t.pc)[k := Thread(Next(s, t.pc), s.ts[k].rung && !Parks(s, t.pc), t.put || t.pc.Put?)],
         len := s.len + LenChange(t.pc),
         closed := s.closed || t.pc.Mark?,
         queue := if t.pc.Put? then s.queue + [Entered(t.pc, k)] else if Pops(s, t.pc) then s.queue[1..] else s.queue,
         waiters := NextWaiters(s, t.pc, k),
         sent := if t.pc.Put? then s.sent + [t.pc.msg] else s.sent,
         taken := if Pops(s, t.pc) then s.taken + [s.queue[0].msg] else s.taken)
  }

  function Next(s: State, pc: Pc): Pc {
    match pc
    case Check(msg) => if s.closed then Broken else if s.bounded then Grow(msg) else Put(msg, false)
    case Grow(msg) => Put(msg, s.len >= s.size)
    case Put(msg, over) => if s.waiters != [] then Ring(s.waiters[0], over) else if over then Blocked else Sent
    case Ring(_, over) => if over then Blocked else Sent
    case Blocked => Sent
    case Pull(second, _) =>
      if s.queue != [] then (if s.bounded then Shrink(s.queue[0]) else Got(s.queue[0].msg))
      else if s.closed then Shut
      else if second then Parked else Pull(true, false)
    case Parked => Pull(false, true)
    case Shrink(e) => if e.want.Sender? then Tell(e.want.k, e.msg) else Got(e.msg)
    case Tell(_, msg) => Got(msg)
    case Mark => if s.closed then Finished else Take
    case Take => RingAll(s.waiters)
    case RingAll(ws) => if ws == [] then Finished else RingAll(ws[1..])
    case _ => pc
  }

  function LenChange(pc: Pc): int { if pc.Grow? then 1 else if pc.Shrink? then -1 else 0 }

  /** The entry a `Put` makes. */
  function Entered(pc: Pc, k: int): Entry
    requires pc.Put?
  {
    Entry(pc.msg, if pc.over then Sender(k) else Nobody)
  }

  predicate Pops(s: State, pc: Pc) { pc.Pull? && s.queue != [] }

  predicate Parks(s: State, pc: Pc) { pc.Pull? && pc.second && s.queue == [] && !s.closed }

  function NextWaiters(s: State, pc: Pc, k: int): seq<int> {
    if pc.Put? && s.waiters != [] then s.waiters[1..]
    else if pc.Take? then []
    else if Parks(s, pc) then s.waiters + [k]
    else s.waiters
  }

  /** The thread whose event the operation sets, or -1. */
  function Target(pc: Pc): int {
    match pc
    case Ring(w, _) => w
    case Tell(k, _) => k
    case RingAll(ws) => if ws == [] then -1 else ws[0]
    case _ => -1
  }

  function RungBy(ts: seq<Thread>, pc: Pc): (ts': seq<Thread>)
    ensures |ts'| == |ts|
  {
    var j := Target(pc);
    if 0 <= j < |ts| then ts[j := ts[j].(rung := true)] else ts
  }

  ghost predicate Initial(s: State) { s == Init(s.bounded, s.size) }

  ghost predicate NextState(s: State, s': State) { exists a :: Enabled(s, a) && s' == Step(s, a) }

  ghost predicate Reachable(s: State) { R.Reachable(Initial, NextState, s) }

  // ---- ledgers ----

  /** Counted in `len` but not in the queue: pushers not yet enqueued, pullers not yet debited. */
  function Outside(t: Thread): int { B(t.pc.Put? || t.pc.Shrink?) }

  /** Of those, the ones whose message carries no sender event. */
  function FreeOutside(t: Thread): int {
    match t.pc
    case Put(_, over) => B(!over)
    case Shrink(e) => B(e.want.Nobody?)
    case _ => 0
  }

  function FreeEntry(e: Entry): int { B(e.want.Nobody?) }

  function One(e: Entry): int { 1 }

  /** Receivers that were woken and have not yet pulled, counted from the moment they are popped. */
  function Woken(t: Thread): int {
    match t.pc
    case Ring(_, _) => 1
    case Parked => B(t.rung)
    case Pull(_, woken) => B(woken)
    case _ => 0
  }

  /** Wakes on their way to receiver `x`. */
  function RingsFor(x: int): Thread -> int {
    (t: Thread) => match t.pc
      case Ring(w, _) => B(w == x)
      case RingAll(ws) => Count(ws, x)
      case _ => 0
  }

  /** Notifications on their way to sender `x`, and the entries that will send one. */
  function TellsFor(x: int): Thread -> int {
    (t: Thread) => match t.pc
      case Shrink(e) => B(e.want == Sender(x))
      case Tell(k, _) => B(k == x)
      case _ => 0
  }

  function WantedBy(x: int): Entry -> int { (e: Entry) => B(e.want == Sender(x)) }

  /** Waits for its message to be pulled, and has not been told. */
  predicate Untold(t: Thread) { (t.pc.Blocked? || (t.pc.Ring? && t.pc.over)) && !t.rung }

  predicate Unrung(t: Thread) { t.pc.Parked? && !t.rung }

  predicate LenLedger(s: State) { s.bounded ==> s.len == |s.queue| + Sum(s.ts, Outside) }

  predicate Capacity(s: State) { s.bounded ==> Sum(s.queue, FreeEntry) + Sum(s.ts, FreeOutside) <= s.size }

  predicate Order(s: State) { s.sent == s.taken + Messages(s.queue) }

  function Messages(q: seq<Entry>): seq<Message> {
    if q == [] then [] else [q[0].msg] + Messages(q[1..])
  }

  /** A parked receiver is in the deque, or somebody is about to set its event: exactly one of the two. */
  predicate ParkLedger(s: State, x: int) {
    Count(s.waiters, x) + Sum(s.ts, RingsFor(x)) == B(UnrungAt(s, x))
  }

  /** Receivers that have message `m`. */
  function ReceivedBy(m: Message): Thread -> int {
    (t: Thread) => match t.pc
      case Shrink(e) => B(e.msg == m)
      case Tell(_, msg) => B(msg == m)
      case Got(msg) => B(msg == m)
      case _ => 0
  }

  predicate ReceivedLedger(s: State, m: Message) { Sum(s.ts, ReceivedBy(m)) == Count(s.taken, m) }

  /** A sender over the capacity has its message in the queue, or somebody is about to set its event. */
  predicate SenderLedger(s: State, x: int) {
    s.bounded ==> Sum(s.queue, WantedBy(x)) + Sum(s.ts, TellsFor(x)) == B(UntoldAt(s, x))
  }

  /** If a receiver is parked in the deque, there are no more messages than woken receivers. */
  predicate WakesSuffice(s: State) { s.waiters != [] ==> |s.queue| <= Sum(s.ts, Woken) }

  /** Once closed and taken, the deque stays empty. */
  ghost predicate ClosedEmpties(s: State) {
    s.closed && s.waiters != [] ==> exists k :: 0 <= k < |s.ts| && s.ts[k].pc.Take?
  }

  predicate Quiet(t: Thread) { (t.pc.Check? || t.pc.Grow? || t.pc.Put?) ==> !t.rung }

  /** Steps that only a bounded channel takes. */
  predicate BoundedOnly(pc: Pc) {
    pc.Grow? || pc.Blocked? || pc.Shrink? || pc.Tell? || ((pc.Put? || pc.Ring?) && pc.over)
  }

  ghost predicate Inv(s: State) {
    && LenLedger(s) && Capacity(s) && Order(s) && WakesSuffice(s) && ClosedEmpties(s)
    && (forall x: int :: ParkLedger(s, x)) && (forall x: int :: SenderLedger(s, x))
    && (forall k :: 0 <= k < |s.ts| ==> Quiet(s.ts[k]))
    && (forall m: Message :: ReceivedLedger(s, m))
    && (!s.bounded ==> forall k :: 0 <= k < |s.ts| ==> !BoundedOnly(s.ts[k].pc))
  }

  // ---- sums over a step ----

  lemma SumTick(s: State, k: int, weight: Thread -> int)
    requires Enabled(s, Tick(k))
    ensures var t, j, s' := s.ts[k], Target(s.ts[k].pc), Step(s, Tick(k));
      Sum(s'.ts, weight) == Sum(s.ts, weight) - weight(t) + weight(s'.ts[k])
        + (if 0 <= j < |s.ts| && j != k then weight(s.ts[j].(rung := true)) - weight(s.ts[j]) else 0)
  {
    var t, j, s' := s.ts[k], Target(s.ts[k].pc), Step(s, Tick(k));
    if 0 <= j < |s.ts| {
      SumUpdate(s.ts, j, s.ts[j].(rung := true), weight);
    }
    SumUpdate(RungBy(s.ts, t.pc), k, s'.ts[k], weight);
  }

  lemma SumPop(q: seq<Entry>, weight: Entry -> int)
    requires q != []
    ensures Sum(q, weight) == weight(q[0]) + Sum(q[1..], weight)
  {
  }

  lemma {:induction false} MessagesPush(q: seq<Entry>, e: Entry)
    ensures Messages(q + [e]) == Messages(q) + [e.msg]
  {
    if q == [] {
      assert q + [e] == [e];
    } else {
      assert (q + [e])[1..] == q[1..] + [e];
      MessagesPush(q[1..], e);
    }
  }

  // ---- each ledger over a step ----

  lemma OrderKept(s: State, k: int)
    requires Order(s) && Enabled(s, Tick(k))
    ensures Order(Step(s, Tick(k)))
  {
    var pc := s.ts[k].pc;
    if pc.Put? {
      MessagesPush(s.queue, Entered(pc, k));
    }
  }

  lemma LenLedgerKept(s: State, k: int)
    requires LenLedger(s) && Enabled(s, Tick(k))
    ensures LenLedger(Step(s, Tick(k)))
  {
    SumTick(s, k, Outside);
  }

  lemma {:induction false} FreeWithinLen(s: State)
    requires LenLedger(s) && s.bounded
    ensures Sum(s.queue, FreeEntry) + Sum(s.ts, FreeOutside) <= s.len
  {
    SumCompare(s.queue, FreeEntry, One);
    Length(s.queue);
    SumCompare(s.ts, FreeOutside, Outside);
  }

  lemma {:induction false} Length(q: seq<Entry>)
    ensures Sum(q, One) == |q|
  {
    if q != [] {
      Length(q[1..]);
    }
  }

  lemma CapacityKept(s: State, k: int)
    requires LenLedger(s) && Capacity(s) && Enabled(s, Tick(k))
    ensures Capacity(Step(s, Tick(k)))
  {
    var pc := s.ts[k].pc;
    if s.bounded { FreeWithinLen(s); }
    SumTick(s, k, FreeOutside);
    if pc.Put? {
      SumAppend(s.queue, Entered(pc, k), FreeEntry);
    } else if Pops(s, pc) {
      SumPop(s.queue, FreeEntry);
    }
  }

  /** An event about to be set belongs to a thread that waits for it. */
  lemma TargetWaits(s: State, k: int)
    requires Inv(s)
    requires 0 <= k < |s.ts| && (s.ts[k].pc.Ring? || s.ts[k].pc.Tell? || (s.ts[k].pc.RingAll? && s.ts[k].pc.ws != []))
    ensures var j := Target(s.ts[k].pc);
      0 <= j < |s.ts| && j != k && (if s.ts[k].pc.Tell? then Untold(s.ts[j]) else Unrung(s.ts[j]))
  {
    var pc := s.ts[k].pc;
    var j := Target(pc);
    if pc.Tell? {
      SumAtLeast(s.ts, k, TellsFor(j));
      assert SenderLedger(s, j);
      SumNonNegative(s.queue, WantedBy(j));
    } else {
      SumAtLeast(s.ts, k, RingsFor(j));
      assert ParkLedger(s, j);
    }
  }

  predicate Sets(pc: Pc) { pc.Ring? || pc.Tell? || (pc.RingAll? && pc.ws != []) }

  /** Wakes for `x` appear when a waiter is popped or taken and disappear when its event is set. */
  lemma RingsBalance(s: State, k: int, pc: Pc, x: int, rung: bool, rung': bool)
    ensures Count(NextWaiters(s, pc, k), x) + RingsFor(x)(Thread(Next(s, pc), rung', false))
      == Count(s.waiters, x) + RingsFor(x)(Thread(pc, rung, false)) + B(Parks(s, pc) && k == x)
         - B(Sets(pc) && !pc.Tell? && Target(pc) == x)
  {
    match pc
    case Put(_, _) => PutBalance(s, k, pc, x, rung');
    case RingAll(ws) => if ws != [] { CountPopFront(ws, x); }
    case Pull(_, _) => PullBalance(s, k, pc, x, rung');
    case _ =>
  }

  /** A push pops a waiter and goes on to ring it. */
  lemma PutBalance(s: State, k: int, pc: Pc, x: int, rung': bool)
    requires pc.Put?
    ensures Count(NextWaiters(s, pc, k), x) + RingsFor(x)(Thread(Next(s, pc), rung', false)) == Count(s.waiters, x)
  {
    if s.waiters != [] { CountPopFront(s.waiters, x); }
  }

  /** A pull that parks adds a waiter. */
  lemma PullBalance(s: State, k: int, pc: Pc, x: int, rung': bool)
    requires pc.Pull?
    ensures Count(NextWaiters(s, pc, k), x) + RingsFor(x)(Thread(Next(s, pc), rung', false))
      == Count(s.waiters, x) + B(Parks(s, pc) && k == x)
  {
    CountPush(s.waiters, k, x);
  }

  lemma ParkLedgerKept(s: State, k: int, x: int)
    requires Inv(s) && Enabled(s, Tick(k))
    ensures ParkLedger(Step(s, Tick(k)), x)
  {
    var t, s' := s.ts[k], Step(s, Tick(k));
    assert ParkLedger(s, x);
    SumTick(s, k, RingsFor(x));
    UnrungAfter(s, k, x);
    RingsBalance(s, k, t.pc, x, t.rung, s'.ts[k].rung);
  }

  predicate UnrungAt(s: State, x: int) { 0 <= x < |s.ts| && Unrung(s.ts[x]) }

  predicate UntoldAt(s: State, x: int) { 0 <= x < |s.ts| && Untold(s.ts[x]) }

  /** A receiver begins to wait by parking and ceases when its event is set. */
  lemma UnrungAfter(s: State, k: int, x: int)
    requires Inv(s) && Enabled(s, Tick(k))
    ensures var pc := s.ts[k].pc;
      B(UnrungAt(Step(s, Tick(k)), x))
        == B(UnrungAt(s, x)) + B(Parks(s, pc) && k == x) - B(Sets(pc) && !pc.Tell? && Target(pc) == x)
  {
    if Sets(s.ts[k].pc) { TargetWaits(s, k); }
  }

  /** A sender begins to wait with a message over the capacity and ceases when its event is set. */
  lemma UntoldAfter(s: State, k: int, x: int)
    requires Inv(s) && Enabled(s, Tick(k))
    ensures var pc := s.ts[k].pc;
      B(UntoldAt(Step(s, Tick(k)), x))
        == B(UntoldAt(s, x)) + B(pc.Put? && pc.over && k == x) - B(pc.Tell? && Target(pc) == x)
  {
    if Sets(s.ts[k].pc) { TargetWaits(s, k); }
  }

  function NextQueue(s: State, k: int): seq<Entry>
    requires 0 <= k < |s.ts|
  {
    var pc := s.ts[k].pc;
    if pc.Put? then s.queue + [Entered(pc, k)] else if Pops(s, pc) then s.queue[1..] else s.queue
  }

  lemma TellsBalance(s: State, k: int, x: int, rung': bool)
    requires 0 <= k < |s.ts| && s.bounded
    ensures var pc := s.ts[k].pc;
      Sum(NextQueue(s, k), WantedBy(x)) + TellsFor(x)(Thread(Next(s, pc), rung', false))
        == Sum(s.queue, WantedBy(x)) + TellsFor(x)(s.ts[k])
           + B(pc.Put? && pc.over && k == x) - B(pc.Tell? && Target(pc) == x)
  {
    var pc := s.ts[k].pc;
    if pc.Put? {
      SumAppend(s.queue, Entered(pc, k), WantedBy(x));
    } else if Pops(s, pc) {
      SumPop(s.queue, WantedBy(x));
    }
  }

  lemma SenderLedgerKept(s: State, k: int, x: int)
    requires Inv(s) && Enabled(s, Tick(k)) && s.bounded
    ensures SenderLedger(Step(s, Tick(k)), x)
  {
    var t, s' := s.ts[k], Step(s, Tick(k));
    assert SenderLedger(s, x);
    SumTick(s, k, TellsFor(x));
    UntoldAfter(s, k, x);
    TellsBalance(s, k, x, s'.ts[k].rung);
  }

  lemma WakesSufficeKept(s: State, k: int)
    requires Inv(s) && Enabled(s, Tick(k))
    ensures WakesSuffice(Step(s, Tick(k)))
  {
    var pc := s.ts[k].pc;
    SumTick(s, k, Woken);
    SumNonNegative(Step(s, Tick(k)).ts, Woken);
    if Sets(pc) { TargetWaits(s, k); }
  }

  lemma ClosedEmptiesKept(s: State, k: int)
    requires Inv(s) && Enabled(s, Tick(k))
    ensures ClosedEmpties(Step(s, Tick(k)))
  {
    var s' := Step(s, Tick(k));
    if s'.closed && s'.waiters != [] {
      if s.closed {
        var m :| 0 <= m < |s.ts| && s.ts[m].pc.Take?;
        assert s'.ts[m].pc.Take?;
      } else {
        assert s'.ts[k].pc.Take?;
      }
    }
  }

  lemma QuietKept(s: State, k: int)
    requires Inv(s) && Enabled(s, Tick(k))
    ensures forall m :: 0 <= m < |Step(s, Tick(k)).ts| ==> Quiet(Step(s, Tick(k)).ts[m])
  {
    if Sets(s.ts[k].pc) { TargetWaits(s, k); }
  }

  lemma NextUnbounded(s: State, pc: Pc)
    requires !s.bounded && !BoundedOnly(pc)
    ensures !BoundedOnly(Next(s, pc))
  {
  }

  lemma UnboundedKept(s: State, k: int)
    requires Enabled(s, Tick(k)) && !s.bounded && forall m :: 0 <= m < |s.ts| ==> !BoundedOnly(s.ts[m].pc)
    ensures forall m :: 0 <= m < |s.ts| ==> !BoundedOnly(Step(s, Tick(k)).ts[m].pc)
  {
    NextUnbounded(s, s.ts[k].pc);
  }

  /** A dequeued message goes to the receiver that dequeued it. */
  lemma ReceivedKept(s: State, k: int, m: Message)
    requires ReceivedLedger(s, m) && Enabled(s, Tick(k))
    ensures ReceivedLedger(Step(s, Tick(k)), m)
  {
    SumTick(s, k, ReceivedBy(m));
    if Pops(s, s.ts[k].pc) {
      CountPush(s.taken, s.queue[0].msg, m);
    }
  }

  lemma TickKept(s: State, k: int)
    requires Inv(s) && Enabled(s, Tick(k))
    ensures Inv(Step(s, Tick(k)))
  {
    LenLedgerKept(s, k);
    CapacityKept(s, k);
    OrderKept(s, k);
    WakesSufficeKept(s, k);
    ClosedEmptiesKept(s, k);
    QuietKept(s, k);
    if !s.bounded { UnboundedKept(s, k); }
    forall m: Message ensures ReceivedLedger(Step(s, Tick(k)), m) { ReceivedKept(s, k, m); }
    forall x: int ensures ParkLedger(Step(s, Tick(k)), x) { ParkLedgerKept(s, k, x); }
    forall x: int ensures SenderLedger(Step(s, Tick(k)), x) { if s.bounded { SenderLedgerKept(s, k, x); } }
  }

  lemma ArriveKept(s: State, t: Thread)
    requires Inv(s) && !t.rung && (t.pc.Check? || t.pc == Pull(false, false) || t.pc.Mark?)
    ensures Inv(s.(ts := s.ts + [t]))
  {
    var s' := s.(ts := s.ts + [t]);
    SumAppend(s.ts, t, Outside);
    SumAppend(s.ts, t, FreeOutside);
    SumAppend(s.ts, t, Woken);
    forall x: int ensures ParkLedger(s', x) && SenderLedger(s', x) { ArriveLedgers(s, t, x); }
    forall m: Message ensures ReceivedLedger(s', m) {
      assert ReceivedLedger(s, m);
      SumAppend(s.ts, t, ReceivedBy(m));
    }
    if s.closed && s.waiters != [] {
      var m :| 0 <= m < |s.ts| && s.ts[m].pc.Take?;
      assert s'.ts[m].pc.Take?;
    }
  }

  lemma ArriveLedgers(s: State, t: Thread, x: int)
    requires Inv(s) && !t.rung && (t.pc.Check? || t.pc == Pull(false, false) || t.pc.Mark?)
    ensures var s' := s.(ts := s.ts + [t]); ParkLedger(s', x) && SenderLedger(s', x)
  {
    assert ParkLedger(s, x) && SenderLedger(s, x);
    SumAppend(s.ts, t, RingsFor(x));
    SumAppend(s.ts, t, TellsFor(x));
  }

  lemma InvKept(s: State, a: Action)
    requires Inv(s) && Enabled(s, a)
    ensures Inv(Step(s, a))
  {
    match a
    case Send(msg) => ArriveKept(s, Thread(Check(msg), false, false));
    case Receive => ArriveKept(s, Thread(Pull(false, false), false, false));
    case Close => ArriveKept(s, Thread(Mark, false, false));
    case Tick(k) => TickKept(s, k);
  }

  lemma ReachableInv(s: State)
    requires Reachable(s)
    ensures Inv(s)
  {
    forall r, r' | Inv(r) && NextState(r, r') ensures Inv(r') {
      var a :| Enabled(r, a) && r' == Step(r, a);
      InvKept(r, a);
    }
    R.Always(Initial, NextState, Inv, s);
  }

  // ---- theorems ----

  /** First in, first out, exactly once: what was dequeued, followed by the queue, is what was enqueued, and
      every dequeued message is with one receiver per time it was dequeued. */
  lemma Fifo(s: State, m: Message)
    requires Reachable(s)
    ensures s.sent == s.taken + Messages(s.queue)
    ensures Sum(s.ts, ReceivedBy(m)) == Count(s.taken, m)
  {
    ReachableInv(s);
    assert ReceivedLedger(s, m);
  }

  /** No receiver misses a wake: a parked one is queued or about to be woken, and as long as one is queued
      every message has a woken receiver coming for it. */
  lemma NoLostWake(s: State, k: int)
    requires Reachable(s) && 0 <= k < |s.ts| && Unrung(s.ts[k])
    ensures k in s.waiters || exists m :: 0 <= m < |s.ts| && RingsFor(k)(s.ts[m]) > 0
    ensures s.waiters != [] ==> |s.queue| <= Sum(s.ts, Woken)
  {
    ReachableInv(s);
    assert ParkLedger(s, k);
    if k !in s.waiters {
      CountZero(s.waiters, k);
      var m := SumWitness(s.ts, RingsFor(k));
    }
  }

  /** `len` is the queue plus the pushers and pullers under way, at most `size` outstanding messages have no
      sender event, and a sender that waits has its message in the queue or its notification under way. */
  lemma Backpressure(s: State)
    requires Reachable(s) && s.bounded
    ensures s.len == |s.queue| + Sum(s.ts, Outside)
    ensures Sum(s.queue, FreeEntry) + Sum(s.ts, FreeOutside) <= s.size
    ensures forall k :: 0 <= k < |s.ts| && s.ts[k].pc.Blocked? && !s.ts[k].rung ==>
      Sum(s.queue, WantedBy(k)) + Sum(s.ts, TellsFor(k)) == 1
  {
    ReachableInv(s);
    forall k | 0 <= k < |s.ts| && s.ts[k].pc.Blocked? && !s.ts[k].rung
      ensures Sum(s.queue, WantedBy(k)) + Sum(s.ts, TellsFor(k)) == 1
    {
      assert SenderLedger(s, k);
    }
  }

  /** Once the channel is closed and every `close` has finished, no receiver stays parked unless a sender is
      on its way to wake it. */
  lemma CloseUnparks(s: State, k: int)
    requires Reachable(s) && s.closed
    requires forall m :: 0 <= m < |s.ts| ==> !s.ts[m].pc.Take? && !s.ts[m].pc.RingAll?
    requires 0 <= k < |s.ts| && Unrung(s.ts[k])
    ensures s.waiters == []
    ensures exists m :: 0 <= m < |s.ts| && s.ts[m].pc.Ring? && s.ts[m].pc.w == k
  {
    ReachableInv(s);
    assert ParkLedger(s, k);
    var m := SumWitness(s.ts, RingsFor(k));
    assert s.ts[m].pc.Ring? && s.ts[m].pc.w == k;
  }

  /** No thread can take a step by itself. */
  ghost predicate Quiescent(s: State) { forall k :: !Enabled(s, Tick(k)) }

  /** When nothing moves any more, a receiver sleeps only on an empty queue that is still open, and a sender
      only while its own message is in the queue. */
  lemma SleepsOnlyOnEmpty(s: State, k: int)
    requires Reachable(s) && Quiescent(s) && 0 <= k < |s.ts|
    ensures s.ts[k].pc.Parked? ==> s.queue == [] && !s.closed && k in s.waiters
    ensures s.ts[k].pc.Blocked? ==> Sum(s.queue, WantedBy(k)) == 1
  {
    ReachableInv(s);
    assert !Enabled(s, Tick(k));
    NothingUnderWay(s, k);
    assert ParkLedger(s, k) && SenderLedger(s, k);
    if s.ts[k].pc.Parked? && k !in s.waiters { CountZero(s.waiters, k); }
  }

  lemma NothingUnderWay(s: State, k: int)
    requires Quiescent(s)
    ensures Sum(s.ts, Woken) == Sum(s.ts, RingsFor(k)) == Sum(s.ts, TellsFor(k)) == 0
    ensures forall m :: 0 <= m < |s.ts| ==> !s.ts[m].pc.Take?
  {
    forall m | 0 <= m < |s.ts|
      ensures Woken(s.ts[m]) == RingsFor(k)(s.ts[m]) == TellsFor(k)(s.ts[m]) == 0 && !s.ts[m].pc.Take?
    {
      assert !Enabled(s, Tick(m));
    }
    SumZero(s.ts, Woken);
    SumZero(s.ts, RingsFor(k));
    SumZero(s.ts, TellsFor(k));
  }

  // ---- what becomes of a call ----

  /** A sender is told that it is done exactly if its message went in, and that the channel is closed only if it is;
      so is a receiver. */
  predicate Story(s: State, t: Thread) {
    && (t.put <==> t.pc.Ring? || t.pc.Blocked? || t.pc.Sent?)
    && (t.pc.Broken? || t.pc.Shut? ==> s.closed)
  }

  predicate AllStories(s: State) { forall k :: 0 <= k < |s.ts| ==> Story(s, s.ts[k]) }

  lemma OwnStory(s: State, pc: Pc, rung: bool, put: bool)
    requires Story(s, Thread(pc, rung, put))
    ensures Story(s.(closed := s.closed || pc.Mark?), Thread(Next(s, pc), rung, put || pc.Put?))
  {
  }

  lemma StoriesKept(s: State, a: Action)
    requires AllStories(s) && Enabled(s, a)
    ensures AllStories(Step(s, a))
  {
    if a.Tick? {
      var t := s.ts[a.k];
      assert Story(s, t);
      OwnStory(s, t.pc, t.rung, t.put);
    }
  }

  /** What a finished call reports is true: a sender that is done has its message enqueued, one that was turned away
      has not, and nobody is told that an open channel is closed. */
  lemma HonestAnswers(s: State, k: int)
    requires Reachable(s) && 0 <= k < |s.ts|
    ensures s.ts[k].pc.Sent? ==> s.ts[k].put
    ensures s.ts[k].pc.Broken? ==> !s.ts[k].put && s.closed
    ensures s.ts[k].pc.Shut? ==> s.closed
    ensures s.ts[k].put && !s.ts[k].pc.Ring? && !s.ts[k].pc.Blocked? ==> s.ts[k].pc.Sent?
  {
    forall r, r' | AllStories(r) && NextState(r, r') ensures AllStories(r') {
      var a :| Enabled(r, a) && r' == Step(r, a);
      StoriesKept(r, a);
    }
    R.Always(Initial, NextState, AllStories, s);
    assert Story(s, s.ts[k]);
  }

  /** "channel closed" reaches a receiver only when everything enqueued has been pulled. */
  lemma ClosedOnlyWhenDrained(s: State, k: int)
    requires Reachable(s) && Enabled(s, Tick(k)) && Step(s, Tick(k)).ts[k].pc.Shut?
    ensures s.closed && s.queue == [] && s.taken == s.sent
  {
    ReachableInv(s);
  }

  // ---- one call, left alone ----

  ghost predicate By(k: int, s: State, s': State) { Enabled(s, Tick(k)) && s' == Step(s, Tick(k)) }

  /** Thread `k`, moving alone, gets from `origin` to `s`. */
  ghost predicate Leads(origin: State, k: int, s: State) { R.Path((x, y) => By(k, x, y), origin, s) }

  lemma Stays(s: State, k: int)
    ensures Leads(s, k, s)
  {
    R.Stays((x, y) => By(k, x, y), s);
  }

  lemma Goes(origin: State, k: int, s: State)
    requires Leads(origin, k, s) && Enabled(s, Tick(k))
    ensures Leads(origin, k, Step(s, Tick(k)))
  {
    R.Goes((x, y) => By(k, x, y), origin, s, Step(s, Tick(k)));
  }

  /** A message carries a sender event exactly if the queue, the pushers not yet enqueued and the pullers not yet
      debited already come to the capacity; and "channel closed" reaches a sender exactly on a closed channel. */
  lemma SendExact(s: State, k: int)
    requires Reachable(s) && Enabled(s, Tick(k))
    ensures var pc, pc' := s.ts[k].pc, Step(s, Tick(k)).ts[k].pc;
      && (pc.Check? ==> (pc'.Broken? <==> s.closed))
      && (pc.Check? && !s.closed ==> pc' == if s.bounded then Grow(pc.msg) else Put(pc.msg, false))
      && (pc.Grow? ==> pc' == Put(pc.msg, |s.queue| + Sum(s.ts, Outside) >= s.size))
  {
    ReachableInv(s);
    if s.ts[k].pc.Grow? {
      assert BoundedOnly(s.ts[k].pc);
    }
  }

  /** A push with room: the message goes to the end of the queue without a sender event, and the sender is done. */
  lemma PutAlone(origin: State, s: State, k: int, msg: Message) returns (s': State)
    requires Leads(origin, k, s) && 0 <= k < |s.ts| && s.ts[k].pc == Put(msg, false)
    ensures Leads(origin, k, s') && |s'.ts| == |s.ts| && s'.ts[k].pc.Sent?
    ensures s'.queue == s.queue + [Entry(msg, Nobody)]
  {
    Goes(origin, k, s);
    s' := Step(s, Tick(k));
    if s'.ts[k].pc.Ring? {
      Goes(origin, k, s');
      s' := Step(s', Tick(k));
    }
  }

  /** A send on an open channel with nobody under way, and room in it if it is bounded, is done at once. */
  lemma SendAlone(s: State, k: int) returns (s': State)
    requires Reachable(s) && 0 <= k < |s.ts| && s.ts[k].pc.Check? && !s.closed
    requires s.bounded ==> |s.queue| + Sum(s.ts, Outside) < s.size
    ensures Leads(s, k, s') && |s'.ts| == |s.ts| && s'.ts[k].pc.Sent?
    ensures s'.queue == s.queue + [Entry(s.ts[k].pc.msg, Nobody)]
  {
    var msg := s.ts[k].pc.msg;
    ReachableInv(s);
    Stays(s, k);
    Goes(s, k, s);
    var s1 := Step(s, Tick(k));
    if s.bounded {
      assert s1.ts[k].pc == Grow(msg) && s1.len == s.len && s1.queue == s.queue;
      Goes(s, k, s1);
      s1 := Step(s1, Tick(k));
    }
    assert s1.ts[k].pc == Put(msg, false) && s1.queue == s.queue;
    s' := PutAlone(s, s1, k, msg);
  }

  /** A receive left alone takes the oldest message if there is one; otherwise it reports a closed channel, or parks
      at the end of the deque of an open one. */
  lemma ReceiveAlone(s: State, k: int) returns (s': State)
    requires Reachable(s) && 0 <= k < |s.ts| && s.ts[k].pc.Pull? && !s.ts[k].pc.second
    ensures Leads(s, k, s') && |s'.ts| == |s.ts|
    ensures var pc := s'.ts[k].pc;
      if s.queue != [] then pc == Got(s.queue[0].msg) && s'.queue == s.queue[1..] && s'.waiters == s.waiters
      else if s.closed then pc == Shut && s'.queue == [] && s'.waiters == s.waiters
      else pc == Parked && !s'.ts[k].rung && s'.queue == [] && s'.waiters == s.waiters + [k]
  {
    Stays(s, k);
    Goes(s, k, s);
    s' := Step(s, Tick(k));
    if s.queue != [] {
      if s.bounded { s' := DebitAlone(s, s', k, s.queue[0]); }
    } else if !s.closed {
      assert s'.ts[k].pc == Pull(true, false) && s'.queue == [] && !s'.closed && s'.waiters == s.waiters;
      Goes(s, k, s');
      s' := Step(s', Tick(k));
    }
  }

  lemma DebitAlone(origin: State, s: State, k: int, e: Entry) returns (s': State)
    requires Leads(origin, k, s) && 0 <= k < |s.ts| && s.ts[k].pc == Shrink(e)
    ensures Leads(origin, k, s') && |s'.ts| == |s.ts| && s'.ts[k].pc == Got(e.msg)
    ensures s'.queue == s.queue && s'.waiters == s.waiters
  {
    Goes(origin, k, s);
    s' := Step(s, Tick(k));
    if s'.ts[k].pc.Tell? {
      Goes(origin, k, s');
      s' := Step(s', Tick(k));
    }
  }

  /** The threads of a deque are rung one after the other. */
  lemma {:induction false} RingsAll(origin: State, s: State, k: int, ws: seq<int>) returns (s': State)
    requires Leads(origin, k, s) && 0 <= k < |s.ts| && s.ts[k].pc == RingAll(ws)
    requires forall i :: 0 <= i < |ws| ==> 0 <= ws[i] < |s.ts| && ws[i] != k
    ensures Leads(origin, k, s') && |s'.ts| == |s.ts| && s'.ts[k].pc.Finished?
    ensures s'.closed == s.closed && s'.waiters == s.waiters && s'.queue == s.queue
    ensures forall i :: 0 <= i < |s.ts| && i != k ==> s'.ts[i] == s.ts[i].(rung := s.ts[i].rung || i in ws)
    decreases |ws|
  {
    Goes(origin, k, s);
    s' := Step(s, Tick(k));
    if ws != [] {
      var s1 := s';
      s' := RingsAll(origin, s1, k, ws[1..]);
      forall i | 0 <= i < |s.ts| && i != k ensures s'.ts[i] == s.ts[i].(rung := s.ts[i].rung || i in ws) {
        assert i in ws <==> i == ws[0] || i in ws[1..];
      }
    }
  }

  /** Every waiter in the deque is another thread. */
  lemma WaitersElsewhere(s: State, k: int)
    requires Inv(s) && 0 <= k < |s.ts| && (s.ts[k].pc.Mark? || s.ts[k].pc.Take?)
    ensures forall i :: 0 <= i < |s.waiters| ==> 0 <= s.waiters[i] < |s.ts| && s.waiters[i] != k
  {
    forall i | 0 <= i < |s.waiters| ensures 0 <= s.waiters[i] < |s.ts| && s.waiters[i] != k {
      var x := s.waiters[i];
      assert ParkLedger(s, x);
      InDeque(s.waiters, i);
      SumNonNegative(s.ts, RingsFor(x));
    }
  }

  lemma {:induction false} InDeque(q: seq<int>, i: nat)
    requires i < |q|
    ensures Count(q, q[i]) > 0
  {
    if i > 0 { InDeque(q[1..], i - 1); }
  }

  /** A close left alone marks the channel, empties the deque of receivers and wakes every one of them; on a closed
      channel it does nothing. */
  lemma CloseAlone(s: State, k: int) returns (s': State)
    requires Reachable(s) && 0 <= k < |s.ts| && s.ts[k].pc.Mark?
    ensures Leads(s, k, s') && |s'.ts| == |s.ts| && s'.ts[k].pc.Finished? && s'.closed && s'.queue == s.queue
    ensures s'.waiters == if s.closed then s.waiters else []
    ensures forall i :: 0 <= i < |s.ts| && i != k ==>
      s'.ts[i] == s.ts[i].(rung := s.ts[i].rung || (!s.closed && i in s.waiters))
  {
    ReachableInv(s);
    WaitersElsewhere(s, k);
    Stays(s, k);
    Goes(s, k, s);
    CloseStep(s, k);
    s' := Step(s, Tick(k));
    if !s.closed { s' := TakeAlone(s, s', k); }
  }

  lemma TakeAlone(origin: State, s: State, k: int) returns (s': State)
    requires Leads(origin, k, s) && 0 <= k < |s.ts| && s.ts[k].pc.Take?
    requires forall i :: 0 <= i < |s.waiters| ==> 0 <= s.waiters[i] < |s.ts| && s.waiters[i] != k
    ensures Leads(origin, k, s') && |s'.ts| == |s.ts| && s'.ts[k].pc.Finished?
    ensures s'.closed == s.closed && s'.waiters == [] && s'.queue == s.queue
    ensures forall i :: 0 <= i < |s.ts| && i != k ==> s'.ts[i] == s.ts[i].(rung := s.ts[i].rung || i in s.waiters)
  {
    Goes(origin, k, s);
    CloseStep(s, k);
    s' := RingsAll(origin, Step(s, Tick(k)), k, s.waiters);
  }

  lemma CloseStep(s: State, k: int)
    requires 0 <= k < |s.ts| && (s.ts[k].pc.Mark? || s.ts[k].pc.Take?)
    ensures var t, s' := s.ts[k], Step(s, Tick(k));
      && s'.ts == s.ts[k := t.(pc := Next(s, t.pc))] && s'.queue == s.queue
      && s'.closed == (s.closed || t.pc.Mark?) && s'.waiters == if t.pc.Take? then [] else s.waiters
  {
  }

  // ---- whole calls ----

  lemma CallReachable(s: State, a: Action)
    requires Reachable(s) && Enabled(s, a)
    ensures Reachable(Step(s, a))
  {
    R.Extend(Initial, NextState, s, Step(s, a));
  }

  /** `send` on an open channel with room: left alone it is done, with its message last in the queue. */
  lemma SendCall(s: State, msg: Message) returns (s': State)
    requires Reachable(s) && !s.closed && (s.bounded ==> |s.queue| + Sum(s.ts, Outside) < s.size)
    ensures Leads(Step(s, Send(msg)), |s.ts|, s') && |s'.ts| == |s.ts| + 1 && s'.ts[|s.ts|].pc.Sent?
    ensures s'.queue == s.queue + [Entry(msg, Nobody)]
  {
    CallReachable(s, Send(msg));
    SumAppend(s.ts, Thread(Check(msg), false, false), Outside);
    s' := SendAlone(Step(s, Send(msg)), |s.ts|);
  }

  /** `receive`: left alone it takes the oldest message, reports a closed channel, or parks on an open one. */
  lemma ReceiveCall(s: State) returns (s': State)
    requires Reachable(s)
    ensures Leads(Step(s, Receive), |s.ts|, s') && |s'.ts| == |s.ts| + 1
    ensures var pc := s'.ts[|s.ts|].pc;
      if s.queue != [] then pc == Got(s.queue[0].msg) && s'.queue == s.queue[1..] && s'.waiters == s.waiters
      else if s.closed then pc == Shut && s'.queue == [] && s'.waiters == s.waiters
      else pc == Parked && s'.queue == [] && s'.waiters == s.waiters + [|s.ts|]
  {
    CallReachable(s, Receive);
    s' := ReceiveAlone(Step(s, Receive), |s.ts|);
  }

  /** `close`: left alone it marks the channel and wakes every parked receiver; on a closed channel it does nothing. */
  lemma CloseCall(s: State) returns (s': State)
    requires Reachable(s)
    ensures Leads(Step(s, Close), |s.ts|, s') && |s'.ts| == |s.ts| + 1 && s'.ts[|s.ts|].pc.Finished?
    ensures s'.closed && s'.queue == s.queue && s'.waiters == if s.closed then s.waiters else []
    ensures forall i :: 0 <= i < |s.ts| ==>
      s'.ts[i] == s.ts[i].(rung := s.ts[i].rung || (!s.closed && i in s.waiters))
  {
    CallReachable(s, Close);
    s' := CloseAlone(Step(s, Close), |s.ts|);
  }
}
