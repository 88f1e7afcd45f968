/** A coroutine that waits for several events at once: `Event` set/notify/add_waker, `Waiter::register` and
    the `Sentinel` of src/events.rs, with one competing abort. One step per atomic operation or lock
    section, any interleaving; the counter is a machine word that wraps. */
module WaitAll {
  import opened Ledger
  import R = Runs

  /** An event: its flag is up from `Notifying` on. */
  datatype Event = Unset | Notifying | Notified

  /** The waker registered with one event. `late`: its decrement came after the abort and was not undone. */
  datatype Waker =
    | Unregistered
    | Watching        // in the event's deque
    | Waking          // `wake` called, the decrement still to come
    | Undo            // saw zero, the increment back still to come
    | Emitting        // saw one, the handle still to be scheduled
    | Spent(late: bool)

  datatype Abort = NoAbort | Swapped(fires: bool) | Aborted

  datatype Emission = Resumed | Thrown

  datatype State = State(
    events: seq<Event>,
    wakers: seq<Waker>,
    registered: nat,        // progress of `register`
    counter: nat,           // the machine word
    abort: Abort,
    emitted: seq<Emission>,
    level: int)             // history: the counter, unwrapped

  datatype Action =
    | Set(i: nat)           // `set`: the exchange that succeeds
    | Notify(i: nat)
    | Register              // `add_waker` on the next event
    | WakerStep(i: nat)
    | AbortStep             // `error`: the swap, then the handle

  function Wrapped(level: int): nat { level % USIZE }

  function Init(n: nat): State {
    State(seq(n, _ => Unset), seq(n, _ => Unregistered), 0, Wrapped(n), NoAbort, [], n)
  }

  ghost predicate Initial(s: State) { exists n: nat :: 2 <= n < USIZE - 1 && s == Init(n) }

  predicate Enabled(s: State, a: Action) {
    match a
    case Set(i) => i < |s.events| && s.events[i].Unset?
    case Notify(i) => i < |s.events| && i < |s.wakers| && s.events[i].Notifying?
    case Register => s.registered < |s.events| && s.registered < |s.wakers|
    case WakerStep(i) => i < |s.wakers| && (s.wakers[i].Waking? || s.wakers[i].Undo? || s.wakers[i].Emitting?)
    case AbortStep => !s.abort.Aborted?
  }

  function Step(s: State, a: Action): State
    requires Enabled(s, a)
  {
    match a
    case Set(i) => s.(events := s.events[i := Notifying])
    case Notify(i) =>
      s.(events := s.events[i := Notified],
         wakers := if s.wakers[i].Watching? then s.wakers[i := Waking] else s.wakers)
    case Register =>
      var i := s.registered;
      s.(wakers := s.wakers[i := if s.events[i].Unset? then Watching else Waking], registered := i + 1)
    case WakerStep(i) => s.(wakers := s.wakers[i := NextWaker(s, s.wakers[i])],
                            counter := Wrapped(s.counter + CounterChange(s.wakers[i])),
                            level := s.level + CounterChange(s.wakers[i]),
                            emitted := if s.wakers[i].Emitting? then s.emitted + [Resumed] else s.emitted)
    case AbortStep =>
      if s.abort.NoAbort? then s.(abort := Swapped(s.counter != 0), counter := 0, level := 0)
      else s.(abort := Aborted, emitted := if s.abort.fires then s.emitted + [Thrown] else s.emitted)
  }

  /** `decrement`, decided by the word the `fetch_sub` returned. */
  function NextWaker(s: State, w: Waker): Waker {
    match w
    case Waking => if s.counter == 0 then Undo else if s.counter == 1 then Emitting else Spent(!s.abort.NoAbort?)
    case Undo => Spent(false)
    case Emitting => Spent(false)
    case _ => w
  }

  function CounterChange(w: Waker): int {
    match w
    case Waking => -1
    case Undo => 1
    case _ => 0
  }

  ghost predicate Next(s: State, s': State) { exists a :: Enabled(s, a) && s' == Step(s, a) }

  ghost predicate Reachable(s: State) { R.Reachable(Initial, Next, s) }

  // ---- invariant ----

  /** Still to decrement. */
  function Owing(w: Waker): int { B(w.Unregistered? || w.Watching? || w.Waking?) }

  /** Decremented below zero and, so far or for good, not undone. */
  function Debt(w: Waker): int { B(w.Undo? || w == Spent(true)) }

  function Firing(w: Waker): int { B(w.Emitting?) }

  predicate Shape(s: State) {
    && |s.wakers| == |s.events| && 2 <= |s.wakers| < USIZE - 1 && s.registered <= |s.wakers|
    && s.counter == Wrapped(s.level)
    && (forall i :: 0 <= i < |s.wakers| ==> WakerFits(s.wakers[i], s.events[i], i < s.registered))
  }

  /** A waker is registered in order, watches until its event notifies, and wakes only once it is set. */
  predicate WakerFits(w: Waker, e: Event, registered: bool) {
    && (w.Unregistered? <==> !registered)
    && (w.Watching? ==> !e.Notified?)
    && (!w.Unregistered? && !w.Watching? ==> !e.Unset?)
  }

  predicate LevelLedger(s: State) {
    if s.abort.NoAbort? then s.level == Sum(s.wakers, Owing) && Sum(s.wakers, Debt) == 0
    else s.level == -Sum(s.wakers, Debt)
  }

  predicate EmitLedger(s: State) {
    |s.emitted| + Sum(s.wakers, Firing) + B(s.abort == Swapped(true))
      == if s.abort.NoAbort? then B(s.level == 0) else 1
  }

  /** A normal resumption means that every waker has decremented. */
  predicate ResumedLast(s: State) {
    (Resumed in s.emitted || Sum(s.wakers, Firing) > 0) ==> Sum(s.wakers, Owing) == 0
  }

  ghost predicate Inv(s: State) { Shape(s) && LevelLedger(s) && EmitLedger(s) && ResumedLast(s) }

  lemma {:induction false} SumAtMost(ws: seq<Waker>, weight: Waker -> int)
    requires forall w :: 0 <= weight(w) <= 1
    ensures 0 <= Sum(ws, weight) <= |ws|
  {
    if ws != [] {
      SumAtMost(ws[1..], weight);
    }
  }

  /** The machine word tells zero and one apart from everything else the level can be. */
  lemma CounterTells(s: State)
    requires Inv(s)
    ensures 0 <= Sum(s.wakers, Owing) <= |s.wakers| && 0 <= Sum(s.wakers, Debt) <= |s.wakers|
    ensures s.counter == 0 <==> s.level == 0
    ensures s.counter == 1 <==> s.level == 1
  {
    SumAtMost(s.wakers, Owing);
    SumAtMost(s.wakers, Debt);
  }

  lemma SumsAfter(s: State, i: nat, w: Waker)
    requires i < |s.wakers|
    ensures Sum(s.wakers[i := w], Owing) == Sum(s.wakers, Owing) - Owing(s.wakers[i]) + Owing(w)
    ensures Sum(s.wakers[i := w], Debt) == Sum(s.wakers, Debt) - Debt(s.wakers[i]) + Debt(w)
    ensures Sum(s.wakers[i := w], Firing) == Sum(s.wakers, Firing) - Firing(s.wakers[i]) + Firing(w)
  {
    SumUpdate(s.wakers, i, w, Owing);
    SumUpdate(s.wakers, i, w, Debt);
    SumUpdate(s.wakers, i, w, Firing);
  }

  lemma ShapeKept(s: State, a: Action)
    requires Shape(s) && Enabled(s, a)
    ensures Shape(Step(s, a))
  {
  }

  lemma WakerStepKept(s: State, i: nat)
    requires Inv(s) && Enabled(s, WakerStep(i))
    ensures var s' := Step(s, WakerStep(i)); LevelLedger(s') && EmitLedger(s') && ResumedLast(s')
  {
    var w := s.wakers[i];
    CounterTells(s);
    SumsAfter(s, i, NextWaker(s, w));
    SumAtMost(s.wakers, Firing);
    SumAtLeast(s.wakers, i, Owing);
    SumAtLeast(s.wakers, i, Debt);
    SumAtLeast(s.wakers, i, Firing);
  }

  lemma AbortStepKept(s: State)
    requires Inv(s) && Enabled(s, AbortStep)
    ensures var s' := Step(s, AbortStep); LevelLedger(s') && EmitLedger(s') && ResumedLast(s')
  {
    CounterTells(s);
    SumAtMost(s.wakers, Firing);
  }

  lemma OthersKept(s: State, a: Action)
    requires Inv(s) && Enabled(s, a) && !a.WakerStep? && !a.AbortStep?
    ensures var s' := Step(s, a); LevelLedger(s') && EmitLedger(s') && ResumedLast(s')
  {
    match a
    case Set(i) =>
    case Notify(i) => if s.wakers[i].Watching? { SumsAfter(s, i, Waking); }
    case Register => SumsAfter(s, s.registered, if s.events[s.registered].Unset? then Watching else Waking);
  }

  lemma InvKept(s: State, a: Action)
    requires Inv(s) && Enabled(s, a)
    ensures Inv(Step(s, a))
  {
    ShapeKept(s, a);
    match a
    case WakerStep(i) => WakerStepKept(s, i);
    case AbortStep => AbortStepKept(s);
    case _ => OthersKept(s, a);
  }

  lemma InitInv(n: nat)
    requires 2 <= n < USIZE - 1
    ensures Inv(Init(n))
  {
    var s := Init(n);
    assert forall i :: 0 <= i < n ==> s.wakers[i] == Unregistered && s.events[i] == Unset;
    SumZero(s.wakers, Debt);
    SumZero(s.wakers, Firing);
    AllOwing(s.wakers);
  }

  lemma {:induction false} AllOwing(ws: seq<Waker>)
    requires forall i :: 0 <= i < |ws| ==> ws[i] == Unregistered
    ensures Sum(ws, Owing) == |ws|
  {
    if ws != [] {
      AllOwing(ws[1..]);
    }
  }

  lemma ReachableInv(s: State)
    requires Reachable(s)
    ensures Inv(s)
  {
    forall r | Initial(r) ensures Inv(r) {
      var n: nat :| 2 <= n < USIZE - 1 && r == Init(n);
      InitInv(n);
    }
    forall r, r' | Inv(r) && Next(r, r') ensures Inv(r') {
      var a :| Enabled(r, a) && r' == Step(r, a);
      InvKept(r, a);
    }
    R.Always(Initial, Next, Inv, s);
  }

  // ---- theorems ----

  /** At most one handle is ever scheduled, and a normal one only once every event is set. */
  lemma FiresAtMostOnce(s: State)
    requires Reachable(s)
    ensures |s.emitted| <= 1
    ensures s.emitted == [Resumed] ==> forall i :: 0 <= i < |s.events| ==> !s.events[i].Unset?
    ensures s.abort.NoAbort? ==> Thrown !in s.emitted
  {
    ReachableInv(s);
    SumAtMost(s.wakers, Firing);
    if s.emitted == [Resumed] {
      forall i | 0 <= i < |s.events| ensures !s.events[i].Unset? {
        SumAtLeast(s.wakers, i, Owing);
        assert WakerFits(s.wakers[i], s.events[i], i < s.registered);
      }
    }
    if s.abort.NoAbort? && Thrown in s.emitted {
      ThrownNeedsAbort(s);
    }
  }

  /** Exactly one handle has been scheduled once the abort has run, or once every event is set and notified,
      registration is over, and no wake is in progress. */
  lemma FiresExactlyOnce(s: State)
    requires Reachable(s)
    requires forall i :: 0 <= i < |s.wakers| ==> !s.wakers[i].Waking? && !s.wakers[i].Undo? && !s.wakers[i].Emitting?
    requires !s.abort.Swapped?
    requires s.abort.Aborted?
      || (s.registered == |s.events| && forall i :: 0 <= i < |s.events| ==> s.events[i].Notified?)
    ensures |s.emitted| == 1
  {
    ReachableInv(s);
    SumZero(s.wakers, Firing);
    if s.abort.NoAbort? {
      forall i | 0 <= i < |s.wakers| ensures Owing(s.wakers[i]) == 0 {
        assert WakerFits(s.wakers[i], s.events[i], i < s.registered);
      }
      SumZero(s.wakers, Owing);
    }
  }

  ghost predicate NoThrow(s: State) { s.abort.Aborted? || Thrown !in s.emitted }

  lemma ThrownNeedsAbort(s: State)
    requires Reachable(s)
    ensures NoThrow(s)
  {
    forall r, r' | NoThrow(r) && Next(r, r') ensures NoThrow(r') {
    }
    R.Always(Initial, Next, NoThrow, s);
  }

  // ---- more than one abort ----

  /** A further call of `error` once the abort is over: the swap, and the handle if the word was not zero. */
  function AbortedAgain(s: State): State
    requires s.abort.Aborted?
  {
    s.(counter := 0, level := 0, emitted := if s.counter != 0 then s.emitted + [Thrown] else s.emitted)
  }

  ghost predicate InDebt(s: State) { exists i :: 0 <= i < |s.wakers| && Debt(s.wakers[i]) == 1 }

  /** A further abort schedules the coroutine a second time if and only if some waker has decremented below zero and
      not undone it; otherwise it changes nothing, so that any number of them is safe. */
  lemma FurtherAbortExact(s: State)
    requires Reachable(s) && s.abort.Aborted?
    ensures InDebt(s) <==> |AbortedAgain(s).emitted| + Sum(s.wakers, Firing) == 2
    ensures !InDebt(s) <==> AbortedAgain(s) == s
  {
    ReachableInv(s);
    CounterTells(s);
    if i :| 0 <= i < |s.wakers| && Debt(s.wakers[i]) == 1 {
      SumAtLeast(s.wakers, i, Debt);
    } else {
      SumZero(s.wakers, Debt);
    }
  }

  lemma Go(s: State, a: Action, s': State)
    requires Reachable(s) && Enabled(s, a) && Step(s, a) == s'
    ensures Reachable(s')
  {
    R.Extend(Initial, Next, s, s');
  }

  function Two(w: Waker, e: Event, counter: nat, abort: Abort, emitted: seq<Emission>, level: int): State {
    State([e, Unset], [w, Watching], 2, counter, abort, emitted, level)
  }

  lemma BothWatching()
    ensures Reachable(Two(Watching, Unset, 2, NoAbort, [], 2))
  {
    var s0 := State([Unset, Unset], [Unregistered, Unregistered], 0, 2, NoAbort, [], 2);
    assert Init(2) == s0;
    R.Begin(Initial, Next, s0);
    var s1 := s0.(wakers := [Watching, Unregistered], registered := 1);
    Go(s0, Register, s1);
    Go(s1, Register, Two(Watching, Unset, 2, NoAbort, [], 2));
  }

  lemma LateWaker()
    ensures Reachable(Two(Waking, Notified, 0, Aborted, [Thrown], 0))
  {
    BothWatching();
    Go(Two(Watching, Unset, 2, NoAbort, [], 2), AbortStep, Two(Watching, Unset, 0, Swapped(true), [], 0));
    Go(Two(Watching, Unset, 0, Swapped(true), [], 0), AbortStep, Two(Watching, Unset, 0, Aborted, [Thrown], 0));
    Go(Two(Watching, Unset, 0, Aborted, [Thrown], 0), Set(0), Two(Watching, Notifying, 0, Aborted, [Thrown], 0));
    Go(Two(Watching, Notifying, 0, Aborted, [Thrown], 0), Notify(0), Two(Waking, Notified, 0, Aborted, [Thrown], 0));
  }

  function Overdrawn(): State { Two(Undo, Notified, USIZE - 1, Aborted, [Thrown], -1) }

  /** A second abort that falls between a late decrement and its undo throws into the coroutine again. */
  lemma SecondAbortFires()
    ensures Reachable(Overdrawn()) && AbortedAgain(Overdrawn()).emitted == [Thrown, Thrown]
  {
    LateWaker();
    Go(Two(Waking, Notified, 0, Aborted, [Thrown], 0), WakerStep(0), Overdrawn());
  }
}
