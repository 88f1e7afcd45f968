/** A coroutine that waits for one event, with or without a timeout: the waker of src/events.rs, the timer of
    src/time.rs and any number of aborts race for the `consumed` flag of its suspension. One step per atomic
    operation or lock section, any interleaving. */
module WaitOne {
  import opened Ledger
  import R = Runs

  /** An event: its flag is up from `Notifying` on. */
  datatype Event = Unset | Notifying | Notified

  datatype Kind = Waker | Timer | Abort

  datatype Phase =
    | Unregistered
    | Waiting       // in the event's deque, or in the timer heap
    | Calling       // inside `resume` or `error`, before the exchange on `consumed`
    | Firing        // won the exchange, the handle still to be scheduled
    | Spent

  /** Something that may schedule the coroutine. */
  datatype Source = Source(kind: Kind, phase: Phase)

  datatype State = State(
    event: Event,
    sources: seq<Source>,   // the waker, then the timer if there is a timeout, then the aborts as they come
    consumed: bool,
    emitted: seq<Kind>)     // the handles scheduled: an abort throws, the others resume

  datatype Action =
    | Set                   // `set`: the exchange that succeeds
    | Notify
    | Register              // `add_waker`
    | AddTimer
    | Expire                // the poller hands the timer to a worker
    | Prune                 // `rem_stale_wakers` drops the waker
    | AbortCall
    | Tick(k: nat)

  function Init(timed: bool): State {
    State(Unset, [Source(Waker, Unregistered)] + (if timed then [Source(Timer, Unregistered)] else []), false, [])
  }

  ghost predicate Initial(s: State) { s == Init(true) || s == Init(false) }

  predicate Timed(s: State) { |s.sources| > 1 && s.sources[1].kind.Timer? }

  predicate Enabled(s: State, a: Action) {
    match a
    case Set => s.event.Unset?
    case Notify => s.event.Notifying? && s.sources != []
    case Register => s.sources != [] && s.sources[0].phase.Unregistered?
    case AddTimer => Timed(s) && s.sources[1].phase.Unregistered? && !s.sources[0].phase.Unregistered?
    case Expire => Timed(s) && s.sources[1].phase.Waiting?
    case Prune => s.sources != [] && s.sources[0].phase.Waiting? && s.consumed
    case AbortCall => true
    case Tick(k) => k < |s.sources| && (s.sources[k].phase.Calling? || s.sources[k].phase.Firing?)
  }

  function Step(s: State, a: Action): State
    requires Enabled(s, a)
  {
    match a
    case Set => s.(event := Notifying)
    case Notify => (if s.sources[0].phase.Waiting? then Moved(s, 0, Calling) else s).(event := Notified)
    case Register => Moved(s, 0, if s.event.Unset? then Waiting else Calling)
    case AddTimer => Moved(s, 1, Waiting)
    case Expire => Moved(s, 1, Calling)
    case Prune => Moved(s, 0, Spent)
    case AbortCall => s.(sources := s.sources + [Source(Abort, Calling)])
    case Tick(k) =>
      if s.sources[k].phase.Firing? then Moved(s, k, Spent).(emitted := s.emitted + [s.sources[k].kind])
      else Moved(s, k, if s.consumed then Spent else Firing).(consumed := true)
  }

  function Moved(s: State, k: nat, phase: Phase): State
    requires k < |s.sources|
  {
    s.(sources := s.sources[k := s.sources[k].(phase := phase)])
  }

  ghost predicate Next(s: State, s': State) { exists a :: Enabled(s, a) && s' == Step(s, a) }

  ghost predicate Reachable(s: State) { R.Reachable(Initial, Next, s) }

  // ---- invariant ----

  function Fires(x: Source): int { B(x.phase.Firing?) }

  /** The one shot: not taken, about to be used, or used. */
  predicate ShotLedger(s: State) { |s.emitted| + Sum(s.sources, Fires) == B(s.consumed) }

  predicate Called(p: Phase) { p.Calling? || p.Firing? }

  predicate SourceFits(s: State, k: nat)
    requires k < |s.sources|
  {
    var x := s.sources[k];
    && (x.kind.Waker? <==> k == 0) && (x.kind.Timer? ==> k == 1)
    && (x.phase.Spent? || x.phase.Firing? ==> s.consumed)
    && (x.kind.Waker? ==> (x.phase.Waiting? ==> !s.event.Notified?) && (Called(x.phase) ==> !s.event.Unset?))
    && (x.kind.Abort? ==> !x.phase.Unregistered? && !x.phase.Waiting?)
  }

  /** Nothing fires without its cause. */
  predicate Caused(s: State, kind: Kind) {
    match kind
    case Waker => !s.event.Unset? && s.sources != [] && s.sources[0].phase.Spent?
    case Timer => Timed(s) && s.sources[1].phase.Spent?
    case Abort => exists k :: 0 <= k < |s.sources| && s.sources[k] == Source(Abort, Spent)
  }

  ghost predicate Inv(s: State) {
    && s.sources != [] && ShotLedger(s)
    && (forall k: nat :: k < |s.sources| ==> SourceFits(s, k))
    && (forall kind :: kind in s.emitted ==> Caused(s, kind))
  }

  lemma LedgerKept(s: State, a: Action)
    requires Inv(s) && Enabled(s, a)
    ensures ShotLedger(Step(s, a))
  {
    var s' := Step(s, a);
    if a.AbortCall? {
      SumAppend(s.sources, Source(Abort, Calling), Fires);
    } else if !a.Set? {
      var k := if a.Tick? then a.k else if a.AddTimer? || a.Expire? then 1 else 0;
      assert SourceFits(s, k);
      SumUpdate(s.sources, k, s'.sources[k], Fires);
      assert s'.sources == s.sources[k := s'.sources[k]];
    }
  }

  lemma SourcesKept(s: State, a: Action)
    requires Inv(s) && Enabled(s, a)
    ensures var s' := Step(s, a); forall k: nat :: k < |s'.sources| ==> SourceFits(s', k)
  {
    var s' := Step(s, a);
    forall k: nat | k < |s'.sources| ensures SourceFits(s', k) {
      assert k < |s.sources| ==> SourceFits(s, k);
    }
  }

  lemma CausedKept(s: State, a: Action, kind: Kind)
    requires Inv(s) && Enabled(s, a) && kind in Step(s, a).emitted
    ensures Caused(Step(s, a), kind)
  {
    var s' := Step(s, a);
    if kind in s.emitted {
      if kind.Abort? {
        var k :| 0 <= k < |s.sources| && s.sources[k] == Source(Abort, Spent);
        assert SourceFits(s, k) && SourceFits(s, 0);
        assert s'.sources[k] == s.sources[k];
      }
    } else {
      assert SourceFits(s, a.k);
      assert s'.sources[a.k] == Source(kind, Spent);
    }
  }

  lemma InitInv(s: State)
    requires Initial(s)
    ensures Inv(s)
  {
    SumZero(s.sources, Fires);
  }

  lemma InvKept(s: State, a: Action)
    requires Inv(s) && Enabled(s, a)
    ensures Inv(Step(s, a))
  {
    LedgerKept(s, a);
    SourcesKept(s, a);
    forall kind | kind in Step(s, a).emitted ensures Caused(Step(s, a), kind) {
      CausedKept(s, a, kind);
    }
  }

  lemma ReachableInv(s: State)
    requires Reachable(s)
    ensures Inv(s)
  {
    forall r | Initial(r) ensures Inv(r) {
      InitInv(r);
    }
    forall r, r' | Inv(r) && Next(r, r') ensures Inv(r') {
      var a :| Enabled(r, a) && r' == Step(r, a);
      InvKept(r, a);
    }
    R.Always(Initial, Next, Inv, s);
  }

  // ---- theorems ----

  /** At most one handle is ever scheduled, and never without its cause: a set event, a timer that expired, or an
      abort. */
  lemma FiresAtMostOnce(s: State)
    requires Reachable(s)
    ensures |s.emitted| <= 1
    ensures forall kind :: kind in s.emitted ==> Caused(s, kind)
  {
    ReachableInv(s);
    SumNonNegative(s.sources, Fires);
  }

  /** With no call under way and the waker registered, exactly one handle has been scheduled if and only if the
      waker, the timer or an abort has had its turn; and the waker has had it once the event has notified. */
  lemma FiresExactlyOnce(s: State)
    requires Reachable(s) && s.sources != [] && !s.sources[0].phase.Unregistered?
    requires forall k :: 0 <= k < |s.sources| ==> !Called(s.sources[k].phase)
    ensures |s.emitted| == 1 <==> exists k :: 0 <= k < |s.sources| && s.sources[k].phase.Spent?
    ensures s.event.Notified? ==> s.sources[0].phase.Spent?
  {
    ReachableInv(s);
    SumZero(s.sources, Fires);
    assert SourceFits(s, 0);
    if k :| 0 <= k < |s.sources| && s.sources[k].phase.Spent? {
      assert SourceFits(s, k);
    } else if |s.emitted| == 1 {
      assert Caused(s, s.emitted[0]);
    }
  }

  /** A waiter with a timeout that has been registered can expire, whatever else happens first to its event. */
  lemma TimeoutComes(s: State)
    requires Reachable(s) && Enabled(s, AddTimer)
    ensures Enabled(Step(s, AddTimer), Expire)
  {
  }

  /** A source whose turn has come. */
  predicate Turned(s: State, k: nat) { k < |s.sources| && (Called(s.sources[k].phase) || s.sources[k].phase.Spent?) }

  lemma TurnedKept(s: State, a: Action, k: nat)
    requires Inv(s) && Enabled(s, a) && Turned(s, k)
    ensures Turned(Step(s, a), k)
  {
  }

  /** Once the timer has expired, an abort has been called, or the event has notified a registered waker, exactly one
      handle has been scheduled in every later state with no call under way. */
  lemma TurnFires(s: State, a: Action, later: State)
    requires Reachable(s) && Enabled(s, a)
    requires || a.Expire? || a.AbortCall? || (a.Notify? && !s.sources[0].phase.Unregistered?)
             || (a.Register? && !s.event.Unset?)
    requires R.Path(Next, Step(s, a), later)
    requires forall k :: 0 <= k < |later.sources| ==> !Called(later.sources[k].phase)
    ensures |later.emitted| == 1
  {
    var k := if a.Expire? then 1 else if a.AbortCall? then |s.sources| else 0;
    ReachableInv(s);
    assert SourceFits(s, 0);
    InvKept(s, a);
    forall r, r' | Inv(r) && Turned(r, k) && Next(r, r') ensures Inv(r') && Turned(r', k) {
      var b :| Enabled(r, b) && r' == Step(r, b);
      InvKept(r, b);
      TurnedKept(r, b, k);
    }
    R.AlongPath(Next, r => Inv(r) && Turned(r, k), Step(s, a), later);
    SumZero(later.sources, Fires);
    assert SourceFits(later, k);
  }
}
