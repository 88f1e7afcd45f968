/** One blocking task of src/blocking.rs: the worker that picks it up races any number of aborts over the
    task state. One step per atomic operation. */
module BlockingTask {
  import R = Runs

  datatype TaskState = Queued | Running | Cancelled | Done

  type Value = int

  /** What ends up in the result holder: the error flag of slot 0 and the object of slot 1. */
  datatype Outcome = Returned(v: Value) | Raised(e: Value) | Abort

  datatype Slot<T> = Empty | Full(value: T)

  datatype Runner =
    | InQueue
    | Claim                       // `begin`: tid published, the transition still to come
    | Unclaim                     // the transition failed
    | Target                      // inside the target
    | Store0(out: Outcome) | Store1(out: Outcome)
    | ClearTid | MarkDone         // `finish`
    | Notify | Left

  datatype Aborter = Attempt | Put0 | Put1 | Tell | Look | LoadTid | Gone

  datatype Owner = Nobody | Worker | By(i: nat)

  datatype State = State(
    task: TaskState,
    tid: nat,
    slot0: Slot<bool>,
    slot1: Slot<Outcome>,
    event: bool,
    runner: Runner,
    aborters: seq<Aborter>,
    owner: Owner,       // history: who won the state
    sets: nat,          // history: calls to `event.set` that found the flag down
    entered: nat,       // history: times the target was entered
    out: Slot<Outcome>) // history: what the target ended with

  datatype Action =
    | PickUp(thread: nat)     // a worker receives the task; `thread` is its identity
    | RunnerStep
    | TargetEnds(out: Outcome)
    | AbortCall               // a new call to `abort`
    | AborterStep(i: nat)

  function Init(): State {
    State(Queued, 0, Empty, Empty, false, InQueue, [], Nobody, 0, 0, Empty)
  }

  predicate Initial(s: State) { s == Init() }

  predicate Enabled(s: State, a: Action) {
    match a
    case PickUp(thread) => s.runner.InQueue? && thread > 0
    case RunnerStep => !s.runner.InQueue? && !s.runner.Target? && !s.runner.Left?
    case TargetEnds(out) => s.runner.Target? && !out.Abort?
    case AbortCall => true
    case AborterStep(i) => i < |s.aborters| && !s.aborters[i].Gone?
  }

  function Step(s: State, a: Action): State
    requires Enabled(s, a)
  {
    match a
    case PickUp(thread) => s.(tid := thread, runner := Claim)
    case RunnerStep => RunnerMove(s)
    case TargetEnds(out) => s.(runner := Store0(out), out := Full(out))
    case AbortCall => s.(aborters := s.aborters + [Attempt])
    case AborterStep(i) => AborterMove(s, i)
  }

  function RunnerMove(s: State): State {
    match s.runner
    case Claim =>
      if s.task.Queued? then s.(task := Running, runner := Target, owner := Worker, entered := s.entered + 1)
      else s.(runner := Unclaim)
    case Unclaim => s.(tid := 0, runner := Left)
    case Store0(out) => s.(slot0 := Full(out.Raised?), runner := Store1(out))
    case Store1(out) => s.(slot1 := Full(out), runner := ClearTid)
    case ClearTid => s.(tid := 0, runner := MarkDone)
    case MarkDone => s.(task := Done, runner := Notify)
    case Notify => Signalled(s).(runner := Left)
    case _ => s
  }

  function AborterMove(s: State, i: nat): State
    requires i < |s.aborters|
  {
    match s.aborters[i]
    case Attempt =>
      if s.task.Queued? then Now(s, i, Put0).(task := Cancelled, owner := By(i)) else Now(s, i, Look)
    case Put0 => Now(s, i, Put1).(slot0 := Full(true))
    case Put1 => Now(s, i, Tell).(slot1 := Full(Abort))
    case Tell => Signalled(Now(s, i, Gone))
    case Look => Now(s, i, if s.task.Running? then LoadTid else Gone)
    case LoadTid => Now(s, i, Gone)
    case Gone => s
  }

  function Now(s: State, i: nat, pc: Aborter): State
    requires i < |s.aborters|
  {
    s.(aborters := s.aborters[i := pc])
  }

  /** `event.set`. */
  function Signalled(s: State): State {
    s.(event := true, sets := if s.event then s.sets else s.sets + 1)
  }

  ghost predicate Next(s: State, s': State) { exists a :: Enabled(s, a) && s' == Step(s, a) }

  ghost predicate Reachable(s: State) { R.Reachable(Initial, Next, s) }

  // ---- invariant ----

  predicate Acting(a: Aborter) { a.Put0? || a.Put1? || a.Tell? }

  /** Nothing has been stored or signalled. */
  predicate Untouched(s: State) { s.slot0.Empty? && s.slot1.Empty? && !s.event && s.sets == 0 }

  predicate Stored(s: State, out: Outcome) {
    s.slot0 == Full(!out.Returned?) && s.slot1 == Full(out) && s.sets == (if s.event then 1 else 0)
  }

  predicate WorkerOwns(s: State) {
    && s.entered == 1 && (forall i :: 0 <= i < |s.aborters| ==> !Acting(s.aborters[i]))
    && (s.task.Running? || s.task.Done?)
    && (s.runner.Target? ==> Untouched(s) && s.tid > 0 && s.task.Running?)
    && (s.runner.Store0? ==> Untouched(s) && s.tid > 0 && s.out == Full(s.runner.out) && !s.runner.out.Abort?
                             && s.task.Running?)
    && (s.runner.Store1? ==> s.slot0 == Full(s.runner.out.Raised?) && s.slot1.Empty? && !s.event && s.sets == 0
                             && s.tid > 0 && s.out == Full(s.runner.out) && !s.runner.out.Abort? && s.task.Running?)
    && (s.runner.ClearTid? || s.runner.MarkDone? || s.runner.Notify? || s.runner.Left? ==>
          s.out.Full? && !s.out.value.Abort? && Stored(s, s.out.value) && (s.event <==> s.runner.Left?))
    && (s.runner.Notify? || s.runner.Left? <==> s.task.Done?)
    && (s.runner.MarkDone? || s.runner.Notify? || s.runner.Left? ==> s.tid == 0)
    && !s.runner.InQueue? && !s.runner.Claim? && !s.runner.Unclaim?
  }

  predicate AborterOwns(s: State, w: nat) {
    && s.entered == 0 && s.task.Cancelled? && s.out.Empty?
    && (s.runner.InQueue? || s.runner.Claim? || s.runner.Unclaim? || s.runner.Left?)
    && (s.runner.InQueue? || s.runner.Left? ==> s.tid == 0)
    && w < |s.aborters| && (forall i :: 0 <= i < |s.aborters| && i != w ==> !Acting(s.aborters[i]))
    && (s.aborters[w].Put0? ==> Untouched(s))
    && (s.aborters[w].Put1? ==> s.slot0 == Full(true) && s.slot1.Empty? && !s.event && s.sets == 0)
    && (s.aborters[w].Tell? || s.aborters[w].Gone? ==> Stored(s, Abort) && (s.event <==> s.aborters[w].Gone?))
    && (Acting(s.aborters[w]) || s.aborters[w].Gone?)
  }

  predicate Inv(s: State) {
    match s.owner
    case Nobody =>
      && s.task.Queued? && s.entered == 0 && Untouched(s) && s.out.Empty?
      && (s.runner.InQueue? || s.runner.Claim?) && (forall i :: 0 <= i < |s.aborters| ==> !Acting(s.aborters[i]))
      && (s.runner.Claim? <==> s.tid > 0)
    case Worker => WorkerOwns(s)
    case By(w) => AborterOwns(s, w)
  }

  lemma RunnerKept(s: State)
    requires Inv(s) && Enabled(s, RunnerStep)
    ensures Inv(RunnerMove(s))
  {
  }

  /** An abort that has not won the state changes nothing but its own position. */
  lemma BystanderKept(s: State, i: nat, pc: Aborter)
    requires Inv(s) && i < |s.aborters| && !Acting(s.aborters[i]) && s.owner != By(i) && !Acting(pc)
    ensures Inv(Now(s, i, pc))
  {
  }

  lemma WinnerKept(s: State, i: nat)
    requires Inv(s) && Enabled(s, AborterStep(i)) && s.owner == By(i)
    ensures Inv(AborterMove(s, i))
  {
  }

  lemma AborterKept(s: State, i: nat)
    requires Inv(s) && Enabled(s, AborterStep(i))
    ensures Inv(AborterMove(s, i))
  {
    if s.owner == By(i) {
      WinnerKept(s, i);
    } else if !(s.aborters[i].Attempt? && s.task.Queued?) {
      BystanderKept(s, i, AborterMove(s, i).aborters[i]);
    }
  }

  lemma InvKept(s: State, a: Action)
    requires Inv(s) && Enabled(s, a)
    ensures Inv(Step(s, a))
  {
    match a
    case RunnerStep => RunnerKept(s);
    case AborterStep(i) => AborterKept(s, i);
    case _ =>
  }

  lemma ReachableInv(s: State)
    requires Reachable(s)
    ensures Inv(s)
  {
    forall r, r' | Inv(r) && Next(r, r') ensures Inv(r') {
      var a :| Enabled(r, a) && r' == Step(r, a);
      InvKept(r, a);
    }
    R.Always(Initial, Next, Inv, s);
  }

  // ---- theorem ----

  /** Either the target is entered, once, and what it ended with is stored, or it never is and the abort
      error is; the event is set at most once, after both slots; and while the target runs the worker's
      identity is published, and at no time before it is picked up or after it is done. */
  lemma ExactlyOneOutcome(s: State)
    requires Reachable(s)
    ensures s.entered <= 1 && s.sets == (if s.event then 1 else 0)
    ensures s.event ==> s.slot0.Full? && s.slot1.Full?
    ensures s.event && s.entered == 1 ==> s.out.Full? && s.slot1 == s.out && s.slot0.value == s.out.value.Raised?
    ensures s.event && s.entered == 0 ==> s.slot1 == Full(Abort) && s.slot0 == Full(true)
    ensures s.task.Cancelled? ==> s.entered == 0
    ensures s.runner.Target? ==> s.task.Running? && s.tid > 0
    ensures s.runner.InQueue? || s.task.Done? || s.runner.Left? ==> s.tid == 0
  {
    ReachableInv(s);
  }

  /** Whoever comes first to a task that is neither begun nor cancelled wins it, and nobody after: an abort cancels it,
      a worker enters the target, exactly if nobody has won it before; otherwise the abort writes nothing and the
      worker leaves it alone. */
  lemma FirstWins(s: State, i: nat)
    requires Reachable(s)
    ensures i < |s.aborters| && s.aborters[i].Attempt? ==>
      var s' := Step(s, AborterStep(i));
      if s.owner.Nobody? then s'.task.Cancelled? && s'.owner == By(i) && s'.aborters[i].Put0? && s'.entered == 0
      else s' == s.(aborters := s.aborters[i := Look])
    ensures s.runner.Claim? ==>
      var s' := Step(s, RunnerStep);
      if s.owner.Nobody? then s'.runner.Target? && s'.task.Running? && s'.entered == 1
      else s' == s.(runner := Unclaim)
    ensures s.owner.Nobody? <==> s.task.Queued?
  {
    ReachableInv(s);
  }

  /** An abort that comes while the target is running, left alone, comes to read the identity of its worker. */
  lemma AbortReachesWorker(s: State, i: nat)
    requires Reachable(s) && s.runner.Target? && i < |s.aborters| && s.aborters[i].Attempt?
    ensures var s' := AborterMove(AborterMove(s, i), i);
      s'.aborters[i].LoadTid? && s'.tid == s.tid > 0 && s'.task.Running?
  {
    ReachableInv(s);
  }

  /** Once the worker and every abort have returned, the event is set. */
  lemma AlwaysSignalled(s: State)
    requires Reachable(s) && s.runner.Left?
    requires forall i :: 0 <= i < |s.aborters| ==> s.aborters[i].Gone?
    ensures s.event
  {
    ReachableInv(s);
  }
}
