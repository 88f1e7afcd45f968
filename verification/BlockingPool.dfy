/** The blocking thread pool of src/blocking.rs: `BlockingRunnerPool::run`, `spawn_thread` and
    `blocking_worker`, one step per atomic operation, any number of calls and workers. */
module BlockingPool {
  import opened Ledger
  import R = Runs

  type Task = nat

  datatype Thread =
    // a call to `run`, after its send
    | Debit | LoadThreads | Reserve | Undo | Returned
    // a worker
    | Credit | Recv | TimedOut | Retire | LastLook
    | Rejoin(task: Task) | Recredit(task: Task) | Work(task: Task)
    | Gone

  datatype State = State(
    tmax: nat,
    queue: seq<Task>,
    threads: int,
    budget: int,
    ts: seq<Thread>,
    sent: seq<Task>,
    taken: seq<Task>,
    misled: bool,     // history: since the last send, a call gave up with nobody else there to take the task
    done: seq<Task>)  // history: tasks that were run

  datatype Action =
    | Send(task: Task)    // a new call to `run`
    | Tick(k: nat)
    | Timeout(k: nat)     // `recv_timeout` gives up; allowed at any time

  function Init(tmax: nat): State { State(tmax, [], 0, 0, [], [], [], false, []) }

  predicate Enabled(s: State, a: Action) {
    match a
    case Send(_) => true
    case Tick(k) => k < |s.ts| && !s.ts[k].Returned? && !s.ts[k].Gone? && (s.ts[k].Recv? ==> s.queue != [])
    case Timeout(k) => k < |s.ts| && s.ts[k].Recv?
  }

  function Step(s: State, a: Action): State
    requires Enabled(s, a)
  {
    match a
    case Send(task) => s.(queue := s.queue + [task], sent := s.sent + [task], ts := s.ts + [Debit], misled := false)
    case Timeout(k) => s.(ts := s.ts[k := TimedOut])
    case Tick(k) =>
      var t := s.ts[k];
      s.(ts := s.ts[k := Next(s, t)] + (if Spawns(s, t) then [Credit] else []),
         budget := s.budget + BudgetChange(t),
         threads := s.threads + ThreadsChange(t),
         queue := if Takes(s, t) then s.queue[1..] else s.queue,
         taken := if Takes(s, t) then s.taken + [s.queue[0]] else s.taken,
         misled := s.misled || Abandons(s, k),
         done := if t.Work? then s.done + [t.task] else s.done)
  }

  function Next(s: State, t: Thread): Thread {
    match t
    case Debit => if s.budget <= 0 then LoadThreads else Returned
    case LoadThreads => if s.threads < s.tmax then Reserve else Returned
    case Reserve => if s.threads >= s.tmax then Undo else Returned
    case Undo => Returned
    case Credit => Recv
    case Recv => if s.queue != [] then Work(s.queue[0]) else Recv
    case TimedOut => Retire
    case Retire => LastLook
    case LastLook => if s.queue != [] then Rejoin(s.queue[0]) else Gone
    case Rejoin(task) => Recredit(task)
    case Recredit(task) => Work(task)
    case Work(_) => Credit
    case Returned => Returned
    case Gone => Gone
  }

  function BudgetChange(t: Thread): int {
    match t
    case Debit => -1
    case TimedOut => -1
    case Credit => 1
    case Recredit(_) => 1
    case _ => 0
  }

  function ThreadsChange(t: Thread): int {
    match t
    case Reserve => 1
    case Rejoin(_) => 1
    case Undo => -1
    case Retire => -1
    case _ => 0
  }

  predicate Spawns(s: State, t: Thread) { t.Reserve? && s.threads < s.tmax }

  predicate Takes(s: State, t: Thread) { (t.Recv? || t.LastLook?) && s.queue != [] }

  /** The call gives up because of the thread count. */
  predicate Refused(s: State, t: Thread) { (t.LoadThreads? || t.Reserve?) && s.threads >= s.tmax }

  /** The call gives up, every counted thread is a reservation being undone, and nobody else is on the way to
      starting a worker or rejoining as one. */
  predicate Abandons(s: State, k: nat) {
    && k < |s.ts| && Refused(s, s.ts[k]) && s.threads == Sum(s.ts, Undoing)
    && forall i :: 0 <= i < |s.ts| && i != k ==> !Deciding(s.ts[i]) && !s.ts[i].LastLook? && !s.ts[i].Rejoin?
  }

  /** A call to `run` that may still start a worker. */
  predicate Deciding(t: Thread) { t.Debit? || t.LoadThreads? || t.Reserve? }

  function Undoing(t: Thread): int { B(t.Undo?) }

  ghost predicate Initial(s: State) { exists tmax: nat :: s == Init(tmax) }

  ghost predicate NextState(s: State, s': State) { exists a :: Enabled(s, a) && s' == Step(s, a) }

  ghost predicate Reachable(s: State) { R.Reachable(Initial, NextState, s) }

  // ---- ledgers ----

  /** Waiting workers, plus sends not yet debited, minus rescues not yet credited back. */
  function BudgetShare(t: Thread): int {
    match t
    case Recv => 1
    case TimedOut => 1
    case Debit => 1
    case Rejoin(_) => -1
    case Recredit(_) => -1
    case _ => 0
  }

  predicate Live(t: Thread) {
    t.Credit? || t.Recv? || t.TimedOut? || t.Retire? || t.LastLook? || t.Rejoin? || t.Recredit? || t.Work?
  }

  /** Workers that count: all live ones but those between retiring and rejoining. */
  function Counted(t: Thread): int { B(Live(t) && !t.LastLook? && !t.Rejoin?) }

  function ThreadShare(t: Thread): int { Counted(t) + Undoing(t) }

  /** A live worker, or a call that may still start one. */
  predicate Attends(t: Thread) { Live(t) || Deciding(t) }

  ghost predicate Attended(s: State) { exists i :: 0 <= i < |s.ts| && Attends(s.ts[i]) }

  /** A worker with the task in its hands. */
  function Carries(x: Task): Thread -> int {
    (t: Thread) => B((t.Rejoin? || t.Recredit? || t.Work?) && t.task == x)
  }

  /** What was taken has been run or is in the hands of a worker. */
  predicate WorkLedger(s: State, x: Task) { Count(s.taken, x) == Count(s.done, x) + Sum(s.ts, Carries(x)) }

  ghost predicate Inv(s: State) {
    && s.budget == Sum(s.ts, BudgetShare) - |s.queue|
    && s.threads == Sum(s.ts, ThreadShare)
    && s.sent == s.taken + s.queue
    && (forall x: Task :: WorkLedger(s, x))
    && (s.queue != [] && !s.misled ==> Attended(s))
    && (s.misled ==> !Attended(s))
  }

  lemma SumTick(s: State, k: nat, weight: Thread -> int)
    requires Enabled(s, Tick(k))
    ensures Sum(Step(s, Tick(k)).ts, weight)
      == Sum(s.ts, weight) - weight(s.ts[k]) + weight(Next(s, s.ts[k]))
         + (if Spawns(s, s.ts[k]) then weight(Credit) else 0)
  {
    var t := s.ts[k];
    SumUpdate(s.ts, k, Next(s, t), weight);
    if Spawns(s, t) {
      SumAppend(s.ts[k := Next(s, t)], Credit, weight);
    } else {
      assert s.ts[k := Next(s, t)] + [] == s.ts[k := Next(s, t)];
    }
  }

  /** Each operation changes the counters by what it changes in its thread's shares. */
  lemma Balance(s: State, t: Thread)
    requires t.Recv? ==> s.queue != []
    ensures BudgetChange(t) == BudgetShare(Next(s, t)) - BudgetShare(t) + B(Takes(s, t))
    ensures ThreadsChange(t) == ThreadShare(Next(s, t)) - ThreadShare(t) + B(Spawns(s, t))
  {
  }

  lemma CountersKept(s: State, a: Action)
    requires Inv(s) && Enabled(s, a)
    ensures var s' := Step(s, a);
      && s'.budget == Sum(s'.ts, BudgetShare) - |s'.queue|
      && s'.threads == Sum(s'.ts, ThreadShare)
  {
    match a
    case Send(task) =>
      SumAppend(s.ts, Debit, BudgetShare);
      SumAppend(s.ts, Debit, ThreadShare);
    case Timeout(k) =>
      SumUpdate(s.ts, k, TimedOut, BudgetShare);
      SumUpdate(s.ts, k, TimedOut, ThreadShare);
    case Tick(k) =>
      Balance(s, s.ts[k]);
      SumTick(s, k, BudgetShare);
      SumTick(s, k, ThreadShare);
  }

  lemma WorkLedgerKept(s: State, a: Action, x: Task)
    requires WorkLedger(s, x) && Enabled(s, a)
    ensures WorkLedger(Step(s, a), x)
  {
    match a
    case Send(task) => SumAppend(s.ts, Debit, Carries(x));
    case Timeout(k) => SumUpdate(s.ts, k, TimedOut, Carries(x));
    case Tick(k) =>
      SumTick(s, k, Carries(x));
      CarriesBalance(s, s.ts[k], x);
      HistoryCounts(s, k, x);
  }

  lemma CarriesBalance(s: State, t: Thread, x: Task)
    requires t.Recv? ==> s.queue != []
    ensures Carries(x)(Next(s, t)) - Carries(x)(t) == B(Takes(s, t) && s.queue[0] == x) - B(t.Work? && t.task == x)
  {
  }

  lemma HistoryCounts(s: State, k: nat, x: Task)
    requires Enabled(s, Tick(k))
    ensures var t, s' := s.ts[k], Step(s, Tick(k));
      && Count(s'.taken, x) == Count(s.taken, x) + B(Takes(s, t) && s.queue[0] == x)
      && Count(s'.done, x) == Count(s.done, x) + B(t.Work? && t.task == x)
  {
    var t := s.ts[k];
    if Takes(s, t) { CountPush(s.taken, s.queue[0], x); }
    if t.Work? { CountPush(s.done, t.task, x); }
  }

  lemma OrderKept(s: State, a: Action)
    requires Inv(s) && Enabled(s, a)
    ensures Step(s, a).sent == Step(s, a).taken + Step(s, a).queue
  {
  }

  /** With a task in the queue, a budget above zero has somebody else behind it. */
  lemma BudgetWitness(s: State, k: nat) returns (i: nat)
    requires Inv(s) && k < |s.ts| && s.ts[k].Debit? && s.budget > 0 && s.queue != []
    ensures i < |s.ts| && i != k && Attends(s.ts[i])
  {
    SumUpdate(s.ts, k, Returned, BudgetShare);
    i := SumWitness(s.ts[k := Returned], BudgetShare);
  }

  /** A thread count above the reservations being undone has a live worker behind it. */
  lemma CountWitness(s: State) returns (i: nat)
    requires Inv(s) && s.threads != Sum(s.ts, Undoing)
    ensures i < |s.ts| && Live(s.ts[i])
  {
    SplitThreads(s.ts);
    SumNonNegative(s.ts, Counted);
    i := SumWitness(s.ts, Counted);
  }

  lemma {:induction false} SplitThreads(ts: seq<Thread>)
    ensures Sum(ts, ThreadShare) == Sum(ts, Counted) + Sum(ts, Undoing)
  {
    if ts != [] {
      SplitThreads(ts[1..]);
    }
  }

  lemma AttendedKept(s: State, a: Action)
    requires Inv(s) && Enabled(s, a)
    ensures var s' := Step(s, a); s'.queue != [] && !s'.misled ==> Attended(s')
  {
    var s' := Step(s, a);
    if s'.queue != [] && !s'.misled {
      match a
      case Send(task) => assert Deciding(s'.ts[|s.ts|]);
      case Timeout(k) => assert Live(s'.ts[k]);
      case Tick(k) =>
        var t := s.ts[k];
        if Attends(Next(s, t)) {
          assert s'.ts[k] == Next(s, t);
        } else if t.Debit? {
          var i := BudgetWitness(s, k);
          assert s'.ts[i] == s.ts[i];
        } else if Spawns(s, t) {
          assert Live(s'.ts[|s.ts|]);
        } else if Refused(s, t) {
          var i := RefusalWitness(s, k);
          assert s'.ts[i] == s.ts[i];
        } else {
          var i :| 0 <= i < |s.ts| && Attends(s.ts[i]);
          assert s'.ts[i] == s.ts[i];
        }
    }
  }

  /** A refusal that abandons nothing has somebody else behind it. */
  lemma RefusalWitness(s: State, k: nat) returns (i: nat)
    requires Inv(s) && k < |s.ts| && Refused(s, s.ts[k]) && !Abandons(s, k)
    ensures i < |s.ts| && i != k && Attends(s.ts[i])
  {
    if s.threads != Sum(s.ts, Undoing) {
      i := CountWitness(s);
    } else {
      i :| 0 <= i < |s.ts| && i != k && (Deciding(s.ts[i]) || s.ts[i].LastLook? || s.ts[i].Rejoin?);
    }
  }

  /** No other thread attends a task that a refusal abandons. */
  lemma AbandonedAlone(s: State, k: nat)
    requires Inv(s) && Abandons(s, k)
    ensures forall i :: 0 <= i < |s.ts| && i != k ==> !Attends(s.ts[i])
  {
    SplitThreads(s.ts);
    forall i | 0 <= i < |s.ts| && i != k ensures !Attends(s.ts[i]) {
      SumAtLeast(s.ts, i, Counted);
    }
  }

  /** Nobody comes back to an abandoned queue before the next send. */
  lemma MisledKept(s: State, a: Action)
    requires Inv(s) && Enabled(s, a)
    ensures Step(s, a).misled ==> !Attended(Step(s, a))
  {
    var s' := Step(s, a);
    if s'.misled {
      if !s.misled { AbandonedAlone(s, a.k); }
      forall i | 0 <= i < |s'.ts| ensures !Attends(s'.ts[i]) {
        assert s.misled ==> !Attends(s.ts[a.k]) && !Attends(s.ts[i]);
      }
    }
  }

  lemma InvKept(s: State, a: Action)
    requires Inv(s) && Enabled(s, a)
    ensures Inv(Step(s, a))
  {
    CountersKept(s, a);
    OrderKept(s, a);
    AttendedKept(s, a);
    forall x: Task ensures WorkLedger(Step(s, a), x) { WorkLedgerKept(s, a, x); }
    MisledKept(s, a);
  }

  lemma ReachableInv(s: State)
    requires Reachable(s)
    ensures Inv(s)
  {
    forall r, r' | Inv(r) && NextState(r, r') ensures Inv(r') {
      var a :| Enabled(r, a) && r' == Step(r, a);
      InvKept(r, a);
    }
    R.Always(Initial, NextState, Inv, s);
  }

  // ---- theorems ----

  /** Tasks are received in the order they were sent, each once, and each is run once by the worker that received it;
      `budget` and `threads` are exact. */
  lemma PoolLedgers(s: State, x: Task)
    requires Reachable(s)
    ensures s.budget == Sum(s.ts, Waiting) + Sum(s.ts, Undebited) - Sum(s.ts, Uncredited) - |s.queue|
    ensures s.threads == Sum(s.ts, Counted) + Sum(s.ts, Undoing) >= 0
    ensures s.sent == s.taken + s.queue
    ensures Count(s.taken, x) == Count(s.done, x) + Sum(s.ts, Carries(x))
  {
    ReachableInv(s);
    SplitBudget(s.ts);
    SplitThreads(s.ts);
    SumNonNegative(s.ts, ThreadShare);
    assert WorkLedger(s, x);
  }

  function Waiting(t: Thread): int { B(t.Recv? || t.TimedOut?) }

  function Undebited(t: Thread): int { B(t.Debit?) }

  function Uncredited(t: Thread): int { B(t.Rejoin? || t.Recredit?) }

  lemma {:induction false} SplitBudget(ts: seq<Thread>)
    ensures Sum(ts, BudgetShare) == Sum(ts, Waiting) + Sum(ts, Undebited) - Sum(ts, Uncredited)
  {
    if ts != [] {
      SplitBudget(ts[1..]);
    }
  }

  /** A call goes on to look at the thread count exactly if waiting workers and sends not yet debited, less rescues
      not yet credited, are no more than the queued tasks; then it starts a worker exactly if counted workers and
      reservations being undone are fewer than the limit. */
  lemma SpawnExact(s: State, k: nat)
    requires Reachable(s) && Enabled(s, Tick(k)) && Deciding(s.ts[k])
    ensures var t, s' := s.ts[k], Step(s, Tick(k)); var t' := s'.ts[k];
      var room := Sum(s.ts, Counted) + Sum(s.ts, Undoing) < s.tmax;
      match t
      case Debit =>
        s'.ts == s.ts[k := t']
        && var free := Sum(s.ts, Waiting) + Sum(s.ts, Undebited) - Sum(s.ts, Uncredited) > |s.queue|;
        t' == if free then Returned else LoadThreads
      case LoadThreads => s'.ts == s.ts[k := t'] && t' == if room then Reserve else Returned
      case _ => s'.ts == if room then s.ts[k := Returned] + [Credit] else s.ts[k := Undo]
  {
    ReachableInv(s);
    SplitBudget(s.ts);
    SplitThreads(s.ts);
  }

  /** In a pool at rest with a worker waiting, the next call starts no thread. */
  lemma FreeWorkerSuffices(s: State, j: nat, task: Task)
    requires Reachable(s) && (forall k :: !Enabled(s, Tick(k))) && j < |s.ts| && s.ts[j].Recv?
    ensures var s' := Step(s, Send(task));
      s'.ts[|s.ts|].Debit? && Step(s', Tick(|s.ts|)).ts == s.ts + [Returned]
  {
    ReachableInv(s);
    assert !Enabled(s, Tick(j));
    forall k | 0 <= k < |s.ts| ensures BudgetShare(s.ts[k]) >= 0 {
      assert !Enabled(s, Tick(k));
    }
    SumAtLeast(s.ts, j, BudgetShare);
    assert (s.ts + [Debit])[|s.ts| := Returned] + [] == s.ts + [Returned];
  }

  /** Through every timeout, retirement and rescue, a queued task has a live worker or a call that may still start
      one if and only if no call has abandoned it since the last send. */
  lemma TaskAttendedExactly(s: State)
    requires Reachable(s) && s.queue != []
    ensures Attended(s) <==> !s.misled
  {
    ReachableInv(s);
  }

  /** A refusal leaves the pool unattended exactly when it abandons: this can be told before it is made. */
  lemma AbandonExact(s: State, k: nat)
    requires Reachable(s) && Enabled(s, Tick(k)) && Refused(s, s.ts[k])
    ensures !Attended(Step(s, Tick(k))) <==> Abandons(s, k)
  {
    ReachableInv(s);
    InvKept(s, Tick(k));
    if !Abandons(s, k) {
      var i := RefusalWitness(s, k);
      assert Step(s, Tick(k)).ts[i] == s.ts[i];
    }
  }

  /** In a pool whose threads have all come to rest, every task has been run unless a call abandoned the queue; then
      the next call to `run` attends to all that is queued. */
  lemma RestMeansDrained(s: State, task: Task)
    requires Reachable(s) && forall k :: !Enabled(s, Tick(k))
    ensures !s.misled ==> s.queue == [] && s.taken == s.sent && Count(s.done, task) == Count(s.sent, task)
    ensures var s' := Step(s, Send(task)); Attended(s') && s'.queue == s.queue + [task] && !s'.misled
  {
    ReachableInv(s);
    forall i | 0 <= i < |s.ts| ensures (s.queue != [] ==> !Attends(s.ts[i])) && Carries(task)(s.ts[i]) == 0 {
      assert !Enabled(s, Tick(i));
    }
    SumZero(s.ts, Carries(task));
    assert WorkLedger(s, task);
    InvKept(s, Send(task));
  }

  /** A failed reservation and its undo, taken as one step: while a call is undoing, nobody else moves. */
  ghost predicate NextAtomicUndo(s: State, s': State) {
    exists a :: Enabled(s, a) && s' == Step(s, a)
      && (Undo in s.ts ==> a.Tick? && s.ts[a.k].Undo?)
  }

  ghost predicate InvUnmisled(s: State) { Inv(s) && (s.tmax > 0 ==> !s.misled) }

  lemma UnmisledKept(s: State, a: Action)
    requires InvUnmisled(s) && Enabled(s, a) && (Undo in s.ts ==> a.Tick? && s.ts[a.k].Undo?)
    ensures InvUnmisled(Step(s, a))
  {
    InvKept(s, a);
    if s.tmax > 0 && a.Tick? && Abandons(s, a.k) {
      var i := SumWitness(s.ts, Undoing);
    }
  }

  /** If the undo is one step with the reservation it undoes, a pool that may have a thread orphans no task. */
  lemma NeverOrphanedIfUndoAtomic(s: State)
    requires R.Reachable(Initial, NextAtomicUndo, s) && s.queue != [] && s.tmax > 0
    ensures Attended(s)
  {
    forall r, r' | InvUnmisled(r) && NextAtomicUndo(r, r') ensures InvUnmisled(r') {
      var a :| Enabled(r, a) && r' == Step(r, a) && (Undo in r.ts ==> a.Tick? && r.ts[a.k].Undo?);
      UnmisledKept(r, a);
    }
    R.Always(Initial, NextAtomicUndo, InvUnmisled, s);
  }

  /** A refusal finds no live worker exactly when the whole count is reservations being undone and
      nobody is between retiring and rejoining. */
  lemma RefusalExact(s: State, k: nat)
    requires Reachable(s) && k < |s.ts| && Refused(s, s.ts[k])
    ensures (forall i :: 0 <= i < |s.ts| ==> !Live(s.ts[i]))
      <==> s.threads == Sum(s.ts, Undoing) && forall i :: 0 <= i < |s.ts| ==> !s.ts[i].LastLook? && !s.ts[i].Rejoin?
  {
    ReachableInv(s);
    SplitThreads(s.ts);
    if s.threads != Sum(s.ts, Undoing) {
      var i := CountWitness(s);
    } else if i :| 0 <= i < |s.ts| && Live(s.ts[i]) {
      SumAtLeast(s.ts, i, Counted);
    }
  }

  // ---- a task that is orphaned ----

  lemma Go(s: State, a: Action, s': State)
    requires Reachable(s) && Enabled(s, a) && Step(s, a) == s'
    ensures Reachable(s')
  {
    R.Extend(Initial, NextState, s, s');
  }

  /** A step that neither starts a worker nor is refused. */
  lemma Turn(s: State, k: nat, s': State)
    requires Reachable(s) && Enabled(s, Tick(k)) && !Refused(s, s.ts[k]) && !Spawns(s, s.ts[k])
    requires var t := s.ts[k];
      s' == s.(ts := s.ts[k := Next(s, t)],
               budget := s.budget + BudgetChange(t),
               threads := s.threads + ThreadsChange(t),
               queue := if Takes(s, t) then s.queue[1..] else s.queue,
               taken := if Takes(s, t) then s.taken + [s.queue[0]] else s.taken,
               done := if t.Work? then s.done + [t.task] else s.done)
    ensures Reachable(s')
  {
    assert s.ts[k := Next(s, s.ts[k])] + [] == s.ts[k := Next(s, s.ts[k])];
    Go(s, Tick(k), s');
  }

  /** Two calls see no worker and both go on to reserve a slot of a pool of one; the second starts the
      worker, so the first finds the slot taken and must undo its reservation. */
  lemma BothReserve()
    ensures Reachable(State(1, [7, 8], 0, -2, [Reserve, Reserve], [7, 8], [], false, []))
  {
    R.Begin(Initial, NextState, Init(1));
    var s1 := State(1, [7], 0, 0, [Debit], [7], [], false, []);
    Go(Init(1), Send(7), s1);
    var s2 := State(1, [7], 0, -1, [LoadThreads], [7], [], false, []);
    Turn(s1, 0, s2);
    var s3 := State(1, [7], 0, -1, [Reserve], [7], [], false, []);
    Turn(s2, 0, s3);
    var s4 := State(1, [7, 8], 0, -1, [Reserve, Debit], [7, 8], [], false, []);
    Go(s3, Send(8), s4);
    var s5 := State(1, [7, 8], 0, -2, [Reserve, LoadThreads], [7, 8], [], false, []);
    Turn(s4, 1, s5);
    var s6 := State(1, [7, 8], 0, -2, [Reserve, Reserve], [7, 8], [], false, []);
    Turn(s5, 1, s6);
  }

  lemma LateReservation()
    ensures Reachable(State(1, [7, 8], 2, -2, [Undo, Returned, Credit], [7, 8], [], false, []))
  {
    BothReserve();
    var s6 := State(1, [7, 8], 0, -2, [Reserve, Reserve], [7, 8], [], false, []);
    var s7 := State(1, [7, 8], 1, -2, [Reserve, Returned, Credit], [7, 8], [], false, []);
    Go(s6, Tick(1), s7);
    assert Sum(s7.ts, Undoing) == 0 by { SumZero(s7.ts, Undoing); }
    Go(s7, Tick(0), State(1, [7, 8], 2, -2, [Undo, Returned, Credit], [7, 8], [], false, []));
  }

  /** Before it does, the worker serves both tasks, times out and leaves. */
  lemma WorkerServesOne()
    ensures Reachable(State(1, [8], 2, -1, [Undo, Returned, Credit], [7, 8], [7], false, [7]))
  {
    LateReservation();
    var s1 := State(1, [7, 8], 2, -1, [Undo, Returned, Recv], [7, 8], [], false, []);
    Turn(State(1, [7, 8], 2, -2, [Undo, Returned, Credit], [7, 8], [], false, []), 2, s1);
    var s2 := State(1, [8], 2, -1, [Undo, Returned, Work(7)], [7, 8], [7], false, []);
    Turn(s1, 2, s2);
    var s3 := State(1, [8], 2, -1, [Undo, Returned, Credit], [7, 8], [7], false, [7]);
    Turn(s2, 2, s3);
  }

  lemma WorkerServesAll()
    ensures Reachable(State(1, [], 2, 1, [Undo, Returned, Recv], [7, 8], [7, 8], false, [7, 8]))
  {
    WorkerServesOne();
    var s3 := State(1, [8], 2, -1, [Undo, Returned, Credit], [7, 8], [7], false, [7]);
    var s4 := State(1, [8], 2, 0, [Undo, Returned, Recv], [7, 8], [7], false, [7]);
    Turn(s3, 2, s4);
    var s5 := State(1, [], 2, 0, [Undo, Returned, Work(8)], [7, 8], [7, 8], false, [7]);
    Turn(s4, 2, s5);
    var s6 := State(1, [], 2, 0, [Undo, Returned, Credit], [7, 8], [7, 8], false, [7, 8]);
    Turn(s5, 2, s6);
    Turn(s6, 2, State(1, [], 2, 1, [Undo, Returned, Recv], [7, 8], [7, 8], false, [7, 8]));
  }

  lemma WorkerLeaves()
    ensures Reachable(State(1, [], 1, 0, [Undo, Returned, Gone], [7, 8], [7, 8], false, [7, 8]))
  {
    WorkerServesAll();
    var s1 := State(1, [], 2, 1, [Undo, Returned, TimedOut], [7, 8], [7, 8], false, [7, 8]);
    Go(State(1, [], 2, 1, [Undo, Returned, Recv], [7, 8], [7, 8], false, [7, 8]), Timeout(2), s1);
    var s2 := State(1, [], 2, 0, [Undo, Returned, Retire], [7, 8], [7, 8], false, [7, 8]);
    Turn(s1, 2, s2);
    var s3 := State(1, [], 1, 0, [Undo, Returned, LastLook], [7, 8], [7, 8], false, [7, 8]);
    Turn(s2, 2, s3);
    Turn(s3, 2, State(1, [], 1, 0, [Undo, Returned, Gone], [7, 8], [7, 8], false, [7, 8]));
  }

  /** A third call reads the count before the undo, and gives up. */
  lemma ThirdCall()
    ensures Reachable(State(1, [9], 1, -1, [Undo, Returned, Gone, LoadThreads], [7, 8, 9], [7, 8], false, [7, 8]))
  {
    WorkerLeaves();
    var s1 := State(1, [9], 1, 0, [Undo, Returned, Gone, Debit], [7, 8, 9], [7, 8], false, [7, 8]);
    Go(State(1, [], 1, 0, [Undo, Returned, Gone], [7, 8], [7, 8], false, [7, 8]), Send(9), s1);
    var s2 := State(1, [9], 1, -1, [Undo, Returned, Gone, LoadThreads], [7, 8, 9], [7, 8], false, [7, 8]);
    Go(s1, Tick(3), s2);
  }

  lemma OneUndoing(s: State)
    requires s.ts == [Undo, Returned, Gone, LoadThreads]
    ensures Sum(s.ts, Undoing) == 1
  {
    SumZero(s.ts[1..], Undoing);
  }

  lemma ThirdCallMisled()
    ensures Reachable(State(1, [9], 1, -1, [Undo, Returned, Gone, Returned], [7, 8, 9], [7, 8], true, [7, 8]))
  {
    ThirdCall();
    var s2 := State(1, [9], 1, -1, [Undo, Returned, Gone, LoadThreads], [7, 8, 9], [7, 8], false, [7, 8]);
    OneUndoing(s2);
    assert Abandons(s2, 3);
    Go(s2, Tick(3), State(1, [9], 1, -1, [Undo, Returned, Gone, Returned], [7, 8, 9], [7, 8], true, [7, 8]));
  }

  function Orphaned(): State {
    State(1, [9], 0, -1, [Returned, Returned, Gone, Returned], [7, 8, 9], [7, 8], true, [7, 8])
  }

  /** The undo of a failed reservation is a second step, and it opens a window: in this reachable state
      a task is queued, there is no worker, and every call has returned. */
  lemma UndoCanOrphan()
    ensures Reachable(Orphaned()) && Orphaned().queue != [] && !Attended(Orphaned())
    ensures forall k :: !Enabled(Orphaned(), Tick(k)) && !Enabled(Orphaned(), Timeout(k))
  {
    ThirdCallMisled();
    Go(State(1, [9], 1, -1, [Undo, Returned, Gone, Returned], [7, 8, 9], [7, 8], true, [7, 8]), Tick(0), Orphaned());
  }
}
