/** Safety of the scheduler over whole runs. */
module SchedulerTheorems {
  import opened Ledger
  import R = Runs
  import opened Scheduler
  import opened SchedulerSafety

  ghost predicate Inv(s: State) {
    && s.workers > 0
    && AllSane(s) && TokenLedger(s) && IdleLedger(s)
    && Numbered(s) && Covered(s) && ElisionCovered(s) && Called(s) && ForcedNotElided(s) && ClaimsDelivered(s)
    && forall h :: OncePushed(s, h)
  }

  lemma InitLedgers(s: State, workers: nat, producers: nat)
    requires s == Init(workers, producers)
    ensures TokenLedger(s) && IdleLedger(s) && forall h :: OncePushed(s, h)
  {
    assert forall i :: 0 <= i < |s.ts| ==> s.ts[i] == Fresh(if i < workers then Scan(false, Local) else External);
    SumZero(s.ts, Tokens);
    SumZero(s.ts, IdleShare);
    forall h ensures OncePushed(s, h) {
      SumZero(s.ts, Holds(h));
    }
  }

  lemma InitInv(workers: nat, producers: nat)
    requires workers > 0
    ensures Inv(Init(workers, producers))
  {
    var s := Init(workers, producers);
    InitLedgers(s, workers, producers);
    assert forall i :: 0 <= i < |s.ts| ==> s.ts[i] == Fresh(if i < workers then Scan(false, Local) else External);
  }

  lemma InvKept(s: State, a: Action)
    requires Enabled(s, a) && Inv(s)
    ensures Inv(Step(s, a))
  {
    SaneKept(s, a);
    LedgersKept(s, a);
    NumberedKept(s, a);
    CoveredKept(s, a);
    ElisionCoveredKept(s, a);
    CalledKept(s, a);
    ForcedNotElidedKept(s, a);
    ClaimsDeliveredKept(s, a);
    forall h ensures OncePushed(Step(s, a), h) {
      OncePushedKept(s, a, h);
    }
  }

  lemma ReachableInv(s: State)
    requires Reachable(s)
    ensures Inv(s)
  {
    forall r | Initial(r) ensures Inv(r) {
      var workers: nat, producers: nat :| workers > 0 && r == Init(workers, producers);
      InitInv(workers, producers);
    }
    forall r, r' | Inv(r) && Next(r, r') ensures Inv(r') {
      var a :| Enabled(r, a) && r' == Step(r, a);
      InvKept(r, a);
    }
    R.Always(Initial, Next, Inv, s);
  }

  /** A worker that is good and, if it is at the parker, has its token or is about to get it. */
  ghost predicate WillScan(s: State, i: nat) {
    i < s.workers <= |s.ts| && Good(s.ts[i]) && (s.ts[i].pc.Park? ==> s.ts[i].token || UnparkComing(s, i))
  }

  lemma ServedWillScan(s: State)
    requires Inv(s) && Served(s)
    ensures exists i :: WillScan(s, i)
  {
    var i :| 0 <= i < |s.ts| && Good(s.ts[i]);
    assert Sane(s.workers, s.stopping, i, s.ts[i]);
    if s.ts[i].pc.Park? && !s.ts[i].token {
      assert Waits(s.ts[i]);
    }
    assert WillScan(s, i);
  }

  /** Once `add_io_handle` has returned, as long as its handle sits in the injector and the runtime is
      not stopping, some worker will scan the injector before it blocks. */
  lemma ForcedWakeNeverStranded(s: State, h: Handle)
    requires Reachable(s) && !s.stopping
    requires h in s.forced && h in s.answers && h in s.injector
    ensures exists i :: WillScan(s, i)
  {
    ReachableInv(s);
    assert Settled(s, h);
    ServedWillScan(s);
  }

  /** Every handle in the injector is looked after by its own wake call, by a worker, or by a producer that has
      flags left to look at, unless its call was elided while every token was with a producer past the last flag
      and every worker was asleep. */
  lemma InjectorLookedAfter(s: State, h: Handle)
    requires Reachable(s) && !s.stopping && h in s.injector
    ensures InFlight(s, h)
         || (exists i :: WillScan(s, i))
         || Searching(s)
         || (h in s.answers && s.answers[h] == ElidedUnseen && h !in s.forced)
  {
    ReachableInv(s);
    if h in s.answers && !s.answers[h].ElidedUnseen? {
      assert Elided(s.answers[h]) || Settled(s, h);
      if Served(s) { ServedWillScan(s); }
    }
  }

  /** When every thread is parked or outside the runtime, no deque holds a handle, and the injector only those
      whose wake was elided while every token was with a producer past the last flag and every worker asleep. */
  lemma AsleepMeansDone(s: State, h: Handle)
    requires Reachable(s) && !s.stopping
    requires forall k :: !Enabled(s, Tick(k)) && !Enabled(s, Finish(k))
    ensures forall i :: 0 <= i < |s.ts| ==> s.ts[i].deque == [] && s.ts[i].hand == []
    ensures h in s.injector ==> h !in s.forced && h in s.answers && s.answers[h] == ElidedUnseen
  {
    ReachableInv(s);
    forall i | 0 <= i < |s.ts| ensures s.ts[i].call.NoCall? {
      assert !Enabled(s, Tick(i));
    }
    forall i | 0 <= i < |s.ts| ensures s.ts[i].deque == [] && s.ts[i].hand == [] && !Good(s.ts[i]) {
      assert Sane(s.workers, s.stopping, i, s.ts[i]) && !Enabled(s, Tick(i)) && !Enabled(s, Finish(i));
      assert !Waits(s.ts[i]);
    }
    if h in s.injector {
      InjectorLookedAfter(s, h);
    }
  }

  /** An elided `unpark_one` leaves nobody to see to its handle, neither a worker that will scan nor a producer with
      flags left to look at, exactly when every token is with a producer past the last flag and every worker is asleep:
      the condition under which its answer is `ElidedUnseen`. */
  lemma ElisionExact(s: State, k: nat)
    requires Reachable(s) && !s.stopping
    requires k < |s.ts| && s.ts[k].call.Cas? && s.speculation != 0
    ensures !(Served(s) || Searching(s)) <==> s.speculation == Exhausted(s) && AllAsleep(s)
    ensures !(Served(s) || Searching(s)) <==> Reply(s, s.ts[k].call) == [(s.ts[k].call.h, ElidedUnseen)]
  {
    ReachableInv(s);
    TokenShares(s);
    if !(Served(s) || Searching(s)) {
      forall i | 0 <= i < |s.ts| ensures Sane(s.workers, s.stopping, i, s.ts[i]) && !Good(s.ts[i]) {
        assert Sane(s.workers, s.stopping, i, s.ts[i]);
      }
      if s.speculation > Exhausted(s) { TokenServed(s); }
    } else if s.speculation == Exhausted(s) {
      NoneSearching(s);
      var i :| 0 <= i < |s.ts| && Good(s.ts[i]);
      assert Sane(s.workers, s.stopping, i, s.ts[i]);
      SumAtLeast(s.ts, i, WorkerTokens);
    }
  }

  lemma TokenShares(s: State)
    requires Inv(s)
    ensures s.speculation == Exhausted(s) + Sum(s.ts, SearchTokens(s.workers)) + Sum(s.ts, WorkerTokens)
    ensures Sum(s.ts, SearchTokens(s.workers)) >= 0 && Sum(s.ts, WorkerTokens) >= 0
    ensures forall i :: 0 <= i < |s.ts| ==> WorkerTokens(s.ts[i]) >= 0
  {
    SplitTokens(s.ts, s.workers);
    SumNonNegative(s.ts, SearchTokens(s.workers));
    SumNonNegative(s.ts, WorkerTokens);
  }

  lemma NoneSearching(s: State)
    requires Inv(s) && s.speculation == Exhausted(s)
    ensures !Searching(s)
  {
    TokenShares(s);
    if k :| 0 <= k < |s.ts| && Searches(s.ts[k].call, s.workers) {
      SumAtLeast(s.ts, k, SearchTokens(s.workers));
    }
  }

  /** `speculation` is exactly the tokens in circulation, so no `fetch_sub` on it underflows. */
  lemma SpeculationLedger(s: State)
    requires Reachable(s)
    ensures s.speculation == Sum(s.ts, Tokens) >= 0
    ensures forall k :: 0 <= k < |s.ts| ==> 0 <= Tokens(s.ts[k]) <= s.speculation
    ensures !s.stopping ==> forall k :: 0 <= k < |s.ts| ==> !s.ts[k].pc.Exited? && !s.ts[k].pc.Leave?
  {
    ReachableInv(s);
    SumNonNegative(s.ts, Tokens);
    forall k | 0 <= k < |s.ts|
      ensures 0 <= Tokens(s.ts[k]) <= s.speculation && Sane(s.workers, s.stopping, k, s.ts[k])
    {
      SumAtLeast(s.ts, k, Tokens);
      assert Sane(s.workers, s.stopping, k, s.ts[k]);
    }
  }

  /** A worker that found a handle runs it and stops speculating; if it held the last token, and only then, it passes
      the search on by a wake call of its own. */
  lemma SearchPassedOn(s: State, k: nat)
    requires Reachable(s) && k < |s.ts| && s.ts[k].call.NoCall? && s.ts[k].pc.Got?
    ensures var t, s' := s.ts[k], Step(s, Tick(k)); var t' := s'.ts[k];
      && t'.pc.Running? && !t'.spec && s'.ran == s.ran + t.hand
      && s'.speculation == s.speculation - B(t.spec)
      && (t'.call == Load(false, 0) <==> t.spec && forall j :: 0 <= j < |s.ts| && j != k ==> Tokens(s.ts[j]) == 0)
      && (t'.call.NoCall? || t'.call == Load(false, 0))
  {
    ReachableInv(s);
    if s.ts[k].spec { LastToken(s, k); }
  }

  /** The counter reads one exactly if nobody else has a token. */
  lemma LastToken(s: State, k: nat)
    requires Inv(s) && k < |s.ts| && s.ts[k].call.NoCall? && s.ts[k].pc.Got? && s.ts[k].spec
    ensures s.speculation == 1 <==> forall j :: 0 <= j < |s.ts| && j != k ==> Tokens(s.ts[j]) == 0
  {
    var rest := s.ts[k].(spec := false);
    SumUpdate(s.ts, k, rest, Tokens);
    if s.speculation == 1 {
      forall j | 0 <= j < |s.ts| && j != k ensures Tokens(s.ts[j]) == 0 {
        SumAtLeast(s.ts[k := rest], j, Tokens);
      }
    } else if forall j :: 0 <= j < |s.ts| && j != k ==> Tokens(s.ts[j]) == 0 {
      SumZero(s.ts[k := rest], Tokens);
    }
  }

  // ---- queues ----

  /** In the order of the pushes, all of them made. */
  predicate InOrder(q: seq<Handle>, next: Handle) {
    && (forall i, j :: 0 <= i < j < |q| ==> q[i] < q[j])
    && (forall i :: 0 <= i < |q| ==> q[i] < next)
  }

  predicate AllInOrder(s: State) {
    InOrder(s.injector, s.next) && forall k :: 0 <= k < |s.ts| ==> InOrder(s.ts[k].deque, s.next)
  }

  lemma TickDeques(s: State, k: nat)
    requires k < |s.ts| && Enabled(s, Tick(k)) && AllInOrder(s)
    ensures var e := MoveOf(s, k); InOrder(e.me.deque, s.next) && InOrder(e.them.deque, s.next)
  {
    var t, p := s.ts[k], s.ts[Other(s, k)];
    if t.call.NoCall? && t.pc.Scan? { ScanDeques(s, k, t, p); }
  }

  lemma ScanDeques(s: State, k: nat, t: Thread, p: Thread)
    requires t.pc.Scan? && InOrder(t.deque, s.next) && InOrder(p.deque, s.next)
    ensures var e := ScanMove(s, k, t, p); InOrder(e.me.deque, s.next) && InOrder(e.them.deque, s.next)
  {
  }

  lemma AllInOrderKept(s: State, a: Action)
    requires Enabled(s, a) && AllInOrder(s)
    ensures AllInOrder(Step(s, a))
  {
    if a.Tick? {
      TickInOrder(s, a.k);
    } else {
      var s' := Step(s, a);
      Pushed(s.injector, s.next);
      forall i | 0 <= i < |s'.ts| ensures InOrder(s'.ts[i].deque, s'.next) {
        Pushed(s.ts[i].deque, s.next);
      }
    }
  }

  lemma Pushed(q: seq<Handle>, next: Handle)
    requires InOrder(q, next)
    ensures InOrder(q + [next], next + 1) && InOrder(q, next + 1)
  {
  }

  lemma TickInOrder(s: State, k: nat)
    requires k < |s.ts| && Enabled(s, Tick(k)) && AllInOrder(s)
    ensures AllInOrder(Step(s, Tick(k)))
  {
    TickDeques(s, k);
    var s', j := Step(s, Tick(k)), Other(s, k);
    forall i | 0 <= i < |s'.ts| ensures InOrder(s'.ts[i].deque, s'.next) {
      assert i != k && i != j ==> s'.ts[i] == s.ts[i];
    }
  }

  /** The injector and every deque hold their handles in the order in which they were pushed: the front is the oldest
      and the back the newest. */
  lemma QueuesInOrder(s: State)
    requires Reachable(s)
    ensures AllInOrder(s)
  {
    forall r | Initial(r) ensures AllInOrder(r) {
      var workers: nat, producers: nat :| workers > 0 && r == Init(workers, producers);
      assert forall k :: 0 <= k < |r.ts| ==> r.ts[k] == Fresh(if k < workers then Scan(false, Local) else External);
    }
    forall r, r' | AllInOrder(r) && Next(r, r') ensures AllInOrder(r') {
      var a :| Enabled(r, a) && r' == Step(r, a);
      AllInOrderKept(r, a);
    }
    R.Always(Initial, Next, AllInOrder, s);
  }

  /** `idle_count` may be negative for a moment; the wrapped counter still reads zero only at zero. */
  lemma IdleCountLedger(s: State)
    requires Reachable(s) && 2 * |s.ts| < USIZE
    ensures s.idleCount == Sum(s.ts, IdleShare)
    ensures -|s.ts| <= s.idleCount <= 2 * |s.ts|
    ensures s.idleCount % USIZE == 0 <==> s.idleCount == 0
  {
    ReachableInv(s);
    forall k | 0 <= k < |s.ts| ensures -1 <= IdleShare(s.ts[k]) <= 2 {
      assert Sane(s.workers, s.stopping, k, s.ts[k]);
    }
    IdleBounds(s.ts);
  }

  lemma {:induction false} IdleBounds(ts: seq<Thread>)
    requires forall k :: 0 <= k < |ts| ==> -1 <= IdleShare(ts[k]) <= 2
    ensures -|ts| <= Sum(ts, IdleShare) <= 2 * |ts|
  {
    if ts != [] {
      IdleBounds(ts[1..]);
    }
  }

  /** A handle is run at most once, and while it has not run it is in exactly one queue or pair of hands;
      a worker at the parker has nothing left in its own deque. */
  lemma RunsOnce(s: State, h: Handle)
    requires Reachable(s)
    ensures Count(s.injector, h) + Sum(s.ts, Holds(h)) + Count(s.ran, h) == B(0 < h < s.next)
    ensures Count(s.ran, h) <= 1
    ensures forall i :: 0 <= i < |s.ts| && s.ts[i].pc.Park? ==> s.ts[i].deque == []
  {
    ReachableInv(s);
    assert OncePushed(s, h);
    forall i | 0 <= i < |s.ts| ensures s.ts[i].pc.Park? ==> s.ts[i].deque == [] {
      assert Sane(s.workers, s.stopping, i, s.ts[i]);
    }
    SumNonNegative(s.ts, Holds(h));
  }
}
