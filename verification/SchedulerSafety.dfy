/** What every run of the scheduler keeps. */
module SchedulerSafety {
  import opened Ledger
  import opened Scheduler

  // ---- per-thread facts ----

  predicate Stops(pc: Pc) {
    pc == ClearFlag(OnStop) || pc == ClearCount(OnStop) || pc.Leave? || pc.Exited?
  }

  /** pcs at which a worker holds the handle it found. */
  predicate Holding(pc: Pc) {
    pc.Got? || pc.Absorb? || ((pc.ClearFlag? || pc.ClearCount?) && (pc.cause.AfterScan? || pc.cause.AfterFinal?))
  }

  /** pcs at which `is_speculating` may still be set. */
  predicate MaySpeculate(pc: Pc) {
    pc.Scan? || pc.Got? || pc.CheckStop? || pc.SetFlag? || pc.SetCount? || pc.Absorb? || pc.Release? || pc.Leave?
    || ((pc.ClearFlag? || pc.ClearCount?) && (pc.cause.AfterScan? || pc.cause.OnStop?))
  }

  predicate Sane(workers: nat, stopping: bool, i: nat, t: Thread) {
    && (i < workers <==> !t.pc.External?)
    && (t.flag ==> Idle(t.pc))
    && (t.spec ==> MaySpeculate(t.pc))
    && (!t.call.NoCall? ==> t.pc.External? || t.pc.Running?)
    && (t.call.Dec? || t.call.Unpark? ==> t.call.i < workers)
    && (t.pc.Release? ==> t.spec)
    && (Stops(t.pc) ==> stopping)
    && |t.hand| == B(Holding(t.pc))
    && (t.deque != [] ==> t.pc.Running? || (t.pc.Scan? && t.pc.phase.Local?) || Holding(t.pc))
  }

  predicate AllSane(s: State) {
    s.workers <= |s.ts| && forall i :: 0 <= i < |s.ts| ==> Sane(s.workers, s.stopping, i, s.ts[i])
  }

  /** Two threads about to interact. */
  predicate Pair(s: State, k: nat, t: Thread, j: nat, p: Thread) {
    && Sane(s.workers, s.stopping, k, t) && Sane(s.workers, s.stopping, j, p)
    && (j == k ==> p == t)
  }

  /** The acting thread changes its share of the tokens by what it adds to `speculation`,
      and its share of the idle count by what it adds to `idle_count`. */
  predicate TokensBalance(t: Thread, e: Effect) { e.spec == Tokens(e.me) - Tokens(t) }

  predicate IdleBalance(t: Thread, e: Effect) { e.idle == IdleShare(e.me) - IdleShare(t) }

  /** All that a ledger sees of a thread. */
  predicate SameShares(t: Thread, t': Thread) {
    t.pc == t'.pc && t.flag == t'.flag && t.spec == t'.spec && t.call == t'.call
  }

  lemma ScanSane(s: State, k: nat, t: Thread, p: Thread)
    requires Sane(s.workers, s.stopping, k, t) && t.call.NoCall? && t.pc.Scan?
    ensures Sane(s.workers, s.stopping, k, ScanMove(s, k, t, p).me)
  {
  }

  lemma ScanBalance(s: State, k: nat, t: Thread, p: Thread)
    requires t.call.NoCall? && t.pc.Scan?
    ensures var e := ScanMove(s, k, t, p);
      && TokensBalance(t, e) && IdleBalance(t, e)
      && SameShares(e.them, p) && e.them.hand == p.hand && (p.deque == [] ==> e.them.deque == [])
  {
  }

  lemma LoopSane(s: State, k: nat, t: Thread, p: Thread)
    requires Sane(s.workers, s.stopping, k, t) && t.call.NoCall? && !t.pc.Scan?
    ensures Sane(s.workers, s.stopping, k, LoopMove(s, t, p).me)
  {
  }

  lemma LoopTokensBalance(s: State, k: nat, t: Thread, p: Thread)
    requires Sane(s.workers, s.stopping, k, t) && t.call.NoCall? && !t.pc.Scan?
    ensures TokensBalance(t, LoopMove(s, t, p))
  {
  }

  lemma LoopIdleBalance(s: State, k: nat, t: Thread, p: Thread)
    requires Sane(s.workers, s.stopping, k, t) && t.call.NoCall? && !t.pc.Scan?
    ensures IdleBalance(t, LoopMove(s, t, p))
  {
  }

  lemma CallSane(s: State, k: nat, t: Thread, j: nat, p: Thread)
    requires Pair(s, k, t, j, p) && !t.call.NoCall?
    ensures var e := CallMove(s, t, p);
      && Sane(s.workers, s.stopping, k, e.me) && Sane(s.workers, s.stopping, j, e.them)
  {
  }

  lemma CallBalance(s: State, t: Thread, p: Thread)
    requires !t.call.NoCall? && (p.flag ==> Idle(p.pc))
    ensures var e := CallMove(s, t, p);
      && e.spec == Tokens(e.me) - Tokens(t) + Tokens(e.them) - Tokens(p)
      && e.idle == IdleShare(e.me) - IdleShare(t) + IdleShare(e.them) - IdleShare(p)
  {
    var e := CallMove(s, t, p);
    assert e.me == t.(call := e.me.call);
    if e.them.flag == p.flag {
      assert SameShares(e.them, p);
    }
  }

  // ---- the ledgers ----

  predicate TokenLedger(s: State) { s.speculation == Sum(s.ts, Tokens) }

  predicate IdleLedger(s: State) { s.idleCount == Sum(s.ts, IdleShare) }

  function MoveOf(s: State, k: nat): Effect
    requires k < |s.ts|
  {
    Move(s, k, s.ts[k], s.ts[Other(s, k)])
  }

  lemma SumTick(s: State, k: nat, weight: Thread -> int)
    requires k < |s.ts| && Enabled(s, Tick(k))
    ensures var j, e := Other(s, k), MoveOf(s, k);
      Sum(Step(s, Tick(k)).ts, weight)
        == Sum(s.ts, weight) + weight(e.me) - weight(s.ts[k]) + (if j == k then 0 else weight(e.them) - weight(s.ts[j]))
  {
    var j, e := Other(s, k), MoveOf(s, k);
    SumUpdate(s.ts, j, e.them, weight);
    SumUpdate(s.ts[j := e.them], k, e.me, weight);
  }

  /** The threads touched by a tick keep the per-thread facts and balance the counters. */
  predicate Balanced(s: State, k: nat, t: Thread, j: nat, p: Thread, e: Effect) {
    && Sane(s.workers, s.stopping, k, e.me)
    && (j != k ==> Sane(s.workers, s.stopping, j, e.them))
    && e.spec == Tokens(e.me) - Tokens(t) + (if j == k then 0 else Tokens(e.them) - Tokens(p))
    && e.idle == IdleShare(e.me) - IdleShare(t) + (if j == k then 0 else IdleShare(e.them) - IdleShare(p))
  }

  lemma BalancedAlone(s: State, k: nat, t: Thread, j: nat, p: Thread, e: Effect)
    requires Pair(s, k, t, j, p) && Sane(s.workers, s.stopping, k, e.me) && TokensBalance(t, e) && IdleBalance(t, e)
    requires SameShares(e.them, p) && e.them.hand == p.hand && (p.deque == [] ==> e.them.deque == [])
    ensures Balanced(s, k, t, j, p, e)
  {
  }

  lemma CallPair(s: State, k: nat, t: Thread, j: nat, p: Thread)
    requires Pair(s, k, t, j, p) && !t.call.NoCall?
    ensures Balanced(s, k, t, j, p, CallMove(s, t, p))
  {
    CallSane(s, k, t, j, p);
    CallBalance(s, t, p);
    assert j == k ==> SameShares(CallMove(s, t, p).them, p);
  }

  lemma ScanPair(s: State, k: nat, t: Thread, j: nat, p: Thread)
    requires Pair(s, k, t, j, p) && t.call.NoCall? && t.pc.Scan?
    ensures Balanced(s, k, t, j, p, ScanMove(s, k, t, p))
  {
    ScanSane(s, k, t, p);
    ScanBalance(s, k, t, p);
    BalancedAlone(s, k, t, j, p, ScanMove(s, k, t, p));
  }

  lemma LoopPair(s: State, k: nat, t: Thread, j: nat, p: Thread)
    requires Pair(s, k, t, j, p) && t.call.NoCall? && !t.pc.Scan?
    ensures Balanced(s, k, t, j, p, LoopMove(s, t, p))
  {
    LoopSane(s, k, t, p);
    LoopTokensBalance(s, k, t, p);
    LoopIdleBalance(s, k, t, p);
    BalancedAlone(s, k, t, j, p, LoopMove(s, t, p));
  }

  lemma TickPair(s: State, k: nat)
    requires AllSane(s) && k < |s.ts| && Enabled(s, Tick(k))
    ensures Balanced(s, k, s.ts[k], Other(s, k), s.ts[Other(s, k)], MoveOf(s, k))
  {
    var t, j := s.ts[k], Other(s, k);
    var p := s.ts[j];
    assert Pair(s, k, t, j, p);
    if !t.call.NoCall? {
      CallPair(s, k, t, j, p);
    } else if t.pc.Scan? {
      ScanPair(s, k, t, j, p);
    } else {
      LoopPair(s, k, t, j, p);
    }
  }

  lemma SaneKept(s: State, a: Action)
    requires Enabled(s, a) && AllSane(s)
    ensures AllSane(Step(s, a))
  {
    if a.Tick? {
      TickPair(s, a.k);
    }
  }

  /** The other actions leave the shares of their thread alone. */
  lemma PushShares(s: State, a: Action)
    requires Enabled(s, a) && AllSane(s) && !a.Tick? && !a.Stop?
    ensures var i, s' := (if a.StopUnpark? then a.i else a.k), Step(s, a);
      && s'.ts == s.ts[i := s'.ts[i]]
      && Tokens(s'.ts[i]) == Tokens(s.ts[i]) && IdleShare(s'.ts[i]) == IdleShare(s.ts[i])
      && s'.speculation == s.speculation && s'.idleCount == s.idleCount
  {
    var i := if a.StopUnpark? then a.i else a.k;
    assert Sane(s.workers, s.stopping, i, s.ts[i]);
  }

  lemma LedgersKept(s: State, a: Action)
    requires Enabled(s, a) && AllSane(s) && TokenLedger(s) && IdleLedger(s)
    ensures TokenLedger(Step(s, a)) && IdleLedger(Step(s, a))
  {
    var s' := Step(s, a);
    if a.Tick? {
      TickPair(s, a.k);
      SumTick(s, a.k, Tokens);
      SumTick(s, a.k, IdleShare);
    } else if !a.Stop? {
      var i := if a.StopUnpark? then a.i else a.k;
      PushShares(s, a);
      SumUpdate(s.ts, i, s'.ts[i], Tokens);
      SumUpdate(s.ts, i, s'.ts[i], IdleShare);
    }
  }

  // ---- good workers ----

  /** A worker that will scan the injector again before it blocks: it has not finished its scan, or it
      has been claimed, or a park token is waiting for it, or it speculates and owes the final scan. */
  predicate Good(t: Thread) {
    !t.pc.External? && !Stops(t.pc) && (PastScan(t.pc) ==> !t.flag || t.token || (t.spec && !t.pc.Park?))
  }

  ghost predicate Served(s: State) { exists i :: 0 <= i < |s.ts| && Good(s.ts[i]) }

  lemma LoopGood(s: State, k: nat, t: Thread, p: Thread)
    requires Sane(s.workers, s.stopping, k, t) && t.call.NoCall? && !t.pc.Scan? && !s.stopping
    requires Good(t) && !Good(LoopMove(s, t, p).me)
    ensures t.pc.FinalScan? && s.injector == []
  {
  }

  lemma ScanGood(s: State, k: nat, t: Thread, p: Thread)
    requires Sane(s.workers, s.stopping, k, t) && t.call.NoCall? && t.pc.Scan? && !s.stopping
    requires Good(t) && !Good(ScanMove(s, k, t, p).me)
    ensures t.pc == Scan(true, Inject) && s.injector == []
  {
  }

  /** Until the runtime stops, a worker ceases to be good only by looking at an empty injector. */
  lemma GoodUntilEmptyScan(s: State, a: Action, i: nat)
    requires Enabled(s, a) && AllSane(s) && i < |s.ts| && Good(s.ts[i])
    requires !Step(s, a).stopping && !Good(Step(s, a).ts[i])
    ensures a == Tick(i) && s.injector == [] && (s.ts[i].pc == Scan(true, Inject) || s.ts[i].pc == FinalScan)
  {
    assert Sane(s.workers, s.stopping, i, s.ts[i]);
    if a.Tick? {
      var t, j := s.ts[a.k], Other(s, a.k);
      var p := s.ts[j];
      assert Sane(s.workers, s.stopping, a.k, t) && Sane(s.workers, s.stopping, j, p);
      if t.call.NoCall? {
        if t.pc.Scan? {
          ScanBalance(s, a.k, t, p);
          if i == a.k { ScanGood(s, i, t, p); }
        } else if i == a.k {
          LoopGood(s, i, t, p);
        }
      }
    }
  }

  /** A worker whose flag is down is good. */
  lemma UnflaggedIsGood(s: State, i: nat)
    requires AllSane(s) && i < s.workers && !s.stopping && !s.ts[i].flag
    ensures Good(s.ts[i])
  {
    assert Sane(s.workers, s.stopping, i, s.ts[i]);
  }

  /** `idle_count` reads zero only while some worker is good. */
  lemma ZeroIdleServed(s: State)
    requires AllSane(s) && IdleLedger(s) && !s.stopping && s.workers > 0 && s.idleCount == 0
    ensures Served(s)
  {
    if !Served(s) {
      forall i | 0 <= i < |s.ts|
        ensures IdleShare(s.ts[i]) >= 0 && (i == 0 ==> IdleShare(s.ts[i]) >= 1)
      {
        assert Sane(s.workers, s.stopping, i, s.ts[i]) && !Good(s.ts[i]);
      }
      SumAtLeast(s.ts, 0, IdleShare);
      assert false;
    }
  }

  /** A worker that holds or was assigned a token is good. */
  lemma TokenHolderIsGood(s: State, i: nat)
    requires AllSane(s) && i < |s.ts| && !s.stopping && WorkerTokens(s.ts[i]) > 0
    ensures Good(s.ts[i])
  {
    assert Sane(s.workers, s.stopping, i, s.ts[i]);
  }

  lemma {:induction false} SplitTokens(ts: seq<Thread>, workers: nat)
    ensures Sum(ts, Tokens) == Sum(ts, SpentTokens(workers)) + Sum(ts, SearchTokens(workers)) + Sum(ts, WorkerTokens)
  {
    if ts != [] {
      SplitTokens(ts[1..], workers);
    }
  }

  /** A producer has flags left to look at: it will claim a worker, or find one that is good already. */
  ghost predicate Searching(s: State) { exists k :: 0 <= k < |s.ts| && Searches(s.ts[k].call, s.workers) }

  /** A worker that is awake, claimed or has a park token is good. */
  lemma AwakeServed(s: State)
    requires AllSane(s) && !s.stopping && !AllAsleep(s)
    ensures Served(s)
  {
    var i :| 0 <= i < s.workers && i < |s.ts| && !(s.ts[i].flag && PastScan(s.ts[i].pc) && !s.ts[i].token);
    assert Sane(s.workers, s.stopping, i, s.ts[i]);
    assert Good(s.ts[i]);
  }

  /** More tokens than exhausted producers: one is with a worker, which is good, or with a searching producer. */
  lemma TokenServed(s: State)
    requires AllSane(s) && TokenLedger(s) && !s.stopping && s.speculation > Exhausted(s)
    ensures Served(s) || Searching(s)
  {
    SplitTokens(s.ts, s.workers);
    if Sum(s.ts, WorkerTokens) > 0 {
      var i := SumWitness(s.ts, WorkerTokens);
      TokenHolderIsGood(s, i);
    } else {
      var k := SumWitness(s.ts, SearchTokens(s.workers));
      assert Searches(s.ts[k].call, s.workers);
    }
  }

  // ---- every handle in the injector ----

  /** The call has looked at a flag already. */
  predicate Looked(c: Call) { (c.Wake? && c.i > 0) || c.Dec? || c.Unpark? }

  ghost predicate InFlight(s: State, h: Handle) {
    exists k :: 0 <= k < |s.ts| && !s.ts[k].call.NoCall? && s.ts[k].call.h == h
  }

  ghost predicate LookedFor(s: State, h: Handle) {
    exists k :: 0 <= k < |s.ts| && Looked(s.ts[k].call) && s.ts[k].call.h == h
  }

  predicate Elided(a: Answer) { a.ElidedSeenTo? || a.ElidedUnseen? }

  /** The wake call made for `h` was not elided, and has looked at a flag or found nobody idle. */
  ghost predicate Settled(s: State, h: Handle) {
    (h in s.answers && !Elided(s.answers[h])) || LookedFor(s, h)
  }

  /** Handles are numbered in the order of their pushes. */
  ghost predicate Numbered(s: State) {
    && 0 < s.next
    && (forall i :: 0 <= i < |s.injector| ==> 0 < s.injector[i] < s.next)
    && (forall h :: h in s.answers ==> h < s.next)
    && (forall h :: h in s.forced ==> 0 < h < s.next)
    && (forall k :: 0 <= k < |s.ts| && !s.ts[k].call.NoCall? ==> s.ts[k].call.h < s.next)
  }

  ghost predicate Covered(s: State) {
    !s.stopping ==> forall h :: h in s.injector && Settled(s, h) ==> Served(s)
  }

  /** A wake elided with somebody to see to its handle leaves a worker that will scan, or a producer that will see
      to one. */
  ghost predicate ElisionCovered(s: State) {
    !s.stopping ==>
      forall h :: h in s.injector && h in s.answers && s.answers[h].ElidedSeenTo? ==> Served(s) || Searching(s)
  }

  lemma TickNumbered(s: State, k: nat)
    requires k < |s.ts| && Enabled(s, Tick(k)) && Numbered(s)
    ensures Numbered(Step(s, Tick(k)))
  {
    var s' := Step(s, Tick(k));
    assert forall i :: 0 <= i < |s'.injector| ==> s'.injector[i] in s.injector;
  }

  lemma NumberedKept(s: State, a: Action)
    requires Enabled(s, a) && Numbered(s)
    ensures Numbered(Step(s, a))
  {
    if a.Tick? { TickNumbered(s, a.k); }
  }

  lemma ServedKept(s: State, a: Action)
    requires Enabled(s, a) && AllSane(s) && Served(s) && s.injector != [] && !Step(s, a).stopping
    ensures Served(Step(s, a))
  {
    var i :| 0 <= i < |s.ts| && Good(s.ts[i]);
    if !Good(Step(s, a).ts[i]) {
      GoodUntilEmptyScan(s, a, i);
    }
  }

  /** The operations that settle a handle. */
  predicate Settles(s: State, c: Call) {
    || (c.Load? && s.idleCount == 0)
    || (c.Wake? && c.i == 0 < s.workers)
  }

  lemma SettledBy(s: State, a: Action, h: Handle)
    requires Enabled(s, a) && Numbered(s) && s.workers > 0
    requires h in Step(s, a).injector && Settled(Step(s, a), h)
    requires !(h in s.injector && Settled(s, h))
    ensures a.Tick? && h in s.injector && Settles(s, s.ts[a.k].call)
  {
  }

  lemma CoveredKept(s: State, a: Action)
    requires Enabled(s, a) && AllSane(s) && IdleLedger(s) && Numbered(s) && Covered(s) && s.workers > 0
    ensures Covered(Step(s, a))
  {
    var s' := Step(s, a);
    forall h | !s'.stopping && h in s'.injector && Settled(s', h) ensures Served(s') {
      if h in s.injector && Settled(s, h) {
        ServedKept(s, a);
      } else {
        SettledBy(s, a, h);
        var c := s.ts[a.k].call;
        if c.Load? {
          ZeroIdleServed(s);
          ServedKept(s, a);
        } else if s.ts[0].flag {
          SaneKept(s, a);
          UnflaggedIsGood(s', 0);
        } else {
          UnflaggedIsGood(s, 0);
          ServedKept(s, a);
        }
      }
    }
  }

  /** Nobody touches the wake call of another thread. */
  lemma OtherCall(s: State, a: Action, k: nat)
    requires Enabled(s, a) && k < |s.ts| && a != Tick(k) && !s.ts[k].call.NoCall?
    ensures Step(s, a).ts[k].call == s.ts[k].call
  {
  }

  /** A producer that looks at a flag leaves a good worker behind. */
  lemma LookServes(s: State, k: nat)
    requires AllSane(s) && k < |s.ts| && Searches(s.ts[k].call, s.workers) && !s.stopping && s.injector != []
    ensures Served(Step(s, Tick(k)))
  {
    var i := s.ts[k].call.i;
    if s.ts[i].flag {
      SaneKept(s, Tick(k));
      UnflaggedIsGood(Step(s, Tick(k)), i);
    } else {
      UnflaggedIsGood(s, i);
      ServedKept(s, Tick(k));
    }
  }

  /** With a handle in the injector, somebody who will see to it is followed by somebody who will. */
  lemma SeenToKept(s: State, a: Action)
    requires Enabled(s, a) && AllSane(s) && s.injector != [] && !Step(s, a).stopping
    requires Served(s) || Searching(s)
    ensures Served(Step(s, a)) || Searching(Step(s, a))
  {
    if Served(s) {
      ServedKept(s, a);
    } else {
      var k: nat :| 0 <= k < |s.ts| && Searches(s.ts[k].call, s.workers);
      if a == Tick(k) {
        LookServes(s, k);
      } else {
        OtherCall(s, a, k);
      }
    }
  }

  lemma NewlyElided(s: State, a: Action, h: Handle)
    requires Enabled(s, a) && Numbered(s)
    requires var s' := Step(s, a); h in s'.injector && h in s'.answers && s'.answers[h].ElidedSeenTo?
    ensures h in s.injector
    ensures (h in s.answers && s.answers[h].ElidedSeenTo?)
         || (a.Tick? && (s.speculation > Exhausted(s) || !AllAsleep(s)))
  {
  }

  lemma ElisionCoveredKept(s: State, a: Action)
    requires Enabled(s, a) && AllSane(s) && TokenLedger(s) && Numbered(s) && ElisionCovered(s)
    ensures ElisionCovered(Step(s, a))
  {
    var s' := Step(s, a);
    forall h | !s'.stopping && h in s'.injector && h in s'.answers && s'.answers[h].ElidedSeenTo?
      ensures Served(s') || Searching(s')
    {
      NewlyElided(s, a, h);
      if h !in s.answers || !s.answers[h].ElidedSeenTo? {
        if s.speculation > Exhausted(s) { TokenServed(s); } else { AwakeServed(s); }
      }
      SeenToKept(s, a);
    }
  }

  // ---- wake calls ----

  /** Every push is followed by a wake call. */
  ghost predicate Called(s: State) {
    forall h :: h in s.injector && h !in s.answers ==> InFlight(s, h)
  }

  /** A forced wake is never elided. */
  ghost predicate ForcedNotElided(s: State) {
    && (forall h :: h in s.forced && h in s.answers ==> !Elided(s.answers[h]))
    && (forall k :: 0 <= k < |s.ts| && MayElide(s.ts[k].call) ==> s.ts[k].call.h !in s.forced)
  }

  predicate MayElide(c: Call) { c.Cas? || (c.Load? && !c.forced) }

  lemma CalledKept(s: State, a: Action)
    requires Enabled(s, a) && Called(s)
    ensures Called(Step(s, a))
  {
    var s' := Step(s, a);
    forall h | h in s'.injector && h !in s'.answers ensures InFlight(s', h) {
      if h in s.injector {
        var k :| 0 <= k < |s.ts| && !s.ts[k].call.NoCall? && s.ts[k].call.h == h;
        assert !s'.ts[k].call.NoCall? && s'.ts[k].call.h == h;
      } else {
        assert !s'.ts[a.k].call.NoCall? && s'.ts[a.k].call.h == h;
      }
    }
  }

  lemma ForcedNotElidedKept(s: State, a: Action)
    requires Enabled(s, a) && Numbered(s) && ForcedNotElided(s)
    ensures ForcedNotElided(Step(s, a))
  {
  }

  // ---- claimed workers are unparked ----

  predicate Delivers(c: Call, i: nat) { (c.Dec? || c.Unpark?) && c.i == i }

  ghost predicate UnparkComing(s: State, i: nat) {
    exists k :: 0 <= k < |s.ts| && Delivers(s.ts[k].call, i)
  }

  /** Claimed, without its park token so far. */
  predicate Waits(t: Thread) { Idle(t.pc) && !t.pc.ClearFlag? && !t.flag && !t.token }

  /** A claimed worker has its park token, or the thread that claimed it is about to deliver it. */
  ghost predicate ClaimsDelivered(s: State) {
    forall i :: 0 <= i < |s.ts| && Waits(s.ts[i]) ==> UnparkComing(s, i)
  }

  lemma LoopWaits(s: State, k: nat, t: Thread, p: Thread)
    requires Sane(s.workers, s.stopping, k, t) && t.call.NoCall? && !t.pc.Scan?
    requires Waits(LoopMove(s, t, p).me)
    ensures Waits(t)
  {
  }

  lemma TickWaits(s: State, k: nat)
    requires AllSane(s) && k < |s.ts| && Enabled(s, Tick(k))
    ensures var t, j, e := s.ts[k], Other(s, k), MoveOf(s, k); var p := s.ts[j];
      && (Waits(e.me) ==> Waits(t))
      && (j != k && Waits(e.them) ==> Waits(p) || Delivers(e.me.call, j))
  {
    var t, j := s.ts[k], Other(s, k);
    assert Sane(s.workers, s.stopping, k, t);
    if t.call.NoCall? && !t.pc.Scan? && Waits(MoveOf(s, k).me) {
      LoopWaits(s, k, t, s.ts[j]);
    }
  }

  lemma TickDelivers(s: State, k: nat, i: nat)
    requires k < |s.ts| && Enabled(s, Tick(k)) && i < s.workers <= |s.ts| && i != k && Delivers(s.ts[k].call, i)
    ensures Delivers(MoveOf(s, k).me.call, i) || Step(s, Tick(k)).ts[i].token
  {
  }

  lemma StillComing(s: State, a: Action, i: nat)
    requires Enabled(s, a) && AllSane(s) && i < |s.ts|
    requires Waits(s.ts[i]) && UnparkComing(s, i) && Waits(Step(s, a).ts[i])
    ensures UnparkComing(Step(s, a), i)
  {
    assert Sane(s.workers, s.stopping, i, s.ts[i]);
    var k: nat :| 0 <= k < |s.ts| && Delivers(s.ts[k].call, i);
    assert Sane(s.workers, s.stopping, k, s.ts[k]);
    if a == Tick(k) { TickDelivers(s, k, i); } else { OtherCall(s, a, k); }
    assert Delivers(Step(s, a).ts[k].call, i);
  }

  lemma ClaimsDeliveredKept(s: State, a: Action)
    requires Enabled(s, a) && AllSane(s) && ClaimsDelivered(s)
    ensures ClaimsDelivered(Step(s, a))
  {
    var s' := Step(s, a);
    forall i | 0 <= i < |s'.ts| && Waits(s'.ts[i]) ensures UnparkComing(s', i) {
      if Waits(s.ts[i]) {
        StillComing(s, a, i);
      } else {
        TickWaits(s, a.k);
        assert Delivers(s'.ts[a.k].call, i);
      }
    }
  }

  // ---- every handle runs once ----

  /** Occurrences of `h` in the deque and the hands of a thread. */
  function Holds(h: Handle): Thread -> int {
    (t: Thread) => Count(t.deque, h) + Count(t.hand, h)
  }

  /** A handle that was pushed is in exactly one place: the injector, one deque, the hands of one
      worker, or behind us. */
  predicate OncePushed(s: State, h: Handle) {
    Places(s, h) == B(0 < h < s.next)
  }

  /** Occurrences of `h` anywhere. */
  function Places(s: State, h: Handle): int { Count(s.injector, h) + Sum(s.ts, Holds(h)) + Count(s.ran, h) }

  lemma ScanHolds(s: State, k: nat, t: Thread, p: Thread, h: Handle)
    requires t.pc.Scan? && t.hand == []
    ensures var e := ScanMove(s, k, t, p);
      && Count(e.me.deque, h) + Count(e.me.hand, h) + Count(e.them.deque, h) + Count(Taken(s.injector, e.take), h)
         == Count(t.deque, h) + Count(p.deque, h) + Count(s.injector, h)
  {
    var e := ScanMove(s, k, t, p);
    match t.pc.phase
    case Local => if t.deque != [] { CountPopBack(t.deque, h); }
    case Inject => if s.injector != [] { CountPopFront(s.injector, h); }
    case Steal(v) => if p.deque != [] { CountPopFront(p.deque, h); }
  }

  lemma LoopHolds(s: State, k: nat, t: Thread, p: Thread, h: Handle)
    requires Sane(s.workers, s.stopping, k, t) && !t.pc.Scan?
    ensures var e := LoopMove(s, t, p);
      && e.me.deque == t.deque && e.them == p
      && Count(e.me.hand, h) + Count(Taken(s.injector, e.take), h) + Count(e.start, h)
         == Count(t.hand, h) + Count(s.injector, h)
  {
    if t.pc.FinalScan? && s.injector != [] { CountPopFront(s.injector, h); }
  }

  lemma StartCounts(s: State, k: nat, h: Handle)
    requires k < |s.ts| && Enabled(s, Tick(k)) && |s.ts[k].hand| <= 1
    ensures Count(Step(s, Tick(k)).ran, h) == Count(s.ran, h) + Count(MoveOf(s, k).start, h)
  {
    var start := MoveOf(s, k).start;
    if start == [] {
      assert s.ran + start == s.ran;
    } else {
      assert start == [start[0]];
      CountPush(s.ran, start[0], h);
    }
  }

  lemma TickHolds(s: State, k: nat, h: Handle)
    requires AllSane(s) && k < |s.ts| && Enabled(s, Tick(k))
    ensures var t, j, e, w := s.ts[k], Other(s, k), MoveOf(s, k), Holds(h); var p := s.ts[j];
      w(e.me) + (if j == k then 0 else w(e.them) - w(p)) + Count(Taken(s.injector, e.take), h) + Count(e.start, h)
        == w(t) + Count(s.injector, h)
  {
    var t, j := s.ts[k], Other(s, k);
    assert Sane(s.workers, s.stopping, k, t);
    if t.call.NoCall? {
      if t.pc.Scan? { ScanHolds(s, k, t, s.ts[j], h); } else { LoopHolds(s, k, t, s.ts[j], h); }
    }
  }

  lemma TickOncePushed(s: State, k: nat, h: Handle)
    requires k < |s.ts| && Enabled(s, Tick(k)) && AllSane(s) && OncePushed(s, h)
    ensures OncePushed(Step(s, Tick(k)), h)
  {
    assert Sane(s.workers, s.stopping, k, s.ts[k]);
    SumTick(s, k, Holds(h));
    TickHolds(s, k, h);
    StartCounts(s, k, h);
  }

  lemma PushInjected(s: State, k: nat, c: Call, h: Handle)
    requires k < |s.ts|
    ensures Places(s.(injector := s.injector + [s.next], ts := s.ts[k := s.ts[k].(call := c)]), h)
      == Places(s, h) + B(h == s.next)
  {
    CountPush(s.injector, s.next, h);
    SumUpdate(s.ts, k, s.ts[k].(call := c), Holds(h));
  }

  lemma PushedLocally(s: State, k: nat, h: Handle)
    requires k < |s.ts|
    ensures var t := s.ts[k].(deque := s.ts[k].deque + [s.next], call := Load(false, s.next));
      Places(s.(ts := s.ts[k := t]), h) == Places(s, h) + B(h == s.next)
  {
    var t := s.ts[k].(deque := s.ts[k].deque + [s.next], call := Load(false, s.next));
    CountPush(s.ts[k].deque, s.next, h);
    SumUpdate(s.ts, k, t, Holds(h));
  }

  lemma OncePushedKept(s: State, a: Action, h: Handle)
    requires Enabled(s, a) && AllSane(s) && Numbered(s) && OncePushed(s, h)
    ensures OncePushed(Step(s, a), h)
  {
    match a
    case Tick(k) => TickOncePushed(s, k, h);
    case PushForced(k) => PushInjected(s, k, Load(true, s.next), h);
    case PushDeferred(k) => PushInjected(s, k, Load(false, s.next), h);
    case PushLocal(k) => PushedLocally(s, k, h);
    case Finish(k) => SumUpdate(s.ts, k, s.ts[k].(pc := Scan(false, Local)), Holds(h));
    case Stop =>
    case StopUnpark(i) => SumUpdate(s.ts, i, s.ts[i].(token := true), Holds(h));
  }
}
