/** Exactly when the injector is left with nobody to see to it. */
module SchedulerExact {
  import opened Ledger
  import R = Runs
  import opened Scheduler
  import opened SchedulerSafety
  import opened SchedulerTheorems

  ghost predicate Acting(s: State) { exists k :: 0 <= k < |s.ts| && Acts(s.ts[k].call, s.workers) }

  /** Some worker will scan the injector before it blocks, or some wake call will still do something about it. */
  ghost predicate SeenTo(s: State) { Served(s) || Acting(s) }

  // ---- while it is seen to ----

  /** The compare-exchange of `unpark_one`. */
  lemma CasSeesTo(s: State, k: nat)
    requires Inv(s) && !s.stopping && s.injector != [] && k < |s.ts| && s.ts[k].call.Cas? && !LeavesUnseen(s, k)
    ensures SeenTo(Step(s, Tick(k)))
  {
    var s' := Step(s, Tick(k));
    if s.speculation == 0 {
      assert Acts(s'.ts[k].call, s'.workers);
    } else if s.speculation > Exhausted(s) {
      TokenServed(s);
      SeenToKept(s, Tick(k));
      if j :| 0 <= j < |s'.ts| && Searches(s'.ts[j].call, s'.workers) {
        assert Acts(s'.ts[j].call, s'.workers);
      }
    } else if !AllAsleep(s) {
      AwakeServed(s);
      ServedKept(s, Tick(k));
    } else {
      var j :| 0 <= j < |s.ts| && j != k && Acts(s.ts[j].call, s.workers);
      assert Acts(s'.ts[j].call, s'.workers);
    }
  }

  lemma UnparkServes(s: State, k: nat)
    requires Inv(s) && !s.stopping && k < |s.ts| && s.ts[k].call.Unpark?
    ensures Served(Step(s, Tick(k)))
  {
    var i := s.ts[k].call.i;
    assert Sane(s.workers, s.stopping, k, s.ts[k]) && Sane(s.workers, s.stopping, i, s.ts[i]);
    assert Good(Step(s, Tick(k)).ts[i]);
  }

  /** A wake call that will do something does it, or goes on. */
  lemma ActorKept(s: State, k: nat)
    requires Inv(s) && !s.stopping && s.injector != []
    requires k < |s.ts| && Acts(s.ts[k].call, s.workers) && !LeavesUnseen(s, k)
    ensures SeenTo(Step(s, Tick(k)))
  {
    var c := s.ts[k].call;
    if c.Cas? {
      CasSeesTo(s, k);
    } else if c.Wake? {
      LookServes(s, k);
    } else if c.Unpark? {
      UnparkServes(s, k);
    } else if c.Load? && s.idleCount == 0 {
      ZeroIdleServed(s);
      ServedKept(s, Tick(k));
    } else {
      assert Acts(Step(s, Tick(k)).ts[k].call, s.workers);
    }
  }

  lemma SeenToUntilLeft(s: State, a: Action)
    requires Inv(s) && Enabled(s, a) && s.injector != [] && !Step(s, a).stopping && SeenTo(s)
    requires a.Tick? ==> !LeavesUnseen(s, a.k)
    ensures SeenTo(Step(s, a))
  {
    if Served(s) {
      ServedKept(s, a);
    } else {
      var k: nat :| 0 <= k < |s.ts| && Acts(s.ts[k].call, s.workers);
      if a == Tick(k) {
        ActorKept(s, k);
      } else {
        OtherCall(s, a, k);
      }
    }
  }

  // ---- once it is left ----

  /** With every token beyond the last flag, a sleeping worker does not speculate. */
  lemma AsleepUnserved(s: State)
    requires Inv(s) && !s.stopping && s.speculation <= Exhausted(s) && AllAsleep(s)
    ensures !Served(s)
  {
    TokenShares(s);
    forall i | 0 <= i < |s.ts| ensures !Good(s.ts[i]) {
      assert Sane(s.workers, s.stopping, i, s.ts[i]);
      SumAtLeast(s.ts, i, WorkerTokens);
    }
  }

  lemma LeftUnseen(s: State, k: nat)
    requires Inv(s) && !s.stopping && LeavesUnseen(s, k)
    ensures !SeenTo(Step(s, Tick(k)))
  {
    var s' := Step(s, Tick(k));
    AsleepUnserved(s);
    assert s'.ts == s.ts[k := s.ts[k].(call := NoCall)];
  }

  /** A worker with nothing to scan for goes on to sleep, and finds nothing to steal from its like. */
  lemma SleeperMoves(s: State, k: nat, t: Thread, p: Thread)
    requires Sane(s.workers, s.stopping, k, t) && !s.stopping && k < s.workers && t.call.NoCall? && !Good(t)
    requires !(t.pc.Park? && !t.token) && p.deque == []
    ensures var e := WorkerMove(s, k, t, p);
      && !Good(e.me) && e.me.call.NoCall? && e.them.flag == p.flag && e.them.token == p.token && e.them.pc == p.pc
      && e.them.spec == p.spec && e.them.call == p.call
  {
  }

  lemma UnseenTick(s: State, k: nat)
    requires Inv(s) && !s.stopping && Enabled(s, Tick(k)) && !SeenTo(s)
    ensures !SeenTo(Step(s, Tick(k)))
  {
    var t, j, s' := s.ts[k], Other(s, k), Step(s, Tick(k));
    assert Sane(s.workers, s.stopping, k, t) && Sane(s.workers, s.stopping, j, s.ts[j]);
    assert !Good(t) && !Good(s.ts[j]) && !Acts(t.call, s.workers) && !Acts(s.ts[j].call, s.workers);
    if t.call.NoCall? {
      SleeperMoves(s, k, t, s.ts[j]);
    }
    forall i | 0 <= i < |s'.ts| ensures !Good(s'.ts[i]) && !Acts(s'.ts[i].call, s'.workers) {
      assert !Good(s.ts[i]) && !Acts(s.ts[i].call, s.workers);
    }
  }

  predicate Pushes(a: Action) { a.PushForced? || a.PushDeferred? || a.PushLocal? }

  lemma UnseenUntilPush(s: State, a: Action)
    requires Inv(s) && Enabled(s, a) && !Step(s, a).stopping && !Pushes(a) && !SeenTo(s)
    ensures !SeenTo(Step(s, a))
  {
    if a.Tick? {
      UnseenTick(s, a.k);
    }
  }

  lemma PushSeesTo(s: State, a: Action)
    requires Enabled(s, a) && Pushes(a)
    ensures SeenTo(Step(s, a)) && !Step(s, a).unseen
  {
    assert Acts(Step(s, a).ts[a.k].call, s.workers);
  }

  // ---- over whole runs ----

  ghost predicate Exact(s: State) {
    && Inv(s)
    && (!s.stopping ==> (s.unseen ==> !SeenTo(s)) && (s.injector != [] && !s.unseen ==> SeenTo(s)))
  }

  lemma ExactKept(s: State, a: Action)
    requires Exact(s) && Enabled(s, a)
    ensures Exact(Step(s, a))
  {
    InvKept(s, a);
    var s' := Step(s, a);
    if !s'.stopping {
      if Pushes(a) {
        PushSeesTo(s, a);
      } else if a.Tick? && LeavesUnseen(s, a.k) {
        LeftUnseen(s, a.k);
      } else if s.unseen {
        UnseenUntilPush(s, a);
      } else if s'.injector != [] {
        SeenToUntilLeft(s, a);
      }
    }
  }

  lemma ReachableExact(s: State)
    requires Reachable(s)
    ensures Exact(s)
  {
    forall r | Initial(r) ensures Exact(r) {
      var workers: nat, producers: nat :| workers > 0 && r == Init(workers, producers);
      InitInv(workers, producers);
    }
    forall r, r' | Exact(r) && Next(r, r') ensures Exact(r') {
      var a :| Enabled(r, a) && r' == Step(r, a);
      ExactKept(r, a);
    }
    R.Always(Initial, Next, Exact, s);
  }

  /** Until the runtime stops, a non-empty injector has a worker that will scan it, or a wake call that will still do
      something about it, if and only if no elided wake has left it unseen since the last push. */
  lemma InjectorSeenToExactly(s: State)
    requires Reachable(s) && !s.stopping && s.injector != []
    ensures SeenTo(s) <==> !s.unseen
  {
    ReachableExact(s);
  }

  /** An elision leaves nobody to see to the injector exactly when every token is with a producer past the last flag,
      every worker is asleep, and no other wake call will do anything: this can be told before it is made. */
  lemma LeaveExact(s: State, k: nat)
    requires Reachable(s) && !s.stopping && s.injector != []
    requires k < |s.ts| && s.ts[k].call.Cas? && s.speculation != 0
    ensures !SeenTo(Step(s, Tick(k))) <==> LeavesUnseen(s, k)
  {
    ReachableExact(s);
    if LeavesUnseen(s, k) {
      LeftUnseen(s, k);
    } else {
      CasSeesTo(s, k);
    }
  }

  /** When every thread is parked or outside the runtime, whatever is left in the injector was left unseen, and the
      next push sees to all of it. */
  lemma AsleepMeansUnseen(s: State, a: Action)
    requires Reachable(s) && !s.stopping && Enabled(s, a) && Pushes(a)
    requires forall k :: !Enabled(s, Tick(k)) && !Enabled(s, Finish(k))
    ensures s.injector != [] ==> s.unseen
    ensures SeenTo(Step(s, a)) && s.injector <= Step(s, a).injector
  {
    ReachableExact(s);
    PushSeesTo(s, a);
    forall i | 0 <= i < |s.ts| ensures s.ts[i].call.NoCall? {
      assert !Enabled(s, Tick(i));
    }
    forall i | 0 <= i < |s.ts| ensures !Good(s.ts[i]) {
      assert Sane(s.workers, s.stopping, i, s.ts[i]) && !Enabled(s, Tick(i)) && !Enabled(s, Finish(i));
      assert !Waits(s.ts[i]);
    }
  }
}
