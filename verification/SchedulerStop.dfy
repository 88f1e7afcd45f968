/** Stopping: once `stop_threads` has set the flag and unparked every worker, every worker leaves. */
module SchedulerStop {
  import opened Ledger
  import R = Runs
  import opened Scheduler
  import opened SchedulerSafety
  import opened SchedulerTheorems

  /** A worker that was unparked for good has its park token, or has come back from the parker with it. */
  predicate Leaving(t: Thread) {
    || t.token || t.pc == ClearFlag(AfterPark) || t.pc == ClearCount(AfterPark) || t.pc.CheckParked?
    || t.pc.Exited?
  }

  ghost predicate ToldLeave(s: State) {
    && (s.told != {} ==> s.stopping)
    && forall i :: i in s.told ==> 0 <= i < |s.ts| && Leaving(s.ts[i])
  }

  lemma MoveLeaves(s: State, k: nat, t: Thread, p: Thread)
    requires s.stopping && Leaving(t) && (t.call.NoCall? ==> t.pc.Park? ==> t.token)
    ensures Leaving(Move(s, k, t, p).me)
  {
  }

  /** Nobody takes the park token of another worker. */
  lemma OthersStayTold(s: State, k: nat, t: Thread, p: Thread)
    requires Leaving(p)
    ensures Leaving(Move(s, k, t, p).them)
  {
  }

  lemma ToldLeaveKept(s: State, a: Action)
    requires ToldLeave(s) && Enabled(s, a)
    ensures ToldLeave(Step(s, a))
  {
    var s' := Step(s, a);
    if a.Tick? {
      var t, j := s.ts[a.k], Other(s, a.k);
      if a.k in s.told { MoveLeaves(s, a.k, t, s.ts[j]); }
      if j in s.told { OthersStayTold(s, a.k, t, s.ts[j]); }
      forall i | i in s'.told ensures 0 <= i < |s'.ts| && Leaving(s'.ts[i]) {
        assert i != a.k && i != j ==> s'.ts[i] == s.ts[i];
      }
    }
  }

  lemma ReachableToldLeave(s: State)
    requires Reachable(s)
    ensures ToldLeave(s)
  {
    forall r, r' | ToldLeave(r) && Next(r, r') ensures ToldLeave(r') {
      var a :| Enabled(r, a) && r' == Step(r, a);
      ToldLeaveKept(r, a);
    }
    R.Always(Initial, Next, ToldLeave, s);
  }

  /** When every worker has been unparked by `stop_threads` and nothing can move any more, every worker has left, and
      nothing is left in its hands or in its deque. */
  lemma StopDrains(s: State, i: nat)
    requires Reachable(s) && i < s.workers && i in s.told
    requires forall k :: !Enabled(s, Tick(k)) && !Enabled(s, Finish(k))
    ensures i < |s.ts| && s.ts[i].pc.Exited? && s.ts[i].deque == [] && s.ts[i].hand == [] && !s.ts[i].flag
  {
    ReachableInv(s);
    ReachableToldLeave(s);
    assert Sane(s.workers, s.stopping, i, s.ts[i]) && !Enabled(s, Tick(i)) && !Enabled(s, Finish(i));
  }
}
