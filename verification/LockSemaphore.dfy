/** Lock and a semaphore of one permit are the same: each follows every step of the other. */
module LockSemaphore {
  import opened Ledger
  import R = Runs
  import opened HandOff

  /** Between its two looks at `state`, `acquire` has not begun; until its last step, `release` has not begun. */
  function Back(c: Client): Client {
    match c.pc
    case Contend => c.(pc := New)
    case Draining(raises) => c.(pc := Releasing(raises))
    case _ => c
  }

  function AllBack(cs: seq<Client>): (r: seq<Client>)
    ensures |r| == |cs| && forall i :: 0 <= i < |cs| ==> r[i] == Back(cs[i])
  {
    seq(|cs|, i requires 0 <= i < |cs| => Back(cs[i]))
  }

  /** The semaphore that a lock implements; `popped` are the entries that the release under way has dropped. */
  function AsSemaphore(s: State, popped: seq<int>): State {
    s.(p := Semaphore(1), mutex := Free, queue := popped + s.queue, clients := AllBack(s.clients))
  }

  /** Entries of clients that have cancelled. */
  predicate AllDead(cs: seq<Client>, q: seq<int>) { forall i :: 0 <= i < |q| ==> 0 <= q[i] < |cs| && cs[q[i]].flag }

  /** `popped` may be what the release under way has dropped, from a queue that the semaphore's test can bear. */
  predicate Fits(s: State, popped: seq<int>) {
    && s.p.Lock? && AllDead(s.clients, popped) && (s.mutex.Free? ==> popped == [])
    && |popped| + |s.queue| <= LIMIT
  }

  ghost predicate Simulates(s: State, popped: seq<int>) {
    Fits(s, popped) && Reachable(s) && Reachable(AsSemaphore(s, popped))
  }

  ghost predicate By(k: nat, s: State, s': State) { Enabled(s, Tick(k)) && s' == Step(s, Tick(k)) && Small(s') }

  /** Client `k`, moving alone, gets from `origin` to `s` in some number of steps, possibly none. */
  ghost predicate Turns(origin: State, k: nat, s: State) {
    R.Path((x, y) => By(k, x, y), origin, s)
  }

  lemma Stays(s: State, k: nat)
    ensures Turns(s, k, s)
  {
    R.Stays((x, y) => By(k, x, y), s);
  }

  lemma Turn(origin: State, k: nat, s: State)
    requires Turns(origin, k, s) && Enabled(s, Tick(k)) && Small(Step(s, Tick(k)))
    ensures Turns(origin, k, Step(s, Tick(k)))
  {
    R.Goes((x, y) => By(k, x, y), origin, s, Step(s, Tick(k)));
  }

  lemma TurnsReach(origin: State, k: nat, s: State)
    requires Reachable(origin) && Turns(origin, k, s)
    ensures Reachable(s)
  {
    forall r, r' | Reachable(r) && By(k, r, r') ensures Reachable(r') {
      Extends(r, Tick(k));
    }
    R.AlongPath((x, y) => By(k, x, y), x => Reachable(x), origin, s);
  }

  /** The semaphore follows step `a` of the lock: an arrival, a cancellation or a call of `release` by the same step,
      an operation of client `k` by operations of client `k`, possibly none. */
  ghost predicate Follows(s: State, popped: seq<int>, a: Action, popped': seq<int>)
    requires Enabled(s, a)
  {
    var t, s' := AsSemaphore(s, popped), Step(s, a);
    && Fits(s', popped')
    && if a.Tick? then Turns(t, a.k, AsSemaphore(s', popped'))
       else Enabled(t, a) && Step(t, a) == AsSemaphore(s', popped')
  }

  lemma OneBusy(s: State)
    requires Inv(s) && s.p.Lock?
    ensures s.avail <= 1 && (s.avail == 1 ==> s.mutex.Free?)
    ensures forall k :: 0 <= k < |s.clients| && s.clients[k].pc.Draining? ==> s.avail == 0
  {
    SumNonNegative(s.clients, Permit);
    forall k | 0 <= k < |s.clients| && s.clients[k].pc.Draining? ensures s.avail == 0 {
      SumAtLeast(s.clients, k, Permit);
    }
    if s.mutex.Held? {
      var k := s.mutex.owner;
      assert ClientFits(s.clients[k], Count(s.queue, k), s.mutex == Held(k));
    }
  }

  lemma Extends(s: State, a: Action)
    requires Reachable(s) && Enabled(s, a) && Small(Step(s, a))
    ensures Reachable(Step(s, a))
  {
    R.Extend(Initial, Next, s, Step(s, a));
  }

  /** The semaphore takes the same step. */
  lemma SameStep(s: State, popped: seq<int>, a: Action)
    requires Fits(s, popped) && Enabled(s, a)
    requires var t, s' := AsSemaphore(s, popped), Step(s, a);
      Enabled(t, a) && Step(t, a) == AsSemaphore(s', popped) && Fits(s', popped)
    ensures Follows(s, popped, a, popped)
  {
    if a.Tick? {
      Stays(AsSemaphore(s, popped), a.k);
      Turn(AsSemaphore(s, popped), a.k, AsSemaphore(s, popped));
    }
  }

  lemma BackMove(cs: seq<Client>, k: nat, c: Client)
    requires k < |cs|
    ensures AllBack(cs[k := c]) == AllBack(cs)[k := Back(c)]
  {
  }

  lemma BusyAlike(s: State, popped: seq<int>)
    requires Simulates(s, popped)
    ensures Busy(AsSemaphore(s, popped)) == Busy(s) && s.avail <= 1
    ensures !Busy(s) ==> s.mutex.Free? && popped == []
  {
    ReachableInv(s);
    OneBusy(s);
    ReachableInv(AsSemaphore(s, popped));
    BusyExact(AsSemaphore(s, popped));
  }

  predicate Attempts(pc: Pc, busy: bool) { pc.Contend? || pc.Try? || (pc.New? && !busy) }

  /** An attempt that finds a permit, or none. */
  lemma AttemptAlike(s: State, popped: seq<int>, k: nat)
    requires s.p.Lock? && Enabled(s, Tick(k)) && Attempts(s.clients[k].pc, Busy(s)) && s.avail <= 1
    requires Busy(AsSemaphore(s, popped)) == Busy(s) && (s.mutex.Free? ==> popped == [])
    ensures var t := AsSemaphore(s, popped);
      Enabled(t, Tick(k)) && Step(t, Tick(k)) == AsSemaphore(Step(s, Tick(k)), popped)
  {
    var t, pc := AsSemaphore(s, popped), s.clients[k].pc;
    BackMove(s.clients, k, Moved(s.clients[k], if !Busy(s) then Holding else if pc.Try? then Refused else Waiting));
    assert Step(t, Tick(k)).clients == AllBack(Step(s, Tick(k)).clients);
  }

  lemma AttemptSimulated(s: State, popped: seq<int>, k: nat)
    requires Simulates(s, popped) && Enabled(s, Tick(k)) && |Step(s, Tick(k)).queue| <= LIMIT
    requires Attempts(s.clients[k].pc, Busy(s))
    ensures Follows(s, popped, Tick(k), popped)
  {
    BusyAlike(s, popped);
    AttemptAlike(s, popped, k);
    SameStep(s, popped, Tick(k));
  }

  lemma PlainSimulated(s: State, popped: seq<int>, a: Action)
    requires Fits(s, popped) && Enabled(s, a)
    requires a.Tick? ==> s.clients[a.k].pc.Waiting? || s.clients[a.k].pc.Cancelling?
    ensures Follows(s, popped, a, popped)
  {
    var t, s' := AsSemaphore(s, popped), Step(s, a);
    assert AsSemaphore(s', popped).clients == Step(t, a).clients;
    SameStep(s, popped, a);
  }

  /** The lock moves where the semaphore has not begun. */
  lemma StutterSimulated(s: State, popped: seq<int>, k: nat)
    requires Fits(s, popped) && Enabled(s, Tick(k))
    requires var pc := s.clients[k].pc; pc.Releasing? || (pc.New? && Busy(s))
    ensures Follows(s, popped, Tick(k), popped)
  {
    assert AllBack(Step(s, Tick(k)).clients) == AllBack(s.clients);
    Stays(AsSemaphore(s, popped), k);
  }

  predicate Drains(s: State, k: nat) { k < |s.clients| && s.clients[k].pc.Draining? }

  predicate HeadDead(s: State) { s.queue != [] && 0 <= s.queue[0] < |s.clients| && s.clients[s.queue[0]].flag }

  lemma ReleaseFits(s: State, k: nat)
    requires Reachable(s) && s.p.Lock? && Drains(s, k)
    ensures s.mutex == Held(k) && s.avail == 0
    ensures s.queue != [] ==> 0 <= s.queue[0] < |s.clients| && s.queue[0] != k
  {
    ReachableInv(s);
    OneBusy(s);
    assert ClientFits(s.clients[k], Count(s.queue, k), s.mutex == Held(k));
    if s.queue != [] { HeadFits(s); }
  }

  lemma PopSimulated(s: State, popped: seq<int>, k: nat)
    requires Simulates(s, popped) && Drains(s, k) && HeadDead(s)
    ensures Follows(s, popped, Tick(k), popped + [s.queue[0]])
  {
    ReleaseFits(s, k);
    assert (popped + [s.queue[0]]) + s.queue[1..] == popped + s.queue;
    Stays(AsSemaphore(s, popped), k);
  }

  /** A release of the semaphore drops the entries of clients that have cancelled. */
  lemma {:induction false} DropsDead(origin: State, t: State, k: nat, popped: seq<int>, rest: seq<int>)
    requires Turns(origin, k, t) && Drains(t, k)
    requires t.queue == popped + rest && AllDead(t.clients, popped) && |t.queue| <= LIMIT
    ensures Turns(origin, k, t.(queue := rest))
    decreases |popped|
  {
    if popped == [] {
      assert t == t.(queue := rest);
    } else {
      var t' := t.(queue := popped[1..] + rest);
      assert t.queue[1..] == popped[1..] + rest;
      assert Step(t, Tick(k)) == t';
      Turn(origin, k, t);
      DropsDead(origin, t', k, popped[1..], rest);
    }
  }

  /** The semaphore catches up with a release: the mutex, then the entries already dropped. */
  lemma CatchesUp(s: State, popped: seq<int>, k: nat)
    requires Fits(s, popped) && Drains(s, k)
    ensures Turns(AsSemaphore(s, popped), k, Begun(AsSemaphore(s, []), k, s.clients[k]))
  {
    var t := AsSemaphore(s, popped);
    var t' := Begun(t, k, s.clients[k]);
    assert Step(t, Tick(k)) == t';
    Stays(t, k);
    Turn(t, k, t);
    DropsDead(t, t', k, popped, s.queue);
    assert t'.(queue := s.queue) == Begun(AsSemaphore(s, []), k, s.clients[k]);
  }

  /** Client `k` has taken the mutex for its release. */
  function Begun(t: State, k: nat, c: Client): State
    requires k < |t.clients|
  {
    t.(mutex := Held(k), clients := t.clients[k := c])
  }

  lemma LastStepAlike(s: State, k: nat)
    requires Drains(s, k) && s.p.Lock? && s.avail == 0 && !HeadDead(s)
    requires s.queue != [] ==> 0 <= s.queue[0] < |s.clients| && s.queue[0] != k
    ensures Step(Begun(AsSemaphore(s, []), k, s.clients[k]), Tick(k)) == AsSemaphore(Step(s, Tick(k)), [])
  {
    var u, s' := Begun(AsSemaphore(s, []), k, s.clients[k]), Step(s, Tick(k));
    assert u.queue == s.queue;
    assert Step(u, Tick(k)).clients == AllBack(s'.clients);
    assert Step(u, Tick(k)).queue == s'.queue == [] + s'.queue;
  }

  /** The last step of a release. */
  lemma DrainSimulated(s: State, popped: seq<int>, k: nat)
    requires Simulates(s, popped) && Drains(s, k) && !HeadDead(s)
    ensures Follows(s, popped, Tick(k), [])
  {
    ReleaseFits(s, k);
    LastStepAlike(s, k);
    CatchesUp(s, popped, k);
    Turn(AsSemaphore(s, popped), k, Begun(AsSemaphore(s, []), k, s.clients[k]));
  }

  /** Every step of the lock is followed by the semaphore. */
  lemma LockStepFollowed(s: State, popped: seq<int>, a: Action) returns (popped': seq<int>)
    requires Simulates(s, popped) && Enabled(s, a) && |Step(s, a).queue| <= LIMIT
    ensures Follows(s, popped, a, popped')
  {
    popped' := popped;
    if !a.Tick? || s.clients[a.k].pc.Waiting? || s.clients[a.k].pc.Cancelling? {
      PlainSimulated(s, popped, a);
    } else {
      var c := s.clients[a.k];
      if c.pc.Releasing? || (c.pc.New? && Busy(s)) {
        StutterSimulated(s, popped, a.k);
      } else if !c.pc.Draining? {
        AttemptSimulated(s, popped, a.k);
      } else if HeadDead(s) {
        PopSimulated(s, popped, a.k);
        popped' := popped + [s.queue[0]];
      } else {
        DrainSimulated(s, popped, a.k);
        popped' := [];
      }
    }
  }

  lemma SimulatesKept(s: State, popped: seq<int>, a: Action, popped': seq<int>)
    requires Simulates(s, popped) && Enabled(s, a) && Follows(s, popped, a, popped')
    ensures Simulates(Step(s, a), popped')
  {
    Extends(s, a);
    if a.Tick? {
      TurnsReach(AsSemaphore(s, popped), a.k, AsSemaphore(Step(s, a), popped'));
    } else {
      Extends(AsSemaphore(s, popped), a);
    }
  }

  /** One step of a run of the lock and what the semaphore does meanwhile. */
  ghost predicate FollowedBy(s: State, popped: seq<int>, s': State, popped': seq<int>) {
    exists a :: Enabled(s, a) && s' == Step(s, a) && Follows(s, popped, a, popped')
  }

  /** A step that leaves no more clients queued than the semaphore's test can bear. */
  ghost predicate NextShort(s: State, s': State) { Next(s, s') && |s'.queue| <= LIMIT }

  lemma NextFollowed(s: State, popped: seq<int>, s': State) returns (popped': seq<int>)
    requires Simulates(s, popped) && NextShort(s, s')
    ensures Simulates(s', popped') && FollowedBy(s, popped, s', popped')
  {
    var a :| Enabled(s, a) && s' == Step(s, a);
    popped' := LockStepFollowed(s, popped, a);
    SimulatesKept(s, popped, a, popped');
  }

  lemma Starts(s: State)
    requires Initial(s) && s.p.Lock?
    ensures Simulates(s, []) && AsSemaphore(s, []) == Init(Semaphore(1))
  {
    assert AsSemaphore(s, []) == Init(Semaphore(1));
    R.Begin(Initial, Next, s);
    R.Begin(Initial, Next, Init(Semaphore(1)));
  }

  /** Whatever a lock does, a semaphore of one permit does: along every run of the lock, however long, whatever clients
      acquire, try, cancel and release in whatever order, with no more than 2^31 entries queued at once, the semaphore
      starts at its beginning and follows every step by steps of the same client, keeping the same answers for every
      client, the same free permits and the same queue, up to entries of clients that have cancelled and a release
      that has not handed over yet. */
  lemma LockIsSemaphore(run: seq<State>) returns (popped: seq<seq<int>>)
    requires R.IsRun(Initial, NextShort, run) && run[0].p.Lock?
    ensures |popped| == |run| && AsSemaphore(run[0], popped[0]) == Init(Semaphore(1))
    ensures forall i :: 0 <= i < |run| - 1 ==> FollowedBy(run[i], popped[i], run[i + 1], popped[i + 1])
    ensures forall i :: 0 <= i < |run| ==> Simulates(run[i], popped[i])
  {
    Starts(run[0]);
    forall s, x, s' | Simulates(s, x) && NextShort(s, s')
      ensures exists x' :: Simulates(s', x') && FollowedBy(s, x, s', x')
    {
      var x' := NextFollowed(s, x, s');
    }
    popped := R.Lift(Initial, NextShort, run, Simulates, FollowedBy, []);
  }

  /** Every step of the semaphore is one or two steps of the lock. */
  lemma SemaphoreStepSimulated(t: State, a: Action)
    requires Inv(t) && t.p == Semaphore(1) && Enabled(t, a)
    requires forall k :: 0 <= k < |t.clients| ==> !t.clients[k].pc.Contend?
    ensures LockFollows(t, a) && |Step(t.(p := Lock), a).clients| == |Step(t, a).clients|
  {
    BusyExact(t);
    SumNonNegative(t.clients, Permit);
    if a.Tick? && t.clients[a.k].pc.Draining? {
      SumAtLeast(t.clients, a.k, Permit);
    }
  }

  ghost predicate Mirrored(t: State) {
    t.p == Semaphore(1) ==>
      && Inv(t) && Reachable(t.(p := Lock))
      && forall k :: 0 <= k < |t.clients| ==> !t.clients[k].pc.Contend?
  }

  lemma NoContend(t: State, a: Action)
    requires t.p.Semaphore? && Enabled(t, a)
    requires forall k :: 0 <= k < |t.clients| ==> !t.clients[k].pc.Contend?
    ensures Step(t, a).p == t.p
    ensures forall k :: 0 <= k < |Step(t, a).clients| ==> !Step(t, a).clients[k].pc.Contend?
  {
  }

  lemma MirroredKept(t: State, a: Action)
    requires Mirrored(t) && t.p == Semaphore(1) && Enabled(t, a) && Small(Step(t, a))
    ensures Mirrored(Step(t, a))
  {
    var s := t.(p := Lock);
    InvKept(t, a);
    NoContend(t, a);
    SemaphoreStepSimulated(t, a);
    Extends(s, a);
    if Step(s, a) != Step(t, a).(p := Lock) {
      Extends(Step(s, a), a);
    }
  }

  lemma ReachableMirrored(t: State)
    requires Reachable(t)
    ensures Mirrored(t)
  {
    forall r | Initial(r) ensures Mirrored(r) {
      if r.p == Semaphore(1) {
        R.Begin(Initial, Next, Init(Lock));
        assert r.(p := Lock) == Init(Lock);
      }
    }
    forall r, r' | Mirrored(r) && Next(r, r') ensures Mirrored(r') {
      var a :| Enabled(r, a) && r' == Step(r, a);
      KeepsPrimitive(r, a);
      if r.p == Semaphore(1) {
        MirroredKept(r, a);
      }
    }
    R.Always(Initial, Next, Mirrored, t);
  }

  /** The lock makes the step of the semaphore by the same action, made once or twice. */
  ghost predicate LockFollows(t: State, a: Action)
    requires Enabled(t, a)
  {
    var s, s' := t.(p := Lock), Step(t, a).(p := Lock);
    Enabled(s, a) && (Step(s, a) == s' || (Enabled(Step(s, a), a) && Step(Step(s, a), a) == s'))
  }

  /** Whatever a semaphore of one permit does, a lock does: in every reachable state the lock can be in the same
      state, and it follows whatever the semaphore does next. */
  lemma SemaphoreIsLock(t: State, a: Action)
    requires Reachable(t) && t.p == Semaphore(1) && Enabled(t, a)
    ensures Reachable(t.(p := Lock)) && LockFollows(t, a)
  {
    ReachableMirrored(t);
    SemaphoreStepSimulated(t, a);
  }

  lemma KeepsPrimitive(s: State, a: Action)
    requires Enabled(s, a)
    ensures Step(s, a).p == s.p
  {
  }
}
