/** A run in which a throttled push is left in the injector with nobody to scan it. */
module SchedulerStranding {
  import opened Ledger
  import R = Runs
  import opened Scheduler
  import opened SchedulerSafety
  import opened SchedulerTheorems

  lemma ReachStep(s: State, a: Action)
    requires Reachable(s) && Enabled(s, a)
    ensures Reachable(Step(s, a))
  {
    R.Extend(Initial, Next, s, Step(s, a));
  }

  lemma ReachInit(producers: nat)
    ensures Reachable(Init(1, producers))
  {
    R.Begin(Initial, Next, Init(1, producers));
  }

  /** One step between two states written out. */
  lemma Go(s: State, a: Action, s': State)
    requires Reachable(s) && Enabled(s, a) && Step(s, a) == s'
    ensures Reachable(s')
  {
    ReachStep(s, a);
  }

  // ---- one worker and two producers ----

  function W(pc: Pc, flag: bool, hand: seq<Handle>): Thread {
    Thread(pc, flag, false, false, NoCall, [], hand)
  }

  function P(call: Call): Thread {
    Thread(External, false, false, false, call, [], [])
  }

  /** Alone with its own queues, the worker touches no other record. */
  lemma WorkerStep(s: State)
    requires |s.ts| == 3 && s.workers == 1 && Enabled(s, Tick(0)) && s.ts[0].call.NoCall?
    ensures Step(s, Tick(0)) == Apply(s, 0, 0, WorkerMove(s, 0, s.ts[0], s.ts[0]))
  {
    assert Other(s, 0) == 0;
  }

  /** The worker moves on by itself. */
  lemma GoWorker(s: State, w: Thread, s': State)
    requires Reachable(s) && |s.ts| == 3 && s.workers == 1 && Enabled(s, Tick(0)) && s.ts[0].call.NoCall?
    requires WorkerMove(s, 0, s.ts[0], s.ts[0]).me == w
    requires var e := WorkerMove(s, 0, s.ts[0], s.ts[0]);
      s' == s.(ts := [w, s.ts[1], s.ts[2]], idleCount := s.idleCount + e.idle, speculation := s.speculation + e.spec,
               injector := Taken(s.injector, e.take), ran := s.ran + e.start)
    ensures Reachable(s')
  {
    WorkerStep(s);
    ReachStep(s, Tick(0));
  }

  /** A producer takes a step that touches only its own record and the counter of tokens. */
  lemma GoProducer(s: State, k: nat, c: Call, s': State)
    requires Reachable(s) && |s.ts| == 3 && s.workers == 1 && 1 <= k < 3 && !s.ts[k].call.NoCall?
    requires s.ts[k].call.Wake? ==> s.ts[k].call.i == 1 || (s.ts[k].call.i == 0 && !s.ts[0].flag)
    requires !s.ts[k].call.Unpark? && !s.ts[k].call.Dec? && NextCall(s, s.ts[k].call, false) == c
    requires var reply := Reply(s, s.ts[k].call);
      s' == s.(ts := s.ts[k := s.ts[k].(call := c)], speculation := s.speculation + CallTokens(s, s.ts[k].call),
               answers := if reply == [] then s.answers else s.answers[reply[0].0 := reply[0].1],
               unseen := s.unseen || LeavesUnseen(s, k))
    ensures Reachable(s')
  {
    assert Step(s, Tick(k)).ts == s.ts[k := s.ts[k].(call := c)];
    ReachStep(s, Tick(k));
  }

  /** The state with the worker replaced. */
  function At(s: State, w: Thread): State
    requires |s.ts| == 3
  {
    s.(ts := [w, s.ts[1], s.ts[2]])
  }

  predicate Empty(s: State) {
    |s.ts| == 3 && s.workers == 1 && s.injector == [] && !s.stopping
  }

  lemma PassesInjector(s: State, again: bool, flag: bool)
    requires Reachable(s) && Empty(s) && s.ts[0] == W(Scan(again, Local), flag, [])
    ensures Reachable(At(s, W(Scan(again, Steal(0)), flag, [])))
  {
    var s1 := At(s, W(Scan(again, Inject), flag, []));
    GoWorker(s, s1.ts[0], s1);
    GoWorker(s1, W(Scan(again, Steal(0)), flag, []), At(s, W(Scan(again, Steal(0)), flag, [])));
  }

  /** `find_work` comes back empty-handed. */
  lemma FindsNothing(s: State, again: bool, flag: bool)
    requires Reachable(s) && Empty(s) && s.ts[0] == W(Scan(again, Local), flag, [])
    ensures Reachable(At(s, W(CheckStop(again), flag, [])))
  {
    PassesInjector(s, again, flag);
    var s2 := At(s, W(Scan(again, Steal(0)), flag, []));
    var s3 := At(s, W(Scan(again, Steal(1)), flag, []));
    GoWorker(s2, s3.ts[0], s3);
    GoWorker(s3, W(CheckStop(again), flag, []), At(s, W(CheckStop(again), flag, [])));
  }

  /** The worker finds nothing and advertises itself. */
  lemma Advertises(s: State)
    requires Reachable(s) && Empty(s) && s.ts[0] == W(Scan(false, Local), false, [])
    ensures Reachable(At(s, W(Scan(true, Local), true, [])).(idleCount := s.idleCount + 1))
  {
    FindsNothing(s, false, false);
    var s1 := At(s, W(SetFlag, false, []));
    GoWorker(At(s, W(CheckStop(false), false, [])), s1.ts[0], s1);
    var s2 := At(s, W(SetCount, true, []));
    GoWorker(s1, s2.ts[0], s2);
    var s3 := At(s, W(Scan(true, Local), true, [])).(idleCount := s.idleCount + 1);
    GoWorker(s2, s3.ts[0], s3);
  }

  // ---- the run: handle 1 is pushed and run, handle 2 is pushed and left ----

  function Start(w: Thread, idle: int): State {
    State(1, [w, P(NoCall), P(NoCall)], [], idle, 0, false, 1, [], {}, map[], false, {})
  }

  function One(w: Thread, p: Call, injector: seq<Handle>, idle: int, tokens: int, ran: seq<Handle>): State {
    State(1, [w, P(p), P(NoCall)], injector, idle, tokens, false, 2, ran, {}, map[], false, {})
  }

  function Two(p: Call, q: Call, tokens: int, answers: map<Handle, Answer>): State {
    State(1, [W(Park, true, []), P(p), P(q)], [2], 1, tokens, false, 3, [1], {}, answers, 2 in answers, {})
  }

  lemma Advertised()
    ensures Reachable(Start(W(Scan(true, Local), true, []), 1))
  {
    ReachInit(2);
    var s0 := Start(W(Scan(false, Local), false, []), 0);
    assert Init(1, 2).ts == [Fresh(Scan(false, Local)), Fresh(External), Fresh(External)];
    assert Init(1, 2) == s0;
    Advertises(s0);
  }

  lemma PushesOne()
    ensures Reachable(One(W(Scan(true, Local), true, []), Load(false, 1), [1], 1, 0, []))
  {
    Advertised();
    var w := W(Scan(true, Local), true, []);
    Go(Start(w, 1), PushDeferred(1), One(w, Load(false, 1), [1], 1, 0, []));
  }

  /** The first producer pushes handle 1, sees the idle worker and takes the token. */
  lemma TakesToken()
    ensures Reachable(One(W(Scan(true, Local), true, []), Wake(0, 1), [1], 1, 1, []))
  {
    PushesOne();
    var w := W(Scan(true, Local), true, []);
    var s2 := One(w, Cas(1), [1], 1, 0, []);
    GoProducer(One(w, Load(false, 1), [1], 1, 0, []), 1, Cas(1), s2);
    GoProducer(s2, 1, Wake(0, 1), One(w, Wake(0, 1), [1], 1, 1, []));
  }

  /** Meanwhile the worker finds the handle. */
  lemma TakesOne()
    ensures Reachable(One(W(ClearFlag(AfterScan), true, [1]), Wake(0, 1), [], 1, 1, []))
  {
    TakesToken();
    var s1 := One(W(Scan(true, Inject), true, []), Wake(0, 1), [1], 1, 1, []);
    GoWorker(One(W(Scan(true, Local), true, []), Wake(0, 1), [1], 1, 1, []), s1.ts[0], s1);
    GoWorker(s1, W(ClearFlag(AfterScan), true, [1]), One(W(ClearFlag(AfterScan), true, [1]), Wake(0, 1), [], 1, 1, []));
  }

  /** It takes its own flag down; the producer finds no flag but keeps its token for one more step. */
  lemma FindsNobody()
    ensures Reachable(One(W(ClearCount(AfterScan), false, [1]), Wake(1, 1), [], 1, 1, []))
  {
    TakesOne();
    var s1 := One(W(ClearCount(AfterScan), false, [1]), Wake(0, 1), [], 1, 1, []);
    GoWorker(One(W(ClearFlag(AfterScan), true, [1]), Wake(0, 1), [], 1, 1, []), s1.ts[0], s1);
    GoProducer(s1, 1, Wake(1, 1), One(W(ClearCount(AfterScan), false, [1]), Wake(1, 1), [], 1, 1, []));
  }

  lemma StartsOne()
    ensures Reachable(One(W(Running, false, []), Wake(1, 1), [], 0, 1, [1]))
  {
    FindsNobody();
    var s2 := One(W(Got, false, [1]), Wake(1, 1), [], 0, 1, []);
    GoWorker(One(W(ClearCount(AfterScan), false, [1]), Wake(1, 1), [], 1, 1, []), s2.ts[0], s2);
    GoWorker(s2, W(Running, false, []), One(W(Running, false, []), Wake(1, 1), [], 0, 1, [1]));
  }

  /** The worker runs the handle and advertises itself again. */
  lemma IdleAgain()
    ensures Reachable(One(W(Scan(true, Local), true, []), Wake(1, 1), [], 1, 1, [1]))
  {
    StartsOne();
    var s4 := One(W(Scan(false, Local), false, []), Wake(1, 1), [], 0, 1, [1]);
    Go(One(W(Running, false, []), Wake(1, 1), [], 0, 1, [1]), Finish(0), s4);
    Advertises(s4);
  }

  lemma FallsAsleep()
    ensures Reachable(One(W(Park, true, []), Wake(1, 1), [], 1, 1, [1]))
  {
    IdleAgain();
    FindsNothing(One(W(Scan(true, Local), true, []), Wake(1, 1), [], 1, 1, [1]), true, true);
    GoWorker(One(W(CheckStop(true), true, []), Wake(1, 1), [], 1, 1, [1]), W(Park, true, []),
             One(W(Park, true, []), Wake(1, 1), [], 1, 1, [1]));
  }

  /** The second producer pushes handle 2 and is about to be turned away by the token of the first. */
  lemma PushesTwo()
    ensures Reachable(Two(Wake(1, 1), Cas(2), 1, map[]))
  {
    FallsAsleep();
    var s1 := Two(Wake(1, 1), Load(false, 2), 1, map[]);
    Go(One(W(Park, true, []), Wake(1, 1), [], 1, 1, [1]), PushDeferred(2), s1);
    GoProducer(s1, 2, Cas(2), Two(Wake(1, 1), Cas(2), 1, map[]));
  }

  lemma OneExhausted()
    ensures Exhausted(Two(Wake(1, 1), Cas(2), 1, map[])) == 1
  {
    var ts := Two(Wake(1, 1), Cas(2), 1, map[]).ts;
    assert ts[1..] == [P(Wake(1, 1)), P(Cas(2))];
    assert ts[1..][1..] == [P(Cas(2))];
    assert ts[1..][1..][1..] == [];
  }

  /** Handle 2 in the injector, the worker parked with its flag up and no token, no wake call in flight
      and no token in circulation. */
  function Stranded(): State {
    Two(NoCall, NoCall, 0, map[2 := ElidedUnseen, 1 := NobodyFound])
  }

  lemma ReachStranded()
    ensures Reachable(Stranded())
  {
    PushesTwo();
    OneExhausted();
    assert LeavesUnseen(Two(Wake(1, 1), Cas(2), 1, map[]), 2);
    var s1 := Two(Wake(1, 1), NoCall, 1, map[2 := ElidedUnseen]);
    GoProducer(Two(Wake(1, 1), Cas(2), 1, map[]), 2, NoCall, s1);
    GoProducer(s1, 1, NoCall, Stranded());
  }

  /** The throttled wake is not safe in full: in this reachable state a handle waits in the injector, no
      worker will scan it, no wake is in flight, and no thread can take a step unless another handle is
      pushed or the runtime stops. */
  lemma ThrottledPushCanStrand()
    ensures Reachable(Stranded()) && 2 in Stranded().injector && !Stranded().stopping
    ensures !Served(Stranded()) && !InFlight(Stranded(), 2)
    ensures forall k :: !Enabled(Stranded(), Tick(k)) && !Enabled(Stranded(), Finish(k))
  {
    ReachStranded();
  }
}
