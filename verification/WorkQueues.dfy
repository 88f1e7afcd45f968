/** `WorkSchedule` and `find_work` of src/work.rs as objects updated in place, and what one uninterrupted call
    does in the step system. */
module WorkQueues {
  import opened Scheduler
  import R = Runs

  /** The first index from `i` on whose flag is up, or the number of flags. */
  function FirstUp(flags: seq<bool>, i: nat): (k: nat)
    requires i <= |flags|
    ensures i <= k <= |flags|
    ensures forall j :: i <= j < k ==> !flags[j]
    ensures k < |flags| ==> flags[k]
    decreases |flags| - i
  {
    if i == |flags| || flags[i] then i else FirstUp(flags, i + 1)
  }

  class WorkSchedule {
    const idleFlags: array<bool>
    const tokens: array<bool>   // what `unpark` leaves for each parker
    var idleCount: int
    var speculation: int

    ghost predicate Valid() { idleFlags.Length == tokens.Length && idleFlags != tokens }

    constructor (workers: nat)
      ensures Valid() && fresh(idleFlags) && fresh(tokens) && idleFlags.Length == workers
      ensures idleCount == 0 && speculation == 0
      ensures forall i :: 0 <= i < workers ==> !idleFlags[i] && !tokens[i]
    {
      idleFlags := new bool[workers](_ => false);
      tokens := new bool[workers](_ => false);
      idleCount, speculation := 0, 0;
    }

    /** Takes the flag down, and says whether it was still up. */
    method ClearIdle(idx: nat) returns (own: bool)
      requires Valid() && idx < idleFlags.Length
      modifies this, idleFlags
      ensures own == old(idleFlags[idx])
      ensures idleFlags[..] == old(idleFlags[..])[idx := false]
      ensures idleCount == old(idleCount) - (if own then 1 else 0) && speculation == old(speculation)
    {
      own := idleFlags[idx];
      if own {
        idleFlags[idx] := false;
        idleCount := idleCount - 1;
      }
    }

    /** Claims and unparks the first idle worker, or gives the token back. */
    method WakeIdle()
      requires Valid()
      modifies this, idleFlags, tokens
      ensures var flags, k := old(idleFlags[..]), FirstUp(old(idleFlags[..]), 0);
        if k < |flags| then
          && idleFlags[..] == flags[k := false] && tokens[..] == old(tokens[..])[k := true]
          && idleCount == old(idleCount) - 1 && speculation == old(speculation)
        else
          && idleFlags[..] == flags && tokens[..] == old(tokens[..])
          && idleCount == old(idleCount) && speculation == old(speculation) - 1
    {
      ghost var flags := idleFlags[..];
      for i := 0 to idleFlags.Length
        invariant idleFlags[..] == flags && tokens[..] == old(tokens[..])
        invariant idleCount == old(idleCount) && speculation == old(speculation)
        invariant FirstUp(flags, i) == FirstUp(flags, 0)
      {
        if idleFlags[i] {
          idleFlags[i] := false;
          idleCount := idleCount - 1;
          tokens[i] := true;
          return;
        }
      }
      speculation := speculation - 1;
    }

    method UnparkOne()
      requires Valid()
      modifies this, idleFlags, tokens
      ensures old(idleCount) == 0 || old(speculation) != 0 ==>
        && idleFlags[..] == old(idleFlags[..]) && tokens[..] == old(tokens[..])
        && idleCount == old(idleCount) && speculation == old(speculation)
      ensures old(idleCount) != 0 && old(speculation) == 0 ==>
        var k := FirstUp(old(idleFlags[..]), 0);
        if k < idleFlags.Length then
          idleFlags[..] == old(idleFlags[..])[k := false] && tokens[..] == old(tokens[..])[k := true]
          && speculation == 1 && idleCount == old(idleCount) - 1
        else
          idleFlags[..] == old(idleFlags[..]) && tokens[..] == old(tokens[..])
          && speculation == 0 && idleCount == old(idleCount)
    {
      if idleCount == 0 || speculation != 0 {
        return;
      }
      speculation := 1;
      WakeIdle();
    }

    method Unpark()
      requires Valid()
      modifies this, idleFlags, tokens
      ensures var k := FirstUp(old(idleFlags[..]), 0);
        if old(idleCount) != 0 && k < idleFlags.Length then
          && idleFlags[..] == old(idleFlags[..])[k := false] && tokens[..] == old(tokens[..])[k := true]
          && speculation == old(speculation) + 1 && idleCount == old(idleCount) - 1
        else
          && idleFlags[..] == old(idleFlags[..]) && tokens[..] == old(tokens[..])
          && speculation == old(speculation) && idleCount == old(idleCount)
    {
      if idleCount == 0 {
        return;
      }
      speculation := speculation + 1;
      WakeIdle();
    }
  }

  // ---- the same call, step by step ----

  function Flags(s: State): seq<bool>
    requires s.workers <= |s.ts|
  {
    seq(s.workers, i requires 0 <= i < s.workers => s.ts[i].flag)
  }

  ghost predicate By(k: nat, s: State, s': State) { Enabled(s, Tick(k)) && s' == Step(s, Tick(k)) }

  /** Thread `k`, running alone, gets from `origin` to `s`. */
  ghost predicate Leads(origin: State, k: nat, s: State) {
    R.Path((x, y) => By(k, x, y), origin, s)
  }

  lemma Stays(s: State, k: nat)
    ensures Leads(s, k, s)
  {
    R.Stays((x, y) => By(k, x, y), s);
  }

  lemma Goes(origin: State, k: nat, s: State)
    requires Leads(origin, k, s) && Enabled(s, Tick(k))
    ensures Leads(origin, k, Step(s, Tick(k)))
  {
    R.Goes((x, y) => By(k, x, y), origin, s, Step(s, Tick(k)));
  }

  /** Producer `k` has moved on in its call. */
  function Calling(s: State, k: nat, c: Call): State
    requires k < |s.ts|
  {
    s.(ts := s.ts[k := s.ts[k].(call := c)])
  }

  /** Worker `i` claimed. */
  function Claimed(s: State, i: nat): State
    requires i < |s.ts|
  {
    s.(ts := s.ts[i := s.ts[i].(flag := false)])
  }

  predicate Producer(s: State, k: nat) { s.workers <= k < |s.ts| }

  /** A flag that is down is passed over. */
  lemma PassesOver(s: State, k: nat, i: nat, h: Handle)
    requires Producer(s, k) && i < s.workers && !s.ts[i].flag && Leads(s, k, Calling(s, k, Wake(i, h)))
    ensures Leads(s, k, Calling(s, k, Wake(i + 1, h)))
  {
    var s1 := Calling(s, k, Wake(i, h));
    Goes(s, k, s1);
    assert Step(s1, Tick(k)).ts == Calling(s, k, Wake(i + 1, h)).ts;
    assert Step(s1, Tick(k)) == Calling(s, k, Wake(i + 1, h));
  }

  /** The call comes to the first flag that is up. */
  lemma {:induction false} WakeScans(s: State, k: nat, i: nat, h: Handle)
    requires Producer(s, k) && i <= s.workers && Leads(s, k, Calling(s, k, Wake(i, h)))
    ensures Leads(s, k, Calling(s, k, Wake(FirstUp(Flags(s), i), h)))
    decreases s.workers - i
  {
    if i < s.workers && !s.ts[i].flag {
      PassesOver(s, k, i, h);
      WakeScans(s, k, i + 1, h);
    }
  }

  lemma Claims(s: State, k: nat, i: nat, h: Handle)
    requires Producer(s, k) && i < s.workers && s.ts[i].flag && Leads(s, k, Calling(s, k, Wake(i, h)))
    ensures Leads(s, k, Calling(Claimed(s, i), k, Dec(i, h)))
  {
    var s1 := Calling(s, k, Wake(i, h));
    Goes(s, k, s1);
    assert Step(s1, Tick(k)).ts == Calling(Claimed(s, i), k, Dec(i, h)).ts;
    assert Step(s1, Tick(k)) == Calling(Claimed(s, i), k, Dec(i, h));
  }

  lemma Debits(s: State, k: nat, i: nat, h: Handle)
    requires Producer(s, k) && i < s.workers && Leads(s, k, Calling(Claimed(s, i), k, Dec(i, h)))
    ensures Leads(s, k, Calling(Claimed(s, i), k, Unpark(i, h)).(idleCount := s.idleCount - 1))
  {
    var s1 := Calling(Claimed(s, i), k, Dec(i, h));
    Goes(s, k, s1);
    assert Step(s1, Tick(k)).ts == Calling(Claimed(s, i), k, Unpark(i, h)).ts;
    assert Step(s1, Tick(k)) == Calling(Claimed(s, i), k, Unpark(i, h)).(idleCount := s.idleCount - 1);
  }

  /** Worker `i` claimed and unparked on behalf of handle `h`. */
  function Unparked(s: State, k: nat, i: nat, h: Handle): State
    requires Producer(s, k) && i < s.workers
  {
    s.(ts := s.ts[i := s.ts[i].(flag := false, token := true)][k := s.ts[k].(call := NoCall)],
       idleCount := s.idleCount - 1, answers := s.answers[h := Woke])
  }

  lemma Unparks(s: State, k: nat, i: nat, h: Handle)
    requires Producer(s, k) && i < s.workers
    requires Leads(s, k, Calling(Claimed(s, i), k, Unpark(i, h)).(idleCount := s.idleCount - 1))
    ensures Leads(s, k, Unparked(s, k, i, h))
  {
    var s1 := Calling(Claimed(s, i), k, Unpark(i, h)).(idleCount := s.idleCount - 1);
    Goes(s, k, s1);
    assert Step(s1, Tick(k)).ts == Unparked(s, k, i, h).ts;
    assert Step(s1, Tick(k)) == Unparked(s, k, i, h);
  }

  /** No worker found: the token is given back. */
  function GivenBack(s: State, k: nat, h: Handle): State
    requires k < |s.ts|
  {
    Calling(s, k, NoCall).(speculation := s.speculation - 1, answers := s.answers[h := NobodyFound])
  }

  lemma GivesBack(s: State, k: nat, h: Handle)
    requires Producer(s, k) && Leads(s, k, Calling(s, k, Wake(s.workers, h)))
    ensures Leads(s, k, GivenBack(s, k, h))
  {
    var s1 := Calling(s, k, Wake(s.workers, h));
    Goes(s, k, s1);
    assert Step(s1, Tick(k)).ts == GivenBack(s, k, h).ts;
    assert Step(s1, Tick(k)) == GivenBack(s, k, h);
  }

  /** Left alone, `wake_idle` claims and unparks the worker whose flag comes first, as the method does, or gives
      its token back. */
  lemma WakeAlone(s: State, k: nat, h: Handle)
    requires Producer(s, k) && s.ts[k].call == Wake(0, h)
    ensures var f := FirstUp(Flags(s), 0);
      Leads(s, k, if f < s.workers then Unparked(s, k, f, h) else GivenBack(s, k, h))
  {
    var f := FirstUp(Flags(s), 0);
    Stays(s, k);
    assert Calling(s, k, Wake(0, h)).ts == s.ts;
    WakeScans(s, k, 0, h);
    if f < s.workers {
      Claims(s, k, f, h);
      Debits(s, k, f, h);
      Unparks(s, k, f, h);
    } else {
      GivesBack(s, k, h);
    }
  }

  // ---- find_work ----

  /** The first worker other than `idx`, from `i` on, with something in its deque. */
  function Victim(deques: seq<seq<Handle>>, idx: nat, i: nat): (v: nat)
    requires i <= |deques|
    ensures i <= v <= |deques|
    ensures v < |deques| ==> v != idx && deques[v] != []
    ensures forall j :: i <= j < v ==> j == idx || deques[j] == []
    decreases |deques| - i
  {
    if i == |deques| || (i != idx && deques[i] != []) then i else Victim(deques, idx, i + 1)
  }

  class Queues {
    var deques: seq<seq<Handle>>
    var injector: seq<Handle>

    /** Own deque from the back, then the injector, then the other deques from the front, in order. */
    method FindWork(idx: nat) returns (found: seq<Handle>)
      requires idx < |deques|
      modifies this
      ensures var was, v := old(deques), Victim(old(deques), idx, 0);
        var own := was[idx];
        if own != [] then
          found == own[|own| - 1..] && deques == was[idx := own[..|own| - 1]] && injector == old(injector)
        else if old(injector) != [] then
          found == old(injector)[..1] && injector == old(injector)[1..] && deques == was
        else if v < |was| then
          found == was[v][..1] && deques == was[v := was[v][1..]] && injector == old(injector)
        else
          found == [] && deques == was && injector == old(injector)
    {
      var own := deques[idx];
      if own != [] {
        found := [own[|own| - 1]];
        deques := deques[idx := own[..|own| - 1]];
        return;
      }
      if injector != [] {
        found := [injector[0]];
        injector := injector[1..];
        return;
      }
      for i := 0 to |deques|
        invariant deques == old(deques) && injector == old(injector)
        invariant Victim(deques, idx, i) == Victim(deques, idx, 0)
      {
        if i != idx && deques[i] != [] {
          found := [deques[i][0]];
          deques := deques[i := deques[i][1..]];
          return;
        }
      }
      found := [];
    }
  }

  // ---- find_work, step by step ----

  function Deques(s: State): seq<seq<Handle>>
    requires s.workers <= |s.ts|
  {
    seq(s.workers, i requires 0 <= i < s.workers => s.ts[i].deque)
  }

  predicate Worker(s: State, k: nat) { k < s.workers <= |s.ts| && s.ts[k].call.NoCall? && s.ts[k].pc.Scan? }

  /** Worker `k` has moved on in its scan. */
  function At(s: State, k: nat, pc: Pc, hand: seq<Handle>): State
    requires k < |s.ts|
  {
    s.(ts := s.ts[k := s.ts[k].(pc := pc, hand := hand)])
  }

  /** Where a worker goes with what it found. */
  function FoundPc(again: bool): Pc { if again then ClearFlag(AfterScan) else Got }

  /** The newest of its own deque. */
  function TookOwn(s: State, k: nat, again: bool): State
    requires k < |s.ts| && s.ts[k].deque != []
  {
    var t := s.ts[k];
    var n := |t.deque| - 1;
    s.(ts := s.ts[k := t.(pc := FoundPc(again), hand := [t.deque[n]], deque := t.deque[..n])])
  }

  /** The oldest of the injector. */
  function TookInjected(s: State, k: nat, again: bool): State
    requires k < |s.ts| && s.injector != []
  {
    At(s, k, FoundPc(again), [s.injector[0]]).(injector := s.injector[1..])
  }

  /** The oldest of the deque of worker `v`. */
  function Stole(s: State, k: nat, v: nat, again: bool): State
    requires k < |s.ts| && v < |s.ts| && s.ts[v].deque != []
  {
    At(s.(ts := s.ts[v := s.ts[v].(deque := s.ts[v].deque[1..])]), k, FoundPc(again), [s.ts[v].deque[0]])
  }

  lemma TakesOwn(s: State, k: nat, again: bool)
    requires Worker(s, k) && s.ts[k].pc == Scan(again, Local) && s.ts[k].deque != []
    ensures Leads(s, k, TookOwn(s, k, again))
  {
    Stays(s, k);
    Goes(s, k, s);
    assert Step(s, Tick(k)).ts == TookOwn(s, k, again).ts;
    assert Step(s, Tick(k)) == TookOwn(s, k, again);
  }

  lemma PassesOwn(s: State, k: nat, again: bool)
    requires Worker(s, k) && s.ts[k].pc == Scan(again, Local) && s.ts[k].deque == []
    ensures Leads(s, k, At(s, k, Scan(again, Inject), []))
  {
    Stays(s, k);
    Goes(s, k, s);
    assert Step(s, Tick(k)).ts == At(s, k, Scan(again, Inject), []).ts;
    assert Step(s, Tick(k)) == At(s, k, Scan(again, Inject), []);
  }

  lemma TakesInjected(s: State, k: nat, again: bool)
    requires Worker(s, k) && s.injector != [] && Leads(s, k, At(s, k, Scan(again, Inject), []))
    ensures Leads(s, k, TookInjected(s, k, again))
  {
    var s1 := At(s, k, Scan(again, Inject), []);
    Goes(s, k, s1);
    assert Step(s1, Tick(k)).ts == TookInjected(s, k, again).ts;
    assert Step(s1, Tick(k)) == TookInjected(s, k, again);
  }

  lemma PassesInjector(s: State, k: nat, again: bool)
    requires Worker(s, k) && s.injector == [] && Leads(s, k, At(s, k, Scan(again, Inject), []))
    ensures Leads(s, k, At(s, k, Scan(again, Steal(0)), []))
  {
    var s1 := At(s, k, Scan(again, Inject), []);
    Goes(s, k, s1);
    assert Step(s1, Tick(k)).ts == At(s, k, Scan(again, Steal(0)), []).ts;
    assert Step(s1, Tick(k)) == At(s, k, Scan(again, Steal(0)), []);
  }

  /** A deque with nothing to steal is passed over, and so is its own. */
  lemma PassesDeque(s: State, k: nat, i: nat, again: bool)
    requires Worker(s, k) && i < s.workers && (i == k || s.ts[i].deque == [])
    requires Leads(s, k, At(s, k, Scan(again, Steal(i)), []))
    ensures Leads(s, k, At(s, k, Scan(again, Steal(i + 1)), []))
  {
    var s1 := At(s, k, Scan(again, Steal(i)), []);
    Goes(s, k, s1);
    assert Step(s1, Tick(k)).ts == At(s, k, Scan(again, Steal(i + 1)), []).ts;
    assert Step(s1, Tick(k)) == At(s, k, Scan(again, Steal(i + 1)), []);
  }

  lemma {:induction false} PassesDeques(s: State, k: nat, i: nat, again: bool)
    requires Worker(s, k) && i <= s.workers && Leads(s, k, At(s, k, Scan(again, Steal(i)), []))
    ensures Leads(s, k, At(s, k, Scan(again, Steal(Victim(Deques(s), k, i))), []))
    decreases s.workers - i
  {
    if i < s.workers && (i == k || s.ts[i].deque == []) {
      PassesDeque(s, k, i, again);
      PassesDeques(s, k, i + 1, again);
    }
  }

  lemma Steals(s: State, k: nat, v: nat, again: bool)
    requires Worker(s, k) && v < s.workers && v != k && s.ts[v].deque != []
    requires Leads(s, k, At(s, k, Scan(again, Steal(v)), []))
    ensures Leads(s, k, Stole(s, k, v, again))
  {
    var s1 := At(s, k, Scan(again, Steal(v)), []);
    Goes(s, k, s1);
    assert Step(s1, Tick(k)).ts == Stole(s, k, v, again).ts;
    assert Step(s1, Tick(k)) == Stole(s, k, v, again);
  }

  lemma FindsNothing(s: State, k: nat, again: bool)
    requires Worker(s, k) && Leads(s, k, At(s, k, Scan(again, Steal(s.workers)), []))
    ensures Leads(s, k, At(s, k, CheckStop(again), []))
  {
    var s1 := At(s, k, Scan(again, Steal(s.workers)), []);
    Goes(s, k, s1);
    assert Step(s1, Tick(k)).ts == At(s, k, CheckStop(again), []).ts;
    assert Step(s1, Tick(k)) == At(s, k, CheckStop(again), []);
  }

  /** Left alone, `find_work` does in the step system what the method does: it takes the newest handle of its own
      deque, else the oldest injected, else the oldest of the first other deque that has one, and leaves every other
      queue as it was; it comes back with nothing only if all of them are empty. */
  lemma FindWorkAlone(s: State, k: nat, again: bool)
    requires Worker(s, k) && s.ts[k].pc == Scan(again, Local) && s.ts[k].hand == []
    ensures var v := Victim(Deques(s), k, 0);
      Leads(s, k, if s.ts[k].deque != [] then TookOwn(s, k, again)
                  else if s.injector != [] then TookInjected(s, k, again)
                  else if v < s.workers then Stole(s, k, v, again)
                  else At(s, k, CheckStop(again), []))
  {
    if s.ts[k].deque != [] {
      TakesOwn(s, k, again);
    } else {
      PassesOwn(s, k, again);
      if s.injector != [] {
        TakesInjected(s, k, again);
      } else {
        var v := Victim(Deques(s), k, 0);
        PassesInjector(s, k, again);
        PassesDeques(s, k, 0, again);
        if v < s.workers { Steals(s, k, v, again); } else { FindsNothing(s, k, again); }
      }
    }
  }

  /** What a worker pushes while running a handle is what it runs next, if nobody takes it and nothing is pushed after
      it: `state` is any state in which the worker has returned from the push and the handle is still the newest of
      its deque. */
  lemma LocalPushRunsNext(s: State, k: nat, state: State)
    requires k < s.workers <= |s.ts| && Enabled(s, PushLocal(k)) && s.ts[k].hand == []
    requires k < state.workers <= |state.ts| && state.ts[k] == Step(s, PushLocal(k)).ts[k].(call := NoCall)
    ensures var s1 := Step(state, Finish(k)); var s2 := TookOwn(s1, k, false);
      Leads(s1, k, s2) && s2.ts[k].hand == [s.next] && s2.ts[k].deque == s.ts[k].deque
      && Step(s2, Tick(k)).ran == state.ran + [s.next] && Step(s2, Tick(k)).ts[k].pc.Running?
  {
    var s1 := Step(state, Finish(k));
    TakesOwn(s1, k, false);
    assert Step(TookOwn(s1, k, false), Tick(k)).ran == state.ran + [s.next];
  }

  // ---- stopping ----

  predicate AtPc(s: State, k: nat, pc: Pc) { k < s.workers <= |s.ts| && s.ts[k].call.NoCall? && s.ts[k].pc == pc }

  /** One step of the loop around `find_work`. */
  lemma LoopStep(s: State, k: nat)
    requires k < s.workers <= |s.ts| && s.ts[k].call.NoCall? && Enabled(s, Tick(k))
    requires !s.ts[k].pc.Scan? && !s.ts[k].pc.Got?
    ensures var t, s' := s.ts[k], Step(s, Tick(k));
      && AtPc(s', k, NextPc(s, t.pc, t.flag, t.spec)) && s'.stopping == s.stopping
      && s'.ts[k].flag == (t.pc.SetFlag? || (t.flag && !t.pc.ClearFlag?))
      && s'.ts[k].spec == NextSpec(s, t.pc, t.spec)
      && s'.ts[k].token == (t.token && !t.pc.Park?)
  {
  }

  lemma Leaves(origin: State, s: State, k: nat, leak: bool) returns (s': State)
    requires Leads(origin, k, s) && AtPc(s, k, Leave(leak)) && !s.ts[k].flag
    ensures Leads(origin, k, s') && AtPc(s', k, Exited(leak)) && !s'.ts[k].flag && !s'.ts[k].spec
  {
    Goes(origin, k, s);
    LoopStep(s, k);
    s' := Step(s, Tick(k));
  }

  lemma ClearsOnStop(origin: State, s: State, k: nat) returns (s': State, leak: bool)
    requires Leads(origin, k, s) && AtPc(s, k, ClearFlag(OnStop))
    ensures Leads(origin, k, s') && AtPc(s', k, Leave(leak)) && !s'.ts[k].flag && leak == !s.ts[k].flag
  {
    Goes(origin, k, s);
    LoopStep(s, k);
    s' := Step(s, Tick(k));
    leak := !s.ts[k].flag;
    if !leak {
      Goes(origin, k, s');
      LoopStep(s', k);
      s' := Step(s', Tick(k));
    }
  }

  /** A worker that found nothing leaves once the runtime is stopping, with its flag down. */
  lemma LeavesWhenStopping(s: State, k: nat, again: bool) returns (s': State, leak: bool)
    requires AtPc(s, k, CheckStop(again)) && s.stopping && (!again ==> !s.ts[k].flag)
    ensures Leads(s, k, s') && AtPc(s', k, Exited(leak)) && !s'.ts[k].flag && !s'.ts[k].spec
    ensures leak <==> again && !s.ts[k].flag
  {
    Stays(s, k);
    Goes(s, k, s);
    LoopStep(s, k);
    s', leak := Step(s, Tick(k)), false;
    if again {
      s', leak := ClearsOnStop(s, s', k);
    }
    s' := Leaves(s, s', k, leak);
  }

  // ---- waking for nothing ----

  /** Nothing to be found anywhere, and the worker has nothing. */
  predicate Bare(s: State, k: nat) {
    && k < s.workers <= |s.ts| && s.injector == [] && !s.stopping && s.ts[k].hand == [] && s.ts[k].call.NoCall?
    && forall i :: 0 <= i < s.workers ==> s.ts[i].deque == []
  }

  lemma BareStep(s: State, k: nat)
    requires Bare(s, k) && Enabled(s, Tick(k)) && !s.ts[k].pc.Scan? && !s.ts[k].pc.Got?
    ensures Bare(Step(s, Tick(k)), k)
  {
  }

  /** One step of the loop, with nothing to be found. */
  lemma BareGoes(origin: State, s: State, k: nat) returns (s': State)
    requires Leads(origin, k, s) && Bare(s, k) && Enabled(s, Tick(k)) && !s.ts[k].pc.Scan? && !s.ts[k].pc.Got?
    ensures Leads(origin, k, s') && Bare(s', k)
    ensures var t, t' := s.ts[k], s'.ts[k];
      && t'.pc == NextPc(s, t.pc, t.flag, t.spec) && t'.flag == (t.pc.SetFlag? || (t.flag && !t.pc.ClearFlag?))
      && t'.spec == NextSpec(s, t.pc, t.spec) && t'.token == (t.token && !t.pc.Park?)
  {
    Goes(origin, k, s);
    LoopStep(s, k);
    BareStep(s, k);
    s' := Step(s, Tick(k));
  }

  lemma BareScan(origin: State, s: State, k: nat, again: bool) returns (s': State)
    requires Leads(origin, k, s) && Bare(s, k) && s.ts[k].pc == Scan(again, Local)
    ensures Leads(origin, k, s') && Bare(s', k)
    ensures s'.ts[k] == s.ts[k].(pc := CheckStop(again))
  {
    FindWorkAlone(s, k, again);
    s' := At(s, k, CheckStop(again), []);
    R.PathOn((x, y) => By(k, x, y), origin, s, s');
  }

  /** Back from the parker: the flag is taken down, and the worker speculates exactly if it was claimed. */
  lemma ComesBack(origin: State, s: State, k: nat) returns (s': State)
    requires Leads(origin, k, s) && Bare(s, k) && s.ts[k].pc.Park? && s.ts[k].token
    ensures Leads(origin, k, s') && Bare(s', k) && s'.ts[k].pc == Scan(false, Local)
    ensures !s'.ts[k].token && !s'.ts[k].flag && s'.ts[k].spec == !s.ts[k].flag
  {
    s' := BareGoes(origin, s, k);
    var own := s'.ts[k].flag;
    s' := BareGoes(origin, s', k);
    if own { s' := BareGoes(origin, s', k); }
    s' := BareGoes(origin, s', k);
  }

  lemma Advertises(origin: State, s: State, k: nat) returns (s': State)
    requires Leads(origin, k, s) && Bare(s, k) && s.ts[k].pc == Scan(false, Local)
    ensures Leads(origin, k, s') && Bare(s', k) && s'.ts[k].pc == CheckStop(true)
    ensures s'.ts[k].flag && s'.ts[k].spec == s.ts[k].spec && s'.ts[k].token == s.ts[k].token
  {
    s' := BareScan(origin, s, k, false);
    s' := BareGoes(origin, s', k);
    s' := BareGoes(origin, s', k);
    s' := BareGoes(origin, s', k);
    s' := BareScan(origin, s', k, true);
  }

  /** A worker that is woken, claimed or not, with nothing to be found, goes back to sleep: its flag up, its park token
      used, and its speculation token given back. */
  lemma SleepsAgain(s: State, k: nat) returns (s': State)
    requires Bare(s, k) && s.ts[k].pc.Park? && s.ts[k].token
    ensures Leads(s, k, s') && Bare(s', k) && s'.ts[k].pc.Park?
    ensures s'.ts[k].flag && !s'.ts[k].token && !s'.ts[k].spec
  {
    Stays(s, k);
    s' := ComesBack(s, s, k);
    s' := Advertises(s, s', k);
    var spec := s'.ts[k].spec;
    s' := BareGoes(s, s', k);
    if spec {
      s' := BareGoes(s, s', k);
      s' := BareGoes(s, s', k);
    }
  }
}
