/** Lock and Semaphore of src/sync.rs with the cancellation hand-back of tonio/_sync.py. One step per atomic
    operation or lock section; a client is one call to `Lock.__call__`, `Semaphore.__call__` or
    `try_acquire`, up to the release of what it got. */
module HandOff {
  import opened Ledger
  import R = Runs

  datatype Primitive = Lock | Semaphore(permits: nat)

  datatype Pc =
    | New                       // `acquire`, before its first operation
    | Contend                   // `Lock.acquire`: the first exchange failed
    | Try                       // `try_acquire`
    | Waiting                   // yielded the waiter of its event
    | Cancelling                // thrown into, about to set its own event
    | Holding
    | Releasing(raises: bool)   // `release`, before the mutex
    | Draining(raises: bool)    // `release`, in the pop loop, with the mutex
    | Refused | Raised | Done

  /** `flag` is the flag of the event the client queued, if it did. The rest is history: whether it came by `acquire`
      or by `try_acquire`, whether it was thrown into, and whether it has held a permit. */
  datatype Client = Client(pc: Pc, flag: bool, wait: bool, cancelled: bool, held: bool)

  datatype Mutex = Free | Held(owner: nat)

  datatype State = State(
    p: Primitive,
    avail: nat,             // free permits; for a lock, 1 while `state` is false and 0 while it is true
    queue: seq<int>,        // the clients whose events are queued
    mutex: Mutex,
    clients: seq<Client>)

  datatype Action =
    | Arrive(wait: bool)    // a client calls `acquire` or `try_acquire`
    | Tick(k: nat)
    | Cancel(k: nat)        // a waiting client is thrown into
    | Release(k: nat)       // a holder leaves its context

  function Total(p: Primitive): nat { match p case Lock => 1 case Semaphore(n) => n }

  function Init(p: Primitive): State { State(p, Total(p), [], Free, []) }

  const LIMIT := 0x8000_0000

  const WORD := 2 * LIMIT

  /** `x as i32`, and the result of an operation on `i32` that wraps. */
  function I32(x: int): int {
    var low := x % WORD;
    if low < LIMIT then low else low - WORD
  }

  /** The test of `acquire` and `try_acquire`: no permit for a newcomer. */
  predicate Busy(s: State) {
    match s.p
    case Lock => s.avail == 0
    case Semaphore(_) => I32(I32(s.avail) - I32(|s.queue|)) <= 0
  }

  /** The operations made under the mutex. */
  predicate NeedsMutex(p: Primitive, pc: Pc) {
    pc.Contend? || pc.Releasing? || (p.Semaphore? && (pc.New? || pc.Try?))
  }

  predicate Enabled(s: State, a: Action) {
    match a
    case Arrive(_) => true
    case Tick(k) =>
      k < |s.clients| && var c := s.clients[k];
      && !c.pc.Holding? && !c.pc.Refused? && !c.pc.Raised? && !c.pc.Done?
      && (c.pc.Waiting? ==> c.flag)
      && (NeedsMutex(s.p, c.pc) ==> s.mutex.Free?)
    case Cancel(k) => k < |s.clients| && s.clients[k].pc.Waiting?
    case Release(k) => k < |s.clients| && s.clients[k].pc.Holding?
  }

  function Step(s: State, a: Action): State
    requires Enabled(s, a)
  {
    match a
    case Arrive(wait) => s.(clients := s.clients + [Client(if wait then New else Try, false, wait, false, false)])
    case Cancel(k) => s.(clients := s.clients[k := s.clients[k].(pc := Cancelling, cancelled := true)])
    case Release(k) => s.(clients := s.clients[k := s.clients[k].(pc := Releasing(false))])
    case Tick(k) =>
      var c := s.clients[k];
      match c.pc {
        case New => if Busy(s) then (if s.p.Lock? then Move(s, k, Contend) else Enqueue(s, k)) else Acquire(s, k)
        case Contend => if Busy(s) then Enqueue(s, k) else Acquire(s, k)
        case Try => if Busy(s) then Move(s, k, Refused) else Acquire(s, k)
        case Waiting => Move(s, k, Holding)
        case Cancelling =>
          if c.flag then Move(s, k, Releasing(true)) else s.(clients := s.clients[k := c.(pc := Raised, flag := true)])
        case Releasing(raises) => Move(s, k, Draining(raises)).(mutex := Held(k))
        case Draining(raises) => Drain(s, k, raises)
        case _ => s
      }
  }

  function Move(s: State, k: nat, pc: Pc): State
    requires k < |s.clients|
  {
    s.(clients := s.clients[k := Moved(s.clients[k], pc)])
  }

  function Moved(c: Client, pc: Pc): Client { c.(pc := pc, held := c.held || pc.Holding?) }

  function Acquire(s: State, k: nat): State
    requires k < |s.clients|
  {
    Move(s, k, Holding).(avail := if s.p.Lock? then 0 else (s.avail - 1) % USIZE)
  }

  function Enqueue(s: State, k: nat): State
    requires k < |s.clients|
  {
    Move(s, k, Waiting).(queue := s.queue + [k])
  }

  function After(raises: bool): Pc { if raises then Raised else Done }

  /** One turn of the loop of `release`: pop a waiter and try to set its event; with no waiter left, free
      the permit. */
  function Drain(s: State, k: nat, raises: bool): State
    requires k < |s.clients|
  {
    if s.queue == [] then
      Move(s, k, After(raises)).(avail := if s.p.Lock? then 1 else s.avail + 1, mutex := Free)
    else if 0 <= s.queue[0] < |s.clients| && !s.clients[s.queue[0]].flag then
      var given := s.(clients := s.clients[s.queue[0] := s.clients[s.queue[0]].(flag := true)]);
      Move(given, k, After(raises)).(queue := s.queue[1..], mutex := Free)
    else s.(queue := s.queue[1..])
  }

  /** The queue of a semaphore is no longer than its signed test can bear; a lock has no such test. */
  predicate Small(s: State) { s.p.Semaphore? ==> |s.queue| <= LIMIT }

  predicate Initial(s: State) { s == Init(s.p) && Total(s.p) < LIMIT }

  ghost predicate Next(s: State, s': State) { Small(s') && exists a :: Enabled(s, a) && s' == Step(s, a) }

  ghost predicate Reachable(s: State) { R.Reachable(Initial, Next, s) }

  // ---- invariant ----

  /** Permits out: held, being released, or handed over to a waiter that has not resumed, cancelled or not. */
  function Permit(c: Client): int {
    match c.pc
    case Holding => 1
    case Releasing(_) => 1
    case Draining(_) => 1
    case Waiting => B(c.flag)
    case Cancelling => B(c.flag)
    case _ => 0
  }

  predicate Conserved(s: State) { s.avail + Sum(s.clients, Permit) == Total(s.p) }

  /** Still interested in a permit it has not been given. */
  predicate LiveWaiter(c: Client) { (c.pc.Waiting? || c.pc.Cancelling?) && !c.flag }

  /** `queued`: occurrences of the client in the queue. */
  predicate ClientFits(c: Client, queued: int, draining: bool) {
    && queued <= 1
    && (LiveWaiter(c) ==> queued == 1)
    && (queued == 1 ==> LiveWaiter(c) || (c.pc.Raised? && c.flag))
    && (c.pc.Draining? <==> draining)
    && (c.pc.New? || c.pc.Contend? || c.pc.Try? ==> !c.flag)
  }

  predicate Shape(s: State) {
    && (forall k :: 0 <= k < |s.clients| ==> ClientFits(s.clients[k], Count(s.queue, k), s.mutex == Held(k)))
    && (s.mutex.Held? ==> s.mutex.owner < |s.clients|)
    && (forall i :: 0 <= i < |s.queue| ==> 0 <= s.queue[i] < |s.clients|)
    && (s.queue != [] ==> s.avail == 0)
  }

  predicate Inv(s: State) { Small(s) && Total(s.p) < LIMIT && Conserved(s) && Shape(s) }

  /** Within the limits, the signed 32-bit test says "no permit is free". */
  lemma BusyExact(s: State)
    requires Inv(s)
    ensures Busy(s) <==> s.avail == 0
  {
    SumNonNegative(s.clients, Permit);
  }

  // ---- one client moves ----

  lemma MoveSums(s: State, k: nat, c: Client)
    requires k < |s.clients|
    ensures Sum(s.clients[k := c], Permit) == Sum(s.clients, Permit) - Permit(s.clients[k]) + Permit(c)
  {
    SumUpdate(s.clients, k, c, Permit);
  }

  /** A client changes its record, nobody else is concerned. */
  lemma Alone(s: State, k: nat, c: Client)
    requires Inv(s) && k < |s.clients|
    requires Permit(c) == Permit(s.clients[k])
    requires ClientFits(c, Count(s.queue, k), s.mutex == Held(k))
    ensures Inv(s.(clients := s.clients[k := c]))
  {
    MoveSums(s, k, c);
  }

  lemma AcquireKept(s: State, k: nat)
    requires Inv(s) && k < |s.clients| && !Busy(s)
    requires s.clients[k].pc.New? || s.clients[k].pc.Contend? || s.clients[k].pc.Try?
    ensures Inv(Acquire(s, k))
  {
    BusyExact(s);
    MoveSums(s, k, Moved(s.clients[k], Holding));
    SumNonNegative(s.clients, Permit);
    assert ClientFits(s.clients[k], Count(s.queue, k), s.mutex == Held(k));
  }

  lemma EnqueueKept(s: State, k: nat)
    requires Inv(s) && k < |s.clients| && Busy(s) && Small(Enqueue(s, k))
    requires s.clients[k].pc.New? || s.clients[k].pc.Contend?
    ensures Inv(Enqueue(s, k))
  {
    var s' := Enqueue(s, k);
    BusyExact(s);
    MoveSums(s, k, Moved(s.clients[k], Waiting));
    assert ClientFits(s.clients[k], Count(s.queue, k), s.mutex == Held(k));
    forall j | 0 <= j < |s'.clients| ensures ClientFits(s'.clients[j], Count(s'.queue, j), s'.mutex == Held(j)) {
      CountPush(s.queue, k, j);
      assert ClientFits(s.clients[j], Count(s.queue, j), s.mutex == Held(j));
    }
  }

  lemma LockMutexKept(s: State, k: nat)
    requires Inv(s) && k < |s.clients| && s.clients[k].pc.Releasing? && s.mutex.Free?
    ensures Inv(Move(s, k, Draining(s.clients[k].pc.raises)).(mutex := Held(k)))
  {
    MoveSums(s, k, Moved(s.clients[k], Draining(s.clients[k].pc.raises)));
    assert ClientFits(s.clients[k], Count(s.queue, k), s.mutex == Held(k));
  }

  lemma FreeKept(s: State, k: nat)
    requires Inv(s) && k < |s.clients| && s.clients[k].pc.Draining? && s.queue == []
    ensures Inv(Drain(s, k, s.clients[k].pc.raises))
  {
    MoveSums(s, k, Moved(s.clients[k], After(s.clients[k].pc.raises)));
    SumAtLeast(s.clients, k, Permit);
    assert ClientFits(s.clients[k], Count(s.queue, k), s.mutex == Held(k));
  }

  /** The head of the queue is a live waiter, or has cancelled. */
  lemma HeadFits(s: State)
    requires Inv(s) && s.queue != []
    ensures var h := s.queue[0]; 0 <= h < |s.clients| && (LiveWaiter(s.clients[h]) <==> !s.clients[h].flag)
  {
    var h := s.queue[0];
    assert ClientFits(s.clients[h], Count(s.queue, h), s.mutex == Held(h));
  }

  lemma PopDeadKept(s: State, k: nat)
    requires Inv(s) && k < |s.clients| && s.clients[k].pc.Draining? && s.queue != [] && s.clients[s.queue[0]].flag
    ensures Inv(Drain(s, k, s.clients[k].pc.raises))
  {
    var s' := Drain(s, k, s.clients[k].pc.raises);
    HeadFits(s);
    forall j | 0 <= j < |s'.clients| ensures ClientFits(s'.clients[j], Count(s'.queue, j), s'.mutex == Held(j)) {
      CountPopFront(s.queue, j);
      assert ClientFits(s.clients[j], Count(s.queue, j), s.mutex == Held(j));
    }
  }

  /** The permit goes from the releaser to the head of the queue. */
  lemma HandOverSums(s: State, k: nat)
    requires Inv(s) && k < |s.clients| && s.clients[k].pc.Draining? && s.queue != [] && !s.clients[s.queue[0]].flag
    ensures var s' := Drain(s, k, s.clients[k].pc.raises);
      Sum(s'.clients, Permit) == Sum(s.clients, Permit)
  {
    var h := s.queue[0];
    HeadFits(s);
    var given := s.(clients := s.clients[h := s.clients[h].(flag := true)]);
    MoveSums(s, h, s.clients[h].(flag := true));
    MoveSums(given, k, Moved(s.clients[k], After(s.clients[k].pc.raises)));
    assert ClientFits(s.clients[k], Count(s.queue, k), s.mutex == Held(k));
  }

  lemma HandOverKept(s: State, k: nat)
    requires Inv(s) && k < |s.clients| && s.clients[k].pc.Draining? && s.queue != [] && !s.clients[s.queue[0]].flag
    ensures Inv(Drain(s, k, s.clients[k].pc.raises))
  {
    var s', h := Drain(s, k, s.clients[k].pc.raises), s.queue[0];
    HeadFits(s);
    HandOverSums(s, k);
    assert ClientFits(s.clients[k], Count(s.queue, k), s.mutex == Held(k));
    forall j | 0 <= j < |s'.clients| ensures ClientFits(s'.clients[j], Count(s'.queue, j), s'.mutex == Held(j)) {
      CountPopFront(s.queue, j);
      assert ClientFits(s.clients[j], Count(s.queue, j), s.mutex == Held(j));
    }
  }

  lemma ArriveKept(s: State, wait: bool)
    requires Inv(s)
    ensures Inv(Step(s, Arrive(wait)))
  {
    var c := Client(if wait then New else Try, false, wait, false, false);
    SumAppend(s.clients, c, Permit);
    CountZero(s.queue, |s.clients|);
  }

  lemma TickKept(s: State, k: nat)
    requires Inv(s) && Enabled(s, Tick(k)) && Small(Step(s, Tick(k)))
    ensures Inv(Step(s, Tick(k)))
  {
    var c := s.clients[k];
    assert ClientFits(c, Count(s.queue, k), s.mutex == Held(k));
    match c.pc
    case New =>
      if !Busy(s) {
        AcquireKept(s, k);
      } else if s.p.Lock? {
        Alone(s, k, Moved(c, Contend));
      } else {
        EnqueueKept(s, k);
      }
    case Contend => if Busy(s) { EnqueueKept(s, k); } else { AcquireKept(s, k); }
    case Try => if Busy(s) { Alone(s, k, Moved(c, Refused)); } else { AcquireKept(s, k); }
    case Waiting => Alone(s, k, Moved(c, Holding));
    case Cancelling => Alone(s, k, if c.flag then Moved(c, Releasing(true)) else c.(pc := Raised, flag := true));
    case Releasing(_) => LockMutexKept(s, k);
    case Draining(_) =>
      if s.queue == [] {
        FreeKept(s, k);
      } else if s.clients[s.queue[0]].flag {
        PopDeadKept(s, k);
      } else {
        HandOverKept(s, k);
      }
  }

  lemma InvKept(s: State, a: Action)
    requires Inv(s) && Enabled(s, a) && Small(Step(s, a))
    ensures Inv(Step(s, a))
  {
    match a
    case Arrive(wait) => ArriveKept(s, wait);
    case Tick(k) => TickKept(s, k);
    case Cancel(k) =>
      assert ClientFits(s.clients[k], Count(s.queue, k), s.mutex == Held(k));
      Alone(s, k, s.clients[k].(pc := Cancelling, cancelled := true));
    case Release(k) =>
      assert ClientFits(s.clients[k], Count(s.queue, k), s.mutex == Held(k));
      Alone(s, k, s.clients[k].(pc := Releasing(false)));
  }

  lemma ReachableInv(s: State)
    requires Reachable(s)
    ensures Inv(s)
  {
    forall r, r' | Inv(r) && Next(r, r') ensures Inv(r') {
      var a :| Enabled(r, a) && r' == Step(r, a);
      InvKept(r, a);
    }
    R.Always(Initial, Next, Inv, s);
  }

  // ---- theorems ----

  /** Permits are conserved under cancellation, none is free while a client is queued, and the signed test
      tells whether one is free. */
  lemma PermitsConserved(s: State)
    requires Reachable(s)
    ensures s.avail + Sum(s.clients, Permit) == Total(s.p)
    ensures s.queue != [] ==> s.avail == 0
    ensures Busy(s) <==> s.avail == 0
  {
    ReachableInv(s);
    BusyExact(s);
  }

  /** The two casts and the wrapping subtraction are one cast of the true difference. */
  lemma CastOfDifference(x: int, y: int)
    ensures I32(I32(x) - I32(y)) == I32(x - y)
  {
    var c := (I32(x) - x) / WORD - (I32(y) - y) / WORD;
    CastShift(x);
    CastShift(y);
    assert I32(x) - I32(y) == x - y + c * WORD;
    ModShift(x - y, c);
  }

  lemma CastShift(x: int)
    ensures I32(x) == x + (I32(x) - x) / WORD * WORD
  {
    assert x == x / WORD * WORD + x % WORD;
    if I32(x) == x % WORD {
      assert I32(x) - x == -(x / WORD) * WORD;
    } else {
      assert I32(x) - x == (-(x / WORD) - 1) * WORD;
    }
  }

  lemma {:induction false} ModShift(x: int, c: int)
    ensures (x + c * WORD) % WORD == x % WORD
    decreases if c < 0 then -c else c
  {
    if c > 0 {
      ModShift(x, c - 1);
      assert x + c * WORD == x + (c - 1) * WORD + WORD;
    } else if c < 0 {
      ModShift(x, c + 1);
      assert x + c * WORD == x + (c + 1) * WORD - WORD;
    }
  }

  /** For every count and every queue length: the signed test agrees with "no permit is free", and with "no more
      permits than clients queued", exactly under these conditions. */
  lemma SignedTestExact(s: State)
    requires s.p.Semaphore?
    ensures var d := (s.avail - |s.queue|) % WORD;
      (Busy(s) <==> s.avail == 0) <==> if s.avail == 0 then |s.queue| % WORD <= LIMIT else 1 <= d < LIMIT
    ensures (Busy(s) <==> s.avail <= |s.queue|) <==>
      if s.avail <= |s.queue| then (|s.queue| - s.avail) % WORD <= LIMIT else 1 <= (s.avail - |s.queue|) % WORD < LIMIT
  {
    CastOfDifference(s.avail, |s.queue|);
    NegativeMod(|s.queue| - s.avail);
  }

  lemma NegativeMod(x: int)
    ensures (-x) % WORD == if x % WORD == 0 then 0 else WORD - x % WORD
  {
    assert x == x / WORD * WORD + x % WORD;
    ModShift(-(x % WORD), -(x / WORD));
  }

  /** A client of `acquire` that was neither set nor cancelled. */
  function FirstClient(pc: Pc): Client { Client(pc, false, true, false, pc.Holding?) }

  /** A semaphore of 2^31 permits makes its very first client wait, with every permit free. */
  lemma HugeSemaphoreBlocks()
    ensures var s := Step(Step(Init(Semaphore(LIMIT)), Arrive(true)), Tick(0));
      s.clients[0].pc.Waiting? && !s.clients[0].flag && s.avail == LIMIT
  {
    var s := Step(Init(Semaphore(LIMIT)), Arrive(true));
    assert s.clients == [FirstClient(New)];
  }

  /** Its second client then takes a permit past the first: the difference has come back into range. */
  lemma HugeSemaphoreOvertakes()
    ensures var s := Step(Step(Init(Semaphore(LIMIT)), Arrive(true)), Tick(0));
      var s' := Step(Step(s, Arrive(true)), Tick(1));
      s'.clients == [FirstClient(Waiting), FirstClient(Holding)] && s'.queue == [0] && s'.avail == LIMIT - 1
  {
    var s := Step(Step(Init(Semaphore(LIMIT)), Arrive(true)), Tick(0));
    assert s.clients == [FirstClient(Waiting)] && s.queue == [0];
    var s1 := Step(s, Arrive(true));
    assert s1.clients == [FirstClient(Waiting), FirstClient(New)];
    assert Step(s1, Tick(1)).clients == [FirstClient(Waiting), FirstClient(Holding)];
  }

  /** A lock has one owner at most: its state is true exactly while one client holds it, is releasing it, or
      was handed it; and whoever waits for it is queued behind an owner. */
  lemma LockExclusive(s: State)
    requires Reachable(s) && s.p.Lock?
    ensures s.avail == 0 <==> exists k :: 0 <= k < |s.clients| && Permit(s.clients[k]) == 1
    ensures forall j, k :: 0 <= j < k < |s.clients| ==> Permit(s.clients[j]) + Permit(s.clients[k]) <= 1
    ensures forall k :: 0 <= k < |s.clients| && LiveWaiter(s.clients[k]) ==> k in s.queue && s.avail == 0
  {
    ReachableInv(s);
    SumNonNegative(s.clients, Permit);
    if s.avail == 0 {
      var k := SumWitness(s.clients, Permit);
      assert Permit(s.clients[k]) == 1;
    }
    forall k | 0 <= k < |s.clients| ensures Permit(s.clients[k]) <= 1 - s.avail {
      SumAtLeast(s.clients, k, Permit);
    }
    forall j, k | 0 <= j < k < |s.clients| ensures Permit(s.clients[j]) + Permit(s.clients[k]) <= 1 {
      SumAtLeastTwo(s.clients, j, k, Permit);
    }
    forall k | 0 <= k < |s.clients| && LiveWaiter(s.clients[k]) ensures k in s.queue {
      LiveIsQueued(s, k);
    }
  }

  lemma LiveIsQueued(s: State, k: nat)
    requires Inv(s) && k < |s.clients| && LiveWaiter(s.clients[k])
    ensures k in s.queue
  {
    assert ClientFits(s.clients[k], Count(s.queue, k), s.mutex == Held(k));
    if k !in s.queue {
      CountZero(s.queue, k);
    }
  }

  /** No newcomer overtakes: while a live waiter is queued, no step takes a permit from the pool, and a permit
      given back goes to the oldest entry of the queue or stays with the releaser. */
  lemma NoOvertaking(s: State, a: Action, w: nat)
    requires Reachable(s) && Enabled(s, a) && w < |s.clients| && LiveWaiter(s.clients[w])
    ensures Step(s, a).avail == s.avail == 0
    ensures s.queue != [] && 0 <= s.queue[0] < |s.clients|
    ensures a.Tick? && s.clients[a.k].pc.Draining? && !s.clients[s.queue[0]].flag ==>
      a.k != s.queue[0] && Permit(Step(s, a).clients[s.queue[0]]) == 1 && Step(s, a).queue == s.queue[1..]
  {
    ReachableInv(s);
    BusyExact(s);
    LiveIsQueued(s, w);
    HeadFits(s);
  }

  // ---- what becomes of a client ----

  /** A client was cancelled exactly if it is on its way to raising or has raised; only a waiting client can be; it has
      held a permit exactly if it holds one, gives it back on leaving its context, or is done; and only
      `try_acquire` is refused. */
  predicate Story(c: Client) {
    && (c.cancelled <==> c.pc.Cancelling? || c.pc == Releasing(true) || c.pc == Draining(true) || c.pc.Raised?)
    && (c.held <==> c.pc.Holding? || c.pc == Releasing(false) || c.pc == Draining(false) || c.pc.Done?)
    && (c.pc.New? || c.pc.Contend? || c.pc.Waiting? || c.cancelled ==> c.wait)
    && (c.pc.Try? || c.pc.Refused? ==> !c.wait)
  }

  predicate AllStories(s: State) { forall k :: 0 <= k < |s.clients| ==> Story(s.clients[k]) }

  /** Only the flag of another client is ever touched. */
  lemma DrainStories(s: State, k: nat)
    requires AllStories(s) && k < |s.clients| && s.clients[k].pc.Draining?
    ensures AllStories(Drain(s, k, s.clients[k].pc.raises))
  {
    var s' := Drain(s, k, s.clients[k].pc.raises);
    forall j | 0 <= j < |s'.clients| ensures Story(s'.clients[j]) {
      assert Story(s.clients[j]) && Story(s.clients[k]);
    }
  }

  /** One step of a client other than in the loop of `release`. */
  lemma OwnStory(s: State, k: nat)
    requires Enabled(s, Tick(k)) && !s.clients[k].pc.Draining? && Story(s.clients[k])
    ensures var s' := Step(s, Tick(k)); Story(s'.clients[k]) && s'.clients == s.clients[k := s'.clients[k]]
  {
    match s.clients[k].pc
    case New =>
    case Contend =>
    case Try =>
    case _ =>
  }

  lemma StoryKept(s: State, a: Action)
    requires AllStories(s) && Enabled(s, a)
    ensures AllStories(Step(s, a))
  {
    if a.Tick? {
      assert Story(s.clients[a.k]);
      if s.clients[a.k].pc.Draining? { DrainStories(s, a.k); } else { OwnStory(s, a.k); }
    }
  }

  lemma ReachableStories(s: State)
    requires Reachable(s)
    ensures AllStories(s)
  {
    forall r, r' | AllStories(r) && Next(r, r') ensures AllStories(r') {
      var a :| Enabled(r, a) && r' == Step(r, a);
      StoryKept(r, a);
    }
    R.Always(Initial, Next, AllStories, s);
  }

  /** An attempt takes a permit exactly if fewer are out than there are; otherwise `try_acquire` is refused and
      `acquire` goes to the end of the queue, a lock after a second look. */
  lemma AttemptExact(s: State, k: nat)
    requires Reachable(s) && Enabled(s, Tick(k))
    requires s.clients[k].pc.New? || s.clients[k].pc.Contend? || s.clients[k].pc.Try?
    ensures var c, s' := s.clients[k], Step(s, Tick(k)); var c' := s'.clients[k];
      if Sum(s.clients, Permit) < Total(s.p) then
        c'.pc.Holding? && Sum(s'.clients, Permit) == Sum(s.clients, Permit) + 1 && s'.queue == s.queue
      else if !c.wait then c'.pc.Refused? && s'.queue == s.queue
      else if c.pc.New? && s.p.Lock? then c'.pc.Contend? && s'.queue == s.queue
      else c'.pc.Waiting? && !c'.flag && s'.queue == s.queue + [k]
  {
    ReachableInv(s);
    ReachableStories(s);
    BusyExact(s);
    assert ClientFits(s.clients[k], Count(s.queue, k), s.mutex == Held(k));
    MoveSums(s, k, Moved(s.clients[k], Holding));
  }

  /** What becomes of every client once none can take a step by itself: a cancelled one has raised and kept nothing;
      one that was refused came by `try_acquire`; any other holds its permit, has held it, or waits unserved. */
  lemma AtRest(s: State, k: nat)
    requires Reachable(s) && k < |s.clients| && forall j :: !Enabled(s, Tick(j))
    ensures var c := s.clients[k];
      if c.cancelled then c.pc.Raised? && Permit(c) == 0
      else if c.pc.Refused? then !c.wait && !c.held
      else c.pc.Holding? || c.pc.Done? || (c.pc.Waiting? && !c.flag && c.wait)
  {
    ReachableInv(s);
    ReachableStories(s);
    MutexFree(s);
    assert !Enabled(s, Tick(k));
  }

  lemma MutexFree(s: State)
    requires Inv(s) && forall j :: !Enabled(s, Tick(j))
    ensures s.mutex.Free?
  {
    forall k | 0 <= k < |s.clients| ensures s.mutex != Held(k) {
      assert ClientFits(s.clients[k], Count(s.queue, k), s.mutex == Held(k)) && !Enabled(s, Tick(k));
    }
  }

  /** No hand-off is lost: in a state where no client can take a step by itself, and nobody holds a permit but, if
      that could be, clients whose coroutine has raised, nobody waits for one and every permit is free. */
  lemma NoLostHandOff(s: State, w: nat)
    requires Reachable(s) && Total(s.p) > 0 && w < |s.clients|
    requires forall k :: !Enabled(s, Tick(k))
    requires forall k :: 0 <= k < |s.clients| && s.clients[k].pc.Holding? ==> s.clients[k].cancelled
    ensures !s.clients[w].pc.Waiting? && s.avail == Total(s.p)
  {
    ReachableInv(s);
    forall k | 0 <= k < |s.clients| ensures Permit(s.clients[k]) == 0 {
      AtRest(s, k);
    }
    SumZero(s.clients, Permit);
    if s.clients[w].pc.Waiting? {
      LiveIsQueued(s, w);
    }
  }
}
