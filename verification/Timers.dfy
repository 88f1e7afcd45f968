/** Timers: the reversed order of src/time.rs, the drain at the end of `poll` and the sleep at its beginning
    in src/runtime.rs. */
module Timers {
  import opened Ledger
  import R = Runs

  datatype Timer = Timer(when: nat, target: nat)

  datatype Ordering = Less | Equal | Greater

  /** `Ord::cmp`: reversed, so that the maximum of the heap is the earliest deadline. */
  function Cmp(a: Timer, b: Timer): Ordering {
    if a.when < b.when then Greater else if a.when > b.when then Less else Equal
  }

  /** `x` is a maximum of the heap under `Cmp`: what `peek` and `pop` may return. */
  predicate Top(heap: seq<Timer>, x: Timer) {
    x in heap && forall i :: 0 <= i < |heap| ==> !Cmp(heap[i], x).Greater?
  }

  predicate Sorted(ts: seq<Timer>) { forall i, j :: 0 <= i < j < |ts| ==> ts[i].when <= ts[j].when }

  /** The mutex-protected heap, as an unordered store of which a top element can be found. */
  class TimerHeap {
    var heap: seq<Timer>

    constructor ()
      ensures heap == []
    {
      heap := [];
    }

    method Push(t: Timer)
      modifies this
      ensures heap == old(heap) + [t]
    {
      heap := heap + [t];
    }

    /** `peek`: the position of a top element. */
    method Peek() returns (k: nat)
      requires heap != []
      ensures k < |heap| && Top(heap, heap[k])
    {
      k := 0;
      for i := 1 to |heap|
        invariant k < |heap|
        invariant forall j :: 0 <= j < i ==> !Cmp(heap[j], heap[k]).Greater?
      {
        if Cmp(heap[i], heap[k]).Greater? {
          k := i;
        }
      }
    }

    /** The timer section of `poll`: release the timers due at the sampled tick, earliest first, and no other. */
    method Drain(tick: nat) returns (released: seq<Timer>)
      modifies this
      ensures multiset(released) + multiset(heap) == multiset(old(heap))
      ensures multiset(heap) == multiset(Later(old(heap), tick))
      ensures Sorted(released) && AllDue(released, tick) && NotDue(heap, tick)
    {
      released := [];
      while heap != []
        invariant multiset(released) + multiset(heap) == multiset(old(heap))
        invariant Sorted(released) && AllDue(released, tick) && Before(released, heap)
        decreases |heap|
      {
        var k := Peek();
        TopIsEarliest(heap, k);
        if heap[k].when > tick {
          break;
        }
        Pops(released, heap, k);
        released := released + [heap[k]];
        heap := heap[..k] + heap[k + 1..];
      }
      LaterExact(old(heap), released, heap, tick);
    }
  }

  predicate AllDue(ts: seq<Timer>, tick: nat) { forall i :: 0 <= i < |ts| ==> ts[i].when <= tick }

  predicate NotDue(ts: seq<Timer>, tick: nat) { forall i :: 0 <= i < |ts| ==> ts[i].when > tick }

  predicate Before(ts: seq<Timer>, us: seq<Timer>) {
    forall i, j :: 0 <= i < |ts| && 0 <= j < |us| ==> ts[i].when <= us[j].when
  }

  lemma TopIsEarliest(heap: seq<Timer>, k: nat)
    requires k < |heap| && Top(heap, heap[k])
    ensures Before([heap[k]], heap)
  {
  }

  lemma Split(q: seq<Timer>, k: nat)
    requires k < |q|
    ensures multiset(q) == multiset(q[..k] + q[k + 1..]) + multiset{q[k]}
  {
    assert q == q[..k] + ([q[k]] + q[k + 1..]);
  }

  /** The earliest timer goes from the heap to the end of what was released. */
  lemma Pops(released: seq<Timer>, heap: seq<Timer>, k: nat)
    requires k < |heap| && Sorted(released) && Before(released, heap) && Before([heap[k]], heap)
    ensures var released', heap' := released + [heap[k]], heap[..k] + heap[k + 1..];
      && Sorted(released') && Before(released', heap')
      && multiset(released') + multiset(heap') == multiset(released) + multiset(heap)
  {
    Split(heap, k);
    var heap' := heap[..k] + heap[k + 1..];
    forall j | 0 <= j < |heap'| ensures heap'[j] in heap {
    }
  }

  lemma {:induction false} LaterCounts(ts: seq<Timer>, tick: nat, t: Timer)
    ensures multiset(Later(ts, tick))[t] == if t.when > tick then multiset(ts)[t] else 0
  {
    if ts != [] {
      assert ts == [ts[0]] + ts[1..];
      LaterCounts(ts[1..], tick, t);
    }
  }

  lemma Absent(ts: seq<Timer>, t: Timer)
    requires t !in ts
    ensures multiset(ts)[t] == 0
  {
  }

  /** What a drain leaves is what is later than the tick. */
  lemma LaterExact(all: seq<Timer>, released: seq<Timer>, heap: seq<Timer>, tick: nat)
    requires multiset(released) + multiset(heap) == multiset(all) && AllDue(released, tick) && NotDue(heap, tick)
    ensures multiset(heap) == multiset(Later(all, tick))
  {
    forall t: Timer ensures multiset(heap)[t] == multiset(Later(all, tick))[t] {
      LaterCounts(all, tick, t);
      if t.when > tick { Absent(released, t); } else { Absent(heap, t); }
    }
  }

  // ---- the sleeping poller ----

  datatype Limit = Forever | Until(deadline: nat)

  datatype Poller =
    | Computing           // before the lock section that looks at the earliest timer
    | Blocked(limit: Limit)
    | Handling            // between the return of the poll and the drain

  datatype State = State(
    now: nat,
    timers: seq<Timer>,
    wake: bool,           // the waker was signalled and the poll has not consumed it
    adders: nat,          // calls to `add_timer` between the push and the wake
    poller: Poller,
    added: seq<Timer>,    // history: all timers ever added
    released: seq<Timer>) // history: timers handed to the scheduler

  datatype Action =
    | Elapse              // time passes
    | Add(t: Timer)       // `add_timer`: the push
    | Wake                // `add_timer`: the wake
    | Compute
    | Return              // the poll returns: woken, timed out, or for some I/O
    | Handle              // the drain

  predicate Initial(s: State) { s == State(s.now, [], false, 0, Computing, [], []) }

  /** The timers left by a drain at `tick`. */
  function Later(ts: seq<Timer>, tick: nat): seq<Timer> {
    if ts == [] then [] else (if ts[0].when > tick then [ts[0]] else []) + Later(ts[1..], tick)
  }

  /** The timers taken by a drain at `tick`. */
  function Due(ts: seq<Timer>, tick: nat): seq<Timer> {
    if ts == [] then [] else (if ts[0].when > tick then [] else [ts[0]]) + Due(ts[1..], tick)
  }

  function Earliest(ts: seq<Timer>): (d: nat)
    requires ts != []
    ensures (exists i :: 0 <= i < |ts| && ts[i].when == d) && forall i :: 0 <= i < |ts| ==> d <= ts[i].when
  {
    if |ts| == 1 then ts[0].when
    else
      var d := Earliest(ts[1..]);
      assert forall i :: 1 <= i < |ts| ==> ts[i] == ts[1..][i - 1];
      assert exists i :: 0 <= i < |ts[1..]| && ts[1..][i].when == d && ts[i + 1].when == d;
      if ts[0].when < d then ts[0].when else d
  }

  predicate Enabled(s: State, a: Action) {
    match a
    case Wake => s.adders > 0
    case Compute => s.poller.Computing?
    case Return => s.poller.Blocked?
    case Handle => s.poller.Handling?
    case _ => true
  }

  function Step(s: State, a: Action): State
    requires Enabled(s, a)
  {
    match a
    case Elapse => s.(now := s.now + 1)
    case Add(t) => s.(timers := s.timers + [t], adders := s.adders + 1, added := s.added + [t])
    case Wake => s.(adders := s.adders - 1, wake := true)
    case Compute => s.(poller := Blocked(if s.timers == [] then Forever else Until(Earliest(s.timers))))
    case Return => s.(wake := false, poller := Handling)
    case Handle =>
      s.(timers := Later(s.timers, s.now), poller := Computing, released := s.released + Due(s.timers, s.now))
  }

  ghost predicate Next(s: State, s': State) { exists a :: Enabled(s, a) && s' == Step(s, a) }

  ghost predicate Reachable(s: State) { R.Reachable(Initial, Next, s) }

  /** The poller sleeps beyond the deadline of `t`. */
  predicate Beyond(limit: Limit, t: Timer) { limit.Forever? || t.when < limit.deadline }

  predicate Inv(s: State) {
    s.poller.Blocked? && !s.wake && s.adders == 0 ==>
      forall i :: 0 <= i < |s.timers| ==> !Beyond(s.poller.limit, s.timers[i])
  }

  /** While the poller is blocked, a timer earlier than its timeout has a wake pending or about to be issued. */
  lemma NeverSleptPast(s: State, i: nat)
    requires Reachable(s) && s.poller.Blocked? && i < |s.timers| && Beyond(s.poller.limit, s.timers[i])
    ensures s.wake || s.adders > 0
  {
    forall r, r' | Inv(r) && Next(r, r') ensures Inv(r') {
    }
    R.Always(Initial, Next, Inv, s);
  }

  // ---- over whole runs ----

  /** A drain takes what is due and keeps the rest. */
  lemma {:induction false} DrainSplits(ts: seq<Timer>, tick: nat, t: Timer)
    ensures Count(Due(ts, tick), t) == if t.when <= tick then Count(ts, t) else 0
    ensures Count(Later(ts, tick), t) == if t.when <= tick then 0 else Count(ts, t)
  {
    if ts != [] {
      DrainSplits(ts[1..], tick, t);
      var due, later := Due(ts[1..], tick), Later(ts[1..], tick);
      CountConcat([ts[0]], due, t);
      CountConcat([ts[0]], later, t);
      assert [] + due == due && [] + later == later;
      assert Count([ts[0]], t) == B(ts[0] == t) by { assert [ts[0]][1..] == []; }
    }
  }

  lemma {:induction false} DueIsDue(ts: seq<Timer>, tick: nat)
    ensures AllDue(Due(ts, tick), tick)
  {
    if ts != [] {
      DueIsDue(ts[1..], tick);
    }
  }

  lemma {:induction false} LaterSubset(ts: seq<Timer>, tick: nat, t: Timer)
    ensures t in Later(ts, tick) <==> t in ts && t.when > tick
  {
    if ts != [] {
      LaterSubset(ts[1..], tick, t);
      assert t in ts <==> t == ts[0] || t in ts[1..];
    }
  }

  ghost predicate OfATimer(s: State) {
    s.poller.Blocked? && s.poller.limit.Until? ==> exists t :: t in s.added && t.when == s.poller.limit.deadline
  }

  predicate Balanced(s: State, t: Timer) { Count(s.added, t) == Count(s.timers, t) + Count(s.released, t) }

  ghost predicate Accounted(s: State) {
    && (forall t: Timer :: Balanced(s, t))
    && AllDue(s.released, s.now)
    && (forall i :: 0 <= i < |s.timers| ==> s.timers[i] in s.added)
    && OfATimer(s)
  }

  lemma BalancedKept(s: State, a: Action, t: Timer)
    requires Balanced(s, t) && Enabled(s, a)
    ensures Balanced(Step(s, a), t)
  {
    if a.Handle? {
      DrainSplits(s.timers, s.now, t);
      CountConcat(s.released, Due(s.timers, s.now), t);
    } else if a.Add? {
      CountPush(s.added, a.t, t);
      CountPush(s.timers, a.t, t);
    }
  }

  lemma NeverEarly(s: State, a: Action)
    requires AllDue(s.released, s.now) && Enabled(s, a)
    ensures AllDue(Step(s, a).released, Step(s, a).now)
  {
    DueIsDue(s.timers, s.now);
  }

  lemma AccountedKept(s: State, a: Action)
    requires Accounted(s) && Enabled(s, a)
    ensures Accounted(Step(s, a))
  {
    var s' := Step(s, a);
    forall t: Timer ensures Balanced(s', t) { BalancedKept(s, a, t); }
    NeverEarly(s, a);
    forall t | t in s'.timers ensures t in s'.added {
      if a.Handle? { LaterSubset(s.timers, s.now, t); }
    }
    if s.poller.Blocked? && s.poller.limit.Until? {
      var t :| t in s.added && t.when == s.poller.limit.deadline;
      assert t in s'.added;
    }
    if a.Compute? && s.timers != [] {
      var i :| 0 <= i < |s.timers| && s.timers[i].when == Earliest(s.timers);
      assert s.timers[i] in s.added;
    }
  }

  /** Every timer ever added is in the heap or was released, as often as it was added, and none is released before its
      deadline; and a poller that blocks with a timeout does so for the deadline of a timer. */
  lemma TimersAccounted(s: State, t: Timer)
    requires Reachable(s)
    ensures Count(s.added, t) == Count(s.timers, t) + Count(s.released, t)
    ensures t in s.released ==> t.when <= s.now
    ensures s.poller.Blocked? && s.poller.limit.Until? ==> exists u :: u in s.added && u.when == s.poller.limit.deadline
  {
    forall r, r' | Accounted(r) && Next(r, r') ensures Accounted(r') {
      var a :| Enabled(r, a) && r' == Step(r, a);
      AccountedKept(r, a);
    }
    R.Always(Initial, Next, Accounted, s);
    assert Balanced(s, t);
  }

  /** A poll that has returned drains before it sleeps again: what is due when it does is released, once for each time
      it is in the heap. */
  lemma ReturnThenDrain(s: State, t: Timer)
    requires s.poller.Blocked?
    ensures var s1 := Step(s, Return);
      && Enabled(s1, Handle) && !Enabled(s1, Compute)
      && Count(Step(s1, Handle).released, t) == Count(s.released, t) + if t.when <= s.now then Count(s.timers, t) else 0
  {
    DrainSplits(s.timers, s.now, t);
    CountConcat(s.released, Due(s.timers, s.now), t);
  }

  /** The drain of a poll keeps exactly the timers not yet due, and the timeout computed next is the earliest of them,
      or none if there are none. */
  lemma DrainThenSleep(s: State, t: Timer)
    requires s.poller.Handling?
    ensures var s' := Step(s, Handle); var limit := Step(s', Compute).poller.limit;
      && Count(s'.timers, t) == (if t.when > s.now then Count(s.timers, t) else 0)
      && (t in s.timers && t.when > s.now ==> limit.Until? && s.now < limit.deadline <= t.when)
      && (limit.Until? ==> exists u :: u in s.timers && u.when == limit.deadline > s.now)
  {
    var later := Later(s.timers, s.now);
    DrainSplits(s.timers, s.now, t);
    LaterSubset(s.timers, s.now, t);
    if later != [] {
      var i :| 0 <= i < |later| && later[i].when == Earliest(later);
      LaterSubset(s.timers, s.now, later[i]);
      assert later[i] in s.timers;
    }
  }
}
