/** Lock and Semaphore of src/sync.rs as objects updated in place, and what one uninterrupted `release` does
    in the step system of `HandOff`. */
module SyncObjects {
  import opened EventObjects
  import opened Ledger
  import H = HandOff

  datatype Acquired = Now | Wait(event: Event)

  /** The first queued event from `i` on that is not set, or the length of the queue: a set event belongs to a
      waiter that cancelled. */
  ghost function FirstLive(q: seq<Event>, i: nat): (k: nat)
    requires i <= |q|
    reads q
    ensures i <= k <= |q|
    ensures forall j :: i <= j < k ==> q[j].flag
    ensures k < |q| ==> !q[k].flag
    decreases |q| - i
  {
    if i == |q| || !q[i].flag then i else FirstLive(q, i + 1)
  }

  /** Every queued event can be set. */
  ghost predicate Settable(q: seq<Event>, b: Board)
    reads q
  {
    Words(b) && forall i :: 0 <= i < |q| ==> q[i].Valid() && Known(b, q[i].watchers)
  }

  /** The pop loop shared by both releases: sets the first live event and drops it with all before it. */
  method HandOver(q: seq<Event>, rt: Runtime) returns (rest: seq<Event>, given: bool)
    requires Settable(q, rt.board)
    modifies q, rt
    ensures var k := old(FirstLive(q, 0));
      && given == (k < |q|)
      && rest == (if given then q[k + 1..] else [])
      && (given ==> rt.board == WakeAll(old(rt.board), old(q[k].watchers)))
      && (!given ==> rt.board == old(rt.board))
      && forall j :: 0 <= j < |q| ==> q[j].flag == (old(q[j].flag) || (given && q[j] == q[k]))
  {
    rest, given := q, false;
    ghost var i := 0;
    while rest != []
      invariant i <= |q| && rest == q[i..] && !given && rt.board == old(rt.board)
      invariant old(FirstLive(q, i)) == old(FirstLive(q, 0))
      invariant forall j :: 0 <= j < |q| ==>
        q[j].flag == old(q[j].flag) && q[j].watchers == old(q[j].watchers) && q[j].Valid()
      decreases |rest|
    {
      var event := rest[0];
      assert event == q[i];
      rest := rest[1..];
      given := event.Set(rt);
      if given {
        return;
      }
      i := i + 1;
    }
  }

  class Lock {
    var state: bool
    var waiters: seq<Event>

    constructor ()
      ensures !state && waiters == []
    {
      state, waiters := false, [];
    }

    method Acquire() returns (r: Acquired)
      modifies this
      ensures state && r.Now? == !old(state)
      ensures r.Wait? ==> fresh(r.event) && !r.event.flag && r.event.watchers == []
      ensures r.Wait? ==> waiters == old(waiters) + [r.event]
      ensures r.Now? ==> waiters == old(waiters)
    {
      if !state {
        state := true;
        return Now;
      }
      var event := new Event();
      waiters := waiters + [event];
      return Wait(event);
    }

    /** False stands for `WouldBlock`. */
    method TryAcquire() returns (ok: bool)
      modifies this`state
      ensures state && ok == !old(state)
    {
      ok := !state;
      state := true;
    }

    /** The lock stays taken if it went to a waiter, the oldest live one; otherwise it is free. */
    method Release(rt: Runtime)
      requires Settable(waiters, rt.board)
      modifies this, waiters, rt
      ensures var q, k := old(waiters), old(FirstLive(waiters, 0));
        && (k < |q| ==> state == old(state) && q[k].flag && waiters == q[k + 1..])
        && (k < |q| ==> rt.board == WakeAll(old(rt.board), old(waiters[k].watchers)))
        && (k == |q| ==> !state && waiters == [] && rt.board == old(rt.board))
        && forall j :: 0 <= j < |q| && (k < |q| ==> q[j] != q[k]) ==> q[j].flag == old(waiters[j].flag)
    {
      var given;
      waiters, given := HandOver(waiters, rt);
      if !given {
        state := false;
      }
    }
  }

  class Semaphore {
    var value: nat
    var waiters: seq<Event>

    /** Nobody waits while a permit is free. */
    ghost predicate Valid()
      reads this
    {
      waiters != [] ==> value == 0
    }

    /** Within the range of an `i32`. */
    ghost predicate Small()
      reads this
    {
      value < H.LIMIT && |waiters| <= H.LIMIT
    }

    constructor (value: nat)
      ensures Valid() && this.value == value && waiters == []
    {
      this.value, waiters := value, [];
    }

    /** The signed 32-bit test: within range it tells whether a permit is free, and a permit taken was there. */
    method Acquire() returns (r: Acquired)
      modifies this
      ensures old(Valid() && Small()) ==> Valid() && (r.Now? <==> old(value) > 0)
      ensures r.Now? ==> value == (old(value) - 1) % USIZE && waiters == old(waiters)
      ensures r.Wait? ==> fresh(r.event) && !r.event.flag && r.event.watchers == []
      ensures r.Wait? ==> waiters == old(waiters) + [r.event] && value == old(value)
    {
      if H.I32(H.I32(value) - H.I32(|waiters|)) <= 0 {
        var event := new Event();
        waiters := waiters + [event];
        return Wait(event);
      }
      value := (value - 1) % USIZE;
      return Now;
    }

    method TryAcquire() returns (ok: bool)
      modifies this`value
      ensures old(Valid() && Small()) ==> Valid() && (ok <==> old(value) > 0)
      ensures value == (if ok then (old(value) - 1) % USIZE else old(value))
    {
      ok := H.I32(H.I32(value) - H.I32(|waiters|)) > 0;
      if ok {
        value := (value - 1) % USIZE;
      }
    }

    method Release(rt: Runtime)
      requires Settable(waiters, rt.board)
      modifies this, waiters, rt
      ensures old(Valid()) ==> Valid()
      ensures var q, k := old(waiters), old(FirstLive(waiters, 0));
        && (k < |q| ==> value == old(value) && q[k].flag && waiters == q[k + 1..])
        && (k < |q| ==> rt.board == WakeAll(old(rt.board), old(waiters[k].watchers)))
        && (k == |q| ==> value == old(value) + 1 && waiters == [] && rt.board == old(rt.board))
        && forall j :: 0 <= j < |q| && (k < |q| ==> q[j] != q[k]) ==> q[j].flag == old(waiters[j].flag)
    {
      var given;
      waiters, given := HandOver(waiters, rt);
      if !given {
        value := value + 1;
      }
    }
  }

  // ---- the same loop, step by step ----

  /** Client `k` runs alone for `n` steps. */
  function Alone(s: H.State, k: nat, n: nat): H.State
    decreases n
  {
    if n == 0 || !H.Enabled(s, H.Tick(k)) then s else Alone(H.Step(s, H.Tick(k)), k, n - 1)
  }

  /** The first `f` queued clients have cancelled, and the next one, if any, has not. */
  predicate FirstLiveClient(s: H.State, f: nat) {
    && f <= |s.queue|
    && (forall i :: 0 <= i < |s.queue| ==> 0 <= s.queue[i] < |s.clients|)
    && (forall i :: 0 <= i < f ==> s.clients[s.queue[i]].flag)
    && (f < |s.queue| ==> !s.clients[s.queue[f]].flag)
  }

  lemma {:induction false} PopsDead(s: H.State, k: nat, f: nat)
    requires k < |s.clients| && s.clients[k].pc.Draining? && FirstLiveClient(s, f)
    ensures Alone(s, k, f) == s.(queue := s.queue[f..])
    decreases f
  {
    if f > 0 {
      var s' := s.(queue := s.queue[1..]);
      assert H.Step(s, H.Tick(k)) == s';
      PopsDead(s', k, f - 1);
      assert s'.queue[f - 1..] == s.queue[f..];
    } else {
      assert s.queue[0..] == s.queue;
    }
  }

  lemma {:induction false} AloneOneMore(s: H.State, k: nat, n: nat)
    requires H.Enabled(Alone(s, k, n), H.Tick(k))
    ensures Alone(s, k, n + 1) == H.Step(Alone(s, k, n), H.Tick(k))
    decreases n
  {
    if n > 0 && H.Enabled(s, H.Tick(k)) {
      AloneOneMore(H.Step(s, H.Tick(k)), k, n - 1);
    }
  }

  /** A release left alone hands its permit to the oldest live waiter, as the methods above do, or frees it. */
  lemma ReleaseAlone(s: H.State, k: nat, f: nat)
    requires k < |s.clients| && s.clients[k].pc.Draining? && FirstLiveClient(s, f)
    ensures var s' := Alone(s, k, f + 1);
      && s'.mutex == H.Free && |s'.clients| == |s.clients| && s'.clients[k].pc == H.After(s.clients[k].pc.raises)
      && (f < |s.queue| ==> s'.clients[s.queue[f]].flag && s'.queue == s.queue[f + 1..] && s'.avail == s.avail)
      && (f == |s.queue| ==> s'.queue == [] && s'.avail == if s.p.Lock? then 1 else s.avail + 1)
      && forall j :: 0 <= j < |s.clients| && (f < |s.queue| ==> j != s.queue[f]) ==>
           s'.clients[j].flag == s.clients[j].flag
  {
    PopsDead(s, k, f);
    AloneOneMore(s, k, f);
  }
}
