/** Events and suspensions of src/events.rs as objects updated in place, one uninterrupted call at a time; the
    interleavings of their atomic operations are the subject of `WaitAll`. */
module EventObjects {
  import opened Ledger

  /** A suspension with its `consumed` flag, or with a sentinel that counts the events still awaited. */
  datatype Suspension = Single(consumed: bool) | Counting(counter: nat)

  /** Handles given to the scheduler: resume or throw into the coroutine of suspension `id`. */
  datatype Emission = Resumed(id: int) | Thrown(id: int)

  /** All suspensions, and the handles scheduled so far. */
  datatype Board = Board(susps: seq<Suspension>, handles: seq<Emission>)

  datatype Call = Resume(id: int) | Error(id: int)

  predicate Words(b: Board) {
    forall i :: 0 <= i < |b.susps| && b.susps[i].Counting? ==> b.susps[i].counter < USIZE
  }

  // ---- what a call does ----

  /** Whether the call is the one that schedules the coroutine. */
  predicate Fires(c: Call, susp: Suspension) {
    match susp
    case Single(consumed) => !consumed
    case Counting(n) => if c.Resume? then n == 1 else n != 0
  }

  function Called(c: Call, susp: Suspension): Suspension {
    match susp
    case Single(_) => Single(true)
    case Counting(n) => Counting(if c.Error? || n == 0 then 0 else n - 1)
  }

  function Emitted(c: Call): Emission { if c.Resume? then Resumed(c.id) else Thrown(c.id) }

  function Perform(b: Board, c: Call): Board {
    if 0 <= c.id < |b.susps| then
      Board(b.susps[c.id := Called(c, b.susps[c.id])],
            if Fires(c, b.susps[c.id]) then b.handles + [Emitted(c)] else b.handles)
    else b
  }

  function PerformAll(b: Board, calls: seq<Call>): Board
    decreases |calls|
  {
    if calls == [] then b else PerformAll(Perform(b, calls[0]), calls[1..])
  }

  // ---- one shot ----

  /** Handles scheduled for suspension `id`. */
  function Shots(b: Board, id: int): int { Count(b.handles, Resumed(id)) + Count(b.handles, Thrown(id)) }

  predicate Armed(b: Board, id: int) {
    0 <= id < |b.susps| && match b.susps[id] case Single(consumed) => !consumed case Counting(n) => n > 0
  }

  lemma OneCall(b: Board, c: Call, id: int)
    ensures Shots(Perform(b, c), id) + B(Armed(Perform(b, c), id)) == Shots(b, id) + B(Armed(b, id))
  {
    CountPush(b.handles, Emitted(c), Resumed(id));
    CountPush(b.handles, Emitted(c), Thrown(id));
  }

  /** Whatever resumes and errors hit it, in whatever order, a suspension schedules its coroutine once at most,
      and has done so exactly when it is no longer armed. */
  lemma {:induction false} OneShot(b: Board, calls: seq<Call>, id: int)
    ensures var b' := PerformAll(b, calls); Shots(b', id) + B(Armed(b', id)) == Shots(b, id) + B(Armed(b, id))
    decreases |calls|
  {
    if calls != [] {
      OneCall(b, calls[0], id);
      OneShot(Perform(b, calls[0]), calls[1..], id);
    }
  }

  /** An error on an armed suspension, whatever it still waits for, throws into its coroutine once and disarms it; on
      one that is not armed it does nothing. No other suspension is concerned. */
  lemma ErrorExact(b: Board, id: int, other: int)
    requires 0 <= id < |b.susps|
    ensures var b' := Perform(b, Error(id));
      && !Armed(b', id)
      && b'.handles == (if Armed(b, id) then b.handles + [Thrown(id)] else b.handles)
      && (other != id ==> Armed(b', other) == Armed(b, other))
      && Count(b'.handles, Thrown(id)) == Count(b.handles, Thrown(id)) + B(Armed(b, id))
      && Count(b'.handles, Resumed(id)) == Count(b.handles, Resumed(id))
  {
    CountPush(b.handles, Thrown(id), Thrown(id));
    CountPush(b.handles, Thrown(id), Resumed(id));
  }

  // ---- notification ----

  /** Wake the watchers in order. */
  function WakeAll(b: Board, ids: seq<int>): Board
    decreases |ids|
  {
    if ids == [] then b else WakeAll(Perform(b, Resume(ids[0])), ids[1..])
  }

  /** A suspension is resumed by a notification exactly when it was armed and is watched at least as often as
      it still has events to wait for. */
  lemma {:induction false} NotifyExact(b: Board, ids: seq<int>, id: int)
    requires 0 <= id < |b.susps|
    ensures var b', n := WakeAll(b, ids), Count(ids, id);
      && |b'.susps| == |b.susps|
      && (match b.susps[id]
          case Single(consumed) => b'.susps[id] == Single(consumed || n > 0)
          case Counting(c) => b'.susps[id] == Counting(if n >= c then 0 else c - n))
      && Count(b'.handles, Resumed(id)) == Count(b.handles, Resumed(id))
           + (match b.susps[id] case Single(consumed) => B(!consumed && n > 0) case Counting(c) => B(0 < c <= n))
    decreases |ids|
  {
    if ids != [] {
      CountPush(b.handles, Resumed(ids[0]), Resumed(id));
      NotifyExact(Perform(b, Resume(ids[0])), ids[1..], id);
    }
  }

  /** `is_dead`: only a suspension without a sentinel is ever marked consumed. */
  predicate Dead(b: Board, id: int) { 0 <= id < |b.susps| && b.susps[id] == Single(true) }

  lemma {:induction false} WakeAllAppend(b: Board, ids: seq<int>, id: int)
    ensures WakeAll(b, ids + [id]) == Perform(WakeAll(b, ids), Resume(id))
    decreases |ids|
  {
    if ids == [] {
      assert ids + [id] == [id];
    } else {
      assert (ids + [id])[1..] == ids[1..] + [id];
      WakeAllAppend(Perform(b, Resume(ids[0])), ids[1..], id);
    }
  }

  lemma {:induction false} DeadStaysDead(b: Board, ids: seq<int>, id: int)
    requires Dead(b, id)
    ensures Dead(WakeAll(b, ids), id)
    decreases |ids|
  {
    if ids != [] {
      DeadStaysDead(Perform(b, Resume(ids[0])), ids[1..], id);
    }
  }

  /** Dropping stale watchers from the back changes nothing about a later notification. */
  lemma {:induction false} StaleIsHarmless(b: Board, ids: seq<int>, n: nat)
    requires n <= |ids| && forall i :: n <= i < |ids| ==> Dead(b, ids[i])
    ensures WakeAll(b, ids) == WakeAll(b, ids[..n])
    decreases |ids|
  {
    if n < |ids| {
      var last := |ids| - 1;
      assert ids == ids[..last] + [ids[last]];
      WakeAllAppend(b, ids[..last], ids[last]);
      DeadStaysDead(b, ids[..last], ids[last]);
      StaleIsHarmless(b, ids[..last], n);
      assert ids[..last][..n] == ids[..n];
      var b' := WakeAll(b, ids[..last]);
      assert b'.susps[ids[last] := Single(true)] == b'.susps;
    } else {
      assert ids[..n] == ids;
    }
  }

  // ---- the objects ----

  class Runtime {
    var board: Board

    constructor ()
      ensures board == Board([], [])
    {
      board := Board([], []);
    }

    /** `resume`, with the sentinel's decrement on a machine word that wraps. */
    method Resume(id: nat)
      requires id < |board.susps| && Words(board)
      modifies this
      ensures board == Perform(old(board), Call.Resume(id)) && Words(board)
    {
      var susps, fires := board.susps, false;
      match susps[id] {
        case Single(consumed) =>
          fires := !consumed;
          susps := susps[id := Single(true)];
        case Counting(prev) =>
          var counter := (prev - 1) % USIZE;
          if prev == 0 {
            counter := (counter + 1) % USIZE;
          }
          fires := prev == 1;
          susps := susps[id := Counting(counter)];
      }
      board := Board(susps, if fires then board.handles + [Resumed(id)] else board.handles);
    }

    /** `error`. */
    method Error(id: nat)
      requires id < |board.susps| && Words(board)
      modifies this
      ensures board == Perform(old(board), Call.Error(id)) && Words(board)
    {
      var susps, fires := board.susps, false;
      match susps[id] {
        case Single(consumed) =>
          fires := !consumed;
          susps := susps[id := Single(true)];
        case Counting(counter) =>
          fires := counter != 0;
          susps := susps[id := Counting(0)];
      }
      board := Board(susps, if fires then board.handles + [Thrown(id)] else board.handles);
    }
  }

  predicate Known(b: Board, ids: seq<int>) { forall i :: 0 <= i < |ids| ==> 0 <= ids[i] < |b.susps| }

  class Event {
    var flag: bool
    var watchers: seq<int>
    var dirty: bool

    /** Without the dirty mark there is nothing to prune. */
    ghost predicate Valid()
      reads this
    {
      watchers != [] ==> dirty
    }

    constructor ()
      ensures Valid() && !flag && watchers == []
    {
      flag, watchers, dirty := false, [], false;
    }

    method Notify(rt: Runtime)
      requires Known(rt.board, watchers) && Words(rt.board)
      modifies this`watchers, this`dirty, rt
      ensures Valid() && watchers == [] && !dirty
      ensures rt.board == WakeAll(old(rt.board), old(watchers)) && Words(rt.board)
    {
      while watchers != []
        invariant Known(rt.board, watchers) && Words(rt.board)
        invariant WakeAll(rt.board, watchers) == WakeAll(old(rt.board), old(watchers))
        decreases |watchers|
      {
        var waker := watchers[0];
        watchers := watchers[1..];
        rt.Resume(waker);
      }
      dirty := false;
    }

    method Set(rt: Runtime) returns (first: bool)
      requires Valid() && Known(rt.board, watchers) && Words(rt.board)
      modifies this, rt
      ensures Valid() && flag && first == !old(flag) && Words(rt.board)
      ensures first ==> watchers == [] && rt.board == WakeAll(old(rt.board), old(watchers))
      ensures !first ==> watchers == old(watchers) && dirty == old(dirty) && rt.board == old(rt.board)
    {
      first := !flag;
      if first {
        flag := true;
        Notify(rt);
      }
    }

    /** A waker added to a set event fires at once. */
    method AddWaker(rt: Runtime, id: nat)
      requires Valid() && id < |rt.board.susps| && Words(rt.board)
      modifies this`watchers, this`dirty, rt
      ensures Valid() && Words(rt.board)
      ensures flag ==> watchers == old(watchers) && rt.board == Perform(old(rt.board), Resume(id))
      ensures !flag ==> watchers == old(watchers) + [id] && rt.board == old(rt.board)
    {
      if flag {
        rt.Resume(id);
        return;
      }
      watchers := watchers + [id];
      dirty := true;
    }

    /** Drops the longest tail of dead watchers, and no live one; a later notification does the same. */
    method RemStaleWakers(rt: Runtime)
      requires Valid()
      modifies this`watchers, this`dirty
      ensures Valid() && watchers <= old(watchers)
      ensures dirty == (old(dirty) && watchers != [])
      ensures forall i :: |watchers| <= i < |old(watchers)| ==> Dead(rt.board, old(watchers)[i])
      ensures watchers != [] ==> !Dead(rt.board, watchers[|watchers| - 1])
      ensures WakeAll(rt.board, watchers) == WakeAll(rt.board, old(watchers))
    {
      while watchers != [] && Dead(rt.board, watchers[|watchers| - 1])
        invariant watchers <= old(watchers)
        invariant dirty == old(dirty) && (watchers != [] ==> dirty)
        invariant forall i :: |watchers| <= i < |old(watchers)| ==> Dead(rt.board, old(watchers)[i])
        decreases |watchers|
      {
        watchers := watchers[..|watchers| - 1];
      }
      assert watchers == old(watchers)[..|watchers|];
      StaleIsHarmless(rt.board, old(watchers), |watchers|);
      if watchers == [] {
        dirty := false;
      }
    }

    /** Preparing a new waiter prunes only when the dirty mark is up, and that is enough. */
    method Prune(rt: Runtime)
      requires Valid()
      modifies this`watchers, this`dirty
      ensures Valid() && watchers <= old(watchers)
      ensures watchers != [] ==> !Dead(rt.board, watchers[|watchers| - 1])
      ensures WakeAll(rt.board, watchers) == WakeAll(rt.board, old(watchers))
    {
      if dirty {
        RemStaleWakers(rt);
      }
    }
  }
}
