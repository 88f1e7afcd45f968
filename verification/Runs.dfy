/** Runs of a step system, given by its initial states and its steps. */
module Runs {

  /** A finite run: it begins in an initial state and every state follows from the one before. */
  ghost predicate IsRun<S>(initial: S -> bool, next: (S, S) -> bool, run: seq<S>) {
    && run != []
    && initial(run[0])
    && forall i :: 0 <= i < |run| - 1 ==> next(run[i], run[i + 1])
  }

  /** Some run leads to `s`. */
  ghost predicate Reachable<S(!new)>(initial: S -> bool, next: (S, S) -> bool, s: S) {
    exists run :: IsRun(initial, next, run) && run[|run| - 1] == s
  }

  /** What holds at first and is kept by every step holds in every reachable state. */
  lemma Always<S(!new)>(initial: S -> bool, next: (S, S) -> bool, inv: S -> bool, s: S)
    requires Reachable(initial, next, s)
    requires forall r :: initial(r) ==> inv(r)
    requires forall r, r' :: inv(r) && next(r, r') ==> inv(r')
    ensures inv(s)
  {
    var run :| IsRun(initial, next, run) && run[|run| - 1] == s;
    AlongRun(initial, next, inv, run);
  }

  lemma {:induction false} AlongRun<S(!new)>(initial: S -> bool, next: (S, S) -> bool, inv: S -> bool, run: seq<S>)
    requires IsRun(initial, next, run)
    requires forall r :: initial(r) ==> inv(r)
    requires forall r, r' :: inv(r) && next(r, r') ==> inv(r')
    ensures inv(run[|run| - 1])
  {
    if |run| > 1 {
      AlongRun(initial, next, inv, run[..|run| - 1]);
      assert next(run[|run| - 2], run[|run| - 1]);
    }
  }

  lemma Begin<S(!new)>(initial: S -> bool, next: (S, S) -> bool, s: S)
    requires initial(s)
    ensures Reachable(initial, next, s)
  {
    assert IsRun(initial, next, [s]);
  }

  lemma Extend<S(!new)>(initial: S -> bool, next: (S, S) -> bool, s: S, s': S)
    requires Reachable(initial, next, s) && next(s, s')
    ensures Reachable(initial, next, s')
  {
    var run :| IsRun(initial, next, run) && run[|run| - 1] == s;
    assert IsRun(initial, next, run + [s']);
    assert (run + [s'])[|run|] == s';
  }

  /** A relation to companions that every step can carry along relates every run to a sequence of companions. */
  lemma {:induction false} Lift<S(!new), X(!new)>(
    initial: S -> bool, next: (S, S) -> bool, run: seq<S>, rel: (S, X) -> bool, follows: (S, X, S, X) -> bool, x0: X)
    returns (xs: seq<X>)
    requires IsRun(initial, next, run) && rel(run[0], x0)
    requires forall s, x, s' :: rel(s, x) && next(s, s') ==> exists x' :: rel(s', x') && follows(s, x, s', x')
    ensures |xs| == |run| && xs[0] == x0
    ensures forall i :: 0 <= i < |run| ==> rel(run[i], xs[i])
    ensures forall i :: 0 <= i < |run| - 1 ==> follows(run[i], xs[i], run[i + 1], xs[i + 1])
    decreases |run|
  {
    if |run| == 1 {
      xs := [x0];
    } else {
      var n := |run| - 1;
      var before := Lift(initial, next, run[..n], rel, follows, x0);
      assert rel(run[n - 1], before[n - 1]) && next(run[n - 1], run[n]);
      var x :| rel(run[n], x) && follows(run[n - 1], before[n - 1], run[n], x);
      xs := before + [x];
    }
  }

  /** Steps lead from `origin` to `s`. */
  ghost predicate Path<S(!new)>(next: (S, S) -> bool, origin: S, s: S) { Reachable(x => x == origin, next, s) }

  lemma Stays<S(!new)>(next: (S, S) -> bool, s: S)
    ensures Path(next, s, s)
  {
    Begin(x => x == s, next, s);
  }

  lemma Goes<S(!new)>(next: (S, S) -> bool, origin: S, s: S, s': S)
    requires Path(next, origin, s) && next(s, s')
    ensures Path(next, origin, s')
  {
    Extend(x => x == origin, next, s, s');
  }

  /** What every step keeps, a path keeps. */
  lemma AlongPath<S(!new)>(next: (S, S) -> bool, inv: S -> bool, origin: S, s: S)
    requires Path(next, origin, s) && inv(origin)
    requires forall r, r' :: inv(r) && next(r, r') ==> inv(r')
    ensures inv(s)
  {
    Always(x => x == origin, next, inv, s);
  }

  lemma PathOn<S(!new)>(next: (S, S) -> bool, origin: S, s: S, s': S)
    requires Path(next, origin, s) && Path(next, s, s')
    ensures Path(next, origin, s')
  {
    forall r, r' | Path(next, origin, r) && next(r, r') ensures Path(next, origin, r') {
      Goes(next, origin, r, r');
    }
    AlongPath(next, r => Path(next, origin, r), s, s');
  }
}
