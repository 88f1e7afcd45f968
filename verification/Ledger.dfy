/** Integer ledgers: the sum of a weight over every thread of a step system. */
module Ledger {

  /** The number of values of the machine word that the counters of the source are kept in. */
  const USIZE := 0x1_0000_0000_0000_0000

  function B(b: bool): int { if b then 1 else 0 }

  function Sum<T>(ts: seq<T>, weight: T -> int): int {
    if ts == [] then 0 else weight(ts[0]) + Sum(ts[1..], weight)
  }

  /** One thread changes: the total changes by the difference of its two weights. */
  lemma {:induction false} SumUpdate<T>(ts: seq<T>, i: nat, t: T, weight: T -> int)
    requires i < |ts|
    ensures Sum(ts[i := t], weight) == Sum(ts, weight) - weight(ts[i]) + weight(t)
  {
    if i == 0 {
      assert ts[0 := t][1..] == ts[1..];
    } else {
      assert ts[i := t][1..] == ts[1..][i - 1 := t];
      SumUpdate(ts[1..], i - 1, t, weight);
    }
  }

  /** A thread arrives. */
  lemma {:induction false} SumAppend<T>(ts: seq<T>, t: T, weight: T -> int)
    ensures Sum(ts + [t], weight) == Sum(ts, weight) + weight(t)
  {
    if ts == [] {
      assert ts + [t] == [t];
    } else {
      assert (ts + [t])[1..] == ts[1..] + [t];
      SumAppend(ts[1..], t, weight);
    }
  }

  /** No thread weighs more than the total when every weight is non-negative. */
  lemma {:induction false} SumAtLeast<T>(ts: seq<T>, i: nat, weight: T -> int)
    requires i < |ts|
    requires forall j :: 0 <= j < |ts| ==> weight(ts[j]) >= 0
    ensures Sum(ts, weight) >= weight(ts[i])
  {
    SumNonNegative(ts[1..], weight);
    if i > 0 {
      SumAtLeast(ts[1..], i - 1, weight);
    }
  }

  lemma {:induction false} SumNonNegative<T>(ts: seq<T>, weight: T -> int)
    requires forall j :: 0 <= j < |ts| ==> weight(ts[j]) >= 0
    ensures Sum(ts, weight) >= 0
  {
    if ts != [] {
      SumNonNegative(ts[1..], weight);
    }
  }

  /** Two threads together weigh no more than the total. */
  lemma {:induction false} SumAtLeastTwo<T>(ts: seq<T>, i: nat, j: nat, weight: T -> int)
    requires i < j < |ts|
    requires forall k :: 0 <= k < |ts| ==> weight(ts[k]) >= 0
    ensures Sum(ts, weight) >= weight(ts[i]) + weight(ts[j])
  {
    if i == 0 {
      SumAtLeast(ts[1..], j - 1, weight);
    } else {
      SumAtLeastTwo(ts[1..], i - 1, j - 1, weight);
    }
  }

  /** A positive total has a thread behind it. */
  lemma {:induction false} SumWitness<T>(ts: seq<T>, weight: T -> int) returns (i: nat)
    requires Sum(ts, weight) > 0
    ensures i < |ts| && weight(ts[i]) > 0
  {
    if weight(ts[0]) > 0 {
      i := 0;
    } else {
      i := SumWitness(ts[1..], weight);
      i := i + 1;
    }
  }

  /** Weights that agree on every thread have the same total. */
  lemma {:induction false} SumZero<T>(ts: seq<T>, weight: T -> int)
    requires forall j :: 0 <= j < |ts| ==> weight(ts[j]) == 0
    ensures Sum(ts, weight) == 0
  {
    if ts != [] {
      SumZero(ts[1..], weight);
    }
  }

  /** The total of a pointwise difference. */
  lemma {:induction false} SumCompare<T>(ts: seq<T>, lower: T -> int, upper: T -> int)
    requires forall j :: 0 <= j < |ts| ==> lower(ts[j]) <= upper(ts[j])
    ensures Sum(ts, lower) <= Sum(ts, upper)
  {
    if ts != [] {
      SumCompare(ts[1..], lower, upper);
    }
  }

  /** Occurrences of `x` in a queue. */
  function Count<T(==)>(q: seq<T>, x: T): nat {
    if q == [] then 0 else (if q[0] == x then 1 else 0) + Count(q[1..], x)
  }

  lemma {:induction false} CountPush<T>(q: seq<T>, y: T, x: T)
    ensures Count(q + [y], x) == Count(q, x) + Count([y], x)
  {
    if q == [] {
      assert q + [y] == [y];
    } else {
      assert (q + [y])[1..] == q[1..] + [y];
      CountPush(q[1..], y, x);
    }
  }

  lemma {:induction false} CountConcat<T>(q: seq<T>, r: seq<T>, x: T)
    ensures Count(q + r, x) == Count(q, x) + Count(r, x)
  {
    if q == [] {
      assert q + r == r;
    } else {
      assert (q + r)[1..] == q[1..] + r;
      CountConcat(q[1..], r, x);
    }
  }

  lemma CountPopFront<T>(q: seq<T>, x: T)
    requires q != []
    ensures Count(q, x) == Count([q[0]], x) + Count(q[1..], x)
  {
  }

  lemma CountPopBack<T>(q: seq<T>, x: T)
    requires q != []
    ensures Count(q, x) == Count(q[..|q| - 1], x) + Count([q[|q| - 1]], x)
  {
    assert q == q[..|q| - 1] + [q[|q| - 1]];
    CountPush(q[..|q| - 1], q[|q| - 1], x);
  }

  lemma {:induction false} CountZero<T>(q: seq<T>, x: T)
    requires forall i :: 0 <= i < |q| ==> q[i] != x
    ensures Count(q, x) == 0
  {
    if q != [] {
      CountZero(q[1..], x);
    }
  }
}
