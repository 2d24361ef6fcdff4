/** Shared vocabulary for per-class counts: dictionary lookups with a default,
    sums of a dictionary's values, sums of lists and the arithmetic mean. */
module Aggregates {

  /** An animal class label such as "horse". */
  type ClassName = string

  /** A per-class count dictionary (frame counts, running maxima, predictions). */
  type Counts = map<ClassName, nat>

  /** A value that may be missing, as `None` is in Python. */
  datatype Option<T> = None | Some(value: T)

  /** `d.get(c, 0)`, and also what reading a missing key of a `defaultdict(int)` yields.
      The two cases are repeated as postconditions so that callers need not unfold the body. */
  function Lookup(m: Counts, c: ClassName): (r: nat)
    ensures c in m ==> r == m[c]
    ensures c !in m ==> r == 0
  {
    if c in m then m[c] else 0
  }

  function Max(a: int, b: int): (r: int)
    ensures r >= a && r >= b
    ensures r == a || r == b
  {
    if a >= b then a else b
  }

  /** `sum(m.values())` for a count dictionary. */
  ghost function Total(m: Counts): nat
    decreases m.Keys
  {
    if m == map[] then 0
    else
      var k :| k in m;
      m[k] + Total(m - {k})
  }

  /** `sum(m.values())` for a dictionary of real values. */
  ghost function RealTotal(m: map<ClassName, real>): real
    decreases m.Keys
  {
    if m == map[] then 0.0
    else
      var k :| k in m;
      m[k] + RealTotal(m - {k})
  }

  /** `sum(s)` for a list of integers. */
  function Sum(s: seq<int>): int
  {
    if s == [] then 0 else Sum(s[..|s| - 1]) + s[|s| - 1]
  }

  /** `sum(s)` for a list of reals. */
  function RealSum(s: seq<real>): real
  {
    if s == [] then 0.0 else RealSum(s[..|s| - 1]) + s[|s| - 1]
  }

  lemma SumAppend(s: seq<int>, x: int)
    ensures Sum(s + [x]) == Sum(s) + x
  {
    assert (s + [x])[..|s|] == s;
  }

  lemma RealSumAppend(s: seq<real>, x: real)
    ensures RealSum(s + [x]) == RealSum(s) + x
  {
    assert (s + [x])[..|s|] == s;
  }

  lemma AppendAssoc<T>(a: seq<T>, b: seq<T>, c: seq<T>)
    ensures (a + b) + c == a + (b + c)
  {
  }

  /** `total / n if n else 0`: the mean of n values whose sum is total. */
  function Mean(total: real, n: nat): real
  {
    if n == 0 then 0.0 else total / n as real
  }

  /** The sum of a dictionary's values does not depend on which key is taken first. */
  lemma {:induction false} TotalRemove(m: Counts, k: ClassName)
    requires k in m
    ensures Total(m) == m[k] + Total(m - {k})
    decreases m.Keys
  {
    var j :| j in m && Total(m) == m[j] + Total(m - {j});
    if j != k {
      var m' := m - {j} - {k};
      assert m - {k} - {j} == m';
      TotalRemove(m - {j}, k);
      TotalRemove(m - {k}, j);
    }
  }

  lemma {:induction false} RealTotalRemove(m: map<ClassName, real>, k: ClassName)
    requires k in m
    ensures RealTotal(m) == m[k] + RealTotal(m - {k})
    decreases m.Keys
  {
    var j :| j in m && RealTotal(m) == m[j] + RealTotal(m - {j});
    if j != k {
      var m' := m - {j} - {k};
      assert m - {k} - {j} == m';
      RealTotalRemove(m - {j}, k);
      RealTotalRemove(m - {k}, j);
    }
  }

  /** Adding a fresh key adds its value to the total. */
  lemma TotalInsert(m: Counts, k: ClassName, v: nat)
    requires k !in m
    ensures Total(m[k := v]) == Total(m) + v
  {
    TotalRemove(m[k := v], k);
    assert m[k := v] - {k} == m;
  }

  lemma RealTotalInsert(m: map<ClassName, real>, k: ClassName, v: real)
    requires k !in m
    ensures RealTotal(m[k := v]) == RealTotal(m) + v
  {
    RealTotalRemove(m[k := v], k);
    assert m[k := v] - {k} == m;
  }

  /** Incrementing one entry (the `d[c] += 1` of a defaultdict) raises the total by one. */
  lemma TotalIncrement(m: Counts, k: ClassName)
    ensures Total(m[k := Lookup(m, k) + 1]) == Total(m) + 1
  {
    if k in m {
      TotalRemove(m, k);
      TotalRemove(m[k := m[k] + 1], k);
      assert m[k := m[k] + 1] - {k} == m - {k};
    } else {
      TotalInsert(m, k, 1);
    }
  }

  /** A dictionary dominated key by key by another has a total no larger. */
  lemma {:induction false} TotalMonotone(a: Counts, b: Counts)
    requires forall k | k in a :: k in b && a[k] <= b[k]
    ensures Total(a) <= Total(b)
    decreases a.Keys
  {
    if a != map[] {
      var k :| k in a;
      TotalRemove(a, k);
      TotalRemove(b, k);
      TotalMonotone(a - {k}, b - {k});
    }
  }

  /** The total is zero exactly when every value is zero. */
  lemma {:induction false} TotalZero(m: Counts)
    ensures Total(m) == 0 <==> forall k | k in m :: m[k] == 0
    decreases m.Keys
  {
    if m != map[] {
      var k :| k in m;
      TotalRemove(m, k);
      TotalZero(m - {k});
      if forall j | j in m :: m[j] == 0 {
        assert m[k] == 0;
        assert forall j | j in m - {k} :: (m - {k})[j] == 0;
      }
      if Total(m) == 0 {
        forall j | j in m
          ensures m[j] == 0
        {
          if j != k {
            assert j in m - {k};
          }
        }
      }
    }
  }

  lemma {:induction false} RealTotalNonNegative(m: map<ClassName, real>)
    requires forall k | k in m :: m[k] >= 0.0
    ensures RealTotal(m) >= 0.0
    decreases m.Keys
  {
    if m != map[] {
      var k :| k in m;
      RealTotalRemove(m, k);
      RealTotalNonNegative(m - {k});
    }
  }

  /** A list whose entries are all at least lo sums to at least |s|*lo. */
  lemma {:induction false} RealSumAtLeast(s: seq<real>, lo: real)
    requires forall i | 0 <= i < |s| :: lo <= s[i]
    ensures |s| as real * lo <= RealSum(s)
  {
    if s != [] {
      RealSumAtLeast(s[..|s| - 1], lo);
    }
  }

  /** A list whose entries are all at most hi sums to at most |s|*hi. */
  lemma {:induction false} RealSumAtMost(s: seq<real>, hi: real)
    requires forall i | 0 <= i < |s| :: s[i] <= hi
    ensures RealSum(s) <= |s| as real * hi
  {
    if s != [] {
      RealSumAtMost(s[..|s| - 1], hi);
    }
  }

  /** The mean of values that all lie in [lo, hi] lies in [lo, hi]. */
  lemma MeanBounds(s: seq<real>, lo: real, hi: real)
    requires |s| > 0
    requires forall i | 0 <= i < |s| :: lo <= s[i] <= hi
    ensures lo <= Mean(RealSum(s), |s|) <= hi
  {
    RealSumAtLeast(s, lo);
    RealSumAtMost(s, hi);
    MeanBetween(RealSum(s), |s| as real, lo, hi);
  }

  /** The mean of non-negative values is non-negative. */
  lemma MeanNonNegative(s: seq<real>)
    requires forall i | 0 <= i < |s| :: 0.0 <= s[i]
    ensures Mean(RealSum(s), |s|) >= 0.0
  {
    RealSumAtLeast(s, 0.0);
  }

  /** A mean is zero exactly when there is nothing to average or the sum is zero. */
  lemma MeanZero(total: real, n: nat)
    ensures Mean(total, n) == 0.0 <==> n == 0 || total == 0.0
  {
    if n > 0 && total / n as real == 0.0 {
      assert total == (total / n as real) * n as real;
    }
  }

  lemma MeanBetween(total: real, n: real, lo: real, hi: real)
    requires n >= 1.0
    requires n * lo <= total <= n * hi
    ensures lo <= total / n <= hi
  {
    var r := total / n;
    assert r * n == total;
  }

  /** Sums a count dictionary's values, one key at a time, as Python's `sum(d.values())` does. */
  method SumValues(m: Counts) returns (total: nat)
    ensures total == Total(m)
  {
    total := 0;
    var rest := m;
    while rest != map[]
      invariant forall k | k in rest :: k in m && rest[k] == m[k]
      invariant total + Total(rest) == Total(m)
      decreases rest.Keys
    {
      var k :| k in rest;
      TotalRemove(rest, k);
      total := total + rest[k];
      rest := rest - {k};
    }
  }
}
