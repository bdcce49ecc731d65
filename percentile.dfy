/**
 * `percentile_from_sorted`: a linearly interpolated percentile over an
 * ascending list, and the ascending sort (`list.sort()`) that produces its input.
 */
module Percentile {
  import opened Wrappers
  import opened RealArith

  predicate Sorted(s: seq<real>) {
    forall i, j :: 0 <= i <= j < |s| ==> s[i] <= s[j]
  }

  /** `q * (n - 1)` stays inside `[0, n - 1]` for a quantile in `[0, 1]`. */
  lemma ScaleBounds(q: real, m: real)
    requires 0.0 <= q <= 1.0 && m >= 0.0
    ensures 0.0 <= q * m <= m
  {
  }

  /** The real index the quantile lands on. */
  function Position(n: nat, q: real): (p: real)
    requires n > 0 && 0.0 <= q <= 1.0
    ensures 0.0 <= p <= (n - 1) as real
  {
    ScaleBounds(q, (n - 1) as real);
    q * (n - 1) as real
  }

  /** `math.ceil`. */
  function Ceil(x: real): (c: int)
    ensures c as real >= x && c - 1 < x.Floor + 1
    ensures c == x.Floor <==> x.Floor as real == x
  {
    if x.Floor as real == x then x.Floor else x.Floor + 1
  }

  /**
   * `percentile_from_sorted`: nothing for an empty list, the only element of
   * a singleton, the element at an integral position, and otherwise the
   * straight line between the two neighbouring elements.
   */
  function PercentileFromSorted(s: seq<real>, q: real): (r: Option<real>)
    requires 0.0 <= q <= 1.0
    ensures r.None? <==> s == []
    ensures |s| == 1 ==> r == Some(s[0])
  {
    if s == [] then None
    else if |s| == 1 then Some(s[0])
    else
      var position := Position(|s|, q);
      var lower, upper := position.Floor, Ceil(position);
      if lower == upper then Some(s[lower])
      else Some(s[lower] + (s[upper] - s[lower]) * (position - lower as real))
  }

  /** At an integral position the percentile is exactly that element. */
  lemma PercentileAtIndex(s: seq<real>, q: real, k: nat)
    requires 0.0 <= q <= 1.0 && |s| > 0
    requires q * (|s| - 1) as real == k as real
    ensures k < |s|
    ensures PercentileFromSorted(s, q) == Some(s[k])
  {
    assert Position(|s|, q) == k as real;
    assert (k as real).Floor == k;
  }

  /** The 0th percentile is the first element and the 100th the last. */
  lemma PercentileEnds(s: seq<real>)
    requires |s| > 0
    ensures PercentileFromSorted(s, 0.0) == Some(s[0])
    ensures PercentileFromSorted(s, 1.0) == Some(s[|s| - 1])
  {
    PercentileAtIndex(s, 0.0, 0);
    PercentileAtIndex(s, 1.0, |s| - 1);
  }

  lemma InterpolationBetween(a: real, b: real, t: real)
    requires a <= b && 0.0 <= t <= 1.0
    ensures a <= a + (b - a) * t
    ensures a + (b - a) * t <= b
  {
    var d := b - a;
    NonNegativeProduct(d, t);
    NonNegativeProduct(d, 1.0 - t);
    assert d * (1.0 - t) == d - d * t;
  }

  /** On a sorted list the percentile lies between the neighbours of its position. */
  lemma PercentileBetweenNeighbours(s: seq<real>, q: real)
    requires 0.0 <= q <= 1.0 && |s| > 0 && Sorted(s)
    ensures var p := Position(|s|, q);
      var r := PercentileFromSorted(s, q).value;
      s[p.Floor] <= r <= s[Ceil(p)]
  {
    var p := Position(|s|, q);
    if |s| > 1 && p.Floor != Ceil(p) {
      InterpolationBetween(s[p.Floor], s[Ceil(p)], p - p.Floor as real);
    }
  }

  /** On a sorted list the percentile lies between the minimum and the maximum. */
  lemma PercentileWithinRange(s: seq<real>, q: real)
    requires 0.0 <= q <= 1.0 && |s| > 0 && Sorted(s)
    ensures s[0] <= PercentileFromSorted(s, q).value <= s[|s| - 1]
  {
    PercentileBetweenNeighbours(s, q);
  }

  /** A straight line with a non-negative slope does not fall. */
  lemma InterpolationMonotone(a: real, b: real, t1: real, t2: real)
    requires a <= b && t1 <= t2
    ensures a + (b - a) * t1 <= a + (b - a) * t2
  {
    assert (b - a) * t2 - (b - a) * t1 == (b - a) * (t2 - t1);
    NonNegativeProduct(b - a, t2 - t1);
  }

  /** Positions grow with the quantile. */
  lemma PositionMonotone(n: nat, q1: real, q2: real)
    requires n > 0 && 0.0 <= q1 <= q2 <= 1.0
    ensures Position(n, q1) <= Position(n, q2)
  {
    assert Position(n, q2) - Position(n, q1) == (q2 - q1) * (n - 1) as real;
    NonNegativeProduct(q2 - q1, (n - 1) as real);
  }

  /** On a sorted list a larger quantile never gives a smaller percentile. */
  lemma PercentileMonotone(s: seq<real>, q1: real, q2: real)
    requires 0.0 <= q1 <= q2 <= 1.0 && |s| > 0 && Sorted(s)
    ensures PercentileFromSorted(s, q1).value <= PercentileFromSorted(s, q2).value
  {
    if |s| > 1 {
      var p1, p2 := Position(|s|, q1), Position(|s|, q2);
      PositionMonotone(|s|, q1, q2);
      PercentileBetweenNeighbours(s, q1);
      PercentileBetweenNeighbours(s, q2);
      if p1.Floor < p2.Floor {
        assert Ceil(p1) <= p2.Floor;
      } else if p1.Floor != Ceil(p1) && p2.Floor != Ceil(p2) {
        InterpolationMonotone(s[p1.Floor], s[Ceil(p1)], p1 - p1.Floor as real, p2 - p2.Floor as real);
      }
    }
  }

  // ---------------------------------------------------------------------
  // Sorting

  lemma SortedCons(h: real, t: seq<real>)
    requires Sorted(t)
    requires forall y :: y in t ==> h <= y
    ensures Sorted([h] + t)
  {
    forall i, j | 0 <= i <= j < |t| + 1
      ensures ([h] + t)[i] <= ([h] + t)[j]
    {
      if i > 0 {
        assert ([h] + t)[i] == t[i - 1];
      }
      if j > 0 {
        assert ([h] + t)[j] == t[j - 1];
        assert t[j - 1] in t;
      }
    }
  }

  /** Place `x` before the first element of `s` that is greater or equal. */
  function Insert(x: real, s: seq<real>): (r: seq<real>)
    requires Sorted(s)
    ensures Sorted(r)
    ensures multiset(r) == multiset(s) + multiset{x}
  {
    if s == [] || x <= s[0] then [x] + s
    else
      var rest := Insert(x, s[1..]);
      assert s == [s[0]] + s[1..];
      forall y | y in rest
        ensures s[0] <= y
      {
        assert y in multiset(rest);
        if y != x {
          assert y in multiset(s[1..]);
        }
      }
      SortedCons(s[0], rest);
      [s[0]] + rest
  }

  /** `list.sort()`: the ascending arrangement of the same values. */
  function SortAscending(s: seq<real>): (r: seq<real>)
    ensures Sorted(r)
    ensures multiset(r) == multiset(s)
  {
    if s == [] then []
    else
      assert s == s[..|s| - 1] + [s[|s| - 1]];
      Insert(s[|s| - 1], SortAscending(s[..|s| - 1]))
  }
}
