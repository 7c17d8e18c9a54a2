/** `percentile` of `scripts/action_summary.py`: linear interpolation between order statistics. */
module Percentile {
  import opened Records

  // ---- Sorting ----------------------------------------------------------------

  function Place(x: real, sorted: seq<real>): seq<real> {
    if sorted == [] || x <= sorted[0] then [x] + sorted else [sorted[0]] + Place(x, sorted[1..])
  }

  function Sort(values: seq<real>): seq<real> {
    if values == [] then [] else Place(values[0], Sort(values[1..]))
  }

  predicate Sorted(s: seq<real>) {
    forall i, j :: 0 <= i <= j < |s| ==> s[i] <= s[j]
  }

  lemma {:induction false} PlaceKeeps(x: real, s: seq<real>)
    ensures multiset(Place(x, s)) == multiset(s) + multiset{x}
  {
    if s != [] && x > s[0] {
      PlaceKeeps(x, s[1..]);
      assert s == [s[0]] + s[1..];
    }
  }

  predicate AtMost(low: real, s: seq<real>) {
    forall i :: 0 <= i < |s| ==> low <= s[i]
  }

  lemma {:induction false} SortedCons(low: real, s: seq<real>)
    requires Sorted(s) && AtMost(low, s)
    ensures Sorted([low] + s)
  {
  }

  lemma {:induction false} PlaceSorted(x: real, s: seq<real>, low: real)
    requires Sorted(s) && AtMost(low, s) && low <= x
    ensures Sorted(Place(x, s)) && AtMost(low, Place(x, s))
  {
    if s == [] || x <= s[0] {
      SortedCons(x, s);
    } else {
      PlaceSorted(x, s[1..], s[0]);
      SortedCons(s[0], Place(x, s[1..]));
    }
  }

  lemma {:induction false} SortSorts(values: seq<real>)
    ensures Sorted(Sort(values)) && multiset(Sort(values)) == multiset(values) && |Sort(values)| == |values|
  {
    if values != [] {
      SortSorts(values[1..]);
      var sorted := Sort(values[1..]);
      var low := if sorted == [] || values[0] <= sorted[0] then values[0] else sorted[0];
      PlaceSorted(values[0], sorted, low);
      PlaceKeeps(values[0], sorted);
      assert values == [values[0]] + values[1..];
      assert |Sort(values)| == |multiset(Sort(values))|;
      assert |values| == |multiset(values)|;
    }
  }

  lemma {:induction false} FirstIsLeast(a: seq<real>, b: seq<real>)
    requires Sorted(a) && Sorted(b) && multiset(a) == multiset(b) && a != [] && b != []
    ensures a[0] == b[0]
  {
    assert a[0] in multiset(b) && b[0] in multiset(a);
    assert a[0] in b && b[0] in a;
  }

  lemma {:induction false} SortedTail(s: seq<real>)
    requires Sorted(s) && s != []
    ensures Sorted(s[1..])
  {
    assert forall i :: 0 <= i < |s[1..]| ==> s[1..][i] == s[i + 1];
  }

  lemma {:induction false} SortedIsUnique(a: seq<real>, b: seq<real>)
    requires Sorted(a) && Sorted(b) && multiset(a) == multiset(b)
    ensures a == b
  {
    assert |a| == |multiset(a)| == |multiset(b)| == |b|;
    if a != [] {
      FirstIsLeast(a, b);
      assert a == [a[0]] + a[1..] && b == [b[0]] + b[1..];
      assert multiset(a[1..]) == multiset(a) - multiset{a[0]};
      assert multiset(b[1..]) == multiset(b) - multiset{b[0]};
      SortedTail(a);
      SortedTail(b);
      SortedIsUnique(a[1..], b[1..]);
    }
  }

  // ---- Interpolation ----------------------------------------------------------

  function Rank(n: nat, p: real): real {
    (n as real - 1.0) * p
  }

  /** `int(k)` of a non-negative k. */
  function Lower(n: nat, p: real): int {
    Rank(n, p).Floor
  }

  function Upper(n: nat, p: real): int {
    if Lower(n, p) + 1 <= n - 1 then Lower(n, p) + 1 else n - 1
  }

  lemma {:induction false} Slope(a: real, b: real, t: real, u: real)
    requires a <= b && t <= u
    ensures (b - a) * t <= (b - a) * u
  {
  }

  lemma {:induction false} RanksInRange(n: nat, p: real)
    requires n > 0 && 0.0 <= p <= 1.0
    ensures 0.0 <= Rank(n, p) <= n as real - 1.0
    ensures 0 <= Lower(n, p) <= Upper(n, p) < n
    ensures Lower(n, p) == Upper(n, p) ==> Lower(n, p) == n - 1
  {
    Slope(1.0, n as real, 0.0, p);
    Slope(1.0, n as real, p, 1.0);
  }

  function Interpolate(s: seq<real>, p: real): real
    requires s != [] && 0.0 <= p <= 1.0
  {
    RanksInRange(|s|, p);
    var f, c := Lower(|s|, p), Upper(|s|, p);
    if f == c then s[f] else s[f] + (s[c] - s[f]) * (Rank(|s|, p) - f as real)
  }

  /** `percentile` */
  function PercentileOf(values: seq<real>, p: real): Option<real>
    requires 0.0 <= p <= 1.0
  {
    if values == [] then None
    else
      SortSorts(values);
      Some(Interpolate(Sort(values), p))
  }

  lemma {:induction false} StaysBetween(low: real, high: real, t: real)
    requires low <= high && 0.0 <= t <= 1.0
    ensures low <= low + (high - low) * t <= high
  {
  }

  lemma {:induction false} InterpolateBetween(s: seq<real>, p: real)
    requires s != [] && Sorted(s) && 0.0 <= p <= 1.0
    ensures var f, c := Lower(|s|, p), Upper(|s|, p);
      0 <= f <= c < |s| && s[f] <= Interpolate(s, p) <= s[c]
  {
    RanksInRange(|s|, p);
    var f, c := Lower(|s|, p), Upper(|s|, p);
    if f != c {
      var t := Rank(|s|, p) - f as real;
      assert 0.0 <= t < 1.0;
      StaysBetween(s[f], s[c], t);
      assert Interpolate(s, p) == s[f] + (s[c] - s[f]) * t;
    }
  }

  lemma {:induction false} RankMonotone(n: nat, p: real, q: real)
    requires n > 0 && p <= q
    ensures Rank(n, p) <= Rank(n, q)
  {
    Slope(1.0, n as real, p, q);
  }

  lemma {:induction false} InterpolateMonotone(s: seq<real>, p: real, q: real)
    requires s != [] && Sorted(s) && 0.0 <= p <= q <= 1.0
    ensures Interpolate(s, p) <= Interpolate(s, q)
  {
    RanksInRange(|s|, p);
    RanksInRange(|s|, q);
    RankMonotone(|s|, p, q);
    var f, g := Lower(|s|, p), Lower(|s|, q);
    if f == g {
      Slope(s[f], s[Upper(|s|, p)], Rank(|s|, p) - f as real, Rank(|s|, q) - f as real);
    } else {
      InterpolateBetween(s, p);
      InterpolateBetween(s, q);
      assert s[Upper(|s|, p)] <= s[g];
    }
  }

  lemma {:induction false} FloorOf(x: real, k: nat)
    requires k as real <= x < k as real + 1.0
    ensures x.Floor == k
  {
  }

  lemma {:induction false} Mean(a: real, b: real, t: real)
    ensures a + (b - a) * t == (1.0 - t) * a + t * b
  {
  }

  lemma {:induction false} InnerRank(s: seq<real>, p: real, k: nat, t: real)
    requires 0.0 <= p <= 1.0 && k + 1 < |s| && 0.0 <= t < 1.0 && Rank(|s|, p) == k as real + t
    ensures Interpolate(s, p) == (1.0 - t) * s[k] + t * s[k + 1]
  {
    RanksInRange(|s|, p);
    FloorOf(Rank(|s|, p), k);
    assert Rank(|s|, p) - k as real == t;
    assert Interpolate(s, p) == s[k] + (s[k + 1] - s[k]) * t;
    Mean(s[k], s[k + 1], t);
  }

  lemma {:induction false} AtRank(s: seq<real>, p: real, k: nat)
    requires 0.0 <= p <= 1.0 && k < |s| && Rank(|s|, p) == k as real
    ensures Interpolate(s, p) == s[k]
  {
    RanksInRange(|s|, p);
    FloorOf(Rank(|s|, p), k);
    if k + 1 < |s| { InnerRank(s, p, k, 0.0); }
  }

  lemma {:induction false} PercentileIs(values: seq<real>, s: seq<real>, p: real)
    requires Sorted(s) && multiset(s) == multiset(values) && values != [] && 0.0 <= p <= 1.0
    ensures |s| == |values| && PercentileOf(values, p) == Some(Interpolate(s, p))
  {
    SortSorts(values);
    SortedIsUnique(Sort(values), s);
    assert |multiset(values)| == |values| && |multiset(s)| == |s|;
  }

  /** Between two neighbouring ranks the percentile is the weighted mean of the sorted values there. */
  lemma {:induction false} WeightedMean(values: seq<real>, s: seq<real>, p: real, k: nat, t: real)
    requires Sorted(s) && multiset(s) == multiset(values)
    requires 0.0 <= p <= 1.0 && k + 1 < |s| && 0.0 <= t < 1.0 && Rank(|s|, p) == k as real + t
    ensures PercentileOf(values, p) == Some((1.0 - t) * s[k] + t * s[k + 1])
  {
    assert s[0] in multiset(values);
    PercentileIs(values, s, p);
    var mean := (1.0 - t) * s[k] + t * s[k + 1];
    assert PercentileOf(values, p) == Some(Interpolate(s, p));
    InnerRank(s, p, k, t);
    assert Interpolate(s, p) == mean;
  }

  /** At a rank it is the sorted value there, from the least at 0 to the greatest at 1. */
  lemma {:induction false} OrderStatistics(values: seq<real>, s: seq<real>, p: real, k: nat)
    requires Sorted(s) && multiset(s) == multiset(values)
    requires 0.0 <= p <= 1.0 && k < |s| && Rank(|s|, p) == k as real
    ensures PercentileOf(values, p) == Some(s[k])
  {
    assert s[0] in multiset(values);
    PercentileIs(values, s, p);
    assert PercentileOf(values, p) == Some(Interpolate(s, p));
    AtRank(s, p, k);
    assert Interpolate(s, p) == s[k];
  }

  lemma {:induction false} HalfWeights(a: real, b: real)
    ensures (1.0 - 0.5) * a + 0.5 * b == (a + b) / 2.0
  {
  }

  /** The median of an even number of values is the mean of the two in the middle. */
  lemma {:induction false} MedianOfEven(values: seq<real>, s: seq<real>, n: nat)
    requires Sorted(s) && multiset(s) == multiset(values) && |s| == 2 * n && n > 0
    ensures PercentileOf(values, 0.5) == Some((s[n - 1] + s[n]) / 2.0)
  {
    assert (2 * n) as real == 2.0 * n as real;
    assert s[0] in multiset(values);
    PercentileIs(values, s, 0.5);
    InnerRank(s, 0.5, n - 1, 0.5);
    HalfWeights(s[n - 1], s[n]);
    assert Interpolate(s, 0.5) == (s[n - 1] + s[n]) / 2.0;
  }

  /** The percentile lies between the two adjacent order statistics, never falls as p grows,
      even across segments, and depends only on the multiset of values. */
  lemma {:induction false} PercentileIsSound(values: seq<real>, others: seq<real>, p: real, q: real)
    requires values != [] && multiset(values) == multiset(others) && 0.0 <= p <= q <= 1.0
    ensures var s := Sort(values); var f, c := Lower(|values|, p), Upper(|values|, p);
      |s| == |values| && 0 <= f <= c < |s| && s[f] <= PercentileOf(values, p).value <= s[c]
    ensures PercentileOf(values, p).value <= PercentileOf(values, q).value
    ensures PercentileOf(others, p) == PercentileOf(values, p)
    ensures PercentileOf([], p) == None
  {
    SortSorts(values);
    SortSorts(others);
    InterpolateBetween(Sort(values), p);
    InterpolateMonotone(Sort(values), p, q);
    SortedIsUnique(Sort(values), Sort(others));
    assert |multiset(values)| == |values| && |multiset(others)| == |others|;
  }
}
