/**
 * The approximate-entropy estimator of sc.util.apen: `sc_util_apen_maxdist`
 * and the two counting passes of `sc_util_apen_calculate`, with the pure
 * functions that state what they compute.
 *
 * The source's `maxdist(d0, d1, l, r)` reads only the window at `d0`: it
 * measures the largest gap between two samples of that one window and never
 * dereferences `d1`. So whether pattern i "matches" pattern j depends on i
 * alone, every per-window ratio is 0 or 1, and the average at scale m is the
 * fraction of windows whose samples all lie within r of each other. This
 * model follows that code.
 */
module Entropy {

  function Abs(x: real): real { if x < 0.0 then -x else x }

  /** The absolute difference of two samples of a window. */
  function Gap(w: seq<real>, a: int, b: int): real
    requires 0 <= a < |w| && 0 <= b < |w|
  {
    Abs(w[b] - w[a])
  }

  /** Every pair of samples of `w` lies within `r` of each other. */
  predicate WithinRadius(w: seq<real>, r: real)
  {
    forall a, b :: 0 <= a < b < |w| ==> Gap(w, a, b) <= r
  }

  /** No gap of `w` exceeds `md`. */
  predicate GapsAtMost(w: seq<real>, md: real)
  {
    forall a, b :: 0 <= a < b < |w| ==> Gap(w, a, b) <= md
  }

  /** `md` is one of the gaps of `w`, or 0. */
  predicate IsGapOrZero(w: seq<real>, md: real)
  {
    md == 0.0 || exists a, b :: 0 <= a < b < |w| && md == Gap(w, a, b)
  }

  /** The test `maxdist(window i, window j, m, r) <= r` of the source, for any j. */
  predicate Matches(s: seq<real>, i: nat, m: nat, r: real)
    requires i + m <= |s|
  {
    0.0 <= r && WithinRadius(s[i..i + m], r)
  }

  /** How many of the offsets j < k the inner loop counts for window i. */
  function RowCount(s: seq<real>, i: nat, m: nat, r: real, k: nat): (c: nat)
    requires i + m <= |s|
    ensures c <= k
  {
    if k == 0 then 0 else RowCount(s, i, m, r, k - 1) + (if Matches(s, i, m, r) then 1 else 0)
  }

  /** How many of the windows starting before k match. */
  function FlatCount(s: seq<real>, m: nat, r: real, k: nat): (c: nat)
    requires k + m <= |s| + 1
    ensures c <= k
  {
    if k == 0 then 0 else FlatCount(s, m, r, k - 1) + (if Matches(s, i := k - 1, m := m, r := r) then 1 else 0)
  }

  /** The fraction of the |s| - m + 1 windows of length m that match. */
  function FlatFraction(s: seq<real>, m: nat, r: real): (f: real)
    requires m <= |s|
    ensures 0.0 <= f <= 1.0
  {
    FlatCount(s, m, r, |s| - m + 1) as real / (|s| - m + 1) as real
  }

  /** The floor substituted for a non-positive second average. */
  const Epsilon: real := 0.0000001

  /** The argument the source passes to `log`. */
  function LogArgument(avg0: real, avg1: real): (x: real)
    ensures 0.0 <= avg0 && 0.0 <= avg1 ==> 0.0 <= x
    ensures 0.0 < avg1 && avg0 == avg1 ==> x == 1.0
    ensures avg0 == 0.0 ==> x == 0.0
    ensures 0.0 < avg0 && avg1 <= 0.0 ==> x > avg0
  {
    if avg1 > 0.0 then (QuotientBySelf(avg1); avg0 / avg1) else avg0 / Epsilon
  }

  lemma QuotientBySelf(a: real)
    requires 0.0 < a
    ensures a / a == 1.0
  {
  }

  /** What one calculation produces: the insufficient-data report (with
      whether the warning is printed), or the two averages and the log
      argument. */
  datatype Outcome =
    | Insufficient(required: int, available: int, warned: bool)
    | Computed(avg0: real, avg1: real, logArg: real)

  /** The calculation as a function of the retained samples and the
      configuration. */
  function Estimate(s: seq<real>, m: nat, r: real, warn: bool): (o: Outcome)
    requires 1 <= m
    ensures o.Insufficient? <==> |s| < 2 * m
    ensures o.Insufficient? ==> o == Insufficient(2 * m, |s|, warn)
    ensures o.Computed? ==> 0.0 <= o.avg0 <= 1.0 && 0.0 <= o.avg1 <= 1.0 && 0.0 <= o.logArg
  {
    if |s| < 2 * m then Insufficient(2 * m, |s|, warn)
    else
      var a0 := FlatFraction(s, m, r);
      var a1 := FlatFraction(s, m + 1, r);
      Computed(a0, a1, LogArgument(a0, a1))
  }

  // ---------------------------------------------------------------------
  // Properties of the counting

  /** Each row of the inner loop counts all of its offsets or none of them,
      so each per-window ratio is exactly 1 or 0. */
  lemma {:induction false} RowCountAllOrNothing(s: seq<real>, i: nat, m: nat, r: real, k: nat)
    requires i + m <= |s|
    ensures RowCount(s, i, m, r, k) == if Matches(s, i, m, r) then k else 0
  {
    if k > 0 {
      RowCountAllOrNothing(s, i, m, r, k - 1);
    }
  }

  /** A window of length m + 1 that matches has a matching prefix of length m. */
  lemma LongerMatchImpliesShorter(s: seq<real>, i: nat, m: nat, r: real)
    requires i + m + 1 <= |s|
    ensures Matches(s, i, m + 1, r) ==> Matches(s, i, m, r)
  {
    if Matches(s, i, m + 1, r) {
      var w, u := s[i..i + m + 1], s[i..i + m];
      forall a, b | 0 <= a < b < |u| ensures Gap(u, a, b) <= r {
        assert Gap(u, a, b) == Gap(w, a, b);
      }
    }
  }

  /** No more windows match at length m + 1 than at length m. */
  lemma {:induction false} FlatCountShrinksWithLength(s: seq<real>, m: nat, r: real, k: nat)
    requires k + m + 1 <= |s| + 1
    ensures FlatCount(s, m + 1, r, k) <= FlatCount(s, m, r, k)
  {
    if k > 0 {
      FlatCountShrinksWithLength(s, m, r, k - 1);
      LongerMatchImpliesShorter(s, k - 1, m, r);
    }
  }

  /** When every window considered matches, every one is counted. */
  lemma {:induction false} AllMatchCount(s: seq<real>, m: nat, r: real, k: nat)
    requires k + m <= |s| + 1
    requires forall i :: 0 <= i < k ==> Matches(s, i, m, r)
    ensures FlatCount(s, m, r, k) == k
  {
    if k > 0 {
      AllMatchCount(s, m, r, k - 1);
    }
  }

  /** In a constant series every window matches, for any r >= 0. */
  lemma ConstantSeriesMatches(s: seq<real>, i: nat, m: nat, r: real)
    requires i + m <= |s| && 0.0 <= r
    requires forall k :: 0 <= k < |s| ==> s[k] == s[0]
    ensures Matches(s, i, m, r)
  {
  }

  /** In a constant series every window of length m matches, so the
      fraction of matching windows is 1. */
  lemma ConstantSeriesAllMatch(s: seq<real>, m: nat, r: real)
    requires m <= |s| && 0.0 <= r
    requires forall k :: 0 <= k < |s| ==> s[k] == s[0]
    ensures FlatFraction(s, m, r) == 1.0
  {
    var n := |s| - m + 1;
    forall i | 0 <= i < n ensures Matches(s, i, m, r) {
      ConstantSeriesMatches(s, i, m, r);
    }
    AllMatchCount(s, m, r, n);
  }

  /** A constant series of at least 2m samples gives both averages 1 and
      log argument 1, so the entropy is log 1 = 0. */
  lemma ConstantSeriesHasZeroEntropy(s: seq<real>, m: nat, r: real, warn: bool)
    requires 1 <= m && 2 * m <= |s| && 0.0 < r
    requires forall k :: 0 <= k < |s| ==> s[k] == s[0]
    ensures Estimate(s, m, r, warn) == Computed(1.0, 1.0, 1.0)
  {
    ConstantSeriesAllMatch(s, m, r);
    ConstantSeriesAllMatch(s, m + 1, r);
  }

  /** When no window of length m matches, none of length m + 1 does, and the
      log argument is 0: the floor keeps the division defined but the
      logarithm itself is taken of zero. */
  lemma NoMatchGivesZeroArgument(s: seq<real>, m: nat, r: real)
    requires 1 <= m && 2 * m <= |s|
    requires FlatFraction(s, m, r) == 0.0
    ensures FlatFraction(s, m + 1, r) == 0.0
    ensures LogArgument(FlatFraction(s, m, r), FlatFraction(s, m + 1, r)) == 0.0
  {
    var n := |s| - m + 1;
    assert FlatCount(s, m, r, n) == 0;
    FlatCountShrinksWithLength(s, m, r, n - 1);
    assert FlatCount(s, m, r, n - 1) == 0;
    assert FlatCount(s, m + 1, r, |s| - (m + 1) + 1) == 0;
  }

  /** When some window of length m matches but none of length m + 1 does,
      the floor makes the log argument greater than 1 (a positive entropy),
      for any buffer shorter than 10^7 samples. */
  lemma ZeroLongMatchesGivePositiveEntropy(s: seq<real>, m: nat, r: real)
    requires 1 <= m && 2 * m <= |s| < 10000000
    requires 0.0 < FlatFraction(s, m, r) && FlatFraction(s, m + 1, r) == 0.0
    ensures LogArgument(FlatFraction(s, m, r), FlatFraction(s, m + 1, r)) > 1.0
  {
    var n := |s| - m + 1;
    var c := FlatCount(s, m, r, n);
    var a0 := FlatFraction(s, m, r);
    assert a0 == c as real / n as real;
    assert 1 <= c;
    var x := LogArgument(a0, 0.0);
    assert x == a0 * 10000000.0;
    assert a0 >= 1.0 / n as real by {
      assert a0 == 1.0 / n as real + (c as real - 1.0) / n as real;
    }
    assert 1.0 / n as real > 1.0 / 10000000.0;
  }

  // ---------------------------------------------------------------------
  // The loops of the source

  /** `sc_util_apen_maxdist(d + d0, d + d1, l, r)`: the running maximum of the
      gaps between two samples of the window `d[d0 .. d0 + l)`, returned as
      soon as it exceeds r. The window at d1 is never read. The result is at
      most r exactly when the window lies within r; it is then the largest
      gap, and otherwise one of the gaps (or 0 when there is none). */
  method MaxDist(d: array<real>, d0: nat, d1: nat, l: nat, r: real) returns (md: real)
    requires d0 + l <= d.Length
    ensures 0.0 <= md
    ensures md <= r <==> 0.0 <= r && WithinRadius(d[d0..d0 + l], r)
    ensures md <= r ==> GapsAtMost(d[d0..d0 + l], md)
    ensures IsGapOrZero(d[d0..d0 + l], md)
  {
    ghost var w := d[d0..d0 + l];
    md := 0.0;
    var i := 0;
    while i < l - 1
      invariant 0 <= i && (l == 0 || i <= l - 1)
      invariant 0.0 <= md && (md <= r || md == 0.0)
      invariant forall a, b :: 0 <= a < i && a < b < l ==> Gap(w, a, b) <= md
      invariant IsGapOrZero(w, md)
    {
      var j := 1;
      while j < l - i
        invariant 1 <= j <= l - i
        invariant 0.0 <= md && (md <= r || md == 0.0)
        invariant forall a, b :: 0 <= a < i && a < b < l ==> Gap(w, a, b) <= md
        invariant forall b :: i < b < i + j ==> Gap(w, i, b) <= md
        invariant IsGapOrZero(w, md)
      {
        var gap := Abs(d[d0 + i + j] - d[d0 + i]);
        assert gap == Gap(w, i, i + j);
        if gap > md {
          md := gap;
        }
        if md > r {
          assert r < 0.0 || Gap(w, i, i + j) > r;
          return;
        }
        j := j + 1;
      }
      i := i + 1;
    }
  }

  /** The inner loop of one pass of `sc_util_apen_calculate`
      (sc.util.apen.c:889-891 and 905-907): for window i, count the offsets
      j < n whose comparison `maxdist(window i, window j) <= r` succeeds. */
  method CountRow(d: array<real>, len: nat, i: nat, m: nat, r: real, n: nat) returns (count: real)
    requires i + m <= len <= d.Length
    ensures count == RowCount(d[..len], i, m, r, n) as real
    ensures count == if Matches(d[..len], i, m, r) then n as real else 0.0
  {
    ghost var s := d[..len];
    assert d[i..i + m] == s[i..i + m];
    count := 0.0;
    var j := 0;
    while j < n
      invariant 0 <= j <= n
      invariant count == RowCount(s, i, m, r, j) as real
    {
      var md := MaxDist(d, i, j, m, r);
      count := count + if md <= r then 1.0 else 0.0;
      j := j + 1;
    }
    RowCountAllOrNothing(s, i, m, r, n);
  }

  /** Dividing a row's count by the number of offsets gives 1 or 0. */
  lemma RatioOfRow(count: real, n: nat, matched: bool)
    requires 0 < n && count == if matched then n as real else 0.0
    ensures count / n as real == if matched then 1.0 else 0.0
  {
  }

  /** One pass of `sc_util_apen_calculate` (sc.util.apen.c:883-896 for
      length m, 899-911 for m + 1) over the first `len` samples of `d`: for
      each window i the ratio of offsets j counted as matching, then the
      average of those ratios. It equals the fraction of matching windows. */
  method AverageRatio(d: array<real>, len: nat, m: nat, r: real) returns (avg: real)
    requires m <= len <= d.Length
    ensures avg == FlatFraction(d[..len], m, r)
  {
    ghost var s := d[..len];
    var n := len - m + 1;
    avg := 0.0;
    var i := 0;
    while i < n
      invariant 0 <= i <= n
      invariant avg == FlatCount(s, m, r, i) as real
    {
      var count := CountRow(d, len, i, m, r, n);
      var ratio := count / n as real;
      RatioOfRow(count, n, Matches(s, i, m, r));
      avg := avg + ratio;
      i := i + 1;
    }
    avg := avg / n as real;
  }
}
