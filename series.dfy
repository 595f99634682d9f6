/** Arithmetic over finite series of reals: sums, trailing windows, means,
    extrema and the sample variance that pandas' rolling statistics use. */
module Series {

  /** Sum of a sequence, folded from the front. */
  function Sum(s: seq<real>): real
  {
    if |s| == 0 then 0.0 else s[0] + Sum(s[1..])
  }

  /** Arithmetic mean of a non-empty sequence. */
  function Mean(s: seq<real>): real
    requires |s| > 0
  {
    Sum(s) / |s| as real
  }

  /** The `w` values that end at index `i`, inclusive (a trailing window). */
  function Window(s: seq<real>, i: nat, w: nat): (r: seq<real>)
    requires 1 <= w <= i + 1 <= |s|
    ensures |r| == w
    ensures forall k :: 0 <= k < w ==> r[k] == s[i + 1 - w + k]
  {
    s[i + 1 - w .. i + 1]
  }

  /** Smallest element. */
  function SeqMin(s: seq<real>): (m: real)
    requires |s| > 0
    ensures forall k :: 0 <= k < |s| ==> m <= s[k]
    ensures exists k :: 0 <= k < |s| && m == s[k]
  {
    if |s| == 1 then s[0]
    else
      var rest := SeqMin(s[1..]);
      if s[0] <= rest then s[0] else rest
  }

  /** Largest element. */
  function SeqMax(s: seq<real>): (m: real)
    requires |s| > 0
    ensures forall k :: 0 <= k < |s| ==> s[k] <= m
    ensures exists k :: 0 <= k < |s| && m == s[k]
  {
    if |s| == 1 then s[0]
    else
      var rest := SeqMax(s[1..]);
      if s[0] >= rest then s[0] else rest
  }

  /** Sum of squared deviations from `m`; never negative. */
  function SquaredDeviations(s: seq<real>, m: real): (r: real)
    ensures r >= 0.0
  {
    if |s| == 0 then 0.0
    else
      var d := s[0] - m;
      assert d * d >= 0.0;
      d * d + SquaredDeviations(s[1..], m)
  }

  /** Sample variance (one delta degree of freedom, the pandas default):
      the squared deviations from the mean divided by n - 1. */
  function SampleVariance(s: seq<real>): (v: real)
    requires |s| >= 2
    ensures v >= 0.0
  {
    SquaredDeviations(s, Mean(s)) / (|s| - 1) as real
  }

  /** Every element lies in [lo, hi], so the sum lies in [lo * n, hi * n]. */
  lemma {:induction false} SumBounds(s: seq<real>, lo: real, hi: real)
    requires forall k :: 0 <= k < |s| ==> lo <= s[k] <= hi
    ensures lo * |s| as real <= Sum(s) <= hi * |s| as real
  {
    if |s| > 0 {
      SumBounds(s[1..], lo, hi);
      var n := (|s| - 1) as real;
      assert lo * (n + 1.0) == lo * n + lo;
      assert hi * (n + 1.0) == hi * n + hi;
    }
  }

  /** The mean of values that lie in [lo, hi] lies in [lo, hi]. */
  lemma MeanBounds(s: seq<real>, lo: real, hi: real)
    requires |s| > 0
    requires forall k :: 0 <= k < |s| ==> lo <= s[k] <= hi
    ensures lo <= Mean(s) <= hi
  {
    SumBounds(s, lo, hi);
    var n := |s| as real;
    DivideBounds(Sum(s), n, lo, hi);
  }

  /** lo * n <= a <= hi * n with n > 0 gives lo <= a / n <= hi. */
  lemma DivideBounds(a: real, n: real, lo: real, hi: real)
    requires n > 0.0
    requires lo * n <= a <= hi * n
    ensures lo <= a / n <= hi
  {
    var q := a / n;
    assert q * n == a;
    assert (q - lo) * n >= 0.0 && (hi - q) * n >= 0.0;
  }

  /** The mean lies between the extrema. */
  lemma MeanWithinExtrema(s: seq<real>)
    requires |s| > 0
    ensures SeqMin(s) <= Mean(s) <= SeqMax(s)
  {
    MeanBounds(s, SeqMin(s), SeqMax(s));
  }

  /** A window of one repeated value has that value as mean and zero variance. */
  lemma {:induction false} SquaredDeviationsOfConstant(s: seq<real>, c: real)
    requires forall k :: 0 <= k < |s| ==> s[k] == c
    ensures SquaredDeviations(s, c) == 0.0
  {
    if |s| > 0 {
      SquaredDeviationsOfConstant(s[1..], c);
    }
  }

  lemma ConstantStatistics(s: seq<real>, c: real)
    requires |s| >= 1
    requires forall k :: 0 <= k < |s| ==> s[k] == c
    ensures Mean(s) == c
    ensures |s| >= 2 ==> SampleVariance(s) == 0.0
  {
    MeanBounds(s, c, c);
    SquaredDeviationsOfConstant(s, c);
  }
}
