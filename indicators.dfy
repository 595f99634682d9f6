/** The indicator functions of indicators.py. Each one reads the `Close`
    series of a price table and derives series of the same length; an entry
    pandas would hold as NaN is `None`. Real arithmetic stands for floating
    point. The `add_*` functions write their columns into the table in place,
    so the table is a class whose column map the methods update. */
module Indicators {
  import opened Wrappers
  import opened Series

  // ---------------------------------------------------------------------------
  // Rolling mean (pandas `rolling(window).mean()` with the default
  // min_periods == window)
  // ---------------------------------------------------------------------------

  /** Entry i is the mean of the trailing window ending at i; the first
      window - 1 entries have too few observations and are undefined. */
  function RollingMean(s: seq<real>, window: nat): (r: seq<Option<real>>)
    requires window >= 1
    ensures |r| == |s|
  {
    seq(|s|, i requires 0 <= i < |s| =>
      if i + 1 < window then None else Some(Mean(Window(s, i, window))))
  }

  /** A rolling mean of non-negative values is non-negative. */
  lemma RollingMeanNonNegative(s: seq<real>, window: nat)
    requires window >= 1
    requires forall k :: 0 <= k < |s| ==> s[k] >= 0.0
    ensures forall i :: 0 <= i < |s| && RollingMean(s, window)[i].Some? ==>
              RollingMean(s, window)[i].value >= 0.0
  {
    forall i | 0 <= i < |s| && RollingMean(s, window)[i].Some?
      ensures RollingMean(s, window)[i].value >= 0.0
    {
      var w := Window(s, i, window);
      MeanBounds(w, 0.0, SeqMax(w));
    }
  }

  // ---------------------------------------------------------------------------
  // SMA (add_sma)
  // ---------------------------------------------------------------------------

  function Sma(close: seq<real>, window: nat): (r: seq<Option<real>>)
    requires window >= 1
    ensures |r| == |close|
  {
    RollingMean(close, window)
  }

  /** Same length as the input; undefined exactly on the warm-up prefix of
      window - 1 entries; elsewhere the mean of close[i-window+1..i]. */
  lemma SmaShape(close: seq<real>, window: nat)
    requires window >= 1
    ensures |Sma(close, window)| == |close|
    ensures forall i :: 0 <= i < |close| ==>
              (Sma(close, window)[i].None? <==> i < window - 1)
    ensures forall i :: window - 1 <= i < |close| ==>
              Sma(close, window)[i] == Some(Sum(close[i + 1 - window .. i + 1]) / window as real)
  {
  }

  /** Every defined SMA entry lies between the smallest and the largest close
      of its window. */
  lemma SmaWithinWindow(close: seq<real>, window: nat, i: nat)
    requires window >= 1
    requires window - 1 <= i < |close|
    ensures Sma(close, window)[i].Some?
    ensures SeqMin(Window(close, i, window)) <= Sma(close, window)[i].value
                                             <= SeqMax(Window(close, i, window))
  {
    MeanWithinExtrema(Window(close, i, window));
  }

  /** A constant close series yields that constant once the SMA is defined. */
  lemma SmaOfConstant(close: seq<real>, window: nat, c: real)
    requires window >= 1
    requires forall k :: 0 <= k < |close| ==> close[k] == c
    ensures forall i :: window - 1 <= i < |close| ==> Sma(close, window)[i] == Some(c)
  {
    forall i | window - 1 <= i < |close|
      ensures Sma(close, window)[i] == Some(c)
    {
      ConstantStatistics(Window(close, i, window), c);
    }
  }

  // ---------------------------------------------------------------------------
  // EMA (add_ema: `ewm(span=span, adjust=False).mean()`)
  // ---------------------------------------------------------------------------

  /** The smoothing factor 2 / (span + 1). */
  function Alpha(span: nat): (a: real)
    requires span >= 1
    ensures 0.0 < a <= 1.0
  {
    2.0 / (span as real + 1.0)
  }

  /** The unadjusted recursive average: y0 = x0, yt = a * xt + (1 - a) * y(t-1). */
  function EmaAt(close: seq<real>, alpha: real, t: nat): (r: real)
    requires t < |close|
    ensures alpha == 1.0 ==> r == close[t]
    ensures (forall k :: 0 <= k <= t ==> close[k] == close[0]) ==> r == close[0]
    decreases t
  {
    if t == 0 then close[0]
    else alpha * close[t] + (1.0 - alpha) * EmaAt(close, alpha, t - 1)
  }

  function Ema(close: seq<real>, span: nat): (r: seq<Option<real>>)
    requires span >= 1
    ensures |r| == |close|
  {
    seq(|close|, t requires 0 <= t < |close| => Some(EmaAt(close, Alpha(span), t)))
  }

  /** Defined everywhere, seeded with the first close, and following the
      first-order recurrence with alpha = 2 / (span + 1). */
  lemma EmaShape(close: seq<real>, span: nat)
    requires span >= 1
    ensures |Ema(close, span)| == |close|
    ensures forall t :: 0 <= t < |close| ==> Ema(close, span)[t].Some?
    ensures |close| > 0 ==> Ema(close, span)[0] == Some(close[0])
    ensures forall t :: 1 <= t < |close| ==>
              Ema(close, span)[t].value
                == 2.0 / (span as real + 1.0) * close[t]
                   + (1.0 - 2.0 / (span as real + 1.0)) * Ema(close, span)[t - 1].value
  {
  }

  /** a * x + (1 - a) * e stays in [lo, hi] when x and e do and 0 <= a <= 1. */
  lemma ConvexStep(alpha: real, x: real, e: real, lo: real, hi: real)
    requires 0.0 <= alpha <= 1.0
    requires lo <= x <= hi && lo <= e <= hi
    ensures lo <= alpha * x + (1.0 - alpha) * e <= hi
  {
    assert alpha * (x - lo) >= 0.0;
    assert (1.0 - alpha) * (e - lo) >= 0.0;
    assert alpha * (hi - x) >= 0.0;
    assert (1.0 - alpha) * (hi - e) >= 0.0;
  }

  /** If close[0..t] all lie in [lo, hi], so does the average at t. */
  lemma {:induction false} EmaWithin(close: seq<real>, alpha: real, t: nat, lo: real, hi: real)
    requires 0.0 <= alpha <= 1.0
    requires t < |close|
    requires forall k :: 0 <= k <= t ==> lo <= close[k] <= hi
    ensures lo <= EmaAt(close, alpha, t) <= hi
  {
    if t > 0 {
      EmaWithin(close, alpha, t - 1, lo, hi);
      ConvexStep(alpha, close[t], EmaAt(close, alpha, t - 1), lo, hi);
    }
  }

  /** Every EMA entry lies between the minimum and the maximum of the closes
      seen so far. */
  lemma EmaWithinHistory(close: seq<real>, span: nat, t: nat)
    requires span >= 1
    requires t < |close|
    ensures Ema(close, span)[t].Some?
    ensures SeqMin(close[..t + 1]) <= Ema(close, span)[t].value <= SeqMax(close[..t + 1])
  {
    var prefix := close[..t + 1];
    forall k | 0 <= k <= t
      ensures SeqMin(prefix) <= close[k] <= SeqMax(prefix)
    {
      assert close[k] == prefix[k];
    }
    EmaWithin(close, Alpha(span), t, SeqMin(prefix), SeqMax(prefix));
  }

  // ---------------------------------------------------------------------------
  // RSI (add_rsi)
  // ---------------------------------------------------------------------------

  /** `delta.where(delta > 0, 0)`: entry 0 has no previous close (diff gives
      NaN, which fails the test and is replaced by 0). */
  function Gains(close: seq<real>): (r: seq<real>)
    ensures |r| == |close|
  {
    seq(|close|, i requires 0 <= i < |close| =>
      if i == 0 then 0.0
      else var delta := close[i] - close[i - 1]; if delta > 0.0 then delta else 0.0)
  }

  /** `-delta.where(delta < 0, 0)`. */
  function Losses(close: seq<real>): (r: seq<real>)
    ensures |r| == |close|
  {
    seq(|close|, i requires 0 <= i < |close| =>
      if i == 0 then 0.0
      else var delta := close[i] - close[i - 1]; if delta < 0.0 then -delta else 0.0)
  }

  /** Gains and losses are non-negative, zero at the first bar, never both
      positive, and their difference is the price change. */
  lemma GainsAndLosses(close: seq<real>)
    ensures forall i :: 0 <= i < |close| ==> Gains(close)[i] >= 0.0 && Losses(close)[i] >= 0.0
    ensures forall i :: 0 <= i < |close| ==> Gains(close)[i] == 0.0 || Losses(close)[i] == 0.0
    ensures |close| > 0 ==> Gains(close)[0] == 0.0 && Losses(close)[0] == 0.0
    ensures forall i :: 1 <= i < |close| ==> Gains(close)[i] - Losses(close)[i] == close[i] - close[i - 1]
  {
  }

  function AverageGain(close: seq<real>, window: nat): (r: seq<Option<real>>)
    requires window >= 1
    ensures |r| == |close|
  {
    RollingMean(Gains(close), window)
  }

  function AverageLoss(close: seq<real>, window: nat): (r: seq<Option<real>>)
    requires window >= 1
    ensures |r| == |close|
  {
    RollingMean(Losses(close), window)
  }

  /** 100 - 100 / (1 + gain / loss) with the IEEE outcomes of a zero loss made
      explicit: gain / 0 is +inf, so the index is 100; 0 / 0 is NaN. */
  function RsiValue(avgGain: Option<real>, avgLoss: Option<real>): (r: Option<real>)
    requires avgGain.Some? ==> avgGain.value >= 0.0
    requires avgLoss.Some? ==> avgLoss.value >= 0.0
    ensures r.Some? ==> 0.0 <= r.value <= 100.0
    ensures r.None? <==> avgGain.None? || avgLoss.None?
                         || (avgGain.value == 0.0 && avgLoss.value == 0.0)
  {
    if avgGain.None? || avgLoss.None? then None
    else if avgLoss.value > 0.0 then
      RsiFormula(avgGain.value, avgLoss.value);
      Some(100.0 - 100.0 / (1.0 + avgGain.value / avgLoss.value))
    else if avgGain.value > 0.0 then Some(100.0)
    else None
  }

  function Rsi(close: seq<real>, window: nat): (r: seq<Option<real>>)
    requires window >= 1
    ensures |r| == |close|
  {
    var avgGain := AverageGain(close, window);
    var avgLoss := AverageLoss(close, window);
    GainsAndLosses(close);
    RollingMeanNonNegative(Gains(close), window);
    RollingMeanNonNegative(Losses(close), window);
    seq(|close|, i requires 0 <= i < |close| => RsiValue(avgGain[i], avgLoss[i]))
  }

  /** c * b == a with b != 0 determines a / b. */
  lemma DivisionIsUnique(a: real, b: real, c: real)
    requires b != 0.0 && c * b == a
    ensures a / b == c
  {
  }

  /** x * c == y * c with c != 0 determines x == y. */
  lemma CancelFactor(x: real, y: real, c: real)
    requires c != 0.0 && x * c == y * c
    ensures x == y
  {
    assert (x - y) * c == 0.0;
  }

  /** With a positive average loss the index is 100 * gain / (gain + loss),
      which lies in [0, 100) and is 0 exactly when there was no gain. */
  lemma RsiFormula(g: real, l: real)
    requires g >= 0.0 && l > 0.0
    ensures 1.0 + g / l > 0.0
    ensures 100.0 - 100.0 / (1.0 + g / l) == 100.0 * g / (g + l)
    ensures 0.0 <= 100.0 * g / (g + l) < 100.0
    ensures 100.0 * g / (g + l) == 0.0 <==> g == 0.0
  {
    var rs := g / l;
    assert rs * l == g;
    assert rs >= 0.0;
    var p := 100.0 * g / (g + l);
    assert p * (g + l) == 100.0 * g;
    assert (100.0 - p) * (g + l) == 100.0 * l;
    assert ((100.0 - p) * (1.0 + rs)) * l == (100.0 - p) * ((1.0 + rs) * l);
    assert (1.0 + rs) * l == g + l;
    CancelFactor((100.0 - p) * (1.0 + rs), 100.0, l);
    DivisionIsUnique(100.0, 1.0 + rs, 100.0 - p);
    assert p < 100.0 by {
      assert 100.0 * g < 100.0 * (g + l);
      assert p * (g + l) < 100.0 * (g + l);
    }
    assert p >= 0.0;
    if p == 0.0 {
      assert 100.0 * g == 0.0;
    }
  }

  /** The cases of the index for non-negative averages. */
  lemma RsiValueCases(g: real, l: real)
    requires g >= 0.0 && l >= 0.0
    ensures l > 0.0 ==> RsiValue(Some(g), Some(l)) == Some(100.0 - 100.0 / (1.0 + g / l))
                        && 0.0 <= RsiValue(Some(g), Some(l)).value < 100.0
                        && RsiValue(Some(g), Some(l)).value == 100.0 * g / (g + l)
    ensures l == 0.0 && g > 0.0 ==> RsiValue(Some(g), Some(l)) == Some(100.0)
    ensures l == 0.0 && g == 0.0 ==> RsiValue(Some(g), Some(l)).None?
  {
    if l > 0.0 {
      RsiFormula(g, l);
    }
  }

  /** Entry i of the index combines entry i of the two averages, both of
      which are non-negative where defined. */
  lemma RsiEntry(close: seq<real>, window: nat, i: nat)
    requires window >= 1
    requires i < |close|
    ensures AverageGain(close, window)[i].Some? ==> AverageGain(close, window)[i].value >= 0.0
    ensures AverageLoss(close, window)[i].Some? ==> AverageLoss(close, window)[i].value >= 0.0
    ensures Rsi(close, window)[i] == RsiValue(AverageGain(close, window)[i], AverageLoss(close, window)[i])
  {
    GainsAndLosses(close);
    RollingMeanNonNegative(Gains(close), window);
    RollingMeanNonNegative(Losses(close), window);
  }

  /** Undefined on the first window - 1 bars (entry 0 of the gains is 0, not
      NaN, so the warm-up is one bar shorter than the window). */
  lemma RsiWarmup(close: seq<real>, window: nat)
    requires window >= 1
    ensures forall i :: 0 <= i < |close| && i < window - 1 ==> Rsi(close, window)[i].None?
    ensures forall i :: window - 1 <= i < |close| ==>
              AverageGain(close, window)[i].Some? && AverageLoss(close, window)[i].Some?
  {
  }

  /** At a bar past the warm-up: a positive average loss gives the formula,
      a value in [0, 100); no loss but some gain gives exactly 100; neither
      gain nor loss gives an undefined value. */
  lemma RsiAt(close: seq<real>, window: nat, i: nat)
    requires window >= 1
    requires window - 1 <= i < |close|
    ensures var g := AverageGain(close, window)[i].value;
            var l := AverageLoss(close, window)[i].value;
            && g >= 0.0 && l >= 0.0
            && (l > 0.0 ==> Rsi(close, window)[i] == Some(100.0 - 100.0 / (1.0 + g / l))
                            && 0.0 <= Rsi(close, window)[i].value < 100.0
                            && Rsi(close, window)[i].value == 100.0 * g / (g + l))
            && (l == 0.0 && g > 0.0 ==> Rsi(close, window)[i] == Some(100.0))
            && (l == 0.0 && g == 0.0 ==> Rsi(close, window)[i].None?)
  {
    RsiEntry(close, window, i);
    RsiValueCases(AverageGain(close, window)[i].value, AverageLoss(close, window)[i].value);
  }

  /** Every defined RSI entry lies in [0, 100]. */
  lemma RsiBounded(close: seq<real>, window: nat)
    requires window >= 1
    ensures forall i :: 0 <= i < |close| && Rsi(close, window)[i].Some? ==>
              0.0 <= Rsi(close, window)[i].value <= 100.0
  {
    forall i | 0 <= i < |close| && Rsi(close, window)[i].Some?
      ensures 0.0 <= Rsi(close, window)[i].value <= 100.0
    {
      RsiAt(close, window, i);
    }
  }

  /** Sum of non-negative values with one positive value is positive. */
  lemma {:induction false} SumPositive(s: seq<real>, j: nat)
    requires forall k :: 0 <= k < |s| ==> s[k] >= 0.0
    requires j < |s| && s[j] > 0.0
    ensures Sum(s) > 0.0
  {
    if j > 0 {
      SumPositive(s[1..], j - 1);
    } else if |s| > 1 {
      SumBounds(s[1..], 0.0, SeqMax(s[1..]));
    }
  }

  /** A window with no falling bar and at least one rising bar saturates the
      index at exactly 100. */
  lemma RsiSaturatesHigh(close: seq<real>, window: nat, i: nat, up: nat)
    requires window >= 1
    requires window - 1 <= i < |close|
    requires forall k :: i + 1 - window <= k <= i ==> Losses(close)[k] == 0.0
    requires i + 1 - window <= up <= i && Gains(close)[up] > 0.0
    ensures Rsi(close, window)[i] == Some(100.0)
  {
    var gw := Window(Gains(close), i, window);
    var lw := Window(Losses(close), i, window);
    assert AverageGain(close, window)[i] == Some(Mean(gw));
    assert AverageLoss(close, window)[i] == Some(Mean(lw));
    ConstantStatistics(lw, 0.0);
    assert forall k :: 0 <= k < |gw| ==> gw[k] >= 0.0;
    assert gw[up - (i + 1 - window)] == Gains(close)[up];
    SumPositive(gw, up - (i + 1 - window));
    assert Mean(gw) > 0.0;
    RsiEntry(close, window, i);
    RsiValueCases(Mean(gw), Mean(lw));
  }

  /** A window with no rising bar and at least one falling bar gives 0. */
  lemma RsiSaturatesLow(close: seq<real>, window: nat, i: nat, down: nat)
    requires window >= 1
    requires window - 1 <= i < |close|
    requires forall k :: i + 1 - window <= k <= i ==> Gains(close)[k] == 0.0
    requires i + 1 - window <= down <= i && Losses(close)[down] > 0.0
    ensures Rsi(close, window)[i] == Some(0.0)
  {
    var gw := Window(Gains(close), i, window);
    var lw := Window(Losses(close), i, window);
    assert AverageGain(close, window)[i] == Some(Mean(gw));
    assert AverageLoss(close, window)[i] == Some(Mean(lw));
    ConstantStatistics(gw, 0.0);
    assert forall k :: 0 <= k < |lw| ==> lw[k] >= 0.0;
    assert lw[down - (i + 1 - window)] == Losses(close)[down];
    SumPositive(lw, down - (i + 1 - window));
    assert Mean(lw) > 0.0;
    RsiEntry(close, window, i);
    RsiValueCases(Mean(gw), Mean(lw));
    RsiFormula(0.0, Mean(lw));
  }

  /** The mean of three values. */
  lemma MeanOfThree(a: real, b: real, c: real)
    ensures Mean([a, b, c]) == (a + b + c) / 3.0
  {
    assert [c][1..] == [];
    assert Sum([c]) == c;
    assert [b, c][1..] == [c];
    assert Sum([b, c]) == b + c;
    assert [a, b, c][1..] == [b, c];
    assert Sum([a, b, c]) == a + b + c;
  }

  /** Gains and losses of the five-bar series 10, 11, 12, 11, 10. */
  lemma FiveBarMoves()
    ensures Gains([10.0, 11.0, 12.0, 11.0, 10.0]) == [0.0, 1.0, 1.0, 0.0, 0.0]
    ensures Losses([10.0, 11.0, 12.0, 11.0, 10.0]) == [0.0, 0.0, 0.0, 1.0, 1.0]
  {
  }

  /** Their rolling means over a window of 3. */
  lemma FiveBarAverages()
    ensures AverageGain([10.0, 11.0, 12.0, 11.0, 10.0], 3)
            == [None, None, Some(2.0 / 3.0), Some(2.0 / 3.0), Some(1.0 / 3.0)]
    ensures AverageLoss([10.0, 11.0, 12.0, 11.0, 10.0], 3)
            == [None, None, Some(0.0), Some(1.0 / 3.0), Some(2.0 / 3.0)]
  {
    FiveBarMoves();
    var gains := [0.0, 1.0, 1.0, 0.0, 0.0];
    var losses := [0.0, 0.0, 0.0, 1.0, 1.0];
    assert Window(gains, 2, 3) == [0.0, 1.0, 1.0];
    assert Window(gains, 3, 3) == [1.0, 1.0, 0.0];
    assert Window(gains, 4, 3) == [1.0, 0.0, 0.0];
    assert Window(losses, 2, 3) == [0.0, 0.0, 0.0];
    assert Window(losses, 3, 3) == [0.0, 0.0, 1.0];
    assert Window(losses, 4, 3) == [0.0, 1.0, 1.0];
    MeanOfThree(0.0, 1.0, 1.0);
    MeanOfThree(1.0, 1.0, 0.0);
    MeanOfThree(1.0, 0.0, 0.0);
    MeanOfThree(0.0, 0.0, 0.0);
    MeanOfThree(0.0, 0.0, 1.0);
  }

  /** The five-bar series 10, 11, 12, 11, 10 with a window of 3: the index is
      defined from bar 2 on (100 after two rises, then 200/3 and 100/3). */
  lemma RsiFiveBars()
    ensures Rsi([10.0, 11.0, 12.0, 11.0, 10.0], 3)
            == [None, None, Some(100.0), Some(200.0 / 3.0), Some(100.0 / 3.0)]
  {
    var close := [10.0, 11.0, 12.0, 11.0, 10.0];
    FiveBarAverages();
    RsiEntry(close, 3, 0);
    RsiEntry(close, 3, 1);
    RsiEntry(close, 3, 2);
    RsiEntry(close, 3, 3);
    RsiEntry(close, 3, 4);
    RsiValueCases(2.0 / 3.0, 0.0);
    RsiValueCases(2.0 / 3.0, 1.0 / 3.0);
    RsiValueCases(1.0 / 3.0, 2.0 / 3.0);
    var r := Rsi(close, 3);
    assert r[3] == Some(100.0 * (2.0 / 3.0) / (2.0 / 3.0 + 1.0 / 3.0));
    assert r[4] == Some(100.0 * (1.0 / 3.0) / (1.0 / 3.0 + 2.0 / 3.0));
  }

  // ---------------------------------------------------------------------------
  // Bollinger bands (add_bollinger_bands)
  // ---------------------------------------------------------------------------

  /** What the rolling standard deviation needs of the square root: it is
      non-negative and squares back to its argument, and the root of zero is
      zero. The root itself is left abstract (a parameter of the functions
      below). */
  ghost predicate IsSquareRoot(sqrt: real -> real)
  {
    && sqrt(0.0) == 0.0
    && forall x :: 0.0 <= x ==> 0.0 <= sqrt(x) && sqrt(x) * sqrt(x) == x
  }

  /** `rolling(window).std()`: the root of the sample variance (ddof = 1) of
      the trailing window. A window of one value has n - ddof = 0 and so is
      NaN everywhere. */
  function RollingStd(close: seq<real>, window: nat, sqrt: real -> real): (r: seq<Option<real>>)
    requires window >= 1
    ensures |r| == |close|
  {
    seq(|close|, i requires 0 <= i < |close| =>
      if window < 2 || i + 1 < window then None
      else Some(sqrt(SampleVariance(Window(close, i, window)))))
  }

  datatype Bands = Bands(upper: seq<Option<real>>, lower: seq<Option<real>>)

  /** rolling mean + 2 * rolling std and rolling mean - 2 * rolling std; NaN
      in either operand gives NaN. */
  function BollingerBands(close: seq<real>, window: nat, sqrt: real -> real): (b: Bands)
    requires window >= 1
    ensures |b.upper| == |close| && |b.lower| == |close|
  {
    var mean := RollingMean(close, window);
    var std := RollingStd(close, window, sqrt);
    Bands(
      seq(|close|, i requires 0 <= i < |close| =>
        if mean[i].Some? && std[i].Some? then Some(mean[i].value + std[i].value * 2.0) else None),
      seq(|close|, i requires 0 <= i < |close| =>
        if mean[i].Some? && std[i].Some? then Some(mean[i].value - std[i].value * 2.0) else None))
  }

  /** Both bands are undefined on the first window - 1 bars (and everywhere
      for a window of one); where defined, they sit symmetrically around the
      rolling mean, which is the SMA of the same window. */
  lemma BandsAroundMean(close: seq<real>, window: nat, sqrt: real -> real)
    requires window >= 1
    ensures var b := BollingerBands(close, window, sqrt);
            forall i :: 0 <= i < |close| ==>
              && (b.upper[i].Some? <==> 2 <= window && window - 1 <= i)
              && (b.lower[i].Some? <==> b.upper[i].Some?)
              && (b.upper[i].Some? ==>
                    Sma(close, window)[i].Some? &&
                    b.upper[i].value + b.lower[i].value == 2.0 * Sma(close, window)[i].value)
  {
  }

  /** With a genuine square root the upper band is never below the lower one,
      and the band width squared is 16 times the sample variance. */
  lemma BandsOrdered(close: seq<real>, window: nat, sqrt: real -> real, i: nat)
    requires window >= 2
    requires IsSquareRoot(sqrt)
    requires window - 1 <= i < |close|
    ensures var b := BollingerBands(close, window, sqrt);
            && b.upper[i].Some? && b.lower[i].Some?
            && b.lower[i].value <= b.upper[i].value
            && (b.upper[i].value - b.lower[i].value) * (b.upper[i].value - b.lower[i].value)
               == 16.0 * SampleVariance(Window(close, i, window))
  {
    var b := BollingerBands(close, window, sqrt);
    var v := SampleVariance(Window(close, i, window));
    var sd := sqrt(v);
    assert 0.0 <= sd && sd * sd == v;
    assert b.upper[i].value - b.lower[i].value == 4.0 * sd;
  }

  /** A constant window collapses both bands onto that constant. */
  lemma BandsOfConstant(close: seq<real>, window: nat, sqrt: real -> real, c: real)
    requires window >= 2
    requires IsSquareRoot(sqrt)
    requires forall k :: 0 <= k < |close| ==> close[k] == c
    ensures var b := BollingerBands(close, window, sqrt);
            forall i :: window - 1 <= i < |close| ==> b.upper[i] == Some(c) && b.lower[i] == Some(c)
  {
    forall i | window - 1 <= i < |close|
      ensures BollingerBands(close, window, sqrt).upper[i] == Some(c)
      ensures BollingerBands(close, window, sqrt).lower[i] == Some(c)
    {
      var w := Window(close, i, window);
      ConstantStatistics(w, c);
    }
  }

  // ---------------------------------------------------------------------------
  // Column names
  // ---------------------------------------------------------------------------

  const CloseColumn: string := "Close"
  const RsiColumn: string := "RSI"
  const UpperBandColumn: string := "Upper Band"
  const LowerBandColumn: string := "Lower Band"

  function DigitChar(d: nat): (c: char)
    requires d < 10
    ensures '0' <= c <= '9'
  {
    ['0', '1', '2', '3', '4', '5', '6', '7', '8', '9'][d]
  }

  /** The decimal notation of a natural number, as an f-string writes it. */
  function Decimal(n: nat): (r: string)
    ensures |r| >= 1
    ensures forall k :: 0 <= k < |r| ==> '0' <= r[k] <= '9'
    decreases n
  {
    if n < 10 then [DigitChar(n)] else Decimal(n / 10) + [DigitChar(n % 10)]
  }

  /** `f'{prefix}{n}'`: the prefix followed by the decimal digits of n. It
      ends in a digit, so it is never the `Close` column. */
  function ColumnName(prefix: string, n: nat): (name: string)
    ensures |name| > |prefix| && name[..|prefix|] == prefix
    ensures forall k :: |prefix| <= k < |name| ==> '0' <= name[k] <= '9'
    ensures name != CloseColumn
  {
    var digits := Decimal(n);
    assert (prefix + digits)[|prefix + digits| - 1] == digits[|digits| - 1];
    assert CloseColumn[|CloseColumn| - 1] == 'e';
    prefix + digits
  }

  /** `f'SMA_{window}'` */
  function SmaColumn(window: nat): string
  {
    ColumnName("SMA_", window)
  }

  /** `f'EMA_{span}'` */
  function EmaColumn(span: nat): string
  {
    ColumnName("EMA_", span)
  }

  /** The names the dashboard plots: SMA_20 and EMA_20. */
  lemma ColumnNamesAtTwenty()
    ensures SmaColumn(20) == "SMA_20" && EmaColumn(20) == "EMA_20"
  {
    assert Decimal(2) == "2";
    assert Decimal(20) == Decimal(2) + ['0'];
  }

  // ---------------------------------------------------------------------------
  // The price table
  // ---------------------------------------------------------------------------

  /** A table is consistent when every column other than Close has one entry
      per row; Close is held apart because every indicator reads it. */
  predicate WellFormed(close: seq<real>, columns: map<string, seq<Option<real>>>)
  {
    && CloseColumn !in columns
    && forall name :: name in columns ==> |columns[name]| == |close|
  }

  /** A DataFrame: a Close series and named columns aligned with it. The
      `add_*` functions write into it in place. */
  class Frame {
    var close: seq<real>
    var columns: map<string, seq<Option<real>>>

    ghost predicate Valid()
      reads this
    {
      WellFormed(close, columns)
    }

    constructor (close: seq<real>, columns: map<string, seq<Option<real>>>)
      requires WellFormed(close, columns)
      ensures Valid()
      ensures this.close == close && this.columns == columns
    {
      this.close := close;
      this.columns := columns;
    }

    /** add_rsi: writes the `RSI` column. */
    method AddRsi(window: nat)
      requires Valid() && window >= 1
      modifies this
      ensures Valid() && close == old(close)
      ensures columns == old(columns)[RsiColumn := Rsi(close, window)]
      ensures columns.Keys == old(columns).Keys + {RsiColumn}
    {
      columns := columns[RsiColumn := Rsi(close, window)];
    }

    /** add_bollinger_bands: writes `Upper Band` and `Lower Band`. */
    method AddBollingerBands(window: nat, sqrt: real -> real)
      requires Valid() && window >= 1
      modifies this
      ensures Valid() && close == old(close)
      ensures columns == old(columns)[UpperBandColumn := BollingerBands(close, window, sqrt).upper]
                                     [LowerBandColumn := BollingerBands(close, window, sqrt).lower]
      ensures columns.Keys == old(columns).Keys + {UpperBandColumn, LowerBandColumn}
    {
      var bands := BollingerBands(close, window, sqrt);
      columns := columns[UpperBandColumn := bands.upper];
      columns := columns[LowerBandColumn := bands.lower];
    }

    /** add_sma: writes `SMA_{window}`. */
    method AddSma(window: nat)
      requires Valid() && window >= 1
      modifies this
      ensures Valid() && close == old(close)
      ensures columns == old(columns)[SmaColumn(window) := Sma(close, window)]
      ensures columns.Keys == old(columns).Keys + {SmaColumn(window)}
    {
      columns := columns[SmaColumn(window) := Sma(close, window)];
    }

    /** add_ema: writes `EMA_{span}`. */
    method AddEma(span: nat)
      requires Valid() && span >= 1
      modifies this
      ensures Valid() && close == old(close)
      ensures columns == old(columns)[EmaColumn(span) := Ema(close, span)]
      ensures columns.Keys == old(columns).Keys + {EmaColumn(span)}
    {
      columns := columns[EmaColumn(span) := Ema(close, span)];
    }
  }
}
