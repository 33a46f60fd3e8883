/**
 * The indicator engine (`TechnicalIndicators`): EMA, RSI, ATR, pivot
 * support/resistance, volume profile, trend strength, EMA crossover and RSI
 * condition, each a pure function of the bar series. pandas' rolling windows
 * that are not yet full, and IEEE results that are NaN, are `None`.
 */
module Indicators {
  import opened Wrappers
  import opened Series
  import opened Frames
  import opened Settings
  import opened Signals

  /** Default windows of `calculate_atr`, `calculate_support_resistance` and `calculate_volume_profile`. */
  const AtrPeriod: Period := 14
  const SupportResistanceLookback: Period := 20
  const VolumePeriod: Period := 20

  /** A volume ratio above this is "high volume". */
  const HighVolumeRatio: real := 1.5

  /** The source's trend directions 'BULLISH', 'BEARISH' and 'NEUTRAL'. */
  datatype TrendDirection = Bullish | Bearish | Flat

  /** The source's crossover kinds 'BULLISH', 'BEARISH' and 'NONE'. */
  datatype Crossover = CrossedAbove | CrossedBelow | NoCrossover

  /** The source's RSI conditions 'OVERBOUGHT', 'OVERSOLD' and 'NEUTRAL'. */
  datatype RsiCondition = Overbought | Oversold | InRange

  // ---------------------------------------------------------------- EMA

  /** The smoothing factor of `ewm(span=period)`. */
  function Alpha(period: Period): (a: real)
    ensures 0.0 < a <= 1.0
  {
    2.0 / (period as real + 1.0)
  }

  /** An EMA with a shorter span reacts faster. */
  lemma AlphaDecreasing(p: Period, q: Period)
    requires p < q
    ensures Alpha(q) < Alpha(p)
  {
    var a, b := p as real + 1.0, q as real + 1.0;
    var x, y := Alpha(p), Alpha(q);
    assert x * a == 2.0;
    assert y * b == 2.0;
    MulLess(y, a, b);
    if x <= y {
      MulLess2(x, y, a);
    }
  }

  lemma MulLess(c: real, a: real, b: real)
    requires c > 0.0 && a < b
    ensures c * a < c * b
  {
    MulPositive(c, b - a);
    assert c * (b - a) == c * b - c * a;
  }

  lemma MulLess2(x: real, y: real, a: real)
    requires x <= y && a > 0.0
    ensures x * a <= y * a
  {
    MulNonNegative(y - x, a);
    assert (y - x) * a == y * a - x * a;
  }

  /** One smoothing step: the new input weighted by alpha, the previous average by 1 - alpha. */
  function Mix(alpha: real, x: real, prev: real): real
  {
    alpha * x + (1.0 - alpha) * prev
  }

  /** The value at index t of `ewm(alpha=alpha, adjust=False).mean()`. */
  function EmaAt(xs: seq<real>, alpha: real, t: nat): real
    requires t < |xs|
  {
    if t == 0 then xs[0] else Mix(alpha, xs[t], EmaAt(xs, alpha, t - 1))
  }

  ghost predicate EmaStep(xs: seq<real>, e: seq<real>, alpha: real, t: nat)
    requires 1 <= t < |xs| == |e|
  {
    e[t] == Mix(alpha, xs[t], e[t - 1])
  }

  /** `calculate_ema`: `data.ewm(span=period, adjust=False).mean()`, defined at every index. */
  function CalculateEma(xs: seq<real>, period: Period): (e: seq<real>)
    ensures |e| == |xs|
    ensures |xs| > 0 ==> e[0] == xs[0]
    ensures forall t :: 1 <= t < |xs| ==> EmaStep(xs, e, Alpha(period), t)
    ensures forall t :: 0 <= t < |xs| ==> e[t] == EmaAt(xs, Alpha(period), t)
  {
    seq(|xs|, t requires 0 <= t < |xs| => EmaAt(xs, Alpha(period), t))
  }

  /** Each EMA value is a convex combination of the inputs so far. */
  lemma {:induction false} EmaAtWithin(xs: seq<real>, alpha: real, t: nat, lo: real, hi: real)
    requires 0.0 < alpha <= 1.0 && t < |xs|
    requires forall i :: 0 <= i <= t ==> lo <= xs[i] <= hi
    ensures lo <= EmaAt(xs, alpha, t) <= hi
  {
    if t > 0 {
      EmaAtWithin(xs, alpha, t - 1, lo, hi);
      ConvexStepWithin(alpha, xs[t], EmaAt(xs, alpha, t - 1), lo, hi);
    }
  }

  /** One EMA step mixes two values of [lo, hi] and stays in [lo, hi]. */
  lemma ConvexStepWithin(alpha: real, x: real, prev: real, lo: real, hi: real)
    requires 0.0 < alpha <= 1.0 && lo <= x <= hi && lo <= prev <= hi
    ensures lo <= Mix(alpha, x, prev) <= hi
  {
    MulNonNegative(alpha, x - lo);
    MulNonNegative(1.0 - alpha, prev - lo);
    MulNonNegative(alpha, hi - x);
    MulNonNegative(1.0 - alpha, hi - prev);
    assert alpha * x + (1.0 - alpha) * prev - lo == alpha * (x - lo) + (1.0 - alpha) * (prev - lo);
    assert hi - (alpha * x + (1.0 - alpha) * prev) == alpha * (hi - x) + (1.0 - alpha) * (hi - prev);
  }

  /** The EMA stays between the smallest and the largest input. */
  lemma EmaWithinRange(xs: seq<real>, period: Period)
    requires |xs| > 0
    ensures forall t :: 0 <= t < |xs| ==> MinOf(xs) <= CalculateEma(xs, period)[t] <= MaxOf(xs)
  {
    forall t | 0 <= t < |xs|
      ensures MinOf(xs) <= CalculateEma(xs, period)[t] <= MaxOf(xs)
    {
      EmaAtWithin(xs, Alpha(period), t, MinOf(xs), MaxOf(xs));
    }
  }

  /** A constant series is its own EMA. */
  lemma EmaOfConstant(xs: seq<real>, period: Period, v: real)
    requires forall i :: 0 <= i < |xs| ==> xs[i] == v
    ensures CalculateEma(xs, period) == xs
  {
    forall t | 0 <= t < |xs|
      ensures CalculateEma(xs, period)[t] == v
    {
      EmaAtWithin(xs, Alpha(period), t, v, v);
    }
  }

  /** Positive closes give a positive EMA. */
  lemma EmaPositive(xs: seq<real>, period: Period)
    requires forall i :: 0 <= i < |xs| ==> xs[i] > 0.0
    ensures forall t :: 0 <= t < |xs| ==> CalculateEma(xs, period)[t] > 0.0
  {
    if |xs| > 0 {
      EmaWithinRange(xs, period);
    }
  }

  /** The last EMA of positive closes is positive. */
  lemma LastEmaPositive(xs: seq<real>, period: Period)
    requires |xs| > 0
    requires forall i :: 0 <= i < |xs| ==> xs[i] > 0.0
    ensures CalculateEma(xs, period)[|xs| - 1] > 0.0
  {
    EmaPositive(xs, period);
  }

  /** One EMA step keeps the faster average ahead when the new input is above the slower one. */
  lemma FastStepStaysAhead(x: real, f: real, s: real, fast: real, slow: real)
    requires 0.0 < slow < fast <= 1.0 && s <= f && s < x
    ensures Mix(fast, x, f) > Mix(slow, x, s)
  {
    MulNonNegative(1.0 - fast, f - s);
    MulPositive(fast - slow, x - s);
    assert (fast * x + (1.0 - fast) * f) - (slow * x + (1.0 - slow) * s)
        == (1.0 - fast) * (f - s) + (fast - slow) * (x - s);
  }

  /**
   * On strictly rising inputs the faster EMA is strictly above the slower one
   * from the second point on.
   */
  lemma {:induction false} FastEmaLeadsOnRise(xs: seq<real>, fast: real, slow: real, t: nat)
    requires 0.0 < slow < fast <= 1.0 && t < |xs|
    requires forall i :: 0 < i <= t ==> xs[i - 1] < xs[i]
    ensures t == 0 ==> EmaAt(xs, fast, t) == EmaAt(xs, slow, t)
    ensures t >= 1 ==> EmaAt(xs, fast, t) > EmaAt(xs, slow, t)
  {
    if t > 0 {
      FastEmaLeadsOnRise(xs, fast, slow, t - 1);
      RisingPrefixBounded(xs, t - 1);
      EmaAtWithin(xs, slow, t - 1, xs[0], xs[t - 1]);
      FastEmaStepLeads(xs, fast, slow, t);
    }
  }

  /** The step of `FastEmaLeadsOnRise`: ahead or level before, and an input above the slow EMA, means ahead after. */
  lemma FastEmaStepLeads(xs: seq<real>, fast: real, slow: real, t: nat)
    requires 0.0 < slow < fast <= 1.0 && 0 < t < |xs|
    requires EmaAt(xs, slow, t - 1) <= EmaAt(xs, fast, t - 1) && EmaAt(xs, slow, t - 1) < xs[t]
    ensures EmaAt(xs, fast, t) > EmaAt(xs, slow, t)
  {
    FastStepStaysAhead(xs[t], EmaAt(xs, fast, t - 1), EmaAt(xs, slow, t - 1), fast, slow);
  }

  lemma {:induction false} RisingPrefixBounded(xs: seq<real>, t: nat)
    requires t < |xs|
    requires forall i :: 0 < i <= t ==> xs[i - 1] < xs[i]
    ensures forall i :: 0 <= i <= t ==> xs[0] <= xs[i] <= xs[t]
  {
    if t > 0 {
      RisingPrefixBounded(xs, t - 1);
    }
  }

  // ---------------------------------------------------------------- RSI

  /** `data.diff()` at index t: NaN at index 0. */
  function Delta(xs: seq<real>, t: nat): Option<real>
    requires t < |xs|
  {
    if t == 0 then None else Some(xs[t] - xs[t - 1])
  }

  /** `delta.where(delta > 0, 0)`: the NaN at index 0 fails the test and becomes 0. */
  function Gains(xs: seq<real>): (g: seq<Option<real>>)
    ensures |g| == |xs|
    ensures forall t :: 0 <= t < |xs| ==> g[t].Some? && g[t].value >= 0.0
    ensures forall t :: 0 <= t < |xs| ==> (g[t].value > 0.0 <==> t > 0 && xs[t] > xs[t - 1])
    ensures |xs| > 0 ==> g[0].value == 0.0
    ensures forall t :: 0 < t < |xs| ==> g[t].value == (if xs[t] > xs[t - 1] then xs[t] - xs[t - 1] else 0.0)
  {
    seq(|xs|, t requires 0 <= t < |xs| =>
      match Delta(xs, t)
      case Some(d) => Some(if d > 0.0 then d else 0.0)
      case None => Some(0.0))
  }

  /** `-delta.where(delta < 0, 0)`. */
  function Losses(xs: seq<real>): (l: seq<Option<real>>)
    ensures |l| == |xs|
    ensures forall t :: 0 <= t < |xs| ==> l[t].Some? && l[t].value >= 0.0
    ensures forall t :: 0 <= t < |xs| ==> (l[t].value > 0.0 <==> t > 0 && xs[t] < xs[t - 1])
    ensures |xs| > 0 ==> l[0].value == 0.0
    ensures forall t :: 0 < t < |xs| ==> l[t].value == (if xs[t] < xs[t - 1] then xs[t - 1] - xs[t] else 0.0)
  {
    seq(|xs|, t requires 0 <= t < |xs| =>
      match Delta(xs, t)
      case Some(d) => Some(if d < 0.0 then -d else 0.0)
      case None => Some(0.0))
  }

  /** The window of width w ending at index t. */
  function Window(xs: seq<Option<real>>, w: Period, t: nat): (win: seq<Option<real>>)
    requires w <= t + 1 <= |xs|
    ensures |win| == w
    ensures forall k :: 0 <= k < w ==> win[k] == xs[t + 1 - w + k]
  {
    xs[t + 1 - w..t + 1]
  }

  /** `rolling(window=w).mean()` at index t: needs w values, none of them NaN. */
  function WindowMean(xs: seq<Option<real>>, w: Period, t: nat): Option<real>
    requires t < |xs|
  {
    if t + 1 < w then None
    else
      var win := Window(xs, w, t);
      if AllDefined(win) then Some(Sum(Values(win)) / w as real) else None
  }

  function RollingMean(xs: seq<Option<real>>, w: Period): (m: seq<Option<real>>)
    ensures |m| == |xs|
    ensures forall t :: 0 <= t < |xs| ==> m[t] == WindowMean(xs, w, t)
  {
    seq(|xs|, t requires 0 <= t < |xs| => WindowMean(xs, w, t))
  }

  /** The rolling mean of a series without negative values has no negative values. */
  lemma RollingMeanNonNegative(xs: seq<Option<real>>, w: Period)
    requires forall t :: 0 <= t < |xs| && xs[t].Some? ==> xs[t].value >= 0.0
    ensures forall t :: 0 <= t < |xs| && RollingMean(xs, w)[t].Some? ==> RollingMean(xs, w)[t].value >= 0.0
  {
    forall t | 0 <= t < |xs| && RollingMean(xs, w)[t].Some?
      ensures RollingMean(xs, w)[t].value >= 0.0
    {
      var win := Window(xs, w, t);
      SumNonNegative(Values(win));
    }
  }

  /**
   * `100 - 100 / (1 + gain / loss)` for non-negative means. With a zero mean
   * loss IEEE arithmetic gives `gain / 0 = inf` and so 100 when the mean gain
   * is positive, and `0 / 0 = NaN` when it is zero.
   */
  function RsiFromMeans(gain: Option<real>, loss: Option<real>): (r: Option<real>)
    requires gain.Some? ==> gain.value >= 0.0
    requires loss.Some? ==> loss.value >= 0.0
    ensures r.Some? <==> gain.Some? && loss.Some? && (gain.value > 0.0 || loss.value > 0.0)
    ensures r.Some? ==> 0.0 <= r.value <= 100.0
    ensures r.Some? && loss.value > 0.0 ==> r.value < 100.0
    ensures r.Some? && gain.value == 0.0 ==> r.value == 0.0
    ensures r.Some? && loss.value == 0.0 ==> r.value == 100.0
  {
    if gain.None? || loss.None? then None
    else if loss.value > 0.0 then
      var rs := gain.value / loss.value;
      assert rs >= 0.0;
      Some(100.0 - 100.0 / (1.0 + rs))
    else if gain.value > 0.0 then Some(100.0)
    else None
  }

  /** `calculate_rsi`: the RSI from the rolling means of gains and losses. */
  function CalculateRsi(xs: seq<real>, period: Period): (r: seq<Option<real>>)
    ensures |r| == |xs|
    ensures forall t :: 0 <= t < |xs| && r[t].Some? ==> 0.0 <= r[t].value <= 100.0
  {
    var gain := RollingMean(Gains(xs), period);
    var loss := RollingMean(Losses(xs), period);
    RollingMeanNonNegative(Gains(xs), period);
    RollingMeanNonNegative(Losses(xs), period);
    seq(|xs|, t requires 0 <= t < |xs| => RsiFromMeans(gain[t], loss[t]))
  }

  /**
   * The RSI is defined exactly from index period - 1 on (the NaN of the first
   * difference was replaced by 0), wherever the window saw some movement; it
   * is below 100 whenever the window saw a loss.
   */
  lemma RsiDefinedWhere(xs: seq<real>, period: Period, t: nat)
    requires t < |xs|
    ensures t + 1 < period ==> CalculateRsi(xs, period)[t].None?
    ensures period <= t + 1 ==>
      var win := Window(Losses(xs), period, t);
      var gwin := Window(Gains(xs), period, t);
      && (CalculateRsi(xs, period)[t].Some? <==> Sum(Values(gwin)) > 0.0 || Sum(Values(win)) > 0.0)
      && (Sum(Values(win)) > 0.0 ==> CalculateRsi(xs, period)[t].value < 100.0)
  {
    MeansGiveRsi(xs, period, t);
    if period <= t + 1 {
      var gwin, lwin := Window(Gains(xs), period, t), Window(Losses(xs), period, t);
      var p := period as real;
      var gs, ls := Sum(Values(gwin)), Sum(Values(lwin));
      SumNonNegative(Values(gwin));
      SumNonNegative(Values(lwin));
      assert WindowMean(Gains(xs), period, t) == Some(gs / p);
      assert WindowMean(Losses(xs), period, t) == Some(ls / p);
      if gs > 0.0 {
        DivPositive(gs, p);
      }
      if ls > 0.0 {
        DivPositive(ls, p);
      }
    }
  }

  /** Over a window of falling closes the gains sum to 0 and the losses to a positive amount. */
  lemma FallingWindowSums(xs: seq<real>, period: Period, t: nat)
    requires period <= t < |xs|
    requires forall i :: t + 1 - period <= i <= t ==> xs[i] < xs[i - 1]
    ensures AllDefined(Window(Gains(xs), period, t)) && AllDefined(Window(Losses(xs), period, t))
    ensures Sum(Values(Window(Gains(xs), period, t))) == 0.0
    ensures Sum(Values(Window(Losses(xs), period, t))) > 0.0
  {
    var g, l := Gains(xs), Losses(xs);
    var gwin, lwin := Window(g, period, t), Window(l, period, t);
    var gv, lv := Values(gwin), Values(lwin);
    forall k | 0 <= k < period
      ensures gv[k] == 0.0
    {
      var i := t + 1 - period + k;
      assert gv[k] == g[i].value;
      assert xs[i] < xs[i - 1];
    }
    SumOfZeros(gv);
    assert lv[0] == l[t + 1 - period].value;
    SumNonNegative(lv);
  }

  lemma DivPositive(a: real, b: real)
    requires a > 0.0 && b > 0.0
    ensures a / b > 0.0
  {
  }

  /** Over a window of falling closes the mean gain is 0 and the mean loss positive. */
  lemma FallingWindowMeans(xs: seq<real>, period: Period, t: nat)
    requires period <= t < |xs|
    requires forall i :: t + 1 - period <= i <= t ==> xs[i] < xs[i - 1]
    ensures RollingMean(Gains(xs), period)[t] == Some(0.0)
    ensures RollingMean(Losses(xs), period)[t].Some? && RollingMean(Losses(xs), period)[t].value > 0.0
  {
    FallingWindowSums(xs, period, t);
    var p := period as real;
    var gwin, lwin := Window(Gains(xs), period, t), Window(Losses(xs), period, t);
    var gs, ls := Sum(Values(gwin)), Sum(Values(lwin));
    DivPositive(ls, p);
    assert WindowMean(Gains(xs), period, t) == Some(gs / p);
    assert WindowMean(Losses(xs), period, t) == Some(ls / p);
  }

  /** When the closes fall at every step of the window, the RSI is 0. */
  lemma FallingClosesGiveZeroRsi(xs: seq<real>, period: Period)
    requires period < |xs|
    requires forall i :: |xs| - period <= i < |xs| ==> xs[i] < xs[i - 1]
    ensures CalculateRsi(xs, period)[|xs| - 1] == Some(0.0)
  {
    var t := |xs| - 1;
    FallingWindowMeans(xs, period, t);
    MeansGiveRsi(xs, period, t);
  }

  /** The RSI at t is `RsiFromMeans` of the rolling means of gains and losses at t. */
  lemma MeansGiveRsi(xs: seq<real>, period: Period, t: nat)
    requires t < |xs|
    ensures var gm, lm := RollingMean(Gains(xs), period)[t], RollingMean(Losses(xs), period)[t];
      && (gm.Some? ==> gm.value >= 0.0) && (lm.Some? ==> lm.value >= 0.0)
      && CalculateRsi(xs, period)[t] == RsiFromMeans(gm, lm)
  {
    RollingMeanNonNegative(Gains(xs), period);
    RollingMeanNonNegative(Losses(xs), period);
  }

  // ---------------------------------------------------------------- ATR

  /** The true range `max(high - low, |high - prev close|, |low - prev close|)` of one bar. */
  function TrueRangeOf(bar: Bar, prevClose: real): (tr: real)
    ensures tr >= bar.high - bar.low
    ensures tr >= Abs(bar.high - prevClose) && tr >= Abs(bar.low - prevClose)
    ensures tr >= 0.0
    ensures tr == bar.high - bar.low || tr == Abs(bar.high - prevClose) || tr == Abs(bar.low - prevClose)
  {
    Max(bar.high - bar.low, Max(Abs(bar.high - prevClose), Abs(bar.low - prevClose)))
  }

  /** The true-range series; at index 0 the shifted close is NaN, and `np.maximum` propagates it. */
  function TrueRange(bars: seq<Bar>): (tr: seq<Option<real>>)
    ensures |tr| == |bars|
    ensures forall t :: 0 <= t < |bars| ==> (tr[t].Some? <==> t > 0)
    ensures forall t :: 0 < t < |bars| ==> tr[t].value == TrueRangeOf(bars[t], bars[t - 1].close)
  {
    seq(|bars|, t requires 0 <= t < |bars| =>
      if t == 0 then None else Some(TrueRangeOf(bars[t], bars[t - 1].close)))
  }

  /** `calculate_atr`: the rolling mean of the true range. */
  function CalculateAtr(bars: seq<Bar>, period: Period): (atr: seq<Option<real>>)
    ensures |atr| == |bars|
  {
    RollingMean(TrueRange(bars), period)
  }

  /** The ATR is defined exactly from index `period` on, and is never negative. */
  lemma AtrDefinedFromPeriod(bars: seq<Bar>, period: Period)
    ensures forall t :: 0 <= t < |bars| ==> (CalculateAtr(bars, period)[t].Some? <==> period <= t)
    ensures forall t :: 0 <= t < |bars| && CalculateAtr(bars, period)[t].Some? ==>
              CalculateAtr(bars, period)[t].value >= 0.0
  {
    var tr := TrueRange(bars);
    forall t | 0 <= t < |bars|
      ensures CalculateAtr(bars, period)[t].Some? <==> period <= t
    {
      if period <= t + 1 {
        var win := Window(tr, period, t);
        if t + 1 == period {
          assert win[0] == tr[0];
        } else {
          assert AllDefined(win);
        }
      }
    }
    RollingMeanNonNegative(tr, period);
  }

  // ---------------------------------------------------- support / resistance

  datatype SupportResistance = SupportResistance(
    support: real, resistance: real, pivot: real, recentHigh: real, recentLow: real)

  /** `calculate_support_resistance`: classic pivot levels over the trailing `lookback` bars. */
  function CalculateSupportResistance(bars: seq<Bar>, lookback: Period): (r: SupportResistance)
    requires |bars| > 0
    ensures r.pivot == (r.recentHigh + r.recentLow + bars[|bars| - 1].close) / 3.0
    ensures r.support == 2.0 * r.pivot - r.recentHigh && r.resistance == 2.0 * r.pivot - r.recentLow
    ensures r.resistance - r.support == r.recentHigh - r.recentLow
    ensures r.recentHigh == MaxOf(Highs(Tail(bars, lookback)))
    ensures r.recentLow == MinOf(Lows(Tail(bars, lookback)))
  {
    var recent := Tail(bars, lookback);
    var recentHigh := MaxOf(Highs(recent));
    var recentLow := MinOf(Lows(recent));
    var pivot := (recentHigh + recentLow + bars[|bars| - 1].close) / 3.0;
    SupportResistance(2.0 * pivot - recentHigh, 2.0 * pivot - recentLow, pivot, recentHigh, recentLow)
  }

  /** The recent high and low bound every bar of the trailing window. */
  lemma RecentRangeBoundsWindow(bars: seq<Bar>, lookback: Period, k: nat)
    requires |bars| - lookback <= k < |bars|
    ensures bars[k].high <= CalculateSupportResistance(bars, lookback).recentHigh
    ensures CalculateSupportResistance(bars, lookback).recentLow <= bars[k].low
  {
    var recent := Tail(bars, lookback);
    var j := k - (|bars| - |recent|);
    assert recent[j] == bars[k];
    assert Highs(recent)[j] == bars[k].high;
    assert Lows(recent)[j] == bars[k].low;
  }

  /** On well-formed bars the last close lies between support and resistance, and so does the pivot. */
  lemma LevelsBracketPrice(bars: seq<Bar>, lookback: Period)
    requires |bars| > 0
    requires bars[|bars| - 1].WellFormed()
    ensures var r := CalculateSupportResistance(bars, lookback);
      && r.support <= bars[|bars| - 1].close <= r.resistance
      && r.support <= r.pivot <= r.resistance
  {
    var r := CalculateSupportResistance(bars, lookback);
    var last := |bars| - 1;
    assert bars[last].high <= r.recentHigh && r.recentLow <= bars[last].low;
  }

  // ---------------------------------------------------------------- volume

  datatype VolumeProfile = VolumeProfile(
    currentVolume: real, averageVolume: real, volumeRatio: real, isHighVolume: bool)

  /** The arithmetic mean, `Series.mean()`. */
  function Mean(s: seq<real>): (m: real)
    requires |s| > 0
    ensures m * (|s| as real) == Sum(s)
  {
    Sum(s) / |s| as real
  }

  /** `current / avg` when the average is positive, 1.0 otherwise. */
  function VolumeRatio(current: real, avg: real): (r: real)
    ensures avg > 0.0 ==> r * avg == current
    ensures avg <= 0.0 ==> r == 1.0
  {
    if avg > 0.0 then current / avg else 1.0
  }

  /** `calculate_volume_profile`: the last volume against the trailing mean. */
  function CalculateVolumeProfile(volume: seq<real>, period: Period): (r: VolumeProfile)
    requires |volume| > 0
    ensures r.currentVolume == volume[|volume| - 1]
    ensures r.averageVolume == Mean(Tail(volume, period))
    ensures r.averageVolume > 0.0 ==> r.volumeRatio * r.averageVolume == r.currentVolume
    ensures r.averageVolume <= 0.0 ==> r.volumeRatio == 1.0
    ensures r.isHighVolume <==> r.volumeRatio > HighVolumeRatio
  {
    var avg := Mean(Tail(volume, period));
    var current := volume[|volume| - 1];
    var ratio := VolumeRatio(current, avg);
    VolumeProfile(current, avg, ratio, ratio > HighVolumeRatio)
  }

  // ------------------------------------------------------- trend / crossover

  /**
   * `|short - long| / long * 100`; with a zero long EMA IEEE arithmetic gives
   * an infinity or NaN, here `None`.
   */
  function SeparationPercent(short: real, long: real): (r: Option<real>)
    ensures r.Some? <==> long != 0.0
    ensures long > 0.0 ==> r.value >= 0.0
  {
    if long != 0.0 then Some(Abs(short - long) / long * 100.0) else None
  }

  /** `min(separation / scale, 5.0)`; an infinite separation is capped at 5.0. */
  function CappedStrength(separation: Option<real>, scale: real): (s: real)
    requires scale > 0.0
    ensures s <= 5.0
    ensures separation.None? ==> s == 5.0
    ensures separation.Some? ==> s <= separation.value / scale && (s == 5.0 || s == separation.value / scale)
    ensures separation.Some? && separation.value >= 0.0 ==> s >= 0.0
  {
    match separation
    case None => 5.0
    case Some(v) => Min(v / scale, 5.0)
  }

  datatype TrendAnalysis = TrendAnalysis(
    direction: TrendDirection, strength: real, separationPercent: Option<real>,
    emaShort: real, emaLong: real)

  /** `calculate_trend_strength`: direction and strength from the separation of the last EMAs. */
  function CalculateTrendStrength(emaShort: seq<real>, emaLong: seq<real>): (r: TrendAnalysis)
    requires |emaShort| > 0 && |emaLong| > 0
    ensures r.emaShort == emaShort[|emaShort| - 1] && r.emaLong == emaLong[|emaLong| - 1]
    ensures r.direction == Bullish <==> r.emaShort > r.emaLong
    ensures r.direction == Bearish <==> r.emaShort < r.emaLong
    ensures r.direction == Flat <==> r.emaShort == r.emaLong
    ensures r.separationPercent == SeparationPercent(r.emaShort, r.emaLong)
    ensures r.direction == Flat ==> r.strength == 0.0
    ensures r.direction != Flat ==> r.strength == CappedStrength(r.separationPercent, 2.0)
    ensures r.strength <= 5.0
    ensures r.emaLong >= 0.0 ==> r.strength >= 0.0
  {
    var current_short := emaShort[|emaShort| - 1];
    var current_long := emaLong[|emaLong| - 1];
    var separation := SeparationPercent(current_short, current_long);
    if current_short > current_long then
      TrendAnalysis(Bullish, CappedStrength(separation, 2.0), separation, current_short, current_long)
    else if current_short < current_long then
      TrendAnalysis(Bearish, CappedStrength(separation, 2.0), separation, current_short, current_long)
    else
      TrendAnalysis(Flat, 0.0, separation, current_short, current_long)
  }

  datatype CrossoverAnalysis = CrossoverAnalysis(
    crossover: Crossover, signalStrength: real,
    currentSeparation: Option<real>, previousSeparation: Option<real>)

  /** `detect_ema_crossover`: a sign change of short - long between the last two points. */
  function DetectEmaCrossover(emaShort: seq<real>, emaLong: seq<real>): (r: CrossoverAnalysis)
    ensures |emaShort| < 2 || |emaLong| < 2 ==> r.crossover == NoCrossover && r.signalStrength == 0.0
    ensures r.crossover == CrossedAbove <==>
              && |emaShort| >= 2 && |emaLong| >= 2
              && emaShort[|emaShort| - 2] <= emaLong[|emaLong| - 2]
              && emaShort[|emaShort| - 1] > emaLong[|emaLong| - 1]
    ensures r.crossover == CrossedBelow <==>
              && |emaShort| >= 2 && |emaLong| >= 2
              && emaShort[|emaShort| - 2] >= emaLong[|emaLong| - 2]
              && emaShort[|emaShort| - 1] < emaLong[|emaLong| - 1]
    ensures r.crossover == NoCrossover ==> r.signalStrength == 0.0
    ensures r.crossover != NoCrossover ==>
              r.signalStrength
              == CappedStrength(SeparationPercent(emaShort[|emaShort| - 1], emaLong[|emaLong| - 1]), 1.0)
    ensures |emaShort| >= 2 && |emaLong| >= 2 ==>
              && r.currentSeparation == Some(Abs(emaShort[|emaShort| - 1] - emaLong[|emaLong| - 1]))
              && r.previousSeparation == Some(Abs(emaShort[|emaShort| - 2] - emaLong[|emaLong| - 2]))
    ensures r.signalStrength <= 5.0
    ensures |emaLong| > 0 && emaLong[|emaLong| - 1] >= 0.0 ==> r.signalStrength >= 0.0
  {
    if |emaShort| < 2 || |emaLong| < 2 then CrossoverAnalysis(NoCrossover, 0.0, None, None)
    else
      var current_short := emaShort[|emaShort| - 1];
      var current_long := emaLong[|emaLong| - 1];
      var prev_short := emaShort[|emaShort| - 2];
      var prev_long := emaLong[|emaLong| - 2];
      var cur := Some(Abs(current_short - current_long));
      var prev := Some(Abs(prev_short - prev_long));
      if prev_short <= prev_long && current_short > current_long then
        CrossoverAnalysis(CrossedAbove, CappedStrength(SeparationPercent(current_short, current_long), 1.0), cur, prev)
      else if prev_short >= prev_long && current_short < current_long then
        CrossoverAnalysis(CrossedBelow, CappedStrength(SeparationPercent(current_short, current_long), 1.0), cur, prev)
      else
        CrossoverAnalysis(NoCrossover, 0.0, cur, prev)
  }

  /**
   * On strictly rising closes the short EMA crosses above the long one at the
   * second bar, and the trend is bullish at every later bar.
   */
  lemma RisingClosesCrossAbove(xs: seq<real>, shortPeriod: Period, longPeriod: Period, n: nat)
    requires shortPeriod < longPeriod
    requires 2 <= n <= |xs|
    requires forall i :: 0 < i < |xs| ==> xs[i - 1] < xs[i]
    ensures DetectEmaCrossover(CalculateEma(xs[..2], shortPeriod), CalculateEma(xs[..2], longPeriod)).crossover
            == CrossedAbove
    ensures CalculateTrendStrength(CalculateEma(xs[..n], shortPeriod), CalculateEma(xs[..n], longPeriod)).direction
            == Bullish
  {
    AlphaDecreasing(shortPeriod, longPeriod);
    var fast, slow := Alpha(shortPeriod), Alpha(longPeriod);
    FastEmaLeadsOnRise(xs[..2], fast, slow, 0);
    FastEmaLeadsOnRise(xs[..2], fast, slow, 1);
    FastEmaLeadsOnRise(xs[..n], fast, slow, n - 1);
  }

  // ------------------------------------------------------------ RSI condition

  datatype RsiAnalysis = RsiAnalysis(
    currentRsi: Option<real>, condition: RsiCondition, signalBias: Signal,
    momentum: Option<real>, isOverbought: bool, isOversold: bool)
  {
    /** The flags agree with the current value and the levels of `cfg`. */
    predicate ConsistentWith(cfg: Config)
    {
      && (isOverbought ==> currentRsi.Some? && currentRsi.value >= cfg.rsiOverbought)
      && (isOversold ==> currentRsi.Some? && currentRsi.value <= cfg.rsiOversold)
    }
  }

  /** `analyze_rsi_conditions`; a NaN RSI fails every comparison. */
  function AnalyzeRsiConditions(cfg: Config, rsi: seq<Option<real>>): (r: RsiAnalysis)
    requires |rsi| > 0
    ensures r.currentRsi == rsi[|rsi| - 1]
    ensures r.ConsistentWith(cfg)
    ensures r.isOverbought <==> r.currentRsi.Some? && r.currentRsi.value >= cfg.rsiOverbought
    ensures r.isOversold <==> r.currentRsi.Some? && r.currentRsi.value <= cfg.rsiOversold
    ensures r.condition == Overbought <==> r.isOverbought
    ensures r.condition == Oversold <==> r.isOversold && !r.isOverbought
    ensures cfg.rsiOversold < cfg.rsiOverbought ==> !(r.isOverbought && r.isOversold)
    ensures r.signalBias == (match r.condition case Overbought => Sell case Oversold => Buy case InRange => Neutral)
    ensures |rsi| < 2 ==> r.momentum == Some(0.0)
    ensures |rsi| >= 2 ==>
              (r.momentum.Some? <==> rsi[|rsi| - 1].Some? && rsi[|rsi| - 2].Some?)
    ensures |rsi| >= 2 && r.momentum.Some? ==>
              r.momentum.value == rsi[|rsi| - 1].value - rsi[|rsi| - 2].value
  {
    var current := rsi[|rsi| - 1];
    var overbought := current.Some? && current.value >= cfg.rsiOverbought;
    var oversold := current.Some? && current.value <= cfg.rsiOversold;
    var condition := if overbought then Overbought else if oversold then Oversold else InRange;
    var bias := if overbought then Sell else if oversold then Buy else Neutral;
    var momentum :=
      if |rsi| >= 2 then
        (if current.Some? && rsi[|rsi| - 2].Some? then Some(current.value - rsi[|rsi| - 2].value) else None)
      else Some(0.0);
    RsiAnalysis(current, condition, bias, momentum, overbought, oversold)
  }

  // ---------------------------------------------------------------- snapshot

  /** The columns `calculate_all_indicators` reads; `open` is not among them. */
  const EngineColumns: set<string> := {"close", "high", "low", "volume"}

  datatype IndicatorSnapshot = IndicatorSnapshot(
    emaShort: seq<real>,
    emaLong: seq<real>,
    rsi: seq<Option<real>>,
    atr: seq<Option<real>>,
    currentPrice: real,
    supportResistance: SupportResistance,
    volumeProfile: VolumeProfile,
    trend: TrendAnalysis,
    crossover: CrossoverAnalysis,
    rsiAnalysis: RsiAnalysis,
    timestamp: int)

  /**
   * `calculate_all_indicators`. A missing column (KeyError) or an empty frame
   * (IndexError at `iloc[-1]`) is caught and gives the empty result, `None`.
   */
  function CalculateAllIndicators(cfg: Config, df: Frame): (r: Option<IndicatorSnapshot>)
    ensures r.Some? <==> EngineColumns <= df.columns && |df.rows| > 0
    ensures r.Some? ==>
              var s := r.value;
              var last := df.rows[|df.rows| - 1];
              && |s.emaShort| == |s.emaLong| == |s.rsi| == |s.atr| == |df.rows|
              && s.currentPrice == last.close
              && s.timestamp == last.timestamp
              && s.emaShort == CalculateEma(Closes(df.rows), cfg.emaShortPeriod)
              && s.emaLong == CalculateEma(Closes(df.rows), cfg.emaLongPeriod)
              && s.rsi == CalculateRsi(Closes(df.rows), cfg.rsiPeriod)
              && s.atr == CalculateAtr(df.rows, AtrPeriod)
              && s.supportResistance == CalculateSupportResistance(df.rows, SupportResistanceLookback)
              && s.volumeProfile == CalculateVolumeProfile(Volumes(df.rows), VolumePeriod)
              && s.trend == CalculateTrendStrength(s.emaShort, s.emaLong)
              && s.crossover == DetectEmaCrossover(s.emaShort, s.emaLong)
              && s.rsiAnalysis == AnalyzeRsiConditions(cfg, s.rsi)
  {
    if !(EngineColumns <= df.columns) || |df.rows| == 0 then None
    else
      var bars := df.rows;
      var closes := Closes(bars);
      var emaShort := CalculateEma(closes, cfg.emaShortPeriod);
      var emaLong := CalculateEma(closes, cfg.emaLongPeriod);
      var rsi := CalculateRsi(closes, cfg.rsiPeriod);
      Some(IndicatorSnapshot(
        emaShort, emaLong, rsi, CalculateAtr(bars, AtrPeriod),
        bars[|bars| - 1].close,
        CalculateSupportResistance(bars, SupportResistanceLookback),
        CalculateVolumeProfile(Volumes(bars), VolumePeriod),
        CalculateTrendStrength(emaShort, emaLong),
        DetectEmaCrossover(emaShort, emaLong),
        AnalyzeRsiConditions(cfg, rsi),
        bars[|bars| - 1].timestamp))
  }
}
