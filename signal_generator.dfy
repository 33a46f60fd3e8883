/**
 * The signal generator: four factor analyzers turn an indicator snapshot into
 * judgments, a weighted vote combines them into one signal, and ATR-based
 * risk levels and a recommendation tier are derived from that signal.
 */
module SignalGenerator {
  import opened Wrappers
  import opened Series
  import opened Frames
  import opened Settings
  import opened Signals
  import opened Indicators

  /** The reasons an analyzer records; each stands for one formatted message. */
  datatype Reason =
    | EmaCrossedAbove(shortPeriod: int, longPeriod: int)
    | EmaCrossedBelow(shortPeriod: int, longPeriod: int)
    | StrongBullishTrend(separation: Option<real>)
    | StrongBearishTrend(separation: Option<real>)
    | NoEmaSignal
    | RsiOversoldAt(rsi: real)
    | RsiOverboughtAt(rsi: real)
    | StrongRsiMomentum(momentum: real)
    | NegativeRsiMomentum(momentum: real)
    | RsiNeutralAt(currentRsi: Option<real>)
    | HighVolumeConfirmation(ratio: real)
    | LowVolumeWarning(ratio: real)
    | NormalVolume(ratio: real)
    | NearSupport(level: real)
    | NearResistance(level: real)
    | BetweenLevels(support: real, resistance: real)
    | StrongTrendContext(direction: TrendDirection)

  /** What one analyzer returns: its vote, how strongly, and why. */
  datatype Judgment = Judgment(signal: Signal, strength: real, reasons: seq<Reason>)

  // ---------------------------------------------------------------- analyzers

  /** `_analyze_ema_signal`: a crossover decides; without one, only a strong trend votes, at half strength. */
  function AnalyzeEmaSignal(cfg: Config, crossover: CrossoverAnalysis, trend: TrendAnalysis): (j: Judgment)
    ensures |j.reasons| == 1
    ensures IsVote(j.signal)
    ensures crossover.crossover == CrossedAbove ==> j.signal == Buy && j.strength == crossover.signalStrength
    ensures crossover.crossover == CrossedBelow ==> j.signal == Sell && j.strength == crossover.signalStrength
    ensures crossover.crossover == NoCrossover ==>
              && (j.signal == Buy <==> trend.direction == Bullish && trend.strength > 2.0)
              && (j.signal == Sell <==> trend.direction == Bearish && trend.strength > 2.0)
              && (j.signal != Hold ==> j.strength * 2.0 == trend.strength)
    ensures j.signal == Hold ==> j.strength == 0.0 && j.reasons == [NoEmaSignal]
  {
    match crossover.crossover
    case CrossedAbove =>
      Judgment(Buy, crossover.signalStrength, [EmaCrossedAbove(cfg.emaShortPeriod, cfg.emaLongPeriod)])
    case CrossedBelow =>
      Judgment(Sell, crossover.signalStrength, [EmaCrossedBelow(cfg.emaShortPeriod, cfg.emaLongPeriod)])
    case NoCrossover =>
      if trend.direction == Bullish && trend.strength > 2.0 then
        Judgment(Buy, trend.strength * 0.5, [StrongBullishTrend(trend.separationPercent)])
      else if trend.direction == Bearish && trend.strength > 2.0 then
        Judgment(Sell, trend.strength * 0.5, [StrongBearishTrend(trend.separationPercent)])
      else
        Judgment(Hold, 0.0, [NoEmaSignal])
  }

  /**
   * `_analyze_rsi_signal`: oversold buys and overbought sells, by how far past
   * the level the RSI is; otherwise a momentum swing of more than 5 points votes.
   * A NaN RSI or momentum fails every comparison, giving HOLD.
   */
  function AnalyzeRsiSignal(cfg: Config, rsi: RsiAnalysis): (j: Judgment)
    requires rsi.ConsistentWith(cfg)
    ensures |j.reasons| == 1
    ensures IsVote(j.signal)
    ensures j.strength >= 0.0
    ensures rsi.isOversold ==> j.signal == Buy && j.strength * 10.0 == cfg.rsiOversold - rsi.currentRsi.value
    ensures !rsi.isOversold && rsi.isOverbought ==>
              j.signal == Sell && j.strength * 10.0 == rsi.currentRsi.value - cfg.rsiOverbought
    ensures !rsi.isOversold && !rsi.isOverbought ==>
              && (j.signal == Buy <==>
                    rsi.momentum.Some? && rsi.momentum.value > 5.0 && rsi.currentRsi.Some? && rsi.currentRsi.value < 60.0)
              && (j.signal == Sell <==>
                    && !(rsi.momentum.Some? && rsi.momentum.value > 5.0 && rsi.currentRsi.Some? && rsi.currentRsi.value < 60.0)
                    && rsi.momentum.Some? && rsi.momentum.value < -5.0 && rsi.currentRsi.Some? && rsi.currentRsi.value > 40.0)
              && (j.signal != Hold ==> j.strength == Min(Abs(rsi.momentum.value) / 10.0, 2.0))
    ensures j.strength <= 2.0 || rsi.isOversold || rsi.isOverbought
    ensures j.signal == Hold ==> j.strength == 0.0
  {
    var current := rsi.currentRsi;
    if rsi.isOversold then
      Judgment(Buy, (cfg.rsiOversold - current.value) / 10.0, [RsiOversoldAt(current.value)])
    else if rsi.isOverbought then
      Judgment(Sell, (current.value - cfg.rsiOverbought) / 10.0, [RsiOverboughtAt(current.value)])
    else if rsi.momentum.Some? && rsi.momentum.value > 5.0 && current.Some? && current.value < 60.0 then
      Judgment(Buy, Min(rsi.momentum.value / 10.0, 2.0), [StrongRsiMomentum(rsi.momentum.value)])
    else if rsi.momentum.Some? && rsi.momentum.value < -5.0 && current.Some? && current.value > 40.0 then
      Judgment(Sell, Min(Abs(rsi.momentum.value) / 10.0, 2.0), [NegativeRsiMomentum(rsi.momentum.value)])
    else
      Judgment(Hold, 0.0, [RsiNeutralAt(current)])
  }

  /** `_analyze_volume_signal`: volume only confirms, it never votes. */
  function AnalyzeVolumeSignal(vp: VolumeProfile): (j: Judgment)
    ensures j.signal == Neutral && |j.reasons| == 1
    ensures vp.isHighVolume ==> j.strength <= 3.0
    ensures vp.isHighVolume && vp.volumeRatio > HighVolumeRatio ==> j.strength > 1.0
    ensures vp.isHighVolume && vp.volumeRatio <= 2.5 ==> j.strength == (vp.volumeRatio - 1.0) * 2.0
    ensures vp.isHighVolume && vp.volumeRatio > 2.5 ==> j.strength == 3.0
    ensures !vp.isHighVolume && vp.volumeRatio < 0.5 ==> j.strength == -1.0
    ensures !vp.isHighVolume && vp.volumeRatio >= 0.5 ==> j.strength == 0.0
  {
    if vp.isHighVolume then
      Judgment(Neutral, Min((vp.volumeRatio - 1.0) * 2.0, 3.0), [HighVolumeConfirmation(vp.volumeRatio)])
    else if vp.volumeRatio < 0.5 then
      Judgment(Neutral, -1.0, [LowVolumeWarning(vp.volumeRatio)])
    else
      Judgment(Neutral, 0.0, [NormalVolume(vp.volumeRatio)])
  }

  /**
   * `_analyze_trend_signal`: a price at most 1% above support (or anywhere
   * below it) buys, else one at least 99% of resistance sells; a strong trend
   * adds a second reason.
   */
  function AnalyzeTrendSignal(price: real, sr: SupportResistance, trend: TrendAnalysis): (j: Judgment)
    ensures IsVote(j.signal)
    ensures j.signal == Buy <==> price <= sr.support * 1.01
    ensures j.signal == Sell <==> price > sr.support * 1.01 && price >= sr.resistance * 0.99
    ensures j.strength == if j.signal == Hold then 0.0 else 2.0
    ensures |j.reasons| == if trend.strength > 3.0 then 2 else 1
    ensures |j.reasons| == 2 ==> j.reasons[1] == StrongTrendContext(trend.direction)
  {
    var context := if trend.strength > 3.0 then [StrongTrendContext(trend.direction)] else [];
    if price <= sr.support * 1.01 then
      Judgment(Buy, 2.0, [NearSupport(sr.support)] + context)
    else if price >= sr.resistance * 0.99 then
      Judgment(Sell, 2.0, [NearResistance(sr.resistance)] + context)
    else
      Judgment(Hold, 0.0, [BetweenLevels(sr.support, sr.resistance)] + context)
  }

  // ---------------------------------------------------------------- the vote

  /** The three buckets of `signal_scores`. */
  datatype Scores = Scores(buy: real, sell: real, hold: real)

  /** The components in vote order, each with its weight. */
  function Components(cfg: Config, ema: Judgment, rsi: Judgment, volume: Judgment, trend: Judgment)
    : (c: seq<(Judgment, real)>)
    ensures |c| == 4
  {
    [(ema, cfg.signalWeights.emaCrossover),
     (rsi, cfg.signalWeights.rsiConfirmation),
     (volume, cfg.signalWeights.volumeConfirmation),
     (trend, cfg.signalWeights.trendStrength)]
  }

  /** What one weighted judgment adds to `bucket`. */
  function Contribution(j: Judgment, weight: real, bucket: Signal): real
  {
    if j.signal == bucket then j.strength * weight else 0.0
  }

  /** The score of `bucket` after the components have voted. */
  function BucketScore(components: seq<(Judgment, real)>, bucket: Signal): real
  {
    if |components| == 0 then 0.0
    else
      var last := components[|components| - 1];
      BucketScore(components[..|components| - 1], bucket) + Contribution(last.0, last.1, bucket)
  }

  /** A bucket no component names scores 0; non-negative strengths and weights give a non-negative score. */
  lemma {:induction false} BucketScoreBounds(components: seq<(Judgment, real)>, bucket: Signal)
    ensures (forall i :: 0 <= i < |components| ==> components[i].0.signal != bucket) ==>
              BucketScore(components, bucket) == 0.0
    ensures (forall i :: 0 <= i < |components| ==> components[i].0.strength >= 0.0 && components[i].1 >= 0.0) ==>
              BucketScore(components, bucket) >= 0.0
  {
    if |components| > 0 {
      var init := components[..|components| - 1];
      var last := components[|components| - 1];
      BucketScoreBounds(init, bucket);
      assert forall i :: 0 <= i < |init| ==> init[i] == components[i];
      if last.0.strength >= 0.0 && last.1 >= 0.0 {
        MulNonNegative(last.0.strength, last.1);
      }
    }
  }

  /** Voting one more component adds its contribution to each bucket. */
  lemma BucketScoreStep(components: seq<(Judgment, real)>, i: nat)
    requires i < |components|
    ensures forall b :: BucketScore(components[..i + 1], b)
                        == BucketScore(components[..i], b) + Contribution(components[i].0, components[i].1, b)
  {
    assert components[..i + 1][..i] == components[..i];
  }

  function ScoreOf(scores: Scores, s: Signal): real
  {
    match s
    case Buy => scores.buy
    case Sell => scores.sell
    case _ => scores.hold
  }

  /** `max(signal_scores, key=signal_scores.get)`: the first maximum in the order BUY, SELL, HOLD. */
  function Winner(scores: Scores): (w: Signal)
    ensures IsVote(w)
    ensures w == Buy <==> scores.buy >= scores.sell && scores.buy >= scores.hold
    ensures w == Sell <==> scores.sell > scores.buy && scores.sell >= scores.hold
    ensures w == Hold <==> scores.hold > scores.buy && scores.hold > scores.sell
    ensures ScoreOf(scores, w) >= scores.buy && ScoreOf(scores, w) >= scores.sell && ScoreOf(scores, w) >= scores.hold
  {
    if scores.sell > scores.buy then (if scores.hold > scores.sell then Hold else Sell)
    else if scores.hold > scores.buy then Hold
    else Buy
  }

  /** Python's `max(a, b, c)` on counts. */
  function MaxCount(a: nat, b: nat, c: nat): (m: nat)
    ensures m >= a && m >= b && m >= c && (m == a || m == b || m == c)
  {
    if b > a then (if c > b then c else b) else if c > a then c else a
  }

  /** `_calculate_signal_consensus`: the share of the largest agreeing group among EMA, RSI and structure. */
  function SignalConsensus(ema: Signal, rsi: Signal, trend: Signal): (c: real)
    ensures var s := [ema, rsi, trend];
      c * 3.0 == MaxCount(CountOf(s, Buy), CountOf(s, Sell), CountOf(s, Hold)) as real
    ensures 0.0 <= c <= 1.0
    ensures IsVote(ema) && IsVote(rsi) && IsVote(trend) ==> 1.0 / 3.0 <= c
    ensures IsVote(ema) && IsVote(rsi) && IsVote(trend) ==> (c == 1.0 <==> ema == rsi == trend)
  {
    var s := [ema, rsi, trend];
    CountOfThree(ema, rsi, trend, Buy);
    CountOfThree(ema, rsi, trend, Sell);
    CountOfThree(ema, rsi, trend, Hold);
    MaxCount(CountOf(s, Buy), CountOf(s, Sell), CountOf(s, Hold)) as real / 3.0
  }

  /** `min(signal_strength * signal_consensus, 10.0)`. */
  function Confidence(strength: real, consensus: real): (c: real)
    ensures c <= 10.0
    ensures c <= strength * consensus
    ensures c < 10.0 ==> c == strength * consensus
    ensures strength >= 0.0 && consensus >= 0.0 ==> c >= 0.0
  {
    Min(strength * consensus, 10.0)
  }

  datatype Composite = Composite(signal: Signal, strength: real, confidence: real, scores: Scores, consensus: real)

  /**
   * The weighted vote of `_calculate_composite_signal`: the winning bucket,
   * demoted to HOLD when it is BUY or SELL with a score below 1.0, its score
   * as the strength, and the strength scaled by the consensus, capped at 10,
   * as the confidence.
   */
  function ComposeSignal(cfg: Config, ema: Judgment, rsi: Judgment, volume: Judgment, trend: Judgment)
    : (c: Composite)
    ensures var components := Components(cfg, ema, rsi, volume, trend);
      c.scores == Scores(BucketScore(components, Buy), BucketScore(components, Sell), BucketScore(components, Hold))
    ensures IsVote(c.signal)
    ensures c.strength >= c.scores.buy && c.strength >= c.scores.sell && c.strength >= c.scores.hold
    ensures c.strength == c.scores.buy || c.strength == c.scores.sell || c.strength == c.scores.hold
    ensures c.signal == Buy <==> Winner(c.scores) == Buy && c.strength >= 1.0
    ensures c.signal == Sell <==> Winner(c.scores) == Sell && c.strength >= 1.0
    ensures c.signal != Hold ==> c.strength >= 1.0
    ensures c.consensus == SignalConsensus(ema.signal, rsi.signal, trend.signal)
    ensures c.confidence == Confidence(c.strength, c.consensus)
  {
    var components := Components(cfg, ema, rsi, volume, trend);
    var scores := Scores(BucketScore(components, Buy), BucketScore(components, Sell), BucketScore(components, Hold));
    var best := Winner(scores);
    var maxScore := ScoreOf(scores, best);
    var final := if best != Hold && maxScore < 1.0 then Hold else best;
    var consensus := SignalConsensus(ema.signal, rsi.signal, trend.signal);
    Composite(final, maxScore, Confidence(maxScore, consensus), scores, consensus)
  }

  /** `_calculate_composite_signal`: the bucket loop over the weighted components. */
  method CalculateCompositeSignal(cfg: Config, ema: Judgment, rsi: Judgment, volume: Judgment, trend: Judgment)
    returns (c: Composite)
    ensures c == ComposeSignal(cfg, ema, rsi, volume, trend)
  {
    var components := Components(cfg, ema, rsi, volume, trend);
    var scores: map<Signal, real> := map[Buy := 0.0, Sell := 0.0, Hold := 0.0];
    var i := 0;
    while i < |components|
      invariant 0 <= i <= |components|
      invariant scores.Keys == {Buy, Sell, Hold}
      invariant forall l :: l in scores ==> scores[l] == BucketScore(components[..i], l)
    {
      var (component, weight) := components[i];
      BucketScoreStep(components, i);
      if component.signal in scores {
        scores := scores[component.signal := scores[component.signal] + component.strength * weight];
      }
      i := i + 1;
    }
    assert components[..i] == components;
    var sc := Scores(scores[Buy], scores[Sell], scores[Hold]);
    var best := Winner(sc);
    var maxScore := ScoreOf(sc, best);
    var final := if best != Hold && maxScore < 1.0 then Hold else best;
    var consensus := SignalConsensus(ema.signal, rsi.signal, trend.signal);
    c := Composite(final, maxScore, Confidence(maxScore, consensus), sc, consensus);
  }

  /** Each bucket holds exactly the weighted strengths of the EMA, RSI and structure votes for it. */
  lemma {:induction false} BucketsOfComponents(cfg: Config, ema: Judgment, rsi: Judgment, volume: Judgment,
                                              trend: Judgment, bucket: Signal)
    requires volume.signal == Neutral && IsVote(bucket)
    ensures BucketScore(Components(cfg, ema, rsi, volume, trend), bucket)
            == Contribution(ema, cfg.signalWeights.emaCrossover, bucket)
             + Contribution(rsi, cfg.signalWeights.rsiConfirmation, bucket)
             + Contribution(trend, cfg.signalWeights.trendStrength, bucket)
  {
    var c := Components(cfg, ema, rsi, volume, trend);
    var w := cfg.signalWeights;
    assert c[..3] == [c[0], c[1], c[2]];
    assert c[..3][..2] == [c[0], c[1]];
    assert c[..3][..2][..1] == [c[0]];
    assert c[..3][..2][..1][..0] == [];
    assert BucketScore([c[0]], bucket) == Contribution(ema, w.emaCrossover, bucket);
    assert BucketScore([c[0], c[1]], bucket)
        == Contribution(ema, w.emaCrossover, bucket) + Contribution(rsi, w.rsiConfirmation, bucket);
    assert BucketScore([c[0], c[1], c[2]], bucket)
        == Contribution(ema, w.emaCrossover, bucket) + Contribution(rsi, w.rsiConfirmation, bucket);
    assert BucketScore(c, bucket) == BucketScore(c[..3], bucket) + Contribution(trend, w.trendStrength, bucket);
  }

  /** Volume's NEUTRAL judgment never changes the vote, whatever its strength. */
  lemma VolumeNeverVotes(cfg: Config, ema: Judgment, rsi: Judgment, volume: Judgment, other: Judgment,
                         trend: Judgment)
    requires volume.signal == Neutral && other.signal == Neutral
    ensures ComposeSignal(cfg, ema, rsi, volume, trend) == ComposeSignal(cfg, ema, rsi, other, trend)
  {
    BucketsOfComponents(cfg, ema, rsi, volume, trend, Buy);
    BucketsOfComponents(cfg, ema, rsi, volume, trend, Sell);
    BucketsOfComponents(cfg, ema, rsi, volume, trend, Hold);
    BucketsOfComponents(cfg, ema, rsi, other, trend, Buy);
    BucketsOfComponents(cfg, ema, rsi, other, trend, Sell);
    BucketsOfComponents(cfg, ema, rsi, other, trend, Hold);
  }

  /** When no voting component has any strength, the composite is HOLD with strength and confidence 0. */
  lemma QuietComponentsHold(cfg: Config, ema: Judgment, rsi: Judgment, volume: Judgment, trend: Judgment)
    requires volume.signal == Neutral
    requires ema.strength == 0.0 && rsi.strength == 0.0 && trend.strength == 0.0
    ensures var c := ComposeSignal(cfg, ema, rsi, volume, trend);
      c.signal == Hold && c.strength == 0.0 && c.confidence == 0.0
  {
    BucketsOfComponents(cfg, ema, rsi, volume, trend, Buy);
    BucketsOfComponents(cfg, ema, rsi, volume, trend, Sell);
    BucketsOfComponents(cfg, ema, rsi, volume, trend, Hold);
  }

  /** With non-negative weights and non-negative voting strengths, strength and confidence are non-negative. */
  lemma CompositeNonNegative(cfg: Config, ema: Judgment, rsi: Judgment, volume: Judgment, trend: Judgment)
    requires cfg.Sound() && volume.signal == Neutral
    requires ema.strength >= 0.0 && rsi.strength >= 0.0 && trend.strength >= 0.0
    ensures var c := ComposeSignal(cfg, ema, rsi, volume, trend);
      c.strength >= 0.0 && 0.0 <= c.confidence <= 10.0
  {
    var w := cfg.signalWeights;
    MulNonNegative(ema.strength, w.emaCrossover);
    MulNonNegative(rsi.strength, w.rsiConfirmation);
    MulNonNegative(trend.strength, w.trendStrength);
    BucketsOfComponents(cfg, ema, rsi, volume, trend, Buy);
    BucketsOfComponents(cfg, ema, rsi, volume, trend, Sell);
    BucketsOfComponents(cfg, ema, rsi, volume, trend, Hold);
    var c := ComposeSignal(cfg, ema, rsi, volume, trend);
    MulNonNegative(c.strength, c.consensus);
  }

  // ---------------------------------------------------------------- risk

  /**
   * `_calculate_risk_levels`, before rounding. `Undefined` is the record a
   * NaN ATR produces: every level NaN and the ratio 0.
   */
  datatype Risk =
    | Levels(stopLoss: real, takeProfit: real, riskAmount: real, rewardAmount: real,
             riskRewardRatio: real, atrValue: real)
    | Undefined

  /** The risk and reward of a stop and a target around the price, and their ratio (0 when there is no risk). */
  function RiskMetrics(price: real, stopLoss: real, takeProfit: real, atr: real): (r: Risk)
    ensures r.Levels? && r.stopLoss == stopLoss && r.takeProfit == takeProfit && r.atrValue == atr
    ensures r.riskAmount == Abs(price - stopLoss) && r.rewardAmount == Abs(takeProfit - price)
    ensures r.riskAmount > 0.0 ==> r.riskRewardRatio == r.rewardAmount / r.riskAmount
    ensures r.riskAmount == 0.0 ==> r.riskRewardRatio == 0.0
    ensures r.riskRewardRatio >= 0.0
  {
    var risk := Abs(price - stopLoss);
    var reward := Abs(takeProfit - price);
    Levels(stopLoss, takeProfit, risk, reward, if risk > 0.0 then reward / risk else 0.0, atr)
  }

  /** The stop: `d` below the price for BUY but never below 99% of support, `d` above for SELL but never above 101% of resistance, `d` below for HOLD. */
  function StopLoss(price: real, d: real, sr: SupportResistance, signal: Signal): (s: real)
    ensures signal == Buy ==> s >= price - d && s >= sr.support * 0.99 && (s == price - d || s == sr.support * 0.99)
    ensures signal == Sell ==> s <= price + d && s <= sr.resistance * 1.01 && (s == price + d || s == sr.resistance * 1.01)
    ensures signal != Buy && signal != Sell ==> s == price - d
  {
    if signal == Buy then Max(price - d, sr.support * 0.99)
    else if signal == Sell then Min(price + d, sr.resistance * 1.01)
    else price - d
  }

  /** The target: `d * takeProfitRatio` beyond the price in the trade's direction, `d` above it for HOLD. */
  function TakeProfit(cfg: Config, price: real, d: real, signal: Signal): (t: real)
    ensures signal == Buy ==> t - price == d * cfg.takeProfitRatio
    ensures signal == Sell ==> price - t == d * cfg.takeProfitRatio
    ensures signal != Buy && signal != Sell ==> t - price == d
  {
    if signal == Buy then price + d * cfg.takeProfitRatio
    else if signal == Sell then price - d * cfg.takeProfitRatio
    else price + d
  }

  /** `atr_stop_distance`. */
  function StopDistance(cfg: Config, atr: real): (d: real)
    ensures cfg.stopLossAtrMultiplier > 0.0 && atr > 0.0 ==> d > 0.0
  {
    atr * cfg.stopLossAtrMultiplier
  }

  /**
   * `_calculate_risk_levels`: the stop and target for a stop distance of
   * `d = ATR * stopLossAtrMultiplier`, and their risk metrics.
   */
  function CalculateRiskLevels(cfg: Config, price: real, atr: Option<real>, sr: SupportResistance, signal: Signal)
    : (r: Risk)
    ensures r.Undefined? <==> atr.None?
    ensures r.Levels? ==>
              var d := StopDistance(cfg, atr.value);
              r == RiskMetrics(price, StopLoss(price, d, sr, signal), TakeProfit(cfg, price, d, signal), atr.value)
  {
    match atr
    case None => Undefined
    case Some(a) =>
      var d := StopDistance(cfg, a);
      RiskMetrics(price, StopLoss(price, d, sr, signal), TakeProfit(cfg, price, d, signal), a)
  }

  lemma DivSelf(x: real)
    requires x > 0.0
    ensures x / x == 1.0
  {
  }

  lemma DivAtLeast(reward: real, risk: real, d: real, k: real)
    requires 0.0 < risk <= d && k > 0.0 && reward == d * k
    ensures reward / risk >= k
  {
    MulLess2(risk, d, k);
    assert (reward / risk) * risk == reward;
    if reward / risk < k {
      MulLess(risk, reward / risk, k);
    }
  }

  /**
   * A BUY at a positive price at or above support, with a positive ATR, puts
   * the stop below the price and the target above it, and rewards at least
   * `takeProfitRatio` times the risk.
   */
  lemma BuyRiskBracketsPrice(cfg: Config, price: real, atr: real, sr: SupportResistance)
    requires cfg.Sound() && atr > 0.0 && price > 0.0 && sr.support <= price
    ensures var r := CalculateRiskLevels(cfg, price, Some(atr), sr, Buy);
      && r.stopLoss < price < r.takeProfit
      && r.riskRewardRatio >= cfg.takeProfitRatio
  {
    var d := atr * cfg.stopLossAtrMultiplier;
    MulPositive(atr, cfg.stopLossAtrMultiplier);
    MulPositive(d, cfg.takeProfitRatio);
    assert sr.support * 0.99 < price;
    var r := CalculateRiskLevels(cfg, price, Some(atr), sr, Buy);
    DivAtLeast(r.rewardAmount, r.riskAmount, d, cfg.takeProfitRatio);
  }

  /** The mirror image for a SELL at or below resistance. */
  lemma SellRiskBracketsPrice(cfg: Config, price: real, atr: real, sr: SupportResistance)
    requires cfg.Sound() && atr > 0.0 && price > 0.0 && price <= sr.resistance
    ensures var r := CalculateRiskLevels(cfg, price, Some(atr), sr, Sell);
      && r.takeProfit < price < r.stopLoss
      && r.riskRewardRatio >= cfg.takeProfitRatio
  {
    var d := atr * cfg.stopLossAtrMultiplier;
    MulPositive(atr, cfg.stopLossAtrMultiplier);
    MulPositive(d, cfg.takeProfitRatio);
    assert sr.resistance * 1.01 > price;
    var r := CalculateRiskLevels(cfg, price, Some(atr), sr, Sell);
    DivAtLeast(r.rewardAmount, r.riskAmount, d, cfg.takeProfitRatio);
  }

  /** A HOLD with a positive ATR sets symmetric levels, so the ratio is exactly 1. */
  lemma HoldRiskIsSymmetric(cfg: Config, price: real, atr: real, sr: SupportResistance)
    requires cfg.Sound() && atr > 0.0
    ensures var r := CalculateRiskLevels(cfg, price, Some(atr), sr, Hold);
      r.riskAmount == r.rewardAmount > 0.0 && r.riskRewardRatio == 1.0
  {
    MulPositive(atr, cfg.stopLossAtrMultiplier);
    var r := CalculateRiskLevels(cfg, price, Some(atr), sr, Hold);
    var x := r.riskAmount;
    assert x == r.rewardAmount == StopDistance(cfg, atr) > 0.0;
    DivSelf(x);
  }

  // ---------------------------------------------------- context and wording

  datatype MarketContext = MarketContext(
    trendDirection: TrendDirection, trendStrength: real, rsiCondition: RsiCondition,
    highVolume: bool, supportLevel: real, resistanceLevel: real)

  /** `_get_market_context`: the volume status is HIGH exactly when the volume profile says so. */
  function GetMarketContext(s: IndicatorSnapshot): (m: MarketContext)
    ensures m.trendDirection == s.trend.direction && m.trendStrength == s.trend.strength
    ensures m.rsiCondition == s.rsiAnalysis.condition
    ensures m.highVolume <==> s.volumeProfile.isHighVolume
    ensures m.supportLevel == s.supportResistance.support && m.resistanceLevel == s.supportResistance.resistance
  {
    MarketContext(s.trend.direction, s.trend.strength, s.rsiAnalysis.condition,
                  s.volumeProfile.isHighVolume, s.supportResistance.support, s.supportResistance.resistance)
  }

  datatype Tier = Strong | Moderate | Weak

  /** The recommendation text, by its parts: a tiered trade, no opportunity, or the error text. */
  datatype Recommendation =
    | Trade(side: Signal, tier: Tier, score: real)
    | NoOpportunity(score: real)
    | UnableToSignal

  /** `_generate_recommendation`: BUY and SELL are tiered at confidence 7 and 5; anything else is HOLD text. */
  function GenerateRecommendation(c: Composite): (r: Recommendation)
    ensures r.Trade? <==> c.signal == Buy || c.signal == Sell
    ensures r.Trade? ==> r.side == c.signal && r.score == c.confidence
    ensures r.Trade? ==> (r.tier == Strong <==> c.confidence >= 7.0)
    ensures r.Trade? ==> (r.tier == Moderate <==> 5.0 <= c.confidence < 7.0)
    ensures r.Trade? ==> (r.tier == Weak <==> c.confidence < 5.0)
    ensures r.NoOpportunity? ==> r.score == c.confidence
    ensures !r.UnableToSignal?
  {
    if c.signal == Buy || c.signal == Sell then
      var tier := if c.confidence >= 7.0 then Strong else if c.confidence >= 5.0 then Moderate else Weak;
      Trade(c.signal, tier, c.confidence)
    else NoOpportunity(c.confidence)
  }

  // ---------------------------------------------------------------- pipeline

  /** The signal package `generate_signal` returns, or the error package. */
  datatype SignalReport =
    | Report(timestamp: int, currentPrice: real, signal: Signal, strength: real, confidence: real,
             ema: Judgment, rsi: Judgment, volume: Judgment, trend: Judgment,
             risk: Risk, context: MarketContext, recommendation: Recommendation)
    | ErrorReport(error: string, recommendation: Recommendation)
  {
    /** The `signal` entry of the package. */
    function Label(): Signal
    {
      if Report? then signal else Error
    }
  }

  const IndicatorFailure: string := "Failed to calculate indicators"

  /** `_create_error_signal`: the ERROR package carrying the message. */
  function CreateErrorSignal(message: string): (r: SignalReport)
    ensures r.Label() == Error && r.ErrorReport? && r.error == message
    ensures r.recommendation == UnableToSignal
  {
    ErrorReport(message, UnableToSignal)
  }

  /** The package built from a snapshot and the composite vote over its judgments. */
  function Assemble(cfg: Config, s: IndicatorSnapshot, ema: Judgment, rsi: Judgment, volume: Judgment,
                    trend: Judgment, c: Composite): SignalReport
    requires |s.atr| > 0
  {
    var risk := CalculateRiskLevels(cfg, s.currentPrice, s.atr[|s.atr| - 1], s.supportResistance, c.signal);
    Report(s.timestamp, s.currentPrice, c.signal, c.strength, c.confidence, ema, rsi, volume, trend,
           risk, GetMarketContext(s), GenerateRecommendation(c))
  }

  /** The package for a snapshot: the four judgments, their vote, and what is derived from it. */
  function ReportOf(cfg: Config, s: IndicatorSnapshot): (r: SignalReport)
    requires |s.atr| > 0 && s.rsiAnalysis.ConsistentWith(cfg)
    ensures r.Report? && r.timestamp == s.timestamp && r.currentPrice == s.currentPrice
    ensures IsVote(r.signal) && (r.signal != Hold ==> r.strength >= 1.0) && r.confidence <= 10.0
    ensures r.volume.signal == Neutral
    ensures r.risk.Undefined? <==> s.atr[|s.atr| - 1].None?
    ensures r.recommendation.Trade? <==> r.signal != Hold
    ensures r.ema == AnalyzeEmaSignal(cfg, s.crossover, s.trend)
    ensures r.rsi == AnalyzeRsiSignal(cfg, s.rsiAnalysis)
    ensures r.volume == AnalyzeVolumeSignal(s.volumeProfile)
    ensures r.trend == AnalyzeTrendSignal(s.currentPrice, s.supportResistance, s.trend)
    ensures var c := ComposeSignal(cfg, r.ema, r.rsi, r.volume, r.trend);
      && r.signal == c.signal && r.strength == c.strength && r.confidence == c.confidence
      && r.recommendation == GenerateRecommendation(c)
    ensures r.risk == CalculateRiskLevels(cfg, s.currentPrice, s.atr[|s.atr| - 1], s.supportResistance, r.signal)
    ensures r.context == GetMarketContext(s)
  {
    var ema := AnalyzeEmaSignal(cfg, s.crossover, s.trend);
    var rsi := AnalyzeRsiSignal(cfg, s.rsiAnalysis);
    var volume := AnalyzeVolumeSignal(s.volumeProfile);
    var trend := AnalyzeTrendSignal(s.currentPrice, s.supportResistance, s.trend);
    Assemble(cfg, s, ema, rsi, volume, trend, ComposeSignal(cfg, ema, rsi, volume, trend))
  }

  /** The whole of `generate_signal` as a function of the configuration and the frame. */
  function SignalOf(cfg: Config, df: Frame): (r: SignalReport)
    ensures r.ErrorReport? <==> CalculateAllIndicators(cfg, df).None?
    ensures r.ErrorReport? ==> r == CreateErrorSignal(IndicatorFailure)
    ensures r.Label() == Error <==> r.ErrorReport?
    ensures r.Report? ==>
              && IsVote(r.signal)
              && (r.signal != Hold ==> r.strength >= 1.0)
              && r.confidence <= 10.0
              && r.timestamp == df.rows[|df.rows| - 1].timestamp
              && r.currentPrice == df.rows[|df.rows| - 1].close
              && r.volume.signal == Neutral
              && (r.risk.Undefined? <==> CalculateAtr(df.rows, AtrPeriod)[|df.rows| - 1].None?)
              && (r.recommendation.Trade? <==> r.signal != Hold)
    ensures r.Report? ==> r == ReportOf(cfg, CalculateAllIndicators(cfg, df).value)
  {
    match CalculateAllIndicators(cfg, df)
    case None => CreateErrorSignal(IndicatorFailure)
    case Some(s) => ReportOf(cfg, s)
  }

  /** `generate_signal`: runs the analyzers and the vote loop, and packages the result. */
  method GenerateSignal(cfg: Config, df: Frame) returns (r: SignalReport)
    ensures r == SignalOf(cfg, df)
  {
    var indicators := CalculateAllIndicators(cfg, df);
    if indicators.None? {
      return CreateErrorSignal(IndicatorFailure);
    }
    var s := indicators.value;
    var ema := AnalyzeEmaSignal(cfg, s.crossover, s.trend);
    var rsi := AnalyzeRsiSignal(cfg, s.rsiAnalysis);
    var volume := AnalyzeVolumeSignal(s.volumeProfile);
    var trend := AnalyzeTrendSignal(s.currentPrice, s.supportResistance, s.trend);
    var c := CalculateCompositeSignal(cfg, ema, rsi, volume, trend);
    r := Assemble(cfg, s, ema, rsi, volume, trend, c);
  }

  /** The EMA analyzer votes with non-negative strength when the last long EMA is non-negative. */
  lemma EmaJudgmentNonNegative(cfg: Config, emaShort: seq<real>, emaLong: seq<real>)
    requires |emaShort| > 0 && |emaLong| > 0 && emaLong[|emaLong| - 1] >= 0.0
    ensures AnalyzeEmaSignal(cfg, DetectEmaCrossover(emaShort, emaLong), CalculateTrendStrength(emaShort, emaLong))
              .strength >= 0.0
  {
    var trend := CalculateTrendStrength(emaShort, emaLong);
    assert trend.strength >= 0.0;
  }

  /**
   * On a snapshot whose last long EMA is non-negative and a sound
   * configuration every voting strength is non-negative, so the strength is
   * non-negative and the confidence lies in [0, 10].
   */
  lemma SnapshotReportBounded(cfg: Config, s: IndicatorSnapshot)
    requires cfg.Sound() && |s.atr| > 0 && s.rsiAnalysis.ConsistentWith(cfg)
    requires |s.emaShort| > 0 && |s.emaLong| > 0 && s.emaLong[|s.emaLong| - 1] >= 0.0
    requires s.trend == CalculateTrendStrength(s.emaShort, s.emaLong)
    requires s.crossover == DetectEmaCrossover(s.emaShort, s.emaLong)
    ensures 0.0 <= ReportOf(cfg, s).strength && 0.0 <= ReportOf(cfg, s).confidence <= 10.0
  {
    EmaJudgmentNonNegative(cfg, s.emaShort, s.emaLong);
    var ema := AnalyzeEmaSignal(cfg, s.crossover, s.trend);
    var rsi := AnalyzeRsiSignal(cfg, s.rsiAnalysis);
    var volume := AnalyzeVolumeSignal(s.volumeProfile);
    var trend := AnalyzeTrendSignal(s.currentPrice, s.supportResistance, s.trend);
    CompositeNonNegative(cfg, ema, rsi, volume, trend);
  }

  lemma LastLongEmaPositive(cfg: Config, df: Frame)
    requires EngineColumns <= df.columns && |df.rows| > 0
    requires forall i :: 0 <= i < |df.rows| ==> df.rows[i].close > 0.0
    ensures CalculateAllIndicators(cfg, df).Some?
    ensures CalculateAllIndicators(cfg, df).value.emaLong[|df.rows| - 1] > 0.0
  {
    var closes := Closes(df.rows);
    LastEmaPositive(closes, cfg.emaLongPeriod);
  }

  /** On a frame of positive closes the report's strength is non-negative and its confidence lies in [0, 10]. */
  lemma PositiveClosesGiveBoundedConfidence(cfg: Config, df: Frame)
    requires cfg.Sound()
    requires EngineColumns <= df.columns && |df.rows| > 0
    requires forall i :: 0 <= i < |df.rows| ==> df.rows[i].close > 0.0
    ensures SignalOf(cfg, df).Report?
    ensures 0.0 <= SignalOf(cfg, df).strength && 0.0 <= SignalOf(cfg, df).confidence <= 10.0
  {
    var s := CalculateAllIndicators(cfg, df).value;
    LastLongEmaPositive(cfg, df);
    assert |s.emaLong| == |df.rows|;
    SnapshotReportBounded(cfg, s);
  }
}
