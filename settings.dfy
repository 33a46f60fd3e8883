/** The trading constants, passed around as one immutable record. */
module Settings {

  /** A window length or EMA span; pandas refuses spans below 1. */
  type Period = n: int | 1 <= n witness 1

  datatype Weights = Weights(
    emaCrossover: real,
    rsiConfirmation: real,
    volumeConfirmation: real,
    trendStrength: real)

  datatype Config = Config(
    emaShortPeriod: Period,
    emaLongPeriod: Period,
    rsiPeriod: Period,
    rsiOverbought: real,
    rsiOversold: real,
    signalWeights: Weights,
    stopLossAtrMultiplier: real,
    takeProfitRatio: real)
  {
    /** What the shipped constants satisfy and the risk and vote lemmas rely on. */
    predicate Sound()
    {
      && emaShortPeriod < emaLongPeriod
      && 0.0 <= rsiOversold < rsiOverbought <= 100.0
      && signalWeights.emaCrossover >= 0.0
      && signalWeights.rsiConfirmation >= 0.0
      && signalWeights.volumeConfirmation >= 0.0
      && signalWeights.trendStrength >= 0.0
      && stopLossAtrMultiplier > 0.0
      && takeProfitRatio > 0.0
    }
  }

  /** The shipped configuration. */
  const DefaultConfig: Config :=
    Config(9, 21, 14, 70.0, 30.0, Weights(0.4, 0.3, 0.2, 0.1), 2.0, 2.0)

  /** The keys of the timeframe table (`TIMEFRAME_MAPPING`). */
  const TimeframeKeys: set<string> := {"1d", "2d", "5d"}

  lemma DefaultConfigIsSound()
    ensures DefaultConfig.Sound()
  {
  }
}
