/**
 * The session bookkeeping of the trading bot: the analysis counter and the
 * signal history it keeps in step, the signal distribution, the majority
 * consensus over several timeframes, and the basic metrics of a result.
 * Fetching is an input: the frame the fetcher returned, if any.
 */
module TradingBot {
  import opened Wrappers
  import opened Series
  import opened Frames
  import opened Settings
  import opened Signals
  import opened Indicators
  import opened DataFetcher
  import opened SignalGenerator

  /** One entry of `signals_generated`. */
  datatype SignalRecord = SignalRecord(timestamp: int, signal: Signal, strength: real, confidence: real)

  function RecordOf(r: SignalReport): (rec: SignalRecord)
    requires r.Report?
    ensures rec.timestamp == r.timestamp && rec.signal == r.signal
    ensures rec.strength == r.strength && rec.confidence == r.confidence
  {
    SignalRecord(r.timestamp, r.signal, r.strength, r.confidence)
  }

  /**
   * What `run_single_analysis` returns: nothing for a timeframe outside the
   * timeframe table (the lookup raises and the handler returns None), for a
   * missing or invalid frame, or for an ERROR signal; the signal otherwise.
   */
  function AnalysisOutcome(cfg: Config, timeframe: string, marketData: Option<Frame>): (r: Option<SignalReport>)
    ensures r.Some? <==>
              timeframe in TimeframeKeys && marketData.Some? && ValidateData(marketData)
              && SignalOf(cfg, marketData.value).Report?
    ensures r.Some? ==> r.value == SignalOf(cfg, marketData.value) && IsVote(r.value.signal)
  {
    if timeframe !in TimeframeKeys || marketData.None? || !ValidateData(marketData) then None
    else
      var signal := SignalOf(cfg, marketData.value);
      if signal.Label() == Error then None else Some(signal)
  }

  /** Validated data always yields a report, and one with defined risk levels: 50 bars leave room for the 14-bar ATR. */
  lemma ValidatedDataYieldsReport(cfg: Config, timeframe: string, df: Frame)
    requires timeframe in TimeframeKeys && ValidateData(Some(df))
    ensures AnalysisOutcome(cfg, timeframe, Some(df)).Some?
    ensures AnalysisOutcome(cfg, timeframe, Some(df)).value.risk.Levels?
  {
    ValidatedDataHasRisk(cfg, df);
    ReportIsOutcome(cfg, timeframe, df);
  }

  /** Validated data has every column the indicators read. */
  lemma ValidatedDataHasIndicators(cfg: Config, df: Frame)
    requires ValidateData(Some(df))
    ensures SignalOf(cfg, df).Report?
  {
    assert EngineColumns <= RequiredColumns;
  }

  /** Validated data has enough bars for a defined last ATR, hence risk levels. */
  lemma ValidatedDataHasRisk(cfg: Config, df: Frame)
    requires ValidateData(Some(df))
    ensures SignalOf(cfg, df).Report? && SignalOf(cfg, df).risk.Levels?
  {
    ValidatedDataHasIndicators(cfg, df);
    AtrDefinedFromPeriod(df.rows, AtrPeriod);
    assert CalculateAtr(df.rows, AtrPeriod)[|df.rows| - 1].Some?;
  }

  /** An unknown timeframe, a missing frame or a frame that fails validation give no outcome. */
  lemma RejectedInputNoOutcome(cfg: Config, timeframe: string, marketData: Option<Frame>)
    requires timeframe !in TimeframeKeys || marketData.None? || !ValidateData(marketData)
    ensures AnalysisOutcome(cfg, timeframe, marketData) == None
  {
  }

  /** An ERROR signal gives no outcome. */
  lemma ErrorSignalNoOutcome(cfg: Config, timeframe: string, df: Frame)
    requires SignalOf(cfg, df).Label() == Error
    ensures AnalysisOutcome(cfg, timeframe, Some(df)) == None
  {
  }

  /** For a known timeframe and validated data, a report is the outcome. */
  lemma ReportIsOutcome(cfg: Config, timeframe: string, df: Frame)
    requires timeframe in TimeframeKeys && ValidateData(Some(df))
    ensures AnalysisOutcome(cfg, timeframe, Some(df)) == Some(SignalOf(cfg, df))
  {
    ValidatedDataHasIndicators(cfg, df);
  }

  /** The labels of the recorded signals, in order. */
  function Labels(records: seq<SignalRecord>): (labels: seq<Signal>)
    ensures |labels| == |records|
    ensures forall i :: 0 <= i < |records| ==> labels[i] == records[i].signal
  {
    seq(|records|, i requires 0 <= i < |records| => records[i].signal)
  }

  /** `session_data`: the analysis counter, the signal history and the last analysis. */
  datatype SessionData = SessionData(
    analysesPerformed: nat, signalsGenerated: seq<SignalRecord>, lastAnalysis: Option<SignalReport>)
  {
    /**
     * The counter and the history move together, every recorded signal is a
     * vote, and the last analysis is the one behind the last record.
     */
    predicate Valid()
    {
      && analysesPerformed == |signalsGenerated|
      && (forall i :: 0 <= i < |signalsGenerated| ==> IsVote(signalsGenerated[i].signal))
      && (lastAnalysis.None? <==> |signalsGenerated| == 0)
      && (lastAnalysis.Some? ==>
            lastAnalysis.value.Report? && RecordOf(lastAnalysis.value) == signalsGenerated[|signalsGenerated| - 1])
    }

    /** The update of a successful analysis: count it, append its record, remember it. */
    function Recorded(signal: SignalReport): (s: SessionData)
      requires signal.Report?
      ensures s.analysesPerformed == analysesPerformed + 1
      ensures s.signalsGenerated == signalsGenerated + [RecordOf(signal)]
      ensures s.lastAnalysis == Some(signal)
      ensures Valid() && IsVote(signal.signal) ==> s.Valid()
    {
      SessionData(analysesPerformed + 1, signalsGenerated + [RecordOf(signal)], Some(signal))
    }

    /** The session after an analysis with outcome `r`: recorded when there is one, untouched otherwise. */
    function After(r: Option<SignalReport>): (s: SessionData)
      ensures r.Some? && r.value.Report? ==> s.analysesPerformed == analysesPerformed + 1
      ensures !(r.Some? && r.value.Report?) ==> s.analysesPerformed == analysesPerformed
      ensures signalsGenerated <= s.signalsGenerated && |s.signalsGenerated| <= |signalsGenerated| + 1
      ensures Valid() && (r.Some? && r.value.Report? ==> IsVote(r.value.signal)) ==> s.Valid()
      ensures r.Some? && r.value.Report? ==> s == Recorded(r.value)
      ensures !(r.Some? && r.value.Report?) ==> s == this
    {
      if r.Some? && r.value.Report? then Recorded(r.value) else this
    }
  }

  const NewSession := SessionData(0, [], None)

  /** The session after a run of analyses with these outcomes, in order. */
  function Replay(s: SessionData, outcomes: seq<Option<SignalReport>>): (t: SessionData)
    ensures s.analysesPerformed <= t.analysesPerformed <= s.analysesPerformed + |outcomes|
    ensures s.signalsGenerated <= t.signalsGenerated
  {
    if |outcomes| == 0 then s
    else Replay(s, outcomes[..|outcomes| - 1]).After(outcomes[|outcomes| - 1])
  }

  /** How many of the outcomes are reports. */
  function Successes(outcomes: seq<Option<SignalReport>>): (n: nat)
    ensures n <= |outcomes|
  {
    if |outcomes| == 0 then 0
    else
      var last := outcomes[|outcomes| - 1];
      Successes(outcomes[..|outcomes| - 1]) + (if last.Some? && last.value.Report? then 1 else 0)
  }

  /**
   * Over a run of analyses the counter grows by the number of successes, the
   * history only grows, by one record per success, and a valid session stays
   * valid when every success is a vote.
   */
  lemma {:induction false} ReplayCountsSuccesses(s: SessionData, outcomes: seq<Option<SignalReport>>)
    ensures Replay(s, outcomes).analysesPerformed == s.analysesPerformed + Successes(outcomes)
    ensures |Replay(s, outcomes).signalsGenerated| == |s.signalsGenerated| + Successes(outcomes)
    ensures s.signalsGenerated <= Replay(s, outcomes).signalsGenerated
    ensures s.Valid()
            && (forall i :: 0 <= i < |outcomes| && outcomes[i].Some? && outcomes[i].value.Report? ==>
                  IsVote(outcomes[i].value.signal))
            ==> Replay(s, outcomes).Valid()
  {
    if |outcomes| > 0 {
      var init := outcomes[..|outcomes| - 1];
      ReplayCountsSuccesses(s, init);
      var mid := Replay(s, init);
      var last := outcomes[|outcomes| - 1];
      if last.Some? && last.value.Report? {
        assert mid.Recorded(last.value).signalsGenerated == mid.signalsGenerated + [RecordOf(last.value)];
      }
    }
  }

  class GoldTradingBot {
    const config: Config
    var sessionData: SessionData

    ghost predicate Valid()
      reads this
    {
      sessionData.Valid()
    }

    /** A fresh session: nothing analysed, nothing recorded. */
    constructor(cfg: Config)
      ensures Valid()
      ensures config == cfg && sessionData == NewSession
    {
      config := cfg;
      sessionData := NewSession;
    }

    /**
     * `run_single_analysis`: a successful analysis bumps the counter, appends
     * its record and becomes the last analysis; a failed one changes nothing.
     */
    method RunSingleAnalysis(timeframe: string, marketData: Option<Frame>) returns (r: Option<SignalReport>)
      requires Valid()
      modifies this
      ensures Valid()
      ensures r == AnalysisOutcome(config, timeframe, marketData)
      ensures sessionData == old(sessionData).After(r)
    {
      r := Analyze(timeframe, marketData);
      sessionData := sessionData.After(r);
    }

    /** The checks and the signal generation of `run_single_analysis`, before the session is touched. */
    method Analyze(timeframe: string, marketData: Option<Frame>) returns (r: Option<SignalReport>)
      ensures r == AnalysisOutcome(config, timeframe, marketData)
      ensures r.Some? ==> r.value.Report? && IsVote(r.value.signal)
    {
      if timeframe !in TimeframeKeys || marketData.None? || !ValidateData(marketData) {
        RejectedInputNoOutcome(config, timeframe, marketData);
        return None;
      }
      var signal := GenerateSignal(config, marketData.value);
      if signal.Label() == Error {
        ErrorSignalNoOutcome(config, timeframe, marketData.value);
        return None;
      }
      ReportIsOutcome(config, timeframe, marketData.value);
      r := Some(signal);
    }

    /**
     * `_get_signal_distribution`: how often BUY, SELL and HOLD were recorded.
     * In a valid session the three counts add up to the number of analyses.
     */
    method GetSignalDistribution() returns (distribution: map<Signal, nat>)
      requires Valid()
      ensures distribution.Keys == {Buy, Sell, Hold}
      ensures forall s :: s in distribution ==> distribution[s] == CountOf(Labels(sessionData.signalsGenerated), s)
      ensures distribution[Buy] + distribution[Sell] + distribution[Hold] == sessionData.analysesPerformed
    {
      distribution := map[Buy := 0, Sell := 0, Hold := 0];
      var records := sessionData.signalsGenerated;
      var labels := Labels(records);
      var i := 0;
      while i < |records|
        invariant 0 <= i <= |records|
        invariant distribution.Keys == {Buy, Sell, Hold}
        invariant forall s :: s in distribution ==> distribution[s] == CountOf(labels[..i], s)
      {
        var signal := records[i].signal;
        assert labels[..i + 1][..i] == labels[..i];
        if signal in distribution {
          distribution := distribution[signal := distribution[signal] + 1];
        }
        i := i + 1;
      }
      assert labels[..i] == labels;
      VoteCountsBounded(labels);
    }
  }

  // ---------------------------------------------------------------- consensus

  /** The verdicts of `_calculate_consensus`, with the counts its text shows. */
  datatype Consensus =
    | NoData
    | BuyConsensus(count: nat, total: nat)
    | SellConsensus(count: nat, total: nat)
    | MixedHold

  /** `_calculate_consensus`: BUY or SELL wins only with strictly more votes than each other label. */
  function CalculateConsensus(signals: seq<Signal>): (c: Consensus)
    ensures c == NoData <==> |signals| == 0
    ensures c.BuyConsensus? <==>
              |signals| > 0
              && CountOf(signals, Buy) > CountOf(signals, Sell) && CountOf(signals, Buy) > CountOf(signals, Hold)
    ensures c.SellConsensus? <==>
              |signals| > 0
              && CountOf(signals, Sell) > CountOf(signals, Buy) && CountOf(signals, Sell) > CountOf(signals, Hold)
    ensures c.BuyConsensus? ==> c.count == CountOf(signals, Buy) && c.total == |signals|
    ensures c.SellConsensus? ==> c.count == CountOf(signals, Sell) && c.total == |signals|
  {
    if |signals| == 0 then NoData
    else
      var buy, sell, hold := CountOf(signals, Buy), CountOf(signals, Sell), CountOf(signals, Hold);
      if buy > sell && buy > hold then BuyConsensus(buy, |signals|)
      else if sell > buy && sell > hold then SellConsensus(sell, |signals|)
      else MixedHold
  }

  /** A strict majority of BUY (or of SELL) is always a consensus for it. */
  lemma MajorityIsConsensus(signals: seq<Signal>, side: Signal)
    requires side == Buy || side == Sell
    requires 2 * CountOf(signals, side) > |signals|
    ensures side == Buy ==> CalculateConsensus(signals).BuyConsensus?
    ensures side == Sell ==> CalculateConsensus(signals).SellConsensus?
  {
    VoteCountsBounded(signals);
  }

  // ----------------------------------------------------- multi-timeframe view

  /** One row of the multi-timeframe summary table. */
  datatype SummaryRow = SummaryRow(timeframe: string, signal: Signal, strength: real, confidence: real, price: real)

  /** The results table: each timeframe with what its analysis returned. */
  type TimeframeResults = seq<(string, Option<SignalReport>)>

  /** A result the summary shows: present and not an ERROR package. */
  predicate Shown(result: Option<SignalReport>)
  {
    result.Some? && result.value.Label() != Error
  }

  /** The row a shown result contributes. */
  function RowOf(timeframe: string, result: SignalReport): (row: SummaryRow)
    requires result.Report?
    ensures row.timeframe == timeframe && row.signal == result.signal && row.price == result.currentPrice
    ensures row.strength == result.strength && row.confidence == result.confidence
  {
    SummaryRow(timeframe, result.signal, result.strength, result.confidence, result.currentPrice)
  }

  /** The result filter of `_display_multi_timeframe_results`: one row per shown result, in timeframe order. */
  function SummaryRows(results: TimeframeResults): (rows: seq<SummaryRow>)
    ensures |rows| <= |results|
  {
    if |results| == 0 then []
    else
      var rest := SummaryRows(results[..|results| - 1]);
      var last := results[|results| - 1];
      if Shown(last.1) then rest + [RowOf(last.0, last.1.value)] else rest
  }

  /** A single result gives its row exactly when it is shown. */
  lemma SummaryRowsSingle(timeframe: string, result: Option<SignalReport>)
    ensures SummaryRows([(timeframe, result)]) == if Shown(result) then [RowOf(timeframe, result.value)] else []
  {
    assert [(timeframe, result)][..0] == [];
  }

  /** Summarising two tables one after the other is summarising their concatenation. */
  lemma {:induction false} SummaryRowsConcat(a: TimeframeResults, b: TimeframeResults)
    ensures SummaryRows(a + b) == SummaryRows(a) + SummaryRows(b)
  {
    if |b| > 0 {
      assert (a + b)[..|a + b| - 1] == a + b[..|b| - 1];
      assert (a + b)[|a + b| - 1] == b[|b| - 1];
      SummaryRowsConcat(a, b[..|b| - 1]);
    } else {
      assert a + b == a;
    }
  }

  /** When no result is shown the table is empty ("no valid results"). */
  lemma {:induction false} NothingShownNoRows(results: TimeframeResults)
    requires forall k :: 0 <= k < |results| ==> !Shown(results[k].1)
    ensures SummaryRows(results) == []
  {
    if |results| > 0 {
      NothingShownNoRows(results[..|results| - 1]);
    }
  }

  /** The signals the consensus is taken over: those of the summary rows, in order. */
  function RowSignals(rows: seq<SummaryRow>): seq<Signal>
  {
    seq(|rows|, i requires 0 <= i < |rows| => rows[i].signal)
  }

  /** The consensus line of the summary, taken over the shown rows. */
  function SummaryConsensus(results: TimeframeResults): Consensus
  {
    CalculateConsensus(RowSignals(SummaryRows(results)))
  }

  /** When no result is shown there is no consensus to report. */
  lemma {:induction false} NothingShownNoConsensus(results: TimeframeResults)
    requires forall k :: 0 <= k < |results| ==> !Shown(results[k].1)
    ensures SummaryConsensus(results) == NoData
  {
    NothingShownNoRows(results);
  }

  /** A single shown timeframe decides the consensus: its BUY or SELL is a consensus of 1 out of 1. */
  lemma SingleShownDecides(timeframe: string, result: SignalReport)
    requires result.Report? && (result.signal == Buy || result.signal == Sell)
    ensures result.signal == Buy ==> SummaryConsensus([(timeframe, Some(result))]) == BuyConsensus(1, 1)
    ensures result.signal == Sell ==> SummaryConsensus([(timeframe, Some(result))]) == SellConsensus(1, 1)
  {
    SummaryRowsSingle(timeframe, Some(result));
    var signals := RowSignals(SummaryRows([(timeframe, Some(result))]));
    assert signals == [result.signal];
    assert signals[..0] == [];
  }

  // ---------------------------------------------------------------- metrics

  /** `_calculate_basic_metrics`; a NaN risk or reward amount is `None`. */
  datatype Metrics = Metrics(
    signalStrength: real, confidenceScore: real, riskRewardRatio: real,
    potentialRisk: Option<real>, potentialReward: Option<real>)

  /** Every entry the result lacks defaults to 0; an undefined risk record has ratio 0 and NaN amounts. */
  function CalculateBasicMetrics(result: SignalReport): (m: Metrics)
    ensures result.ErrorReport? ==> m == Metrics(0.0, 0.0, 0.0, Some(0.0), Some(0.0))
    ensures result.Report? ==> m.signalStrength == result.strength && m.confidenceScore == result.confidence
    ensures result.Report? && result.risk.Undefined? ==>
              m.riskRewardRatio == 0.0 && m.potentialRisk.None? && m.potentialReward.None?
    ensures result.Report? && result.risk.Levels? ==>
              && m.riskRewardRatio == result.risk.riskRewardRatio
              && m.potentialRisk == Some(result.risk.riskAmount)
              && m.potentialReward == Some(result.risk.rewardAmount)
  {
    match result
    case ErrorReport(_, _) => Metrics(0.0, 0.0, 0.0, Some(0.0), Some(0.0))
    case Report(_, _, _, strength, confidence, _, _, _, _, risk, _, _) =>
      match risk
      case Undefined => Metrics(strength, confidence, 0.0, None, None)
      case Levels(_, _, riskAmount, rewardAmount, ratio, _) =>
        Metrics(strength, confidence, ratio, Some(riskAmount), Some(rewardAmount))
  }
}
