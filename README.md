# Gold trading bot: a verified model of the signal engine

The gold trading bot reads OHLCV bars for the GLD ETF over a 1-, 2- or 5-day
chart. It computes technical indicators and turns them into a BUY, SELL or
HOLD signal with a strength, a confidence, and stop-loss and take-profit
levels. It also keeps a per-session record of the signals it has produced.

This project models the core of that pipeline in Dafny:

- the indicator engine of `indicators.py`: EMA, RSI, ATR, pivot support and
  resistance, volume profile, trend strength, EMA crossover, the RSI
  condition and the indicator snapshot;
- the signal generator of `signal_generator.py`: four component analyzers,
  the weighted vote, the consensus, risk levels, market context, the
  recommendation and the error package;
- the input checks of `data_fetcher.py`: `validate_data` and
  `_filter_by_timeframe`;
- the session bookkeeping of `trading_bot.py`: `run_single_analysis`, the
  signal distribution, the multi-timeframe summary filter, the consensus and
  the basic metrics.

Modules, one per file:

| module | contents |
|---|---|
| `Wrappers` | `Option` |
| `Series` | sums, min and max of a series, `tail` |
| `Frames` | bars and frames |
| `Settings` | the configuration constants of `config.py`, including the timeframe table's keys |
| `Signals` | signal labels and `list.count` |
| `Indicators` / `SignalGenerator` / `DataFetcher` / `TradingBot` | the four core files |

Representation choices:

- A pandas value that is NaN (a rolling window that is not yet full, or a
  0/0 division) is `None` in a `seq<Option<real>>`.
- Reals are exact, so the model covers every non-NaN path of the IEEE
  arithmetic term by term.
- The pure indicator and analyzer code becomes functions.
- Two parts of the source are imperative and stay imperative:
  - `GoldTradingBot` is a class whose methods update the session field.
  - The vote loop and the distribution loop are `while` loops, proved
    against the functions that specify them.

Four behaviours of the code that are easy to misread:

- The RSI is defined from index `period - 1`, not from `period`. The first
  difference is NaN, and pandas' `where` replaces it with 0, so the first
  window already holds `period` values.
- The true range at index 0 is NaN, not `high - low`, because
  `np.maximum` propagates the NaN of the shifted close. So the ATR is defined
  from index `period` on.
- With no losses in the window, the RSI is 100 when there are gains (the gain
  is divided by a zero loss) and NaN when there are no gains either (0/0).
- The stop-loss of a BUY is not below the price for every input: with a
  support well above the price, 99% of the support can exceed the price.
  `BuyRiskBracketsPrice` proves stop < price < target and a reward/risk ratio
  of at least the take-profit ratio if four premises hold: a sound
  configuration (positive ATR multiplier and take-profit ratio), a positive
  ATR, a positive price, and a support at most the price. These premises are
  sufficient, not necessary.

## Model

| member | source | states |
|---|---|---|
| `Settings.DefaultConfigIsSound` | gold-trading-bot/src/config.py:42-60 | The shipped periods, RSI levels, weights and risk multipliers satisfy the soundness conditions that the risk and vote lemmas rely on: short span < long span, oversold < overbought, non-negative weights, and positive multipliers. |
| `Signals.VoteCountsBounded` | gold-trading-bot/src/trading_bot.py:252-254 | The BUY, SELL and HOLD counts of a list add up to at most its length, and to exactly its length when every label is a vote. |
| `Signals.CountOfThree` | gold-trading-bot/src/signal_generator.py:257-262 | Counting a label in the three-element list of EMA, RSI and structure signals counts one for each element equal to it. |
| `Signals.CountOf` | gold-trading-bot/src/signal_generator.py:260-262 | `list.count` never exceeds the list's length. |
| `Signals.CountOfExtremes` | gold-trading-bot/src/trading_bot.py:252-254 | A label counts zero times exactly when it is absent from the list, and as many times as the list is long exactly when every element is that label. |
| `Indicators.Alpha` | gold-trading-bot/src/indicators.py:23 | The smoothing factor of `ewm(span=p)` lies in (0, 1]. |
| `Indicators.AlphaDecreasing` | gold-trading-bot/src/indicators.py:23 | A shorter span gives a strictly larger smoothing factor, so the short EMA reacts faster. |
| `Indicators.CalculateEma` | gold-trading-bot/src/indicators.py:12-23 | The EMA has the input's length and starts at the first value (`adjust=False`). Each later point is `alpha*x + (1-alpha)*previous EMA`. |
| `Indicators.EmaAtWithin` | gold-trading-bot/src/indicators.py:23 | Every EMA point lies between bounds that bracket the inputs seen so far. |
| `Indicators.EmaWithinRange` | gold-trading-bot/src/indicators.py:23 | Every EMA point lies between the series' minimum and maximum. |
| `Indicators.EmaOfConstant` | gold-trading-bot/src/indicators.py:23 | The EMA of a constant series is that series. |
| `Indicators.EmaPositive` | gold-trading-bot/src/indicators.py:23 | The EMA of positive prices is positive at every point. |
| `Indicators.LastEmaPositive` | gold-trading-bot/src/indicators.py:23 | The last EMA point of positive prices is positive. |
| `Indicators.FastEmaLeadsOnRise` | gold-trading-bot/src/indicators.py:23 | On a strictly rising series, the EMA with the larger smoothing factor is strictly above the slower one from the second point on. |
| `Indicators.RisingPrefixBounded` | gold-trading-bot/src/indicators.py:23 | On a strictly rising prefix, every value lies between the first and the last. |
| `Indicators.Gains` | gold-trading-bot/src/indicators.py:36-37 | The gain series has one defined, non-negative entry per bar. The entry is positive exactly where the close rose; the first entry is 0 where pandas' `where` replaces the NaN difference. Every later entry is the rise `xs[t] - xs[t-1]` when the close rose, and 0 otherwise. |
| `Indicators.Losses` | gold-trading-bot/src/indicators.py:36-38 | The loss series has one defined, non-negative entry per bar, positive exactly where the close fell. The first entry is 0; every later entry is the fall `xs[t-1] - xs[t]` when the close fell, and 0 otherwise. |
| `Indicators.RollingMean` | gold-trading-bot/src/indicators.py:37-38 | The rolling mean has the input's length. Each entry is the mean of its full window when that window has no missing value, and is missing otherwise. |
| `Indicators.RollingMeanNonNegative` | gold-trading-bot/src/indicators.py:37-38 | The rolling mean of a non-negative series is non-negative wherever it is defined. |
| `Indicators.RsiFromMeans` | gold-trading-bot/src/indicators.py:40-41 | The RSI of a gain mean and a loss mean is defined exactly when both are defined and not both zero. It lies in [0, 100]; it is 0 with no gains, 100 with no losses, and below 100 whenever there are losses. |
| `Indicators.CalculateRsi` | gold-trading-bot/src/indicators.py:25-43 | The RSI series has the input's length, and every defined value lies in [0, 100]. |
| `Indicators.MeansGiveRsi` | gold-trading-bot/src/indicators.py:36-43 | Each RSI point is the RSI of the rolling gain mean and loss mean at that point, and both means are non-negative. |
| `Indicators.RsiDefinedWhere` | gold-trading-bot/src/indicators.py:36-43 | The RSI is missing before index `period - 1`. From there on it is defined exactly when the window has some gain or some loss, and it is below 100 when the window has a loss. |
| `Indicators.FallingWindowSums` | gold-trading-bot/src/indicators.py:36-38 | When the close fell at every step of a window, that window's gains sum to 0 and its losses to a positive amount. |
| `Indicators.FallingWindowMeans` | gold-trading-bot/src/indicators.py:36-38 | When the close fell at every step of a window, the gain mean is 0 and the loss mean is positive. |
| `Indicators.FallingClosesGiveZeroRsi` | gold-trading-bot/src/indicators.py:25-43 | When the last `period` closes each fell, the last RSI is exactly 0. |
| `Indicators.TrueRangeOf` | gold-trading-bot/src/indicators.py:58-62 | A bar's true range is the largest of high−low, \|high−previous close\| and \|low−previous close\|: at least each of them, equal to one of them, and non-negative. |
| `Indicators.TrueRange` | gold-trading-bot/src/indicators.py:58-62 | The true-range series is missing at the first bar only. Every later entry is the true range against the previous bar's close. |
| `Indicators.CalculateAtr` | gold-trading-bot/src/indicators.py:45-65 | The ATR series has one entry per bar. |
| `Indicators.AtrDefinedFromPeriod` | gold-trading-bot/src/indicators.py:58-65 | The ATR is defined exactly from index `period` on, and is never negative. |
| `Indicators.CalculateSupportResistance` | gold-trading-bot/src/indicators.py:67-96 | The recent high H and low L are the max and min over the last `lookback` bars. The pivot is (H + L + last close)/3, the support is 2·pivot − H and the resistance is 2·pivot − L, so the resistance−support gap is H − L. |
| `Indicators.RecentRangeBoundsWindow` | gold-trading-bot/src/indicators.py:81-83 | Every bar of the look-back window lies within the recent high and low. |
| `Indicators.LevelsBracketPrice` | gold-trading-bot/src/indicators.py:81-88 | On a well-formed last bar, the support is at most the last close and at most the pivot, and the resistance is at least both. |
| `Indicators.Mean` | gold-trading-bot/src/indicators.py:109-110 | The mean times the count is the sum. |
| `Indicators.VolumeRatio` | gold-trading-bot/src/indicators.py:111-112 | The ratio times a positive average is the current volume, and the ratio is 1 when the average is not positive. |
| `Indicators.CalculateVolumeProfile` | gold-trading-bot/src/indicators.py:98-119 | The profile records the last volume and the mean of the last `period` volumes. The ratio is current/average (1 for a non-positive average), and the bar is high volume exactly when the ratio exceeds 1.5. |
| `Indicators.SeparationPercent` | gold-trading-bot/src/indicators.py:136 | The percentage separation is defined exactly when the long EMA is non-zero, and is non-negative when the long EMA is positive. |
| `Indicators.CappedStrength` | gold-trading-bot/src/indicators.py:137-147 | For a finite separation the strength is min(separation/scale, 5): at most both, and equal to one of them. It is 5 for an infinite separation (division by a zero long EMA), and non-negative for a non-negative separation. |
| `Indicators.CalculateTrendStrength` | gold-trading-bot/src/indicators.py:121-155 | The trend reports the last short and long EMA and their percentage separation. It is BULLISH, BEARISH or NEUTRAL exactly when short >, < or = long. A neutral trend has strength 0; otherwise the strength is min(separation/2, 5). The strength is at most 5, and non-negative for a non-negative long EMA. |
| `Indicators.DetectEmaCrossover` | gold-trading-bot/src/indicators.py:157-194 | A bullish crossover happens exactly when short ≤ long at the previous point and short > long at the last; the bearish case is the mirror image. Fewer than two points means no crossover. A crossover has strength min(separation %, 5) of the last EMAs, and no crossover has strength 0. With two points the current and previous absolute separations are reported. |
| `Indicators.RisingClosesCrossAbove` | gold-trading-bot/src/indicators.py:12-23 | On strictly rising closes, the short EMA crosses above the long one at the second bar, and the trend is bullish at every later bar. |
| `Indicators.AnalyzeRsiConditions` | gold-trading-bot/src/indicators.py:196-229 | Overbought holds exactly when the last RSI is defined and ≥ the overbought level, and oversold when it is defined and ≤ the oversold level; the two exclude each other when oversold < overbought. The condition and bias follow the flags. The momentum is the difference of the last two RSI values, 0 with a single value, and missing when either is NaN. |
| `Indicators.CalculateAllIndicators` | gold-trading-bot/src/indicators.py:231-285 | The snapshot exists exactly when the frame has the close, high, low and volume columns and at least one row. It then holds every indicator computed from the frame, with the last close as the price and the last timestamp. |
| `SignalGenerator.AnalyzeEmaSignal` | gold-trading-bot/src/signal_generator.py:64-101 | A crossover votes in its direction with its strength. Without one, a trend stronger than 2 votes in its direction with half its strength. Otherwise the vote is HOLD with strength 0. |
| `SignalGenerator.AnalyzeRsiSignal` | gold-trading-bot/src/signal_generator.py:103-141 | Oversold votes BUY with (oversold−RSI)/10, and overbought (when not oversold) votes SELL with (RSI−overbought)/10. Otherwise momentum above 5 with RSI < 60 votes BUY, and momentum below −5 with RSI > 40 votes SELL, with strength min(\|momentum\|/10, 2). Anything else is HOLD with 0. Strengths are non-negative. |
| `SignalGenerator.AnalyzeVolumeSignal` | gold-trading-bot/src/signal_generator.py:143-168 | Always NEUTRAL. High volume gives strength (ratio−1)·2 up to a ratio of 2.5 and exactly 3 above it, always above 1. A ratio below 0.5 gives −1, and any other ratio gives 0. |
| `SignalGenerator.AnalyzeTrendSignal` | gold-trading-bot/src/signal_generator.py:170-206 | A price at most 1% above support (including any price below it) votes BUY. Otherwise a price at least 99% of resistance votes SELL. Any other price gives HOLD. A vote has strength 2, HOLD has 0, and a trend stronger than 3 adds a second reason naming the direction. |
| `SignalGenerator.BucketScoreStep` | gold-trading-bot/src/signal_generator.py:224-227 | Voting one more component adds its weighted strength to the bucket it names, and nothing to the others. |
| `SignalGenerator.BucketScoreBounds` | gold-trading-bot/src/signal_generator.py:224-228 | A bucket no component names keeps its initial score 0. When every strength and weight is non-negative, every bucket score is non-negative. |
| `SignalGenerator.Winner` | gold-trading-bot/src/signal_generator.py:231-232 | Picks a bucket with the largest score. Ties go to the first in the order BUY, SELL, HOLD. |
| `SignalGenerator.SignalConsensus` | gold-trading-bot/src/signal_generator.py:255-268 | The consensus is the largest agreeing count over 3. It lies in [0, 1], is at least 1/3 when all three are votes, and is 1 exactly when they all agree. |
| `SignalGenerator.Confidence` | gold-trading-bot/src/signal_generator.py:245 | The confidence is min(strength × consensus, 10): at most both, equal to the product whenever it is below 10, and non-negative for non-negative inputs. |
| `SignalGenerator.ComposeSignal` | gold-trading-bot/src/signal_generator.py:208-253 | The scores are the weighted bucket totals, and the strength is the largest score. The signal is the winner, except that a BUY or SELL below 1.0 becomes HOLD. The confidence is the capped strength × consensus. |
| `SignalGenerator.CalculateCompositeSignal` | gold-trading-bot/src/signal_generator.py:213-253 | The vote loop over the four weighted components computes exactly the composite specified by `ComposeSignal`. |
| `SignalGenerator.BucketsOfComponents` | gold-trading-bot/src/signal_generator.py:217-228 | Each bucket holds exactly the weighted strengths of the EMA, RSI and structure judgments that name it. |
| `SignalGenerator.VolumeNeverVotes` | gold-trading-bot/src/signal_generator.py:224-228 | Volume's NEUTRAL judgment never changes the composite, whatever its strength. |
| `SignalGenerator.QuietComponentsHold` | gold-trading-bot/src/signal_generator.py:224-245 | When no voting component has any strength, the composite is HOLD with strength and confidence 0. |
| `SignalGenerator.CompositeNonNegative` | gold-trading-bot/src/signal_generator.py:224-245 | With sound weights and non-negative voting strengths, the strength is non-negative and the confidence lies in [0, 10]. |
| `SignalGenerator.RiskMetrics` | gold-trading-bot/src/signal_generator.py:302-304 | The risk is \|price−stop\| and the reward is \|target−price\|. The ratio is reward/risk for a positive risk and 0 otherwise, and is never negative. |
| `SignalGenerator.StopLoss` | gold-trading-bot/src/signal_generator.py:280-298 | BUY takes the higher of price−d and 99% of support. SELL takes the lower of price+d and 101% of resistance. Any other signal takes price−d. |
| `SignalGenerator.TakeProfit` | gold-trading-bot/src/signal_generator.py:286-299 | BUY targets price + d·ratio, SELL targets price − d·ratio, and any other signal targets price + d. |
| `SignalGenerator.StopDistance` | gold-trading-bot/src/signal_generator.py:278 | The stop distance is positive for a positive ATR and multiplier. |
| `SignalGenerator.CalculateRiskLevels` | gold-trading-bot/src/signal_generator.py:270-313 | The levels are undefined exactly when the last ATR is NaN. Otherwise they are the stop, the target and the metrics for a stop distance of ATR × multiplier. |
| `SignalGenerator.BuyRiskBracketsPrice` | gold-trading-bot/src/signal_generator.py:280-286 | For BUY with a positive ATR and support at most the price: stop < price < target, and reward/risk ≥ the take-profit ratio. |
| `SignalGenerator.SellRiskBracketsPrice` | gold-trading-bot/src/signal_generator.py:288-294 | For SELL with a positive ATR and the price at most the resistance: target < price < stop, and reward/risk ≥ the take-profit ratio. |
| `SignalGenerator.HoldRiskIsSymmetric` | gold-trading-bot/src/signal_generator.py:296-304 | For HOLD with a positive ATR, risk equals reward, both are positive, and the ratio is exactly 1. |
| `SignalGenerator.GetMarketContext` | gold-trading-bot/src/signal_generator.py:315-324 | The context copies the trend direction and strength, the RSI condition, the high-volume flag, and the support and resistance. |
| `SignalGenerator.GenerateRecommendation` | gold-trading-bot/src/signal_generator.py:326-349 | BUY and SELL give a trade on that side: strong at confidence ≥ 7, moderate in [5, 7), weak below 5. HOLD gives "no opportunity". Both carry the confidence as the score. |
| `SignalGenerator.CreateErrorSignal` | gold-trading-bot/src/signal_generator.py:351-358 | The error package is labelled ERROR and carries the message and the "unable to generate signal" recommendation. |
| `SignalGenerator.ReportOf` | gold-trading-bot/src/signal_generator.py:30-62 | A snapshot gives a signal package with the snapshot's price and timestamp. Its four components are the EMA, RSI, volume and structure analyzers' judgments of the snapshot. Its signal, strength and confidence are those of the weighted vote over those judgments. Its risk levels are priced from the last ATR for that signal, and its context and recommendation derive from the snapshot and the vote. Consequently the signal is a vote, a non-HOLD signal has strength ≥ 1, the confidence is ≤ 10, and risk is undefined exactly when the last ATR is NaN. |
| `SignalGenerator.SignalOf` | gold-trading-bot/src/signal_generator.py:14-62 | `generate_signal` gives the error package exactly when the indicators fail, and otherwise the package `ReportOf` builds from the indicator snapshot of the frame. The label is ERROR exactly for the error package. A full package has the last close and timestamp, a vote signal, strength ≥ 1 unless HOLD, confidence ≤ 10, and risk undefined exactly when the last ATR is NaN. |
| `SignalGenerator.GenerateSignal` | gold-trading-bot/src/signal_generator.py:14-62 | The generator, with its vote loop, computes exactly `SignalOf`. |
| `SignalGenerator.EmaJudgmentNonNegative` | gold-trading-bot/src/signal_generator.py:64-101 | The EMA judgment has non-negative strength when the last long EMA is non-negative. |
| `SignalGenerator.SnapshotReportBounded` | gold-trading-bot/src/signal_generator.py:30-62 | Under a sound configuration and a non-negative last long EMA, the package's strength is non-negative and its confidence lies in [0, 10]. |
| `SignalGenerator.LastLongEmaPositive` | gold-trading-bot/src/indicators.py:241-247 | With positive closes, the indicators succeed and the last long EMA is positive. |
| `SignalGenerator.PositiveClosesGiveBoundedConfidence` | gold-trading-bot/src/signal_generator.py:14-62 | With positive closes and the engine's columns, the generator yields a package whose strength is non-negative and whose confidence lies in [0, 10]. |
| `DataFetcher.ValidateData` | gold-trading-bot/src/data_fetcher.py:204-218 | A frame passes exactly when it exists, has all five OHLCV columns and has at least 50 rows. A missing frame, an empty one, a missing column or too few rows each fail it. |
| `DataFetcher.TimeframeDays` | gold-trading-bot/src/data_fetcher.py:181-188 | Exactly the timeframes "1d", "2d" and "5d" have a look-back, of 1 to 5 days. |
| `DataFetcher.KeepSince` | gold-trading-bot/src/data_fetcher.py:190 | A row is kept exactly when it was in the frame and is at or after the cutoff, and no rows are added. |
| `DataFetcher.FilterByTimeframe` | gold-trading-bot/src/data_fetcher.py:179-190 | An unknown timeframe returns the frame unchanged. A known one keeps the columns and the rows of the last 1, 2 or 5 days before `now`. |
| `DataFetcher.KeepSinceConcat` | gold-trading-bot/src/data_fetcher.py:190 | Filtering a concatenation filters each part, so the kept rows stay in order. |
| `DataFetcher.KeepSinceIdempotent` | gold-trading-bot/src/data_fetcher.py:190 | Filtering twice with the same cutoff is filtering once. |
| `DataFetcher.KeepSinceAllRecent` | gold-trading-bot/src/data_fetcher.py:190 | When every row is recent enough, nothing is dropped. |
| `DataFetcher.LaterCutoffKeepsFewer` | gold-trading-bot/src/data_fetcher.py:181-190 | A later cutoff keeps a subset of what an earlier one keeps, so "1d" keeps a subset of "2d", which keeps a subset of "5d". |
| `TradingBot.RecordOf` | gold-trading-bot/src/trading_bot.py:82-87 | A history record carries the package's timestamp, signal, strength and confidence. |
| `TradingBot.AnalysisOutcome` | gold-trading-bot/src/trading_bot.py:54-98 | `run_single_analysis` returns a value exactly when the timeframe is known, the frame exists and passes validation, and the generator gives a full package. The value is then that package, and its signal is BUY, SELL or HOLD. |
| `TradingBot.ValidatedDataYieldsReport` | gold-trading-bot/src/trading_bot.py:59-94 | For a known timeframe and data that passes validation, the analysis always returns a package, with defined risk levels (50 bars leave room for the 14-bar ATR). |
| `TradingBot.ValidatedDataHasIndicators` | gold-trading-bot/src/signal_generator.py:24-28 | Validated data has every column the indicators read, so the generator never returns the error package for it. |
| `TradingBot.ValidatedDataHasRisk` | gold-trading-bot/src/signal_generator.py:274 | Validated data yields a package whose risk levels are defined, because 50 bars leave a defined last ATR. |
| `TradingBot.RejectedInputNoOutcome` | gold-trading-bot/src/trading_bot.py:56-69 | An unknown timeframe, a missing frame or a frame that fails validation returns nothing. |
| `TradingBot.ErrorSignalNoOutcome` | gold-trading-bot/src/trading_bot.py:76-78 | An ERROR package returns nothing. |
| `TradingBot.ReportIsOutcome` | gold-trading-bot/src/trading_bot.py:74-94 | For a known timeframe and validated data, the returned value is the generated package. |
| `TradingBot.Labels` | gold-trading-bot/src/trading_bot.py:240-241 | The labels are the recorded signals, in order. |
| `TradingBot.SessionData.Recorded` | gold-trading-bot/src/trading_bot.py:80-88 | A success increments the counter, appends its record and becomes the last analysis. It keeps the session invariant when its signal is a vote. |
| `TradingBot.SessionData.After` | gold-trading-bot/src/trading_bot.py:76-94 | After an analysis the counter grows by one exactly for a returned package and stays put otherwise. The history only grows, by at most one record. A returned package gives exactly `Recorded` of it: its record appended and it set as the last analysis. A failed analysis leaves the whole session unchanged. A valid session stays valid when the returned signal is a vote. |
| `TradingBot.Replay` | gold-trading-bot/src/trading_bot.py:80-88 | Over a run of analyses the counter grows by at most the number of analyses, and the old history stays a prefix of the new one. |
| `TradingBot.Successes` | gold-trading-bot/src/trading_bot.py:62-94 | The number of successful analyses is at most the number of analyses. |
| `TradingBot.ReplayCountsSuccesses` | gold-trading-bot/src/trading_bot.py:80-88 | Over a run of analyses, the counter and the history length grow by exactly the number of successes, and the old history stays a prefix. A valid session stays valid. |
| `TradingBot.GoldTradingBot.constructor` | gold-trading-bot/src/trading_bot.py:35-41 | A new bot starts a session with nothing analysed, nothing recorded and no last analysis, and the session invariant holds. |
| `TradingBot.GoldTradingBot.RunSingleAnalysis` | gold-trading-bot/src/trading_bot.py:43-98 | Returns nothing for rejected input or an ERROR package, and the package otherwise. A success increments the counter, appends the record and becomes the last analysis; a failure changes nothing. The counter always equals the history length. |
| `TradingBot.GoldTradingBot.Analyze` | gold-trading-bot/src/trading_bot.py:56-78 | The checks and signal generation of an analysis give the specified outcome, and any package returned carries a BUY, SELL or HOLD signal. |
| `TradingBot.GoldTradingBot.GetSignalDistribution` | gold-trading-bot/src/trading_bot.py:236-245 | The distribution has exactly the keys BUY, SELL and HOLD. Each holds the count of that label in the history, and the three add up to the number of analyses. |
| `TradingBot.CalculateConsensus` | gold-trading-bot/src/trading_bot.py:247-261 | An empty list gives no data. A BUY (SELL) consensus holds exactly when BUY (SELL) strictly outnumbers each other label, and it reports that count and the total; anything else is mixed/hold. |
| `TradingBot.MajorityIsConsensus` | gold-trading-bot/src/trading_bot.py:256-259 | A strict majority of BUY (or of SELL) is always a consensus for that side. |
| `TradingBot.RowOf` | gold-trading-bot/src/trading_bot.py:196-202 | A summary row carries the timeframe, signal, strength, confidence and price of its result. |
| `TradingBot.SummaryRows` | gold-trading-bot/src/trading_bot.py:193-202 | The summary has at most one row per timeframe result. |
| `TradingBot.SummaryRowsSingle` | gold-trading-bot/src/trading_bot.py:194-202 | A single result gives its row exactly when it is present and not ERROR. |
| `TradingBot.SummaryRowsConcat` | gold-trading-bot/src/trading_bot.py:194-202 | Summarising two tables one after the other is summarising their concatenation. |
| `TradingBot.NothingShownNoRows` | gold-trading-bot/src/trading_bot.py:204-222 | When no result is shown, the table is empty ("no valid results"). |
| `TradingBot.NothingShownNoConsensus` | gold-trading-bot/src/trading_bot.py:204-222 | When no timeframe result is shown there are no rows, so the consensus over them is "no data". |
| `TradingBot.SingleShownDecides` | gold-trading-bot/src/trading_bot.py:218-259 | A single shown BUY (SELL) result gives a BUY (SELL) consensus of 1 out of 1. |
| `TradingBot.CalculateBasicMetrics` | gold-trading-bot/src/trading_bot.py:224-234 | Strength and confidence come from the result. Ratio, risk and reward come from its risk record, defaulting to 0 when the result lacks them; an undefined record gives ratio 0 and NaN amounts. |

## Left out

- Fetching market data (Yahoo Finance, Alpha Vantage, demo data), the CLI,
  colours and all printing are left out. The fetched frame is a parameter of
  `RunSingleAnalysis`.
- Clocks are left out. `datetime.now()` is the parameter `now` of
  `FilterByTimeframe`. The session's `start_time`, `get_session_summary`
  (whose runtime needs the clock), and the error package's `timestamp` are
  not modelled.
- `run_multi_timeframe_analysis`, `run_backtest_mode` and
  `run_realtime_mode` are left out. They only call `run_single_analysis`
  repeatedly. `ReplayCountsSuccesses` states what any such sequence does to
  the session.
- `_display_multi_timeframe_results` is modelled only as its row filter and
  the consensus input. The timeframe description text and the formatting of
  the table are left out.
- Floating point is reals: rounding, overflow and infinities are not
  modelled, except the NaN and division-by-zero cases named above.
  `round(x, 2)` in the risk levels is not modelled, so the levels are
  exact.
- Human-readable text is tags. The reasons, the recommendation string and
  the echoed fields of the component dictionaries are a `Reason` or
  `Recommendation` value with their numbers, not f-strings.
- The `total_strength` accumulator of `_calculate_composite_signal` is not
  modelled, because nothing reads it.
- Exceptions other than those the model names are left out, because they
  cannot occur on the modelled inputs. The modelled ones are: the timeframe
  lookup, a missing column, an empty frame, and the `except` in
  `calculate_all_indicators` and `run_single_analysis`.
- `SummaryRows`: its own contract only bounds the row count. The row
  contents are stated by `SummaryRowsSingle` and `SummaryRowsConcat`.
- `CalculateAtr`: its own contract only gives the length. Definedness and
  sign are stated by `AtrDefinedFromPeriod`.
- `CalculateRsi`: its own contract only gives the length and the [0, 100]
  range. Definedness and values are stated by `RsiDefinedWhere`,
  `MeansGiveRsi` and `FallingClosesGiveZeroRsi`.
- Helpers without a row of their own:
  - `SignalGenerator.BucketScore`: its facts are stated by `BucketScoreStep`, `BucketScoreBounds` and `BucketsOfComponents`.
  - `SignalGenerator.Assemble`: its fields are stated by `ReportOf`.
  - `TradingBot.RowSignals` and `TradingBot.SummaryConsensus`: these are stated by `NothingShownNoConsensus` and `SingleShownDecides`.
- `CalculateBasicMetrics`: no lower bound on the ratio is stated. The bound
  is stated by `RiskMetrics` on the risk record.
