/** The input checks of the data fetcher: frame validation and the timeframe filter. */
module DataFetcher {
  import opened Wrappers
  import opened Frames

  /** The fewest bars the indicators are trusted on. */
  const MinRows: nat := 50

  const RequiredColumns: set<string> := {"open", "high", "low", "close", "volume"}

  const SecondsPerDay: int := 86400

  /**
   * `validate_data`: a missing frame, an empty one (pandas calls a frame
   * empty when it has no rows or no columns), a missing OHLCV column, or
   * fewer than 50 rows each fail, in that order.
   */
  function ValidateData(df: Option<Frame>): (ok: bool)
    ensures df.None? ==> !ok
    ensures df.Some? && (|df.value.rows| == 0 || df.value.columns == {}) ==> !ok
    ensures df.Some? && !(RequiredColumns <= df.value.columns) ==> !ok
    ensures df.Some? && |df.value.rows| < MinRows ==> !ok
    ensures ok <==> df.Some? && RequiredColumns <= df.value.columns && |df.value.rows| >= MinRows
  {
    if df.None? || |df.value.rows| == 0 || df.value.columns == {} then false
    else if !(RequiredColumns <= df.value.columns) then false
    else if |df.value.rows| < MinRows then false
    else true
  }

  /** The look-back of each known timeframe, in days. */
  function TimeframeDays(timeframe: string): (d: Option<nat>)
    ensures d.Some? <==> timeframe == "1d" || timeframe == "2d" || timeframe == "5d"
    ensures d.Some? ==> 1 <= d.value <= 5
  {
    if timeframe == "1d" then Some(1)
    else if timeframe == "2d" then Some(2)
    else if timeframe == "5d" then Some(5)
    else None
  }

  /** The rows at or after `cutoff`, in their original order. */
  function KeepSince(rows: seq<Bar>, cutoff: int): (kept: seq<Bar>)
    ensures |kept| <= |rows|
    ensures forall b :: b in kept <==> b in rows && b.timestamp >= cutoff
  {
    if |rows| == 0 then []
    else
      var rest := KeepSince(rows[1..], cutoff);
      if rows[0].timestamp >= cutoff then [rows[0]] + rest else rest
  }

  /** `_filter_by_timeframe`: a known timeframe keeps the rows of its last 1, 2 or 5 days; any other keeps all. */
  function FilterByTimeframe(df: Frame, timeframe: string, now: int): (r: Frame)
    ensures TimeframeDays(timeframe).None? ==> r == df
    ensures r.columns == df.columns
    ensures TimeframeDays(timeframe).Some? ==>
              r.rows == KeepSince(df.rows, now - TimeframeDays(timeframe).value * SecondsPerDay)
  {
    match TimeframeDays(timeframe)
    case None => df
    case Some(days) => Frame(df.columns, KeepSince(df.rows, now - days * SecondsPerDay))
  }

  /** Filtering a concatenation filters each part: the kept rows stay in order. */
  lemma {:induction false} KeepSinceConcat(a: seq<Bar>, b: seq<Bar>, cutoff: int)
    ensures KeepSince(a + b, cutoff) == KeepSince(a, cutoff) + KeepSince(b, cutoff)
  {
    if |a| > 0 {
      assert (a + b)[1..] == a[1..] + b;
      KeepSinceConcat(a[1..], b, cutoff);
    } else {
      assert a + b == b;
    }
  }

  /** Filtering twice with the same cutoff is filtering once. */
  lemma {:induction false} KeepSinceIdempotent(rows: seq<Bar>, cutoff: int)
    ensures KeepSince(KeepSince(rows, cutoff), cutoff) == KeepSince(rows, cutoff)
  {
    if |rows| > 0 {
      KeepSinceIdempotent(rows[1..], cutoff);
      var rest := KeepSince(rows[1..], cutoff);
      if rows[0].timestamp >= cutoff {
        assert ([rows[0]] + rest)[1..] == rest;
      }
    }
  }

  /** When every row is recent enough nothing is dropped. */
  lemma {:induction false} KeepSinceAllRecent(rows: seq<Bar>, cutoff: int)
    requires forall i :: 0 <= i < |rows| ==> rows[i].timestamp >= cutoff
    ensures KeepSince(rows, cutoff) == rows
  {
    if |rows| > 0 {
      KeepSinceAllRecent(rows[1..], cutoff);
      assert [rows[0]] + rows[1..] == rows;
    }
  }

  /** A later cutoff keeps a subset of the rows an earlier one keeps. */
  lemma LaterCutoffKeepsFewer(rows: seq<Bar>, early: int, late: int)
    requires early <= late
    ensures forall b :: b in KeepSince(rows, late) ==> b in KeepSince(rows, early)
  {
  }
}
