/** OHLCV bars and the data frames that carry them. */
module Frames {

  /** One bar; the timestamp is the frame's index, in seconds. */
  datatype Bar = Bar(timestamp: int, open: real, high: real, low: real, close: real, volume: real)
  {
    /** The bar invariants of a validated series: the high and low bracket the open and close. */
    predicate WellFormed()
    {
      low <= open <= high && low <= close <= high && volume >= 0.0
    }
  }

  /**
   * A data frame: the names of the columns it has and its rows. A field of a
   * row whose column is absent carries no meaning.
   */
  datatype Frame = Frame(columns: set<string>, rows: seq<Bar>)

  function Closes(bars: seq<Bar>): (c: seq<real>)
    ensures |c| == |bars|
    ensures forall i :: 0 <= i < |bars| ==> c[i] == bars[i].close
  {
    seq(|bars|, i requires 0 <= i < |bars| => bars[i].close)
  }

  function Highs(bars: seq<Bar>): (h: seq<real>)
    ensures |h| == |bars|
    ensures forall i :: 0 <= i < |bars| ==> h[i] == bars[i].high
  {
    seq(|bars|, i requires 0 <= i < |bars| => bars[i].high)
  }

  function Lows(bars: seq<Bar>): (l: seq<real>)
    ensures |l| == |bars|
    ensures forall i :: 0 <= i < |bars| ==> l[i] == bars[i].low
  {
    seq(|bars|, i requires 0 <= i < |bars| => bars[i].low)
  }

  function Volumes(bars: seq<Bar>): (v: seq<real>)
    ensures |v| == |bars|
    ensures forall i :: 0 <= i < |bars| ==> v[i] == bars[i].volume
  {
    seq(|bars|, i requires 0 <= i < |bars| => bars[i].volume)
  }
}
