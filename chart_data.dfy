/**
  The data the two chart components share: the canonical `Forecast` record,
  a plotted point, the pairing of a date column with a value column, and the
  value domain padded by five units on either side.
 */
module ChartData {

  /** The `Forecast` interface: seven parallel columns, dates as strings. */
  datatype Forecast = Forecast(
    dates: seq<string>,
    opens: seq<int>,
    closes: seq<int>,
    highs: seq<int>,
    lows: seq<int>,
    adjCloses: seq<int>,
    volumes: seq<int>)

  /** A plotted point; `date` is the time value (milliseconds) of `new Date(d)`. */
  datatype Point = Point(date: int, value: int)

  /** The y-scale domain `[lo, hi]`. */
  datatype Domain = Domain(lo: int, hi: int)

  /** The fixed padding added below the minimum and above the maximum value. */
  const Padding: int := 5

  /**
    `dates.map((d, i) => ({ date: new Date(d), value: values[i] }))`; the date
    parser is the foreign `Date` constructor, passed in as `parse`.
   */
  function Pair(dates: seq<string>, values: seq<int>, parse: string -> int): (data: seq<Point>)
    requires |dates| <= |values|
    ensures |data| == |dates|
    ensures forall i :: 0 <= i < |data| ==> data[i].date == parse(dates[i]) && data[i].value == values[i]
  {
    seq(|dates|, i requires 0 <= i < |dates| => Point(parse(dates[i]), values[i]))
  }

  /** `d3.min(data, d => d.value)` on non-empty data: the least value, which some point has. */
  function MinValue(data: seq<Point>): (m: int)
    requires |data| > 0
    ensures exists k :: 0 <= k < |data| && data[k].value == m
    ensures forall k :: 0 <= k < |data| ==> m <= data[k].value
  {
    if |data| == 1 then data[0].value
    else
      var rest := MinValue(data[1..]);
      assert forall k :: 1 <= k < |data| ==> data[k] == data[1..][k - 1];
      if data[0].value < rest then data[0].value else rest
  }

  /** `d3.max(data, d => d.value)` on non-empty data: the greatest value, which some point has. */
  function MaxValue(data: seq<Point>): (m: int)
    requires |data| > 0
    ensures exists k :: 0 <= k < |data| && data[k].value == m
    ensures forall k :: 0 <= k < |data| ==> data[k].value <= m
  {
    if |data| == 1 then data[0].value
    else
      var rest := MaxValue(data[1..]);
      assert forall k :: 1 <= k < |data| ==> data[k] == data[1..][k - 1];
      if data[0].value > rest then data[0].value else rest
  }

  /**
    The y domain `[min - 5, max + 5]`: every value lies strictly inside it, and
    the smallest and the largest value sit exactly five units from its ends.
   */
  function PaddedDomain(data: seq<Point>): (d: Domain)
    requires |data| > 0
    ensures forall k :: 0 <= k < |data| ==> d.lo + Padding <= data[k].value <= d.hi - Padding
    ensures forall k :: 0 <= k < |data| ==> d.lo < data[k].value < d.hi
    ensures exists k :: 0 <= k < |data| && data[k].value == d.lo + Padding
    ensures exists k :: 0 <= k < |data| && data[k].value == d.hi - Padding
  {
    Domain(MinValue(data) - Padding, MaxValue(data) + Padding)
  }
}
