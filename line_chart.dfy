/**
  The single-series `LineChart`: the close prices against the dates, with
  fixed margins and the same padded value domain as the forecast chart.
 */
module LineChart {
  import opened Wrappers
  import opened ChartData

  const MarginLeft: int := 35
  const MarginBottom: int := 25

  datatype LineView = LineView(data: seq<Point>, domain: Domain, chartWidth: int, chartHeight: int)

  /** The body of `LineChart`'s effect; nothing is drawn when `dates` or `closes` is empty. */
  function Render(f: Forecast, width: int, height: int, parse: string -> int): (r: Option<LineView>)
    requires |f.dates| <= |f.closes|
    ensures r.None? <==> |f.dates| == 0 || |f.closes| == 0
  {
    if |f.dates| == 0 || |f.closes| == 0 then None
    else
      var data := Pair(f.dates, f.closes, parse);
      Some(LineView(data, PaddedDomain(data), width - MarginLeft, height - MarginBottom))
  }

  /**
    A drawn line chart has one point per date, `dates[i]` paired with
    `closes[i]`, every close strictly inside `[min - 5, max + 5]` with both
    extremes five units from the ends, and a plotting area of
    `width - 35` by `height - 25`.
   */
  lemma LineChartShape(f: Forecast, width: int, height: int, parse: string -> int)
    requires 1 <= |f.dates| <= |f.closes|
    ensures var r := Render(f, width, height, parse);
      && r.Some?
      && |r.value.data| == |f.dates|
      && (forall i :: 0 <= i < |f.dates| ==> r.value.data[i] == Point(parse(f.dates[i]), f.closes[i]))
      && (forall i :: 0 <= i < |f.dates| ==> r.value.domain.lo < f.closes[i] < r.value.domain.hi)
      && (exists i :: 0 <= i < |f.dates| && f.closes[i] == r.value.domain.lo + Padding)
      && (exists i :: 0 <= i < |f.dates| && f.closes[i] == r.value.domain.hi - Padding)
      && r.value.chartWidth == width - 35 && r.value.chartHeight == height - 25
  {
    var data := Pair(f.dates, f.closes, parse);
    var d := PaddedDomain(data);
    assert Render(f, width, height, parse).value.domain == d;
    var i :| 0 <= i < |data| && data[i].value == d.lo + Padding;
    assert f.closes[i] == d.lo + Padding;
    var j :| 0 <= j < |data| && data[j].value == d.hi - Padding;
    assert f.closes[j] == d.hi - Padding;
  }
}
