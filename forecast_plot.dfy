/**
  The forecast chart (`ForecastPlot` and its inner `Plot`): the series
  dropdown, the prediction window, the split into an actual and a predicted
  segment, the colour of the predicted segment, the padded value domain, the
  layout, the separator and the nearest-point hover lookup.
 */
module ForecastPlot {
  import opened Wrappers
  import opened JsSemantics
  import opened ChartData

  // ---------------------------------------------------------------------------
  // Series selection
  // ---------------------------------------------------------------------------

  /** The six entries of the series dropdown. */
  datatype Field = Close | Open | High | Low | AdjClose | Volume

  /** The `value` attribute of each dropdown `<option>`. */
  function OptionValue(c: Field): string {
    match c
    case Close => "Close"
    case Open => "Open"
    case High => "High"
    case Low => "Low"
    case AdjClose => "Adjacent Close"
    case Volume => "Volume"
  }

  /** The forecast column an entry stands for. */
  function Column(f: Forecast, c: Field): seq<int> {
    match c
    case Close => f.closes
    case Open => f.opens
    case High => f.highs
    case Low => f.lows
    case AdjClose => f.adjCloses
    case Volume => f.volumes
  }

  /** The pair of state values `selectedName` / `selectedMode`. */
  datatype Selection = Selection(name: string, values: seq<int>)

  /** The selection shown before any dropdown event. */
  function InitialSelection(f: Forecast): (s: Selection)
    ensures s == Selection(OptionValue(Close), Column(f, Close))
  {
    Selection("Close", f.closes)
  }

  /** The `switch` of `handleDropdownChange`. */
  function Select(f: Forecast, selected: string): Selection {
    match selected
    case "Close" => Selection("Close", f.closes)
    case "Open" => Selection("Open", f.opens)
    case "High" => Selection("High", f.highs)
    case "Low" => Selection("Low", f.lows)
    case "Adjacent Close" => Selection("Adjacent Close", f.adjCloses)
    case "Volume" => Selection("Volume", f.volumes)
    case _ => Selection("Close", f.closes)
  }

  /**
    Each dropdown option value selects its own column under its own name; any
    other value falls back to the close series.
   */
  lemma SelectFollowsDropdown(f: Forecast, selected: string)
    ensures forall c :: selected == OptionValue(c) ==> Select(f, selected) == Selection(OptionValue(c), Column(f, c))
    ensures (forall c :: selected != OptionValue(c)) ==> Select(f, selected) == InitialSelection(f)
  {
    assert OptionValue(Close) == "Close" && OptionValue(Open) == "Open" && OptionValue(High) == "High";
    assert OptionValue(Low) == "Low" && OptionValue(AdjClose) == "Adjacent Close" && OptionValue(Volume) == "Volume";
  }

  /** Distinct dropdown entries carry distinct values, so no entry is shadowed by another case. */
  lemma OptionValuesDistinct(c: Field, d: Field)
    requires c != d
    ensures OptionValue(c) != OptionValue(d)
  {
  }

  /** Selecting the name currently shown selects the same series again. */
  lemma SelectIdempotent(f: Forecast, selected: string)
    ensures Select(f, Select(f, selected).name) == Select(f, selected)
  {
    SelectFollowsDropdown(f, selected);
    SelectFollowsDropdown(f, Select(f, selected).name);
  }

  /**
    The state of the `ForecastPlot` component: the current `forecast` prop and
    the `useState` selection, which a new prop does not reset.
   */
  class ForecastView {
    var forecast: Forecast
    var selectedName: string
    var selectedMode: seq<int>

    constructor (f: Forecast)
      ensures forecast == f
      ensures Selection(selectedName, selectedMode) == InitialSelection(f)
    {
      forecast := f;
      selectedName := "Close";
      selectedMode := f.closes;
    }

    /**
      A re-render with a new `forecast` prop: the destructured columns follow
      the prop, but `useState` keeps its first values, so the chart goes on
      showing the old selected column against the new dates until the
      dropdown changes.
     */
    method ReceiveForecast(f: Forecast)
      modifies this
      ensures forecast == f
      ensures selectedName == old(selectedName) && selectedMode == old(selectedMode)
    {
      forecast := f;
    }

    /** `handleDropdownChange`: the setters of the matching `switch` case, over the current prop. */
    method HandleDropdownChange(selected: string)
      modifies this
      ensures forecast == old(forecast)
      ensures Selection(selectedName, selectedMode) == Select(old(forecast), selected)
    {
      match selected {
        case "Close" =>
          selectedName := "Close";
          selectedMode := forecast.closes;
        case "Open" =>
          selectedName := "Open";
          selectedMode := forecast.opens;
        case "High" =>
          selectedName := "High";
          selectedMode := forecast.highs;
        case "Low" =>
          selectedName := "Low";
          selectedMode := forecast.lows;
        case "Adjacent Close" =>
          selectedName := "Adjacent Close";
          selectedMode := forecast.adjCloses;
        case "Volume" =>
          selectedName := "Volume";
          selectedMode := forecast.volumes;
        case _ =>
          selectedName := "Close";
          selectedMode := forecast.closes;
      }
    }
  }

  // ---------------------------------------------------------------------------
  // Prediction window and the two segments
  // ---------------------------------------------------------------------------

  /** `numDays = (dates.length - 1) / 5`, a real quotient (not rounded). */
  function NumDays(dateCount: nat): (r: real)
    ensures r * 5.0 == dateCount as real - 1.0
  {
    (dateCount as real - 1.0) / 5.0
  }

  /**
    Once `slice` truncates it, the window `numDays` is the integer quotient
    `(n - 1) / 5`, which is below `n`; for `n % 5 == 1` nothing is truncated.
   */
  lemma NumDaysWindow(n: nat)
    requires n >= 1
    ensures ToIntegerOrInfinity(NumDays(n)) == (n - 1) / 5 < n
    ensures NumDays(n).Floor == (n - 1) / 5
    ensures n % 5 == 1 ==> NumDays(n) == ((n - 1) / 5) as real
  {
    var q := (n - 1) / 5;
    assert q * 5 <= n - 1 < q * 5 + 5;
    assert q as real <= NumDays(n) < q as real + 1.0;
  }

  datatype Segments = Segments(actual: seq<Point>, prediction: seq<Point>)

  /** `data.slice(0, -predictionLength)` and `data.slice(-predictionLength - 1)`. */
  function Split(data: seq<Point>, predictionLength: real): Segments {
    Segments(Slice(data, 0.0, -predictionLength), SliceFrom(data, -predictionLength - 1.0))
  }

  /**
    The two slices for a window already truncated to `k`: for `1 <= k < n`
    the actual segment is the first `n - k` points and the predicted one the
    last `k + 1`, sharing exactly one point; for `k == 0` (`slice(0, -0)`) the
    actual segment is empty and the predicted one is the last point; a window
    of `n` or more leaves no actual segment and predicts everything.
   */
  function SplitWindow(data: seq<Point>, k: nat): (s: Segments)
    requires |data| > 0
    ensures var n := |data|;
      && (k == 0 ==> s.actual == [] && s.prediction == [data[n - 1]])
      && (1 <= k < n ==> s.actual == data[..n - k] && s.prediction == data[n - k - 1..])
      && (1 <= k < n ==> |s.actual| + |s.prediction| == n + 1 && s.actual[|s.actual| - 1] == s.prediction[0])
      && (n <= k ==> s.actual == [] && s.prediction == data)
  {
    assert data[|data| - 1..] == [data[|data| - 1]];
    Segments(SliceAt(data, 0, -(k as int)), SliceFromAt(data, -(k as int) - 1))
  }

  /** The real window `p >= 0` splits the data as its truncation `floor(p)` does. */
  lemma SplitByWindow(data: seq<Point>, p: real, k: nat)
    requires |data| > 0 && p >= 0.0 && p.Floor == k
    ensures Split(data, p) == SplitWindow(data, k)
  {
    NegatedTruncation(p);
  }

  // ---------------------------------------------------------------------------
  // Colour, layout and separator
  // ---------------------------------------------------------------------------

  datatype Stroke = Green | Red

  /**
    `lastPredictionValue > lastActualValue ? "green" : "red"`, where a missing
    last point reads as `undefined` and every comparison with it is false.
   */
  function PredictionColor(actual: seq<Point>, prediction: seq<Point>): (c: Stroke)
    ensures c == Green <==>
      |actual| > 0 && |prediction| > 0 && prediction[|prediction| - 1].value > actual[|actual| - 1].value
    ensures c == Red <==>
      |actual| == 0 || |prediction| == 0 || prediction[|prediction| - 1].value <= actual[|actual| - 1].value
  {
    var lastActual := if |actual| > 0 then Some(actual[|actual| - 1].value) else None;
    var lastPrediction := if |prediction| > 0 then Some(prediction[|prediction| - 1].value) else None;
    if lastActual.Some? && lastPrediction.Some? && lastPrediction.value > lastActual.value then Green else Red
  }

  datatype Layout = Layout(marginLeft: int, yLabel: string, chartWidth: int, chartHeight: int)

  const MarginBottom: int := 50

  /**
    Margins `{top: 0, right: 0, bottom: 50, left}` with `left` 100 for the
    volume series and 50 otherwise, the y label chosen the same way.
   */
  function ChartLayout(name: string, width: int, height: int): (l: Layout)
    ensures l.marginLeft == (if name == "Volume" then 100 else 50)
    ensures l.yLabel == (if name == "Volume" then "Quantity" else "Price")
    ensures l.chartWidth + l.marginLeft == width && l.chartHeight + MarginBottom == height
  {
    var marginLeft := if name == "Volume" then 100 else 50;
    var yLabel := if name == "Volume" then "Quantity" else "Price";
    Layout(marginLeft, yLabel, width - marginLeft, height - MarginBottom)
  }

  /** The dashed line at the last actual date, drawn only if there is an actual segment. */
  function Separator(actual: seq<Point>): (x: Option<int>)
    ensures x.Some? <==> |actual| > 0
    ensures x.Some? ==> x.value == actual[|actual| - 1].date
  {
    if |actual| > 0 then Some(actual[|actual| - 1].date) else None
  }

  // ---------------------------------------------------------------------------
  // The whole drawing
  // ---------------------------------------------------------------------------

  datatype Chart = Chart(
    data: seq<Point>,
    segments: Segments,
    color: Stroke,
    domain: Domain,
    layout: Layout,
    separator: Option<int>)

  const DefaultWidth: int := 800
  const DefaultHeight: int := 400

  /**
    The body of `Plot`'s effect: nothing is drawn when `dates` or `values` is
    empty; otherwise the chart over one point per date.
   */
  function Render(name: string, dates: seq<string>, values: seq<int>, predictionLength: real,
                  width: int, height: int, parse: string -> int): (r: Option<Chart>)
    requires |dates| <= |values|
    ensures r.None? <==> |dates| == 0 || |values| == 0
    ensures r.Some? ==> |r.value.data| == |dates| > 0
  {
    if |dates| == 0 || |values| == 0 then None
    else
      var data := Pair(dates, values, parse);
      var segments := Split(data, predictionLength);
      Some(Chart(data, segments, PredictionColor(segments.actual, segments.prediction),
                 PaddedDomain(data), ChartLayout(name, width, height), Separator(segments.actual)))
  }

  /**
    The colour and the separator of a chart over `n` points whose window
    truncates to `k < n`: with `k == 0` the predicted line is red and there is
    no separator; otherwise the line is green exactly when the last value
    exceeds the value at the boundary `n - k - 1`, and the separator stands at
    the boundary date.
   */
  lemma ChartDecorations(data: seq<Point>, k: nat)
    requires 0 <= k < |data|
    ensures var s, n := SplitWindow(data, k), |data|;
      && (k == 0 ==> PredictionColor(s.actual, s.prediction) == Red && Separator(s.actual) == None)
      && (1 <= k ==> (PredictionColor(s.actual, s.prediction) == Green <==> data[n - 1].value > data[n - k - 1].value))
      && (1 <= k ==> Separator(s.actual) == Some(data[n - k - 1].date))
  {
    SegmentDecorations(data, k, SplitWindow(data, k));
  }

  /** The colour and the separator of any pair of segments shaped as `SplitWindow` gives them for `k < n`. */
  lemma SegmentDecorations(data: seq<Point>, k: nat, s: Segments)
    requires 0 <= k < |data|
    requires k == 0 ==> s.actual == [] && s.prediction == [data[|data| - 1]]
    requires 1 <= k ==> s.actual == data[..|data| - k] && s.prediction == data[|data| - k - 1..]
    ensures var n := |data|;
      && (k == 0 ==> PredictionColor(s.actual, s.prediction) == Red && Separator(s.actual) == None)
      && (1 <= k ==> (PredictionColor(s.actual, s.prediction) == Green <==> data[n - 1].value > data[n - k - 1].value))
      && (1 <= k ==> Separator(s.actual) == Some(data[n - k - 1].date))
  {
    var n := |data|;
    if 1 <= k {
      assert s.actual[|s.actual| - 1] == data[n - k - 1];
      assert s.prediction[|s.prediction| - 1] == data[n - 1];
    }
  }

  /**
    The segments `ForecastPlot` draws for `n >= 1` points: the real window
    `numDays` splits them as the integer window `(n - 1) / 5` does.
   */
  lemma ForecastSegments(data: seq<Point>)
    requires |data| >= 1
    ensures Split(data, NumDays(|data|)) == SplitWindow(data, (|data| - 1) / 5)
  {
    NumDaysWindow(|data|);
    SplitByWindow(data, NumDays(|data|), (|data| - 1) / 5);
  }

  /**
    The colour and the separator for `n >= 1` points split by the real window
    `numDays`, stated through the integer window `k = (n - 1) / 5`.
   */
  lemma ForecastDecorations(data: seq<Point>)
    requires |data| >= 1
    ensures var n, k := |data|, (|data| - 1) / 5;
      var s := Split(data, NumDays(n));
      && (k == 0 ==> PredictionColor(s.actual, s.prediction) == Red && Separator(s.actual) == None)
      && (k >= 1 ==> (PredictionColor(s.actual, s.prediction) == Green <==> data[n - 1].value > data[n - k - 1].value))
      && (k >= 1 ==> Separator(s.actual) == Some(data[n - k - 1].date))
  {
    NumDaysWindow(|data|);
    ForecastSegments(data);
    ChartDecorations(data, (|data| - 1) / 5);
  }

  /** `ForecastDecorations` read back through the pairing of dates with values. */
  lemma PairedDecorations(dates: seq<string>, values: seq<int>, parse: string -> int)
    requires 1 <= |dates| <= |values|
    ensures var n, k := |dates|, (|dates| - 1) / 5;
      var s := Split(Pair(dates, values, parse), NumDays(n));
      && (k == 0 ==> PredictionColor(s.actual, s.prediction) == Red && Separator(s.actual) == None)
      && (k >= 1 ==> (PredictionColor(s.actual, s.prediction) == Green <==> values[n - 1] > values[n - k - 1]))
      && (k >= 1 ==> Separator(s.actual) == Some(parse(dates[n - k - 1])))
  {
    var n, k := |dates|, (|dates| - 1) / 5;
    var data := Pair(dates, values, parse);
    ForecastDecorations(data);
    var b := n - k - 1;
    assert data[b] == Point(parse(dates[b]), values[b]);
    assert data[n - 1].value == values[n - 1];
  }

  /**
    The chart `ForecastPlot` draws for `n >= 1` dates and the window
    `k = (n - 1) / 5`: one point per date, split by `numDays`; with `k == 0`
    a red line and no separator; otherwise the line is green exactly when the
    last value exceeds the value at the boundary `n - k - 1`, and the separator
    stands at the boundary date.
   */
  lemma ForecastChart(name: string, dates: seq<string>, values: seq<int>, parse: string -> int)
    requires 1 <= |dates| <= |values|
    ensures var n, k := |dates|, (|dates| - 1) / 5;
      var r := Render(name, dates, values, NumDays(n), DefaultWidth, DefaultHeight, parse);
      && r.Some?
      && r.value.data == Pair(dates, values, parse)
      && r.value.segments == Split(r.value.data, NumDays(n))
      && (k == 0 ==> r.value.color == Red && r.value.separator == None)
      && (k >= 1 ==> (r.value.color == Green <==> values[n - 1] > values[n - k - 1]))
      && (k >= 1 ==> r.value.separator == Some(parse(dates[n - k - 1])))
  {
    PairedDecorations(dates, values, parse);
  }

  // ---------------------------------------------------------------------------
  // Hover lookup
  // ---------------------------------------------------------------------------

  /** `Math.abs(t - hovered)` */
  function Distance(t: int, hovered: int): (d: nat)
    ensures d == t - hovered || d == hovered - t
    ensures t - hovered <= d && hovered - t <= d
  {
    if t >= hovered then t - hovered else hovered - t
  }

  /** A nearest point to `hovered`, and the first of any that are equally near. */
  ghost predicate IsFirstClosest(data: seq<Point>, hovered: int, k: nat) {
    && k < |data|
    && (forall j :: 0 <= j < |data| ==> Distance(data[k].date, hovered) <= Distance(data[j].date, hovered))
    && (forall j :: 0 <= j < k ==> Distance(data[k].date, hovered) < Distance(data[j].date, hovered))
  }

  /**
    The `reduce` from position `i` on, carrying the index `best` of the point
    kept so far: a later point replaces it only when strictly nearer.
   */
  function ReduceClosest(data: seq<Point>, hovered: int, i: nat, best: nat): (k: nat)
    requires best < i <= |data|
    requires forall j :: 0 <= j < i ==> Distance(data[best].date, hovered) <= Distance(data[j].date, hovered)
    requires forall j :: 0 <= j < best ==> Distance(data[best].date, hovered) < Distance(data[j].date, hovered)
    ensures IsFirstClosest(data, hovered, k)
    decreases |data| - i
  {
    if i == |data| then best
    else if Distance(data[i].date, hovered) < Distance(data[best].date, hovered) then
      ReduceClosest(data, hovered, i + 1, i)
    else
      ReduceClosest(data, hovered, i + 1, best)
  }

  /** `data.reduce(...)` without an initial value: the fold starts from `data[0]`. */
  function ClosestIndex(data: seq<Point>, hovered: int): (k: nat)
    requires |data| > 0
    ensures IsFirstClosest(data, hovered, k)
  {
    ReduceClosest(data, hovered, 1, 0)
  }

  /** The first closest point is the only index with that property. */
  lemma FirstClosestUnique(data: seq<Point>, hovered: int, k: nat, k': nat)
    requires IsFirstClosest(data, hovered, k) && IsFirstClosest(data, hovered, k')
    ensures k == k'
  {
    assert Distance(data[k].date, hovered) == Distance(data[k'].date, hovered);
  }

  /** The `Plot` component once its effect has run: the chart and the `hoverData` state. */
  class Plot {
    const chart: Option<Chart>
    var hoverData: Option<Point>

    /** A chart is only drawn over at least one point. */
    predicate Valid() {
      chart.Some? ==> |chart.value.data| > 0
    }

    constructor (name: string, dates: seq<string>, values: seq<int>, predictionLength: real,
                 width: int, height: int, parse: string -> int)
      requires |dates| <= |values|
      ensures chart == Render(name, dates, values, predictionLength, width, height, parse)
      ensures Valid() && hoverData == None
    {
      chart := Render(name, dates, values, predictionLength, width, height, parse);
      hoverData := None;
    }

    /**
      The `mousemove` handler, given the hovered time directly: the hover state
      becomes the first closest point. Without a chart no handler exists.
     */
    method MouseMove(hovered: int)
      requires Valid()
      modifies this
      ensures chart.Some? ==> hoverData.Some? && hoverData.value == chart.value.data[ClosestIndex(chart.value.data, hovered)]
      ensures chart.Some? ==> IsFirstClosest(chart.value.data, hovered, ClosestIndex(chart.value.data, hovered))
      ensures chart.None? ==> hoverData == old(hoverData)
    {
      if chart.Some? {
        var data := chart.value.data;
        hoverData := Some(data[ClosestIndex(data, hovered)]);
      }
    }

    /** The `mouseout` handler clears the hover state. */
    method MouseOut()
      modifies this
      ensures chart.Some? ==> hoverData == None
      ensures chart.None? ==> hoverData == old(hoverData)
    {
      if chart.Some? {
        hoverData := None;
      }
    }
  }
}
