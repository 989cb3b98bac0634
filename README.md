# portfolia-client core, modelled in Dafny

This project models the logic of the portfolia-client chat front-end. The
user asks a question about a stock. The backend answers with a message, an
optional ticker symbol and action, and an optional price forecast. The
front-end reveals the message character by character and draws the forecast
as a chart. The drawing is split into the actual days and the predicted days.

The Dafny modules follow the source files:

- `Wrappers`: `Option`.
- `JsSemantics`: the ECMAScript built-ins the core depends on. These are `trim`, `slice` (with ToIntegerOrInfinity and relative-index clamping) and JSON values.
- `ChartData`: the `Forecast` record, plotted points, the pairing of dates with values, and the padded y domain. Both chart components share these.
- `ForecastPlot` (`src/components/ForecastPlot.tsx`): the series dropdown (the `ForecastView` class), the prediction window, the actual/predicted split, the line colour, the layout, the separator, and the nearest-point hover (the `Plot` class).
- `LineChart` (`src/components/LineChart.tsx`): the single-series close-price chart.
- `Typing` (`src/hooks/useTypingEffect.ts`): the typing hook, as a class stepped by discrete timer firings.
- `ChatTurn` (`src/Chat.tsx`): `handleSubmit`, which is the trim gate, the reset and the adoption of the reply (the `Chat` class).
- `ForecastPayload` (`src/test.ts`): the conversion of a raw, column-keyed payload into a `Forecast`, with the date column rewritten in place.

Some behaviour is modelled exactly as written, even where it looks unintended:

- The prediction window `numDays = (dates.length - 1) / 5` is a real number.
  `slice` truncates it toward zero. With fewer than six dates it truncates to
  0, so `slice(0, -0)` is empty. The chart then has no actual segment and no
  separator, and its predicted line is red.
- The typing hook's updater `prev => prev + message[i]` is taken to run when
  `setText` is called, before `i++`. Under that reading the revealed text is
  `message[0]` followed by `message[0 .. |message| - 1)`: the first character
  shows twice and the last never shows ("abc" shows "aab"). The final text
  has the message's length and equals the message only when the message
  repeats a single character. React may instead run the updater at the next
  render, after `i++` (see "## Left out").
- The hook's cleanup clears the interval but not the pending "settle"
  timeout. A settle scheduled for the previous message can therefore clear
  `isTyping` while the next message is still being revealed.
- The hover `reduce` has no initial value and replaces its choice only on a
  strictly smaller distance. Among equally near points it keeps the first.
- `ForecastPlot` keeps its selection in `useState`. A new `forecast` prop
  therefore keeps the previously selected column, which is drawn against the
  new dates until the dropdown changes (`ForecastView.ReceiveForecast`).
- A response may have `symbol` or `action` equal to the sentinel `"None"`.
  Then both stay empty. A forecast that is a string (the backend's `"None"`)
  leaves the forecast `null`.

Foreign built-ins are parameters of the operations that call them:

- `new Date(d)` is `parse: string -> int`, giving the time value in milliseconds.
- `String(v)` and `Number(v)` are `str` and `num`.
- `new Date(s).toISOString()` is `iso: string -> Option<string>`, where `None` means it throws.

## Model

| member | source | states |
|---|---|---|
| JsSemantics.LeadingBlanks | src/Chat.tsx:15 | the count is a prefix of white space followed by a non-white-space character or the end |
| JsSemantics.TrailingBlanks | src/Chat.tsx:15 | the count is a suffix of white space preceded by a non-white-space character or the start |
| JsSemantics.Trim | src/Chat.tsx:15 | `trim()` is a contiguous part of its input with only white space before and after it, and a non-empty result starts and ends with non-white-space, which fixes it as the input without its outer white space |
| JsSemantics.TrimEmptyIffBlank | src/Chat.tsx:15 | `trim()` gives the empty (falsy) string exactly when the input is all white space |
| JsSemantics.ToIntegerOrInfinity | src/components/ForecastPlot.tsx:116-117 | the integer `slice` uses is the argument truncated toward zero (non-negative for a non-negative argument, non-positive for a negative one, within one of it) |
| JsSemantics.RelativeIndex | src/components/ForecastPlot.tsx:116-117 | a `slice` index is clamped to `[0, len]`, and a negative one counts from the end |
| JsSemantics.SliceAt | src/components/ForecastPlot.tsx:116 | `slice(start, end)` on integer arguments has `to - from` elements when the clamped relative indices ascend and none otherwise, and its i-th element is `s[from + i]` |
| JsSemantics.SliceFromAt | src/components/ForecastPlot.tsx:117 | `slice(start)` on an integer argument has `len - from` elements for the clamped relative index `from`, and its i-th element is `s[from + i]` |
| JsSemantics.Slice | src/components/ForecastPlot.tsx:116 | `slice` on Number arguments truncates them first; its effect on the chart's window is stated by `ForecastPlot.SplitWindow` and `ForecastPlot.SplitByWindow` |
| JsSemantics.SliceFrom | src/components/ForecastPlot.tsx:117 | the one-argument `slice` truncates its Number argument first; see `ForecastPlot.SplitWindow` |
| JsSemantics.NegatedTruncation | src/components/ForecastPlot.tsx:116-117 | for a window `p >= 0`, the arguments `-p` and `-p - 1` truncate to `-floor(p)` and `-floor(p) - 1` |
| ChatTurn.Accepts | src/Chat.tsx:15 | the gate `if (input.trim())` passes exactly when the input is not all white space |
| ChatTurn.Adopt | src/Chat.tsx:33-43 | the setters after the `await`; their effect is stated by `ChatTurn.Turn` and `ChatTurn.Chat.Receive` |
| ChatTurn.Complete | src/Chat.tsx:33-46 | a response is adopted and a failure caught by the `catch` changes nothing; stated by `ChatTurn.Turn` |
| ChatTurn.Turn | src/Chat.tsx:13-48 | a request is sent iff the input is not blank, and it carries the untrimmed input; blank input changes nothing; a failure leaves all five fields cleared; a response sets the message, sets symbol and action only when neither is "None" (else both stay ""), and sets the forecast only when it is not a string (else null) |
| ChatTurn.BuyReplyWithoutForecast | src/Chat.tsx:33-43 | a buy reply whose forecast is the string "None" shows message, symbol and action, and leaves the forecast null |
| ChatTurn.Chat.constructor | src/Chat.tsx:7-11 | all five state values start empty, with the forecast null |
| ChatTurn.Chat.Type | src/Chat.tsx:60-62 | typing replaces `input` and nothing else |
| ChatTurn.Chat.Submit | src/Chat.tsx:15-22 | blank input sends nothing and changes nothing; otherwise the untrimmed input is captured as the question and all five fields are cleared |
| ChatTurn.Chat.Receive | src/Chat.tsx:33-46 | once the request settles, the reply's setters apply to the state as it is then (which is the cleared state unless the user typed or submitted again during the `await`); a failure changes nothing |
| ChatTurn.Chat.HandleSubmit | src/Chat.tsx:13-48 | submit followed by the settled request yields exactly `Turn`'s state and request |
| ChartData.Pair | src/components/ForecastPlot.tsx:113 | one point per date, with the i-th date parsed and paired with the i-th value |
| ChartData.MinValue | src/components/ForecastPlot.tsx:144 | `d3.min` is a value some point has and no point is below |
| ChartData.MaxValue | src/components/ForecastPlot.tsx:145 | `d3.max` is a value some point has and no point is above |
| ChartData.PaddedDomain | src/components/ForecastPlot.tsx:141-147 | every value lies strictly inside the y domain, at least 5 from either end, and the minimum and maximum sit exactly 5 from the ends |
| ForecastPlot.InitialSelection | src/components/ForecastPlot.tsx:26-27 | the first selection is the "Close" option with the close column |
| ForecastPlot.Select | src/components/ForecastPlot.tsx:32-61 | the `switch` of `handleDropdownChange`; its meaning is stated by `ForecastPlot.SelectFollowsDropdown` |
| ForecastPlot.SelectFollowsDropdown | src/components/ForecastPlot.tsx:29-77 | each dropdown option value selects its own column under its own name; any other value falls back to "Close" and the close column |
| ForecastPlot.OptionValuesDistinct | src/components/ForecastPlot.tsx:70-77 | the six option values are pairwise distinct |
| ForecastPlot.SelectIdempotent | src/components/ForecastPlot.tsx:29-62 | selecting the name now shown selects the same series again |
| ForecastPlot.ForecastView.constructor | src/components/ForecastPlot.tsx:26-27 | the component starts on the initial selection |
| ForecastPlot.ForecastView.ReceiveForecast | src/components/ForecastPlot.tsx:24-27 | a new `forecast` prop replaces the forecast but keeps the selected name and column, since `useState` keeps its first value |
| ForecastPlot.ForecastView.HandleDropdownChange | src/components/ForecastPlot.tsx:29-62 | the forecast is left unchanged, and the new name and series are the selection for the chosen value from that forecast |
| ForecastPlot.NumDays | src/components/ForecastPlot.tsx:25 | `numDays` times 5 is `dates.length - 1`, an exact real quotient |
| ForecastPlot.NumDaysWindow | src/components/ForecastPlot.tsx:25 | for n >= 1 dates, `numDays` truncates and floors to `(n - 1) / 5`, which is below n; when n % 5 == 1 nothing is truncated |
| ForecastPlot.Split | src/components/ForecastPlot.tsx:116-117 | the two slices by the real window; stated by `ForecastPlot.SplitByWindow` and `ForecastPlot.SplitWindow` |
| ForecastPlot.SplitWindow | src/components/ForecastPlot.tsx:116-117 | window 0 gives no actual segment and the last point as prediction; window k with 1 <= k < n gives the first n - k points and the last k + 1, sharing one point; a window of n or more gives no actual segment and predicts everything |
| ForecastPlot.SplitByWindow | src/components/ForecastPlot.tsx:116-117 | the real window splits the data exactly as its floor does |
| ForecastPlot.ForecastSegments | src/components/ForecastPlot.tsx:116-117 | the segments drawn for n >= 1 points are those of the integer window `(n - 1) / 5` |
| ForecastPlot.PredictionColor | src/components/ForecastPlot.tsx:120-124 | green iff both segments are non-empty and the last predicted value exceeds the last actual one; red iff not (an `undefined` comparison is false) |
| ForecastPlot.ChartLayout | src/components/ForecastPlot.tsx:127-180 | left margin 100 for "Volume", else 50; bottom margin 50; the plot area is width minus left margin and height minus 50; the y label is "Quantity" for "Volume", else "Price" |
| ForecastPlot.Separator | src/components/ForecastPlot.tsx:211-222 | the dotted separator exists iff there is an actual segment, and stands at its last date |
| ForecastPlot.Render | src/components/ForecastPlot.tsx:110 | nothing is drawn when dates or values are empty; a drawn chart has one point per date |
| ForecastPlot.ChartDecorations | src/components/ForecastPlot.tsx:116-124 | for window k < n: k = 0 gives red with no separator; otherwise green iff the last value exceeds the value at n - k - 1, and the separator is at the date of point n - k - 1 |
| ForecastPlot.SegmentDecorations | src/components/ForecastPlot.tsx:120-124 | for any segments shaped as window k < n splits them: k = 0 gives red with no separator; otherwise green iff the last value exceeds the value at n - k - 1, with the separator at that point's date |
| ForecastPlot.ForecastDecorations | src/components/ForecastPlot.tsx:211-222 | the same colour and separator facts for the real `numDays` window, with k = (n - 1) / 5 |
| ForecastPlot.PairedDecorations | src/components/ForecastPlot.tsx:113-124 | the colour and separator facts restated in terms of the value and date columns |
| ForecastPlot.ForecastChart | src/components/ForecastPlot.tsx:80 | a forecast with at least one date draws a chart with one point per date, split by `numDays`; with fewer than six dates the line is red with no separator; otherwise it is green iff `values[n-1] > values[n-k-1]`, with the separator at the date `dates[n-k-1]` |
| ForecastPlot.Distance | src/components/ForecastPlot.tsx:259-260 | `Math.abs` of the time difference: one of the two differences, and no smaller than either |
| ForecastPlot.ReduceClosest | src/components/ForecastPlot.tsx:258-263 | the fold yields a point nearest the hovered time, and the first among equally near ones |
| ForecastPlot.ClosestIndex | src/components/ForecastPlot.tsx:258-263 | the `reduce` without an initial value yields the first nearest point |
| ForecastPlot.FirstClosestUnique | src/components/ForecastPlot.tsx:258-263 | only one index is the first nearest point, so the choice is determined |
| ForecastPlot.Plot.constructor | src/components/ForecastPlot.tsx:95-110 | the effect draws `Render` of the props, and the hover state starts empty |
| ForecastPlot.Plot.MouseMove | src/components/ForecastPlot.tsx:253-266 | on a drawn chart the hover state becomes the first nearest point |
| ForecastPlot.Plot.MouseOut | src/components/ForecastPlot.tsx:285-288 | leaving the chart clears the hover state |
| LineChart.Render | src/components/LineChart.tsx:70 | nothing is drawn when dates or closes are empty |
| LineChart.LineChartShape | src/components/LineChart.tsx:73-92 | a drawn chart pairs each date with its close; every close lies strictly inside the domain, with the extremes 5 from its ends; the plot area is width - 35 by height - 25 |
| Typing.Revealed | src/hooks/useTypingEffect.ts:9-15 | after i ticks the text has length i + 1 and starts with `message[0]`, followed by `message[0..i)`; it is undefined iff the message is empty |
| Typing.RevealStep | src/hooks/useTypingEffect.ts:13-15 | a revealing tick appends exactly `message[i]` |
| Typing.FinalText | src/hooks/useTypingEffect.ts:12-20 | the text once the interval has stopped; stated by `Typing.FinalTextLiteral` and `Typing.FinalTextIsMessageIffUniform` |
| Typing.FinalTextLiteral | src/hooks/useTypingEffect.ts:12-20 | the completed text is `message[0] + message[0..len-1)`, with the message's length |
| Typing.FinalTextIsMessageIffUniform | src/hooks/useTypingEffect.ts:12-20 | the completed text equals the message iff every character equals the first |
| Typing.TypingEffect.constructor | src/hooks/useTypingEffect.ts:4-10 | mounting shows `message[0]`, sets `isTyping` and starts the interval |
| Typing.TypingEffect.RunEffect | src/hooks/useTypingEffect.ts:7-12 | one run of the effect body: the counter restarts at 0, the text is `message[0]`, `isTyping` is set and a new interval runs; pending settles are untouched |
| Typing.TypingEffect.Render | src/hooks/useTypingEffect.ts:7-10 | the effect re-runs only for a changed message, restarting at `message[0]`; a pending settle survives |
| Typing.TypingEffect.Tick | src/hooks/useTypingEffect.ts:12-20 | a firing before the last index appends `message[i]` and increments i; at the last index it clears the interval and schedules one settle, with the text then complete |
| Typing.TypingEffect.Settle | src/hooks/useTypingEffect.ts:18 | a pending settle clears `isTyping`, and nothing else |
| Typing.TypingEffect.Cleanup | src/hooks/useTypingEffect.ts:22-24 | cleanup stops the interval and leaves everything else, including a pending settle |
| Typing.TypingEffect.TypeOut | src/hooks/useTypingEffect.ts:12-20 | running the interval out takes `LastIndex - i + 1` ticks, ends with the complete text and schedules exactly one settle |
| Typing.RevealAbc | src/hooks/useTypingEffect.ts:13-15 | revealing "abc" shows "aab" |
| Typing.StaleSettleWhileRevealing | src/hooks/useTypingEffect.ts:22-25 | a settle scheduled for the previous message clears `isTyping` while the next message is still revealing |
| ForecastPayload.Coerce | src/test.ts:31-36 | the coerced column has the column's length, and each element is the coercion of the corresponding element |
| ForecastPayload.BeforeT | src/test.ts:21 | `split("T")[0]` is the longest prefix without a `T`, followed by `T` when shorter than the string |
| ForecastPayload.FormatDate | src/test.ts:19-22 | `formatDate` fails iff `toISOString` throws, and otherwise is that string's part before `T` |
| ForecastPayload.CalendarDateOfIso | src/test.ts:21 | on an ISO-8601 timestamp, `formatDate` keeps exactly `YYYY-MM-DD` |
| ForecastPayload.BeforeTIdempotent | src/test.ts:21 | cutting at `T` twice is cutting once |
| ForecastPayload.Normalize | src/test.ts:13-41 | succeeds iff the forecast is an object with all seven keys and every date formats; then the dates are the formatted raw dates in order and each numeric field is its column coerced by `Number` |
| ForecastPayload.Convert | src/test.ts:23-37 | building the date column, rewriting it in place and reading the six numeric columns yields exactly `Normalize` |

## Left out

- DOM drawing with d3 is not modelled: axes, tick formats, paths, text, the hover lines and the `hoverData` overlay. The model keeps only the values they are drawn from.
- `d3.pointer` and `x.invert` are not modelled. `MouseMove` takes the hovered time directly.
- `d3.extent` for the x domain is not modelled. The time range adds nothing beyond the parsed dates.
- `svgRef.current` being null is not modelled. The model assumes the SVG is mounted whenever the effect runs.
- axios, `fs.readFileSync`, `JSON.parse` and `console` are I/O. A request's outcome and the parsed payload are inputs.
- `new Date`, `String`, `Number` and `toISOString` are foreign. They are parameters (`parse`, `str`, `num`, `iso`).
- `Object.values` ordering is not modelled. Each raw column is already a sequence in that order.
- A raw column that is not an object (for example `Object.values` of a string) is not modelled.
- Floating-point values are not modelled. Prices and volumes are integers, and the window `numDays` is an exact real, truncated as `slice` does.
- Wall-clock timers, React's batching and re-render scheduling are not modelled. They become the discrete steps `Tick`, `Settle`, `Cleanup` and `Render`.
- `new Date(d)` as `parse: string -> int` always yields a time value. An Invalid Date (`NaN`) is not modelled. Any comparison with a `NaN` distance is false. So with a `NaN` first date the `reduce` keeps `data[0]`, and a point with a `NaN` date is never chosen later. A `NaN` boundary date still draws the separator, because the check at ForecastPlot.tsx line 213 tests the `Date` object, which is truthy.
- Typing.Revealed: assumes React calls the `setText` updater of useTypingEffect.ts line 14 when `setText` is called, so it reads `i` before `i++`. That holds for synchronous rendering and for React's eager path. Under React 18's automatic batching the updater may run at the next render, after `i++`, and read `message[i + 1]`, and the final text is then the whole message. The React version is not visible in the source files. The length facts hold under either reading.
- Typing.TypingEffect.Tick: appends `message[i]` under the same assumption about when the `setText` updater runs.
- Plot re-running its effect when its props change (for example when `selectedMode` changes) is not modelled. `Plot` is built once per set of props.
- ForecastPlot.Render: requires `|dates| <= |values|`, because points whose value is `undefined` (values shorter than dates) are not modelled.
- ChartData.Pair: requires `|dates| <= |values|`, for the same reason.
- LineChart.Render: requires `|dates| <= |closes|`, for the same reason.
- Reply fields that are absent from `response.data` (an `undefined` message, symbol or action) are not modelled. The reply's message, symbol and action are strings.
- The header text showing `numDays` is not modelled, because it is display only.
- `Chatbar.tsx`, `Thumbnail.tsx`, `App.tsx`, `tailwind.config.js`, the CSS and the JSX layout are outside the core.
- The block commented out in `LineChart.tsx` is not modelled.
- Strings are sequences of Unicode scalar values rather than UTF-16 code units. `message[0]` of a message starting with a surrogate pair is not modelled.
