/**
  The conversion of a raw, column-keyed forecast payload into a `Forecast`:
  every column is the `Object.values` of its key coerced element by element,
  and the date column is rewritten in place to calendar dates (the part of the
  ISO-8601 string before `T`). A missing key or a date that `toISOString`
  rejects aborts the conversion, and the `catch` leaves no forecast.

  The coercions `String(value)` and `Number(value)` and the round trip
  `new Date(s).toISOString()` are foreign built-ins, passed in as `str`,
  `num` and `iso` (`iso` gives `None` where `toISOString` throws).
 */
module ForecastPayload {
  import opened Wrappers
  import opened ChartData

  /** The raw forecast object: for each key, its values in `Object.values` order. */
  type RawForecast<V> = map<string, seq<V>>

  const DateKey: string := "Date"
  const OpenKey: string := "Open"
  const CloseKey: string := "Close"
  const HighKey: string := "High"
  const LowKey: string := "Low"
  const AdjCloseKey: string := "Adj Close"
  const VolumeKey: string := "Volume"

  /** The six numeric columns the `Forecast` literal reads. */
  predicate HasNumericKeys<V>(rec: RawForecast<V>) {
    OpenKey in rec && CloseKey in rec && HighKey in rec && LowKey in rec && AdjCloseKey in rec && VolumeKey in rec
  }

  /** `Object.values(column).map(coerce)` */
  function Coerce<V, T>(column: seq<V>, coerce: V -> T): (r: seq<T>)
    ensures |r| == |column|
    ensures forall k :: 0 <= k < |r| ==> r[k] == coerce(column[k])
  {
    seq(|column|, k requires 0 <= k < |column| => coerce(column[k]))
  }

  /** `s.split("T")[0]`: the longest prefix of `s` without a `T`. */
  function BeforeT(s: string): (r: string)
    ensures |r| <= |s| && r == s[..|r|]
    ensures forall k :: 0 <= k < |r| ==> r[k] != 'T'
    ensures |r| < |s| ==> s[|r|] == 'T'
  {
    if s == [] || s[0] == 'T' then []
    else [s[0]] + BeforeT(s[1..])
  }

  /** `formatDate`; `None` where `toISOString` throws on an invalid date. */
  function FormatDate(dateString: string, iso: string -> Option<string>): (r: Option<string>)
    ensures r.None? <==> iso(dateString).None?
    ensures r.Some? ==> r.value == BeforeT(iso(dateString).value)
  {
    match iso(dateString)
    case None => None
    case Some(t) => Some(BeforeT(t))
  }

  predicate IsDigit(c: char) {
    '0' <= c <= '9'
  }

  /** The shape `YYYY-MM-DDTHH:mm:ss.sssZ` that `toISOString` produces (for years 0 to 9999). */
  predicate IsIsoTimestamp(s: string) {
    && |s| == 24
    && (forall k :: 0 <= k < 4 ==> IsDigit(s[k]))
    && s[4] == '-' && IsDigit(s[5]) && IsDigit(s[6])
    && s[7] == '-' && IsDigit(s[8]) && IsDigit(s[9])
    && s[10] == 'T'
  }

  /** On an ISO timestamp, `formatDate`'s split keeps exactly the calendar date `YYYY-MM-DD`. */
  lemma CalendarDateOfIso(s: string)
    requires IsIsoTimestamp(s)
    ensures BeforeT(s) == s[..10]
  {

  }

  /** Formatting a calendar date again (whose ISO form is itself followed by a time) leaves it unchanged. */
  lemma BeforeTIdempotent(s: string)
    ensures BeforeT(BeforeT(s)) == BeforeT(s)
  {
    var r := BeforeT(s);
    var rr := BeforeT(r);
    if |rr| < |r| {
      assert r[|rr|] == 'T';
    }
  }

  /** Every raw date string survives `new Date(...).toISOString()`. */
  predicate AllDatesParse(raw: seq<string>, iso: string -> Option<string>) {
    forall k :: 0 <= k < |raw| ==> iso(raw[k]).Some?
  }

  /**
    The outcome of the script: `None` when the forecast is not an object
    (reading `forecast["Date"]` throws), when any of the seven keys is missing
    (`Object.values(undefined)` throws) or when a date cannot be formatted;
    otherwise each field is its key's column, coerced element by element and,
    for the dates, formatted.
   */
  function Normalize<V>(forecast: Option<RawForecast<V>>, str: V -> string, num: V -> int,
                        iso: string -> Option<string>): (r: Option<Forecast>)
    ensures r.Some? <==>
      && forecast.Some? && DateKey in forecast.value && HasNumericKeys(forecast.value)
      && AllDatesParse(Coerce(forecast.value[DateKey], str), iso)
    ensures r.Some? ==> var rec := forecast.value;
      && |r.value.dates| == |rec[DateKey]|
      && (forall k :: 0 <= k < |rec[DateKey]| ==> Some(r.value.dates[k]) == FormatDate(str(rec[DateKey][k]), iso))
      && r.value.opens == Coerce(rec[OpenKey], num)
      && r.value.closes == Coerce(rec[CloseKey], num)
      && r.value.highs == Coerce(rec[HighKey], num)
      && r.value.lows == Coerce(rec[LowKey], num)
      && r.value.adjCloses == Coerce(rec[AdjCloseKey], num)
      && r.value.volumes == Coerce(rec[VolumeKey], num)
  {
    if forecast.None? || DateKey !in forecast.value then None
    else
      var rec := forecast.value;
      var raw := Coerce(rec[DateKey], str);
      if !AllDatesParse(raw, iso) || !HasNumericKeys(rec) then None
      else
        var dates := seq(|raw|, k requires 0 <= k < |raw| => BeforeT(iso(raw[k]).value));
        Some(Forecast(dates, Coerce(rec[OpenKey], num), Coerce(rec[CloseKey], num), Coerce(rec[HighKey], num),
                      Coerce(rec[LowKey], num), Coerce(rec[AdjCloseKey], num), Coerce(rec[VolumeKey], num)))
  }

  /**
    The script itself: the date column is built, rewritten element by element
    in place by the `forEach`, and the numeric columns are read afterwards;
    its result is exactly `Normalize`.
   */
  method Convert<V>(forecast: Option<RawForecast<V>>, str: V -> string, num: V -> int,
                    iso: string -> Option<string>) returns (predictions: Option<Forecast>)
    ensures predictions == Normalize(forecast, str, num, iso)
  {
    if forecast.None? || DateKey !in forecast.value {
      return None;
    }
    var rec := forecast.value;
    var column := rec[DateKey];
    ghost var raw := Coerce(column, str);
    var dates := new string[|column|](k requires 0 <= k < |column| => str(column[k]));
    var index := 0;
    while index < dates.Length
      invariant 0 <= index <= dates.Length == |raw|
      invariant forall k :: 0 <= k < index ==> FormatDate(raw[k], iso) == Some(dates[k])
      invariant forall k :: index <= k < dates.Length ==> dates[k] == raw[k]
    {
      var formatted := FormatDate(dates[index], iso);
      if formatted.None? {
        assert !AllDatesParse(raw, iso);
        return None;
      }
      dates[index] := formatted.value;
      index := index + 1;
    }
    if !(OpenKey in rec && CloseKey in rec && HighKey in rec && LowKey in rec && AdjCloseKey in rec && VolumeKey in rec) {
      return None;
    }
    assert AllDatesParse(raw, iso);
    assert dates[..] == seq(|raw|, k requires 0 <= k < |raw| => BeforeT(iso(raw[k]).value));
    predictions := Some(Forecast(dates[..], Coerce(rec[OpenKey], num), Coerce(rec[CloseKey], num),
                                 Coerce(rec[HighKey], num), Coerce(rec[LowKey], num),
                                 Coerce(rec[AdjCloseKey], num), Coerce(rec[VolumeKey], num)));
  }
}
