/**
  The few ECMAScript built-ins whose exact behaviour the core relies on:
  `String.prototype.trim`, `Array.prototype.slice` (with its truncation and
  clamping of the arguments) and the shape of a deserialised JSON value.
 */
module JsSemantics {

  /** A deserialised JSON value as the front-end receives it from the backend. */
  datatype Json =
    | JUndefined
    | JNull
    | JBool(b: bool)
    | JNumber(n: int)
    | JString(s: string)
    | JArray(items: seq<Json>)
    | JObject(fields: map<string, Json>)

  /** `typeof v === "string"` */
  predicate IsString(v: Json) {
    v.JString?
  }

  // ---------------------------------------------------------------------------
  // String.prototype.trim
  // ---------------------------------------------------------------------------

  /** ECMAScript WhiteSpace and LineTerminator code points, the set `trim` removes. */
  predicate IsWhiteSpace(c: char) {
    || c == '\t' || c == '\n' || c == '\r' || c == ' '
    || c == '\U{000B}' || c == '\U{000C}' || c == '\U{00A0}' || c == '\U{1680}'
    || ('\U{2000}' <= c <= '\U{200A}')
    || c == '\U{2028}' || c == '\U{2029}' || c == '\U{202F}' || c == '\U{205F}'
    || c == '\U{3000}' || c == '\U{FEFF}'
  }

  predicate IsBlank(s: string) {
    forall k :: 0 <= k < |s| ==> IsWhiteSpace(s[k])
  }

  /** The number of white-space characters `s` starts with. */
  function LeadingBlanks(s: string): (n: nat)
    ensures n <= |s|
    ensures forall k :: 0 <= k < n ==> IsWhiteSpace(s[k])
    ensures n < |s| ==> !IsWhiteSpace(s[n])
  {
    if s == [] || !IsWhiteSpace(s[0]) then 0
    else
      var n := LeadingBlanks(s[1..]);
      assert forall k :: 1 <= k < |s| ==> s[k] == s[1..][k - 1];
      1 + n
  }

  /** The number of white-space characters `s` ends with. */
  function TrailingBlanks(s: string): (n: nat)
    ensures n <= |s|
    ensures forall k :: |s| - n <= k < |s| ==> IsWhiteSpace(s[k])
    ensures n < |s| ==> !IsWhiteSpace(s[|s| - n - 1])
  {
    if s == [] || !IsWhiteSpace(s[|s| - 1]) then 0
    else
      var n := TrailingBlanks(s[..|s| - 1]);
      assert forall k :: 0 <= k < |s| - 1 ==> s[k] == s[..|s| - 1][k];
      1 + n
  }

  /**
    `s.trim()`: `s` without its leading and trailing white space; what is
    left starts and ends with a character that is not white space.
   */
  function Trim(s: string): (r: string)
    ensures |r| <= |s|
    ensures r != [] ==> !IsWhiteSpace(r[0]) && !IsWhiteSpace(r[|r| - 1])
    ensures exists a, b :: 0 <= a <= b <= |s| && r == s[a..b] && IsBlank(s[..a]) && IsBlank(s[b..])
  {
    var a := LeadingBlanks(s);
    var t := s[a..];
    var e := TrailingBlanks(t);
    assert IsBlank(s[..a]);
    assert forall k :: |t| - e <= k < |t| ==> t[k] == s[a + k];
    assert IsBlank(s[|s| - e..]);
    s[a..|s| - e]
  }

  /** `s.trim()` is the empty (falsy) string exactly when `s` consists of white space only. */
  lemma TrimEmptyIffBlank(s: string)
    ensures Trim(s) == [] <==> IsBlank(s)
  {
    var a := LeadingBlanks(s);
    var t := s[a..];
    var e := TrailingBlanks(t);
    if a < |s| {
      assert t[0] == s[a];
      assert e < |t|;
      assert Trim(s) == t[..|t| - e];
    }
  }

  // ---------------------------------------------------------------------------
  // Array.prototype.slice
  // ---------------------------------------------------------------------------

  /** ToIntegerOrInfinity on a finite Number: truncation toward zero (`-0` becomes `0`). */
  function ToIntegerOrInfinity(x: real): (r: int)
    ensures 0.0 <= x ==> 0 <= r && r as real <= x < r as real + 1.0
    ensures x < 0.0 ==> r <= 0 && r as real - 1.0 < x <= r as real
  {
    if x >= 0.0 then x.Floor else -((-x).Floor)
  }

  /** The index `slice` derives from a relative position: negative counts from the end; clamped to `[0, len]`. */
  function RelativeIndex(rel: int, len: nat): (r: nat)
    ensures r <= len
    ensures 0 <= rel <= len ==> r == rel
    ensures -(len as int) <= rel < 0 ==> r == len + rel
    ensures rel < -(len as int) ==> r == 0
    ensures len < rel ==> r == len
  {
    if rel < 0 then (if len + rel < 0 then 0 else len + rel)
    else if rel < len then rel else len
  }

  /** `s.slice(start, end)` once both arguments have been truncated to integers. */
  function SliceAt<T>(s: seq<T>, start: int, end: int): (r: seq<T>)
    ensures var from, to := RelativeIndex(start, |s|), RelativeIndex(end, |s|);
      |r| == (if from < to then to - from else 0)
    ensures forall i :: 0 <= i < |r| ==> r[i] == s[RelativeIndex(start, |s|) + i]
  {
    var from := RelativeIndex(start, |s|);
    var to := RelativeIndex(end, |s|);
    if from < to then s[from..to] else []
  }

  /** `s.slice(start)` once the argument has been truncated to an integer. */
  function SliceFromAt<T>(s: seq<T>, start: int): (r: seq<T>)
    ensures |r| == |s| - RelativeIndex(start, |s|)
    ensures forall i :: 0 <= i < |r| ==> r[i] == s[RelativeIndex(start, |s|) + i]
  {
    s[RelativeIndex(start, |s|)..]
  }

  /** `s.slice(start, end)` */
  function Slice<T>(s: seq<T>, start: real, end: real): seq<T> {
    SliceAt(s, ToIntegerOrInfinity(start), ToIntegerOrInfinity(end))
  }

  /** `s.slice(start)` */
  function SliceFrom<T>(s: seq<T>, start: real): seq<T> {
    SliceFromAt(s, ToIntegerOrInfinity(start))
  }

  /** For `p >= 0` the arguments `-p` and `-p - 1` truncate to `-floor(p)` and `-floor(p) - 1`. */
  lemma NegatedTruncation(p: real)
    requires p >= 0.0
    ensures ToIntegerOrInfinity(-p) == -p.Floor
    ensures ToIntegerOrInfinity(-p - 1.0) == -p.Floor - 1
  {
    assert (p + 1.0).Floor == p.Floor + 1;
  }
}
