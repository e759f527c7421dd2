/** JavaScript value conventions the application code relies on:
    nullable values, string truthiness, the `a || b` fallback and
    `String.prototype.trim`. */
module Js {

  /** A value that may be `null` or `undefined` (both are modelled as None). */
  datatype Option<+T> = None | Some(value: T)

  /** `!!s` for a nullable string: null, undefined and "" are falsy. */
  predicate Truthy(s: Option<string>) {
    s.Some? && s.value != ""
  }

  /** `s || fallback` for a nullable string. */
  function Or(s: Option<string>, fallback: string): (r: string)
    ensures Truthy(s) ==> r == s.value
    ensures !Truthy(s) ==> r == fallback
  {
    if Truthy(s) then s.value else fallback
  }

  /** The characters ECMAScript counts as WhiteSpace or LineTerminator:
      what `trim()` strips and what the regular-expression class `\s` matches. */
  predicate IsWhitespace(c: char) {
    || c == '\t' || c == '\n' || c == '\U{B}' || c == '\U{C}' || c == '\r'
    || c == ' ' || c == '\U{A0}' || c == '\U{1680}'
    || ('\U{2000}' <= c <= '\U{200A}')
    || c == '\U{2028}' || c == '\U{2029}' || c == '\U{202F}' || c == '\U{205F}'
    || c == '\U{3000}' || c == '\U{FEFF}'
  }

  /** Every character of `s` is whitespace (true of ""). */
  predicate IsBlank(s: string) {
    forall i :: 0 <= i < |s| ==> IsWhitespace(s[i])
  }

  /** The index of the first character of s[from..end] that is not
      whitespace, or `end` when there is none. */
  function SkipLeading(s: string, from: nat, end: nat): (i: nat)
    requires from <= end <= |s|
    ensures from <= i <= end
    ensures forall k :: from <= k < i ==> IsWhitespace(s[k])
    ensures i < end ==> !IsWhitespace(s[i])
    decreases end - from
  {
    if from < end && IsWhitespace(s[from]) then SkipLeading(s, from + 1, end) else from
  }

  /** The end of s[..end] once its trailing whitespace is dropped. */
  function SkipTrailing(s: string, end: nat): (j: nat)
    requires end <= |s|
    ensures j <= end
    ensures forall k :: j <= k < end ==> IsWhitespace(s[k])
    ensures j > 0 ==> !IsWhitespace(s[j - 1])
  {
    if end > 0 && IsWhitespace(s[end - 1]) then SkipTrailing(s, end - 1) else end
  }

  /** `s.trim()`: `s` without its leading and trailing whitespace. */
  function Trim(s: string): (r: string)
    ensures |r| <= |s|
    ensures r != [] ==> !IsWhitespace(r[0]) && !IsWhitespace(r[|r| - 1])
  {
    var j := SkipTrailing(s, |s|);
    s[SkipLeading(s, 0, j)..j]
  }

  /** `trim()` removes whitespace only, and only at the two ends: the result
      is a slice of `s` with nothing but whitespace before and after it. */
  lemma TrimIsCore(s: string)
    ensures exists i, j :: 0 <= i <= j <= |s| && Trim(s) == s[i..j] && IsBlank(s[..i]) && IsBlank(s[j..])
  {
    var j := SkipTrailing(s, |s|);
    var i := SkipLeading(s, 0, j);
    assert forall k :: 0 <= k < i ==> s[..i][k] == s[k];
    assert forall k :: 0 <= k < |s| - j ==> s[j..][k] == s[j + k];
    assert Trim(s) == s[i..j] && IsBlank(s[..i]) && IsBlank(s[j..]);
  }

  /** A string trims to "" exactly when it consists of whitespace only. */
  lemma TrimEmptyIffBlank(s: string)
    ensures Trim(s) == "" <==> IsBlank(s)
  {
    var j := SkipTrailing(s, |s|);
    var i := SkipLeading(s, 0, j);
    if Trim(s) == "" {
      assert i == j;
      forall k | 0 <= k < |s| ensures IsWhitespace(s[k]) {
        if k < i { } else { assert j <= k; }
      }
    }
  }
}
