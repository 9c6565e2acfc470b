/** ASCII character classes and the string helpers both halves of the
    application rely on: lower-casing (Python `str.lower`, JavaScript
    `toLowerCase`), JavaScript `trim` and the blank-input test. */
module Text {

  predicate IsUpper(c: char) { 'A' <= c <= 'Z' }

  predicate IsLower(c: char) { 'a' <= c <= 'z' }

  predicate IsLetter(c: char) { IsUpper(c) || IsLower(c) }

  /** White space as JavaScript's `trim` sees it, restricted to ASCII:
      tab, line feed, vertical tab, form feed, carriage return, space. */
  predicate JsSpace(c: char) { c == ' ' || '\t' <= c <= '\r' }

  /** White space as Python's `\s` sees it on `str` patterns, restricted to
      ASCII: the JavaScript set plus the separators 0x1C to 0x1F. */
  predicate PySpace(c: char) { JsSpace(c) || 28 <= c as int <= 31 }

  /** Lower-cases one ASCII letter and leaves every other character alone. */
  function Lower(c: char): (d: char)
    ensures IsLetter(c) <==> IsLower(d)
    ensures !IsUpper(c) ==> d == c
  {
    if IsUpper(c) then (c as int + 32) as char else c
  }

  function LowerString(s: string): (r: string)
    ensures |r| == |s|
    ensures forall i :: 0 <= i < |s| ==> r[i] == Lower(s[i])
  {
    if |s| == 0 then "" else [Lower(s[0])] + LowerString(s[1..])
  }

  predicate AllSpace(s: string) { forall i :: 0 <= i < |s| ==> JsSpace(s[i]) }

  /** `trimStart`: drops the leading white space, keeps the rest. */
  function TrimStart(s: string): (r: string)
    ensures |r| <= |s|
    ensures |r| > 0 ==> !JsSpace(r[0])
  {
    if |s| > 0 && JsSpace(s[0]) then TrimStart(s[1..]) else s
  }

  /** `trimEnd`: drops the trailing white space, keeps the rest. */
  function TrimEnd(s: string): (r: string)
    ensures |r| <= |s|
    ensures |r| > 0 ==> r[0] == s[0] && !JsSpace(r[|r| - 1])
  {
    if |s| > 0 && JsSpace(s[|s| - 1]) then TrimEnd(s[..|s| - 1]) else s
  }

  /** `trimStart` removes a prefix of white space and stops at the first
      other character. */
  lemma {:induction false} TrimStartSpec(s: string)
    ensures |TrimStart(s)| <= |s| && TrimStart(s) == s[|s| - |TrimStart(s)|..]
    ensures AllSpace(s[..|s| - |TrimStart(s)|])
    ensures |TrimStart(s)| > 0 ==> !JsSpace(TrimStart(s)[0])
    decreases |s|
  {
    if |s| > 0 && JsSpace(s[0]) {
      TrimStartSpec(s[1..]);
    }
  }

  /** `trimEnd` removes a suffix of white space and stops at the last
      other character. */
  lemma {:induction false} TrimEndSpec(s: string)
    ensures |TrimEnd(s)| <= |s| && TrimEnd(s) == s[..|TrimEnd(s)|]
    ensures AllSpace(s[|TrimEnd(s)|..])
    ensures |TrimEnd(s)| > 0 ==> !JsSpace(TrimEnd(s)[|TrimEnd(s)| - 1])
    decreases |s|
  {
    if |s| > 0 && JsSpace(s[|s| - 1]) {
      TrimEndSpec(s[..|s| - 1]);
    }
  }

  /** `trim`: neither end of the result is white space. */
  function Trim(s: string): (r: string)
    ensures |r| <= |s|
    ensures |r| > 0 ==> !JsSpace(r[0]) && !JsSpace(r[|r| - 1])
  {
    TrimEnd(TrimStart(s))
  }

  /** The guard `!text.trim()`: the trimmed string is empty. */
  predicate IsBlank(s: string) { Trim(s) == "" }

  /** A string is blank exactly when every one of its characters is white space. */
  lemma BlankIff(s: string)
    ensures IsBlank(s) <==> AllSpace(s)
  {
    TrimStartSpec(s);
    TrimEndSpec(TrimStart(s));
  }
}
