/**
 The few string helpers of Apache Commons Lang (`StringUtils`) and of
 `java.lang.Character` that the parameter classes rely on: whitespace,
 blankness, `defaultIfBlank` and `strip`.
 */
module JavaStrings {
  import opened Nullable

  /** `Character.isWhitespace`: the Unicode space, line and paragraph
      separators except the three no-break spaces (U+00A0, U+2007, U+202F),
      plus the control characters U+0009..U+000D and U+001C..U+001F. */
  predicate IsWhitespace(c: char) {
    var n := c as int;
    || 0x09 <= n <= 0x0D
    || 0x1C <= n <= 0x20
    || n == 0x1680
    || 0x2000 <= n <= 0x2006
    || 0x2008 <= n <= 0x200A
    || n == 0x2028 || n == 0x2029
    || n == 0x205F
    || n == 0x3000
  }

  /** Every character of `s` is whitespace (vacuously so for ""). */
  predicate AllWhitespace(s: string) {
    forall i :: 0 <= i < |s| ==> IsWhitespace(s[i])
  }

  /** `StringUtils.isBlank`: null, empty, or whitespace only. */
  predicate IsBlank(s: Option<string>) {
    s.None? || AllWhitespace(s.value)
  }

  /** `StringUtils.defaultIfBlank`: a blank string is replaced by `default`,
      any other string is kept as it is. */
  function DefaultIfBlank(s: Option<string>, default: string): (r: string)
    ensures IsBlank(s) ==> r == default
    ensures !IsBlank(s) ==> Some(r) == s
    ensures !IsBlank(Some(default)) ==> !IsBlank(Some(r))
  {
    if IsBlank(s) then default else s.value
  }

  /** `StringUtils.stripStart(s, null)`: drops the leading whitespace. */
  function StripStart(s: string): (r: string)
    ensures |r| <= |s| && r == s[|s| - |r|..]
    ensures AllWhitespace(s[..|s| - |r|])
    ensures r == [] || !IsWhitespace(r[0])
    decreases |s|
  {
    if |s| > 0 && IsWhitespace(s[0]) then StripStart(s[1..]) else s
  }

  /** `StringUtils.stripEnd(s, null)`: drops the trailing whitespace. */
  function StripEnd(s: string): (r: string)
    ensures |r| <= |s| && r == s[..|r|]
    ensures AllWhitespace(s[|r|..])
    ensures r == [] || !IsWhitespace(r[|r| - 1])
    decreases |s|
  {
    if |s| > 0 && IsWhitespace(s[|s| - 1]) then StripEnd(s[..|s| - 1]) else s
  }

  /** `StringUtils.strip(s)`: whitespace removed from both ends. */
  function Strip(s: string): (r: string)
    ensures r == "" <==> AllWhitespace(s)
    ensures r == [] || (!IsWhitespace(r[0]) && !IsWhitespace(r[|r| - 1]))
  {
    StripEnd(StripStart(s))
  }

  /** `StringUtils.strip` on a nullable string: null stays null. */
  function StripNullable(s: Option<string>): (r: Option<string>)
    ensures s.None? <==> r.None?
    ensures s.Some? ==> r == Some(Strip(s.value))
  {
    match s
    case None => None
    case Some(v) => Some(Strip(v))
  }

  /** What `strip` returns is the part of the input between two runs of
      whitespace, and it neither begins nor ends with whitespace. */
  lemma StripIsTrimmedSlice(s: string)
    ensures exists a, b :: 0 <= a <= b <= |s| && Strip(s) == s[a..b]
                        && AllWhitespace(s[..a]) && AllWhitespace(s[b..])
  {
    var t := StripStart(s);
    var a := |s| - |t|;
    var r := StripEnd(t);
    var b := a + |r|;
    assert r == s[a..b];
    assert AllWhitespace(s[..a]);
    assert AllWhitespace(s[b..]) by {
      assert t[|r|..] == s[b..];
    }
    assert Strip(s) == r;
  }
}
