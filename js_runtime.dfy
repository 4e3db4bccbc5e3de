/** The pieces of JavaScript's built-in behaviour that the gallery page and the
    image viewer depend on: `undefined` as an absent value, the whitespace that
    `String.prototype.trim` strips, and the `%` operator on numbers, which
    truncates toward zero and yields NaN for a zero divisor. */
module JsRuntime {

  datatype Option<T> = None | Some(value: T)

  /** A WhiteSpace or LineTerminator code point of ECMAScript: the characters
      that `trim` removes from both ends of a string. */
  predicate IsWhitespace(c: char) {
    c == '\t' || c == '\n' || c == '\U{B}' || c == '\U{C}' || c == '\r' || c == ' '
    || c == '\U{A0}' || c == '\U{1680}' || ('\U{2000}' <= c && c <= '\U{200A}')
    || c == '\U{2028}' || c == '\U{2029}' || c == '\U{202F}' || c == '\U{205F}'
    || c == '\U{3000}' || c == '\U{FEFF}'
  }

  /** A string made of whitespace only (the empty string included). */
  predicate IsBlank(s: string) {
    forall i :: 0 <= i < |s| ==> IsWhitespace(s[i])
  }

  /** Drops the leading whitespace: the result is a suffix of `s`, what was
      dropped is blank, and what remains does not start with whitespace. */
  function TrimStart(s: string): (r: string)
    ensures |r| <= |s| && r == s[|s| - |r|..]
    ensures IsBlank(s[..|s| - |r|])
    ensures r == [] || !IsWhitespace(r[0])
  {
    if |s| > 0 && IsWhitespace(s[0]) then
      var r := TrimStart(s[1..]);
      assert s[..|s| - |r|] == [s[0]] + s[1..][..|s| - 1 - |r|];
      r
    else
      s
  }

  /** Drops the trailing whitespace: the result is a prefix of `s`, what was
      dropped is blank, and what remains does not end with whitespace. */
  function TrimEnd(s: string): (r: string)
    ensures |r| <= |s| && r == s[..|r|]
    ensures IsBlank(s[|r|..])
    ensures r == [] || !IsWhitespace(r[|r| - 1])
  {
    if |s| > 0 && IsWhitespace(s[|s| - 1]) then
      var r := TrimEnd(s[..|s| - 1]);
      assert s[|r|..] == s[..|s| - 1][|r|..] + [s[|s| - 1]];
      r
    else
      s
  }

  /** `s.trim()`: empty exactly when `s` is blank; otherwise it starts and ends
      with a non-whitespace character. */
  function Trim(s: string): (r: string)
    ensures r == [] <==> IsBlank(s)
    ensures r != [] ==> !IsWhitespace(r[0]) && !IsWhitespace(r[|r| - 1])
  {
    var t := TrimStart(s);
    var r := TrimEnd(t);
    assert t != [] ==> t[0] == s[|s| - |t|] && !IsWhitespace(t[0]);
    assert t == [] ==> s[..|s| - |t|] == s;
    r
  }

  /** A JavaScript number as far as the viewer's index can go: an integer, or
      NaN once arithmetic has divided by zero. */
  datatype Num = Int(v: int) | NaN

  /** `a % n` on JavaScript numbers for a divisor `n >= 0`: NaN when `n` is 0,
      otherwise the remainder of division truncated toward zero, which takes
      the sign of `a` and is smaller than `n` in magnitude; on a non-negative
      `a` it agrees with the mathematical remainder. */
  function Rem(a: int, n: nat): (r: Num)
    ensures r == NaN <==> n == 0
    ensures r.Int? ==> 0 < r.v + n && r.v < n
    ensures r.Int? && a >= 0 ==> r.v == a % n
    ensures r.Int? && a < 0 ==> r.v <= 0
  {
    if n == 0 then NaN
    else if a >= 0 then Int(a % n)
    else Int(-((-a) % n))
  }
}
