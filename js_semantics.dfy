/**
 * The few pieces of JavaScript semantics the campaign page relies on:
 * `String.prototype.trim`, the truthiness of an optional string, and the
 * loose equality `status == "201"`.
 */
module JsSemantics {
  import opened Wrappers

  /** ECMAScript WhiteSpace and LineTerminator code points, the set `trim` strips. */
  predicate IsWhitespace(c: char) {
    || c == '\t' || c == '\U{000B}' || c == '\U{000C}' || c == ' '
    || c == '\U{00A0}' || c == '\U{FEFF}'
    || c == '\n' || c == '\r' || c == '\U{2028}' || c == '\U{2029}'
    || c == '\U{1680}' || ('\U{2000}' <= c <= '\U{200A}')
    || c == '\U{202F}' || c == '\U{205F}' || c == '\U{3000}'
  }

  /** Every character of `s` is whitespace (the empty string included). */
  predicate IsBlank(s: string) {
    forall i :: 0 <= i < |s| ==> IsWhitespace(s[i])
  }

  /** The first index at or after `i` that does not hold whitespace, or `|s|`. */
  function SkipLeading(s: string, i: nat): (k: nat)
    requires i <= |s|
    ensures i <= k <= |s|
    ensures forall j :: i <= j < k ==> IsWhitespace(s[j])
    ensures k < |s| ==> !IsWhitespace(s[k])
    decreases |s| - i
  {
    if i < |s| && IsWhitespace(s[i]) then SkipLeading(s, i + 1) else i
  }

  /** The end of `s[lo..j]` once its trailing whitespace is dropped. */
  function SkipTrailing(s: string, lo: nat, j: nat): (m: nat)
    requires lo <= j <= |s|
    ensures lo <= m <= j
    ensures forall i :: m <= i < j ==> IsWhitespace(s[i])
    ensures m > lo ==> !IsWhitespace(s[m - 1])
    decreases j
  {
    if j > lo && IsWhitespace(s[j - 1]) then SkipTrailing(s, lo, j - 1) else j
  }

  /** `s` with its leading whitespace removed: a suffix of `s` that does not start with whitespace. */
  function TrimStart(s: string): (r: string)
    ensures |r| <= |s| && r == s[|s| - |r|..]
    ensures forall i :: 0 <= i < |s| - |r| ==> IsWhitespace(s[i])
    ensures r != [] ==> !IsWhitespace(r[0])
  {
    s[SkipLeading(s, 0)..]
  }

  /** `s` with its trailing whitespace removed: a prefix of `s` that does not end with whitespace. */
  function TrimEnd(s: string): (r: string)
    ensures |r| <= |s| && r == s[..|r|]
    ensures forall i :: |r| <= i < |s| ==> IsWhitespace(s[i])
    ensures r != [] ==> !IsWhitespace(r[|r| - 1])
  {
    s[..SkipTrailing(s, 0, |s|)]
  }

  /**
   * `String.prototype.trim`: the slice of `s` left between its leading and
   * its trailing whitespace.
   */
  function Trim(s: string): (r: string)
    ensures |r| <= |s|
    ensures var k := |s| - |TrimStart(s)|;
      && k + |r| <= |s| && r == s[k..k + |r|]
      && (forall i :: 0 <= i < k ==> IsWhitespace(s[i]))
      && (forall i :: k + |r| <= i < |s| ==> IsWhitespace(s[i]))
    ensures r != [] ==> !IsWhitespace(r[0]) && !IsWhitespace(r[|r| - 1])
  {
    var k := SkipLeading(s, 0);
    s[k..SkipTrailing(s, k, |s|)]
  }

  /**
   * ECMAScript trims the start and then the end: `Trim` is that composition,
   * computed on indices.
   */
  lemma {:induction false} TrimIsEndOfStart(s: string)
    ensures Trim(s) == TrimEnd(TrimStart(s))
  {
    var t := TrimStart(s);
    var k := |s| - |t|;
    var q := Trim(s);
    assert q == t[..|q|] by {
      assert s[k..][..|q|] == s[k..k + |q|];
    }
    forall i | |q| <= i < |t|
      ensures IsWhitespace(t[i])
    {
      assert t[i] == s[k + i];
    }
    TrimmedPrefixUnique(t, TrimEnd(t), q);
  }

  /** Two prefixes of `t` followed by whitespace only and not ending in whitespace are equal. */
  lemma {:induction false} TrimmedPrefixUnique(t: string, p: string, q: string)
    requires |p| <= |t| && p == t[..|p|] && |q| <= |t| && q == t[..|q|]
    requires forall i :: |p| <= i < |t| ==> IsWhitespace(t[i])
    requires forall i :: |q| <= i < |t| ==> IsWhitespace(t[i])
    requires p != [] ==> !IsWhitespace(p[|p| - 1])
    requires q != [] ==> !IsWhitespace(q[|q| - 1])
    ensures p == q
  {
  }

  /** A string with no whitespace at either end is its own trimming. */
  lemma {:induction false} TrimKeeps(s: string)
    requires s != [] && !IsWhitespace(s[0]) && !IsWhitespace(s[|s| - 1])
    ensures Trim(s) == s
  {
    assert SkipLeading(s, 0) == 0;
    assert SkipTrailing(s, 0, |s|) == |s|;
    assert s[0..|s|] == s;
  }

  /** `!s.trim()` holds exactly when `s` consists of whitespace only. */
  lemma {:induction false} TrimEmptyIffBlank(s: string)
    ensures Trim(s) == [] <==> IsBlank(s)
  {
    var k := |s| - |TrimStart(s)|;
    var r := Trim(s);
    if r != [] {
      assert r[0] == s[k];
    }
  }

  /** Truthiness of an optional string: `undefined`, `null` and `""` are falsy. */
  predicate IsTruthy(v: Option<string>) {
    v.Some? && v.value != ""
  }

  /** An HTTP status as the comment service may report it: a number or a string. */
  datatype Status = NumberStatus(code: int) | TextStatus(text: string)

  predicate IsDigit(c: char) {
    '0' <= c <= '9'
  }

  /** A non-empty run of decimal digits. */
  predicate IsDigits(s: string) {
    s != [] && forall i :: 0 <= i < |s| ==> IsDigit(s[i])
  }

  /** The value of a string of decimal digits, most significant first. */
  function DigitsValue(s: string): nat
    requires forall i :: 0 <= i < |s| ==> IsDigit(s[i])
    decreases |s|
  {
    if s == [] then 0
    else
      assert IsDigit(s[|s| - 1]);
      DigitsValue(s[..|s| - 1]) * 10 + (s[|s| - 1] as int - '0' as int)
  }

  /**
   * ECMAScript's conversion of a string to a number, for the integer
   * literals: surrounding whitespace is ignored, a blank string is 0, and an
   * optional sign may precede the digits. `None` is NaN, and also stands for
   * the literal forms this reference does not cover (fractions, exponents,
   * hexadecimal, `Infinity`).
   */
  function StringToInteger(s: string): Option<int> {
    var t := Trim(s);
    if t == [] then Some(0)
    else if IsDigits(t) then Some(DigitsValue(t))
    else if t[0] == '+' && IsDigits(t[1..]) then Some(DigitsValue(t[1..]))
    else if t[0] == '-' && IsDigits(t[1..]) then Some(-(DigitsValue(t[1..]) as int))
    else None
  }

  /**
   * ECMAScript's loose equality `x == y` of a status with a string: a
   * number against a string compares with the string converted to a number,
   * two strings compare code unit by code unit.
   */
  predicate LooseEquals(x: Status, y: string) {
    match x
    case NumberStatus(n) => StringToInteger(y) == Some(n)
    case TextStatus(t) => t == y
  }

  /** The string `"201"` converts to the number 201. */
  lemma StringToInteger201()
    ensures StringToInteger("201") == Some(201)
  {
    var t := "201";
    TrimKeeps(t);
    assert IsDigits(t);
    DigitsValue201();
  }

  lemma DigitsValue201()
    ensures DigitsValue("201") == 201
  {
    assert "201"[..2] == "20" && "20"[..1] == "2" && "2"[..0] == "";
  }

  /**
   * `status == "201"`, computed directly: a number matches 201 and a string
   * matches `"201"`. LooseEquals201Agrees proves it equal to the general
   * loose equality.
   */
  function LooselyEquals201(status: Status): (r: bool)
    ensures status.NumberStatus? ==> (r <==> status.code == 201)
    ensures status.TextStatus? ==> (r <==> status.text == "201")
  {
    match status
    case NumberStatus(code) => code == 201
    case TextStatus(text) => text == "201"
  }

  /** The direct test of `status == "201"` is JavaScript's loose equality with `"201"`, for every status. */
  lemma LooseEquals201Agrees(status: Status)
    ensures LooselyEquals201(status) == LooseEquals(status, "201")
  {
    StringToInteger201();
  }
}
