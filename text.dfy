/** The JavaScript string operations the components rely on, over strings as sequences of characters. */
module Text {

  /** A character that `String.prototype.trim` removes: white space and line terminators. */
  predicate IsWhitespace(c: char) {
    c == ' ' || c == '\t' || c == '\n' || c == '\r' || c == '\U{000B}' || c == '\U{000C}'
    || c == '\U{00A0}' || c == '\U{1680}' || ('\U{2000}' <= c <= '\U{200A}')
    || c == '\U{2028}' || c == '\U{2029}' || c == '\U{202F}' || c == '\U{205F}'
    || c == '\U{3000}' || c == '\U{FEFF}'
  }

  /** Every character of `s` is white space (vacuously true of the empty string). */
  predicate IsBlank(s: string) {
    forall i :: 0 <= i < |s| ==> IsWhitespace(s[i])
  }

  /** Every character of `s` from index `lo` up to, but not including, index `hi` is white space. */
  predicate BlankBetween(s: string, lo: int, hi: int) {
    forall i :: 0 <= lo <= i < hi <= |s| ==> IsWhitespace(s[i])
  }

  /** The index of the first character of `s`, from index `k` on, that is not white space, or `|s|`. */
  function StartOf(s: string, k: nat): (e: nat)
    requires k <= |s|
    ensures k <= e <= |s|
    ensures BlankBetween(s, k, e)
    ensures e < |s| ==> !IsWhitespace(s[e])
    decreases |s| - k
  {
    if k < |s| && IsWhitespace(s[k]) then StartOf(s, k + 1) else k
  }

  /** The index just past the last character of `s[k..e]` that is not white space, or `k`. */
  function EndOf(s: string, k: nat, e: nat): (r: nat)
    requires k <= e <= |s|
    ensures k <= r <= e
    ensures BlankBetween(s, r, e)
    ensures r > k ==> !IsWhitespace(s[r - 1])
    decreases e
  {
    if e > k && IsWhitespace(s[e - 1]) then EndOf(s, k, e - 1) else e
  }

  /** `s.trim()`: the part of `s` left after its leading and trailing white space, which starts
      `StartOf(s, 0)` characters in. */
  function Trim(s: string): (r: string)
    ensures var k := StartOf(s, 0);
      k + |r| <= |s| && r == s[k..k + |r|] && BlankBetween(s, 0, k) && BlankBetween(s, k + |r|, |s|)
    ensures r == [] <==> IsBlank(s)
    ensures r != [] ==> !IsWhitespace(r[0]) && !IsWhitespace(r[|r| - 1])
  {
    var k := StartOf(s, 0);
    var e := EndOf(s, k, |s|);
    assert k < |s| ==> e > k && !IsBlank(s);
    s[k..e]
  }

  /** ASCII case folding of one character; every other character is unchanged. */
  function LowerChar(c: char): char {
    if 'A' <= c <= 'Z' then (c as int + 32) as char else c
  }

  /** `s.toLowerCase()`, restricted to ASCII letters. */
  function Lower(s: string): (r: string)
    ensures |r| == |s|
  {
    seq(|s|, i requires 0 <= i < |s| => LowerChar(s[i]))
  }

  /** `t` is a prefix of `s`. */
  predicate IsPrefix(t: string, s: string) {
    |t| <= |s| && s[..|t|] == t
  }

  /** `s.includes(t)`: `t` occurs in `s` at some position. */
  predicate Contains(s: string, t: string)
    decreases |s|
  {
    IsPrefix(t, s) || (s != [] && Contains(s[1..], t))
  }

  /** Every string includes the empty string. */
  lemma ContainsEmpty(s: string)
    ensures Contains(s, "")
  {
  }

  /** A string includes `t` when `t` occurs at some index `k` of it. */
  lemma {:induction false} ContainsAt(s: string, t: string, k: nat)
    requires k + |t| <= |s| && s[k..k + |t|] == t
    ensures Contains(s, t)
    decreases k
  {
    if k == 0 {
      assert s[..|t|] == t;
    } else {
      assert s[1..][k - 1..k - 1 + |t|] == s[k..k + |t|];
      ContainsAt(s[1..], t, k - 1);
    }
  }

  /** Conversely, a string that includes `t` has `t` at some index: `Contains` accepts no more than
      `includes` does. */
  lemma {:induction false} ContainsOccurs(s: string, t: string)
    requires Contains(s, t)
    ensures exists k :: 0 <= k <= |s| - |t| && IsPrefix(t, s[k..])
    decreases |s|
  {
    if IsPrefix(t, s) {
      assert s[0..] == s;
    } else {
      ContainsOccurs(s[1..], t);
      var k :| 0 <= k <= |s| - 1 - |t| && IsPrefix(t, s[1..][k..]);
      assert s[1..][k..] == s[k + 1..];
    }
  }

  predicate IsDigit(c: char) {
    '0' <= c <= '9'
  }

  /** The regular expression `/^\d+$/`: one or more ASCII digits and nothing else. */
  predicate AllDigits(s: string) {
    |s| > 0 && forall i :: 0 <= i < |s| ==> IsDigit(s[i])
  }

  /** The decimal numeral of `n`, as a template literal `${n}` writes a non-negative integer. */
  function NatToString(n: nat): (r: string)
    ensures AllDigits(r)
    ensures r != [] && (r[0] == '0' <==> n == 0)
    ensures |r| == 1 || r[0] != '0'
    decreases n
  {
    var d := ['0' + (n % 10) as char];
    if n < 10 then d else NatToString(n / 10) + d
  }

  /** The number a string of decimal digits denotes. */
  function DigitsValue(s: string): nat
    requires forall i :: 0 <= i < |s| ==> IsDigit(s[i])
  {
    if s == [] then 0
    else
      assert IsDigit(s[|s| - 1]);
      10 * DigitsValue(s[..|s| - 1]) + (s[|s| - 1] as int - '0' as int) as nat
  }

  /** Reading the numeral of `n` gives `n` back. */
  lemma {:induction false} NatToStringRoundTrip(n: nat)
    ensures DigitsValue(NatToString(n)) == n
    decreases n
  {
    var r := NatToString(n);
    if n >= 10 {
      NatToStringRoundTrip(n / 10);
      assert r[..|r| - 1] == NatToString(n / 10);
    }
  }
}
