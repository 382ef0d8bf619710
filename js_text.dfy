/** The two pieces of the JavaScript string library the draft editor relies on:
    String.prototype.trim (used by the save guard) and the decimal rendering of a
    non-negative integer (used by the `Quote-${n}` template literal). */
module JsText {

  /** The code points ECMAScript counts as WhiteSpace or LineTerminator: exactly
      the characters String.prototype.trim removes from both ends. */
  predicate IsTrimmable(c: char) {
    || c == '\t' || c == '\n' || c == '\U{B}' || c == '\U{C}' || c == '\r'
    || c == ' ' || c == '\U{A0}' || c == '\U{1680}'
    || ('\U{2000}' <= c <= '\U{200A}')
    || c == '\U{2028}' || c == '\U{2029}' || c == '\U{202F}' || c == '\U{205F}'
    || c == '\U{3000}' || c == '\U{FEFF}'
  }

  /** A string made of trimmable characters only (the empty string included). */
  predicate IsBlank(s: string) {
    forall i :: 0 <= i < |s| ==> IsTrimmable(s[i])
  }

  /** Where trimming the start stops: the first position at or after `i` that
      does not hold a trimmable character (or the end of `s`). */
  function TrimStartIndex(s: string, i: nat): (r: nat)
    requires i <= |s|
    ensures i <= r <= |s|
    ensures forall k :: i <= k < r ==> IsTrimmable(s[k])
    ensures r == |s| || !IsTrimmable(s[r])
    decreases |s| - i
  {
    if i < |s| && IsTrimmable(s[i]) then TrimStartIndex(s, i + 1) else i
  }

  /** Where trimming the end stops: scanning back from `j`, not below `lo`,
      the position just after the last character that is not trimmable. */
  function TrimEndIndex(s: string, lo: nat, j: nat): (r: nat)
    requires lo <= j <= |s|
    ensures lo <= r <= j
    ensures forall k :: r <= k < j ==> IsTrimmable(s[k])
    ensures r == lo || !IsTrimmable(s[r - 1])
    decreases j
  {
    if j > lo && IsTrimmable(s[j - 1]) then TrimEndIndex(s, lo, j - 1) else j
  }

  /** String.prototype.trim: the result is empty exactly when `s` is blank,
      and otherwise neither starts nor ends with a trimmable character. */
  function Trim(s: string): (r: string)
    ensures |r| <= |s|
    ensures r == [] <==> IsBlank(s)
    ensures r != [] ==> !IsTrimmable(r[0]) && !IsTrimmable(r[|r| - 1])
  {
    var lo := TrimStartIndex(s, 0);
    var hi := TrimEndIndex(s, lo, |s|);
    assert lo < hi ==> s[lo..hi][0] == s[lo] && s[lo..hi][hi - lo - 1] == s[hi - 1];
    s[lo..hi]
  }

  /** What trim removes is blank: `s` is a blank lead, the result, and a blank
      tail. */
  lemma TrimIsInfix(s: string)
    ensures exists i :: 0 <= i <= |s| - |Trim(s)| && Trim(s) == s[i..i + |Trim(s)|]
                        && IsBlank(s[..i]) && IsBlank(s[i + |Trim(s)|..])
  {
    var lo := TrimStartIndex(s, 0);
    var hi := TrimEndIndex(s, lo, |s|);
    assert Trim(s) == s[lo..hi];
    assert IsBlank(s[..lo]);
    assert forall k :: 0 <= k < |s| - hi ==> s[hi..][k] == s[hi + k];
    assert IsBlank(s[hi..]);
  }

  /** The digit character for a value below ten. */
  function DigitChar(d: nat): (c: char)
    requires d < 10
    ensures '0' <= c <= '9'
  {
    ('0' as int + d) as char
  }

  predicate IsDigit(c: char) {
    '0' <= c <= '9'
  }

  /** Number.prototype.toString for a non-negative integer: decimal digits, most
      significant first, with no leading zero; zero itself is "0". */
  function DecimalString(n: nat): (r: string)
    ensures |r| >= 1
    ensures forall i :: 0 <= i < |r| ==> IsDigit(r[i])
    ensures r[0] == '0' ==> n == 0 && r == "0"
  {
    if n < 10 then [DigitChar(n)] else DecimalString(n / 10) + [DigitChar(n % 10)]
  }

  /** The value of a string of decimal digits, read most significant first. */
  function DecimalValue(s: string): nat
    requires forall i :: 0 <= i < |s| ==> IsDigit(s[i])
  {
    if s == [] then 0
    else
      assert IsDigit(s[|s| - 1]);
      DecimalValue(s[..|s| - 1]) * 10 + (s[|s| - 1] as int - '0' as int)
  }

  /** Reading the digits back gives the number that was rendered. */
  lemma {:induction false} DecimalRoundTrip(n: nat)
    ensures DecimalValue(DecimalString(n)) == n
  {
    if n >= 10 {
      var r := DecimalString(n);
      assert r[..|r| - 1] == DecimalString(n / 10);
      DecimalRoundTrip(n / 10);
    }
  }

  /** Different numbers render as different strings. */
  lemma DecimalStringInjective(m: nat, n: nat)
    ensures DecimalString(m) == DecimalString(n) ==> m == n
  {
    DecimalRoundTrip(m);
    DecimalRoundTrip(n);
  }
}
