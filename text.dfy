/** String helpers with Python's meaning: `startswith`, `strip()` and the
    decimal rendering of a non-negative int (`f"{i}"`). */
module Text {

  predicate StartsWith(s: string, prefix: string)
  {
    |prefix| <= |s| && s[..|prefix|] == prefix
  }

  /** The characters for which Python's `str.isspace()` holds, the ones
      `str.strip()` removes when called without an argument. */
  predicate IsSpace(c: char)
  {
    c == ' ' || ('\t' <= c <= '\r') || ('\U{1C}' <= c <= '\U{1F}')
    || c == '\U{85}' || c == '\U{A0}' || c == '\U{1680}'
    || ('\U{2000}' <= c <= '\U{200A}')
    || c == '\U{2028}' || c == '\U{2029}' || c == '\U{202F}' || c == '\U{205F}' || c == '\U{3000}'
  }

  /** Number of leading whitespace characters. */
  function LeadingSpaces(s: string): (n: nat)
    ensures n <= |s|
    ensures forall i :: 0 <= i < n ==> IsSpace(s[i])
    ensures n < |s| ==> !IsSpace(s[n])
  {
    if s == [] || !IsSpace(s[0]) then 0
    else
      var n := 1 + LeadingSpaces(s[1..]);
      assert forall i :: 1 <= i < n ==> s[i] == s[1..][i - 1];
      n
  }

  /** Number of trailing whitespace characters. */
  function TrailingSpaces(s: string): (n: nat)
    ensures n <= |s|
    ensures forall i :: |s| - n <= i < |s| ==> IsSpace(s[i])
    ensures n < |s| ==> !IsSpace(s[|s| - 1 - n])
  {
    if s == [] || !IsSpace(s[|s| - 1]) then 0
    else 1 + TrailingSpaces(s[..|s| - 1])
  }

  /** `s.strip()`: drop leading, then trailing, whitespace. */
  function Strip(s: string): (r: string)
    ensures r == [] || (!IsSpace(r[0]) && !IsSpace(r[|r| - 1]))
    ensures exists i, j :: 0 <= i <= j <= |s| && r == s[i..j]
  {
    var lead := LeadingSpaces(s);
    var t := s[lead..];
    var r := t[..|t| - TrailingSpaces(t)];
    assert r == s[lead..lead + |r|];
    r
  }

  /** A string that begins and ends with a non-space is its own strip. */
  lemma StripStripped(s: string)
    requires s == [] || (!IsSpace(s[0]) && !IsSpace(s[|s| - 1]))
    ensures Strip(s) == s
  {
  }

  /** Whitespace added around a stripped string is exactly what strip removes. */
  lemma {:induction false} StripPadded(pre: string, body: string, post: string)
    requires forall i :: 0 <= i < |pre| ==> IsSpace(pre[i])
    requires forall i :: 0 <= i < |post| ==> IsSpace(post[i])
    requires body == [] || (!IsSpace(body[0]) && !IsSpace(body[|body| - 1]))
    ensures Strip(pre + body + post) == body
  {
    var s := pre + body + post;
    if body == [] {
      forall i | 0 <= i < |s| ensures IsSpace(s[i]) {
        if i < |pre| { assert s[i] == pre[i]; } else { assert s[i] == post[i - |pre|]; }
      }
      LeadingSpacesExact(s, |s|);
    } else {
      forall i | 0 <= i < |pre| ensures IsSpace(s[i]) { assert s[i] == pre[i]; }
      assert s[|pre|] == body[0];
      LeadingSpacesExact(s, |pre|);
      var t := s[|pre|..];
      assert t == body + post;
      forall i | |t| - |post| <= i < |t| ensures IsSpace(t[i]) {
        assert t[i] == post[i - |body|];
      }
      assert t[|t| - 1 - |post|] == body[|body| - 1];
      TrailingSpacesExact(t, |post|);
      assert t[..|t| - |post|] == body;
    }
  }

  /** The leading run of spaces ends at the first non-space. */
  lemma LeadingSpacesExact(s: string, m: nat)
    requires m <= |s| && (forall i :: 0 <= i < m ==> IsSpace(s[i]))
    requires m < |s| ==> !IsSpace(s[m])
    ensures LeadingSpaces(s) == m
  {
  }

  /** The trailing run of spaces ends at the last non-space. */
  lemma TrailingSpacesExact(s: string, m: nat)
    requires m <= |s| && (forall i :: |s| - m <= i < |s| ==> IsSpace(s[i]))
    requires m < |s| ==> !IsSpace(s[|s| - 1 - m])
    ensures TrailingSpaces(s) == m
  {
  }

  /** `f"{n}"` for a non-negative int: decimal digits, no leading zero. */
  function DecimalString(n: nat): (r: string)
    ensures |r| >= 1
    ensures forall i :: 0 <= i < |r| ==> '0' <= r[i] <= '9'
    ensures |r| > 1 ==> r[0] != '0'
  {
    if n < 10 then [Digit(n)] else DecimalString(n / 10) + [Digit(n % 10)]
  }

  function Digit(d: nat): (c: char)
    requires d < 10
    ensures '0' <= c <= '9'
    ensures c as int - '0' as int == d
  {
    ('0' as int + d) as char
  }

  /** Python's `int(s)` on a non-empty string of decimal digits. */
  function DecimalValue(s: string): (n: nat)
    requires forall i :: 0 <= i < |s| ==> '0' <= s[i] <= '9'
  {
    if s == [] then 0
    else DecimalValue(s[..|s| - 1]) * 10 + ((s[|s| - 1] as int) - ('0' as int))
  }

  /** Rendering a counter in decimal loses nothing: reading it back gives it again. */
  lemma {:induction false} DecimalRoundTrip(n: nat)
    ensures DecimalValue(DecimalString(n)) == n
  {
    if n >= 10 {
      DecimalRoundTrip(n / 10);
      var s := DecimalString(n);
      assert s[..|s| - 1] == DecimalString(n / 10);
      assert s[|s| - 1] == Digit(n % 10);
    }
  }

  /** Distinct counters render differently. */
  lemma DecimalInjective(m: nat, n: nat)
    requires DecimalString(m) == DecimalString(n)
    ensures m == n
  {
    DecimalRoundTrip(m);
    DecimalRoundTrip(n);
  }
}
