/** Python's string trimming (`str.strip`, `str.lstrip`, `str.rstrip`) and the
    decimal rendering of a non-negative integer (`str(n)` inside an f-string),
    as the client uses them. */
module Text {

  /** The characters for which Python's `str.isspace()` holds: these are what
      `str.strip()` with no argument removes. */
  const Whitespace: set<char> := {
    '\t', '\n', '\U{0B}', '\U{0C}', '\r',
    '\U{1C}', '\U{1D}', '\U{1E}', '\U{1F}', ' ',
    '\U{85}', '\U{A0}', '\U{1680}',
    '\U{2000}', '\U{2001}', '\U{2002}', '\U{2003}', '\U{2004}', '\U{2005}',
    '\U{2006}', '\U{2007}', '\U{2008}', '\U{2009}', '\U{200A}',
    '\U{2028}', '\U{2029}', '\U{202F}', '\U{205F}', '\U{3000}'
  }

  /** Every character of `s` belongs to `cs`. */
  predicate AllIn(s: string, cs: set<char>) {
    forall i :: 0 <= i < |s| ==> s[i] in cs
  }

  /** `s.lstrip(cs)`: the longest suffix of `s` that does not start with a
      character of `cs`. */
  function StripLeading(s: string, cs: set<char>): (r: string)
    ensures |r| <= |s| && r == s[|s| - |r|..]
    ensures AllIn(s[..|s| - |r|], cs)
    ensures r == [] || r[0] !in cs
    decreases |s|
  {
    if |s| > 0 && s[0] in cs then StripLeading(s[1..], cs) else s
  }

  /** `s.rstrip(cs)`: the longest prefix of `s` that does not end with a
      character of `cs`. */
  function StripTrailing(s: string, cs: set<char>): (r: string)
    ensures |r| <= |s| && r == s[..|r|]
    ensures AllIn(s[|r|..], cs)
    ensures r == [] || r[|r| - 1] !in cs
    decreases |s|
  {
    if |s| > 0 && s[|s| - 1] in cs then StripTrailing(s[..|s| - 1], cs) else s
  }

  /** `s.strip(cs)`: both ends trimmed. */
  function Strip(s: string, cs: set<char>): (r: string)
    ensures |r| <= |s|
    ensures r == [] || (r[0] !in cs && r[|r| - 1] !in cs)
    ensures r == [] <==> AllIn(s, cs)
  {
    var left := StripLeading(s, cs);
    assert AllIn(s, cs) ==> left == [];
    assert left == [] ==> AllIn(s, cs) by {
      if left == [] {
        assert s[..|s|] == s;
      }
    }
    var r := StripTrailing(left, cs);
    assert r == [] ==> AllIn(left, cs) by {
      if r == [] {
        assert left[|r|..] == left;
      }
    }
    assert r == [] ==> left == [];
    r
  }

  /** Characters of `cs` in front of `x` make no difference to `lstrip`. */
  lemma {:induction false} StripLeadingSkipsPrefix(a: string, x: string, cs: set<char>)
    requires AllIn(a, cs)
    ensures StripLeading(a + x, cs) == StripLeading(x, cs)
    decreases |a|
  {
    if a == [] {
      assert a + x == x;
    } else {
      assert (a + x)[1..] == a[1..] + x;
      StripLeadingSkipsPrefix(a[1..], x, cs);
    }
  }

  /** Characters of `cs` after `x` make no difference to `rstrip`. */
  lemma {:induction false} StripTrailingSkipsSuffix(x: string, b: string, cs: set<char>)
    requires AllIn(b, cs)
    ensures StripTrailing(x + b, cs) == StripTrailing(x, cs)
    decreases |b|
  {
    if b == [] {
      assert x + b == x;
    } else {
      assert (x + b)[..|x + b| - 1] == x + b[..|b| - 1];
      StripTrailingSkipsSuffix(x, b[..|b| - 1], cs);
    }
  }

  /** `strip` removes exactly the surrounding characters of `cs` and nothing
      else: whatever is padded around a core that neither starts nor ends
      with such a character, the core comes back. */
  lemma StripRecoversCore(a: string, m: string, b: string, cs: set<char>)
    requires AllIn(a, cs) && AllIn(b, cs)
    requires m == [] || (m[0] !in cs && m[|m| - 1] !in cs)
    ensures Strip(a + m + b, cs) == m
  {
    assert a + m + b == a + (m + b);
    StripLeadingSkipsPrefix(a, m + b, cs);
    if m == [] {
      assert m + b == b;
      assert StripLeading(b, cs) == [];
    } else {
      assert StripLeading(m + b, cs) == m + b;
      StripTrailingSkipsSuffix(m, b, cs);
      assert StripTrailing(m, cs) == m;
    }
  }

  /** Stripping twice is stripping once. */
  lemma StripIdempotent(s: string, cs: set<char>)
    ensures Strip(Strip(s, cs), cs) == Strip(s, cs)
  {
    var r := Strip(s, cs);
    assert [] + r + [] == r;
    StripRecoversCore([], r, [], cs);
  }

  /** Decimal digits. */
  predicate IsDigit(c: char) {
    '0' <= c <= '9'
  }

  predicate AllDigits(s: string) {
    forall i :: 0 <= i < |s| ==> IsDigit(s[i])
  }

  function DigitChar(d: nat): (c: char)
    requires d < 10
    ensures IsDigit(c) && c as int - '0' as int == d
  {
    ('0' as int + d) as char
  }

  /** `str(n)` for a non-negative integer: its shortest decimal numeral. */
  function Decimal(n: nat): (s: string)
    ensures |s| >= 1 && AllDigits(s)
    ensures s[0] == '0' ==> s == "0"
    decreases n
  {
    if n < 10 then [DigitChar(n)] else Decimal(n / 10) + [DigitChar(n % 10)]
  }

  /** The value of a string of decimal digits: the reading that undoes `Decimal`. */
  function DigitsValue(s: string): nat
    requires AllDigits(s)
    decreases |s|
  {
    if s == [] then 0
    else DigitsValue(s[..|s| - 1]) * 10 + (s[|s| - 1] as int - '0' as int)
  }

  /** Reading back a rendered number gives the number. */
  lemma {:induction false} DecimalRoundTrip(n: nat)
    ensures DigitsValue(Decimal(n)) == n
    decreases n
  {
    var s := Decimal(n);
    if n >= 10 {
      DecimalRoundTrip(n / 10);
      assert s[..|s| - 1] == Decimal(n / 10);
    }
  }

  /** Distinct numbers render differently. */
  lemma DecimalInjective(m: nat, n: nat)
    requires Decimal(m) == Decimal(n)
    ensures m == n
  {
    DecimalRoundTrip(m);
    DecimalRoundTrip(n);
  }
}
