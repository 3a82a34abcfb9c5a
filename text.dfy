/** The Python `str` operations the services rely on, over ASCII: Python's
    whitespace test, `strip`, `str(int)`, `int(str)` and `replace`. */
module Text {
  import opened Wrappers

  /** `c.isspace()` for an ASCII character: TAB, LF, VT, FF, CR, the
      separators 0x1C to 0x1F, and SPACE. `\s` in a pattern is the same set. */
  predicate IsSpace(c: char) {
    c == ' ' || 9 <= c as int <= 13 || 28 <= c as int <= 31
  }

  predicate IsDigit(c: char) { '0' <= c <= '9' }

  predicate IsLetter(c: char) { 'a' <= c <= 'z' || 'A' <= c <= 'Z' }

  predicate AllSpace(s: string) { forall i :: 0 <= i < |s| ==> IsSpace(s[i]) }

  predicate AllDigits(s: string) { forall i :: 0 <= i < |s| ==> IsDigit(s[i]) }

  /** `s.lstrip()` */
  function LStrip(s: string): (r: string)
    ensures |r| <= |s| && r == s[|s| - |r|..]
    ensures AllSpace(s[..|s| - |r|])
    ensures r != [] ==> !IsSpace(r[0])
  {
    if s != [] && IsSpace(s[0]) then
      LStrip(s[1..])
    else
      s
  }

  /** `s.rstrip()` */
  function RStrip(s: string): (r: string)
    ensures |r| <= |s| && r == s[..|r|]
    ensures AllSpace(s[|r|..])
    ensures r != [] ==> !IsSpace(r[|r| - 1])
  {
    if s != [] && IsSpace(s[|s| - 1]) then
      var r := RStrip(s[..|s| - 1]);
      assert s[|r|..] == s[..|s| - 1][|r|..] + [s[|s| - 1]];
      r
    else
      s
  }

  /** `s.strip()`: whitespace leaves both ends and nothing else changes. */
  function Strip(s: string): (r: string)
    ensures r == [] <==> AllSpace(s)
    ensures r != [] ==> !IsSpace(r[0]) && !IsSpace(r[|r| - 1])
    ensures forall c :: !IsSpace(c) ==> (c in r <==> c in s)
    ensures s == [] || (!IsSpace(s[0]) && !IsSpace(s[|s| - 1])) ==> r == s
  {
    StripFacts(s);
    RStrip(LStrip(s))
  }

  lemma StripFacts(s: string)
    ensures var r := RStrip(LStrip(s));
      && (r == [] <==> AllSpace(s))
      && (r != [] ==> !IsSpace(r[0]) && !IsSpace(r[|r| - 1]))
      && (forall c :: !IsSpace(c) ==> (c in r <==> c in s))
      && (s == [] || (!IsSpace(s[0]) && !IsSpace(s[|s| - 1])) ==> r == s)
  {
    var l := LStrip(s);
    var r := RStrip(l);
    LStripEmpty(s);
    RStripEmpty(l);
    if l != [] {
      assert !AllSpace(l) by { assert !IsSpace(l[0]); }
    }
    if r != [] {
      assert r[0] == l[0];
    }
    DroppedSpaceKeepsRest(s, |s| - |l|);
    DroppedSpaceKeepsRest'(l, |r|);
  }

  /** `s.strip()` is the part of s between a whitespace prefix and a
      whitespace suffix. */
  lemma StripInfix(s: string)
    ensures exists i, j :: 0 <= i <= j <= |s| && Strip(s) == s[i..j] && AllSpace(s[..i]) && AllSpace(s[j..])
  {
    var l := LStrip(s);
    InfixOfSuffix(s, |s| - |l|, RStrip(l));
  }

  /** A whitespace-trimmed prefix of a suffix after whitespace is an infix
      between whitespace. */
  lemma InfixOfSuffix(s: string, i: nat, r: string)
    requires i <= |s| && |r| <= |s| - i && r == s[i..][..|r|]
    requires AllSpace(s[..i]) && AllSpace(s[i..][|r|..])
    ensures exists a, b :: 0 <= a <= b <= |s| && r == s[a..b] && AllSpace(s[..a]) && AllSpace(s[b..])
  {
    assert r == s[i..i + |r|];
    assert s[i..][|r|..] == s[i + |r|..];
  }

  lemma LStripEmpty(s: string)
    ensures LStrip(s) == [] <==> AllSpace(s)
  {
    var l := LStrip(s);
    if l == [] {
      assert s[..|s|] == s;
    } else {
      assert l[0] == s[|s| - |l|];
    }
  }

  lemma RStripEmpty(s: string)
    ensures RStrip(s) == [] <==> AllSpace(s)
  {
    var r := RStrip(s);
    if r == [] {
      assert s[|r|..] == s;
    } else {
      assert r[|r| - 1] == s[|r| - 1];
    }
  }

  /** Cutting whitespace off the front keeps every other character. */
  lemma DroppedSpaceKeepsRest(s: string, k: nat)
    requires k <= |s| && AllSpace(s[..k])
    ensures forall c :: !IsSpace(c) ==> (c in s[k..] <==> c in s)
  {
    forall c | !IsSpace(c) && c in s
      ensures c in s[k..]
    {
      var i :| 0 <= i < |s| && s[i] == c;
      assert s[k..][i - k] == c;
    }
  }

  /** Cutting whitespace off the back keeps every other character. */
  lemma DroppedSpaceKeepsRest'(s: string, k: nat)
    requires k <= |s| && AllSpace(s[k..])
    ensures forall c :: !IsSpace(c) ==> (c in s[..k] <==> c in s)
  {
    forall c | !IsSpace(c) && c in s
      ensures c in s[..k]
    {
      var i :| 0 <= i < |s| && s[i] == c;
      assert s[..k][i] == c;
    }
  }

  /** Index of the first whitespace character of s, |s| when there is none. */
  function FirstSpace(s: string): (i: nat)
    ensures i <= |s| && (i < |s| ==> IsSpace(s[i]))
    ensures forall k :: 0 <= k < i ==> !IsSpace(s[k])
  {
    if s == [] || IsSpace(s[0]) then 0 else 1 + FirstSpace(s[1..])
  }

  function DigitChar(d: nat): (c: char)
    requires d < 10
    ensures IsDigit(c) && c as int - '0' as int == d
  {
    ('0' as int + d) as char
  }

  /** The number a string of decimal digits denotes. */
  function DigitsValue(s: string): nat
    requires AllDigits(s)
  {
    if s == [] then 0 else DigitsValue(s[..|s| - 1]) * 10 + (s[|s| - 1] as int - '0' as int)
  }

  /** `str(n)` for a non-negative n */
  function NatToString(n: nat): (s: string)
    ensures s != [] && AllDigits(s)
    ensures |s| > 1 ==> s[0] != '0'
  {
    if n < 10 then [DigitChar(n)] else NatToString(n / 10) + [DigitChar(n % 10)]
  }

  /** `str(n)` */
  function IntToString(n: int): (s: string)
    ensures s != [] && (s[0] == '-' <==> n < 0)
    ensures !IsSpace(s[0]) && IsDigit(s[|s| - 1])
  {
    if n < 0 then "-" + NatToString(-n) else NatToString(n)
  }

  lemma {:induction false} NatToStringValue(n: nat)
    ensures DigitsValue(NatToString(n)) == n
  {
    if n >= 10 {
      NatToStringValue(n / 10);
      var s := NatToString(n);
      assert s[..|s| - 1] == NatToString(n / 10);
    }
  }

  /** The text after an optional leading sign. */
  function Unsigned(t: string): (b: string)
    ensures |b| <= |t|
  {
    if t != [] && (t[0] == '+' || t[0] == '-') then t[1..] else t
  }

  /** Digits where a single underscore may stand between two digits: the
      digit part `int()` accepts in base 10. */
  predicate GroupedDigits(b: string) {
    b != [] && IsDigit(b[0]) && IsDigit(b[|b| - 1])
    && (forall i :: 0 <= i < |b| ==> IsDigit(b[i]) || b[i] == '_')
    && (forall i :: 0 <= i < |b| - 1 ==> b[i] == '_' ==> b[i + 1] != '_')
  }

  /** The digits of b with its underscores removed. */
  function DropUnderscores(b: string): (d: string)
    requires forall i :: 0 <= i < |b| ==> IsDigit(b[i]) || b[i] == '_'
    ensures AllDigits(d) && |d| <= |b|
    ensures AllDigits(b) ==> d == b
  {
    if b == [] then [] else (if b[0] == '_' then [] else [b[0]]) + DropUnderscores(b[1..])
  }

  /** `int(s)` for a str argument; None where Python raises ValueError.
      Surrounding whitespace and one leading sign are accepted. */
  function ParseInt(s: string): (r: Option<int>)
    ensures r.Some? <==> GroupedDigits(Unsigned(Strip(s)))
  {
    var t := Strip(s);
    var b := Unsigned(t);
    if !GroupedDigits(b) then None
    else
      var v: int := DigitsValue(DropUnderscores(b));
      Some(if t[0] == '-' then -v else v)
  }

  /** `int(str(n)) == n` */
  lemma ParseIntOfIntToString(n: int)
    ensures ParseInt(IntToString(n)) == Some(n)
  {
    var s := IntToString(n);
    var m: nat := if n < 0 then -n else n;
    var digits := NatToString(m);
    assert Strip(s) == s;
    assert Unsigned(s) == digits;
    assert GroupedDigits(digits);
    NatToStringValue(m);
  }

  /** `str(a) == str(b)` only when a == b */
  lemma IntToStringInjective(a: int, b: int)
    requires IntToString(a) == IntToString(b)
    ensures a == b
  {
    ParseIntOfIntToString(a);
    ParseIntOfIntToString(b);
  }

  /** `s.replace(pattern, replacement)` for a non-empty pattern: every
      occurrence, scanning from the left without overlap. */
  function Replace(s: string, pattern: string, replacement: string): string
    requires pattern != []
    decreases |s|
  {
    if |s| < |pattern| then s
    else if s[..|pattern|] == pattern then replacement + Replace(s[|pattern|..], pattern, replacement)
    else [s[0]] + Replace(s[1..], pattern, replacement)
  }

  /** A string without the pattern's first character is left as it is. */
  lemma {:induction false} ReplaceAbsent(s: string, pattern: string, replacement: string)
    requires pattern != [] && pattern[0] !in s
    ensures Replace(s, pattern, replacement) == s
  {
    if |s| >= |pattern| {
      assert s[..|pattern|][0] == s[0];
      assert s[0] in s;
      assert forall c :: c in s[1..] ==> c in s;
      ReplaceAbsent(s[1..], pattern, replacement);
      assert [s[0]] + s[1..] == s;
    }
  }
}
