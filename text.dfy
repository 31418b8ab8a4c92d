/**
 * String helpers shared by the scraper, the analyzer and the charts.
 *
 * Strings are sequences of Unicode scalar values, as Python `str` values are.
 * Case mapping, white space and digits are modelled on ASCII only: every
 * other character counts as uncased, non-space and non-digit and is left as
 * it is.
 */
module Text {

  // ---------------------------------------------------------------------------
  // Prefixes and suffixes (`str.startswith`, `str.endswith`)

  predicate StartsWith(s: string, prefix: string) {
    |prefix| <= |s| && s[..|prefix|] == prefix
  }

  predicate EndsWith(s: string, suffix: string) {
    |suffix| <= |s| && s[|s| - |suffix|..] == suffix
  }

  // ---------------------------------------------------------------------------
  // Lexicographic order of Python strings: code point by code point, a proper
  // prefix before any extension of it.

  predicate LexLess(a: string, b: string)
    decreases |a|
  {
    if a == [] then b != []
    else if b == [] then false
    else if a[0] != b[0] then a[0] < b[0]
    else LexLess(a[1..], b[1..])
  }

  lemma {:induction false} LexIrreflexive(a: string)
    ensures !LexLess(a, a)
    decreases |a|
  {
    if a != [] {
      LexIrreflexive(a[1..]);
    }
  }

  lemma {:induction false} LexTransitive(a: string, b: string, c: string)
    requires LexLess(a, b) && LexLess(b, c)
    ensures LexLess(a, c)
    decreases |a|
  {
    if a != [] && b != [] && c != [] && a[0] == b[0] && b[0] == c[0] {
      LexTransitive(a[1..], b[1..], c[1..]);
    }
  }

  lemma {:induction false} LexTotal(a: string, b: string)
    ensures a == b || LexLess(a, b) || LexLess(b, a)
    decreases |a|
  {
    if a != [] && b != [] && a[0] == b[0] {
      LexTotal(a[1..], b[1..]);
      if a[1..] == b[1..] {
        assert a == [a[0]] + a[1..] && b == [b[0]] + b[1..];
      }
    }
  }

  lemma {:induction false} LexAsymmetric(a: string, b: string)
    requires LexLess(a, b)
    ensures !LexLess(b, a)
  {
    if LexLess(b, a) {
      LexTransitive(a, b, a);
      LexIrreflexive(a);
    }
  }

  /** Comparing two strings that start with parts of equal length compares those
      parts first and the rest only when the parts are equal. */
  lemma {:induction false} LexConcat(x: string, s: string, y: string, t: string)
    requires |x| == |y|
    ensures LexLess(x + s, y + t) <==> LexLess(x, y) || (x == y && LexLess(s, t))
    decreases |x|
  {
    if x != [] {
      assert (x + s)[0] == x[0] && (y + t)[0] == y[0];
      assert (x + s)[1..] == x[1..] + s && (y + t)[1..] == y[1..] + t;
      LexConcat(x[1..], s, y[1..], t);
      if x[0] == y[0] && x[1..] == y[1..] {
        assert x == [x[0]] + x[1..] && y == [y[0]] + y[1..];
      }
      if x == y {
        LexIrreflexive(x);
      }
    } else {
      assert x + s == s && y + t == t;
    }
  }

  // ---------------------------------------------------------------------------
  // Digits and positional notation (base 10 and lower-case base 16)

  predicate IsBase(b: nat) {
    b == 10 || b == 16
  }

  /** The digit `d` as JavaScript's `toString(16)` and Python's `str` write it. */
  function DigitChar(d: nat): (c: char)
    requires d < 16
    ensures '0' <= c <= '9' || 'a' <= c <= 'f'
  {
    if d < 10 then ('0' as int + d) as char else ('a' as int + d - 10) as char
  }

  predicate IsDigitIn(c: char, b: nat)
    requires IsBase(b)
  {
    ('0' <= c <= '9') || (b == 16 && ('a' <= c <= 'f' || 'A' <= c <= 'F'))
  }

  /** The value of one digit, as `parseInt` reads it. */
  function DigitValue(c: char, b: nat): (d: nat)
    requires IsBase(b) && IsDigitIn(c, b)
    ensures d < b
  {
    if '0' <= c <= '9' then c as int - '0' as int
    else if 'a' <= c <= 'f' then c as int - 'a' as int + 10
    else c as int - 'A' as int + 10
  }

  /** Shortest numeral of `n` in base `b`: Python's `str(n)`, JavaScript's `n.toString(b)`. */
  function ToBase(n: nat, b: nat): (s: string)
    requires IsBase(b)
    decreases n
  {
    if n < b then [DigitChar(n)] else ToBase(n / b, b) + [DigitChar(n % b)]
  }

  function Dec(n: nat): string {
    ToBase(n, 10)
  }

  predicate AllDigits(s: string, b: nat)
    requires IsBase(b)
  {
    forall i | 0 <= i < |s| :: IsDigitIn(s[i], b)
  }

  /** `parseInt(s, b)` on a string made of digits only. */
  function ParseBase(s: string, b: nat): nat
    requires IsBase(b) && AllDigits(s, b)
    decreases |s|
  {
    if s == [] then 0 else ParseBase(s[..|s| - 1], b) * b + DigitValue(s[|s| - 1], b)
  }

  lemma {:induction false} DigitRoundTrip(d: nat, b: nat)
    requires IsBase(b) && d < b
    ensures IsDigitIn(DigitChar(d), b) && DigitValue(DigitChar(d), b) == d
  {
  }

  /** A numeral is non-empty, made of digits, and starts with `0` only when it is `0`. */
  lemma {:induction false} ToBaseShape(n: nat, b: nat)
    requires IsBase(b)
    ensures var s := ToBase(n, b); |s| > 0 && AllDigits(s, b) && (s[0] == '0' <==> n == 0)
    decreases n
  {
    if n < b {
      DigitRoundTrip(n, b);
    } else {
      ToBaseShape(n / b, b);
      DigitRoundTrip(n % b, b);
      var s := ToBase(n, b);
      assert s[0] == ToBase(n / b, b)[0];
    }
  }

  /** Reading back a numeral gives the number that was written. */
  lemma {:induction false} ToBaseRoundTrip(n: nat, b: nat)
    requires IsBase(b)
    ensures AllDigits(ToBase(n, b), b) && ParseBase(ToBase(n, b), b) == n
    decreases n
  {
    ToBaseShape(n, b);
    DigitRoundTrip(n % b, b);
    if n >= b {
      ToBaseRoundTrip(n / b, b);
      var s := ToBase(n, b);
      assert s[..|s| - 1] == ToBase(n / b, b);
      if b == 10 {
        assert n == (n / 10) * 10 + n % 10;
      } else {
        assert n == (n / 16) * 16 + n % 16;
      }
    }
  }

  /** Different numbers have different numerals. */
  lemma DecInjective(m: nat, n: nat)
    requires Dec(m) == Dec(n)
    ensures m == n
  {
    ToBaseRoundTrip(m, 10);
    ToBaseRoundTrip(n, 10);
  }

  /** JavaScript's `s.padStart(width, c)`. */
  function PadStart(s: string, width: nat, c: char): (r: string)
    ensures |r| == if |s| < width then width else |s|
    ensures EndsWith(r, s)
    ensures forall i | 0 <= i < |r| - |s| :: r[i] == c
  {
    if |s| < width then seq(width - |s|, _ => c) + s else s
  }

  /** `n` written with exactly `w` decimal digits, zero-padded (strftime's `%m`, `%d`). */
  function Fixed(n: nat, w: nat): (s: string)
    ensures |s| == w
    decreases w
  {
    if w == 0 then [] else Fixed(n / 10, w - 1) + [DigitChar(n % 10)]
  }

  function Pow10(w: nat): (p: nat)
    ensures p >= 1
  {
    if w == 0 then 1 else 10 * Pow10(w - 1)
  }

  lemma {:induction false} FixedInjective(a: nat, b: nat, w: nat)
    requires a < Pow10(w) && b < Pow10(w)
    requires Fixed(a, w) == Fixed(b, w)
    ensures a == b
    decreases w
  {
    if w > 0 {
      var fa, fb := Fixed(a, w), Fixed(b, w);
      assert fa[..w - 1] == Fixed(a / 10, w - 1) && fb[..w - 1] == Fixed(b / 10, w - 1);
      FixedInjective(a / 10, b / 10, w - 1);
      assert fa[w - 1] == DigitChar(a % 10) && fb[w - 1] == DigitChar(b % 10);
    }
  }

  /** For fixed-width numerals, string order is numeric order. */
  lemma {:induction false} FixedLexOrder(a: nat, b: nat, w: nat)
    requires a < Pow10(w) && b < Pow10(w)
    ensures LexLess(Fixed(a, w), Fixed(b, w)) <==> a < b
    decreases w
  {
    if w == 0 {
    } else {
      var ha, hb := Fixed(a / 10, w - 1), Fixed(b / 10, w - 1);
      var ca, cb := [DigitChar(a % 10)], [DigitChar(b % 10)];
      LexConcat(ha, ca, hb, cb);
      FixedLexOrder(a / 10, b / 10, w - 1);
      if ha == hb {
        FixedInjective(a / 10, b / 10, w - 1);
      }
      assert LexLess(ca, cb) <==> a % 10 < b % 10;
    }
  }

  /** Python writes a four-digit year with exactly four digits. */
  lemma DecFourDigits(y: nat)
    requires 1000 <= y <= 9999
    ensures Dec(y) == Fixed(y, 4)
  {
    assert Dec(y) == Dec(y / 10) + [DigitChar(y % 10)];
    assert Dec(y / 10) == Dec(y / 100) + [DigitChar((y / 10) % 10)];
    assert Dec(y / 100) == Dec(y / 1000) + [DigitChar((y / 100) % 10)];
  }

  // ---------------------------------------------------------------------------
  // ASCII approximation of Python's case mapping, white space and digits

  predicate IsUpper(c: char) { 'A' <= c <= 'Z' }
  predicate IsLower(c: char) { 'a' <= c <= 'z' }
  predicate IsCased(c: char) { IsUpper(c) || IsLower(c) }

  function ToLower(c: char): char {
    if IsUpper(c) then (c as int + 32) as char else c
  }

  function ToUpper(c: char): char {
    if IsLower(c) then (c as int - 32) as char else c
  }

  /** `str.lower()`. */
  function Lower(s: string): (r: string)
    ensures |r| == |s|
    ensures forall i | 0 <= i < |s| :: r[i] == ToLower(s[i])
  {
    seq(|s|, i requires 0 <= i < |s| => ToLower(s[i]))
  }

  /** The characters `str.strip()` removes: the ASCII white space of `str.isspace()`. */
  predicate IsSpace(c: char) {
    c == ' ' || '\t' <= c <= '\r' || '\U{1C}' <= c <= '\U{1F}'
  }

  function TrimStart(s: string): (r: string)
    ensures |r| <= |s| && r == s[|s| - |r|..]
    ensures r == [] || !IsSpace(r[0])
    ensures forall i | 0 <= i < |s| - |r| :: IsSpace(s[i])
  {
    if s != [] && IsSpace(s[0]) then TrimStart(s[1..]) else s
  }

  function TrimEnd(s: string): (r: string)
    ensures |r| <= |s| && r == s[..|r|]
    ensures r == [] || !IsSpace(r[|r| - 1])
    ensures forall i | |r| <= i < |s| :: IsSpace(s[i])
  {
    if s != [] && IsSpace(s[|s| - 1]) then TrimEnd(s[..|s| - 1]) else s
  }

  /** `str.strip()`. */
  function Strip(s: string): string {
    TrimEnd(TrimStart(s))
  }

  /** `str.title()`: a cased character becomes upper case after an uncased one and lower case after a cased one. */
  function Title(s: string): (r: string)
    ensures |r| == |s|
  {
    TitleAfter(s, false)
  }

  function TitleAfter(s: string, previousCased: bool): (r: string)
    ensures |r| == |s|
    decreases |s|
  {
    if s == [] then []
    else [if previousCased then ToLower(s[0]) else ToUpper(s[0])] + TitleAfter(s[1..], IsCased(s[0]))
  }

  /** `str.isdigit()`: non-empty and made of digits only. */
  predicate IsDigitString(s: string) {
    |s| > 0 && forall i | 0 <= i < |s| :: '0' <= s[i] <= '9'
  }
}
