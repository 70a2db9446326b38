/**
 * The string and number conversions of the two languages the system is written in, restricted
 * to ASCII: JavaScript's `toLowerCase`, `includes`, `parseInt`, `Number`, and Python's
 * `str.lower`, `int(str)` and `str(int)`.
 */
module Text {
  import opened Wrappers

  // ----- characters -----

  predicate IsDigit(c: char) { '0' <= c <= '9' }

  /** Whose whitespace a trim removes: the two languages disagree on four control characters. */
  datatype Lengua = Python | JavaScript

  /**
   * The whitespace that `str.strip()` (Python) and `String.prototype.trim()` (JavaScript)
   * remove, ASCII part only: both remove space, tab, line feed, carriage return, vertical tab
   * and form feed; only Python also removes the separators `\x1c` to `\x1f`.
   */
  predicate IsSpace(c: char, l: Lengua)
  {
    || c == ' ' || c == '\t' || c == '\n' || c == '\r' || c == '\U{B}' || c == '\U{C}'
    || (l == Python && '\U{1C}' <= c <= '\U{1F}')
  }

  function LowerChar(c: char): char
  {
    if 'A' <= c <= 'Z' then (c as int + 32) as char else c
  }

  function DigitValue(c: char): nat
    requires IsDigit(c)
  {
    c as int - '0' as int
  }

  function DigitChar(d: nat): char
    requires d < 10
  {
    ('0' as int + d) as char
  }

  // ----- case folding -----

  /** `s.toLowerCase()` (JavaScript) and `s.lower()` (Python) on ASCII letters. */
  function ToLower(s: string): (r: string)
    ensures |r| == |s|
    ensures forall i :: 0 <= i < |s| ==> r[i] == LowerChar(s[i])
  {
    if s == [] then [] else [LowerChar(s[0])] + ToLower(s[1..])
  }

  lemma ToLowerIdempotent(s: string)
    ensures ToLower(ToLower(s)) == ToLower(s)
  {
  }

  // ----- ordering -----

  /**
   * The order `localeCompare` is taken to follow: code-point lexicographic order, a prefix
   * before every longer string it begins.
   */
  predicate Lexico(a: string, b: string)
  {
    a == [] || (b != [] && (a[0] < b[0] || (a[0] == b[0] && Lexico(a[1..], b[1..]))))
  }

  lemma {:induction false} LexicoTotal(a: string, b: string)
    ensures Lexico(a, b) || Lexico(b, a)
  {
    if a != [] && b != [] && a[0] == b[0] {
      LexicoTotal(a[1..], b[1..]);
    }
  }

  lemma {:induction false} LexicoTransitivo(a: string, b: string, c: string)
    requires Lexico(a, b) && Lexico(b, c)
    ensures Lexico(a, c)
  {
    if a != [] && a[0] == b[0] && b[0] == c[0] {
      LexicoTransitivo(a[1..], b[1..], c[1..]);
    }
  }

  lemma {:induction false} LexicoAntisimetrico(a: string, b: string)
    requires Lexico(a, b) && Lexico(b, a)
    ensures a == b
  {
    if a != [] {
      LexicoAntisimetrico(a[1..], b[1..]);
      assert a == [a[0]] + a[1..] && b == [b[0]] + b[1..];
    }
  }

  // ----- substring search -----

  predicate OccursAt(s: string, sub: string, i: int)
  {
    0 <= i && i + |sub| <= |s| && s[i..i + |sub|] == sub
  }

  /** The reference meaning of "`sub` is a substring of `s`". */
  ghost predicate Contains(s: string, sub: string)
  {
    exists i :: OccursAt(s, sub, i)
  }

  /** `s.includes(sub)`, scanning from the left as the engine does. */
  predicate Includes(s: string, sub: string)
    decreases |s|
  {
    (|sub| <= |s| && s[..|sub|] == sub) || (|s| > 0 && Includes(s[1..], sub))
  }

  lemma {:induction false} IncludesIsContains(s: string, sub: string)
    ensures Includes(s, sub) <==> Contains(s, sub)
    decreases |s|
  {
    if |sub| <= |s| && s[..|sub|] == sub {
      assert OccursAt(s, sub, 0);
    } else if |s| > 0 {
      IncludesIsContains(s[1..], sub);
      if Includes(s[1..], sub) {
        var i :| OccursAt(s[1..], sub, i);
        assert s[1..][i..i + |sub|] == s[i + 1..i + 1 + |sub|];
        assert OccursAt(s, sub, i + 1);
      }
      if Contains(s, sub) {
        var i :| OccursAt(s, sub, i);
        assert i != 0;
        assert s[1..][i - 1..i - 1 + |sub|] == s[i..i + |sub|];
        assert OccursAt(s[1..], sub, i - 1);
      }
    }
  }

  /** Every string includes the empty string: an empty search term filters nothing out. */
  lemma IncludesEmpty(s: string)
    ensures Includes(s, "")
  {
    assert s[..0] == "";
  }

  // ----- digit strings -----

  function DigitsValue(d: string): nat
    requires forall i :: 0 <= i < |d| ==> IsDigit(d[i])
  {
    if d == [] then 0 else DigitsValue(d[..|d| - 1]) * 10 + DigitValue(d[|d| - 1])
  }

  /** The longest prefix of `s` made of digits. */
  function LeadingDigits(s: string): (r: string)
    ensures |r| <= |s| && r == s[..|r|]
    ensures forall i :: 0 <= i < |r| ==> IsDigit(r[i])
    ensures |r| < |s| ==> !IsDigit(s[|r|])
  {
    if s != [] && IsDigit(s[0]) then [s[0]] + LeadingDigits(s[1..]) else []
  }

  function TrimStart(s: string, l: Lengua): string
  {
    if s != [] && IsSpace(s[0], l) then TrimStart(s[1..], l) else s
  }

  function TrimEnd(s: string, l: Lengua): string
  {
    if s != [] && IsSpace(s[|s| - 1], l) then TrimEnd(s[..|s| - 1], l) else s
  }

  function Trim(s: string, l: Lengua): string { TrimEnd(TrimStart(s, l), l) }

  predicate AllDigits(s: string) { forall i :: 0 <= i < |s| ==> IsDigit(s[i]) }

  // ----- Python int(str) and str(int) -----

  /**
   * Python's `int(s)` for a text argument: surrounding whitespace is ignored, one optional sign,
   * then one or more digits. `None` stands for the `ValueError` it raises otherwise.
   */
  function PyInt(s: string): (r: Option<int>)
  {
    var t := Trim(s, Python);
    var neg := t != [] && t[0] == '-';
    var body := if t != [] && (t[0] == '-' || t[0] == '+') then t[1..] else t;
    if body == [] || !AllDigits(body) then None
    else if neg then Some(-(DigitsValue(body) as int))
    else Some(DigitsValue(body))
  }

  /** `str(n)` for a non-negative integer: its decimal digits, no leading zeros. */
  function NatToString(n: nat): (r: string)
    ensures |r| > 0 && AllDigits(r)
    ensures DigitsValue(r) == n
    ensures |r| > 1 ==> r[0] != '0'
  {
    if n < 10 then [DigitChar(n)]
    else
      var p := NatToString(n / 10);
      assert (p + [DigitChar(n % 10)])[..|p|] == p;
      p + [DigitChar(n % 10)]
  }

  lemma TrimDigits(s: string, l: Lengua)
    requires AllDigits(s)
    ensures Trim(s, l) == s
  {
    if s != [] {
      assert !IsSpace(s[0], l) && !IsSpace(s[|s| - 1], l);
    }
  }

  /** Reading back what `str` wrote gives the number: `int(str(n)) == n`. */
  lemma PyIntOfNatToString(n: nat)
    ensures PyInt(NatToString(n)) == Some(n)
  {
    var r := NatToString(n);
    TrimDigits(r, Python);
    assert IsDigit(r[0]);
  }

  /** `str` is injective: different ids never render to the same text. */
  lemma NatToStringInjective(m: nat, n: nat)
    requires NatToString(m) == NatToString(n)
    ensures m == n
  {
  }

  // ----- JavaScript parseInt and Number -----

  /**
   * `parseInt(s)` (radix 10): leading whitespace skipped, one optional sign, then the longest run
   * of digits; `None` is `NaN` (no digit at all). Trailing text after the digits is ignored.
   */
  function ParseInt(s: string): (r: Option<int>)
    ensures r.None? <==> LeadingDigits(SignStripped(TrimStart(s, JavaScript))) == []
  {
    var t := TrimStart(s, JavaScript);
    var d := LeadingDigits(SignStripped(t));
    if d == [] then None
    else if t[0] == '-' then Some(-(DigitsValue(d) as int))
    else Some(DigitsValue(d))
  }

  function SignStripped(t: string): (r: string)
    ensures |r| <= |t|
  {
    if t != [] && (t[0] == '-' || t[0] == '+') then t[1..] else t
  }

  lemma ParseIntOfNatToString(n: nat)
    ensures ParseInt(NatToString(n)) == Some(n)
  {
    var r := NatToString(n);
    assert TrimStart(r, JavaScript) == r;
    assert SignStripped(r) == r;
    LeadingDigitsOfDigits(r);
  }

  lemma {:induction false} LeadingDigitsOfDigits(s: string)
    requires AllDigits(s)
    ensures LeadingDigits(s) == s
  {
    if s != [] {
      LeadingDigitsOfDigits(s[1..]);
    }
  }

  /**
   * `Number(s)` and the implicit conversion of `isNaN(s)` and `s <= 0`: surrounding whitespace
   * ignored, an empty or all-blank text is 0, otherwise an optional sign and a decimal numeral
   * with an optional fraction (`"12"`, `"2.5"`, `".5"`, `"3."`). `None` is `NaN`.
   */
  function ToNumber(s: string): (r: Option<real>)
  {
    var t := Trim(s, JavaScript);
    if t == [] then Some(0.0)
    else
      var body := SignStripped(t);
      var v := DecimalValue(body);
      if v.None? then None
      else if t[0] == '-' then Some(-v.value)
      else Some(v.value)
  }

  /** An unsigned decimal numeral `ddd`, `ddd.ddd`, `ddd.` or `.ddd`. */
  function DecimalValue(s: string): (r: Option<real>)
    ensures r.Some? ==> r.value >= 0.0
  {
    var ip := LeadingDigits(s);
    var rest := s[|ip|..];
    if rest == [] then
      (if ip == [] then None else Some(DigitsValue(ip) as real))
    else if rest[0] != '.' then None
    else
      var fp := rest[1..];
      if !AllDigits(fp) || (ip == [] && fp == []) then None
      else Some(DigitsValue(ip) as real + Fraction(fp))
  }

  /** The value of the digits after a decimal point, `0.d1d2...`. */
  function Fraction(d: string): (r: real)
    requires AllDigits(d)
    ensures 0.0 <= r < 1.0
  {
    if d == [] then 0.0 else (DigitValue(d[0]) as real + Fraction(d[1..])) / 10.0
  }

  /** For a plain numeral `Number` and `parseInt` agree. */
  lemma ToNumberOfNatToString(n: nat)
    ensures ToNumber(NatToString(n)) == Some(n as real)
  {
    var r := NatToString(n);
    TrimDigits(r, JavaScript);
    assert IsDigit(r[0]);
    assert SignStripped(r) == r;
    LeadingDigitsOfDigits(r);
    assert r[|r|..] == [];
    assert DecimalValue(r) == Some(n as real);
  }
}
