/**
 * The JavaScript string primitives the payment-order code relies on:
 * `\s` and `trim`, ASCII digits, `toUpperCase`, decimal rendering of
 * integers and `parseFloat`.  Strings are sequences of Unicode scalar values.
 */
module JsText {
  import opened Results

  /** Characters matched by `\s` in a regular expression and stripped by `String.prototype.trim`. */
  predicate IsJsSpace(c: char) {
    || c == ' ' || c == '\t' || c == '\n' || c == '\r' || c == '\U{B}' || c == '\U{C}'
    || c == '\U{A0}' || c == '\U{1680}' || ('\U{2000}' <= c <= '\U{200A}')
    || c == '\U{2028}' || c == '\U{2029}' || c == '\U{202F}' || c == '\U{205F}'
    || c == '\U{3000}' || c == '\U{FEFF}'
  }

  /** A value counts as blank when nothing but whitespace is left after `trim()`. */
  predicate IsBlank(s: string) {
    forall i :: 0 <= i < |s| ==> IsJsSpace(s[i])
  }

  /** The number of whitespace characters at the start of `s`. */
  function LeadingSpaces(s: string): (n: nat)
    ensures n <= |s|
    ensures forall i :: 0 <= i < n ==> IsJsSpace(s[i])
    ensures n == |s| || !IsJsSpace(s[n])
  {
    if s != [] && IsJsSpace(s[0]) then
      var m := LeadingSpaces(s[1..]);
      assert forall i :: 1 <= i <= m ==> s[i] == s[1..][i - 1];
      1 + m
    else 0
  }

  /** The number of whitespace characters at the end of `s`. */
  function TrailingSpaces(s: string): (n: nat)
    ensures n <= |s|
    ensures forall i :: |s| - n <= i < |s| ==> IsJsSpace(s[i])
    ensures n == |s| || !IsJsSpace(s[|s| - n - 1])
  {
    if s != [] && IsJsSpace(s[|s| - 1]) then
      var m := TrailingSpaces(s[..|s| - 1]);
      assert forall i :: |s| - 1 - m <= i < |s| - 1 ==> s[i] == s[..|s| - 1][i];
      1 + m
    else 0
  }

  /** `String.prototype.trimStart`. */
  function TrimStart(s: string): string {
    s[LeadingSpaces(s)..]
  }

  /** `String.prototype.trimEnd`. */
  function TrimEnd(s: string): string {
    s[..|s| - TrailingSpaces(s)]
  }

  /**
   * `String.prototype.trim`: the longest slice that neither starts nor ends
   * with whitespace; empty exactly when the value is blank.
   */
  function Trim(s: string): (r: string)
    ensures LeadingSpaces(s) + |r| <= |s| && r == s[LeadingSpaces(s)..LeadingSpaces(s) + |r|]
    ensures r == [] || (!IsJsSpace(r[0]) && !IsJsSpace(r[|r| - 1]))
    ensures r == [] <==> IsBlank(s)
  {
    var t := TrimStart(s);
    var r := TrimEnd(t);
    TrimSlice(s, t, r);
    TrimBlank(s, t, r);
    r
  }

  lemma {:induction false} TrimSlice(s: string, t: string, r: string)
    requires t == TrimStart(s) && r == TrimEnd(t)
    ensures LeadingSpaces(s) + |r| <= |s| && r == s[LeadingSpaces(s)..LeadingSpaces(s) + |r|]
    ensures r == [] || (!IsJsSpace(r[0]) && !IsJsSpace(r[|r| - 1]))
  {
    var a := LeadingSpaces(s);
    assert s[a..][..|r|] == s[a..a + |r|];
    if r != [] {
      assert r[0] == s[a];
    }
  }

  lemma {:induction false} TrimBlank(s: string, t: string, r: string)
    requires t == TrimStart(s) && r == TrimEnd(t)
    ensures r == [] <==> IsBlank(s)
  {
    var a := LeadingSpaces(s);
    if IsBlank(s) {
      assert a == |s|;
    } else {
      var i :| 0 <= i < |s| && !IsJsSpace(s[i]);
      assert a <= i;
      assert t[0] == s[a];
      assert TrailingSpaces(t) < |t|;
    }
  }

  /** `s.replace(/\s/g, '')`: every whitespace character removed, the rest kept in order. */
  function RemoveWhitespace(s: string): (r: string)
    ensures |r| <= |s|
    ensures forall i :: 0 <= i < |r| ==> !IsJsSpace(r[i])
    ensures forall c :: c in r ==> c in s
  {
    if s == [] then []
    else if IsJsSpace(s[0]) then RemoveWhitespace(s[1..])
    else [s[0]] + RemoveWhitespace(s[1..])
  }

  lemma {:induction false} RemoveWhitespaceAppend(a: string, b: string)
    ensures RemoveWhitespace(a + b) == RemoveWhitespace(a) + RemoveWhitespace(b)
  {
    if a != [] {
      assert (a + b)[1..] == a[1..] + b;
      RemoveWhitespaceAppend(a[1..], b);
    } else {
      assert a + b == b;
    }
  }

  lemma {:induction false} RemoveWhitespaceKeeps(s: string)
    requires forall i :: 0 <= i < |s| ==> !IsJsSpace(s[i])
    ensures RemoveWhitespace(s) == s
  {
    if s != [] {
      RemoveWhitespaceKeeps(s[1..]);
    }
  }

  /** `RemoveWhitespace` yields nothing exactly when the value is blank. */
  lemma {:induction false} RemoveWhitespaceEmptyIffBlank(s: string)
    ensures RemoveWhitespace(s) == [] <==> IsBlank(s)
  {
    if s != [] {
      RemoveWhitespaceEmptyIffBlank(s[1..]);
      assert IsBlank(s) <==> IsJsSpace(s[0]) && IsBlank(s[1..]) by {
        if IsJsSpace(s[0]) && IsBlank(s[1..]) {
          forall i | 0 < i < |s| ensures IsJsSpace(s[i]) {
            assert s[i] == s[1..][i - 1];
          }
        }
      }
    }
  }

  /**
   * `toUpperCase` on one character.  ASCII letters map to their capitals; the
   * non-ASCII characters whose upper case is made only of ASCII letters are
   * listed one by one (dotless i, long s, sharp s and the Latin ligatures
   * U+FB00 to U+FB06).  Every other character is kept: its real upper case
   * contains a non-ASCII character whenever it differs from it.
   */
  function UpperChar(c: char): (r: string)
    ensures 1 <= |r| <= 3
  {
    if 'a' <= c <= 'z' then [(c as int - 32) as char]
    else if c == '\U{131}' then "I"
    else if c == '\U{17F}' then "S"
    else if c == '\U{DF}' then "SS"
    else if c == '\U{FB00}' then "FF"
    else if c == '\U{FB01}' then "FI"
    else if c == '\U{FB02}' then "FL"
    else if c == '\U{FB03}' then "FFI"
    else if c == '\U{FB04}' then "FFL"
    else if c == '\U{FB05}' || c == '\U{FB06}' then "ST"
    else [c]
  }

  predicate IsUpperAscii(c: char) {
    'A' <= c <= 'Z'
  }

  function ToUpper(s: string): (r: string)
    ensures |r| >= |s|
  {
    if s == [] then [] else UpperChar(s[0]) + ToUpper(s[1..])
  }

  lemma {:induction false} UpperCharFixes(c: char)
    ensures UpperChar(c) == [c] || forall i :: 0 <= i < |UpperChar(c)| ==> IsUpperAscii(UpperChar(c)[i])
    ensures !IsJsSpace(c) ==> forall i :: 0 <= i < |UpperChar(c)| ==> !IsJsSpace(UpperChar(c)[i])
    ensures ToUpper(UpperChar(c)) == UpperChar(c)
  {
    var u := UpperChar(c);
    UpperCharCapitals(c);
    if u != [c] {
      CapitalsFixed(u);
    } else {
      assert ToUpper(u) == UpperChar(c) + ToUpper(u[1..]);
    }
  }

  lemma {:induction false} UpperCharCapitals(c: char)
    ensures UpperChar(c) == [c] || forall i :: 0 <= i < |UpperChar(c)| ==> IsUpperAscii(UpperChar(c)[i])
  {
  }

  /** Upper-casing leaves a string of ASCII capitals as it is. */
  lemma {:induction false} CapitalsFixed(u: string)
    requires forall i :: 0 <= i < |u| ==> IsUpperAscii(u[i])
    ensures ToUpper(u) == u
  {
    if u != [] {
      CapitalsFixed(u[1..]);
      assert UpperChar(u[0]) == [u[0]];
      assert u == [u[0]] + u[1..];
    }
  }

  lemma {:induction false} ToUpperAppend(a: string, b: string)
    ensures ToUpper(a + b) == ToUpper(a) + ToUpper(b)
  {
    if a != [] {
      assert (a + b)[1..] == a[1..] + b;
      ToUpperAppend(a[1..], b);
    } else {
      assert a + b == b;
    }
  }

  /** Upper-casing twice is upper-casing once. */
  lemma {:induction false} ToUpperIdempotent(s: string)
    ensures ToUpper(ToUpper(s)) == ToUpper(s)
  {
    if s != [] {
      UpperCharFixes(s[0]);
      ToUpperAppend(UpperChar(s[0]), ToUpper(s[1..]));
      ToUpperIdempotent(s[1..]);
    }
  }

  /** Upper-casing never creates whitespace. */
  lemma {:induction false} ToUpperNoSpace(s: string)
    requires forall i :: 0 <= i < |s| ==> !IsJsSpace(s[i])
    ensures forall i :: 0 <= i < |ToUpper(s)| ==> !IsJsSpace(ToUpper(s)[i])
  {
    if s != [] {
      UpperCharFixes(s[0]);
      ToUpperNoSpace(s[1..]);
      var u, t := UpperChar(s[0]), ToUpper(s[1..]);
      forall i | 0 <= i < |u + t| ensures !IsJsSpace((u + t)[i]) {
        if i >= |u| { assert (u + t)[i] == t[i - |u|]; }
      }
    }
  }

  lemma {:induction false} UpperCharOfSpace(c: char)
    requires IsJsSpace(c)
    ensures UpperChar(c) == [c]
  {
  }

  /** Removing whitespace and upper-casing can be done in either order. */
  lemma {:induction false} RemoveWhitespaceToUpperCommute(s: string)
    ensures RemoveWhitespace(ToUpper(s)) == ToUpper(RemoveWhitespace(s))
  {
    if s != [] {
      var c, rest := s[0], s[1..];
      var u := UpperChar(c);
      assert ToUpper(s) == u + ToUpper(rest);
      RemoveWhitespaceAppend(u, ToUpper(rest));
      RemoveWhitespaceToUpperCommute(rest);
      if IsJsSpace(c) {
        UpperCharOfSpace(c);
        assert RemoveWhitespace(u) == RemoveWhitespace([c][1..]) == [];
        assert RemoveWhitespace(s) == RemoveWhitespace(rest);
      } else {
        UpperCharFixes(c);
        RemoveWhitespaceKeeps(u);
        assert RemoveWhitespace(s) == [c] + RemoveWhitespace(rest);
        ToUpperAppend([c], RemoveWhitespace(rest));
        assert ToUpper([c]) == u + ToUpper([]);
      }
    }
  }

  /** A value with no whitespace at either end is its own `trim()`. */
  lemma {:induction false} TrimKeeps(s: string)
    requires s != [] && !IsJsSpace(s[0]) && !IsJsSpace(s[|s| - 1])
    ensures Trim(s) == s
  {
  }

  predicate IsDigit(c: char) {
    '0' <= c <= '9'
  }

  predicate AllDigits(s: string) {
    forall i :: 0 <= i < |s| ==> IsDigit(s[i])
  }

  function DigitValue(c: char): nat
    requires IsDigit(c)
  {
    c as int - '0' as int
  }

  function Digit(d: nat): (c: char)
    requires d < 10
    ensures IsDigit(c) && DigitValue(c) == d
  {
    ('0' as int + d) as char
  }

  function Pow10(n: nat): (p: nat)
    ensures p >= 1
  {
    if n == 0 then 1 else 10 * Pow10(n - 1)
  }

  /** The number a string of decimal digits denotes. */
  function DigitsValue(s: string): nat
    requires AllDigits(s)
  {
    if s == [] then 0 else 10 * DigitsValue(s[..|s| - 1]) + DigitValue(s[|s| - 1])
  }

  lemma {:induction false} DigitsValueBound(s: string)
    requires AllDigits(s)
    ensures DigitsValue(s) < Pow10(|s|)
  {
    if s != [] {
      DigitsValueBound(s[..|s| - 1]);
    }
  }

  /** Reading a concatenation of digit strings: the left part is shifted by the right part's length. */
  lemma {:induction false} DigitsValueAppend(a: string, b: string)
    requires AllDigits(a) && AllDigits(b)
    ensures AllDigits(a + b)
    ensures DigitsValue(a + b) == DigitsValue(a) * Pow10(|b|) + DigitsValue(b)
  {
    if b != [] {
      var b', last := b[..|b| - 1], b[|b| - 1];
      var ab := a + b;
      assert ab[..|ab| - 1] == a + b';
      assert ab[|ab| - 1] == last;
      DigitsValueAppend(a, b');
      var va, vb, p := DigitsValue(a), DigitsValue(b'), Pow10(|b'|);
      assert DigitsValue(ab) == 10 * DigitsValue(a + b') + DigitValue(last);
      assert DigitsValue(a + b') == va * p + vb;
      assert DigitsValue(b) == 10 * vb + DigitValue(last);
      assert Pow10(|b|) == 10 * p;
      MulAssoc(10, va, p);
    } else {
      assert a + b == a;
    }
  }

  lemma {:induction false} MulAssoc(x: int, y: int, z: int)
    ensures x * (y * z) == y * (x * z)
  {
  }

  /** The shortest decimal rendering of a natural number, as template literals produce it. */
  function NatToDecimal(n: nat): (r: string)
    ensures 1 <= |r| && AllDigits(r)
    ensures r[0] != '0' || r == "0"
  {
    if n < 10 then [Digit(n)] else NatToDecimal(n / 10) + [Digit(n % 10)]
  }

  /** Rendering a number in decimal and reading it back gives the number. */
  lemma {:induction false} NatToDecimalRoundTrip(n: nat)
    ensures DigitsValue(NatToDecimal(n)) == n
  {
    if n >= 10 {
      var r := NatToDecimal(n);
      assert r[..|r| - 1] == NatToDecimal(n / 10);
      NatToDecimalRoundTrip(n / 10);
    }
  }

  lemma {:induction false} NatToDecimalLength(n: nat, k: nat)
    requires n < Pow10(k)
    ensures |NatToDecimal(n)| <= if k == 0 then 1 else k
  {
    if n >= 10 {
      NatToDecimalLength(n / 10, k - 1);
    }
  }

  /** The zero-padded rendering used for the fields of an ISO date (`0005`, `01`). */
  function ZeroPad(n: nat, width: nat): (r: string)
    requires n < Pow10(width)
    ensures |r| == width || (width == 0 && r == "0")
    ensures AllDigits(r) && DigitsValue(r) == n
  {
    var d := NatToDecimal(n);
    var k := if width > |d| then width - |d| else 0;
    PaddedNumeral(n, width, d, k);
    Zeros(k) + d
  }

  /** The rendering of `n` behind the zeros that bring it to `width` is a numeral of `n` that wide (or `0` at width 0). */
  lemma {:induction false} PaddedNumeral(n: nat, width: nat, d: string, k: nat)
    requires n < Pow10(width) && d == NatToDecimal(n)
    requires k == if width > |d| then width - |d| else 0
    ensures |Zeros(k) + d| == width || (width == 0 && Zeros(k) + d == "0")
    ensures AllDigits(Zeros(k) + d) && DigitsValue(Zeros(k) + d) == n
  {
    NatToDecimalLength(n, width);
    NatToDecimalRoundTrip(n);
    var zeros := Zeros(k);
    LeadingZeros(zeros, d);
    if width == 0 {
      assert n == 0 && d == [Digit(0)] && zeros == [];
    }
  }

  /** Zeros in front of a numeral do not change its value. */
  lemma {:induction false} LeadingZeros(zeros: string, d: string)
    requires AllDigits(zeros) && DigitsValue(zeros) == 0 && AllDigits(d)
    ensures AllDigits(zeros + d) && DigitsValue(zeros + d) == DigitsValue(d)
  {
    DigitsValueAppend(zeros, d);
  }

  /** `k` zero digits. */
  function Zeros(k: nat): (z: string)
    ensures |z| == k && AllDigits(z) && DigitsValue(z) == 0
  {
    if k == 0 then []
    else
      var z := Zeros(k - 1) + ['0'];
      assert z[..k - 1] == Zeros(k - 1);
      z
  }

  /** Length of the run of ASCII digits at the start of `s`. */
  function DigitRun(s: string): (n: nat)
    ensures n <= |s| && AllDigits(s[..n])
    ensures n < |s| ==> !IsDigit(s[n])
  {
    if s != [] && IsDigit(s[0]) then
      var k := DigitRun(s[1..]);
      assert s[..1 + k] == [s[0]] + s[1..][..k];
      1 + k
    else 0
  }

  lemma {:induction false} DigitRunAll(s: string)
    requires AllDigits(s)
    ensures DigitRun(s) == |s|
  {
    if s != [] {
      DigitRunAll(s[1..]);
    }
  }

  /**
   * `parseFloat` without a sign: the longest prefix of the form `d+`, `d+.d*` or
   * `.d+`; nothing when there is no digit (the source's NaN).
   */
  function ParseUnsignedDecimal(t: string): (r: Option<real>)
    ensures r.Some? ==> r.value >= 0.0
    ensures r.None? <==> DigitRun(t) == 0 && (t == [] || t[0] != '.' || DigitRun(t[1..]) == 0)
  {
    var n := DigitRun(t);
    var whole := DigitsValue(t[..n]) as real;
    if n < |t| && t[n] == '.' then
      var m := DigitRun(t[n + 1..]);
      if n == 0 && m == 0 then None
      else Some(whole + DigitsValue(t[n + 1..][..m]) as real / Pow10(m) as real)
    else if n == 0 then None
    else Some(whole)
  }

  /**
   * `parseFloat`: leading whitespace is skipped, an optional sign is read, then
   * the longest decimal prefix.  `None` stands for NaN.
   */
  function ParseFloat(s: string): (r: Option<real>)
    ensures r.Some? && r.value < 0.0 ==> TrimStart(s) != [] && TrimStart(s)[0] == '-'
  {
    var t := TrimStart(s);
    if t != [] && (t[0] == '+' || t[0] == '-') then
      match ParseUnsignedDecimal(t[1..])
      case None => None
      case Some(v) => Some(if t[0] == '-' then -v else v)
    else ParseUnsignedDecimal(t)
  }

  /** `parseFloat(x) || 0`: NaN and zero both become 0. */
  function ParseFloatOrZero(s: string): real {
    ParseFloat(s).GetOr(0.0)
  }

  /** `Math.floor(Math.random() * 1000)`: a random suffix, taken as a parameter. */
  type Suffix = n: nat | n < 1000

  /** A blank value is not a number. */
  lemma {:induction false} ParseFloatBlank(s: string)
    requires IsBlank(s)
    ensures ParseFloat(s).None?
  {
  }

  /** `parseFloat` reads back every rendered natural number. */
  lemma {:induction false} ParseFloatOfDecimal(n: nat)
    ensures ParseFloat(NatToDecimal(n)) == Some(n as real)
  {
    var d := NatToDecimal(n);
    assert !IsJsSpace(d[0]) && d[0] != '+' && d[0] != '-';
    assert TrimStart(d) == d;
    DigitRunAll(d);
    assert d[..DigitRun(d)] == d;
    NatToDecimalRoundTrip(n);
    assert ParseUnsignedDecimal(d) == Some(n as real);
  }

  /** The digit run of digits followed by something else stops where the digits do. */
  lemma {:induction false} DigitRunPrefix(d: string, t: string)
    requires AllDigits(d) && (t == [] || !IsDigit(t[0]))
    ensures DigitRun(d + t) == |d|
  {
    if d != [] {
      assert (d + t)[1..] == d[1..] + t;
      DigitRunPrefix(d[1..], t);
    } else {
      assert d + t == t;
    }
  }

  /** The number a numeral `d.f` denotes. */
  function FractionValue(d: string, f: string): real
    requires AllDigits(d) && AllDigits(f)
  {
    DigitsValue(d) as real + DigitsValue(f) as real / Pow10(|f|) as real
  }

  /** The unsigned reading of `d.f` followed by text that does not continue the fraction. */
  lemma {:induction false} UnsignedOfFraction(d: string, f: string, t: string)
    requires |d| >= 1 && AllDigits(d) && AllDigits(f) && (t == [] || !IsDigit(t[0]))
    ensures ParseUnsignedDecimal(d + "." + f + t) == Some(FractionValue(d, f))
  {
    var s := d + "." + f + t;
    assert s == d + ("." + f + t);
    DigitRunPrefix(d, "." + f + t);
    assert s[..|d|] == d && s[|d|] == '.';
    assert s[|d| + 1..] == f + t;
    DigitRunPrefix(f, t);
    assert (f + t)[..|f|] == f;
  }

  /**
   * `parseFloat` reads a numeral with a fraction, such as the `6200.00` that
   * `toFixed(2)` writes, and ignores whatever text follows it (`12.5abc` is
   * 12.5).
   */
  lemma {:induction false} ParseFloatOfFraction(d: string, f: string, t: string)
    requires |d| >= 1 && AllDigits(d) && AllDigits(f) && (t == [] || !IsDigit(t[0]))
    ensures ParseFloat(d + "." + f + t) == Some(FractionValue(d, f))
  {
    UnsignedOfFraction(d, f, t);
    StartsWithDigit(d, "." + f + t);
    assert d + "." + f + t == d + ("." + f + t);
    ParseFloatReads(d + "." + f + t, FractionValue(d, f));
  }

  /** With a minus in front, the same numeral reads as the negation (`-12.50` is -12.5). */
  lemma {:induction false} ParseFloatOfNegativeFraction(d: string, f: string, t: string)
    requires |d| >= 1 && AllDigits(d) && AllDigits(f) && (t == [] || !IsDigit(t[0]))
    ensures ParseFloat("-" + (d + "." + f + t)) == Some(-FractionValue(d, f))
  {
    UnsignedOfFraction(d, f, t);
    StartsWithDigit(d, "." + f + t);
    assert d + "." + f + t == d + ("." + f + t);
    ParseFloatNegates(d + "." + f + t, FractionValue(d, f));
  }

  lemma StartsWithDigit(d: string, rest: string)
    requires |d| >= 1 && AllDigits(d)
    ensures IsDigit((d + rest)[0])
  {
  }

  /** Text that starts with a digit is read unsigned as it stands. */
  lemma {:induction false} ParseFloatReads(s: string, v: real)
    requires s != [] && IsDigit(s[0]) && ParseUnsignedDecimal(s) == Some(v)
    ensures ParseFloat(s) == Some(v)
  {
    assert !IsJsSpace(s[0]) && s[0] != '+' && s[0] != '-';
    NothingToTrim(s);
  }

  /** Text that starts with a digit reads, with a minus in front, as the negation of its unsigned value. */
  lemma {:induction false} ParseFloatNegates(s: string, v: real)
    requires s != [] && IsDigit(s[0]) && ParseUnsignedDecimal(s) == Some(v)
    ensures ParseFloat("-" + s) == Some(-v)
  {
    var neg := "-" + s;
    assert !IsJsSpace(neg[0]);
    NothingToTrim(neg);
    assert neg[1..] == s;
  }

  lemma {:induction false} NothingToTrim(s: string)
    requires s != [] && !IsJsSpace(s[0])
    ensures TrimStart(s) == s
  {
    assert LeadingSpaces(s) == 0;
  }

  /** `parseFloat` reads an integer numeral and ignores the text after it when that text starts with neither a digit nor a point. */
  lemma {:induction false} ParseFloatOfInteger(d: string, t: string)
    requires |d| >= 1 && AllDigits(d) && (t == [] || (!IsDigit(t[0]) && t[0] != '.'))
    ensures ParseFloat(d + t) == Some(DigitsValue(d) as real)
  {
    var s := d + t;
    DigitRunPrefix(d, t);
    assert s[..|d|] == d;
    assert s[0] == d[0];
    ParseFloatReads(s, DigitsValue(d) as real);
  }

  /** `s.replace(/c/g, rep)`: every occurrence of `c`, left to right, becomes `rep`. */
  function ReplaceAll(s: string, c: char, rep: string): (r: string)
    ensures c !in rep ==> c !in r
    ensures forall d :: d in r ==> d in rep || (d in s && d != c)
  {
    if s == [] then []
    else (if s[0] == c then rep else [s[0]]) + ReplaceAll(s[1..], c, rep)
  }

  /** Replacing is done piece by piece: it distributes over concatenation. */
  lemma {:induction false} ReplaceAllAppend(a: string, b: string, c: char, rep: string)
    ensures ReplaceAll(a + b, c, rep) == ReplaceAll(a, c, rep) + ReplaceAll(b, c, rep)
  {
    if a != [] {
      assert (a + b)[1..] == a[1..] + b;
      ReplaceAllAppend(a[1..], b, c, rep);
    } else {
      assert a + b == b;
    }
  }

  /** The character alone becomes the replacement. */
  lemma ReplaceAllOne(c: char, rep: string)
    ensures ReplaceAll([c], c, rep) == rep
  {
    assert ReplaceAll([c], c, rep) == rep + ReplaceAll([], c, rep);
  }

  /** A text without `c` is left alone. */
  lemma {:induction false} ReplaceAllAbsent(s: string, c: char, rep: string)
    requires c !in s
    ensures ReplaceAll(s, c, rep) == s
  {
    if s != [] {
      assert s == [s[0]] + s[1..];
      ReplaceAllAbsent(s[1..], c, rep);
    }
  }
}
