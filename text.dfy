/**
 * Decimal text as Python's f-strings produce it.
 *
 * `f"{n}"` for an `int` writes its decimal digits; `f"{x}"` for a `float`
 * holding a short decimal fraction writes the shortest decimal that denotes
 * it, with at least one digit after the point (`100.0`, `1024.5`). Numbers
 * that the rules read out of attribute text (`12.5mm`, `R1.5`) are decimal
 * tokens: a run of digits, optionally followed by a point and more digits.
 */
module PyText {

  /** An ASCII decimal digit; other Unicode digits are not recognised. */
  predicate IsDigit(c: char) { '0' <= c <= '9' }

  predicate AllDigits(s: string) { forall i :: 0 <= i < |s| ==> IsDigit(s[i]) }

  function DigitChar(d: nat): (c: char)
    requires d < 10
    ensures IsDigit(c)
  {
    "0123456789"[d]
  }

  function DigitValue(c: char): (d: nat)
    requires IsDigit(c)
    ensures d < 10
  {
    c as int - '0' as int
  }

  function Pow10(n: nat): (r: nat)
    ensures r >= 1
  {
    if n == 0 then 1 else 10 * Pow10(n - 1)
  }

  /** `str(n)` for a non-negative `int`. */
  function NatText(n: nat): (s: string)
    ensures |s| >= 1 && AllDigits(s)
    ensures s[0] == '0' ==> n == 0
  {
    if n < 10 then [DigitChar(n)] else NatText(n / 10) + [DigitChar(n % 10)]
  }

  /** `str(i)` for any `int`. */
  function IntText(i: int): (s: string)
    ensures |s| >= 1
    ensures s[0] == '-' <==> i < 0
  {
    if i < 0 then "-" + NatText(-i) else NatText(i)
  }

  /** `int(s)` for a string of decimal digits (an empty one reads as 0). */
  function ParseNat(s: string): nat
    requires AllDigits(s)
  {
    if s == [] then 0 else ParseNat(s[..|s| - 1]) * 10 + DigitValue(s[|s| - 1])
  }

  /** Reading back the digits of a number gives the number. */
  lemma {:induction false} NatTextRoundTrip(n: nat)
    ensures ParseNat(NatText(n)) == n
  {
    if n >= 10 {
      var s := NatText(n);
      assert s[..|s| - 1] == NatText(n / 10);
      NatTextRoundTrip(n / 10);
    }
  }

  /** Different numbers are written differently. */
  lemma NatTextInjective(m: nat, n: nat)
    requires NatText(m) == NatText(n)
    ensures m == n
  {
    NatTextRoundTrip(m);
    NatTextRoundTrip(n);
  }

  /** A run of digits followed by a non-digit splits the same way in two equal strings. */
  lemma DigitsThen(x: string, r: string, y: string, q: string)
    requires AllDigits(x) && AllDigits(y) && |r| >= 1 && |q| >= 1
    requires !IsDigit(r[0]) && !IsDigit(q[0]) && x + r == y + q
    ensures x == y && r == q
  {
    var k := if |x| < |y| then |x| else |y|;
    assert (x + r)[k] == (y + q)[k];
    assert |x| == |y|;
    assert x == (x + r)[..|x|] && y == (y + q)[..|y|];
    assert r == (x + r)[|x|..] && q == (y + q)[|y|..];
  }

  /** A number below `10^k` has at most `k` digits. */
  lemma {:induction false} NatTextLength(n: nat, k: nat)
    requires k >= 1 && n < Pow10(k)
    ensures |NatText(n)| <= k
  {
    if n >= 10 {
      assert k >= 2;
      assert n / 10 < Pow10(k - 1);
      NatTextLength(n / 10, k - 1);
    }
  }

  /** `s` written with leading zeros up to width `k`, as `%0kd` would. */
  function ZeroPad(s: string, k: nat): (r: string)
    requires |s| <= k
    ensures |r| == k
  {
    seq(k - |s|, _ => '0') + s
  }

  /** Leading zeros do not change the value of a digit string. */
  lemma {:induction false} LeadingZeros(z: nat, s: string)
    requires AllDigits(s)
    ensures AllDigits(seq(z, _ => '0') + s)
    ensures ParseNat(seq(z, _ => '0') + s) == ParseNat(s)
  {
    var t := seq(z, _ => '0') + s;
    if s == [] {
      assert t == seq(z, _ => '0');
      ZerosParse(z);
    } else {
      assert t[..|t| - 1] == seq(z, _ => '0') + s[..|s| - 1];
      LeadingZeros(z, s[..|s| - 1]);
    }
  }

  lemma {:induction false} ZerosParse(z: nat)
    ensures AllDigits(seq(z, _ => '0'))
    ensures ParseNat(seq(z, _ => '0')) == 0
  {
    if z > 0 {
      assert seq(z, _ => '0')[..z - 1] == seq(z - 1, _ => '0');
      ZerosParse(z - 1);
    }
  }

  /** A decimal fraction `mantissa / 10^places`, the value of a Python float read from decimal text. */
  datatype Decimal = Decimal(mantissa: nat, places: nat)

  function Value(d: Decimal): real
  {
    d.mantissa as real / Pow10(d.places) as real
  }

  /** A whole number as a decimal. */
  function Whole(n: nat): (d: Decimal)
    ensures Value(d) == n as real
  {
    Decimal(n, 0)
  }

  /**
   * A matched decimal token: the digits before the point and, when the token
   * has a point, the digits after it (`frac` is empty when it has none).
   */
  datatype Token = Token(whole: string, frac: string)

  predicate WellFormed(t: Token)
  {
    |t.whole| >= 1 && AllDigits(t.whole) && AllDigits(t.frac)
  }

  /** The token's text, as the regular expression matched it. */
  function TokenText(t: Token): string
  {
    t.whole + (if t.frac == "" then "" else "." + t.frac)
  }

  /** `float(text)` of the token. */
  function TokenDecimal(t: Token): (d: Decimal)
    requires WellFormed(t)
    ensures d.places == |t.frac|
  {
    assert AllDigits(t.whole + t.frac);
    Decimal(ParseNat(t.whole + t.frac), |t.frac|)
  }

  /** Digits appended to a digit string shift its value left by their count. */
  lemma {:induction false} ParseNatAppend(w: string, f: string)
    requires AllDigits(w) && AllDigits(f)
    ensures AllDigits(w + f)
    ensures ParseNat(w + f) == ParseNat(w) * Pow10(|f|) + ParseNat(f)
  {
    if f != [] {
      var g := f[..|f| - 1];
      assert (w + f)[..|w + f| - 1] == w + g;
      assert (w + f)[|w + f| - 1] == f[|f| - 1];
      ParseNatAppend(w, g);
      var d := DigitValue(f[|f| - 1]);
      assert ParseNat(w + f) == ParseNat(w + g) * 10 + d;
      ShiftTen(ParseNat(w), Pow10(|g|), ParseNat(g));
    } else {
      assert w + f == w;
    }
  }

  lemma ShiftTen(a: nat, b: nat, c: nat)
    ensures (a * b + c) * 10 == a * (10 * b) + c * 10
  {
  }

  lemma ShiftValue(w: nat, f: nat, q: nat)
    requires q >= 1
    ensures (w * q + f) as real / q as real == w as real + f as real / q as real
  {
    assert (w * q) as real == w as real * q as real;
    assert (w as real * q as real + f as real) / q as real == w as real + f as real / q as real;
  }

  /** `float(text)` of a token is the value its text denotes. */
  lemma TokenValue(t: Token)
    requires WellFormed(t)
    ensures Value(TokenDecimal(t)) == TextValue(t.whole, t.frac)
  {
    ParseNatAppend(t.whole, t.frac);
    var w := ParseNat(t.whole);
    var f := ParseNat(t.frac);
    var q := Pow10(|t.frac|);
    assert TokenDecimal(t).mantissa == w * q + f;
    ShiftValue(w, f, q);
  }

  /** `a + k * b` for a whole `a` and a natural factor `k`, kept exact. */
  function AddScaled(a: nat, k: nat, b: Decimal): (d: Decimal)
    ensures d.places == b.places
    ensures Value(d) == a as real + k as real * Value(b)
  {
    var p := Pow10(b.places) as real;
    assert (a * Pow10(b.places) + k * b.mantissa) as real / p
        == a as real * p / p + k as real * (b.mantissa as real / p);
    Decimal(a * Pow10(b.places) + k * b.mantissa, b.places)
  }

  /** The same value with the trailing zeros after the point dropped. */
  function Trim(d: Decimal): (r: Decimal)
    ensures r.places == 0 || r.mantissa % 10 != 0
    decreases d.places
  {
    if d.places > 0 && d.mantissa % 10 == 0 then Trim(Decimal(d.mantissa / 10, d.places - 1))
    else d
  }

  /** Dropping trailing zeros keeps the value. */
  lemma {:induction false} TrimValue(d: Decimal)
    ensures Value(Trim(d)) == Value(d)
    decreases d.places
  {
    if d.places > 0 && d.mantissa % 10 == 0 {
      var k := d.mantissa / 10;
      var p := Pow10(d.places - 1) as real;
      assert Value(d) == (10 * k) as real / (10.0 * p);
      assert (10 * k) as real / (10.0 * p) == k as real / p;
      TrimValue(Decimal(k, d.places - 1));
    }
  }

  /** The digits before the point in `str(x)`. */
  function WholeText(d: Decimal): (s: string)
    ensures |s| >= 1 && AllDigits(s)
  {
    var t := Trim(d);
    var q := Pow10(t.places);
    DivNat(t.mantissa, q);
    var w: nat := t.mantissa / q;
    NatText(w)
  }

  /** The quotient of a natural number by a positive one is natural. */
  lemma DivNat(m: int, q: int)
    requires m >= 0 && q > 0
    ensures m / q >= 0
  {
    assert m == (m / q) * q + m % q;
  }

  /** The digits after the point in `str(x)`: at least one, without trailing zeros unless it is `0`. */
  function FracText(d: Decimal): (s: string)
    ensures |s| >= 1 && AllDigits(s)
    ensures |s| == Trim(d).places || (Trim(d).places == 0 && s == "0")
  {
    var t := Trim(d);
    if t.places == 0 then "0"
    else
      var f := t.mantissa % Pow10(t.places);
      NatTextLength(f, t.places);
      LeadingZeros(t.places - |NatText(f)|, NatText(f));
      ZeroPad(NatText(f), t.places)
  }

  /** `f"{x}"` for a float `x` with the decimal value `d`. */
  function FloatText(d: Decimal): string
  {
    WholeText(d) + "." + FracText(d)
  }

  /** The value a decimal text `whole.frac` denotes. */
  function TextValue(whole: string, frac: string): real
    requires AllDigits(whole) && AllDigits(frac)
  {
    ParseNat(whole) as real + ParseNat(frac) as real / Pow10(|frac|) as real
  }

  /** The digits after the point read back as the remainder below the point. */
  lemma FracTextValue(d: Decimal)
    ensures ParseNat(FracText(d)) as real / Pow10(|FracText(d)|) as real
         == (Trim(d).mantissa % Pow10(Trim(d).places)) as real / Pow10(Trim(d).places) as real
  {
    var t := Trim(d);
    var f := t.mantissa % Pow10(t.places);
    if t.places > 0 {
      NatTextRoundTrip(f);
      NatTextLength(f, t.places);
      LeadingZeros(t.places - |NatText(f)|, NatText(f));
      assert FracText(d) == seq(t.places - |NatText(f)|, _ => '0') + NatText(f);
    } else {
      assert FracText(d) == "0";
      assert ParseNat("0") == ParseNat("") * 10 + DigitValue('0');
    }
  }

  /** A whole part and a remainder below one unit add up to the value. */
  lemma SplitValue(m: nat, q: nat)
    requires q >= 1
    ensures (m / q) as real + (m % q) as real / q as real == m as real / q as real
  {
    assert m == (m / q) * q + m % q;
    assert m as real == (m / q) as real * q as real + (m % q) as real;
  }

  /** The float text denotes the float's value: reading it back gives the same number. */
  lemma FloatTextValue(d: Decimal)
    ensures TextValue(WholeText(d), FracText(d)) == Value(d)
  {
    WholeTextValue(d);
    FracTextValue(d);
    SplitValue(Trim(d).mantissa, Pow10(Trim(d).places));
    TrimValue(d);
  }

  /** The digits before the point read back as the whole part. */
  lemma WholeTextValue(d: Decimal)
    ensures ParseNat(WholeText(d)) == Trim(d).mantissa / Pow10(Trim(d).places)
  {
    var t := Trim(d);
    DivNat(t.mantissa, Pow10(t.places));
    var w: nat := t.mantissa / Pow10(t.places);
    assert WholeText(d) == NatText(w);
    NatTextRoundTrip(w);
  }

  /** A whole number prints with the fraction `.0`. */
  lemma WholeFloatText(n: nat)
    ensures FloatText(Whole(n)) == NatText(n) + ".0"
  {
    assert Trim(Whole(n)) == Whole(n);
    assert Pow10(0) == 1;
    assert n / 1 == n;
  }

  /** `str.lower()` on ASCII letters; other characters are kept. */
  function LowerChar(c: char): char
  {
    if 'A' <= c <= 'Z' then (c as int + 32) as char else c
  }

  /** `s.lower()`, letter by letter. */
  function Lower(s: string): (r: string)
    ensures |r| == |s| && forall i :: 0 <= i < |s| ==> r[i] == LowerChar(s[i])
  {
    if s == [] then [] else [LowerChar(s[0])] + Lower(s[1..])
  }

  /** `sub in s` for strings: `sub` occurs in `s` at some position. */
  predicate Contains(s: string, sub: string)
  {
    exists i | 0 <= i <= |s| :: OccursAt(s, sub, i)
  }

  /** `sub` occurs in `s` starting at index `i`. */
  predicate OccursAt(s: string, sub: string, i: int)
  {
    0 <= i && i + |sub| <= |s| && s[i..i + |sub|] == sub
  }

  /** A string shorter than `sub` cannot contain it. */
  lemma ShortDoesNotContain(s: string, sub: string)
    requires |s| < |sub|
    ensures !Contains(s, sub)
  {
  }

  /** `", ".join(parts)` */
  function Join(parts: seq<string>, sep: string): (r: string)
    ensures |parts| == 0 ==> r == ""
    ensures |parts| == 1 ==> r == parts[0]
  {
    if |parts| == 0 then ""
    else if |parts| == 1 then parts[0]
    else parts[0] + sep + Join(parts[1..], sep)
  }
}
