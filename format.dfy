/** Python's number-to-text conversions as the reports use them:
    `str(n)` for integers, `f"{n:,}"` (thousands separators), `f"{x:.Nf}"`
    (fixed point, round half to even) and `f"{x:.1%}"`. Values are exact
    reals, so the rounding is applied to the real value itself. */
module Format {
  import opened Util

  function Pow10(d: nat): (r: nat)
    ensures r >= 1
  {
    if d == 0 then 1 else 10 * Pow10(d - 1)
  }

  predicate IsDigit(c: char) { '0' <= c <= '9' }

  function DigitChar(k: nat): (c: char)
    requires k < 10
    ensures IsDigit(c)
  {
    ('0' as int + k) as char
  }

  function DigitValue(c: char): (k: nat)
    requires IsDigit(c)
    ensures k < 10 && DigitChar(k) == c
  {
    c as int - '0' as int
  }

  /** `str(n)` for a non-negative integer. */
  function NatToString(n: nat): (s: string)
    ensures |s| >= 1 && forall i :: 0 <= i < |s| ==> IsDigit(s[i])
    ensures |s| > 1 ==> s[0] != '0'
  {
    if n < 10 then [DigitChar(n)] else NatToString(n / 10) + [DigitChar(n % 10)]
  }

  /** The number a string of decimal digits denotes. */
  function DigitsValue(s: string): nat
    requires forall i :: 0 <= i < |s| ==> IsDigit(s[i])
  {
    if s == [] then 0 else DigitsValue(s[..|s| - 1]) * 10 + DigitValue(s[|s| - 1])
  }

  lemma {:induction false} NatToStringRoundTrip(n: nat)
    ensures DigitsValue(NatToString(n)) == n
  {
    if n >= 10 {
      var s := NatToString(n);
      assert s[..|s| - 1] == NatToString(n / 10);
      NatToStringRoundTrip(n / 10);
    }
  }

  lemma {:induction false} DigitsValueAppend(a: string, b: string)
    requires forall i :: 0 <= i < |a| ==> IsDigit(a[i])
    requires forall i :: 0 <= i < |b| ==> IsDigit(b[i])
    ensures forall i :: 0 <= i < |a + b| ==> IsDigit((a + b)[i])
    ensures DigitsValue(a + b) == DigitsValue(a) * Pow10(|b|) + DigitsValue(b)
  {
    if b == [] {
      assert a + b == a;
    } else {
      var b' := b[..|b| - 1];
      assert (a + b)[..|a + b| - 1] == a + b';
      DigitsValueAppend(a, b');
      var va, vb', last := DigitsValue(a), DigitsValue(b'), DigitValue(b[|b| - 1]);
      var p' := Pow10(|b'|);
      assert Pow10(|b|) == 10 * p';
      assert DigitsValue(a + b) == DigitsValue(a + b') * 10 + last;
      assert DigitsValue(a + b') == va * p' + vb';
      assert DigitsValue(b) == vb' * 10 + last;
      MulAssoc10(va, p');
    }
  }

  lemma MulAssoc10(a: nat, p: nat)
    ensures a * p * 10 == a * (10 * p)
  {
  }

  /** `str(i)` for any integer. */
  function IntToString(i: int): (s: string)
    ensures i < 0 ==> |s| >= 2 && s[0] == '-' && s[1..] == NatToString(-i)
    ensures i >= 0 ==> s == NatToString(i)
  {
    if i < 0 then "-" + NatToString(-i) else NatToString(i)
  }

  /** A string of `width` digits for k, zero-padded on the left. */
  function PaddedDigits(k: nat, width: nat): (s: string)
    requires k < Pow10(width)
    ensures |s| == width && forall i :: 0 <= i < |s| ==> IsDigit(s[i])
    ensures DigitsValue(s) == k
  {
    if width == 0 then ""
    else
      var s := PaddedDigits(k / 10, width - 1) + [DigitChar(k % 10)];
      assert s[..|s| - 1] == PaddedDigits(k / 10, width - 1);
      s
  }

  /** Round to the nearest integer, ties to the even neighbour (Python's
      rounding rule when formatting). */
  function RoundHalfEven(x: real): (r: int)
    ensures x - 0.5 <= r as real <= x + 0.5
    ensures r as real == x - 0.5 || r as real == x + 0.5 ==> r % 2 == 0
  {
    var f := x.Floor;
    var frac := x - f as real;
    if frac < 0.5 then f
    else if frac > 0.5 then f + 1
    else if f % 2 == 0 then f else f + 1
  }

  /** The digits of `x` rounded to `d` places, without sign or point:
      |x|·10^d rounded half to even. */
  function ScaledMagnitude(x: real, d: nat): (m: nat)
    ensures var y := AbsR(x) * Pow10(d) as real;
      y - 0.5 <= m as real <= y + 0.5 &&
      (m as real == y - 0.5 || m as real == y + 0.5 ==> m % 2 == 0)
  {
    var y := AbsR(x) * Pow10(d) as real;
    assert y >= 0.0;
    RoundHalfEven(y)
  }

  /** With no decimals, a non-negative value's digits are the value
      itself rounded half to even. */
  lemma ScaledWhole(x: real)
    requires x >= 0.0
    ensures ScaledMagnitude(x, 0) == RoundHalfEven(x)
  {
    assert Pow10(0) == 1;
    assert AbsR(x) * Pow10(0) as real == x;
  }

  /** The integer part and the d decimals of m / 10^d. */
  function IntPart(m: nat, d: nat): nat
  {
    var p := Pow10(d);
    DivModBounds(m, p);
    m / p
  }

  function Decimals(m: nat, d: nat): (r: nat)
    ensures r < Pow10(d)
  {
    var p := Pow10(d);
    DivModBounds(m, p);
    m % p
  }

  /** The text of a rounded magnitude m with d decimal places. */
  function FixedText(negative: bool, m: nat, d: nat): (s: string)
  {
    (if negative then "-" else "")
      + NatToString(IntPart(m, d))
      + (if d == 0 then "" else "." + PaddedDigits(Decimals(m, d), d))
  }

  /** `f"{x:.{d}f}"`: a minus sign for negative x (even when the rounded
      digits are all zero, as Python prints "-0.0"), the integer part, and
      for d > 0 a point followed by exactly d digits. */
  function FixedPoint(x: real, d: nat): (s: string)
  {
    FixedText(x < 0.0, ScaledMagnitude(x, d), d)
  }

  lemma DivModBounds(m: nat, p: nat)
    requires p > 0
    ensures 0 <= m / p && 0 <= m % p < p
  {
  }

  lemma DivModRecompose(m: nat, p: nat)
    requires p > 0
    ensures (m / p) * p + m % p == m
  {
  }

  /** Reading the digits of a fixed-point text back, with the point
      removed, gives the rounded magnitude it was made from; the text
      starts with '-' exactly for negatives and ends in d decimals. */
  lemma FixedTextDenotes(negative: bool, m: nat, d: nat)
    requires d > 0
    ensures var s := FixedText(negative, m, d);
      var q := NatToString(IntPart(m, d));
      |s| > d + 1 &&
      s[..|s| - d - 1] == (if negative then "-" else "") + q &&
      s[|s| - d - 1] == '.' &&
      (forall i :: |s| - d <= i < |s| ==> IsDigit(s[i])) &&
      DigitsValue(q + s[|s| - d..]) == m
  {
    var p := Pow10(d);
    DivModBounds(m, p);
    var q := NatToString(IntPart(m, d));
    var f := PaddedDigits(Decimals(m, d), d);
    var sgn := if negative then "-" else "";
    assert FixedText(negative, m, d) == sgn + q + ("." + f);
    Shape(sgn, q, f);
    assert DigitsValue(q + f) == m by {
      NatToStringRoundTrip(IntPart(m, d));
      DigitsValueAppend(q, f);
      Recompose(m, p, DigitsValue(q), DigitsValue(f));
    }
  }

  lemma Shape(sgn: string, q: string, f: string)
    ensures var s := sgn + q + ("." + f);
      |s| == |sgn| + |q| + 1 + |f| && s[..|s| - |f| - 1] == sgn + q &&
      s[|s| - |f| - 1] == '.' && s[|s| - |f|..] == f
  {
    var s := sgn + q + ("." + f);
    assert s[..|s| - |f| - 1] == sgn + q;
    assert s[|s| - |f|..] == f;
  }

  lemma Recompose(m: nat, p: nat, hi: nat, lo: nat)
    requires p > 0 && hi == m / p && lo == m % p
    ensures hi * p + lo == m
  {
  }

  /** A fixed-point text holds only a sign, digits and a point, so any
      other character (a comma, a newline) is absent from it. */
  lemma FixedTextAvoids(negative: bool, m: nat, d: nat, c: char)
    requires !IsDigit(c) && c != '.' && c != '-'
    ensures CountChar(FixedText(negative, m, d), c) == 0
  {
    var q := NatToString(IntPart(m, d));
    var sign := if negative then "-" else "";
    var tail := if d == 0 then "" else "." + PaddedDigits(Decimals(m, d), d);
    NoCharInDigits(q, c);
    if d > 0 {
      NoCharInDigits(PaddedDigits(Decimals(m, d), d), c);
      CountCharAppend(".", PaddedDigits(Decimals(m, d), d), c);
    }
    CountCharAppend(sign, q, c);
    CountCharAppend(sign + q, tail, c);
  }

  lemma FixedPointAvoids(x: real, d: nat, c: char)
    requires !IsDigit(c) && c != '.' && c != '-'
    ensures CountChar(FixedPoint(x, d), c) == 0
  {
    FixedTextAvoids(x < 0.0, ScaledMagnitude(x, d), d, c);
  }

  lemma {:induction false} NoCharInDigits(s: string, c: char)
    requires !IsDigit(c)
    requires forall i :: 0 <= i < |s| ==> IsDigit(s[i])
    ensures CountChar(s, c) == 0
  {
    if s != [] {
      NoCharInDigits(s[1..], c);
    }
  }

  /** `str(i)` holds only a sign and digits. */
  lemma IntToStringAvoids(i: int, c: char)
    requires !IsDigit(c) && c != '-'
    ensures CountChar(IntToString(i), c) == 0
  {
    NoCharInDigits(NatToString(if i < 0 then -i else i), c);
    if i < 0 {
      CountCharAppend("-", NatToString(-i), c);
    }
  }

  /** `f"{x:.1%}"` */
  function Percent1(x: real): (s: string)
    ensures |s| >= 4 && s[|s| - 1] == '%'
  {
    FixedPoint(x * 100.0, 1) + "%"
  }

  /** `f"{n:,}"` for a non-negative integer: groups of three digits from
      the right, separated by commas. */
  function Thousands(n: nat): (s: string)
  {
    if n < 1000 then NatToString(n)
    else Thousands(n / 1000) + "," + PaddedDigits(n % 1000, 3)
  }

  /** Grouped digits hold only digits and commas. */
  lemma {:induction false} ThousandsAvoids(n: nat, c: char)
    requires !IsDigit(c) && c != ','
    ensures CountChar(Thousands(n), c) == 0
  {
    if n < 1000 {
      NoCharInDigits(NatToString(n), c);
    } else {
      ThousandsAvoids(n / 1000, c);
      NoCharInDigits(PaddedDigits(n % 1000, 3), c);
      CountCharAppend(Thousands(n / 1000), ",", c);
      CountCharAppend(Thousands(n / 1000) + ",", PaddedDigits(n % 1000, 3), c);
    }
  }

  lemma ThousandsIntAvoids(i: int, c: char)
    requires !IsDigit(c) && c != ',' && c != '-'
    ensures CountChar(ThousandsInt(i), c) == 0
  {
    if i < 0 {
      ThousandsAvoids(-i, c);
      CountCharAppend("-", Thousands(-i), c);
    } else {
      ThousandsAvoids(i, c);
    }
  }

  /** `f"{i:,}"` for any integer. */
  function ThousandsInt(i: int): string
  {
    if i < 0 then "-" + Thousands(-i) else Thousands(i)
  }

  /** s with every comma removed. */
  function DropCommas(s: string): string
  {
    if s == [] then [] else (if s[0] == ',' then [] else [s[0]]) + DropCommas(s[1..])
  }

  lemma {:induction false} DropCommasAppend(a: string, b: string)
    ensures DropCommas(a + b) == DropCommas(a) + DropCommas(b)
  {
    if a == [] {
      assert a + b == b;
    } else {
      assert (a + b)[1..] == a[1..] + b;
      DropCommasAppend(a[1..], b);
    }
  }

  lemma {:induction false} DropCommasOfDigits(s: string)
    requires forall i :: 0 <= i < |s| ==> IsDigit(s[i])
    ensures DropCommas(s) == s
  {
    if s != [] {
      DropCommasOfDigits(s[1..]);
    }
  }

  /** For n >= 1000 the decimal text of n is that of n / 1000 followed by
      the three digits of n % 1000. */
  lemma NatToStringSplit3(n: nat)
    requires n >= 1000
    ensures NatToString(n) == NatToString(n / 1000) + PaddedDigits(n % 1000, 3)
  {
    var k := n % 1000;
    DigitsOfThousands(n);
    assert NatToString(n / 10) == NatToString(n / 100) + [DigitChar((n / 10) % 10)];
    assert NatToString(n / 100) == NatToString(n / 1000) + [DigitChar((n / 100) % 10)];
    assert PaddedDigits(k / 100, 1) == [DigitChar(k / 100 % 10)];
    assert PaddedDigits(k / 10, 2) == PaddedDigits(k / 100, 1) + [DigitChar((k / 10) % 10)];
  }

  lemma DigitsOfThousands(n: nat)
    requires n >= 1000
    ensures n / 10 >= 10 && n / 100 >= 10
    ensures n / 10 / 10 == n / 100 && n / 100 / 10 == n / 1000
    ensures (n % 1000) / 10 / 10 == (n % 1000) / 100
    ensures n % 10 == (n % 1000) % 10
    ensures (n / 10) % 10 == ((n % 1000) / 10) % 10
    ensures (n / 100) % 10 == ((n % 1000) / 100) % 10
  {
  }

  /** Removing the separators from `f"{n:,}"` gives back `str(n)`. */
  lemma {:induction false} ThousandsDropCommas(n: nat)
    ensures DropCommas(Thousands(n)) == NatToString(n)
  {
    if n < 1000 {
      DropCommasOfDigits(NatToString(n));
    } else {
      ThousandsDropCommas(n / 1000);
      DropCommasAppend(Thousands(n / 1000) + ",", PaddedDigits(n % 1000, 3));
      DropCommasAppend(Thousands(n / 1000), ",");
      DropCommasOfDigits(PaddedDigits(n % 1000, 3));
      NatToStringSplit3(n);
    }
  }
}
