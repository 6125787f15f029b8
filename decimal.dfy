/** Decimal text: the integer-to-string conversion behind the year labels,
    JavaScript's Number.prototype.toFixed, and parseFloat on what toFixed
    prints. */
module Decimal {
  import opened Numbers

  datatype Option<T> = None | Some(value: T)

  predicate IsDigit(c: char) {
    '0' <= c <= '9'
  }

  predicate AllDigits(s: string) {
    forall i :: 0 <= i < |s| ==> IsDigit(s[i])
  }

  function DigitChar(d: nat): (c: char)
    requires d < 10
    ensures IsDigit(c) && c as int - '0' as int == d
  {
    ('0' as int + d) as char
  }

  function DigitValue(c: char): (d: nat)
    requires IsDigit(c)
    ensures d < 10
  {
    c as int - '0' as int
  }

  /** The decimal digits of n, without leading zeros (String(n) / str(n)). */
  function NatToString(n: nat): (s: string)
    ensures |s| >= 1 && AllDigits(s)
    ensures |s| > 1 ==> s[0] != '0'
  {
    if n < 10 then [DigitChar(n)] else NatToString(n / 10) + [DigitChar(n % 10)]
  }

  /** The number a string of digits denotes. */
  function DigitsValue(s: string): nat
    requires AllDigits(s)
  {
    if s == [] then 0 else DigitsValue(s[..|s| - 1]) * 10 + DigitValue(s[|s| - 1])
  }

  /** Reading back what NatToString prints gives the number again. */
  lemma {:induction false} NatToStringRoundTrip(n: nat)
    ensures DigitsValue(NatToString(n)) == n
  {
    var s := NatToString(n);
    if n >= 10 {
      NatToStringRoundTrip(n / 10);
      assert s[..|s| - 1] == NatToString(n / 10);
    }
  }

  /** A number below 10^k has at most k digits. */
  lemma {:induction false} NatToStringShort(n: nat, k: nat)
    requires 1 <= k && n < Pow10(k)
    ensures |NatToString(n)| <= k
  {
    if n >= 10 {
      assert k >= 2;
      NatToStringShort(n / 10, k - 1);
    }
  }

  /** Years 1000 to 9999 print with exactly four digits. */
  lemma FourDigits(n: nat)
    requires 1000 <= n <= 9999
    ensures |NatToString(n)| == 4
  {
    assert |NatToString(n / 1000)| == 1;
    assert NatToString(n / 100) == NatToString(n / 1000) + [DigitChar(n / 100 % 10)];
    assert NatToString(n / 10) == NatToString(n / 100) + [DigitChar(n / 10 % 10)];
  }

  /** s left-padded with zeros to at least `width` characters. */
  function PadZeros(s: string, width: nat): (r: string)
    ensures |r| == if |s| >= width then |s| else width
    decreases width - |s|
  {
    if |s| >= width then s else PadZeros("0" + s, width)
  }

  lemma {:induction false} PadZerosValue(s: string, width: nat)
    requires AllDigits(s)
    ensures AllDigits(PadZeros(s, width)) && DigitsValue(PadZeros(s, width)) == DigitsValue(s)
    decreases width - |s|
  {
    if |s| < width {
      LeadingZero(s);
      PadZerosValue("0" + s, width);
    }
  }

  lemma {:induction false} LeadingZero(s: string)
    requires AllDigits(s)
    ensures AllDigits("0" + s) && DigitsValue("0" + s) == DigitsValue(s)
  {
    if s != [] {
      LeadingZero(s[..|s| - 1]);
      assert ("0" + s)[..|s|] == "0" + s[..|s| - 1];
    }
  }

  /** Euclidean division of a natural number by a positive divisor. */
  lemma DivModNat(n: nat, d: int)
    requires d >= 1
    ensures n / d >= 0 && 0 <= n % d < d && (n / d) * d + n % d == n
  {
  }

  /** The digits toFixed prints for the scaled magnitude n with p places. */
  function Magnitude(n: nat, p: nat): string
  {
    if p == 0 then NatToString(n)
    else
      var d := Pow10(p);
      DivModNat(n, d);
      NatToString(n / d) + "." + PadZeros(NatToString(n % d), p)
  }

  /** x.toFixed(p): a minus sign for a negative x, then |x| rounded to p
      places with ties away from zero, with exactly p digits after the point. */
  function FixedJs(x: real, p: nat): string
  {
    (if x < 0.0 then "-" else "") + Magnitude(ScaledAway(x, p), p)
  }

  /** Position of the first '.', or |s| when there is none. */
  function DotIndex(s: string): (k: nat)
    ensures k <= |s|
    ensures forall i :: 0 <= i < k ==> s[i] != '.'
    ensures k < |s| ==> s[k] == '.'
  {
    if s == [] then 0 else if s[0] == '.' then 0 else 1 + DotIndex(s[1..])
  }

  /** An unsigned decimal "digits" or "digits.digits" as a real. */
  function ParseUnsigned(s: string): Option<real>
  {
    var k := DotIndex(s);
    if k == 0 || !AllDigits(s[..k]) then None
    else if k == |s| then Some(DigitsValue(s[..k]) as real)
    else WithFraction(DigitsValue(s[..k]), s[k + 1..])
  }

  /** The whole part plus the digits after the point, scaled. */
  function WithFraction(whole: nat, frac: string): Option<real>
  {
    if AllDigits(frac)
    then Some(whole as real + DigitsValue(frac) as real / Pow10(|frac|) as real)
    else None
  }

  /** parseFloat restricted to the strings toFixed produces: an optional
      minus sign and an unsigned decimal. */
  function ParseDecimal(s: string): Option<real>
  {
    if |s| > 0 && s[0] == '-' then
      match ParseUnsigned(s[1..])
      case Some(v) => Some(-v)
      case None => None
    else ParseUnsigned(s)
  }

  lemma ParseWhole(a: string)
    requires |a| >= 1 && AllDigits(a)
    ensures ParseUnsigned(a) == Some(DigitsValue(a) as real)
  {
    assert DotIndex(a) == |a| by {
      assert forall i :: 0 <= i < |a| ==> a[i] != '.';
    }
    assert a[..|a|] == a;
  }

  lemma DotAfterDigits(a: string, b: string)
    requires AllDigits(a)
    ensures DotIndex(a + "." + b) == |a|
  {
    var m := a + "." + b;
    assert m[|a|] == '.';
  }

  lemma ParseWithPoint(a: string, b: string)
    requires |a| >= 1 && AllDigits(a) && AllDigits(b)
    ensures ParseUnsigned(a + "." + b) == WithFraction(DigitsValue(a), b)
  {
    var m := a + "." + b;
    DotAfterDigits(a, b);
    assert m[..|a|] == a;
    assert m[|a| + 1..] == b;
  }

  lemma QuotientRemainderReal(n: nat, d: nat)
    requires d >= 1
    ensures (n / d) as real + (n % d) as real / d as real == n as real / d as real
  {
    DivModNat(n, d);
    var q, r := (n / d) as real, (n % d) as real;
    assert q * d as real + r == n as real;
    assert q == q * d as real / d as real;
  }

  /** The digits after the point: exactly p of them, denoting n mod 10^p. */
  lemma FractionDigits(n: nat, p: nat)
    requires p >= 1
    ensures var b := PadZeros(NatToString(n % Pow10(p)), p);
            AllDigits(b) && |b| == p && DigitsValue(b) == n % Pow10(p)
  {
    var d := Pow10(p);
    DivModNat(n, d);
    NatToStringShort(n % d, p);
    PadZerosValue(NatToString(n % d), p);
    NatToStringRoundTrip(n % d);
  }

  lemma MagnitudeValue(n: nat, p: nat)
    ensures ParseUnsigned(Magnitude(n, p)) == Some(n as real / Pow10(p) as real)
  {
    if p == 0 {
      NatToStringRoundTrip(n);
      ParseWhole(NatToString(n));
      assert Magnitude(n, p) == NatToString(n);
      assert n as real / Pow10(p) as real == n as real;
    } else {
      FractionalMagnitudeValue(n, p);
    }
  }

  lemma FractionalMagnitudeValue(n: nat, p: nat)
    requires p >= 1
    ensures ParseUnsigned(Magnitude(n, p)) == Some(n as real / Pow10(p) as real)
  {
    var d := Pow10(p);
    DivModNat(n, d);
    var q, r := n / d, n % d;
    var a := NatToString(q);
    var b := PadZeros(NatToString(r), p);
    FractionDigits(n, p);
    NatToStringRoundTrip(q);
    assert q as real + r as real / d as real == n as real / d as real by {
      QuotientRemainderReal(n, d);
    }
    calc {
      ParseUnsigned(Magnitude(n, p));
      ParseUnsigned(a + "." + b);
      { ParseWithPoint(a, b); }
      WithFraction(DigitsValue(a), b);
      WithFraction(q, b);
      { FractionValue(q, r, b, d); }
      Some(q as real + r as real / d as real);
      Some(n as real / d as real);
    }
  }

  lemma FractionValue(q: nat, r: nat, b: string, d: nat)
    requires AllDigits(b) && DigitsValue(b) == r && Pow10(|b|) == d
    ensures WithFraction(q, b) == Some(q as real + r as real / d as real)
  {
  }

  /** parseFloat(x.toFixed(p)) is x rounded to p places, ties away from zero. */
  lemma FixedRoundTrip(x: real, p: nat)
    ensures ParseDecimal(FixedJs(x, p)) == Some(RoundAway(x, p))
  {
    var m := Magnitude(ScaledAway(x, p), p);
    MagnitudeValue(ScaledAway(x, p), p);
    if x < 0.0 {
      assert FixedJs(x, p)[1..] == m;
    } else {
      assert FixedJs(x, p) == m;
      assert |m| > 0 && IsDigit(m[0]);
    }
  }

  /** toFixed never prints a plus sign: the text starts with '-' exactly when
      x is negative and with a digit otherwise. */
  lemma FixedLeadingChar(x: real, p: nat)
    ensures |FixedJs(x, p)| > 0
    ensures FixedJs(x, p)[0] == '-' <==> x < 0.0
    ensures x >= 0.0 ==> IsDigit(FixedJs(x, p)[0])
  {
  }
}
