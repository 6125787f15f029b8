/** Exact-arithmetic stand-ins for the numeric primitives the dashboard and
    the backend use: powers, Math.max(0, x) / max(0, x), and the two rounding
    rules (JavaScript's toFixed and Python's built-in round). Numbers are
    real-valued; binary floating point is not modelled. */
module Numbers {

  /** 10^p as a natural number. */
  function Pow10(p: nat): (r: nat)
    ensures r >= 1
  {
    if p == 0 then 1 else 10 * Pow10(p - 1)
  }

  /** b^k for a real base. */
  function Pow(b: real, k: nat): real
  {
    if k == 0 then 1.0 else Pow(b, k - 1) * b
  }

  function Abs(x: real): (r: real)
    ensures r >= 0.0 && (r == x || r == -x)
  {
    if x < 0.0 then -x else x
  }

  /** Math.max(0, x) in data.ts and max(0, x) in the Python loops. */
  function Max0(x: real): (r: real)
    ensures r >= 0.0 && r >= x
    ensures r == x || r == 0.0
  {
    if x < 0.0 then 0.0 else x
  }

  /** The integer n that toFixed(p) prints for |x|: the n for which
      n / 10^p is nearest |x|, the larger one on a tie. */
  function ScaledAway(x: real, p: nat): (n: nat)
    ensures n as real - 0.5 <= Abs(x) * Pow10(p) as real < n as real + 0.5
  {
    var y := Abs(x) * Pow10(p) as real + 0.5;
    assert y >= 0.0;
    y.Floor
  }

  /** The value of x.toFixed(p): |x| rounded to p places with ties away from
      zero, carrying the sign of x. */
  function RoundAway(x: real, p: nat): real
  {
    var v := ScaledAway(x, p) as real / Pow10(p) as real;
    if x < 0.0 then -v else v
  }

  /** The integer Python's round(x, p) scales to: nearest to x * 10^p, the
      even one on a tie. */
  function ScaledEven(x: real, p: nat): (n: int)
    ensures n as real - 0.5 <= x * Pow10(p) as real <= n as real + 0.5
  {
    var y := x * Pow10(p) as real;
    var f := y.Floor;
    var frac := y - f as real;
    if frac > 0.5 then f + 1
    else if frac < 0.5 then f
    else if f % 2 == 0 then f else f + 1
  }

  /** The value of Python's round(x, p) on an exact real. */
  function RoundEven(x: real, p: nat): real
  {
    ScaledEven(x, p) as real / Pow10(p) as real
  }

  /** Half a unit in the p-th decimal place. */
  function HalfUnit(p: nat): (h: real)
    ensures h > 0.0
  {
    0.5 / Pow10(p) as real
  }

  lemma ScaleBack(n: real, y: real, x: real, d: real)
    requires d >= 1.0 && y == x * d
    requires n - 0.5 <= y <= n + 0.5
    ensures n / d - 0.5 / d <= x <= n / d + 0.5 / d
  {
    assert (n - 0.5) / d <= y / d <= (n + 0.5) / d;
    assert y / d == x;
  }

  /** toFixed's value lies within half a unit of the input and keeps its
      sign (a non-negative input never rounds below zero). */
  lemma RoundAwayBounds(x: real, p: nat)
    ensures Abs(RoundAway(x, p) - x) <= HalfUnit(p)
    ensures x >= 0.0 ==> RoundAway(x, p) >= 0.0
    ensures x <= 0.0 ==> RoundAway(x, p) <= 0.0
  {
    var n := ScaledAway(x, p) as real;
    var d := Pow10(p) as real;
    ScaleBack(n, Abs(x) * d, Abs(x), d);
    assert n / d >= 0.0;
  }

  /** Python's round lies within half a unit of the input and never takes a
      non-negative input below zero. */
  lemma RoundEvenBounds(x: real, p: nat)
    ensures Abs(RoundEven(x, p) - x) <= HalfUnit(p)
    ensures x >= 0.0 ==> RoundEven(x, p) >= 0.0
  {
    var n := ScaledEven(x, p) as real;
    var d := Pow10(p) as real;
    ScaleBack(n, x * d, x, d);
    if x >= 0.0 {
      assert ScaledEven(x, p) >= 0;
    }
  }

  lemma FloorMonotone(a: real, b: real)
    requires a <= b
    ensures a.Floor <= b.Floor
  {
    assert a.Floor as real <= a <= b < b.Floor as real + 1.0;
  }

  lemma ScaledAwayMonotone(x: real, y: real, p: nat)
    requires Abs(x) <= Abs(y)
    ensures ScaledAway(x, p) <= ScaledAway(y, p)
  {
    var d := Pow10(p) as real;
    assert d >= 1.0;
    assert Abs(x) * d <= Abs(y) * d;
    FloorMonotone(Abs(x) * d + 0.5, Abs(y) * d + 0.5);
  }

  /** toFixed's value is monotone in its input. */
  lemma RoundAwayMonotone(x: real, y: real, p: nat)
    requires x <= y
    ensures RoundAway(x, p) <= RoundAway(y, p)
  {
    var d := Pow10(p) as real;
    if 0.0 <= x {
      ScaledAwayMonotone(x, y, p);
      DivMonotone(ScaledAway(x, p) as real, ScaledAway(y, p) as real, d);
    } else if y < 0.0 {
      ScaledAwayMonotone(y, x, p);
      DivMonotone(ScaledAway(y, p) as real, ScaledAway(x, p) as real, d);
    } else {
      RoundAwayBounds(x, p);
      RoundAwayBounds(y, p);
    }
  }

  lemma DivMonotone(a: real, b: real, d: real)
    requires a <= b && d > 0.0
    ensures a / d <= b / d
  {
    assert b / d - a / d == (b - a) / d;
  }

  /** Python's round never passes an integer bound on the scaled value: a
      value at most k / 10^p rounds to at most k / 10^p. */
  lemma ScaledEvenAtMost(x: real, p: nat, k: int)
    requires x * Pow10(p) as real <= k as real
    ensures ScaledEven(x, p) <= k
  {
    var y := x * Pow10(p) as real;
    FloorMonotone(y, k as real);
    assert (k as real).Floor == k;
    if y.Floor == k {
      assert y == k as real;
    }
  }
}
