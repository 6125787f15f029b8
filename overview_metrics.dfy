/** The dashboard's overview cards: this year's total against last year's,
    emission intensity per tonne of output, and the arrow and colour each
    year-on-year change is drawn with. */
module OverviewMetrics {
  import opened Numbers
  import opened Decimal
  import opened Emissions
  import ClientData

  datatype Arrow = Up | Down
  datatype Tone = Destructive | Green

  /** How a change is drawn: an arrow, a colour and the magnitude to one
      decimal (the sign is carried by the arrow alone). */
  datatype Badge = Badge(arrow: Arrow, tone: Tone, magnitude: string)

  /** The figures the cards are drawn from: this year's total, its change
      on last year in percent, this year's intensity and its change. */
  datatype Figures = Figures(total: real, change: real, intensity: real, intensityChange: real)

  /** The two cards as drawn: the total to one decimal with its badge, the
      intensity to two decimals with its badge. */
  datatype Cards = Cards(totalText: string, changeBadge: Badge, intensityText: string, intensityBadge: Badge)

  /** Emissions per tonne of physical output. */
  function Intensity(r: AnnualData): (i: real)
    requires r.production != 0.0
    ensures Total(r) != 0.0 ==> i != 0.0
    ensures Total(r) > 0.0 && r.production > 0.0 ==> i > 0.0
  {
    Total(r) / r.production
  }

  /** The arithmetic of the cards. Neither last year's total nor either
      year's output is checked for zero, so all three are required non-zero. */
  function Compute(current: AnnualData, previous: AnnualData): (f: Figures)
    requires Total(previous) != 0.0 && current.production != 0.0 && previous.production != 0.0
    ensures f.total == Total(current) && f.intensity * current.production == f.total
    ensures f.change == PercentChange(Total(previous), Total(current))
    ensures f.intensityChange == PercentChange(Intensity(previous), Intensity(current))
    ensures Total(previous) > 0.0 ==> (f.change > 0.0 <==> Total(current) > Total(previous))
    ensures Total(previous) > 0.0 && previous.production > 0.0 ==>
      (f.intensityChange > 0.0 <==> Intensity(current) > Intensity(previous))
  {
    var totalCurrent := Total(current);
    var totalPrev := Total(previous);
    var change := PercentChange(totalPrev, totalCurrent);
    var intensityCurrent := Intensity(current);
    var intensityPrev := Intensity(previous);
    var intensityChange := PercentChange(intensityPrev, intensityCurrent);
    Figures(totalCurrent, change, intensityCurrent, intensityChange)
  }

  /** A rise is drawn as an up arrow in the destructive colour; no change or
      a fall as a down arrow in green. */
  function BadgeFor(pc: real): (b: Badge)
    ensures b.arrow == Up <==> pc > 0.0
    ensures b.tone == Destructive <==> pc > 0.0
    ensures |b.magnitude| > 0 && IsDigit(b.magnitude[0])
    ensures ParseDecimal(b.magnitude) == Some(RoundAway(Abs(pc), 1))
  {
    FixedLeadingChar(Abs(pc), 1);
    FixedRoundTrip(Abs(pc), 1);
    if pc > 0.0 then Badge(Up, Destructive, FixedJs(Abs(pc), 1))
    else Badge(Down, Green, FixedJs(Abs(pc), 1))
  }

  /** The cards as drawn: each badge drawn from its change, so the up arrow
      and the destructive colour exactly when the total (or the intensity)
      rose on last year, the magnitude readable back as the change's absolute
      value to one decimal, and the intensity readable back to two decimals. */
  function Overview(current: AnnualData, previous: AnnualData): (m: Cards)
    requires Total(previous) != 0.0 && current.production != 0.0 && previous.production != 0.0
    ensures var f := Compute(current, previous);
      m.changeBadge == BadgeFor(f.change) && m.intensityBadge == BadgeFor(f.intensityChange)
    ensures Total(previous) > 0.0 ==>
      && (m.changeBadge.arrow == Up <==> Total(current) > Total(previous))
      && (m.changeBadge.tone == Destructive <==> Total(current) > Total(previous))
    ensures Total(previous) > 0.0 && previous.production > 0.0 ==>
      && (m.intensityBadge.arrow == Up <==> Intensity(current) > Intensity(previous))
      && (m.intensityBadge.tone == Destructive <==> Intensity(current) > Intensity(previous))
    ensures ParseDecimal(m.changeBadge.magnitude) == Some(RoundAway(Abs(PercentChange(Total(previous), Total(current))), 1))
    ensures ParseDecimal(m.intensityBadge.magnitude) == Some(RoundAway(Abs(PercentChange(Intensity(previous), Intensity(current))), 1))
    ensures ParseDecimal(m.intensityText) == Some(RoundAway(Intensity(current), 2))
  {
    var f := Compute(current, previous);
    FixedRoundTrip(f.intensity, 2);
    Cards(FixedJs(f.total, 1) + " MT", BadgeFor(f.change), FixedJs(f.intensity, 2), BadgeFor(f.intensityChange))
  }

  /** The shown total is the one the report shows for the same year. */
  lemma TotalTextAsReport(current: AnnualData, previous: AnnualData)
    requires Total(previous) != 0.0 && current.production != 0.0 && previous.production != 0.0
    ensures Overview(current, previous).totalText == ClientData.Tonnes(Total(current))
  {
  }

  /** Intensity moves by the emissions change corrected for the change in
      output: 1 + intensityChange/100 = (1 + change/100) * prevOutput /
      currentOutput. */
  lemma IntensityDecomposition(current: AnnualData, previous: AnnualData)
    requires Total(previous) != 0.0 && current.production != 0.0 && previous.production != 0.0
    ensures var f := Compute(current, previous);
      1.0 + f.intensityChange / 100.0 == (1.0 + f.change / 100.0) * (previous.production / current.production)
  {
    var f := Compute(current, previous);
    var a, b := Total(current), Total(previous);
    assert f.change == PercentChange(b, a);
    assert f.intensityChange == PercentChange(b / previous.production, a / current.production);
    Decompose(a, b, current.production, previous.production, f.change, f.intensityChange);
  }

  /** The same on plain numbers: totals a (now) and b (before), outputs p
      (now) and q (before). */
  lemma Decompose(a: real, b: real, p: real, q: real, change: real, intensityChange: real)
    requires b != 0.0 && p != 0.0 && q != 0.0
    requires change == PercentChange(b, a)
    requires intensityChange == PercentChange(b / q, a / p)
    ensures 1.0 + intensityChange / 100.0 == (1.0 + change / 100.0) * (q / p)
  {
    PercentChangeRatio(b, a);
    PercentChangeRatio(b / q, a / p);
    QuotientOfQuotients(a, b, p, q);
  }

  lemma QuotientOfQuotients(a: real, b: real, p: real, q: real)
    requires b != 0.0 && p != 0.0 && q != 0.0
    ensures (a / p) / (b / q) == (a / b) * (q / p)
  {
    assert (a / p) / (b / q) == (a * q) / (p * b);
    assert (a / b) * (q / p) == (a * q) / (b * p);
  }

  /** 1 + PercentChange(from, to)/100 is the ratio to / from. */
  lemma PercentChangeRatio(from: real, to: real)
    requires from != 0.0
    ensures 1.0 + PercentChange(from, to) / 100.0 == to / from
  {
    var q := (to - from) / from;
    var r := to / from;
    assert PercentChange(from, to) / 100.0 == q;
    assert q * from == to - from;
    assert r * from == to;
    assert (q - (r - 1.0)) * from == q * from - (r - 1.0) * from;
    ZeroProduct(q - (r - 1.0), from);
  }

  lemma ZeroProduct(x: real, y: real)
    requires y != 0.0 && x * y == 0.0
    ensures x == 0.0
  {
  }

  /** With unchanged output the intensity moves exactly as the total. */
  lemma SteadyOutput(current: AnnualData, previous: AnnualData)
    requires Total(previous) != 0.0 && current.production != 0.0
    requires previous.production == current.production
    ensures Compute(current, previous).intensityChange == Compute(current, previous).change
  {
    var f := Compute(current, previous);
    IntensityDecomposition(current, previous);
    assert previous.production / current.production == 1.0;
  }

  /** The dashboard compares 2024-25 with 2023-24: the total rose from 86 to
      89 MT (by 3.5%) and the intensity rose too (by 0.5%), so both cards
      show an up arrow in the destructive colour. */
  lemma DashboardCards()
    ensures var h := ClientData.HistoricalData;
      var m := Overview(h[4], h[3]);
      && m.changeBadge.arrow == Up && m.changeBadge.tone == Destructive
      && m.intensityBadge.arrow == Up && m.intensityBadge.tone == Destructive
      && ParseDecimal(m.changeBadge.magnitude) == Some(3.5)
      && ParseDecimal(m.intensityBadge.magnitude) == Some(0.5)
  {
    var h := ClientData.HistoricalData;
    assert Total(h[4]) == 89.0 && Total(h[3]) == 86.0;
    var f := Compute(h[4], h[3]);
    var m := Overview(h[4], h[3]);
    assert m.changeBadge == BadgeFor(f.change) && m.intensityBadge == BadgeFor(f.intensityChange);
    assert f.change == 300.0 / 86.0;
    OneDecimal(f.change, 35);
    assert f.intensityChange == PercentChange(86.0 / 20.12, 89.0 / 20.72);
    Decompose(89.0, 86.0, 20.72, 20.12, f.change, f.intensityChange);
    OneDecimal(f.intensityChange, 5);
  }

  /** A non-negative x with 10x within half a unit of n shows as n / 10. */
  lemma OneDecimal(x: real, n: nat)
    requires 0.0 <= x && n as real - 0.5 <= x * 10.0 < n as real + 0.5
    ensures RoundAway(Abs(x), 1) == n as real / 10.0
  {
    var k := ScaledAway(Abs(x), 1);
    assert Pow10(1) == 10;
    assert k as real - 0.5 <= x * 10.0 < k as real + 0.5;
    assert k == n;
  }
}
