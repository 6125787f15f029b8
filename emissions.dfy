/** The domain shared by the dashboard and the backend: a fiscal year's
    record, the three scenarios with their per-period drift rates, emission
    totals, and fiscal-year labels such as "2025-26". */
module Emissions {
  import opened Numbers
  import opened Decimal

  /** One fiscal year: emissions per scope, physical output (million tonnes),
      revenue, and whether the year was observed or projected. */
  datatype AnnualData = AnnualData(
    year: string,
    scope1: real,
    scope2: real,
    scope3: real,
    production: real,
    revenue: real,
    isHistorical: bool)

  /** scope1 + scope2 + scope3 of one record. */
  function Total(r: AnnualData): real
  {
    r.scope1 + r.scope2 + r.scope3
  }

  /** (to - from) / from * 100, the relative change in percent that the
      report, the reports page and the dashboard cards all compute; none of
      them guards a zero base. Against a positive base its sign is the
      direction of the change. */
  function PercentChange(from: real, to: real): (pc: real)
    requires from != 0.0
    ensures from > 0.0 ==> (pc > 0.0 <==> to > from) && (pc < 0.0 <==> to < from)
  {
    (to - from) / from * 100.0
  }

  /** Applying the percentage to the base gives back the new value. */
  lemma PercentChangeInverse(from: real, to: real)
    requires from != 0.0
    ensures from + from * PercentChange(from, to) / 100.0 == to
  {
    var q := (to - from) / from;
    assert q * from == to - from;
    assert PercentChange(from, to) / 100.0 == q;
  }

  datatype Scenario = BAU | Moderate | Aggressive

  /** The scenario's key as the source spells it. */
  function Name(s: Scenario): string
  {
    match s
    case BAU => "BAU"
    case Moderate => "Moderate"
    case Aggressive => "Aggressive"
  }

  /** The scenario a key names, if it names one. */
  function Parse(name: string): (r: Option<Scenario>)
    ensures r.Some? <==> name == "BAU" || name == "Moderate" || name == "Aggressive"
    ensures r.Some? ==> Name(r.value) == name
  {
    if name == "BAU" then Some(BAU)
    else if name == "Moderate" then Some(Moderate)
    else if name == "Aggressive" then Some(Aggressive)
    else None
  }

  lemma ParseName(s: Scenario)
    ensures Parse(Name(s)) == Some(s)
  {
  }

  /** Per-period fractional change of scope 1, 2 and 3. */
  datatype Drift = Drift(s1: real, s2: real, s3: real)

  const NoDrift := Drift(0.0, 0.0, 0.0)

  /** The drift table every implementation shares. BAU raises all three
      scopes; Moderate and Aggressive lower all three. */
  function Rates(s: Scenario): (d: Drift)
    ensures s == BAU <==> d.s1 > 0.0 && d.s2 > 0.0 && d.s3 > 0.0
    ensures s != BAU <==> d.s1 < 0.0 && d.s2 < 0.0 && d.s3 < 0.0
    ensures Admissible(d)
  {
    match s
    case BAU => Drift(0.015, 0.01, 0.02)
    case Moderate => Drift(-0.01, -0.02, -0.005)
    case Aggressive => Drift(-0.08, -0.15, -0.05)
  }

  /** Every rate lies between the steepest cut (-15%) and the fastest rise
      (+2%) of the table. */
  predicate Admissible(d: Drift)
  {
    -0.15 <= d.s1 <= 0.02 && -0.15 <= d.s2 <= 0.02 && -0.15 <= d.s3 <= 0.02
  }

  /** How the two languages take the two-digit suffix of the year after:
      JavaScript's `.slice(2)` drops the first two characters, Python's
      `[-2:]` keeps the last two. */
  datatype Dialect = TypeScript | Python

  function Suffix(dialect: Dialect, s: string): string
  {
    match dialect
    case TypeScript => if |s| >= 2 then s[2..] else ""
    case Python => if |s| >= 2 then s[|s| - 2..] else s
  }

  /** The label of the fiscal year starting in calendar year y ("2025-26"). */
  function FiscalLabel(dialect: Dialect, y: nat): string
  {
    NatToString(y) + "-" + Suffix(dialect, NatToString(y + 1))
  }

  /** For four-digit years both spellings give "YYYY-YY", and the digits are
      those of y and of y + 1. */
  lemma DialectsAgree(y: nat)
    requires 1000 <= y <= 9998
    ensures FiscalLabel(TypeScript, y) == FiscalLabel(Python, y)
    ensures |FiscalLabel(TypeScript, y)| == 7 && FiscalLabel(TypeScript, y)[4] == '-'
    ensures FiscalLabel(TypeScript, y)[..4] == NatToString(y)
    ensures FiscalLabel(TypeScript, y)[5..] == NatToString(y + 1)[2..]
  {
    FourDigits(y);
    FourDigits(y + 1);
  }

  /** From the year 9999 on the two spellings part: JavaScript keeps three
      digits of 10000 where Python keeps two. */
  lemma DialectsDiffer()
    ensures FiscalLabel(TypeScript, 9999) != FiscalLabel(Python, 9999)
  {
    var s := NatToString(10000);
    assert |s| == 5 by {
      assert NatToString(1000) == NatToString(100) + [DigitChar(0)];
      assert NatToString(100) == NatToString(10) + [DigitChar(0)];
      assert NatToString(10) == NatToString(1) + [DigitChar(0)];
    }
    assert |FiscalLabel(TypeScript, 9999)| != |FiscalLabel(Python, 9999)|;
  }
}
