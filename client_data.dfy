/** The dashboard's client-side data: the five observed fiscal years, the
    fallback forecast the browser computes when the backend is unreachable,
    and the summary report built from a forecast. */
module ClientData {
  import opened Numbers
  import opened Decimal
  import opened Emissions
  import opened Projection

  /** Fiscal years 2020-21 to 2024-25 as reported by the facility. */
  const HistoricalData: seq<AnnualData> := [
    AnnualData("2020-21", 33.0, 4.0, 5.0, 12.19, 156294.0, true),
    AnnualData("2021-22", 49.0, 5.0, 6.0, 18.38, 243959.0, true),
    AnnualData("2022-23", 50.0, 6.0, 7.0, 18.97, 243353.0, true),
    AnnualData("2023-24", 59.0, 5.0, 22.0, 20.12, 140987.0, true),
    AnnualData("2024-25", 61.0, 5.0, 23.0, 20.72, 218543.0, true)
  ]

  /** The fallback forecast projects 30 fiscal years, the first starting in
      2025. */
  const Horizon: nat := 30
  const StartYear: nat := 2025

  /** The history holds five observed years, and the first projected year
      the fallback labels is "2025-26", the year after the last observed
      "2024-25". */
  lemma HistoricalShape()
    ensures |HistoricalData| == 5
    ensures forall k :: 0 <= k < |HistoricalData| ==> HistoricalData[k].isHistorical
    ensures HistoricalData[|HistoricalData| - 1].year == "2024-25"
    ensures FiscalLabel(TypeScript, StartYear) == "2025-26"
  {
    assert NatToString(2025) == "2025" && NatToString(2026) == "2026";
  }

  /** The scenario switch of the fallback: the drift table for a known key,
      and no drift at all for any other string. */
  function SwitchDrift(scenario: string): (d: Drift)
    ensures Parse(scenario).Some? ==> d == Rates(Parse(scenario).value)
    ensures d == NoDrift <==> Parse(scenario).None?
  {
    match Parse(scenario)
    case Some(s) => Rates(s)
    case None => NoDrift
  }

  /** The switch inside the fallback's loop: all three changes start at zero
      and a known scenario key overwrites them with its row of the table. */
  method ScenarioChanges(scenario: string) returns (s1Change: real, s2Change: real, s3Change: real)
    ensures Drift(s1Change, s2Change, s3Change) == SwitchDrift(scenario)
  {
    s1Change, s2Change, s3Change := 0.0, 0.0, 0.0;
    if scenario == "BAU" {
      s1Change, s2Change, s3Change := 0.015, 0.01, 0.02;
    } else if scenario == "Moderate" {
      s1Change, s2Change, s3Change := -0.01, -0.02, -0.005;
    } else if scenario == "Aggressive" {
      s1Change, s2Change, s3Change := -0.08, -0.15, -0.05;
    }
  }

  /** What the fallback returns for a scenario key and the 30 draws of
      Math.random(): the history followed by the TypeScript projection from
      its last year. */
  function ForecastOf(scenario: string, draws: seq<real>): seq<AnnualData>
  {
    HistoricalData + Projected(Seed(HistoricalData[|HistoricalData| - 1]), SwitchDrift(scenario), draws, Store(TypeScript))
  }

  /** generateForecast: copy the history, then for 30 periods grow production
      and revenue, move the scopes by the switch's drift plus the period's
      noise, floor them at zero and append the toFixed(2) copies. */
  method GenerateForecast(scenario: string, draws: seq<real>) returns (forecast: seq<AnnualData>)
    requires |draws| == Horizon
    ensures forecast == ForecastOf(scenario, draws)
  {
    var lastYear := HistoricalData[|HistoricalData| - 1];
    var currentScope1 := lastYear.scope1;
    var currentScope2 := lastYear.scope2;
    var currentScope3 := lastYear.scope3;
    var currentProduction := lastYear.production;
    var currentRevenue := lastYear.revenue;
    forecast := HistoricalData;
    ghost var seed := Seed(lastYear);
    ghost var drift := SwitchDrift(scenario);

    for i := 1 to Horizon + 1
      invariant Running(currentScope1, currentScope2, currentScope3, currentProduction, currentRevenue)
             == RunningAfter(seed, drift, draws[..i - 1])
      invariant forecast == HistoricalData + Projected(seed, drift, draws[..i - 1], Store(TypeScript))
    {
      ghost var before := Running(currentScope1, currentScope2, currentScope3, currentProduction, currentRevenue);
      var yearLabel := FiscalLabel(TypeScript, StartYear + i - 1);
      currentProduction := currentProduction * GrowthFactor;
      currentRevenue := currentRevenue * GrowthFactor;

      var s1Change, s2Change, s3Change := ScenarioChanges(scenario);

      var noise := Noise(draws[i - 1]);
      currentScope1 := Scale(currentScope1, s1Change, noise);
      currentScope2 := Scale(currentScope2, s2Change, noise);
      currentScope3 := Scale(currentScope3, s3Change, noise);

      var record := AnnualData(
        yearLabel,
        StoreTs(currentScope1),
        StoreTs(currentScope2),
        StoreTs(currentScope3),
        StoreTs(currentProduction),
        StoreTs(currentRevenue),
        false);
      AfterPeriod(before, drift, noise, currentScope1, currentScope2, currentScope3, currentProduction, currentRevenue);
      ghost var after := Running(currentScope1, currentScope2, currentScope3, currentProduction, currentRevenue);
      StoredRecord(TypeScript, after, i, record);
      ExtendAfterHistory(seed, drift, draws, Store(TypeScript), i, HistoricalData, forecast, before, after, record);
      forecast := forecast + [record];
    }
    assert draws[..Horizon] == draws;
  }

  /** The fallback's result: 35 records, the history first and unchanged,
      then projected records only, labelled with consecutive fiscal years
      from "2025-26" and with no negative scope. */
  lemma ForecastShape(scenario: string, draws: seq<real>)
    requires |draws| == Horizon
    ensures var forecast := ForecastOf(scenario, draws);
      && |forecast| == |HistoricalData| + Horizon == 35
      && forecast[..|HistoricalData|] == HistoricalData
      && (forall i :: 0 <= i < |forecast| ==> (forecast[i].isHistorical <==> i < |HistoricalData|))
      && (forall i :: |HistoricalData| <= i < |forecast| ==> forecast[i].year == FiscalLabel(TypeScript, 2020 + i))
      && (forall i :: |HistoricalData| <= i < |forecast| ==>
            forecast[i].scope1 >= 0.0 && forecast[i].scope2 >= 0.0 && forecast[i].scope3 >= 0.0)
  {
    var seed := Seed(HistoricalData[|HistoricalData| - 1]);
    ProjectedRecords(seed, SwitchDrift(scenario), draws, TypeScript);
    HistoricalShape();
  }

  /** Which of the three scenario narratives a report carries; the prose
      itself is not modelled. */
  datatype Narrative = BauNarrative | ModerateNarrative | AggressiveNarrative

  /** The report summary: the fixed account of the observed years followed by
      the scenario's narrative, into which the final total and the percent
      change are written with one decimal. */
  datatype Summary = Summary(narrative: Narrative, finalText: string, changeText: string)

  /** A key metric; `name` is the source's label field (a reserved word here). */
  datatype Metric = Metric(name: string, value: string)

  datatype Report = Report(title: string, summary: Summary, keyMetrics: seq<Metric>)

  /** BAU and Moderate have narratives of their own; every other key, known
      or not, gets the Aggressive one. */
  function NarrativeFor(scenario: string): (n: Narrative)
    ensures n == BauNarrative <==> scenario == "BAU"
    ensures n == ModerateNarrative <==> scenario == "Moderate"
    ensures n == AggressiveNarrative <==> scenario != "BAU" && scenario != "Moderate"
  {
    if scenario == "BAU" then BauNarrative
    else if scenario == "Moderate" then ModerateNarrative
    else AggressiveNarrative
  }

  /** A total as the report shows it: one decimal, then " MT". */
  function Tonnes(x: real): string
  {
    FixedJs(x, 1) + " MT"
  }

  /** A percent change as the report shows it: a '+' before a positive
      change (toFixed prints the '-' of a negative one), one decimal, "%". */
  function SignedPercent(pc: real): (s: string)
    ensures |s| > 0 && (s[0] == '+' <==> pc > 0.0)
  {
    FixedLeadingChar(pc, 1);
    (if pc > 0.0 then "+" else "") + FixedJs(pc, 1) + "%"
  }

  /** Dropping the unit, the shown total reads back as the total rounded to
      one decimal. */
  lemma TonnesReadBack(x: real)
    ensures |Tonnes(x)| >= 3
    ensures ParseDecimal(Tonnes(x)[..|Tonnes(x)| - 3]) == Some(RoundAway(x, 1))
  {
    FixedRoundTrip(x, 1);
    assert Tonnes(x)[..|Tonnes(x)| - 3] == FixedJs(x, 1);
  }

  /** Dropping the '+' and the "%", the shown change reads back as the change
      rounded to one decimal, sign included. */
  lemma SignedPercentReadBack(pc: real)
    ensures var s := SignedPercent(pc);
      |s| >= 2 && ParseDecimal(if s[0] == '+' then s[1..|s| - 1] else s[..|s| - 1]) == Some(RoundAway(pc, 1))
  {
    var s := SignedPercent(pc);
    FixedRoundTrip(pc, 1);
    FixedLeadingChar(pc, 1);
    if pc > 0.0 {
      assert s[1..|s| - 1] == FixedJs(pc, 1);
    } else {
      assert s[..|s| - 1] == FixedJs(pc, 1);
    }
  }

  /** generateReport: "current" is the total of the last observed year,
      whatever data is passed; "final" is the total of the last record of
      data. The change carries a '+' exactly when the final total exceeds
      the current one. */
  function GenerateReport(scenario: string, data: seq<AnnualData>): (r: Report)
    requires |data| > 0
    ensures r.title == "Emissions Forecast Report: " + scenario + " Scenario"
    ensures r.summary.narrative == NarrativeFor(scenario)
    ensures |r.keyMetrics| == 3
    ensures r.keyMetrics[0].name == "Current Emissions (FY25)"
    ensures r.keyMetrics[1].name == "Projected Emissions (FY55)"
    ensures r.keyMetrics[2].name == "Total Change"
    ensures |r.keyMetrics[2].value| > 0
    ensures r.keyMetrics[2].value[0] == '+' <==> Total(data[|data| - 1]) > Total(HistoricalData[|HistoricalData| - 1])
  {
    var current := Total(HistoricalData[|HistoricalData| - 1]);
    var final := Total(data[|data| - 1]);
    var pc := PercentChange(current, final);
    Report(
      "Emissions Forecast Report: " + scenario + " Scenario",
      Summary(NarrativeFor(scenario), FixedJs(final, 1), FixedJs(pc, 1)),
      [ Metric("Current Emissions (FY25)", Tonnes(current)),
        Metric("Projected Emissions (FY55)", Tonnes(final)),
        Metric("Total Change", SignedPercent(pc)) ])
  }

  /** The figures of the key metrics read back as the current and final
      totals and the percent change between them, each rounded to one
      decimal with ties away from zero. */
  lemma ReportFigures(scenario: string, data: seq<AnnualData>)
    requires |data| > 0
    ensures var r := GenerateReport(scenario, data);
      var current := Total(HistoricalData[|HistoricalData| - 1]);
      var final := Total(data[|data| - 1]);
      && r.keyMetrics[0].value == Tonnes(current)
      && r.keyMetrics[1].value == Tonnes(final)
      && r.keyMetrics[2].value == SignedPercent(PercentChange(current, final))
      && ParseDecimal(Tonnes(current)[..|Tonnes(current)| - 3]) == Some(RoundAway(current, 1))
      && ParseDecimal(Tonnes(final)[..|Tonnes(final)| - 3]) == Some(RoundAway(final, 1))
  {
    TonnesReadBack(Total(HistoricalData[|HistoricalData| - 1]));
    TonnesReadBack(Total(data[|data| - 1]));
  }

  /** The current figure is that of 2024-25: 61 + 5 + 23 = 89. */
  lemma CurrentTotal()
    ensures Total(HistoricalData[|HistoricalData| - 1]) == 89.0
  {
  }

  /** With genuine draws, the fallback's last year (2054-55) emits more in
      total than 2024-25 under BAU and less under Moderate and Aggressive:
      the first period moves the total by at least 0.38 MT, later periods
      only move further, and rounding the three scopes costs at most
      0.015 MT. */
  lemma FinalTotalDirection(s: Scenario, draws: seq<real>)
    requires |draws| == Horizon && ValidDraws(draws)
    ensures var final := Total(ForecastOf(Name(s), draws)[|HistoricalData| + Horizon - 1]);
      if s == BAU then final > 89.0 else final < 89.0
  {
    var seed := Seed(HistoricalData[|HistoricalData| - 1]);
    var d := Rates(s);
    ParseName(s);
    assert SwitchDrift(Name(s)) == d;
    LastRecord(seed, d, draws, TypeScript);
    var cur := RunningAfter(seed, d, draws);
    assert ForecastOf(Name(s), draws)[|HistoricalData| + Horizon - 1] == Record(TypeScript, cur, Horizon);
    RecordTotal(TypeScript, cur, Horizon);
    assert PositiveScopes(seed);
    FirstPeriodBounds(seed, s, draws);
  }

  /** End to end: the report on the fallback forecast shows a '+' change
      exactly under BAU. */
  lemma ReportDirection(s: Scenario, draws: seq<real>)
    requires |draws| == Horizon && ValidDraws(draws)
    ensures var r := GenerateReport(Name(s), GenerateForecastOf(s, draws));
      r.keyMetrics[2].value[0] == '+' <==> s == BAU
  {
    FinalTotalDirection(s, draws);
    CurrentTotal();
  }

  function GenerateForecastOf(s: Scenario, draws: seq<real>): seq<AnnualData>
  {
    ForecastOf(Name(s), draws)
  }
}
