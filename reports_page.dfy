/** The reports page: the figures its effect derives from the fallback
    forecast, the scenario-keyed lookups that fill in the prose, and the
    small state machine of the selected scenario, the stored report and the
    loading flag. */
module ReportsPage {
  import opened Numbers
  import opened Decimal
  import opened Emissions
  import opened Projection
  import ClientData

  /** The executive summary: the empty string for a key the table lacks,
      otherwise the scenario's prose with the final total and the percent
      change written into it with one decimal. The prose is not modelled. */
  datatype ExecutiveSummary = NoSummary | ScenarioSummary(scenario: Scenario, emissionsText: string, changeText: string)

  /** A section of the detailed analysis; its paragraph is not modelled. */
  datatype Section = Section(title: string)

  /** A recommended action with its investment range and timeline; its
      description is not modelled. */
  datatype Recommendation = Recommendation(title: string, investment: string, timeline: string)

  /** The risk paragraph: the empty string for a key the table lacks,
      otherwise the scenario's fixed text (not modelled). */
  datatype Risks = NoRisks | ScenarioRisks(scenario: Scenario)

  /** The metrics the page shows: totals and change as toFixed(1) strings,
      each scope's current value as the raw number and its projected value
      as a toFixed(1) string. */
  datatype Metrics = Metrics(
    currentEmissions: string,
    projectedEmissions: string,
    percentChange: string,
    scope1Current: real,
    scope1Projected: string,
    scope2Current: real,
    scope2Projected: string,
    scope3Current: real,
    scope3Projected: string)

  datatype PageReport = PageReport(
    scenario: string,
    executiveSummary: ExecutiveSummary,
    metrics: Metrics,
    detailedAnalysis: seq<Section>,
    recommendations: seq<Recommendation>,
    risks: Risks)

  /** getExecutiveSummary: the scenario's text with both figures to one
      decimal, or "" for any other key. */
  function GetExecutiveSummary(scenario: string, emissions: real, percentChange: real): (r: ExecutiveSummary)
    ensures r == NoSummary <==> Parse(scenario).None?
    ensures r.ScenarioSummary? ==>
      && r.scenario == Parse(scenario).value
      && ParseDecimal(r.emissionsText) == Some(RoundAway(emissions, 1))
      && ParseDecimal(r.changeText) == Some(RoundAway(percentChange, 1))
  {
    FixedRoundTrip(emissions, 1);
    FixedRoundTrip(percentChange, 1);
    match Parse(scenario)
    case Some(s) => ScenarioSummary(s, FixedJs(emissions, 1), FixedJs(percentChange, 1))
    case None => NoSummary
  }

  /** getDetailedAnalysis: three sections for each known scenario, [] for
      any other key. */
  function GetDetailedAnalysis(scenario: string): (r: seq<Section>)
    ensures r == [] <==> Parse(scenario).None?
    ensures Parse(scenario).Some? ==> |r| == 3
  {
    match Parse(scenario)
    case Some(BAU) =>
      [Section("Baseline Analysis"), Section("Regulatory & Market Risks"), Section("Recommendation")]
    case Some(Moderate) =>
      [Section("Efficiency Improvements"), Section("Capital Requirements"), Section("Strategy Assessment")]
    case Some(Aggressive) =>
      [Section("Transformation Investment"), Section("Technology Roadmap"), Section("Value Creation")]
    case None => []
  }

  /** getRecommendations: one action under BAU (advising against it), three
      under Moderate, four under Aggressive, [] for any other key. */
  function GetRecommendations(scenario: string): (r: seq<Recommendation>)
    ensures r == [] <==> Parse(scenario).None?
    ensures scenario == "BAU" ==> |r| == 1 && r[0].title == "Not Recommended" && r[0].investment == "$0"
    ensures scenario == "Moderate" ==> |r| == 3
    ensures scenario == "Aggressive" ==> |r| == 4
  {
    match Parse(scenario)
    case Some(BAU) =>
      [Recommendation("Not Recommended", "$0", "N/A")]
    case Some(Moderate) =>
      [ Recommendation("Renewable Energy Procurement", "$60-90M", "Years 1-3"),
        Recommendation("Energy Efficiency Projects", "$50-80M", "Years 1-5"),
        Recommendation("Supply Chain Engagement", "$20-30M", "Years 1+") ]
    case Some(Aggressive) =>
      [ Recommendation("Hydrogen Infrastructure Development", "$150-200M", "Years 2-8"),
        Recommendation("100% Renewable Electricity", "$150-200M", "Years 1-8"),
        Recommendation("Circular Supply Chain Transformation", "$50-75M", "Years 5-15"),
        Recommendation("Carbon Capture & Utilization (CCUS)", "$100-150M", "Years 8-15") ]
    case None => []
  }

  /** getRisks: the scenario's risk paragraph, or "" for any other key. */
  function GetRisks(scenario: string): (r: Risks)
    ensures r == NoRisks <==> Parse(scenario).None?
    ensures r.ScenarioRisks? ==> r.scenario == Parse(scenario).value
  {
    match Parse(scenario)
    case Some(s) => ScenarioRisks(s)
    case None => NoRisks
  }

  /** The report the effect builds from a forecast: "current" is the last
      observed year, "final" the last record of the forecast. The prose
      comes from the four lookups on the same key and figures; each scope is
      shown as its raw 2024-25 value and its final value to one decimal. */
  function ComputeReport(scenario: string, forecast: seq<AnnualData>): (r: PageReport)
    requires |forecast| > 0
    ensures r.scenario == scenario
    ensures var last := ClientData.HistoricalData[|ClientData.HistoricalData| - 1];
      && r.metrics.scope1Current == last.scope1
      && r.metrics.scope2Current == last.scope2
      && r.metrics.scope3Current == last.scope3
    ensures var final := forecast[|forecast| - 1];
      && ParseDecimal(r.metrics.scope1Projected) == Some(RoundAway(final.scope1, 1))
      && ParseDecimal(r.metrics.scope2Projected) == Some(RoundAway(final.scope2, 1))
      && ParseDecimal(r.metrics.scope3Projected) == Some(RoundAway(final.scope3, 1))
    ensures var current := Total(ClientData.HistoricalData[|ClientData.HistoricalData| - 1]);
      var final := Total(forecast[|forecast| - 1]);
      current != 0.0 && r.executiveSummary == GetExecutiveSummary(scenario, final, PercentChange(current, final))
    ensures r.detailedAnalysis == GetDetailedAnalysis(scenario)
    ensures r.recommendations == GetRecommendations(scenario)
    ensures r.risks == GetRisks(scenario)
  {
    FixedRoundTrip(forecast[|forecast| - 1].scope1, 1);
    FixedRoundTrip(forecast[|forecast| - 1].scope2, 1);
    FixedRoundTrip(forecast[|forecast| - 1].scope3, 1);
    var lastHistorical := ClientData.HistoricalData[|ClientData.HistoricalData| - 1];
    var finalForecast := forecast[|forecast| - 1];
    var totalEmissionsCurrent := Total(lastHistorical);
    var totalEmissionsFinal := Total(finalForecast);
    var percentChange := PercentChange(totalEmissionsCurrent, totalEmissionsFinal);
    PageReport(
      scenario,
      GetExecutiveSummary(scenario, totalEmissionsFinal, percentChange),
      Metrics(
        FixedJs(totalEmissionsCurrent, 1),
        FixedJs(totalEmissionsFinal, 1),
        FixedJs(percentChange, 1),
        lastHistorical.scope1,
        FixedJs(finalForecast.scope1, 1),
        lastHistorical.scope2,
        FixedJs(finalForecast.scope2, 1),
        lastHistorical.scope3,
        FixedJs(finalForecast.scope3, 1)),
      GetDetailedAnalysis(scenario),
      GetRecommendations(scenario),
      GetRisks(scenario))
  }

  /** The shown totals and change read back as the current and final totals
      and the percent change between them, each rounded to one decimal. */
  lemma MetricsReadBack(scenario: string, forecast: seq<AnnualData>)
    requires |forecast| > 0
    ensures var m := ComputeReport(scenario, forecast).metrics;
      var current := Total(ClientData.HistoricalData[|ClientData.HistoricalData| - 1]);
      var final := Total(forecast[|forecast| - 1]);
      && ParseDecimal(m.currentEmissions) == Some(RoundAway(current, 1))
      && ParseDecimal(m.projectedEmissions) == Some(RoundAway(final, 1))
      && ParseDecimal(m.percentChange) == Some(RoundAway(PercentChange(current, final), 1))
  {
    var current := Total(ClientData.HistoricalData[|ClientData.HistoricalData| - 1]);
    var final := Total(forecast[|forecast| - 1]);
    FixedRoundTrip(current, 1);
    FixedRoundTrip(final, 1);
    FixedRoundTrip(PercentChange(current, final), 1);
  }

  /** For a key the tables lack, the stored report has no summary, no
      analysis, no recommendations and no risks; for a known key all four
      are filled in. */
  lemma UnknownKeyReport(scenario: string, forecast: seq<AnnualData>)
    requires |forecast| > 0
    ensures var r := ComputeReport(scenario, forecast);
      Parse(scenario).None? <==>
        (r.executiveSummary == NoSummary && r.detailedAnalysis == [] && r.recommendations == [] && r.risks == NoRisks)
    ensures var r := ComputeReport(scenario, forecast);
      Parse(scenario).Some? ==>
        (r.executiveSummary.ScenarioSummary? && |r.detailedAnalysis| == 3 && |r.recommendations| > 0 && r.risks.ScenarioRisks?)
  {
  }

  /** The page and generateReport agree on the same data: the page's totals
      are the report's key metrics without their " MT", and the page's
      summary carries the same two figures as the report's. */
  lemma AgreesWithGenerateReport(s: Scenario, data: seq<AnnualData>)
    requires |data| > 0
    ensures var page := ComputeReport(Name(s), data);
      var report := ClientData.GenerateReport(Name(s), data);
      && page.metrics.currentEmissions + " MT" == report.keyMetrics[0].value
      && page.metrics.projectedEmissions + " MT" == report.keyMetrics[1].value
      && page.executiveSummary.ScenarioSummary?
      && page.executiveSummary.emissionsText == report.summary.finalText
      && page.executiveSummary.changeText == report.summary.changeText
  {
    ParseName(s);
    ClientData.ReportFigures(Name(s), data);
  }

  /** What the effect stores for a scenario and the draws of Math.random():
      the report on the fallback forecast. */
  function ReportFor(scenario: string, draws: seq<real>): PageReport
    requires |draws| == ClientData.Horizon
  {
    ComputeReport(scenario, ClientData.ForecastOf(scenario, draws))
  }

  /** With genuine draws the shown change starts with '-' exactly under
      Moderate and Aggressive: only BAU ends above today's total. */
  lemma ChangeSign(s: Scenario, draws: seq<real>)
    requires |draws| == ClientData.Horizon && ValidDraws(draws)
    ensures var shown := ReportFor(Name(s), draws).metrics.percentChange;
      |shown| > 0 && (shown[0] == '-' <==> s != BAU)
  {
    var forecast := ClientData.ForecastOf(Name(s), draws);
    ClientData.ForecastShape(Name(s), draws);
    ClientData.FinalTotalDirection(s, draws);
    ClientData.CurrentTotal();
    var current := Total(ClientData.HistoricalData[|ClientData.HistoricalData| - 1]);
    var final := Total(forecast[|forecast| - 1]);
    var pc := PercentChange(current, final);
    assert pc < 0.0 <==> s != BAU;
    FixedLeadingChar(pc, 1);
  }

  /** The page's state: the selected scenario key, the last report stored
      (none before the first effect) and whether the skeleton is shown. */
  class Page {
    var selectedScenario: string
    var reportData: Option<PageReport>
    var isLoading: bool

    /** The page opens on Aggressive, with no report and the skeleton. */
    constructor()
      ensures selectedScenario == "Aggressive" && reportData == None && isLoading
    {
      selectedScenario := "Aggressive";
      reportData := None;
      isLoading := true;
    }

    /** The skeleton is shown while loading or before any report exists; it
        has no scenario buttons. */
    predicate ShowsSkeleton()
      reads this
    {
      isLoading || reportData.None?
    }

    /** The page shows a report, and it is the report of the selected key. */
    predicate ShowsSelected()
      reads this
    {
      !ShowsSkeleton() && reportData.value.scenario == selectedScenario
    }

    /** A scenario button: select the key and show the skeleton; the report
      on screen is not touched until the effect runs. */
    method SelectScenario(id: string)
      modifies this
      ensures selectedScenario == id && isLoading && reportData == old(reportData)
      ensures ShowsSkeleton()
    {
      selectedScenario := id;
      isLoading := true;
    }

    /** The effect keyed on the selected scenario: forecast, build the report,
        store it and clear the loading flag. */
    method Effect(draws: seq<real>)
      requires |draws| == ClientData.Horizon
      modifies this
      ensures selectedScenario == old(selectedScenario)
      ensures reportData == Some(ReportFor(selectedScenario, draws))
      ensures !isLoading && !ShowsSkeleton() && ShowsSelected()
    {
      var scenario := selectedScenario;
      var forecast := ClientData.GenerateForecast(scenario, draws);
      ClientData.ForecastShape(scenario, draws);
      var report := ComputeReport(selectedScenario, forecast);
      reportData := Some(report);
      isLoading := false;
    }

    /** A click followed by what React does next. The effect depends on the
        selected key alone, so it runs only when the click changes the key;
        clicking the key already selected sets the loading flag and nothing
        clears it, so the skeleton stays. */
    method Click(id: string, draws: seq<real>)
      requires |draws| == ClientData.Horizon
      modifies this
      ensures selectedScenario == id
      ensures id != old(selectedScenario) ==> reportData == Some(ReportFor(id, draws)) && !ShowsSkeleton()
      ensures id == old(selectedScenario) ==> isLoading && reportData == old(reportData) && ShowsSkeleton()
    {
      var before := selectedScenario;
      SelectScenario(id);
      if id != before {
        Effect(draws);
      }
    }

    /** The handler as evidently intended: the key already selected keeps its
        report on screen, and any other key gets its own report. */
    method ClickIntended(id: string, draws: seq<real>)
      requires |draws| == ClientData.Horizon
      requires ShowsSelected()
      modifies this
      ensures selectedScenario == id && ShowsSelected()
      ensures id != old(selectedScenario) ==> reportData == Some(ReportFor(id, draws))
      ensures id == old(selectedScenario) ==> reportData == old(reportData)
    {
      if id != selectedScenario {
        SelectScenario(id);
        Effect(draws);
      }
    }
  }

  /** The page as written gets stuck: after the first report is on screen,
      clicking the button of the key already selected leaves the skeleton,
      which has no buttons, for good. */
  method ReclickSticks(draws: seq<real>) returns (stuck: bool)
    requires |draws| == ClientData.Horizon
    ensures stuck
  {
    var page := new Page();
    page.Effect(draws);
    var shown := !page.ShowsSkeleton();
    page.Click("Aggressive", draws);
    stuck := shown && page.ShowsSkeleton() && page.isLoading;
  }

  /** The intended handler on the same clicks keeps the report on screen. */
  method ReclickKeepsReport(draws: seq<real>) returns (shown: bool)
    requires |draws| == ClientData.Horizon
    ensures shown
  {
    var page := new Page();
    page.Effect(draws);
    page.ClickIntended("Aggressive", draws);
    shown := !page.ShowsSkeleton() && page.reportData == Some(ReportFor("Aggressive", draws));
  }
}
