/** The backend's forecast service: its own copy of the projection loop, and
    the request handlers for the forecast, the model confidence and the
    history, with the defaults they fill in when the model metadata file is
    missing or incomplete. */
module ForecastApi {
  import opened Numbers
  import opened Decimal
  import opened Emissions
  import opened Projection
  import ClientData

  /** A JSON value as json.load returns it. */
  datatype Json = JNull | JBool(b: bool) | JNum(n: real) | JStr(s: string) | JArr(items: seq<Json>) | JObj(fields: map<string, Json>)

  /** The outcome of a request: a response, or an HTTP error status. */
  datatype Outcome<T> = Ok(value: T) | HttpError(status: int)

  /** The history as the forecast helper lays it out, one list per column. */
  datatype Columns = Columns(
    year: seq<string>, scope1: seq<real>, scope2: seq<real>, scope3: seq<real>,
    production: seq<real>, revenue: seq<real>)

  const HistoricalColumns := Columns(
    ["2020-21", "2021-22", "2022-23", "2023-24", "2024-25"],
    [33.0, 49.0, 50.0, 59.0, 61.0],
    [4.0, 5.0, 6.0, 5.0, 5.0],
    [5.0, 6.0, 7.0, 22.0, 23.0],
    [12.19, 18.38, 18.97, 20.12, 20.72],
    [156294.0, 243959.0, 243353.0, 140987.0, 218543.0])

  /** The running values start from the last entry of every column. */
  function ColumnsSeed(c: Columns): Running
    requires |c.scope1| > 0 && |c.scope2| > 0 && |c.scope3| > 0 && |c.production| > 0 && |c.revenue| > 0
  {
    Running(c.scope1[|c.scope1| - 1], c.scope2[|c.scope2| - 1], c.scope3[|c.scope3| - 1],
            c.production[|c.production| - 1], c.revenue[|c.revenue| - 1])
  }

  /** The backend and the browser fallback start from the same year. */
  lemma SameSeed()
    ensures ColumnsSeed(HistoricalColumns) == Seed(ClientData.HistoricalData[|ClientData.HistoricalData| - 1])
  {
  }

  /** scenario_params.get(scenario, scenario_params["BAU"]): an unknown key
      falls back to the BAU row. */
  function ParamsFor(scenario: string): (d: Drift)
    ensures Parse(scenario).Some? ==> d == Rates(Parse(scenario).value)
    ensures Parse(scenario).None? ==> d == Rates(BAU)
  {
    match Parse(scenario)
    case Some(s) => Rates(s)
    case None => Rates(BAU)
  }

  /** range(1, years + 1) runs max(years, 0) times. */
  function Periods(years: int): (n: nat)
    ensures years >= 0 ==> n == years
    ensures years < 0 ==> n == 0
  {
    if years > 0 then years else 0
  }

  /** What generate_forecast returns for a scenario key, a horizon and the
      draws of np.random.random(): the Python projection from the last
      historical year, without the history. */
  function ForecastOf(scenario: string, draws: seq<real>): seq<AnnualData>
  {
    Projected(ColumnsSeed(HistoricalColumns), ParamsFor(scenario), draws, Store(Python))
  }

  /** generate_forecast: for each period grow production and revenue, move
      the scopes by the scenario's parameters plus the period's noise, floor
      them at zero and append round(x, 2) copies. */
  method GenerateForecast(scenario: string, years: int, draws: seq<real>) returns (forecastData: seq<AnnualData>)
    requires |draws| == Periods(years)
    ensures forecastData == ForecastOf(scenario, draws)
  {
    var params := ParamsFor(scenario);
    var currentScope1 := HistoricalColumns.scope1[|HistoricalColumns.scope1| - 1];
    var currentScope2 := HistoricalColumns.scope2[|HistoricalColumns.scope2| - 1];
    var currentScope3 := HistoricalColumns.scope3[|HistoricalColumns.scope3| - 1];
    var currentProduction := HistoricalColumns.production[|HistoricalColumns.production| - 1];
    var currentRevenue := HistoricalColumns.revenue[|HistoricalColumns.revenue| - 1];
    forecastData := [];
    var startYear := 2025;
    ghost var seed := ColumnsSeed(HistoricalColumns);

    for i := 1 to Periods(years) + 1
      invariant Running(currentScope1, currentScope2, currentScope3, currentProduction, currentRevenue)
             == RunningAfter(seed, params, draws[..i - 1])
      invariant forecastData == Projected(seed, params, draws[..i - 1], Store(Python))
    {
      ghost var before := Running(currentScope1, currentScope2, currentScope3, currentProduction, currentRevenue);
      var yearLabel := FiscalLabel(Python, startYear + i - 1);
      currentProduction := currentProduction * GrowthFactor;
      currentRevenue := currentRevenue * GrowthFactor;

      var noise := Noise(draws[i - 1]);
      currentScope1 := Scale(currentScope1, params.s1, noise);
      currentScope2 := Scale(currentScope2, params.s2, noise);
      currentScope3 := Scale(currentScope3, params.s3, noise);

      var record := AnnualData(
        yearLabel,
        RoundEven(currentScope1, 2),
        RoundEven(currentScope2, 2),
        RoundEven(currentScope3, 2),
        RoundEven(currentProduction, 2),
        RoundEven(currentRevenue, 2),
        false);
      AfterPeriod(before, params, noise, currentScope1, currentScope2, currentScope3, currentProduction, currentRevenue);
      ghost var after := Running(currentScope1, currentScope2, currentScope3, currentProduction, currentRevenue);
      StoredRecord(Python, after, i, record);
      ExtendProjection(seed, params, draws, Store(Python), i, forecastData, before, after, record);
      forecastData := forecastData + [record];
    }
    assert draws[..Periods(years)] == draws;
  }

  /** The helper's result has one record per period and no history: every
      record is projected, labelled with consecutive fiscal years from
      2025, and has no negative scope. */
  lemma ForecastShape(scenario: string, years: int, draws: seq<real>)
    requires |draws| == Periods(years)
    ensures var data := ForecastOf(scenario, draws);
      && |data| == Periods(years)
      && forall i :: 0 <= i < |data| ==>
           && !data[i].isHistorical
           && data[i].year == FiscalLabel(Python, 2025 + i)
           && data[i].scope1 >= 0.0 && data[i].scope2 >= 0.0 && data[i].scope3 >= 0.0
  {
    ProjectedRecords(ColumnsSeed(HistoricalColumns), ParamsFor(scenario), draws, Python);
  }

  /** An unrecognised key gives exactly the BAU forecast. */
  lemma UnknownIsBau(scenario: string, draws: seq<real>)
    requires Parse(scenario).None?
    ensures ForecastOf(scenario, draws) == ForecastOf("BAU", draws)
  {
    assert ParamsFor(scenario) == ParamsFor("BAU");
  }

  /** Python's truthiness of the loaded metadata: absent or an empty object
      counts as false. */
  predicate Loaded(metadata: Option<map<string, Json>>)
  {
    metadata.Some? && |metadata.value| > 0
  }

  /** dict.get(key, default). */
  function Get(fields: map<string, Json>, key: string, default: Json): (v: Json)
    ensures key in fields ==> v == fields[key]
    ensures key !in fields ==> v == default
  {
    if key in fields then fields[key] else default
  }

  /** value.get(key, default) where value must be a dict; on anything else
      Python raises an AttributeError, which the server answers with 500. */
  function GetIn(value: Json, key: string, default: Json): (r: Outcome<Json>)
    ensures value.JObj? <==> r.Ok?
    ensures value.JObj? ==> r.value == Get(value.fields, key, default)
  {
    match value
    case JObj(fields) => Ok(Get(fields, key, default))
    case _ => HttpError(500)
  }

  /** The body of a forecast response. */
  datatype ForecastResponse = ForecastResponse(scenario: string, data: seq<AnnualData>, confidence: Json, metrics: Json)

  /** The query validator: the parameter defaults to "Aggressive" and must
      match ^(BAU|Moderate|Aggressive)$, else the request is refused with
      422. */
  function ValidateScenario(scenario: Option<string>): (r: Outcome<string>)
    ensures scenario.None? ==> r == Ok("Aggressive")
    ensures scenario.Some? ==> (r.Ok? <==> Parse(scenario.value).Some?)
    ensures r.Ok? ==> Parse(r.value).Some?
    ensures r.HttpError? ==> r.status == 422
  {
    match scenario
    case None => Ok("Aggressive")
    case Some(s) => if Parse(s).Some? then Ok(s) else HttpError(422)
  }

  /** get_forecast: a validated scenario's 30-year forecast with the model's
      confidence (89.2 unless loaded metadata says otherwise) and metrics
      (an empty object unless loaded metadata has them). */
  function GetForecast(scenario: Option<string>, metadata: Option<map<string, Json>>, draws: seq<real>): (r: Outcome<ForecastResponse>)
    requires |draws| == 30
    ensures r.Ok? <==> ValidateScenario(scenario).Ok?
    ensures r.HttpError? ==> r.status == 422
    ensures r.Ok? ==> (r.value.scenario == ValidateScenario(scenario).value
                       && r.value.data == ForecastOf(r.value.scenario, draws))
    ensures r.Ok? && !Loaded(metadata) ==> r.value.confidence == JNum(89.2) && r.value.metrics == JObj(map[])
    ensures r.Ok? && Loaded(metadata) && "confidence" in metadata.value ==> r.value.confidence == metadata.value["confidence"]
    ensures r.Ok? && Loaded(metadata) && "confidence" !in metadata.value ==> r.value.confidence == JNum(89.2)
    ensures r.Ok? && Loaded(metadata) && "metrics" in metadata.value ==> r.value.metrics == metadata.value["metrics"]
    ensures r.Ok? && Loaded(metadata) && "metrics" !in metadata.value ==> r.value.metrics == JObj(map[])
  {
    match ValidateScenario(scenario)
    case HttpError(status) => HttpError(status)
    case Ok(s) =>
      var confidence := if Loaded(metadata) then Get(metadata.value, "confidence", JNum(89.2)) else JNum(89.2);
      var metrics := if Loaded(metadata) then Get(metadata.value, "metrics", JObj(map[])) else JObj(map[]);
      Ok(ForecastResponse(s, ForecastOf(s, draws), confidence, metrics))
  }

  /** get_forecast always answers with 30 projected records and never with
      history. */
  lemma ForecastResponseShape(scenario: Option<string>, metadata: Option<map<string, Json>>, draws: seq<real>)
    requires |draws| == 30
    requires GetForecast(scenario, metadata, draws).Ok?
    ensures var data := GetForecast(scenario, metadata, draws).value.data;
      |data| == 30 && forall i :: 0 <= i < |data| ==> !data[i].isHistorical
  {
    ForecastShape(GetForecast(scenario, metadata, draws).value.scenario, 30, draws);
  }

  /** The body of a confidence response. */
  datatype ConfidenceResponse = ConfidenceResponse(
    overall: Json,
    scope1Mape: Json, scope2Mape: Json, scope3Mape: Json,
    scope1R2: Json, scope2R2: Json, scope3R2: Json,
    trainingDate: Json)

  /** metrics.get(scope, {}).get(field, 0). */
  function ScopeFigure(metrics: Json, scope: string, field: string): Outcome<Json>
  {
    match GetIn(metrics, scope, JObj(map[]))
    case HttpError(status) => HttpError(status)
    case Ok(perScope) => GetIn(perScope, field, JNum(0.0))
  }

  /** A per-scope entry .get can be called on: absent, or a dict. */
  predicate ScopeEntryOk(metrics: map<string, Json>, scope: string)
  {
    scope !in metrics || metrics[scope].JObj?
  }

  /** The metrics value get_confidence can read every figure from: a dict
      whose three scope entries are absent or dicts. */
  predicate MetricsReadable(metrics: Json)
  {
    metrics.JObj?
    && ScopeEntryOk(metrics.fields, "scope1")
    && ScopeEntryOk(metrics.fields, "scope2")
    && ScopeEntryOk(metrics.fields, "scope3")
  }

  /** The figure the metadata records for a scope and field, or 0 when the
      scope or the field is absent. */
  function Recorded(metrics: Json, scope: string, field: string): Json
  {
    if metrics.JObj? && scope in metrics.fields && metrics.fields[scope].JObj? && field in metrics.fields[scope].fields
    then metrics.fields[scope].fields[field]
    else JNum(0.0)
  }

  /** The metrics get_confidence reads: the recorded ones, or {}. */
  function MetricsOf(metadata: map<string, Json>): Json
  {
    Get(metadata, "metrics", JObj(map[]))
  }

  /** get_confidence: 503 without loaded metadata; 500 when the metrics or a
      scope's entry is not a dict; otherwise the overall confidence (default
      89.2), each scope's MAPE and R² as recorded (0 when the scope or the
      field is absent) and the training date (default "Unknown"). */
  function GetConfidence(metadata: Option<map<string, Json>>): (r: Outcome<ConfidenceResponse>)
    ensures !Loaded(metadata) <==> r == HttpError(503)
    ensures Loaded(metadata) ==> (r == HttpError(500) <==> !MetricsReadable(MetricsOf(metadata.value)))
    ensures r.Ok? ==> (r.value.overall == Get(metadata.value, "confidence", JNum(89.2))
                       && r.value.trainingDate == Get(metadata.value, "training_date", JStr("Unknown")))
    ensures r.Ok? ==> var metrics := MetricsOf(metadata.value);
      && r.value.scope1Mape == Recorded(metrics, "scope1", "mape")
      && r.value.scope2Mape == Recorded(metrics, "scope2", "mape")
      && r.value.scope3Mape == Recorded(metrics, "scope3", "mape")
      && r.value.scope1R2 == Recorded(metrics, "scope1", "r2")
      && r.value.scope2R2 == Recorded(metrics, "scope2", "r2")
      && r.value.scope3R2 == Recorded(metrics, "scope3", "r2")
  {
    if !Loaded(metadata) then HttpError(503)
    else
      var m := metadata.value;
      var metrics := Get(m, "metrics", JObj(map[]));
      var s1m := ScopeFigure(metrics, "scope1", "mape");
      var s2m := ScopeFigure(metrics, "scope2", "mape");
      var s3m := ScopeFigure(metrics, "scope3", "mape");
      var s1r := ScopeFigure(metrics, "scope1", "r2");
      var s2r := ScopeFigure(metrics, "scope2", "r2");
      var s3r := ScopeFigure(metrics, "scope3", "r2");
      if s1m.HttpError? || s2m.HttpError? || s3m.HttpError? || s1r.HttpError? || s2r.HttpError? || s3r.HttpError?
      then HttpError(500)
      else Ok(ConfidenceResponse(
        Get(m, "confidence", JNum(89.2)),
        s1m.value, s2m.value, s3m.value, s1r.value, s2r.value, s3r.value,
        Get(m, "training_date", JStr("Unknown"))))
  }

  /** Loaded metadata without metrics reports every MAPE and R² as 0. */
  lemma MissingMetricsAreZero(metadata: Option<map<string, Json>>)
    requires Loaded(metadata) && "metrics" !in metadata.value
    ensures GetConfidence(metadata).Ok?
    ensures var r := GetConfidence(metadata).value;
      && r.scope1Mape == JNum(0.0) && r.scope2Mape == JNum(0.0) && r.scope3Mape == JNum(0.0)
      && r.scope1R2 == JNum(0.0) && r.scope2R2 == JNum(0.0) && r.scope3R2 == JNum(0.0)
  {
  }

  /** The MAPE (field "mape") or R² (field "r2") a response reports for a
      scope. */
  function Reported(r: ConfidenceResponse, scope: string, field: string): Json
  {
    if field == "mape" then
      (if scope == "scope1" then r.scope1Mape else if scope == "scope2" then r.scope2Mape else r.scope3Mape)
    else
      (if scope == "scope1" then r.scope1R2 else if scope == "scope2" then r.scope2R2 else r.scope3R2)
  }

  /** For any readable metrics, a scope's reported MAPE or R² is the value
      its entry records, and 0 when the entry or the field is absent. */
  lemma RecordedFiguresPassThrough(metadata: Option<map<string, Json>>, scope: string, field: string)
    requires Loaded(metadata) && MetricsReadable(MetricsOf(metadata.value))
    requires scope == "scope1" || scope == "scope2" || scope == "scope3"
    requires field == "mape" || field == "r2"
    ensures GetConfidence(metadata).Ok?
    ensures var metrics := MetricsOf(metadata.value).fields;
      var shown := Reported(GetConfidence(metadata).value, scope, field);
      && (scope in metrics && field in metrics[scope].fields ==> shown == metrics[scope].fields[field])
      && (scope !in metrics || field !in metrics[scope].fields ==> shown == JNum(0.0))
  {
  }

  /** The body of a history response: {"data": [...]}. */
  datatype HistoricalResponse = HistoricalResponse(data: seq<AnnualData>)

  /** get_historical: the five observed years, in order, all marked
      historical — the same records the browser keeps. */
  function GetHistorical(): (r: HistoricalResponse)
    ensures r.data == ClientData.HistoricalData
    ensures |r.data| == 5 && forall i :: 0 <= i < |r.data| ==> r.data[i].isHistorical
  {
    HistoricalResponse([
      AnnualData("2020-21", 33.0, 4.0, 5.0, 12.19, 156294.0, true),
      AnnualData("2021-22", 49.0, 5.0, 6.0, 18.38, 243959.0, true),
      AnnualData("2022-23", 50.0, 6.0, 7.0, 18.97, 243353.0, true),
      AnnualData("2023-24", 59.0, 5.0, 22.0, 20.12, 140987.0, true),
      AnnualData("2024-25", 61.0, 5.0, 23.0, 20.72, 218543.0, true)
    ])
  }

  /** The history the endpoint serves and the columns the forecast helper
      starts from hold the same years and figures. */
  lemma HistoryAgrees()
    ensures var h := GetHistorical().data;
      forall i :: 0 <= i < |h| ==>
        && h[i].year == HistoricalColumns.year[i]
        && h[i].scope1 == HistoricalColumns.scope1[i] && h[i].scope2 == HistoricalColumns.scope2[i]
        && h[i].scope3 == HistoricalColumns.scope3[i] && h[i].production == HistoricalColumns.production[i]
        && h[i].revenue == HistoricalColumns.revenue[i]
  {
  }
}
