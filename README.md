# Emissions forecasting core

This project models, in Dafny, the computing core of an emissions-forecasting dashboard for one steel facility. It covers three scopes of greenhouse-gas emissions, physical output and revenue over five observed fiscal years (2020-21 to 2024-25). The core has three parts:

- **Scenario projection.** A shared drift table gives each scope a per-period rate under three scenarios: BAU, Moderate and Aggressive.
  - Production and revenue grow 2% a period.
  - One noise draw per period moves all three scopes together.
  - Scopes are floored at zero, and every stored number is rounded to two decimals.
- **Three copies of the projection:**
  - the client's fallback, `generateForecast` in `client/src/lib/data.ts`;
  - the backend service's `generate_forecast` in `ml_backend/api.py`;
  - the training script's `forecast_emissions` in `ml_backend/train_model.py`.

  They differ as follows:

  | Behaviour | data.ts | api.py | train_model.py |
  |---|---|---|---|
  | Unknown scenario key | no drift | BAU rates | `KeyError` |
  | Rounding of stored values | `toFixed(2)`: half away from zero | `round(x, 2)`: half to even | `round(x, 2)`: half to even |
  | Year-label suffix | `slice(2)` | `[-2:]` | `[-2:]` |

- **Derived figures:**
  - the report built by `generateReport`;
  - the metrics and scenario-keyed lookups of the reports page, with its selected-scenario / report / loading state;
  - the overview cards: total, year-on-year change, emission intensity, and the arrow and colour of each change;
  - the training script's feature frame (`create_features`) and overall confidence;
  - the backend endpoints' defaults: `get_forecast`, `get_confidence`, `get_historical`.

## How the model is written

Modelling choices:

- **Numbers are `real`.** JavaScript's `toFixed(p)` is modelled as rounding half away from zero (`Numbers.RoundAway`) and printed by `Decimal.FixedJs`. Python's `round` is modelled as half to even (`Numbers.RoundEven`).
- **The random source is a parameter.** Each projection takes `draws: seq<real>`, one uniform draw from [0, 1) per period, so every projection is a function of its inputs.
- **The three projection loops are methods.** `ClientData.GenerateForecast` and `ForecastApi.GenerateForecast` are methods with the source's loop and variables, and so is `TrainModel.ForecastEmissions`. Each is proved equal to the specification function `Projection.Projected`, and the properties are proved about that function.
- **The reports page is a class.** `ReportsPage.Page` holds the page's three pieces of React state as fields. Its methods are the button handler and the effect.
- **pandas arithmetic** is modelled with `TrainModel.Float`, a float that can also be infinite or NaN, so a division by a zero column entry keeps its IEEE outcome.

Facts about the code that a reader might not expect:

- The report title is `Emissions Forecast Report: <scenario> Scenario`.
- In `generateReport` (client/src/lib/data.ts:122-135), any key other than BAU and Moderate gets the Aggressive narrative (`ClientData.NarrativeFor`). Only the reports page's lookups fall back to "".
- `generateReport`, the reports page and the overview cards divide by the current total, by last year's total and by production without a check. The model requires a non-zero divisor there (see Left out).
- On the reports page, clicking the button of the scenario already selected leaves the loading skeleton up for good (see Findings).

## Model

| member | source | states |
|---|---|---|
| ClientData.HistoricalShape | client/src/lib/data.ts:21-27 | five observed years, all marked historical, the last labelled 2024-25, and the first projected label is 2025-26 |
| ClientData.SwitchDrift | client/src/lib/data.ts:63-83 | a known key gets its row of the drift table; an unknown key falls through the switch with all three changes still zero, and only then |
| ClientData.ScenarioChanges | client/src/lib/data.ts:63-83 | the switch's three assignments equal the scenario's drift (zero for an unknown key) |
| ClientData.GenerateForecast | client/src/lib/data.ts:42-109 | the loop returns the history followed by the projection of the last observed year over the 30 draws, records stored with toFixed(2) |
| ClientData.ForecastShape | client/src/lib/data.ts:50-105 | 35 records: the history unchanged as prefix, then only projected records, labelled with consecutive fiscal years from 2025-26, with no negative scope |
| ClientData.NarrativeFor | client/src/lib/data.ts:122-135 | BAU and Moderate get their own narrative; every other key gets the Aggressive one |
| ClientData.SignedPercent | client/src/lib/data.ts:143 | the shown change starts with '+' exactly when the change is positive |
| ClientData.TonnesReadBack | client/src/lib/data.ts:141-142 | a shown total without " MT" reads back as the total rounded to one decimal |
| ClientData.SignedPercentReadBack | client/src/lib/data.ts:143 | the shown change, without its '+' and '%', reads back as the change rounded to one decimal |
| ClientData.GenerateReport | client/src/lib/data.ts:111-146 | the title names the scenario; the narrative is chosen by key; three key metrics with their labels; the change shows '+' iff the final total exceeds the 2024-25 total |
| ClientData.ReportFigures | client/src/lib/data.ts:140-144 | the key metrics are the current total, the final total and the percent change between them, each readable back to one decimal |
| ClientData.CurrentTotal | client/src/lib/data.ts:112-114 | the report's current total is 89 MT (2024-25) |
| ClientData.FinalTotalDirection | client/src/lib/data.ts:54-105 | with genuine draws, the 2054-55 total is above 89 MT under BAU and below it under Moderate and Aggressive |
| ClientData.ReportDirection | client/src/lib/data.ts:111-146 | the report on the fallback forecast shows a '+' change exactly under BAU |
| Emissions.PercentChange | client/src/lib/data.ts:116 | from a positive base, the change is positive iff the value rose and negative iff it fell |
| Emissions.PercentChangeInverse | client/src/lib/data.ts:116 | applying the percent change to the base gives back the new value |
| Emissions.Parse | client/src/lib/data.ts:15 | a key names a scenario iff it is one of the three spellings, and names it exactly |
| Emissions.ParseName | client/src/lib/data.ts:15 | parsing a scenario's own name gives the scenario back |
| Emissions.Rates | client/src/lib/data.ts:67-82 | BAU raises all three scopes, Moderate and Aggressive lower all three; every rate lies between -15% and +2% |
| Emissions.DialectsAgree | client/src/lib/data.ts:55 | for four-digit years the TypeScript and Python labels agree and read "YYYY-YY", with the year and the last two digits of the next year |
| Emissions.DialectsDiffer | ml_backend/api.py:118 | for the year 9999 the two spellings part: `slice(2)` keeps three digits of 10000 and `[-2:]` two |
| Projection.NoiseRange | client/src/lib/data.ts:86 | a draw from [0, 1) gives noise in [-0.5%, +0.5%) |
| Projection.Scale | client/src/lib/data.ts:88-95 | a scope after one period is never negative |
| Projection.Step | client/src/lib/data.ts:57-95 | one period leaves no scope negative |
| Projection.StoreTs | client/src/lib/data.ts:99-103 | parseFloat(x.toFixed(2)) is x rounded to two decimals, ties away from zero |
| Projection.StoredValue | ml_backend/api.py:137-141 | a stored value is within 0.005 of the running value and keeps a non-negative value non-negative, in both languages |
| Projection.Record | client/src/lib/data.ts:97-105 | a pushed record is marked projected and has no negative scope when the running scopes have none |
| Projection.Projected | client/src/lib/data.ts:54-106 | one record per draw |
| Projection.ProjectedAt | client/src/lib/data.ts:54-106 | record i is stored from the running values after i + 1 periods, with period number i + 1 |
| Projection.ExtendProjection | client/src/lib/data.ts:54-106 | one more loop iteration advances the running values by one step and appends exactly the next record |
| Projection.ProjectedPrefix | ml_backend/api.py:117 | with the same draws, a shorter horizon gives a prefix of the longer forecast |
| Projection.ProjectedRecords | client/src/lib/data.ts:97-105 | every appended record is marked projected, carries its period's fiscal-year label and has no negative scope |
| Projection.GrowthIndependent | client/src/lib/data.ts:58-60 | production and revenue follow the 2% growth alone, whatever the scenario and draws |
| Projection.GrowthClosedForm | client/src/lib/data.ts:58-60 | after n periods production is its start times 1.02^n |
| Projection.ScopesIndependent | client/src/lib/data.ts:85-95 | each scope evolves on its own rate and the shared draws, independent of the other scopes and of production |
| Projection.ScopeClosedForm | client/src/lib/data.ts:88-95 | with genuine draws and rates no steeper than -15%, the floor at zero never takes effect: a scope equals the same recursion without the floor, which stays non-negative |
| Projection.StepDirection | client/src/lib/data.ts:86-95 | from a positive value, one period stays positive, rises when the rate exceeds 0.5% and falls when it is -0.5% or less |
| Projection.ScaleBounds | client/src/lib/data.ts:86-95 | one period moves a scope by its rate, give or take 0.5 percentage points |
| Projection.ScopePositive | client/src/lib/data.ts:88-95 | a positive scope stays positive for any number of periods |
| Projection.ScopeDirection | client/src/lib/data.ts:88-95 | each period a positive scope strictly rises (rate above 0.5%) or strictly falls (rate -0.5% or less) |
| Projection.PeriodDirection | client/src/lib/data.ts:63-95 | each period every scope rises under BAU and falls under Moderate and Aggressive |
| Projection.BoundedByFirstPeriod | client/src/lib/data.ts:54-95 | no later period has more of any scope than the first under Moderate and Aggressive, nor less under BAU |
| Projection.FirstPeriodBounds | client/src/lib/data.ts:54-95 | every later period lies beyond the first period's worst case: start times 1 + rate -/+ 0.5% |
| Projection.LastRecord | client/src/lib/data.ts:97-105 | the last record is stored from the running values after all periods |
| Projection.RecordTotal | client/src/lib/data.ts:99-101 | rounding the three stored scopes moves a total by at most 0.015 |
| Numbers.RoundAwayBounds | client/src/lib/data.ts:99-103 | toFixed's rounding is within half a unit of the last place and keeps the sign |
| Numbers.RoundEvenBounds | ml_backend/api.py:137-141 | Python's round is within half a unit of the last place and keeps a non-negative value non-negative |
| Numbers.RoundAwayMonotone | client/src/lib/data.ts:99-103 | toFixed's rounding preserves order |
| Numbers.ScaledEvenAtMost | ml_backend/train_model.py:186 | a value at most k units of the last place does not round above k |
| Decimal.FixedRoundTrip | client/src/lib/data.ts:99-103 | the text toFixed produces parses back to the rounded value |
| Decimal.FixedLeadingChar | client/src/lib/data.ts:143 | toFixed's text starts with '-' iff the value is negative, and with a digit otherwise |
| Decimal.NatToStringRoundTrip | client/src/lib/data.ts:55 | a year's decimal digits read back as the year |
| Decimal.FourDigits | client/src/lib/data.ts:55 | years 1000 to 9999 print as four digits |
| ForecastApi.SameSeed | ml_backend/api.py:89-112 | the service starts its loop from the same 2024-25 values as the client |
| ForecastApi.ParamsFor | ml_backend/api.py:99-105 | a known key gets its rates, and an unknown key gets BAU's |
| ForecastApi.Periods | ml_backend/api.py:117 | `range(1, years + 1)` runs `years` periods, and none for a negative count |
| ForecastApi.GenerateForecast | ml_backend/api.py:77-145 | the loop returns exactly the projection of the last observed year, one record per period, stored with Python's round |
| ForecastApi.ForecastShape | ml_backend/api.py:114-145 | `years` records, all projected, labelled from 2025-26, with no negative scope |
| ForecastApi.UnknownIsBau | ml_backend/api.py:105 | an unrecognised key gives exactly the BAU forecast |
| ForecastApi.Get | ml_backend/api.py:185-186 | dict.get returns the stored value for a present key and the default otherwise |
| ForecastApi.GetIn | ml_backend/api.py:205-210 | `.get` on a nested value succeeds exactly on objects and looks the key up there |
| ForecastApi.ValidateScenario | ml_backend/api.py:171 | a missing parameter defaults to Aggressive; a given key is accepted iff it is one of the three; otherwise status 422 |
| ForecastApi.GetForecast | ml_backend/api.py:170-193 | validated keys get the 30-year forecast of that key; the confidence is the stored one or 89.2; the metrics are the loaded metadata's "metrics" entry, or {} when it has none or no metadata is loaded |
| ForecastApi.ForecastResponseShape | ml_backend/api.py:182-193 | an accepted request returns 30 projected records |
| ForecastApi.GetConfidence | ml_backend/api.py:195-212 | status 503 exactly when metadata is missing or empty; status 500 exactly when the metrics or a present scope entry is not an object; otherwise the overall figure and training date are the stored ones or 89.2 and "Unknown", and each scope's MAPE and R² is the recorded value, or 0 when the scope or the field is absent |
| ForecastApi.MissingMetricsAreZero | ml_backend/api.py:201-210 | without recorded metrics every per-scope MAPE and R² is 0 |
| ForecastApi.RecordedFiguresPassThrough | ml_backend/api.py:205-210 | for any readable metrics object, every scope's MAPE and R² is returned as its entry records it, and is 0 when the entry or the field is absent |
| ForecastApi.GetHistorical | ml_backend/api.py:158-168 | the endpoint answers `{"data": …}` holding the client's five observed years, all marked historical |
| ForecastApi.HistoryAgrees | ml_backend/api.py:89-96 | the endpoint's records and the forecast's column table hold the same years and figures |
| TrainModel.Div | ml_backend/train_model.py:54 | column division is finite iff the divisor is non-zero; x/0 is NaN for 0 and infinite with the dividend's sign otherwise |
| TrainModel.DivColumnsInverse | ml_backend/train_model.py:54 | an element-wise quotient times its divisor gives back the dividend wherever the divisor is non-zero |
| TrainModel.FillNa | ml_backend/train_model.py:57 | `fillna(0)` removes NaN and keeps every other value |
| TrainModel.Growth | ml_backend/train_model.py:57 | a year-on-year growth after `fillna` is never NaN, and is the relative change when the previous year is non-zero |
| TrainModel.CumSum | ml_backend/train_model.py:66 | each cumulative entry is the previous one plus the current value, starting at the first value |
| TrainModel.CumSumIsPrefixSum | ml_backend/train_model.py:66 | entry i of the cumulative sum is the sum of the first i + 1 values |
| TrainModel.CreateFeatures | ml_backend/train_model.py:37-73 | the original columns are kept unchanged |
| TrainModel.FeatureColumns | ml_backend/train_model.py:51-63 | every feature column has one entry per year; the total is the sum of the scopes; the year index counts from 0; the first growth is 0 and none is NaN |
| TrainModel.RatiosSumToOne | ml_backend/train_model.py:69-71 | for a year with non-zero total, the three scope ratios are finite and add up to 1 |
| TrainModel.IntensityTimesProduction | ml_backend/train_model.py:54 | emission intensity times production gives back the total for every year with non-zero output |
| TrainModel.CumulativeProduction | ml_backend/train_model.py:66 | cumulative production in year i is the total output of years 0 to i |
| TrainModel.Mean | ml_backend/train_model.py:184 | the mean is NaN exactly for no values, and otherwise times the count gives the sum |
| TrainModel.OverallConfidence | ml_backend/train_model.py:178-186 | NaN exactly without metrics; otherwise 100 minus the mean MAPE, to within the 0.05 of rounding to one decimal |
| TrainModel.ConfidenceIsPercentage | ml_backend/train_model.py:184-186 | with MAPEs between 0 and 100 the confidence is a finite value between 0 and 100 |
| TrainModel.ParamsAt | ml_backend/train_model.py:204-210 | indexing the parameter table succeeds exactly for the three keys and gives their rates |
| TrainModel.ForecastEmissions | ml_backend/train_model.py:188-251 | an unknown key raises KeyError naming it; a known key gives the projection of the feature frame's last row with Python rounding |
| TrainModel.AgreesWithService | ml_backend/train_model.py:204-251 | for every known scenario the training script's forecast equals the service's |
| ReportsPage.GetExecutiveSummary | client/src/pages/reports.tsx:57-64 | "" exactly for an unknown key; otherwise the scenario's summary with both figures readable back to one decimal |
| ReportsPage.GetDetailedAnalysis | client/src/pages/reports.tsx:66-112 | no sections exactly for an unknown key, otherwise three |
| ReportsPage.GetRecommendations | client/src/pages/reports.tsx:114-172 | none exactly for an unknown key; BAU has one ("Not Recommended", $0), Moderate three, Aggressive four |
| ReportsPage.GetRisks | client/src/pages/reports.tsx:174-181 | "" exactly for an unknown key, otherwise the scenario's risks |
| ReportsPage.ComputeReport | client/src/pages/reports.tsx:14-42 | the report carries the selected key and the raw 2024-25 scope figures; each scope's final value reads back to one decimal; the summary is the lookup on the final total and the change from 2024-25, and the analysis, recommendations and risks are the lookups on the same key |
| ReportsPage.UnknownKeyReport | client/src/pages/reports.tsx:14-42 | the stored report has no summary, analysis, recommendations or risks exactly when the key is unknown |
| ReportsPage.MetricsReadBack | client/src/pages/reports.tsx:28-31 | the shown current total, final total and change read back as those figures rounded to one decimal |
| ReportsPage.AgreesWithGenerateReport | client/src/pages/reports.tsx:18-31 | on the same data, the page's totals plus " MT" are `generateReport`'s key metrics, and its summary carries the same figures |
| ReportsPage.ChangeSign | client/src/pages/reports.tsx:17-31 | with genuine draws, the shown change starts with '-' exactly under Moderate and Aggressive |
| ReportsPage.Page.constructor | client/src/pages/reports.tsx:10-12 | the page opens on Aggressive, with no report, loading |
| ReportsPage.Page.SelectScenario | client/src/pages/reports.tsx:229-232 | a button selects its key and shows the skeleton, leaving the stored report alone |
| ReportsPage.Page.Effect | client/src/pages/reports.tsx:14-46 | the effect stores the report for the selected key on the fallback forecast and clears the skeleton, so the selected key's report is on screen |
| ReportsPage.Page.Click | client/src/pages/reports.tsx:229-232 | a click on another key is followed by the effect and leaves that key's report on screen; a click on the selected key does not re-run the effect (its only dependency is the key, line 46), so the loading flag stays set and the skeleton stays |
| ReportsPage.Page.ClickIntended | client/src/pages/reports.tsx:229-232 | the handler as intended: from a page showing the selected key's report, any click leaves the clicked key's report on screen |
| ReportsPage.ReclickSticks | client/src/pages/reports.tsx:183-197 | after the first report, clicking Aggressive again leaves the skeleton, which has no buttons |
| ReportsPage.ReclickKeepsReport | client/src/pages/reports.tsx:229-232 | with the intended handler the same clicks keep Aggressive's report on screen |
| OverviewMetrics.Intensity | client/src/components/dashboard/overview-metrics.tsx:15-16 | intensity is non-zero for non-zero emissions, and positive for positive emissions and output |
| OverviewMetrics.Compute | client/src/components/dashboard/overview-metrics.tsx:11-17 | the total is the scope sum; intensity times output is the total; the change and the intensity change are the percent changes from last year's figures, each positive iff its figure rose |
| OverviewMetrics.BadgeFor | client/src/components/dashboard/overview-metrics.tsx:29-31 | an up arrow in the destructive colour iff the change is positive; the magnitude reads back as the absolute change to one decimal |
| OverviewMetrics.Overview | client/src/components/dashboard/overview-metrics.tsx:28-48 | each badge is drawn from its change: the up arrow and the destructive colour iff its figure rose, the magnitude reading back as the absolute percent change to one decimal; the intensity reads back to two decimals |
| OverviewMetrics.TotalTextAsReport | client/src/components/dashboard/overview-metrics.tsx:28 | the card shows the total as the report shows it |
| OverviewMetrics.IntensityDecomposition | client/src/components/dashboard/overview-metrics.tsx:15-17 | 1 + intensity change is (1 + emissions change) times previous output over current output |
| OverviewMetrics.SteadyOutput | client/src/components/dashboard/overview-metrics.tsx:15-17 | with unchanged output, intensity changes exactly as the total |
| OverviewMetrics.DashboardCards | client/src/components/dashboard/overview-metrics.tsx:11-48 | for 2024-25 against 2023-24 both cards show an up arrow in the destructive colour, 3.5% and 0.5% |

## Left out

- Floating point: every number is an exact `real`. Binary rounding of the doubles (e.g. `1.005` stored below itself) is not modelled, nor are `toFixed`'s exponential form for magnitudes of 1e21 and more and numpy's float64 behaviour.
- Randomness: `Math.random()` and `np.random.random()` are replaced by the `draws` parameter.
- Network and I/O: `generateForecastFromAPI` (client/src/lib/data.ts:30-39), the fetch helpers in client/src/lib/api.ts, FastAPI routing, CORS and the startup that loads the model files (ml_backend/api.py:21-48). The metadata those endpoints read is a parameter.
- The service's root health check and `get_model_info` endpoint: they only report constant or loaded values.
- Model training: the XGBoost and ARIMA fitting, the sklearn accuracy metrics and `main`'s file output in ml_backend/train_model.py. `forecast_emissions` does not use its `models_dict` argument, so it is not modelled.
- TrainModel.OverallConfidence: takes the per-scope MAPE values as a list instead of the metrics dict.
- ForecastApi.GetForecast: pydantic response validation and the regex error's message body are not modelled. A rejected key is only status 422.
- Narrative prose: summary, analysis paragraphs, recommendation descriptions and risk texts are fixed strings. They are represented by which scenario's entry was chosen, not by their text.
- The BAU analysis prose speaks of 3% production growth while the code grows production by 2%. The prose is not modelled.
- Rendering: the JSX layout, icons, PDF and CSV `alert` stubs, and the reports page's display of a positive change (reports.tsx:316, which compares the `toFixed` string with 0).
- Lookup keys such as "toString" that a JavaScript object inherits: the page's `Record<string, string>` lookups are typed by scenario, so only absent keys (giving "") are modelled.
- ClientData.HistoricalShape: states the count, the flags and the last label of the history, not every observed year's label.
- Emissions.PercentChange: requires a non-zero base where the source divides without a check (it would yield Infinity or NaN).
- OverviewMetrics.Compute: requires non-zero previous total and outputs where the source divides without a check.
- OverviewMetrics.Overview: requires the same non-zero divisors as Compute.
- ClientData.GenerateReport: requires non-empty data, where the source would throw a TypeError reading the last element of an empty array.
- ReportsPage.ComputeReport: requires a non-empty forecast, for the same reason.
- ReportsPage.Page.Effect: the effect runs on mount and after each click that changes the selected key (`Page.Click`); React's scheduling, batching and re-rendering are not modelled.
- ForecastApi.GetConfidence: the `ConfidenceResponse` validation (ml_backend/api.py:66-74) is not modelled, so a recorded figure that is not a number, which would fail the float fields with a 500, is returned as recorded.
- ForecastApi.GetHistorical: the records are the model's `AnnualData` values, not JSON with integer figures.

## Findings

| source | as written | input that shows it | evidently intended | confidence | as-written member | corrected member |
|---|---|---|---|---|---|---|
| client/src/pages/reports.tsx:229-232 | the button sets the loading flag even when its key is already selected; the effect depends only on the key (line 46), so nothing clears the flag, and the skeleton (lines 183-197) has no buttons to leave it | open the page, let the first report show, click "Aggressive / Net Zero" | clicking the selected key keeps its report on screen | high; not executed | ReportsPage.Page.Click, ReportsPage.ReclickSticks | ReportsPage.Page.ClickIntended, ReportsPage.ReclickKeepsReport |
