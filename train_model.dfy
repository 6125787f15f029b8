/** The training script's pure parts: the feature columns it derives from
    the history, the overall confidence it reports from the per-scope MAPE,
    and its own copy of the scenario projection, which unlike the service's
    refuses an unknown scenario. */
module TrainModel {
  import opened Numbers
  import opened Decimal
  import opened Emissions
  import opened Projection
  import ForecastApi

  /** A float column value: a finite number or one of the IEEE specials a
      division by zero produces. */
  datatype Float = Fin(v: real) | PosInf | NegInf | NaN

  /** Element-wise division of two float64 columns: by a non-zero number as
      usual, by zero to ±inf, and 0 / 0 to NaN. */
  function Div(a: real, b: real): (r: Float)
    ensures b != 0.0 <==> r.Fin?
    ensures b == 0.0 ==> (r == NaN <==> a == 0.0) && (r == PosInf <==> a > 0.0)
  {
    if b != 0.0 then Fin(a / b)
    else if a > 0.0 then PosInf
    else if a < 0.0 then NegInf
    else NaN
  }

  /** q is a finite number that, multiplied by b, gives a. */
  predicate MultipliesBack(q: Float, b: real, a: real)
  {
    q.Fin? && q.v * b == a
  }

  /** A quotient by a non-zero number, multiplied back, gives the dividend. */
  lemma DivTimes(a: real, b: real, q: Float)
    requires b != 0.0 && q == Div(a, b)
    ensures q.Fin? && q.v * b == a
  {
  }

  /** Each entry of an element-wise quotient column multiplies back to its
      dividend wherever the divisor is non-zero. */
  lemma DivColumnsInverse(a: seq<real>, b: seq<real>, i: nat)
    requires |a| == |b| && i < |a| && b[i] != 0.0
    ensures MultipliesBack(DivColumns(a, b)[i], b[i], a[i])
  {
    DivTimes(a[i], b[i], DivColumns(a, b)[i]);
  }

  /** fillna(0) on one value. */
  function FillNa(x: Float): (r: Float)
    ensures r != NaN
    ensures x != NaN ==> r == x
  {
    if x == NaN then Fin(0.0) else x
  }

  /** The history as a data frame: equally long numeric columns. */
  datatype Frame = Frame(scope1: seq<real>, scope2: seq<real>, scope3: seq<real>, production: seq<real>, revenue: seq<real>)

  predicate Rectangular(df: Frame)
  {
    |df.scope2| == |df.scope1| && |df.scope3| == |df.scope1|
    && |df.production| == |df.scope1| && |df.revenue| == |df.scope1|
  }

  /** The frame create_features returns: a copy of the input columns next to
      the derived ones. */
  datatype Featured = Featured(
    base: Frame,
    totalEmissions: seq<real>,
    emissionIntensity: seq<Float>,
    productionGrowth: seq<Float>,
    revenuePerEmission: seq<Float>,
    yearIndex: seq<int>,
    cumulativeProduction: seq<real>,
    scope1Ratio: seq<Float>,
    scope2Ratio: seq<Float>,
    scope3Ratio: seq<Float>)

  /** The sum of a column. */
  function Sum(xs: seq<real>): real
  {
    if xs == [] then 0.0 else Sum(xs[..|xs| - 1]) + xs[|xs| - 1]
  }

  /** cumsum: entry i is the sum of entries 0..i. */
  function CumSum(xs: seq<real>): (r: seq<real>)
    ensures |r| == |xs|
    ensures forall i :: 1 <= i < |xs| ==> r[i] == r[i - 1] + xs[i]
    ensures |xs| > 0 ==> r[0] == xs[0]
  {
    if xs == [] then []
    else
      var prefix := CumSum(xs[..|xs| - 1]);
      prefix + [(if prefix == [] then 0.0 else prefix[|prefix| - 1]) + xs[|xs| - 1]]
  }

  /** The running total is the prefix sum. */
  lemma {:induction false} CumSumIsPrefixSum(xs: seq<real>, i: nat)
    requires i < |xs|
    ensures CumSum(xs)[i] == Sum(xs[..i + 1])
  {
    if i > 0 {
      CumSumIsPrefixSum(xs, i - 1);
      assert xs[..i + 1][..i] == xs[..i];
    } else {
      assert xs[..1][..0] == [];
    }
  }

  /** One year's production growth: the relative change from the year
      before, with fillna(0) turning the 0 / 0 case into 0. */
  function Growth(prev: real, cur: real): (r: Float)
    ensures r != NaN
    ensures prev != 0.0 ==> r == Fin((cur - prev) / prev)
  {
    FillNa(Div(cur - prev, prev))
  }

  /** pct_change().fillna(0): 0 for the first year (which has no year
      before), then each year's growth. */
  function PctChange(xs: seq<real>): (r: seq<Float>)
    ensures |r| == |xs|
  {
    seq(|xs|, i requires 0 <= i < |xs| => if i == 0 then Fin(0.0) else Growth(xs[i - 1], xs[i]))
  }

  /** Element-wise a / b of two equally long columns. */
  function DivColumns(a: seq<real>, b: seq<real>): (r: seq<Float>)
    requires |a| == |b|
    ensures |r| == |a|
  {
    seq(|a|, i requires 0 <= i < |a| => Div(a[i], b[i]))
  }

  /** scope1 + scope2 + scope3, row by row. */
  function Totals(df: Frame): (r: seq<real>)
    requires Rectangular(df)
    ensures |r| == |df.scope1|
  {
    seq(|df.scope1|, i requires 0 <= i < |df.scope1| => df.scope1[i] + df.scope2[i] + df.scope3[i])
  }

  /** create_features: the total, the intensity per tonne of output, the
      year-on-year production growth, revenue per tonne emitted, a 0-based
      year index, cumulative production and each scope's share of the
      total, next to an unchanged copy of the input. */
  function CreateFeatures(df: Frame): (r: Featured)
    requires Rectangular(df)
    ensures r.base == df
  {
    var total := Totals(df);
    Featured(
      df,
      total,
      DivColumns(total, df.production),
      PctChange(df.production),
      DivColumns(df.revenue, total),
      seq(|df.scope1|, i requires 0 <= i < |df.scope1| => i),
      CumSum(df.production),
      DivColumns(df.scope1, total),
      DivColumns(df.scope2, total),
      DivColumns(df.scope3, total))
  }

  /** Every derived column has one entry per year; the year index counts
      0, 1, 2, ...; the first growth is 0 and no growth is NaN. */
  lemma FeatureColumns(df: Frame)
    requires Rectangular(df)
    ensures var f := CreateFeatures(df);
      var n := |df.scope1|;
      && |f.totalEmissions| == |f.emissionIntensity| == |f.productionGrowth| == |f.revenuePerEmission| == n
      && |f.yearIndex| == |f.cumulativeProduction| == |f.scope1Ratio| == |f.scope2Ratio| == |f.scope3Ratio| == n
      && (forall i :: 0 <= i < n ==> f.totalEmissions[i] == df.scope1[i] + df.scope2[i] + df.scope3[i])
      && (forall i :: 0 <= i < n ==> f.yearIndex[i] == i)
      && (n > 0 ==> f.productionGrowth[0] == Fin(0.0))
      && (forall i :: 0 <= i < n ==> f.productionGrowth[i] != NaN)
  {
  }

  /** Three shares of a non-zero total add up to one. */
  lemma SharesSumToOne(a: real, b: real, c: real)
    requires a + b + c != 0.0
    ensures Div(a, a + b + c).Fin? && Div(b, a + b + c).Fin? && Div(c, a + b + c).Fin?
    ensures Div(a, a + b + c).v + Div(b, a + b + c).v + Div(c, a + b + c).v == 1.0
  {
    var t := a + b + c;
    assert a / t + b / t + c / t == t / t;
  }

  /** Wherever the total is non-zero, the three scope shares are finite and
      add up to one. */
  lemma RatiosSumToOne(df: Frame, i: nat)
    requires Rectangular(df) && i < |df.scope1|
    requires df.scope1[i] + df.scope2[i] + df.scope3[i] != 0.0
    ensures var f := CreateFeatures(df);
      && f.scope1Ratio[i].Fin? && f.scope2Ratio[i].Fin? && f.scope3Ratio[i].Fin?
      && f.scope1Ratio[i].v + f.scope2Ratio[i].v + f.scope3Ratio[i].v == 1.0
  {
    var a, b, c := df.scope1[i], df.scope2[i], df.scope3[i];
    var f := CreateFeatures(df);
    assert f.scope1Ratio[i] == Div(a, a + b + c) && f.scope2Ratio[i] == Div(b, a + b + c)
        && f.scope3Ratio[i] == Div(c, a + b + c) by {
      var t := Totals(df);
      assert t[i] == a + b + c;
      assert f.scope1Ratio == DivColumns(df.scope1, t);
      assert f.scope2Ratio == DivColumns(df.scope2, t);
      assert f.scope3Ratio == DivColumns(df.scope3, t);
    }
    SharesSumToOne(a, b, c);
  }

  /** Emission intensity times production gives back the total, for every
      year with non-zero output. */
  lemma IntensityTimesProduction(df: Frame, i: nat)
    requires Rectangular(df) && i < |df.scope1| && df.production[i] != 0.0
    ensures var f := CreateFeatures(df);
      MultipliesBack(f.emissionIntensity[i], df.production[i], f.totalEmissions[i])
  {
    var f := CreateFeatures(df);
    var t := Totals(df);
    assert f.emissionIntensity == DivColumns(t, df.production) && f.totalEmissions == t;
    DivColumnsInverse(t, df.production, i);
  }

  /** Cumulative production is the prefix sum of production. */
  lemma CumulativeProduction(df: Frame, i: nat)
    requires Rectangular(df) && i < |df.scope1|
    ensures CreateFeatures(df).cumulativeProduction[i] == Sum(df.production[..i + 1])
  {
    CumSumIsPrefixSum(df.production, i);
  }

  /** The training history. */
  const HistoricalFrame := Frame(
    [33.0, 49.0, 50.0, 59.0, 61.0],
    [4.0, 5.0, 6.0, 5.0, 5.0],
    [5.0, 6.0, 7.0, 22.0, 23.0],
    [12.19, 18.38, 18.97, 20.12, 20.72],
    [156294.0, 243959.0, 243353.0, 140987.0, 218543.0])

  /** The mean of the per-scope MAPE values; np.mean of nothing is NaN. */
  function Mean(xs: seq<real>): (r: Float)
    ensures xs == [] <==> r == NaN
    ensures r != NaN ==> r.Fin? && r.v * |xs| as real == Sum(xs)
  {
    if xs == [] then NaN else Fin(Sum(xs) / |xs| as real)
  }

  /** calculate_overall_confidence: (1 - mean MAPE / 100) * 100, that is 100
      minus the mean MAPE, rounded to one decimal; NaN without any scope. */
  function OverallConfidence(mapes: seq<real>): (r: Float)
    ensures mapes == [] <==> r == NaN
    ensures r != NaN ==> r.Fin? && Abs(r.v - (100.0 - Sum(mapes) / |mapes| as real)) <= 0.05
  {
    match Mean(mapes)
    case Fin(avg) =>
      var confidence := (1.0 - avg / 100.0) * 100.0;
      RoundEvenBounds(confidence, 1);
      Fin(RoundEven(confidence, 1))
    case _ => NaN
  }

  lemma {:induction false} SumBounds(xs: seq<real>)
    requires forall i :: 0 <= i < |xs| ==> 0.0 <= xs[i] <= 100.0
    ensures 0.0 <= Sum(xs) <= 100.0 * |xs| as real
  {
    if xs != [] {
      SumBounds(xs[..|xs| - 1]);
    }
  }

  /** When every scope's MAPE is a percentage between 0 and 100, so is the
      overall confidence. */
  lemma ConfidenceIsPercentage(mapes: seq<real>)
    requires mapes != []
    requires forall i :: 0 <= i < |mapes| ==> 0.0 <= mapes[i] <= 100.0
    ensures OverallConfidence(mapes).Fin?
    ensures 0.0 <= OverallConfidence(mapes).v <= 100.0
  {
    SumBounds(mapes);
    var n := |mapes| as real;
    var avg := Sum(mapes) / n;
    assert 0.0 <= avg <= 100.0 by {
      assert Sum(mapes) <= 100.0 * n;
    }
    var confidence := (1.0 - avg / 100.0) * 100.0;
    assert 0.0 <= confidence <= 100.0;
    RoundEvenBounds(confidence, 1);
    ScaledEvenAtMost(confidence, 1, 1000);
  }

  /** The outcome of forecast_emissions: the forecast, or the KeyError the
      scenario lookup raises. */
  datatype Outcome = Forecast(data: seq<AnnualData>) | KeyError(key: string)

  /** scenario_params[scenario]: no default. */
  function ParamsAt(scenario: string): (r: Option<Drift>)
    ensures r.Some? <==> Parse(scenario).Some?
    ensures r.Some? ==> r.value == Rates(Parse(scenario).value)
  {
    match Parse(scenario)
    case Some(s) => Some(Rates(s))
    case None => None
  }

  /** The running values start from the last row of the featured frame. */
  function FrameSeed(df: Frame): Running
    requires Rectangular(df) && |df.scope1| > 0
  {
    var n := |df.scope1|;
    Running(df.scope1[n - 1], df.scope2[n - 1], df.scope3[n - 1], df.production[n - 1], df.revenue[n - 1])
  }

  /** forecast_emissions: look the scenario up (raising on an unknown key),
      then run the same loop as the service. The trained models passed in
      are never consulted. */
  method ForecastEmissions(scenario: string, years: int, draws: seq<real>) returns (r: Outcome)
    requires |draws| == ForecastApi.Periods(years)
    ensures r.KeyError? <==> Parse(scenario).None?
    ensures r.KeyError? ==> r.key == scenario
    ensures r.Forecast? ==> r.data == Projected(FrameSeed(HistoricalFrame), Rates(Parse(scenario).value), draws, Store(Python))
  {
    var df := CreateFeatures(HistoricalFrame);
    var lookup := ParamsAt(scenario);
    if lookup.None? {
      return KeyError(scenario);
    }
    var params := lookup.value;
    var lastRow := |df.base.scope1| - 1;
    var currentScope1 := df.base.scope1[lastRow];
    var currentScope2 := df.base.scope2[lastRow];
    var currentScope3 := df.base.scope3[lastRow];
    var currentProduction := df.base.production[lastRow];
    var currentRevenue := df.base.revenue[lastRow];
    var forecastData := [];
    var startYear := 2025;
    ghost var seed := FrameSeed(HistoricalFrame);

    for i := 1 to ForecastApi.Periods(years) + 1
      invariant Running(currentScope1, currentScope2, currentScope3, currentProduction, currentRevenue)
             == RunningAfter(seed, params, draws[..i - 1])
      invariant forecastData == Projected(seed, params, draws[..i - 1], Store(Python))
    {
      ghost var before := Running(currentScope1, currentScope2, currentScope3, currentProduction, currentRevenue);
      var yearLabel := FiscalLabel(Python, startYear + i - 1);
      currentProduction := currentProduction * GrowthFactor;
      currentRevenue := currentRevenue * GrowthFactor;

      var noise := Noise(draws[i - 1]);
      currentScope1 := Scale(currentScope1, params.s1, noise);
      currentScope2 := Scale(currentScope2, params.s2, noise);
      currentScope3 := Scale(currentScope3, params.s3, noise);

      var record := AnnualData(
        yearLabel,
        RoundEven(currentScope1, 2),
        RoundEven(currentScope2, 2),
        RoundEven(currentScope3, 2),
        RoundEven(currentProduction, 2),
        RoundEven(currentRevenue, 2),
        false);
      AfterPeriod(before, params, noise, currentScope1, currentScope2, currentScope3, currentProduction, currentRevenue);
      ghost var after := Running(currentScope1, currentScope2, currentScope3, currentProduction, currentRevenue);
      StoredRecord(Python, after, i, record);
      ExtendProjection(seed, params, draws, Store(Python), i, forecastData, before, after, record);
      forecastData := forecastData + [record];
    }
    assert draws[..ForecastApi.Periods(years)] == draws;
    return Forecast(forecastData);
  }

  /** For a known scenario the training script and the service forecast the
      same records from the same draws; they differ only on an unknown key,
      where the service falls back to BAU and the script raises. */
  lemma AgreesWithService(s: Scenario, draws: seq<real>)
    ensures Projected(FrameSeed(HistoricalFrame), Rates(s), draws, Store(Python)) == ForecastApi.ForecastOf(Name(s), draws)
  {
    ParseName(s);
    assert FrameSeed(HistoricalFrame) == ForecastApi.ColumnsSeed(ForecastApi.HistoricalColumns);
  }
}
