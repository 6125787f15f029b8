/** The scenario projection that data.ts, api.py and train_model.py each run
    in a loop of their own: from the last observed year, every period grows
    production and revenue by 2%, moves each scope by its scenario drift plus
    one noise term shared by the three scopes, floors each scope at zero, and
    stores a rounded copy as a projected record. The running values carry on
    unrounded. The random draws are an input here. */
module Projection {
  import opened Numbers
  import opened Decimal
  import opened Emissions

  /** The values a projection loop carries from one period to the next. */
  datatype Running = Running(scope1: real, scope2: real, scope3: real, production: real, revenue: real)

  /** The running values a projection starts from: the last observed year. */
  function Seed(r: AnnualData): Running
  {
    Running(r.scope1, r.scope2, r.scope3, r.production, r.revenue)
  }

  /** Production and revenue both grow by 2% per period, in every scenario. */
  const GrowthFactor: real := 1.02

  /** A uniform draw r from [0, 1) turned into the period's noise,
      (r - 0.5) * 0.01. */
  function Noise(r: real): real
  {
    (r - 0.5) * 0.01
  }

  /** What Math.random() and np.random.random() can return. */
  predicate ValidDraws(draws: seq<real>)
  {
    forall i :: 0 <= i < |draws| ==> 0.0 <= draws[i] < 1.0
  }

  lemma NoiseRange(r: real)
    requires 0.0 <= r < 1.0
    ensures -0.005 <= Noise(r) < 0.005
  {
  }

  /** One scope over one period: scaled by 1 + rate + noise, floored at zero. */
  function Scale(x: real, rate: real, noise: real): (r: real)
    ensures r >= 0.0
  {
    Max0(x * (1.0 + rate + noise))
  }

  /** One period: grow production and revenue, scale each scope by
      1 + drift + noise with the same noise for all three, floor at zero. */
  function Step(st: Running, d: Drift, noise: real): (r: Running)
    ensures r.scope1 >= 0.0 && r.scope2 >= 0.0 && r.scope3 >= 0.0
  {
    Running(
      Scale(st.scope1, d.s1, noise),
      Scale(st.scope2, d.s2, noise),
      Scale(st.scope3, d.s3, noise),
      st.production * GrowthFactor,
      st.revenue * GrowthFactor)
  }

  /** The running values after one period per draw. */
  function RunningAfter(seed: Running, d: Drift, draws: seq<real>): Running
    decreases |draws|
  {
    if draws == [] then seed
    else Step(RunningAfter(seed, d, draws[..|draws| - 1]), d, Noise(draws[|draws| - 1]))
  }

  /** parseFloat(x.toFixed(2)), as data.ts stores every projected number. */
  function StoreTs(x: real): (r: real)
    ensures r == RoundAway(x, 2)
  {
    FixedRoundTrip(x, 2);
    ParseDecimal(FixedJs(x, 2)).value
  }

  /** The stored copy of a running value: the value of x.toFixed(2) in
      TypeScript (what StoreTs computes), round(x, 2) in Python. Either lies
      within 0.005 of x and keeps a non-negative x non-negative. */
  function StoredValue(dialect: Dialect, x: real): (r: real)
    ensures x >= 0.0 ==> r >= 0.0
    ensures -0.005 <= r - x <= 0.005
  {
    RoundAwayBounds(x, 2);
    RoundEvenBounds(x, 2);
    match dialect
    case TypeScript => RoundAway(x, 2)
    case Python => RoundEven(x, 2)
  }

  /** The record stored for projected period `period` (counting from 1):
      the fiscal year starting 2024 + period, rounded values, not
      historical. */
  function Record(dialect: Dialect, st: Running, period: nat): (r: AnnualData)
    ensures !r.isHistorical
    ensures st.scope1 >= 0.0 && st.scope2 >= 0.0 && st.scope3 >= 0.0
            ==> r.scope1 >= 0.0 && r.scope2 >= 0.0 && r.scope3 >= 0.0
  {
    AnnualData(
      FiscalLabel(dialect, 2024 + period),
      StoredValue(dialect, st.scope1),
      StoredValue(dialect, st.scope2),
      StoredValue(dialect, st.scope3),
      StoredValue(dialect, st.production),
      StoredValue(dialect, st.revenue),
      false)
  }

  /** How a language's loop turns the running values of a period into the
      record it appends. */
  function Store(dialect: Dialect): (Running, nat) -> AnnualData
  {
    (st: Running, period: nat) => Record(dialect, st, period)
  }

  /** The records a projection appends, one per draw, in period order; `store`
      makes the record of period k from the running values after k periods. */
  function Projected(seed: Running, d: Drift, draws: seq<real>, store: (Running, nat) -> AnnualData): (r: seq<AnnualData>)
    ensures |r| == |draws|
    decreases |draws|
  {
    if draws == [] then []
    else Projected(seed, d, draws[..|draws| - 1], store) + [store(RunningAfter(seed, d, draws), |draws|)]
  }

  /** Record i of a projection is made from the running values after i + 1
      periods. */
  lemma {:induction false} ProjectedAt(seed: Running, d: Drift, draws: seq<real>, store: (Running, nat) -> AnnualData, i: nat)
    requires i < |draws|
    ensures Projected(seed, d, draws, store)[i] == store(RunningAfter(seed, d, draws[..i + 1]), i + 1)
    decreases |draws|
  {
    var n := |draws|;
    var prefix := draws[..n - 1];
    if i < n - 1 {
      ProjectedAt(seed, d, prefix, store, i);
      assert prefix[..i + 1] == draws[..i + 1];
    } else {
      assert draws[..i + 1] == draws;
    }
  }

  /** One more draw: the running values take one more step and the
      projection gains the record of the new period. */
  lemma ProjectedStep(seed: Running, d: Drift, draws: seq<real>, store: (Running, nat) -> AnnualData, i: nat)
    requires 1 <= i <= |draws|
    ensures RunningAfter(seed, d, draws[..i]) == Step(RunningAfter(seed, d, draws[..i - 1]), d, Noise(draws[i - 1]))
    ensures Projected(seed, d, draws[..i], store)
         == Projected(seed, d, draws[..i - 1], store) + [store(RunningAfter(seed, d, draws[..i]), i)]
  {
    assert draws[..i][..i - 1] == draws[..i - 1];
  }

  /** What a loop that appends one record per period keeps: one more step
      from the running values of i - 1 periods gives those of i periods, and
      appending the record stored from them to the projection of i - 1
      periods gives the projection of i periods. */
  lemma ExtendProjection(seed: Running, d: Drift, draws: seq<real>, store: (Running, nat) -> AnnualData,
                         i: nat, list: seq<AnnualData>, before: Running, after: Running, record: AnnualData)
    requires 1 <= i <= |draws|
    requires before == RunningAfter(seed, d, draws[..i - 1])
    requires list == Projected(seed, d, draws[..i - 1], store)
    requires after == Step(before, d, Noise(draws[i - 1])) && record == store(after, i)
    ensures after == RunningAfter(seed, d, draws[..i])
    ensures list + [record] == Projected(seed, d, draws[..i], store)
  {
    ProjectedStep(seed, d, draws, store, i);
  }

  /** The same for a loop whose list starts as a copy of the history. */
  lemma ExtendAfterHistory(seed: Running, d: Drift, draws: seq<real>, store: (Running, nat) -> AnnualData,
                           i: nat, history: seq<AnnualData>, list: seq<AnnualData>,
                           before: Running, after: Running, record: AnnualData)
    requires 1 <= i <= |draws|
    requires before == RunningAfter(seed, d, draws[..i - 1])
    requires list == history + Projected(seed, d, draws[..i - 1], store)
    requires after == Step(before, d, Noise(draws[i - 1])) && record == store(after, i)
    ensures after == RunningAfter(seed, d, draws[..i])
    ensures list + [record] == history + Projected(seed, d, draws[..i], store)
  {
    var projected := Projected(seed, d, draws[..i - 1], store);
    ExtendProjection(seed, d, draws, store, i, projected, before, after, record);
    assert list + [record] == history + (projected + [record]);
  }

  /** Five running values, each moved as one period moves it, are the
      running values after that period. */
  lemma AfterPeriod(before: Running, d: Drift, noise: real, s1: real, s2: real, s3: real, production: real, revenue: real)
    requires production == before.production * GrowthFactor && revenue == before.revenue * GrowthFactor
    requires s1 == Scale(before.scope1, d.s1, noise) && s2 == Scale(before.scope2, d.s2, noise)
    requires s3 == Scale(before.scope3, d.s3, noise)
    ensures Running(s1, s2, s3, production, revenue) == Step(before, d, noise)
  {
  }

  /** A record holding the period's label, the stored copies of the running
      values and the projected flag is the record a language's loop
      appends. */
  lemma StoredRecord(dialect: Dialect, st: Running, period: nat, record: AnnualData)
    requires record.year == FiscalLabel(dialect, 2024 + period) && !record.isHistorical
    requires record.scope1 == StoredValue(dialect, st.scope1) && record.scope2 == StoredValue(dialect, st.scope2)
    requires record.scope3 == StoredValue(dialect, st.scope3)
    requires record.production == StoredValue(dialect, st.production) && record.revenue == StoredValue(dialect, st.revenue)
    ensures record == Store(dialect)(st, period)
  {
  }

  /** A shorter horizon with the same draws gives a prefix of the longer
      projection. */
  lemma ProjectedPrefix(seed: Running, d: Drift, draws: seq<real>, store: (Running, nat) -> AnnualData, k: nat)
    requires k <= |draws|
    ensures Projected(seed, d, draws[..k], store) == Projected(seed, d, draws, store)[..k]
  {
    var whole := Projected(seed, d, draws, store);
    var part := Projected(seed, d, draws[..k], store);
    forall i | 0 <= i < k
      ensures part[i] == whole[i]
    {
      ProjectedAt(seed, d, draws[..k], store, i);
      ProjectedAt(seed, d, draws, store, i);
      assert draws[..k][..i + 1] == draws[..i + 1];
    }
  }

  /** Every record a language's loop appends is marked projected, carries the
      fiscal-year label of its period, and has no negative scope. */
  lemma ProjectedRecords(seed: Running, d: Drift, draws: seq<real>, dialect: Dialect)
    ensures forall i :: 0 <= i < |draws| ==>
      var r := Projected(seed, d, draws, Store(dialect))[i];
      && !r.isHistorical
      && r.year == FiscalLabel(dialect, 2025 + i)
      && r.scope1 >= 0.0 && r.scope2 >= 0.0 && r.scope3 >= 0.0
  {
    forall i | 0 <= i < |draws|
      ensures var r := Projected(seed, d, draws, Store(dialect))[i];
              && !r.isHistorical
              && r.year == FiscalLabel(dialect, 2025 + i)
              && r.scope1 >= 0.0 && r.scope2 >= 0.0 && r.scope3 >= 0.0
    {
      ProjectedAt(seed, d, draws, Store(dialect), i);
      var st := RunningAfter(seed, d, draws[..i + 1]);
      assert st.scope1 >= 0.0 && st.scope2 >= 0.0 && st.scope3 >= 0.0 by {
        assert draws[..i + 1] != [];
      }
      assert Projected(seed, d, draws, Store(dialect))[i] == Record(dialect, st, i + 1);
    }
  }

  /** A quantity grown by 2% for n periods. */
  function Grown(x0: real, n: nat): real
  {
    if n == 0 then x0 else Grown(x0, n - 1) * GrowthFactor
  }

  /** Production and revenue grow by the same 2% each period, untouched by
      the scenario or the noise. */
  lemma {:induction false} GrowthIndependent(seed: Running, d: Drift, draws: seq<real>)
    ensures RunningAfter(seed, d, draws).production == Grown(seed.production, |draws|)
    ensures RunningAfter(seed, d, draws).revenue == Grown(seed.revenue, |draws|)
    decreases |draws|
  {
    if draws != [] {
      GrowthIndependent(seed, d, draws[..|draws| - 1]);
    }
  }

  /** After n periods a grown quantity is 1.02^n times its start. */
  lemma {:induction false} GrowthClosedForm(x0: real, n: nat)
    ensures Grown(x0, n) == x0 * Pow(GrowthFactor, n)
  {
    if n > 0 {
      GrowthClosedForm(x0, n - 1);
      MulAssoc(x0, Pow(GrowthFactor, n - 1), GrowthFactor);
    }
  }

  lemma MulAssoc(a: real, b: real, c: real)
    ensures a * b * c == a * (b * c)
  {
  }

  /** One scope on its own: its start value moved period by period by
      1 + rate + noise and floored at zero. */
  function ScopeAfter(x0: real, rate: real, draws: seq<real>): real
    decreases |draws|
  {
    if draws == [] then x0
    else Scale(ScopeAfter(x0, rate, draws[..|draws| - 1]), rate, Noise(draws[|draws| - 1]))
  }

  /** The three scopes evolve independently of each other and of production;
      what couples them is only the shared noise sequence. */
  lemma {:induction false} ScopesIndependent(seed: Running, d: Drift, draws: seq<real>)
    ensures RunningAfter(seed, d, draws).scope1 == ScopeAfter(seed.scope1, d.s1, draws)
    ensures RunningAfter(seed, d, draws).scope2 == ScopeAfter(seed.scope2, d.s2, draws)
    ensures RunningAfter(seed, d, draws).scope3 == ScopeAfter(seed.scope3, d.s3, draws)
    decreases |draws|
  {
    if draws != [] {
      ScopesIndependent(seed, d, draws[..|draws| - 1]);
    }
  }

  /** One scope moved period by period by 1 + rate + noise, without the
      floor at zero. */
  function Unfloored(x0: real, rate: real, draws: seq<real>): real
    decreases |draws|
  {
    if draws == [] then x0
    else Unfloored(x0, rate, draws[..|draws| - 1]) * (1.0 + rate + Noise(draws[|draws| - 1]))
  }

  /** A non-negative value times a positive multiplier is not moved by the
      floor. */
  lemma FloorIdle(u: real, m: real)
    requires u >= 0.0 && m > 0.0
    ensures u * m >= 0.0 && Max0(u * m) == u * m
  {
    MulMonotone(u, 0.0, m);
  }

  /** With a rate no steeper than -15% and genuine draws, the floor at zero
      never takes effect: every multiplier is positive, so a scope is what
      the same recursion without the floor gives, and that stays
      non-negative. */
  lemma {:induction false} ScopeClosedForm(x0: real, rate: real, draws: seq<real>)
    requires x0 >= 0.0 && rate >= -0.15 && ValidDraws(draws)
    ensures Unfloored(x0, rate, draws) >= 0.0
    ensures ScopeAfter(x0, rate, draws) == Unfloored(x0, rate, draws)
    decreases |draws|
  {
    if draws != [] {
      var n := |draws|;
      var prefix := draws[..n - 1];
      assert ValidDraws(prefix);
      ScopeClosedForm(x0, rate, prefix);
      NoiseRange(draws[n - 1]);
      FloorIdle(Unfloored(x0, rate, prefix), 1.0 + rate + Noise(draws[n - 1]));
    }
  }

  lemma ScaleDirection(x: real, m: real)
    requires x > 0.0 && m > 0.0
    ensures m > 1.0 ==> Max0(x * m) > x
    ensures m < 1.0 ==> 0.0 < Max0(x * m) < x
  {
  }

  /** One period from a positive value: the result stays positive, rises when
      the rate exceeds the noise's reach (+0.5%) and falls when the rate is at
      most -0.5%. */
  lemma StepDirection(prev: real, rate: real, r: real)
    requires prev > 0.0 && -0.15 <= rate && 0.0 <= r < 1.0
    ensures Scale(prev, rate, Noise(r)) > 0.0
    ensures rate > 0.005 ==> Scale(prev, rate, Noise(r)) > prev
    ensures rate <= -0.005 ==> Scale(prev, rate, Noise(r)) < prev
  {
    NoiseRange(r);
    ScaleDirection(prev, 1.0 + rate + Noise(r));
  }

  /** One period moves a non-negative scope by its rate give or take half a
      percent of the noise; the floor at zero never takes effect. */
  lemma ScaleBounds(x: real, rate: real, r: real)
    requires x >= 0.0 && -0.15 <= rate && 0.0 <= r < 1.0
    ensures x * (1.0 + rate - 0.005) <= Scale(x, rate, Noise(r)) <= x * (1.0 + rate + 0.005)
  {
    NoiseRange(r);
    var m := 1.0 + rate + Noise(r);
    MulMonotone(x, 1.0 + rate - 0.005, m);
    MulMonotone(x, m, 1.0 + rate + 0.005);
    assert x * m >= 0.0 by { MulMonotone(x, 0.0, m); }
  }

  lemma MulMonotone(x: real, a: real, b: real)
    requires x >= 0.0 && a <= b
    ensures x * a <= x * b
  {
  }

  /** From a positive start a scope stays positive after any number of
      periods. */
  lemma {:induction false} ScopePositive(x0: real, rate: real, draws: seq<real>)
    requires x0 > 0.0 && -0.15 <= rate && ValidDraws(draws)
    ensures ScopeAfter(x0, rate, draws) > 0.0
    decreases |draws|
  {
    if draws != [] {
      var n := |draws|;
      assert ValidDraws(draws[..n - 1]);
      ScopePositive(x0, rate, draws[..n - 1]);
      StepDirection(ScopeAfter(x0, rate, draws[..n - 1]), rate, draws[n - 1]);
    }
  }

  /** From a positive start, each period a scope strictly rises when its rate
      is above +0.5% and strictly falls when its rate is at most -0.5%,
      whatever the noise. */
  lemma ScopeDirection(x0: real, rate: real, draws: seq<real>)
    requires x0 > 0.0 && -0.15 <= rate && ValidDraws(draws) && |draws| >= 1
    ensures ScopeAfter(x0, rate, draws) > 0.0
    ensures rate > 0.005 ==> ScopeAfter(x0, rate, draws) > ScopeAfter(x0, rate, draws[..|draws| - 1])
    ensures rate <= -0.005 ==> ScopeAfter(x0, rate, draws) < ScopeAfter(x0, rate, draws[..|draws| - 1])
  {
    var n := |draws|;
    assert ValidDraws(draws[..n - 1]);
    ScopePositive(x0, rate, draws[..n - 1]);
    StepDirection(ScopeAfter(x0, rate, draws[..n - 1]), rate, draws[n - 1]);
  }

  predicate PositiveScopes(st: Running)
  {
    st.scope1 > 0.0 && st.scope2 > 0.0 && st.scope3 > 0.0
  }

  /** From a positive start every scope stays positive, and each period it
      strictly rises under BAU and strictly falls under Moderate and
      Aggressive, whatever the noise. */
  lemma PeriodDirection(seed: Running, s: Scenario, draws: seq<real>)
    requires ValidDraws(draws) && |draws| >= 1 && PositiveScopes(seed)
    ensures PositiveScopes(RunningAfter(seed, Rates(s), draws))
    ensures var prev := RunningAfter(seed, Rates(s), draws[..|draws| - 1]);
            var cur := RunningAfter(seed, Rates(s), draws);
            if s == BAU
            then cur.scope1 > prev.scope1 && cur.scope2 > prev.scope2 && cur.scope3 > prev.scope3
            else cur.scope1 < prev.scope1 && cur.scope2 < prev.scope2 && cur.scope3 < prev.scope3
  {
    var d := Rates(s);
    ScopesIndependent(seed, d, draws);
    ScopesIndependent(seed, d, draws[..|draws| - 1]);
    ScopeDirection(seed.scope1, d.s1, draws);
    ScopeDirection(seed.scope2, d.s2, draws);
    ScopeDirection(seed.scope3, d.s3, draws);
  }

  /** Under Moderate and Aggressive no later period has more of any scope
      than the first; under BAU none has less. */
  lemma {:induction false} BoundedByFirstPeriod(seed: Running, s: Scenario, draws: seq<real>)
    requires ValidDraws(draws) && |draws| >= 1 && PositiveScopes(seed)
    ensures var first := RunningAfter(seed, Rates(s), draws[..1]);
            var cur := RunningAfter(seed, Rates(s), draws);
            if s == BAU
            then cur.scope1 >= first.scope1 && cur.scope2 >= first.scope2 && cur.scope3 >= first.scope3
            else cur.scope1 <= first.scope1 && cur.scope2 <= first.scope2 && cur.scope3 <= first.scope3
    decreases |draws|
  {
    var n := |draws|;
    if n > 1 {
      var prefix := draws[..n - 1];
      assert ValidDraws(prefix);
      assert prefix[..1] == draws[..1];
      BoundedByFirstPeriod(seed, s, prefix);
      PeriodDirection(seed, s, draws);
    } else {
      assert draws[..1] == draws;
    }
  }

  /** The first period bounds every later one: under BAU each scope ends at
      least at its start times 1 + rate - 0.5%, otherwise at most at its
      start times 1 + rate + 0.5%. */
  lemma FirstPeriodBounds(seed: Running, s: Scenario, draws: seq<real>)
    requires ValidDraws(draws) && |draws| >= 1 && PositiveScopes(seed)
    ensures var d := Rates(s);
            var cur := RunningAfter(seed, d, draws);
            if s == BAU
            then && cur.scope1 >= seed.scope1 * (1.0 + d.s1 - 0.005)
                 && cur.scope2 >= seed.scope2 * (1.0 + d.s2 - 0.005)
                 && cur.scope3 >= seed.scope3 * (1.0 + d.s3 - 0.005)
            else && cur.scope1 <= seed.scope1 * (1.0 + d.s1 + 0.005)
                 && cur.scope2 <= seed.scope2 * (1.0 + d.s2 + 0.005)
                 && cur.scope3 <= seed.scope3 * (1.0 + d.s3 + 0.005)
  {
    var d := Rates(s);
    assert draws[..1][..0] == [];
    assert RunningAfter(seed, d, draws[..1]) == Step(seed, d, Noise(draws[0]));
    BoundedByFirstPeriod(seed, s, draws);
    ScaleBounds(seed.scope1, d.s1, draws[0]);
    ScaleBounds(seed.scope2, d.s2, draws[0]);
    ScaleBounds(seed.scope3, d.s3, draws[0]);
  }

  /** The last record of a projection is stored from the running values
      after all its periods. */
  lemma LastRecord(seed: Running, d: Drift, draws: seq<real>, dialect: Dialect)
    requires |draws| >= 1
    ensures Projected(seed, d, draws, Store(dialect))[|draws| - 1] == Record(dialect, RunningAfter(seed, d, draws), |draws|)
  {
    ProjectedAt(seed, d, draws, Store(dialect), |draws| - 1);
    assert draws[..|draws|] == draws;
  }

  /** Rounding the three stored scopes moves a total by at most 0.015. */
  lemma RecordTotal(dialect: Dialect, st: Running, period: nat)
    ensures var r := Record(dialect, st, period);
            -0.015 <= Total(r) - (st.scope1 + st.scope2 + st.scope3) <= 0.015
  {
  }
}
