/** The dashboard's headline figures, `compute_kpis` and
    `compute_risk_indicators` (data.py:152-177): both read the last month of
    a table and fail, as `df.iloc[-1]` does, on a table without rows. */
module Metrics {
  import opened Wrappers
  import opened Scenarios
  import opened Calendar
  import opened Series
  import opened Reference
  import opened SeriesProperties

  /** The key performance indicators of the latest month. */
  datatype Kpis = Kpis(
    revenue: real,              // revenue_chf_m
    marginPct: real,            // margin_pct
    deposits: real,             // deposits_chf_m
    depositsGrowthPct: XReal,   // deposits_growth_pct
    aum: real,                  // aum_chf_m
    profitTotal: real)          // profit_total_chf_m

  /** The risk indicators of the latest month. */
  datatype Risks = Risks(
    nplRatioPct: real,          // npl_ratio_pct
    marketVarBps: real,         // market_var_bps
    lcrPct: real,               // lcr_pct
    counterpartyExposure: real) // counterparty_exposure_chf_m

  /** `compute_kpis`: the last row's figures, with total profit the sum of
      the three segment profits. */
  function ComputeKpis(t: seq<Row>): (r: Result<Kpis, Error>)
    ensures r.Failure? <==> |t| == 0
    ensures r.Failure? ==> r.error == EmptyTable
  {
    if |t| == 0 then Failure(EmptyTable)
    else
      var last := t[|t| - 1];
      Success(Kpis(last.revenue, last.marginPct, last.deposits, last.depositsGrowthPct, last.aum,
                   last.profitRetail + last.profitPrivate + last.profitCorporate))
  }

  /** `compute_risk_indicators`: the last row's four risk figures. */
  function ComputeRiskIndicators(t: seq<Row>): (r: Result<Risks, Error>)
    ensures r.Failure? <==> |t| == 0
    ensures r.Failure? ==> r.error == EmptyTable
  {
    if |t| == 0 then Failure(EmptyTable)
    else
      var last := t[|t| - 1];
      Success(Risks(last.nplRatioPct, last.marketVarBps, last.lcrPct, last.counterpartyExposure))
  }

  /** Both reducers look at the latest month only: appending a month to any
      table gives the figures of that month alone. */
  lemma IndicatorsReadLatestMonth(t: seq<Row>, row: Row)
    ensures ComputeKpis(t + [row]) == ComputeKpis([row])
    ensures ComputeRiskIndicators(t + [row]) == ComputeRiskIndicators([row])
  {
    assert (t + [row])[|t + [row]| - 1] == row;
  }

  /** The figures of a table of one row are that row's, and its total
      profit is the sum of its segment profits. */
  lemma IndicatorsOfOneRow(row: Row)
    ensures ComputeKpis([row]).Success? && ComputeRiskIndicators([row]).Success?
    ensures var k := ComputeKpis([row]).value;
      && k.revenue == row.revenue && k.marginPct == row.marginPct && k.deposits == row.deposits
      && k.depositsGrowthPct == row.depositsGrowthPct && k.aum == row.aum
      && k.profitTotal == row.profitRetail + row.profitPrivate + row.profitCorporate
    ensures ComputeRiskIndicators([row]).value ==
              Risks(row.nplRatioPct, row.marketVarBps, row.lcrPct, row.counterpartyExposure)
  {
  }

  /** KPIs that agree with the latest month's gross margin: total profit is
      65% of it, the margin lies in [15, 45] and the gross margin is revenue
      times margin. */
  predicate KpisConsistent(k: Kpis, grossMargin: real) {
    && k.profitTotal == 0.65 * grossMargin
    && 15.0 <= k.marginPct <= 45.0
    && k.revenue * k.marginPct == grossMargin * 100.0
  }

  /** On a generated table the KPIs are consistent with the latest gross
      margin; the reported growth figure is the latest row's, which is NaN
      when there is a single month, and otherwise the growth of the latest
      deposits over the month before. */
  lemma GeneratedKpis(periods: int, scenario: string, end: YearMonth, f: Factors, d: Draws)
    requires periods >= 0 ==> DrawsFit(d, periods)
    requires FactorsFor(Resolve(scenario), f)
    ensures var r := Generate(periods, scenario, end, f, d);
      r.Success? ==>
        var last := r.value[|r.value| - 1];
        var k := ComputeKpis(r.value);
        && k.Success?
        && KpisConsistent(k.value, last.grossMargin)
        && (periods == 1 ==> k.value.depositsGrowthPct == NaN)
        && k.value.depositsGrowthPct == last.depositsGrowthPct
        && (periods >= 2 ==> GrowthFrom(r.value[periods - 2], last))
  {
    var r := Generate(periods, scenario, end, f, d);
    if r.Success? {
      GenerateShape(periods, scenario, end, f, d);
      GenerateWithinBounds(periods, scenario, end, f, d);
      GenerateProfitDecomposition(periods, scenario, end, f, d);
      GenerateDepositGrowth(periods, scenario, end, f, d);
      var last := r.value[|r.value| - 1];
      assert WithinBounds(last) && MarginConsistent(last) && SegmentsSplitProfit(last);
      KpisOfConsistentTable(r.value);
    }
  }

  /** The KPI facts of `GeneratedKpis` for any table whose latest row obeys
      the row properties of a generated table. */
  lemma KpisOfConsistentTable(t: seq<Row>)
    requires |t| >= 1
    requires WithinBounds(t[|t| - 1]) && MarginConsistent(t[|t| - 1]) && SegmentsSplitProfit(t[|t| - 1])
    ensures var k := ComputeKpis(t);
      && k.Success?
      && KpisConsistent(k.value, t[|t| - 1].grossMargin)
      && k.value.depositsGrowthPct == t[|t| - 1].depositsGrowthPct
  {
  }

  /** On a generated table the risk indicators lie within the clamp bounds
      of the generator. */
  lemma GeneratedRisksWithinBounds(periods: int, scenario: string, end: YearMonth, f: Factors, d: Draws)
    requires periods >= 0 ==> DrawsFit(d, periods)
    requires FactorsFor(Resolve(scenario), f)
    ensures var r := Generate(periods, scenario, end, f, d);
      r.Success? ==>
        var k := ComputeRiskIndicators(r.value);
        && k.Success?
        && 0.5 <= k.value.nplRatioPct <= 9.0
        && 40.0 <= k.value.marketVarBps <= 350.0
        && 70.0 <= k.value.lcrPct <= 200.0
        && 1000.0 <= k.value.counterpartyExposure <= 4000.0
  {
    var r := Generate(periods, scenario, end, f, d);
    if r.Success? {
      GenerateWithinBounds(periods, scenario, end, f, d);
      assert WithinBounds(r.value[|r.value| - 1]);
    }
  }

  /** With the same draws, the latest NPL ratio and market VaR reported for
      the Adverse scenario are at least the Baseline's, and the Severe
      scenario's at least the Adverse's. */
  lemma StressRaisesReportedRisk(periods: int, end: YearMonth, fb: Factors, fa: Factors, fs: Factors, d: Draws)
    requires periods >= 1 && DrawsFit(d, periods)
    requires FactorsFor(BaselineConfig, fb) && FactorsFor(AdverseConfig, fa) && FactorsFor(SevereConfig, fs)
    ensures FactorsFor(Resolve("Baseline"), fb) && FactorsFor(Resolve("Adverse"), fa)
            && FactorsFor(Resolve("Severe"), fs)
    ensures var b := Generate(periods, "Baseline", end, fb, d);
      var a := Generate(periods, "Adverse", end, fa, d);
      var s := Generate(periods, "Severe", end, fs, d);
      && b.Success? && a.Success? && s.Success?
      && var rb, ra, rs := ComputeRiskIndicators(b.value), ComputeRiskIndicators(a.value),
                           ComputeRiskIndicators(s.value);
         && rb.Success? && ra.Success? && rs.Success?
         && rb.value.nplRatioPct <= ra.value.nplRatioPct <= rs.value.nplRatioPct
         && rb.value.marketVarBps <= ra.value.marketVarBps <= rs.value.marketVarBps
  {
    GenerateShape(periods, "Baseline", end, fb, d);
    GenerateStressOrdering(periods, end, fb, fa, fs, d);
  }
}
