/** What `generate_financial_data` (data.py:68-149) promises about the table it
    builds: its shape, and that every row is the reference row of its month,
    so that the row properties of module Reference hold for the whole table. */
module SeriesProperties {
  import opened Wrappers
  import opened Scenarios
  import opened Calendar
  import opened Series
  import opened Reference

  /** Generation fails for a negative count (numpy's draws) and for zero (the
      growth column keeps its leading NaN while every other column is empty);
      otherwise it yields `periods` rows dated by `MonthRange(periods, end)`. */
  lemma GenerateShape(periods: int, scenario: string, end: YearMonth, f: Factors, d: Draws)
    requires periods >= 0 ==> DrawsFit(d, periods)
    requires FactorsFor(Resolve(scenario), f)
    ensures var r := Generate(periods, scenario, end, f, d);
      && (r.Success? <==> periods >= 1)
      && (periods < 0 ==> r == Failure(NegativeDimensions))
      && (periods == 0 ==> r == Failure(LengthMismatch))
      && (r.Success? ==>
            |r.value| == periods
            && (forall i :: 0 <= i < periods ==> r.value[i].date == MonthRange(periods, end)[i])
            && r.value[periods - 1].date == end)
  {
    if periods >= 0 {
      ColumnsShape(Resolve(scenario), MonthRange(periods, end), f, d);
    }
  }

  /** The columns are as long as the month range, except the growth column,
      which keeps its leading entry when the range is empty. */
  lemma ColumnsShape(c: ScenarioConfig, dates: seq<YearMonth>, f: Factors, d: Draws)
    requires DrawsFit(d, |dates|)
    ensures SameLength(BuildColumns(c, dates, f, d)) <==> |dates| > 0
    ensures BuildColumns(c, dates, f, d).date == dates
  {
    var cols := BuildColumns(c, dates, f, d);
    if |dates| == 0 {
      assert |cols.depositsGrowthPct| == 1 != |cols.date|;
    } else {
      assert SameLength(cols);
    }
  }

  /** Entry i of the revenue, gross margin, margin, deposits and AUM columns
      is the reference value of month i. */
  lemma TrendColumnsAt(c: ScenarioConfig, f: Factors, d: Draws, i: nat)
    requires DrawsFit(d, |d.revenue|) && i < |d.revenue|
    ensures RevenueColumn(c, f, d)[i] == ReferenceRevenue(c, f, d, i)
    ensures GrossMarginColumn(c, f, d)[i] == ReferenceGrossMargin(c, f, d, i)
    ensures Scale(MarginFractionColumn(c, d), 100.0)[i] == ReferenceFraction(c, d, i) * 100.0
    ensures DepositsColumn(c, f, d)[i] == ReferenceDeposits(c, f, d, i)
    ensures AumColumn(c, f, d)[i] == ReferenceAum(c, f, d, i)
  {
  }

  /** Entry i of the growth column is the reference growth of month i. */
  lemma GrowthColumnAt(c: ScenarioConfig, f: Factors, d: Draws, i: nat)
    requires DrawsFit(d, |d.revenue|) && i < |d.revenue|
    ensures DepositsGrowth(DepositsColumn(c, f, d))[i] == ReferenceGrowth(c, f, d, i)
  {
    var deposits := DepositsColumn(c, f, d);
    if i > 0 {
      assert deposits[i - 1] == ReferenceDeposits(c, f, d, i - 1);
      assert deposits[i] == ReferenceDeposits(c, f, d, i);
    }
  }

  /** Entry i of each profit column is the reference segment profit of
      month i. */
  lemma ProfitColumnsAt(c: ScenarioConfig, f: Factors, d: Draws, i: nat)
    requires DrawsFit(d, |d.revenue|) && i < |d.revenue|
    ensures var total, shares := ProfitTotalColumn(c, f, d), SegmentShares(d.segments);
      var p := SegmentProfits(ReferenceGrossMargin(c, f, d, i), d.segments[i]);
      && Times(total, Retail(shares))[i] == p.retail
      && Times(total, Private(shares))[i] == p.private
      && Times(total, Corporate(shares))[i] == p.corporate
  {
    var total := ProfitTotalColumn(c, f, d);
    assert total[i] == ReferenceGrossMargin(c, f, d, i) * 0.65;
    var shares := SegmentShares(d.segments);
    assert shares[i] == Renormalise(d.segments[i]);
  }

  /** Entry i of each risk column is the clipped draw of month i, the risk
      cell of the reference row. */
  lemma RiskColumnsAt(c: ScenarioConfig, f: Factors, d: Draws, date: YearMonth, i: nat)
    requires DrawsFit(d, |d.revenue|) && i < |d.revenue|
    ensures var ref := ReferenceRow(c, f, d, date, i);
      && ClippedNormal(c.nplBasePct, c.volatilityPct * 2.0, 0.5, 9.0, d.npl)[i]
         == Clip(Normal(c.nplBasePct, c.volatilityPct * 2.0, d.npl[i]), 0.5, 9.0) == ref.nplRatioPct
      && ClippedNormal(c.varBaseBps, c.volatilityPct * 100.0, 40.0, 350.0, d.marketVar)[i]
         == Clip(Normal(c.varBaseBps, c.volatilityPct * 100.0, d.marketVar[i]), 40.0, 350.0) == ref.marketVarBps
      && ClippedNormal(c.lcrBasePct, c.volatilityPct * 100.0, 70.0, 200.0, d.lcr)[i]
         == Clip(Normal(c.lcrBasePct, c.volatilityPct * 100.0, d.lcr[i]), 70.0, 200.0) == ref.lcrPct
      && ClippedNormal(2200.0, 300.0 * (1.0 + c.volatilityPct), 1000.0, 4000.0, d.counterparty)[i]
         == Clip(Normal(2200.0, 300.0 * (1.0 + c.volatilityPct), d.counterparty[i]), 1000.0, 4000.0)
         == ref.counterpartyExposure
  {
  }

  /** Entry i of every column equals the reference row. */
  lemma ColumnsMatchReference(c: ScenarioConfig, dates: seq<YearMonth>, f: Factors, d: Draws, i: nat)
    requires DrawsFit(d, |dates|) && i < |dates|
    ensures SameLength(BuildColumns(c, dates, f, d))
    ensures RowAt(BuildColumns(c, dates, f, d), i) == ReferenceRow(c, f, d, dates[i], i)
  {
    var cols := BuildColumns(c, dates, f, d);
    assert SameLength(cols);
    TrendCellsMatch(c, dates, f, d, i);
    GrowthCellMatches(c, dates, f, d, i);
    ProfitCellsMatch(c, dates, f, d, i);
    RiskCellsMatch(c, dates, f, d, i);
    RowAtFields(cols, i, ReferenceRow(c, f, d, dates[i], i));
  }

  lemma TrendCellsMatch(c: ScenarioConfig, dates: seq<YearMonth>, f: Factors, d: Draws, i: nat)
    requires DrawsFit(d, |dates|) && i < |dates|
    ensures var cols, ref := BuildColumns(c, dates, f, d), ReferenceRow(c, f, d, dates[i], i);
      && cols.date[i] == ref.date
      && cols.revenue[i] == ref.revenue && cols.grossMargin[i] == ref.grossMargin
      && cols.marginPct[i] == ref.marginPct && cols.deposits[i] == ref.deposits
      && cols.aum[i] == ref.aum
  {
    var cols := BuildColumns(c, dates, f, d);
    assert cols.revenue == RevenueColumn(c, f, d) && cols.grossMargin == GrossMarginColumn(c, f, d)
      && cols.marginPct == Scale(MarginFractionColumn(c, d), 100.0)
      && cols.deposits == DepositsColumn(c, f, d) && cols.aum == AumColumn(c, f, d);
    TrendColumnsAt(c, f, d, i);
  }

  lemma GrowthCellMatches(c: ScenarioConfig, dates: seq<YearMonth>, f: Factors, d: Draws, i: nat)
    requires DrawsFit(d, |dates|) && i < |dates|
    ensures BuildColumns(c, dates, f, d).depositsGrowthPct[i]
            == ReferenceRow(c, f, d, dates[i], i).depositsGrowthPct
  {
    assert BuildColumns(c, dates, f, d).depositsGrowthPct == DepositsGrowth(DepositsColumn(c, f, d));
    GrowthColumnAt(c, f, d, i);
  }

  lemma ProfitCellsMatch(c: ScenarioConfig, dates: seq<YearMonth>, f: Factors, d: Draws, i: nat)
    requires DrawsFit(d, |dates|) && i < |dates|
    ensures var cols, ref := BuildColumns(c, dates, f, d), ReferenceRow(c, f, d, dates[i], i);
      && cols.profitRetail[i] == ref.profitRetail && cols.profitPrivate[i] == ref.profitPrivate
      && cols.profitCorporate[i] == ref.profitCorporate
  {
    var cols := BuildColumns(c, dates, f, d);
    var total, shares := ProfitTotalColumn(c, f, d), SegmentShares(d.segments);
    assert cols.profitRetail == Times(total, Retail(shares))
      && cols.profitPrivate == Times(total, Private(shares))
      && cols.profitCorporate == Times(total, Corporate(shares));
    ProfitColumnsAt(c, f, d, i);
  }

  lemma RiskCellsMatch(c: ScenarioConfig, dates: seq<YearMonth>, f: Factors, d: Draws, i: nat)
    requires DrawsFit(d, |dates|) && i < |dates|
    ensures var cols, ref := BuildColumns(c, dates, f, d), ReferenceRow(c, f, d, dates[i], i);
      && cols.nplRatioPct[i] == ref.nplRatioPct && cols.marketVarBps[i] == ref.marketVarBps
      && cols.lcrPct[i] == ref.lcrPct && cols.counterpartyExposure[i] == ref.counterpartyExposure
  {
    var cols := BuildColumns(c, dates, f, d);
    assert cols.nplRatioPct == ClippedNormal(c.nplBasePct, c.volatilityPct * 2.0, 0.5, 9.0, d.npl)
      && cols.marketVarBps == ClippedNormal(c.varBaseBps, c.volatilityPct * 100.0, 40.0, 350.0, d.marketVar)
      && cols.lcrPct == ClippedNormal(c.lcrBasePct, c.volatilityPct * 100.0, 70.0, 200.0, d.lcr)
      && cols.counterpartyExposure
         == ClippedNormal(2200.0, 300.0 * (1.0 + c.volatilityPct), 1000.0, 4000.0, d.counterparty);
    RiskColumnsAt(c, f, d, dates[i], i);
  }

  /** Row i of equally long columns is a given row when every column's entry
      i is that row's field. */
  lemma RowAtFields(cols: Columns, i: nat, row: Row)
    requires SameLength(cols) && i < |cols.date|
    requires cols.date[i] == row.date && cols.revenue[i] == row.revenue
    requires cols.grossMargin[i] == row.grossMargin && cols.marginPct[i] == row.marginPct
    requires cols.deposits[i] == row.deposits && cols.depositsGrowthPct[i] == row.depositsGrowthPct
    requires cols.aum[i] == row.aum && cols.profitRetail[i] == row.profitRetail
    requires cols.profitPrivate[i] == row.profitPrivate && cols.profitCorporate[i] == row.profitCorporate
    requires cols.nplRatioPct[i] == row.nplRatioPct && cols.marketVarBps[i] == row.marketVarBps
    requires cols.lcrPct[i] == row.lcrPct && cols.counterpartyExposure[i] == row.counterpartyExposure
    ensures RowAt(cols, i) == row
  {
  }

  /** Every generated row is the reference row of its month. */
  lemma GenerateMatchesReference(periods: int, scenario: string, end: YearMonth, f: Factors, d: Draws)
    requires periods >= 0 ==> DrawsFit(d, periods)
    requires FactorsFor(Resolve(scenario), f)
    ensures var r := Generate(periods, scenario, end, f, d);
      r.Success? ==> ReferenceTable(r.value, Resolve(scenario), f, d, MonthRange(periods, end))
  {
    var r := Generate(periods, scenario, end, f, d);
    if r.Success? {
      GenerateShape(periods, scenario, end, f, d);
      forall i | 0 <= i < periods
        ensures r.value[i] == ReferenceRow(Resolve(scenario), f, d, MonthRange(periods, end)[i], i)
      {
        ColumnsMatchReference(Resolve(scenario), MonthRange(periods, end), f, d, i);
      }
    }
  }

  /** Every stored row respects the clamp bounds, whatever the draws. */
  lemma GenerateWithinBounds(periods: int, scenario: string, end: YearMonth, f: Factors, d: Draws)
    requires periods >= 0 ==> DrawsFit(d, periods)
    requires FactorsFor(Resolve(scenario), f)
    ensures var r := Generate(periods, scenario, end, f, d);
      r.Success? ==> forall i :: 0 <= i < |r.value| ==> WithinBounds(r.value[i])
  {
    var r := Generate(periods, scenario, end, f, d);
    if r.Success? {
      GenerateMatchesReference(periods, scenario, end, f, d);
      TableWithinBounds(r.value, Resolve(scenario), f, d, MonthRange(periods, end));
    }
  }

  /** Every generated row: gross margin is revenue times the margin fraction,
      and the segments split 65% of it, each taking between 1/11 and 0.8. */
  lemma GenerateProfitDecomposition(periods: int, scenario: string, end: YearMonth, f: Factors, d: Draws)
    requires periods >= 0 ==> DrawsFit(d, periods)
    requires FactorsFor(Resolve(scenario), f)
    ensures var r := Generate(periods, scenario, end, f, d);
      r.Success? ==> forall i :: 0 <= i < |r.value| ==>
        MarginConsistent(r.value[i]) && SegmentsSplitProfit(r.value[i])
  {
    var r := Generate(periods, scenario, end, f, d);
    if r.Success? {
      GenerateMatchesReference(periods, scenario, end, f, d);
      TableProfitDecomposition(r.value, Resolve(scenario), f, d, MonthRange(periods, end));
    }
  }

  /** The first month has no growth figure; every later month's figure is
      its growth against the month before. */
  lemma GenerateDepositGrowth(periods: int, scenario: string, end: YearMonth, f: Factors, d: Draws)
    requires periods >= 0 ==> DrawsFit(d, periods)
    requires FactorsFor(Resolve(scenario), f)
    ensures var r := Generate(periods, scenario, end, f, d);
      r.Success? ==>
        && r.value[0].depositsGrowthPct == NaN
        && forall i :: 1 <= i < |r.value| ==> GrowthFrom(r.value[i - 1], r.value[i])
  {
    var r := Generate(periods, scenario, end, f, d);
    if r.Success? {
      GenerateMatchesReference(periods, scenario, end, f, d);
      TableDepositGrowth(r.value, Resolve(scenario), f, d, MonthRange(periods, end));
    }
  }

  /** When no deposit draw pushes the noise factor to zero or below, every
      month has positive deposits and every month after the first a finite
      growth figure. */
  lemma GenerateDepositsPositive(periods: int, scenario: string, end: YearMonth, f: Factors, d: Draws)
    requires periods >= 0 ==> DrawsFit(d, periods)
    requires FactorsFor(Resolve(scenario), f)
    requires forall i :: 0 <= i < |d.deposits| ==>
               1.0 + Normal(0.0, Resolve(scenario).volatilityPct / 4.0, d.deposits[i]) > 0.0
    ensures var r := Generate(periods, scenario, end, f, d);
      r.Success? ==>
        && (forall i :: 0 <= i < |r.value| ==> r.value[i].deposits > 0.0)
        && (forall i :: 1 <= i < |r.value| ==> r.value[i].depositsGrowthPct.Finite?)
  {
    var r := Generate(periods, scenario, end, f, d);
    if r.Success? {
      GenerateMatchesReference(periods, scenario, end, f, d);
      TableDepositsPositive(r.value, Resolve(scenario), f, d, MonthRange(periods, end));
    }
  }

  /** An unknown scenario name generates exactly the Baseline table. */
  lemma GenerateFallsBackToBaseline(periods: int, scenario: string, end: YearMonth, f: Factors, d: Draws)
    requires scenario !in Catalog
    requires periods >= 0 ==> DrawsFit(d, periods)
    requires FactorsFor(BaselineConfig, f)
    ensures FactorsFor(Resolve(scenario), f) && FactorsFor(Resolve("Baseline"), f)
    ensures Generate(periods, scenario, end, f, d) == Generate(periods, "Baseline", end, f, d)
  {
  }

  /** With the same draws, the Adverse table's NPL ratio and market VaR are
      at least the Baseline's in every month, and the Severe table's at least
      the Adverse's. */
  lemma GenerateStressOrdering(periods: int, end: YearMonth, fb: Factors, fa: Factors, fs: Factors, d: Draws)
    requires periods >= 0 ==> DrawsFit(d, periods)
    requires FactorsFor(BaselineConfig, fb) && FactorsFor(AdverseConfig, fa) && FactorsFor(SevereConfig, fs)
    ensures FactorsFor(Resolve("Baseline"), fb) && FactorsFor(Resolve("Adverse"), fa)
            && FactorsFor(Resolve("Severe"), fs)
    ensures var b := Generate(periods, "Baseline", end, fb, d);
      var a := Generate(periods, "Adverse", end, fa, d);
      var s := Generate(periods, "Severe", end, fs, d);
      b.Success? ==>
        && a.Success? && s.Success? && |a.value| == |b.value| == |s.value|
        && forall i :: 0 <= i < |b.value| ==>
             && b.value[i].nplRatioPct <= a.value[i].nplRatioPct <= s.value[i].nplRatioPct
             && b.value[i].marketVarBps <= a.value[i].marketVarBps <= s.value[i].marketVarBps
  {
    var b := Generate(periods, "Baseline", end, fb, d);
    var a := Generate(periods, "Adverse", end, fa, d);
    var s := Generate(periods, "Severe", end, fs, d);
    if b.Success? {
      GenerateShape(periods, "Baseline", end, fb, d);
      GenerateShape(periods, "Adverse", end, fa, d);
      GenerateShape(periods, "Severe", end, fs, d);
      GenerateMatchesReference(periods, "Baseline", end, fb, d);
      GenerateMatchesReference(periods, "Adverse", end, fa, d);
      GenerateMatchesReference(periods, "Severe", end, fs, d);
      TableStressOrdering(b.value, a.value, s.value, fb, fa, fs, d, MonthRange(periods, end));
    }
  }

  /** Without noise, the trend columns compound: twelve months later revenue,
      deposits and AUM have grown by exactly the scenario's annual rate. */
  lemma GenerateCompoundsAnnually(periods: int, scenario: string, end: YearMonth, f: Factors, d: Draws, m: nat)
    requires periods >= 0 ==> DrawsFit(d, periods)
    requires FactorsFor(Resolve(scenario), f)
    requires m + 12 < periods
    ensures var r := Generate(periods, scenario, end, f, d);
      var c := Resolve(scenario);
      && r.Success?
      && (d.revenue[m] == 0.0 == d.revenue[m + 12] ==>
            GrewByYear(r.value[m].revenue, r.value[m + 12].revenue, c.revenueGrowthAnnual))
      && (d.deposits[m] == 0.0 == d.deposits[m + 12] ==>
            GrewByYear(r.value[m].deposits, r.value[m + 12].deposits, c.depositGrowthAnnual))
      && (d.aum[m] == 0.0 == d.aum[m + 12] ==>
            GrewByYear(r.value[m].aum, r.value[m + 12].aum, c.aumGrowthAnnual))
  {
    var r := Generate(periods, scenario, end, f, d);
    GenerateShape(periods, scenario, end, f, d);
    GenerateMatchesReference(periods, scenario, end, f, d);
    TableCompoundsAnnually(r.value, Resolve(scenario), f, d, MonthRange(periods, end), m);
  }
}
