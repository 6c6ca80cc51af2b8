/** A row-by-row reading of `generate_financial_data` (data.py:90-128): the
    value of every cell of month i computed from that month's draws (and,
    for the growth cell, the deposits of month i - 1), and what holds of
    every such row whatever the draws. */
module Reference {
  import opened Scenarios
  import opened Calendar
  import opened Series

  /** Gross margin is revenue times the stored margin fraction. */
  predicate MarginConsistent(row: Row) {
    row.grossMargin * 100.0 == row.revenue * row.marginPct
  }

  /** The three segment profits add up to 65% of the gross margin, and each
      takes between 1/11 and 0.8 of that when the gross margin is
      non-negative. */
  predicate SegmentsSplitProfit(row: Row) {
    && row.profitRetail + row.profitPrivate + row.profitCorporate == 0.65 * row.grossMargin
    && (row.grossMargin >= 0.0 ==>
          var p := 0.65 * row.grossMargin;
          && p / 11.0 <= row.profitRetail <= 0.8 * p
          && p / 11.0 <= row.profitPrivate <= 0.8 * p
          && p / 11.0 <= row.profitCorporate <= 0.8 * p)
  }

  /** The clamp bounds of data.py:94-96 and 117-128, as stored in a row
      (the margin fraction is stored times 100). */
  predicate WithinBounds(row: Row) {
    15.0 <= row.marginPct <= 45.0
    && 0.5 <= row.nplRatioPct <= 9.0
    && 40.0 <= row.marketVarBps <= 350.0
    && 70.0 <= row.lcrPct <= 200.0
    && 1000.0 <= row.counterpartyExposure <= 4000.0
  }

  /** The growth figure of `row` against the month before: finite exactly
      when the earlier deposits are non-zero, and then the change in deposits
      as a percentage of the earlier deposits. */
  predicate GrowthFrom(prev: Row, row: Row) {
    && (row.depositsGrowthPct.Finite? <==> prev.deposits != 0.0)
    && (row.depositsGrowthPct.Finite? ==>
          row.depositsGrowthPct.r * prev.deposits == (row.deposits - prev.deposits) * 100.0)
  }

  lemma ReferenceGrowthStep(c: ScenarioConfig, f: Factors, d: Draws, prevDate: YearMonth, date: YearMonth, i: nat)
    requires DrawsFit(d, |d.revenue|) && 1 <= i < |d.revenue|
    ensures GrowthFrom(ReferenceRow(c, f, d, prevDate, i - 1), ReferenceRow(c, f, d, date, i))
  {
    var prev := ReferenceRow(c, f, d, prevDate, i - 1);
    var row := ReferenceRow(c, f, d, date, i);
    assert prev.deposits == ReferenceDeposits(c, f, d, i - 1);
    assert row.deposits == ReferenceDeposits(c, f, d, i);
    assert row.depositsGrowthPct == GrowthPct(prev.deposits, row.deposits);
    GrowthFromPct(prev, row);
  }

  lemma GrowthFromPct(prev: Row, row: Row)
    requires row.depositsGrowthPct == GrowthPct(prev.deposits, row.deposits)
    ensures GrowthFrom(prev, row)
  {
    GrowthPctMeaning(prev.deposits, row.deposits);
  }

  /** Revenue of month i: the compounded trend times one plus its noise. */
  function ReferenceRevenue(c: ScenarioConfig, f: Factors, d: Draws, i: nat): real
    requires i < |d.revenue|
  {
    Trended(120.0, f.revenue, i, Normal(0.0, c.volatilityPct, d.revenue[i]))
  }

  /** Margin fraction of month i, clipped to [0.15, 0.45]. */
  function ReferenceFraction(c: ScenarioConfig, d: Draws, i: nat): real
    requires i < |d.margin|
  {
    Clip(Normal(c.marginPct, c.volatilityPct / 4.0, d.margin[i]), 0.15, 0.45)
  }

  /** Gross margin of month i: revenue times the margin fraction. */
  function ReferenceGrossMargin(c: ScenarioConfig, f: Factors, d: Draws, i: nat): real
    requires i < |d.revenue| && i < |d.margin|
  {
    ReferenceRevenue(c, f, d, i) * ReferenceFraction(c, d, i)
  }

  /** Deposits of month i. */
  function ReferenceDeposits(c: ScenarioConfig, f: Factors, d: Draws, i: nat): real
    requires i < |d.deposits|
  {
    Trended(8000.0, f.deposits, i, Normal(0.0, c.volatilityPct / 4.0, d.deposits[i]))
  }

  /** Deposit growth of month i against month i - 1, in percent; none for the
      first month. */
  function ReferenceGrowth(c: ScenarioConfig, f: Factors, d: Draws, i: nat): XReal
    requires i < |d.deposits|
  {
    if i == 0 then NaN
    else GrowthPct(ReferenceDeposits(c, f, d, i - 1), ReferenceDeposits(c, f, d, i))
  }

  /** AUM of month i. */
  function ReferenceAum(c: ScenarioConfig, f: Factors, d: Draws, i: nat): real
    requires i < |d.aum|
  {
    Trended(15000.0, f.aum, i, Normal(0.0, c.volatilityPct / 3.0, d.aum[i]))
  }

  /** The three segment profits of a month: 65% of the gross margin, split by
      the renormalised Dirichlet row. */
  function SegmentProfits(grossMargin: real, s: Share3): Share3 {
    Share3(grossMargin * 0.65 * Renormalise(s).retail, grossMargin * 0.65 * Renormalise(s).private,
           grossMargin * 0.65 * Renormalise(s).corporate)
  }

  /** For any Dirichlet row, the segment profits add up to 65% of the gross
      margin, and each takes between 1/11 and 0.8 of that when the gross
      margin is non-negative. */
  lemma SegmentProfitsSplit(grossMargin: real, s: Share3)
    requires InSimplex(s)
    ensures var p := SegmentProfits(grossMargin, s);
      && Total(p) == 0.65 * grossMargin
      && (grossMargin >= 0.0 ==>
            var q := 0.65 * grossMargin;
            && q / 11.0 <= p.retail <= 0.8 * q
            && q / 11.0 <= p.private <= 0.8 * q
            && q / 11.0 <= p.corporate <= 0.8 * q)
  {
    var p := SegmentProfits(grossMargin, s);
    RenormaliseIsDistribution(s);
    RenormalisedShareBounds(s);
    SegmentSplit(grossMargin, Renormalise(s), p.retail, p.private, p.corporate);
  }

  /** Row i of the table computed on its own, from the draws of month i (and
      the deposits of month i - 1): the row-by-row reading of the source's
      whole-column expressions. */
  function ReferenceRow(c: ScenarioConfig, f: Factors, d: Draws, date: YearMonth, i: nat): Row
    requires DrawsFit(d, |d.revenue|) && i < |d.revenue|
  {
    Row(date, ReferenceRevenue(c, f, d, i), ReferenceGrossMargin(c, f, d, i),
        ReferenceFraction(c, d, i) * 100.0,
        ReferenceDeposits(c, f, d, i), ReferenceGrowth(c, f, d, i), ReferenceAum(c, f, d, i),
        SegmentProfits(ReferenceGrossMargin(c, f, d, i), d.segments[i]).retail,
        SegmentProfits(ReferenceGrossMargin(c, f, d, i), d.segments[i]).private,
        SegmentProfits(ReferenceGrossMargin(c, f, d, i), d.segments[i]).corporate,
        Clip(Normal(c.nplBasePct, c.volatilityPct * 2.0, d.npl[i]), 0.5, 9.0),
        Clip(Normal(c.varBaseBps, c.volatilityPct * 100.0, d.marketVar[i]), 40.0, 350.0),
        Clip(Normal(c.lcrBasePct, c.volatilityPct * 100.0, d.lcr[i]), 70.0, 200.0),
        Clip(Normal(2200.0, 300.0 * (1.0 + c.volatilityPct), d.counterparty[i]), 1000.0, 4000.0))
  }

  /** A reference row respects the clamp bounds, whatever the draws. */
  lemma ReferenceWithinBounds(c: ScenarioConfig, f: Factors, d: Draws, date: YearMonth, i: nat)
    requires DrawsFit(d, |d.revenue|) && i < |d.revenue|
    ensures WithinBounds(ReferenceRow(c, f, d, date, i))
  {
    ClipIsClamp(Normal(c.marginPct, c.volatilityPct / 4.0, d.margin[i]), 0.15, 0.45);
    ClipIsClamp(Normal(c.nplBasePct, c.volatilityPct * 2.0, d.npl[i]), 0.5, 9.0);
    ClipIsClamp(Normal(c.varBaseBps, c.volatilityPct * 100.0, d.marketVar[i]), 40.0, 350.0);
    ClipIsClamp(Normal(c.lcrBasePct, c.volatilityPct * 100.0, d.lcr[i]), 70.0, 200.0);
    ClipIsClamp(Normal(2200.0, 300.0 * (1.0 + c.volatilityPct), d.counterparty[i]), 1000.0, 4000.0);
  }

  /** A reference row: gross margin is revenue times the margin fraction,
      and the segments split 65% of it. */
  lemma ReferenceProfitDecomposition(c: ScenarioConfig, f: Factors, d: Draws, date: YearMonth, i: nat)
    requires DrawsFit(d, |d.revenue|) && i < |d.revenue|
    ensures MarginConsistent(ReferenceRow(c, f, d, date, i))
    ensures SegmentsSplitProfit(ReferenceRow(c, f, d, date, i))
  {
    SegmentProfitsSplit(ReferenceGrossMargin(c, f, d, i), d.segments[i]);
  }

  lemma QuotientWithin(a: real, t: real)
    requires 0.1 <= a <= 0.8 && 1.0 <= t <= 1.1
    ensures 1.0 / 11.0 <= a / t <= 0.8
  {
    var q := a / t;
    assert q >= 0.0;
    assert a == q * t <= q * 1.1;
    assert a == q * t >= q;
  }

  predicate ShareWithin(x: real) {
    1.0 / 11.0 <= x <= 0.8
  }

  /** For a Dirichlet row, clipping moves the sum into [1, 1.1]: raising a
      small share adds at most 0.1, and lowering a share above 0.8 leaves two
      shares of at least 0.1 beside it. */
  lemma ClippedSimplexTotal(s: Share3)
    requires InSimplex(s)
    ensures 1.0 <= Total(ClipShares(s)) <= 1.1
  {
  }

  /** So a renormalised Dirichlet row gives every segment between 1/11 and 0.8
      of the profit. */
  lemma RenormalisedShareBounds(s: Share3)
    requires InSimplex(s)
    ensures var r := Renormalise(s);
      ShareWithin(r.retail) && ShareWithin(r.private) && ShareWithin(r.corporate)
  {
    var c := ClipShares(s);
    ClippedSimplexTotal(s);
    QuotientWithin(c.retail, Total(c));
    QuotientWithin(c.private, Total(c));
    QuotientWithin(c.corporate, Total(c));
  }

  lemma SplitSumsToWhole(p: real, s: Share3)
    requires Total(s) == 1.0
    ensures p * s.retail + p * s.private + p * s.corporate == p
  {
    assert p * s.retail + p * s.private + p * s.corporate == p * Total(s);
  }

  /** The segment split of one row: three profits taken as shares of 65% of
      the gross margin add up to it when the shares sum to one, and each lies
      between 1/11 and 0.8 of it when the shares do. */
  lemma SegmentSplit(g: real, share: Share3, retail: real, private: real, corporate: real)
    requires Total(share) == 1.0
    requires retail == g * 0.65 * share.retail
    requires private == g * 0.65 * share.private
    requires corporate == g * 0.65 * share.corporate
    ensures retail + private + corporate == 0.65 * g
    ensures g >= 0.0 && ShareWithin(share.retail) && ShareWithin(share.private)
            && ShareWithin(share.corporate) ==>
      var p := 0.65 * g;
      && p / 11.0 <= retail <= 0.8 * p
      && p / 11.0 <= private <= 0.8 * p
      && p / 11.0 <= corporate <= 0.8 * p
  {
    SplitSumsToWhole(g * 0.65, share);
    if g >= 0.0 && ShareWithin(share.retail) && ShareWithin(share.private) && ShareWithin(share.corporate) {
      ScaledWithin(g, share.retail, retail);
      ScaledWithin(g, share.private, private);
      ScaledWithin(g, share.corporate, corporate);
    }
  }

  lemma ScaledWithin(g: real, x: real, v: real)
    requires g >= 0.0 && ShareWithin(x) && v == g * 0.65 * x
    ensures 0.65 * g / 11.0 <= v <= 0.8 * (0.65 * g)
  {
    var p := 0.65 * g;
    assert v == p * x;
    assert p * x >= p * (1.0 / 11.0);
    assert p * x <= p * 0.8;
  }

  /** Deposits stay positive in a month whose noise factor `1 + normal(0,
      sigma)` is positive, since the monthly factor is positive. */
  lemma ReferenceDepositsPositive(c: ScenarioConfig, f: Factors, d: Draws, i: nat)
    requires FactorsFor(c, f) && i < |d.deposits|
    requires 1.0 + Normal(0.0, c.volatilityPct / 4.0, d.deposits[i]) > 0.0
    ensures ReferenceDeposits(c, f, d, i) > 0.0
  {
    TrendedPositive(8000.0, f.deposits, i, Normal(0.0, c.volatilityPct / 4.0, d.deposits[i]));
  }

  /** `Clip` never reverses the order of two values. */
  lemma ClipMonotone(x: real, y: real, lo: real, hi: real)
    requires x <= y
    ensures Clip(x, lo, hi) <= Clip(y, lo, hi)
  {
  }

  /** The same standard-normal draw yields an NPL ratio and a market VaR that
      rise from Baseline to Adverse to Severe: both the means and the spreads
      of the catalogue grow with severity, and below the floor the clip makes
      them equal. */
  lemma StressRaisesNplAndVar(z: real)
    ensures Clip(Normal(BaselineConfig.nplBasePct, BaselineConfig.volatilityPct * 2.0, z), 0.5, 9.0)
            <= Clip(Normal(AdverseConfig.nplBasePct, AdverseConfig.volatilityPct * 2.0, z), 0.5, 9.0)
            <= Clip(Normal(SevereConfig.nplBasePct, SevereConfig.volatilityPct * 2.0, z), 0.5, 9.0)
    ensures Clip(Normal(BaselineConfig.varBaseBps, BaselineConfig.volatilityPct * 100.0, z), 40.0, 350.0)
            <= Clip(Normal(AdverseConfig.varBaseBps, AdverseConfig.volatilityPct * 100.0, z), 40.0, 350.0)
            <= Clip(Normal(SevereConfig.varBaseBps, SevereConfig.volatilityPct * 100.0, z), 40.0, 350.0)
  {
  }

  /** Compounding is additive in the month count: m months followed by n
      months equal m + n months. */
  lemma {:induction false} PowAdd(f: real, m: nat, n: nat)
    ensures Pow(f, m + n) == Pow(f, m) * Pow(f, n)
    decreases n
  {
    if n > 0 {
      PowAdd(f, m, n - 1);
      assert Pow(f, m + n) == f * Pow(f, m + n - 1);
    }
  }

  /** Twelve months of compounding at the monthly factor of an annual rate
      multiply the trend by one plus that rate. */
  lemma TrendCompoundsAnnually(base: real, f: real, annual: real, month: nat)
    requires MonthlyFactorOf(f, annual)
    ensures Trended(base, f, month + 12, 0.0) == Trended(base, f, month, 0.0) * (1.0 + annual)
  {
    PowAdd(f, month, 12);
  }

  /** `rows` is the table the reference rows make for scenario `c`, factors
      `f`, draws `d` and months `dates`. */
  predicate ReferenceTable(rows: seq<Row>, c: ScenarioConfig, f: Factors, d: Draws, dates: seq<YearMonth>) {
    && |rows| == |dates| && DrawsFit(d, |dates|)
    && forall i :: 0 <= i < |rows| ==> rows[i] == ReferenceRow(c, f, d, dates[i], i)
  }

  lemma TableWithinBounds(rows: seq<Row>, c: ScenarioConfig, f: Factors, d: Draws, dates: seq<YearMonth>)
    requires ReferenceTable(rows, c, f, d, dates)
    ensures forall i :: 0 <= i < |rows| ==> WithinBounds(rows[i])
  {
    forall i | 0 <= i < |rows| ensures WithinBounds(rows[i]) {
      ReferenceWithinBounds(c, f, d, dates[i], i);
    }
  }

  lemma TableProfitDecomposition(rows: seq<Row>, c: ScenarioConfig, f: Factors, d: Draws, dates: seq<YearMonth>)
    requires ReferenceTable(rows, c, f, d, dates)
    ensures forall i :: 0 <= i < |rows| ==> MarginConsistent(rows[i]) && SegmentsSplitProfit(rows[i])
  {
    forall i | 0 <= i < |rows| ensures MarginConsistent(rows[i]) && SegmentsSplitProfit(rows[i]) {
      ReferenceProfitDecomposition(c, f, d, dates[i], i);
    }
  }

  lemma TableDepositGrowth(rows: seq<Row>, c: ScenarioConfig, f: Factors, d: Draws, dates: seq<YearMonth>)
    requires ReferenceTable(rows, c, f, d, dates) && |rows| >= 1
    ensures rows[0].depositsGrowthPct == NaN
    ensures forall i :: 1 <= i < |rows| ==> GrowthFrom(rows[i - 1], rows[i])
  {
    assert rows[0] == ReferenceRow(c, f, d, dates[0], 0);
    forall i | 1 <= i < |rows| ensures GrowthFrom(rows[i - 1], rows[i]) {
      assert rows[i - 1] == ReferenceRow(c, f, d, dates[i - 1], i - 1);
      ReferenceGrowthStep(c, f, d, dates[i - 1], dates[i], i);
    }
  }

  lemma TableDepositsPositive(rows: seq<Row>, c: ScenarioConfig, f: Factors, d: Draws, dates: seq<YearMonth>)
    requires ReferenceTable(rows, c, f, d, dates) && FactorsFor(c, f)
    requires forall i :: 0 <= i < |d.deposits| ==> 1.0 + Normal(0.0, c.volatilityPct / 4.0, d.deposits[i]) > 0.0
    ensures forall i :: 0 <= i < |rows| ==> rows[i].deposits > 0.0
    ensures forall i :: 1 <= i < |rows| ==> rows[i].depositsGrowthPct.Finite?
  {
    forall i | 0 <= i < |rows| ensures rows[i].deposits > 0.0 {
      ReferenceDepositsPositive(c, f, d, i);
    }
    if |rows| >= 1 {
      TableDepositGrowth(rows, c, f, d, dates);
      forall i | 1 <= i < |rows| ensures rows[i].depositsGrowthPct.Finite? {
        assert GrowthFrom(rows[i - 1], rows[i]) && rows[i - 1].deposits > 0.0;
      }
    }
  }

  /** With the same draws, each month's NPL ratio and market VaR rise from
      the Baseline table to the Adverse to the Severe one. */
  lemma TableStressOrdering(b: seq<Row>, a: seq<Row>, s: seq<Row>, fb: Factors, fa: Factors, fs: Factors,
                            d: Draws, dates: seq<YearMonth>)
    requires ReferenceTable(b, BaselineConfig, fb, d, dates)
    requires ReferenceTable(a, AdverseConfig, fa, d, dates)
    requires ReferenceTable(s, SevereConfig, fs, d, dates)
    ensures forall i :: 0 <= i < |b| ==>
      && b[i].nplRatioPct <= a[i].nplRatioPct <= s[i].nplRatioPct
      && b[i].marketVarBps <= a[i].marketVarBps <= s[i].marketVarBps
  {
    forall i | 0 <= i < |b|
      ensures && b[i].nplRatioPct <= a[i].nplRatioPct <= s[i].nplRatioPct
              && b[i].marketVarBps <= a[i].marketVarBps <= s[i].marketVarBps
    {
      StressRaisesNplAndVar(d.npl[i]);
      StressRaisesNplAndVar(d.marketVar[i]);
    }
  }

  /** `y` is `x` grown by one year at the annual rate `annual`. */
  predicate GrewByYear(x: real, y: real, annual: real)
  {
    y == x * (1.0 + annual)
  }

  /** One trend column, months m and m + 12. */
  lemma YearApart(base: real, f: real, annual: real, sigma: real, z: real, zNext: real, m: nat, x: real, y: real)
    requires MonthlyFactorOf(f, annual)
    requires x == Trended(base, f, m, Normal(0.0, sigma, z))
    requires y == Trended(base, f, m + 12, Normal(0.0, sigma, zNext))
    ensures z == 0.0 == zNext ==> GrewByYear(x, y, annual)
  {
    if z == 0.0 == zNext {
      assert Normal(0.0, sigma, z) == 0.0 == Normal(0.0, sigma, zNext);
      TrendCompoundsAnnually(base, f, annual, m);
    }
  }

  /** In two months a year apart whose draws are zero, the trend columns
      differ exactly by the scenario's annual growth. */
  lemma TableCompoundsAnnually(rows: seq<Row>, c: ScenarioConfig, f: Factors, d: Draws, dates: seq<YearMonth>, m: nat)
    requires ReferenceTable(rows, c, f, d, dates) && FactorsFor(c, f) && m + 12 < |rows|
    ensures d.revenue[m] == 0.0 == d.revenue[m + 12] ==>
              GrewByYear(rows[m].revenue, rows[m + 12].revenue, c.revenueGrowthAnnual)
    ensures d.deposits[m] == 0.0 == d.deposits[m + 12] ==>
              GrewByYear(rows[m].deposits, rows[m + 12].deposits, c.depositGrowthAnnual)
    ensures d.aum[m] == 0.0 == d.aum[m + 12] ==>
              GrewByYear(rows[m].aum, rows[m + 12].aum, c.aumGrowthAnnual)
  {
    var row, next := rows[m], rows[m + 12];
    assert row.revenue == ReferenceRevenue(c, f, d, m) && next.revenue == ReferenceRevenue(c, f, d, m + 12);
    assert row.deposits == ReferenceDeposits(c, f, d, m) && next.deposits == ReferenceDeposits(c, f, d, m + 12);
    assert row.aum == ReferenceAum(c, f, d, m) && next.aum == ReferenceAum(c, f, d, m + 12);
    YearApart(120.0, f.revenue, c.revenueGrowthAnnual, c.volatilityPct, d.revenue[m], d.revenue[m + 12],
              m, row.revenue, next.revenue);
    YearApart(8000.0, f.deposits, c.depositGrowthAnnual, c.volatilityPct / 4.0, d.deposits[m],
              d.deposits[m + 12], m, row.deposits, next.deposits);
    YearApart(15000.0, f.aum, c.aumGrowthAnnual, c.volatilityPct / 3.0, d.aum[m], d.aum[m + 12],
              m, row.aum, next.aum);
  }
}
