/** `generate_financial_data` (data.py:68-149): the scenario-driven monthly
    series. The seeded numpy generator is replaced by its draws, passed in as
    data (one standard-normal draw per column and row, one Dirichlet row per
    month), and the monthly compounding factors `(1 + g) ** (1/12)` are passed
    in together with the equation that ties them to the annual rates. */
module Series {
  import opened Wrappers
  import opened Scenarios
  import opened Calendar

  /** The values numpy's element-wise float division can produce. */
  datatype XReal = Finite(r: real) | PosInf | NegInf | NaN

  /** `a / b` on floats: a zero divisor gives an infinity of the numerator's
      sign, or NaN when the numerator is zero too. */
  function Quotient(a: real, b: real): XReal {
    if b != 0.0 then Finite(a / b)
    else if a == 0.0 then NaN
    else if a > 0.0 then PosInf
    else NegInf
  }

  /** The quotient is finite exactly when the divisor is non-zero, and then
      it is the number that multiplied by the divisor gives the dividend; a
      zero divisor gives NaN for 0/0 and otherwise the numerator's infinity. */
  lemma QuotientIsDivision(a: real, b: real)
    ensures Quotient(a, b).Finite? <==> b != 0.0
    ensures Quotient(a, b).Finite? ==> Quotient(a, b).r * b == a
    ensures b == 0.0 ==> (Quotient(a, b) == NaN <==> a == 0.0)
    ensures b == 0.0 && a > 0.0 ==> Quotient(a, b) == PosInf
    ensures b == 0.0 && a < 0.0 ==> Quotient(a, b) == NegInf
  {
  }

  /** `x * 100.0`: infinities and NaN are kept. */
  function Percent(x: XReal): XReal {
    match x
    case Finite(v) => Finite(v * 100.0)
    case _ => x
  }

  function Pow(f: real, m: nat): real {
    if m == 0 then 1.0 else f * Pow(f, m - 1)
  }

  lemma {:induction false} PowPositive(f: real, m: nat)
    requires f > 0.0
    ensures Pow(f, m) > 0.0
  {
    if m > 0 {
      PowPositive(f, m - 1);
    }
  }

  /** `1 + annual_to_monthly(g)`: the positive factor whose twelfth power is
      `1 + g` (data.py:79-84). */
  ghost predicate MonthlyFactorOf(f: real, annual: real) {
    f > 0.0 && Pow(f, 12) == 1.0 + annual
  }

  /** Monthly compounding factors for revenue, deposits and AUM. */
  datatype Factors = Factors(revenue: real, deposits: real, aum: real)

  ghost predicate FactorsFor(c: ScenarioConfig, f: Factors) {
    MonthlyFactorOf(f.revenue, c.revenueGrowthAnnual)
    && MonthlyFactorOf(f.deposits, c.depositGrowthAnnual)
    && MonthlyFactorOf(f.aum, c.aumGrowthAnnual)
  }

  /** A (retail, private, corporate) triple of shares. */
  datatype Share3 = Share3(retail: real, private: real, corporate: real)

  function Total(s: Share3): real {
    s.retail + s.private + s.corporate
  }

  /** A row of `rng.dirichlet`: non-negative and summing to one. */
  predicate InSimplex(s: Share3) {
    s.retail >= 0.0 && s.private >= 0.0 && s.corporate >= 0.0 && Total(s) == 1.0
  }

  /** What the seeded generator hands out, in the order the source draws it:
      standard-normal draws z (numpy's `normal(loc, scale)` is `loc + scale * z`)
      for revenue, margin, deposits and AUM, the Dirichlet rows, then the four
      risk columns. */
  datatype Draws = Draws(
    revenue: seq<real>,
    margin: seq<real>,
    deposits: seq<real>,
    aum: seq<real>,
    segments: seq<Share3>,
    npl: seq<real>,
    marketVar: seq<real>,
    lcr: seq<real>,
    counterparty: seq<real>)

  /** numpy returns exactly `periods` values per call, and Dirichlet rows lie in
      the simplex. */
  predicate DrawsFit(d: Draws, periods: nat) {
    |d.revenue| == periods && |d.margin| == periods && |d.deposits| == periods
    && |d.aum| == periods && |d.segments| == periods && |d.npl| == periods
    && |d.marketVar| == periods && |d.lcr| == periods && |d.counterparty| == periods
    && forall i :: 0 <= i < periods ==> InSimplex(d.segments[i])
  }

  /** `np.clip(x, lo, hi)`, that is `minimum(maximum(x, lo), hi)`. */
  function Clip(x: real, lo: real, hi: real): real {
    if x < lo then (if lo > hi then hi else lo)
    else if x > hi then hi
    else x
  }

  /** With a proper interval, `Clip` keeps values inside it and moves the
      others to the nearer end; with `lo > hi` numpy's order of operations
      yields `hi` for every input. */
  lemma ClipIsClamp(x: real, lo: real, hi: real)
    ensures lo <= hi ==> lo <= Clip(x, lo, hi) <= hi
    ensures lo <= x <= hi ==> Clip(x, lo, hi) == x
    ensures x < lo <= hi ==> Clip(x, lo, hi) == lo
    ensures x > hi ==> Clip(x, lo, hi) == hi
    ensures lo > hi ==> Clip(x, lo, hi) == hi
  {
  }

  function ClipShares(s: Share3): Share3 {
    Share3(Clip(s.retail, 0.1, 0.8), Clip(s.private, 0.1, 0.8), Clip(s.corporate, 0.1, 0.8))
  }

  lemma QuotientsSumToOne(a: real, b: real, c: real)
    requires a + b + c > 0.0
    ensures a / (a + b + c) + b / (a + b + c) + c / (a + b + c) == 1.0
  {
    var t := a + b + c;
    assert a / t + b / t == (a + b) / t;
    assert (a + b) / t + c / t == t / t;
  }

  /** Clip a share row to [0.1, 0.8], then divide by its sum (data.py:107-110). */
  function Renormalise(s: Share3): Share3 {
    Share3(ClipShares(s).retail / Total(ClipShares(s)),
           ClipShares(s).private / Total(ClipShares(s)),
           ClipShares(s).corporate / Total(ClipShares(s)))
  }

  /** The clipped sum is at least 0.3, so the division is always defined, and
      the result is three positive shares summing to one, whatever the input. */
  lemma RenormaliseIsDistribution(s: Share3)
    ensures Total(ClipShares(s)) >= 0.3
    ensures var r := Renormalise(s);
      r.retail > 0.0 && r.private > 0.0 && r.corporate > 0.0 && Total(r) == 1.0
  {
    var c := ClipShares(s);
    assert c.retail / Total(c) > 0.0 && c.private / Total(c) > 0.0 && c.corporate / Total(c) > 0.0;
    QuotientsSumToOne(c.retail, c.private, c.corporate);
  }

  /** One row of the table (the columns of the source's data frame). */
  datatype Row = Row(
    date: YearMonth,
    revenue: real,              // revenue_chf_m
    grossMargin: real,          // gross_margin_chf_m
    marginPct: real,            // margin_pct, stored times 100
    deposits: real,             // deposits_chf_m
    depositsGrowthPct: XReal,   // deposits_growth_pct
    aum: real,                  // aum_chf_m
    profitRetail: real,         // profit_retail_chf_m
    profitPrivate: real,        // profit_private_chf_m
    profitCorporate: real,      // profit_corporate_chf_m
    nplRatioPct: real,          // npl_ratio_pct
    marketVarBps: real,         // market_var_bps
    lcrPct: real,               // lcr_pct
    counterpartyExposure: real) // counterparty_exposure_chf_m

  /** The dictionary of column arrays handed to the data-frame constructor. */
  datatype Columns = Columns(
    date: seq<YearMonth>,
    revenue: seq<real>,
    grossMargin: seq<real>,
    marginPct: seq<real>,
    deposits: seq<real>,
    depositsGrowthPct: seq<XReal>,
    aum: seq<real>,
    profitRetail: seq<real>,
    profitPrivate: seq<real>,
    profitCorporate: seq<real>,
    nplRatioPct: seq<real>,
    marketVarBps: seq<real>,
    lcrPct: seq<real>,
    counterpartyExposure: seq<real>)

  datatype Error =
    | NegativeDimensions  // numpy refuses a negative `size`
    | LengthMismatch      // pandas refuses columns of different lengths
    | EmptyTable          // `df.iloc[-1]` on a table without rows

  /** numpy's `normal(loc, scale)` drawn from a standard-normal `z`. */
  function Normal(loc: real, scale: real, z: real): real {
    loc + scale * z
  }

  /** One month of a trend series: `base * factor ** month * (1 + noise)`. */
  function Trended(base: real, factor: real, month: nat, noise: real): real {
    base * Pow(factor, month) * (1.0 + noise)
  }

  /** A trend value is positive when its base, its factor and its noise
      factor are. */
  lemma TrendedPositive(base: real, factor: real, month: nat, noise: real)
    requires base > 0.0 && factor > 0.0 && 1.0 + noise > 0.0
    ensures Trended(base, factor, month, noise) > 0.0
  {
    PowPositive(factor, month);
    assert base * Pow(factor, month) > 0.0;
  }

  /** `base * (1 + g_m) ** months * (1 + normal(0, sigma))`, element-wise. */
  function TrendWithNoise(base: real, factor: real, sigma: real, z: seq<real>): (r: seq<real>)
    ensures |r| == |z|
    ensures forall i :: 0 <= i < |z| ==> r[i] == Trended(base, factor, i, Normal(0.0, sigma, z[i]))
  {
    seq(|z|, i requires 0 <= i < |z| => Trended(base, factor, i, Normal(0.0, sigma, z[i])))
  }

  /** `np.clip(normal(mean, sigma), lo, hi)`, element-wise. */
  function ClippedNormal(mean: real, sigma: real, lo: real, hi: real, z: seq<real>): (r: seq<real>)
    ensures |r| == |z|
    ensures forall i :: 0 <= i < |z| ==> r[i] == Clip(Normal(mean, sigma, z[i]), lo, hi)
  {
    seq(|z|, i requires 0 <= i < |z| => Clip(Normal(mean, sigma, z[i]), lo, hi))
  }

  /** Every clipped draw lies in [lo, hi]. */
  lemma ClippedNormalWithin(mean: real, sigma: real, lo: real, hi: real, z: seq<real>)
    requires lo <= hi
    ensures forall i :: 0 <= i < |z| ==> lo <= ClippedNormal(mean, sigma, lo, hi, z)[i] <= hi
  {
    forall i | 0 <= i < |z| ensures lo <= ClippedNormal(mean, sigma, lo, hi, z)[i] <= hi {
      ClipIsClamp(Normal(mean, sigma, z[i]), lo, hi);
    }
  }

  /** Growth from `prev` to `cur` in percent, with float division. */
  function GrowthPct(prev: real, cur: real): XReal {
    Percent(Quotient(cur - prev, prev))
  }

  /** The growth is finite exactly when the earlier value is non-zero; then
      it is the change as a percentage of the earlier value. */
  lemma GrowthPctMeaning(prev: real, cur: real)
    ensures GrowthPct(prev, cur).Finite? <==> prev != 0.0
    ensures GrowthPct(prev, cur).Finite? ==> GrowthPct(prev, cur).r * prev == (cur - prev) * 100.0
  {
    QuotientIsDivision(cur - prev, prev);
    if prev != 0.0 {
      var q := (cur - prev) / prev;
      assert q * prev == cur - prev;
      assert q * 100.0 * prev == (q * prev) * 100.0;
    }
  }

  /** `np.r_[nan, np.diff(d)] / np.r_[nan, d[:-1]] * 100.0` (data.py:101): one
      entry longer than `d` when `d` is empty, as long as `d` otherwise. */
  function DepositsGrowth(d: seq<real>): (r: seq<XReal>)
    ensures |r| == if |d| == 0 then 1 else |d|
    ensures r[0] == NaN
    ensures forall i :: 0 < i < |d| ==> r[i] == GrowthPct(d[i - 1], d[i])
  {
    var n := if |d| == 0 then 0 else |d| - 1;
    [NaN] + seq(n, i requires 0 <= i < n => GrowthPct(d[i], d[i + 1]))
  }

  /** The element-wise product of two columns. */
  function Times(a: seq<real>, b: seq<real>): (r: seq<real>)
    requires |a| == |b|
    ensures |r| == |a| && forall i :: 0 <= i < |a| ==> r[i] == a[i] * b[i]
  {
    seq(|a|, i requires 0 <= i < |a| => a[i] * b[i])
  }

  function Scale(a: seq<real>, k: real): (r: seq<real>)
    ensures |r| == |a| && forall i :: 0 <= i < |a| ==> r[i] == a[i] * k
  {
    seq(|a|, i requires 0 <= i < |a| => a[i] * k)
  }

  /** The renormalised segment shares, one row per month. */
  function SegmentShares(rows: seq<Share3>): (r: seq<Share3>)
    ensures |r| == |rows| && forall i :: 0 <= i < |rows| ==> r[i] == Renormalise(rows[i])
  {
    seq(|rows|, i requires 0 <= i < |rows| => Renormalise(rows[i]))
  }

  function Retail(s: seq<Share3>): (r: seq<real>)
    ensures |r| == |s| && forall i :: 0 <= i < |s| ==> r[i] == s[i].retail
  {
    seq(|s|, i requires 0 <= i < |s| => s[i].retail)
  }

  function Private(s: seq<Share3>): (r: seq<real>)
    ensures |r| == |s| && forall i :: 0 <= i < |s| ==> r[i] == s[i].private
  {
    seq(|s|, i requires 0 <= i < |s| => s[i].private)
  }

  function Corporate(s: seq<Share3>): (r: seq<real>)
    ensures |r| == |s| && forall i :: 0 <= i < |s| ==> r[i] == s[i].corporate
  {
    seq(|s|, i requires 0 <= i < |s| => s[i].corporate)
  }

  /** `revenue` (data.py:91-93). */
  function RevenueColumn(c: ScenarioConfig, f: Factors, d: Draws): (r: seq<real>)
    ensures |r| == |d.revenue|
  {
    TrendWithNoise(120.0, f.revenue, c.volatilityPct, d.revenue)
  }

  /** `margin_pct` before scaling: clipped to [0.15, 0.45] (data.py:94-96). */
  function MarginFractionColumn(c: ScenarioConfig, d: Draws): (r: seq<real>)
    ensures |r| == |d.margin|
  {
    ClippedNormal(c.marginPct, c.volatilityPct / 4.0, 0.15, 0.45, d.margin)
  }

  /** `gross_margin = revenue * margin_pct` (data.py:97). */
  function GrossMarginColumn(c: ScenarioConfig, f: Factors, d: Draws): (r: seq<real>)
    requires |d.revenue| == |d.margin|
    ensures |r| == |d.revenue|
  {
    Times(RevenueColumn(c, f, d), MarginFractionColumn(c, d))
  }

  /** `deposits` (data.py:99-100). */
  function DepositsColumn(c: ScenarioConfig, f: Factors, d: Draws): (r: seq<real>)
    ensures |r| == |d.deposits|
  {
    TrendWithNoise(8000.0, f.deposits, c.volatilityPct / 4.0, d.deposits)
  }

  /** `aum` (data.py:103-104). */
  function AumColumn(c: ScenarioConfig, f: Factors, d: Draws): (r: seq<real>)
    ensures |r| == |d.aum|
  {
    TrendWithNoise(15000.0, f.aum, c.volatilityPct / 3.0, d.aum)
  }

  /** `profit_total = gross_margin * 0.65` (data.py:111). */
  function ProfitTotalColumn(c: ScenarioConfig, f: Factors, d: Draws): (r: seq<real>)
    requires |d.revenue| == |d.margin|
    ensures |r| == |d.revenue|
  {
    Scale(GrossMarginColumn(c, f, d), 0.65)
  }

  /** The column dictionary of data.py:130-147 for one scenario. */
  function BuildColumns(c: ScenarioConfig, dates: seq<YearMonth>, f: Factors, d: Draws): Columns
    requires DrawsFit(d, |dates|)
  {
    Columns(
      dates,
      RevenueColumn(c, f, d),
      GrossMarginColumn(c, f, d),
      Scale(MarginFractionColumn(c, d), 100.0),
      DepositsColumn(c, f, d),
      DepositsGrowth(DepositsColumn(c, f, d)),
      AumColumn(c, f, d),
      Times(ProfitTotalColumn(c, f, d), Retail(SegmentShares(d.segments))),
      Times(ProfitTotalColumn(c, f, d), Private(SegmentShares(d.segments))),
      Times(ProfitTotalColumn(c, f, d), Corporate(SegmentShares(d.segments))),
      ClippedNormal(c.nplBasePct, c.volatilityPct * 2.0, 0.5, 9.0, d.npl),
      ClippedNormal(c.varBaseBps, c.volatilityPct * 100.0, 40.0, 350.0, d.marketVar),
      ClippedNormal(c.lcrBasePct, c.volatilityPct * 100.0, 70.0, 200.0, d.lcr),
      ClippedNormal(2200.0, 300.0 * (1.0 + c.volatilityPct), 1000.0, 4000.0, d.counterparty))
  }

  predicate SameLength(c: Columns) {
    var n := |c.date|;
    |c.revenue| == n && |c.grossMargin| == n && |c.marginPct| == n && |c.deposits| == n
    && |c.depositsGrowthPct| == n && |c.aum| == n && |c.profitRetail| == n
    && |c.profitPrivate| == n && |c.profitCorporate| == n && |c.nplRatioPct| == n
    && |c.marketVarBps| == n && |c.lcrPct| == n && |c.counterpartyExposure| == n
  }

  /** Row i: entry i of every column. */
  function RowAt(c: Columns, i: int): Row
    requires SameLength(c) && 0 <= i < |c.date|
  {
    Row(c.date[i], c.revenue[i], c.grossMargin[i], c.marginPct[i], c.deposits[i],
        c.depositsGrowthPct[i], c.aum[i], c.profitRetail[i], c.profitPrivate[i],
        c.profitCorporate[i], c.nplRatioPct[i], c.marketVarBps[i], c.lcrPct[i],
        c.counterpartyExposure[i])
  }

  /** `pd.DataFrame({...}).set_index("date")`: refuses columns of unequal
      length, otherwise row i holds entry i of every column. */
  function Assemble(c: Columns): (r: Result<seq<Row>, Error>)
    ensures r.Success? <==> SameLength(c)
    ensures r.Failure? ==> r.error == LengthMismatch
    ensures r.Success? ==>
              |r.value| == |c.date| && forall i :: 0 <= i < |r.value| ==> r.value[i] == RowAt(c, i)
  {
    if !SameLength(c) then Failure(LengthMismatch)
    else
      var n := |c.date|;
      Success(seq(n, i requires 0 <= i < n => RowAt(c, i)))
  }

  /** `generate_financial_data(periods, scenario, seed)` with the seeded draws
      `d`, the compounding factors `f` of the resolved scenario, and the month
      `end` the range finishes at (the current month in the source). */
  function Generate(periods: int, scenario: string, end: YearMonth, f: Factors, d: Draws): (r: Result<seq<Row>, Error>)
    requires periods >= 0 ==> DrawsFit(d, periods)
    requires FactorsFor(Resolve(scenario), f)
  {
    if periods < 0 then Failure(NegativeDimensions)
    else Assemble(BuildColumns(Resolve(scenario), MonthRange(periods, end), f, d))
  }
}
