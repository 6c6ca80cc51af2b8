# Banking dashboard data layer, modelled in Dafny

This project models `data.py`, the data layer of a synthetic banking KPI
dashboard:

- the catalogue of three macroeconomic scenarios (Baseline, Adverse, Severe)
  and the lookup that falls back to Baseline for an unknown name;
- `month_range`, the run of month-start dates ending at a given month;
- `generate_financial_data`, the monthly table of revenue, margin, deposits
  and their growth, assets under management, segment profits (Retail,
  Private, Corporate) and four risk indicators;
- `compute_kpis` and `compute_risk_indicators`, the headline figures read
  from the latest month;
- `format_currency_chf_m` and `format_pct`, the fixed-point formatters with
  thousands grouped by spaces.

The source is pure whole-array code, so the model is datatypes, functions
and lemmas. The modules are:

- `Scenarios`: the catalogue and `Resolve`.
- `Calendar`: month-start dates as (year, month) and `MonthRange`.
- `Series`: the generator, column by column, as the source builds it.
  - The seeded random generator becomes a `Draws` record of input sequences:
    one standard-normal draw per column and month, with numpy's
    `normal(loc, scale)` read as `loc + scale * z`, and one Dirichlet row per
    month in the simplex.
  - The monthly factors `(1 + g) ** (1/12)` are inputs tied to the annual
    rates by `f > 0` and `f^12 == 1 + g`.
  - Float division is modelled with an extended real (`XReal`: finite, plus
    or minus infinity, NaN), so the missing first growth value is a real NaN.
- `Reference`: the same table read row by row. A row is computed from that
  month's draws (and, for the growth figure, the deposits of month i - 1);
  the lemmas here state what holds of every such row.
- `SeriesProperties`: proves that the generated table is the reference
  table, and lifts the row properties to the whole table.
- `Metrics`: the two reducers, and what they report on a generated table.
- `Formatting`: the two formatters, with a parser as their partner.

The model's generation fails in two cases, as the source does:

- a negative count fails like numpy's `normal(size=-1)`;
- a count of zero fails because the growth column keeps its leading NaN
  while the other columns are empty, and pandas refuses columns of unequal
  length.

The source has a third failure that the model does not have: a month range
reaching before 1677-09-21 or after 2262-04-11, outside pandas' Timestamp
range, raises `OutOfBoundsDatetime`, for a large positive count and for a
large negative one (see "Left out").

The reducers fail on a table without rows, as `df.iloc[-1]` does.

## Model

| member | source | states |
|---|---|---|
| Scenarios.Resolve | data.py:74 | a catalogued name gives its own record; any other name gives the Baseline record; the result is always a well-formed catalogue entry |
| Scenarios.CatalogShape | data.py:24-58 | the catalogue holds exactly Baseline, Adverse and Severe, each stored under its own name and well formed (volatility non-negative, annual rates above -100%) |
| Scenarios.ResolveByName | data.py:74 | the resolved record's name is the requested name when it is catalogued and "Baseline" otherwise; the Baseline record comes back exactly for names other than Adverse and Severe |
| Scenarios.ScenariosOrderedBySeverity | data.py:24-58 | from Baseline to Adverse to Severe, revenue, deposit and AUM growth, margin and LCR base fall, while volatility, NPL base and VaR base rise |
| Calendar.FromIndex | data.py:61-65 | the date built from a month index has that index |
| Calendar.IndexInjective | data.py:61-65 | two month starts have equal month indices exactly when they are the same date |
| Calendar.FromIndexRoundTrip | data.py:61-65 | a date rebuilt from its own month index is that date |
| Calendar.NextIsOneMonthLater | data.py:61-65 | the next month start is one month index later, including across a year end |
| Calendar.MonthRange | data.py:61-65 | `periods` dates (none for a non-positive count), the last one equal to `end`, date i at month index `end - (periods - 1) + i` |
| Calendar.MonthRangeConsecutive | data.py:61-65 | every date of the range is the month after its predecessor, and the range is strictly ascending |
| Series.Quotient | data.py:101 | numpy's float division, with NaN for 0/0 and the numerator's infinity for any other zero divisor; no contract of its own, stated by `Series.QuotientIsDivision` |
| Series.QuotientIsDivision | data.py:101 | float division is finite exactly when the divisor is non-zero, and then it times the divisor is the dividend; 0/0 is NaN, a positive number over zero is +inf and a negative one -inf |
| Series.PowPositive | data.py:91 | a positive factor raised to any month count is positive |
| Series.Clip | data.py:94-96 | `np.clip`; no contract of its own, stated by `Series.ClipIsClamp` and `Series.ClippedNormalWithin` |
| Series.Normal | data.py:92 | numpy's `normal(loc, scale)` read as `loc + scale * z` for a standard-normal draw z; no contract of its own, its results are bounded by `Series.ClippedNormalWithin` and ordered by `Reference.StressRaisesNplAndVar` |
| Series.ClipIsClamp | data.py:94-96 | `np.clip` keeps a value inside [lo, hi] and moves any other value to the nearer end; with lo > hi it gives hi |
| Series.RenormaliseIsDistribution | data.py:107-110 | a share row clipped to [0.1, 0.8] sums to at least 0.3, and after dividing by that sum it has three positive shares summing to one, for any input row |
| Series.TrendedPositive | data.py:99-100 | a trend value is positive when its base, its monthly factor and its noise factor are |
| Series.TrendWithNoise | data.py:91-93 | one entry per draw; entry i is base times factor^i times (1 + sigma times draw i) |
| Series.ClippedNormal | data.py:117-128 | one entry per draw; entry i is the draw scaled to the given mean and spread, then clipped |
| Series.ClippedNormalWithin | data.py:117-128 | with lo <= hi, every clipped draw lies in [lo, hi] |
| Series.GrowthPctMeaning | data.py:101 | growth is finite exactly when the earlier value is non-zero, and then growth times the earlier value is 100 times the change |
| Series.DepositsGrowth | data.py:101 | the first entry is NaN; entry i > 0 is the growth from deposits i-1 to i; the column is one entry long for empty deposits and as long as the deposits otherwise |
| Series.SegmentShares | data.py:107-110 | row i is the renormalised Dirichlet row i |
| Series.RevenueColumn | data.py:91-93 | one revenue value per revenue draw |
| Series.MarginFractionColumn | data.py:94-96 | one margin fraction per margin draw |
| Series.GrossMarginColumn | data.py:97 | one gross margin per month |
| Series.DepositsColumn | data.py:99-100 | one deposits value per deposits draw |
| Series.AumColumn | data.py:103-104 | one AUM value per AUM draw |
| Series.ProfitTotalColumn | data.py:111 | one operating profit per month |
| Series.Assemble | data.py:130-147 | the data frame exists exactly when all columns have the same length, and then row i holds entry i of every column; otherwise it fails with a length mismatch |
| Reference.GrowthFromPct | data.py:101 | a growth cell computed from two deposits values is finite exactly when the earlier deposits are non-zero, and is then the percentage change |
| Reference.ReferenceGrowthStep | data.py:101 | each month's growth cell is the percentage change of deposits from the month before |
| Reference.SegmentProfitsSplit | data.py:107-114 | for any Dirichlet row the three segment profits add up to 65% of the gross margin; each is between 1/11 and 0.8 of that when the gross margin is non-negative |
| Reference.ReferenceWithinBounds | data.py:94-128 | whatever the draws, a row's margin lies in [15, 45], NPL in [0.5, 9], VaR in [40, 350], LCR in [70, 200] and counterparty exposure in [1000, 4000] |
| Reference.ReferenceProfitDecomposition | data.py:97-114 | in every row, gross margin times 100 is revenue times the stored margin, and the segment profits split 65% of the gross margin |
| Reference.QuotientWithin | data.py:107-110 | a clipped share divided by a clipped sum in [1, 1.1] lies in [1/11, 0.8] |
| Reference.ClippedSimplexTotal | data.py:107-108 | clipping a Dirichlet row to [0.1, 0.8] puts its sum in [1, 1.1] |
| Reference.RenormalisedShareBounds | data.py:107-110 | every renormalised share of a Dirichlet row lies in [1/11, 0.8] |
| Reference.SplitSumsToWhole | data.py:111-114 | shares summing to one split an amount into parts that add back up to it |
| Reference.SegmentSplit | data.py:111-114 | three profits taken as shares of 65% of the gross margin add up to it, and are bounded by the share bounds |
| Reference.ScaledWithin | data.py:111-114 | a share in [1/11, 0.8] of a non-negative profit lies between 1/11 and 0.8 of it |
| Reference.ReferenceDepositsPositive | data.py:99-100 | deposits are positive in any month whose noise factor is positive |
| Reference.ClipMonotone | data.py:117-128 | clipping never reverses the order of two values |
| Reference.StressRaisesNplAndVar | data.py:117-122 | for every draw, NPL ratio and market VaR rise (weakly) from Baseline to Adverse to Severe |
| Reference.PowAdd | data.py:91 | compounding m months and then n months is compounding m + n months |
| Reference.TrendCompoundsAnnually | data.py:79-93 | without noise, twelve months of the monthly factor multiply the trend by one plus the annual rate |
| Reference.YearApart | data.py:91-104 | two trend values a year apart with zero draws differ by exactly the annual growth |
| Reference.TableWithinBounds | data.py:94-128 | every row of a reference table respects the clamp bounds |
| Reference.TableProfitDecomposition | data.py:97-114 | every row of a reference table has consistent gross margin and segment profits |
| Reference.TableDepositGrowth | data.py:101 | in a reference table the first growth cell is NaN and every later one is the percentage change from the row before |
| Reference.TableDepositsPositive | data.py:99-101 | with positive noise factors, all deposits are positive and every growth cell after the first is finite |
| Reference.TableStressOrdering | data.py:117-122 | with shared draws, each month's NPL ratio and VaR rise from the Baseline table to Adverse to Severe |
| Reference.TableCompoundsAnnually | data.py:91-104 | revenue, deposits and AUM in months m and m + 12 with zero draws grow by exactly the scenario's annual rates |
| Series.BuildColumns | data.py:90-147 | the column dictionary of one scenario; no contract of its own, stated by `SeriesProperties.ColumnsShape` and `SeriesProperties.ColumnsMatchReference` |
| Series.Generate | data.py:68-149 | `generate_financial_data`; no contract of its own, stated by `SeriesProperties.GenerateShape` and `SeriesProperties.GenerateMatchesReference` and the lemmas built on them |
| SeriesProperties.GenerateShape | data.py:68-77 | generation succeeds exactly for a positive count; it fails with a negative-dimension error for a negative count and a length mismatch for zero; on success there are `periods` rows dated by the month range and ending at `end` |
| SeriesProperties.ColumnsShape | data.py:130-147 | the columns all have the length of the month range exactly when it is non-empty (the growth column keeps its leading NaN otherwise), and the date column is the month range |
| SeriesProperties.TrendColumnsAt | data.py:91-104 | entry i of the revenue, gross margin, margin, deposits and AUM columns is the reference value of month i |
| SeriesProperties.GrowthColumnAt | data.py:101 | entry i of the growth column is the reference growth of month i |
| SeriesProperties.ProfitColumnsAt | data.py:107-114 | entry i of each profit column is the reference segment profit of month i |
| SeriesProperties.RiskColumnsAt | data.py:117-128 | entry i of each risk column is the clipped draw of month i, which is the reference row's risk cell |
| SeriesProperties.TrendCellsMatch | data.py:91-104 | the date, revenue, gross margin, margin, deposits and AUM of row i of the column dictionary are the reference row's |
| SeriesProperties.GrowthCellMatches | data.py:101 | the growth cell of row i of the column dictionary is the reference row's |
| SeriesProperties.ProfitCellsMatch | data.py:107-114 | the three segment profits of row i of the column dictionary are the reference row's |
| SeriesProperties.RiskCellsMatch | data.py:117-128 | the four risk figures of row i of the column dictionary are the reference row's |
| SeriesProperties.ColumnsMatchReference | data.py:130-147 | the columns have equal length and row i of the frame is the reference row of month i |
| SeriesProperties.GenerateMatchesReference | data.py:68-149 | a generated table is the reference table of its scenario, factors, draws and month range |
| SeriesProperties.GenerateWithinBounds | data.py:94-135 | every generated row respects the clamp bounds |
| SeriesProperties.GenerateProfitDecomposition | data.py:97-114 | every generated row has gross margin equal to revenue times margin, and segment profits that split 65% of it |
| SeriesProperties.GenerateDepositGrowth | data.py:101 | the first generated growth cell is NaN, and every later one is the percentage change of deposits from the month before |
| SeriesProperties.GenerateDepositsPositive | data.py:99-101 | with positive noise factors, generated deposits are positive and every growth cell after the first is finite |
| SeriesProperties.GenerateFallsBackToBaseline | data.py:74 | an uncatalogued scenario name generates exactly the Baseline table |
| SeriesProperties.GenerateStressOrdering | data.py:117-122 | with the same draws, the Adverse table's NPL ratio and VaR are at least the Baseline's in every month, and the Severe table's at least the Adverse's |
| SeriesProperties.GenerateCompoundsAnnually | data.py:79-104 | in two months a year apart with zero draws, generated revenue, deposits and AUM grow by exactly the scenario's annual rates |
| Metrics.ComputeKpis | data.py:152-166 | fails with an empty-table error exactly when the table has no rows |
| Metrics.ComputeRiskIndicators | data.py:169-177 | fails with an empty-table error exactly when the table has no rows |
| Metrics.IndicatorsReadLatestMonth | data.py:152-177 | the KPIs and risk indicators of any table followed by a month are those of that month alone |
| Metrics.IndicatorsOfOneRow | data.py:152-177 | a one-row table reports that row's figures, with total profit the sum of its three segment profits |
| Metrics.KpisOfConsistentTable | data.py:152-166 | if the latest row obeys the generated-row properties, total profit is 65% of its gross margin, margin lies in [15, 45], revenue times margin is 100 times gross margin, and growth is that row's |
| Metrics.GeneratedKpis | data.py:152-166 | on a generated table the KPIs are consistent with the latest gross margin; the reported growth is the latest row's, NaN for a single month, and otherwise the percentage change over the month before |
| Metrics.GeneratedRisksWithinBounds | data.py:169-177 | the risk indicators of a generated table lie within the generator's clamp bounds |
| Metrics.StressRaisesReportedRisk | data.py:169-177 | with the same draws, the reported NPL ratio and VaR rise from Baseline to Adverse to Severe |
| Formatting.RoundHalfEven | data.py:180-185 | Python's half-to-even rounding of the exact value; no contract of its own, stated by `Formatting.RoundHalfEvenNearest` |
| Formatting.RoundHalfEvenNearest | data.py:180-185 | rounding gives an integer within one half of the value, the even one on a tie, and never a negative one for a non-negative value |
| Formatting.Digits | data.py:180-185 | a non-empty string of decimal digits with no leading zero; zero is the single digit "0" |
| Formatting.Padded | data.py:180-185 | exactly `width` decimal digits |
| Formatting.DigitsRoundTrip | data.py:180-185 | the numeral of n reads back as n |
| Formatting.PaddedRoundTrip | data.py:180-185 | the zero-padded digits of n read back as n |
| Formatting.Group | data.py:180-185 | the `,` grouping with a space in its place; no contract of its own, stated by `Formatting.GroupShape` and `Formatting.UngroupGroup` |
| Formatting.UngroupAppend | data.py:180-185 | removing spaces distributes over concatenation |
| Formatting.UngroupDigits | data.py:180-185 | a digit string has no spaces to remove |
| Formatting.UngroupGroup | data.py:180-185 | removing the thousands separators from a grouped numeral gives back its digits |
| Formatting.SpacedInFoursStep | data.py:180-185 | appending a space and three digits to a numeral grouped in threes keeps it grouped in threes |
| Formatting.GroupShape | data.py:180-185 | a grouped numeral of k digits has (k - 1) / 3 separators, at every fourth place from the right, and digits everywhere else |
| Formatting.UnsignedRoundTrip | data.py:180-185 | the grouped whole part, the point and the padded decimals read back as the number they were built from |
| Formatting.FixedTextRoundTrip | data.py:180-185 | every sign and magnitude reads back from its fixed-point text |
| Formatting.FixedRoundTrip | data.py:180-185 | a formatted value reads back as its sign and its magnitude in units of the last decimal, which is the nearest integer to the scaled value (ties to even) |
| Formatting.CurrencyRoundTrip | data.py:180-181 | a currency string reads back as the value's sign and magnitude in tenths |
| Formatting.PctRoundTrip | data.py:184-185 | a percentage string reads back as the value's sign and magnitude in hundredths |
| Formatting.FormatFixed | data.py:180-185 | `f"{value:,.{places}f}".replace(",", " ")` for one or more decimals (the one and two the source uses); no contract of its own, stated by `Formatting.FixedRoundTrip` |
| Formatting.FormatCurrency | data.py:180-181 | `format_currency_chf_m`; no contract of its own, stated by `Formatting.CurrencyRoundTrip` and `Formatting.CurrencyExample` |
| Formatting.FormatPct | data.py:184-185 | `format_pct`; no contract of its own, stated by `Formatting.PctRoundTrip` and `Formatting.PctTieExample` |
| Formatting.CurrencyExample | data.py:180-181 | -1234.56 formats as "CHF -1 234.6 m" |
| Formatting.PctTieExample | data.py:184-185 | 0.125 formats as "0.12%": a tie rounds to even |

## Left out

- The random generator (`default_rng(seed)`, `normal`, `dirichlet`) is replaced by its draws, passed in as data. The seed and the draw order are not modelled. Dirichlet rows are only assumed to lie in the simplex.
- `annual_to_monthly` raises a float to the power 1/12. Dafny's reals have no fractional power, so the monthly factor is an input tied to the annual rate by its twelfth power.
- Float arithmetic is modelled by exact reals: rounding, overflow and subnormals in the generated columns are not modelled. Division by zero is modelled (`XReal`).
- `dt.date.today()` as the default end month is an environment read; `end` is always a parameter. Dates are month starts by construction, so pandas' rolling back of an `end` that is not a month start is not modelled.
- Calendar.MonthRange, SeriesProperties.GenerateShape: pandas' Timestamp range (nanoseconds since 1970, from 1677-09-21 to 2262-04-11) is not modelled. `YearMonth` has no bound, so the model builds ranges and tables that reach outside it, where `pd.date_range` raises `OutOfBoundsDatetime`. With `end` at the current month that happens above roughly 4,200 periods. A negative count can reach outside it too: `pd.date_range` then computes a start after the end, which passes 2262-04-11 for a count below roughly -2,800 with `end` at the current month, so data.py:76 raises `OutOfBoundsDatetime` before numpy's negative-size error at data.py:92. GenerateShape's "succeeds exactly for a positive count" and its negative-dimension error for a negative count hold only within that range.
- The pandas `DataFrame` and its date index are modelled as a sequence of rows, each carrying its date.
- Series.Generate: carries no contract of its own. Its properties are the `SeriesProperties` lemmas, which prove that it builds the reference table.
- Series.RevenueColumn, Series.MarginFractionColumn, Series.GrossMarginColumn, Series.DepositsColumn, Series.AumColumn and Series.ProfitTotalColumn: state only their lengths. Their contents are stated entry by entry in `SeriesProperties.TrendColumnsAt` and `SeriesProperties.ProfitColumnsAt`.
- Reference.StressRaisesNplAndVar: covers the NPL ratio and VaR only. The LCR base falls with severity while the spread grows, so the LCR ordering depends on the draw.
- Reference.SegmentProfitsSplit: the per-segment bounds hold only for a non-negative gross margin. Revenue can be negative for extreme draws, and then the bounds flip.
- Reference.TableDepositsPositive: needs every deposits noise factor `1 + normal(0, sigma)` to be positive. A large negative draw makes the source's deposits negative too.
- Formatting.FormatFixed: formats finite values with one or more decimals only (the source uses one and two); with zero decimals Python prints no point. Python's "nan" and "inf" outputs are not modelled, and neither is the "-0.0" printed for a negative zero. The real passed in stands for the exact value of the float, which is what Python rounds.
- Formatting.ParseFixed: a partner for the round-trip lemmas, not a strict validator. It accepts spaces anywhere in the whole part.
- streamlit_app.py (the Streamlit user interface, caching and charts) and reporting.py (template and PDF rendering) are not part of this model. They are presentation code over libraries.
