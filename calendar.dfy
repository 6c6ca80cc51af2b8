/** Month-start dates and `month_range` (data.py:61-65). A month-start date is a
    (year, month) pair; its month index is 12 * year + month - 1. */
module Calendar {

  type MonthOfYear = m: int | 1 <= m <= 12 witness 1

  /** The first day of a month. */
  datatype YearMonth = YearMonth(year: int, month: MonthOfYear)

  function Index(d: YearMonth): int {
    12 * d.year + d.month - 1
  }

  function FromIndex(k: int): (d: YearMonth)
    ensures Index(d) == k
  {
    YearMonth(k / 12, k % 12 + 1)
  }

  /** The month start one month later. */
  function Next(d: YearMonth): YearMonth {
    if d.month == 12 then YearMonth(d.year + 1, 1) else YearMonth(d.year, d.month + 1)
  }

  lemma IndexInjective(a: YearMonth, b: YearMonth)
    ensures Index(a) == Index(b) <==> a == b
  {
    if Index(a) == Index(b) {
      assert (Index(a)) / 12 == a.year && (Index(a)) % 12 == a.month - 1;
      assert (Index(b)) / 12 == b.year && (Index(b)) % 12 == b.month - 1;
    }
  }

  lemma FromIndexRoundTrip(d: YearMonth)
    ensures FromIndex(Index(d)) == d
  {
    IndexInjective(FromIndex(Index(d)), d);
  }

  /** Next advances the month index by exactly one. */
  lemma NextIsOneMonthLater(d: YearMonth)
    ensures Index(Next(d)) == Index(d) + 1
    ensures Next(d) == FromIndex(Index(d) + 1)
  {
    IndexInjective(Next(d), FromIndex(Index(d) + 1));
  }

  /** `pd.date_range(end=end, periods=periods, freq="MS")`: the `periods`
      consecutive month starts ending at `end`. A non-positive count gives an
      empty range (the range would start after `end`). */
  function MonthRange(periods: int, end: YearMonth): (r: seq<YearMonth>)
    ensures |r| == if periods > 0 then periods else 0
    ensures periods > 0 ==> r[|r| - 1] == end
    ensures forall i :: 0 <= i < |r| ==> Index(r[i]) == Index(end) - (|r| - 1) + i
  {
    var n := if periods > 0 then periods else 0;
    var r := seq(n, i requires 0 <= i < n => FromIndex(Index(end) - (n - 1) + i));
    FromIndexRoundTrip(end);
    forall i | 0 <= i < n
      ensures Index(r[i]) == Index(end) - (n - 1) + i
    {
      assert r[i] == FromIndex(Index(end) - (n - 1) + i);
    }
    r
  }

  /** The range is strictly ascending, each date one month after its
      predecessor, and it ends at `end`. */
  lemma MonthRangeConsecutive(periods: int, end: YearMonth)
    ensures var r := MonthRange(periods, end);
      (forall i :: 0 <= i < |r| - 1 ==> r[i + 1] == Next(r[i]))
      && (forall i, j :: 0 <= i < j < |r| ==> Index(r[i]) < Index(r[j]))
  {
    var r := MonthRange(periods, end);
    forall i | 0 <= i < |r| - 1
      ensures r[i + 1] == Next(r[i])
    {
      NextIsOneMonthLater(r[i]);
      IndexInjective(r[i + 1], Next(r[i]));
    }
  }
}
