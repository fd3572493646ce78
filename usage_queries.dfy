/**
 * `getUsageStats` (`src/lib/queries/usage.ts`): today's counts from the
 * single usage row for today, this month's totals folded over the month's
 * rows, and the share of the plan's minutes used. The two query results
 * are inputs; `None` stands for a query that returned an error.
 */
module UsageQueries {
  import opened Options
  import opened Seqs
  import opened JsNumbers

  /** The two columns selected from `usage_tracking`; either may be null. */
  datatype UsageCounts = UsageCounts(callsCount: Option<int>, callMinutes: Option<int>)

  datatype UsageStats = UsageStats(
    todayCalls: int,
    todayMinutes: int,
    thisMonthCalls: int,
    thisMonthMinutes: int,
    percentageUsed: JsNumber)

  /** `x || 0` on a nullable number. */
  function OrZero(x: Option<int>): int {
    if x.Some? then x.value else 0
  }

  function CallsOf(r: UsageCounts): int { OrZero(r.callsCount) }
  function MinutesOf(r: UsageCounts): int { OrZero(r.callMinutes) }

  /** `.single()` over the rows for (client, today): a row only when exactly one exists. */
  function TodayRow(todayRows: Option<seq<UsageCounts>>): (r: Option<UsageCounts>)
    ensures r.Some? <==> todayRows.Some? && |todayRows.value| == 1
    ensures r.Some? ==> r.value == todayRows.value[0]
  {
    if todayRows.Some? && |todayRows.value| == 1 then Some(todayRows.value[0]) else None
  }

  /** The month's rows, or none when the query failed (`monthData || []`). */
  function MonthRows(monthRows: Option<seq<UsageCounts>>): seq<UsageCounts> {
    if monthRows.Some? then monthRows.value else []
  }

  /** `reduce` over the month's rows, null read as 0. */
  function MonthCalls(rows: seq<UsageCounts>): int { Sum(rows, CallsOf) }
  function MonthMinutes(rows: seq<UsageCounts>): int { Sum(rows, MinutesOf) }

  /** `Math.round((minutes / minutesLimit) * 100)`. */
  function PercentageUsed(minutes: int, minutesLimit: int): (p: JsNumber)
    ensures minutesLimit > 0 ==>
      && p.Fraction? && p.den == 1
      && 2 * minutesLimit * p.num - minutesLimit <= 200 * minutes < 2 * minutesLimit * p.num + minutesLimit
    ensures minutesLimit == 0 && minutes > 0 ==> p == PositiveInfinity
    ensures minutesLimit == 0 && minutes == 0 ==> p == NaN
  {
    Round(Divide(100 * minutes, minutesLimit))
  }

  function GetUsageStats(todayRows: Option<seq<UsageCounts>>, monthRows: Option<seq<UsageCounts>>,
                         minutesLimit: int): (r: UsageStats)
    ensures TodayRow(todayRows).None? ==> r.todayCalls == 0 && r.todayMinutes == 0
    ensures TodayRow(todayRows).Some? ==>
      r.todayCalls == CallsOf(todayRows.value[0]) && r.todayMinutes == MinutesOf(todayRows.value[0])
    ensures monthRows.None? ==> r.thisMonthCalls == 0 && r.thisMonthMinutes == 0
    ensures monthRows.Some? ==>
      r.thisMonthCalls == MonthCalls(monthRows.value) && r.thisMonthMinutes == MonthMinutes(monthRows.value)
    ensures r.percentageUsed == PercentageUsed(r.thisMonthMinutes, minutesLimit)
  {
    var today := TodayRow(todayRows);
    var rows := MonthRows(monthRows);
    UsageStats(
      if today.Some? then CallsOf(today.value) else 0,
      if today.Some? then MinutesOf(today.value) else 0,
      MonthCalls(rows),
      MonthMinutes(rows),
      PercentageUsed(MonthMinutes(rows), minutesLimit))
  }

  /** The monthly totals add up over a split of the month's rows. */
  lemma MonthTotalsAdditive(a: seq<UsageCounts>, b: seq<UsageCounts>)
    ensures MonthCalls(a + b) == MonthCalls(a) + MonthCalls(b)
    ensures MonthMinutes(a + b) == MonthMinutes(a) + MonthMinutes(b)
  {
    SumConcat(a, b, CallsOf);
    SumConcat(a, b, MinutesOf);
  }

  /** A month row whose counts are both null adds nothing to either total. */
  lemma NullRowAddsNothing(rows: seq<UsageCounts>)
    ensures MonthCalls(rows + [UsageCounts(None, None)]) == MonthCalls(rows)
    ensures MonthMinutes(rows + [UsageCounts(None, None)]) == MonthMinutes(rows)
  {
    MonthTotalsAdditive(rows, [UsageCounts(None, None)]);
    assert [UsageCounts(None, None)][..0] == [];
  }

  /**
   * Today's minutes never exceed the month's when today's row is among the
   * month's rows and no count is negative.
   */
  lemma TodayWithinMonth(todayRows: seq<UsageCounts>, monthRows: seq<UsageCounts>, minutesLimit: int)
    requires |todayRows| == 1 && todayRows[0] in monthRows
    requires forall i :: 0 <= i < |monthRows| ==> CallsOf(monthRows[i]) >= 0 && MinutesOf(monthRows[i]) >= 0
    ensures GetUsageStats(Some(todayRows), Some(monthRows), minutesLimit).todayMinutes <=
      GetUsageStats(Some(todayRows), Some(monthRows), minutesLimit).thisMonthMinutes
    ensures GetUsageStats(Some(todayRows), Some(monthRows), minutesLimit).todayCalls <=
      GetUsageStats(Some(todayRows), Some(monthRows), minutesLimit).thisMonthCalls
  {
    var k :| 0 <= k < |monthRows| && monthRows[k] == todayRows[0];
    SumAtLeastTerm(monthRows, MinutesOf, k);
    SumAtLeastTerm(monthRows, CallsOf, k);
  }

  /** Two rows for today (a duplicate) make `.single()` fail, and today reads as zero. */
  lemma DuplicateTodayRowsReadAsZero(a: UsageCounts, b: UsageCounts, monthRows: Option<seq<UsageCounts>>,
                                     minutesLimit: int)
    ensures GetUsageStats(Some([a, b]), monthRows, minutesLimit).todayCalls == 0
    ensures GetUsageStats(Some([a, b]), monthRows, minutesLimit).todayMinutes == 0
  {
  }

  /** Using the whole allowance shows 100; half of it shows 50. */
  lemma PercentageExamples()
    ensures PercentageUsed(500, 500) == Fraction(100, 1)
    ensures PercentageUsed(750, 1500) == Fraction(50, 1)
    ensures PercentageUsed(1, 3) == Fraction(33, 1)
  {
    RoundDivUnique(50000, 500, 100);
    RoundDivUnique(75000, 1500, 50);
    RoundDivUnique(100, 3, 33);
  }
}
