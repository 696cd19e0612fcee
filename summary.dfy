/** GET /api/analytics/summary (app/api/analytics/summary/route.ts): 30-day
    totals and week-over-week trends from the global daily rows, the chart
    series in ascending date order, the five properties with most views over
    the same 30 days, and today's live counts. */
module Summary {
  import opened Wrappers
  import opened Seqs
  import opened Keyed
  import opened Types
  import opened Store
  import opened AnalyticsLib

  const TOTAL_SALES_VALUE := 6700000
  const TOP_COUNT := 5

  /** `thirtyDaysAgo`, the date of the instant 30 days before `now`. */
  function ThirtyDaysAgo(now: Ms): (d: Day)
    ensures d == DayOf(now) - 30
  {
    DayOf(now - 30 * MS_PER_DAY)
  }

  function SummaryDate(r: AnalyticsSummaryRow): int { r.date }
  function RowViews(r: AnalyticsSummaryRow): int { r.totalViews }
  function RowInquiries(r: AnalyticsSummaryRow): int { r.totalInquiries }

  predicate OnOrAfter(since: Day, r: AnalyticsSummaryRow) { r.date >= since }

  /** `analyticsSummary.findMany({ where: { date: { gte } }, orderBy: { date: 'desc' } })`. */
  function LastThirtyDays(rows: seq<AnalyticsSummaryRow>, since: Day): (r: seq<AnalyticsSummaryRow>)
    ensures SortedDesc(SummaryDate, r)
    ensures multiset(r) == multiset(Filter((x: AnalyticsSummaryRow) => OnOrAfter(since, x), rows))
    ensures forall i :: 0 <= i < |r| ==> r[i].date >= since && r[i] in rows
  {
    var kept := Filter((x: AnalyticsSummaryRow) => OnOrAfter(since, x), rows);
    var sorted := SortDesc(SummaryDate, kept);
    assert forall i :: 0 <= i < |sorted| ==> sorted[i] in multiset(kept);
    sorted
  }

  /** `s.slice(lo, hi)` for `0 <= lo <= hi`. */
  function Slice<T>(s: seq<T>, lo: nat, hi: nat): (r: seq<T>)
    requires lo <= hi
    ensures |r| <= hi - lo
    ensures |s| >= hi ==> |r| == hi - lo
    ensures |r| == (if hi <= |s| then hi - lo else if lo <= |s| then |s| - lo else 0)
    ensures forall i :: 0 <= i < |r| ==> lo + i < |s| && r[i] == s[lo + i]
  {
    var a := if lo < |s| then lo else |s|;
    var b := if hi < |s| then hi else |s|;
    s[a..b]
  }

  /** The two trend windows are the first 14 rows, split after the 7th. */
  lemma TrendWindows<T>(s: seq<T>)
    ensures Slice(s, 0, 7) + Slice(s, 7, 14) == Slice(s, 0, 14)
    ensures |s| < 7 ==> Slice(s, 0, 7) == s && Slice(s, 7, 14) == []
  {
  }

  /** The percentage change from `prev` to `recent`, 0 when `prev` is not positive. */
  function TrendPct(recent: int, prev: int): (t: real)
    ensures prev <= 0 ==> t == 0.0
    ensures prev > 0 ==> t * prev as real == (recent - prev) as real * 100.0
  {
    if prev > 0 then (recent - prev) as real / prev as real * 100.0 else 0.0
  }

  lemma TrendExamples()
    ensures Round2(TrendPct(150, 100)) == 50.0
    ensures Round2(TrendPct(80, 100)) == -20.0
    ensures Round2(TrendPct(1, 3)) == -66.67
    ensures Round2(TrendPct(42, 0)) == 0.0
  {
    assert MathRound(5000.0) == 5000;
    assert MathRound(-2000.0) == -2000;
    assert TrendPct(1, 3) * 100.0 == -20000.0 / 3.0;
    assert MathRound(-20000.0 / 3.0) == -6667;
    assert MathRound(0.0) == 0;
  }

  function ChartPoint(r: AnalyticsSummaryRow): ChartDataPoint
  {
    ChartDataPoint(r.date, r.totalViews, r.totalInquiries, r.uniqueVisitors)
  }

  /** `.map(day => ({ date, views, inquiries, uniqueVisitors }))`. */
  function ChartSeries(rows: seq<AnalyticsSummaryRow>): (c: seq<ChartDataPoint>)
    ensures |c| == |rows|
    ensures forall i :: 0 <= i < |rows| ==> c[i] == ChartPoint(rows[i])
  {
    if rows == [] then [] else [ChartPoint(rows[0])] + ChartSeries(rows[1..])
  }

  /** `thirtyDaysData.reverse()`, in place. */
  method ReverseInPlace<T>(a: array<T>)
    modifies a
    ensures a[..] == Reverse(old(a[..]))
  {
    var i, j := 0, a.Length - 1;
    while i < j
      invariant 0 <= i && j == a.Length - 1 - i && i <= a.Length - i
      invariant forall k :: 0 <= k < i ==> a[k] == old(a[a.Length - 1 - k]) && a[a.Length - 1 - k] == old(a[k])
      invariant forall k :: i <= k < a.Length - i ==> a[k] == old(a[k])
    {
      a[i], a[j] := a[j], a[i];
      i, j := i + 1, j - 1;
    }
  }

  /** The series of a date-descending list of rows runs in ascending date order. */
  lemma ChartAscending(rows: seq<AnalyticsSummaryRow>)
    requires SortedDesc(SummaryDate, rows)
    ensures forall i, j :: 0 <= i < j < |rows| ==>
              ChartSeries(Reverse(rows))[i].date <= ChartSeries(Reverse(rows))[j].date
  {
    var c := ChartSeries(Reverse(rows));
    forall i, j | 0 <= i < j < |rows| ensures c[i].date <= c[j].date {
      assert c[i].date == SummaryDate(rows[|rows| - 1 - i]);
      assert c[j].date == SummaryDate(rows[|rows| - 1 - j]);
    }
  }

  /** One entry of `propertyAnalytics.groupBy({ by: ['propertyId'], _sum })`. */
  datatype PropertyTotals = PropertyTotals(propertyId: string, views: int, inquiries: int, uniqueVisitors: int)

  function TotalsViews(t: PropertyTotals): int { t.views }
  function DailyViews(r: PropertyAnalyticsRow): int { r.views }
  function DailyInquiries(r: PropertyAnalyticsRow): int { r.inquiries }
  function DailyVisitors(r: PropertyAnalyticsRow): int { r.uniqueVisitors }

  predicate OfProperty(pid: string, r: PropertyAnalyticsRow) { r.propertyId == pid }
  predicate DailyOnOrAfter(since: Day, r: PropertyAnalyticsRow) { r.date >= since }

  function PropertyIds(rows: seq<PropertyAnalyticsRow>): (ids: seq<string>)
    ensures |ids| == |rows|
    ensures forall i :: 0 <= i < |rows| ==> ids[i] == rows[i].propertyId
  {
    if rows == [] then [] else [rows[0].propertyId] + PropertyIds(rows[1..])
  }

  /** The distinct elements of `s` in order of first occurrence. */
  function Distinct(s: seq<string>): (r: seq<string>)
    ensures forall x :: x in r <==> x in s
    ensures forall i, j :: 0 <= i < j < |r| ==> r[i] != r[j]
  {
    if s == [] then []
    else
      var rest := Distinct(s[..|s| - 1]);
      assert s == s[..|s| - 1] + [s[|s| - 1]];
      if s[|s| - 1] in rest then rest else rest + [s[|s| - 1]]
  }

  /** The group of `pid`: its sums over the rows of that property. */
  function Totals(rows: seq<PropertyAnalyticsRow>, pid: string): (t: PropertyTotals)
    ensures t.propertyId == pid
  {
    var mine := Filter((r: PropertyAnalyticsRow) => OfProperty(pid, r), rows);
    PropertyTotals(pid, Sum(DailyViews, mine), Sum(DailyInquiries, mine), Sum(DailyVisitors, mine))
  }

  function GroupsOf(rows: seq<PropertyAnalyticsRow>, ids: seq<string>): (g: seq<PropertyTotals>)
    ensures |g| == |ids|
    ensures forall i :: 0 <= i < |ids| ==> g[i] == Totals(rows, ids[i])
  {
    if ids == [] then [] else [Totals(rows, ids[0])] + GroupsOf(rows, ids[1..])
  }

  /** `groupBy({ by: ['propertyId'], _sum })`: one group per property that
      has a row, in order of first occurrence, with the sums of its rows. */
  function GroupByProperty(rows: seq<PropertyAnalyticsRow>): (g: seq<PropertyTotals>)
    ensures forall i, j :: 0 <= i < j < |g| ==> g[i].propertyId != g[j].propertyId
    ensures forall i :: 0 <= i < |g| ==> g[i] == Totals(rows, g[i].propertyId)
    ensures |g| == |Distinct(PropertyIds(rows))|
    ensures forall i :: 0 <= i < |g| ==> g[i].propertyId == Distinct(PropertyIds(rows))[i]
  {
    var ids := Distinct(PropertyIds(rows));
    var g := GroupsOf(rows, ids);
    assert forall i :: 0 <= i < |g| ==> g[i].propertyId == ids[i];
    g
  }

  /** Every property with a row has a group, and every group a row. */
  lemma GroupsCoverProperties(rows: seq<PropertyAnalyticsRow>)
    ensures forall j :: 0 <= j < |rows| ==>
              exists i :: 0 <= i < |GroupByProperty(rows)| && GroupByProperty(rows)[i].propertyId == rows[j].propertyId
    ensures forall i :: 0 <= i < |GroupByProperty(rows)| ==>
              exists j :: 0 <= j < |rows| && rows[j].propertyId == GroupByProperty(rows)[i].propertyId
  {
    var g, pids := GroupByProperty(rows), PropertyIds(rows);
    var ids := Distinct(pids);
    forall j | 0 <= j < |rows| ensures exists i :: 0 <= i < |g| && g[i].propertyId == rows[j].propertyId {
      assert pids[j] in ids;
      var i :| 0 <= i < |ids| && ids[i] == pids[j];
      assert g[i].propertyId == ids[i];
    }
    forall i | 0 <= i < |g| ensures exists j :: 0 <= j < |rows| && rows[j].propertyId == g[i].propertyId {
      assert ids[i] in pids;
      var j :| 0 <= j < |pids| && pids[j] == ids[i];
      assert rows[j].propertyId == g[i].propertyId;
    }
  }

  /** The `where: { date: { gte: thirtyDaysAgo } }` test of the group-by. */
  function DailySince(since: Day): PropertyAnalyticsRow -> bool
  {
    (x: PropertyAnalyticsRow) => DailyOnOrAfter(since, x)
  }

  /** The groups of the rows dated on or after `since`, most viewed first:
      a permutation of those groups. */
  function Ranked(rows: seq<PropertyAnalyticsRow>, since: Day): (r: seq<PropertyTotals>)
    ensures SortedDesc(TotalsViews, r)
    ensures multiset(r) == multiset(GroupByProperty(Filter(DailySince(since), rows)))
  {
    SortDesc(TotalsViews, GroupByProperty(Filter(DailySince(since), rows)))
  }

  /** `orderBy: { _sum: { views: 'desc' } }, take: 5`. */
  function TopFive(rows: seq<PropertyAnalyticsRow>, since: Day): (r: seq<PropertyTotals>)
    ensures |r| <= TOP_COUNT && SortedDesc(TotalsViews, r)
  {
    Take(Ranked(rows, since), TOP_COUNT)
  }

  /** At most five groups, most viewed first, each a real group, and no group
      left out has more views than one taken. */
  lemma TopFiveIsTop(rows: seq<PropertyAnalyticsRow>, since: Day)
    ensures |TopFive(rows, since)| == if |Ranked(rows, since)| < TOP_COUNT then |Ranked(rows, since)| else TOP_COUNT
    ensures SortedDesc(TotalsViews, TopFive(rows, since))
    ensures multiset(TopFive(rows, since)) <= multiset(Ranked(rows, since))
    ensures forall g, i ::
              multiset(Ranked(rows, since))[g] > multiset(TopFive(rows, since))[g] && 0 <= i < |TopFive(rows, since)|
              ==> g.views <= TopFive(rows, since)[i].views
  {
    TakeOfSortedIsTop(TotalsViews, Ranked(rows, since), TOP_COUNT);
  }

  predicate Found(props: seq<Property>, t: PropertyTotals)
  {
    Find(PropertyId, props, t.propertyId).Some?
  }

  function Detail(props: seq<Property>, t: PropertyTotals): TopProperty
    requires Found(props, t)
  {
    var p := Find(PropertyId, props, t.propertyId).value;
    TopProperty(p.id, p.title, p.address, p.price, t.views, t.inquiries, t.uniqueVisitors)
  }

  /** The property lookup of each group, with `.filter(Boolean)` dropping the
      groups whose property no longer exists. */
  function WithDetails(props: seq<Property>, top: seq<PropertyTotals>): (r: seq<TopProperty>)
    ensures |r| == |Filter((t: PropertyTotals) => Found(props, t), top)|
    ensures forall i :: 0 <= i < |r| ==>
              var kept := Filter((t: PropertyTotals) => Found(props, t), top);
              Found(props, kept[i]) && r[i] == Detail(props, kept[i])
  {
    if top == [] then []
    else if Found(props, top[0]) then [Detail(props, top[0])] + WithDetails(props, top[1..])
    else WithDetails(props, top[1..])
  }

  function TopViews(t: TopProperty): int { t.views }

  /** Dropping missing properties keeps the survivors in their ranked order,
      and each keeps its group's counters. */
  lemma DetailsKeepOrder(props: seq<Property>, top: seq<PropertyTotals>)
    requires SortedDesc(TotalsViews, top)
    ensures SortedDesc(TopViews, WithDetails(props, top))
    ensures |WithDetails(props, top)| <= |top|
    ensures forall i :: 0 <= i < |WithDetails(props, top)| ==>
              exists j :: 0 <= j < |top| && WithDetails(props, top)[i].id == top[j].propertyId
                       && WithDetails(props, top)[i].views == top[j].views
  {
    var found := (t: PropertyTotals) => Found(props, t);
    var kept := Filter(found, top);
    FilterKeepsSortedDesc(TotalsViews, found, top);
    var r := WithDetails(props, top);
    forall i | 0 <= i < |r|
      ensures exists j :: 0 <= j < |top| && r[i].id == top[j].propertyId && r[i].views == top[j].views
    {
      var j :| 0 <= j < |top| && top[j] == kept[i];
      assert r[i] == Detail(props, kept[i]);
    }
    forall i, j | 0 <= i < j < |r| ensures TopViews(r[i]) >= TopViews(r[j]) {
      assert r[i].views == kept[i].views && r[j].views == kept[j].views;
    }
  }

  /** Summing the sorted rows is summing the filtered table. */
  lemma ThirtyDayTotals(table: seq<AnalyticsSummaryRow>, since: Day)
    ensures var kept := Filter((x: AnalyticsSummaryRow) => OnOrAfter(since, x), table);
            Sum(RowViews, LastThirtyDays(table, since)) == Sum(RowViews, kept) &&
            Sum(RowInquiries, LastThirtyDays(table, since)) == Sum(RowInquiries, kept)
  {
    var kept := Filter((x: AnalyticsSummaryRow) => OnOrAfter(since, x), table);
    SumPermutation(RowViews, LastThirtyDays(table, since), kept);
    SumPermutation(RowInquiries, LastThirtyDays(table, since), kept);
  }

  /** `thirtyDaysData.reverse().map(...)`: the rows copied into an array,
      reversed there and mapped to chart points. */
  method Chart(rows: seq<AnalyticsSummaryRow>) returns (chart: seq<ChartDataPoint>)
    ensures chart == ChartSeries(Reverse(rows))
  {
    var a := new AnalyticsSummaryRow[|rows|](i requires 0 <= i < |rows| => rows[i]);
    assert a[..] == rows;
    ReverseInPlace(a);
    chart := ChartSeries(a[..]);
  }

  /** The GET handler; `now` is the request's clock reading. */
  method Get(db: Db, now: Ms) returns (data: AnalyticsData)
    ensures var since := ThirtyDaysAgo(now);
            var kept := Filter((x: AnalyticsSummaryRow) => OnOrAfter(since, x), db.analyticsSummary);
            data.summary.totalViews == Sum(RowViews, kept) &&
            data.summary.totalInquiries == Sum(RowInquiries, kept) &&
            data.summary.totalSalesValue == TOTAL_SALES_VALUE
    ensures var rows := LastThirtyDays(db.analyticsSummary, ThirtyDaysAgo(now));
            data.summary.viewsTrend
              == Round2(TrendPct(Sum(RowViews, Slice(rows, 0, 7)), Sum(RowViews, Slice(rows, 7, 14)))) &&
            data.summary.inquiriesTrend
              == Round2(TrendPct(Sum(RowInquiries, Slice(rows, 0, 7)), Sum(RowInquiries, Slice(rows, 7, 14)))) &&
            data.chartData == ChartSeries(Reverse(rows))
    ensures data.topProperties == WithDetails(db.properties, TopFive(db.propertyAnalytics, ThirtyDaysAgo(now)))
    ensures var today := SummaryRow(db.listingViews, db.inquiries, HalfOpen, DayOf(now));
            data.today == TodayTotals(today.totalViews, today.totalInquiries, today.uniqueVisitors)
  {
    var today := SummaryRow(db.listingViews, db.inquiries, HalfOpen, DayOf(now));
    var since := ThirtyDaysAgo(now);
    var rows := LastThirtyDays(db.analyticsSummary, since);
    ThirtyDayTotals(db.analyticsSummary, since);
    var recent, previous := Slice(rows, 0, 7), Slice(rows, 7, 14);
    var summary := AnalyticsSummary(
      Sum(RowViews, rows), Sum(RowInquiries, rows), TOTAL_SALES_VALUE,
      Round2(TrendPct(Sum(RowViews, recent), Sum(RowViews, previous))),
      Round2(TrendPct(Sum(RowInquiries, recent), Sum(RowInquiries, previous))));
    var chart := Chart(rows);
    var top := WithDetails(db.properties, TopFive(db.propertyAnalytics, since));
    data := AnalyticsData(summary, chart, top,
                          TodayTotals(today.totalViews, today.totalInquiries, today.uniqueVisitors));
  }
}
