/** The client analytics helpers of lib/analytics.ts: the session id of a
    visitor, number and trend formatting, and the shapes of the summary
    reply. */
module AnalyticsLib {
  import opened Strings
  import opened Types

  const SESSION_PREFIX := "demo_session_"

  /** The summary block of the reply; trends are reals, see `Math.round`. */
  datatype AnalyticsSummary = AnalyticsSummary(
    totalViews: int,
    totalInquiries: int,
    totalSalesValue: int,
    viewsTrend: real,
    inquiriesTrend: real)

  /** One day of the chart series. */
  datatype ChartDataPoint = ChartDataPoint(date: Day, views: int, inquiries: int, uniqueVisitors: int)

  /** A top property with its summed 30-day counters. */
  datatype TopProperty = TopProperty(
    id: string,
    title: string,
    address: string,
    price: int,
    views: int,
    inquiries: int,
    uniqueVisitors: int)

  datatype TodayTotals = TodayTotals(views: int, inquiries: int, uniqueVisitors: int)

  datatype AnalyticsData = AnalyticsData(
    summary: AnalyticsSummary,
    chartData: seq<ChartDataPoint>,
    topProperties: seq<TopProperty>,
    today: TodayTotals)

  /** `generateSessionId()`: `randomPart` stands for the base-36 digits of
      `Math.random()`, `now` for `Date.now()`. */
  function GenerateSessionId(randomPart: string, now: int): (id: string)
    ensures StartsWith(id, SESSION_PREFIX)
    ensures EndsWith(id, "_" + IntToString(now))
  {
    var tail := "_" + IntToString(now);
    var id := SESSION_PREFIX + randomPart + tail;
    assert id[..|SESSION_PREFIX|] == SESSION_PREFIX;
    assert id[|id| - |tail|..] == tail;
    id
  }

  /** JavaScript's `Math.round`: the nearest integer, halves toward +infinity. */
  function MathRound(y: real): (n: int)
    ensures y - 0.5 < n as real <= y + 0.5
  {
    (y + 0.5).Floor
  }

  /** `Math.round(x * 100) / 100`: the rounding to two decimals the
      routes use, within half a hundredth of `x`. */
  function Round2(x: real): (r: real)
    ensures x - 0.005 < r <= x + 0.005
    ensures (r * 100.0).Floor as real == r * 100.0
  {
    MathRound(x * 100.0) as real / 100.0
  }

  /** The two ensures of `Round2` leave one value: any hundredth within the
      same half-open band around `x` is `Round2(x)`. */
  lemma Round2Unique(x: real, r: real)
    requires x - 0.005 < r <= x + 0.005
    requires (r * 100.0).Floor as real == r * 100.0
    ensures r == Round2(x)
  {
    var k := (r * 100.0).Floor;
    assert x * 100.0 + 0.5 >= k as real;
    assert x * 100.0 + 0.5 < k as real + 1.0;
    assert MathRound(x * 100.0) == k;
  }

  /** `x.toFixed(1)` on the real value of `x`: a sign when `x < 0`, then the
      integer nearest to `|x| * 10` (the larger one on a tie) written with one
      decimal. */
  function ToFixed1(x: real): (s: string)
    ensures |s| >= 3 && s[|s| - 2] == '.' && IsDigit(s[|s| - 1])
    ensures s[0] == '-' <==> x < 0.0
    ensures s[0] == '-' || IsDigit(s[0])
  {
    var m := if x < 0.0 then -x else x;
    var n := (m * 10.0 + 0.5).Floor;
    (if x < 0.0 then "-" else "") + NatToString(n / 10) + "." + [DigitChar(n % 10)]
  }

  /** `formatNumber(num)` on integer counts. */
  function FormatNumber(num: int): (r: string)
    ensures r != []
    ensures num >= 1000000 ==> r[|r| - 1] == 'M'
    ensures 1000 <= num < 1000000 ==> r[|r| - 1] == 'K'
  {
    if num >= 1000000 then ToFixed1(num as real / 1000000.0) + "M"
    else if num >= 1000 then ToFixed1(num as real / 1000.0) + "K"
    else IntToString(num)
  }

  /** The suffix tells the magnitude, and small numbers are printed as they are. */
  lemma FormatNumberSuffix(num: int)
    ensures EndsWith(FormatNumber(num), "M") <==> num >= 1000000
    ensures EndsWith(FormatNumber(num), "K") <==> 1000 <= num < 1000000
    ensures num < 1000 ==> FormatNumber(num) == IntToString(num)
  {
    var s := FormatNumber(num);
    if num < 1000 {
      assert IsDigit(s[|s| - 1]);
      assert s[|s| - 1..] != "M" && s[|s| - 1..] != "K";
    } else {
      assert s[|s| - 1..] == [s[|s| - 1]];
    }
  }

  /** `formatTrend(trend)`. */
  function FormatTrend(trend: real): (r: string)
    ensures |r| >= 4 && r[|r| - 1] == '%'
    ensures r[0] == '+' <==> trend > 0.0
  {
    (if trend > 0.0 then "+" else "") + ToFixed1(trend) + "%"
  }

  lemma FormatNumberExamples()
    ensures FormatNumber(1500) == "1.5K"
    ensures FormatNumber(2500000) == "2.5M"
    ensures FormatNumber(999) == "999"
  {
    assert (1500 as real / 1000.0 * 10.0 + 0.5).Floor == 15;
    assert NatToString(1) == "1";
    assert (2500000 as real / 1000000.0 * 10.0 + 0.5).Floor == 25;
    assert NatToString(2) == "2";
    assert NatToString(9) == "9" && NatToString(99) == "99";
  }

  lemma FormatTrendExamples()
    ensures FormatTrend(12.34) == "+12.3%"
    ensures FormatTrend(-5.0) == "-5.0%"
    ensures FormatTrend(0.0) == "0.0%"
  {
    assert (12.34 * 10.0 + 0.5).Floor == 123;
    assert NatToString(1) == "1" && NatToString(12) == "12";
    assert (5.0 * 10.0 + 0.5).Floor == 50;
    assert NatToString(5) == "5";
    assert (0.0 * 10.0 + 0.5).Floor == 0;
    assert NatToString(0) == "0";
  }
}
