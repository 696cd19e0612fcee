/** GET /api/dashboard/stats (app/api/dashboard/stats/route.ts): listing
    counts by status, the month's sales and inquiries, the conversion rate
    and the average time on market of sold listings. */
module DashboardStats {
  import opened Seqs
  import opened Types
  import opened Store
  import opened AnalyticsLib

  const DEFAULT_TIME_ON_MARKET := 45

  datatype Stats = Stats(
    totalListings: nat,
    activeListings: nat,
    pendingListings: nat,
    soldThisMonth: nat,
    totalValueSold: int,
    newInquiries: nat,
    averageViews: int,
    conversionRate: real,
    averageTimeOnMarket: int)

  function WithStatus(ps: seq<Property>, status: string): seq<Property>
  {
    Filter((p: Property) => p.status == status, ps)
  }

  /** Two different statuses never count the same listing. */
  lemma {:induction false} StatusCountsBounded(ps: seq<Property>, s1: string, s2: string)
    requires s1 != s2
    ensures |WithStatus(ps, s1)| + |WithStatus(ps, s2)| <= |ps|
  {
    if ps != [] {
      StatusCountsBounded(ps[1..], s1, s2);
    }
  }

  predicate SoldSince(monthStart: Ms, p: Property)
  {
    p.status == "sold" && p.updatedAt >= monthStart
  }

  /** The sold listings last updated on or after the start of the month. */
  function SoldThisMonth(ps: seq<Property>, monthStart: Ms): (r: seq<Property>)
    ensures |r| <= |ps|
    ensures forall i :: 0 <= i < |r| ==> r[i] in ps && r[i].status == "sold" && r[i].updatedAt >= monthStart
  {
    Filter((p: Property) => SoldSince(monthStart, p), ps)
  }

  function Price(p: Property): int { p.price }

  /** The inquiries created on or after the start of the month. */
  function NewInquiries(qs: seq<Inquiry>, monthStart: Ms): (r: seq<Inquiry>)
    ensures |r| <= |qs|
    ensures forall i :: 0 <= i < |r| ==> r[i] in qs && r[i].createdAt >= monthStart
  {
    Filter((q: Inquiry) => q.createdAt >= monthStart, qs)
  }

  /** `conversionRate`: inquiries per active listing as a percentage with two
      decimals, and 0 without active listings. */
  function ConversionRate(newInquiries: nat, active: nat): (r: real)
    ensures active == 0 ==> r == 0.0
    ensures active > 0 ==>
              var pct := newInquiries as real / active as real * 100.0;
              pct - 0.005 < r <= pct + 0.005
    ensures r >= 0.0
    ensures (r * 100.0).Floor as real == r * 100.0
  {
    if active > 0 then Round2(newInquiries as real / active as real * 100.0) else 0.0
  }

  /** Whole days between the listing date (midnight UTC) and the last
      update, rounded down. */
  function DaysOnMarket(p: Property): (days: int)
    ensures days * MS_PER_DAY <= p.updatedAt - DayStart(p.dateListed) < (days + 1) * MS_PER_DAY
  {
    (p.updatedAt - DayStart(p.dateListed)) / MS_PER_DAY
  }

  /** `averageTimeOnMarket`: 45 without sold listings, otherwise the integer
      nearest to the mean of their days on market. */
  function AverageTimeOnMarket(sold: seq<Property>): (r: int)
    ensures sold == [] ==> r == DEFAULT_TIME_ON_MARKET
    ensures sold != [] ==>
              (r as real - 0.5) * |sold| as real <= Sum(DaysOnMarket, sold) as real
              < (r as real + 0.5) * |sold| as real
  {
    if sold == [] then DEFAULT_TIME_ON_MARKET
    else
      var n := |sold| as real;
      var mean := Sum(DaysOnMarket, sold) as real / n;
      var r := MathRound(mean);
      assert mean * n == Sum(DaysOnMarket, sold) as real;
      ScaleBounds(r as real - 0.5, mean, r as real + 0.5, n);
      r
  }

  lemma ScaleBounds(lo: real, x: real, hi: real, n: real)
    requires lo <= x < hi && n > 0.0
    ensures lo * n <= x * n < hi * n
  {
    assert (x - lo) * n >= 0.0;
    assert (hi - x) * n > 0.0;
  }

  /** The GET handler. `monthStart` is local midnight of the first day of the
      current month; `viewDraw` stands for `Math.floor(Math.random() * 200)`. */
  method Get(db: Db, monthStart: Ms, viewDraw: nat) returns (stats: Stats)
    requires viewDraw < 200
    ensures stats.totalListings == |db.properties|
    ensures stats.activeListings == |WithStatus(db.properties, "active")|
    ensures stats.pendingListings == |WithStatus(db.properties, "pending")|
    ensures stats.activeListings + stats.pendingListings <= stats.totalListings
    ensures stats.soldThisMonth == |SoldThisMonth(db.properties, monthStart)|
    ensures stats.totalValueSold == Sum(Price, SoldThisMonth(db.properties, monthStart))
    ensures stats.newInquiries == |NewInquiries(db.inquiries, monthStart)|
    ensures 150 <= stats.averageViews < 350
    ensures stats.conversionRate == ConversionRate(stats.newInquiries, stats.activeListings)
    ensures stats.averageTimeOnMarket == AverageTimeOnMarket(WithStatus(db.properties, "sold"))
  {
    var totalListings := |db.properties|;
    var activeListings := |WithStatus(db.properties, "active")|;
    var pendingListings := |WithStatus(db.properties, "pending")|;
    StatusCountsBounded(db.properties, "active", "pending");
    var soldProperties := SoldThisMonth(db.properties, monthStart);
    var totalValueSold := Sum(Price, soldProperties);
    var newInquiries := |NewInquiries(db.inquiries, monthStart)|;
    var averageViews := viewDraw + 150;
    var conversionRate := ConversionRate(newInquiries, activeListings);
    var soldPropertiesWithDates := WithStatus(db.properties, "sold");
    var averageTimeOnMarket := DEFAULT_TIME_ON_MARKET;
    if |soldPropertiesWithDates| > 0 {
      averageTimeOnMarket := MathRound(Sum(DaysOnMarket, soldPropertiesWithDates) as real
                                       / |soldPropertiesWithDates| as real);
    }
    stats := Stats(totalListings, activeListings, pendingListings, |soldProperties|, totalValueSold,
                   newInquiries, averageViews, conversionRate, averageTimeOnMarket);
  }

  /** With non-negative prices the value sold is never negative. */
  lemma ValueSoldNonNegative(ps: seq<Property>, monthStart: Ms)
    requires forall i :: 0 <= i < |ps| ==> ps[i].price >= 0
    ensures Sum(Price, SoldThisMonth(ps, monthStart)) >= 0
  {
    var sold := SoldThisMonth(ps, monthStart);
    forall i | 0 <= i < |sold| ensures Price(sold[i]) >= 0 {
      var j :| 0 <= j < |ps| && ps[j] == sold[i];
    }
    SumNonNegative(Price, sold);
  }
}
