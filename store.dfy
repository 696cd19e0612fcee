/** The analytics store: the five Prisma tables as one object, the UTC day
    windows the code queries them with, and the recount-and-upsert that both
    `updateDailyAnalytics` (app/api/analytics/track-view/route.ts) and
    `updateAnalyticsForInquiry` (app/api/inquiries/route.ts) perform. */
module Store {
  import opened Wrappers
  import opened Seqs
  import opened Keyed
  import opened Types

  /** `new Date().toISOString().split('T')[0]`: the UTC date of an instant. */
  function DayOf(t: Ms): Day
  {
    t / MS_PER_DAY
  }

  /** `new Date(date + 'T00:00:00.000Z')`. */
  function DayStart(d: Day): Ms
  {
    d * MS_PER_DAY
  }

  /** `new Date(date + 'T23:59:59.999Z')`: the last millisecond of the day. */
  function DayEnd(d: Day): Ms
  {
    d * MS_PER_DAY + MS_PER_DAY - 1
  }

  /** The routes query `{ gte: dayStart, lt: dayEnd }`; the seed script
      queries `{ gte: dayStart, lte: dayEnd }`. */
  datatype Window = HalfOpen | Closed

  predicate InWindow(w: Window, t: Ms, d: Day)
  {
    DayStart(d) <= t && (if w.HalfOpen? then t < DayEnd(d) else t <= DayEnd(d))
  }

  /** The half-open window holds every millisecond of the day but the last. */
  lemma HalfOpenWindow(t: Ms, d: Day)
    ensures InWindow(HalfOpen, t, d) <==> DayOf(t) == d && t != DayEnd(d)
    ensures InWindow(Closed, t, d) <==> DayOf(t) == d
  {
    if DayOf(t) == d {
      assert DayStart(d) <= t <= DayEnd(d);
    }
    if DayStart(d) <= t <= DayEnd(d) {
      assert t - DayStart(d) < MS_PER_DAY;
      assert DayOf(t) == d;
    }
  }

  /** The `where` filter on views: `propertyId` (when given) and `viewedAt`. */
  predicate ViewMatches(pid: Option<string>, w: Window, d: Day, v: ListingView)
  {
    (pid.None? || v.propertyId == pid.value) && InWindow(w, v.viewedAt, d)
  }

  /** The `where` filter on inquiries: `propertyId` (when given) and `dateSubmitted`. */
  predicate InquiryMatches(pid: Option<string>, w: Window, d: Day, q: Inquiry)
  {
    (pid.None? || q.propertyId == pid.value) && InWindow(w, q.dateSubmitted, d)
  }

  /** The views the `where` filter selects, in log order. */
  function ViewsOn(views: seq<ListingView>, pid: Option<string>, w: Window, d: Day): seq<ListingView>
  {
    if views == [] then []
    else
      var rest := ViewsOn(views[..|views| - 1], pid, w, d);
      if ViewMatches(pid, w, d, views[|views| - 1]) then rest + [views[|views| - 1]] else rest
  }

  /** The inquiries the `where` filter selects, in log order. */
  function InquiriesOn(inquiries: seq<Inquiry>, pid: Option<string>, w: Window, d: Day): seq<Inquiry>
  {
    if inquiries == [] then []
    else
      var rest := InquiriesOn(inquiries[..|inquiries| - 1], pid, w, d);
      if InquiryMatches(pid, w, d, inquiries[|inquiries| - 1]) then rest + [inquiries[|inquiries| - 1]] else rest
  }

  lemma ViewsOnAppend(views: seq<ListingView>, pid: Option<string>, w: Window, d: Day, v: ListingView)
    ensures ViewsOn(views + [v], pid, w, d)
         == ViewsOn(views, pid, w, d) + (if ViewMatches(pid, w, d, v) then [v] else [])
  {
    assert (views + [v])[..|views|] == views;
  }

  lemma InquiriesOnAppend(inquiries: seq<Inquiry>, pid: Option<string>, w: Window, d: Day, q: Inquiry)
    ensures InquiriesOn(inquiries + [q], pid, w, d)
         == InquiriesOn(inquiries, pid, w, d) + (if InquiryMatches(pid, w, d, q) then [q] else [])
  {
    assert (inquiries + [q])[..|inquiries|] == inquiries;
  }

  /** The distinct `sessionId`s of some views: what `groupBy({ by: ['sessionId'] })`
      and `findMany({ distinct: ['sessionId'] })` return one entry for. */
  function Sessions(vs: seq<ListingView>): (r: set<string>)
    ensures |r| <= |vs|
  {
    if vs == [] then {}
    else
      var rest := Sessions(vs[1..]);
      assert |{vs[0].sessionId} + rest| <= 1 + |rest| by {
        if vs[0].sessionId in rest {
          assert {vs[0].sessionId} + rest == rest;
        }
      }
      {vs[0].sessionId} + rest
  }

  /** A session is counted exactly when one of the views carries it. */
  lemma {:induction false} SessionsMembers(vs: seq<ListingView>)
    ensures forall sid :: sid in Sessions(vs) <==> exists i :: 0 <= i < |vs| && vs[i].sessionId == sid
  {
    if vs != [] {
      SessionsMembers(vs[1..]);
      assert forall i :: 1 <= i < |vs| ==> vs[i] == vs[1..][i - 1];
    }
  }

  /** The per-property counters for day `d`: views, distinct sessions and
      inquiries of property `pid` inside the window. */
  function PropertyRow(views: seq<ListingView>, inquiries: seq<Inquiry>, pid: string, w: Window, d: Day)
    : (r: PropertyAnalyticsRow)
    ensures r.propertyId == pid && r.date == d
    ensures r.uniqueVisitors <= r.views
    ensures r.uniqueVisitors == |Sessions(ViewsOn(views, Some(pid), w, d))|
    ensures r.views == |ViewsOn(views, Some(pid), w, d)|
    ensures r.inquiries == |InquiriesOn(inquiries, Some(pid), w, d)|
  {
    var vs := ViewsOn(views, Some(pid), w, d);
    PropertyAnalyticsRow(pid, d, |vs|, |Sessions(vs)|, |InquiriesOn(inquiries, Some(pid), w, d)|)
  }

  /** The global counters for day `d`. */
  function SummaryRow(views: seq<ListingView>, inquiries: seq<Inquiry>, w: Window, d: Day)
    : (r: AnalyticsSummaryRow)
    ensures r.date == d
    ensures r.uniqueVisitors <= r.totalViews
    ensures r.uniqueVisitors == |Sessions(ViewsOn(views, None, w, d))|
    ensures r.totalViews == |ViewsOn(views, None, w, d)|
    ensures r.totalInquiries == |InquiriesOn(inquiries, None, w, d)|
  {
    var vs := ViewsOn(views, None, w, d);
    AnalyticsSummaryRow(d, |vs|, |Sessions(vs)|, |InquiriesOn(inquiries, None, w, d)|)
  }

  /** The compound unique key `propertyId_date`. */
  function PropertyKey(r: PropertyAnalyticsRow): (string, Day) { (r.propertyId, r.date) }

  /** The unique key `date`. */
  function SummaryKey(r: AnalyticsSummaryRow): Day { r.date }

  /** A snapshot of every table. */
  datatype Tables = Tables(
    properties: seq<Property>,
    listingViews: seq<ListingView>,
    inquiries: seq<Inquiry>,
    propertyAnalytics: seq<PropertyAnalyticsRow>,
    analyticsSummary: seq<AnalyticsSummaryRow>)

  /** The unique-key constraints of the two roll-up tables. */
  ghost predicate WellFormed(t: Tables)
  {
    KeysUnique(PropertyKey, t.propertyAnalytics) && KeysUnique(SummaryKey, t.analyticsSummary)
  }

  /** The state after recounting day `d` for property `pid`: the
      (pid, d) row and the d summary row are overwritten with fresh counts
      over the half-open window, nothing else changes. */
  function Recount(t: Tables, pid: string, d: Day): (r: Tables)
    ensures r.properties == t.properties && r.listingViews == t.listingViews && r.inquiries == t.inquiries
    ensures Find(PropertyKey, r.propertyAnalytics, (pid, d))
         == Some(PropertyRow(t.listingViews, t.inquiries, pid, HalfOpen, d))
    ensures forall k :: k != (pid, d) ==> Find(PropertyKey, r.propertyAnalytics, k) == Find(PropertyKey, t.propertyAnalytics, k)
    ensures Find(SummaryKey, r.analyticsSummary, d) == Some(SummaryRow(t.listingViews, t.inquiries, HalfOpen, d))
    ensures forall k :: k != d ==> Find(SummaryKey, r.analyticsSummary, k) == Find(SummaryKey, t.analyticsSummary, k)
  {
    var row := PropertyRow(t.listingViews, t.inquiries, pid, HalfOpen, d);
    var sum := SummaryRow(t.listingViews, t.inquiries, HalfOpen, d);
    t.(propertyAnalytics := Upsert(PropertyKey, t.propertyAnalytics, row),
       analyticsSummary := Upsert(SummaryKey, t.analyticsSummary, sum))
  }

  lemma RecountKeepsWellFormed(t: Tables, pid: string, d: Day)
    requires WellFormed(t)
    ensures WellFormed(Recount(t, pid, d))
  {
    UpsertKeepsKeysUnique(PropertyKey, t.propertyAnalytics, PropertyRow(t.listingViews, t.inquiries, pid, HalfOpen, d));
    UpsertKeepsKeysUnique(SummaryKey, t.analyticsSummary, SummaryRow(t.listingViews, t.inquiries, HalfOpen, d));
  }

  /** Recounting is a full overwrite, never an increment: doing it twice
      leaves the same tables as doing it once. */
  lemma RecountIdempotent(t: Tables, pid: string, d: Day)
    ensures Recount(Recount(t, pid, d), pid, d) == Recount(t, pid, d)
  {
    var row := PropertyRow(t.listingViews, t.inquiries, pid, HalfOpen, d);
    var sum := SummaryRow(t.listingViews, t.inquiries, HalfOpen, d);
    UpsertIdempotent(PropertyKey, t.propertyAnalytics, row);
    UpsertIdempotent(SummaryKey, t.analyticsSummary, sum);
  }

  /** The database the routes share (the Prisma client). */
  class Db {
    var properties: seq<Property>
    var listingViews: seq<ListingView>
    var inquiries: seq<Inquiry>
    var propertyAnalytics: seq<PropertyAnalyticsRow>
    var analyticsSummary: seq<AnalyticsSummaryRow>

    function State(): Tables
      reads this
    {
      Tables(properties, listingViews, inquiries, propertyAnalytics, analyticsSummary)
    }

    ghost predicate Valid()
      reads this
    {
      WellFormed(State())
    }

    constructor (properties: seq<Property>)
      ensures Valid()
      ensures State() == Tables(properties, [], [], [], [])
    {
      this.properties := properties;
      listingViews, inquiries, propertyAnalytics, analyticsSummary := [], [], [], [];
    }

  }
}
