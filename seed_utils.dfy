/** The analytics seeder of prisma/seedUtils.ts: random listing views for the
    last `daysBack` days, then a batch version of the daily aggregation over
    the inclusive day window (`lte`), written with `createMany`. */
module SeedUtils {
  import opened Wrappers
  import opened Seqs
  import opened Keyed
  import opened Types
  import opened Store
  import opened Strings
  import AnalyticsLib

  const SESSION_POOL_SIZE := 50
  const MIN_VIEWS_PER_DAY := 5
  const MAX_VIEWS_PER_DAY := 49
  const DEFAULT_DAYS_BACK := 30
  const USER_AGENT := "Mozilla/5.0 (Macintosh; Intel Mac OS X 10_15_7) AppleWebKit/537.36"
  const GOOGLE_REFERRER := "https://google.com"
  /** What `properties[i].id` throws when `properties` is empty. */
  const TYPE_ERROR := "Cannot read properties of undefined (reading 'id')"
  /** What `createMany` throws when a row repeats a unique key. */
  const UNIQUE_VIOLATION := "Unique constraint failed"

  /** The random draws of one generated view: the property and session
      indices, the hour and minute of the day, the last octet of the address
      and whether the referrer is Google. */
  datatype ViewPick = ViewPick(
    propertyIndex: nat,
    sessionIndex: nat,
    hour: nat,
    minute: nat,
    ipOctet: nat,
    fromGoogle: bool)

  /** The ranges `Math.floor(Math.random() * n)` produces. */
  predicate PickInRange(p: ViewPick, propertyCount: nat)
  {
    (propertyCount == 0 || p.propertyIndex < propertyCount) && p.sessionIndex < SESSION_POOL_SIZE
    && p.hour < 24 && p.minute < 60 && p.ipOctet < 255
  }

  /** One list of draws per day offset, each of `Math.floor(Math.random() * 45) + 5` views. */
  predicate DrawsInRange(picks: seq<seq<ViewPick>>, propertyCount: nat, days: nat)
  {
    |picks| >= days
    && (forall k :: 0 <= k < |picks| ==> MIN_VIEWS_PER_DAY <= |picks[k]| <= MAX_VIEWS_PER_DAY)
    && (forall k, j :: 0 <= k < |picks| && 0 <= j < |picks[k]| ==> PickInRange(picks[k][j], propertyCount))
  }

  /** The loop bound `dayOffset < daysBack` as a count. */
  function Days(daysBack: int): nat
  {
    if daysBack > 0 then daysBack else 0
  }

  /** The pool `createSessionPool(count)` builds; `Date.now()` is read once
      and `randomParts` stand for the base-36 digits of `Math.random()`. */
  function SessionPool(count: nat, randomParts: seq<string>, now: Ms): (pool: seq<string>)
    requires |randomParts| >= count
    ensures |pool| == count
    ensures forall i :: 0 <= i < count ==> StartsWith(pool[i], AnalyticsLib.SESSION_PREFIX)
  {
    seq(count, i requires 0 <= i < count => AnalyticsLib.GenerateSessionId(randomParts[i], now + i))
  }

  /** `createSessionPool(count)`. */
  method CreateSessionPool(count: int, randomParts: seq<string>, now: Ms) returns (pool: seq<string>)
    requires |randomParts| >= Days(count)
    ensures pool == SessionPool(Days(count), randomParts, now)
  {
    pool := [];
    for i := 0 to Days(count)
      invariant pool == SessionPool(i, randomParts, now)
    {
      pool := pool + [AnalyticsLib.GenerateSessionId(randomParts[i], now + i)];
    }
  }

  /** The view pushed for draw `p` on day offset `k`: the time of day of the
      clock reading with its hour and minute replaced. */
  function SeedView(properties: seq<Property>, pool: seq<string>, today: Day, k: nat, p: ViewPick, now: Ms)
    : ListingView
    requires PickInRange(p, |properties|) && properties != [] && |pool| == SESSION_POOL_SIZE
  {
    ListingView(
      properties[p.propertyIndex].id,
      pool[p.sessionIndex],
      USER_AGENT,
      "192.168.1." + NatToString(p.ipOctet),
      if p.fromGoogle then GOOGLE_REFERRER else "",
      DayStart(today - k) + p.hour * MS_PER_HOUR + p.minute * MS_PER_MINUTE + now % MS_PER_MINUTE)
  }

  /** A generated view falls on its day offset, possibly at its last millisecond. */
  lemma SeedViewOnItsDay(properties: seq<Property>, pool: seq<string>, today: Day, k: nat, p: ViewPick, now: Ms)
    requires PickInRange(p, |properties|) && properties != [] && |pool| == SESSION_POOL_SIZE
    ensures InWindow(Closed, SeedView(properties, pool, today, k, p, now).viewedAt, today - k)
  {
    var t := SeedView(properties, pool, today, k, p, now).viewedAt;
    assert p.hour * MS_PER_HOUR <= 23 * MS_PER_HOUR;
    assert p.minute * MS_PER_MINUTE <= 59 * MS_PER_MINUTE;
    assert DayStart(today - k) <= t <= DayEnd(today - k);
  }

  function DayViews(properties: seq<Property>, pool: seq<string>, today: Day, k: nat, dayPicks: seq<ViewPick>,
                    now: Ms): (vs: seq<ListingView>)
    requires properties != [] && |pool| == SESSION_POOL_SIZE
    requires forall j :: 0 <= j < |dayPicks| ==> PickInRange(dayPicks[j], |properties|)
    ensures |vs| == |dayPicks|
  {
    seq(|dayPicks|, j requires 0 <= j < |dayPicks| => SeedView(properties, pool, today, k, dayPicks[j], now))
  }

  /** The views pushed for the first `n` day offsets. */
  function SeedViews(properties: seq<Property>, pool: seq<string>, today: Day, n: nat, picks: seq<seq<ViewPick>>,
                     now: Ms): (r: seq<ListingView>)
    requires properties != [] && |pool| == SESSION_POOL_SIZE && DrawsInRange(picks, |properties|, n)
    ensures MIN_VIEWS_PER_DAY * n <= |r| <= MAX_VIEWS_PER_DAY * n
  {
    if n == 0 then []
    else SeedViews(properties, pool, today, n - 1, picks, now)
         + DayViews(properties, pool, today, n - 1, picks[n - 1], now)
  }

  /** Each day offset contributes 5 to 49 views, all on that day and all from
      the session pool. */
  lemma {:induction false} SeedViewsBounds(properties: seq<Property>, pool: seq<string>, today: Day, n: nat,
                                           picks: seq<seq<ViewPick>>, now: Ms)
    requires properties != [] && |pool| == SESSION_POOL_SIZE && DrawsInRange(picks, |properties|, n)
    ensures MIN_VIEWS_PER_DAY * n <= |SeedViews(properties, pool, today, n, picks, now)| <= MAX_VIEWS_PER_DAY * n
    ensures forall i :: 0 <= i < |SeedViews(properties, pool, today, n, picks, now)| ==>
              var v := SeedViews(properties, pool, today, n, picks, now)[i];
              v.sessionId in pool && today - n < DayOf(v.viewedAt) <= today
  {
    if n > 0 {
      SeedViewsBounds(properties, pool, today, n - 1, picks, now);
      var before := SeedViews(properties, pool, today, n - 1, picks, now);
      var day := DayViews(properties, pool, today, n - 1, picks[n - 1], now);
      var all := before + day;
      forall i | 0 <= i < |all|
        ensures all[i].sessionId in pool && today - n < DayOf(all[i].viewedAt) <= today
      {
        if i >= |before| {
          var p := picks[n - 1][i - |before|];
          SeedViewOnItsDay(properties, pool, today, n - 1, p, now);
          assert all[i] == SeedView(properties, pool, today, n - 1, p, now);
        } else {
          assert all[i] == before[i];
        }
      }
    }
  }

  /** The inner loop of `generateListingViews`: one view per draw of day offset `k`. */
  method PushDayViews(properties: seq<Property>, pool: seq<string>, today: Day, k: nat, dayPicks: seq<ViewPick>,
                      now: Ms) returns (vs: seq<ListingView>)
    requires properties != [] && |pool| == SESSION_POOL_SIZE
    requires forall j :: 0 <= j < |dayPicks| ==> PickInRange(dayPicks[j], |properties|)
    ensures vs == DayViews(properties, pool, today, k, dayPicks, now)
  {
    vs := [];
    for j := 0 to |dayPicks|
      invariant vs == DayViews(properties, pool, today, k, dayPicks, now)[..j]
    {
      vs := vs + [SeedView(properties, pool, today, k, dayPicks[j], now)];
    }
  }

  /** The outer loop of `generateListingViews`: the views of the first `n`
      day offsets. */
  method CollectViews(properties: seq<Property>, pool: seq<string>, today: Day, n: nat,
                      picks: seq<seq<ViewPick>>, now: Ms) returns (viewsToCreate: seq<ListingView>)
    requires properties != [] && |pool| == SESSION_POOL_SIZE && DrawsInRange(picks, |properties|, n)
    ensures viewsToCreate == SeedViews(properties, pool, today, n, picks, now)
  {
    viewsToCreate := [];
    for k := 0 to n
      invariant viewsToCreate == SeedViews(properties, pool, today, k, picks, now)
    {
      var dayViews := PushDayViews(properties, pool, today, k, picks[k], now);
      viewsToCreate := viewsToCreate + dayViews;
    }
  }

  /** `generateListingViews(prisma, properties, daysBack)`; `now` is the
      clock reading and the draws stand for `Math.random()`. */
  method GenerateListingViews(db: Db, properties: seq<Property>, daysBack: int, picks: seq<seq<ViewPick>>,
                              sessionRandom: seq<string>, now: Ms) returns (r: Result<nat, string>)
    requires db.Valid()
    requires |sessionRandom| >= SESSION_POOL_SIZE && DrawsInRange(picks, |properties|, Days(daysBack))
    modifies db
    ensures db.Valid()
    ensures Days(daysBack) > 0 && properties == [] ==>
              r == Failure(TYPE_ERROR) && db.State() == old(db.State())
    ensures !(Days(daysBack) > 0 && properties == []) ==>
              properties != [] ==>
              var pool := SessionPool(SESSION_POOL_SIZE, sessionRandom, now);
              var created := SeedViews(properties, pool, DayOf(now), Days(daysBack), picks, now);
              r == Success(|created|) &&
              db.State() == old(db.State()).(listingViews := old(db.listingViews) + created)
    ensures properties == [] && Days(daysBack) == 0 ==> r == Success(0) && db.State() == old(db.State())
    ensures r.Success? ==> MIN_VIEWS_PER_DAY * Days(daysBack) <= r.value <= MAX_VIEWS_PER_DAY * Days(daysBack)
  {
    var pool := CreateSessionPool(SESSION_POOL_SIZE, sessionRandom, now);
    var n := Days(daysBack);
    if n == 0 {
      return Success(0);
    }
    if properties == [] {
      return Failure(TYPE_ERROR);
    }
    var viewsToCreate := CollectViews(properties, pool, DayOf(now), n, picks, now);
    SeedViewsBounds(properties, pool, DayOf(now), n, picks, now);
    ghost var before := db.State();
    db.listingViews := db.listingViews + viewsToCreate;
    assert db.State() == before.(listingViews := before.listingViews + viewsToCreate);
    return Success(|viewsToCreate|);
  }

  predicate Active(r: PropertyAnalyticsRow)
  {
    r.views > 0 || r.inquiries > 0
  }

  /** The rows `generatePropertyAnalyticsForDay` returns: the counters over
      the inclusive window of each property, in order, kept when active. */
  function ActiveRows(views: seq<ListingView>, inquiries: seq<Inquiry>, ps: seq<Property>, d: Day)
    : (r: seq<PropertyAnalyticsRow>)
    ensures |r| <= |ps|
    ensures forall i :: 0 <= i < |r| ==> Active(r[i]) && r[i].date == d
  {
    if ps == [] then []
    else
      var rest := ActiveRows(views, inquiries, ps[..|ps| - 1], d);
      var row := PropertyRow(views, inquiries, ps[|ps| - 1].id, Closed, d);
      if Active(row) then rest + [row] else rest
  }

  /** At most one row per property, each for day `d`, with activity and no
      more visitors than views. */
  lemma {:induction false} ActiveRowsBounds(views: seq<ListingView>, inquiries: seq<Inquiry>, ps: seq<Property>,
                                            d: Day)
    ensures |ActiveRows(views, inquiries, ps, d)| <= |ps|
    ensures forall r :: r in ActiveRows(views, inquiries, ps, d) ==>
              Active(r) && r.date == d && r.uniqueVisitors <= r.views
  {
    if ps != [] {
      ActiveRowsBounds(views, inquiries, ps[..|ps| - 1], d);
    }
  }

  /** Each row holds the counters of one of the properties. */
  lemma {:induction false} ActiveRowsSound(views: seq<ListingView>, inquiries: seq<Inquiry>, ps: seq<Property>,
                                           d: Day)
    ensures forall r :: r in ActiveRows(views, inquiries, ps, d) ==>
              exists j :: 0 <= j < |ps| && r == PropertyRow(views, inquiries, ps[j].id, Closed, d)
  {
    if ps != [] {
      var init := ps[..|ps| - 1];
      ActiveRowsSound(views, inquiries, init, d);
      forall r | r in ActiveRows(views, inquiries, ps, d)
        ensures exists j :: 0 <= j < |ps| && r == PropertyRow(views, inquiries, ps[j].id, Closed, d)
      {
        if r in ActiveRows(views, inquiries, init, d) {
          var j :| 0 <= j < |init| && r == PropertyRow(views, inquiries, init[j].id, Closed, d);
          assert ps[j] == init[j];
        } else {
          assert r == PropertyRow(views, inquiries, ps[|ps| - 1].id, Closed, d);
        }
      }
    }
  }

  /** Every property with activity that day has its row. */
  lemma {:induction false} ActiveRowsComplete(views: seq<ListingView>, inquiries: seq<Inquiry>, ps: seq<Property>,
                                              d: Day, j: nat)
    requires j < |ps| && Active(PropertyRow(views, inquiries, ps[j].id, Closed, d))
    ensures PropertyRow(views, inquiries, ps[j].id, Closed, d) in ActiveRows(views, inquiries, ps, d)
  {
    if j < |ps| - 1 {
      var init := ps[..|ps| - 1];
      assert init[j] == ps[j];
      ActiveRowsComplete(views, inquiries, init, d, j);
    }
  }

  /** `generatePropertyAnalyticsForDay(prisma, properties, dateStr, dayStart, dayEnd)`;
      the store reads are over the two event logs `views` and `inquiries`. */
  method GeneratePropertyAnalyticsForDay(views: seq<ListingView>, inquiries: seq<Inquiry>,
                                         properties: seq<Property>, d: Day)
    returns (rows: seq<PropertyAnalyticsRow>)
    ensures rows == ActiveRows(views, inquiries, properties, d)
  {
    rows := [];
    for i := 0 to |properties|
      invariant rows == ActiveRows(views, inquiries, properties[..i], d)
    {
      var row := PropertyRow(views, inquiries, properties[i].id, Closed, d);
      assert properties[..i + 1][..i] == properties[..i];
      if row.views > 0 || row.inquiries > 0 {
        rows := rows + [row];
      }
    }
    assert properties[..|properties|] == properties;
  }

  /** The global rows of the first `n` day offsets, newest first. */
  function SeedSummaries(views: seq<ListingView>, inquiries: seq<Inquiry>, today: Day, n: nat)
    : (s: seq<AnalyticsSummaryRow>)
    ensures |s| == n
  {
    if n == 0 then []
    else SeedSummaries(views, inquiries, today, n - 1) + [SummaryRow(views, inquiries, Closed, today - (n - 1))]
  }

  lemma SeedSummariesSnoc(views: seq<ListingView>, inquiries: seq<Inquiry>, today: Day, k: nat)
    ensures SeedSummaries(views, inquiries, today, k + 1)
         == SeedSummaries(views, inquiries, today, k) + [SummaryRow(views, inquiries, Closed, today - k)]
  {
  }

  /** One global row per day offset, with that offset's counters over the
      inclusive window, on distinct dates: inserting them fails only when one
      of those dates already has a row. */
  lemma {:induction false} SeedSummariesOnePerDay(views: seq<ListingView>, inquiries: seq<Inquiry>, today: Day,
                                                  n: nat)
    ensures forall k :: 0 <= k < n ==>
              SeedSummaries(views, inquiries, today, n)[k] == SummaryRow(views, inquiries, Closed, today - k)
    ensures forall k :: 0 <= k < n ==> SeedSummaries(views, inquiries, today, n)[k].date == today - k
    ensures KeysUnique(SummaryKey, SeedSummaries(views, inquiries, today, n))
  {
    if n > 0 {
      SeedSummariesOnePerDay(views, inquiries, today, n - 1);
      var s := SeedSummaries(views, inquiries, today, n);
      assert forall k :: 0 <= k < n - 1 ==> s[k] == SeedSummaries(views, inquiries, today, n - 1)[k];
    }
  }

  /** The per-property rows of the first `n` day offsets. */
  function SeedPropertyRows(views: seq<ListingView>, inquiries: seq<Inquiry>, ps: seq<Property>, today: Day,
                            n: nat): (r: seq<PropertyAnalyticsRow>)
    ensures forall i :: 0 <= i < |r| ==> Active(r[i]) && today - n < r[i].date <= today
  {
    if n == 0 then []
    else SeedPropertyRows(views, inquiries, ps, today, n - 1) + ActiveRows(views, inquiries, ps, today - (n - 1))
  }

  lemma SeedPropertyRowsSnoc(views: seq<ListingView>, inquiries: seq<Inquiry>, ps: seq<Property>, today: Day, k: nat)
    ensures SeedPropertyRows(views, inquiries, ps, today, k + 1)
         == SeedPropertyRows(views, inquiries, ps, today, k) + ActiveRows(views, inquiries, ps, today - k)
  {
  }

  /** At most one row per property and day. */
  lemma {:induction false} SeedPropertyRowsCount(views: seq<ListingView>, inquiries: seq<Inquiry>,
                                                 ps: seq<Property>, today: Day, n: nat)
    ensures |SeedPropertyRows(views, inquiries, ps, today, n)| <= n * |ps|
  {
    if n > 0 {
      SeedPropertyRowsCount(views, inquiries, ps, today, n - 1);
      ActiveRowsBounds(views, inquiries, ps, today - (n - 1));
      assert (n - 1) * |ps| + |ps| == n * |ps|;
    }
  }

  /** Each row is for a property with activity, inside the seeded days,
      with no more visitors than views. */
  lemma {:induction false} SeedPropertyRowsBounds(views: seq<ListingView>, inquiries: seq<Inquiry>,
                                                  ps: seq<Property>, today: Day, n: nat)
    ensures forall r :: r in SeedPropertyRows(views, inquiries, ps, today, n) ==>
              Active(r) && r.uniqueVisitors <= r.views && today - n < r.date <= today
  {
    if n > 0 {
      SeedPropertyRowsBounds(views, inquiries, ps, today, n - 1);
      ActiveRowsBounds(views, inquiries, ps, today - (n - 1));
      var before := SeedPropertyRows(views, inquiries, ps, today, n - 1);
      var day := ActiveRows(views, inquiries, ps, today - (n - 1));
      assert SeedPropertyRows(views, inquiries, ps, today, n) == before + day;
      forall r | r in before + day
        ensures Active(r) && r.uniqueVisitors <= r.views && today - n < r.date <= today
      {
        if r in before {
        } else {
          assert r in day;
        }
      }
    }
  }

  /** The loop of `generateDailyAnalytics`: the rows of every day offset,
      counted before anything is written. */
  method CollectDailyRows(views: seq<ListingView>, inquiries: seq<Inquiry>, properties: seq<Property>,
                          n: nat, today: Day)
    returns (analyticsToCreate: seq<AnalyticsSummaryRow>, propertyAnalyticsToCreate: seq<PropertyAnalyticsRow>)
    ensures analyticsToCreate == SeedSummaries(views, inquiries, today, n)
    ensures propertyAnalyticsToCreate == SeedPropertyRows(views, inquiries, properties, today, n)
  {
    analyticsToCreate, propertyAnalyticsToCreate := [], [];
    for k := 0 to n
      invariant analyticsToCreate == SeedSummaries(views, inquiries, today, k)
      invariant propertyAnalyticsToCreate == SeedPropertyRows(views, inquiries, properties, today, k)
    {
      SeedSummariesSnoc(views, inquiries, today, k);
      analyticsToCreate := analyticsToCreate + [SummaryRow(views, inquiries, Closed, today - k)];
      SeedPropertyRowsSnoc(views, inquiries, properties, today, k);
      var dayRows := GeneratePropertyAnalyticsForDay(views, inquiries, properties, today - k);
      propertyAnalyticsToCreate := propertyAnalyticsToCreate + dayRows;
    }
  }

  /** `generateDailyAnalytics(prisma, properties, daysBack)`. The first
      `createMany` commits before the second runs. */
  method GenerateDailyAnalytics(db: Db, properties: seq<Property>, daysBack: int, now: Ms)
    returns (r: Result<(nat, nat), string>)
    requires db.Valid()
    modifies db
    ensures db.Valid()
    ensures db.properties == old(db.properties) && db.listingViews == old(db.listingViews)
    ensures db.inquiries == old(db.inquiries)
    ensures var s := SeedSummaries(old(db.listingViews), old(db.inquiries), DayOf(now), Days(daysBack));
            InsertMany(SummaryKey, old(db.analyticsSummary), s).None? ==>
              r == Failure(UNIQUE_VIOLATION) && db.analyticsSummary == old(db.analyticsSummary)
              && db.propertyAnalytics == old(db.propertyAnalytics)
    ensures var s := SeedSummaries(old(db.listingViews), old(db.inquiries), DayOf(now), Days(daysBack));
            var p := SeedPropertyRows(old(db.listingViews), old(db.inquiries), properties, DayOf(now), Days(daysBack));
            InsertMany(SummaryKey, old(db.analyticsSummary), s).Some? ==>
              db.analyticsSummary == old(db.analyticsSummary) + s &&
              if InsertMany(PropertyKey, old(db.propertyAnalytics), p).Some? then
                r == Success((|s|, |p|)) && db.propertyAnalytics == old(db.propertyAnalytics) + p
              else
                r == Failure(UNIQUE_VIOLATION) && db.propertyAnalytics == old(db.propertyAnalytics)
  {
    var analyticsToCreate, propertyAnalyticsToCreate := CollectDailyRows(db.listingViews, db.inquiries, properties,
                                                                          Days(daysBack), DayOf(now));
    var summaries := InsertMany(SummaryKey, db.analyticsSummary, analyticsToCreate);
    if summaries.None? {
      return Failure(UNIQUE_VIOLATION);
    }
    db.analyticsSummary := summaries.value;
    var rows := InsertMany(PropertyKey, db.propertyAnalytics, propertyAnalyticsToCreate);
    if rows.None? {
      return Failure(UNIQUE_VIOLATION);
    }
    db.propertyAnalytics := rows.value;
    return Success((|analyticsToCreate|, |propertyAnalyticsToCreate|));
  }

  /** The seeder's window counts a view at 23:59:59.999Z, the routes' does not. */
  lemma SeedCountsLastMillisecond(views: seq<ListingView>, inquiries: seq<Inquiry>, v: ListingView, d: Day)
    requires v.viewedAt == DayEnd(d)
    ensures SummaryRow(views + [v], inquiries, Closed, d).totalViews
         == SummaryRow(views, inquiries, Closed, d).totalViews + 1
    ensures SummaryRow(views + [v], inquiries, HalfOpen, d).totalViews
         == SummaryRow(views, inquiries, HalfOpen, d).totalViews
  {
    HalfOpenWindow(v.viewedAt, d);
    ViewsOnAppend(views, None, Closed, d, v);
    ViewsOnAppend(views, None, HalfOpen, d, v);
  }

  /** `clearAnalyticsData(prisma)`. */
  method ClearAnalyticsData(db: Db)
    modifies db
    ensures db.Valid()
    ensures db.State() == old(db.State()).(listingViews := [], propertyAnalytics := [], analyticsSummary := [])
  {
    db.listingViews := [];
    db.propertyAnalytics := [];
    db.analyticsSummary := [];
  }

  /** The `options` argument; `None` stands for a field left undefined. */
  datatype SeedOptions = SeedOptions(daysBack: Option<int>, clearExisting: Option<bool>)

  function DaysBackOf(o: SeedOptions): int
  {
    if o.daysBack.Some? then o.daysBack.value else DEFAULT_DAYS_BACK
  }

  predicate ClearsExisting(o: SeedOptions)
  {
    o.clearExisting == Some(true)
  }

  datatype SeedOutcome = Seeded | Failed(error: string)

  /** The tables `seedAnalyticsData` starts generating on: the stored ones,
      with the three analytics tables emptied under `clearExisting`. */
  function SeedBase(t: Tables, options: SeedOptions): Tables
  {
    if ClearsExisting(options) then t.(listingViews := [], propertyAnalytics := [], analyticsSummary := [])
    else t
  }

  /** The views `generateListingViews` creates: none without properties. */
  function CreatedViews(properties: seq<Property>, sessionRandom: seq<string>, n: nat, picks: seq<seq<ViewPick>>,
                        now: Ms): seq<ListingView>
    requires |sessionRandom| >= SESSION_POOL_SIZE && DrawsInRange(picks, |properties|, n)
  {
    if properties == [] then []
    else SeedViews(properties, SessionPool(SESSION_POOL_SIZE, sessionRandom, now), DayOf(now), n, picks, now)
  }

  /** What `seedAnalyticsData` does to the tables `t`, step by step: the
      optional clear, the view generation (which throws without properties),
      then the two `createMany` calls, each of which can fail on a key clash
      after everything before it has been committed. */
  function SeedRun(t: Tables, properties: seq<Property>, options: SeedOptions, picks: seq<seq<ViewPick>>,
                   sessionRandom: seq<string>, now: Ms): (r: (SeedOutcome, Tables))
    requires |sessionRandom| >= SESSION_POOL_SIZE && DrawsInRange(picks, |properties|, Days(DaysBackOf(options)))
    ensures r.1.properties == t.properties && r.1.inquiries == t.inquiries
    ensures r.0.Seeded? ==> |r.1.analyticsSummary| == |SeedBase(t, options).analyticsSummary| + Days(DaysBackOf(options))
  {
    var base := SeedBase(t, options);
    var n := Days(DaysBackOf(options));
    if n > 0 && properties == [] then (Failed(TYPE_ERROR), base)
    else
      var views := base.listingViews + CreatedViews(properties, sessionRandom, n, picks, now);
      var summaries := InsertMany(SummaryKey, base.analyticsSummary, SeedSummaries(views, base.inquiries, DayOf(now), n));
      if summaries.None? then (Failed(UNIQUE_VIOLATION), base.(listingViews := views))
      else
        var rows := InsertMany(PropertyKey, base.propertyAnalytics,
                               SeedPropertyRows(views, base.inquiries, properties, DayOf(now), n));
        if rows.None? then (Failed(UNIQUE_VIOLATION), base.(listingViews := views, analyticsSummary := summaries.value))
        else (Seeded, base.(listingViews := views, analyticsSummary := summaries.value, propertyAnalytics := rows.value))
  }

  /** Seeding again without `clearExisting` once today's summary is stored
      fails on the `date` key, but only after the new views have been
      written: the views of the failed run stay in the log. */
  lemma ReseedWithoutClearFails(t: Tables, properties: seq<Property>, options: SeedOptions,
                                picks: seq<seq<ViewPick>>, sessionRandom: seq<string>, now: Ms, j: nat)
    requires |sessionRandom| >= SESSION_POOL_SIZE && DrawsInRange(picks, |properties|, Days(DaysBackOf(options)))
    requires !ClearsExisting(options) && properties != [] && Days(DaysBackOf(options)) > 0
    requires j < |t.analyticsSummary| && t.analyticsSummary[j].date == DayOf(now)
    ensures var r := SeedRun(t, properties, options, picks, sessionRandom, now);
            r.0 == Failed(UNIQUE_VIOLATION) &&
            r.1 == t.(listingViews := t.listingViews + CreatedViews(properties, sessionRandom, Days(DaysBackOf(options)),
                                                                    picks, now))
  {
    var n := Days(DaysBackOf(options));
    var views := t.listingViews + CreatedViews(properties, sessionRandom, n, picks, now);
    var batch := SeedSummaries(views, t.inquiries, DayOf(now), n);
    SeedSummariesOnePerDay(views, t.inquiries, DayOf(now), n);
    assert SummaryKey(batch[0]) == SummaryKey(t.analyticsSummary[j]);
    assert Find(SummaryKey, t.analyticsSummary, SummaryKey(batch[0])).Some?;
    assert InsertMany(SummaryKey, t.analyticsSummary, batch).None?;
  }

  /** `seedAnalyticsData(prisma, properties, options)`. Without
      `clearExisting: true` nothing already stored is removed: every table
      only grows. */
  method SeedAnalyticsData(db: Db, properties: seq<Property>, options: SeedOptions, picks: seq<seq<ViewPick>>,
                           sessionRandom: seq<string>, now: Ms) returns (outcome: SeedOutcome)
    requires db.Valid()
    requires |sessionRandom| >= SESSION_POOL_SIZE && DrawsInRange(picks, |properties|, Days(DaysBackOf(options)))
    modifies db
    ensures db.Valid()
    ensures db.properties == old(db.properties) && db.inquiries == old(db.inquiries)
    ensures !ClearsExisting(options) ==>
              old(db.listingViews) <= db.listingViews && old(db.analyticsSummary) <= db.analyticsSummary
              && old(db.propertyAnalytics) <= db.propertyAnalytics
    ensures ClearsExisting(options) && outcome.Seeded? ==>
              |db.analyticsSummary| == Days(DaysBackOf(options))
    ensures Days(DaysBackOf(options)) > 0 && properties == [] ==>
              outcome == Failed(TYPE_ERROR) && db.analyticsSummary == (if ClearsExisting(options) then [] else old(db.analyticsSummary))
    ensures outcome.Seeded? ==>
              var base := SeedBase(old(db.State()), options);
              var n := Days(DaysBackOf(options));
              var views := base.listingViews + CreatedViews(properties, sessionRandom, n, picks, now);
              db.State() == base.(listingViews := views,
                                  analyticsSummary := base.analyticsSummary + SeedSummaries(views, base.inquiries, DayOf(now), n),
                                  propertyAnalytics := base.propertyAnalytics
                                                       + SeedPropertyRows(views, base.inquiries, properties, DayOf(now), n))
    ensures (outcome, db.State()) == SeedRun(old(db.State()), properties, options, picks, sessionRandom, now)
  {
    if ClearsExisting(options) {
      ClearAnalyticsData(db);
    }
    ghost var base := db.State();
    assert base == SeedBase(old(db.State()), options);
    var created := GenerateListingViews(db, properties, DaysBackOf(options), picks, sessionRandom, now);
    if created.Failure? {
      return Failed(created.error);
    }
    ghost var generated := db.State();
    assert generated.listingViews
        == base.listingViews + CreatedViews(properties, sessionRandom, Days(DaysBackOf(options)), picks, now);
    var daily := GenerateDailyAnalytics(db, properties, DaysBackOf(options), now);
    if daily.Failure? {
      return Failed(daily.error);
    }
    return Seeded;
  }
}
