/** GET /api/agent/dashboard/activity (app/api/agent/dashboard/activity/route.ts):
    the agent's five newest listings, five newest inquiries and five most
    recent updates turned into activity items, sorted newest first and cut
    to ten. */
module Activity {
  import opened Wrappers
  import opened Seqs
  import opened Keyed
  import opened Strings
  import opened Types
  import opened Store
  import opened DateUtils

  const SOURCE_LIMIT := 5
  const FEED_LIMIT := 10
  const WEEK_MS := 7 * MS_PER_DAY

  datatype ActivityItem = ActivityItem(
    id: string,
    kind: ActivityType,
    description: string,
    time: string,
    timestamp: Ms,
    propertyId: string,
    propertyTitle: string)

  /** An inquiry together with the property it is about (`include: { property }`). */
  datatype InquiryWithProperty = InquiryWithProperty(inquiry: Inquiry, property: Property)

  function CreatedAt(p: Property): int { p.createdAt }
  function UpdatedAt(p: Property): int { p.updatedAt }
  function InquiryCreatedAt(x: InquiryWithProperty): int { x.inquiry.createdAt }
  function Timestamp(a: ActivityItem): int { a.timestamp }

  predicate OwnedByAgent(p: Property) { p.agentId == MOCK_AGENT_ID }

  /** The agent's listings, newest first, at most five. */
  function RecentListings(ps: seq<Property>): (r: seq<Property>)
    ensures |r| <= SOURCE_LIMIT && SortedDesc(CreatedAt, r)
  {
    Take(SortDesc(CreatedAt, Filter(OwnedByAgent, ps)), SOURCE_LIMIT)
  }

  /** `where: { property: { agentId } }`: the inquiry's property is stored
      and belongs to the agent. */
  predicate OnAgentProperty(ps: seq<Property>, q: Inquiry)
  {
    var found := Find(PropertyId, ps, q.propertyId);
    found.Some? && OwnedByAgent(found.value)
  }

  function OnAgentPropertyTest(ps: seq<Property>): Inquiry -> bool
  {
    (q: Inquiry) => OnAgentProperty(ps, q)
  }

  /** The inquiries whose property belongs to the agent, each with that
      property: position by position, exactly the inquiries the `where`
      selects, in table order. */
  function AgentInquiries(ps: seq<Property>, qs: seq<Inquiry>): (r: seq<InquiryWithProperty>)
    ensures |r| == |Filter(OnAgentPropertyTest(ps), qs)|
    ensures forall i :: 0 <= i < |r| ==>
              r[i].inquiry == Filter(OnAgentPropertyTest(ps), qs)[i] && OwnedByAgent(r[i].property) &&
              Find(PropertyId, ps, r[i].inquiry.propertyId) == Some(r[i].property)
  {
    if qs == [] then []
    else
      var rest := AgentInquiries(ps, qs[1..]);
      var found := Find(PropertyId, ps, qs[0].propertyId);
      if found.Some? && OwnedByAgent(found.value)
      then
        assert OnAgentPropertyTest(ps)(qs[0]);
        [InquiryWithProperty(qs[0], found.value)] + rest
      else
        assert !OnAgentPropertyTest(ps)(qs[0]);
        rest
  }

  /** Every inquiry on one of the agent's properties is selected. */
  lemma AgentInquiriesComplete(ps: seq<Property>, qs: seq<Inquiry>, q: Inquiry)
    requires q in qs && OnAgentProperty(ps, q)
    ensures exists i :: 0 <= i < |AgentInquiries(ps, qs)| && AgentInquiries(ps, qs)[i].inquiry == q
  {
    var f := Filter(OnAgentPropertyTest(ps), qs);
    FilterMultiset(OnAgentPropertyTest(ps), qs, q);
    assert q in multiset(f);
    var i :| 0 <= i < |f| && f[i] == q;
    assert AgentInquiries(ps, qs)[i].inquiry == q;
  }

  /** Five newest of the agent's inquiries. */
  function RecentInquiries(ps: seq<Property>, qs: seq<Inquiry>): (r: seq<InquiryWithProperty>)
    ensures |r| <= SOURCE_LIMIT && SortedDesc(InquiryCreatedAt, r)
  {
    Take(SortDesc(InquiryCreatedAt, AgentInquiries(ps, qs)), SOURCE_LIMIT)
  }

  /** Updated in the last seven days, but not created in them. */
  predicate IsRecentUpdate(now: Ms, p: Property)
  {
    OwnedByAgent(p) && p.updatedAt >= now - WEEK_MS && !(p.createdAt >= now - WEEK_MS)
  }

  function RecentUpdateTest(now: Ms): Property -> bool
  {
    (p: Property) => IsRecentUpdate(now, p)
  }

  /** The five most recently updated of those. */
  function RecentUpdates(ps: seq<Property>, now: Ms): (r: seq<Property>)
    ensures |r| <= SOURCE_LIMIT && SortedDesc(UpdatedAt, r)
  {
    Take(SortDesc(UpdatedAt, Filter(RecentUpdateTest(now), ps)), SOURCE_LIMIT)
  }

  function ListingItem(p: Property, time: string): ActivityItem
  {
    ActivityItem("listing-" + p.id, ListingActivity, p.title + " was listed", time, p.createdAt, p.id, p.title)
  }

  function InquiryItem(x: InquiryWithProperty, time: string): ActivityItem
  {
    ActivityItem("inquiry-" + x.inquiry.id, InquiryActivity, "New inquiry for " + x.property.title, time,
                 x.inquiry.createdAt, x.property.id, x.property.title)
  }

  function StatusItem(p: Property, time: string): ActivityItem
  {
    ActivityItem("status-" + p.id + "-" + IntToString(p.updatedAt), StatusChange,
                 p.title + " status changed to " + p.status, time, p.updatedAt, p.id, p.title)
  }

  /** The `time` text of an item: `formatTimeAgo` of its timestamp at the
      request's clock reading. `calendar` stands for `toLocaleDateString()`
      of a timestamp. */
  function TimeAgo(now: Ms, calendar: Ms -> string): Ms -> string
  {
    (t: Ms) => FormatTimeAgo(now, t, calendar(t))
  }

  /** The items of each source, in the order of the source list, each with
      the `time` text `timeAgo` gives its timestamp; `ListingItemAt` states
      the item at each position. */
  function ListingItems(ls: seq<Property>, timeAgo: Ms -> string): (r: seq<ActivityItem>)
    ensures |r| == |ls|
  {
    if ls == [] then []
    else
      var p := ls[|ls| - 1];
      ListingItems(ls[..|ls| - 1], timeAgo)
        + [ListingItem(p, timeAgo(p.createdAt))]
  }

  /** One `inquiry` item per inquiry, in order; `InquiryItemAt` states the
      item at each position. */
  function InquiryItems(xs: seq<InquiryWithProperty>, timeAgo: Ms -> string): (r: seq<ActivityItem>)
    ensures |r| == |xs|
  {
    if xs == [] then []
    else
      var x := xs[|xs| - 1];
      InquiryItems(xs[..|xs| - 1], timeAgo)
        + [InquiryItem(x, timeAgo(x.inquiry.createdAt))]
  }

  /** One `status` item per recently updated property, in order;
      `StatusItemAt` states the item at each position. */
  function StatusItems(us: seq<Property>, timeAgo: Ms -> string): (r: seq<ActivityItem>)
    ensures |r| == |us|
  {
    if us == [] then []
    else
      var p := us[|us| - 1];
      StatusItems(us[..|us| - 1], timeAgo)
        + [StatusItem(p, timeAgo(p.updatedAt))]
  }

  /** Every item the three loops push, before sorting. */
  function Activities(ps: seq<Property>, qs: seq<Inquiry>, now: Ms, calendar: Ms -> string): (r: seq<ActivityItem>)
    ensures |r| <= 3 * SOURCE_LIMIT
  {
    var timeAgo := TimeAgo(now, calendar);
    ListingItems(RecentListings(ps), timeAgo)
      + InquiryItems(RecentInquiries(ps, qs), timeAgo)
      + StatusItems(RecentUpdates(ps, now), timeAgo)
  }

  /** One more element adds its item at the end. */
  lemma ListingItemsSnoc(ls: seq<Property>, i: nat, timeAgo: Ms -> string)
    requires i < |ls|
    ensures ListingItems(ls[..i + 1], timeAgo) ==
              ListingItems(ls[..i], timeAgo) + [ListingItem(ls[i], timeAgo(ls[i].createdAt))]
  {
    assert ls[..i + 1][..i] == ls[..i];
  }

  /** One more element adds its item at the end. */
  lemma InquiryItemsSnoc(xs: seq<InquiryWithProperty>, i: nat, timeAgo: Ms -> string)
    requires i < |xs|
    ensures InquiryItems(xs[..i + 1], timeAgo) ==
              InquiryItems(xs[..i], timeAgo) + [InquiryItem(xs[i], timeAgo(xs[i].inquiry.createdAt))]
  {
    assert xs[..i + 1][..i] == xs[..i];
  }

  /** One more element adds its item at the end. */
  lemma StatusItemsSnoc(us: seq<Property>, i: nat, timeAgo: Ms -> string)
    requires i < |us|
    ensures StatusItems(us[..i + 1], timeAgo) ==
              StatusItems(us[..i], timeAgo) + [StatusItem(us[i], timeAgo(us[i].updatedAt))]
  {
    assert us[..i + 1][..i] == us[..i];
  }

  /** The first `forEach`: one listing item per recent listing. */
  method PushListings(activities: seq<ActivityItem>, ls: seq<Property>, timeAgo: Ms -> string)
    returns (r: seq<ActivityItem>)
    ensures r == activities + ListingItems(ls, timeAgo)
  {
    r := activities;
    for i := 0 to |ls|
      invariant r == activities + ListingItems(ls[..i], timeAgo)
    {
      var p := ls[i];
      var item := ListingItem(p, timeAgo(p.createdAt));
      ListingItemsSnoc(ls, i, timeAgo);
      r := r + [item];
    }
    assert ls[..|ls|] == ls;
  }

  /** The second `forEach`: one inquiry item per recent inquiry. */
  method PushInquiries(activities: seq<ActivityItem>, xs: seq<InquiryWithProperty>, timeAgo: Ms -> string) returns (r: seq<ActivityItem>)
    ensures r == activities + InquiryItems(xs, timeAgo)
  {
    r := activities;
    for i := 0 to |xs|
      invariant r == activities + InquiryItems(xs[..i], timeAgo)
    {
      var x := xs[i];
      var item := InquiryItem(x, timeAgo(x.inquiry.createdAt));
      InquiryItemsSnoc(xs, i, timeAgo);
      r := r + [item];
    }
    assert xs[..|xs|] == xs;
  }

  /** The third `forEach`: every update counts as a status change; the
      price-change branch is switched off by a constant and pushes nothing. */
  method PushUpdates(activities: seq<ActivityItem>, us: seq<Property>, timeAgo: Ms -> string)
    returns (r: seq<ActivityItem>)
    ensures r == activities + StatusItems(us, timeAgo)
  {
    r := activities;
    for i := 0 to |us|
      invariant r == activities + StatusItems(us[..i], timeAgo)
    {
      var p := us[i];
      var item := StatusItem(p, timeAgo(p.updatedAt));
      StatusItemsSnoc(us, i, timeAgo);
      r := r + [item];
    }
    assert us[..|us|] == us;
  }

  /** The GET handler; `now` is the one clock reading of the request. */
  method Get(db: Db, now: Ms, calendar: Ms -> string) returns (feed: seq<ActivityItem>)
    ensures feed == Take(SortDesc(Timestamp, Activities(db.properties, db.inquiries, now, calendar)), FEED_LIMIT)
  {
    var recentListings := RecentListings(db.properties);
    var recentInquiries := RecentInquiries(db.properties, db.inquiries);
    var recentUpdates := RecentUpdates(db.properties, now);
    var timeAgo := TimeAgo(now, calendar);
    var activities := PushListings([], recentListings, timeAgo);
    assert activities == ListingItems(recentListings, timeAgo);
    activities := PushInquiries(activities, recentInquiries, timeAgo);
    activities := PushUpdates(activities, recentUpdates, timeAgo);
    assert activities == Activities(db.properties, db.inquiries, now, calendar);
    var sorted := SortDesc(Timestamp, activities);
    feed := Take(sorted, FEED_LIMIT);
  }

  /** At most five items per source, so at most fifteen before the cut. */
  lemma ActivityCount(ps: seq<Property>, qs: seq<Inquiry>, now: Ms, calendar: Ms -> string)
    ensures |Activities(ps, qs, now, calendar)| <= 3 * SOURCE_LIMIT
  {
    assert |RecentListings(ps)| <= SOURCE_LIMIT;
    assert |RecentInquiries(ps, qs)| <= SOURCE_LIMIT;
    assert |RecentUpdates(ps, now)| <= SOURCE_LIMIT;
  }

  /** The cut keeps at most ten items, newest first, taken from the pushed
      ones, and no item left out is newer than one kept. */
  lemma FeedIsNewest(all: seq<ActivityItem>)
    ensures var feed := Take(SortDesc(Timestamp, all), FEED_LIMIT);
            |feed| <= FEED_LIMIT && SortedDesc(Timestamp, feed) && multiset(feed) <= multiset(all) &&
            forall x, i :: multiset(all)[x] > multiset(feed)[x] && 0 <= i < |feed| ==>
              x.timestamp <= feed[i].timestamp
  {
    TakeOfSortedIsTop(Timestamp, SortDesc(Timestamp, all), FEED_LIMIT);
  }

  /** The item at each position is the item of the source element there. */
  lemma {:induction false} ListingItemAt(ls: seq<Property>, i: nat, timeAgo: Ms -> string)
    requires i < |ls|
    ensures ListingItems(ls, timeAgo)[i] == ListingItem(ls[i], timeAgo(ls[i].createdAt))
  {
    if i < |ls| - 1 {
      ListingItemAt(ls[..|ls| - 1], i, timeAgo);
    }
  }

  lemma {:induction false} InquiryItemAt(xs: seq<InquiryWithProperty>, i: nat, timeAgo: Ms -> string)
    requires i < |xs|
    ensures InquiryItems(xs, timeAgo)[i] == InquiryItem(xs[i], timeAgo(xs[i].inquiry.createdAt))
  {
    if i < |xs| - 1 {
      InquiryItemAt(xs[..|xs| - 1], i, timeAgo);
    }
  }

  lemma {:induction false} StatusItemAt(us: seq<Property>, i: nat, timeAgo: Ms -> string)
    requires i < |us|
    ensures StatusItems(us, timeAgo)[i] == StatusItem(us[i], timeAgo(us[i].updatedAt))
  {
    if i < |us| - 1 {
      StatusItemAt(us[..|us| - 1], i, timeAgo);
    }
  }

  /** Each source list contributes items of its own kind only. */
  lemma ListingItemsKind(ls: seq<Property>, timeAgo: Ms -> string)
    ensures forall i :: 0 <= i < |ls| ==>
              var a := ListingItems(ls, timeAgo)[i];
              a.kind == ListingActivity && a.id == "listing-" + ls[i].id &&
              a.description == ls[i].title + " was listed" && a.timestamp == ls[i].createdAt
  {
    forall i | 0 <= i < |ls| ensures ListingItems(ls, timeAgo)[i] == ListingItem(ls[i], timeAgo(ls[i].createdAt)) {
      ListingItemAt(ls, i, timeAgo);
    }
  }

  lemma InquiryItemsKind(xs: seq<InquiryWithProperty>, timeAgo: Ms -> string)
    ensures forall i :: 0 <= i < |xs| ==>
              var a := InquiryItems(xs, timeAgo)[i];
              a.kind == InquiryActivity && a.id == "inquiry-" + xs[i].inquiry.id &&
              a.description == "New inquiry for " + xs[i].property.title &&
              a.timestamp == xs[i].inquiry.createdAt
  {
    forall i | 0 <= i < |xs| ensures InquiryItems(xs, timeAgo)[i] == InquiryItem(xs[i], timeAgo(xs[i].inquiry.createdAt)) {
      InquiryItemAt(xs, i, timeAgo);
    }
  }

  lemma StatusItemsKind(us: seq<Property>, timeAgo: Ms -> string)
    ensures forall i :: 0 <= i < |us| ==>
              var a := StatusItems(us, timeAgo)[i];
              a.kind == StatusChange && StartsWith(a.id, "status-" + us[i].id + "-") &&
              a.description == us[i].title + " status changed to " + us[i].status &&
              a.timestamp == us[i].updatedAt
  {
    forall i | 0 <= i < |us|
      ensures StatusItems(us, timeAgo)[i] == StatusItem(us[i], timeAgo(us[i].updatedAt))
      ensures StartsWith(StatusItem(us[i], timeAgo(us[i].updatedAt)).id, "status-" + us[i].id + "-")
    {
      StatusItemAt(us, i, timeAgo);
      StatusIdPrefix(us[i], timeAgo(us[i].updatedAt));
    }
  }

  lemma StatusIdPrefix(p: Property, time: string)
    ensures StartsWith(StatusItem(p, time).id, "status-" + p.id + "-")
  {
    var prefix := "status-" + p.id + "-";
    var id := prefix + IntToString(p.updatedAt);
    assert id[..|prefix|] == prefix;
  }

  predicate IsStatusItem(a: ActivityItem) { a.kind == StatusChange }

  /** Every recent update yields exactly one status item. */
  lemma StatusItemsMatchUpdates(ps: seq<Property>, qs: seq<Inquiry>, now: Ms, calendar: Ms -> string)
    ensures |Filter(IsStatusItem, Activities(ps, qs, now, calendar))| == |RecentUpdates(ps, now)|
  {
    var timeAgo := TimeAgo(now, calendar);
    var lis := ListingItems(RecentListings(ps), timeAgo);
    var inq := InquiryItems(RecentInquiries(ps, qs), timeAgo);
    var sts := StatusItems(RecentUpdates(ps, now), timeAgo);
    ListingItemsKind(RecentListings(ps), timeAgo);
    InquiryItemsKind(RecentInquiries(ps, qs), timeAgo);
    StatusItemsKind(RecentUpdates(ps, now), timeAgo);
    FilterNoneOrAll(IsStatusItem, lis);
    FilterNoneOrAll(IsStatusItem, inq);
    FilterNoneOrAll(IsStatusItem, sts);
    assert Filter(IsStatusItem, lis) == [] && Filter(IsStatusItem, inq) == [];
    assert Filter(IsStatusItem, sts) == sts;
    FilterConcat(IsStatusItem, lis, inq);
    FilterConcat(IsStatusItem, lis + inq, sts);
  }

  /** No price update is ever pushed: every item is of its source's kind. */
  lemma NoPriceUpdates(ps: seq<Property>, qs: seq<Inquiry>, now: Ms, calendar: Ms -> string)
    ensures forall i :: 0 <= i < |Activities(ps, qs, now, calendar)| ==>
              Activities(ps, qs, now, calendar)[i].kind != PriceUpdate
  {
    var timeAgo := TimeAgo(now, calendar);
    ListingItemsKind(RecentListings(ps), timeAgo);
    InquiryItemsKind(RecentInquiries(ps, qs), timeAgo);
    StatusItemsKind(RecentUpdates(ps, now), timeAgo);
    KindAbsent(ListingItems(RecentListings(ps), timeAgo), InquiryItems(RecentInquiries(ps, qs), timeAgo),
               StatusItems(RecentUpdates(ps, now), timeAgo), PriceUpdate);
  }

  /** A kind none of three lists holds is not in their concatenation. */
  lemma KindAbsent(a: seq<ActivityItem>, b: seq<ActivityItem>, c: seq<ActivityItem>, k: ActivityType)
    requires forall i :: 0 <= i < |a| ==> a[i].kind != k
    requires forall i :: 0 <= i < |b| ==> b[i].kind != k
    requires forall i :: 0 <= i < |c| ==> c[i].kind != k
    ensures forall i :: 0 <= i < |a + b + c| ==> (a + b + c)[i].kind != k
  {
    forall i | 0 <= i < |a + b + c| ensures (a + b + c)[i].kind != k {
      if i < |a| {
        assert (a + b + c)[i] == a[i];
      } else if i < |a| + |b| {
        assert (a + b + c)[i] == b[i - |a|];
      } else {
        assert (a + b + c)[i] == c[i - |a| - |b|];
      }
    }
  }

  /** The update list holds only the agent's properties changed within the
      week and created before it, at most five, most recently updated
      first. */
  lemma RecentUpdatesSelection(ps: seq<Property>, now: Ms)
    ensures var us := RecentUpdates(ps, now);
            |us| <= SOURCE_LIMIT && SortedDesc(UpdatedAt, us) &&
            forall i :: 0 <= i < |us| ==>
              us[i] in ps && OwnedByAgent(us[i]) && now - WEEK_MS <= us[i].updatedAt && us[i].createdAt < now - WEEK_MS
  {
    var kept := Filter(RecentUpdateTest(now), ps);
    var sorted := SortDesc(UpdatedAt, kept);
    TakeOfSortedIsTop(UpdatedAt, sorted, SOURCE_LIMIT);
    var us := RecentUpdates(ps, now);
    forall i | 0 <= i < |us|
      ensures us[i] in ps && IsRecentUpdate(now, us[i])
    {
      assert us[i] == sorted[i];
      assert sorted[i] in multiset(kept);
      var j :| 0 <= j < |kept| && kept[j] == sorted[i];
    }
  }

  /** No qualifying update left out was updated later than one kept. */
  lemma RecentUpdatesAreLatest(ps: seq<Property>, now: Ms)
    ensures var kept := Filter(RecentUpdateTest(now), ps);
            var us := RecentUpdates(ps, now);
            forall x, i :: multiset(kept)[x] > multiset(us)[x] && 0 <= i < |us| ==> x.updatedAt <= us[i].updatedAt
  {
    TakeOfSortedIsTop(UpdatedAt, SortDesc(UpdatedAt, Filter(RecentUpdateTest(now), ps)), SOURCE_LIMIT);
  }

  /** The listings are the agent's own. */
  lemma RecentListingsSelection(ps: seq<Property>)
    ensures var ls := RecentListings(ps);
            forall i :: 0 <= i < |ls| ==> ls[i] in ps && OwnedByAgent(ls[i])
  {
    var kept := Filter(OwnedByAgent, ps);
    var sorted := SortDesc(CreatedAt, kept);
    var ls := RecentListings(ps);
    forall i | 0 <= i < |ls|
      ensures ls[i] in ps && OwnedByAgent(ls[i])
    {
      assert ls[i] == sorted[i];
      assert sorted[i] in multiset(kept);
      var j :| 0 <= j < |kept| && kept[j] == sorted[i];
    }
  }

  /** No listing of the agent left out was created later than one kept. */
  lemma RecentListingsAreLatest(ps: seq<Property>)
    ensures var kept := Filter(OwnedByAgent, ps);
            var ls := RecentListings(ps);
            forall x, i :: multiset(kept)[x] > multiset(ls)[x] && 0 <= i < |ls| ==> x.createdAt <= ls[i].createdAt
  {
    TakeOfSortedIsTop(CreatedAt, SortDesc(CreatedAt, Filter(OwnedByAgent, ps)), SOURCE_LIMIT);
  }

  /** The inquiries shown are stored ones on the agent's properties, each
      with its property. */
  lemma RecentInquiriesSelection(ps: seq<Property>, qs: seq<Inquiry>)
    ensures var rs := RecentInquiries(ps, qs);
            forall i :: 0 <= i < |rs| ==>
              rs[i].inquiry in qs && OnAgentProperty(ps, rs[i].inquiry) &&
              Find(PropertyId, ps, rs[i].inquiry.propertyId) == Some(rs[i].property)
  {
    var all := AgentInquiries(ps, qs);
    var sorted := SortDesc(InquiryCreatedAt, all);
    var rs := RecentInquiries(ps, qs);
    forall i | 0 <= i < |rs|
      ensures rs[i].inquiry in qs && OnAgentProperty(ps, rs[i].inquiry) &&
              Find(PropertyId, ps, rs[i].inquiry.propertyId) == Some(rs[i].property)
    {
      assert rs[i] == sorted[i];
      assert sorted[i] in multiset(all);
      var j :| 0 <= j < |all| && all[j] == sorted[i];
      var f := Filter(OnAgentPropertyTest(ps), qs);
      assert all[j].inquiry == f[j];
      assert OnAgentPropertyTest(ps)(f[j]);
    }
  }

  /** No inquiry on the agent's properties left out is newer than one kept. */
  lemma RecentInquiriesAreLatest(ps: seq<Property>, qs: seq<Inquiry>)
    ensures var all := AgentInquiries(ps, qs);
            var rs := RecentInquiries(ps, qs);
            forall x, i :: multiset(all)[x] > multiset(rs)[x] && 0 <= i < |rs| ==>
              x.inquiry.createdAt <= rs[i].inquiry.createdAt
  {
    TakeOfSortedIsTop(InquiryCreatedAt, SortDesc(InquiryCreatedAt, AgentInquiries(ps, qs)), SOURCE_LIMIT);
  }
}
