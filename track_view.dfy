/** POST /api/analytics/track-view (app/api/analytics/track-view/route.ts):
    validate, derive the client address, drop a second view of the same
    property by the same session on the same UTC day, append the view and
    recount the day. */
module TrackView {
  import opened Wrappers
  import opened Seqs
  import opened Keyed
  import opened Types
  import opened Store
  import opened Strings

  /** The JSON body; `None` stands for a missing or null field. */
  datatype TrackBody = TrackBody(propertyId: Option<string>, sessionId: Option<string>)

  /** The request headers the handler reads; `None` when a header is absent. */
  datatype Headers = Headers(
    userAgent: Option<string>,
    forwardedFor: Option<string>,
    realIp: Option<string>,
    referer: Option<string>)

  /** `s.split(',')[0]`: everything before the first comma. */
  function FirstField(s: string): (r: string)
    ensures StartsWith(s, r)
    ensures forall i :: 0 <= i < |r| ==> r[i] != ','
    ensures |r| < |s| ==> s[|r|] == ','
  {
    if s == [] || s[0] == ',' then [] else [s[0]] + FirstField(s[1..])
  }

  /** `header || ''`. */
  function OrEmpty(header: Option<string>): string
  {
    if header.Some? then header.value else ""
  }

  /** `forwarded?.split(',')[0] || realIp || 'unknown'`. */
  function ClientIp(h: Headers): (ip: string)
    ensures ip != ""
    ensures h.forwardedFor.Some? && FirstField(h.forwardedFor.value) != "" ==>
              ip == FirstField(h.forwardedFor.value)
    ensures !(h.forwardedFor.Some? && FirstField(h.forwardedFor.value) != "") ==>
              ip == if Present(h.realIp) then h.realIp.value else "unknown"
  {
    if h.forwardedFor.Some? && FirstField(h.forwardedFor.value) != "" then FirstField(h.forwardedFor.value)
    else if Present(h.realIp) then h.realIp.value
    else "unknown"
  }

  /** An address taken from `x-forwarded-for` is one hop: it never holds a comma. */
  lemma ForwardedAddressIsOneHop(h: Headers)
    requires h.forwardedFor.Some? && FirstField(h.forwardedFor.value) != ""
    ensures forall i :: 0 <= i < |ClientIp(h)| ==> ClientIp(h)[i] != ','
    ensures StartsWith(h.forwardedFor.value, ClientIp(h))
  {
  }

  /** The row `listingView.create` writes; `viewedAt` is the database's `now()`. */
  function NewView(pid: string, sid: string, h: Headers, now: Ms): (v: ListingView)
    ensures v.propertyId == pid && v.sessionId == sid && v.viewedAt == now
    ensures v.ipAddress == ClientIp(h) && v.ipAddress != ""
    ensures h.userAgent.None? ==> v.userAgent == ""
    ensures h.referer.None? ==> v.referrer == ""
  {
    ListingView(pid, sid, OrEmpty(h.userAgent), ClientIp(h), OrEmpty(h.referer), now)
  }

  /** `findFirst` finds a view of `pid` by `sid` inside day `d`'s window. */
  predicate AlreadyViewed(views: seq<ListingView>, pid: string, sid: string, d: Day)
  {
    exists i :: 0 <= i < |views| && SameSession(pid, sid, d, views[i])
  }

  /** Storing more views never undoes a duplicate, and a stored batch makes
      the day a duplicate exactly when one of its views is a same-session
      view inside the day's window. */
  lemma {:induction false} AlreadyViewedOnAppend(views: seq<ListingView>, more: seq<ListingView>,
                                                 pid: string, sid: string, d: Day)
    ensures AlreadyViewed(views + more, pid, sid, d) <==>
              AlreadyViewed(views, pid, sid, d) || AlreadyViewed(more, pid, sid, d)
  {
    var all := views + more;
    if AlreadyViewed(all, pid, sid, d) {
      var i :| 0 <= i < |all| && SameSession(pid, sid, d, all[i]);
      if i < |views| {
        assert views[i] == all[i];
      } else {
        assert more[i - |views|] == all[i];
      }
    }
    if AlreadyViewed(views, pid, sid, d) {
      var i :| 0 <= i < |views| && SameSession(pid, sid, d, views[i]);
      assert all[i] == views[i];
    }
    if AlreadyViewed(more, pid, sid, d) {
      var i :| 0 <= i < |more| && SameSession(pid, sid, d, more[i]);
      assert all[|views| + i] == more[i];
    }
  }

  predicate SameSession(pid: string, sid: string, d: Day, v: ListingView)
  {
    v.propertyId == pid && v.sessionId == sid && InWindow(HalfOpen, v.viewedAt, d)
  }

  /** `updateDailyAnalytics(propertyId, date)`. */
  method UpdateDailyAnalytics(db: Db, pid: string, d: Day)
    requires db.Valid()
    modifies db
    ensures db.Valid()
    ensures db.State() == Recount(old(db.State()), pid, d)
  {
    RecountKeepsWellFormed(db.State(), pid, d);
    var row := PropertyRow(db.listingViews, db.inquiries, pid, HalfOpen, d);
    db.propertyAnalytics := Upsert(PropertyKey, db.propertyAnalytics, row);
    var summary := SummaryRow(db.listingViews, db.inquiries, HalfOpen, d);
    db.analyticsSummary := Upsert(SummaryKey, db.analyticsSummary, summary);
  }

  /** The POST handler; `now` is the clock reading of the request. */
  method Post(db: Db, body: TrackBody, headers: Headers, now: Ms) returns (reply: Reply<string>)
    requires db.Valid()
    modifies db
    ensures db.Valid()
    ensures !Present(body.propertyId) || !Present(body.sessionId) ==>
              reply == Error(400, "Missing propertyId or sessionId") && db.State() == old(db.State())
    ensures Present(body.propertyId) && Present(body.sessionId) &&
            AlreadyViewed(old(db.listingViews), body.propertyId.value, body.sessionId.value, DayOf(now)) ==>
              reply == Ok(200, "View already tracked today") && db.State() == old(db.State())
    ensures Present(body.propertyId) && Present(body.sessionId) &&
            !AlreadyViewed(old(db.listingViews), body.propertyId.value, body.sessionId.value, DayOf(now)) ==>
              var v := NewView(body.propertyId.value, body.sessionId.value, headers, now);
              reply == Ok(200, "View tracked successfully") &&
              db.State() == Recount(old(db.State()).(listingViews := old(db.listingViews) + [v]),
                                    body.propertyId.value, DayOf(now))
  {
    if !Present(body.propertyId) || !Present(body.sessionId) {
      return Error(400, "Missing propertyId or sessionId");
    }
    var pid, sid := body.propertyId.value, body.sessionId.value;
    var today := DayOf(now);
    var existing := Filter((v: ListingView) => SameSession(pid, sid, today, v), db.listingViews);
    if existing != [] {
      var i :| 0 <= i < |db.listingViews| && db.listingViews[i] == existing[0];
      assert SameSession(pid, sid, today, db.listingViews[i]);
      return Ok(200, "View already tracked today");
    }
    assert !AlreadyViewed(db.listingViews, pid, sid, today) by {
      forall i | 0 <= i < |db.listingViews| ensures !SameSession(pid, sid, today, db.listingViews[i]) {
        FilterMultiset((v: ListingView) => SameSession(pid, sid, today, v), db.listingViews, db.listingViews[i]);
      }
    }
    db.listingViews := db.listingViews + [NewView(pid, sid, headers, now)];
    UpdateDailyAnalytics(db, pid, today);
    return Ok(200, "View tracked successfully");
  }

  /** A tracked view adds one to its day's property counter, except at the
      last millisecond of the day, which the half-open window leaves out. */
  lemma TrackedViewCount(views: seq<ListingView>, inquiries: seq<Inquiry>, pid: string, sid: string,
                         h: Headers, now: Ms)
    ensures PropertyRow(views + [NewView(pid, sid, h, now)], inquiries, pid, HalfOpen, DayOf(now)).views
         == PropertyRow(views, inquiries, pid, HalfOpen, DayOf(now)).views
            + (if now == DayEnd(DayOf(now)) then 0 else 1)
    ensures SummaryRow(views + [NewView(pid, sid, h, now)], inquiries, HalfOpen, DayOf(now)).totalViews
         == SummaryRow(views, inquiries, HalfOpen, DayOf(now)).totalViews
            + (if now == DayEnd(DayOf(now)) then 0 else 1)
  {
    HalfOpenWindow(now, DayOf(now));
    ViewsOnAppend(views, Some(pid), HalfOpen, DayOf(now), NewView(pid, sid, h, now));
    ViewsOnAppend(views, None, HalfOpen, DayOf(now), NewView(pid, sid, h, now));
  }

  /** A view stamped 23:59:59.999Z is stored but counted by no day. */
  lemma LastMillisecondNotCounted(views: seq<ListingView>, inquiries: seq<Inquiry>, v: ListingView, d: Day)
    requires v.viewedAt == DayEnd(d)
    ensures forall e :: PropertyRow(views + [v], inquiries, v.propertyId, HalfOpen, e).views
                     == PropertyRow(views, inquiries, v.propertyId, HalfOpen, e).views
  {
    forall e ensures PropertyRow(views + [v], inquiries, v.propertyId, HalfOpen, e).views
                  == PropertyRow(views, inquiries, v.propertyId, HalfOpen, e).views {
      HalfOpenWindow(v.viewedAt, e);
      ViewsOnAppend(views, Some(v.propertyId), HalfOpen, e, v);
    }
  }

  /** Once a view is stored, any later request of the same session for the
      same property on the same UTC day is a duplicate (unless the stored view
      fell on the day's last millisecond). */
  lemma SecondViewSameDayIsDuplicate(views: seq<ListingView>, pid: string, sid: string, h: Headers,
                                     first: Ms, second: Ms)
    requires DayOf(first) == DayOf(second) && first != DayEnd(DayOf(first))
    ensures AlreadyViewed(views + [NewView(pid, sid, h, first)], pid, sid, DayOf(second))
  {
    HalfOpenWindow(first, DayOf(first));
    var all := views + [NewView(pid, sid, h, first)];
    assert all[|views|] == NewView(pid, sid, h, first);
  }
}
