/** GET and POST /api/inquiries (app/api/inquiries/route.ts): list every
    inquiry newest first, and submit an inquiry, which recounts today's
    analytics rows of its property. */
module InquiriesRoute {
  import opened Wrappers
  import opened Seqs
  import opened Keyed
  import opened Types
  import opened Store
  import TrackView

  /** The JSON body; `None` stands for a missing or null field. */
  datatype InquiryBody = InquiryBody(
    propertyId: Option<string>,
    name: Option<string>,
    email: Option<string>,
    phone: Option<string>,
    message: Option<string>)

  /** The four fields the handler demands; `phone` is optional. */
  predicate Complete(b: InquiryBody)
  {
    Present(b.propertyId) && Present(b.name) && Present(b.email) && Present(b.message)
  }

  /** The row `inquiry.create` writes: `phone || null`, unread, submitted and
      created at the request's clock reading, with the store-drawn `id`. */
  function NewInquiry(b: InquiryBody, id: string, now: Ms): (q: Inquiry)
    requires Complete(b)
    ensures q.propertyId == b.propertyId.value && q.name == b.name.value
    ensures q.email == b.email.value && q.message == b.message.value
    ensures q.phone.None? <==> !Present(b.phone)
    ensures q.phone.Some? ==> q.phone == b.phone
    ensures !q.isRead && q.dateSubmitted == now && q.createdAt == now && q.id == id
  {
    Inquiry(id, b.propertyId.value, b.name.value, b.email.value,
            if Present(b.phone) then b.phone else None,
            b.message.value, false, now, now)
  }

  function CreatedAt(q: Inquiry): int { q.createdAt }

  /** `updateAnalyticsForInquiry(propertyId)`: the same recount as the
      track-view route, for the UTC day of the clock reading. */
  method UpdateAnalyticsForInquiry(db: Db, pid: string, now: Ms)
    requires db.Valid()
    modifies db
    ensures db.Valid()
    ensures db.State() == Recount(old(db.State()), pid, DayOf(now))
  {
    TrackView.UpdateDailyAnalytics(db, pid, DayOf(now));
  }

  /** GET: `findMany({ orderBy: { createdAt: 'desc' } })`. */
  method Get(db: Db) returns (r: seq<Inquiry>)
    ensures SortedDesc(CreatedAt, r)
    ensures multiset(r) == multiset(db.inquiries)
  {
    r := SortDesc(CreatedAt, db.inquiries);
  }

  /** POST; `newId` is the id the store draws, `now` the request's clock reading. */
  method Post(db: Db, body: InquiryBody, newId: string, now: Ms) returns (reply: Reply<Inquiry>)
    requires db.Valid()
    modifies db
    ensures db.Valid()
    ensures !Complete(body) ==>
              reply == Error(400, "Missing required fields") && db.State() == old(db.State())
    ensures Complete(body) && Find(PropertyId, old(db.properties), body.propertyId.value).None? ==>
              reply == Error(404, "Property not found") && db.State() == old(db.State())
    ensures Complete(body) && Find(PropertyId, old(db.properties), body.propertyId.value).Some? ==>
              var q := NewInquiry(body, newId, now);
              reply == Ok(201, q) &&
              db.State() == Recount(old(db.State()).(inquiries := old(db.inquiries) + [q]),
                                    body.propertyId.value, DayOf(now))
  {
    if !Complete(body) {
      return Error(400, "Missing required fields");
    }
    var property := Find(PropertyId, db.properties, body.propertyId.value);
    if property.None? {
      return Error(404, "Property not found");
    }
    var q := NewInquiry(body, newId, now);
    db.inquiries := db.inquiries + [q];
    UpdateAnalyticsForInquiry(db, body.propertyId.value, now);
    return Ok(201, q);
  }

  /** The recount after a submission counts the new inquiry in both rows of
      its day, unless it was stamped at the day's last millisecond. */
  lemma SubmittedInquiryCount(views: seq<ListingView>, inquiries: seq<Inquiry>, b: InquiryBody,
                              id: string, now: Ms)
    requires Complete(b)
    ensures PropertyRow(views, inquiries + [NewInquiry(b, id, now)], b.propertyId.value, HalfOpen, DayOf(now)).inquiries
         == PropertyRow(views, inquiries, b.propertyId.value, HalfOpen, DayOf(now)).inquiries
            + (if now == DayEnd(DayOf(now)) then 0 else 1)
    ensures SummaryRow(views, inquiries + [NewInquiry(b, id, now)], HalfOpen, DayOf(now)).totalInquiries
         == SummaryRow(views, inquiries, HalfOpen, DayOf(now)).totalInquiries
            + (if now == DayEnd(DayOf(now)) then 0 else 1)
    ensures PropertyRow(views, inquiries + [NewInquiry(b, id, now)], b.propertyId.value, HalfOpen, DayOf(now)).views
         == PropertyRow(views, inquiries, b.propertyId.value, HalfOpen, DayOf(now)).views
  {
    var q := NewInquiry(b, id, now);
    HalfOpenWindow(now, DayOf(now));
    InquiriesOnAppend(inquiries, Some(b.propertyId.value), HalfOpen, DayOf(now), q);
    InquiriesOnAppend(inquiries, None, HalfOpen, DayOf(now), q);
  }
}
