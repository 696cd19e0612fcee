/** The client-side inquiry list of hooks/useInquiries.ts. The provider in
    providers/InquiriesProvider.tsx holds the same three pieces of state and
    updates them with the same code, so one class models both: the loaded
    inquiries, the loading flag and the last error, changed by a fetch and
    by the read/unread toggles. The network replies are parameters. */
module InquiryState {
  import opened Wrappers
  import opened Seqs
  import opened Types

  /** What `fetch('/api/inquiries')` gives: a rejected promise with its
      message, or a response with its `ok` flag and parsed body. */
  datatype FetchOutcome = FetchRejected(message: string) | FetchAnswered(ok: bool, data: seq<Inquiry>)

  /** What the PATCH to `/api/inquiries/<id>/read` gives. */
  datatype PatchOutcome = PatchRejected(message: string) | PatchAnswered(ok: bool)

  const FETCH_FAILED := "Failed to fetch inquiries"
  const MARK_READ_FAILED := "Failed to mark inquiry as read"
  const MARK_UNREAD_FAILED := "Failed to mark inquiry as unread"

  /** `prev.map(inquiry => inquiry.id === id ? { ...inquiry, isRead: value } : inquiry)`. */
  function SetRead(qs: seq<Inquiry>, id: string, value: bool): (r: seq<Inquiry>)
    ensures |r| == |qs|
    ensures forall i :: 0 <= i < |qs| ==> r[i] == if qs[i].id == id then qs[i].(isRead := value) else qs[i]
  {
    if qs == [] then []
    else [if qs[0].id == id then qs[0].(isRead := value) else qs[0]] + SetRead(qs[1..], id, value)
  }

  predicate IsUnread(q: Inquiry) { !q.isRead }

  /** `inquiries.filter(inquiry => !inquiry.isRead).length`. */
  function UnreadCount(qs: seq<Inquiry>): (n: nat)
    ensures n <= |qs|
  {
    |Filter(IsUnread, qs)|
  }

  /** The count of unread inquiries, by a separate walk over the list. */
  function CountUnread(qs: seq<Inquiry>): nat
  {
    if qs == [] then 0 else (if qs[0].isRead then 0 else 1) + CountUnread(qs[1..])
  }

  lemma {:induction false} UnreadCountIsCount(qs: seq<Inquiry>)
    ensures UnreadCount(qs) == CountUnread(qs)
  {
    if qs != [] {
      UnreadCountIsCount(qs[1..]);
    }
  }

  /** Setting the flag twice is setting it once. */
  lemma SetReadIdempotent(qs: seq<Inquiry>, id: string, value: bool)
    ensures SetRead(SetRead(qs, id, value), id, value) == SetRead(qs, id, value)
  {
  }

  /** The later of two updates of the same id wins: marking unread undoes
      marking read and the other way round. */
  lemma SetReadLastWins(qs: seq<Inquiry>, id: string, first: bool, second: bool)
    ensures SetRead(SetRead(qs, id, first), id, second) == SetRead(qs, id, second)
  {
  }

  /** An id no inquiry has changes nothing. */
  lemma SetReadUnknownId(qs: seq<Inquiry>, id: string, value: bool)
    requires forall i :: 0 <= i < |qs| ==> qs[i].id != id
    ensures SetRead(qs, id, value) == qs
  {
  }

  /** Marking read never raises the unread count, and marking unread never
      lowers it. */
  lemma {:induction false} SetReadCount(qs: seq<Inquiry>, id: string)
    ensures CountUnread(SetRead(qs, id, true)) <= CountUnread(qs)
    ensures CountUnread(SetRead(qs, id, false)) >= CountUnread(qs)
  {
    if qs != [] {
      SetReadCount(qs[1..], id);
      assert SetRead(qs, id, true)[1..] == SetRead(qs[1..], id, true);
      assert SetRead(qs, id, false)[1..] == SetRead(qs[1..], id, false);
    }
  }

  /** The state of the hook (and of the provider). */
  class InquiryList {
    var inquiries: seq<Inquiry>
    var isLoading: bool
    var error: Option<string>

    /** The initial state, before the mount effect's fetch. */
    constructor ()
      ensures inquiries == [] && isLoading && error == None
    {
      inquiries := [];
      isLoading := true;
      error := None;
    }

    /** `fetchInquiries`: the list is replaced only by an ok response; a
        failure keeps it and records the message; loading ends either way. */
    method FetchInquiries(outcome: FetchOutcome)
      modifies this
      ensures !isLoading
      ensures outcome.FetchAnswered? && outcome.ok ==> inquiries == outcome.data && error == None
      ensures outcome.FetchAnswered? && !outcome.ok ==>
                inquiries == old(inquiries) && error == Some(FETCH_FAILED)
      ensures outcome.FetchRejected? ==> inquiries == old(inquiries) && error == Some(outcome.message)
    {
      isLoading := true;
      error := None;
      match outcome {
        case FetchRejected(message) =>
          error := Some(message);
        case FetchAnswered(ok, data) =>
          if !ok {
            error := Some(FETCH_FAILED);
          } else {
            inquiries := data;
          }
      }
      isLoading := false;
    }

    /** `markAsRead`: an ok reply marks the inquiries with that id read; a
        failure leaves the list and records the message. The loading flag
        and, on success, the error are untouched. */
    method MarkAsRead(inquiryId: string, outcome: PatchOutcome)
      modifies this
      ensures isLoading == old(isLoading)
      ensures outcome == PatchAnswered(true) ==>
                inquiries == SetRead(old(inquiries), inquiryId, true) && error == old(error)
      ensures outcome == PatchAnswered(false) ==> inquiries == old(inquiries) && error == Some(MARK_READ_FAILED)
      ensures outcome.PatchRejected? ==> inquiries == old(inquiries) && error == Some(outcome.message)
    {
      match outcome
      case PatchRejected(message) =>
        error := Some(message);
      case PatchAnswered(ok) =>
        if !ok {
          error := Some(MARK_READ_FAILED);
        } else {
          inquiries := SetRead(inquiries, inquiryId, true);
        }
    }

    /** `markAsUnread`, the same with the flag cleared. */
    method MarkAsUnread(inquiryId: string, outcome: PatchOutcome)
      modifies this
      ensures isLoading == old(isLoading)
      ensures outcome == PatchAnswered(true) ==>
                inquiries == SetRead(old(inquiries), inquiryId, false) && error == old(error)
      ensures outcome == PatchAnswered(false) ==> inquiries == old(inquiries) && error == Some(MARK_UNREAD_FAILED)
      ensures outcome.PatchRejected? ==> inquiries == old(inquiries) && error == Some(outcome.message)
    {
      match outcome
      case PatchRejected(message) =>
        error := Some(message);
      case PatchAnswered(ok) =>
        if !ok {
          error := Some(MARK_UNREAD_FAILED);
        } else {
          inquiries := SetRead(inquiries, inquiryId, false);
        }
    }

    /** `unreadInquiriesCount`. */
    function UnreadInquiriesCount(): (n: nat)
      reads this
      ensures n == CountUnread(inquiries) && n <= |inquiries|
    {
      UnreadCountIsCount(inquiries);
      UnreadCount(inquiries)
    }
  }
}
