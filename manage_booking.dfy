/**
 * The booking-management view (src/features/manage/ManageBookingPage.tsx): look a booking up
 * by reference, edit party size and special requests, save, or cancel with a reason.
 * Network calls are modelled by the request a click sends and by the success callbacks the
 * view runs when a response arrives; pending flags are plain booleans supplied by the caller.
 */
module ManageBooking {
  import opened Common
  import opened JsStrings
  import opened Records
  import opened FormClient
  import opened BookingApi

  datatype BookingCustomer = BookingCustomer(
    id: int,
    firstName: Option<string>,
    surname: Option<string>,
    email: Option<string>,
    mobile: Option<string>)

  /** A booking as the server returns it. */
  datatype Booking = Booking(
    bookingReference: string,
    bookingId: int,
    restaurant: string,
    visitDate: string,
    visitTime: string,
    partySize: int,
    status: string,
    specialRequests: Option<string>,
    customer: Option<BookingCustomer>,
    createdAt: string,
    updatedAt: string)

  /** The one status value the view gives a meaning to. */
  const Cancelled: string := "cancelled"

  datatype CancelReason = CancelReason(id: int, caption: string)

  /** The fixed cancellation reasons the selector offers, in display order. */
  const CancelReasons: seq<CancelReason> := [
    CancelReason(1, "Customer Request"),
    CancelReason(2, "Restaurant Closure"),
    CancelReason(3, "Weather"),
    CancelReason(4, "Emergency"),
    CancelReason(5, "No Show")
  ]

  const DefaultReasonId: int := 1

  predicate IsReasonId(id: int) {
    exists i | 0 <= i < |CancelReasons| :: CancelReasons[i].id == id
  }

  /** The selectable reason ids are exactly 1 to 5, each offered once, and the default is one of them. */
  lemma ReasonIds(id: int)
    ensures IsReasonId(id) <==> 1 <= id <= 5
    ensures IsReasonId(DefaultReasonId)
    ensures forall i, j | 0 <= i < j < |CancelReasons| :: CancelReasons[i].id != CancelReasons[j].id
  {
    if 1 <= id <= 5 {
      assert CancelReasons[id - 1].id == id;
    }
    assert CancelReasons[0].id == DefaultReasonId;
  }

  /** The party-size field: a number, or `""` while the input is empty. */
  datatype PartyField = Blank | Size(n: int)

  /** The party input's change handler: empty stays empty, a number is clamped into 1..8. */
  function ClampParty(input: NumberText): (p: PartyField)
    ensures p.Blank? <==> input.EmptyText?
    ensures p.Size? ==> 1 <= p.n <= 8
    ensures input.Numeral? && 1 <= input.n <= 8 ==> p == Size(input.n)
    ensures input.Numeral? && input.n < 1 ==> p == Size(1)
    ensures input.Numeral? && input.n > 8 ==> p == Size(8)
  {
    match input
    case EmptyText => Blank
    case Numeral(n) => Size(Min(8, Max(1, n)))
  }

  /** What the update click sends: `PartySize` only for a number, `SpecialRequests` only when non-empty. */
  function UpdatePatch(party: PartyField, requests: string): seq<Entry> {
    [ ("PartySize", if party.Size? then Num(party.n) else Undefined),
      ("SpecialRequests", if requests != "" then Str(requests) else Undefined) ]
  }

  /**
   * The update body carries the current field values, whatever the seeded ones were:
   * the party size exactly when it is a number, the requests exactly when they are non-empty.
   */
  lemma UpdatePatchBody(party: PartyField, requests: string)
    ensures FormParams(UpdatePatch(party, requests)) ==
      (if party.Size? then [("PartySize", IntToDecimal(party.n))] else [])
      + (if requests != "" then [("SpecialRequests", requests)] else [])
    ensures KeysOf(UpdatePatch(party, requests)) <= UpdateFields
  {
    var patch := UpdatePatch(party, requests);
    FormParamsSnoc([], patch[0]);
    FormParamsSnoc([patch[0]], patch[1]);
    assert [patch[0]] == [] + [patch[0]] && patch == [patch[0]] + [patch[1]];
  }

  /** The local copy after a successful update: three fields change, the rest are kept. */
  function AfterUpdate(prev: Option<Booking>, party: PartyField, requests: string, now: string): (next: Option<Booking>)
    ensures next.Some? <==> prev.Some?
    ensures prev.Some? ==>
      next.value.(partySize := prev.value.partySize, specialRequests := prev.value.specialRequests,
                  updatedAt := prev.value.updatedAt) == prev.value
    ensures prev.Some? ==> next.value.partySize == (if party.Size? then party.n else prev.value.partySize)
    ensures prev.Some? ==> next.value.specialRequests == Some(requests) && next.value.updatedAt == now
  {
    match prev
    case None => None
    case Some(b) =>
      Some(b.(partySize := if party.Size? then party.n else b.partySize,
              specialRequests := Some(requests),
              updatedAt := now))
  }

  /** The local copy after a successful cancel: only the status changes. */
  function AfterCancel(prev: Option<Booking>): (next: Option<Booking>)
    ensures next.Some? <==> prev.Some?
    ensures prev.Some? ==> next.value.status == Cancelled && next.value.(status := prev.value.status) == prev.value
  {
    match prev
    case None => None
    case Some(b) => Some(b.(status := Cancelled))
  }

  /** Save and Cancel share one guard: a booking is shown, it is not cancelled, and that action is not pending. */
  predicate ActionEnabled(booking: Option<Booking>, pending: bool) {
    booking.Some? && !pending && booking.value.status != Cancelled
  }

  /**
   * Cancelled is final for the local copy: a later update keeps the status, a second cancel
   * changes nothing, and neither Save nor Cancel is enabled again, pending or not.
   */
  lemma CancelledIsFinal(prev: Option<Booking>, party: PartyField, requests: string, now: string, pending: bool)
    requires prev.Some?
    ensures AfterUpdate(AfterCancel(prev), party, requests, now).value.status == Cancelled
    ensures AfterCancel(AfterCancel(prev)) == AfterCancel(prev)
    ensures !ActionEnabled(AfterCancel(prev), pending)
    ensures !ActionEnabled(AfterUpdate(AfterCancel(prev), party, requests, now), pending)
  {
    var c := AfterCancel(prev);
    assert c.value.(status := Cancelled) == c.value;
  }

  /**
   * What an update sends and what the local copy records agree on every field that was sent,
   * and the booking keeps its reference and status. They part on cleared requests: an empty
   * requests field is not sent, yet the local copy records it as `""`.
   */
  lemma UpdateSentVersusRecorded(prev: Booking, party: PartyField, requests: string, now: string)
    ensures var next := AfterUpdate(Some(prev), party, requests, now).value;
      var body := FormParams(UpdatePatch(party, requests));
      && next.bookingReference == prev.bookingReference && next.status == prev.status
      && (Find(body, "PartySize").Some? <==> party.Size?)
      && (party.Size? ==> Find(body, "PartySize") == Some(IntToDecimal(next.partySize)))
      && (Find(body, "SpecialRequests").Some? ==> Some(Find(body, "SpecialRequests").value) == next.specialRequests)
      && (requests == "" ==> Find(body, "SpecialRequests") == None && next.specialRequests == Some(""))
  {
    var patch := UpdatePatch(party, requests);
    assert DistinctKeys(patch);
    FindAt(patch, 0);
    FindAt(patch, 1);
    FormParamsFind(patch, "PartySize");
    FormParamsFind(patch, "SpecialRequests");
  }

  /** The three calls whose failures the view reports inline. */
  datatype Action = LookupAction | UpdateAction | CancelAction

  /** Each action's own text for a failure without a usable server detail. */
  function FallbackText(a: Action): string {
    match a
    case LookupAction => "Booking not found"
    case UpdateAction => "Update failed"
    case CancelAction => "Cancellation failed"
  }

  /**
   * The inline error under an action: the server's non-empty detail verbatim, else that
   * action's fallback; never empty.
   */
  function FailureText(a: Action, e: ApiError): (text: string)
    ensures text != ""
    ensures e.ErrorResponse? && e.detail.Some? && e.detail.value != "" ==> text == e.detail.value
    ensures e.NoResponse? || e.detail.None? || e.detail.value == "" ==> text == FallbackText(a)
  {
    ErrorText(e, FallbackText(a))
  }

  /** The management view's state. */
  class ManageBookingPage {
    const restaurant: string
    var reference: string
    var booking: Option<Booking>
    var party: PartyField
    var requests: string
    var reasonId: int

    /** The reason selector only ever holds one of the offered ids. */
    ghost predicate Valid()
      reads this
    {
      IsReasonId(reasonId)
    }

    constructor (restaurant: string)
      ensures Valid()
      ensures this.restaurant == restaurant && reference == "" && booking == None
      ensures party == Blank && requests == "" && reasonId == DefaultReasonId
    {
      this.restaurant := restaurant;
      reference := "";
      booking := None;
      party := Blank;
      requests := "";
      reasonId := DefaultReasonId;
      ReasonIds(DefaultReasonId);
    }

    /** Typing in the reference box stores the trimmed text. */
    method EditReference(input: string)
      requires Valid()
      modifies this`reference
      ensures Valid() && reference == Trim(input)
    {
      reference := Trim(input);
    }

    /**
     * The Lookup button: it fires only with a non-empty reference and no lookup in flight,
     * and asks for that booking.
     */
    method ClickLookup(pending: bool) returns (req: Option<Request>)
      requires Valid()
      ensures req.Some? <==> !pending && reference != ""
      ensures req.Some? ==> req.value == GetRequest(restaurant, reference)
    {
      if !pending && reference != "" {
        req := Some(GetRequest(restaurant, reference));
      } else {
        req := None;
      }
    }

    /** A lookup response replaces the booking and seeds the editable fields from it. */
    method LookupSucceeded(data: Booking)
      requires Valid()
      modifies this`booking, this`party, this`requests
      ensures Valid()
      ensures booking == Some(data) && party == Size(data.partySize)
      ensures requests == (if data.specialRequests.Some? then data.specialRequests.value else "")
    {
      booking := Some(data);
      party := Size(data.partySize);
      requests := match data.specialRequests case Some(s) => s case None => "";
    }

    method EditParty(input: NumberText)
      requires Valid() && booking.Some?
      modifies this`party
      ensures Valid() && party == ClampParty(input)
    {
      party := ClampParty(input);
    }

    method EditRequests(text: string)
      requires Valid() && booking.Some?
      modifies this`requests
      ensures Valid() && requests == text
    {
      requests := text;
    }

    /** Choosing a reason in the selector, which offers only the fixed ids. */
    method SelectReason(id: int)
      requires Valid() && booking.Some? && IsReasonId(id)
      modifies this`reasonId
      ensures Valid() && reasonId == id
    {
      reasonId := id;
    }

    /** The Save button: when enabled it sends the current party size and requests. */
    method ClickSave(pending: bool) returns (req: Option<Request>)
      requires Valid()
      ensures req.Some? <==> ActionEnabled(booking, pending)
      ensures req.Some? ==> req.value == UpdateRequest(restaurant, booking.value.bookingReference, UpdatePatch(party, requests))
    {
      if ActionEnabled(booking, pending) {
        req := Some(UpdateRequest(restaurant, booking.value.bookingReference, UpdatePatch(party, requests)));
      } else {
        req := None;
      }
    }

    method UpdateSucceeded(now: string)
      requires Valid()
      modifies this`booking
      ensures Valid() && booking == AfterUpdate(old(booking), party, requests, now)
    {
      booking := AfterUpdate(booking, party, requests, now);
    }

    /** The Cancel button: when enabled it sends the booking's reference and the chosen reason. */
    method ClickCancel(pending: bool) returns (req: Option<Request>)
      requires Valid()
      ensures req.Some? <==> ActionEnabled(booking, pending)
      ensures req.Some? ==> req.value == CancelRequest(restaurant, booking.value.bookingReference, reasonId)
      ensures req.Some? ==> 1 <= reasonId <= 5
    {
      ReasonIds(reasonId);
      if ActionEnabled(booking, pending) {
        req := Some(CancelRequest(restaurant, booking.value.bookingReference, reasonId));
      } else {
        req := None;
      }
    }

    method CancelSucceeded()
      requires Valid()
      modifies this`booking
      ensures Valid() && booking == AfterCancel(old(booking))
    {
      booking := AfterCancel(booking);
    }
  }

  /**
   * Looking up, then cancelling with the default reason, leaves the booking cancelled with
   * Save and Cancel both disabled.
   */
  method LookupThenCancel(restaurant: string, data: Booking, reference: string) returns (page: ManageBookingPage)
    requires Trim(reference) != "" && data.status != Cancelled
    ensures page.booking.Some? && page.booking.value.status == Cancelled
    ensures page.booking.value.(status := data.status) == data
    ensures !ActionEnabled(page.booking, false)
  {
    page := new ManageBookingPage(restaurant);
    page.EditReference(reference);
    var lookup := page.ClickLookup(false);
    assert lookup == Some(GetRequest(restaurant, Trim(reference)));
    page.LookupSucceeded(data);
    var cancel := page.ClickCancel(false);
    assert cancel.Some? && cancel.value == CancelRequest(restaurant, data.bookingReference, 1);
    page.CancelSucceeded();
    var save := page.ClickSave(false);
    assert save.None?;
  }
}
