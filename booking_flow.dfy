/**
 * The booking-creation flow (src/features/booking/BookingFlow.tsx): a validated customer form
 * for a chosen date, time and party, one create call on submit, and a confirmation showing
 * the returned reference. The email format check is a parameter: the form library's own
 * pattern is not part of this model.
 */
module BookingFlow {
  import opened Common
  import opened JsStrings
  import opened Records
  import opened FormClient
  import opened BookingApi

  /** The form's values; special requests may be missing. */
  datatype FormValues = FormValues(
    firstName: string,
    surname: string,
    email: string,
    mobile: string,
    specialRequests: Option<string>)

  datatype Field = FirstName | Surname | Email | Mobile | SpecialRequests

  /** A validation message shown under one field. */
  datatype FieldError = FieldError(field: Field, message: string)

  const MinMobileLength: nat := 7
  const MaxSpecialRequestsLength: nat := 300

  /** The form library's own message for a string over its maximum length. */
  const TooLongMessage: string := "String must contain at most 300 character(s)"

  /** The schema's rule for one field; lengths are JavaScript lengths (UTF-16 code units). */
  predicate FieldAccepted(v: FormValues, f: Field, isEmail: string -> bool) {
    match f
    case FirstName => Utf16Length(v.firstName) >= 1
    case Surname => Utf16Length(v.surname) >= 1
    case Email => isEmail(v.email)
    case Mobile => Utf16Length(v.mobile) >= MinMobileLength
    case SpecialRequests => v.specialRequests.None? || Utf16Length(v.specialRequests.value) <= MaxSpecialRequestsLength
  }

  /** The schema's fields in form order. */
  const FormOrder: seq<Field> := [FirstName, Surname, Email, Mobile, SpecialRequests]

  /** No field is listed twice. */
  predicate UniqueFields(fields: seq<Field>) {
    forall i, j | 0 <= i < j < |fields| :: fields[i] != fields[j]
  }

  /** No field reports two errors. */
  predicate OneErrorPerField(errors: seq<FieldError>) {
    forall i, j | 0 <= i < j < |errors| :: errors[i].field != errors[j].field
  }

  lemma FormOrderComplete()
    ensures forall f :: f in FormOrder
    ensures UniqueFields(FormOrder)
  {
    forall f ensures f in FormOrder {
      match f
      case FirstName => assert FormOrder[0] == f;
      case Surname => assert FormOrder[1] == f;
      case Email => assert FormOrder[2] == f;
      case Mobile => assert FormOrder[3] == f;
      case SpecialRequests => assert FormOrder[4] == f;
    }
  }

  /** The message each rule shows when it fails. */
  function Message(f: Field): string {
    match f
    case FirstName => "First name is required"
    case Surname => "Surname is required"
    case Email => "Enter a valid email"
    case Mobile => "Enter a valid phone"
    case SpecialRequests => TooLongMessage
  }

  /** The errors of the listed fields, in list order. */
  function ErrorsFor(v: FormValues, fields: seq<Field>, isEmail: string -> bool): (errors: seq<FieldError>)
    ensures forall e | e in errors :: e.field in fields && !FieldAccepted(v, e.field, isEmail) && e.message == Message(e.field)
    ensures forall f | f in fields && !FieldAccepted(v, f, isEmail) :: FieldError(f, Message(f)) in errors
  {
    if fields == [] then []
    else
      var f := fields[|fields| - 1];
      var init := fields[..|fields| - 1];
      assert forall g | g in init :: g in fields;
      assert forall g | g in fields :: g in init || g == f;
      var rest := ErrorsFor(v, init, isEmail);
      var tail := if FieldAccepted(v, f, isEmail) then [] else [FieldError(f, Message(f))];
      assert forall e | e in rest + tail :: e in rest || e in tail;
      rest + tail
  }

  /** A list naming each field once yields at most one error per field. */
  lemma {:induction false} ErrorsForDistinct(v: FormValues, fields: seq<Field>, isEmail: string -> bool)
    requires UniqueFields(fields)
    ensures OneErrorPerField(ErrorsFor(v, fields, isEmail))
  {
    if fields != [] {
      var n := |fields| - 1;
      var f := fields[n];
      var init := fields[..n];
      assert forall k | 0 <= k < n :: init[k] == fields[k];
      ErrorsForDistinct(v, init, isEmail);
      var rest := ErrorsFor(v, init, isEmail);
      assert OneErrorPerField(rest);
      var tail := if FieldAccepted(v, f, isEmail) then [] else [FieldError(f, Message(f))];
      assert f !in init;
      assert forall e | e in rest :: e.field != f;
      var errors := rest + tail;
      assert errors == ErrorsFor(v, fields, isEmail);
      forall i, j | 0 <= i < j < |errors|
        ensures errors[i].field != errors[j].field
      {
        if j >= |rest| {
          assert |tail| == 1 && j == |rest| && errors[j] == tail[0];
          assert errors[i] == rest[i] && rest[i] in rest;
        } else {
          assert errors[i] == rest[i] && errors[j] == rest[j];
        }
      }
    }
  }

  /** Runs the schema: every field that breaks its rule reports its message once, in form order. */
  function Validate(v: FormValues, isEmail: string -> bool): (errors: seq<FieldError>)
    ensures errors == [] <==>
      && v.firstName != ""
      && v.surname != ""
      && isEmail(v.email)
      && Utf16Length(v.mobile) >= 7
      && (v.specialRequests.None? || Utf16Length(v.specialRequests.value) <= 300)
    ensures forall f :: FieldError(f, Message(f)) in errors <==> !FieldAccepted(v, f, isEmail)
    ensures OneErrorPerField(errors)
  {
    ErrorsForFormOrder(v, isEmail);
    RulesAsConjunction(v, isEmail);
    ErrorsFor(v, FormOrder, isEmail)
  }

  /** Over the whole form, the error list is empty exactly when every rule holds, and names each failing field once. */
  lemma ErrorsForFormOrder(v: FormValues, isEmail: string -> bool)
    ensures var errors := ErrorsFor(v, FormOrder, isEmail);
      && (errors == [] <==> forall f :: FieldAccepted(v, f, isEmail))
      && (forall f :: FieldError(f, Message(f)) in errors <==> !FieldAccepted(v, f, isEmail))
      && OneErrorPerField(errors)
  {
    FormOrderComplete();
    var errors := ErrorsFor(v, FormOrder, isEmail);
    ErrorsForDistinct(v, FormOrder, isEmail);
    if errors != [] {
      assert errors[0] in errors;
    }
  }

  /** The five rules spelled out, with a non-empty string being one of JavaScript length at least 1. */
  lemma RulesAsConjunction(v: FormValues, isEmail: string -> bool)
    ensures (forall f :: FieldAccepted(v, f, isEmail)) <==>
      && v.firstName != ""
      && v.surname != ""
      && isEmail(v.email)
      && Utf16Length(v.mobile) >= 7
      && (v.specialRequests.None? || Utf16Length(v.specialRequests.value) <= 300)
  {
    assert FieldAccepted(v, FirstName, isEmail) <==> v.firstName != "";
    assert FieldAccepted(v, Surname, isEmail) <==> v.surname != "";
    assert FieldAccepted(v, Email, isEmail) <==> isEmail(v.email);
    assert FieldAccepted(v, Mobile, isEmail) <==> Utf16Length(v.mobile) >= 7;
    assert FieldAccepted(v, SpecialRequests, isEmail) <==>
      (v.specialRequests.None? || Utf16Length(v.specialRequests.value) <= 300);
  }

  /** The customer record the form builds: exactly four fields, in this order. */
  function CustomerRecord(v: FormValues): seq<Entry> {
    [("FirstName", Str(v.firstName)), ("Surname", Str(v.surname)), ("Email", Str(v.email)), ("Mobile", Str(v.mobile))]
  }

  /** The create payload: the chosen slot and party, channel `ONLINE`, the requests, and the customer record. */
  function CreatePayload(date: string, time: string, party: int, v: FormValues): CreateBookingPayload {
    CreateBookingPayload(date, time, party, ChannelOnline, v.specialRequests, Some(CustomerRecord(v)))
  }

  lemma CustomerParams(v: FormValues)
    ensures DistinctKeys(CustomerRecord(v))
    ensures FormParams(Bracketed(CustomerRecord(v))) ==
      [ ("Customer[FirstName]", v.firstName), ("Customer[Surname]", v.surname),
        ("Customer[Email]", v.email), ("Customer[Mobile]", v.mobile) ]
  {
    var b := Bracketed(CustomerRecord(v));
    assert |b| == 4;
    assert CustomerKey("FirstName") == "Customer[FirstName]" && CustomerKey("Surname") == "Customer[Surname]";
    assert CustomerKey("Email") == "Customer[Email]" && CustomerKey("Mobile") == "Customer[Mobile]";
    assert b[0] == ("Customer[FirstName]", Str(v.firstName));
    assert b[1] == ("Customer[Surname]", Str(v.surname));
    assert b[2] == ("Customer[Email]", Str(v.email));
    assert b[3] == ("Customer[Mobile]", Str(v.mobile));
    FormParamsSnoc([], b[0]);
    FormParamsSnoc([b[0]], b[1]);
    FormParamsSnoc([b[0], b[1]], b[2]);
    FormParamsSnoc([b[0], b[1], b[2]], b[3]);
    assert [b[0]] == [] + [b[0]] && [b[0], b[1]] == [b[0]] + [b[1]] && [b[0], b[1], b[2]] == [b[0], b[1]] + [b[2]];
    assert b == [b[0], b[1], b[2]] + [b[3]];
  }

  /**
   * The body a submission posts, in order: the slot's date and time, the party, the channel,
   * the special requests when the form has them (an empty text included), then exactly the
   * four customer fields under their bracketed keys.
   */
  lemma CreateBodyFromForm(restaurant: string, date: string, time: string, party: int, v: FormValues)
    ensures CreateRequest(restaurant, CreatePayload(date, time, party, v)).form == Some(
      [("VisitDate", date), ("VisitTime", time), ("PartySize", IntToDecimal(party)), ("ChannelCode", "ONLINE")]
      + (if v.specialRequests.Some? then [("SpecialRequests", v.specialRequests.value)] else [])
      + [ ("Customer[FirstName]", v.firstName), ("Customer[Surname]", v.surname),
          ("Customer[Email]", v.email), ("Customer[Mobile]", v.mobile) ])
  {
    var p := CreatePayload(date, time, party, v);
    CustomerParams(v);
    CreateRequestBody(restaurant, p, "FirstName");
    TopLevelParams(p);
  }

  /** What a press of Confirm booking leads to. */
  datatype SubmitOutcome =
    | Disabled                           // the button is disabled while a submission is in flight
    | Blocked                            // the browser's own e-mail check stopped the submit event
    | Rejected(errors: seq<FieldError>)  // validation failed: messages shown, nothing sent
    | Sent(request: Request)             // the one create call

  /**
   * The e-mail input has `type="email"` and the form does not opt out of browser validation:
   * a non-empty address the browser's e-mail grammar refuses stops the submit event, so the
   * schema never runs. An empty address passes, since the input is not `required`.
   */
  predicate BrowserBlocks(v: FormValues, browserAcceptsEmail: string -> bool) {
    v.email != "" && !browserAcceptsEmail(v.email)
  }

  /** Back and Confirm share one guard: neither works while submitting or while the create call is pending. */
  predicate ControlsEnabled(submitting: bool, pending: bool) {
    !submitting && !pending
  }

  /** The error text beside the form after a failed create call. */
  function CreateFailureText(e: ApiError): (text: string)
    ensures text != ""
    ensures e.ErrorResponse? && e.detail.Some? && e.detail.value != "" ==> text == e.detail.value
    ensures e.NoResponse? || e.detail.None? || e.detail.value == "" ==> text == "Booking failed"
  {
    ErrorText(e, "Booking failed")
  }

  /** The creation flow for one chosen slot. */
  class BookingFlowView {
    const restaurant: string
    const date: string
    const time: string
    const party: int
    var reference: Option<string>

    constructor (restaurant: string, date: string, time: string, party: int)
      ensures this.restaurant == restaurant && this.date == date && this.time == time && this.party == party
      ensures reference == None && !Confirmed()
    {
      this.restaurant := restaurant;
      this.date := date;
      this.time := time;
      this.party := party;
      reference := None;
    }

    /** The confirmation replaces the form once a non-empty reference has been stored. */
    predicate Confirmed()
      reads this
    {
      reference.Some? && reference.value != ""
    }

    /**
     * Confirm booking on the form: nothing while disabled; nothing but the browser's own hint
     * when it refuses the address; otherwise the schema runs, and a create request for this
     * slot is sent exactly when every field passes.
     */
    method ClickSubmit(v: FormValues, isEmail: string -> bool, browserAcceptsEmail: string -> bool,
                       submitting: bool, pending: bool) returns (outcome: SubmitOutcome)
      requires !Confirmed()
      ensures outcome.Disabled? <==> !ControlsEnabled(submitting, pending)
      ensures outcome.Blocked? <==> ControlsEnabled(submitting, pending) && BrowserBlocks(v, browserAcceptsEmail)
      ensures outcome.Sent? <==>
        ControlsEnabled(submitting, pending) && !BrowserBlocks(v, browserAcceptsEmail) && Validate(v, isEmail) == []
      ensures outcome.Rejected? ==> outcome.errors == Validate(v, isEmail) && outcome.errors != []
      ensures outcome.Sent? ==> outcome.request == CreateRequest(restaurant, CreatePayload(date, time, party, v))
    {
      if !ControlsEnabled(submitting, pending) {
        outcome := Disabled;
      } else if BrowserBlocks(v, browserAcceptsEmail) {
        outcome := Blocked;
      } else {
        var errors := Validate(v, isEmail);
        if errors == [] {
          outcome := Sent(CreateRequest(restaurant, CreatePayload(date, time, party, v)));
        } else {
          outcome := Rejected(errors);
        }
      }
    }

    /** A create response stores the returned reference. */
    method CreateSucceeded(bookingReference: string)
      modifies this`reference
      ensures reference == Some(bookingReference)
      ensures Confirmed() <==> bookingReference != ""
    {
      reference := Some(bookingReference);
    }

    /**
     * Whether a press of Back (on the form) or Make another booking (on the confirmation)
     * reaches the parent's back handler: the confirmation's button is never disabled.
     */
    method ClickBack(submitting: bool, pending: bool) returns (fired: bool)
      ensures fired <==> Confirmed() || ControlsEnabled(submitting, pending)
    {
      fired := Confirmed() || ControlsEnabled(submitting, pending);
    }
  }
}
