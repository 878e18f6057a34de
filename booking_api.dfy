/**
 * The booking API client (src/api/booking.ts): endpoint paths, the form bodies of the five
 * calls, and the flattening of the nested customer record into `Customer[Field]` keys.
 * A call is modelled by the request it sends; responses and failures are inputs elsewhere.
 */
module BookingApi {
  import opened Common
  import opened Records
  import opened FormClient

  /** The channel code every search and booking from this client carries. */
  const ChannelOnline: string := "ONLINE"

  datatype Verb = Get | Post | Patch

  /** An outgoing call: verb, path relative to the base address, and its form body if it has one. */
  datatype Request = Request(verb: Verb, path: string, form: Option<seq<Param>>)

  /** The create-booking payload; the nested customer record is an object read entry by entry. */
  datatype CreateBookingPayload = CreateBookingPayload(
    visitDate: string,
    visitTime: string,
    partySize: int,
    channelCode: string,
    specialRequests: Option<string>,
    customer: Option<seq<Entry>>)

  function OptionalText(o: Option<string>): Value {
    match o
    case Some(s) => Str(s)
    case None => Undefined
  }

  // ---------------------------------------------------------------- paths

  const ApiRoot: string := "/api/ConsumerApi/v1/Restaurant/"

  function SearchPath(restaurant: string): string {
    ApiRoot + restaurant + "/AvailabilitySearch"
  }

  function CreatePath(restaurant: string): string {
    ApiRoot + restaurant + "/BookingWithStripeToken"
  }

  /** The path shared by get and update. */
  function BookingPath(restaurant: string, reference: string): string {
    ApiRoot + restaurant + "/Booking/" + reference
  }

  function CancelPath(restaurant: string, reference: string): string {
    ApiRoot + restaurant + "/Booking/" + reference + "/Cancel"
  }

  /**
   * Cancel addresses the booking's own path plus `/Cancel`, and for one restaurant each
   * reference has its own booking path.
   */
  lemma BookingPaths(restaurant: string, a: string, b: string)
    ensures CancelPath(restaurant, a) == BookingPath(restaurant, a) + "/Cancel"
    ensures CancelPath(restaurant, a) != BookingPath(restaurant, a)
    ensures BookingPath(restaurant, a) == BookingPath(restaurant, b) ==> a == b
  {
    var prefix := ApiRoot + restaurant + "/Booking/";
    assert BookingPath(restaurant, a) == prefix + a;
    assert BookingPath(restaurant, b) == prefix + b;
    assert (prefix + a)[|prefix|..] == a;
    assert (prefix + b)[|prefix|..] == b;
  }

  // ---------------------------------------------------------------- customer flattening

  /** The wire key of a customer field. */
  function CustomerKey(k: string): string {
    "Customer[" + k + "]"
  }

  predicate IsCustomerKey(key: string) {
    |key| >= 10 && key[..9] == "Customer[" && key[|key| - 1] == ']'
  }

  /** Bracketed keys are recognisable, and different fields get different keys. */
  lemma CustomerKeyFacts(a: string, b: string)
    ensures IsCustomerKey(CustomerKey(a))
    ensures CustomerKey(a) == CustomerKey(b) ==> a == b
  {
    var ka, kb := CustomerKey(a), CustomerKey(b);
    assert ka[..9] == "Customer[";
    assert ka[9..|ka| - 1] == a;
    assert kb[9..|kb| - 1] == b;
  }

  /** The record literal `toFlatForm` starts from, in its key order. */
  function TopLevelEntries(p: CreateBookingPayload): seq<Entry> {
    [ ("VisitDate", Str(p.visitDate)),
      ("VisitTime", Str(p.visitTime)),
      ("PartySize", Num(p.partySize)),
      ("ChannelCode", Str(p.channelCode)),
      ("SpecialRequests", OptionalText(p.specialRequests)) ]
  }

  lemma TopLevelKeys(p: CreateBookingPayload)
    ensures DistinctKeys(TopLevelEntries(p))
    ensures forall k | k in KeysOf(TopLevelEntries(p)) :: !IsCustomerKey(k)
  {
    var top := TopLevelEntries(p);
    assert "ChannelCode"[1] != "Customer["[1];
    assert "SpecialRequests"[0] != "Customer["[0];
    forall k | k in KeysOf(top) ensures !IsCustomerKey(k) {
      var i :| 0 <= i < |top| && top[i].0 == k;
      if i == 3 {
        assert k[..9][1] == 'h';
      } else if i == 4 {
        assert k[..9][0] == 'S';
      }
    }
  }

  /** The `forEach` over the customer entries: `flat[Customer[k]] = v` for each in turn. */
  function AssignCustomer(flat: seq<Entry>, entries: seq<Entry>): seq<Entry> {
    if entries == [] then flat
    else
      var (k, v) := entries[|entries| - 1];
      Assign(AssignCustomer(flat, entries[..|entries| - 1]), CustomerKey(k), v)
  }

  /** The flat record `toFlatForm` returns. */
  function FlatForm(p: CreateBookingPayload): seq<Entry> {
    match p.customer
    case Some(c) => AssignCustomer(TopLevelEntries(p), c)
    case None => TopLevelEntries(p)
  }

  /** `toFlatForm(p)`: the top-level record, then one assignment per customer entry. */
  method ToFlatForm(p: CreateBookingPayload) returns (flat: seq<Entry>)
    ensures flat == FlatForm(p)
  {
    flat := [ ("VisitDate", Str(p.visitDate)),
              ("VisitTime", Str(p.visitTime)),
              ("PartySize", Num(p.partySize)),
              ("ChannelCode", Str(p.channelCode)),
              ("SpecialRequests", OptionalText(p.specialRequests)) ];
    if p.customer.Some? {
      var entries := p.customer.value;
      for i := 0 to |entries|
        invariant flat == AssignCustomer(TopLevelEntries(p), entries[..i])
      {
        var (k, v) := entries[i];
        assert entries[..i + 1][..i] == entries[..i];
        flat := Assign(flat, CustomerKey(k), v);
      }
      assert entries[..|entries|] == entries;
    }
  }

  /** Each customer entry under its bracketed key, in the customer record's order. */
  function Bracketed(entries: seq<Entry>): seq<Entry> {
    seq(|entries|, i requires 0 <= i < |entries| => (CustomerKey(entries[i].0), entries[i].1))
  }

  lemma BracketedSnoc(init: seq<Entry>, e: Entry)
    ensures Bracketed(init + [e]) == Bracketed(init) + [(CustomerKey(e.0), e.1)]
  {
  }

  /** A customer field whose key is new to the customer record gets a key new to the flat record. */
  lemma FreshCustomerKey(top: seq<Entry>, init: seq<Entry>, k: string)
    requires forall key | key in KeysOf(top) :: !IsCustomerKey(key)
    requires k !in KeysOf(init)
    ensures CustomerKey(k) !in KeysOf(top + Bracketed(init))
  {
    var flat := top + Bracketed(init);
    CustomerKeyFacts(k, k);
    forall i | 0 <= i < |flat|
      ensures flat[i].0 != CustomerKey(k)
    {
      if i < |top| {
        assert flat[i] == top[i];
        assert top[i].0 in KeysOf(top);
      } else {
        var j := i - |top|;
        assert flat[i] == (CustomerKey(init[j].0), init[j].1);
        assert init[j].0 in KeysOf(init);
        CustomerKeyFacts(init[j].0, k);
      }
    }
  }

  lemma {:induction false} AssignCustomerAppends(top: seq<Entry>, entries: seq<Entry>)
    requires DistinctKeys(top) && DistinctKeys(entries)
    requires forall k | k in KeysOf(top) :: !IsCustomerKey(k)
    ensures AssignCustomer(top, entries) == top + Bracketed(entries)
    ensures DistinctKeys(top + Bracketed(entries))
  {
    if entries == [] {
      assert top + Bracketed(entries) == top;
    } else {
      var init := entries[..|entries| - 1];
      var e := entries[|entries| - 1];
      assert entries == init + [e];
      assert DistinctKeys(init);
      AssignCustomerAppends(top, init);
      assert e.0 !in KeysOf(init) by {
        forall j | 0 <= j < |init| ensures init[j].0 != e.0 {
          assert init[j] == entries[j];
        }
      }
      FreshCustomerKey(top, init, e.0);
      BracketedSnoc(init, e);
      assert top + Bracketed(entries) == (top + Bracketed(init)) + [(CustomerKey(e.0), e.1)];
    }
  }

  /**
   * The flattened record is the five top-level keys, in order, followed by one bracketed key
   * per customer entry in the customer record's order; all its keys are distinct.
   */
  lemma FlatFormLayout(p: CreateBookingPayload)
    requires p.customer.Some? ==> DistinctKeys(p.customer.value)
    ensures FlatForm(p) == TopLevelEntries(p) + (if p.customer.Some? then Bracketed(p.customer.value) else [])
    ensures DistinctKeys(FlatForm(p))
  {
    TopLevelKeys(p);
    if p.customer.Some? {
      AssignCustomerAppends(TopLevelEntries(p), p.customer.value);
    } else {
      assert TopLevelEntries(p) + [] == TopLevelEntries(p);
    }
  }

  /**
   * In the flattened record, `Customer[k]` holds exactly what the customer record holds under
   * `k`, and with no customer record there is no bracketed key at all.
   */
  lemma FlatFormCustomerField(p: CreateBookingPayload, k: string)
    requires p.customer.Some? ==> DistinctKeys(p.customer.value)
    ensures Find(FlatForm(p), CustomerKey(k)) == if p.customer.Some? then Find(p.customer.value, k) else None
    ensures p.customer.None? ==> forall key | key in KeysOf(FlatForm(p)) :: !IsCustomerKey(key)
  {
    FlatFormLayout(p);
    TopLevelKeys(p);
    CustomerKeyFacts(k, k);
    var flat := FlatForm(p);
    var top := TopLevelEntries(p);
    if p.customer.Some? {
      var c := p.customer.value;
      if k in KeysOf(c) {
        var j :| 0 <= j < |c| && c[j].0 == k;
        FindAt(c, j);
        assert flat[|top| + j] == (CustomerKey(k), c[j].1);
        FindAt(flat, |top| + j);
      } else {
        FreshCustomerKey(top, c, k);
      }
    } else {
      assert flat == top;
    }
  }

  // ---------------------------------------------------------------- bodies and requests

  function SearchBody(visitDate: string, partySize: int): seq<Entry> {
    [("VisitDate", Str(visitDate)), ("PartySize", Num(partySize)), ("ChannelCode", Str(ChannelOnline))]
  }

  function CancelBody(restaurant: string, reference: string, reasonId: int): seq<Entry> {
    [("micrositeName", Str(restaurant)), ("bookingReference", Str(reference)), ("cancellationReasonId", Num(reasonId))]
  }

  /** The fields `updateBooking` accepts in its partial patch. */
  const UpdateFields: set<string> := {"VisitDate", "VisitTime", "PartySize", "SpecialRequests", "IsLeaveTimeConfirmed"}

  function SearchRequest(restaurant: string, visitDate: string, partySize: int): Request {
    Request(Post, SearchPath(restaurant), Some(FormParams(SearchBody(visitDate, partySize))))
  }

  function CreateRequest(restaurant: string, payload: CreateBookingPayload): Request {
    Request(Post, CreatePath(restaurant), Some(FormParams(FlatForm(payload))))
  }

  function GetRequest(restaurant: string, reference: string): Request {
    Request(Get, BookingPath(restaurant, reference), None)
  }

  function UpdateRequest(restaurant: string, reference: string, patch: seq<Entry>): Request {
    Request(Patch, BookingPath(restaurant, reference), Some(FormParams(patch)))
  }

  function CancelRequest(restaurant: string, reference: string, reasonId: int): Request {
    Request(Post, CancelPath(restaurant, reference), Some(FormParams(CancelBody(restaurant, reference, reasonId))))
  }

  /** A search posts exactly the date, the party size and the channel `ONLINE`, in that order. */
  lemma SearchRequestBody(restaurant: string, visitDate: string, partySize: int)
    ensures SearchRequest(restaurant, visitDate, partySize).form ==
      Some([("VisitDate", visitDate), ("PartySize", IntToDecimal(partySize)), ("ChannelCode", "ONLINE")])
  {
    var e1, e2, e3 := ("VisitDate", Str(visitDate)), ("PartySize", Num(partySize)), ("ChannelCode", Str(ChannelOnline));
    FormParamsSnoc([], e1);
    FormParamsSnoc([e1], e2);
    FormParamsSnoc([e1, e2], e3);
    assert [e1] == [] + [e1] && [e1, e2] == [e1] + [e2] && [e1, e2, e3] == [e1, e2] + [e3];
    assert SearchBody(visitDate, partySize) == [e1, e2, e3];
    assert FormParams([e1, e2, e3]) == [("VisitDate", visitDate), ("PartySize", IntToDecimal(partySize)), ("ChannelCode", "ONLINE")];
  }

  /** A cancel posts exactly the restaurant, the reference and the reason id, in that order. */
  lemma CancelRequestBody(restaurant: string, reference: string, reasonId: int)
    ensures CancelRequest(restaurant, reference, reasonId).form ==
      Some([("micrositeName", restaurant), ("bookingReference", reference), ("cancellationReasonId", IntToDecimal(reasonId))])
  {
    var e1, e2, e3 := ("micrositeName", Str(restaurant)), ("bookingReference", Str(reference)), ("cancellationReasonId", Num(reasonId));
    FormParamsSnoc([], e1);
    FormParamsSnoc([e1], e2);
    FormParamsSnoc([e1, e2], e3);
    assert [e1] == [] + [e1] && [e1, e2] == [e1] + [e2] && [e1, e2, e3] == [e1, e2] + [e3];
    assert CancelBody(restaurant, reference, reasonId) == [e1, e2, e3];
    assert FormParams([e1, e2, e3]) ==
      [("micrositeName", restaurant), ("bookingReference", reference), ("cancellationReasonId", IntToDecimal(reasonId))];
  }

  /** The top-level create parameters: four always, `SpecialRequests` only when it is given. */
  lemma TopLevelParams(p: CreateBookingPayload)
    ensures FormParams(TopLevelEntries(p)) ==
      [ ("VisitDate", p.visitDate), ("VisitTime", p.visitTime), ("PartySize", IntToDecimal(p.partySize)),
        ("ChannelCode", p.channelCode) ]
      + (if p.specialRequests.Some? then [("SpecialRequests", p.specialRequests.value)] else [])
  {
    var top := TopLevelEntries(p);
    var e1, e2, e3, e4, e5 := top[0], top[1], top[2], top[3], top[4];
    FormParamsSnoc([], e1);
    FormParamsSnoc([e1], e2);
    FormParamsSnoc([e1, e2], e3);
    FormParamsSnoc([e1, e2, e3], e4);
    FormParamsSnoc([e1, e2, e3, e4], e5);
    assert [e1] == [] + [e1] && [e1, e2] == [e1] + [e2] && [e1, e2, e3] == [e1, e2] + [e3];
    assert [e1, e2, e3, e4] == [e1, e2, e3] + [e4] && top == [e1, e2, e3, e4] + [e5];
  }

  /**
   * The create body: the top-level parameters first, then the customer parameters in the
   * customer record's order; `Customer[k]` is sent exactly when the customer record holds a
   * present value under `k`, and then once, as `String(v)`.
   */
  lemma CreateRequestBody(restaurant: string, p: CreateBookingPayload, k: string)
    requires p.customer.Some? ==> DistinctKeys(p.customer.value)
    ensures CreateRequest(restaurant, p).form == Some(
      FormParams(TopLevelEntries(p)) + (if p.customer.Some? then FormParams(Bracketed(p.customer.value)) else []))
    ensures DistinctKeys(CreateRequest(restaurant, p).form.value)
    ensures Find(CreateRequest(restaurant, p).form.value, CustomerKey(k)) ==
      if p.customer.None? then None
      else match Find(p.customer.value, k)
        case Some(v) => if Absent(v) then None else Some(Stringify(v))
        case None => None
  {
    FlatFormLayout(p);
    FlatFormCustomerField(p, k);
    var extra := if p.customer.Some? then Bracketed(p.customer.value) else [];
    FormParamsAppend(TopLevelEntries(p), extra);
    if p.customer.None? {
      assert FormParams(extra) == [];
    }
    FormParamsDistinct(FlatForm(p));
    FormParamsFind(FlatForm(p), CustomerKey(k));
  }

  /** An update sends exactly the patch fields whose values are present, as `String(v)`. */
  lemma UpdateRequestBody(restaurant: string, reference: string, patch: seq<Entry>, k: string)
    requires DistinctKeys(patch)
    ensures KeysOf(UpdateRequest(restaurant, reference, patch).form.value) == PresentKeys(patch)
    ensures Find(UpdateRequest(restaurant, reference, patch).form.value, k) ==
      match Find(patch, k)
      case Some(v) => if Absent(v) then None else Some(Stringify(v))
      case None => None
  {
    FormParamsKeys(patch);
    FormParamsFind(patch, k);
  }

  // ---------------------------------------------------------------- failures

  /** A failed call: no response at all, or an error response whose body may carry `detail`. */
  datatype ApiError = NoResponse | ErrorResponse(detail: Option<string>)

  /**
   * The inline error text `error?.response?.data?.detail || fallback`: the server's detail
   * when it is a non-empty string, the view's own fallback otherwise.
   */
  function ErrorText(e: ApiError, fallback: string): (text: string)
    requires fallback != ""
    ensures text != ""
    ensures text != fallback ==> e == ErrorResponse(Some(text))
    ensures (e.ErrorResponse? && e.detail.Some? && e.detail.value != "") ==> text == e.detail.value
  {
    match e
    case ErrorResponse(Some(d)) => if d != "" then d else fallback
    case _ => fallback
  }
}
