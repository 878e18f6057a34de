/**
 * The availability search view (src/features/availability/AvailabilityPage.tsx): date and
 * party inputs, an explicitly triggered search, one button per returned slot, and the
 * hand-off of a chosen available slot to the booking-creation flow.
 */
module Availability {
  import opened Common
  import opened JsStrings
  import opened BookingApi
  import opened BookingFlow

  /** One slot of a search response. */
  datatype Slot = Slot(time: string, available: bool, maxPartySize: int, currentBookings: int)

  /** A rendered slot button: its caption and whether it is disabled. */
  datatype SlotButton = SlotButton(caption: string, disabled: bool)

  /** The slot list as rendered: one button per slot, in response order, disabled exactly when unavailable. */
  function SlotButtons(slots: seq<Slot>): (buttons: seq<SlotButton>)
    ensures |buttons| == |slots|
    ensures forall i | 0 <= i < |slots| :: buttons[i].caption == slots[i].time && (buttons[i].disabled <==> !slots[i].available)
  {
    seq(|slots|, i requires 0 <= i < |slots| => SlotButton(slots[i].time, !slots[i].available))
  }

  /** The party input's change handler: an empty input counts as 1, a numeral as its value. */
  function PartyFromInput(input: NumberText): (party: int)
    ensures input.EmptyText? ==> party == 1
    ensures input.Numeral? ==> party == input.n
  {
    match input
    case EmptyText => 1
    case Numeral(n) => n
  }

  /** The date, time and party the booking flow is opened with. */
  datatype FlowProps = FlowProps(date: string, time: string, party: int)

  class AvailabilityPage {
    const restaurant: string
    var date: string
    var party: int
    var selectedTime: Option<string>

    /** Starts on today's date (the first ten characters of the current ISO timestamp) for two people. */
    constructor (restaurant: string, nowIso: string)
      ensures this.restaurant == restaurant && date == SlicePrefix(nowIso, 10)
      ensures party == 2 && selectedTime == None && !InBookingFlow()
    {
      this.restaurant := restaurant;
      date := SlicePrefix(nowIso, 10);
      party := 2;
      selectedTime := None;
    }

    /** The booking flow replaces the search view while a non-empty time is selected. */
    predicate InBookingFlow()
      reads this
    {
      selectedTime.Some? && selectedTime.value != ""
    }

    method EditDate(text: string)
      requires !InBookingFlow()
      modifies this`date
      ensures date == text
    {
      date := text;
    }

    method EditParty(input: NumberText)
      requires !InBookingFlow()
      modifies this`party
      ensures party == PartyFromInput(input)
    {
      party := PartyFromInput(input);
    }

    /**
     * Check availability: searching happens only here, never on its own; the button is
     * disabled while a search is in flight, and a search carries the inputs of the moment.
     */
    method ClickSearch(fetching: bool) returns (req: Option<Request>)
      requires !InBookingFlow()
      ensures req.Some? <==> !fetching
      ensures req.Some? ==> req.value == SearchRequest(restaurant, date, party)
    {
      if !fetching {
        req := Some(SearchRequest(restaurant, date, party));
      } else {
        req := None;
      }
    }

    /** A click on a slot button selects its time only when the slot is available. */
    method ClickSlot(s: Slot)
      requires !InBookingFlow()
      modifies this`selectedTime
      ensures selectedTime == if s.available then Some(s.time) else old(selectedTime)
      ensures InBookingFlow() <==> s.available && s.time != ""
    {
      if s.available {
        selectedTime := Some(s.time);
      }
    }

    /** What the booking flow is given: the current date, the selected time, the current party. */
    function Props(): (props: FlowProps)
      requires InBookingFlow()
      reads this
      ensures props.date == date && Some(props.time) == selectedTime && props.party == party
    {
      FlowProps(date, selectedTime.value, party)
    }

    /** The booking flow's back handler clears the selection, returning to the search view. */
    method Back()
      modifies this`selectedTime
      ensures selectedTime == None && !InBookingFlow()
    {
      selectedTime := None;
    }
  }

  /**
   * From search to a submitted booking: a search on a fresh page asks for today and two people;
   * an available slot opens the flow for that date, the slot's time and that party, and a form
   * the browser and the schema both accept then sends exactly that booking. Back is disabled while the create call is pending; once the returned reference
   * confirms the booking, Make another booking returns to the search view.
   */
  method SelectAndSubmit(restaurant: string, nowIso: string, slot: Slot, v: FormValues, isEmail: string -> bool,
                         browserAcceptsEmail: string -> bool, bookingReference: string)
    returns (search: Option<Request>, outcome: SubmitOutcome, backWhilePending: bool, backAfterConfirm: bool)
    requires slot.available && slot.time != ""
    requires Validate(v, isEmail) == [] && !BrowserBlocks(v, browserAcceptsEmail)
    requires bookingReference != ""
    ensures search == Some(SearchRequest(restaurant, SlicePrefix(nowIso, 10), 2))
    ensures outcome.Sent?
    ensures outcome.request == CreateRequest(restaurant, CreatePayload(SlicePrefix(nowIso, 10), slot.time, 2, v))
    ensures !backWhilePending && backAfterConfirm
  {
    var page := new AvailabilityPage(restaurant, nowIso);
    search := page.ClickSearch(false);
    page.ClickSlot(slot);
    var props := page.Props();
    var flow := new BookingFlowView(restaurant, props.date, props.time, props.party);
    outcome := flow.ClickSubmit(v, isEmail, browserAcceptsEmail, false, false);
    backWhilePending := flow.ClickBack(false, true);
    flow.CreateSucceeded(bookingReference);
    backAfterConfirm := flow.ClickBack(false, false);
    if backAfterConfirm {
      page.Back();
    }
    assert !page.InBookingFlow();
  }
}
