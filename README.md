# Restaurant booking client — a Dafny model

This project models the logic inside a small React front end for a restaurant booking API:

- **Form bodies.** `form` turns a record of scalar values into the ordered name/value list that
  `URLSearchParams` percent-encodes. The booking API module builds on it: the flattened create
  body (`toFlatForm`), the search, update and cancel bodies, and the endpoint paths.
- **Manage booking.** This view looks a booking up by reference, edits its party size and
  special requests, and cancels it with a reason. Its state fields are modelled as a class, with
  one method per event handler or success callback.
- **Booking flow.** This view validates the customer's details, builds the create request from
  the chosen slot and the form, and switches to a confirmation once a reference comes back.
- **Availability.** This view searches for slots, lets only an available slot be chosen, and
  hands the date, time and party to the booking flow.

Files:

- `common.dfy`: `Option`, and the value of a number input (empty or an integer).
- `js_strings.dfy`: JavaScript's `trim`, `length` (UTF-16 code units) and `slice(0, n)`.
- `records.dfy`: plain JavaScript objects as ordered key/value sequences.
  - Property lookup and property assignment; assignment replaces an existing key in place and
    appends a new one.
- `form_client.dfy`: `String(v)` and `form`.
  - `form` is a loop method proved against the function `FormParams`.
- `booking_api.dfy`: `toFlatForm`, the per-endpoint bodies and paths, and the inline error text.
  - `toFlatForm` is a loop method proved against `FlatForm`.
- `manage_booking.dfy`: the manage view.
  - Pure updaters for the local copy of the booking.
  - The class `ManageBookingPage`.
  - A lookup-then-cancel scenario.
- `booking_flow.dfy`: the validation schema, the create payload, and the class `BookingFlowView`.
- `availability.dfy`: the class `AvailabilityPage`, and a search-to-submission scenario.

The network, React Query and react-hook-form are not modelled. A call's outcome arrives as a
method call such as `LookupSucceeded(data)`. "Pending" and "submitting" are boolean parameters.
The clock's ISO timestamp is a string parameter. Two e-mail checks apply, each an uninterpreted
predicate parameter. The Zod schema's check is `isEmail`. The browser's own `type="email"` check
is `browserAcceptsEmail`: it runs before the submit handler, and when it refuses a non-empty
address the schema never runs.

Two behaviours of the code worth knowing, both modelled as written:

- An update sends the current party size and requests whether or not they changed.
- The slot grid has one button per entry of `available_slots`, independent of `total_slots`.

## Model

| member | source | states |
|---|---|---|
| JsStrings.TrimStart | src/features/manage/ManageBookingPage.tsx:89 | the result is the suffix of the input left after a run of ECMAScript white space; it does not start with white space |
| JsStrings.TrimEnd | src/features/manage/ManageBookingPage.tsx:89 | the result is the prefix of the input left before a run of white space; it does not end with white space |
| JsStrings.TrimPosition | src/features/manage/ManageBookingPage.tsx:89 | the trimmed reference is one contiguous slice of the input, starting where the leading white space ends |
| JsStrings.TrimIsMaximalInfix | src/features/manage/ManageBookingPage.tsx:89 | `trim` removes only white space, on both sides, and leaves none at either end of the reference |
| JsStrings.TrimEmptyIffBlank | src/features/manage/ManageBookingPage.tsx:89-96 | the trimmed reference is empty exactly when the typed text is all white space, which is when Lookup stays disabled |
| JsStrings.TrimIdempotent | src/features/manage/ManageBookingPage.tsx:89 | trimming on every keystroke is stable: trimming a trimmed reference changes nothing |
| JsStrings.Utf16Length | src/features/booking/BookingFlow.tsx:10-14 | the `length` the Zod min/max rules compare is at least the character count and at most twice it |
| JsStrings.Utf16LengthOfBmpText | src/features/booking/BookingFlow.tsx:10-14 | for text inside the Basic Multilingual Plane, `length` equals the character count |
| JsStrings.SlicePrefix | src/features/availability/AvailabilityPage.tsx:10 | `slice(0, n)` is the first `min(n, length)` characters of the ISO timestamp |
| JsStrings.SlicePrefixOfBmpText | src/features/availability/AvailabilityPage.tsx:10 | on BMP text such as the timestamp, the cut keeps `min(n, length)` UTF-16 code units, as JavaScript's `slice` does |
| Records.IndexOfKey | src/api/booking.ts:58 | the first position holding a key that the record has |
| Records.Find | src/api/booking.ts:58 | a property lookup finds a value exactly when the key is one of the record's keys |
| Records.FindAt | src/api/booking.ts:58 | in a record with distinct keys, looking up the key at position `i` gives the value at `i` |
| Records.Assign | src/api/booking.ts:58 | `flat[key] = v`: the key set gains `key`; a new key is appended at the end; other entries stay where they are; distinct keys stay distinct; lookups of other keys are unchanged and `key` now finds `v` |
| Records.DistinctKeysCount | src/api/client.ts:13-15 | a record with distinct keys has as many keys as entries |
| FormClient.DigitChar | src/api/client.ts:14 | a decimal digit character denoting the given digit |
| FormClient.NatToDecimal | src/api/client.ts:14 | `String(n)` of a natural number is a non-empty digit string with no leading zero: it starts with `0` only when it is `"0"` |
| FormClient.NatToDecimalRoundTrip | src/api/client.ts:14 | reading the decimal numeral of `n` back gives `n` |
| FormClient.IntToDecimalRoundTrip | src/api/client.ts:14 | an integer sent as `String(n)`, negative ones included, parses back to the same integer |
| FormClient.StringifyAbsentText | src/api/client.ts:14 | a present non-string value never stringifies to "undefined" or "null" |
| FormClient.FormParams | src/api/client.ts:11-17 | `form` yields no more parameters than the record has entries |
| FormClient.Form | src/api/client.ts:11-17 | the forEach loop that appends each present entry builds exactly `FormParams(data)` |
| FormClient.FormParamsSnoc | src/api/client.ts:13-14 | one more entry adds one parameter at the end when its value is present, and none when it is absent |
| FormClient.FormParamsAppend | src/api/client.ts:12-16 | `form` keeps the entries' order: the parameters of a concatenation are the concatenated parameters |
| FormClient.FormParamsKeys | src/api/client.ts:13-14 | the parameter names are exactly the keys whose values are present |
| FormClient.FormParamsDistinct | src/api/client.ts:13-15 | from a record with distinct keys, the parameter names are distinct and there is one per present entry |
| FormClient.FormParamsFind | src/api/client.ts:13-14 | looking a parameter up gives `String(v)` for a present `v`, and nothing for an absent or missing key |
| FormClient.FormParamOrigin | src/api/client.ts:13-14 | every parameter comes from a present entry with the same key and is valued `String(v)` |
| FormClient.AbsentNeverSerialised | src/api/client.ts:14 | a parameter text "undefined" or "null" can only come from an entry holding that very string |
| BookingApi.BookingPaths | src/api/booking.ts:83-110 | get and update share one booking path, injective in the reference; cancel is that path plus `/Cancel` |
| BookingApi.CustomerKeyFacts | src/api/booking.ts:58 | `Customer[k]` keys are recognisable as such and distinct for distinct `k` |
| BookingApi.TopLevelKeys | src/api/booking.ts:49-55 | the five top-level keys are distinct and none of them is a `Customer[...]` key |
| BookingApi.ToFlatForm | src/api/booking.ts:48-62 | the literal plus the forEach loop over `Customer` builds exactly `FlatForm(p)` |
| BookingApi.BracketedSnoc | src/api/booking.ts:57-58 | renaming one more customer entry appends its `Customer[k]` entry |
| BookingApi.FreshCustomerKey | src/api/booking.ts:56-60 | a customer key not yet seen is not in the record built so far |
| BookingApi.AssignCustomerAppends | src/api/booking.ts:56-60 | with distinct customer keys, each assignment appends, so the loop yields the top-level entries followed by the bracketed customer entries in order, all keys distinct |
| BookingApi.FlatFormLayout | src/api/booking.ts:48-62 | the flattened body is the five top-level entries, then the customer entries in the customer record's order; its keys are distinct |
| BookingApi.FlatFormCustomerField | src/api/booking.ts:56-60 | `Customer[k]` holds the customer record's value for `k`; without `Customer` there is no `Customer[...]` key |
| BookingApi.SearchRequestBody | src/api/booking.ts:20-27 | a search posts exactly `VisitDate`, `PartySize`, `ChannelCode=ONLINE`, in that order |
| BookingApi.CancelRequestBody | src/api/booking.ts:103-110 | a cancel posts exactly `micrositeName`, `bookingReference` and `cancellationReasonId`, in that order |
| BookingApi.TopLevelParams | src/api/booking.ts:48-67 | the create body starts with the date, time, party and channel, then `SpecialRequests` only when it is defined |
| BookingApi.CreateRequestBody | src/api/booking.ts:56-69 | the create body is the top-level parameters followed by the customer parameters; names are distinct; `Customer[k]` is sent exactly when the customer record has a present value for `k`, as `String(v)` |
| BookingApi.UpdateRequestBody | src/api/booking.ts:88-101 | an update sends exactly the patch fields whose values are present, each as `String(v)` |
| BookingApi.ErrorText | src/features/manage/ManageBookingPage.tsx:104 | `detail \|\| fallback`: never empty; a non-empty server detail is shown verbatim; anything else shows the fallback |
| ManageBooking.ReasonIds | src/features/manage/ManageBookingPage.tsx:25-40 | the cancellation reason ids are exactly 1 to 5, distinct, and the default 1 is one of them |
| ManageBooking.ClampParty | src/features/manage/ManageBookingPage.tsx:161-164 | an empty input stays empty; a number is clamped into 1 to 8 and kept when already in range |
| ManageBooking.UpdatePatchBody | src/features/manage/ManageBookingPage.tsx:55-58 | the update sends `PartySize` exactly when the party is a number and `SpecialRequests` exactly when non-empty, using current values |
| ManageBooking.AfterUpdate | src/features/manage/ManageBookingPage.tsx:59-71 | after an update only the party size (when a number), the requests (even `""`) and `updated_at` change; no booking stays no booking |
| ManageBooking.AfterCancel | src/features/manage/ManageBookingPage.tsx:77-79 | after a cancel only the status changes, to `cancelled`; no booking stays no booking |
| ManageBooking.CancelledIsFinal | src/features/manage/ManageBookingPage.tsx:78-219 | once cancelled, a later update keeps the status, cancelling again changes nothing, and neither Save nor Cancel is enabled |
| ManageBooking.UpdateSentVersusRecorded | src/features/manage/ManageBookingPage.tsx:55-70 | sent and recorded values agree on every field that was sent; cleared requests are not sent but are recorded as `""` |
| ManageBooking.FailureText | src/features/manage/ManageBookingPage.tsx:101-228 | each action's error line is the non-empty server detail, else "Booking not found", "Update failed" or "Cancellation failed" |
| ManageBooking.ManageBookingPage.constructor | src/features/manage/ManageBookingPage.tsx:36-40 | empty reference, no booking, empty party and requests, reason 1, which is one of the offered ids |
| ManageBooking.ManageBookingPage.EditReference | src/features/manage/ManageBookingPage.tsx:89 | the reference becomes the trimmed input |
| ManageBooking.ManageBookingPage.ClickLookup | src/features/manage/ManageBookingPage.tsx:93-99 | a lookup GET is issued exactly when the reference is non-empty and no lookup is pending |
| ManageBooking.ManageBookingPage.LookupSucceeded | src/features/manage/ManageBookingPage.tsx:45-49 | booking, party and requests are seeded from the fetched record; missing requests become `""` |
| ManageBooking.ManageBookingPage.EditParty | src/features/manage/ManageBookingPage.tsx:161-164 | the party becomes the clamped input; the input exists only while a booking is shown |
| ManageBooking.ManageBookingPage.EditRequests | src/features/manage/ManageBookingPage.tsx:174 | the requests become the typed text; the text area exists only while a booking is shown |
| ManageBooking.ManageBookingPage.SelectReason | src/features/manage/ManageBookingPage.tsx:202-212 | the reason becomes the chosen one of the five ids; the selector exists only while a booking is shown |
| ManageBooking.ManageBookingPage.ClickSave | src/features/manage/ManageBookingPage.tsx:181-187 | a PATCH is issued exactly when a booking is shown, not cancelled and not pending, and carries the current patch |
| ManageBooking.ManageBookingPage.UpdateSucceeded | src/features/manage/ManageBookingPage.tsx:59-71 | the booking becomes `AfterUpdate` of the old one; nothing else changes |
| ManageBooking.ManageBookingPage.ClickCancel | src/features/manage/ManageBookingPage.tsx:216-222 | a cancel POST is issued exactly when a booking is shown, not cancelled and not pending, and carries the current reason, always one of the ids 1 to 5; every handler keeps the reason among those ids |
| ManageBooking.ManageBookingPage.CancelSucceeded | src/features/manage/ManageBookingPage.tsx:77-79 | the booking becomes `AfterCancel` of the old one; nothing else changes |
| ManageBooking.LookupThenCancel | src/features/manage/ManageBookingPage.tsx:43-80 | looking up and cancelling leaves a cancelled booking, equal to the fetched one except for the status, on which no action is enabled |
| BookingFlow.FormOrderComplete | src/features/booking/BookingFlow.tsx:9-15 | the form order lists each of the five schema fields exactly once |
| BookingFlow.ErrorsFor | src/features/booking/BookingFlow.tsx:9-15 | every error names a listed field that fails its rule, with that rule's message; every failing listed field is reported |
| BookingFlow.ErrorsForDistinct | src/features/booking/BookingFlow.tsx:9-15 | a list naming each field once yields at most one error per field |
| BookingFlow.Validate | src/features/booking/BookingFlow.tsx:9-15 | no errors exactly when first name and surname have length ≥ 1, the e-mail passes, the mobile has length ≥ 7 and the requests are absent or at most 300 long; a field is reported exactly when it fails, and once |
| BookingFlow.ErrorsForFormOrder | src/features/booking/BookingFlow.tsx:9-15 | over the whole form, no errors exactly when every rule holds; each failing field is reported once |
| BookingFlow.RulesAsConjunction | src/features/booking/BookingFlow.tsx:9-15 | the five per-field rules spelled out as one conjunction |
| BookingFlow.CustomerParams | src/features/booking/BookingFlow.tsx:50-55 | the customer record has four distinct keys and posts as `Customer[FirstName]`, `Customer[Surname]`, `Customer[Email]`, `Customer[Mobile]` |
| BookingFlow.CreateBodyFromForm | src/features/booking/BookingFlow.tsx:42-56 | a submission posts the slot's date and time, the party, `ONLINE`, the requests when present, then exactly the four customer fields |
| BookingFlow.CreateFailureText | src/features/booking/BookingFlow.tsx:154-159 | the error line is the non-empty server detail, else "Booking failed" |
| BookingFlow.BookingFlowView.constructor | src/features/booking/BookingFlow.tsx:27-28 | the flow starts with the given slot and party and no reference, so not confirmed |
| BookingFlow.BookingFlowView.ClickSubmit | src/features/booking/BookingFlow.tsx:99-153 | disabled while submitting or pending; otherwise a non-empty address the browser's `type="email"` check refuses blocks the submit with no schema messages; otherwise values that fail the schema are rejected with their errors, and valid ones send exactly the create request for this slot |
| BookingFlow.BookingFlowView.CreateSucceeded | src/features/booking/BookingFlow.tsx:57-60 | the returned reference is stored; the view is confirmed exactly when it is non-empty |
| BookingFlow.BookingFlowView.ClickBack | src/features/booking/BookingFlow.tsx:85-146 | Back fires from the confirmation, or from the form when not submitting and not pending |
| Availability.SlotButtons | src/features/availability/AvailabilityPage.tsx:80-92 | one button per returned slot, captioned with its time, disabled exactly when it is unavailable |
| Availability.PartyFromInput | src/features/availability/AvailabilityPage.tsx:52 | an empty party input reads as 1; a number reads as itself |
| Availability.AvailabilityPage.constructor | src/features/availability/AvailabilityPage.tsx:10-12 | today's date from the ISO timestamp's first ten characters, party 2, no slot selected |
| Availability.AvailabilityPage.EditDate | src/features/availability/AvailabilityPage.tsx:41 | the date becomes the picked text; the input exists only on the search view |
| Availability.AvailabilityPage.EditParty | src/features/availability/AvailabilityPage.tsx:52 | the party becomes the input's number, 1 for an empty input; the input exists only on the search view |
| Availability.AvailabilityPage.ClickSearch | src/features/availability/AvailabilityPage.tsx:56-62 | a search for the current date and party is posted exactly when none is in flight; the button exists only on the search view |
| Availability.AvailabilityPage.ClickSlot | src/features/availability/AvailabilityPage.tsx:87 | an available slot becomes the selection; an unavailable one changes nothing; the flow opens exactly for an available slot with a non-empty time |
| Availability.AvailabilityPage.Props | src/features/availability/AvailabilityPage.tsx:21-30 | the booking flow gets the current date, the selected time and the current party |
| Availability.AvailabilityPage.Back | src/features/availability/AvailabilityPage.tsx:28 | Back clears the selection and returns to the search view |
| Availability.SelectAndSubmit | src/features/availability/AvailabilityPage.tsx:10-31 | a search on a fresh page asks for today and party 2; choosing an available slot and submitting details both the browser and the schema accept sends the create request for today, that time and party 2; Back does not fire while that call is pending, and does once the reference confirms the booking |

## Left out

- The axios instance, its base URL and token configuration, and every HTTP call. A request is
  modelled as a value (`Request`); a response arrives as a method call or an `ApiError`.
- The React Query and react-hook-form machinery. `isPending`, `isSubmitting` and `isFetching`
  are boolean parameters. Search's `enabled: false` is modelled by searching only on
  `ClickSearch`. `retry: false` is the library's own retry policy and is not modelled.
- The React Query result cache and the search response held by the page. The page keeps no
  slot list; `SlotButtons` renders whatever slot list it is given.
- Zod's e-mail regular expression: the predicate parameter `isEmail`.
- The browser's e-mail grammar for `type="email"` inputs: the predicate parameter
  `browserAcceptsEmail`. The browser's own hint text is not modelled.
- The `.max(300)` rule's message. No text is given in the schema, so `TooLongMessage` stands
  for the library's default wording.
- Percent-encoding inside `URLSearchParams` (section 5.2 of the WHATWG URL Standard). The model
  stops at the name/value list.
- `URLSearchParams` as a fresh mutable object. Parameters are immutable sequence values here, so
  the input record is only read by construction, and aliasing is not modelled.
- JavaScript numbers other than integers: `NaN`, fractions, and `Number`/`parseInt` on
  arbitrary text. Number inputs are either empty or an integer (`NumberText`).
- PartyFromInput: does not model `parseInt` of non-numeric text yielding `NaN`, nor the
  rounding of integers beyond 2^53 to the nearest double.
- IntToDecimal: numbers are unbounded integers. JavaScript numbers are doubles: they hold
  integers exactly only up to 2^53 - 1 in magnitude, and `String` prints 10^21 and beyond in
  exponent form. Outside that range the source sends a different text from the model.
- IntToDecimalRoundTrip: holds for the source only within the safe-integer range above.
- Stringify: follows `IntToDecimal` for numbers, with the same range limit.
- ErrorText: the response's `detail` is assumed to be a string or missing. In the source a
  falsy non-string detail (`0`, `false`) also shows the fallback, and a truthy non-string
  one (an array or object) is handed to rendering as is; neither case is modelled.
- SlicePrefix: cuts characters, not UTF-16 code units. The two agree on BMP text, such as the
  ISO timestamp it is applied to.
- `Object.entries` ordering of integer-like keys. None of the keys used here are integer-like,
  so insertion order is used.
- `new Date().toISOString()`. The clock's timestamp is a string parameter.
- The clipboard write, the `copied` flag and its `setTimeout` reset.
- The JSON dump of a failed search, JSX rendering and CSS.
- Races between overlapping lookup, update and cancel responses.
- `src/App.tsx` (a two-tab switch) is not part of this model.
- The non-null assertion on the booking in the update and cancel calls. The buttons exist only
  while a booking is shown, so those methods send a request only when one is.
