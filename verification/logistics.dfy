/** The logistics screen: saving and deleting flights, hotels, transfers
    and activities of the selected trip, and the pending attachment list of
    the flight or hotel form. Every save and delete yields the patch handed
    to `updateTrip`, or `None` when the handler returns without calling it. */
module Logistics {
  import opened Wrappers
  import opened Model
  import Collections
  import Budget
  import App
  import Itinerary

  /** The four tabs; the `days` tab edits activities. */
  datatype Tab = Days | Flights | Hotels | Transfers

  /** Form contents. An absent text field is modelled as `""`, which is
      falsy like `undefined`; prices come through `Number(...)`. */
  datatype FlightDraft = FlightDraft(
    airline: string, flightNumber: string, departureTime: string, description: string, price: Numeric)

  datatype HotelDraft = HotelDraft(
    name: string, checkIn: string, checkOut: string, address: string,
    reservationCode: Option<string>, price: Numeric)

  datatype TransferDraft = TransferDraft(
    from: string, to: string, date: string, mode: string, price: Numeric)

  datatype ActivityDraft = ActivityDraft(
    date: string, time: Option<string>, description: string, location: Option<string>, cost: Numeric)

  datatype Drafts = Drafts(
    flight: FlightDraft, hotel: HotelDraft, transfer: TransferDraft, activity: ActivityDraft)

  /** `editingId || <random id>`: the edited item keeps its id. */
  function SaveId(editingId: Option<string>, freshId: string): (id: string)
    ensures Truthy(editingId) ==> id == editingId.value
    ensures !Truthy(editingId) ==> id == freshId
  {
    if Truthy(editingId) then editingId.value else freshId
  }

  // ---- Saving -----------------------------------------------------------

  /** The flight stored by a save. */
  function SavedFlight(d: FlightDraft, id: string, attachments: seq<Attachment>): (f: Flight)
    ensures f.id == id && f.attachments == attachments && f.price == Budget.OrZero(d.price)
    ensures f.airline == d.airline && f.flightNumber == d.flightNumber
    ensures f.departureTime == d.departureTime && f.description == d.description
  {
    Flight(id, d.airline, d.flightNumber, d.departureTime, d.description, Budget.OrZero(d.price), attachments)
  }

  /** Saving the flight form: needs an airline and a flight number. */
  function SaveFlight(trip: Trip, d: FlightDraft, editingId: Option<string>, freshId: string,
                      attachments: seq<Attachment>): (r: Option<TripPatch>)
    ensures r.None? <==> d.airline == "" || d.flightNumber == ""
    ensures r.Some? ==>
              App.Apply(trip, r) == trip.(flights := Collections.SaveAppending(
                trip.flights, FlightId, editingId, SavedFlight(d, SaveId(editingId, freshId), attachments)))
  {
    if d.airline == "" || d.flightNumber == "" then None
    else
      var f := SavedFlight(d, SaveId(editingId, freshId), attachments);
      Some(EmptyPatch.(flights := Some(Collections.SaveAppending(trip.flights, FlightId, editingId, f))))
  }

  /** The hotel stored by a save. */
  function SavedHotel(d: HotelDraft, id: string, attachments: seq<Attachment>): (h: Accommodation)
    ensures h.id == id && h.attachments == attachments && h.price == Budget.OrZero(d.price)
    ensures h.name == d.name && h.checkIn == d.checkIn && h.checkOut == d.checkOut
    ensures h.address == d.address && h.reservationCode == d.reservationCode
  {
    Accommodation(id, d.name, d.checkIn, d.checkOut, d.address, d.reservationCode,
                  Budget.OrZero(d.price), attachments)
  }

  /** Saving the hotel form: needs a name. */
  function SaveHotel(trip: Trip, d: HotelDraft, editingId: Option<string>, freshId: string,
                     attachments: seq<Attachment>): (r: Option<TripPatch>)
    ensures r.None? <==> d.name == ""
    ensures r.Some? ==>
              App.Apply(trip, r) == trip.(accommodations := Collections.SaveAppending(
                trip.accommodations, AccommodationId, editingId, SavedHotel(d, SaveId(editingId, freshId), attachments)))
  {
    if d.name == "" then None
    else
      var h := SavedHotel(d, SaveId(editingId, freshId), attachments);
      Some(EmptyPatch.(accommodations := Some(
        Collections.SaveAppending(trip.accommodations, AccommodationId, editingId, h))))
  }

  /** The transfer stored by a save (transfers carry no attachments). */
  function SavedTransfer(d: TransferDraft, id: string): (t: Transfer)
    ensures t.id == id && t.price == Budget.OrZero(d.price)
    ensures t.from == d.from && t.to == d.to && t.date == d.date && t.mode == d.mode
  {
    Transfer(id, d.from, d.to, d.date, d.mode, Budget.OrZero(d.price))
  }

  /** Saving the transfer form: needs both ends. */
  function SaveTransfer(trip: Trip, d: TransferDraft, editingId: Option<string>, freshId: string): (r: Option<TripPatch>)
    ensures r.None? <==> d.from == "" || d.to == ""
    ensures r.Some? ==>
              App.Apply(trip, r) == trip.(transfers := Collections.SaveAppending(
                trip.transfers, TransferId, editingId, SavedTransfer(d, SaveId(editingId, freshId))))
  {
    if d.from == "" || d.to == "" then None
    else
      var t := SavedTransfer(d, SaveId(editingId, freshId));
      Some(EmptyPatch.(transfers := Some(Collections.SaveAppending(trip.transfers, TransferId, editingId, t))))
  }

  /** The activity stored by a save: never marked completed, even when an
      edited activity was. */
  function SavedActivity(d: ActivityDraft, id: string): (a: Activity)
    ensures a.id == id && !a.completed && a.cost == Budget.OrZero(d.cost)
    ensures a.date == d.date && a.time == d.time && a.description == d.description && a.location == d.location
  {
    Activity(id, d.date, d.time, d.description, d.location, Budget.OrZero(d.cost), false)
  }

  /** Saving the activity form: needs a description and a date. */
  function SaveActivity(trip: Trip, d: ActivityDraft, editingId: Option<string>, freshId: string): (r: Option<TripPatch>)
    ensures r.None? <==> d.description == "" || d.date == ""
    ensures r.Some? ==>
              App.Apply(trip, r) == trip.(activities := Collections.SaveAppending(
                trip.activities, ActivityId, editingId, SavedActivity(d, SaveId(editingId, freshId))))
  {
    if d.description == "" || d.date == "" then None
    else
      var a := SavedActivity(d, SaveId(editingId, freshId));
      Some(EmptyPatch.(activities := Some(Collections.SaveAppending(trip.activities, ActivityId, editingId, a))))
  }

  /** `handleSave`: the tab on screen decides which form is saved, and only
      that tab's collection can change. */
  function HandleSave(trip: Trip, tab: Tab, drafts: Drafts, editingId: Option<string>, freshId: string,
                      attachments: seq<Attachment>): (r: Option<TripPatch>)
    ensures tab != Flights ==> App.Apply(trip, r).flights == trip.flights
    ensures tab != Hotels ==> App.Apply(trip, r).accommodations == trip.accommodations
    ensures tab != Transfers ==> App.Apply(trip, r).transfers == trip.transfers
    ensures tab != Days ==> App.Apply(trip, r).activities == trip.activities
    ensures App.Apply(trip, r).expenses == trip.expenses && App.Apply(trip, r).destinations == trip.destinations
    ensures App.Apply(trip, r).(flights := trip.flights, accommodations := trip.accommodations,
                                transfers := trip.transfers, activities := trip.activities) == trip
  {
    match tab
    case Flights => SaveFlight(trip, drafts.flight, editingId, freshId, attachments)
    case Hotels => SaveHotel(trip, drafts.hotel, editingId, freshId, attachments)
    case Transfers => SaveTransfer(trip, drafts.transfer, editingId, freshId)
    case Days => SaveActivity(trip, drafts.activity, editingId, freshId)
  }

  /** A newly added activity is listed under its own day. */
  lemma NewActivityListedOnItsDay(trip: Trip, d: ActivityDraft, freshId: string)
    requires d.description != "" && d.date != ""
    ensures var acts := App.Apply(trip, SaveActivity(trip, d, None, freshId)).activities;
            SavedActivity(d, freshId) in Itinerary.DayActivities(acts, d.date)
  {
    var acts := App.Apply(trip, SaveActivity(trip, d, None, freshId)).activities;
    assert acts[|acts| - 1] == SavedActivity(d, freshId);
  }

  // ---- Deleting ---------------------------------------------------------

  /** `confirmDelete`: with a pending id and tab, remove every item with
      that id from that tab's collection; otherwise do nothing. */
  function ConfirmDelete(trip: Trip, pendingId: Option<string>, pendingTab: Option<Tab>): (r: Option<TripPatch>)
    ensures r.None? <==> !Truthy(pendingId) || pendingTab.None?
    ensures r.Some? && pendingTab == Some(Flights) ==>
              App.Apply(trip, r) == trip.(flights := Collections.RemoveById(trip.flights, FlightId, pendingId.value))
    ensures r.Some? && pendingTab == Some(Hotels) ==>
              App.Apply(trip, r) == trip.(accommodations :=
                Collections.RemoveById(trip.accommodations, AccommodationId, pendingId.value))
    ensures r.Some? && pendingTab == Some(Transfers) ==>
              App.Apply(trip, r) == trip.(transfers := Collections.RemoveById(trip.transfers, TransferId, pendingId.value))
    ensures r.Some? && pendingTab == Some(Days) ==>
              App.Apply(trip, r) == trip.(activities := Collections.RemoveById(trip.activities, ActivityId, pendingId.value))
  {
    if !Truthy(pendingId) || pendingTab.None? then None
    else
      var id := pendingId.value;
      match pendingTab.value
      case Flights => Some(EmptyPatch.(flights := Some(Collections.RemoveById(trip.flights, FlightId, id))))
      case Hotels => Some(EmptyPatch.(accommodations := Some(
                       Collections.RemoveById(trip.accommodations, AccommodationId, id))))
      case Transfers => Some(EmptyPatch.(transfers := Some(Collections.RemoveById(trip.transfers, TransferId, id))))
      case Days => Some(EmptyPatch.(activities := Some(Collections.RemoveById(trip.activities, ActivityId, id))))
  }

  // ---- Attachments ------------------------------------------------------

  /** Largest accepted file, in bytes. */
  const MaxAttachmentBytes: nat := 500000

  datatype Upload = TooLarge | Accepted(attachments: seq<Attachment>)

  /** `handleFileUpload` with the file already read: a file over the limit
      is refused before reading and the pending list is kept; otherwise
      a non-empty read result is appended under `freshId`. */
  function UploadAttachment(pending: seq<Attachment>, size: nat, name: string, mimeType: string,
                            data: string, freshId: string): (r: Upload)
    ensures r.TooLarge? <==> size > MaxAttachmentBytes
    ensures r.Accepted? && data == "" ==> r.attachments == pending
    ensures r.Accepted? && data != "" ==>
              |r.attachments| == |pending| + 1 && r.attachments[..|pending|] == pending
              && r.attachments[|pending|] == Attachment(freshId, name, mimeType, data)
  {
    if size > MaxAttachmentBytes then TooLarge
    else if data == "" then Accepted(pending)
    else Accepted(pending + [Attachment(freshId, name, mimeType, data)])
  }

  /** `removeAttachment`: drop the pending attachments with that id. */
  function RemoveAttachment(pending: seq<Attachment>, id: string): (r: seq<Attachment>)
    ensures forall i :: 0 <= i < |r| ==> r[i].id != id && r[i] in pending
    ensures forall i :: 0 <= i < |pending| && pending[i].id != id ==> pending[i] in r
    ensures |r| == |pending| - Collections.CountKey(pending, AttachmentId, id)
    ensures r == Collections.RemoveById(pending, AttachmentId, id)
  {
    Collections.RemoveById(pending, AttachmentId, id)
  }

  /** Removing an attachment just uploaded, under an id no pending
      attachment carries, gives back the pending list. */
  lemma RemoveUploadedAttachment(pending: seq<Attachment>, size: nat, name: string, mimeType: string,
                                 data: string, freshId: string)
    requires size <= MaxAttachmentBytes && data != ""
    requires forall i :: 0 <= i < |pending| ==> pending[i].id != freshId
    ensures RemoveAttachment(UploadAttachment(pending, size, name, mimeType, data, freshId).attachments, freshId)
         == pending
  {
    var added := [Attachment(freshId, name, mimeType, data)];
    Collections.RemoveByIdConcat(pending, added, AttachmentId, freshId);
    Collections.RemoveAbsentId(pending, AttachmentId, freshId);
    assert Collections.RemoveById(added, AttachmentId, freshId) == [];
  }
}
