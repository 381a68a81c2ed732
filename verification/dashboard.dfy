/** The dashboard: the edit form of the trip's own fields (a draft copy of
    the trip, with destinations added and removed on the draft) and the
    save that writes the whole draft back. The budget figures it shows are
    `Budget.TotalSpent`, `Budget.RemainingBudget` and `Budget.Progress`. */
module Dashboard {
  import opened Wrappers
  import opened Model
  import Collections
  import App

  /** `addDestination`: a blank name leaves the draft as it is; otherwise
      one destination with the name as typed (not trimmed) goes last. */
  function AddDestination(draft: Trip, newDest: string, freshId: string): (r: Trip)
    ensures Blank(newDest) ==> r == draft
    ensures !Blank(newDest) ==>
              && r == draft.(destinations := r.destinations)
              && |r.destinations| == |draft.destinations| + 1
              && r.destinations[..|draft.destinations|] == draft.destinations
              && r.destinations[|draft.destinations|] == Destination(freshId, newDest)
  {
    if Blank(newDest) then draft
    else draft.(destinations := draft.destinations + [Destination(freshId, newDest)])
  }

  /** `removeDestination`: drop the draft's destinations with that id. */
  function RemoveDestination(draft: Trip, id: string): (r: Trip)
    ensures r == draft.(destinations := r.destinations)
    ensures forall i :: 0 <= i < |r.destinations| ==> r.destinations[i].id != id
    ensures forall i :: 0 <= i < |draft.destinations| && draft.destinations[i].id != id ==>
              draft.destinations[i] in r.destinations
    ensures |r.destinations| == |draft.destinations| - Collections.CountKey(draft.destinations, DestinationId, id)
    ensures r.destinations == Collections.RemoveById(draft.destinations, DestinationId, id)
  {
    draft.(destinations := Collections.RemoveById(draft.destinations, DestinationId, id))
  }

  /** Removing a destination just added, under an id no other destination
      carries, gives back the draft. */
  lemma RemoveAddedDestination(draft: Trip, newDest: string, freshId: string)
    requires !Blank(newDest)
    requires forall i :: 0 <= i < |draft.destinations| ==> draft.destinations[i].id != freshId
    ensures RemoveDestination(AddDestination(draft, newDest, freshId), freshId) == draft
  {
    var ds := draft.destinations;
    Collections.RemoveByIdConcat(ds, [Destination(freshId, newDest)], DestinationId, freshId);
    Collections.RemoveAbsentId(ds, DestinationId, freshId);
    assert Collections.RemoveById([Destination(freshId, newDest)], DestinationId, freshId) == [];
  }

  /** An optional field spread from the draft: the key is only there when
      the draft has a value for it. */
  function OptionalKey<T>(v: Option<T>): Option<Option<T>> {
    if v.Some? then Some(v) else None
  }

  /** `handleSave`: the whole draft object is the patch. */
  function DraftPatch(draft: Trip): (p: TripPatch)
    ensures p.foreignCurrency.Some? <==> draft.foreignCurrency.Some?
    ensures p.defaultExchangeRate.Some? <==> draft.defaultExchangeRate.Some?
  {
    TripPatch(Some(draft.id), Some(draft.name), Some(draft.destinations), Some(draft.startDate),
              Some(draft.endDate), Some(draft.budget),
              OptionalKey(draft.foreignCurrency), OptionalKey(draft.defaultExchangeRate),
              Some(draft.flights), Some(draft.accommodations), Some(draft.transfers),
              Some(draft.expenses), Some(draft.activities))
  }

  /** Saving the draft replaces every field of the trip by the draft's,
      except that a currency default the draft never had keeps the trip's
      value. */
  lemma SaveWritesDraft(t: Trip, draft: Trip)
    ensures App.Merge(t, DraftPatch(draft))
         == draft.(foreignCurrency := if draft.foreignCurrency.Some? then draft.foreignCurrency else t.foreignCurrency,
                   defaultExchangeRate := if draft.defaultExchangeRate.Some? then draft.defaultExchangeRate
                                          else t.defaultExchangeRate)
  {
  }

  /** A draft taken from the trip on screen and edited with the dashboard
      forms becomes exactly the new trip. */
  lemma SaveOfEditedCopy(s: App.AppState, draft: Trip)
    requires Truthy(s.activeTripId) && App.ActiveTrip(s).Some?
    requires draft.id == s.activeTripId.value
    requires App.ActiveTrip(s).value.foreignCurrency.Some? ==> draft.foreignCurrency.Some?
    requires App.ActiveTrip(s).value.defaultExchangeRate.Some? ==> draft.defaultExchangeRate.Some?
    ensures App.ActiveTrip(App.UpdateActiveTrip(s, DraftPatch(draft))) == Some(draft)
  {
    App.UpdateReachesActiveTrip(s, DraftPatch(draft));
  }
}
