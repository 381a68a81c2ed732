/** The trip store of the application shell: the list of trips, the
    selected trip id, the transitions that change them, and the start-up
    load with its one-time migration of the single-trip format. */
module App {
  import opened Wrappers
  import opened Model
  import Collections

  // ---- Loosely-typed input and sanitising -------------------------------

  /** A trip as read back from stored or imported JSON: any of the six
      child collections may be missing. */
  datatype LooseTrip = LooseTrip(
    id: string,
    name: string,
    destinations: Option<seq<Destination>>,
    startDate: string,
    endDate: string,
    budget: real,
    foreignCurrency: Option<string>,
    defaultExchangeRate: Option<real>,
    flights: Option<seq<Flight>>,
    accommodations: Option<seq<Accommodation>>,
    transfers: Option<seq<Transfer>>,
    expenses: Option<seq<Expense>>,
    activities: Option<seq<Activity>>)

  /** `{ ...t, destinations: t.destinations || [], ... }`: every missing
      child collection becomes empty; everything present is copied through
      untouched. */
  function Sanitize(t: LooseTrip): (r: Trip)
    ensures r.id == t.id && r.name == t.name && r.startDate == t.startDate
    ensures r.endDate == t.endDate && r.budget == t.budget
    ensures r.foreignCurrency == t.foreignCurrency && r.defaultExchangeRate == t.defaultExchangeRate
    ensures t.destinations.Some? ==> r.destinations == t.destinations.value
    ensures t.flights.Some? ==> r.flights == t.flights.value
    ensures t.accommodations.Some? ==> r.accommodations == t.accommodations.value
    ensures t.transfers.Some? ==> r.transfers == t.transfers.value
    ensures t.expenses.Some? ==> r.expenses == t.expenses.value
    ensures t.activities.Some? ==> r.activities == t.activities.value
    ensures t.destinations.None? ==> r.destinations == []
    ensures t.flights.None? ==> r.flights == []
    ensures t.accommodations.None? ==> r.accommodations == []
    ensures t.transfers.None? ==> r.transfers == []
    ensures t.expenses.None? ==> r.expenses == []
    ensures t.activities.None? ==> r.activities == []
  {
    Trip(t.id, t.name, t.destinations.GetOr([]), t.startDate, t.endDate, t.budget,
         t.foreignCurrency, t.defaultExchangeRate,
         t.flights.GetOr([]), t.accommodations.GetOr([]), t.transfers.GetOr([]),
         t.expenses.GetOr([]), t.activities.GetOr([]))
  }

  /** What a trip looks like after `JSON.stringify` and `JSON.parse`: every
      collection present. */
  function Loosen(t: Trip): LooseTrip {
    LooseTrip(t.id, t.name, Some(t.destinations), t.startDate, t.endDate, t.budget,
              t.foreignCurrency, t.defaultExchangeRate,
              Some(t.flights), Some(t.accommodations), Some(t.transfers),
              Some(t.expenses), Some(t.activities))
  }

  /** A well-formed trip passes through sanitising unchanged. */
  lemma SanitizeLoosen(t: Trip)
    ensures Sanitize(Loosen(t)) == t
  {
  }

  /** Sanitising twice is sanitising once. */
  lemma SanitizeIdempotent(t: LooseTrip)
    ensures Sanitize(Loosen(Sanitize(t))) == Sanitize(t)
  {
    SanitizeLoosen(Sanitize(t));
  }

  /** `parsed.map(sanitize)`. */
  function SanitizeAll(ts: seq<LooseTrip>): (r: seq<Trip>)
    ensures |r| == |ts|
    ensures forall i :: 0 <= i < |ts| ==> r[i] == Sanitize(ts[i])
  {
    if |ts| == 0 then [] else [Sanitize(ts[0])] + SanitizeAll(ts[1..])
  }

  function LoosenAll(ts: seq<Trip>): (r: seq<LooseTrip>)
    ensures |r| == |ts|
    ensures forall i :: 0 <= i < |ts| ==> r[i] == Loosen(ts[i])
  {
    if |ts| == 0 then [] else [Loosen(ts[0])] + LoosenAll(ts[1..])
  }

  /** A backup written from a list of trips restores exactly that list. */
  lemma BackupRoundTrip(ts: seq<Trip>)
    ensures SanitizeAll(LoosenAll(ts)) == ts
  {
    var r := SanitizeAll(LoosenAll(ts));
    forall i | 0 <= i < |ts| ensures r[i] == ts[i] {
      SanitizeLoosen(ts[i]);
    }
  }

  // ---- Partial update -------------------------------------------------

  /** One field of `{ ...t, ...patch }`: the patch's value when the key is
      there, the old value otherwise. */
  predicate Overrides<T(==)>(key: Option<T>, before: T, after: T) {
    match key
    case Some(v) => after == v
    case None => after == before
  }

  /** `{ ...t, ...patch }`. */
  function Merge(t: Trip, p: TripPatch): (r: Trip)
    ensures Overrides(p.id, t.id, r.id) && Overrides(p.name, t.name, r.name)
    ensures Overrides(p.destinations, t.destinations, r.destinations)
    ensures Overrides(p.startDate, t.startDate, r.startDate) && Overrides(p.endDate, t.endDate, r.endDate)
    ensures Overrides(p.budget, t.budget, r.budget)
    ensures Overrides(p.foreignCurrency, t.foreignCurrency, r.foreignCurrency)
    ensures Overrides(p.defaultExchangeRate, t.defaultExchangeRate, r.defaultExchangeRate)
    ensures Overrides(p.flights, t.flights, r.flights)
    ensures Overrides(p.accommodations, t.accommodations, r.accommodations)
    ensures Overrides(p.transfers, t.transfers, r.transfers)
    ensures Overrides(p.expenses, t.expenses, r.expenses)
    ensures Overrides(p.activities, t.activities, r.activities)
  {
    Trip(p.id.GetOr(t.id), p.name.GetOr(t.name), p.destinations.GetOr(t.destinations),
         p.startDate.GetOr(t.startDate), p.endDate.GetOr(t.endDate), p.budget.GetOr(t.budget),
         p.foreignCurrency.GetOr(t.foreignCurrency), p.defaultExchangeRate.GetOr(t.defaultExchangeRate),
         p.flights.GetOr(t.flights), p.accommodations.GetOr(t.accommodations),
         p.transfers.GetOr(t.transfers), p.expenses.GetOr(t.expenses),
         p.activities.GetOr(t.activities))
  }

  /** Merging the same patch twice is merging it once. */
  lemma MergeIdempotent(t: Trip, p: TripPatch)
    ensures Merge(Merge(t, p), p) == Merge(t, p)
  {
  }

  /** The effect on a trip of an optional `updateTrip` call: `None` means
      the caller returned before calling it. */
  function Apply(t: Trip, p: Option<TripPatch>): Trip {
    match p
    case None => t
    case Some(q) => Merge(t, q)
  }

  // ---- The store ------------------------------------------------------

  datatype AppState = AppState(trips: seq<Trip>, activeTripId: Option<string>)

  /** `trips.find(t => t.id === activeTripId)`. */
  function ActiveTrip(s: AppState): (r: Option<Trip>)
    ensures s.activeTripId.None? ==> r.None?
    ensures r.Some? ==> r.value.id == s.activeTripId.value
    ensures r.Some? ==> exists i :: 0 <= i < |s.trips| && s.trips[i] == r.value
                                    && forall j :: 0 <= j < i ==> s.trips[j].id != r.value.id
    ensures r.None? && s.activeTripId.Some? ==> forall i :: 0 <= i < |s.trips| ==> s.trips[i].id != s.activeTripId.value
  {
    match s.activeTripId
    case None => None
    case Some(id) =>
      match Collections.FindIndex(s.trips, TripId, id)
      case None => None
      case Some(k) => Some(s.trips[k])
  }

  /** The trip list is shown instead of a trip when nothing is selected or
      the selected id matches no trip. */
  function ShowsTripList(s: AppState): (r: bool)
    ensures r <==> !Truthy(s.activeTripId)
                   || forall i :: 0 <= i < |s.trips| ==> s.trips[i].id != s.activeTripId.value
  {
    !Truthy(s.activeTripId) || ActiveTrip(s).None?
  }

  /** `createTrip`: append and select. */
  function CreateTrip(s: AppState, t: Trip): (r: AppState)
    ensures |r.trips| == |s.trips| + 1
    ensures r.trips[..|s.trips|] == s.trips && r.trips[|s.trips|] == t
    ensures r.activeTripId == Some(t.id)
  {
    AppState(s.trips + [t], Some(t.id))
  }

  /** With a fresh, non-empty id the new trip is the one on screen. */
  lemma CreateShowsNewTrip(s: AppState, t: Trip)
    requires t.id != ""
    requires forall i :: 0 <= i < |s.trips| ==> s.trips[i].id != t.id
    ensures ActiveTrip(CreateTrip(s, t)) == Some(t)
    ensures !ShowsTripList(CreateTrip(s, t))
  {
    var r := CreateTrip(s, t);
    assert r.trips[|s.trips|] == t;
  }

  /** `updateActiveTrip`: merge the patch into every trip carrying the
      selected id; nothing at all without a selection. */
  function UpdateActiveTrip(s: AppState, p: TripPatch): (r: AppState)
    ensures !Truthy(s.activeTripId) ==> r == s
    ensures r.activeTripId == s.activeTripId && |r.trips| == |s.trips|
    ensures Truthy(s.activeTripId) ==>
              forall i :: 0 <= i < |s.trips| ==>
                r.trips[i] == (if s.trips[i].id == s.activeTripId.value then Merge(s.trips[i], p) else s.trips[i])
  {
    if !Truthy(s.activeTripId) then s
    else AppState(MergeWhere(s.trips, s.activeTripId.value, p), s.activeTripId)
  }

  function MergeWhere(ts: seq<Trip>, id: string, p: TripPatch): (r: seq<Trip>)
    ensures |r| == |ts|
    ensures forall i :: 0 <= i < |ts| ==> r[i] == (if ts[i].id == id then Merge(ts[i], p) else ts[i])
  {
    if |ts| == 0 then []
    else [if ts[0].id == id then Merge(ts[0], p) else ts[0]] + MergeWhere(ts[1..], id, p)
  }

  /** An update that keeps the id leaves the selected trip on screen, now
      with the patch merged in. This is how every edit screen reaches the
      store. */
  lemma UpdateReachesActiveTrip(s: AppState, p: TripPatch)
    requires Truthy(s.activeTripId) && ActiveTrip(s).Some?
    requires p.id.None? || p.id == s.activeTripId
    ensures ActiveTrip(UpdateActiveTrip(s, p)) == Some(Merge(ActiveTrip(s).value, p))
  {
    var id := s.activeTripId.value;
    var r := UpdateActiveTrip(s, p);
    var k := Collections.FindIndex(s.trips, TripId, id).value;
    assert r.trips[k] == Merge(s.trips[k], p);
    forall j | 0 <= j < k ensures r.trips[j].id != id {
      assert r.trips[j] == s.trips[j];
    }
    match Collections.FindIndex(r.trips, TripId, id)
    case None =>
      assert false;
    case Some(k') =>
      if k' != k {
        assert false;
      }
  }

  /** `deleteTrip`: drop every trip with that id; clear the selection only
      when it pointed at the deleted id. */
  function DeleteTrip(s: AppState, id: string): (r: AppState)
    ensures r.trips == Collections.RemoveById(s.trips, TripId, id)
    ensures r.activeTripId.None? <==> (s.activeTripId.None? || s.activeTripId == Some(id))
    ensures s.activeTripId != Some(id) ==> r.activeTripId == s.activeTripId
  {
    AppState(Collections.RemoveById(s.trips, TripId, id),
             if s.activeTripId == Some(id) then None else s.activeTripId)
  }

  /** After a delete the deleted trip can never be on screen. */
  lemma DeletedTripNotActive(s: AppState, id: string)
    ensures ActiveTrip(DeleteTrip(s, id)).None? || ActiveTrip(DeleteTrip(s, id)).value.id != id
  {
  }

  /** `importTrips`: replace the whole list by the sanitised input, keep
      the selection as it was. */
  function ImportTrips(s: AppState, imported: seq<LooseTrip>): (r: AppState)
    ensures r.activeTripId == s.activeTripId
    ensures |r.trips| == |imported|
    ensures forall i :: 0 <= i < |imported| ==> r.trips[i] == Sanitize(imported[i])
  {
    AppState(SanitizeAll(imported), s.activeTripId)
  }

  /** Selecting a trip from the list (`onSelectTrip`). */
  function SelectTrip(s: AppState, id: string): (r: AppState)
    ensures r.trips == s.trips && r.activeTripId == Some(id)
  {
    AppState(s.trips, Some(id))
  }

  /** The back button of the dashboard (`setActiveTripId(null)`). */
  function ClearSelection(s: AppState): (r: AppState)
    ensures r.trips == s.trips && ShowsTripList(r)
  {
    AppState(s.trips, None)
  }

  // ---- Start-up load ----------------------------------------------------

  /** What `JSON.parse` made of the stored trip list. */
  datatype StoredTrips = Unreadable | NotAList | TripList(items: seq<LooseTrip>)

  /** The single trip of the old format: a `destination` string plus
      whatever trip fields it had. */
  datatype LegacyTrip = LegacyTrip(destination: Option<string>, fields: LooseTrip)

  const LegacyTripId: string := "legacy-trip"
  const DefaultTripName: string := "Minha Viagem"

  /** The trip the old single-trip record becomes. */
  function Migrate(l: LegacyTrip): (r: Trip)
    ensures r.id == LegacyTripId
    ensures Truthy(l.destination) ==> r.name == l.destination.value
    ensures !Truthy(l.destination) ==> r.name == DefaultTripName
    ensures Truthy(l.destination) ==> r.destinations == [Destination("1", l.destination.value)]
    ensures !Truthy(l.destination) ==> r.destinations == []
    ensures r.activities == []
    ensures r.flights == l.fields.flights.GetOr([])
    ensures r.accommodations == l.fields.accommodations.GetOr([])
    ensures r.transfers == l.fields.transfers.GetOr([])
    ensures r.expenses == l.fields.expenses.GetOr([])
    ensures r.startDate == l.fields.startDate && r.endDate == l.fields.endDate && r.budget == l.fields.budget
  {
    var dest := l.destination;
    Sanitize(l.fields.(id := LegacyTripId,
                       name := if Truthy(dest) then dest.value else DefaultTripName,
                       destinations := Some(if Truthy(dest) then [Destination("1", dest.value)] else []),
                       activities := Some([])))
  }

  /** Result of the start-up load: the initial trip list, and whether the
      old key is removed from storage. */
  datatype Loaded = Loaded(trips: seq<Trip>, removeLegacyKey: bool)

  /** The load effect. `savedData` and `savedLegacy` are the raw values
      under the current and the old storage key; `readTrips` and
      `readLegacy` stand for `JSON.parse` (with `None` for a parse that
      throws, which includes reading a field of `null`). */
  function Load(savedData: Option<string>, savedLegacy: Option<string>,
                readTrips: string -> StoredTrips, readLegacy: string -> Option<LegacyTrip>): (r: Loaded)
    ensures r.removeLegacyKey ==> !Truthy(savedData) && Truthy(savedLegacy)
    ensures Truthy(savedData) ==>
              match readTrips(savedData.value)
              case TripList(items) => r.trips == SanitizeAll(items)
              case _ => r.trips == []
    ensures !Truthy(savedData) && Truthy(savedLegacy) && readLegacy(savedLegacy.value).Some? ==>
              r.trips == [Migrate(readLegacy(savedLegacy.value).value)] && r.removeLegacyKey
    ensures !Truthy(savedData) && (!Truthy(savedLegacy) || readLegacy(savedLegacy.value).None?) ==>
              r == Loaded([], false)
  {
    if Truthy(savedData) then
      match readTrips(savedData.value)
      case TripList(items) => Loaded(SanitizeAll(items), false)
      case Unreadable => Loaded([], false)
      case NotAList => Loaded([], false)
    else if Truthy(savedLegacy) then
      match readLegacy(savedLegacy.value)
      case Some(l) => Loaded([Migrate(l)], true)
      case None => Loaded([], false)
    else Loaded([], false)
  }

  /** A stored list wins over the old key: whatever the old key holds does
      not matter. */
  lemma StoredListTakesPrecedence(savedData: Option<string>, legacyA: Option<string>, legacyB: Option<string>,
                                  readTrips: string -> StoredTrips, readLegacy: string -> Option<LegacyTrip>)
    requires Truthy(savedData)
    ensures Load(savedData, legacyA, readTrips, readLegacy) == Load(savedData, legacyB, readTrips, readLegacy)
  {
  }

  /** The migration runs once: after it, the list saved under the current
      key is found on the next start and loads back unchanged. */
  lemma MigrationRunsOnce(saved: string, legacy: Option<string>, ts: seq<Trip>,
                          readTrips: string -> StoredTrips, readLegacy: string -> Option<LegacyTrip>)
    requires saved != ""
    requires readTrips(saved) == TripList(LoosenAll(ts))
    ensures Load(Some(saved), legacy, readTrips, readLegacy) == Loaded(ts, false)
  {
    BackupRoundTrip(ts);
  }
}
