/** The trip list screen: creating a trip from a name, and restoring a
    backup file. */
module TripList {
  import opened Wrappers
  import opened Model
  import App

  /** The trip `handleCreate` builds: the typed name as it is (untrimmed),
      no dates, zero budget, empty collections, no currency defaults. */
  function NewTrip(name: string, freshId: string): (r: Trip)
    ensures r.id == freshId && r.name == name
    ensures r.startDate == "" && r.endDate == "" && r.budget == 0.0
    ensures r.foreignCurrency.None? && r.defaultExchangeRate.None?
    ensures r.destinations == [] && r.flights == [] && r.accommodations == []
    ensures r.transfers == [] && r.expenses == [] && r.activities == []
  {
    Trip(freshId, name, [], "", "", 0.0, None, None, [], [], [], [], [])
  }

  /** `handleCreate` followed by `createTrip`; `freshId` stands for the
      random id. A blank name does nothing. */
  function HandleCreate(s: App.AppState, name: string, freshId: string): (r: App.AppState)
    ensures Blank(name) ==> r == s
    ensures !Blank(name) ==> r == App.CreateTrip(s, NewTrip(name, freshId))
  {
    if Blank(name) then s else App.CreateTrip(s, NewTrip(name, freshId))
  }

  /** A non-blank name with a fresh id opens the new, empty trip. */
  lemma CreatedTripIsShown(s: App.AppState, name: string, freshId: string)
    requires !Blank(name) && freshId != ""
    requires forall i :: 0 <= i < |s.trips| ==> s.trips[i].id != freshId
    ensures App.ActiveTrip(HandleCreate(s, name, freshId)) == Some(NewTrip(name, freshId))
    ensures |HandleCreate(s, name, freshId).trips| == |s.trips| + 1
  {
    App.CreateShowsNewTrip(s, NewTrip(name, freshId));
  }

  /** The message the user sees after picking a backup file. */
  datatype ImportNotice = Restored | NotATripList | ReadFailed

  /** `handleImportFile`: only a top-level array replaces the trips; any
      other value, or a file that does not parse, leaves the store as it
      was and says so. */
  function HandleImportFile(s: App.AppState, content: App.StoredTrips): (r: (App.AppState, ImportNotice))
    ensures r.1 == Restored <==> content.TripList?
    ensures r.1 == NotATripList <==> content.NotAList?
    ensures !content.TripList? ==> r.0 == s
    ensures content.TripList? ==> r.0 == App.ImportTrips(s, content.items)
  {
    match content
    case TripList(items) => (App.ImportTrips(s, items), Restored)
    case NotAList => (s, NotATripList)
    case Unreadable => (s, ReadFailed)
  }

  /** Restoring the backup of a trip list gives that trip list back. */
  lemma RestoreOwnBackup(s: App.AppState)
    ensures HandleImportFile(s, App.TripList(App.LoosenAll(s.trips))).0 == s
  {
    App.BackupRoundTrip(s.trips);
  }
}
