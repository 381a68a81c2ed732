/** The records of the trip planner: one `Trip` aggregate owning six child
    collections. Money is `real` (Brazilian reais unless stated otherwise). */
module Model {
  import opened Wrappers

  /** A JavaScript number as read from a form: `NaN` also stands for an
      absent value, since `Number(undefined)` is `NaN` and both are falsy. */
  datatype Numeric = NaN | Num(value: real)

  /** JavaScript truthiness of a number: `NaN` and `0` are falsy. */
  predicate TruthyNumber(n: Numeric) {
    n.Num? && n.value != 0.0
  }

  /** The characters `String.prototype.trim` strips: the WhiteSpace and
      LineTerminator code points of the ECMAScript grammar. */
  predicate IsTrimmed(c: char) {
    // line terminators
    c == '\n' || c == '\r' || c == '\U{2028}' || c == '\U{2029}'
    // tab, vertical tab, form feed, byte order mark
    || c == '\t' || c == '\U{000B}' || c == '\U{000C}' || c == '\U{FEFF}'
    // space separators (Unicode category Zs)
    || c == ' ' || c == '\U{00A0}' || c == '\U{1680}' || ('\U{2000}' <= c <= '\U{200A}')
    || c == '\U{202F}' || c == '\U{205F}' || c == '\U{3000}'
  }

  /** First position at or after `i` that `trim` keeps (or `|s|`). */
  function KeptFrom(s: string, i: nat): (k: nat)
    requires i <= |s|
    ensures i <= k <= |s|
    ensures forall m :: i <= m < k ==> IsTrimmed(s[m])
    ensures k < |s| ==> !IsTrimmed(s[k])
    decreases |s| - i
  {
    if i == |s| || !IsTrimmed(s[i]) then i else KeptFrom(s, i + 1)
  }

  /** End (exclusive) of what `trim` keeps below `j`, not going under `lo`. */
  function KeptUpTo(s: string, lo: nat, j: nat): (k: nat)
    requires lo <= j <= |s|
    ensures lo <= k <= j
    ensures forall m :: k <= m < j ==> IsTrimmed(s[m])
    ensures k > lo ==> !IsTrimmed(s[k - 1])
  {
    if j == lo || !IsTrimmed(s[j - 1]) then j else KeptUpTo(s, lo, j - 1)
  }

  /** `s.trim()`: the middle of `s` once the leading and trailing trimmed
      characters are dropped. The result neither starts nor ends with a
      trimmed character, and it is empty exactly when every character is
      one. */
  function Trim(s: string): (r: string)
    ensures |r| <= |s|
    ensures |r| > 0 ==> !IsTrimmed(r[0]) && !IsTrimmed(r[|r| - 1])
    ensures r == "" <==> forall i :: 0 <= i < |s| ==> IsTrimmed(s[i])
    ensures var i := KeptFrom(s, 0);
            && i + |r| <= |s| && r == s[i..i + |r|]
            && (forall k :: 0 <= k < i ==> IsTrimmed(s[k]))
            && (forall k :: i + |r| <= k < |s| ==> IsTrimmed(s[k]))
  {
    var a := KeptFrom(s, 0);
    var b := KeptUpTo(s, a, |s|);
    s[a..b]
  }

  /** `!s.trim()`: nothing but trimmed characters. */
  function Blank(s: string): (r: bool)
    ensures r <==> forall i :: 0 <= i < |s| ==> IsTrimmed(s[i])
  {
    Trim(s) == ""
  }

  datatype Destination = Destination(id: string, name: string)

  /** A file kept inline as a data URL. */
  datatype Attachment = Attachment(id: string, name: string, mimeType: string, data: string)

  datatype Activity = Activity(
    id: string,
    date: string,                 // YYYY-MM-DD
    time: Option<string>,         // HH:MM
    description: string,
    location: Option<string>,
    cost: real,
    completed: bool)

  datatype Flight = Flight(
    id: string,
    airline: string,
    flightNumber: string,
    departureTime: string,
    description: string,
    price: real,
    attachments: seq<Attachment>)

  datatype Accommodation = Accommodation(
    id: string,
    name: string,
    checkIn: string,
    checkOut: string,
    address: string,
    reservationCode: Option<string>,
    price: real,
    attachments: seq<Attachment>)

  datatype Transfer = Transfer(
    id: string,
    from: string,
    to: string,
    date: string,
    mode: string,                 // `method` in the source: Uber, train, bus
    price: real)

  /** `amount` is always in reais; the three foreign-currency fields are
      optional additions. `category` is kept as the stored text, because
      data saved by older versions may hold an English label. */
  datatype Expense = Expense(
    id: string,
    description: string,
    amount: real,
    date: string,
    category: string,
    isForeign: Option<bool>,
    foreignAmount: Option<Numeric>,
    currencySymbol: Option<string>,
    exchangeRate: Option<Numeric>)

  datatype Trip = Trip(
    id: string,
    name: string,
    destinations: seq<Destination>,
    startDate: string,
    endDate: string,
    budget: real,
    foreignCurrency: Option<string>,
    defaultExchangeRate: Option<real>,
    flights: seq<Flight>,
    accommodations: seq<Accommodation>,
    transfers: seq<Transfer>,
    expenses: seq<Expense>,
    activities: seq<Activity>)

  /** `Partial<Trip>`: `None` is a key the object does not have. The two
      optional fields can be present with the value `undefined`, hence the
      nested option. */
  datatype TripPatch = TripPatch(
    id: Option<string>,
    name: Option<string>,
    destinations: Option<seq<Destination>>,
    startDate: Option<string>,
    endDate: Option<string>,
    budget: Option<real>,
    foreignCurrency: Option<Option<string>>,
    defaultExchangeRate: Option<Option<real>>,
    flights: Option<seq<Flight>>,
    accommodations: Option<seq<Accommodation>>,
    transfers: Option<seq<Transfer>>,
    expenses: Option<seq<Expense>>,
    activities: Option<seq<Activity>>)

  const EmptyPatch: TripPatch :=
    TripPatch(None, None, None, None, None, None, None, None, None, None, None, None, None)

  // Key accessors handed to the generic collection operations.
  function DestinationId(d: Destination): string { d.id }
  function AttachmentId(a: Attachment): string { a.id }
  function ActivityId(a: Activity): string { a.id }
  function FlightId(f: Flight): string { f.id }
  function AccommodationId(h: Accommodation): string { h.id }
  function TransferId(t: Transfer): string { t.id }
  function ExpenseId(e: Expense): string { e.id }
  function TripId(t: Trip): string { t.id }
}
