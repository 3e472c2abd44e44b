/** The records of the tracking screen (types/tracking.ts). */
module Types {
  import opened Wrappers

  /** The six values the connection status of a session can hold. The source
      keeps it in a free `string`; every assignment to it stores one of these. */
  datatype ConnectionStatus =
    | Disconnected
    | Connecting
    | Connected
    | Closing
    | Closed
    | Unknown

  /** The string the source stores for each status. */
  function StatusText(c: ConnectionStatus): string {
    match c
    case Disconnected => "disconnected"
    case Connecting => "connecting"
    case Connected => "connected"
    case Closing => "closing"
    case Closed => "closed"
    case Unknown => "unknown"
  }

  /** Reads a status string back; only the six strings above are accepted. */
  function ParseStatus(t: string): (r: Option<ConnectionStatus>)
    ensures r.Some? ==> StatusText(r.value) == t
    ensures r.None? ==> forall c: ConnectionStatus :: StatusText(c) != t
  {
    if t == "disconnected" then Some(Disconnected)
    else if t == "connecting" then Some(Connecting)
    else if t == "connected" then Some(Connected)
    else if t == "closing" then Some(Closing)
    else if t == "closed" then Some(Closed)
    else if t == "unknown" then Some(Unknown)
    else None
  }

  /** The enumeration loses nothing: distinct statuses have distinct strings
      and every status string parses back to its status. */
  lemma StatusTextRoundTrip(c: ConnectionStatus)
    ensures ParseStatus(StatusText(c)) == Some(c)
  {
    match c
    case Disconnected =>
    case Connecting =>
    case Connected =>
    case Closing =>
    case Closed =>
    case Unknown =>
  }

  /** Timestamps are ISO-8601 strings produced by a clock; they are opaque here. */
  type Timestamp = string

  /** A position as reported by the positioning capability. JavaScript numbers
      are kept as exact reals: nothing in the core computes with them. */
  datatype Coords = Coords(latitude: real, longitude: real)

  /** TrackingState: the statistics a tracking session shows to its observers. */
  datatype TrackingState = TrackingState(
    isTracking: bool,
    lastApiCall: Option<Timestamp>,
    lastLocation: Option<Coords>,
    apiCallCount: nat,
    connectionStatus: ConnectionStatus)

  /** LocationData: the report written to the connection, one per cycle. */
  datatype LocationData = LocationData(
    vehicleId: string,
    driverId: string,
    latitude: real,
    longitude: real,
    timestamp: Timestamp)

  /** StoredIds and FormData have the same two fields, so they are one type:
      a loaded StoredIds replaces the form data wholesale. */
  datatype IdPair = IdPair(vehicleId: string, driverId: string)

  type StoredIds = IdPair

  type FormData = IdPair

  /** JavaScript truthiness of a `string | null`: present and not "". */
  predicate Truthy(v: Option<string>) {
    v.Some? && v.value != ""
  }

  /** ValidationErrors: at most one message per field. */
  datatype ValidationErrors = ValidationErrors(vehicleId: Option<string>, driverId: Option<string>)

  const NoErrors := ValidationErrors(None, None)

  /** The record has no keys (`Object.keys(e).length === 0`). */
  predicate NoErrorPresent(e: ValidationErrors) {
    e.vehicleId.None? && e.driverId.None?
  }
}
