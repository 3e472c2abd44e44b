/** ApiService (services/api.ts): the process-wide manager of the one
    reconnecting WebSocket to the tracking backend.

    The socket library is not part of this model. Its ready state is an
    oracle: the state a new socket starts in, how a wait on a connecting
    socket ends, and the state it settles in afterwards are all inputs. */
module Api {
  import opened Wrappers
  import opened Types

  /** `WebSocket.readyState` is a number; the four standard values are those
      of the WebSocket interface of the HTML standard. Any other number is
      possible in principle and is reported as "unknown". */
  type ReadyState = int

  const CONNECTING: ReadyState := 0
  const OPEN: ReadyState := 1
  const CLOSING: ReadyState := 2
  const CLOSED: ReadyState := 3

  /** The one endpoint every socket connects to. */
  const WS_ENDPOINT: string := "wss://telematics-provider-backend.onrender.com/ws/vehicle-location"

  /** How long `sendLocationData` waits for a connecting socket, in ms. */
  const CONNECTION_TIMEOUT_MS: nat := 5000

  /** How long the socket library waits for one connection attempt, in ms
      (a separate setting from the wait above, with the same value). */
  const SOCKET_CONNECTION_TIMEOUT_MS: nat := 5000

  /** The options a new socket is created with. Retries and back-off happen
      inside the socket library; only the numbers are recorded here. */
  datatype SocketOptions = SocketOptions(
    connectionTimeoutMs: nat,
    maxRetries: nat,
    reconnectionDelayGrowFactor: real,
    minReconnectionDelayMs: nat,
    maxReconnectionDelayMs: nat)

  const SOCKET_OPTIONS := SocketOptions(SOCKET_CONNECTION_TIMEOUT_MS, 3, 1.3, 1000, 4000)

  /** A socket handle. `id` tells handles apart: the n-th socket ever
      created has id n. `url` and `options` are what it was created with. */
  datatype Handle = Handle(id: nat, url: string, options: SocketOptions, readyState: ReadyState)

  /** The static state of ApiService: the optional handle `rws`, the number
      of sockets created so far, and the frames written to any socket, in
      order. */
  datatype Manager = Manager(rws: Option<Handle>, created: nat, written: seq<LocationData>)

  /** The manager before any send. */
  const NoConnection := Manager(None, 0, [])

  /** The live handle, when there is one, is the last socket created (no
      older socket is ever brought back), and it was created for the one
      endpoint with the one set of options. */
  predicate Valid(m: Manager) {
    m.rws.Some? ==>
      && m.rws.value.id + 1 == m.created
      && m.rws.value.url == WS_ENDPOINT
      && m.rws.value.options == SOCKET_OPTIONS
  }

  /** How waiting on a CONNECTING socket ends: its `open` event, its `error`
      event, or the 5000 ms timer, whichever comes first. */
  datatype WaitOutcome = Opened | Errored | TimedOut

  datatype SocketEventKind = OpenEvent | ErrorEvent

  /** The first `open` or `error` event after the wait begins, `atMs`
      milliseconds into the wait. */
  datatype SocketEvent = SocketEvent(kind: SocketEventKind, atMs: nat)

  /** The race between the first socket event and the timeout timer. An
      event at or after the timeout loses: the timer has rejected the wait
      by then. */
  function ResolveWait(first: Option<SocketEvent>): (w: WaitOutcome)
    ensures w == Opened <==> first.Some? && first.value.kind == OpenEvent && first.value.atMs < CONNECTION_TIMEOUT_MS
    ensures w == Errored <==> first.Some? && first.value.kind == ErrorEvent && first.value.atMs < CONNECTION_TIMEOUT_MS
    ensures w == TimedOut <==> first.None? || first.value.atMs >= CONNECTION_TIMEOUT_MS
  {
    match first
    case None => TimedOut
    case Some(ev) =>
      if ev.atMs >= CONNECTION_TIMEOUT_MS then TimedOut
      else match ev.kind
        case OpenEvent => Opened
        case ErrorEvent => Errored
  }

  /** What the socket library does during one `sendLocationData`:
      `initial` is the ready state of a socket created by this call,
      `firstEvent` the first socket event during a wait on a connecting
      socket (None when neither event comes), and `settled` the ready state
      the socket is in after that wait. */
  datatype Transport = Transport(initial: ReadyState, firstEvent: Option<SocketEvent>, settled: ReadyState) {

    /** How a wait on a connecting socket ends. */
    function Wait(): WaitOutcome {
      ResolveWait(firstEvent)
    }
  }

  /** `getConnection`: the existing handle, or a new socket when there is
      none. A second call never creates another socket. */
  function GetConnection(m: Manager, initial: ReadyState): (r: (Manager, Handle))
    ensures r.0.rws == Some(r.1)
    ensures r.0.written == m.written
    ensures m.rws.Some? ==> r.0 == m
    ensures m.rws.None? ==> r.1 == Handle(m.created, WS_ENDPOINT, SOCKET_OPTIONS, initial) && r.0.created == m.created + 1
    ensures Valid(m) ==> Valid(r.0)
  {
    if m.rws.Some? then (m, m.rws.value)
    else
      var h := Handle(m.created, WS_ENDPOINT, SOCKET_OPTIONS, initial);
      (m.(rws := Some(h), created := m.created + 1), h)
  }

  /** The ready state `sendLocationData` finds when it first looks. */
  function FirstReadyState(m: Manager, initial: ReadyState): ReadyState {
    if m.rws.Some? then m.rws.value.readyState else initial
  }

  /** Whether a send with transport behaviour `t` finds the socket OPEN at
      the check: at once, or after a wait that ended with the open event. */
  predicate Accepts(m: Manager, t: Transport) {
    var rs := FirstReadyState(m, t.initial);
    rs == OPEN || (rs == CONNECTING && t.Wait() == Opened && t.settled == OPEN)
  }

  /** The outcome of `sendLocationData`: the manager afterwards and the
      boolean it resolves to. */
  datatype SendResult = SendResult(mgr: Manager, ok: bool)

  /** `sendLocationData`: obtain the socket; if it is connecting, wait for
      it; then write the frame if and only if the socket is OPEN. Every
      failure is caught and becomes `false`, so the result is total. */
  function SendLocationData(m: Manager, data: LocationData, t: Transport): (r: SendResult)
    // the frame is written exactly when the call resolves to true
    ensures r.ok ==> r.mgr.written == m.written + [data]
    ensures !r.ok ==> r.mgr.written == m.written
    // true iff the socket is OPEN at the check
    ensures r.ok <==> Accepts(m, t)
    // a socket is created only when none exists, and the call always leaves one
    ensures r.mgr.rws.Some?
    ensures m.rws.Some? ==> r.mgr.created == m.created && r.mgr.rws.value.id == m.rws.value.id
    ensures m.rws.None? ==> r.mgr.created == m.created + 1
    // the handle's ready state afterwards: what the wait settled in, or
    // unchanged when there was no wait
    ensures var rs := FirstReadyState(m, t.initial);
      r.mgr.rws.value.readyState == if rs == CONNECTING then t.settled else rs
    ensures Valid(m) ==> Valid(r.mgr)
    // a closing or closed socket fails at once and is left as it is
    ensures m.rws.Some? && m.rws.value.readyState in {CLOSING, CLOSED} ==> r == SendResult(m, false)
  {
    var (m1, ws) := GetConnection(m, t.initial);
    if ws.readyState == CONNECTING then
      var ws' := ws.(readyState := t.settled);
      var m2 := m1.(rws := Some(ws'));
      if t.Wait() == Opened then WriteIfOpen(m2, ws', data) else SendResult(m2, false)
    else
      WriteIfOpen(m1, ws, data)
  }

  /** The ready-state check and `ws.send` of `sendLocationData`. */
  function WriteIfOpen(m: Manager, ws: Handle, data: LocationData): (r: SendResult)
    ensures r.ok <==> ws.readyState == OPEN
    ensures r.mgr.rws == m.rws && r.mgr.created == m.created
    ensures r.mgr.written == if r.ok then m.written + [data] else m.written
  {
    if ws.readyState == OPEN then SendResult(m.(written := m.written + [data]), true)
    else SendResult(m, false)
  }

  /** `closeConnection`: close and forget the handle, if any. */
  function CloseConnection(m: Manager): (r: Manager)
    ensures r.rws.None?
    ensures r.created == m.created && r.written == m.written
    ensures Valid(r)
  {
    m.(rws := None)
  }

  /** The status a ready state is reported as. */
  function StatusOf(rs: ReadyState): ConnectionStatus {
    if rs == CONNECTING then Connecting
    else if rs == OPEN then Connected
    else if rs == CLOSING then Closing
    else if rs == CLOSED then Closed
    else Unknown
  }

  /** The ready state a status stands for, when it stands for one. */
  function ReadyStateOf(c: ConnectionStatus): Option<ReadyState> {
    match c
    case Connecting => Some(CONNECTING)
    case Connected => Some(OPEN)
    case Closing => Some(CLOSING)
    case Closed => Some(CLOSED)
    case _ => None
  }

  /** `getConnectionStatus`: "disconnected" exactly when there is no handle;
      otherwise the status of the handle's ready state, "unknown" exactly
      when that state is none of the four standard ones. */
  function GetConnectionStatus(m: Manager): (r: ConnectionStatus)
    ensures r == Disconnected <==> m.rws.None?
    ensures m.rws.Some? ==> (r == Unknown <==> m.rws.value.readyState !in {CONNECTING, OPEN, CLOSING, CLOSED})
    ensures m.rws.Some? && r != Unknown ==> ReadyStateOf(r) == Some(m.rws.value.readyState)
  {
    if m.rws.None? then Disconnected else StatusOf(m.rws.value.readyState)
  }

  /** A lifecycle event of the live socket (opening, closing, a reconnect
      attempt inside the library) changes its ready state and nothing else. */
  function TransportEvent(m: Manager, rs: ReadyState): (r: Manager)
    ensures r.rws.Some? <==> m.rws.Some?
    ensures r.rws.Some? ==> r.rws.value == m.rws.value.(readyState := rs)
    ensures r.created == m.created && r.written == m.written
    ensures Valid(m) ==> Valid(r)
  {
    match m.rws
    case None => m
    case Some(h) => m.(rws := Some(h.(readyState := rs)))
  }

  /** The status mapping is faithful: each standard ready state maps to its
      own status and is recovered from it; no handle's status reads as
      "disconnected". */
  lemma StatusRoundTrip(rs: ReadyState)
    ensures rs in {CONNECTING, OPEN, CLOSING, CLOSED} <==> ReadyStateOf(StatusOf(rs)) == Some(rs)
    ensures StatusOf(rs) != Disconnected
  {
  }

  /** `getConnection` is idempotent: asking again returns the same handle
      and creates nothing. */
  lemma GetConnectionIdempotent(m: Manager, initial: ReadyState, initial': ReadyState)
    ensures var (m1, h1) := GetConnection(m, initial);
      GetConnection(m1, initial') == (m1, h1)
  {
  }

  /** After `closeConnection` the status is "disconnected", and closing
      twice is closing once. */
  lemma CloseConnectionIdempotent(m: Manager)
    ensures GetConnectionStatus(CloseConnection(m)) == Disconnected
    ensures CloseConnection(CloseConnection(m)) == CloseConnection(m)
  {
  }

  /** A send after `closeConnection` never reuses the closed socket: it
      creates a new one whose id no earlier socket had. */
  lemma SendAfterCloseUsesFreshSocket(m: Manager, data: LocationData, t: Transport)
    requires Valid(m)
    ensures var r := SendLocationData(CloseConnection(m), data, t);
      && r.mgr.rws.value.id == m.created
      && (m.rws.Some? ==> r.mgr.rws.value.id != m.rws.value.id)
  {
  }

  /** A failed wait (error event or timeout) always resolves to false,
      whatever state the socket settles in. */
  lemma FailedWaitNeverSends(m: Manager, data: LocationData, t: Transport)
    requires FirstReadyState(m, t.initial) == CONNECTING
    requires t.Wait() != Opened
    ensures !SendLocationData(m, data, t).ok
    ensures SendLocationData(m, data, t).mgr.written == m.written
  {
  }
}
