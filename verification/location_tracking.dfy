/** useLocationTracking (hooks/useLocationTracking.ts): the tracking
    session. Its state is the TrackingState record, the connection manager,
    the 30 s report interval(s) and the 5 s status poll. Every transition is
    one atomic step; the position, the permission answers, the clock and the
    socket's behaviour are inputs. */
module LocationTracking {
  import opened Wrappers
  import opened Types
  import Api

  const TRACKING_INTERVAL_MS: nat := 30000
  const STATUS_POLL_MS: nat := 5000

  /** A running `setInterval` that reports for one id pair. */
  datatype ReportTimer = ReportTimer(ids: IdPair, periodMs: nat)

  /** The hook's state. `interval` is what `intervalRef.current` holds.
      `orphans` are report timers that still run although no reference to
      them is kept: `startTracking` overwrites `intervalRef.current`
      without clearing the timer it held. `poll` is the period of the
      status-poll interval while it runs. */
  datatype Session = Session(
    state: TrackingState,
    mgr: Api.Manager,
    interval: Option<ReportTimer>,
    orphans: seq<ReportTimer>,
    poll: Option<nat>)

  /** Whether the status-poll interval runs. */
  predicate PollScheduled(s: Session) {
    s.poll.Some?
  }

  /** Every report timer that still fires. */
  function LiveTimers(s: Session): seq<ReportTimer> {
    s.orphans + (if s.interval.Some? then [s.interval.value] else [])
  }

  /** What a hook mounted next to manager `mgr` starts from: the initial
      record, after the status effect's first check. */
  function Mount(mgr: Api.Manager): (r: Session)
    ensures !r.state.isTracking && r.state.lastApiCall.None? && r.state.lastLocation.None?
    ensures r.state.apiCallCount == 0
    ensures r.state.connectionStatus == Api.GetConnectionStatus(mgr)
    ensures mgr.rws.None? ==> r.state.connectionStatus == Disconnected
    ensures LiveTimers(r) == [] && !PollScheduled(r)
    ensures r.mgr == mgr
  {
    Session(TrackingState(false, None, None, 0, Api.GetConnectionStatus(mgr)), mgr, None, [], None)
  }

  /** The session of a freshly started app. */
  function Initial(): Session {
    Mount(Api.NoConnection)
  }

  // ---------------------------------------------------------------------
  // Permissions

  /** An answer of the operating system's permission API. */
  datatype PermissionAnswer = Granted | Refused | Raised

  /** The permission environment: on the web, whether the browser yields a
      position; on a device, the foreground and background answers. */
  datatype Platform = Web(positionGranted: bool) | Native(foreground: PermissionAnswer, background: PermissionAnswer)

  /** `requestLocationPermissions`. */
  function RequestLocationPermissions(p: Platform): (granted: bool)
    ensures p.Web? ==> (granted <==> p.positionGranted)
    // on a device, a refused or failed foreground request refuses, a refused
    // background request does not, and a failure of either request refuses
    ensures p.Native? ==> (granted <==> p.foreground == Granted && p.background != Raised)
  {
    match p
    case Web(g) => g
    case Native(fg, bg) =>
      if fg == Raised then false
      else if fg != Granted then false
      else if bg == Raised then false
      else true
  }

  // ---------------------------------------------------------------------
  // The report cycle

  /** What the world supplies to one report cycle: the position (None when
      it cannot be obtained), the clock reading stamped on the frame, the
      socket's behaviour during the send, and the clock reading taken when
      the result is recorded. */
  datatype CycleEnv = CycleEnv(
    position: Option<Coords>,
    frameTime: Timestamp,
    transport: Api.Transport,
    recordTime: Timestamp)

  /** The frame a cycle sends. */
  function Frame(ids: IdPair, pos: Coords, t: Timestamp): LocationData {
    LocationData(ids.vehicleId, ids.driverId, pos.latitude, pos.longitude, t)
  }

  /** `sendLocationToApi`: one report cycle. */
  function SendLocationToApi(s: Session, ids: IdPair, env: CycleEnv): (r: Session)
    // no position: nothing at all happens
    ensures env.position.None? ==> r == s
    ensures env.position.Some? ==>
      // the position is recorded whatever the send's result
      && r.state.lastLocation == env.position
      // the count and lastApiCall move exactly when the frame is written
      && (if Api.Accepts(s.mgr, env.transport) then
            && r.mgr.written == s.mgr.written + [Frame(ids, env.position.value, env.frameTime)]
            && r.state.apiCallCount == s.state.apiCallCount + 1
            && r.state.lastApiCall == Some(env.recordTime)
          else
            && r.mgr.written == s.mgr.written
            && r.state.apiCallCount == s.state.apiCallCount
            && r.state.lastApiCall == s.state.lastApiCall)
      // the status is refreshed; tracking flag and timers are untouched
      && r.state.connectionStatus == Api.GetConnectionStatus(r.mgr)
      && r.state.isTracking == s.state.isTracking
      && r.interval == s.interval && r.orphans == s.orphans && r.poll == s.poll
      // the manager is the one the send leaves behind
      && r.mgr == Api.SendLocationData(s.mgr, Frame(ids, env.position.value, env.frameTime), env.transport).mgr
      // a socket exists afterwards; one is created only when none existed
      && r.mgr.rws.Some?
      && (s.mgr.rws.Some? ==> r.mgr.created == s.mgr.created)
  {
    match env.position
    case None => s
    case Some(pos) =>
      var sent := Api.SendLocationData(s.mgr, Frame(ids, pos, env.frameTime), env.transport);
      var st := s.state;
      s.(mgr := sent.mgr,
         state := st.(lastLocation := Some(pos),
                      lastApiCall := if sent.ok then Some(env.recordTime) else st.lastApiCall,
                      apiCallCount := if sent.ok then st.apiCallCount + 1 else st.apiCallCount,
                      connectionStatus := Api.GetConnectionStatus(sent.mgr)))
  }

  // ---------------------------------------------------------------------
  // The status effect

  /** React re-runs the status effect after a commit in which `isTracking`
      differs from the value it last ran with; since the effect schedules the
      poll exactly when tracking, that value is whether the poll runs. A run
      clears the old poll, checks the status once, and schedules the poll
      again iff tracking. */
  function Settle(s: Session): (r: Session)
    ensures PollScheduled(r) == r.state.isTracking
    ensures r.state.(connectionStatus := s.state.connectionStatus) == s.state
    ensures r.mgr == s.mgr && r.interval == s.interval && r.orphans == s.orphans
    ensures PollScheduled(s) != s.state.isTracking ==> r.state.connectionStatus == Api.GetConnectionStatus(s.mgr)
    ensures PollScheduled(s) != s.state.isTracking ==>
      r.poll == if s.state.isTracking then Some(STATUS_POLL_MS) else None
    ensures PollScheduled(s) == s.state.isTracking ==> r == s
  {
    if PollScheduled(s) == s.state.isTracking then s
    else s.(state := s.state.(connectionStatus := Api.GetConnectionStatus(s.mgr)),
            poll := if s.state.isTracking then Some(STATUS_POLL_MS) else None)
  }

  /** One tick of the 5 s status poll: only the status changes, to the
      manager's current status. */
  function PollStatus(s: Session): (r: Session)
    requires PollScheduled(s)
    ensures r.state.connectionStatus == Api.GetConnectionStatus(s.mgr)
    ensures r.state.(connectionStatus := s.state.connectionStatus) == s.state
    ensures r.mgr == s.mgr && r.interval == s.interval && r.orphans == s.orphans && r.poll == s.poll
  {
    s.(state := s.state.(connectionStatus := Api.GetConnectionStatus(s.mgr)))
  }

  // ---------------------------------------------------------------------
  // Start, stop, reconnect

  /** What the world supplies to `startTracking`. */
  datatype StartEnv = StartEnv(platform: Platform, cycle: CycleEnv)

  datatype StartResult = StartResult(session: Session, started: bool)

  /** `startTracking(vehicleId, driverId)`. */
  function StartTracking(s: Session, ids: IdPair, env: StartEnv): (r: StartResult)
    // refused permission: false, and nothing happens
    ensures !RequestLocationPermissions(env.platform) ==> r == StartResult(s, false)
    ensures RequestLocationPermissions(env.platform) ==>
      && r.started
      && r.session.state.isTracking
      && PollScheduled(r.session)
      // one new 30 s timer; the reference to the previous one, if any, is lost
      && r.session.interval == Some(ReportTimer(ids, TRACKING_INTERVAL_MS))
      && LiveTimers(r.session) == LiveTimers(s) + [ReportTimer(ids, TRACKING_INTERVAL_MS)]
      && r.session.state.connectionStatus == Api.GetConnectionStatus(r.session.mgr)
      // at most one frame is written, and the count follows the frames
      && |s.mgr.written| <= |r.session.mgr.written| <= |s.mgr.written| + 1
      && r.session.mgr.written[..|s.mgr.written|] == s.mgr.written
      && r.session.state.apiCallCount - s.state.apiCallCount == |r.session.mgr.written| - |s.mgr.written|
  {
    if !RequestLocationPermissions(env.platform) then StartResult(s, false)
    else
      var s1 := SendLocationToApi(s, ids, env.cycle);
      var timer := ReportTimer(ids, TRACKING_INTERVAL_MS);
      var s2 := s1.(interval := Some(timer),
                    orphans := if s1.interval.Some? then s1.orphans + [s1.interval.value] else s1.orphans);
      var s3 := s2.(state := s2.state.(isTracking := true, connectionStatus := Api.GetConnectionStatus(s2.mgr)));
      StartResult(Settle(s3), true)
  }

  /** `stopTracking`. */
  function StopTracking(s: Session): (r: Session)
    ensures !r.state.isTracking && r.state.connectionStatus == Disconnected
    ensures r.mgr.rws.None? && Api.GetConnectionStatus(r.mgr) == Disconnected
    ensures r.interval.None? && !PollScheduled(r)
    // only the timer the reference holds is cleared
    ensures r.orphans == s.orphans
    ensures r.state.apiCallCount == s.state.apiCallCount
    ensures r.state.lastApiCall == s.state.lastApiCall && r.state.lastLocation == s.state.lastLocation
    ensures r.mgr.written == s.mgr.written && r.mgr.created == s.mgr.created
  {
    var s1 := s.(interval := None);
    var s2 := s1.(mgr := Api.CloseConnection(s1.mgr));
    Settle(s2.(state := s2.state.(isTracking := false, connectionStatus := Disconnected)))
  }

  /** `reconnect`: close the connection and nothing else; the next cycle's
      send opens a new socket. */
  function Reconnect(s: Session): (r: Session)
    ensures r.state == s.state
    ensures r.mgr.rws.None? && r.mgr.written == s.mgr.written && r.mgr.created == s.mgr.created
    ensures r.interval == s.interval && r.orphans == s.orphans && r.poll == s.poll
  {
    s.(mgr := Api.CloseConnection(s.mgr))
  }

  // ---------------------------------------------------------------------
  // Runs of the session

  /** Everything that can happen to a session, one atomic step each. */
  datatype Event =
    | Start(ids: IdPair, env: StartEnv)
    | Stop
    | Reconnecting
    | PollTick
    | ReportTick(timer: nat, cycle: CycleEnv)
    | SocketChange(readyState: Api.ReadyState)

  /** One step. A tick of a timer that does not run changes nothing. */
  function Step(s: Session, e: Event): Session {
    match e
    case Start(ids, env) => StartTracking(s, ids, env).session
    case Stop => StopTracking(s)
    case Reconnecting => Reconnect(s)
    case PollTick => if PollScheduled(s) then PollStatus(s) else s
    case ReportTick(i, env) =>
      if i < |LiveTimers(s)| then SendLocationToApi(s, LiveTimers(s)[i].ids, env) else s
    case SocketChange(rs) => s.(mgr := Api.TransportEvent(s.mgr, rs))
  }

  function Run(s: Session, es: seq<Event>): Session
    decreases |es|
  {
    if es == [] then s else Run(Step(s, es[0]), es[1..])
  }

  /** What holds of every session reachable from a mount. */
  predicate Valid(s: Session) {
    && Api.Valid(s.mgr)
    // the poll runs exactly while tracking, and so does the referenced timer
    && PollScheduled(s) == s.state.isTracking
    && s.interval.Some? == s.state.isTracking
    // the poll fires every 5 s and every report timer every 30 s
    && (s.poll.Some? ==> s.poll.value == STATUS_POLL_MS)
    && (forall t :: t in LiveTimers(s) ==> t.periodMs == TRACKING_INTERVAL_MS)
    // a frame has been accepted iff there is a last successful call, and
    // that call came with a position
    && (s.state.apiCallCount > 0 <==> s.state.lastApiCall.Some?)
    && (s.state.lastApiCall.Some? ==> s.state.lastLocation.Some?)
  }

  lemma MountIsValid(mgr: Api.Manager)
    requires Api.Valid(mgr)
    ensures Valid(Mount(mgr))
  {
  }

  /** Every step keeps the invariant. */
  lemma StepKeepsValid(s: Session, e: Event)
    requires Valid(s)
    ensures Valid(Step(s, e))
  {
    match e
    case Start(ids, env) =>
      if RequestLocationPermissions(env.platform) {
        var s1 := SendLocationToApi(s, ids, env.cycle);
        assert Valid(s1) by {
          assert LiveTimers(s1) == LiveTimers(s);
        }
      }
    case Stop =>
      var r := StopTracking(s);
      assert LiveTimers(r) == s.orphans;
      assert forall t :: t in s.orphans ==> t in LiveTimers(s);
    case Reconnecting =>
      assert LiveTimers(Reconnect(s)) == LiveTimers(s);
    case PollTick =>
    case ReportTick(i, env) =>
      if i < |LiveTimers(s)| {
        assert LiveTimers(Step(s, e)) == LiveTimers(s);
      }
    case SocketChange(rs) =>
      assert LiveTimers(Step(s, e)) == LiveTimers(s);
  }

  /** Every run keeps the invariant. */
  lemma {:induction false} RunKeepsValid(s: Session, es: seq<Event>)
    requires Valid(s)
    ensures Valid(Run(s, es))
    decreases |es|
  {
    if es != [] {
      StepKeepsValid(s, es[0]);
      RunKeepsValid(Step(s, es[0]), es[1..]);
    }
  }

  /** In one step the frames written only grow, by at most one, and the
      call count grows by exactly as many frames. */
  lemma StepCountsFrames(s: Session, e: Event)
    ensures var r := Step(s, e);
      && |s.mgr.written| <= |r.mgr.written| <= |s.mgr.written| + 1
      && r.mgr.written[..|s.mgr.written|] == s.mgr.written
      && r.state.apiCallCount - s.state.apiCallCount == |r.mgr.written| - |s.mgr.written|
  {
    match e
    case Start(ids, env) =>
    case Stop =>
    case Reconnecting =>
    case PollTick =>
    case ReportTick(i, env) =>
    case SocketChange(rs) =>
  }

  /** Over any run, `apiCallCount` never decreases and grows by exactly the
      number of frames the connection accepted. */
  lemma {:induction false} RunCountsFrames(s: Session, es: seq<Event>)
    ensures var r := Run(s, es);
      && |s.mgr.written| <= |r.mgr.written|
      && r.mgr.written[..|s.mgr.written|] == s.mgr.written
      && r.state.apiCallCount - s.state.apiCallCount == |r.mgr.written| - |s.mgr.written|
      && s.state.apiCallCount <= r.state.apiCallCount
    decreases |es|
  {
    if es != [] {
      var s1 := Step(s, es[0]);
      StepCountsFrames(s, es[0]);
      RunCountsFrames(s1, es[1..]);
      var r := Run(s, es);
      assert r.mgr.written[..|s.mgr.written|] == r.mgr.written[..|s1.mgr.written|][..|s.mgr.written|];
    }
  }

  /** From a fresh start, the call count is the number of frames sent. */
  lemma CountIsFramesSent(es: seq<Event>)
    ensures Run(Initial(), es).state.apiCallCount == |Run(Initial(), es).mgr.written|
  {
    RunCountsFrames(Initial(), es);
  }

  // ---------------------------------------------------------------------
  // Properties of single transitions

  /** Stopping twice is stopping once. */
  lemma StopIdempotent(s: Session)
    ensures StopTracking(StopTracking(s)) == StopTracking(s)
  {
  }

  /** `startTracking` that succeeds is exactly one report cycle followed by
      scheduling: the count, the last call and the last location are those
      the single cycle produced. */
  lemma StartRunsOneCycle(s: Session, ids: IdPair, env: StartEnv)
    requires RequestLocationPermissions(env.platform)
    ensures var c := SendLocationToApi(s, ids, env.cycle);
      var r := StartTracking(s, ids, env).session;
      && r.mgr == c.mgr
      && r.state.apiCallCount == c.state.apiCallCount
      && r.state.lastApiCall == c.state.lastApiCall
      && r.state.lastLocation == c.state.lastLocation
  {
  }

  /** A refused foreground permission refuses whatever the background
      answer, and a refused background permission alone does not. */
  lemma PermissionAnswers(fg: PermissionAnswer, bg: PermissionAnswer)
    ensures fg != Granted ==> !RequestLocationPermissions(Native(fg, bg))
    ensures RequestLocationPermissions(Native(Granted, Refused))
    ensures bg == Raised ==> !RequestLocationPermissions(Native(fg, bg))
  {
  }

  /** The status poll runs exactly while tracking, after every step from a
      valid session. */
  lemma PollScheduledIffTracking(s: Session, e: Event)
    requires Valid(s)
    ensures PollScheduled(Step(s, e)) <==> Step(s, e).state.isTracking
  {
    StepKeepsValid(s, e);
  }

  /** The source has no guard against a second `startTracking`. Starting
      twice and stopping leaves the first report timer running with no
      reference to clear it; its next tick still reports, reopens the
      connection and counts, although the session is no longer tracking. */
  lemma DoubleStartLeavesTimerRunning(s: Session, ids1: IdPair, ids2: IdPair, env1: StartEnv, env2: StartEnv, tick: CycleEnv)
    requires Valid(s) && !s.state.isTracking && s.orphans == []
    requires RequestLocationPermissions(env1.platform) && RequestLocationPermissions(env2.platform)
    requires tick.position.Some?
    requires tick.transport == Api.Transport(Api.CONNECTING, Some(Api.SocketEvent(Api.OpenEvent, 0)), Api.OPEN)
    ensures var stopped := Run(s, [Start(ids1, env1), Start(ids2, env2), Stop]);
      && !stopped.state.isTracking
      && LiveTimers(stopped) == [ReportTimer(ids1, TRACKING_INTERVAL_MS)]
      && var after := Step(stopped, ReportTick(0, tick));
         && !after.state.isTracking
         && after.state.apiCallCount == stopped.state.apiCallCount + 1
         && after.mgr.rws.Some?
  {
    var s1 := Step(s, Start(ids1, env1));
    var s2 := Step(s1, Start(ids2, env2));
    var s3 := Step(s2, Stop);
    var es := [Start(ids1, env1), Start(ids2, env2), Stop];
    assert es[1..] == [Start(ids2, env2), Stop];
    assert es[1..][1..] == [Stop];
    assert Run(s2, [Stop]) == Run(s3, []);
    assert Run(s, es) == s3;
    assert LiveTimers(s3) == [ReportTimer(ids1, TRACKING_INTERVAL_MS)];
  }

  /** The scenario of a first start where everything works: the position
      (12.34, 56.78) is obtained and a socket that opens accepts the frame. */
  lemma FirstStartScenario(ids: IdPair, t0: Timestamp, t1: Timestamp)
    ensures var pos := Coords(12.34, 56.78);
      var env := StartEnv(Native(Granted, Granted),
                          CycleEnv(Some(pos), t0, Api.Transport(Api.CONNECTING, Some(Api.SocketEvent(Api.OpenEvent, 0)), Api.OPEN), t1));
      var r := StartTracking(Initial(), ids, env);
      && r.started
      && r.session.state.apiCallCount == 1
      && r.session.state.lastLocation == Some(pos)
      && r.session.state.lastApiCall == Some(t1)
      && r.session.state.connectionStatus == Connected
      && r.session.mgr.written == [LocationData(ids.vehicleId, ids.driverId, 12.34, 56.78, t0)]
  {
  }
}
