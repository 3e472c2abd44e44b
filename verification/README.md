# GPS tracker reporting client — Dafny model

A model of the location-reporting core of a React Native GPS reporter, and
proofs about it. The app reports the device's position, tagged with a
vehicle id and a driver id, over one reconnecting WebSocket every 30 s, and
shows the session's statistics. Four pieces are modelled:

- **ApiService** (`api.dfy`, module `Api`): the process-wide connection
  manager. It holds an optional socket handle with a WebSocket ready state
  (CONNECTING 0, OPEN 1, CLOSING 2, CLOSED 3, or any other number). It creates
  a socket lazily, and `sendLocationData` waits for a connecting socket
  (open event, error event or 5000 ms timeout) and writes the frame only when
  the socket is OPEN. `closeConnection` forgets the handle, and
  `getConnectionStatus` reports one of six statuses. The socket library is an
  oracle (`Api.Transport`): it supplies the ready state of a new socket, the
  first `open` or `error` event during a wait and when it comes, and the
  state the socket settles in.
- **useLocationTracking** (`location_tracking.dfy`, module
  `LocationTracking`): the tracking session. It is a record holding the
  `TrackingState`, the manager, the report interval referenced by
  `intervalRef`, the report intervals no longer referenced, and the status
  poll. Each transition is a pure function: a report cycle, `startTracking`,
  `stopTracking`, `reconnect`, a poll tick, and the status effect React
  re-runs when `isTracking` changes. The position, the permission answers,
  the two clock readings and the socket's behaviour are inputs. `Run` folds
  a sequence of events, and the invariants are proved over every run.
- **TrackingForm** (`tracking_form.dfy`): the handlers of the id form. These
  are validation by `trim`, submit (save, then call `onSubmit` with the
  trimmed ids), clear, per-field error clearing on edit, and loading of the
  stored ids. `String.prototype.trim` is modelled in `js_string.dfy` over the
  ECMAScript WhiteSpace and LineTerminator characters.
- **StorageService** (`storage.dfy`): `saveIds`, `getIds` and `clearIds`
  over a key→string map standing in for AsyncStorage, with backend failure
  as an input.

`types.dfy` holds the records of `types/tracking.ts`. The connection status
is an enumeration rather than a free string, and `StoredIds` and `FormData`
are one type because their shapes are identical. `wrappers.dfy` holds
`Option` (for `null`) and `Result` (for thrown errors).

## Behaviour of the code worth noting


- `lastApiCall` is a second clock reading taken after the send. It is not the
  timestamp stamped on the frame (hooks/useLocationTracking.ts:134,146).
  `CycleEnv` therefore carries `frameTime` and `recordTime` separately.
- Latitude and longitude are not range-checked anywhere, so the model adds no
  range check.
- A report cycle does not look at `isTracking`, so its result is always
  applied. Because `startTracking` has no guard against a second call and
  overwrites `intervalRef.current` without clearing the timer it held, a
  timer can outlive `stopTracking`. It then keeps reporting and re-opens the
  connection. `LocationTracking.DoubleStartLeavesTimerRunning` states this.
- Besides the 5 s poll, the status effect checks the status once every time
  `isTracking` changes, including at mount (`LocationTracking.Settle`,
  `LocationTracking.Mount`).
- The form keeps the untrimmed text in its fields. Only the saved and
  submitted values are trimmed.

## Model

| member | source | states |
|---|---|---|
| Types.ParseStatus | types/tracking.ts:6 | a status string is accepted only if it is one of the six status strings, and then it names exactly that status |
| Types.StatusTextRoundTrip | types/tracking.ts:6 | every status survives conversion to its string and back, so the enumeration loses nothing against the string field |
| JsString.TrimStart | components/TrackingForm.tsx:45-51 | the result is a suffix of the input, everything dropped is whitespace, and it does not start with whitespace |
| JsString.TrimEnd | components/TrackingForm.tsx:45-51 | the result is a prefix of the input, everything dropped is whitespace, and it does not end with whitespace |
| JsString.Trim | components/TrackingForm.tsx:45-51 | `trim()` yields a contiguous piece of the input, everything dropped before and after it is whitespace, it has no whitespace at either end, and it is empty iff the input is all whitespace |
| JsString.SkipWsFrom | components/TrackingForm.tsx:45-51 | the scan forward stops at the first non-whitespace character at or after its start, everything it passes is whitespace, and it stays within the string |
| JsString.SkipWsBack | components/TrackingForm.tsx:45-51 | the scan backward stops just past the last non-whitespace character above its lower bound, everything it passes is whitespace, and it never crosses the bound |
| JsString.TrimIsStartThenEnd | components/TrackingForm.tsx:45-51 | `trim()` is the same as `trimStart()` followed by `trimEnd()` |
| JsString.TrimKeepsTrimmed | components/TrackingForm.tsx:67 | a value with no whitespace at either end is left unchanged by `trim()` |
| JsString.TrimIdempotent | components/TrackingForm.tsx:67 | trimming an already trimmed value changes nothing |
| Api.GetConnection | services/api.ts:11-36 | an existing handle is returned unchanged; with none, exactly one new socket is created for the endpoint with the configured options and becomes the live handle |
| Api.GetConnectionIdempotent | services/api.ts:11-36 | a second `getConnection` returns the same handle and creates no socket, so at most one handle exists |
| Api.ResolveWait | services/api.ts:43-66 | the wait on a connecting socket ends opened or errored iff that event comes before the 5000 ms timeout, and times out iff no event comes in time |
| Api.SendLocationData | services/api.ts:38-80 | resolves to true iff the socket is OPEN at the check (at once, or after a wait ended by the open event); the frame is written iff true; afterwards the handle's ready state is the one the wait settled in, or unchanged when there was no wait; a socket is created only when none exists; a CLOSING or CLOSED socket fails at once and is kept |
| Api.FailedWaitNeverSends | services/api.ts:43-79 | when the socket is connecting and the wait ends in an error event or the 5000 ms timeout, the result is false and no frame is written |
| Api.CloseConnection | services/api.ts:82-87 | after closing no handle remains; the count of sockets created and the frames written are kept |
| Api.CloseConnectionIdempotent | services/api.ts:82-90 | after `closeConnection` the status is "disconnected", and closing twice equals closing once |
| Api.SendAfterCloseUsesFreshSocket | services/api.ts:82-87 | the first send after a close creates a new socket, never the closed one |
| Api.GetConnectionStatus | services/api.ts:89-104 | "disconnected" iff there is no handle; "unknown" iff the ready state is none of the four standard ones; otherwise the status of exactly that ready state |
| Api.StatusRoundTrip | services/api.ts:92-103 | a ready state is standard iff it is recovered from its status; no handle ever reads as "disconnected" |
| Api.TransportEvent | services/api.ts:13-20 | a socket lifecycle event inside the library changes only the live handle's ready state, and never creates or removes a handle |
| Storage.SaveIds | services/storage.ts:10-20 | writes exactly the keys `vehicle_id` and `driver_id` with the given values and keeps every other key; a backend failure becomes "Failed to save data" |
| Storage.GetIds | services/storage.ts:22-41 | returns the pair iff both stored values exist and are non-empty; a read failure becomes null |
| Storage.ClearIds | services/storage.ts:43-53 | removes exactly the two id keys; a backend failure becomes "Failed to clear data" |
| Storage.SaveThenGet | services/storage.ts:12-33 | after a successful save, `getIds` returns the saved pair iff both values are non-empty |
| Storage.ClearThenGet | services/storage.ts:29-48 | after a successful clear, `getIds` returns null |
| Storage.SaveOverwrites | services/storage.ts:12-15 | a second save fully replaces the first |
| LocationTracking.Mount | hooks/useLocationTracking.ts:10-34 | a mounted hook keeps the shared manager as it is, is not tracking, has null lastApiCall and lastLocation, count 0, no timers and no poll, and the manager's status, which is "disconnected" when no socket exists |
| LocationTracking.MountIsValid | hooks/useLocationTracking.ts:10-16 | the initial state satisfies the session invariant |
| LocationTracking.RequestLocationPermissions | hooks/useLocationTracking.ts:49-83 | on the web, granted iff the browser yields a position; on a device, granted iff the foreground request is granted and neither request throws |
| LocationTracking.PermissionAnswers | hooks/useLocationTracking.ts:61-82 | foreground denial refuses whatever the background answer; background denial alone still grants; an exception refuses |
| LocationTracking.SendLocationToApi | hooks/useLocationTracking.ts:121-154 | no position: the session is unchanged and nothing is sent. With a position: lastLocation is that position; if the send is accepted the frame is written, the count rises by 1 and lastApiCall is the recording time, otherwise all three stay; the manager afterwards is exactly the one `sendLocationData` leaves behind, and the recorded status is that socket's; isTracking and the timers are untouched |
| LocationTracking.Settle | hooks/useLocationTracking.ts:24-47 | after the status effect the poll is scheduled iff tracking; it changes only the status and the poll, and only when `isTracking` changed |
| LocationTracking.PollStatus | hooks/useLocationTracking.ts:25-40 | a poll tick changes only the status, to the manager's current status |
| LocationTracking.StartTracking | hooks/useLocationTracking.ts:156-183 | with permission refused it returns false and changes nothing; with permission granted it returns true, is tracking, polls, references a new 30000 ms timer and adds it to the running timers, writes at most one frame, and raises the count by exactly the frames written |
| LocationTracking.StartRunsOneCycle | hooks/useLocationTracking.ts:168-182 | a successful start has exactly the connection, count, lastApiCall and lastLocation of a single report cycle |
| LocationTracking.FirstStartScenario | hooks/useLocationTracking.ts:156-182 | first start with permission, position (12.34, 56.78) and a new connecting socket whose open event comes gives count 1, that location, status "connected" and one frame |
| LocationTracking.StopTracking | hooks/useLocationTracking.ts:185-208 | not tracking, status "disconnected", no handle, no referenced timer, no poll; count, lastApiCall, lastLocation and the frames written are unchanged; unreferenced timers are not cleared |
| LocationTracking.StopIdempotent | hooks/useLocationTracking.ts:185-207 | stopping twice equals stopping once |
| LocationTracking.Reconnect | hooks/useLocationTracking.ts:223-226 | only the connection is closed; the tracking record, the timers and the poll are unchanged |
| LocationTracking.StepKeepsValid | hooks/useLocationTracking.ts:10-226 | every transition keeps the invariant: poll and referenced timer exist iff tracking, the poll has a 5000 ms period and every report timer a 30000 ms period, the live socket is the newest one and was made for the endpoint with the configured options, count > 0 iff a lastApiCall exists, and a lastApiCall implies a lastLocation |
| LocationTracking.RunKeepsValid | hooks/useLocationTracking.ts:10-226 | the invariant holds after any sequence of transitions |
| LocationTracking.PollScheduledIffTracking | hooks/useLocationTracking.ts:36-47 | after every transition the status poll is scheduled iff the session is tracking |
| LocationTracking.StepCountsFrames | hooks/useLocationTracking.ts:141-149 | in one transition the frames written grow by at most one, and the count grows by exactly as many |
| LocationTracking.RunCountsFrames | hooks/useLocationTracking.ts:143-149 | over any run the count never decreases and grows by exactly the number of frames the connection accepted |
| LocationTracking.CountIsFramesSent | hooks/useLocationTracking.ts:143-149 | from a fresh start, `apiCallCount` equals the number of frames sent |
| LocationTracking.DoubleStartLeavesTimerRunning | hooks/useLocationTracking.ts:171-193 | start, start, stop leaves the first 30 s timer running unreferenced; its tick still reports, re-opens the connection and raises the count while not tracking |
| TrackingForm.Validate | components/TrackingForm.tsx:42-52 | a field gets its "required" error iff its text is all whitespace, i.e. trims to "" |
| TrackingForm.ValidateForm | components/TrackingForm.tsx:42-55 | stores the new errors and returns true iff the error record is empty, iff both fields are non-blank |
| TrackingForm.HandleSubmit | components/TrackingForm.tsx:57-81 | invalid: error banner, no save, no submit; valid: the trimmed values are saved and only then submitted; a failed save gives an error banner and no submit; what is submitted is non-empty, trimmed, and what the store then returns; the field text is never changed |
| TrackingForm.SavedIdsReadBack | components/TrackingForm.tsx:66-74 | the trimmed ids of a valid form are non-empty, stable under trimming, and read back from the store after the save |
| TrackingForm.ClearForm | components/TrackingForm.tsx:83-98 | a successful clear returns the form to its initial fields and errors, with the success banner; the store is exactly the store with the two id keys removed, so nothing is left to load; a failed clear changes only the banner |
| TrackingForm.EditVehicleId | components/TrackingForm.tsx:109-114 | editing the vehicle field takes the text and drops only a present vehicle error; driver error and banner stay |
| TrackingForm.EditDriverId | components/TrackingForm.tsx:128-133 | editing the driver field takes the text and drops only a present driver error; vehicle error and banner stay |
| TrackingForm.EditClearsOnlyItsError | components/TrackingForm.tsx:109-132 | after validation, editing one field clears exactly that field's error |
| TrackingForm.LoadStoredIds | components/TrackingForm.tsx:31-40 | a stored pair replaces the form data wholesale; with nothing stored or a failed read the form is unchanged |
| TrackingForm.SubmitThenLoad | components/TrackingForm.tsx:31-74 | a successful submit followed by a load shows exactly the submitted ids |
| TrackingForm.ClearThenLoad | components/TrackingForm.tsx:83-91 | after a successful clear a load leaves the emptied form unchanged |

## Left out

- Rendering (JSX, styles, `isLoading`), components/TrackingStatus.tsx and components/TrackingControls.tsx: these are view code. Their only logic is locale-dependent date formatting and float formatting.
- The screen composition of app/(tabs)/index.tsx and settings.tsx is not part of this model. `onSubmit` is represented by the `submitted` output of `HandleSubmit`.
- The reconnecting-websocket library is not modelled. Back-off, retries and the timing of its events are abstracted into the `Api.Transport` inputs and `Api.TransportEvent`. `Api.SOCKET_OPTIONS` only records the configured numbers on each handle.
- Time is not simulated. The 30000 ms and 5000 ms intervals are timers that fire as `ReportTick` and `PollTick` events, and the 5000 ms connection timeout is compared with the time of the first socket event (`Api.ResolveWait`). An event at exactly 5000 ms is counted as too late, because the order of a timer and an event due at the same instant is not visible.
- Overlapping asynchronous cycles, the interleaving of the poll with a report cycle, and stale React closures are concurrency. Every transition is modelled as one atomic step.
- The model has a single hook instance. ApiService is process-wide, so other callers of `send`/`close` would appear as further events on the same manager.
- `JSON.stringify`, console logging and `new Date().toISOString()` are left out. Frames are kept as `LocationData` records, and timestamps are opaque clock inputs.
- Positioning is an input. `getCurrentLocation`'s web and native paths, including their caught errors, become an optional position.
- The web permission path in which `navigator.geolocation` itself throws is not modelled. That rejection escapes `requestLocationPermissions`'s `try`, because the promise is returned without `await`.
- A throwing `new ReconnectingWebSocket(...)` is not modelled. The URL is a constant, and such a throw would only turn into a `false` result.
- `locationSubscriptionRef` is never assigned in the source, so its clean-up branch in `stopTracking` is dead and is not modelled.
- Unmount clean-up calls `stopTracking` and is covered by `LocationTracking.StopTracking`.
- Storage.SaveIds: a failing `multiSet` is modelled as writing nothing, because whether AsyncStorage can partially write is not visible. Storage.ClearIds has the same limitation for `multiRemove`.
- Latitude and longitude are exact reals, not IEEE doubles. `apiCallCount` is an unbounded natural; JavaScript numbers count exactly up to 2^53.
