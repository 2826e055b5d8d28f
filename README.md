# road-trip, modelled in Dafny

road-trip lets a group of people on a trip share a chat room, see each other
on a map and hold a voice call. It has two halves:

- a React Native client (`road-trip-app`), with a location tracker, a socket
  wrapper, a global store, the call orchestration over WebRTC, and screens;
- a Rust backend (`road-trip-backend`, axum and sea-orm), with services over
  the database tables, an authentication gate, cookies, configuration, HTTP
  handlers, and a WebSocket relay that fans events out per room.

This project models the stateful and decision-making core of both halves and
proves what each piece promises.

Layout, by module:

- `ClientTypes`, `Json`, `Text`, `Sequences` and `Wrappers` are shared
  vocabulary: record shapes, JSON objects, JavaScript and Rust trimming and
  splitting, stable sorting, and `Option`/`Result`.
- Client modules:
  - `AppStore` is the Zustand store. Every action is a function on one
    `AppState` value.
  - `LocationTracker` is the location service: a class whose fields mirror the
    service's own, proved against a `Tracker` value.
  - `SignalingChannel` is the socket wrapper: connection state, reconnect
    back-off, the send guard and the inbound dispatcher.
  - `PeerSession` is the WebRTC wrapper, over abstract connection, stream and
    track objects.
  - `VoiceCallClient` is the call orchestration.
  - `ChatScreen`, `MapScreen`, `VoiceCallScreen` and `AuthForms` hold the
    decision logic inside the screens.
- Backend modules:
  - `BackendTables` is one `Database` object with a sequence of rows per
    table.
  - `AuthService`, `RoomService`, `LocationStore`, `MessageStore` and
    `CallSignaling` are the services. Each is a class over the database,
    specified by functions on the tables.
  - `AuthGate` is the cookie middleware.
  - `SessionCookie` builds the cookies.
  - `ServerConfig` reads the environment.
  - `MessageHandlers` and `LocationHandlers` are the HTTP handlers; `HttpReply`
    holds their status codes.
  - `RelayEvents` is the socket event wire format; `Relay` is the room hub and
    the per-frame dispatch.
- `WireCompat` relates the frames the client writes to what the server reads.

Conventions of the model:

- Fresh UUIDs, session tokens and the clock reading are parameters.
- Backend times are whole seconds; client times are milliseconds.
- A database write that would break a primary or unique key answers
  `Err(DbError)`; the tables never hold such a row.
- The results of device and network calls arrive as parameters: permission
  answers, media grants, REST responses. What the client sends is kept in
  sequence fields, so contracts can say what was sent and in which order.

## Model

| member | source | states |
|---|---|---|
| AppStore.InitialState | road-trip-app/app/store/useAppStore.ts:34-43 | no user, room, call or error; empty room, message and location lists; not loading |
| AppStore.SetUser | road-trip-app/app/store/useAppStore.ts:48 | sets the user and leaves every other field as it was |
| AppStore.SetCurrentRoom | road-trip-app/app/store/useAppStore.ts:50 | sets the current room and also empties the message list; nothing else changes |
| AppStore.SetRooms | road-trip-app/app/store/useAppStore.ts:52 | replaces the room list only |
| AppStore.AddRoom | road-trip-app/app/store/useAppStore.ts:54-57 | appends the room at the end; the earlier rooms keep their positions; nothing else changes |
| AppStore.AddMessage | road-trip-app/app/store/useAppStore.ts:59-62 | appends the message at the end; the earlier messages keep their positions; nothing else changes |
| AppStore.SetMessages | road-trip-app/app/store/useAppStore.ts:64 | replaces the message list only |
| AppStore.FindSlot | road-trip-app/app/store/useAppStore.ts:68-70 | `findIndex`: the first index whose entry has the same user and room, or -1 when there is none |
| AppStore.UpdateLocation | road-trip-app/app/store/useAppStore.ts:66-79 | replaces the first entry with the same user and room in place, keeping the length and every other entry; appends when there is none; nothing else changes |
| AppStore.SetLocations | road-trip-app/app/store/useAppStore.ts:81 | replaces the location list only |
| AppStore.SetCallState | road-trip-app/app/store/useAppStore.ts:83 | replaces the call state only |
| AppStore.SetIncomingCall | road-trip-app/app/store/useAppStore.ts:85-93 | the call state becomes (call, incoming, not active, duration 0), whatever it was before |
| AppStore.SetCallAccepted | road-trip-app/app/store/useAppStore.ts:95-110 | the call is set, not incoming and active; it keeps the old duration, or 0 when there was no call state |
| AppStore.SetCallRejected | road-trip-app/app/store/useAppStore.ts:112-115 | clears the call state only |
| AppStore.EndCall | road-trip-app/app/store/useAppStore.ts:117-120 | clears the call state only |
| AppStore.SetLoading | road-trip-app/app/store/useAppStore.ts:122 | sets the loading flag only |
| AppStore.SetError | road-trip-app/app/store/useAppStore.ts:124 | sets the error only |
| AppStore.Reset | road-trip-app/app/store/useAppStore.ts:126 | from any state, gives back the initial state |
| AppStore.UpdateLocationKeepsSlotsUnique | road-trip-app/app/store/useAppStore.ts:66-79 | if no two entries share a (user, room) slot, the same holds after an upsert |
| AppStore.UpdateLocationFindsIt | road-trip-app/app/store/useAppStore.ts:66-79 | after an upsert the new location is in the list, and it is what the slot search finds |
| AppStore.FindSlotUnique | road-trip-app/app/store/useAppStore.ts:68-70 | the search returns the index of the first entry with the slot, whatever comes after it |
| AppStore.UpdateLocationIdempotent | road-trip-app/app/store/useAppStore.ts:66-79 | upserting the same location twice gives the same state as upserting it once |
| AppStore.IncomingThenAccepted | road-trip-app/app/store/useAppStore.ts:85-110 | accepting right after an incoming call gives an active, non-incoming call with duration 0 |
| AppStore.RejectIsEnd | road-trip-app/app/store/useAppStore.ts:112-120 | rejecting a call and ending it leave the same state |
| AppStore.Store.constructor | road-trip-app/app/store/useAppStore.ts:34-45 | the store starts in the initial state |
| LocationTracker.ShouldSendLocationUpdate | road-trip-app/app/services/locationService.ts:48-73 | true when nothing was sent yet; false when less than 30000 ms have passed, checked before any distance; otherwise true exactly when the distance is at least 100 m |
| LocationTracker.Remove | road-trip-app/app/services/locationService.ts:168-170 | `Set.delete`: removes exactly that room and keeps the rest without duplicates |
| LocationTracker.PostsTo | road-trip-app/app/services/locationService.ts:332-342 | one round posts the same fix once to each active room, in the set's order |
| LocationTracker.SendToActiveRooms | road-trip-app/app/services/locationService.ts:302-347 | one round changes only the last known fix, the last sent fix and the posts; posts are only appended, at most one per active room |
| LocationTracker.StartBackground | road-trip-app/app/services/locationService.ts:271-292 | the interval is set exactly when it was set already or permission is granted; rooms, watch and current room are untouched; with an interval nothing changes |
| LocationTracker.AddRoom | road-trip-app/app/services/locationService.ts:154-166 | the room is active afterwards, the set gains exactly that room, re-adding changes nothing, and the watch and current room are untouched |
| LocationTracker.RemoveRoom | road-trip-app/app/services/locationService.ts:168-180 | the room is no longer active; watch, current room, posts and last sent fix are untouched |
| LocationTracker.WatchRoom | road-trip-app/app/services/locationService.ts:192-269 | the same room already watched: no change; else with permission and a working watch the room is watched and current, a failing watch leaves nothing watched and no current room, and without permission the room is still made current; rooms and posts untouched |
| LocationTracker.StartTracking | road-trip-app/app/services/locationService.ts:182-269 | with permission and a working watch the room ends up watched and current; the current room is that room or none; an already active room leaves the set as it was |
| LocationTracker.WatchSample | road-trip-app/app/services/locationService.ts:229-259 | a fix always becomes the last known one, adds at most one post and changes nothing but the fixes, posts and socket updates |
| LocationTracker.AppStateChange | road-trip-app/app/services/locationService.ts:85-114 | the foreground flag takes the new value; no transition, no change |
| LocationTracker.LeaveCurrent | road-trip-app/app/services/locationService.ts:360-375 | only the current room is left, a removed room never stays current, and the active rooms are kept |
| LocationTracker.StopTracking | road-trip-app/app/services/locationService.ts:349-411 | a stopped room is no longer active nor current; an inactive room changes nothing; stopping all leaves no room and no current room |
| LocationTracker.SendRoundThrottled | road-trip-app/app/services/locationService.ts:302-347 | background round: no rooms, no permission or no fix changes nothing; a rejected fix moves only the last known fix; an admitted one is stamped now and posted to every active room in order |
| LocationTracker.StartBackgroundValid | road-trip-app/app/services/locationService.ts:271-292 | starting background tracking keeps the tracker valid and leaves the active rooms unchanged |
| LocationTracker.AddRoomValid | road-trip-app/app/services/locationService.ts:154-166 | adding a room keeps the tracker valid |
| LocationTracker.WatchRoomValid | road-trip-app/app/services/locationService.ts:192-269 | registering the watch for a room keeps the tracker valid and leaves the active rooms alone |
| LocationTracker.StartTrackingValid | road-trip-app/app/services/locationService.ts:182-269 | starting tracking keeps the tracker valid; afterwards the room is active, unless that room was already being watched |
| LocationTracker.RemoveRoomValid | road-trip-app/app/services/locationService.ts:168-180 | removing a room keeps the tracker valid |
| LocationTracker.WatchSampleValid | road-trip-app/app/services/locationService.ts:229-259 | handling a fix keeps the tracker valid |
| LocationTracker.AppStateChangeValid | road-trip-app/app/services/locationService.ts:85-114 | a foreground or background switch keeps the tracker valid |
| LocationTracker.LeaveCurrentValid | road-trip-app/app/services/locationService.ts:360-375 | leaving the current room, and moving to the next active one, keeps the tracker valid |
| LocationTracker.StopTrackingValid | road-trip-app/app/services/locationService.ts:349-411 | stopping one room or all rooms keeps the tracker valid |
| LocationTracker.WatchSampleThrottled | road-trip-app/app/services/locationService.ts:229-259 | a fix is posted, and becomes the last sent fix stamped `now`, only when the admission rule accepts it; a rejected fix only updates the last known fix |
| LocationTracker.AddRoomIdempotent | road-trip-app/app/services/locationService.ts:154-166 | adding a room a second time changes nothing |
| LocationTracker.AddRoomStartsBackgroundOnlyWhenNeeded | road-trip-app/app/services/locationService.ts:154-166 | background tracking starts only for a new room, while the app is in the background and no interval exists |
| LocationTracker.RemoveRoomEffect | road-trip-app/app/services/locationService.ts:168-180 | removes exactly the given room; clears the interval exactly when the set becomes empty |
| LocationTracker.GoingToBackground | road-trip-app/app/services/locationService.ts:100-112 | going to the background with a current or active room drops the watch and starts the interval when permission is granted; with neither, nothing changes but the foreground flag |
| LocationTracker.StopAllClears | road-trip-app/app/services/locationService.ts:349-354 | stopping without a room clears the watch, the interval, the current room and the active rooms |
| LocationTracker.StopInactiveRoomUnchanged | road-trip-app/app/services/locationService.ts:392-401 | stopping a room that is not active changes nothing |
| LocationTracker.StopLastRoomStopsAll | road-trip-app/app/services/locationService.ts:356-391 | stopping the only active room leaves neither a watch nor an interval |
| LocationTracker.LocationService.constructor | road-trip-app/app/services/locationService.ts:28-83 | starts with no watch, no interval, no rooms and nothing sent, foreground as given |
| LocationTracker.LocationService.StopBackgroundTracking | road-trip-app/app/services/locationService.ts:294-300 | clears the interval when there is one; otherwise changes nothing |
| LocationTracker.LocationService.RemoveWatch | road-trip-app/app/services/locationService.ts:105-109 | removes the watch subscription and clears `isWatching` |
| LocationTracker.LocationService.SendLocationToActiveRooms | road-trip-app/app/services/locationService.ts:302-347 | one round, as `SendToActiveRooms`: nothing without rooms, permission or a fix; otherwise, if admitted, the fix is posted to every active room in order and recorded as the last sent fix |
| LocationTracker.LocationService.AppendPosts | road-trip-app/app/services/locationService.ts:332-342 | the loop posts the fix to each room in order and changes nothing else |
| LocationTracker.LocationService.StartBackgroundTracking | road-trip-app/app/services/locationService.ts:271-292 | no-op with an interval already set or without permission; otherwise sends once, then sets the interval |
| LocationTracker.LocationService.AddActiveRoom | road-trip-app/app/services/locationService.ts:154-166 | the object's new state is the one `AddRoom` gives |
| LocationTracker.LocationService.RemoveActiveRoom | road-trip-app/app/services/locationService.ts:168-180 | the object's new state is the one `RemoveRoom` gives |
| LocationTracker.LocationService.StartLocationTracking | road-trip-app/app/services/locationService.ts:182-269 | the object's new state is the one `StartTracking` gives: early returns, room switch, permission and watch failure |
| LocationTracker.LocationService.WatchActiveRoom | road-trip-app/app/services/locationService.ts:192-269 | the object's new state is the one `WatchRoom` gives: the second early return, the switch of room, permission and watch failure |
| LocationTracker.LocationService.OnWatchSample | road-trip-app/app/services/locationService.ts:229-259 | a fix from a registered watch updates the state as `WatchSample` says |
| LocationTracker.LocationService.OnBackgroundTick | road-trip-app/app/services/locationService.ts:289-291 | each interval tick is one round of sending to the active rooms, refused permission included |
| LocationTracker.LocationService.HandleAppStateChange | road-trip-app/app/services/locationService.ts:85-114 | the object's new state is the one `AppStateChange` gives |
| LocationTracker.LocationService.StopLocationTracking | road-trip-app/app/services/locationService.ts:349-411 | the object's new state is the one `StopTracking` gives |
| LocationTracker.LocationService.LeaveCurrentRoom | road-trip-app/app/services/locationService.ts:360-375 | the object's new state is the one `LeaveCurrent` gives |
| LocationTracker.LocationService.TrackNextRoom | road-trip-app/app/services/locationService.ts:370-374 | in the foreground with rooms left, the state becomes the one `StartTracking` gives for the first active room; otherwise nothing changes |
| LocationTracker.LocationService.IsTracking | road-trip-app/app/services/locationService.ts:413-415 | reports `isWatching`; when true, a watch subscription exists |
| SignalingChannel.ToWire | road-trip-app/app/services/websocketService.ts:164-227 | the JSON object each send helper writes: its `type`; `user_id` only on typing notices that have one; never an `initiator_id`; on call-control and signalling events, `call_id` exactly when the caller gave one |
| SignalingChannel.ToPayload | road-trip-app/app/services/websocketService.ts:85-92 | the parsed frame seen through the fields the dispatcher reads, each a string only when the JSON value is one |
| SignalingChannel.InboundMessage | road-trip-app/app/services/websocketService.ts:105-118 | the stored message carries the event's non-empty message, room and user ids, its text and image, type `text` when none is given, stamped now |
| SignalingChannel.InboundLocation | road-trip-app/app/services/websocketService.ts:122-132 | the stored location carries the event's non-empty user id and its coordinates, no id, room or timestamp, and `updated_at` now |
| SignalingChannel.HandleMessage | road-trip-app/app/services/websocketService.ts:95-153 | no or empty `type` changes nothing; each listed type makes its store change; a rejected call is exactly `SetCallRejected` and an ended call exactly `EndCall` on the store; any other type changes nothing; user, room and rooms are never touched |
| SignalingChannel.Backoff | road-trip-app/app/services/websocketService.ts:51-62 | the i-th reconnect delay after a reset is 1000 × (i + 1) ms |
| SignalingChannel.WebSocketService.constructor | road-trip-app/app/services/websocketService.ts:21-26 | no socket, not connected, no attempts, nothing sent or scheduled |
| SignalingChannel.WebSocketService.ScheduleReconnect | road-trip-app/app/services/websocketService.ts:51-62 | with 5 attempts used, nothing; otherwise the counter goes up by one and a timer of 1000 × attempts ms is set |
| SignalingChannel.WebSocketService.Connect | road-trip-app/app/services/websocketService.ts:28-40 | does nothing when the socket is open; otherwise replaces it with a connecting socket, or, when creation throws, schedules a reconnect with delay 1000 × attempts while fewer than five attempts are used and changes nothing otherwise |
| SignalingChannel.WebSocketService.Disconnect | road-trip-app/app/services/websocketService.ts:42-49 | with a socket: closes it, forgets it, not connected, attempts 0; without one: nothing changes |
| SignalingChannel.WebSocketService.OnOpen | road-trip-app/app/services/websocketService.ts:67-71 | connected, and the attempt counter is reset to 0 |
| SignalingChannel.WebSocketService.OnClose | road-trip-app/app/services/websocketService.ts:73-79 | not connected; a reconnect is scheduled whenever attempts remain, whether or not the close was deliberate |
| SignalingChannel.WebSocketService.Send | road-trip-app/app/services/websocketService.ts:155-161 | the frame is written only when the socket is open; otherwise it is dropped, with no queue |
| SignalingChannel.WebSocketService.SendMessage | road-trip-app/app/services/websocketService.ts:173-179 | sends an image message when an image URL is given, a text message otherwise |
| SignalingChannel.WebSocketService.SendTyping | road-trip-app/app/services/websocketService.ts:181-187 | sends a typing notice with the user's id, when there is a user |
| SignalingChannel.WebSocketService.OnMessage | road-trip-app/app/services/websocketService.ts:85-92 | a frame that is not JSON leaves the store as it was; a parsed one goes through the dispatcher |
| SignalingChannel.SignalingEventsIgnored | road-trip-app/app/services/websocketService.ts:149-150 | `voice-offer`, `voice-answer` and `ice-candidate` change nothing in the store |
| SignalingChannel.ZeroCoordinateDropped | road-trip-app/app/services/websocketService.ts:107-117 | a location update with latitude or longitude 0 is dropped |
| SignalingChannel.IncomingIsAlwaysIncoming | road-trip-app/app/services/websocketService.ts:133-136 | every `voice-call-incoming` marks the call incoming, also at the caller who started it |
| SignalingChannel.BoundedBackoff | road-trip-app/app/services/websocketService.ts:51-79 | between two resets at most five reconnects are scheduled, with delays 1000, 2000, ... up to 5000 ms |
| VoiceCallClient.ElapsedSeconds | road-trip-app/app/services/voiceCallService.ts:188-197 | `floor((now - start) / 1000)`: the whole seconds r with 1000·r ≤ now − start < 1000·(r + 1) |
| VoiceCallClient.AcceptProgress | road-trip-app/app/services/voiceCallService.ts:32-66 | how many of the four accept steps complete: all four exactly when logged in and every collaborator succeeds, none without a user |
| VoiceCallClient.VoiceCallService.constructor | road-trip-app/app/services/voiceCallService.ts:6-8 | no timer, start time 0, nothing done |
| VoiceCallClient.VoiceCallService.InitiateCall | road-trip-app/app/services/voiceCallService.ts:10-30 | without a user it fails with 'User not logged in' and sends nothing; with one, exactly one initiate event for the room goes through the send guard |
| VoiceCallClient.VoiceCallService.StartCallTimer | road-trip-app/app/services/voiceCallService.ts:186-198 | sets a new interval and records `now` as the start; an interval already running is replaced without being cleared |
| VoiceCallClient.VoiceCallService.StopCallTimer | road-trip-app/app/services/voiceCallService.ts:200-206 | no interval held and start time 0, also when none was running |
| VoiceCallClient.VoiceCallService.Tick | road-trip-app/app/services/voiceCallService.ts:188-197 | without a call state nothing changes; otherwise the duration becomes the whole seconds since the start and the other call fields stay |
| VoiceCallClient.VoiceCallService.AcceptCall | road-trip-app/app/services/voiceCallService.ts:32-66 | runs, in order, send accept, initialise with `call.id`, acquire the stream, start the timer; a failure stops there and is reported |
| VoiceCallClient.VoiceCallService.HandleOffer | road-trip-app/app/services/voiceCallService.ts:68-97 | initialises a connection only when none exists and acquires a stream only when none is held; sets the remote offer before creating and sending the answer |
| VoiceCallClient.VoiceCallService.CreateOfferForCall | road-trip-app/app/services/voiceCallService.ts:99-120 | in order: initialise, acquire the stream, create the offer, send it; succeeds exactly when every step can |
| VoiceCallClient.VoiceCallService.HandleAnswer | road-trip-app/app/services/voiceCallService.ts:122-131 | sets the answer as the remote description; fails, with nothing changed, when WebRTC is unavailable or no connection exists |
| VoiceCallClient.VoiceCallService.HandleIceCandidate | road-trip-app/app/services/voiceCallService.ts:133-141 | adds the remote candidate; fails, with nothing changed, when WebRTC is unavailable, when no connection exists, or when the candidate text is not JSON (the `SyntaxError` is rethrown) |
| VoiceCallClient.VoiceCallService.RejectCall | road-trip-app/app/services/voiceCallService.ts:143-155 | without a user, no send and no state change; with one, reject is sent and the call state cleared |
| VoiceCallClient.VoiceCallService.EndCall | road-trip-app/app/services/voiceCallService.ts:157-176 | without a user it fails; with one it sends end, cleans up WebRTC (every old track stopped, the connection closed), stops the timer and clears the call state |
| VoiceCallClient.VoiceCallService.CleanupSession | road-trip-app/app/services/voiceCallService.ts:168 | WebRTC's fields are cleared, every old local and remote track stopped and the old connection closed; the timer fields are kept and the step is logged |
| VoiceCallClient.VoiceCallService.Mute | road-trip-app/app/services/voiceCallService.ts:178-180 | every local audio track is disabled; other tracks are unchanged |
| VoiceCallClient.VoiceCallService.Unmute | road-trip-app/app/services/voiceCallService.ts:182-184 | every local audio track is enabled; other tracks are unchanged |
| PeerSession.WebRTCService.constructor | road-trip-app/app/services/webrtcService.ts:26-30 | no connection, streams or call id |
| PeerSession.WebRTCService.InitializePeerConnection | road-trip-app/app/services/webrtcService.ts:32-72 | stores a new connection configured with exactly the two STUN servers, and the call id; fails when WebRTC is unavailable |
| PeerSession.JsonEscapeSafe | road-trip-app/app/services/webrtcService.ts:87 | the SDP is written into the JSON string as `JSON.stringify` escapes it: no raw control character, and every quote escaped |
| PeerSession.WebRTCService.CreateOffer | road-trip-app/app/services/webrtcService.ts:74-88 | when WebRTC is unavailable, or without a connection ('Peer connection not initialized'), it fails; otherwise it asks for audio and no video, sets the offer as the local description and returns its JSON |
| PeerSession.WebRTCService.SetRemoteDescription | road-trip-app/app/services/webrtcService.ts:90-103 | fails when WebRTC is unavailable or without a connection; otherwise sets the remote description of the given type |
| PeerSession.WebRTCService.CreateAnswer | road-trip-app/app/services/webrtcService.ts:105-115 | fails when WebRTC is unavailable or without a connection; otherwise sets the answer as the local description and returns its JSON |
| PeerSession.WebRTCService.AddIceCandidate | road-trip-app/app/services/webrtcService.ts:117-126 | fails when WebRTC is unavailable or without a connection; with a connection, fails with `SyntaxError` and leaves the connection unchanged when `JSON.parse` rejects the text; otherwise appends the candidate to the connection's remote candidates |
| PeerSession.WebRTCService.GetLocalStream | road-trip-app/app/services/webrtcService.ts:128-155 | fails when WebRTC is unavailable or without media devices; requests audio only; stores the granted stream; adds its tracks to the connection only when a connection exists |
| PeerSession.WebRTCService.GetRemoteStream | road-trip-app/app/services/webrtcService.ts:157-159 | returns the stored remote stream |
| PeerSession.WebRTCService.SetAudioEnabled | road-trip-app/app/services/webrtcService.ts:161-175 | sets `enabled` on every local audio track; no local stream, no change |
| PeerSession.WebRTCService.MuteAudio | road-trip-app/app/services/webrtcService.ts:161-167 | every local audio track disabled; no track stopped |
| PeerSession.WebRTCService.UnmuteAudio | road-trip-app/app/services/webrtcService.ts:169-175 | every local audio track enabled; no track stopped |
| PeerSession.WebRTCService.Cleanup | road-trip-app/app/services/webrtcService.ts:177-198 | every local and remote track stopped, the connection closed, and all four fields null; safe when nothing is held |
| PeerSession.WebRTCService.OnIceCandidate | road-trip-app/app/services/webrtcService.ts:46-53 | a local candidate is sent, tagged with the call id, only when the candidate is non-null and a call id is set |
| PeerSession.WebRTCService.OnTrack | road-trip-app/app/services/webrtcService.ts:56-61 | the first stream of the event becomes the remote stream; none, no change |
| PeerSession.WebRTCService.OnConnectionStateChange | road-trip-app/app/services/webrtcService.ts:64-69 | the state `failed` with a connection tears the session down as `cleanup` does (tracks stopped, connection closed, fields cleared); otherwise nothing in the session's footprint changes |
| ChatScreen.Displayed | road-trip-app/app/screens/ChatScreen.tsx:38-42 | exactly the store messages of this room, as a permutation, sorted ascending by `created_at` |
| ChatScreen.DisplayedKeepsStoreOrder | road-trip-app/app/screens/ChatScreen.tsx:38-42 | messages with equal `created_at` keep their store order |
| ChatScreen.AfterLoad | road-trip-app/app/screens/ChatScreen.tsx:89-95 | page 0 replaces the list with the fetched page; a later page gives this room's messages then the page, dropping other rooms' |
| ChatScreen.TempMessage | road-trip-app/app/screens/ChatScreen.tsx:124-131 | the temporary message: id `temp-` + the time, this room, the text, type `text`, user id or empty |
| ChatScreen.ReplaceTemp | road-trip-app/app/screens/ChatScreen.tsx:139-142 | same length; each entry with the temporary id becomes the server's message, the others stay |
| ChatScreen.RemoveTemp | road-trip-app/app/screens/ChatScreen.tsx:149-150 | keeps exactly the entries whose id is not the temporary one |
| ChatScreen.FailedSendRestores | road-trip-app/app/screens/ChatScreen.tsx:124-150 | a failed send leaves this room's list as it was before the send |
| ChatScreen.SuccessfulSendAppends | road-trip-app/app/screens/ChatScreen.tsx:124-142 | a successful send leaves this room's earlier messages followed by the server's copy |
| ChatScreen.ChatScreenState.constructor | road-trip-app/app/screens/ChatScreen.tsx:31-35 | empty input, not loading, page 0, more pages assumed |
| ChatScreen.ChatScreenState.LoadMessages | road-trip-app/app/screens/ChatScreen.tsx:80-105 | requests the page; on success sets the list as `AfterLoad` says, `hasMore` to `total_pages > page + 1`, and the page; on failure keeps them; always ends not loading |
| ChatScreen.ChatScreenState.LoadMore | road-trip-app/app/screens/ChatScreen.tsx:154-158 | requests `page + 1` only when not already loading more and more pages remain, and otherwise changes nothing; a fetched page replaces the store list by this room's messages followed by the page, moves `page` on and sets `hasMore` from `total_pages`; a failed fetch keeps the store and the paging; both loading flags end cleared |
| ChatScreen.ChatScreenState.HandleSend | road-trip-app/app/screens/ChatScreen.tsx:117-152 | blank input does nothing; otherwise clears the input, adds the temporary message, then swaps it for the server's copy and sends on the socket, or removes it on failure |
| MapScreen.RoomLocations | road-trip-app/app/screens/MapScreen.tsx:21 | exactly the store locations whose room is this room |
| MapScreen.FindUser | road-trip-app/app/screens/MapScreen.tsx:81-82 | the position of the user's marker, or the length when the user has none |
| MapScreen.MinOf | road-trip-app/app/screens/MapScreen.tsx:100-106 | `Math.min(...)`: a member of the list no greater than any other |
| MapScreen.MaxOf | road-trip-app/app/screens/MapScreen.tsx:100-106 | `Math.max(...)`: a member of the list no smaller than any other |
| MapScreen.MarkersAreLatest | road-trip-app/app/screens/MapScreen.tsx:79-87 | the in-place map holds one entry per user, and it is the user's entry the reference definition picks |
| MapScreen.LatestIsMaximum | road-trip-app/app/screens/MapScreen.tsx:79-87 | with valid timestamps, each user's marker has the greatest timestamp among that user's locations |
| MapScreen.LatestIsFirstMaximum | road-trip-app/app/screens/MapScreen.tsx:79-87 | on a tie the earliest entry is kept |
| MapScreen.LatestPerUser | road-trip-app/app/screens/MapScreen.tsx:79-87 | the `forEach` loop builds exactly the marker list of the specification |
| MapScreen.Delta | road-trip-app/app/screens/MapScreen.tsx:108-115 | span × 1.5, or 0.1 for a span of 0, and never below 0.01 |
| MapScreen.GetRegion | road-trip-app/app/screens/MapScreen.tsx:90-117 | no markers: the fixed default region; otherwise both deltas are at least 0.01 |
| MapScreen.RegionShowsEveryMarker | road-trip-app/app/screens/MapScreen.tsx:100-116 | every marker lies inside the region |
| MapScreen.LatitudeExtremes | road-trip-app/app/screens/MapScreen.tsx:100-106 | the markers `Math.min` and `Math.max` pick hold the least and the greatest latitude, and every marker lies between them |
| MapScreen.LongitudeExtremes | road-trip-app/app/screens/MapScreen.tsx:100-106 | the same for longitude |
| MapScreen.RegionLatitudeFromExtent | road-trip-app/app/screens/MapScreen.tsx:100-115 | the centre latitude is the midpoint of the lowest and highest marker latitudes, and the delta comes from their span |
| MapScreen.RegionLongitudeFromExtent | road-trip-app/app/screens/MapScreen.tsx:100-115 | the same for longitude |
| VoiceCallScreen.JsRem | road-trip-app/app/screens/VoiceCallScreen.tsx:67 | JavaScript `%`: the remainder has the dividend's sign |
| VoiceCallScreen.FormatDuration | road-trip-app/app/screens/VoiceCallScreen.tsx:65-69 | for a non-negative count: digits, a colon, then exactly two digits |
| VoiceCallScreen.FormatDurationShape | road-trip-app/app/screens/VoiceCallScreen.tsx:65-69 | floored minutes, unpadded, then `:`, then the seconds left-padded with `0` to two digits |
| VoiceCallScreen.ParseDuration | road-trip-app/app/screens/VoiceCallScreen.tsx:65-69 | reads a displayed duration back: digits, a colon and two digits |
| VoiceCallScreen.FormatDurationRoundTrip | road-trip-app/app/screens/VoiceCallScreen.tsx:65-69 | the text of any non-negative duration reads back as that duration |
| VoiceCallScreen.FormatDurationExamples | road-trip-app/app/screens/VoiceCallScreen.tsx:65-69 | 65 gives `1:05`, 0 gives `0:00` and 600 gives `10:00` |
| VoiceCallScreen.IsInitiator | road-trip-app/app/screens/VoiceCallScreen.tsx:32 | strict equality with `user?.id`: a logged-in user is the initiator iff the ids match; with no user, iff the call has no initiator |
| VoiceCallScreen.Render | road-trip-app/app/screens/VoiceCallScreen.tsx:21-118 | nothing without a call state or call; the title is 'Calling...' iff the user is the initiator; Accept/Reject iff incoming and not active; duration, Mute and End iff active |
| VoiceCallScreen.ButtonsExclusive | road-trip-app/app/screens/VoiceCallScreen.tsx:77-115 | Accept/Reject and Mute/End are never shown together |
| VoiceCallScreen.IncomingThenAcceptedScreens | road-trip-app/app/screens/VoiceCallScreen.tsx:77-115 | after an incoming call the screen offers Accept/Reject; after accepting it offers Mute/End |
| VoiceCallScreen.ClearedCallLeaves | road-trip-app/app/screens/VoiceCallScreen.tsx:21-29 | after a rejection or an end the screen renders nothing and navigates back |
| VoiceCallScreen.VoiceCallScreenState.constructor | road-trip-app/app/screens/VoiceCallScreen.tsx:19 | starts unmuted |
| VoiceCallScreen.VoiceCallScreenState.HandleMute | road-trip-app/app/screens/VoiceCallScreen.tsx:56-63 | unmutes when muted and mutes otherwise, then flips `muted` |
| VoiceCallScreen.VoiceCallScreenState.HandleReject | road-trip-app/app/screens/VoiceCallScreen.tsx:42-45 | rejects the call and goes back, whatever the rejection did |
| VoiceCallScreen.VoiceCallScreenState.HandleEnd | road-trip-app/app/screens/VoiceCallScreen.tsx:47-54 | ends the call, and goes back only when ending succeeded |
| AuthForms.MatchesEmailIsPattern | road-trip-app/app/screens/LoginScreen.tsx:34 | the check accepts exactly the strings that match `^[^\s@]+@[^\s@]+\.[^\s@]+$` |
| AuthForms.MatchesEmailSound | road-trip-app/app/screens/LoginScreen.tsx:34 | every address the check accepts has a non-empty local part, `@`, and a domain with an inner `.`, with no white space and no second `@` |
| AuthForms.MatchesEmailComplete | road-trip-app/app/screens/LoginScreen.tsx:34 | every string of that shape is accepted by the check |
| AuthForms.EmailError | road-trip-app/app/screens/LoginScreen.tsx:32-36 | 'Email is required' iff blank after trimming; 'Invalid email format' iff not blank and the untrimmed text fails the pattern; none otherwise |
| AuthForms.PasswordError | road-trip-app/app/screens/LoginScreen.tsx:38-42 | 'Password is required' iff empty; the minimum-length error iff 1 to 5 characters; at most one error |
| AuthForms.LoginValidIff | road-trip-app/app/screens/LoginScreen.tsx:29-46 | the login form passes iff the e-mail matches the pattern and the password has at least 6 characters |
| AuthForms.RegisterValidIff | road-trip-app/app/screens/RegisterScreen.tsx:36-66 | the registration passes iff, in addition, the name is not blank and the confirmation equals the password; a mismatch is reported independently of the other password errors |
| AuthForms.PatternImpliesNotBlank | road-trip-app/app/screens/LoginScreen.tsx:32-36 | a matching address is never blank, so the two e-mail errors exclude each other |
| AuthForms.LoginForm.constructor | road-trip-app/app/screens/LoginScreen.tsx:21-24 | empty fields and no errors |
| AuthForms.LoginForm.Validate | road-trip-app/app/screens/LoginScreen.tsx:29-46 | replaces the errors with the new error map and returns true iff it is empty |
| AuthForms.LoginForm.HandleLogin | road-trip-app/app/screens/LoginScreen.tsx:48-69 | the typed fields are kept; makes no request when validation fails; otherwise sends one login request with those fields and stores the user, or sets the error |
| AuthForms.RegisterForm.constructor | road-trip-app/app/screens/RegisterScreen.tsx:21-31 | empty fields and no errors |
| AuthForms.RegisterForm.Validate | road-trip-app/app/screens/RegisterScreen.tsx:36-66 | replaces the errors with the new error map and returns true iff it is empty |
| AuthForms.RegisterForm.HandleRegister | road-trip-app/app/screens/RegisterScreen.tsx:68-89 | the typed fields are kept; makes no request when validation fails; otherwise sends one register request with those fields and stores the user, or sets the error |
| AuthService.Hash | road-trip-backend/src/utils/password.rs:7-17 | the stored hash is a PHC string and never the password itself |
| AuthService.VerifyPassword | road-trip-backend/src/utils/password.rs:20-29 | a string that is not a hash is 'Invalid password hash format'; otherwise a yes or no answer |
| AuthService.HashVerifies | road-trip-backend/src/utils/password.rs:36-44 | the right password verifies against its hash, and any other password does not |
| AuthService.Registered | road-trip-backend/src/services/auth_service.rs:18-50 | a used e-mail is 'User with this email already exists' and a used id a database error, both inserting nothing; otherwise exactly one row is appended with the id, a hash that is not the password, no avatar and `now` |
| AuthService.LoggedIn | road-trip-backend/src/services/auth_service.rs:52-82 | an unknown e-mail is 'Invalid email or password'; success needs the right password and appends exactly one session for the token and that user, expiring 7 days later; any other failure is a wrong password or a key clash |
| AuthService.FindUser | road-trip-backend/src/services/auth_service.rs:118-123 | the user with that id, or 'User not found' |
| AuthService.SessionUser | road-trip-backend/src/services/auth_service.rs:84-100 | succeeds only if a session with the token has `expires_at > now` and its user exists; otherwise 'Invalid or expired session' or 'User not found' |
| AuthService.AfterLogout | road-trip-backend/src/services/auth_service.rs:102-116 | deletes the session that holds the token, if there is one; otherwise the table stays as it was |
| AuthService.RegisterThenLogin | road-trip-backend/src/services/auth_service.rs:18-82 | after registering, the same e-mail and password log in as the new user, and another password is refused |
| AuthService.LoginSessionLifetime | road-trip-backend/src/services/auth_service.rs:66-100 | the new token validates to the user exactly until 7 days after login |
| AuthService.LogoutEndsSession | road-trip-backend/src/services/auth_service.rs:84-116 | after logout the token no longer validates |
| AuthService.AuthService.constructor | road-trip-backend/src/services/auth_service.rs:14-16 | the service works on the given database |
| AuthService.AuthService.Register | road-trip-backend/src/services/auth_service.rs:18-50 | the user table changes as `Registered` says, and no other table changes |
| AuthService.AuthService.Login | road-trip-backend/src/services/auth_service.rs:52-82 | the session table changes as `LoggedIn` says, and no other table changes |
| AuthService.AuthService.ValidateSession | road-trip-backend/src/services/auth_service.rs:84-100 | answers as `SessionUser` says |
| AuthService.AuthService.Logout | road-trip-backend/src/services/auth_service.rs:102-116 | the session table changes as `AfterLogout` says; it always succeeds |
| AuthService.AuthService.GetUserById | road-trip-backend/src/services/auth_service.rs:118-123 | answers as `FindUser` says |
| CallSignaling.FindCall | road-trip-backend/src/services/voice_call_signaling.rs:108-113 | the call with that id, or 'Call not found' |
| CallSignaling.AfterAccept | road-trip-backend/src/services/voice_call_signaling.rs:77-88 | an unknown id is 'Call not found' with no change; otherwise that call becomes `active` whatever its status, and every other field and row stays |
| CallSignaling.AfterEnd | road-trip-backend/src/services/voice_call_signaling.rs:94-106 | an unknown id is 'Call not found'; otherwise that call becomes `ended` with end time `now`, and everything else stays |
| CallSignaling.ActiveCallIn | road-trip-backend/src/services/voice_call_signaling.rs:115-127 | some ringing or active call of the room, and none exactly when the room has no such call |
| CallSignaling.StatusesStayKnown | road-trip-backend/src/services/voice_call_signaling.rs:59-106 | initiating, accepting and ending keep every status among `ringing`, `active` and `ended` |
| CallSignaling.InitiateAddsLiveCall | road-trip-backend/src/services/voice_call_signaling.rs:59-75 | a new call is at once live in its room, and each initiation adds one live call to that room |
| CallSignaling.EndedCallIsNotActive | road-trip-backend/src/services/voice_call_signaling.rs:94-127 | once ended, a call is no longer reported as its room's active call |
| CallSignaling.AcceptReopensEndedCall | road-trip-backend/src/services/voice_call_signaling.rs:77-106 | accepting an ended call makes it active again, and it keeps its end time |
| CallSignaling.VoiceCallSignalingService.constructor | road-trip-backend/src/services/voice_call_signaling.rs:55-57 | the service works on the given database |
| CallSignaling.VoiceCallSignalingService.InitiateCall | road-trip-backend/src/services/voice_call_signaling.rs:59-75 | appends one `ringing` call with the fresh id, the room and initiator, and no end time, and nothing else changes; a used id is a database error with nothing inserted |
| CallSignaling.VoiceCallSignalingService.AcceptCall | road-trip-backend/src/services/voice_call_signaling.rs:77-88 | the call table changes as `AfterAccept` says, and the updated row is returned |
| CallSignaling.VoiceCallSignalingService.EndCall | road-trip-backend/src/services/voice_call_signaling.rs:94-106 | the call table changes as `AfterEnd` says |
| CallSignaling.VoiceCallSignalingService.RejectCall | road-trip-backend/src/services/voice_call_signaling.rs:90-92 | exactly what ending the call does |
| CallSignaling.VoiceCallSignalingService.GetCall | road-trip-backend/src/services/voice_call_signaling.rs:108-113 | answers as `FindCall` says |
| CallSignaling.VoiceCallSignalingService.GetActiveCallInRoom | road-trip-backend/src/services/voice_call_signaling.rs:115-127 | answers as `ActiveCallIn` says |
| RoomService.FindRoom | road-trip-backend/src/services/room_service.rs:53-58 | the room with that id, or 'Room not found' |
| RoomService.Joined | road-trip-backend/src/services/room_service.rs:60-84 | no room is 'Room not found' (with no `is_active` check); an existing member gets the existing row and nothing is inserted; otherwise exactly one row is appended |
| RoomService.JoinedMakesMember | road-trip-backend/src/services/room_service.rs:60-84 | after a successful join the user is a member, and memberships per (room, user) stay at most one |
| RoomService.JoinIdempotent | road-trip-backend/src/services/room_service.rs:65-73 | joining a second time inserts nothing and returns the first join's row |
| RoomService.UserRooms | road-trip-backend/src/services/room_service.rs:41-51 | exactly the active rooms the user belongs to, most recently updated first |
| RoomService.RoomMembers | road-trip-backend/src/services/room_service.rs:86-97 | the users with a membership in the room, or 'Room not found' |
| RoomService.AfterLeave | road-trip-backend/src/services/room_service.rs:99-107 | every membership row of (room, user) is removed and all other rows stay |
| RoomService.LeaveKeepsOthers | road-trip-backend/src/services/room_service.rs:99-107 | leaving changes no other (room, user) membership |
| RoomService.IsCreator | road-trip-backend/src/services/room_service.rs:119-122 | true iff the room exists and was created by the user; 'Room not found' otherwise |
| RoomService.Edited | road-trip-backend/src/services/room_service.rs:138-151 | sets the name if given and the description if given (a given absent one clears it); always refreshes `updated_at`; keeps the other fields |
| RoomService.AfterUpdate | road-trip-backend/src/services/room_service.rs:124-154 | a missing room or a non-creator fails and nothing changes; otherwise only that room's row is edited |
| RoomService.AfterDelete | road-trip-backend/src/services/room_service.rs:156-177 | a missing room or a non-creator fails and nothing changes; otherwise the row stays but becomes inactive, and every membership of the room is removed |
| RoomService.DeletedRoomIsListedForNobody | road-trip-backend/src/services/room_service.rs:156-177 | after a delete no user's room list contains the room |
| RoomService.RoomService.constructor | road-trip-backend/src/services/room_service.rs:13-15 | the service works on the given database |
| RoomService.RoomService.JoinRoom | road-trip-backend/src/services/room_service.rs:60-84 | the membership table changes as `Joined` says, and no other table changes |
| RoomService.RoomService.CreateRoom | road-trip-backend/src/services/room_service.rs:17-39 | a used room id fails with nothing inserted; otherwise the active room created by the creator is appended, then the creator joins; when that join fails the room stays, without members, and the join's error is returned |
| RoomService.RoomService.GetUserRooms | road-trip-backend/src/services/room_service.rs:41-51 | answers as `UserRooms` says |
| RoomService.RoomService.GetRoomById | road-trip-backend/src/services/room_service.rs:53-58 | answers as `FindRoom` says |
| RoomService.RoomService.GetRoomMembers | road-trip-backend/src/services/room_service.rs:86-97 | answers as `RoomMembers` says |
| RoomService.RoomService.LeaveRoom | road-trip-backend/src/services/room_service.rs:99-107 | the membership table changes as `AfterLeave` says; it succeeds also when there was no membership |
| RoomService.RoomService.IsMemberOf | road-trip-backend/src/services/room_service.rs:109-117 | true iff a membership row of (room, user) exists |
| RoomService.RoomService.UpdateRoom | road-trip-backend/src/services/room_service.rs:124-154 | the room table changes as `AfterUpdate` says |
| RoomService.RoomService.DeleteRoom | road-trip-backend/src/services/room_service.rs:156-177 | the room and membership tables change as `AfterDelete` says |
| LocationStore.AfterUpdate | road-trip-backend/src/services/location_service.rs:17-49 | a non-member gets 'User is not a member of this room' and the table is unchanged; otherwise the pair's rows are deleted and one new row is inserted; when the insert clashes on its id the deletion stays and a database error is returned |
| LocationStore.UpdateLeavesOneRow | road-trip-backend/src/services/location_service.rs:31-47 | after an update the pair has exactly one row, holding the given coordinates, and every other pair's rows are unchanged |
| LocationStore.UpdateKeepsOnePerPair | road-trip-backend/src/services/location_service.rs:31-47 | rows per (user, room) stay at most one |
| LocationStore.RoomLocations | road-trip-backend/src/services/location_service.rs:51-59 | exactly the room's rows, as a permutation, newest first |
| LocationStore.LocationService.constructor | road-trip-backend/src/services/location_service.rs:13-15 | the service works on the given database |
| LocationStore.LocationService.UpdateLocation | road-trip-backend/src/services/location_service.rs:17-49 | the location table changes as `AfterUpdate` says, and no other table changes |
| LocationStore.LocationService.GetLocations | road-trip-backend/src/services/location_service.rs:51-59 | answers as `RoomLocations` says |
| LocationStore.LocationService.VerifyMembership | road-trip-backend/src/services/location_service.rs:61-69 | true iff a membership row of (room, user) exists |
| MessageStore.RoomMessages | road-trip-backend/src/services/message_service.rs:45-47 | exactly the room's messages, as a permutation, newest first |
| MessageStore.PageCount | road-trip-backend/src/services/message_service.rs:48-53 | the number of pages is 0 exactly when there are no rows |
| MessageStore.PageCountBounds | road-trip-backend/src/services/message_service.rs:48-53 | the pages hold every row, and the last page is not empty |
| MessageStore.PageOf | road-trip-backend/src/services/message_service.rs:48-53 | a page has at most `page_size` rows, and a page past the end is empty |
| MessageStore.PagesCoverAll | road-trip-backend/src/services/message_service.rs:48-53 | reading all the pages in order yields every row exactly once |
| MessageStore.MessagesPage | road-trip-backend/src/services/message_service.rs:39-54 | one page of the room's newest-first messages with the page count of the same query; a page size of 0 fails |
| MessageStore.MessageService.constructor | road-trip-backend/src/services/message_service.rs:13-15 | the service works on the given database |
| MessageStore.MessageService.SendMessage | road-trip-backend/src/services/message_service.rs:17-37 | appends exactly one row with the room, user, text, image and type, a fresh id and `now`; nothing else changes |
| MessageStore.MessageService.GetMessages | road-trip-backend/src/services/message_service.rs:39-54 | answers as `MessagesPage` says, with no membership check |
| MessageStore.MessageService.VerifyMembership | road-trip-backend/src/services/message_service.rs:56-64 | true iff a membership row of (room, user) exists |
| MessageHandlers.SendRequest | road-trip-backend/src/handlers/message.rs:13-22 | `message_type` defaults to `text` when absent |
| MessageHandlers.MessagesQuery | road-trip-backend/src/handlers/message.rs:25-38 | page defaults to 0 and page size to 20 |
| MessageHandlers.StoredType | road-trip-backend/src/handlers/message.rs:89-95 | `text` iff there is text, even with an image; `image` iff only an image URL; none iff neither |
| MessageHandlers.ClientTypeIgnored | road-trip-backend/src/handlers/message.rs:89-92 | the client's `message_type` plays no part in the stored type |
| MessageHandlers.FromRows | road-trip-backend/src/handlers/message.rs:58-70 | one response per row, in order, every field copied |
| MessageHandlers.GetMessagesReply | road-trip-backend/src/handlers/message.rs:111-142 | a non-member gets 403; a service failure 500; otherwise the page, the count, and the requested page as `current_page` |
| MessageHandlers.MessageHandlers.constructor | road-trip-backend/src/handlers/message.rs:72-82 | the handlers work on the given message service |
| MessageHandlers.MessageHandlers.SendMessage | road-trip-backend/src/handlers/message.rs:72-109 | a non-member gets 403 and nothing is stored; neither text nor image gets 400 and nothing is stored; otherwise one row of the chosen type is stored and returned, or a clashing id gets 500 with nothing stored |
| MessageHandlers.MessageHandlers.GetMessages | road-trip-backend/src/handlers/message.rs:111-142 | answers as `GetMessagesReply` says over the membership and the service's page |
| LocationHandlers.FromRows | road-trip-backend/src/handlers/location.rs:33-43 | one response per row, in the service's order |
| LocationHandlers.FromRowsRoundTrip | road-trip-backend/src/handlers/location.rs:33-43 | no field is lost or altered: the rows read back from the responses, in order |
| LocationHandlers.UpdateFailureStatus | road-trip-backend/src/handlers/location.rs:55-65 | 403 iff the error text contains `not a member`, 500 otherwise |
| LocationHandlers.UpdateLocationReply | road-trip-backend/src/handlers/location.rs:46-69 | success returns the row; a failure gets its status with the error text as the body |
| LocationHandlers.NotMemberMentioned | road-trip-backend/src/handlers/location.rs:55-58 | the service's non-member error contains `not a member` |
| LocationHandlers.DbErrorUnmentioned | road-trip-backend/src/handlers/location.rs:59-65 | a database failure's text does not contain `not a member` |
| LocationHandlers.UpdateFailuresMapped | road-trip-backend/src/handlers/location.rs:55-65 | a non-member's update gets 403 and a refused insert 500 |
| LocationHandlers.GetLocationsReply | road-trip-backend/src/handlers/location.rs:71-114 | a failed membership lookup gets 500; a non-member 403 with 'You are not a member of this room'; a service failure 500; otherwise the rows |
| LocationHandlers.GetLocationsOverService | road-trip-backend/src/handlers/location.rs:71-114 | a member gets the room's rows newest first; anyone else gets 403 |
| AuthGate.FirstMatch | road-trip-backend/src/middleware/auth.rs:31-33 | the first trimmed cookie starting with `<name>=`, and none exactly when no cookie does |
| AuthGate.CookieValue | road-trip-backend/src/middleware/auth.rs:34-37 | the text between the first and the second `=`, if there is a first |
| AuthGate.MatchedCookieHasValue | road-trip-backend/src/middleware/auth.rs:33-37 | a cookie that passed the prefix test always has a value, so that refusal is never reached |
| AuthGate.CookieValueOf | road-trip-backend/src/middleware/auth.rs:34-37 | a token without `=` comes back whole; one followed by `=` is cut there |
| AuthGate.Decide | road-trip-backend/src/middleware/auth.rs:12-62 | no header: 401; a header but no configured cookie name: 500; forwarding needs a header, a cookie name and a database |
| AuthGate.DecideCases | road-trip-backend/src/middleware/auth.rs:12-62 | no header: 401; a header without a configured name: 500 before scanning; no match: 401; only the first match is tried; then no database: 500, a failed validation: 401, else forward with the user |
| AuthGate.Admit | road-trip-backend/src/middleware/auth.rs:34-56 | the decision once the cookie is chosen: forward iff the token validates, with that user |
| AuthGate.AuthMiddleware | road-trip-backend/src/middleware/auth.rs:12-62 | the middleware, with its early returns, answers as `Decide` says |
| AuthGate.FindSessionCookie | road-trip-backend/src/middleware/auth.rs:31-33 | the loop over the split header returns the first trimmed cookie that starts with `<name>=`, and nothing when no cookie does |
| AuthGate.CheckCookie | road-trip-backend/src/middleware/auth.rs:34-56 | the steps after the cookie is found decide as `Admit` says |
| AuthGate.LoneCookieToken | road-trip-backend/src/middleware/auth.rs:21-37 | the gate reads back the token of a lone `name=token` cookie |
| AuthGate.LoginCookieAuthenticates | road-trip-backend/src/middleware/auth.rs:47-51 | after login, sending the token back is let through as the logged-in user for 7 days, and refused with 401 from then on |
| AuthGate.LogoutCookieRefused | road-trip-backend/src/middleware/auth.rs:53-55 | after logout the same cookie gets 401 |
| SessionCookie.SameSiteOf | road-trip-backend/src/utils/cookie.rs:17-21 | `Lax` gives Lax, `None` gives None, and any other text gives Strict |
| SessionCookie.MaxAgeSeconds | road-trip-backend/src/utils/cookie.rs:15-25 | the day count × 86400 taken in `u64` and read as `i64`, always in the `i64` range |
| SessionCookie.MaxAgeExact | road-trip-backend/src/utils/cookie.rs:15-25 | exact for any day count whose product fits in `i64`; negative when the product exceeds `i64` but fits `u64` |
| SessionCookie.SessionCookieFor | road-trip-backend/src/utils/cookie.rs:11-38 | the configured name, the token, HttpOnly, path `/`, the max-age, the SameSite; Secure iff configured; Domain iff configured |
| SessionCookie.LogoutCookieFor | road-trip-backend/src/utils/cookie.rs:40-55 | the same name, empty value, HttpOnly, path `/`, max-age 0, no SameSite; Secure and Domain as configured |
| SessionCookie.LogoutReplacesSession | road-trip-backend/src/utils/cookie.rs:11-55 | the logout cookie has the login cookie's name, domain and path, so it replaces it, and it expires at once |
| SessionCookie.DefaultCookieLifetime | road-trip-backend/src/utils/cookie.rs:15-27 | with the default configuration: `session_token`, 7 days, Strict, not Secure, no Domain |
| ServerConfig.VarOr | road-trip-backend/src/config/mod.rs:56 | the variable when set, the default otherwise |
| ServerConfig.NumberOr | road-trip-backend/src/config/mod.rs:52-55 | the parsed number when the variable is set and fits the type, the default otherwise |
| ServerConfig.Origins | road-trip-backend/src/config/mod.rs:84-88 | the value split on `,`, each part trimmed, in order |
| ServerConfig.SecureFlag | road-trip-backend/src/config/mod.rs:72-75 | true iff `COOKIE_SECURE` is exactly `true` |
| ServerConfig.ServerFrom | road-trip-backend/src/config/mod.rs:51-57 | the port is always a `u16` |
| ServerConfig.FromEnv | road-trip-backend/src/config/mod.rs:49-100 | missing `DATABASE_URL` fails first, then missing `SESSION_SECRET`, with their messages; otherwise the two values are taken as given |
| ServerConfig.OnlyRequiredSet | road-trip-backend/src/config/mod.rs:49-100 | with only the two required variables set, every other field takes its default |
| ServerConfig.PortRead | road-trip-backend/src/config/mod.rs:52-55 | a decimal `u16` is read back; anything that does not parse gives 3000 |
| ServerConfig.FieldsFollowEnv | road-trip-backend/src/config/mod.rs:56-96 | each optional field follows its variable, or its default when unset or unparsable |
| ServerConfig.ShortSecretAccepted | road-trip-backend/src/config/mod.rs:67-68 | the 32-character minimum is not enforced: an empty secret is accepted |
| ServerConfig.OriginsRoundTrip | road-trip-backend/src/config/mod.rs:84-88 | an origin list without white space loses nothing: its parts joined with `,` give the value back |
| RelayEvents.Decode | road-trip-backend/src/services/websocket.rs:19-90 | reading a frame: when it succeeds, the `type` tag names the variant it gives |
| RelayEvents.Encode | road-trip-backend/src/services/websocket.rs:19-90 | writing an event puts its tag under `type` |
| RelayEvents.DecodeEncode | road-trip-backend/src/services/websocket.rs:19-90 | every event the server writes, it reads back unchanged |
| Relay.Sender | road-trip-backend/src/services/websocket.rs:105-116 | an existing room's channel is returned unchanged; a missing room gets a new one; afterwards the room is a key and the other rooms are untouched |
| Relay.NewChannelIsUnshared | road-trip-backend/src/services/websocket.rs:105-116 | a channel made for a room is shared with no other room |
| Relay.Broadcast | road-trip-backend/src/services/websocket.rs:118-130 | a room without a channel sends nothing; otherwise the serialised event is sent once to the room's channel |
| Relay.Dispatch | road-trip-backend/src/services/websocket.rs:186-326 | undecodable text is ignored; join and leave map to subscribe and unsubscribe; call control acts only when its initiator or user is the authenticated user; signals are forwarded by call |
| Relay.Step | road-trip-backend/src/services/websocket.rs:187-326 | ignored frames change nothing; only join and leave touch the subscriptions; only call control touches the call table |
| Relay.ImpersonationIgnored | road-trip-backend/src/services/websocket.rs:210-213 | a call-control frame that names another user changes nothing (also 232-235, 253-256, 275-278) |
| Relay.JoinerHearsOwnJoin | road-trip-backend/src/services/websocket.rs:188-198 | joining subscribes first, so the joiner's own channel carries the `user-joined` with the authenticated id |
| Relay.StartAnnouncesLiveCall | road-trip-backend/src/services/websocket.rs:208-229 | a started call is live in its room and stored with the sender as initiator, and `voice-call-incoming` with its id is sent once on the room's channel, when the room has one |
| Relay.SignalsStayInCallRoom | road-trip-backend/src/services/websocket.rs:296-325 | offers, answers and candidates are relayed unchanged to the call's room only when the call exists |
| Relay.Authenticated | road-trip-backend/src/services/websocket.rs:160-178 | a connection acts for a user iff it has a token whose session validates, and then for that session's user |
| Relay.LoggedOutTokenRefused | road-trip-backend/src/services/websocket.rs:160-178 | a token that was logged out no longer opens a connection |
| Relay.RoomHub.constructor | road-trip-backend/src/services/websocket.rs:99-103 | no rooms and nothing sent |
| Relay.RoomHub.GetOrCreateRoomSender | road-trip-backend/src/services/websocket.rs:105-116 | the hub changes, and the channel is returned, as `Sender` says |
| Relay.RoomHub.BroadcastToRoom | road-trip-backend/src/services/websocket.rs:118-130 | the hub changes as `Broadcast` says |
| Relay.RoomHub.RemoveRoom | road-trip-backend/src/services/websocket.rs:132-135 | only that room's key is removed |
| Relay.Connection.constructor | road-trip-backend/src/services/websocket.rs:148-176 | the connection acts for the user `Authenticated` gives, with no subscriptions |
| Relay.Connection.OnText | road-trip-backend/src/services/websocket.rs:184-326 | the hub, the subscriptions and the call table change as `Step` says for the dispatched frame; no other table changes |
| Relay.Connection.ChangeMembership | road-trip-backend/src/services/websocket.rs:188-207 | joining or leaving a room changes the hub and the subscriptions as `Step` says |
| Relay.Connection.OpenCall | road-trip-backend/src/services/websocket.rs:208-250 | starting or accepting a call changes the hub and the call table as `Step` says |
| Relay.Connection.RejectFrame | road-trip-backend/src/services/websocket.rs:251-272 | a rejection changes the hub and the call table as `Step` says |
| Relay.Connection.EndFrame | road-trip-backend/src/services/websocket.rs:273-295 | ending a call changes the hub and the call table as `Step` says |
| Relay.Connection.RelayFrame | road-trip-backend/src/services/websocket.rs:296-325 | a negotiation message is broadcast as `Step` says, and no table changes |
| WireCompat.ClientFramesOnServer | road-trip-app/app/services/websocketService.ts:164-227 | join and leave arrive as sent; typing needs a user; chat, image and location frames and every call-control frame never decode on the server; signals need a call id |

## Left out

- Network and device I/O is not modelled. This covers the REST client, the sockets, `expo-location`, `react-native-webrtc`, timers and the app-state listener. Their answers are parameters where the model says so (a fetched page, a granted stream, a position, the outcome of `JSON.parse` on a received candidate), and what is sent is kept in sequence fields. The native WebRTC engine's own promises are the exception, see the next line.
- The native WebRTC engine's rejections are not modelled: `createOffer`, `createAnswer`, `setLocalDescription`, `setRemoteDescription` and `addIceCandidate` on `RTCPeerConnection` are taken always to resolve, because they depend on the native engine and the remote peer's SDP, which the model does not see. Once WebRTC is available and a connection exists, `PeerSession.WebRTCService.CreateOffer`, `CreateAnswer`, `SetRemoteDescription` and `AddIceCandidate` (for text that parses) therefore succeed, and so do the steps of `VoiceCallClient.VoiceCallService.HandleOffer`, `CreateOfferForCall` and `HandleAnswer` that call them.
- PeerSession.WebRTCService.AddIceCandidate: does not decide whether the candidate text is JSON; the outcome of `JSON.parse` is the parameter `parses`, and the JSON grammar is not modelled.
- Async interleavings are not modelled. Every operation runs to completion before the next one starts. This leaves out two background intervals started by overlapping `startBackgroundTracking` calls, and the read-then-write race in `get_or_create_room_sender`.
- The backend's tokio tasks are left out: the `RwLock`s, `select!`, and the 100 ms polling loop that delivers a room's messages to the socket. `Relay` records what is sent to each channel, not when the socket receives it.
- A socket close message and non-text frames end or skip the loop in `handle_socket`; they are not modelled.
- `remove_room` is modelled, but the code never calls it.
- `calculateDistance` is a function parameter `dist` of the location tracker. The haversine trigonometry over IEEE floats is not modelled.
- Coordinates and map regions are `real`, not floating point.
- Argon2 hashing is replaced by a deterministic stand-in, `"$argon2id$"` followed by the password. The salt is left out. What the code relies on is proved: the right password verifies and any other does not.
- The hashing error and the detail text of the hash-format error are not modelled.
- `generate_session_token` (SHA-256 over random bytes and the clock) is left out. The token is a parameter.
- A UUID is any string; its format is not checked.
- Cookie serialisation into a `Set-Cookie` header is left out. The model stops at the cookie's attributes.
- A `Cookie` header that is not visible ASCII is read as empty by `to_str().unwrap_or("")`. The model takes the header as text.
- The sea-orm query engine is replaced by sequences of rows. Foreign keys are not enforced. A database failure appears only as a key clash (`DbError`).
- The database's order for equal sort keys is unspecified. The model uses a stable sort there.
- `MessageStore.MessagesPage`: a page size of 0 answers `Err`. The server itself divides by zero in `num_pages` at that point.
- `ServerConfig.FromEnv`: a missing required variable answers `Err` with the `expect` message instead of aborting the process. A variable that is not valid Unicode is treated as unset.
- `SessionCookie.MaxAgeSeconds`: the `u64` product is modelled with wrap-around. A debug build would panic on overflow instead.
- `Relay.Step`: once a call is found, ending or rejecting it cannot fail in the model. The server's "update fails yet still broadcasts" branch therefore has no counterpart.
- Client string lengths count characters, not UTF-16 code units.
- Timestamps are integers, and ISO date strings are compared as their instants.
- Screen rendering, styles and navigation are not modelled. The exceptions are the visibility decisions and the back navigation of the call screen.
- Pass-through glue is not part of this model: `handlers/auth.rs`, `handlers/room.rs`, `routes`, the CORS layer, `response.rs`, `main.rs`, `config/database.rs`, the migrations, and the entity definitions (used only as record shapes).
- The client API module `api.ts` is not part of this model; its answers are parameters.
