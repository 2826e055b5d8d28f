/** The client's socket wrapper (road-trip-app/app/services/websocketService.ts):
    one socket at a time, a bounded linear back-off for reconnecting, a send
    guard that drops events while the socket is not open, and a dispatcher
    that turns inbound events into store actions.

    The socket itself, its events and the timers are the environment: the
    socket's ready state is a field, `OnOpen`/`OnClose`/`OnMessage` are the
    handlers the environment calls, each frame written to the socket is
    appended to `transmitted` and each reconnect timer set is appended to
    `scheduled` as its delay in milliseconds. When such a timer fires the
    environment calls `Connect`. */
module SignalingChannel {
  import opened Wrappers
  import opened Json
  import opened ClientTypes
  import opened AppStore

  const MaxReconnectAttempts: nat := 5
  const ReconnectDelay: nat := 1000

  /** `WebSocket.readyState`. */
  datatype ReadyState = Connecting | Open | Closing | Closed

  /** The events the client sends. A call id is optional because the callers
      pass `call.id`, which the stored call (a raw inbound payload) may lack. */
  datatype OutEvent =
    | JoinRoom(roomId: string)
    | LeaveRoom(roomId: string)
    | NewMessage(roomId: string, text: string)
    | ImageMessage(roomId: string, imageUrl: string)
    | Typing(roomId: string, userId: Option<string>)
    | LocationUpdate(roomId: string, latitude: real, longitude: real)
    | VoiceCallInitiate(roomId: string)
    | VoiceCallAccept(callId: Option<string>)
    | VoiceCallReject(callId: Option<string>)
    | VoiceCallEnd(callId: Option<string>)
    | VoiceOffer(callId: Option<string>, offer: string)
    | VoiceAnswer(callId: Option<string>, answer: string)
    | IceCandidate(callId: Option<string>, candidate: string)

  function TypeName(e: OutEvent): string {
    match e
    case JoinRoom(_) => "join-room"
    case LeaveRoom(_) => "leave-room"
    case NewMessage(_, _) => "new-message"
    case ImageMessage(_, _) => "image-message"
    case Typing(_, _) => "typing"
    case LocationUpdate(_, _, _) => "location-update"
    case VoiceCallInitiate(_) => "voice-call-initiate"
    case VoiceCallAccept(_) => "voice-call-accept"
    case VoiceCallReject(_) => "voice-call-reject"
    case VoiceCallEnd(_) => "voice-call-end"
    case VoiceOffer(_, _) => "voice-offer"
    case VoiceAnswer(_, _) => "voice-answer"
    case IceCandidate(_, _) => "ice-candidate"
  }

  /** `JSON.stringify(event)`: the tag under `type`, the fields under their
      snake_case names, `undefined` fields left out. */
  function ToWire(e: OutEvent): (o: JsonObject)
    ensures "type" in o && o["type"] == JString(TypeName(e))
    ensures "user_id" in o <==> e.Typing? && e.userId.Some?
    ensures "initiator_id" !in o
    ensures (e.VoiceCallAccept? || e.VoiceCallReject? || e.VoiceCallEnd? || e.VoiceOffer?
             || e.VoiceAnswer? || e.IceCandidate?) ==> ("call_id" in o <==> e.callId.Some?)
  {
    var t := map["type" := JString(TypeName(e))];
    match e
    case JoinRoom(room) => t["room_id" := JString(room)]
    case LeaveRoom(room) => t["room_id" := JString(room)]
    case NewMessage(room, text) => t["room_id" := JString(room)]["text" := JString(text)]
    case ImageMessage(room, url) => t["room_id" := JString(room)]["image_url" := JString(url)]
    case Typing(room, user) => PutString(t["room_id" := JString(room)], "user_id", user)
    case LocationUpdate(room, lat, lon) =>
      t["room_id" := JString(room)]["latitude" := JNumber(lat)]["longitude" := JNumber(lon)]
    case VoiceCallInitiate(room) => t["room_id" := JString(room)]
    case VoiceCallAccept(id) => PutString(t, "call_id", id)
    case VoiceCallReject(id) => PutString(t, "call_id", id)
    case VoiceCallEnd(id) => PutString(t, "call_id", id)
    case VoiceOffer(id, offer) => PutString(t["offer" := JString(offer)], "call_id", id)
    case VoiceAnswer(id, answer) => PutString(t["answer" := JString(answer)], "call_id", id)
    case IceCandidate(id, candidate) => PutString(t["candidate" := JString(candidate)], "call_id", id)
  }

  /** `JSON.parse(text)` read through the fields the dispatcher looks at. */
  function ToPayload(o: JsonObject): (p: Payload)
    ensures p.kind == GetString(o, "type") && p.callId == GetString(o, "call_id")
    ensures p.id == GetString(o, "id") && p.initiatorId == GetString(o, "initiator_id")
    ensures p.roomId == GetString(o, "room_id") && p.userId == GetString(o, "user_id")
  {
    Payload(
      GetString(o, "type"), GetString(o, "id"), GetString(o, "call_id"),
      GetString(o, "message_id"), GetString(o, "user_id"), GetString(o, "room_id"),
      GetString(o, "text"), GetString(o, "image_url"), GetString(o, "message_type"),
      GetString(o, "initiator_id"), GetNumber(o, "latitude"), GetNumber(o, "longitude"))
  }

  /** The message a `new-message` event adds to the store, stamped `now`. */
  function InboundMessage(data: Payload, now: int): (m: Message)
    requires Truthy(data.messageId) && Truthy(data.userId) && Truthy(data.roomId)
    ensures m.id != "" && m.roomId != "" && m.userId != "" && m.messageType != ""
    ensures Some(m.id) == data.messageId && Some(m.roomId) == data.roomId && Some(m.userId) == data.userId
    ensures m.text == data.text && m.imageUrl == data.imageUrl && m.createdAt == now
    ensures !Truthy(data.messageType) ==> m.messageType == "text"
  {
    Message(data.messageId.value, data.roomId.value, data.userId.value, data.text,
            data.imageUrl, OrElse(data.messageType, "text"), now)
  }

  /** The location a `location-update` event upserts: no id, no room, no
      timestamp, and `updated_at` stamped `now`. */
  function InboundLocation(data: Payload, now: int): (l: Location)
    requires Truthy(data.userId) && TruthyNumber(data.latitude) && TruthyNumber(data.longitude)
    ensures Some(l.userId) == data.userId && l.userId != ""
    ensures Some(l.latitude) == data.latitude && Some(l.longitude) == data.longitude
    ensures l.id.None? && l.roomId.None? && l.timestamp.None? && l.updatedAt == Some(now)
  {
    Location(None, data.userId.value, None, data.latitude.value, data.longitude.value, None, Some(now))
  }

  /** The store after one inbound event. */
  function HandleMessage(s: AppState, data: Payload, now: int): (r: AppState)
    ensures !Truthy(data.kind) ==> r == s
    ensures Truthy(data.kind) && data.kind.value == "new-message" ==>
      r == if Truthy(data.messageId) && Truthy(data.userId) && Truthy(data.roomId)
           then AddMessage(s, InboundMessage(data, now)) else s
    ensures Truthy(data.kind) && data.kind.value == "location-update" ==>
      r == if Truthy(data.userId) && TruthyNumber(data.latitude) && TruthyNumber(data.longitude)
           then UpdateLocation(s, InboundLocation(data, now)) else s
    ensures Truthy(data.kind) && data.kind.value == "voice-call-incoming" ==> r == SetIncomingCall(s, data)
    ensures Truthy(data.kind) && data.kind.value == "voice-call-accepted" ==> r == SetCallAccepted(s, data)
    ensures Truthy(data.kind) && data.kind.value == "voice-call-rejected" ==> r == SetCallRejected(s)
    ensures Truthy(data.kind) && data.kind.value == "voice-call-ended" ==> r == EndCall(s)
    ensures Truthy(data.kind) && data.kind.value !in KnownKinds() ==> r == s
    ensures r.user == s.user && r.currentRoom == s.currentRoom && r.rooms == s.rooms
         && r.isLoading == s.isLoading && r.error == s.error
  {
    if !Truthy(data.kind) then s
    else match data.kind.value
      case "new-message" =>
        if Truthy(data.messageId) && Truthy(data.userId) && Truthy(data.roomId)
        then AddMessage(s, InboundMessage(data, now)) else s
      case "location-update" =>
        if Truthy(data.userId) && TruthyNumber(data.latitude) && TruthyNumber(data.longitude)
        then UpdateLocation(s, InboundLocation(data, now)) else s
      case "voice-call-incoming" => SetIncomingCall(s, data)
      case "voice-call-accepted" => SetCallAccepted(s, data)
      case "voice-call-rejected" => SetCallRejected(s)
      case "voice-call-ended" => EndCall(s)
      case _ => s
  }

  /** The types that change the store. */
  function KnownKinds(): set<string> {
    {"new-message", "location-update", "voice-call-incoming", "voice-call-accepted",
     "voice-call-rejected", "voice-call-ended"}
  }

  /** The delays of the reconnect timers set after `n` consecutive failures:
      1000, 2000, …, 1000 × n. */
  function Backoff(n: nat): (r: seq<int>)
    ensures |r| == n
    ensures forall i :: 0 <= i < n ==> r[i] == ReconnectDelay * (i + 1)
  {
    if n == 0 then [] else Backoff(n - 1) + [ReconnectDelay * n]
  }

  class WebSocketService {
    var socket: Option<ReadyState>
    var isConnected: bool
    var reconnectAttempts: nat
    /** Frames written to the socket, in order. */
    var transmitted: seq<JsonObject>
    /** Delays of the reconnect timers set, in order. */
    var scheduled: seq<int>
    /** Where in `scheduled` the attempt counter was last reset to 0. */
    ghost var resetAt: nat

    /** Since the counter was last reset, the timers set are exactly the
        back-off schedule, so there are at most five of them. */
    ghost predicate Valid()
      reads this
    {
      reconnectAttempts <= MaxReconnectAttempts
      && resetAt <= |scheduled| && scheduled[resetAt..] == Backoff(reconnectAttempts)
    }

    constructor ()
      ensures Valid()
      ensures socket.None? && !isConnected && reconnectAttempts == 0
      ensures transmitted == [] && scheduled == []
    {
      socket := None;
      isConnected := false;
      reconnectAttempts := 0;
      transmitted := [];
      scheduled := [];
      resetAt := 0;
    }

    /** Sets the next reconnect timer, unless the five attempts are used up. */
    method ScheduleReconnect()
      requires Valid()
      modifies this
      ensures Valid()
      ensures socket == old(socket) && isConnected == old(isConnected) && transmitted == old(transmitted)
      ensures resetAt == old(resetAt)
      ensures old(reconnectAttempts) >= MaxReconnectAttempts ==>
        reconnectAttempts == old(reconnectAttempts) && scheduled == old(scheduled)
      ensures old(reconnectAttempts) < MaxReconnectAttempts ==>
        reconnectAttempts == old(reconnectAttempts) + 1
        && scheduled == old(scheduled) + [ReconnectDelay * reconnectAttempts]
    {
      if reconnectAttempts >= MaxReconnectAttempts {
        return;
      }
      reconnectAttempts := reconnectAttempts + 1;
      scheduled := scheduled + [ReconnectDelay * reconnectAttempts];
      assert scheduled[resetAt..] == old(scheduled[resetAt..]) + [ReconnectDelay * reconnectAttempts];
    }

    /** Opens a new socket unless the current one is open. When creating the
        socket throws (`createFails`), a reconnect is scheduled instead. */
    method Connect(createFails: bool)
      requires Valid()
      modifies this
      ensures Valid()
      ensures transmitted == old(transmitted) && isConnected == old(isConnected) && resetAt == old(resetAt)
      ensures old(socket) == Some(Open) ==>
        socket == old(socket) && reconnectAttempts == old(reconnectAttempts) && scheduled == old(scheduled)
      ensures old(socket) != Some(Open) && !createFails ==>
        socket == Some(Connecting) && reconnectAttempts == old(reconnectAttempts) && scheduled == old(scheduled)
      ensures old(socket) != Some(Open) && createFails ==>
        socket == old(socket)
        && (old(reconnectAttempts) >= MaxReconnectAttempts ==>
              reconnectAttempts == old(reconnectAttempts) && scheduled == old(scheduled))
        && (old(reconnectAttempts) < MaxReconnectAttempts ==>
              reconnectAttempts == old(reconnectAttempts) + 1
              && scheduled == old(scheduled) + [ReconnectDelay * reconnectAttempts])
    {
      if socket == Some(Open) {
        return;
      }
      if createFails {
        ScheduleReconnect();
      } else {
        socket := Some(Connecting);
      }
    }

    /** Closes and forgets the socket, and resets the counter. The old
        socket's close event still reaches `OnClose` later. */
    method Disconnect()
      requires Valid()
      modifies this
      ensures Valid()
      ensures transmitted == old(transmitted) && scheduled == old(scheduled)
      ensures old(socket).None? ==>
        socket.None? && isConnected == old(isConnected) && reconnectAttempts == old(reconnectAttempts)
      ensures old(socket).Some? ==> socket.None? && !isConnected && reconnectAttempts == 0
    {
      if socket.Some? {
        socket := None;
        isConnected := false;
        reconnectAttempts := 0;
        resetAt := |scheduled|;
      }
    }

    /** The open event of a socket; `current` says whether it is the one held. */
    method OnOpen(current: bool)
      requires Valid()
      modifies this
      ensures Valid()
      ensures isConnected && reconnectAttempts == 0
      ensures socket == if current && old(socket).Some? then Some(Open) else old(socket)
      ensures transmitted == old(transmitted) && scheduled == old(scheduled)
    {
      if current && socket.Some? {
        socket := Some(Open);
      }
      isConnected := true;
      reconnectAttempts := 0;
      resetAt := |scheduled|;
    }

    /** The close event of a socket, deliberate or not: a reconnect is
        scheduled while attempts remain. */
    method OnClose(current: bool)
      requires Valid()
      modifies this
      ensures Valid()
      ensures !isConnected
      ensures socket == if current && old(socket).Some? then Some(Closed) else old(socket)
      ensures transmitted == old(transmitted)
      ensures old(reconnectAttempts) < MaxReconnectAttempts ==>
        reconnectAttempts == old(reconnectAttempts) + 1
        && scheduled == old(scheduled) + [ReconnectDelay * reconnectAttempts]
      ensures old(reconnectAttempts) >= MaxReconnectAttempts ==>
        reconnectAttempts == old(reconnectAttempts) && scheduled == old(scheduled)
    {
      if current && socket.Some? {
        socket := Some(Closed);
      }
      isConnected := false;
      if reconnectAttempts < MaxReconnectAttempts {
        ScheduleReconnect();
      }
    }

    /** Writes the event when the socket is open; otherwise drops it. */
    method Send(e: OutEvent)
      requires Valid()
      modifies this
      ensures Valid()
      ensures transmitted == if old(socket) == Some(Open) then old(transmitted) + [ToWire(e)] else old(transmitted)
      ensures socket == old(socket) && isConnected == old(isConnected)
      ensures reconnectAttempts == old(reconnectAttempts) && scheduled == old(scheduled)
    {
      if socket == Some(Open) {
        transmitted := transmitted + [ToWire(e)];
      }
    }

    /** A chat message: an image message when an image URL is given. */
    method SendMessage(roomId: string, text: string, imageUrl: Option<string>)
      requires Valid()
      modifies this
      ensures Valid()
      ensures var e := if Truthy(imageUrl) then ImageMessage(roomId, imageUrl.value) else NewMessage(roomId, text);
        transmitted == if old(socket) == Some(Open) then old(transmitted) + [ToWire(e)] else old(transmitted)
      ensures socket == old(socket) && isConnected == old(isConnected)
      ensures reconnectAttempts == old(reconnectAttempts) && scheduled == old(scheduled)
    {
      if Truthy(imageUrl) {
        Send(ImageMessage(roomId, imageUrl.value));
      } else {
        Send(NewMessage(roomId, text));
      }
    }

    /** A typing notice carrying the logged-in user's id, if any. */
    method SendTyping(roomId: string, user: Option<User>)
      requires Valid()
      modifies this
      ensures Valid()
      ensures var e := Typing(roomId, if user.Some? then Some(user.value.id) else None);
        transmitted == if old(socket) == Some(Open) then old(transmitted) + [ToWire(e)] else old(transmitted)
      ensures socket == old(socket) && isConnected == old(isConnected)
      ensures reconnectAttempts == old(reconnectAttempts) && scheduled == old(scheduled)
    {
      Send(Typing(roomId, if user.Some? then Some(user.value.id) else None));
    }

    /** A text frame arrived; `frame` is None when it is not valid JSON. */
    method OnMessage(store: Store, frame: Option<JsonObject>, now: int)
      modifies store
      ensures store.state == if frame.None? then old(store.state)
                             else HandleMessage(old(store.state), ToPayload(frame.value), now)
    {
      if frame.Some? {
        store.state := HandleMessage(store.state, ToPayload(frame.value), now);
      }
    }
  }

  // Properties of the dispatcher

  /** Offers, answers and ICE candidates have no case: they change nothing. */
  lemma SignalingEventsIgnored(s: AppState, data: Payload, now: int)
    requires data.kind.Some? && data.kind.value in {"voice-offer", "voice-answer", "ice-candidate"}
    ensures HandleMessage(s, data, now) == s
  {
  }

  /** A location update at latitude or longitude 0 is dropped. */
  lemma ZeroCoordinateDropped(s: AppState, data: Payload, now: int)
    requires data.kind == Some("location-update")
    requires data.latitude == Some(0.0) || data.longitude == Some(0.0)
    ensures HandleMessage(s, data, now) == s
  {
  }

  /** Every incoming-call event marks the call as incoming, also at the caller
      whose own initiation is echoed back. */
  lemma IncomingIsAlwaysIncoming(s: AppState, data: Payload, now: int)
    requires data.kind == Some("voice-call-incoming")
    ensures var r := HandleMessage(s, data, now);
      r.callState.Some? && r.callState.value.isIncoming && !r.callState.value.isActive
      && r.callState.value.call == Some(data)
  {
  }

  /** Between two resets of the counter at most five reconnects are scheduled,
      and the n-th waits n seconds. */
  lemma {:induction false} BoundedBackoff(scheduled: seq<int>, resetAt: nat, attempts: nat)
    requires attempts <= MaxReconnectAttempts
    requires resetAt <= |scheduled| && scheduled[resetAt..] == Backoff(attempts)
    ensures |scheduled| - resetAt <= 5
    ensures forall i :: resetAt <= i < |scheduled| ==> scheduled[i] == 1000 * (i - resetAt + 1) <= 5000
  {
    forall i | resetAt <= i < |scheduled|
      ensures scheduled[i] == 1000 * (i - resetAt + 1)
    {
      assert scheduled[i] == scheduled[resetAt..][i - resetAt];
    }
  }
}
