/** The server's socket relay (road-trip-backend/src/services/websocket.rs):
    a hub holding one broadcast channel per room, and per connection the
    authenticated user, the rooms it listens to, and the dispatch of each
    text frame to the call service and the hub.

    A channel is known by a number; the hub hands out a new number for each
    channel it creates. Every message handed to a channel is appended to
    the hub's `sent` log as the pair (channel, JSON object), whether or not
    anyone listens. The task that copies a connection's channels to its
    socket, and the socket itself, are the environment. */
module Relay {
  import opened Wrappers
  import opened Json
  import opened BackendTables
  import opened AuthService
  import opened CallSignaling
  import E = RelayEvents

  type Channel = nat

  /** The hub's state: room to channel, the next channel number, and the
      messages handed to channels so far. */
  datatype HubState = HubState(rooms: map<Uuid, Channel>, nextChannel: Channel, sent: seq<(Channel, JsonObject)>)

  /** Every channel in use was numbered before `nextChannel`. */
  predicate HubValid(h: HubState) {
    forall room :: room in h.rooms ==> h.rooms[room] < h.nextChannel
  }

  /** `get_or_create_room_sender`: the room's channel, made when missing. */
  function Sender(h: HubState, roomId: Uuid): (r: (HubState, Channel))
    ensures roomId in h.rooms ==> r == (h, h.rooms[roomId])
    ensures roomId !in h.rooms ==> (
      && r.0 == h.(rooms := h.rooms[roomId := h.nextChannel], nextChannel := h.nextChannel + 1)
      && r.1 == h.nextChannel)
    ensures roomId in r.0.rooms && r.0.rooms[roomId] == r.1 && r.0.sent == h.sent
    ensures forall other :: other != roomId ==> (other in r.0.rooms <==> other in h.rooms)
    ensures forall other :: other != roomId && other in h.rooms ==> r.0.rooms[other] == h.rooms[other]
  {
    if roomId in h.rooms then (h, h.rooms[roomId])
    else (h.(rooms := h.rooms[roomId := h.nextChannel], nextChannel := h.nextChannel + 1), h.nextChannel)
  }

  /** A channel made for a room is new: no other room shares it. */
  lemma NewChannelIsUnshared(h: HubState, roomId: Uuid, other: Uuid)
    requires HubValid(h) && roomId !in h.rooms && other != roomId && other in h.rooms
    ensures HubValid(Sender(h, roomId).0)
    ensures Sender(h, roomId).0.rooms[other] != Sender(h, roomId).1
  {
  }

  /** `broadcast_to_room`: the event, serialised, to the room's channel if
      it has one; nothing otherwise. */
  function Broadcast(h: HubState, roomId: Uuid, event: E.WebSocketEvent): (r: HubState)
    ensures r.rooms == h.rooms && r.nextChannel == h.nextChannel
    ensures roomId in h.rooms ==> r.sent == h.sent + [(h.rooms[roomId], E.Encode(event))]
    ensures roomId !in h.rooms ==> r.sent == h.sent
  {
    if roomId in h.rooms then h.(sent := h.sent + [(h.rooms[roomId], E.Encode(event))]) else h
  }

  /** What one frame makes the connection do. */
  datatype Action =
    | Subscribe(roomId: Uuid)
    | Unsubscribe(roomId: Uuid)
    | StartCall(roomId: Uuid)
    | AcceptCall(callId: Uuid)
    | RejectCall(callId: Uuid)
    | EndCall(callId: Uuid)
    | Forward(callId: Uuid, event: E.WebSocketEvent)
    | Ignore

  /** The dispatch of a decoded frame for the authenticated `user`. A call
      event that names someone else is ignored; so are the events the
      server only sends, chat, typing and location frames, and anything that
      does not decode. */
  function Dispatch(user: Uuid, frame: Option<E.WebSocketEvent>): (a: Action)
    ensures frame.None? ==> a == Ignore
    ensures a.StartCall? ==> frame == Some(E.VoiceCallInitiate(a.roomId, user))
    ensures a.AcceptCall? ==> frame == Some(E.VoiceCallAccept(a.callId, user))
    ensures a.RejectCall? ==> frame == Some(E.VoiceCallReject(a.callId, user))
    ensures a.EndCall? ==> frame == Some(E.VoiceCallEnd(a.callId, user))
    ensures a.Forward? ==> (
      && frame == Some(a.event)
      && (a.event.VoiceOffer? || a.event.VoiceAnswer? || a.event.IceCandidate?)
      && a.callId == a.event.callId)
    ensures a.Subscribe? <==> frame.Some? && frame.value.JoinRoom?
    ensures a.Unsubscribe? <==> frame.Some? && frame.value.LeaveRoom?
    ensures frame.Some? && frame.value.VoiceCallInitiate? ==> (a.StartCall? <==> frame.value.initiatorId == user)
    ensures frame.Some? && (frame.value.VoiceCallAccept? || frame.value.VoiceCallReject? || frame.value.VoiceCallEnd?) ==>
      (a == Ignore <==> frame.value.userId != user)
    ensures frame.Some? && (frame.value.VoiceOffer? || frame.value.VoiceAnswer? || frame.value.IceCandidate?) ==> a.Forward?
  {
    if frame.None? then Ignore
    else match frame.value
      case JoinRoom(room) => Subscribe(room)
      case LeaveRoom(room) => Unsubscribe(room)
      case VoiceCallInitiate(room, initiator) => if initiator != user then Ignore else StartCall(room)
      case VoiceCallAccept(call, claimed) => if claimed != user then Ignore else AcceptCall(call)
      case VoiceCallReject(call, claimed) => if claimed != user then Ignore else RejectCall(call)
      case VoiceCallEnd(call, claimed) => if claimed != user then Ignore else EndCall(call)
      case VoiceOffer(call, _) => Forward(call, frame.value)
      case VoiceAnswer(call, _) => Forward(call, frame.value)
      case IceCandidate(call, _) => Forward(call, frame.value)
      case _ => Ignore
  }

  /** The hub, the connection's subscriptions and the call table after one
      action by `user`. A new call takes the id `freshId`; `now` stamps it
      or its end. */
  function Step(h: HubState, receivers: map<Uuid, Channel>, calls: seq<CallRow>, user: Uuid, a: Action,
                freshId: Uuid, now: int): (r: (HubState, map<Uuid, Channel>, seq<CallRow>))
    ensures a == Ignore ==> r == (h, receivers, calls)
    ensures !a.Subscribe? && !a.Unsubscribe? ==> r.1 == receivers
    ensures a.Subscribe? || a.Unsubscribe? || a.Forward? ==> r.2 == calls
  {
    match a
    case Subscribe(room) =>
      var (h1, channel) := Sender(h, room);
      (Broadcast(h1, room, E.UserJoined(room, user)), receivers[room := channel], calls)
    case Unsubscribe(room) =>
      (Broadcast(h, room, E.UserLeft(room, user)), receivers - {room}, calls)
    case StartCall(room) =>
      if !KeyFree(calls, CallId, freshId) then (h, receivers, calls)
      else (Broadcast(h, room, E.VoiceCallIncoming(freshId, room, user)), receivers,
            calls + [NewCall(freshId, room, user, now)])
    case AcceptCall(callId) =>
      var found := FindCall(calls, callId);
      if found.Err? then (h, receivers, calls)
      else (Broadcast(h, found.value.roomId, E.VoiceCallAccepted(callId, found.value.roomId, user)), receivers,
            AfterAccept(calls, callId).value)
    case RejectCall(callId) =>
      var found := FindCall(calls, callId);
      if found.Err? then (h, receivers, calls)
      else
        var after := AfterEnd(calls, callId, now);
        (Broadcast(h, found.value.roomId, E.VoiceCallRejected(callId, found.value.roomId, user)), receivers,
         if after.Ok? then after.value else calls)
    case EndCall(callId) =>
      var found := FindCall(calls, callId);
      if found.Err? then (h, receivers, calls)
      else
        var after := AfterEnd(calls, callId, now);
        (Broadcast(h, found.value.roomId, E.VoiceCallEnded(callId, found.value.roomId, user)), receivers,
         if after.Ok? then after.value else calls)
    case Forward(callId, event) =>
      var found := FindCall(calls, callId);
      if found.Err? then (h, receivers, calls) else (Broadcast(h, found.value.roomId, event), receivers, calls)
    case Ignore => (h, receivers, calls)
  }

  /** A frame that claims to come from someone else changes nothing. */
  lemma ImpersonationIgnored(h: HubState, receivers: map<Uuid, Channel>, calls: seq<CallRow>, user: Uuid,
                             event: E.WebSocketEvent, freshId: Uuid, now: int)
    requires || (event.VoiceCallInitiate? && event.initiatorId != user)
             || ((event.VoiceCallAccept? || event.VoiceCallReject? || event.VoiceCallEnd?) && event.userId != user)
    ensures Step(h, receivers, calls, user, Dispatch(user, Some(event)), freshId, now) == (h, receivers, calls)
  {
  }

  /** Joining listens before it announces: the joiner's own channel gets the
      `user-joined`, and the room has a channel afterwards. */
  lemma JoinerHearsOwnJoin(h: HubState, receivers: map<Uuid, Channel>, calls: seq<CallRow>, user: Uuid, room: Uuid,
                           freshId: Uuid, now: int)
    requires HubValid(h)
    ensures var (h2, r2, _) := Step(h, receivers, calls, user, Subscribe(room), freshId, now);
      && HubValid(h2)
      && room in h2.rooms && room in r2 && r2[room] == h2.rooms[room]
      && h2.sent == h.sent + [(r2[room], E.Encode(E.UserJoined(room, user)))]
  {
  }

  /** A started call is live in its room and announced once to the room's
      channel, if the room has one, naming the starter. */
  lemma StartAnnouncesLiveCall(h: HubState, receivers: map<Uuid, Channel>, calls: seq<CallRow>, user: Uuid, room: Uuid,
                               freshId: Uuid, now: int)
    requires KeyFree(calls, CallId, freshId)
    ensures var (h2, _, calls2) := Step(h, receivers, calls, user, StartCall(room), freshId, now);
      && ActiveCallIn(calls2, room).Some?
      && FindCall(calls2, freshId) == Ok(NewCall(freshId, room, user, now))
      && h2.sent == h.sent + (if room in h.rooms then [(h.rooms[room], E.Encode(E.VoiceCallIncoming(freshId, room, user)))] else [])
  {
    var calls2 := calls + [NewCall(freshId, room, user, now)];
    InitiateAddsLiveCall(calls, freshId, room, user, now);
    assert IndexOf(calls2, CallId, freshId) == |calls| by {
      assert CallId(calls2[|calls|]) == freshId;
      assert forall k :: 0 <= k < |calls| ==> calls2[k] == calls[k];
    }
  }

  /** Signalling is relayed unchanged, only to the room of an existing call. */
  lemma SignalsStayInCallRoom(h: HubState, receivers: map<Uuid, Channel>, calls: seq<CallRow>, user: Uuid,
                              event: E.WebSocketEvent, freshId: Uuid, now: int)
    requires event.VoiceOffer? || event.VoiceAnswer? || event.IceCandidate?
    ensures var (h2, r2, calls2) := Step(h, receivers, calls, user, Dispatch(user, Some(event)), freshId, now);
      && r2 == receivers && calls2 == calls
      && (KeyFree(calls, CallId, event.callId) ==> h2 == h)
      && (!KeyFree(calls, CallId, event.callId) ==>
            var room := FindCall(calls, event.callId).value.roomId;
            h2.sent == h.sent + (if room in h.rooms then [(h.rooms[room], E.Encode(event))] else []))
  {
  }

  /** The user a connection acts for: the token's session must validate. */
  function Authenticated(token: Option<string>, users: seq<UserRow>, sessions: seq<SessionRow>, now: int): (r: Option<Uuid>)
    ensures r.Some? <==> token.Some? && SessionUser(users, sessions, token.value, now).Ok?
    ensures r.Some? ==> r.value == SessionUser(users, sessions, token.value, now).value.id
  {
    if token.None? then None
    else
      var user := SessionUser(users, sessions, token.value, now);
      if user.Err? then None else Some(user.value.id)
  }

  /** A token that was logged out no longer opens a connection. */
  lemma LoggedOutTokenRefused(users: seq<UserRow>, sessions: seq<SessionRow>, token: string, now: int)
    requires UniqueBy(sessions, SessionToken)
    ensures Authenticated(Some(token), users, AfterLogout(sessions, token), now).None?
  {
    LogoutEndsSession(users, sessions, token, now);
  }

  /** `WebSocketService`: the room map, shared by every connection. */
  class RoomHub {
    var rooms: map<Uuid, Channel>
    var nextChannel: Channel
    var sent: seq<(Channel, JsonObject)>

    function State(): HubState
      reads this
    {
      HubState(rooms, nextChannel, sent)
    }

    predicate Valid()
      reads this
    {
      HubValid(State())
    }

    constructor ()
      ensures rooms == map[] && sent == [] && Valid()
    {
      rooms := map[];
      nextChannel := 0;
      sent := [];
    }

    method GetOrCreateRoomSender(roomId: Uuid) returns (channel: Channel)
      requires Valid()
      modifies this
      ensures Valid()
      ensures (State(), channel) == Sender(old(State()), roomId)
    {
      if roomId in rooms {
        return rooms[roomId];
      }
      channel := nextChannel;
      rooms := rooms[roomId := channel];
      nextChannel := nextChannel + 1;
    }

    method BroadcastToRoom(roomId: Uuid, event: E.WebSocketEvent)
      modifies this
      ensures State() == Broadcast(old(State()), roomId, event)
    {
      if roomId in rooms {
        sent := sent + [(rooms[roomId], E.Encode(event))];
      }
    }

    /** `remove_room`: drops that room's channel and no other. */
    method RemoveRoom(roomId: Uuid)
      modifies this
      ensures rooms == old(rooms) - {roomId}
      ensures nextChannel == old(nextChannel) && sent == old(sent)
    {
      rooms := rooms - {roomId};
    }
  }

  /** One socket: the user it authenticated as (`None` when it was closed
      at once) and the rooms it listens to. */
  class Connection {
    const hub: RoomHub
    const calls: VoiceCallSignalingService
    const userId: Option<Uuid>
    var receivers: map<Uuid, Channel>

    /** `handle_socket` up to the point where frames are read: the token
        from the query string is validated against the sessions. */
    constructor (hub: RoomHub, calls: VoiceCallSignalingService, token: Option<string>, now: int)
      ensures this.hub == hub && this.calls == calls && receivers == map[]
      ensures userId == Authenticated(token, calls.db.users, calls.db.sessions, now)
    {
      this.hub := hub;
      this.calls := calls;
      this.userId := Authenticated(token, calls.db.users, calls.db.sessions, now);
      receivers := map[];
    }

    /** One text frame (`None` when it is not JSON) on an authenticated
        connection; a connection closed at authentication reads none. */
    method OnText(frame: Option<JsonObject>, freshId: Uuid, now: int)
      requires userId.Some?
      requires hub.Valid() && calls.db.Valid()
      modifies this, hub, calls.db
      ensures hub.Valid() && calls.db.Valid()
      ensures var event := if frame.Some? then E.Decode(frame.value) else None;
        (hub.State(), receivers, calls.db.calls)
          == Step(old(hub.State()), old(receivers), old(calls.db.calls), userId.value, Dispatch(userId.value, event), freshId, now)
      ensures calls.db.Snapshot() == old(calls.db.Snapshot()).(calls := calls.db.calls)
    {
      var event := if frame.Some? then E.Decode(frame.value) else None;
      var action := Dispatch(userId.value, event);
      if action.Subscribe? || action.Unsubscribe? {
        ChangeMembership(action, freshId, now);
      } else if action.StartCall? || action.AcceptCall? {
        OpenCall(action, freshId, now);
      } else if action.RejectCall? {
        RejectFrame(action, freshId, now);
      } else if action.EndCall? {
        EndFrame(action, freshId, now);
      } else if action.Forward? {
        RelayFrame(action, freshId, now);
      }
    }

    /** Joining or leaving a room: the receiver map and the announcement. */
    method ChangeMembership(action: Action, freshId: Uuid, now: int)
      requires action.Subscribe? || action.Unsubscribe?
      requires userId.Some?
      requires hub.Valid() && calls.db.Valid()
      modifies this, hub, calls.db
      ensures hub.Valid() && calls.db.Valid()
      ensures (hub.State(), receivers, calls.db.calls)
          == Step(old(hub.State()), old(receivers), old(calls.db.calls), userId.value, action, freshId, now)
      ensures calls.db.Snapshot() == old(calls.db.Snapshot()).(calls := calls.db.calls)
    {
      var user := userId.value;
      match action
      case Subscribe(room) =>
        var channel := hub.GetOrCreateRoomSender(room);
        receivers := receivers[room := channel];
        hub.BroadcastToRoom(room, E.UserJoined(room, user));
      case Unsubscribe(room) =>
        receivers := receivers - {room};
        hub.BroadcastToRoom(room, E.UserLeft(room, user));
    }

    /** Starting or accepting a call, announced to the call's room on success. */
    method OpenCall(action: Action, freshId: Uuid, now: int)
      requires action.StartCall? || action.AcceptCall?
      requires userId.Some?
      requires hub.Valid() && calls.db.Valid()
      modifies this, hub, calls.db
      ensures hub.Valid() && calls.db.Valid()
      ensures (hub.State(), receivers, calls.db.calls)
          == Step(old(hub.State()), old(receivers), old(calls.db.calls), userId.value, action, freshId, now)
      ensures calls.db.Snapshot() == old(calls.db.Snapshot()).(calls := calls.db.calls)
    {
      var user := userId.value;
      match action
      case StartCall(room) =>
        var call := calls.InitiateCall(freshId, room, user, now);
        if call.Ok? {
          hub.BroadcastToRoom(room, E.VoiceCallIncoming(call.value.id, room, user));
        }
      case AcceptCall(callId) =>
        var call := calls.AcceptCall(callId);
        if call.Ok? {
          hub.BroadcastToRoom(call.value.roomId, E.VoiceCallAccepted(call.value.id, call.value.roomId, user));
        }
    }

    /** Rejecting a call that exists ends it and tells its room. */
    method RejectFrame(action: Action, freshId: Uuid, now: int)
      requires action.RejectCall?
      requires userId.Some?
      requires hub.Valid() && calls.db.Valid()
      modifies this, hub, calls.db
      ensures hub.Valid() && calls.db.Valid()
      ensures (hub.State(), receivers, calls.db.calls)
          == Step(old(hub.State()), old(receivers), old(calls.db.calls), userId.value, action, freshId, now)
      ensures calls.db.Snapshot() == old(calls.db.Snapshot()).(calls := calls.db.calls)
    {
      var call := calls.GetCall(action.callId);
      if call.Ok? {
        var _ := calls.RejectCall(action.callId, now);
        hub.BroadcastToRoom(call.value.roomId, E.VoiceCallRejected(action.callId, call.value.roomId, userId.value));
      }
    }

    /** Ending a call that exists ends it and tells its room. */
    method EndFrame(action: Action, freshId: Uuid, now: int)
      requires action.EndCall?
      requires userId.Some?
      requires hub.Valid() && calls.db.Valid()
      modifies this, hub, calls.db
      ensures hub.Valid() && calls.db.Valid()
      ensures (hub.State(), receivers, calls.db.calls)
          == Step(old(hub.State()), old(receivers), old(calls.db.calls), userId.value, action, freshId, now)
      ensures calls.db.Snapshot() == old(calls.db.Snapshot()).(calls := calls.db.calls)
    {
      var call := calls.GetCall(action.callId);
      if call.Ok? {
        var _ := calls.EndCall(action.callId, now);
        hub.BroadcastToRoom(call.value.roomId, E.VoiceCallEnded(action.callId, call.value.roomId, userId.value));
      }
    }

    /** A negotiation message goes to the room of a call that exists. */
    method RelayFrame(action: Action, freshId: Uuid, now: int)
      requires action.Forward?
      requires userId.Some?
      requires hub.Valid() && calls.db.Valid()
      modifies this, hub, calls.db
      ensures hub.Valid() && calls.db.Valid()
      ensures (hub.State(), receivers, calls.db.calls)
          == Step(old(hub.State()), old(receivers), old(calls.db.calls), userId.value, action, freshId, now)
      ensures calls.db.Snapshot() == old(calls.db.Snapshot()).(calls := calls.db.calls)
    {
      var call := calls.GetCall(action.callId);
      if call.Ok? {
        hub.BroadcastToRoom(call.value.roomId, action.event);
      }
    }
  }
}
