/** The backend's socket events (road-trip-backend/src/services/websocket.rs,
    `WebSocketEvent`) and their JSON form: an object whose `type` names the
    variant and whose other keys are the variant's fields in snake_case.
    Reading a frame fails unless `type` names a variant and every field the
    variant declares is present with the right JSON type; keys it does not
    declare are ignored. A UUID is any JSON string here and a float a JSON
    number. */
module RelayEvents {
  import opened Wrappers
  import opened Json

  type Uuid = string

  datatype WebSocketEvent =
    | JoinRoom(roomId: Uuid)
    | LeaveRoom(roomId: Uuid)
    | LocationUpdate(roomId: Uuid, userId: Uuid, latitude: real, longitude: real)
    | NewMessage(roomId: Uuid, messageId: Uuid, userId: Uuid, text: Option<string>,
                 imageUrl: Option<string>, messageType: string)
    | UserJoined(roomId: Uuid, userId: Uuid)
    | UserLeft(roomId: Uuid, userId: Uuid)
    | Typing(roomId: Uuid, userId: Uuid)
    | UserTyping(roomId: Uuid, userId: Uuid)
    | VoiceCallInitiate(roomId: Uuid, initiatorId: Uuid)
    | VoiceCallAccept(callId: Uuid, userId: Uuid)
    | VoiceCallReject(callId: Uuid, userId: Uuid)
    | VoiceCallEnd(callId: Uuid, userId: Uuid)
    | VoiceOffer(callId: Uuid, offer: string)
    | VoiceAnswer(callId: Uuid, answer: string)
    | IceCandidate(callId: Uuid, candidate: string)
    | VoiceCallIncoming(callId: Uuid, roomId: Uuid, initiatorId: Uuid)
    | VoiceCallAccepted(callId: Uuid, roomId: Uuid, userId: Uuid)
    | VoiceCallRejected(callId: Uuid, roomId: Uuid, userId: Uuid)
    | VoiceCallEnded(callId: Uuid, roomId: Uuid, userId: Uuid)

  /** The `type` tag of each variant. */
  function Tag(e: WebSocketEvent): string {
    match e
    case JoinRoom(_) => "join-room"
    case LeaveRoom(_) => "leave-room"
    case LocationUpdate(_, _, _, _) => "location-update"
    case NewMessage(_, _, _, _, _, _) => "new-message"
    case UserJoined(_, _) => "user-joined"
    case UserLeft(_, _) => "user-left"
    case Typing(_, _) => "typing"
    case UserTyping(_, _) => "user-typing"
    case VoiceCallInitiate(_, _) => "voice-call-initiate"
    case VoiceCallAccept(_, _) => "voice-call-accept"
    case VoiceCallReject(_, _) => "voice-call-reject"
    case VoiceCallEnd(_, _) => "voice-call-end"
    case VoiceOffer(_, _) => "voice-offer"
    case VoiceAnswer(_, _) => "voice-answer"
    case IceCandidate(_, _) => "ice-candidate"
    case VoiceCallIncoming(_, _, _) => "voice-call-incoming"
    case VoiceCallAccepted(_, _, _) => "voice-call-accepted"
    case VoiceCallRejected(_, _, _) => "voice-call-rejected"
    case VoiceCallEnded(_, _, _) => "voice-call-ended"
  }

  /** An optional string field: absent or `null` is `None`, a string is
      `Some`; any other JSON value makes the frame unreadable. */
  function OptString(o: JsonObject, key: string): (r: Option<Option<string>>)
    ensures key !in o ==> r == Some(None)
    ensures key in o ==> (r == Some(None) <==> o[key] == JNull)
    ensures r.Some? && r.value.Some? <==> GetString(o, key).Some?
    ensures r.Some? && r.value.Some? ==> r.value == GetString(o, key)
  {
    if key !in o || o[key] == JNull then Some(None)
    else if o[key].JString? then Some(Some(o[key].s))
    else None
  }

  /** How `None` is written: as `null`. */
  function PutOpt(v: Option<string>): Json {
    if v.Some? then JString(v.value) else JNull
  }

  /** Two string fields under `a` and `b`. */
  function Pair(o: JsonObject, a: string, b: string): Option<(string, string)> {
    var x := GetString(o, a);
    var y := GetString(o, b);
    if x.None? || y.None? then None else Some((x.value, y.value))
  }

  /** Three string fields under `a`, `b` and `c`. */
  function Triple(o: JsonObject, a: string, b: string, c: string): Option<(string, string, string)> {
    var x := GetString(o, a);
    var yz := Pair(o, b, c);
    if x.None? || yz.None? then None else Some((x.value, yz.value.0, yz.value.1))
  }

  /** `serde_json::from_str::<WebSocketEvent>`, on the parsed object. */
  function Decode(o: JsonObject): (r: Option<WebSocketEvent>)
    ensures r.Some? ==> GetString(o, "type") == Some(Tag(r.value))
  {
    var tag := GetString(o, "type");
    if tag.None? then None
    else match tag.value
      case "join-room" =>
        var room := GetString(o, "room_id");
        if room.None? then None else Some(JoinRoom(room.value))
      case "leave-room" =>
        var room := GetString(o, "room_id");
        if room.None? then None else Some(LeaveRoom(room.value))
      case "location-update" =>
        var ids := Pair(o, "room_id", "user_id");
        var lat := GetNumber(o, "latitude");
        var lon := GetNumber(o, "longitude");
        if ids.None? || lat.None? || lon.None? then None
        else Some(LocationUpdate(ids.value.0, ids.value.1, lat.value, lon.value))
      case "new-message" =>
        var ids := Triple(o, "room_id", "message_id", "user_id");
        var text := OptString(o, "text");
        var image := OptString(o, "image_url");
        var kind := GetString(o, "message_type");
        if ids.None? || text.None? || image.None? || kind.None? then None
        else Some(NewMessage(ids.value.0, ids.value.1, ids.value.2, text.value, image.value, kind.value))
      case "user-joined" =>
        var ids := Pair(o, "room_id", "user_id");
        if ids.None? then None else Some(UserJoined(ids.value.0, ids.value.1))
      case "user-left" =>
        var ids := Pair(o, "room_id", "user_id");
        if ids.None? then None else Some(UserLeft(ids.value.0, ids.value.1))
      case "typing" =>
        var ids := Pair(o, "room_id", "user_id");
        if ids.None? then None else Some(Typing(ids.value.0, ids.value.1))
      case "user-typing" =>
        var ids := Pair(o, "room_id", "user_id");
        if ids.None? then None else Some(UserTyping(ids.value.0, ids.value.1))
      case "voice-call-initiate" =>
        var ids := Pair(o, "room_id", "initiator_id");
        if ids.None? then None else Some(VoiceCallInitiate(ids.value.0, ids.value.1))
      case "voice-call-accept" =>
        var ids := Pair(o, "call_id", "user_id");
        if ids.None? then None else Some(VoiceCallAccept(ids.value.0, ids.value.1))
      case "voice-call-reject" =>
        var ids := Pair(o, "call_id", "user_id");
        if ids.None? then None else Some(VoiceCallReject(ids.value.0, ids.value.1))
      case "voice-call-end" =>
        var ids := Pair(o, "call_id", "user_id");
        if ids.None? then None else Some(VoiceCallEnd(ids.value.0, ids.value.1))
      case "voice-offer" =>
        var f := Pair(o, "call_id", "offer");
        if f.None? then None else Some(VoiceOffer(f.value.0, f.value.1))
      case "voice-answer" =>
        var f := Pair(o, "call_id", "answer");
        if f.None? then None else Some(VoiceAnswer(f.value.0, f.value.1))
      case "ice-candidate" =>
        var f := Pair(o, "call_id", "candidate");
        if f.None? then None else Some(IceCandidate(f.value.0, f.value.1))
      case "voice-call-incoming" =>
        var ids := Triple(o, "call_id", "room_id", "initiator_id");
        if ids.None? then None else Some(VoiceCallIncoming(ids.value.0, ids.value.1, ids.value.2))
      case "voice-call-accepted" =>
        var ids := Triple(o, "call_id", "room_id", "user_id");
        if ids.None? then None else Some(VoiceCallAccepted(ids.value.0, ids.value.1, ids.value.2))
      case "voice-call-rejected" =>
        var ids := Triple(o, "call_id", "room_id", "user_id");
        if ids.None? then None else Some(VoiceCallRejected(ids.value.0, ids.value.1, ids.value.2))
      case "voice-call-ended" =>
        var ids := Triple(o, "call_id", "room_id", "user_id");
        if ids.None? then None else Some(VoiceCallEnded(ids.value.0, ids.value.1, ids.value.2))
      case _ => None
  }

  /** `serde_json::to_string(&event)`, as the object it writes. */
  function Encode(e: WebSocketEvent): (o: JsonObject)
    ensures "type" in o && o["type"] == JString(Tag(e))
  {
    var t := map["type" := JString(Tag(e))];
    match e
    case JoinRoom(room) => t["room_id" := JString(room)]
    case LeaveRoom(room) => t["room_id" := JString(room)]
    case LocationUpdate(room, user, lat, lon) =>
      t["room_id" := JString(room)]["user_id" := JString(user)]["latitude" := JNumber(lat)]["longitude" := JNumber(lon)]
    case NewMessage(room, id, user, text, image, kind) =>
      t["room_id" := JString(room)]["message_id" := JString(id)]["user_id" := JString(user)]
       ["text" := PutOpt(text)]["image_url" := PutOpt(image)]["message_type" := JString(kind)]
    case UserJoined(room, user) => t["room_id" := JString(room)]["user_id" := JString(user)]
    case UserLeft(room, user) => t["room_id" := JString(room)]["user_id" := JString(user)]
    case Typing(room, user) => t["room_id" := JString(room)]["user_id" := JString(user)]
    case UserTyping(room, user) => t["room_id" := JString(room)]["user_id" := JString(user)]
    case VoiceCallInitiate(room, initiator) => t["room_id" := JString(room)]["initiator_id" := JString(initiator)]
    case VoiceCallAccept(call, user) => t["call_id" := JString(call)]["user_id" := JString(user)]
    case VoiceCallReject(call, user) => t["call_id" := JString(call)]["user_id" := JString(user)]
    case VoiceCallEnd(call, user) => t["call_id" := JString(call)]["user_id" := JString(user)]
    case VoiceOffer(call, offer) => t["call_id" := JString(call)]["offer" := JString(offer)]
    case VoiceAnswer(call, answer) => t["call_id" := JString(call)]["answer" := JString(answer)]
    case IceCandidate(call, candidate) => t["call_id" := JString(call)]["candidate" := JString(candidate)]
    case VoiceCallIncoming(call, room, initiator) =>
      t["call_id" := JString(call)]["room_id" := JString(room)]["initiator_id" := JString(initiator)]
    case VoiceCallAccepted(call, room, user) =>
      t["call_id" := JString(call)]["room_id" := JString(room)]["user_id" := JString(user)]
    case VoiceCallRejected(call, room, user) =>
      t["call_id" := JString(call)]["room_id" := JString(room)]["user_id" := JString(user)]
    case VoiceCallEnded(call, room, user) =>
      t["call_id" := JString(call)]["room_id" := JString(room)]["user_id" := JString(user)]
  }

  /** What the server writes, the server reads back unchanged. */
  lemma DecodeEncode(e: WebSocketEvent)
    ensures Decode(Encode(e)) == Some(e)
  {
    if e.JoinRoom? || e.LeaveRoom? || e.LocationUpdate? {
      DecodeEncodeRoom(e);
    } else if e.NewMessage? {
      DecodeEncodeMessage(e);
    } else if e.UserJoined? || e.UserLeft? || e.Typing? || e.UserTyping? || e.VoiceCallInitiate? {
      DecodeEncodePresence(e);
    } else if e.VoiceCallAccept? || e.VoiceCallReject? || e.VoiceCallEnd? {
      DecodeEncodeCallAnswer(e);
    } else if e.VoiceOffer? || e.VoiceAnswer? || e.IceCandidate? {
      DecodeEncodeNegotiation(e);
    } else if e.VoiceCallIncoming? || e.VoiceCallAccepted? {
      DecodeEncodeCallOpened(e);
    } else {
      DecodeEncodeCallClosed(e);
    }
  }

  lemma DecodeEncodeRoom(e: WebSocketEvent)
    requires e.JoinRoom? || e.LeaveRoom? || e.LocationUpdate?
    ensures Decode(Encode(e)) == Some(e)
  {
  }

  lemma DecodeEncodeMessage(e: WebSocketEvent)
    requires e.NewMessage?
    ensures Decode(Encode(e)) == Some(e)
  {
  }

  lemma DecodeEncodePresence(e: WebSocketEvent)
    requires e.UserJoined? || e.UserLeft? || e.Typing? || e.UserTyping? || e.VoiceCallInitiate?
    ensures Decode(Encode(e)) == Some(e)
  {
  }

  lemma DecodeEncodeCallAnswer(e: WebSocketEvent)
    requires e.VoiceCallAccept? || e.VoiceCallReject? || e.VoiceCallEnd?
    ensures Decode(Encode(e)) == Some(e)
  {
  }

  lemma DecodeEncodeNegotiation(e: WebSocketEvent)
    requires e.VoiceOffer? || e.VoiceAnswer? || e.IceCandidate?
    ensures Decode(Encode(e)) == Some(e)
  {
  }

  lemma DecodeEncodeCallOpened(e: WebSocketEvent)
    requires e.VoiceCallIncoming? || e.VoiceCallAccepted?
    ensures Decode(Encode(e)) == Some(e)
  {
  }

  lemma DecodeEncodeCallClosed(e: WebSocketEvent)
    requires e.VoiceCallRejected? || e.VoiceCallEnded?
    ensures Decode(Encode(e)) == Some(e)
  {
  }
}
