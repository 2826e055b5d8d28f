/** The client's records (road-trip-app/app/types). Timestamps that the client
    keeps as ISO-8601 text are represented by their value in milliseconds
    since the epoch, which is all the client ever compares. */
module ClientTypes {
  import opened Wrappers

  datatype User = User(id: string, name: string, email: string, avatar: Option<string>)

  datatype Room = Room(
    id: string,
    name: string,
    description: Option<string>,
    createdBy: string,
    createdAt: int,
    updatedAt: int,
    isActive: bool)

  datatype Message = Message(
    id: string,
    roomId: string,
    userId: string,
    text: Option<string>,
    imageUrl: Option<string>,
    messageType: string,
    createdAt: int)

  /** A location as the store holds it. Rows fetched over REST carry every
      field; a row built from a socket event has no `id`, no `room_id` and no
      `timestamp`, only `updated_at`. */
  datatype Location = Location(
    id: Option<string>,
    userId: string,
    roomId: Option<string>,
    latitude: real,
    longitude: real,
    timestamp: Option<int>,
    updatedAt: Option<int>)

  /** A decoded inbound socket message: a JSON object, each field of which may
      be missing. Only the fields the client reads are kept. */
  datatype Payload = Payload(
    kind: Option<string>,
    id: Option<string>,
    callId: Option<string>,
    messageId: Option<string>,
    userId: Option<string>,
    roomId: Option<string>,
    text: Option<string>,
    imageUrl: Option<string>,
    messageType: Option<string>,
    initiatorId: Option<string>,
    latitude: Option<real>,
    longitude: Option<real>)

  /** The store keeps whatever object it is handed as the call; the socket
      dispatcher hands it the raw payload. */
  type VoiceCall = Payload

  datatype CallState = CallState(
    call: Option<VoiceCall>,
    isIncoming: bool,
    isActive: bool,
    callDuration: int)

  datatype AppState = AppState(
    user: Option<User>,
    currentRoom: Option<Room>,
    rooms: seq<Room>,
    messages: seq<Message>,
    locations: seq<Location>,
    callState: Option<CallState>,
    isLoading: bool,
    error: Option<string>)

  /** JavaScript truthiness of an optional string: present and non-empty. */
  predicate Truthy(o: Option<string>) {
    o.Some? && o.value != ""
  }

  /** JavaScript truthiness of an optional number: present and non-zero. */
  predicate TruthyNumber(o: Option<real>) {
    o.Some? && o.value != 0.0
  }

  /** `a || b` on optional strings: `a` when truthy, else `b`. */
  function OrElse(a: Option<string>, b: string): (r: string)
    ensures Truthy(a) ==> r == a.value
    ensures !Truthy(a) ==> r == b
  {
    if Truthy(a) then a.value else b
  }
}
