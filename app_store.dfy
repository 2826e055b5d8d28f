/** The client's global store (road-trip-app/app/store/useAppStore.ts). Every
    action is a reducer from the old state to the new one; `Store` is the one
    shared cell the services and screens read and write. */
module AppStore {
  import opened Wrappers
  import opened ClientTypes

  function InitialState(): (r: AppState)
    ensures r.user.None? && r.currentRoom.None? && r.callState.None? && r.error.None?
    ensures r.rooms == [] && r.messages == [] && r.locations == [] && !r.isLoading
  {
    AppState(None, None, [], [], [], None, false, None)
  }

  function SetUser(s: AppState, user: Option<User>): (r: AppState)
    ensures r.user == user && r.(user := s.user) == s
  {
    s.(user := user)
  }

  /** Entering (or leaving) a room also forgets the loaded messages. */
  function SetCurrentRoom(s: AppState, room: Option<Room>): (r: AppState)
    ensures r.currentRoom == room && r.messages == []
    ensures r.(currentRoom := s.currentRoom, messages := s.messages) == s
  {
    s.(currentRoom := room, messages := [])
  }

  function SetRooms(s: AppState, rooms: seq<Room>): (r: AppState)
    ensures r.rooms == rooms && r.(rooms := s.rooms) == s
  {
    s.(rooms := rooms)
  }

  /** Appends at the end; the rooms already there keep their places. */
  function AddRoom(s: AppState, room: Room): (r: AppState)
    ensures |r.rooms| == |s.rooms| + 1 && r.rooms[..|s.rooms|] == s.rooms && r.rooms[|s.rooms|] == room
    ensures r.(rooms := s.rooms) == s
  {
    s.(rooms := s.rooms + [room])
  }

  /** Appends at the end; the messages already there keep their places. */
  function AddMessage(s: AppState, message: Message): (r: AppState)
    ensures |r.messages| == |s.messages| + 1 && r.messages[..|s.messages|] == s.messages
    ensures r.messages[|s.messages|] == message
    ensures r.(messages := s.messages) == s
  {
    s.(messages := s.messages + [message])
  }

  function SetMessages(s: AppState, messages: seq<Message>): (r: AppState)
    ensures r.messages == messages && r.(messages := s.messages) == s
  {
    s.(messages := messages)
  }

  /** Two locations occupy the same slot when they agree on `user_id` and on
      `room_id` (two missing `room_id`s compare equal, as `undefined === undefined`). */
  predicate SameSlot(a: Location, b: Location) {
    a.userId == b.userId && a.roomId == b.roomId
  }

  /** `findIndex`: the first position whose entry shares the slot of `l`, or -1. */
  function FindSlot(locations: seq<Location>, l: Location): (r: int)
    ensures -1 <= r < |locations|
    ensures r >= 0 ==> SameSlot(locations[r], l) && forall j :: 0 <= j < r ==> !SameSlot(locations[j], l)
    ensures r == -1 ==> forall j :: 0 <= j < |locations| ==> !SameSlot(locations[j], l)
  {
    if locations == [] then -1
    else if SameSlot(locations[0], l) then 0
    else
      var k := FindSlot(locations[1..], l);
      if k == -1 then -1 else k + 1
  }

  /** Upsert: overwrite the first entry in the slot of `l`, or append `l`. */
  function UpdateLocation(s: AppState, l: Location): (r: AppState)
    ensures r.(locations := s.locations) == s
    ensures var i := FindSlot(s.locations, l);
      if i >= 0 then
        |r.locations| == |s.locations| && r.locations[i] == l
        && forall j :: 0 <= j < |s.locations| && j != i ==> r.locations[j] == s.locations[j]
      else
        r.locations == s.locations + [l]
  {
    var i := FindSlot(s.locations, l);
    if i >= 0 then s.(locations := s.locations[i := l])
    else s.(locations := s.locations + [l])
  }

  function SetLocations(s: AppState, locations: seq<Location>): (r: AppState)
    ensures r.locations == locations && r.(locations := s.locations) == s
  {
    s.(locations := locations)
  }

  function SetCallState(s: AppState, callState: Option<CallState>): (r: AppState)
    ensures r.callState == callState && r.(callState := s.callState) == s
  {
    s.(callState := callState)
  }

  /** An incoming call replaces whatever call state there was. */
  function SetIncomingCall(s: AppState, call: VoiceCall): (r: AppState)
    ensures r.callState == Some(CallState(Some(call), true, false, 0))
    ensures r.(callState := s.callState) == s
  {
    s.(callState := Some(CallState(Some(call), true, false, 0)))
  }

  /** An accepted call is active and no longer incoming; the running duration
      survives, and starts at 0 when there was no call state. */
  function SetCallAccepted(s: AppState, call: VoiceCall): (r: AppState)
    ensures r.callState.Some? && r.callState.value.call == Some(call)
    ensures !r.callState.value.isIncoming && r.callState.value.isActive
    ensures r.callState.value.callDuration
         == if s.callState.Some? then s.callState.value.callDuration else 0
    ensures r.(callState := s.callState) == s
  {
    match s.callState
    case Some(cs) => s.(callState := Some(cs.(call := Some(call), isIncoming := false, isActive := true)))
    case None => s.(callState := Some(CallState(Some(call), false, true, 0)))
  }

  function SetCallRejected(s: AppState): (r: AppState)
    ensures r.callState.None? && r.(callState := s.callState) == s
  {
    s.(callState := None)
  }

  function EndCall(s: AppState): (r: AppState)
    ensures r.callState.None? && r.(callState := s.callState) == s
  {
    s.(callState := None)
  }

  function SetLoading(s: AppState, loading: bool): (r: AppState)
    ensures r.isLoading == loading && r.(isLoading := s.isLoading) == s
  {
    s.(isLoading := loading)
  }

  function SetError(s: AppState, error: Option<string>): (r: AppState)
    ensures r.error == error && r.(error := s.error) == s
  {
    s.(error := error)
  }

  /** Every field goes back to its initial value, whatever the state was. */
  function Reset(s: AppState): (r: AppState)
    ensures r == InitialState()
  {
    InitialState()
  }

  // Properties relating several actions

  /** The location list never holds two entries for one slot. */
  predicate SlotsUnique(locations: seq<Location>) {
    forall i, j :: 0 <= i < j < |locations| ==> !SameSlot(locations[i], locations[j])
  }

  /** Upserting keeps slots unique, so a list built only by `updateLocation`
      has one location per (user, room). */
  lemma UpdateLocationKeepsSlotsUnique(s: AppState, l: Location)
    requires SlotsUnique(s.locations)
    ensures SlotsUnique(UpdateLocation(s, l).locations)
  {
    var r := UpdateLocation(s, l).locations;
    var i := FindSlot(s.locations, l);
    forall a, b | 0 <= a < b < |r| ensures !SameSlot(r[a], r[b]) {
      if i >= 0 {
        if a == i {
          assert !SameSlot(s.locations[i], s.locations[b]);
        } else if b == i {
          assert !SameSlot(s.locations[a], s.locations[i]);
        }
      }
    }
  }

  /** After an upsert the new location is in the list, exactly once for its slot. */
  lemma UpdateLocationFindsIt(s: AppState, l: Location)
    ensures var r := UpdateLocation(s, l).locations;
      var k := FindSlot(r, l); k >= 0 && r[k] == l
  {
    var r := UpdateLocation(s, l).locations;
    var i := FindSlot(s.locations, l);
    if i >= 0 {
      assert FindSlot(r, l) == i by {
        FindSlotUnique(r, l, i);
      }
    } else {
      FindSlotUnique(r, l, |s.locations|);
    }
  }

  /** `FindSlot` gives the first slot match. */
  lemma {:induction false} FindSlotUnique(locations: seq<Location>, l: Location, i: int)
    requires 0 <= i < |locations| && SameSlot(locations[i], l)
    requires forall j :: 0 <= j < i ==> !SameSlot(locations[j], l)
    ensures FindSlot(locations, l) == i
  {
    if i > 0 {
      FindSlotUnique(locations[1..], l, i - 1);
    }
  }

  /** Upserting the same location twice is the same as once. */
  lemma UpdateLocationIdempotent(s: AppState, l: Location)
    ensures UpdateLocation(UpdateLocation(s, l), l) == UpdateLocation(s, l)
  {
    var t := UpdateLocation(s, l);
    UpdateLocationFindsIt(s, l);
    var k := FindSlot(t.locations, l);
    assert t.locations[k := l] == t.locations;
  }

  /** Accepting an incoming call makes it active with duration 0. */
  lemma IncomingThenAccepted(s: AppState, incoming: VoiceCall, accepted: VoiceCall)
    ensures SetCallAccepted(SetIncomingCall(s, incoming), accepted).callState
         == Some(CallState(Some(accepted), false, true, 0))
  {
  }

  /** Rejecting and ending leave the same state. */
  lemma RejectIsEnd(s: AppState)
    ensures SetCallRejected(s) == EndCall(s)
  {
  }

  /** The store holds one state; every action replaces it. */
  class Store {
    var state: AppState

    constructor ()
      ensures state == InitialState()
    {
      state := InitialState();
    }
  }
}
