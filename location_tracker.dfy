/** The client's location tracker (road-trip-app/app/services/locationService.ts).

    A throttle admits a position fix only when no fix was sent yet, or when at
    least 30 s have passed AND the device moved at least 100 m since the last
    one sent. Around it, a mode machine keeps a set of active rooms, one
    foreground position watch, one background interval and the foreground
    flag.

    The device is the environment: each call receives an `Env` holding the
    permission answer, the position fix `getCurrentPositionAsync` would
    return (None when it fails), whether `watchPositionAsync` throws, and the
    clock. The haversine distance is the function `dist`, given to the
    tracker when it is built. REST calls are appended to `posts` and calls
    to the socket wrapper to `socketUpdates`. The pure functions on
    `Tracker` say what each method does to the whole state; the class runs
    the same steps in place. */
module LocationTracker {
  import opened Wrappers
  import opened ClientTypes

  const MinDistanceChange: real := 100.0
  const MinTimeInterval: int := 30000
  const BackgroundTimeInterval: int := 60000

  datatype Coord = Coord(latitude: real, longitude: real)

  /** The last fix sent, with the clock reading at which it was sent. */
  datatype SentLocation = SentLocation(at: Coord, timestamp: int)

  /** One location report for one room. */
  datatype Post = Post(roomId: string, at: Coord)

  /** What the device answers during one call. */
  datatype Env = Env(permission: bool, position: Option<Coord>, watchFails: bool, now: int)

  /** The admission rule: time first, then distance. */
  function ShouldSendLocationUpdate(lastSent: Option<SentLocation>, c: Coord, timestamp: int,
                                    dist: (Coord, Coord) -> real): (r: bool)
    ensures lastSent.None? ==> r
    ensures lastSent.Some? && timestamp - lastSent.value.timestamp < MinTimeInterval ==> !r
    ensures lastSent.Some? && timestamp - lastSent.value.timestamp >= MinTimeInterval ==>
      (r <==> dist(lastSent.value.at, c) >= MinDistanceChange)
  {
    if lastSent.None? then true
    else if timestamp - lastSent.value.timestamp < MinTimeInterval then false
    else if dist(lastSent.value.at, c) < MinDistanceChange then false
    else true
  }

  /** The whole state of the tracker. `watchSubscription` names the room the
      held watch reports for; `orphanWatches` are watches that were replaced
      without being removed and keep reporting. */
  datatype Tracker = Tracker(
    watchSubscription: Option<string>,
    orphanWatches: seq<string>,
    backgroundInterval: bool,
    isWatching: bool,
    currentRoomId: Option<string>,
    activeRooms: seq<string>,
    isInForeground: bool,
    lastLocation: Option<Coord>,
    lastSentLocation: Option<SentLocation>,
    listening: bool,
    posts: seq<Post>,
    socketUpdates: seq<Post>)

  predicate NoDuplicates(s: seq<string>) {
    forall i, j :: 0 <= i < j < |s| ==> s[i] != s[j]
  }

  /** `activeRooms` is a set, and the tracker claims to watch only while it
      holds a watch. */
  predicate Valid(t: Tracker) {
    NoDuplicates(t.activeRooms) && (t.isWatching ==> t.watchSubscription.Some?)
  }

  /** `Set.prototype.delete`. */
  function Remove(s: seq<string>, x: string): (r: seq<string>)
    ensures forall y :: y in r <==> y in s && y != x
    ensures NoDuplicates(s) ==> NoDuplicates(r)
    ensures x !in s ==> r == s
  {
    if s == [] then []
    else if s[0] == x then Remove(s[1..], x)
    else
      var rest := Remove(s[1..], x);
      assert NoDuplicates(s) ==> s[0] !in s[1..];
      [s[0]] + rest
  }

  /** One report of `c` for each room, in the order of the rooms. */
  function PostsTo(rooms: seq<string>, c: Coord): (r: seq<Post>)
    ensures |r| == |rooms| && forall i :: 0 <= i < |rooms| ==> r[i] == Post(rooms[i], c)
  {
    if rooms == [] then [] else [Post(rooms[0], c)] + PostsTo(rooms[1..], c)
  }

  // The steps, as functions of the whole state

  function StopBackground(t: Tracker): Tracker {
    t.(backgroundInterval := false)
  }

  function DropWatch(t: Tracker): Tracker {
    if t.watchSubscription.Some? then t.(watchSubscription := None, isWatching := false) else t
  }

  /** One round of `sendLocationToActiveRooms`: `getCurrentLocation` asks for
      permission again and gives no fix when it is refused. */
  function SendToActiveRooms(t: Tracker, env: Env, dist: (Coord, Coord) -> real): (r: Tracker)
    ensures r.(lastLocation := t.lastLocation, lastSentLocation := t.lastSentLocation, posts := t.posts) == t
    ensures t.posts <= r.posts && |r.posts| <= |t.posts| + |t.activeRooms|
  {
    if t.activeRooms == [] || !env.permission || env.position.None? then t
    else
      var c := env.position.value;
      if !ShouldSendLocationUpdate(t.lastSentLocation, c, env.now, dist) then t.(lastLocation := Some(c))
      else t.(lastLocation := Some(c), lastSentLocation := Some(SentLocation(c, env.now)),
              posts := t.posts + PostsTo(t.activeRooms, c))
  }

  function StartBackground(t: Tracker, env: Env, dist: (Coord, Coord) -> real): (r: Tracker)
    ensures r.backgroundInterval == (t.backgroundInterval || env.permission)
    ensures r.activeRooms == t.activeRooms && r.watchSubscription == t.watchSubscription
    ensures r.isWatching == t.isWatching && r.currentRoomId == t.currentRoomId
    ensures t.backgroundInterval ==> r == t
  {
    if t.backgroundInterval || !env.permission then t
    else SendToActiveRooms(t, env, dist).(backgroundInterval := true)
  }

  function AddRoom(t: Tracker, room: string, env: Env, dist: (Coord, Coord) -> real): (r: Tracker)
    ensures room in r.activeRooms && (room in t.activeRooms ==> r == t)
    ensures forall x :: x in r.activeRooms <==> x in t.activeRooms || x == room
    ensures r.watchSubscription == t.watchSubscription && r.isWatching == t.isWatching
    ensures r.currentRoomId == t.currentRoomId && r.isInForeground == t.isInForeground
  {
    if room in t.activeRooms then t
    else
      var t1 := t.(activeRooms := t.activeRooms + [room]);
      if !t1.isInForeground && !t1.backgroundInterval then StartBackground(t1, env, dist) else t1
  }

  function RemoveRoom(t: Tracker, room: string): (r: Tracker)
    ensures room !in r.activeRooms
    ensures r.watchSubscription == t.watchSubscription && r.currentRoomId == t.currentRoomId
    ensures r.posts == t.posts && r.lastSentLocation == t.lastSentLocation
  {
    var t1 := t.(activeRooms := Remove(t.activeRooms, room));
    if t1.activeRooms == [] && t1.backgroundInterval then StopBackground(t1) else t1
  }

  /** The part of `startLocationTracking` after the room was added: a watch
      is registered for `room` unless one already reports for it. */
  function WatchRoom(t1: Tracker, room: string, env: Env, dist: (Coord, Coord) -> real): (r: Tracker)
    ensures t1.isWatching && t1.currentRoomId == Some(room) ==> r == t1
    ensures !(t1.isWatching && t1.currentRoomId == Some(room)) ==>
      (env.permission && !env.watchFails ==>
         r.isWatching && r.watchSubscription == Some(room) && r.currentRoomId == Some(room))
      && (env.permission && env.watchFails ==> !r.isWatching && r.currentRoomId.None?)
      && (!env.permission ==> r.currentRoomId == Some(room))
    ensures r.currentRoomId == Some(room) || r.currentRoomId.None?
    ensures r.activeRooms == t1.activeRooms && r.posts == t1.posts && r.isInForeground == t1.isInForeground
  {
    if t1.isWatching && t1.currentRoomId == Some(room) then t1
    else
      var t2 := if t1.backgroundInterval && t1.isInForeground then StopBackground(t1) else t1;
      var t3 := if t2.isWatching && t2.currentRoomId != Some(room) && t2.isInForeground
                then DropWatch(t2) else t2;
      var t4 := t3.(currentRoomId := Some(room));
      if !env.permission then t4
      else if env.watchFails then t4.(isWatching := false, currentRoomId := None)
      else
        var orphans := if t4.watchSubscription.Some? then [t4.watchSubscription.value] else [];
        t4.(watchSubscription := Some(room), orphanWatches := t4.orphanWatches + orphans, isWatching := true)
  }

  function StartTracking(t: Tracker, room: string, env: Env, dist: (Coord, Coord) -> real): (r: Tracker)
    ensures t.isWatching && t.currentRoomId == Some(room) ==> r == t
    ensures !(t.isWatching && t.currentRoomId == Some(room)) && env.permission && !env.watchFails ==>
      r.isWatching && r.watchSubscription == Some(room) && r.currentRoomId == Some(room)
    ensures r.currentRoomId == Some(room) || r.currentRoomId.None?
    ensures room in t.activeRooms ==> r.activeRooms == t.activeRooms
    ensures r.isInForeground == t.isInForeground
  {
    if t.isWatching && t.currentRoomId == Some(room) then t
    else WatchRoom(AddRoom(t, room, env, dist), room, env, dist)
  }

  /** A fix delivered to the watch registered for `room`; `apiFails` says
      whether the REST call throws, which skips the socket update. */
  function WatchSample(t: Tracker, room: string, c: Coord, now: int, apiFails: bool,
                       dist: (Coord, Coord) -> real): (r: Tracker)
    ensures r.lastLocation == Some(c) && t.posts <= r.posts && |r.posts| <= |t.posts| + 1
    ensures r.(lastLocation := t.lastLocation, lastSentLocation := t.lastSentLocation,
               posts := t.posts, socketUpdates := t.socketUpdates) == t
  {
    if !ShouldSendLocationUpdate(t.lastSentLocation, c, now, dist) then t.(lastLocation := Some(c))
    else t.(lastLocation := Some(c), lastSentLocation := Some(SentLocation(c, now)),
            posts := t.posts + [Post(room, c)],
            socketUpdates := t.socketUpdates + if !apiFails && t.isInForeground then [Post(room, c)] else [])
  }

  function AppStateChange(t: Tracker, active: bool, env: Env, dist: (Coord, Coord) -> real): (r: Tracker)
    ensures r.isInForeground == active
    ensures t.isInForeground == active ==> r == t
  {
    var t1 := t.(isInForeground := active);
    if !t.isInForeground && active then
      if Truthy(t1.currentRoomId) then StartTracking(StopBackground(t1), t1.currentRoomId.value, env, dist)
      else if t1.activeRooms != [] then StartTracking(t1, t1.activeRooms[0], env, dist)
      else t1
    else if t.isInForeground && !active then
      if Truthy(t1.currentRoomId) || t1.activeRooms != [] then StartBackground(DropWatch(t1), env, dist)
      else t1
    else t1
  }

  /** Once `room` is removed: when it was the current room, its watch goes
      (in the foreground) and the first remaining room is tracked instead. */
  function LeaveCurrent(t1: Tracker, room: string, env: Env, dist: (Coord, Coord) -> real): (r: Tracker)
    ensures t1.currentRoomId != Some(room) ==> r == t1
    ensures room !in t1.activeRooms ==> r.currentRoomId != Some(room)
    ensures r.activeRooms == t1.activeRooms
  {
    if t1.currentRoomId == Some(room) then
      var a := t1.(currentRoomId := None);
      var b := if a.watchSubscription.Some? && a.isInForeground then DropWatch(a) else a;
      if b.isInForeground && b.activeRooms != [] then StartTracking(b, b.activeRooms[0], env, dist) else b
    else t1
  }

  function StopTracking(t: Tracker, roomId: Option<string>, env: Env, dist: (Coord, Coord) -> real): (r: Tracker)
    ensures Truthy(roomId) ==> roomId.value !in r.activeRooms
    ensures Truthy(roomId) && roomId.value in t.activeRooms ==> r.currentRoomId != roomId
    ensures Truthy(roomId) && roomId.value !in t.activeRooms ==> r == t
    ensures !Truthy(roomId) ==> r.activeRooms == [] && r.currentRoomId.None?
  {
    if Truthy(roomId) then
      var room := roomId.value;
      if room !in t.activeRooms then t
      else
        var t2 := LeaveCurrent(RemoveRoom(t, room), room, env, dist);
        if t2.activeRooms != [] && !t2.isInForeground then t2
        else if t2.activeRooms == [] then StopBackground(DropWatch(t2))
        else t2
    else
      StopBackground(DropWatch(t)).(currentRoomId := None, activeRooms := [], listening := false)
  }

  // Properties of the steps

  lemma StartBackgroundValid(t: Tracker, env: Env, dist: (Coord, Coord) -> real)
    requires Valid(t)
    ensures Valid(StartBackground(t, env, dist))
    ensures StartBackground(t, env, dist).activeRooms == t.activeRooms
  {
  }

  lemma AddRoomValid(t: Tracker, room: string, env: Env, dist: (Coord, Coord) -> real)
    requires Valid(t)
    ensures Valid(AddRoom(t, room, env, dist))
  {
    if room !in t.activeRooms {
      var t1 := t.(activeRooms := t.activeRooms + [room]);
      assert NoDuplicates(t1.activeRooms);
    }
  }

  /** Registering the watch keeps the rooms and keeps the tracker valid. */
  lemma WatchRoomValid(t1: Tracker, room: string, env: Env, dist: (Coord, Coord) -> real)
    requires Valid(t1)
    ensures Valid(WatchRoom(t1, room, env, dist))
    ensures WatchRoom(t1, room, env, dist).activeRooms == t1.activeRooms
  {
  }

  lemma StartTrackingValid(t: Tracker, room: string, env: Env, dist: (Coord, Coord) -> real)
    requires Valid(t)
    ensures Valid(StartTracking(t, room, env, dist))
    ensures room in StartTracking(t, room, env, dist).activeRooms || (t.isWatching && t.currentRoomId == Some(room))
  {
    if !(t.isWatching && t.currentRoomId == Some(room)) {
      AddRoomValid(t, room, env, dist);
      WatchRoomValid(AddRoom(t, room, env, dist), room, env, dist);
    }
  }

  lemma RemoveRoomValid(t: Tracker, room: string)
    requires Valid(t)
    ensures Valid(RemoveRoom(t, room))
  {
  }

  lemma WatchSampleValid(t: Tracker, room: string, c: Coord, now: int, apiFails: bool,
                         dist: (Coord, Coord) -> real)
    requires Valid(t)
    ensures Valid(WatchSample(t, room, c, now, apiFails, dist))
  {
  }

  /** Switching between foreground and background keeps the tracker valid. */
  lemma AppStateChangeValid(t: Tracker, active: bool, env: Env, dist: (Coord, Coord) -> real)
    requires Valid(t)
    ensures Valid(AppStateChange(t, active, env, dist))
  {
    var t1 := t.(isInForeground := active);
    if !t.isInForeground && active {
      if Truthy(t1.currentRoomId) {
        StartTrackingValid(StopBackground(t1), t1.currentRoomId.value, env, dist);
      } else if t1.activeRooms != [] {
        StartTrackingValid(t1, t1.activeRooms[0], env, dist);
      }
    }
  }

  lemma LeaveCurrentValid(t1: Tracker, room: string, env: Env, dist: (Coord, Coord) -> real)
    requires Valid(t1)
    ensures Valid(LeaveCurrent(t1, room, env, dist))
  {
    if t1.currentRoomId == Some(room) {
      var a := t1.(currentRoomId := None);
      var b := if a.watchSubscription.Some? && a.isInForeground then DropWatch(a) else a;
      if b.isInForeground && b.activeRooms != [] {
        StartTrackingValid(b, b.activeRooms[0], env, dist);
      }
    }
  }

  /** Stopping one room or all of them keeps the tracker valid. */
  lemma StopTrackingValid(t: Tracker, roomId: Option<string>, env: Env, dist: (Coord, Coord) -> real)
    requires Valid(t)
    ensures Valid(StopTracking(t, roomId, env, dist))
  {
    if Truthy(roomId) && roomId.value in t.activeRooms {
      var room := roomId.value;
      RemoveRoomValid(t, room);
      LeaveCurrentValid(RemoveRoom(t, room), room, env, dist);
    }
  }

  /** A fix is admitted only when none was sent before, or when at least 30 s
      passed and the device moved at least 100 m since the last one sent;
      only an admitted fix moves `lastSentLocation`, and it moves it to the
      fix stamped with the current time. */
  lemma WatchSampleThrottled(t: Tracker, room: string, c: Coord, now: int, apiFails: bool,
                             dist: (Coord, Coord) -> real)
    ensures var r := WatchSample(t, room, c, now, apiFails, dist);
      r.lastLocation == Some(c)
      && (r.posts != t.posts <==>
            t.lastSentLocation.None?
            || (now - t.lastSentLocation.value.timestamp >= MinTimeInterval
                && dist(t.lastSentLocation.value.at, c) >= MinDistanceChange))
      && (r.posts == t.posts ==> r.lastSentLocation == t.lastSentLocation && r.socketUpdates == t.socketUpdates)
      && (r.posts != t.posts ==> r.lastSentLocation == Some(SentLocation(c, now)))
  {
  }

  /** The background round obeys the same throttle: with no room, no
      permission or no fix nothing changes; a refused fix moves only
      `lastLocation`; an admitted one is stamped with the current time and
      posted once to every active room, in order. */
  lemma SendRoundThrottled(t: Tracker, env: Env, dist: (Coord, Coord) -> real)
    ensures var r := SendToActiveRooms(t, env, dist);
      (t.activeRooms == [] || !env.permission || env.position.None? ==> r == t)
      && (t.activeRooms != [] && env.permission && env.position.Some? ==>
            var c := env.position.value;
            var admitted := t.lastSentLocation.None?
              || (env.now - t.lastSentLocation.value.timestamp >= MinTimeInterval
                  && dist(t.lastSentLocation.value.at, c) >= MinDistanceChange);
            (!admitted ==> r == t.(lastLocation := Some(c)))
            && (admitted ==> r == t.(lastLocation := Some(c), lastSentLocation := Some(SentLocation(c, env.now)),
                                     posts := t.posts + PostsTo(t.activeRooms, c))))
  {
  }

  /** Adding a room twice is adding it once. */
  lemma AddRoomIdempotent(t: Tracker, room: string, env: Env, env2: Env, dist: (Coord, Coord) -> real)
    ensures var t1 := AddRoom(t, room, env, dist); AddRoom(t1, room, env2, dist) == t1
  {
    if room !in t.activeRooms {
      var t1 := t.(activeRooms := t.activeRooms + [room]);
      assert room in t1.activeRooms;
    }
  }

  /** Adding a room starts the background interval only for a new room while
      the app is in the background and no interval runs. */
  lemma AddRoomStartsBackgroundOnlyWhenNeeded(t: Tracker, room: string, env: Env, dist: (Coord, Coord) -> real)
    ensures var r := AddRoom(t, room, env, dist);
      r.backgroundInterval != t.backgroundInterval <==>
        room !in t.activeRooms && !t.isInForeground && !t.backgroundInterval && env.permission
  {
  }

  /** Removing a room deletes exactly that room and clears the interval
      exactly when the set becomes empty. */
  lemma RemoveRoomEffect(t: Tracker, room: string)
    ensures var r := RemoveRoom(t, room);
      (forall x :: x in r.activeRooms <==> x in t.activeRooms && x != room)
      && r.backgroundInterval == (t.backgroundInterval && r.activeRooms != [])
      && r.(activeRooms := t.activeRooms, backgroundInterval := t.backgroundInterval) == t
  {
  }

  /** Going to the background drops the watch and starts the background
      interval when there is something to track; otherwise only the flag moves. */
  lemma GoingToBackground(t: Tracker, env: Env, dist: (Coord, Coord) -> real)
    requires Valid(t) && t.isInForeground
    ensures var r := AppStateChange(t, false, env, dist);
      !r.isInForeground
      && (Truthy(t.currentRoomId) || t.activeRooms != [] ==>
            !r.isWatching && r.watchSubscription.None?
            && r.backgroundInterval == (t.backgroundInterval || env.permission))
      && (!Truthy(t.currentRoomId) && t.activeRooms == [] ==> r == t.(isInForeground := false))
  {
  }

  /** Stopping everything clears the watch, the interval, the current room
      and the active rooms, and unsubscribes from app-state changes. */
  lemma StopAllClears(t: Tracker, env: Env, dist: (Coord, Coord) -> real)
    ensures var r := StopTracking(t, None, env, dist);
      r.watchSubscription.None? && !r.backgroundInterval && r.currentRoomId.None?
      && r.activeRooms == [] && !r.listening
      && r.posts == t.posts && r.lastSentLocation == t.lastSentLocation
  {
  }

  /** Stopping a room that is not active changes nothing. */
  lemma StopInactiveRoomUnchanged(t: Tracker, room: string, env: Env, dist: (Coord, Coord) -> real)
    requires room != "" && room !in t.activeRooms
    ensures StopTracking(t, Some(room), env, dist) == t
  {
  }

  /** Stopping the last active room leaves neither watch nor interval. */
  lemma StopLastRoomStopsAll(t: Tracker, room: string, env: Env, dist: (Coord, Coord) -> real)
    requires Valid(t) && room != "" && t.activeRooms == [room]
    ensures var r := StopTracking(t, Some(room), env, dist);
      r.activeRooms == [] && r.watchSubscription.None? && !r.isWatching && !r.backgroundInterval
  {
  }

  class LocationService {
    var watchSubscription: Option<string>
    var orphanWatches: seq<string>
    var backgroundInterval: bool
    var isWatching: bool
    var currentRoomId: Option<string>
    var activeRooms: seq<string>
    var isInForeground: bool
    var lastLocation: Option<Coord>
    var lastSentLocation: Option<SentLocation>
    var listening: bool
    var posts: seq<Post>
    var socketUpdates: seq<Post>
    const dist: (Coord, Coord) -> real

    function Snapshot(): Tracker
      reads this
    {
      Tracker(watchSubscription, orphanWatches, backgroundInterval, isWatching, currentRoomId,
              activeRooms, isInForeground, lastLocation, lastSentLocation, listening, posts, socketUpdates)
    }

    /** Built with the app's state at start-up; subscribes to app-state changes. */
    constructor (foreground: bool, dist: (Coord, Coord) -> real)
      ensures Valid(Snapshot()) && this.dist == dist
      ensures Snapshot() == Tracker(None, [], false, false, None, [], foreground, None, None, true, [], [])
    {
      watchSubscription := None;
      orphanWatches := [];
      backgroundInterval := false;
      isWatching := false;
      currentRoomId := None;
      activeRooms := [];
      isInForeground := foreground;
      lastLocation := None;
      lastSentLocation := None;
      listening := true;
      posts := [];
      socketUpdates := [];
      this.dist := dist;
    }

    method StopBackgroundTracking()
      modifies this
      ensures Snapshot() == StopBackground(old(Snapshot()))
    {
      if backgroundInterval {
        backgroundInterval := false;
      }
    }

    method RemoveWatch()
      modifies this
      ensures Snapshot() == DropWatch(old(Snapshot()))
    {
      if watchSubscription.Some? {
        watchSubscription := None;
        isWatching := false;
      }
    }

    method SendLocationToActiveRooms(env: Env)
      modifies this
      ensures Snapshot() == SendToActiveRooms(old(Snapshot()), env, dist)
    {
      if activeRooms == [] || !env.permission || env.position.None? {
        return;
      }
      var c := env.position.value;
      if !ShouldSendLocationUpdate(lastSentLocation, c, env.now, dist) {
        lastLocation := Some(c);
        return;
      }
      lastLocation := Some(c);
      lastSentLocation := Some(SentLocation(c, env.now));
      AppendPosts(activeRooms, c);
    }

    /** Posts `c` to each of `rooms`, in order. */
    method AppendPosts(rooms: seq<string>, c: Coord)
      modifies this
      ensures Snapshot() == old(Snapshot()).(posts := old(posts) + PostsTo(rooms, c))
    {
      var i := 0;
      while i < |rooms|
        invariant 0 <= i <= |rooms|
        invariant Snapshot() == old(Snapshot()).(posts := old(posts) + PostsTo(rooms[..i], c))
      {
        assert rooms[..i + 1] == rooms[..i] + [rooms[i]];
        PostsToAppend(rooms[..i], rooms[i], c);
        posts := posts + [Post(rooms[i], c)];
        i := i + 1;
      }
      assert rooms[..i] == rooms;
    }

    method StartBackgroundTracking(env: Env)
      modifies this
      ensures Snapshot() == StartBackground(old(Snapshot()), env, dist)
    {
      if backgroundInterval {
        return;
      }
      if !env.permission {
        return;
      }
      SendLocationToActiveRooms(env);
      backgroundInterval := true;
    }

    method AddActiveRoom(roomId: string, env: Env)
      modifies this
      ensures Snapshot() == AddRoom(old(Snapshot()), roomId, env, dist)
    {
      if roomId in activeRooms {
        return;
      }
      activeRooms := activeRooms + [roomId];
      if !isInForeground && !backgroundInterval {
        StartBackgroundTracking(env);
      }
    }

    method RemoveActiveRoom(roomId: string)
      modifies this
      ensures Snapshot() == RemoveRoom(old(Snapshot()), roomId)
    {
      activeRooms := Remove(activeRooms, roomId);
      if activeRooms == [] && backgroundInterval {
        StopBackgroundTracking();
      }
    }

    method StartLocationTracking(roomId: string, env: Env)
      modifies this
      ensures Snapshot() == StartTracking(old(Snapshot()), roomId, env, dist)
    {
      if isWatching && currentRoomId == Some(roomId) {
        return;
      }
      AddActiveRoom(roomId, env);
      WatchActiveRoom(roomId, env);
    }

    /** Registers the watch for `roomId`, now among the active rooms. */
    method WatchActiveRoom(roomId: string, env: Env)
      modifies this
      ensures Snapshot() == WatchRoom(old(Snapshot()), roomId, env, dist)
    {
      if isWatching && currentRoomId == Some(roomId) {
        return;
      }
      if backgroundInterval && isInForeground {
        StopBackgroundTracking();
      }
      if isWatching && currentRoomId != Some(roomId) && isInForeground {
        RemoveWatch();
      }
      currentRoomId := Some(roomId);
      if !env.permission {
        return;
      }
      if env.watchFails {
        isWatching := false;
        currentRoomId := None;
        return;
      }
      if watchSubscription.Some? {
        orphanWatches := orphanWatches + [watchSubscription.value];
      }
      watchSubscription := Some(roomId);
      isWatching := true;
    }

    /** The watch registered for `roomId` delivers the fix `c` at `now`. */
    method OnWatchSample(roomId: string, c: Coord, now: int, apiFails: bool)
      requires Some(roomId) == watchSubscription || roomId in orphanWatches
      modifies this
      ensures Snapshot() == WatchSample(old(Snapshot()), roomId, c, now, apiFails, dist)
    {
      var shouldSend := ShouldSendLocationUpdate(lastSentLocation, c, now, dist);
      if !shouldSend {
        lastLocation := Some(c);
        return;
      }
      lastLocation := Some(c);
      lastSentLocation := Some(SentLocation(c, now));
      posts := posts + [Post(roomId, c)];
      if !apiFails && isInForeground {
        socketUpdates := socketUpdates + [Post(roomId, c)];
      }
    }

    /** The background interval fires. */
    method OnBackgroundTick(env: Env)
      requires backgroundInterval
      modifies this
      ensures Snapshot() == SendToActiveRooms(old(Snapshot()), env, dist)
    {
      SendLocationToActiveRooms(env);
    }

    /** The app moves to the foreground (`active`) or away from it. */
    method HandleAppStateChange(active: bool, env: Env)
      modifies this
      ensures Snapshot() == AppStateChange(old(Snapshot()), active, env, dist)
    {
      var wasInForeground := isInForeground;
      isInForeground := active;
      if !wasInForeground && isInForeground {
        if Truthy(currentRoomId) {
          StopBackgroundTracking();
          StartLocationTracking(currentRoomId.value, env);
        } else if |activeRooms| > 0 {
          StartLocationTracking(activeRooms[0], env);
        }
      } else if wasInForeground && !isInForeground {
        if Truthy(currentRoomId) || |activeRooms| > 0 {
          RemoveWatch();
          StartBackgroundTracking(env);
        }
      }
    }

    method StopLocationTracking(roomId: Option<string>, env: Env)
      modifies this
      ensures Snapshot() == StopTracking(old(Snapshot()), roomId, env, dist)
    {
      if Truthy(roomId) {
        var room := roomId.value;
        if room !in activeRooms {
          return;
        }
        RemoveActiveRoom(room);
        LeaveCurrentRoom(room, env);
        if |activeRooms| > 0 && !isInForeground {
          return;
        }
        if |activeRooms| == 0 {
          RemoveWatch();
          StopBackgroundTracking();
        }
      } else {
        RemoveWatch();
        StopBackgroundTracking();
        currentRoomId := None;
        activeRooms := [];
        listening := false;
      }
    }

    /** After `room` was removed: leaves it if it was the current room. */
    method LeaveCurrentRoom(room: string, env: Env)
      modifies this
      ensures Snapshot() == LeaveCurrent(old(Snapshot()), room, env, dist)
    {
      if currentRoomId == Some(room) {
        currentRoomId := None;
        if watchSubscription.Some? && isInForeground {
          RemoveWatch();
        }
        TrackNextRoom(env);
      }
    }

    /** In the foreground, tracking moves on to the first active room. */
    method TrackNextRoom(env: Env)
      modifies this
      ensures var t := old(Snapshot());
        Snapshot() == if t.isInForeground && t.activeRooms != [] then StartTracking(t, t.activeRooms[0], env, dist) else t
    {
      if isInForeground && |activeRooms| > 0 {
        StartLocationTracking(activeRooms[0], env);
      }
    }

    function IsTracking(): (r: bool)
      reads this
      requires Valid(Snapshot())
      ensures r ==> watchSubscription.Some?
    {
      isWatching
    }
  }

  lemma {:induction false} PostsToAppend(rooms: seq<string>, room: string, c: Coord)
    ensures PostsTo(rooms + [room], c) == PostsTo(rooms, c) + [Post(room, c)]
  {
    if rooms != [] {
      assert (rooms + [room])[1..] == rooms[1..] + [room];
      PostsToAppend(rooms[1..], room, c);
    }
  }
}
