/** Rooms and memberships (road-trip-backend/src/services/room_service.rs):
    creating a room makes its creator a member, joining is idempotent,
    only the creator may update or delete, and deleting is a soft delete
    that keeps the room row and drops every membership. */
module RoomService {
  import opened Wrappers
  import opened Sequences
  import opened BackendTables

  const RoomNotFound: string := "Room not found"
  const NotCreatorUpdate: string := "Only room creator can update the room"
  const NotCreatorDelete: string := "Only room creator can delete the room"

  function HasRoomId(roomId: Uuid): RoomRow -> bool {
    (r: RoomRow) => r.id == roomId
  }

  function SamePair(roomId: Uuid, userId: Uuid): MemberRow -> bool {
    (m: MemberRow) => m.roomId == roomId && m.userId == userId
  }

  function OfRoom(roomId: Uuid): MemberRow -> bool {
    (m: MemberRow) => m.roomId == roomId
  }

  /** `get_room_by_id`. */
  function FindRoom(rooms: seq<RoomRow>, roomId: Uuid): (r: Result<RoomRow, string>)
    ensures r.Ok? <==> !KeyFree(rooms, RoomId, roomId)
    ensures r.Ok? ==> r.value in rooms && r.value.id == roomId
    ensures r.Err? ==> r.error == RoomNotFound
  {
    var i := IndexOf(rooms, RoomId, roomId);
    if i == |rooms| then Err(RoomNotFound) else Ok(rooms[i])
  }

  /** What `join_room` does to the membership table, and the row it
      returns: the room must exist (active or not); an existing membership
      is returned as it is; otherwise one row is inserted. */
  function Joined(rooms: seq<RoomRow>, members: seq<MemberRow>, roomId: Uuid, userId: Uuid, freshId: Uuid, now: int)
    : (r: Result<(seq<MemberRow>, MemberRow), string>)
    ensures FindRoom(rooms, roomId).Err? ==> r == Err(RoomNotFound)
    ensures FindRoom(rooms, roomId).Ok? && IsMember(members, roomId, userId) ==>
      r.Ok? && r.value.0 == members && r.value.1 in members && MemberPair(r.value.1) == (roomId, userId)
    ensures FindRoom(rooms, roomId).Ok? && !IsMember(members, roomId, userId) ==>
      if KeyFree(members, MemberId, freshId)
      then r == Ok((members + [MemberRow(freshId, roomId, userId, now)], MemberRow(freshId, roomId, userId, now)))
      else r == Err(DbError)
  {
    if FindRoom(rooms, roomId).Err? then Err(RoomNotFound)
    else
      var i := IndexOf(members, MemberPair, (roomId, userId));
      if i < |members| then Ok((members, members[i]))
      else
        var row := MemberRow(freshId, roomId, userId, now);
        var inserted := InsertRow(members, row, MemberId);
        if inserted.Err? then Err(inserted.error) else Ok((inserted.value, row))
  }

  /** Whatever `join_room` returns, afterwards the user is a member, and
      there is still at most one membership per (room, user). */
  lemma JoinedMakesMember(rooms: seq<RoomRow>, members: seq<MemberRow>, roomId: Uuid, userId: Uuid, freshId: Uuid, now: int)
    requires UniqueBy(members, MemberId) && UniqueBy(members, MemberPair)
    requires Joined(rooms, members, roomId, userId, freshId, now).Ok?
    ensures var after := Joined(rooms, members, roomId, userId, freshId, now).value.0;
      IsMember(after, roomId, userId) && UniqueBy(after, MemberId) && UniqueBy(after, MemberPair)
  {
    var after := Joined(rooms, members, roomId, userId, freshId, now).value.0;
    if !IsMember(members, roomId, userId) {
      var row := MemberRow(freshId, roomId, userId, now);
      AppendKeepsUnique(members, row, MemberPair);
      assert after[|members|] == row;
    }
  }

  /** Joining twice is joining once: the second join inserts nothing and
      returns the row the first one made. */
  lemma JoinIdempotent(rooms: seq<RoomRow>, members: seq<MemberRow>, roomId: Uuid, userId: Uuid, id1: Uuid, id2: Uuid, now1: int, now2: int)
    requires UniqueBy(members, MemberPair)
    requires Joined(rooms, members, roomId, userId, id1, now1).Ok?
    ensures var first := Joined(rooms, members, roomId, userId, id1, now1).value;
      Joined(rooms, first.0, roomId, userId, id2, now2) == Ok(first)
  {
    var first := Joined(rooms, members, roomId, userId, id1, now1).value;
    if !IsMember(members, roomId, userId) {
      var row := MemberRow(id1, roomId, userId, now1);
      AppendKeepsUnique(members, row, MemberPair);
      IndexOfUnique(first.0, MemberPair, (roomId, userId), |members|);
    } else {
      var i := IndexOf(members, MemberPair, (roomId, userId));
      IndexOfUnique(members, MemberPair, (roomId, userId), i);
    }
  }

  /** The row `create_room` inserts: active, created and updated `now`. */
  function NewRoom(id: Uuid, name: string, description: Option<string>, createdBy: Uuid, now: int): RoomRow {
    RoomRow(id, name, description, createdBy, now, now, true)
  }

  function RoomUpdatedAt(r: RoomRow): int {
    -r.updatedAt
  }

  function ActiveMemberRoom(members: seq<MemberRow>, userId: Uuid): RoomRow -> bool {
    (r: RoomRow) => r.isActive && IsMember(members, r.id, userId)
  }

  /** `get_user_rooms`: the active rooms the user belongs to, most recently
      updated first. */
  function UserRooms(rooms: seq<RoomRow>, members: seq<MemberRow>, userId: Uuid): (r: seq<RoomRow>)
    ensures forall x :: x in r <==> x in rooms && x.isActive && IsMember(members, x.id, userId)
    ensures forall i, j :: 0 <= i < j < |r| ==> r[i].updatedAt >= r[j].updatedAt
  {
    var picked := Filter(rooms, ActiveMemberRoom(members, userId));
    var r := SortBy(picked, RoomUpdatedAt);
    assert forall x :: x in r <==> x in picked by {
      forall x ensures x in r <==> x in picked {
        assert x in r <==> x in multiset(r);
      }
    }
    assert forall i, j :: 0 <= i < j < |r| ==> RoomUpdatedAt(r[i]) <= RoomUpdatedAt(r[j]);
    r
  }

  function MemberOf(members: seq<MemberRow>, roomId: Uuid): UserRow -> bool {
    (u: UserRow) => IsMember(members, roomId, u.id)
  }

  /** `get_room_members`: the users with a membership in the room, which
      must exist. */
  function RoomMembers(users: seq<UserRow>, rooms: seq<RoomRow>, members: seq<MemberRow>, roomId: Uuid)
    : (r: Result<seq<UserRow>, string>)
    ensures r.Err? <==> FindRoom(rooms, roomId).Err?
    ensures r.Err? ==> r.error == RoomNotFound
    ensures r.Ok? ==> forall u :: u in r.value <==> u in users && IsMember(members, roomId, u.id)
  {
    if FindRoom(rooms, roomId).Err? then Err(RoomNotFound) else Ok(Filter(users, MemberOf(members, roomId)))
  }

  /** `leave_room`: every membership of (room, user) is deleted; the others
      stay. */
  function AfterLeave(members: seq<MemberRow>, roomId: Uuid, userId: Uuid): (r: seq<MemberRow>)
    ensures !IsMember(r, roomId, userId)
    ensures forall m :: m in r <==> m in members && MemberPair(m) != (roomId, userId)
  {
    var r := DeleteWhere(members, SamePair(roomId, userId));
    assert forall m :: m in members && MemberPair(m) != (roomId, userId) ==> m in r by {
      forall m | m in members && MemberPair(m) != (roomId, userId) ensures m in r {
        var k :| 0 <= k < |members| && members[k] == m;
      }
    }
    r
  }

  /** Leaving touches only that user's membership of that room. */
  lemma LeaveKeepsOthers(members: seq<MemberRow>, roomId: Uuid, userId: Uuid, otherRoom: Uuid, otherUser: Uuid)
    requires (otherRoom, otherUser) != (roomId, userId)
    ensures IsMember(AfterLeave(members, roomId, userId), otherRoom, otherUser) <==> IsMember(members, otherRoom, otherUser)
  {
    var after := AfterLeave(members, roomId, userId);
    if IsMember(members, otherRoom, otherUser) {
      var k :| 0 <= k < |members| && MemberPair(members[k]) == (otherRoom, otherUser);
      assert members[k] in after;
    }
    if IsMember(after, otherRoom, otherUser) {
      var k :| 0 <= k < |after| && MemberPair(after[k]) == (otherRoom, otherUser);
      assert after[k] in members;
    }
  }

  /** `is_creator`. */
  function IsCreator(rooms: seq<RoomRow>, roomId: Uuid, userId: Uuid): (r: Result<bool, string>)
    ensures r.Err? <==> FindRoom(rooms, roomId).Err?
    ensures r.Ok? ==> (r.value <==> FindRoom(rooms, roomId).value.createdBy == userId)
  {
    var room := FindRoom(rooms, roomId);
    if room.Err? then Err(room.error) else Ok(room.value.createdBy == userId)
  }

  /** The fields `update_room` writes: a name if given, a description if
      given (`Some(None)` clears it), and always `updated_at`. */
  function Edited(room: RoomRow, name: Option<string>, description: Option<Option<string>>, now: int): (r: RoomRow)
    ensures r.id == room.id && r.createdBy == room.createdBy && r.createdAt == room.createdAt && r.isActive == room.isActive
    ensures r.name == (if name.Some? then name.value else room.name)
    ensures r.description == (if description.Some? then description.value else room.description)
    ensures r.updatedAt == now
  {
    room.(name := if name.Some? then name.value else room.name,
          description := if description.Some? then description.value else room.description,
          updatedAt := now)
  }

  function EditRoom(name: Option<string>, description: Option<Option<string>>, now: int): RoomRow -> RoomRow {
    (r: RoomRow) => Edited(r, name, description, now)
  }

  /** `update_room`: the room table after the update, and the updated row. */
  function AfterUpdate(rooms: seq<RoomRow>, roomId: Uuid, userId: Uuid, name: Option<string>, description: Option<Option<string>>, now: int)
    : (r: Result<(seq<RoomRow>, RoomRow), string>)
    ensures FindRoom(rooms, roomId).Err? ==> r == Err(RoomNotFound)
    ensures FindRoom(rooms, roomId).Ok? && FindRoom(rooms, roomId).value.createdBy != userId ==> r == Err(NotCreatorUpdate)
    ensures r.Ok? <==> FindRoom(rooms, roomId).Ok? && FindRoom(rooms, roomId).value.createdBy == userId
    ensures r.Ok? ==> (
      && r.value.1 == Edited(FindRoom(rooms, roomId).value, name, description, now)
      && |r.value.0| == |rooms|
      && forall k :: 0 <= k < |rooms| ==>
           r.value.0[k] == if rooms[k].id == roomId then Edited(rooms[k], name, description, now) else rooms[k])
  {
    var creator := IsCreator(rooms, roomId, userId);
    if creator.Err? then Err(creator.error)
    else if !creator.value then Err(NotCreatorUpdate)
    else Ok((UpdateWhere(rooms, HasRoomId(roomId), EditRoom(name, description, now)),
             Edited(FindRoom(rooms, roomId).value, name, description, now)))
  }

  function Deactivate(now: int): RoomRow -> RoomRow {
    (r: RoomRow) => r.(isActive := false, updatedAt := now)
  }

  /** `delete_room`: the room row stays, inactive and updated `now`, and
      every membership of the room is deleted. */
  function AfterDelete(rooms: seq<RoomRow>, members: seq<MemberRow>, roomId: Uuid, userId: Uuid, now: int)
    : (r: Result<(seq<RoomRow>, seq<MemberRow>), string>)
    ensures FindRoom(rooms, roomId).Err? ==> r == Err(RoomNotFound)
    ensures FindRoom(rooms, roomId).Ok? && FindRoom(rooms, roomId).value.createdBy != userId ==> r == Err(NotCreatorDelete)
    ensures r.Ok? <==> FindRoom(rooms, roomId).Ok? && FindRoom(rooms, roomId).value.createdBy == userId
    ensures r.Ok? ==> (
      && |r.value.0| == |rooms|
      && (forall k :: 0 <= k < |rooms| ==>
            r.value.0[k] == if rooms[k].id == roomId then rooms[k].(isActive := false, updatedAt := now) else rooms[k])
      && forall m :: m in r.value.1 <==> m in members && m.roomId != roomId)
  {
    var creator := IsCreator(rooms, roomId, userId);
    if creator.Err? then Err(creator.error)
    else if !creator.value then Err(NotCreatorDelete)
    else
      var remaining := DeleteWhere(members, OfRoom(roomId));
      assert forall m :: m in members && m.roomId != roomId ==> m in remaining by {
        forall m | m in members && m.roomId != roomId ensures m in remaining {
          var k :| 0 <= k < |members| && members[k] == m;
        }
      }
      Ok((UpdateWhere(rooms, HasRoomId(roomId), Deactivate(now)), remaining))
  }

  /** A deleted room is listed for nobody any more. */
  lemma DeletedRoomIsListedForNobody(rooms: seq<RoomRow>, members: seq<MemberRow>, roomId: Uuid, creator: Uuid, userId: Uuid, now: int)
    requires AfterDelete(rooms, members, roomId, creator, now).Ok?
    ensures var after := AfterDelete(rooms, members, roomId, creator, now).value;
      forall x :: x in UserRooms(after.0, after.1, userId) ==> x.id != roomId
  {
  }

  class RoomService {
    const db: Database

    constructor (db: Database)
      ensures this.db == db
    {
      this.db := db;
    }

    /** `join_room`, with `freshId` for a new membership row. */
    method JoinRoom(roomId: Uuid, userId: Uuid, freshId: Uuid, now: int) returns (r: Result<MemberRow, string>)
      requires db.Valid()
      modifies db
      ensures db.Valid()
      ensures var after := Joined(old(db.rooms), old(db.members), roomId, userId, freshId, now);
        && (after.Err? ==> r == Err(after.error) && db.Snapshot() == old(db.Snapshot()))
        && (after.Ok? ==> r == Ok(after.value.1) && db.Snapshot() == old(db.Snapshot()).(members := after.value.0))
    {
      var after := Joined(db.rooms, db.members, roomId, userId, freshId, now);
      if after.Err? {
        return Err(after.error);
      }
      JoinedMakesMember(db.rooms, db.members, roomId, userId, freshId, now);
      db.members := after.value.0;
      r := Ok(after.value.1);
    }

    /** `create_room`: inserts the room, then joins its creator. A failed
        join leaves the room inserted. */
    method CreateRoom(roomId: Uuid, memberId: Uuid, name: string, description: Option<string>, createdBy: Uuid, now: int)
      returns (r: Result<RoomRow, string>)
      requires db.Valid()
      modifies db
      ensures db.Valid()
      ensures var room := NewRoom(roomId, name, description, createdBy, now);
        && (!KeyFree(old(db.rooms), RoomId, roomId) ==> r == Err(DbError) && db.Snapshot() == old(db.Snapshot()))
        && (KeyFree(old(db.rooms), RoomId, roomId) ==>
              var join := Joined(old(db.rooms) + [room], old(db.members), roomId, createdBy, memberId, now);
              && db.rooms == old(db.rooms) + [room]
              && (join.Ok? ==> r == Ok(room) && db.Snapshot() == old(db.Snapshot()).(rooms := db.rooms, members := join.value.0))
              && (join.Err? ==> r == Err(join.error) && db.Snapshot() == old(db.Snapshot()).(rooms := db.rooms)))
    {
      var room := NewRoom(roomId, name, description, createdBy, now);
      var inserted := InsertRow(db.rooms, room, RoomId);
      if inserted.Err? {
        return Err(inserted.error);
      }
      db.rooms := inserted.value;
      var joined := JoinRoom(roomId, createdBy, memberId, now);
      if joined.Err? {
        return Err(joined.error);
      }
      r := Ok(room);
    }

    /** `get_user_rooms`. */
    method GetUserRooms(userId: Uuid) returns (r: seq<RoomRow>)
      ensures r == UserRooms(db.rooms, db.members, userId)
    {
      r := UserRooms(db.rooms, db.members, userId);
    }

    /** `get_room_by_id`. */
    method GetRoomById(roomId: Uuid) returns (r: Result<RoomRow, string>)
      ensures r == FindRoom(db.rooms, roomId)
    {
      r := FindRoom(db.rooms, roomId);
    }

    /** `get_room_members`. */
    method GetRoomMembers(roomId: Uuid) returns (r: Result<seq<UserRow>, string>)
      ensures r == RoomMembers(db.users, db.rooms, db.members, roomId)
    {
      r := RoomMembers(db.users, db.rooms, db.members, roomId);
    }

    /** `leave_room`: succeeds even when there is nothing to delete. */
    method LeaveRoom(roomId: Uuid, userId: Uuid)
      requires db.Valid()
      modifies db
      ensures db.Valid()
      ensures db.Snapshot() == old(db.Snapshot()).(members := AfterLeave(old(db.members), roomId, userId))
    {
      DeleteKeepsUnique(db.members, SamePair(roomId, userId), MemberId);
      DeleteKeepsUnique(db.members, SamePair(roomId, userId), MemberPair);
      db.members := AfterLeave(db.members, roomId, userId);
    }

    /** `is_member`. */
    method IsMemberOf(roomId: Uuid, userId: Uuid) returns (r: bool)
      ensures r == IsMember(db.members, roomId, userId)
    {
      r := IndexOf(db.members, MemberPair, (roomId, userId)) < |db.members|;
    }

    /** `update_room`. */
    method UpdateRoom(roomId: Uuid, userId: Uuid, name: Option<string>, description: Option<Option<string>>, now: int)
      returns (r: Result<RoomRow, string>)
      requires db.Valid()
      modifies db
      ensures db.Valid()
      ensures var after := AfterUpdate(old(db.rooms), roomId, userId, name, description, now);
        && (after.Err? ==> r == Err(after.error) && db.Snapshot() == old(db.Snapshot()))
        && (after.Ok? ==> r == Ok(after.value.1) && db.Snapshot() == old(db.Snapshot()).(rooms := after.value.0))
    {
      var after := AfterUpdate(db.rooms, roomId, userId, name, description, now);
      if after.Err? {
        return Err(after.error);
      }
      UpdateKeepsUnique(db.rooms, HasRoomId(roomId), EditRoom(name, description, now), RoomId);
      db.rooms := after.value.0;
      r := Ok(after.value.1);
    }

    /** `delete_room`. */
    method DeleteRoom(roomId: Uuid, userId: Uuid, now: int) returns (r: Outcome<string>)
      requires db.Valid()
      modifies db
      ensures db.Valid()
      ensures var after := AfterDelete(old(db.rooms), old(db.members), roomId, userId, now);
        && (after.Err? ==> r == Fail(after.error) && db.Snapshot() == old(db.Snapshot()))
        && (after.Ok? ==> r == Pass && db.Snapshot() == old(db.Snapshot()).(rooms := after.value.0, members := after.value.1))
    {
      var after := AfterDelete(db.rooms, db.members, roomId, userId, now);
      if after.Err? {
        return Fail(after.error);
      }
      UpdateKeepsUnique(db.rooms, HasRoomId(roomId), Deactivate(now), RoomId);
      DeleteKeepsUnique(db.members, OfRoom(roomId), MemberId);
      DeleteKeepsUnique(db.members, OfRoom(roomId), MemberPair);
      db.rooms := after.value.0;
      db.members := after.value.1;
      r := Pass;
    }
  }
}
