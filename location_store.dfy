/** The shared locations (road-trip-backend/src/services/location_service.rs):
    a member's update deletes their earlier rows for the room and inserts
    the new one, so each (user, room) keeps at most one row. */
module LocationStore {
  import opened Wrappers
  import opened Sequences
  import opened BackendTables

  const NotMember: string := "User is not a member of this room"

  function LocPair(l: LocationRow): (Uuid, Uuid) {
    (l.userId, l.roomId)
  }

  function OfPair(userId: Uuid, roomId: Uuid): LocationRow -> bool {
    (l: LocationRow) => l.userId == userId && l.roomId == roomId
  }

  /** The row an update inserts, stamped `now`. */
  function NewLocation(id: Uuid, userId: Uuid, roomId: Uuid, latitude: real, longitude: real, now: int): LocationRow {
    LocationRow(id, userId, roomId, latitude, longitude, now)
  }

  /** `update_location`: the table afterwards and the answer. The delete
      runs before the insert and is not undone when the insert fails. */
  function AfterUpdate(members: seq<MemberRow>, locations: seq<LocationRow>, userId: Uuid, roomId: Uuid,
                       latitude: real, longitude: real, freshId: Uuid, now: int)
    : (r: (seq<LocationRow>, Result<LocationRow, string>))
    ensures !IsMember(members, roomId, userId) ==> r == (locations, Err(NotMember))
    ensures IsMember(members, roomId, userId) ==>
      var kept := DeleteWhere(locations, OfPair(userId, roomId));
      var row := NewLocation(freshId, userId, roomId, latitude, longitude, now);
      r == if KeyFree(kept, LocationId, freshId) then (kept + [row], Ok(row)) else (kept, Err(DbError))
  {
    if !IsMember(members, roomId, userId) then (locations, Err(NotMember))
    else
      var kept := DeleteWhere(locations, OfPair(userId, roomId));
      var row := NewLocation(freshId, userId, roomId, latitude, longitude, now);
      var inserted := InsertRow(kept, row, LocationId);
      if inserted.Err? then (kept, Err(inserted.error)) else (inserted.value, Ok(row))
  }

  /** After a successful update the pair has exactly one row, the new one,
      and every other pair's rows are as they were. */
  lemma UpdateLeavesOneRow(members: seq<MemberRow>, locations: seq<LocationRow>, userId: Uuid, roomId: Uuid,
                           latitude: real, longitude: real, freshId: Uuid, now: int, otherUser: Uuid, otherRoom: Uuid)
    requires AfterUpdate(members, locations, userId, roomId, latitude, longitude, freshId, now).1.Ok?
    requires (otherUser, otherRoom) != (userId, roomId)
    ensures var after := AfterUpdate(members, locations, userId, roomId, latitude, longitude, freshId, now).0;
      && Filter(after, OfPair(userId, roomId)) == [NewLocation(freshId, userId, roomId, latitude, longitude, now)]
      && Filter(after, OfPair(otherUser, otherRoom)) == Filter(locations, OfPair(otherUser, otherRoom))
  {
    var gone := OfPair(userId, roomId);
    var kept := DeleteWhere(locations, gone);
    var row := NewLocation(freshId, userId, roomId, latitude, longitude, now);
    FilterAppend(kept, [row], gone);
    DeleteRemovesAll(locations, gone);
    assert Filter([row], gone) == [row];
    var other := OfPair(otherUser, otherRoom);
    FilterAppend(kept, [row], other);
    assert Filter([row], other) == [];
    DeleteKeepsDisjoint(locations, gone, other);
  }

  /** Rows per (user, room) stay at most one. */
  lemma UpdateKeepsOnePerPair(members: seq<MemberRow>, locations: seq<LocationRow>, userId: Uuid, roomId: Uuid,
                              latitude: real, longitude: real, freshId: Uuid, now: int)
    requires UniqueBy(locations, LocPair)
    ensures UniqueBy(AfterUpdate(members, locations, userId, roomId, latitude, longitude, freshId, now).0, LocPair)
  {
    if IsMember(members, roomId, userId) {
      var gone := OfPair(userId, roomId);
      var kept := DeleteWhere(locations, gone);
      DeleteKeepsUnique(locations, gone, LocPair);
      assert KeyFree(kept, LocPair, (userId, roomId));
      AppendKeepsUnique(kept, NewLocation(freshId, userId, roomId, latitude, longitude, now), LocPair);
    }
  }

  function InRoom(roomId: Uuid): LocationRow -> bool {
    (l: LocationRow) => l.roomId == roomId
  }

  function NewestFirst(l: LocationRow): int {
    -l.timestamp
  }

  /** `get_locations`: the room's rows, newest first. */
  function RoomLocations(locations: seq<LocationRow>, roomId: Uuid): (r: seq<LocationRow>)
    ensures multiset(r) == multiset(Filter(locations, InRoom(roomId)))
    ensures forall x :: x in r <==> x in locations && x.roomId == roomId
    ensures forall i, j :: 0 <= i < j < |r| ==> r[i].timestamp >= r[j].timestamp
  {
    var picked := Filter(locations, InRoom(roomId));
    var r := SortBy(picked, NewestFirst);
    assert forall x :: x in r <==> x in picked by {
      forall x ensures x in r <==> x in picked {
        assert x in r <==> x in multiset(r);
      }
    }
    assert forall i, j :: 0 <= i < j < |r| ==> NewestFirst(r[i]) <= NewestFirst(r[j]);
    r
  }

  class LocationService {
    const db: Database

    constructor (db: Database)
      ensures this.db == db
    {
      this.db := db;
    }

    /** `update_location`, with `freshId` for the new row. */
    method UpdateLocation(userId: Uuid, roomId: Uuid, latitude: real, longitude: real, freshId: Uuid, now: int)
      returns (r: Result<LocationRow, string>)
      requires db.Valid()
      modifies db
      ensures db.Valid()
      ensures var after := AfterUpdate(old(db.members), old(db.locations), userId, roomId, latitude, longitude, freshId, now);
        r == after.1 && db.Snapshot() == old(db.Snapshot()).(locations := after.0)
    {
      var member := VerifyMembership(roomId, userId);
      if !member {
        return Err(NotMember);
      }
      var gone := OfPair(userId, roomId);
      DeleteKeepsUnique(db.locations, gone, LocationId);
      db.locations := DeleteWhere(db.locations, gone);
      var row := NewLocation(freshId, userId, roomId, latitude, longitude, now);
      var inserted := InsertRow(db.locations, row, LocationId);
      if inserted.Err? {
        return Err(inserted.error);
      }
      db.locations := inserted.value;
      r := Ok(row);
    }

    /** `get_locations`. */
    method GetLocations(roomId: Uuid) returns (r: seq<LocationRow>)
      ensures r == RoomLocations(db.locations, roomId)
    {
      r := RoomLocations(db.locations, roomId);
    }

    /** `verify_membership`. */
    method VerifyMembership(roomId: Uuid, userId: Uuid) returns (r: bool)
      ensures r == IsMember(db.members, roomId, userId)
    {
      r := IndexOf(db.members, MemberPair, (roomId, userId)) < |db.members|;
    }
  }
}
