/** The location endpoints (road-trip-backend/src/handlers/location.rs):
    which failure becomes which status, and the field-for-field response
    rows. The service answers are parameters. */
module LocationHandlers {
  import opened Wrappers
  import opened Text
  import opened Sequences
  import opened BackendTables
  import opened HttpReply
  import LocationStore

  const NotMemberOfRoom: string := "You are not a member of this room"

  datatype LocationResponse = LocationResponse(id: Uuid, userId: Uuid, roomId: Uuid, latitude: real, longitude: real, timestamp: int)

  /** `LocationResponse::from`. */
  function FromRow(loc: LocationRow): LocationResponse {
    LocationResponse(loc.id, loc.userId, loc.roomId, loc.latitude, loc.longitude, loc.timestamp)
  }

  /** The row a response was copied from. */
  function ToRow(resp: LocationResponse): LocationRow {
    LocationRow(resp.id, resp.userId, resp.roomId, resp.latitude, resp.longitude, resp.timestamp)
  }

  /** The response list: one entry per row, in the service's order. */
  function FromRows(locs: seq<LocationRow>): (r: seq<LocationResponse>)
    ensures |r| == |locs| && forall i :: 0 <= i < |locs| ==> r[i] == FromRow(locs[i])
  {
    Map(locs, FromRow)
  }

  /** No field is lost or altered: the rows can be read back in order. */
  lemma FromRowsRoundTrip(locs: seq<LocationRow>)
    ensures Map(FromRows(locs), ToRow) == locs
  {
  }

  /** An update failure is 403 when its text mentions "not a member", 500
      otherwise. */
  function UpdateFailureStatus(message: string): (s: nat)
    ensures s == Forbidden <==> Contains(message, "not a member")
    ensures s == InternalServerError <==> !Contains(message, "not a member")
  {
    if Contains(message, "not a member") then Forbidden else InternalServerError
  }

  /** `update_location`'s answer for the service's result. */
  function UpdateLocationReply(result: Result<LocationRow, string>): (r: Reply<LocationResponse>)
    ensures result.Ok? ==> r == Success(FromRow(result.value))
    ensures result.Err? ==> r == Failure(UpdateFailureStatus(result.error), ErrorText(result.error))
  {
    if result.Ok? then Success(FromRow(result.value))
    else Failure(UpdateFailureStatus(result.error), ErrorText(result.error))
  }

  lemma NotMemberMentioned()
    ensures Contains(LocationStore.NotMember, "not a member")
  {
    var m := LocationStore.NotMember;
    var sub := "not a member";
    assert forall k :: 0 <= k < 12 ==> m[8 + k] == sub[k];
    assert m[8..20] == sub;
    ContainsAt(m, sub, 8);
  }

  lemma DbErrorUnmentioned()
    ensures !Contains(DbError, "not a member")
  {
    var sub := "not a member";
    forall i | 0 <= i && i + |sub| <= |DbError| ensures !StartsWith(DbError[i..], sub) {
      assert DbError[i..][0] == DbError[i] != sub[0];
    }
  }

  /** The service's own failures: a non-member gets 403, a refused insert 500. */
  lemma UpdateFailuresMapped()
    ensures UpdateLocationReply(Err(LocationStore.NotMember)) == Failure(Forbidden, ErrorText(LocationStore.NotMember))
    ensures UpdateLocationReply(Err(DbError)) == Failure(InternalServerError, ErrorText(DbError))
  {
    NotMemberMentioned();
    DbErrorUnmentioned();
  }

  /** `get_locations`: `membership` is the membership lookup, `locations`
      the room's rows, each `Err` when the query fails. */
  function GetLocationsReply(membership: Result<bool, string>, locations: Result<seq<LocationRow>, string>)
    : (r: Reply<seq<LocationResponse>>)
    ensures membership.Err? ==> r == Failure(InternalServerError, ErrorText(membership.error))
    ensures membership == Ok(false) ==> r == Failure(Forbidden, ErrorText(NotMemberOfRoom))
    ensures membership == Ok(true) && locations.Err? ==> r == Failure(InternalServerError, ErrorText(locations.error))
    ensures r.Success? <==> membership == Ok(true) && locations.Ok?
    ensures r.Success? ==> r.body == FromRows(locations.value)
  {
    if membership.Err? then Failure(InternalServerError, ErrorText(membership.error))
    else if !membership.value then Failure(Forbidden, ErrorText(NotMemberOfRoom))
    else if locations.Err? then Failure(InternalServerError, ErrorText(locations.error))
    else Success(FromRows(locations.value))
  }

  /** Over the service: a member gets the room's rows newest first, anyone
      else 403. */
  lemma GetLocationsOverService(members: seq<MemberRow>, locations: seq<LocationRow>, roomId: Uuid, userId: Uuid)
    ensures var r := GetLocationsReply(Ok(IsMember(members, roomId, userId)), Ok(LocationStore.RoomLocations(locations, roomId)));
      && (r.Success? <==> IsMember(members, roomId, userId))
      && (r.Success? ==> Map(r.body, ToRow) == LocationStore.RoomLocations(locations, roomId))
      && (r.Failure? ==> r.status == Forbidden)
  {
    FromRowsRoundTrip(LocationStore.RoomLocations(locations, roomId));
  }
}
