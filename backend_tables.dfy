/** The backend's database: one sequence of rows per table, in insertion
    order. Rows have the shapes of the backend entity files;
    UUIDs are strings and timestamps are whole seconds. The database's own
    constraints (primary keys, the unique session token, the unique
    (room_id, user_id) membership index) are the invariant `Valid`; an
    insert that would break one fails with `DbError`, as the database
    refuses it. */
module BackendTables {
  import opened Wrappers
  import opened Sequences

  type Uuid = string

  /** The text of a statement the database refuses. */
  const DbError: string := "database error"

  datatype UserRow = UserRow(
    id: Uuid, name: string, email: string, passwordHash: string,
    avatar: Option<string>, createdAt: int, updatedAt: int)

  datatype SessionRow = SessionRow(id: Uuid, sessionToken: string, userId: Uuid, expiresAt: int, createdAt: int)

  datatype RoomRow = RoomRow(
    id: Uuid, name: string, description: Option<string>, createdBy: Uuid,
    createdAt: int, updatedAt: int, isActive: bool)

  datatype MemberRow = MemberRow(id: Uuid, roomId: Uuid, userId: Uuid, joinedAt: int)

  datatype MessageRow = MessageRow(
    id: Uuid, roomId: Uuid, userId: Uuid, text: Option<string>,
    imageUrl: Option<string>, messageType: string, createdAt: int)

  datatype LocationRow = LocationRow(id: Uuid, userId: Uuid, roomId: Uuid, latitude: real, longitude: real, timestamp: int)

  datatype CallRow = CallRow(id: Uuid, roomId: Uuid, initiatorId: Uuid, startTime: int, endTime: Option<int>, status: string)

  /** The whole database at one moment. */
  datatype Tables = Tables(
    users: seq<UserRow>, sessions: seq<SessionRow>, rooms: seq<RoomRow>,
    members: seq<MemberRow>, messages: seq<MessageRow>, locations: seq<LocationRow>,
    calls: seq<CallRow>)

  /** No two rows share a key. */
  predicate UniqueBy<T, K(==)>(s: seq<T>, key: T -> K) {
    forall i, j :: 0 <= i < j < |s| ==> key(s[i]) != key(s[j])
  }

  /** No row has key `k`. */
  predicate KeyFree<T, K(==)>(s: seq<T>, key: T -> K, k: K) {
    forall i :: 0 <= i < |s| ==> key(s[i]) != k
  }

  /** An `INSERT`: refused when the key is taken, appended otherwise. */
  function InsertRow<T, K(==)>(s: seq<T>, row: T, key: T -> K): (r: Result<seq<T>, string>)
    ensures r.Ok? <==> KeyFree(s, key, key(row))
    ensures r.Ok? ==> r.value == s + [row]
    ensures r.Err? ==> r.error == DbError
    ensures UniqueBy(s, key) && r.Ok? ==> UniqueBy(r.value, key)
  {
    if KeyFree(s, key, key(row)) then Ok(s + [row]) else Err(DbError)
  }

  /** Appending a row whose key is free keeps keys unique. */
  lemma AppendKeepsUnique<T, K>(s: seq<T>, row: T, key: T -> K)
    requires UniqueBy(s, key) && KeyFree(s, key, key(row))
    ensures UniqueBy(s + [row], key)
  {
  }

  /** The index of the first row with key `k`, or `|s|`. */
  function IndexOf<T, K(==)>(s: seq<T>, key: T -> K, k: K): (i: nat)
    ensures i <= |s|
    ensures i < |s| ==> key(s[i]) == k
    ensures i == |s| <==> KeyFree(s, key, k)
  {
    if s == [] then 0 else if key(s[0]) == k then 0 else 1 + IndexOf(s[1..], key, k)
  }

  /** With unique keys, the row with key `k` is the only one. */
  lemma IndexOfUnique<T, K>(s: seq<T>, key: T -> K, k: K, j: nat)
    requires UniqueBy(s, key) && j < |s| && key(s[j]) == k
    ensures IndexOf(s, key, k) == j
  {
  }

  /** `UPDATE ... WHERE`: every matching row rewritten by `f`, the others
      kept, the order unchanged. */
  function UpdateWhere<T>(s: seq<T>, hit: T -> bool, f: T -> T): (r: seq<T>)
    ensures |r| == |s|
    ensures forall k :: 0 <= k < |s| ==> r[k] == if hit(s[k]) then f(s[k]) else s[k]
  {
    if s == [] then [] else [if hit(s[0]) then f(s[0]) else s[0]] + UpdateWhere(s[1..], hit, f)
  }

  /** An update that leaves the key alone keeps keys unique. */
  lemma UpdateKeepsUnique<T, K>(s: seq<T>, hit: T -> bool, f: T -> T, key: T -> K)
    requires UniqueBy(s, key)
    requires forall x :: key(f(x)) == key(x)
    ensures UniqueBy(UpdateWhere(s, hit, f), key)
  {
  }

  /** `DELETE ... WHERE`: the rows that do not match, in their order. */
  function DeleteWhere<T>(s: seq<T>, gone: T -> bool): (r: seq<T>)
    ensures |r| <= |s|
    ensures forall i :: 0 <= i < |r| ==> !gone(r[i]) && r[i] in s
    ensures forall i :: 0 <= i < |s| && !gone(s[i]) ==> s[i] in r
  {
    if s == [] then []
    else if gone(s[0]) then DeleteWhere(s[1..], gone)
    else [s[0]] + DeleteWhere(s[1..], gone)
  }

  /** Deleting rows keeps keys unique. */
  lemma {:induction false} DeleteKeepsUnique<T, K>(s: seq<T>, gone: T -> bool, key: T -> K)
    requires UniqueBy(s, key)
    ensures UniqueBy(DeleteWhere(s, gone), key)
  {
    if s != [] {
      DeleteKeepsUnique(s[1..], gone, key);
      var rest := DeleteWhere(s[1..], gone);
      if !gone(s[0]) {
        forall i | 0 <= i < |rest| ensures key(rest[i]) != key(s[0]) {
          var j :| 0 <= j < |s[1..]| && s[1..][j] == rest[i];
        }
      }
    }
  }

  /** Deleting rows leaves the rows of a disjoint selection as they were. */
  lemma {:induction false} DeleteKeepsDisjoint<T>(s: seq<T>, gone: T -> bool, keep: T -> bool)
    requires forall x :: keep(x) ==> !gone(x)
    ensures Filter(DeleteWhere(s, gone), keep) == Filter(s, keep)
  {
    if s != [] {
      DeleteKeepsDisjoint(s[1..], gone, keep);
      if !gone(s[0]) {
        assert ([s[0]] + DeleteWhere(s[1..], gone))[1..] == DeleteWhere(s[1..], gone);
      }
    }
  }

  /** Deleting the rows of a selection leaves none of them. */
  lemma {:induction false} DeleteRemovesAll<T>(s: seq<T>, gone: T -> bool)
    ensures Filter(DeleteWhere(s, gone), gone) == []
  {
    if s != [] {
      DeleteRemovesAll(s[1..], gone);
      if !gone(s[0]) {
        assert ([s[0]] + DeleteWhere(s[1..], gone))[1..] == DeleteWhere(s[1..], gone);
      }
    }
  }

  /** Deleting rows never brings a key back. */
  lemma DeleteKeepsFree<T, K>(s: seq<T>, gone: T -> bool, key: T -> K, k: K)
    requires KeyFree(s, key, k)
    ensures KeyFree(DeleteWhere(s, gone), key, k)
  {
    var r := DeleteWhere(s, gone);
    forall i | 0 <= i < |r| ensures key(r[i]) != k {
      var j :| 0 <= j < |s| && s[j] == r[i];
    }
  }

  function UserId(u: UserRow): Uuid { u.id }
  function SessionId(s: SessionRow): Uuid { s.id }
  function SessionToken(s: SessionRow): string { s.sessionToken }
  function RoomId(r: RoomRow): Uuid { r.id }
  function MemberId(m: MemberRow): Uuid { m.id }
  function MemberPair(m: MemberRow): (Uuid, Uuid) { (m.roomId, m.userId) }
  function MessageId(m: MessageRow): Uuid { m.id }
  function LocationId(l: LocationRow): Uuid { l.id }
  function CallId(c: CallRow): Uuid { c.id }

  /** Whether (room, user) has a membership row. */
  predicate IsMember(members: seq<MemberRow>, roomId: Uuid, userId: Uuid) {
    !KeyFree(members, MemberPair, (roomId, userId))
  }

  /** The database's constraints. */
  predicate Consistent(t: Tables) {
    && UniqueBy(t.users, UserId)
    && UniqueBy(t.sessions, SessionId) && UniqueBy(t.sessions, SessionToken)
    && UniqueBy(t.rooms, RoomId)
    && UniqueBy(t.members, MemberId) && UniqueBy(t.members, MemberPair)
    && UniqueBy(t.messages, MessageId)
    && UniqueBy(t.locations, LocationId)
    && UniqueBy(t.calls, CallId)
  }

  /** The connection every service holds: the tables it reads and writes. */
  class Database {
    var users: seq<UserRow>
    var sessions: seq<SessionRow>
    var rooms: seq<RoomRow>
    var members: seq<MemberRow>
    var messages: seq<MessageRow>
    var locations: seq<LocationRow>
    var calls: seq<CallRow>

    constructor ()
      ensures Snapshot() == Tables([], [], [], [], [], [], [])
      ensures Valid()
    {
      users := [];
      sessions := [];
      rooms := [];
      members := [];
      messages := [];
      locations := [];
      calls := [];
    }

    function Snapshot(): Tables
      reads this
    {
      Tables(users, sessions, rooms, members, messages, locations, calls)
    }

    predicate Valid()
      reads this
    {
      Consistent(Snapshot())
    }
  }
}
