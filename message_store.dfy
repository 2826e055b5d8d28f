/** Chat messages (road-trip-backend/src/services/message_service.rs):
    sending inserts one row; reading returns one page of a room's messages,
    newest first, with the page count of the same query. */
module MessageStore {
  import opened Wrappers
  import opened Sequences
  import opened BackendTables

  /** A page size of zero leaves the page count undefined (a division by
      zero); the model answers it with this failure. */
  const ZeroPageSize: string := "page size is zero"

  /** The row `send_message` inserts, stamped `now`. */
  function NewMessage(id: Uuid, roomId: Uuid, userId: Uuid, text: Option<string>, imageUrl: Option<string>,
                      messageType: string, now: int): MessageRow {
    MessageRow(id, roomId, userId, text, imageUrl, messageType, now)
  }

  function InRoom(roomId: Uuid): MessageRow -> bool {
    (m: MessageRow) => m.roomId == roomId
  }

  function NewestFirst(m: MessageRow): int {
    -m.createdAt
  }

  /** The query behind `get_messages`: the room's messages, newest first. */
  function RoomMessages(messages: seq<MessageRow>, roomId: Uuid): (r: seq<MessageRow>)
    ensures multiset(r) == multiset(Filter(messages, InRoom(roomId)))
    ensures forall x :: x in r <==> x in messages && x.roomId == roomId
    ensures forall i, j :: 0 <= i < j < |r| ==> r[i].createdAt >= r[j].createdAt
  {
    var picked := Filter(messages, InRoom(roomId));
    var r := SortBy(picked, NewestFirst);
    assert forall x :: x in r <==> x in picked by {
      forall x ensures x in r <==> x in picked {
        assert x in r <==> x in multiset(r);
      }
    }
    assert forall i, j :: 0 <= i < j < |r| ==> NewestFirst(r[i]) <= NewestFirst(r[j]);
    r
  }

  /** The number of pages of `size` rows that `n` rows fill, the last one
      possibly partly. */
  function PageCount(n: nat, size: nat): (r: nat)
    requires size > 0
    ensures n == 0 <==> r == 0
  {
    n / size + if n % size > 0 then 1 else 0
  }

  lemma PageCountBounds(n: nat, size: nat)
    requires size > 0
    ensures PageCount(n, size) * size >= n
    ensures PageCount(n, size) > 0 ==> (PageCount(n, size) - 1) * size < n
  {
    var q := n / size;
    assert n == q * size + n % size;
    if n % size > 0 {
      assert PageCount(n, size) * size == q * size + size;
    }
  }

  function Min(a: nat, b: nat): nat {
    if a <= b then a else b
  }

  /** Page `page` (from 0) of `size` rows: `size` rows from offset
      `page * size`, fewer at the end, none past it. */
  function PageOf<T>(rows: seq<T>, page: nat, size: nat): (r: seq<T>)
    ensures |r| <= size
    ensures page * size >= |rows| ==> r == []
  {
    rows[Min(page * size, |rows|)..Min(page * size + size, |rows|)]
  }

  /** The first `count` pages, one after another. */
  function Pages<T>(rows: seq<T>, size: nat, count: nat): seq<T> {
    if count == 0 then [] else Pages(rows, size, count - 1) + PageOf(rows, count - 1, size)
  }

  lemma {:induction false} PagesArePrefix<T>(rows: seq<T>, size: nat, count: nat)
    ensures Pages(rows, size, count) == rows[..Min(count * size, |rows|)]
  {
    if count > 0 {
      PagesArePrefix(rows, size, count - 1);
      assert (count - 1) * size + size == count * size;
    }
  }

  /** Reading pages 0 to `PageCount - 1` yields every row exactly once, in
      order. */
  lemma PagesCoverAll<T>(rows: seq<T>, size: nat)
    requires size > 0
    ensures Pages(rows, size, PageCount(|rows|, size)) == rows
  {
    PagesArePrefix(rows, size, PageCount(|rows|, size));
    PageCountBounds(|rows|, size);
  }

  /** `get_messages`: one page and the total page count, or the failure for
      a zero page size. No membership is checked here. */
  function MessagesPage(messages: seq<MessageRow>, roomId: Uuid, page: nat, pageSize: nat)
    : (r: Result<(seq<MessageRow>, nat), string>)
    ensures r.Err? <==> pageSize == 0
    ensures r.Ok? ==> (
      && r.value.0 == PageOf(RoomMessages(messages, roomId), page, pageSize)
      && r.value.1 == PageCount(|RoomMessages(messages, roomId)|, pageSize)
      && |r.value.0| <= pageSize
      && forall x :: x in r.value.0 ==> x in messages && x.roomId == roomId)
  {
    if pageSize == 0 then Err(ZeroPageSize)
    else
      var all := RoomMessages(messages, roomId);
      var page := PageOf(all, page, pageSize);
      assert forall x :: x in page ==> x in all;
      Ok((page, PageCount(|all|, pageSize)))
  }

  class MessageService {
    const db: Database

    constructor (db: Database)
      ensures this.db == db
    {
      this.db := db;
    }

    /** `send_message`, with `freshId` for the new row. */
    method SendMessage(roomId: Uuid, userId: Uuid, text: Option<string>, imageUrl: Option<string>, messageType: string,
                       freshId: Uuid, now: int) returns (r: Result<MessageRow, string>)
      requires db.Valid()
      modifies db
      ensures db.Valid()
      ensures r.Ok? <==> KeyFree(old(db.messages), MessageId, freshId)
      ensures r.Ok? ==> (
        && r.value == NewMessage(freshId, roomId, userId, text, imageUrl, messageType, now)
        && db.Snapshot() == old(db.Snapshot()).(messages := old(db.messages) + [r.value]))
      ensures r.Err? ==> r.error == DbError && db.Snapshot() == old(db.Snapshot())
    {
      var row := NewMessage(freshId, roomId, userId, text, imageUrl, messageType, now);
      var inserted := InsertRow(db.messages, row, MessageId);
      if inserted.Err? {
        return Err(inserted.error);
      }
      db.messages := inserted.value;
      r := Ok(row);
    }

    /** `get_messages`. */
    method GetMessages(roomId: Uuid, page: nat, pageSize: nat) returns (r: Result<(seq<MessageRow>, nat), string>)
      ensures r == MessagesPage(db.messages, roomId, page, pageSize)
    {
      r := MessagesPage(db.messages, roomId, page, pageSize);
    }

    /** `verify_membership`. */
    method VerifyMembership(roomId: Uuid, userId: Uuid) returns (r: bool)
      ensures r == IsMember(db.members, roomId, userId)
    {
      r := IndexOf(db.members, MemberPair, (roomId, userId)) < |db.members|;
    }
  }
}
