/** The chat screen's list logic (road-trip-app/app/screens/ChatScreen.tsx):
    which store messages are shown, how a fetched page is merged into the
    store, and the optimistic send that adds a temporary message and then
    replaces or removes it. The REST calls are parameters: a fetched page,
    or the server's copy of a sent message, or `None` when the call fails. */
module ChatScreen {
  import opened Wrappers
  import opened Text
  import opened Sequences
  import opened ClientTypes
  import opened AppStore
  import opened SignalingChannel

  const PageSize: nat := 20

  /** The response of `GET /rooms/{id}/messages`; `messages` may be absent. */
  datatype MessagePage = MessagePage(messages: Option<seq<Message>>, totalPages: int)

  function InRoom(roomId: string): Message -> bool {
    (m: Message) => m.roomId == roomId
  }

  function CreatedAt(m: Message): int {
    m.createdAt
  }

  /** The messages the screen shows: this room's store messages, oldest first. */
  function Displayed(messages: seq<Message>, roomId: string): (r: seq<Message>)
    ensures SortedBy(r, CreatedAt)
    ensures multiset(r) == multiset(Filter(messages, InRoom(roomId)))
    ensures forall m :: m in r <==> m in messages && m.roomId == roomId
  {
    var r := SortBy(Filter(messages, InRoom(roomId)), CreatedAt);
    assert forall m :: m in r <==> m in Filter(messages, InRoom(roomId)) by {
      forall m ensures m in r <==> m in Filter(messages, InRoom(roomId)) {
        assert m in r <==> m in multiset(r);
      }
    }
    r
  }

  /** Messages with the same `created_at` keep their store order. */
  lemma DisplayedKeepsStoreOrder(messages: seq<Message>, roomId: string, t: int)
    ensures WithKey(Displayed(messages, roomId), CreatedAt, t) == WithKey(Filter(messages, InRoom(roomId)), CreatedAt, t)
  {
    SortByStable(Filter(messages, InRoom(roomId)), CreatedAt, t);
  }

  /** `response.messages || []` */
  function OrEmpty(fetched: Option<seq<Message>>): seq<Message> {
    if fetched.Some? then fetched.value else []
  }

  /** The store's message list after a page has been fetched. */
  function AfterLoad(current: seq<Message>, roomId: string, pageNum: nat, fetched: Option<seq<Message>>): (r: seq<Message>)
    ensures pageNum == 0 ==> r == OrEmpty(fetched)
    ensures pageNum > 0 ==> r == Filter(current, InRoom(roomId)) + OrEmpty(fetched)
    ensures pageNum > 0 ==> forall i :: 0 <= i < |r| - |OrEmpty(fetched)| ==> r[i].roomId == roomId
  {
    if pageNum == 0 then OrEmpty(fetched) else Filter(current, InRoom(roomId)) + OrEmpty(fetched)
  }

  /** The temporary message put in the list while a send is in flight. */
  function TempMessage(roomId: string, userId: Option<string>, text: string, now: int): (m: Message)
    ensures m.id == "temp-" + IntToString(now) && m.roomId == roomId && m.text == Some(text)
    ensures m.messageType == "text" && m.imageUrl.None? && m.createdAt == now
    ensures m.userId == "" <==> userId.None? || userId.value == ""
  {
    Message("temp-" + IntToString(now), roomId, if userId.Some? then userId.value else "", Some(text), None, "text", now)
  }

  /** On success the temporary message is swapped for the server's copy. */
  function ReplaceTemp(list: seq<Message>, tempId: string, sent: Message): (r: seq<Message>)
    ensures |r| == |list|
    ensures forall i :: 0 <= i < |list| ==> r[i] == if list[i].id == tempId then sent else list[i]
  {
    Map(list, (m: Message) => if m.id == tempId then sent else m)
  }

  /** On failure the temporary message is taken out again. */
  function RemoveTemp(list: seq<Message>, tempId: string): (r: seq<Message>)
    ensures forall i :: 0 <= i < |r| ==> r[i].id != tempId && r[i] in list
    ensures forall i :: 0 <= i < |list| && list[i].id != tempId ==> list[i] in r
  {
    Filter(list, (m: Message) => m.id != tempId)
  }

  predicate FreshId(list: seq<Message>, id: string) {
    forall i :: 0 <= i < |list| ==> list[i].id != id
  }

  lemma {:induction false} RemoveAbsent(list: seq<Message>, id: string)
    requires FreshId(list, id)
    ensures Filter(list, (m: Message) => m.id != id) == list
  {
    if list != [] {
      assert list == [list[0]] + list[1..];
      FilterAppend([list[0]], list[1..], (m: Message) => m.id != id);
      RemoveAbsent(list[1..], id);
    }
  }

  lemma {:induction false} ReplaceAbsent(list: seq<Message>, id: string, sent: Message)
    requires FreshId(list, id)
    ensures ReplaceTemp(list, id, sent) == list
  {
  }

  /** A failed send leaves this room's list as it was before the send,
      provided no message already had the temporary id. */
  lemma FailedSendRestores(messages: seq<Message>, temp: Message)
    requires FreshId(messages, temp.id)
    ensures RemoveTemp(Filter(messages + [temp], InRoom(temp.roomId)), temp.id)
         == Filter(messages, InRoom(temp.roomId))
  {
    var room := InRoom(temp.roomId);
    var keep := (m: Message) => m.id != temp.id;
    FilterAppend(messages, [temp], room);
    assert Filter([temp], room) == [temp];
    var before := Filter(messages, room);
    assert FreshId(before, temp.id);
    FilterAppend(before, [temp], keep);
    assert Filter([temp], keep) == [];
    RemoveAbsent(before, temp.id);
  }

  /** A successful send leaves this room's earlier messages followed by the
      server's copy, provided no message already had the temporary id. */
  lemma SuccessfulSendAppends(messages: seq<Message>, temp: Message, sent: Message)
    requires FreshId(messages, temp.id)
    ensures ReplaceTemp(Filter(messages + [temp], InRoom(temp.roomId)), temp.id, sent)
         == Filter(messages, InRoom(temp.roomId)) + [sent]
  {
    var room := InRoom(temp.roomId);
    FilterAppend(messages, [temp], room);
    assert Filter([temp], room) == [temp];
    var before := Filter(messages, room);
    assert FreshId(before, temp.id);
    ReplaceAbsent(before, temp.id, sent);
  }

  class ChatScreenState {
    const roomId: string
    var message: string
    var loading: bool
    var loadingMore: bool
    var page: nat
    var hasMore: bool
    /** The page numbers requested from the REST API, in order. */
    var requested: seq<nat>
    const store: Store
    const ws: WebSocketService

    constructor (roomId: string, store: Store, ws: WebSocketService)
      ensures this.roomId == roomId && this.store == store && this.ws == ws
      ensures message == "" && !loading && !loadingMore && page == 0 && hasMore && requested == []
    {
      this.roomId := roomId;
      this.store := store;
      this.ws := ws;
      message := "";
      loading := false;
      loadingMore := false;
      page := 0;
      hasMore := true;
      requested := [];
    }

    /** Fetches page `pageNum` (20 messages); `response` is `None` when the
        request fails, which changes neither the store nor the paging. */
    method LoadMessages(pageNum: nat, response: Option<MessagePage>)
      modifies this, store
      ensures requested == old(requested) + [pageNum]
      ensures !loading && !loadingMore && message == old(message)
      ensures response.None? ==>
        store.state == old(store.state) && page == old(page) && hasMore == old(hasMore)
      ensures response.Some? ==>
        store.state == SetMessages(old(store.state),
                                   AfterLoad(old(store.state.messages), roomId, pageNum, response.value.messages))
        && hasMore == (response.value.totalPages > pageNum + 1) && page == pageNum
    {
      if pageNum == 0 {
        loading := true;
      } else {
        loadingMore := true;
      }
      requested := requested + [pageNum];
      if response.Some? {
        var merged := AfterLoad(store.state.messages, roomId, pageNum, response.value.messages);
        store.state := SetMessages(store.state, merged);
        hasMore := response.value.totalPages > pageNum + 1;
        page := pageNum;
      }
      loading := false;
      loadingMore := false;
    }

    /** Asks for the next page only when not already loading one and more remain. */
    method LoadMore(response: Option<MessagePage>)
      modifies this, store
      ensures requested == old(requested) + if !old(loadingMore) && old(hasMore) then [old(page) + 1] else []
      ensures message == old(message)
      ensures old(loadingMore) || !old(hasMore) ==>
        store.state == old(store.state) && page == old(page) && hasMore == old(hasMore)
        && loading == old(loading) && loadingMore == old(loadingMore)
      ensures !old(loadingMore) && old(hasMore) ==> !loading && !loadingMore
      ensures !old(loadingMore) && old(hasMore) && response.Some? ==>
        store.state == SetMessages(old(store.state),
                                   AfterLoad(old(store.state.messages), roomId, old(page) + 1, response.value.messages))
        && hasMore == (response.value.totalPages > old(page) + 2) && page == old(page) + 1
      ensures !old(loadingMore) && old(hasMore) && response.None? ==>
        store.state == old(store.state) && page == old(page) && hasMore == old(hasMore)
    {
      if !loadingMore && hasMore {
        LoadMessages(page + 1, response);
      }
    }

    /** Sends the trimmed input. `sent` is the server's copy of the message,
        or `None` when the REST call fails. */
    method HandleSend(now: int, sent: Option<Message>)
      requires ws.Valid()
      modifies this, store, ws
      ensures ws.Valid()
      ensures Trim(old(message), IsJsSpace) == [] ==>
        message == old(message) && store.state == old(store.state) && ws.transmitted == old(ws.transmitted)
      ensures Trim(old(message), IsJsSpace) != [] ==>
        var text := Trim(old(message), IsJsSpace);
        var user := old(store.state.user);
        var temp := TempMessage(roomId, if user.Some? then Some(user.value.id) else None, text, now);
        var list := Filter(old(store.state.messages) + [temp], InRoom(roomId));
        message == ""
        && (sent.Some? ==>
              store.state == SetMessages(AddMessage(old(store.state), temp), ReplaceTemp(list, temp.id, sent.value))
              && ws.transmitted == (if old(ws.socket) == Some(Open)
                                    then old(ws.transmitted) + [ToWire(NewMessage(roomId, text))]
                                    else old(ws.transmitted)))
        && (sent.None? ==>
              store.state == SetMessages(AddMessage(old(store.state), temp), RemoveTemp(list, temp.id))
              && ws.transmitted == old(ws.transmitted))
      ensures page == old(page) && hasMore == old(hasMore) && requested == old(requested)
    {
      var text := Trim(message, IsJsSpace);
      if text == [] {
        return;
      }
      message := "";
      var user := store.state.user;
      var temp := TempMessage(roomId, if user.Some? then Some(user.value.id) else None, text, now);
      store.state := AddMessage(store.state, temp);
      var current := Filter(store.state.messages, InRoom(roomId));
      if sent.Some? {
        store.state := SetMessages(store.state, ReplaceTemp(current, temp.id, sent.value));
        ws.SendMessage(roomId, text, None);
      } else {
        store.state := SetMessages(store.state, RemoveTemp(current, temp.id));
      }
    }
  }
}
