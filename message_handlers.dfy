/** The message endpoints (road-trip-backend/src/handlers/message.rs): the
    request defaults, the membership gate, and the rule that picks the
    stored message type from the fields present. */
module MessageHandlers {
  import opened Wrappers
  import opened BackendTables
  import opened HttpReply
  import opened MessageStore

  const DefaultPage: nat := 0
  const DefaultPageSize: nat := 20
  const TextType: string := "text"
  const ImageType: string := "image"

  /** The send body; `messageType` defaults to `"text"` when absent. */
  datatype SendMessageRequest = SendMessageRequest(text: Option<string>, imageUrl: Option<string>, messageType: string)

  function SendRequest(text: Option<string>, imageUrl: Option<string>, messageType: Option<string>): (r: SendMessageRequest)
    ensures r.messageType == if messageType.Some? then messageType.value else TextType
    ensures r.text == text && r.imageUrl == imageUrl
  {
    SendMessageRequest(text, imageUrl, if messageType.Some? then messageType.value else TextType)
  }

  /** The query string, with page 0 and page size 20 for absent fields. */
  datatype GetMessagesQuery = GetMessagesQuery(page: nat, pageSize: nat)

  function MessagesQuery(page: Option<nat>, pageSize: Option<nat>): (q: GetMessagesQuery)
    ensures q.page == if page.Some? then page.value else DefaultPage
    ensures q.pageSize == if pageSize.Some? then pageSize.value else DefaultPageSize
  {
    GetMessagesQuery(if page.Some? then page.value else DefaultPage,
                     if pageSize.Some? then pageSize.value else DefaultPageSize)
  }

  /** The stored type: `"text"` whenever there is text, else `"image"`
      when there is an image, else no message at all. */
  function StoredType(req: SendMessageRequest): (t: Option<string>)
    ensures t == Some(TextType) <==> req.text.Some?
    ensures t == Some(ImageType) <==> req.text.None? && req.imageUrl.Some?
    ensures t.None? <==> req.text.None? && req.imageUrl.None?
  {
    if req.text.Some? then Some(TextType)
    else if req.imageUrl.Some? then Some(ImageType)
    else None
  }

  /** The client's `message_type` plays no part in what is stored. */
  lemma ClientTypeIgnored(req: SendMessageRequest, other: string)
    ensures StoredType(req.(messageType := other)) == StoredType(req)
  {
  }

  datatype MessageResponse = MessageResponse(
    id: Uuid, roomId: Uuid, userId: Uuid, text: Option<string>,
    imageUrl: Option<string>, messageType: string, createdAt: int)

  /** `MessageResponse::from`: every field copied. */
  function FromRow(m: MessageRow): MessageResponse {
    MessageResponse(m.id, m.roomId, m.userId, m.text, m.imageUrl, m.messageType, m.createdAt)
  }

  datatype MessagesResponse = MessagesResponse(messages: seq<MessageResponse>, totalPages: nat, currentPage: nat)

  function FromRows(rows: seq<MessageRow>): (r: seq<MessageResponse>)
    ensures |r| == |rows| && forall i :: 0 <= i < |rows| ==> r[i] == FromRow(rows[i])
  {
    if rows == [] then [] else [FromRow(rows[0])] + FromRows(rows[1..])
  }

  /** `get_messages`'s answer for a membership lookup and a page query. */
  function GetMessagesReply(member: bool, query: GetMessagesQuery, page: Result<(seq<MessageRow>, nat), string>)
    : (r: Reply<MessagesResponse>)
    ensures !member ==> r == Failure(Forbidden, NoBody)
    ensures member && page.Err? ==> r == Failure(InternalServerError, NoBody)
    ensures r.Success? <==> member && page.Ok?
    ensures r.Success? ==> (
      && r.body.currentPage == query.page && r.body.totalPages == page.value.1
      && r.body.messages == FromRows(page.value.0))
  {
    if !member then Failure(Forbidden, NoBody)
    else if page.Err? then Failure(InternalServerError, NoBody)
    else Success(MessagesResponse(FromRows(page.value.0), page.value.1, query.page))
  }

  class MessageHandlers {
    const service: MessageService

    constructor (service: MessageService)
      ensures this.service == service
    {
      this.service := service;
    }

    /** `send_message` for the authenticated `userId`. A non-member gets
        403 and a body with neither text nor image 400, and neither stores
        anything. */
    method SendMessage(userId: Uuid, roomId: Uuid, req: SendMessageRequest, freshId: Uuid, now: int)
      returns (r: Reply<MessageResponse>)
      requires service.db.Valid()
      modifies service.db
      ensures service.db.Valid()
      ensures !IsMember(old(service.db.members), roomId, userId) ==>
        r == Failure(Forbidden, NoBody) && service.db.Snapshot() == old(service.db.Snapshot())
      ensures IsMember(old(service.db.members), roomId, userId) && StoredType(req).None? ==>
        r == Failure(BadRequest, NoBody) && service.db.Snapshot() == old(service.db.Snapshot())
      ensures IsMember(old(service.db.members), roomId, userId) && StoredType(req).Some? ==>
        var row := NewMessage(freshId, roomId, userId, req.text, req.imageUrl, StoredType(req).value, now);
        if KeyFree(old(service.db.messages), MessageId, freshId)
        then r == Success(FromRow(row)) && service.db.Snapshot() == old(service.db.Snapshot()).(messages := old(service.db.messages) + [row])
        else r == Failure(InternalServerError, NoBody) && service.db.Snapshot() == old(service.db.Snapshot())
    {
      var member := service.VerifyMembership(roomId, userId);
      if !member {
        return Failure(Forbidden, NoBody);
      }
      var messageType := StoredType(req);
      if messageType.None? {
        return Failure(BadRequest, NoBody);
      }
      var stored := service.SendMessage(roomId, userId, req.text, req.imageUrl, messageType.value, freshId, now);
      if stored.Err? {
        return Failure(InternalServerError, NoBody);
      }
      r := Success(FromRow(stored.value));
    }

    /** `get_messages` for the authenticated `userId`. */
    method GetMessages(userId: Uuid, roomId: Uuid, query: GetMessagesQuery) returns (r: Reply<MessagesResponse>)
      ensures r == GetMessagesReply(IsMember(service.db.members, roomId, userId), query,
                                    MessagesPage(service.db.messages, roomId, query.page, query.pageSize))
    {
      var member := service.VerifyMembership(roomId, userId);
      if !member {
        return Failure(Forbidden, NoBody);
      }
      var page := service.GetMessages(roomId, query.page, query.pageSize);
      r := GetMessagesReply(member, query, page);
    }
  }
}
