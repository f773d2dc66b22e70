/**
 * The Go service's `POST` of a message (`MessageHandler.ServeHTTP`): decode,
 * three validations, the application, the chat, the next number from the
 * chat's counter, the insert. The insert is plain SQL: no `messages_count`
 * increment, no reconciliation job and no search document, unlike the Rails
 * model.
 */
module MessageHandler {
  import opened Common
  import opened Tables
  import opened Redis
  import opened Http
  import opened Validator
  import CounterService
  import RedisCounterService
  import MessagesController

  /** `models.MessageCreateRequest`; absent fields decode as "" and 0. */
  datatype MessageCreateRequest = MessageCreateRequest(applicationToken: string, chatNumber: int, body: string)

  /** The three validations pass, in the order the handler runs them. */
  predicate ValidRequest(req: MessageCreateRequest) {
    ValidateToken(req.applicationToken) == None
    && ValidateChatNumber(req.chatNumber) == None
    && ValidateMessageBody(req.body) == None
  }

  /**
   * The steps before anything is written: decode, `ValidateToken`,
   * `ValidateChatNumber`, `ValidateMessageBody` (each 400, and each skips the
   * rest), then the application and the chat (each 404).
   */
  function Precheck(apps: seq<AppRow>, chats: seq<ChatRow>, request: Decoded<MessageCreateRequest>): (c: Checked<ChatRow>)
    ensures request.Undecodable? ==> c == Reject(RespondError(BadRequest, "Invalid request body", request.reason))
    ensures request.Decoded? ==>
      var req := request.request;
      && (ValidateToken(req.applicationToken).Some? ==>
            c == Reject(RespondError(BadRequest, "Invalid token", ValidateToken(req.applicationToken).value)))
      && (ValidateToken(req.applicationToken).None? && ValidateChatNumber(req.chatNumber).Some? ==>
            c == Reject(RespondError(BadRequest, "Invalid chat number", "chat number must be positive")))
      && (ValidateToken(req.applicationToken).None? && ValidateChatNumber(req.chatNumber).None?
          && ValidateMessageBody(req.body).Some? ==>
            c == Reject(RespondError(BadRequest, "Invalid message body", ValidateMessageBody(req.body).value)))
      && (ValidRequest(req) && FindApplicationByToken(apps, req.applicationToken).None? ==>
            c == Reject(RespondError(NotFound, "Application not found", "application not found")))
    ensures c.Proceed? <==>
      && request.Decoded? && ValidRequest(request.request)
      && FindApplicationByToken(apps, request.request.applicationToken).Some?
      && request.request.chatNumber in ChatNumbers(chats, FindApplicationByToken(apps, request.request.applicationToken).value.id)
    ensures c.Proceed? ==>
      && c.value in chats && c.value.number == request.request.chatNumber
      && c.value.applicationId == FindApplicationByToken(apps, request.request.applicationToken).value.id
    ensures c.Reject? && request.Decoded? && ValidRequest(request.request)
            && FindApplicationByToken(apps, request.request.applicationToken).Some? ==>
      c.resp == RespondError(NotFound, "Chat not found", "chat not found")
  {
    match request
    case Undecodable(reason) => Reject(RespondError(BadRequest, "Invalid request body", reason))
    case Decoded(req) =>
      if ValidateToken(req.applicationToken).Some? then
        Reject(RespondError(BadRequest, "Invalid token", ValidateToken(req.applicationToken).value))
      else if ValidateChatNumber(req.chatNumber).Some? then
        Reject(RespondError(BadRequest, "Invalid chat number", ValidateChatNumber(req.chatNumber).value))
      else if ValidateMessageBody(req.body).Some? then
        Reject(RespondError(BadRequest, "Invalid message body", ValidateMessageBody(req.body).value))
      else
        match FindApplicationByToken(apps, req.applicationToken)
        case None => Reject(RespondError(NotFound, "Application not found", "application not found"))
        case Some(app) =>
          match FindChat(chats, app.id, req.chatNumber)
          case None => Reject(RespondError(NotFound, "Chat not found", "chat not found"))
          case Some(chat) => Proceed(chat)
  }

  /** A request that fails decoding or a validation gets the same 400 whatever the tables hold. */
  lemma ValidationPrecedesLookup(apps1: seq<AppRow>, chats1: seq<ChatRow>, apps2: seq<AppRow>, chats2: seq<ChatRow>,
                                 request: Decoded<MessageCreateRequest>)
    requires request.Undecodable? || !ValidRequest(request.request)
    ensures Precheck(apps1, chats1, request) == Precheck(apps2, chats2, request)
    ensures Precheck(apps1, chats1, request).Reject? && Precheck(apps1, chats1, request).resp.status == BadRequest
  {
  }

  /** The number the Go allocator hands out next for the chat with database id `chatId`. */
  function GoNumber(data: map<string, int>, chatId: int): int {
    Counter(data, CounterService.MessageKey(chatId)) + 1
  }

  class MessageHandler {
    const db: Db
    const counterSvc: CounterService.CounterService

    constructor (db: Db, counterSvc: CounterService.CounterService)
      ensures this.db == db && this.counterSvc == counterSvc
    {
      this.db := db;
      this.counterSvc := counterSvc;
    }

    /**
     * The steps after the chat is found: allocate on the counter of its
     * database id (500 on a store error, nothing written), insert (500 on a
     * taken number, which stays used up), then 201 with the message's view.
     */
    method CreateFor(chat: ChatRow, body: string, now: Timestamp) returns (resp: Response)
      requires db.Valid()
      modifies db, counterSvc.redis`data
      ensures db.Valid()
      ensures
        var redis := counterSvc.redis;
        var key := CounterService.MessageKey(chat.id);
        var n := GoNumber(old(redis.data), chat.id);
        && (!redis.up ==>
              && resp == RespondError(InternalServerError, "Failed to generate message number", "failed to increment message counter")
              && unchanged(db) && redis.data == old(redis.data))
        && (redis.up && n in MessageNumbers(old(db.messages), chat.id) ==>
              && resp == RespondError(InternalServerError, "Failed to create message", "failed to create message")
              && unchanged(db) && redis.data == AfterIncr(old(redis.data), key))
        && (redis.up && n !in MessageNumbers(old(db.messages), chat.id) ==>
              && resp == Response(Created, MessageBody(MessageView(n, body, now, now)))
              && db.messages == old(db.messages) + [MessageRow(old(db.nextMessageId), chat.id, n, body, now, now)]
              && db.chats == old(db.chats) && db.applications == old(db.applications)
              && db.nextMessageId == old(db.nextMessageId) + 1
              && db.nextApplicationId == old(db.nextApplicationId) && db.nextChatId == old(db.nextChatId)
              && redis.data == AfterIncr(old(redis.data), key))
    {
      var messageNumber, err := counterSvc.GetNextMessageNumber(chat.id);
      if err.Some? {
        return RespondError(InternalServerError, "Failed to generate message number", err.value);
      }
      resp := Insert(chat, messageNumber, body, now);
    }

    /** The insert with the number allocated, then the 201. */
    method Insert(chat: ChatRow, messageNumber: int, body: string, now: Timestamp) returns (resp: Response)
      requires db.Valid()
      modifies db
      ensures db.Valid()
      ensures messageNumber in MessageNumbers(old(db.messages), chat.id) ==>
        resp == RespondError(InternalServerError, "Failed to create message", "failed to create message") && unchanged(db)
      ensures messageNumber !in MessageNumbers(old(db.messages), chat.id) ==>
        && resp == Response(Created, MessageBody(MessageView(messageNumber, body, now, now)))
        && db.messages == old(db.messages) + [MessageRow(old(db.nextMessageId), chat.id, messageNumber, body, now, now)]
        && db.chats == old(db.chats) && db.applications == old(db.applications)
        && db.nextMessageId == old(db.nextMessageId) + 1
        && db.nextApplicationId == old(db.nextApplicationId) && db.nextChatId == old(db.nextChatId)
    {
      var id := db.InsertMessage(chat.id, messageNumber, body, now);
      if id.None? {
        return RespondError(InternalServerError, "Failed to create message", "failed to create message");
      }
      var message := MessageRow(id.value, chat.id, messageNumber, body, now, now);
      resp := Response(Created, MessageBody(MessageView(message.number, message.body, message.createdAt, message.updatedAt)));
    }

    /** `ServeHTTP`: `Precheck`, then `CreateFor` on the chat found. */
    method ServeHTTP(request: Decoded<MessageCreateRequest>, now: Timestamp) returns (resp: Response)
      requires db.Valid()
      modifies db, counterSvc.redis`data
      ensures db.Valid()
      ensures Precheck(old(db.applications), old(db.chats), request).Reject? ==>
        resp == Precheck(old(db.applications), old(db.chats), request).resp
        && unchanged(db) && counterSvc.redis.data == old(counterSvc.redis.data)
      ensures Precheck(old(db.applications), old(db.chats), request).Proceed? ==>
        var chat := Precheck(old(db.applications), old(db.chats), request).value;
        var body := request.request.body;
        var redis := counterSvc.redis;
        var key := CounterService.MessageKey(chat.id);
        var n := GoNumber(old(redis.data), chat.id);
        && (!redis.up ==>
              && resp == RespondError(InternalServerError, "Failed to generate message number", "failed to increment message counter")
              && unchanged(db) && redis.data == old(redis.data))
        && (redis.up && n in MessageNumbers(old(db.messages), chat.id) ==>
              && resp == RespondError(InternalServerError, "Failed to create message", "failed to create message")
              && unchanged(db) && redis.data == AfterIncr(old(redis.data), key))
        && (redis.up && n !in MessageNumbers(old(db.messages), chat.id) ==>
              && resp == Response(Created, MessageBody(MessageView(n, body, now, now)))
              && db.messages == old(db.messages) + [MessageRow(old(db.nextMessageId), chat.id, n, body, now, now)]
              && db.chats == old(db.chats) && db.applications == old(db.applications)
              && db.nextMessageId == old(db.nextMessageId) + 1
              && db.nextApplicationId == old(db.nextApplicationId) && db.nextChatId == old(db.nextChatId)
              && redis.data == AfterIncr(old(redis.data), key))
    {
      var checked := Precheck(db.applications, db.chats, request);
      if checked.Reject? {
        return checked.resp;
      }
      resp := CreateFor(checked.value, request.request.body, now);
    }
  }

  /**
   * The counter belongs to the chat's database id, not its number: chats of
   * two applications that share a number never share a counter.
   */
  lemma CounterKeyedByChatId(c1: ChatRow, c2: ChatRow)
    requires c1.id != c2.id
    ensures CounterService.MessageKey(c1.id) != CounterService.MessageKey(c2.id)
  {
    CounterService.KeysAgreeWithRuby("", c1.id);
    CounterService.KeysAgreeWithRuby("", c2.id);
    RedisCounterService.MessageCounterKeyInjective(c1.id, c2.id);
  }

  /** Both services draw a chat's message numbers from one counter. */
  lemma SharedSequenceWithRails(data: map<string, int>, messages: seq<MessageRow>, chat: ChatRow)
    ensures GoNumber(AfterIncr(data, RedisCounterService.MessageCounterKey(chat.id)), chat.id)
            == MessagesController.PlannedNumber(true, data, messages, chat) + 1
    ensures MessagesController.PlannedNumber(true, AfterIncr(data, CounterService.MessageKey(chat.id)), messages, chat)
            == GoNumber(data, chat.id) + 1
  {
    CounterService.KeysAgreeWithRuby("", chat.id);
  }

  /** The insert fails on a taken number only when the counter has fallen behind the rows. */
  lemma InsertFailsOnlyBehindCounter(data: map<string, int>, messages: seq<MessageRow>, chat: ChatRow)
    requires GoNumber(data, chat.id) in MessageNumbers(messages, chat.id)
    ensures !MessagesController.CounterAhead(data, messages, chat)
  {
    CounterService.KeysAgreeWithRuby("", chat.id);
  }

  /** A Go create on a live store keeps the chat's counter ahead of its messages. */
  lemma CreateKeepsCounterAhead(data: map<string, int>, messages: seq<MessageRow>, chat: ChatRow, id: int,
                                body: string, now: Timestamp)
    requires MessagesController.CounterAhead(data, messages, chat)
    ensures
      var n := GoNumber(data, chat.id);
      && n !in MessageNumbers(messages, chat.id)
      && MessagesController.CounterAhead(AfterIncr(data, CounterService.MessageKey(chat.id)),
                                         messages + [MessageRow(id, chat.id, n, body, now, now)], chat)
  {
    CounterService.KeysAgreeWithRuby("", chat.id);
    MessagesController.CreateKeepsCounterAhead(data, messages, chat, id, body, now);
  }
}
