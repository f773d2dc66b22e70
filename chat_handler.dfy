/**
 * The Go service's `POST` of a chat (`ChatHandler.ServeHTTP`): decode, check
 * the token, find the application, take the next number from the shared
 * counter, insert the row, prepare the message counter. Each failure ends the
 * request with its own status. The insert is plain SQL: no `chats_count`
 * increment and no reconciliation job, unlike the Rails model.
 */
module ChatHandler {
  import opened Common
  import opened Tables
  import opened Redis
  import opened Http
  import opened Validator
  import CounterService
  import RedisCounterService
  import ChatsController

  /** `models.ChatCreateRequest`; an absent field decodes as "". */
  datatype ChatCreateRequest = ChatCreateRequest(applicationToken: string)

  /**
   * The steps before anything is written: decode (400), `ValidateToken` (400),
   * `GetByToken` (404). The token is checked before any lookup.
   */
  function Precheck(apps: seq<AppRow>, request: Decoded<ChatCreateRequest>): (c: Checked<AppRow>)
    ensures request.Undecodable? ==> c == Reject(RespondError(BadRequest, "Invalid request body", request.reason))
    ensures request.Decoded? && ValidateToken(request.request.applicationToken).Some? ==>
      c == Reject(RespondError(BadRequest, "Invalid token", ValidateToken(request.request.applicationToken).value))
    ensures c.Proceed? <==>
      && request.Decoded?
      && MatchesTokenPattern(request.request.applicationToken)
      && FindApplicationByToken(apps, request.request.applicationToken).Some?
    ensures c.Proceed? ==> c.value in apps && c.value.token == request.request.applicationToken
    ensures request.Decoded? && MatchesTokenPattern(request.request.applicationToken) && c.Reject? ==>
      c.resp == RespondError(NotFound, "Application not found", "application not found")
  {
    match request
    case Undecodable(reason) => Reject(RespondError(BadRequest, "Invalid request body", reason))
    case Decoded(req) =>
      match ValidateToken(req.applicationToken)
      case Some(msg) => Reject(RespondError(BadRequest, "Invalid token", msg))
      case None =>
        match FindApplicationByToken(apps, req.applicationToken)
        case None => Reject(RespondError(NotFound, "Application not found", "application not found"))
        case Some(app) => Proceed(app)
  }

  /** A request that fails decoding or the token check gets the same answer whatever the tables hold. */
  lemma ValidationPrecedesLookup(apps1: seq<AppRow>, apps2: seq<AppRow>, request: Decoded<ChatCreateRequest>)
    requires request.Undecodable? || !MatchesTokenPattern(request.request.applicationToken)
    ensures Precheck(apps1, request) == Precheck(apps2, request)
    ensures Precheck(apps1, request).Reject? && Precheck(apps1, request).resp.status == BadRequest
  {
  }

  /** The number the Go allocator hands out next: one above the shared counter. */
  function GoNumber(data: map<string, int>, token: string): int {
    Counter(data, CounterService.ChatKey(token)) + 1
  }

  class ChatHandler {
    const db: Db
    const counterSvc: CounterService.CounterService

    constructor (db: Db, counterSvc: CounterService.CounterService)
      ensures this.db == db && this.counterSvc == counterSvc
    {
      this.db := db;
      this.counterSvc := counterSvc;
    }

    /**
     * The steps after the application is found: allocate (500 on a store
     * error, nothing written), insert (500 on a taken number, which stays
     * used up), initialise the message counter (its error is only logged),
     * then 201 with the new chat's view.
     */
    method CreateFor(app: AppRow, now: Timestamp) returns (resp: Response)
      requires db.Valid()
      modifies db, counterSvc.redis`data
      ensures db.Valid()
      ensures
        var redis := counterSvc.redis;
        var key := CounterService.ChatKey(app.token);
        var n := GoNumber(old(redis.data), app.token);
        && (!redis.up ==>
              && resp == RespondError(InternalServerError, "Failed to generate chat number", "failed to increment chat counter")
              && unchanged(db) && redis.data == old(redis.data))
        && (redis.up && n in ChatNumbers(old(db.chats), app.id) ==>
              && resp == RespondError(InternalServerError, "Failed to create chat", "failed to create chat")
              && unchanged(db) && redis.data == AfterIncr(old(redis.data), key))
        && (redis.up && n !in ChatNumbers(old(db.chats), app.id) ==>
              && resp == Response(Created, ChatBody(ChatView(n, 0, now, now)))
              && db.chats == old(db.chats) + [ChatRow(old(db.nextChatId), app.id, n, 0, now, now)]
              && db.applications == old(db.applications) && db.messages == old(db.messages)
              && db.nextChatId == old(db.nextChatId) + 1
              && db.nextApplicationId == old(db.nextApplicationId) && db.nextMessageId == old(db.nextMessageId)
              && redis.data == AfterSetNX(AfterIncr(old(redis.data), key), CounterService.MessageKey(old(db.nextChatId)), 0))
    {
      var chatNumber, err := counterSvc.GetNextChatNumber(app.token);
      if err.Some? {
        return RespondError(InternalServerError, "Failed to generate chat number", err.value);
      }
      resp := Insert(app, chatNumber, now);
    }

    /** The insert with the number allocated, then the message counter and the 201. */
    method Insert(app: AppRow, chatNumber: int, now: Timestamp) returns (resp: Response)
      requires db.Valid()
      modifies db, counterSvc.redis`data
      ensures db.Valid()
      ensures chatNumber in ChatNumbers(old(db.chats), app.id) ==>
        && resp == RespondError(InternalServerError, "Failed to create chat", "failed to create chat")
        && unchanged(db) && counterSvc.redis.data == old(counterSvc.redis.data)
      ensures chatNumber !in ChatNumbers(old(db.chats), app.id) ==>
        && resp == Response(Created, ChatBody(ChatView(chatNumber, 0, now, now)))
        && db.chats == old(db.chats) + [ChatRow(old(db.nextChatId), app.id, chatNumber, 0, now, now)]
        && db.applications == old(db.applications) && db.messages == old(db.messages)
        && db.nextChatId == old(db.nextChatId) + 1
        && db.nextApplicationId == old(db.nextApplicationId) && db.nextMessageId == old(db.nextMessageId)
        && counterSvc.redis.data == (if counterSvc.redis.up
                                     then AfterSetNX(old(counterSvc.redis.data), CounterService.MessageKey(old(db.nextChatId)), 0)
                                     else old(counterSvc.redis.data))
    {
      var id := db.InsertChat(app.id, chatNumber, now);
      if id.None? {
        return RespondError(InternalServerError, "Failed to create chat", "failed to create chat");
      }
      var chat := ChatRow(id.value, app.id, chatNumber, 0, now, now);
      var _ := counterSvc.InitializeMessageCounter(chat.id);
      resp := Response(Created, ChatBody(ChatView(chat.number, chat.messagesCount, chat.createdAt, chat.updatedAt)));
    }

    /** `ServeHTTP`: `Precheck`, then `CreateFor` on the application found. */
    method ServeHTTP(request: Decoded<ChatCreateRequest>, now: Timestamp) returns (resp: Response)
      requires db.Valid()
      modifies db, counterSvc.redis`data
      ensures db.Valid()
      ensures Precheck(old(db.applications), request).Reject? ==>
        resp == Precheck(old(db.applications), request).resp
        && unchanged(db) && counterSvc.redis.data == old(counterSvc.redis.data)
      ensures Precheck(old(db.applications), request).Proceed? ==>
        var app := Precheck(old(db.applications), request).value;
        var redis := counterSvc.redis;
        var key := CounterService.ChatKey(app.token);
        var n := GoNumber(old(redis.data), app.token);
        && (!redis.up ==>
              && resp == RespondError(InternalServerError, "Failed to generate chat number", "failed to increment chat counter")
              && unchanged(db) && redis.data == old(redis.data))
        && (redis.up && n in ChatNumbers(old(db.chats), app.id) ==>
              && resp == RespondError(InternalServerError, "Failed to create chat", "failed to create chat")
              && unchanged(db) && redis.data == AfterIncr(old(redis.data), key))
        && (redis.up && n !in ChatNumbers(old(db.chats), app.id) ==>
              && resp == Response(Created, ChatBody(ChatView(n, 0, now, now)))
              && db.chats == old(db.chats) + [ChatRow(old(db.nextChatId), app.id, n, 0, now, now)]
              && db.applications == old(db.applications) && db.messages == old(db.messages)
              && db.nextChatId == old(db.nextChatId) + 1
              && db.nextApplicationId == old(db.nextApplicationId) && db.nextMessageId == old(db.nextMessageId)
              && redis.data == AfterSetNX(AfterIncr(old(redis.data), key), CounterService.MessageKey(old(db.nextChatId)), 0))
    {
      var checked := Precheck(db.applications, request);
      if checked.Reject? {
        return checked.resp;
      }
      resp := CreateFor(checked.value, now);
    }
  }

  /**
   * Both services draw chat numbers from one counter: after a Rails create
   * takes a number, Go takes the next one, and the other way round.
   */
  lemma SharedSequenceWithRails(data: map<string, int>, chats: seq<ChatRow>, app: AppRow)
    ensures GoNumber(AfterIncr(data, RedisCounterService.ChatCounterKey(app.token)), app.token)
            == ChatsController.PlannedNumber(true, data, chats, app) + 1
    ensures ChatsController.PlannedNumber(true, AfterIncr(data, CounterService.ChatKey(app.token)), chats, app)
            == GoNumber(data, app.token) + 1
  {
    CounterService.KeysAgreeWithRuby(app.token, 0);
  }

  /** The insert fails on a taken number only when the counter has fallen behind the rows. */
  lemma InsertFailsOnlyBehindCounter(data: map<string, int>, chats: seq<ChatRow>, app: AppRow)
    requires GoNumber(data, app.token) in ChatNumbers(chats, app.id)
    ensures !ChatsController.CounterAhead(data, chats, app)
  {
    CounterService.KeysAgreeWithRuby(app.token, 0);
  }

  /** A Go create on a live store keeps the counter ahead of the application's chats. */
  lemma CreateKeepsCounterAhead(data: map<string, int>, chats: seq<ChatRow>, app: AppRow, chatId: int, now: Timestamp)
    requires ChatsController.CounterAhead(data, chats, app)
    ensures
      var n := GoNumber(data, app.token);
      var data' := AfterSetNX(AfterIncr(data, CounterService.ChatKey(app.token)), CounterService.MessageKey(chatId), 0);
      && n !in ChatNumbers(chats, app.id)
      && ChatsController.CounterAhead(data', chats + [ChatRow(chatId, app.id, n, 0, now, now)], app)
  {
    CounterService.KeysAgreeWithRuby(app.token, chatId);
    ChatsController.CreateKeepsCounterAhead(data, chats, app, chatId, now);
  }

  /**
   * Without `counter_cache`, a Go create widens the gap between the stored
   * `chats_count` and the rows by one, until the reconciliation runs.
   */
  lemma CreateLeavesChatsCountBehind(chats: seq<ChatRow>, row: ChatRow)
    ensures ChatCount(chats + [row], row.applicationId) == ChatCount(chats, row.applicationId) + 1
  {
    ChatNumbersAppend(chats, row, row.applicationId);
  }
}
