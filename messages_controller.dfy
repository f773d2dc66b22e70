/**
 * `Api::V1::MessagesController`: every action first finds the application by
 * token and then its chat by number (404 for either). `create` takes a number
 * from the allocator before it builds and saves the message; `search` asks the
 * engine, keeps the hits that belong to this chat and maps engine errors to 503.
 */
module MessagesController {
  import opened Common
  import opened Text
  import opened Tables
  import opened Redis
  import opened Jobs
  import opened SearchIndex
  import opened Http
  import opened Ordering
  import opened Paging
  import RedisCounterService
  import MessageModel

  /** `params[:page] || 1` and `params[:per_page] || 50`. */
  const DefaultPage: int := 1
  const DefaultPerPageParam: int := 50

  /** `message_response`: number, body and timestamps, without the id. */
  function MessageResponse(m: MessageRow): MessageView {
    MessageView(m.number, m.body, m.createdAt, m.updatedAt)
  }

  function Views(rows: seq<MessageRow>): (vs: seq<MessageView>)
    ensures |vs| == |rows|
    ensures forall i :: 0 <= i < |rows| ==> vs[i] == MessageResponse(rows[i])
  {
    seq(|rows|, i requires 0 <= i < |rows| => MessageResponse(rows[i]))
  }

  function Number(m: MessageRow): int {
    m.number
  }

  /** What the two `before_action` lookups leave: a 404 for either, or the chat. */
  datatype Lookup = NoApplication | NoChat | Found(chat: ChatRow)

  /** `find_application` then `find_chat`. */
  function FindScope(apps: seq<AppRow>, chats: seq<ChatRow>, token: string, chatNumber: int): (r: Lookup)
    ensures r.NoApplication? <==> FindApplicationByToken(apps, token).None?
    ensures r.NoChat? <==>
      FindApplicationByToken(apps, token).Some?
      && chatNumber !in ChatNumbers(chats, FindApplicationByToken(apps, token).value.id)
    ensures r.Found? ==>
      && r.chat in chats && r.chat.number == chatNumber
      && r.chat.applicationId == FindApplicationByToken(apps, token).value.id
  {
    match FindApplicationByToken(apps, token)
    case None => NoApplication
    case Some(app) =>
      match FindChat(chats, app.id, chatNumber)
      case None => NoChat
      case Some(chat) => Found(chat)
  }

  /** The 404 of a failed lookup. */
  function LookupFailure(l: Lookup): Response
    requires !l.Found?
  {
    if l.NoApplication? then NotFoundResponse("Application") else NotFoundResponse("Chat")
  }

  /** The rows `index` renders: the chat's messages by ascending number, one page of them. */
  function ListedMessages(messages: seq<MessageRow>, chatId: int, page: int, per: int): (rows: seq<MessageRow>)
    ensures forall i, j :: 0 <= i < j < |rows| ==> rows[i].number <= rows[j].number
    ensures forall i :: 0 <= i < |rows| ==> rows[i] in messages && rows[i].chatId == chatId
    ensures multiset(rows) <= multiset(MessagesOf(messages, chatId))
    ensures PageIndex(page) == 0 ==>
      forall y, x :: y in MessagesOf(messages, chatId) && y !in rows && x in rows ==> x.number <= y.number
    ensures page == DefaultPage && per == DefaultPerPageParam ==>
      |rows| == if MessageCount(messages, chatId) < per then MessageCount(messages, chatId) else per
  {
    var all := MessagesOf(messages, chatId);
    var sorted := SortBy(all, Number);
    SortByKeepsRows(all, Number);
    PageOfSorted(sorted, page, per, Number);
    PageIsSubMultiset(sorted, page, per);
    FirstPageHoldsLowest(sorted, page, per, Number);
    Paginate(sorted, page, per)
  }

  /** `index`. */
  function Index(apps: seq<AppRow>, chats: seq<ChatRow>, messages: seq<MessageRow>, token: string,
                 chatNumber: int, page: Option<int>, per: Option<int>): (resp: Response)
    ensures !FindScope(apps, chats, token, chatNumber).Found? ==>
      resp == LookupFailure(FindScope(apps, chats, token, chatNumber))
    ensures FindScope(apps, chats, token, chatNumber).Found? ==>
      var chat := FindScope(apps, chats, token, chatNumber).chat;
      && resp.status == Ok
      && resp.body == MessageList(Views(ListedMessages(messages, chat.id, page.GetOr(DefaultPage),
                                                       per.GetOr(DefaultPerPageParam))))
  {
    match FindScope(apps, chats, token, chatNumber)
    case Found(chat) =>
      Response(Ok, MessageList(Views(ListedMessages(messages, chat.id, page.GetOr(DefaultPage),
                                                    per.GetOr(DefaultPerPageParam)))))
    case _ => LookupFailure(FindScope(apps, chats, token, chatNumber))
  }

  /**
   * By default the listing shows the views of the chat's 50 lowest-numbered
   * messages (all of them when there are fewer), each at most once, in ascending order.
   */
  lemma IndexOrderAndDefaultPage(apps: seq<AppRow>, chats: seq<ChatRow>, messages: seq<MessageRow>,
                                 token: string, chatNumber: int)
    requires FindScope(apps, chats, token, chatNumber).Found?
    ensures
      var chat := FindScope(apps, chats, token, chatNumber).chat;
      var listed := Index(apps, chats, messages, token, chatNumber, None, None).body.messages;
      exists rows: seq<MessageRow> ::
        && listed == Views(rows)
        && multiset(rows) <= multiset(MessagesOf(messages, chat.id))
        && (forall y, x :: y in MessagesOf(messages, chat.id) && y !in rows && x in rows ==> x.number <= y.number)
        && (forall i, j :: 0 <= i < j < |listed| ==> listed[i].number <= listed[j].number)
        && |listed| == if MessageCount(messages, chat.id) < 50 then MessageCount(messages, chat.id) else 50
  {
    var chat := FindScope(apps, chats, token, chatNumber).chat;
    var rows := ListedMessages(messages, chat.id, DefaultPage, DefaultPerPageParam);
    assert Index(apps, chats, messages, token, chatNumber, None, None).body.messages == Views(rows);
  }

  /** `show`, through `find_message`: the message's view, or 404 when any of the three lookups fails. */
  function Show(apps: seq<AppRow>, chats: seq<ChatRow>, messages: seq<MessageRow>, token: string,
                chatNumber: int, number: int): (resp: Response)
    ensures !FindScope(apps, chats, token, chatNumber).Found? ==>
      resp == LookupFailure(FindScope(apps, chats, token, chatNumber))
    ensures FindScope(apps, chats, token, chatNumber).Found? ==>
      var chat := FindScope(apps, chats, token, chatNumber).chat;
      && (number !in MessageNumbers(messages, chat.id) ==> resp == NotFoundResponse("Message"))
      && (number in MessageNumbers(messages, chat.id) ==>
            resp.status == Ok && resp.body.MessageBody? && resp.body.message.number == number
            && exists m :: m in messages && m.chatId == chat.id && resp.body.message == MessageResponse(m))
  {
    match FindScope(apps, chats, token, chatNumber)
    case Found(chat) =>
      (match FindMessageByNumber(messages, chat.id, number)
       case None => NotFoundResponse("Message")
       case Some(m) => Response(Ok, MessageBody(MessageResponse(m))))
    case _ => LookupFailure(FindScope(apps, chats, token, chatNumber))
  }

  // ---------------------------------------------------------------------------
  // create

  /**
   * The number `create` hands to the validations: the INCR's reply when the
   * store answers, otherwise one above the chat's largest message number (the
   * allocator's fallback, or `set_number` after a nil).
   */
  function PlannedNumber(live: bool, data: map<string, int>, messages: seq<MessageRow>, chat: ChatRow): int {
    if live then Counter(data, RedisCounterService.MessageCounterKey(chat.id)) + 1
    else MaxPlusOne(MessageNumbers(messages, chat.id))
  }

  /** `next_message_number(@chat.id)` and the number `set_number` makes of it. */
  method AllocateNumber(h: Handle, s: Server, db: Db, chat: ChatRow) returns (number: Option<int>)
    requires chat in db.chats
    modifies s`data
    ensures FindChatById(db.chats, chat.id).Some?
    ensures FilledNumber(number, MessageModel.NumberScope(db.chats, db.messages, chat.id))
            == PlannedNumber(ModeOf(h, s.up) == Live, old(s.data), db.messages, chat)
    ensures s.data == if ModeOf(h, s.up) == Live
                      then AfterIncr(old(s.data), RedisCounterService.MessageCounterKey(chat.id))
                      else old(s.data)
  {
    assert FindChatById(db.chats, chat.id).Some? by {
      var i :| 0 <= i < |db.chats| && db.chats[i] == chat;
    }
    var allocation := RedisCounterService.NextMessageNumber(h, s, db, chat.id);
    number := if allocation.Issued? then Some(allocation.n) else None;
  }

  /**
   * The response of an exception that escapes the action: Rails' JSON rendering
   * of a 500 for an API application.
   */
  const UnhandledError: Response := Response(InternalServerError, Error("Internal Server Error", None, None))

  /** For a chat that exists, the validations can only object to a taken number and to the body. */
  lemma CreateErrors(chats: seq<ChatRow>, messages: seq<MessageRow>, chat: ChatRow, n: int, body: Option<string>)
    requires chat in chats
    ensures MessageModel.Errors(chats, messages, chat.id, n, body)
            == (if n in MessageNumbers(messages, chat.id) then ["Number has already been taken"] else [])
               + MessageModel.BodyErrors(body)
  {
    var i :| 0 <= i < |chats| && chats[i] == chat;
    assert FindChatById(chats, chat.id).Some?;
  }

  /**
   * `create` once the chat is found, up to the response: allocate, then save. A
   * valid message is stored with the planned number, an invalid one is not;
   * the counter has advanced either way.
   */
  method Store(h: Handle, s: Server, q: Queue, idx: Index, db: Db, chat: ChatRow, body: Option<string>,
               now: Timestamp) returns (n: int, saved: MessageModel.SaveResult)
    requires db.Valid()
    requires chat in db.chats
    modifies db, s`data, q`jobs, idx`docs
    ensures db.Valid()
    ensures n == PlannedNumber(ModeOf(h, s.up) == Live, old(s.data), old(db.messages), chat)
    ensures
      var live := ModeOf(h, s.up) == Live;
      var errors := MessageModel.Errors(old(db.chats), old(db.messages), chat.id, n, body);
      && s.data == (if live then AfterIncr(old(s.data), RedisCounterService.MessageCounterKey(chat.id)) else old(s.data))
      && (errors != [] ==>
            saved == MessageModel.Invalid(errors) && unchanged(db) && q.jobs == old(q.jobs) && idx.docs == old(idx.docs))
      && (errors == [] ==>
            var row := MessageRow(old(db.nextMessageId), chat.id, n, body.value, now, now);
            && saved == (if idx.reachable then MessageModel.Saved(row) else MessageModel.SavedThenRaised(row))
            && db.messages == old(db.messages) + [row]
            && db.chats == BumpMessagesCount(old(db.chats), chat.id)
            && db.applications == old(db.applications)
            && q.jobs == old(q.jobs)
                 + (if q.up then [IndexMessage(row.id), UpdateMessageCount(chat.id, ScheduleDelaySeconds)] else [])
            && idx.docs == (if idx.reachable then Upsert(old(idx.docs), MessageModel.AsIndexedJson(row)) else old(idx.docs)))
  {
    var number := AllocateNumber(h, s, db, chat);
    n := FilledNumber(number, MessageModel.NumberScope(db.chats, db.messages, chat.id));
    saved := MessageModel.Save(q, idx, db, chat.id, number, body, now);
  }

  /** How `create` answers the outcome of `save`: 201 with the view, 422 with the messages, 500 for the exception. */
  function Render(saved: MessageModel.SaveResult): (resp: Response)
    ensures saved.Saved? ==> resp == Response(Created, MessageBody(MessageResponse(saved.row)))
    ensures saved.Invalid? ==> resp == Response(UnprocessableEntity, ValidationErrors(saved.errors))
    ensures saved.SavedThenRaised? ==> resp == UnhandledError
  {
    match saved
    case Saved(row) => Response(Created, MessageBody(MessageResponse(row)))
    case Invalid(errors) => Response(UnprocessableEntity, ValidationErrors(errors))
    case SavedThenRaised(_) => UnhandledError
  }

  /** `create`: 404 for an unknown token or chat number, otherwise `Store` on the chat found and the response for its outcome. */
  method Create(h: Handle, s: Server, q: Queue, idx: Index, db: Db, token: string, chatNumber: int,
                body: Option<string>, now: Timestamp) returns (resp: Response)
    requires db.Valid()
    modifies db, s`data, q`jobs, idx`docs
    ensures db.Valid()
    ensures !FindScope(old(db.applications), old(db.chats), token, chatNumber).Found? ==>
      && resp == LookupFailure(FindScope(old(db.applications), old(db.chats), token, chatNumber))
      && unchanged(db) && s.data == old(s.data) && q.jobs == old(q.jobs) && idx.docs == old(idx.docs)
    ensures FindScope(old(db.applications), old(db.chats), token, chatNumber).Found? ==>
      var chat := FindScope(old(db.applications), old(db.chats), token, chatNumber).chat;
      var live := ModeOf(h, s.up) == Live;
      var n := PlannedNumber(live, old(s.data), old(db.messages), chat);
      var errors := MessageModel.Errors(old(db.chats), old(db.messages), chat.id, n, body);
      && s.data == (if live then AfterIncr(old(s.data), RedisCounterService.MessageCounterKey(chat.id)) else old(s.data))
      && (errors != [] ==>
            && resp == Response(UnprocessableEntity, ValidationErrors(errors))
            && unchanged(db) && q.jobs == old(q.jobs) && idx.docs == old(idx.docs))
      && (errors == [] ==>
            var row := MessageRow(old(db.nextMessageId), chat.id, n, body.value, now, now);
            && resp == (if idx.reachable then Response(Created, MessageBody(MessageResponse(row))) else UnhandledError)
            && db.messages == old(db.messages) + [row]
            && db.chats == BumpMessagesCount(old(db.chats), chat.id)
            && db.applications == old(db.applications)
            && q.jobs == old(q.jobs)
                 + (if q.up then [IndexMessage(row.id), UpdateMessageCount(chat.id, ScheduleDelaySeconds)] else [])
            && idx.docs == (if idx.reachable then Upsert(old(idx.docs), MessageModel.AsIndexedJson(row)) else old(idx.docs)))
  {
    var scope := FindScope(db.applications, db.chats, token, chatNumber);
    if !scope.Found? {
      return LookupFailure(scope);
    }
    var _, saved := Store(h, s, q, idx, db, scope.chat, body, now);
    resp := Render(saved);
  }

  /** Every message number of the chat is at most its counter: the next INCR is then free. */
  predicate CounterAhead(data: map<string, int>, messages: seq<MessageRow>, chat: ChatRow) {
    forall x :: x in MessageNumbers(messages, chat.id) ==> x <= Counter(data, RedisCounterService.MessageCounterKey(chat.id))
  }

  /**
   * A valid body is rejected only when the store answered with a number already
   * taken, which needs the counter to have fallen behind the rows.
   */
  lemma RejectedOnlyForBodyOrBehindCounter(live: bool, data: map<string, int>, chats: seq<ChatRow>,
                                           messages: seq<MessageRow>, chat: ChatRow, body: Option<string>)
    requires chat in chats
    ensures
      var errors := MessageModel.Errors(chats, messages, chat.id, PlannedNumber(live, data, messages, chat), body);
      errors != [] ==> MessageModel.BodyErrors(body) != [] || (live && !CounterAhead(data, messages, chat))
  {
    CreateErrors(chats, messages, chat, PlannedNumber(live, data, messages, chat), body);
  }

  /**
   * A stored message on a live store keeps the counter ahead: the counter moved
   * by one and the message carries its new value.
   */
  lemma CreateKeepsCounterAhead(data: map<string, int>, messages: seq<MessageRow>, chat: ChatRow, id: int,
                                body: string, now: Timestamp)
    requires CounterAhead(data, messages, chat)
    ensures
      var key := RedisCounterService.MessageCounterKey(chat.id);
      var n := PlannedNumber(true, data, messages, chat);
      && n !in MessageNumbers(messages, chat.id)
      && Counter(AfterIncr(data, key), key) == Counter(data, key) + 1
      && CounterAhead(AfterIncr(data, key), messages + [MessageRow(id, chat.id, n, body, now, now)], chat)
  {
    MessageNumbersAppend(messages, MessageRow(id, chat.id, PlannedNumber(true, data, messages, chat), body, now, now), chat.id);
  }

  // ---------------------------------------------------------------------------
  // search

  /**
   * `response.records.to_a`: the rows of the hit ids, in hit order; a hit
   * whose row no longer exists yields nothing.
   */
  function Records(messages: seq<MessageRow>, ids: seq<int>): (rs: seq<MessageRow>)
    ensures |rs| <= |ids|
    ensures forall i :: 0 <= i < |rs| ==> rs[i] in messages && rs[i].id in ids
    ensures forall i :: 0 <= i < |ids| && FindMessage(messages, ids[i]).Some? ==> FindMessage(messages, ids[i]).value in rs
  {
    if ids == [] then []
    else
      (match FindMessage(messages, ids[0]) case Some(m) => [m] case None => []) + Records(messages, ids[1..])
  }

  lemma {:induction false} RecordsAppend(messages: seq<MessageRow>, a: seq<int>, b: seq<int>)
    ensures Records(messages, a + b) == Records(messages, a) + Records(messages, b)
  {
    if a != [] {
      assert (a + b)[0] == a[0];
      assert (a + b)[1..] == a[1..] + b;
      RecordsAppend(messages, a[1..], b);
    } else {
      assert a + b == b;
    }
  }

  /** `select { |msg| msg.chat_id == @chat.id }`. */
  function InChat(rows: seq<MessageRow>, chatId: int): (rs: seq<MessageRow>)
    ensures |rs| <= |rows|
    ensures forall r :: r in rs <==> r in rows && r.chatId == chatId
  {
    if rows == [] then []
    else (if rows[0].chatId == chatId then [rows[0]] else []) + InChat(rows[1..], chatId)
  }

  /** The filter keeps order: it works on each part of a sequence separately (a proof step of `ChatHitsFollowHitOrder`). */
  lemma {:induction false} InChatAppend(a: seq<MessageRow>, b: seq<MessageRow>, chatId: int)
    ensures InChat(a + b, chatId) == InChat(a, chatId) + InChat(b, chatId)
  {
    if a != [] {
      assert (a + b)[0] == a[0];
      assert (a + b)[1..] == a[1..] + b;
      InChatAppend(a[1..], b, chatId);
    } else {
      assert a + b == b;
    }
  }

  /** Hits that all belong to the chat pass the filter unchanged. */
  lemma {:induction false} InChatOfOwnRows(rows: seq<MessageRow>, chatId: int)
    requires forall i :: 0 <= i < |rows| ==> rows[i].chatId == chatId
    ensures InChat(rows, chatId) == rows
  {
    if rows != [] {
      InChatOfOwnRows(rows[1..], chatId);
    }
  }

  /** The rows `search` renders for the engine's hits. */
  function ChatHits(messages: seq<MessageRow>, chatId: int, hits: seq<int>): (rs: seq<MessageRow>)
    ensures |rs| <= |hits|
    ensures forall i :: 0 <= i < |rs| ==> rs[i] in messages && rs[i].chatId == chatId && rs[i].id in hits
    ensures forall i :: 0 <= i < |hits| && FindMessage(messages, hits[i]).Some?
                          && FindMessage(messages, hits[i]).value.chatId == chatId ==>
                          FindMessage(messages, hits[i]).value in rs
  {
    var records := Records(messages, hits);
    var rs := InChat(records, chatId);
    assert forall i :: 0 <= i < |rs| ==> rs[i] in records;
    rs
  }

  /** Results come in hit order: the results of two runs of hits are the results of each, one after the other. */
  lemma ChatHitsFollowHitOrder(messages: seq<MessageRow>, chatId: int, a: seq<int>, b: seq<int>)
    ensures ChatHits(messages, chatId, a + b) == ChatHits(messages, chatId, a) + ChatHits(messages, chatId, b)
  {
    RecordsAppend(messages, a, b);
    InChatAppend(Records(messages, a), Records(messages, b), chatId);
  }

  /** The hint `search` gives when the index is missing. */
  const CreateIndexHint: string := "Run: Message.__elasticsearch__.create_index! force: true"

  /**
   * `search`: 400 for a blank `q` before any query is issued; otherwise the
   * chat's messages among the engine's (at most 100) hits, in hit order, with
   * their count; a missing index and any other engine error give 503.
   */
  function Search(apps: seq<AppRow>, chats: seq<ChatRow>, messages: seq<MessageRow>, token: string,
                  chatNumber: int, q: Option<string>, answer: EngineAnswer): (resp: Response)
    ensures !FindScope(apps, chats, token, chatNumber).Found? ==>
      resp == LookupFailure(FindScope(apps, chats, token, chatNumber))
    ensures FindScope(apps, chats, token, chatNumber).Found? ==>
      var chat := FindScope(apps, chats, token, chatNumber).chat;
      && (Blank(q) ==> resp == Response(BadRequest, Error("Query parameter required", None, None)))
      && (!Blank(q) && answer.Ranked? ==>
            && resp.status == Ok && resp.body.SearchResults?
            && resp.body.query == q.value
            && resp.body.total == |resp.body.results| <= SearchSize
            && resp.body.results == Views(ChatHits(messages, chat.id, Hits(answer.ids))))
      && (!Blank(q) && answer.IndexNotFound? ==>
            resp == Response(ServiceUnavailable,
                             Error("Search index not configured", Some(CreateIndexHint), Some(answer.details))))
      && (!Blank(q) && answer.EngineError? ==>
            resp == Response(ServiceUnavailable, Error("Search service error", Some(answer.message), None)))
  {
    match FindScope(apps, chats, token, chatNumber)
    case Found(chat) =>
      if Blank(q) then Response(BadRequest, Error("Query parameter required", None, None))
      else
        (match answer
         case Ranked(ids) =>
           var rows := ChatHits(messages, chat.id, Hits(ids));
           Response(Ok, SearchResults(Views(rows), q.value, |rows|))
         case IndexNotFound(details) =>
           Response(ServiceUnavailable, Error("Search index not configured", Some(CreateIndexHint), Some(details)))
         case EngineError(message) =>
           Response(ServiceUnavailable, Error("Search service error", Some(message), None)))
    case _ => LookupFailure(FindScope(apps, chats, token, chatNumber))
  }
}
