/**
 * `Api::V1::ChatsController`: every action first finds the application by
 * token (404 when there is none). `create` takes a number from the allocator
 * before it builds and saves the chat, so a rejected save still uses the
 * number up.
 */
module ChatsController {
  import opened Common
  import opened Tables
  import opened Redis
  import opened Jobs
  import opened Http
  import opened Ordering
  import opened Paging
  import RedisCounterService
  import ChatModel

  /** `params[:page] || 1` and `params[:per_page] || 50`. */
  const DefaultPage: int := 1
  const DefaultPerPageParam: int := 50

  /** `chat_response`: number, messages_count and timestamps, without the id. */
  function ChatResponse(c: ChatRow): ChatView {
    ChatView(c.number, c.messagesCount, c.createdAt, c.updatedAt)
  }

  function Views(rows: seq<ChatRow>): (vs: seq<ChatView>)
    ensures |vs| == |rows|
    ensures forall i :: 0 <= i < |rows| ==> vs[i] == ChatResponse(rows[i])
  {
    seq(|rows|, i requires 0 <= i < |rows| => ChatResponse(rows[i]))
  }

  function Number(c: ChatRow): int {
    c.number
  }

  /** The rows `index` renders: the application's chats by ascending number, one page of them. */
  function ListedChats(chats: seq<ChatRow>, applicationId: int, page: int, per: int): (rows: seq<ChatRow>)
    ensures forall i, j :: 0 <= i < j < |rows| ==> rows[i].number <= rows[j].number
    ensures forall i :: 0 <= i < |rows| ==> rows[i] in chats && rows[i].applicationId == applicationId
    ensures multiset(rows) <= multiset(ChatsOf(chats, applicationId))
    ensures PageIndex(page) == 0 ==>
      forall y, x :: y in ChatsOf(chats, applicationId) && y !in rows && x in rows ==> x.number <= y.number
    ensures page == DefaultPage && per == DefaultPerPageParam ==>
      |rows| == if ChatCount(chats, applicationId) < per then ChatCount(chats, applicationId) else per
  {
    var all := ChatsOf(chats, applicationId);
    var sorted := SortBy(all, Number);
    SortByKeepsRows(all, Number);
    PageOfSorted(sorted, page, per, Number);
    PageIsSubMultiset(sorted, page, per);
    FirstPageHoldsLowest(sorted, page, per, Number);
    Paginate(sorted, page, per)
  }

  /** `index`. */
  function Index(apps: seq<AppRow>, chats: seq<ChatRow>, token: string, page: Option<int>,
                 per: Option<int>): (resp: Response)
    ensures FindApplicationByToken(apps, token).None? ==> resp == NotFoundResponse("Application")
    ensures FindApplicationByToken(apps, token).Some? ==>
      var app := FindApplicationByToken(apps, token).value;
      && resp.status == Ok
      && resp.body == ChatList(Views(ListedChats(chats, app.id, page.GetOr(DefaultPage), per.GetOr(DefaultPerPageParam))))
  {
    match FindApplicationByToken(apps, token)
    case None => NotFoundResponse("Application")
    case Some(app) =>
      Response(Ok, ChatList(Views(ListedChats(chats, app.id, page.GetOr(DefaultPage), per.GetOr(DefaultPerPageParam)))))
  }

  /**
   * By default the listing shows the views of the application's 50 lowest-numbered
   * chats (all of them when there are fewer), each at most once, in ascending order.
   */
  lemma IndexOrderAndDefaultPage(apps: seq<AppRow>, chats: seq<ChatRow>, token: string)
    requires FindApplicationByToken(apps, token).Some?
    ensures
      var app := FindApplicationByToken(apps, token).value;
      var listed := Index(apps, chats, token, None, None).body.chats;
      exists rows: seq<ChatRow> ::
        && listed == Views(rows)
        && multiset(rows) <= multiset(ChatsOf(chats, app.id))
        && (forall y, x :: y in ChatsOf(chats, app.id) && y !in rows && x in rows ==> x.number <= y.number)
        && (forall i, j :: 0 <= i < j < |listed| ==> listed[i].number <= listed[j].number)
        && |listed| == if ChatCount(chats, app.id) < 50 then ChatCount(chats, app.id) else 50
  {
    var app := FindApplicationByToken(apps, token).value;
    var rows := ListedChats(chats, app.id, DefaultPage, DefaultPerPageParam);
    assert Index(apps, chats, token, None, None).body.chats == Views(rows);
  }

  /** `show`, through `find_chat`: the chat's view, or 404 for an unknown token or number. */
  function Show(apps: seq<AppRow>, chats: seq<ChatRow>, token: string, number: int): (resp: Response)
    ensures FindApplicationByToken(apps, token).None? ==> resp == NotFoundResponse("Application")
    ensures FindApplicationByToken(apps, token).Some? ==>
      var app := FindApplicationByToken(apps, token).value;
      && (number !in ChatNumbers(chats, app.id) ==> resp == NotFoundResponse("Chat"))
      && (number in ChatNumbers(chats, app.id) ==>
            resp.status == Ok && resp.body.ChatBody? && resp.body.chat.number == number
            && exists r :: r in chats && r.applicationId == app.id && resp.body.chat == ChatResponse(r))
  {
    match FindApplicationByToken(apps, token)
    case None => NotFoundResponse("Application")
    case Some(app) =>
      match FindChat(chats, app.id, number)
      case None => NotFoundResponse("Chat")
      case Some(c) => Response(Ok, ChatBody(ChatResponse(c)))
  }

  /**
   * The number `create` saves: the INCR's reply when the store answers,
   * otherwise one above the application's largest chat number (the allocator's
   * fallback, or `set_number` after a nil).
   */
  function PlannedNumber(live: bool, data: map<string, int>, chats: seq<ChatRow>, app: AppRow): int {
    if live then Counter(data, RedisCounterService.ChatCounterKey(app.token)) + 1
    else MaxPlusOne(ChatNumbers(chats, app.id))
  }

  /** `next_chat_number` and the `number:` it passes to `chats.new`, as `set_number` completes it. */
  method AllocateNumber(h: Handle, s: Server, db: Db, app: AppRow) returns (number: Option<int>)
    requires FindApplicationByToken(db.applications, app.token) == Some(app)
    modifies s`data
    ensures FindApplication(db.applications, app.id).Some?
    ensures FilledNumber(number, ChatModel.NumberScope(db.applications, db.chats, app.id))
            == PlannedNumber(ModeOf(h, s.up) == Live, old(s.data), db.chats, app)
    ensures s.data == if ModeOf(h, s.up) == Live
                      then AfterIncr(old(s.data), RedisCounterService.ChatCounterKey(app.token))
                      else old(s.data)
  {
    assert FindApplication(db.applications, app.id).Some? by {
      var i :| 0 <= i < |db.applications| && db.applications[i] == app;
    }
    var allocation := RedisCounterService.NextChatNumber(h, s, db, app.token);
    number := if allocation.Issued? then Some(allocation.n) else None;
  }

  /**
   * `create` once the application is found: allocate, build, save. The chat
   * gets the planned number when it is free (201 with its view); otherwise the
   * uniqueness validation rejects it (422) and the number stays used up.
   */
  method CreateIn(h: Handle, s: Server, q: Queue, db: Db, app: AppRow, now: Timestamp) returns (resp: Response)
    requires db.Valid()
    requires FindApplicationByToken(db.applications, app.token) == Some(app)
    modifies db, s`data, q`jobs
    ensures db.Valid()
    ensures
      var live := ModeOf(h, s.up) == Live;
      var n := PlannedNumber(live, old(s.data), old(db.chats), app);
      var key := RedisCounterService.ChatCounterKey(app.token);
      && (n !in ChatNumbers(old(db.chats), app.id) ==>
            var row := ChatRow(old(db.nextChatId), app.id, n, 0, now, now);
            && resp == Response(Created, ChatBody(ChatResponse(row)))
            && db.chats == old(db.chats) + [row]
            && db.applications == BumpChatsCount(old(db.applications), app.id)
            && db.messages == old(db.messages)
            && q.jobs == old(q.jobs) + (if q.up then [UpdateChatCount(app.id, ScheduleDelaySeconds)] else [])
            && s.data == if live
                         then AfterSetNX(AfterIncr(old(s.data), key), RedisCounterService.MessageCounterKey(row.id), 0)
                         else old(s.data))
      && (n in ChatNumbers(old(db.chats), app.id) ==>
            && resp == Response(UnprocessableEntity, ValidationErrors(["Number has already been taken"]))
            && unchanged(db) && q.jobs == old(q.jobs)
            && s.data == if live then AfterIncr(old(s.data), key) else old(s.data))
  {
    var number := AllocateNumber(h, s, db, app);
    var saved := ChatModel.Save(h, s, q, db, app.id, number, now);
    match saved {
      case Saved(row) =>
        resp := Response(Created, ChatBody(ChatResponse(row)));
      case Invalid(errors) =>
        assert errors == ["Number has already been taken"];
        resp := Response(UnprocessableEntity, ValidationErrors(errors));
    }
  }

  /** `create`: 404 for an unknown token, otherwise `CreateIn` on the application found. */
  method Create(h: Handle, s: Server, q: Queue, db: Db, token: string, now: Timestamp) returns (resp: Response)
    requires db.Valid()
    modifies db, s`data, q`jobs
    ensures db.Valid()
    ensures FindApplicationByToken(old(db.applications), token).None? ==>
      resp == NotFoundResponse("Application") && unchanged(db) && s.data == old(s.data) && q.jobs == old(q.jobs)
    ensures FindApplicationByToken(old(db.applications), token).Some? ==>
      var app := FindApplicationByToken(old(db.applications), token).value;
      var live := ModeOf(h, s.up) == Live;
      var n := PlannedNumber(live, old(s.data), old(db.chats), app);
      var key := RedisCounterService.ChatCounterKey(app.token);
      && (n !in ChatNumbers(old(db.chats), app.id) ==>
            var row := ChatRow(old(db.nextChatId), app.id, n, 0, now, now);
            && resp == Response(Created, ChatBody(ChatResponse(row)))
            && db.chats == old(db.chats) + [row]
            && db.applications == BumpChatsCount(old(db.applications), app.id)
            && db.messages == old(db.messages)
            && q.jobs == old(q.jobs) + (if q.up then [UpdateChatCount(app.id, ScheduleDelaySeconds)] else [])
            && s.data == if live
                         then AfterSetNX(AfterIncr(old(s.data), key), RedisCounterService.MessageCounterKey(row.id), 0)
                         else old(s.data))
      && (n in ChatNumbers(old(db.chats), app.id) ==>
            && resp == Response(UnprocessableEntity, ValidationErrors(["Number has already been taken"]))
            && unchanged(db) && q.jobs == old(q.jobs)
            && s.data == if live then AfterIncr(old(s.data), key) else old(s.data))
  {
    var found := FindApplicationByToken(db.applications, token);
    if found.None? {
      return NotFoundResponse("Application");
    }
    resp := CreateIn(h, s, q, db, found.value, now);
  }

  /** Every chat number of the application is at most its counter: the next INCR is then free. */
  predicate CounterAhead(data: map<string, int>, chats: seq<ChatRow>, app: AppRow) {
    forall x :: x in ChatNumbers(chats, app.id) ==> x <= Counter(data, RedisCounterService.ChatCounterKey(app.token))
  }

  /**
   * `create` is rejected only when the store answered with a number already
   * taken, which needs the counter to have fallen behind the rows.
   */
  lemma RejectedOnlyBehindCounter(live: bool, data: map<string, int>, chats: seq<ChatRow>, app: AppRow)
    ensures PlannedNumber(live, data, chats, app) in ChatNumbers(chats, app.id) ==>
      live && !CounterAhead(data, chats, app)
  {
  }

  /**
   * A successful create on a live store keeps the counter ahead: it moves by
   * exactly one, the new chat takes that value, and the message counter it
   * initialises is another key.
   */
  lemma CreateKeepsCounterAhead(data: map<string, int>, chats: seq<ChatRow>, app: AppRow, chatId: int, now: Timestamp)
    requires CounterAhead(data, chats, app)
    ensures
      var key := RedisCounterService.ChatCounterKey(app.token);
      var n := PlannedNumber(true, data, chats, app);
      var data' := AfterSetNX(AfterIncr(data, key), RedisCounterService.MessageCounterKey(chatId), 0);
      && n !in ChatNumbers(chats, app.id)
      && Counter(data', key) == Counter(data, key) + 1
      && CounterAhead(data', chats + [ChatRow(chatId, app.id, n, 0, now, now)], app)
  {
    var key := RedisCounterService.ChatCounterKey(app.token);
    RedisCounterService.CounterKindsDisjoint(app.token, chatId);
    ChatNumbersAppend(chats, ChatRow(chatId, app.id, PlannedNumber(true, data, chats, app), 0, now, now), app.id);
  }
}
