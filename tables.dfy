/**
 * The durable store: the applications, chats and messages tables. Each table is
 * a sequence of rows in primary-key order (ids come from an auto-increment
 * counter). The primary keys, and the unique indexes of the migrations on
 * `applications.token`, on `(chats.application_id, chats.number)` and on
 * `(messages.chat_id, messages.number)`, are the invariant `Db.Valid()`: an
 * insert that would break one of the indexes is rejected.
 */
module Tables {
  import opened Common

  datatype AppRow = AppRow(id: int, token: string, name: string, chatsCount: int, createdAt: Timestamp)

  datatype ChatRow = ChatRow(
    id: int, applicationId: int, number: int, messagesCount: int,
    createdAt: Timestamp, updatedAt: Timestamp)

  datatype MessageRow = MessageRow(
    id: int, chatId: int, number: int, body: string,
    createdAt: Timestamp, updatedAt: Timestamp)

  // ---------------------------------------------------------------------------
  // Numbers within one scope

  predicate Distinct(ns: seq<int>) {
    forall i, j :: 0 <= i < j < |ns| ==> ns[i] != ns[j]
  }

  /** The numbers of one application's chats, in table order. */
  function ChatNumbers(chats: seq<ChatRow>, applicationId: int): (ns: seq<int>)
    ensures |ns| <= |chats|
  {
    if chats == [] then []
    else
      var last := chats[|chats| - 1];
      ChatNumbers(chats[..|chats| - 1], applicationId)
        + (if last.applicationId == applicationId then [last.number] else [])
  }

  /** The numbers of one chat's messages, in table order. */
  function MessageNumbers(messages: seq<MessageRow>, chatId: int): (ns: seq<int>)
    ensures |ns| <= |messages|
  {
    if messages == [] then []
    else
      var last := messages[|messages| - 1];
      MessageNumbers(messages[..|messages| - 1], chatId)
        + (if last.chatId == chatId then [last.number] else [])
  }

  /** `application.chats.count`. */
  function ChatCount(chats: seq<ChatRow>, applicationId: int): nat {
    |ChatNumbers(chats, applicationId)|
  }

  /** `chat.messages.count`. */
  function MessageCount(messages: seq<MessageRow>, chatId: int): nat {
    |MessageNumbers(messages, chatId)|
  }

  /** `maximum(:number)`: nil for an empty scope. */
  function Max(ns: seq<int>): (m: Option<int>)
    ensures m.None? <==> ns == []
    ensures m.Some? ==> m.value in ns && forall x :: x in ns ==> x <= m.value
  {
    if ns == [] then None
    else
      var p := Max(ns[..|ns| - 1]);
      var x := ns[|ns| - 1];
      assert ns == ns[..|ns| - 1] + [x];
      if p.None? || p.value < x then Some(x) else p
  }

  /**
   * `maximum(:number).to_i + 1`, and equally `last ? last.number + 1 : 1`: one
   * past the largest number in the scope, 1 for an empty scope. It is above
   * every number present, so it is free at the moment it is computed.
   */
  function MaxPlusOne(ns: seq<int>): (n: int)
    ensures ns == [] ==> n == 1
    ensures ns != [] ==> n - 1 in ns
    ensures forall x :: x in ns ==> x < n
  {
    match Max(ns)
    case None => 1
    case Some(m) => m + 1
  }

  /**
   * `set_number` of chats and of messages alike. A given number is kept;
   * otherwise `scope` is what `order(number: :desc)` on the parent's rows
   * yields: their numbers, or None when the query raised (as it does when the
   * parent is missing), and then the rescue sets 1.
   */
  function FilledNumber(number: Option<int>, scope: Option<seq<int>>): (n: int)
    ensures number.Some? ==> n == number.value
    ensures number.None? && scope.Some? ==>
      && n !in scope.value
      && (scope.value == [] ==> n == 1)
      && (scope.value != [] ==> n - 1 in scope.value)
    ensures number.None? && scope.None? ==> n == 1
  {
    match number
    case Some(v) => v
    case None =>
      match scope
      case None => 1
      case Some(ns) => MaxPlusOne(ns)
  }

  // ---------------------------------------------------------------------------
  // Facts about sequences of numbers

  lemma {:induction false} DistinctCardinality(ns: seq<int>)
    requires Distinct(ns)
    ensures |set x | x in ns| == |ns|
  {
    if ns != [] {
      var p := ns[..|ns| - 1];
      var x := ns[|ns| - 1];
      assert Distinct(p);
      DistinctCardinality(p);
      assert ns == p + [x];
      assert (set y | y in ns) == (set y | y in p) + {x};
      assert x !in (set y | y in p);
    }
  }

  /** The set 1..n. */
  function Range(n: nat): (r: set<int>)
    ensures forall i :: i in r <==> 1 <= i <= n
    ensures |r| == n
  {
    if n == 0 then {} else Range(n - 1) + {n}
  }

  /** A scope whose numbers are distinct and are exactly 1..n has exactly n rows. */
  lemma DenseScopeHasNRows(ns: seq<int>, n: nat)
    requires Distinct(ns)
    requires (set x | x in ns) == Range(n)
    ensures |ns| == n
  {
    DistinctCardinality(ns);
  }

  /** In a dense scope 1..n the largest number is n. */
  lemma DenseScopeMax(ns: seq<int>, n: nat)
    requires n >= 1
    requires (set x | x in ns) == Range(n)
    ensures Max(ns) == Some(n)
  {
    assert n in (set x | x in ns);
    var m := Max(ns);
    assert m.value in (set x | x in ns);
  }

  // ---------------------------------------------------------------------------
  // How rows enter and change

  lemma ChatNumbersAppend(chats: seq<ChatRow>, r: ChatRow, a: int)
    ensures ChatNumbers(chats + [r], a)
         == ChatNumbers(chats, a) + (if r.applicationId == a then [r.number] else [])
  {
    assert (chats + [r])[..|chats|] == chats;
  }

  lemma MessageNumbersAppend(messages: seq<MessageRow>, r: MessageRow, c: int)
    ensures MessageNumbers(messages + [r], c)
         == MessageNumbers(messages, c) + (if r.chatId == c then [r.number] else [])
  {
    assert (messages + [r])[..|messages|] == messages;
  }

  /** `UPDATE chats SET messages_count = v WHERE id = chatId`. */
  function SetMessagesCount(chats: seq<ChatRow>, chatId: int, v: int): (r: seq<ChatRow>)
    ensures |r| == |chats|
    ensures forall i :: 0 <= i < |chats| ==>
      r[i] == if chats[i].id == chatId then chats[i].(messagesCount := v) else chats[i]
  {
    if chats == [] then []
    else
      var last := chats[|chats| - 1];
      SetMessagesCount(chats[..|chats| - 1], chatId, v)
        + [if last.id == chatId then last.(messagesCount := v) else last]
  }

  /** `UPDATE applications SET chats_count = v WHERE id = applicationId`. */
  function SetChatsCount(apps: seq<AppRow>, applicationId: int, v: int): (r: seq<AppRow>)
    ensures |r| == |apps|
    ensures forall i :: 0 <= i < |apps| ==>
      r[i] == if apps[i].id == applicationId then apps[i].(chatsCount := v) else apps[i]
  {
    if apps == [] then []
    else
      var last := apps[|apps| - 1];
      SetChatsCount(apps[..|apps| - 1], applicationId, v)
        + [if last.id == applicationId then last.(chatsCount := v) else last]
  }

  /**
   * The `counter_cache` increment of an application's `chats_count`: one more
   * for the application with that id, and no change when there is none.
   */
  function BumpChatsCount(apps: seq<AppRow>, applicationId: int): seq<AppRow> {
    match FindApplication(apps, applicationId)
    case None => apps
    case Some(app) => SetChatsCount(apps, applicationId, app.chatsCount + 1)
  }

  /** The `counter_cache` increment of a chat's `messages_count`. */
  function BumpMessagesCount(chats: seq<ChatRow>, chatId: int): seq<ChatRow> {
    match FindChatById(chats, chatId)
    case None => chats
    case Some(chat) => SetMessagesCount(chats, chatId, chat.messagesCount + 1)
  }

  /**
   * With unique ids, the increment raises the application's count by one and
   * leaves every other row, and every other column, alone.
   */
  lemma BumpChatsCountByOne(apps: seq<AppRow>, applicationId: int, i: int)
    requires forall j, k :: 0 <= j < k < |apps| ==> apps[j].id != apps[k].id
    requires 0 <= i < |apps|
    ensures |BumpChatsCount(apps, applicationId)| == |apps|
    ensures apps[i].id == applicationId ==>
      BumpChatsCount(apps, applicationId)[i] == apps[i].(chatsCount := apps[i].chatsCount + 1)
    ensures apps[i].id != applicationId ==> BumpChatsCount(apps, applicationId)[i] == apps[i]
  {
    if apps[i].id == applicationId {
      var app := FindApplication(apps, applicationId).value;
      var k :| 0 <= k < |apps| && apps[k] == app;
      assert k == i;
    }
  }

  /** The same for a chat's `messages_count`. */
  lemma BumpMessagesCountByOne(chats: seq<ChatRow>, chatId: int, i: int)
    requires forall j, k :: 0 <= j < k < |chats| ==> chats[j].id != chats[k].id
    requires 0 <= i < |chats|
    ensures |BumpMessagesCount(chats, chatId)| == |chats|
    ensures chats[i].id == chatId ==>
      BumpMessagesCount(chats, chatId)[i] == chats[i].(messagesCount := chats[i].messagesCount + 1)
    ensures chats[i].id != chatId ==> BumpMessagesCount(chats, chatId)[i] == chats[i]
  {
    if chats[i].id == chatId {
      var chat := FindChatById(chats, chatId).value;
      var k :| 0 <= k < |chats| && chats[k] == chat;
      assert k == i;
    }
  }

  /** Writing a count column leaves every scope's numbers as they were. */
  lemma {:induction false} SetMessagesCountKeepsNumbers(chats: seq<ChatRow>, chatId: int, v: int, a: int)
    ensures ChatNumbers(SetMessagesCount(chats, chatId, v), a) == ChatNumbers(chats, a)
  {
    if chats != [] {
      var p := chats[..|chats| - 1];
      var r := SetMessagesCount(chats, chatId, v);
      assert r[..|r| - 1] == SetMessagesCount(p, chatId, v);
      SetMessagesCountKeepsNumbers(p, chatId, v, a);
    }
  }

  /** The primary key of `applications`: ids strictly increase in table order and stay below the next id. */
  ghost predicate ApplicationIdsBelow(apps: seq<AppRow>, next: int) {
    && (forall i, j :: 0 <= i < j < |apps| ==> apps[i].id < apps[j].id)
    && (forall i :: 0 <= i < |apps| ==> apps[i].id < next)
  }

  /** The primary key of `chats`. */
  ghost predicate ChatIdsBelow(chats: seq<ChatRow>, next: int) {
    && (forall i, j :: 0 <= i < j < |chats| ==> chats[i].id < chats[j].id)
    && (forall i :: 0 <= i < |chats| ==> chats[i].id < next)
  }

  /** The primary key of `messages`. */
  ghost predicate MessageIdsBelow(messages: seq<MessageRow>, next: int) {
    && (forall i, j :: 0 <= i < j < |messages| ==> messages[i].id < messages[j].id)
    && (forall i :: 0 <= i < |messages| ==> messages[i].id < next)
  }

  ghost predicate UniqueTokens(apps: seq<AppRow>) {
    forall i, j :: 0 <= i < j < |apps| ==> apps[i].token != apps[j].token
  }

  ghost predicate UniqueChatNumbers(chats: seq<ChatRow>) {
    forall a :: Distinct(ChatNumbers(chats, a))
  }

  ghost predicate UniqueMessageNumbers(messages: seq<MessageRow>) {
    forall c :: Distinct(MessageNumbers(messages, c))
  }

  /** Appending a chat whose number is free in its application keeps numbers unique. */
  lemma AppendKeepsChatNumbersUnique(chats: seq<ChatRow>, row: ChatRow)
    requires UniqueChatNumbers(chats)
    requires row.number !in ChatNumbers(chats, row.applicationId)
    ensures UniqueChatNumbers(chats + [row])
  {
    forall a ensures Distinct(ChatNumbers(chats + [row], a)) {
      ChatNumbersAppend(chats, row, a);
    }
  }

  /** Appending a message whose number is free in its chat keeps numbers unique. */
  lemma AppendKeepsMessageNumbersUnique(messages: seq<MessageRow>, row: MessageRow)
    requires UniqueMessageNumbers(messages)
    requires row.number !in MessageNumbers(messages, row.chatId)
    ensures UniqueMessageNumbers(messages + [row])
  {
    forall c ensures Distinct(MessageNumbers(messages + [row], c)) {
      MessageNumbersAppend(messages, row, c);
    }
  }

  // ---------------------------------------------------------------------------
  // Lookups

  /** `Application.find_by(token:)`. */
  function FindApplicationByToken(apps: seq<AppRow>, token: string): (r: Option<AppRow>)
    ensures r.Some? ==> r.value in apps && r.value.token == token
    ensures r.None? <==> forall i :: 0 <= i < |apps| ==> apps[i].token != token
  {
    if apps == [] then None
    else if apps[0].token == token then Some(apps[0])
    else FindApplicationByToken(apps[1..], token)
  }

  /** `Application.find(id)`. */
  function FindApplication(apps: seq<AppRow>, id: int): (r: Option<AppRow>)
    ensures r.Some? ==> r.value in apps && r.value.id == id
    ensures r.None? <==> forall i :: 0 <= i < |apps| ==> apps[i].id != id
  {
    if apps == [] then None
    else if apps[0].id == id then Some(apps[0])
    else FindApplication(apps[1..], id)
  }

  /** `application.chats.find_by(number:)`. */
  function FindChat(chats: seq<ChatRow>, applicationId: int, number: int): (r: Option<ChatRow>)
    ensures r.Some? ==> r.value in chats && r.value.applicationId == applicationId && r.value.number == number
    ensures r.None? <==> number !in ChatNumbers(chats, applicationId)
  {
    if chats == [] then None
    else
      var last := chats[|chats| - 1];
      var p := FindChat(chats[..|chats| - 1], applicationId, number);
      if p.Some? then p
      else if last.applicationId == applicationId && last.number == number then Some(last)
      else None
  }

  /** `chat.messages.find_by(number:)`. */
  function FindMessageByNumber(messages: seq<MessageRow>, chatId: int, number: int): (r: Option<MessageRow>)
    ensures r.Some? ==> r.value in messages && r.value.chatId == chatId && r.value.number == number
    ensures r.None? <==> number !in MessageNumbers(messages, chatId)
  {
    if messages == [] then None
    else
      var last := messages[|messages| - 1];
      var p := FindMessageByNumber(messages[..|messages| - 1], chatId, number);
      if p.Some? then p
      else if last.chatId == chatId && last.number == number then Some(last)
      else None
  }

  /** `Chat.find(id)`. */
  function FindChatById(chats: seq<ChatRow>, id: int): (r: Option<ChatRow>)
    ensures r.Some? ==> r.value in chats && r.value.id == id
    ensures r.None? <==> forall i :: 0 <= i < |chats| ==> chats[i].id != id
  {
    if chats == [] then None
    else if chats[0].id == id then Some(chats[0])
    else FindChatById(chats[1..], id)
  }

  /** `Message.find(id)`. */
  function FindMessage(messages: seq<MessageRow>, id: int): (r: Option<MessageRow>)
    ensures r.Some? ==> r.value in messages && r.value.id == id
    ensures r.None? <==> forall i :: 0 <= i < |messages| ==> messages[i].id != id
  {
    if messages == [] then None
    else if messages[0].id == id then Some(messages[0])
    else FindMessage(messages[1..], id)
  }

  /** The rows of one application's chats, in table order. */
  function ChatsOf(chats: seq<ChatRow>, applicationId: int): (rs: seq<ChatRow>)
    ensures forall r :: r in rs ==> r in chats && r.applicationId == applicationId
    ensures forall r :: r in chats && r.applicationId == applicationId ==> r in rs
    ensures |rs| == |ChatNumbers(chats, applicationId)|
    ensures forall i :: 0 <= i < |rs| ==> rs[i].number == ChatNumbers(chats, applicationId)[i]
  {
    if chats == [] then []
    else
      var last := chats[|chats| - 1];
      assert chats == chats[..|chats| - 1] + [last];
      ChatsOf(chats[..|chats| - 1], applicationId)
        + (if last.applicationId == applicationId then [last] else [])
  }

  /** A number is among an application's chat numbers exactly when one of its chats has it. */
  lemma ChatNumbersMembers(chats: seq<ChatRow>, applicationId: int, x: int)
    ensures x in ChatNumbers(chats, applicationId) <==>
      exists r :: r in chats && r.applicationId == applicationId && r.number == x
  {
    var rs, ns := ChatsOf(chats, applicationId), ChatNumbers(chats, applicationId);
    if x in ns {
      var i :| 0 <= i < |ns| && ns[i] == x;
      assert rs[i] in rs;
    }
    if r :| r in chats && r.applicationId == applicationId && r.number == x {
      var i :| 0 <= i < |rs| && rs[i] == r;
      assert ns[i] == x;
    }
  }

  /** A number is among a chat's message numbers exactly when one of its messages has it. */
  lemma MessageNumbersMembers(messages: seq<MessageRow>, chatId: int, x: int)
    ensures x in MessageNumbers(messages, chatId) <==>
      exists r :: r in messages && r.chatId == chatId && r.number == x
  {
    var rs, ns := MessagesOf(messages, chatId), MessageNumbers(messages, chatId);
    if x in ns {
      var i :| 0 <= i < |ns| && ns[i] == x;
      assert rs[i] in rs;
    }
    if r :| r in messages && r.chatId == chatId && r.number == x {
      var i :| 0 <= i < |rs| && rs[i] == r;
      assert ns[i] == x;
    }
  }

  /** The rows of one chat's messages, in table order. */
  function MessagesOf(messages: seq<MessageRow>, chatId: int): (rs: seq<MessageRow>)
    ensures forall r :: r in rs ==> r in messages && r.chatId == chatId
    ensures forall r :: r in messages && r.chatId == chatId ==> r in rs
    ensures |rs| == |MessageNumbers(messages, chatId)|
    ensures forall i :: 0 <= i < |rs| ==> rs[i].number == MessageNumbers(messages, chatId)[i]
  {
    if messages == [] then []
    else
      var last := messages[|messages| - 1];
      assert messages == messages[..|messages| - 1] + [last];
      MessagesOf(messages[..|messages| - 1], chatId)
        + (if last.chatId == chatId then [last] else [])
  }

  // ---------------------------------------------------------------------------
  // The store

  class Db {
    var applications: seq<AppRow>
    var chats: seq<ChatRow>
    var messages: seq<MessageRow>
    var nextApplicationId: int
    var nextChatId: int
    var nextMessageId: int

    /** The primary keys and the unique indexes hold. */
    ghost predicate Valid()
      reads this
    {
      && ApplicationIdsBelow(applications, nextApplicationId)
      && ChatIdsBelow(chats, nextChatId)
      && MessageIdsBelow(messages, nextMessageId)
      && UniqueTokens(applications) && UniqueChatNumbers(chats) && UniqueMessageNumbers(messages)
    }

    constructor ()
      ensures Valid()
      ensures applications == [] && chats == [] && messages == []
      ensures nextApplicationId == 1 && nextChatId == 1 && nextMessageId == 1
    {
      applications, chats, messages := [], [], [];
      nextApplicationId, nextChatId, nextMessageId := 1, 1, 1;
    }

    /** `INSERT INTO applications`, rejected by the unique index on `token`. */
    method InsertApplication(token: string, name: string, now: Timestamp) returns (id: Option<int>)
      requires Valid()
      modifies this
      ensures Valid()
      ensures id.None? <==> FindApplicationByToken(old(applications), token).Some?
      ensures id.None? ==> unchanged(this)
      ensures id.Some? ==>
        && id.value == old(nextApplicationId)
        && applications == old(applications) + [AppRow(id.value, token, name, 0, now)]
        && nextApplicationId == old(nextApplicationId) + 1
        && chats == old(chats) && messages == old(messages)
        && nextChatId == old(nextChatId) && nextMessageId == old(nextMessageId)
    {
      if FindApplicationByToken(applications, token).Some? {
        id := None;
      } else {
        id := Some(nextApplicationId);
        applications := applications + [AppRow(nextApplicationId, token, name, 0, now)];
        nextApplicationId := nextApplicationId + 1;
      }
    }

    /** `INSERT INTO chats` with `messages_count` 0, rejected by the unique `(application_id, number)` index. */
    method InsertChat(applicationId: int, number: int, now: Timestamp) returns (id: Option<int>)
      requires Valid()
      modifies this
      ensures Valid()
      ensures id.None? <==> number in ChatNumbers(old(chats), applicationId)
      ensures id.None? ==> unchanged(this)
      ensures id.Some? ==>
        && id.value == old(nextChatId)
        && chats == old(chats) + [ChatRow(id.value, applicationId, number, 0, now, now)]
        && nextChatId == old(nextChatId) + 1
        && applications == old(applications) && messages == old(messages)
        && nextApplicationId == old(nextApplicationId) && nextMessageId == old(nextMessageId)
    {
      if number in ChatNumbers(chats, applicationId) {
        id := None;
      } else {
        var row := ChatRow(nextChatId, applicationId, number, 0, now, now);
        AppendKeepsChatNumbersUnique(chats, row);
        id := Some(nextChatId);
        chats := chats + [row];
        nextChatId := nextChatId + 1;
      }
    }

    /** `INSERT INTO messages`, rejected by the unique `(chat_id, number)` index. */
    method InsertMessage(chatId: int, number: int, body: string, now: Timestamp) returns (id: Option<int>)
      requires Valid()
      modifies this
      ensures Valid()
      ensures id.None? <==> number in MessageNumbers(old(messages), chatId)
      ensures id.None? ==> unchanged(this)
      ensures id.Some? ==>
        && id.value == old(nextMessageId)
        && messages == old(messages) + [MessageRow(id.value, chatId, number, body, now, now)]
        && nextMessageId == old(nextMessageId) + 1
        && applications == old(applications) && chats == old(chats)
        && nextApplicationId == old(nextApplicationId) && nextChatId == old(nextChatId)
    {
      if number in MessageNumbers(messages, chatId) {
        id := None;
      } else {
        var row := MessageRow(nextMessageId, chatId, number, body, now, now);
        AppendKeepsMessageNumbersUnique(messages, row);
        id := Some(nextMessageId);
        messages := messages + [row];
        nextMessageId := nextMessageId + 1;
      }
    }

    /** `update_column(:chats_count, v)`: no validation, no callback, one column of one row. */
    method UpdateChatsCount(applicationId: int, v: int)
      requires Valid()
      modifies this`applications
      ensures Valid()
      ensures applications == SetChatsCount(old(applications), applicationId, v)
    {
      applications := SetChatsCount(applications, applicationId, v);
    }

    /** `update_column(:messages_count, v)`. */
    method UpdateMessagesCount(chatId: int, v: int)
      requires Valid()
      modifies this`chats
      ensures Valid()
      ensures chats == SetMessagesCount(old(chats), chatId, v)
    {
      forall a ensures ChatNumbers(SetMessagesCount(chats, chatId, v), a) == ChatNumbers(chats, a) {
        SetMessagesCountKeepsNumbers(chats, chatId, v, a);
      }
      chats := SetMessagesCount(chats, chatId, v);
    }

    /** `counter_cache: true` on `belongs_to :application`: `chats_count = chats_count + 1`. */
    method IncrementChatsCount(applicationId: int)
      requires Valid()
      modifies this`applications
      ensures Valid()
      ensures applications == BumpChatsCount(old(applications), applicationId)
    {
      var app := FindApplication(applications, applicationId);
      if app.Some? {
        UpdateChatsCount(applicationId, app.value.chatsCount + 1);
      }
    }

    /** `counter_cache: true` on `belongs_to :chat`: `messages_count = messages_count + 1`. */
    method IncrementMessagesCount(chatId: int)
      requires Valid()
      modifies this`chats
      ensures Valid()
      ensures chats == BumpMessagesCount(old(chats), chatId)
    {
      var chat := FindChatById(chats, chatId);
      if chat.Some? {
        UpdateMessagesCount(chatId, chat.value.messagesCount + 1);
      }
    }
  }
}
