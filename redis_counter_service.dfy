/**
 * The Ruby allocator (`RedisCounterService`). Chat numbers come from
 * `INCR app:<token>:chat_counter` and message numbers from
 * `INCR chat:<chat id>:message_counter`. When the command raises, the number is
 * computed from the rows instead and the counter is left alone; `NullRedis`
 * raises nothing, so under it the allocator answers nil.
 */
module RedisCounterService {
  import opened Common
  import opened Text
  import opened Tables
  import opened Redis

  function ChatCounterKey(token: string): string {
    "app:" + token + ":chat_counter"
  }

  function MessageCounterKey(chatId: int): string {
    "chat:" + IntToString(chatId) + ":message_counter"
  }

  /** Each application has its own chat counter. */
  lemma ChatCounterKeyInjective(t1: string, t2: string)
    ensures ChatCounterKey(t1) == ChatCounterKey(t2) ==> t1 == t2
  {
    if ChatCounterKey(t1) == ChatCounterKey(t2) {
      var k := ChatCounterKey(t1);
      assert t1 == k[4..|k| - 13];
      assert t2 == ChatCounterKey(t2)[4..|k| - 13];
    }
  }

  /** Each chat has its own message counter. */
  lemma MessageCounterKeyInjective(c1: int, c2: int)
    ensures MessageCounterKey(c1) == MessageCounterKey(c2) ==> c1 == c2
  {
    if MessageCounterKey(c1) == MessageCounterKey(c2) {
      var k := MessageCounterKey(c1);
      assert IntToString(c1) == k[5..|k| - 16];
      assert IntToString(c2) == MessageCounterKey(c2)[5..|k| - 16];
      IntToStringInjective(c1, c2);
    }
  }

  /** No chat counter is a message counter. */
  lemma CounterKindsDisjoint(token: string, chatId: int)
    ensures ChatCounterKey(token) != MessageCounterKey(chatId)
  {
    assert ChatCounterKey(token)[0] == 'a';
    assert MessageCounterKey(chatId)[0] == 'c';
  }

  /** What one allocation hands to the controller. */
  datatype Allocation =
    | Issued(n: int)        // a number
    | NilNumber             // nil, which `set_number` then fills in
    | RecordNotFound        // the fallback's `find_by!` / `find` raised

  /**
   * The fallback `application.chats.maximum(:number).to_i + 1` after
   * `Application.find_by!(token:)`: a number above every chat number of the
   * application, 1 for an application without chats.
   */
  function ChatNumberFallback(apps: seq<AppRow>, chats: seq<ChatRow>, token: string): (r: Allocation)
    ensures !r.NilNumber?
    ensures r.RecordNotFound? <==> FindApplicationByToken(apps, token).None?
    ensures r.Issued? ==>
      && var ns := ChatNumbers(chats, FindApplicationByToken(apps, token).value.id);
      && r.n !in ns
      && (ns == [] ==> r.n == 1)
      && (ns != [] ==> r.n - 1 in ns)
  {
    match FindApplicationByToken(apps, token)
    case None => RecordNotFound
    case Some(app) => Issued(MaxPlusOne(ChatNumbers(chats, app.id)))
  }

  /** The fallback of `next_message_number`: `Chat.find`, then max + 1 over its messages. */
  function MessageNumberFallback(chats: seq<ChatRow>, messages: seq<MessageRow>, chatId: int): (r: Allocation)
    ensures !r.NilNumber?
    ensures r.RecordNotFound? <==> FindChatById(chats, chatId).None?
    ensures r.Issued? ==>
      && var ns := MessageNumbers(messages, chatId);
      && r.n !in ns
      && (ns == [] ==> r.n == 1)
      && (ns != [] ==> r.n - 1 in ns)
  {
    match FindChatById(chats, chatId)
    case None => RecordNotFound
    case Some(_) => Issued(MaxPlusOne(MessageNumbers(messages, chatId)))
  }

  /** `next_chat_number`. */
  method NextChatNumber(h: Handle, s: Server, db: Db, token: string) returns (r: Allocation)
    modifies s`data
    ensures ModeOf(h, s.up) == Live ==>
      && r == Issued(Counter(old(s.data), ChatCounterKey(token)) + 1)
      && s.data == AfterIncr(old(s.data), ChatCounterKey(token))
    ensures ModeOf(h, s.up) == Null ==> r == NilNumber && s.data == old(s.data)
    ensures ModeOf(h, s.up) == Failing ==>
      r == ChatNumberFallback(db.applications, db.chats, token) && s.data == old(s.data)
  {
    var reply := Incr(h, s, ChatCounterKey(token));
    match reply {
      case Int(n) => r := Issued(n);
      case Raised => r := ChatNumberFallback(db.applications, db.chats, token);
      case _ => r := NilNumber;
    }
  }

  /** `next_message_number`. */
  method NextMessageNumber(h: Handle, s: Server, db: Db, chatId: int) returns (r: Allocation)
    modifies s`data
    ensures ModeOf(h, s.up) == Live ==>
      && r == Issued(Counter(old(s.data), MessageCounterKey(chatId)) + 1)
      && s.data == AfterIncr(old(s.data), MessageCounterKey(chatId))
    ensures ModeOf(h, s.up) == Null ==> r == NilNumber && s.data == old(s.data)
    ensures ModeOf(h, s.up) == Failing ==>
      r == MessageNumberFallback(db.chats, db.messages, chatId) && s.data == old(s.data)
  {
    var reply := Incr(h, s, MessageCounterKey(chatId));
    match reply {
      case Int(n) => r := Issued(n);
      case Raised => r := MessageNumberFallback(db.chats, db.messages, chatId);
      case _ => r := NilNumber;
    }
  }

  /** How a sync ended: the count it returned, or the exception that escaped it. */
  datatype SyncResult = Synced(count: nat) | SyncNotFound | SyncRaised

  /**
   * `sync_chat_counter`: set the counter to the application's number of chats
   * and return that count. Nothing rescues here, so a missing application or a
   * raising store propagates; `NullRedis` ignores the SET.
   */
  method SyncChatCounter(h: Handle, s: Server, db: Db, token: string) returns (r: SyncResult)
    modifies s`data
    ensures FindApplicationByToken(db.applications, token).None? ==> r == SyncNotFound && s.data == old(s.data)
    ensures FindApplicationByToken(db.applications, token).Some? ==>
      var count := ChatCount(db.chats, FindApplicationByToken(db.applications, token).value.id);
      && (ModeOf(h, s.up) == Live ==> r == Synced(count) && s.data == old(s.data)[ChatCounterKey(token) := count])
      && (ModeOf(h, s.up) == Null ==> r == Synced(count) && s.data == old(s.data))
      && (ModeOf(h, s.up) == Failing ==> r == SyncRaised && s.data == old(s.data))
  {
    var app := FindApplicationByToken(db.applications, token);
    if app.None? {
      return SyncNotFound;
    }
    var count := ChatCount(db.chats, app.value.id);
    var reply := Set(h, s, ChatCounterKey(token), count);
    r := if reply.Raised? then SyncRaised else Synced(count);
  }

  /** `sync_message_counter`: the same for one chat's messages. */
  method SyncMessageCounter(h: Handle, s: Server, db: Db, chatId: int) returns (r: SyncResult)
    modifies s`data
    ensures FindChatById(db.chats, chatId).None? ==> r == SyncNotFound && s.data == old(s.data)
    ensures FindChatById(db.chats, chatId).Some? ==>
      var count := MessageCount(db.messages, chatId);
      && (ModeOf(h, s.up) == Live ==> r == Synced(count) && s.data == old(s.data)[MessageCounterKey(chatId) := count])
      && (ModeOf(h, s.up) == Null ==> r == Synced(count) && s.data == old(s.data))
      && (ModeOf(h, s.up) == Failing ==> r == SyncRaised && s.data == old(s.data))
  {
    var chat := FindChatById(db.chats, chatId);
    if chat.None? {
      return SyncNotFound;
    }
    var count := MessageCount(db.messages, chatId);
    var reply := Set(h, s, MessageCounterKey(chatId), count);
    r := if reply.Raised? then SyncRaised else Synced(count);
  }

  // ---------------------------------------------------------------------------
  // What a sync leaves behind for the next allocation

  /**
   * When a scope's numbers are distinct and exactly 1..n, the count a sync
   * writes is n, and the next INCR issues n + 1, which is free.
   */
  lemma DenseScopeSyncThenNext(ns: seq<int>, n: nat, data: map<string, int>, key: string)
    requires Distinct(ns)
    requires (set x | x in ns) == Range(n)
    ensures |ns| == n
    ensures Counter(AfterIncr(data[key := |ns|], key), key) == n + 1
    ensures n + 1 !in ns
  {
    DenseScopeHasNRows(ns, n);
    assert n + 1 !in Range(n);
    assert forall x :: x in ns ==> x in Range(n);
  }

  /**
   * With a gap below the top, the count is below the largest number and the next
   * INCR after a sync re-issues a number already taken: chats 1, 2 and 4 of one
   * application give a count of 3, and the next allocation is 4.
   */
  lemma SyncByCountReissuesTakenNumber()
    ensures
      var chats := [ChatRow(1, 7, 1, 0, 0, 0), ChatRow(2, 7, 2, 0, 0, 0), ChatRow(3, 7, 4, 0, 0, 0)];
      var key := ChatCounterKey("t");
      && UniqueChatNumbers(chats)
      && ChatCount(chats, 7) == 3
      && Counter(AfterIncr(map[key := ChatCount(chats, 7)], key), key) in ChatNumbers(chats, 7)
  {
    var chats := [ChatRow(1, 7, 1, 0, 0, 0), ChatRow(2, 7, 2, 0, 0, 0), ChatRow(3, 7, 4, 0, 0, 0)];
    assert chats[..2] == [ChatRow(1, 7, 1, 0, 0, 0), ChatRow(2, 7, 2, 0, 0, 0)];
    assert chats[..1] == [ChatRow(1, 7, 1, 0, 0, 0)];
    assert ChatNumbers(chats[..1], 7) == [1];
    assert ChatNumbers(chats[..2], 7) == [1, 2];
    forall a ensures Distinct(ChatNumbers(chats, a)) {
      if a != 7 {
        assert ChatNumbers(chats[..1], a) == [];
        assert ChatNumbers(chats[..2], a) == [];
      }
    }
  }

  /**
   * The same defect on a chat's messages, where a gap does arise: a create
   * rejected for its body still takes a number. Messages 1, 2 and 4 of chat 5
   * (3 was taken by the rejected create) give a count of 3, and the next
   * allocation after the sync is 4.
   */
  lemma SyncByCountReissuesTakenMessageNumber()
    ensures
      var messages := [MessageRow(1, 5, 1, "a", 0, 0), MessageRow(2, 5, 2, "b", 0, 0), MessageRow(3, 5, 4, "c", 0, 0)];
      var key := MessageCounterKey(5);
      && UniqueMessageNumbers(messages)
      && MessageCount(messages, 5) == 3
      && Counter(AfterIncr(map[key := MessageCount(messages, 5)], key), key) in MessageNumbers(messages, 5)
  {
    var messages := [MessageRow(1, 5, 1, "a", 0, 0), MessageRow(2, 5, 2, "b", 0, 0), MessageRow(3, 5, 4, "c", 0, 0)];
    assert messages[..2] == [MessageRow(1, 5, 1, "a", 0, 0), MessageRow(2, 5, 2, "b", 0, 0)];
    assert messages[..1] == [MessageRow(1, 5, 1, "a", 0, 0)];
    assert MessageNumbers(messages[..1], 5) == [1];
    assert MessageNumbers(messages[..2], 5) == [1, 2];
    forall c ensures Distinct(MessageNumbers(messages, c)) {
      if c != 5 {
        assert MessageNumbers(messages[..1], c) == [];
        assert MessageNumbers(messages[..2], c) == [];
      }
    }
  }

  /**
   * The value a sync evidently means to restore: `maximum(:number).to_i`, the
   * largest number in the scope (0 for an empty scope). The next INCR after it
   * is always free, gaps or no gaps, and in a dense scope 1..n it is n, the
   * same as the count.
   */
  function SyncTarget(ns: seq<int>): (v: int)
    ensures v + 1 !in ns
    ensures ns == [] ==> v == 0
  {
    MaxPlusOne(ns) - 1
  }

  lemma SyncTargetOfDenseScope(ns: seq<int>, n: nat)
    requires Distinct(ns)
    requires (set x | x in ns) == Range(n)
    ensures SyncTarget(ns) == n == |ns|
  {
    DenseScopeHasNRows(ns, n);
    if n >= 1 {
      DenseScopeMax(ns, n);
    }
  }

  /** `sync_chat_counter` with the counter restored to the largest chat number. */
  method SyncChatCounterToMax(h: Handle, s: Server, db: Db, token: string) returns (r: SyncResult)
    modifies s`data
    ensures FindApplicationByToken(db.applications, token).None? ==> r == SyncNotFound && s.data == old(s.data)
    ensures FindApplicationByToken(db.applications, token).Some? ==>
      var ns := ChatNumbers(db.chats, FindApplicationByToken(db.applications, token).value.id);
      && (ModeOf(h, s.up) == Live ==>
            && s.data == old(s.data)[ChatCounterKey(token) := SyncTarget(ns)]
            && Counter(AfterIncr(s.data, ChatCounterKey(token)), ChatCounterKey(token)) !in ns)
      && (ModeOf(h, s.up) != Live ==> s.data == old(s.data))
      && (ModeOf(h, s.up) == Failing <==> r == SyncRaised)
  {
    var app := FindApplicationByToken(db.applications, token);
    if app.None? {
      return SyncNotFound;
    }
    var target := SyncTarget(ChatNumbers(db.chats, app.value.id));
    var reply := Set(h, s, ChatCounterKey(token), target);
    r := if reply.Raised? then SyncRaised else Synced(ChatCount(db.chats, app.value.id));
  }

  /** `sync_message_counter` with the counter restored to the largest message number. */
  method SyncMessageCounterToMax(h: Handle, s: Server, db: Db, chatId: int) returns (r: SyncResult)
    modifies s`data
    ensures FindChatById(db.chats, chatId).None? ==> r == SyncNotFound && s.data == old(s.data)
    ensures FindChatById(db.chats, chatId).Some? ==>
      var ns := MessageNumbers(db.messages, chatId);
      && (ModeOf(h, s.up) == Live ==>
            && s.data == old(s.data)[MessageCounterKey(chatId) := SyncTarget(ns)]
            && Counter(AfterIncr(s.data, MessageCounterKey(chatId)), MessageCounterKey(chatId)) !in ns)
      && (ModeOf(h, s.up) != Live ==> s.data == old(s.data))
      && (ModeOf(h, s.up) == Failing <==> r == SyncRaised)
  {
    var chat := FindChatById(db.chats, chatId);
    if chat.None? {
      return SyncNotFound;
    }
    var target := SyncTarget(MessageNumbers(db.messages, chatId));
    var reply := Set(h, s, MessageCounterKey(chatId), target);
    r := if reply.Raised? then SyncRaised else Synced(MessageCount(db.messages, chatId));
  }
}
