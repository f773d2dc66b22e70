/**
 * `UpdateMessageCountWorker`: copies a chat's message counter from Redis into
 * its `messages_count` column, with the same error handling as the chat
 * count worker.
 */
module UpdateMessageCountWorker {
  import opened Common
  import opened Tables
  import opened Redis
  import opened Jobs
  import RedisCounterService
  import UpdateChatCountWorker

  /** `perform(chat_id)`. */
  method Perform(h: Handle, s: Server, db: Db, chatId: int) returns (o: Outcome)
    requires db.Valid()
    modifies db`chats
    ensures db.Valid()
    ensures FindChatById(old(db.chats), chatId).None? ==> o == Skipped && db.chats == old(db.chats)
    ensures FindChatById(old(db.chats), chatId).Some? ==>
      var key := RedisCounterService.MessageCounterKey(chatId);
      && (ModeOf(h, s.up) == Failing ==> o == Failed && db.chats == old(db.chats))
      && (ModeOf(h, s.up) != Failing ==>
            o == Completed
            && db.chats == SetMessagesCount(old(db.chats), chatId, UpdateChatCountWorker.CountRead(h, s.up, s.data, key)))
  {
    var chat := FindChatById(db.chats, chatId);
    if chat.None? {
      return Skipped;
    }
    var reply := Get(h, s, RedisCounterService.MessageCounterKey(chat.value.id));
    if reply.Raised? {
      return Failed;
    }
    db.UpdateMessagesCount(chatId, ToI(reply));
    o := Completed;
  }

  /** Idempotent when the counter is unchanged between runs. */
  lemma {:induction false} ReconcileIdempotent(chats: seq<ChatRow>, chatId: int, v: int)
    ensures SetMessagesCount(SetMessagesCount(chats, chatId, v), chatId, v) == SetMessagesCount(chats, chatId, v)
  {
    var once := SetMessagesCount(chats, chatId, v);
    var twice := SetMessagesCount(once, chatId, v);
    assert forall i :: 0 <= i < |chats| ==> twice[i] == once[i];
  }

  /** Only the one chat's `messages_count` moves: every other column of every row is kept. */
  lemma ReconcileTouchesOneColumn(chats: seq<ChatRow>, chatId: int, v: int)
    ensures forall i :: 0 <= i < |chats| ==>
      && SetMessagesCount(chats, chatId, v)[i].(messagesCount := chats[i].messagesCount) == chats[i]
      && (chats[i].id != chatId ==> SetMessagesCount(chats, chatId, v)[i] == chats[i])
  {
  }
}
