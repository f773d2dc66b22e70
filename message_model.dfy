/**
 * The `Message` record: `set_number` before validation, the uniqueness of the
 * number within its chat, the body rules, `counter_cache` on the chat, two
 * `after_create` hooks that queue jobs, and the document it is indexed as.
 * `Elasticsearch::Model::Callbacks` also indexes the record after the commit;
 * when that raises, the exception leaves `save` although the row is stored.
 */
module MessageModel {
  import opened Common
  import opened Text
  import opened Tables
  import opened Jobs
  import opened SearchIndex

  /** The `maximum:` of the body's length validation, in characters. */
  const MaxBodyLength: nat := 5000

  /** The numbers `set_number` sees: those of the chat's messages, or None when the chat is missing. */
  function NumberScope(chats: seq<ChatRow>, messages: seq<MessageRow>, chatId: int): Option<seq<int>> {
    if FindChatById(chats, chatId).Some? then Some(MessageNumbers(messages, chatId)) else None
  }

  /**
   * The body's full messages: presence (`blank?`), then the length in
   * characters between 1 and `MaxBodyLength`. A nil body has length 0 for the
   * length rule, so it fails both.
   */
  function BodyErrors(body: Option<string>): (errors: seq<string>)
    ensures errors == [] <==> !Blank(body) && 1 <= |body.value| <= MaxBodyLength
    ensures "Body can't be blank" in errors <==> Blank(body)
    ensures "Body is too short (minimum is 1 character)" in errors <==> body.None? || body.value == []
    ensures "Body is too long (maximum is 5000 characters)" in errors <==> body.Some? && |body.value| > MaxBodyLength
  {
    var length := if body.None? then 0 else |body.value|;
    (if Blank(body) then ["Body can't be blank"] else [])
    + (if length < 1 then ["Body is too short (minimum is 1 character)"] else [])
    + (if length > MaxBodyLength then ["Body is too long (maximum is 5000 characters)"] else [])
  }

  /** The body's messages are all about the body: none is a message of another attribute. */
  lemma BodyErrorsNameTheBody(body: Option<string>)
    ensures "Chat must exist" !in BodyErrors(body)
    ensures "Number has already been taken" !in BodyErrors(body)
  {
  }

  /**
   * All validations in declaration order: the required `belongs_to :chat`, the
   * number's uniqueness in its chat, then the body.
   */
  function Errors(chats: seq<ChatRow>, messages: seq<MessageRow>, chatId: int, number: int,
                  body: Option<string>): (errors: seq<string>)
    ensures errors == [] <==>
      && FindChatById(chats, chatId).Some?
      && number !in MessageNumbers(messages, chatId)
      && BodyErrors(body) == []
    ensures "Chat must exist" in errors <==> FindChatById(chats, chatId).None?
    ensures "Number has already been taken" in errors <==> number in MessageNumbers(messages, chatId)
  {
    BodyErrorsNameTheBody(body);
    (if FindChatById(chats, chatId).None? then ["Chat must exist"] else [])
    + (if number in MessageNumbers(messages, chatId) then ["Number has already been taken"] else [])
    + BodyErrors(body)
  }

  /** `as_indexed_json`: id, number, body, chat id and creation time, and nothing else. */
  function AsIndexedJson(m: MessageRow): (d: Doc)
    ensures d.id == m.id && d.number == m.number && d.body == m.body
    ensures d.chatId == m.chatId && d.createdAt == m.createdAt
  {
    Doc(m.id, m.number, m.body, m.chatId, m.createdAt)
  }

  /** The document does not carry `updated_at`: rows that differ only there index alike. */
  lemma AsIndexedJsonIgnoresUpdatedAt(m: MessageRow, t: Timestamp)
    ensures AsIndexedJson(m.(updatedAt := t)) == AsIndexedJson(m)
  {
  }

  /** `index_to_elasticsearch_async`: `IndexMessageWorker.perform_async(id)`, errors rescued. */
  method IndexToElasticsearchAsync(q: Queue, messageId: int)
    modifies q`jobs
    ensures q.jobs == old(q.jobs) + (if q.up then [IndexMessage(messageId)] else [])
  {
    var _ := q.Push(IndexMessage(messageId));
  }

  /** `schedule_counter_update`: `UpdateMessageCountWorker.perform_in(5.minutes, chat_id)`, errors rescued. */
  method ScheduleCounterUpdate(q: Queue, chatId: int)
    modifies q`jobs
    ensures q.jobs == old(q.jobs) + (if q.up then [UpdateMessageCount(chatId, ScheduleDelaySeconds)] else [])
  {
    var _ := q.Push(UpdateMessageCount(chatId, ScheduleDelaySeconds));
  }

  /**
   * How `save` ended: stored, rejected by validation, or stored and then left by
   * the exception of the after-commit indexing.
   */
  datatype SaveResult = Saved(row: MessageRow) | Invalid(errors: seq<string>) | SavedThenRaised(row: MessageRow)

  /** The insert of a validated message and the `counter_cache` increment of its chat. */
  method Persist(db: Db, chatId: int, n: int, body: string, now: Timestamp) returns (row: MessageRow)
    requires db.Valid()
    requires FindChatById(db.chats, chatId).Some?
    requires n !in MessageNumbers(db.messages, chatId)
    modifies db
    ensures db.Valid()
    ensures row == MessageRow(old(db.nextMessageId), chatId, n, body, now, now)
    ensures db.messages == old(db.messages) + [row]
    ensures db.chats == BumpMessagesCount(old(db.chats), chatId)
    ensures db.applications == old(db.applications)
    ensures db.nextMessageId == old(db.nextMessageId) + 1
    ensures db.nextApplicationId == old(db.nextApplicationId) && db.nextChatId == old(db.nextChatId)
  {
    var id := db.InsertMessage(chatId, n, body, now);
    row := MessageRow(id.value, chatId, n, body, now, now);
    db.IncrementMessagesCount(chatId);
  }

  /**
   * `Message#save` on a new record of `chatId`: `set_number`, the validations,
   * the insert and `counter_cache`, the two `after_create` hooks, the commit,
   * then `index_document` from the Elasticsearch callbacks.
   */
  method Save(q: Queue, idx: Index, db: Db, chatId: int, number: Option<int>, body: Option<string>,
              now: Timestamp) returns (r: SaveResult)
    requires db.Valid()
    modifies db, q`jobs, idx`docs
    ensures db.Valid()
    ensures
      var n := FilledNumber(number, NumberScope(old(db.chats), old(db.messages), chatId));
      var errors := Errors(old(db.chats), old(db.messages), chatId, n, body);
      && (errors != [] ==>
            r == Invalid(errors) && unchanged(db) && q.jobs == old(q.jobs) && idx.docs == old(idx.docs))
      && (errors == [] ==>
            var row := MessageRow(old(db.nextMessageId), chatId, n, body.value, now, now);
            && r == (if idx.reachable then Saved(row) else SavedThenRaised(row))
            && db.messages == old(db.messages) + [row]
            && db.chats == BumpMessagesCount(old(db.chats), chatId)
            && db.applications == old(db.applications)
            && db.nextMessageId == old(db.nextMessageId) + 1
            && db.nextApplicationId == old(db.nextApplicationId) && db.nextChatId == old(db.nextChatId)
            && q.jobs == old(q.jobs)
                 + (if q.up then [IndexMessage(row.id), UpdateMessageCount(chatId, ScheduleDelaySeconds)] else [])
            && idx.docs == (if idx.reachable then Upsert(old(idx.docs), AsIndexedJson(row)) else old(idx.docs)))
  {
    var n := FilledNumber(number, NumberScope(db.chats, db.messages, chatId));
    var errors := Errors(db.chats, db.messages, chatId, n, body);
    if errors != [] {
      return Invalid(errors);
    }
    var row := Persist(db, chatId, n, body.value, now);
    IndexToElasticsearchAsync(q, row.id);
    ScheduleCounterUpdate(q, chatId);
    var indexed := idx.IndexDocument(AsIndexedJson(row));
    r := if indexed then Saved(row) else SavedThenRaised(row);
  }
}
