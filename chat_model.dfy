/**
 * The `Chat` record: `set_number` before validation, the uniqueness of the
 * number within its application, `counter_cache` on the application, and two
 * `after_create` hooks that prepare the message counter and schedule a
 * reconciliation of the application's `chats_count`.
 */
module ChatModel {
  import opened Common
  import opened Tables
  import opened Redis
  import opened Jobs
  import RedisCounterService

  /** The numbers `set_number` sees for a chat of `applicationId`. */
  function NumberScope(apps: seq<AppRow>, chats: seq<ChatRow>, applicationId: int): Option<seq<int>> {
    if FindApplication(apps, applicationId).Some? then Some(ChatNumbers(chats, applicationId)) else None
  }

  /**
   * The full messages of the validations, in declaration order: the required
   * `belongs_to :application`, then the number's uniqueness in its application.
   */
  function Errors(apps: seq<AppRow>, chats: seq<ChatRow>, applicationId: int, number: int): (errors: seq<string>)
    ensures "Application must exist" in errors <==> FindApplication(apps, applicationId).None?
    ensures "Number has already been taken" in errors <==> number in ChatNumbers(chats, applicationId)
    ensures errors == [] <==>
      FindApplication(apps, applicationId).Some? && number !in ChatNumbers(chats, applicationId)
  {
    (if FindApplication(apps, applicationId).None? then ["Application must exist"] else [])
    + (if number in ChatNumbers(chats, applicationId) then ["Number has already been taken"] else [])
  }

  /** A number left for `set_number` to fill in never fails the uniqueness validation. */
  lemma FilledNumberIsFree(apps: seq<AppRow>, chats: seq<ChatRow>, applicationId: int)
    requires FindApplication(apps, applicationId).Some?
    ensures Errors(apps, chats, applicationId, FilledNumber(None, NumberScope(apps, chats, applicationId))) == []
  {
  }

  /** `initialize_redis_counter`: `set(key, 0) unless exists?(key)`, errors rescued. */
  method InitializeRedisCounter(h: Handle, s: Server, chatId: int)
    modifies s`data
    ensures ModeOf(h, s.up) == Live ==>
      s.data == AfterSetNX(old(s.data), RedisCounterService.MessageCounterKey(chatId), 0)
    ensures ModeOf(h, s.up) != Live ==> s.data == old(s.data)
  {
    var key := RedisCounterService.MessageCounterKey(chatId);
    var present := ExistsQ(h, s, key);
    if !present.Raised? && !Truthy(present) {
      var _ := Set(h, s, key, 0);
    }
  }

  /** `schedule_counter_update`: `UpdateChatCountWorker.perform_in(5.minutes, application_id)`, errors rescued. */
  method ScheduleCounterUpdate(q: Queue, applicationId: int)
    modifies q`jobs
    ensures q.jobs == old(q.jobs) + (if q.up then [UpdateChatCount(applicationId, ScheduleDelaySeconds)] else [])
  {
    var _ := q.Push(UpdateChatCount(applicationId, ScheduleDelaySeconds));
  }

  datatype SaveResult = Saved(row: ChatRow) | Invalid(errors: seq<string>)

  /** The insert of a validated chat and the `counter_cache` increment, in one transaction. */
  method Persist(db: Db, applicationId: int, n: int, now: Timestamp) returns (row: ChatRow)
    requires db.Valid()
    requires FindApplication(db.applications, applicationId).Some?
    requires n !in ChatNumbers(db.chats, applicationId)
    modifies db
    ensures db.Valid()
    ensures row == ChatRow(old(db.nextChatId), applicationId, n, 0, now, now)
    ensures db.chats == old(db.chats) + [row]
    ensures db.applications == BumpChatsCount(old(db.applications), applicationId)
    ensures db.messages == old(db.messages)
    ensures db.nextChatId == old(db.nextChatId) + 1
    ensures db.nextApplicationId == old(db.nextApplicationId) && db.nextMessageId == old(db.nextMessageId)
  {
    ghost var apps0 := db.applications;
    var id := db.InsertChat(applicationId, n, now);
    assert db.applications == apps0;
    row := ChatRow(id.value, applicationId, n, 0, now, now);
    db.IncrementChatsCount(applicationId);
  }

  /**
   * `Chat#save` on a new record of `applicationId`: `set_number`, the
   * validations, the insert with `messages_count` 0, the `counter_cache`
   * increment of the application's `chats_count`, then the two hooks.
   */
  method Save(h: Handle, s: Server, q: Queue, db: Db, applicationId: int, number: Option<int>,
              now: Timestamp) returns (r: SaveResult)
    requires db.Valid()
    modifies db, s`data, q`jobs
    ensures db.Valid()
    ensures
      var n := FilledNumber(number, NumberScope(old(db.applications), old(db.chats), applicationId));
      var errors := Errors(old(db.applications), old(db.chats), applicationId, n);
      && (errors != [] ==>
            r == Invalid(errors) && unchanged(db) && s.data == old(s.data) && q.jobs == old(q.jobs))
      && (errors == [] ==>
            && r == Saved(ChatRow(old(db.nextChatId), applicationId, n, 0, now, now))
            && db.chats == old(db.chats) + [r.row]
            && db.applications == BumpChatsCount(old(db.applications), applicationId)
            && db.messages == old(db.messages)
            && db.nextChatId == old(db.nextChatId) + 1
            && db.nextApplicationId == old(db.nextApplicationId) && db.nextMessageId == old(db.nextMessageId)
            && s.data == (if ModeOf(h, s.up) == Live
                          then AfterSetNX(old(s.data), RedisCounterService.MessageCounterKey(r.row.id), 0)
                          else old(s.data))
            && q.jobs == old(q.jobs) + (if q.up then [UpdateChatCount(applicationId, ScheduleDelaySeconds)] else []))
  {
    var n := FilledNumber(number, NumberScope(db.applications, db.chats, applicationId));
    var errors := Errors(db.applications, db.chats, applicationId, n);
    if errors != [] {
      return Invalid(errors);
    }
    var row := Persist(db, applicationId, n, now);
    r := Saved(row);
    InitializeRedisCounter(h, s, row.id);
    ScheduleCounterUpdate(q, applicationId);
  }
}
