/**
 * `UpdateChatCountWorker`: copies an application's chat counter from Redis
 * into its `chats_count` column. A missing application ends the job quietly;
 * any other error is raised again so that Sidekiq retries the job.
 */
module UpdateChatCountWorker {
  import opened Common
  import opened Tables
  import opened Redis
  import opened Jobs
  import RedisCounterService

  /** `$redis.get(key).to_i`: the counter on a live server (0 when absent), 0 under `NullRedis`. */
  function CountRead(h: Handle, up: bool, data: map<string, int>, key: string): int
    requires ModeOf(h, up) != Failing
  {
    if ModeOf(h, up) == Live then Counter(data, key) else 0
  }

  /** `perform(application_id)`. */
  method Perform(h: Handle, s: Server, db: Db, applicationId: int) returns (o: Outcome)
    requires db.Valid()
    modifies db`applications
    ensures db.Valid()
    ensures FindApplication(old(db.applications), applicationId).None? ==>
      o == Skipped && db.applications == old(db.applications)
    ensures FindApplication(old(db.applications), applicationId).Some? ==>
      var key := RedisCounterService.ChatCounterKey(FindApplication(old(db.applications), applicationId).value.token);
      && (ModeOf(h, s.up) == Failing ==> o == Failed && db.applications == old(db.applications))
      && (ModeOf(h, s.up) != Failing ==>
            o == Completed
            && db.applications == SetChatsCount(old(db.applications), applicationId, CountRead(h, s.up, s.data, key)))
  {
    var app := FindApplication(db.applications, applicationId);
    if app.None? {
      return Skipped;
    }
    var reply := Get(h, s, RedisCounterService.ChatCounterKey(app.value.token));
    if reply.Raised? {
      return Failed;
    }
    db.UpdateChatsCount(applicationId, ToI(reply));
    o := Completed;
  }

  /** Running the job again with the counter unchanged writes the same value: reconciliation is idempotent. */
  lemma {:induction false} ReconcileIdempotent(apps: seq<AppRow>, applicationId: int, v: int)
    ensures SetChatsCount(SetChatsCount(apps, applicationId, v), applicationId, v) == SetChatsCount(apps, applicationId, v)
  {
    var once := SetChatsCount(apps, applicationId, v);
    var twice := SetChatsCount(once, applicationId, v);
    assert forall i :: 0 <= i < |apps| ==> twice[i] == once[i];
  }

  /**
   * The column receives the last number issued, not the number of chats: after
   * two allocations on a fresh counter of which only one chat was saved, the
   * worker writes 2 while the application has 1 chat.
   */
  lemma ReconciledCountIsLastIssued()
    ensures
      var app := AppRow(7, "t", "n", 0, 0);
      var chats := [ChatRow(1, 7, 1, 0, 0, 0)];
      var key := RedisCounterService.ChatCounterKey(app.token);
      var data := IncrTimes(map[], key, 2);
      && CountRead(RealRedis, true, data, key) == 2
      && ChatCount(chats, 7) == 1
  {
    var key := RedisCounterService.ChatCounterKey("t");
    IncrTimesMovesOneCounter(map[], key, 2);
    var chats := [ChatRow(1, 7, 1, 0, 0, 0)];
    assert chats[..0] == [];
  }

  /** Under `NullRedis` the worker resets the column to 0, whatever it held. */
  lemma NullStoreZeroesColumn(data: map<string, int>, key: string, up: bool)
    ensures CountRead(NullRedis, up, data, key) == 0
  {
  }
}
