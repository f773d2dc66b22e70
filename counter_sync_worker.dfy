/**
 * `CounterSyncWorker`: the hourly sweep. It walks every application and then
 * every chat and queues one reconciliation job for each; it reads no counter
 * and writes no column itself.
 */
module CounterSyncWorker {
  import opened Common
  import opened Tables
  import opened Jobs

  /** One `UpdateChatCountWorker.perform_async(app.id)` per application, in table order. */
  function ApplicationJobs(apps: seq<AppRow>): (js: seq<Job>)
    ensures |js| == |apps|
    ensures forall i :: 0 <= i < |apps| ==> js[i] == UpdateChatCount(apps[i].id, 0)
  {
    if apps == [] then []
    else ApplicationJobs(apps[..|apps| - 1]) + [UpdateChatCount(apps[|apps| - 1].id, 0)]
  }

  /** One `UpdateMessageCountWorker.perform_async(chat.id)` per chat, in table order. */
  function ChatJobs(chats: seq<ChatRow>): (js: seq<Job>)
    ensures |js| == |chats|
    ensures forall i :: 0 <= i < |chats| ==> js[i] == UpdateMessageCount(chats[i].id, 0)
  {
    if chats == [] then []
    else ChatJobs(chats[..|chats| - 1]) + [UpdateMessageCount(chats[|chats| - 1].id, 0)]
  }

  /** Everything the sweep queues: the application jobs, then the chat jobs. */
  function SweepJobs(apps: seq<AppRow>, chats: seq<ChatRow>): seq<Job> {
    ApplicationJobs(apps) + ChatJobs(chats)
  }

  /** The first `find_each`: one push per application, stopping at the first push that raises. */
  method EnqueueApplications(q: Queue, apps: seq<AppRow>) returns (ok: bool)
    modifies q`jobs
    ensures ok == (q.up || apps == [])
    ensures q.jobs == if q.up then old(q.jobs) + ApplicationJobs(apps) else old(q.jobs)
  {
    var i := 0;
    while i < |apps|
      invariant 0 <= i <= |apps|
      invariant q.jobs == old(q.jobs) + ApplicationJobs(apps[..i])
      invariant !q.up ==> i == 0
    {
      var pushed := q.Push(UpdateChatCount(apps[i].id, 0));
      if !pushed {
        return false;
      }
      assert apps[..i + 1][..i] == apps[..i];
      i := i + 1;
    }
    assert apps[..i] == apps;
    ok := true;
  }

  /** The second `find_each`: one push per chat. */
  method EnqueueChats(q: Queue, chats: seq<ChatRow>) returns (ok: bool)
    modifies q`jobs
    ensures ok == (q.up || chats == [])
    ensures q.jobs == if q.up then old(q.jobs) + ChatJobs(chats) else old(q.jobs)
  {
    var j := 0;
    while j < |chats|
      invariant 0 <= j <= |chats|
      invariant q.jobs == old(q.jobs) + ChatJobs(chats[..j])
      invariant !q.up ==> j == 0
    {
      var pushed := q.Push(UpdateMessageCount(chats[j].id, 0));
      if !pushed {
        return false;
      }
      assert chats[..j + 1][..j] == chats[..j];
      j := j + 1;
    }
    assert chats[..j] == chats;
    ok := true;
  }

  /** `perform`. A push that raises ends the sweep with the exception. */
  method Perform(q: Queue, db: Db) returns (o: Outcome)
    modifies q`jobs
    ensures q.up ==> o == Completed && q.jobs == old(q.jobs) + SweepJobs(db.applications, db.chats)
    ensures !q.up ==>
      q.jobs == old(q.jobs) && (o == Failed <==> |db.applications| + |db.chats| > 0)
  {
    var ok := EnqueueApplications(q, db.applications);
    if !ok {
      return Failed;
    }
    ok := EnqueueChats(q, db.chats);
    if !ok {
      return Failed;
    }
    o := Completed;
  }

  predicate DistinctIds(apps: seq<AppRow>) {
    forall i, j :: 0 <= i < j < |apps| ==> apps[i].id != apps[j].id
  }

  predicate DistinctChatIds(chats: seq<ChatRow>) {
    forall i, j :: 0 <= i < j < |chats| ==> chats[i].id != chats[j].id
  }

  /** With primary keys distinct, each application gets exactly one job. */
  lemma {:induction false} OneJobPerApplication(apps: seq<AppRow>)
    requires DistinctIds(apps)
    ensures forall i :: 0 <= i < |apps| ==> multiset(ApplicationJobs(apps))[UpdateChatCount(apps[i].id, 0)] == 1
  {
    if apps != [] {
      var p := apps[..|apps| - 1];
      var last := apps[|apps| - 1];
      assert DistinctIds(p);
      OneJobPerApplication(p);
      assert ApplicationJobs(apps) == ApplicationJobs(p) + [UpdateChatCount(last.id, 0)];
      assert UpdateChatCount(last.id, 0) !in ApplicationJobs(p);
      forall i | 0 <= i < |apps|
        ensures multiset(ApplicationJobs(apps))[UpdateChatCount(apps[i].id, 0)] == 1
      {
        if i < |p| {
          assert apps[i] == p[i];
        }
      }
    }
  }

  /** With primary keys distinct, each chat gets exactly one job. */
  lemma {:induction false} OneJobPerChat(chats: seq<ChatRow>)
    requires DistinctChatIds(chats)
    ensures forall i :: 0 <= i < |chats| ==> multiset(ChatJobs(chats))[UpdateMessageCount(chats[i].id, 0)] == 1
  {
    if chats != [] {
      var p := chats[..|chats| - 1];
      var last := chats[|chats| - 1];
      assert DistinctChatIds(p);
      OneJobPerChat(p);
      assert ChatJobs(chats) == ChatJobs(p) + [UpdateMessageCount(last.id, 0)];
      assert UpdateMessageCount(last.id, 0) !in ChatJobs(p);
      forall i | 0 <= i < |chats|
        ensures multiset(ChatJobs(chats))[UpdateMessageCount(chats[i].id, 0)] == 1
      {
        if i < |p| {
          assert chats[i] == p[i];
        }
      }
    }
  }

  /**
   * On the tables as they are, with their primary keys, the sweep queues
   * exactly one reconciliation job for each application and for each chat.
   */
  lemma SweepQueuesOneJobPerRow(db: Db)
    requires db.Valid()
    ensures forall i :: 0 <= i < |db.applications| ==>
      multiset(SweepJobs(db.applications, db.chats))[UpdateChatCount(db.applications[i].id, 0)] == 1
    ensures forall i :: 0 <= i < |db.chats| ==>
      multiset(SweepJobs(db.applications, db.chats))[UpdateMessageCount(db.chats[i].id, 0)] == 1
  {
    var apps, chats := db.applications, db.chats;
    var a, c := ApplicationJobs(apps), ChatJobs(chats);
    assert DistinctIds(apps);
    assert DistinctChatIds(chats);
    OneJobPerApplication(apps);
    OneJobPerChat(chats);
    assert multiset(SweepJobs(apps, chats)) == multiset(a) + multiset(c);
    forall i | 0 <= i < |apps|
      ensures multiset(SweepJobs(apps, chats))[UpdateChatCount(apps[i].id, 0)] == 1
    {
      assert UpdateChatCount(apps[i].id, 0) !in c;
    }
    forall i | 0 <= i < |chats|
      ensures multiset(SweepJobs(apps, chats))[UpdateMessageCount(chats[i].id, 0)] == 1
    {
      assert UpdateMessageCount(chats[i].id, 0) !in a;
    }
  }

  /** The sweep queues one job per row, every application job ahead of every chat job. */
  lemma SweepShape(apps: seq<AppRow>, chats: seq<ChatRow>)
    ensures |SweepJobs(apps, chats)| == |apps| + |chats|
    ensures forall i, j :: 0 <= i < |apps| <= j < |apps| + |chats| ==>
      SweepJobs(apps, chats)[i].UpdateChatCount? && SweepJobs(apps, chats)[j].UpdateMessageCount?
  {
  }
}
