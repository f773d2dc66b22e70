/**
 * `IndexMessageWorker`: loads a message and indexes it. A missing message is
 * skipped for good; an indexing failure is raised again for a retry.
 */
module IndexMessageWorker {
  import opened Common
  import opened Tables
  import opened Jobs
  import opened SearchIndex
  import MessageModel

  /** `perform(message_id)`. */
  method Perform(db: Db, idx: Index, messageId: int) returns (o: Outcome)
    modifies idx`docs
    ensures FindMessage(db.messages, messageId).None? ==> o == Skipped && idx.docs == old(idx.docs)
    ensures FindMessage(db.messages, messageId).Some? ==>
      && (idx.reachable ==>
            o == Completed
            && idx.docs == Upsert(old(idx.docs), MessageModel.AsIndexedJson(FindMessage(db.messages, messageId).value)))
      && (!idx.reachable ==> o == Failed && idx.docs == old(idx.docs))
  {
    var message := FindMessage(db.messages, messageId);
    if message.None? {
      return Skipped;
    }
    var ok := idx.IndexDocument(MessageModel.AsIndexedJson(message.value));
    o := if ok then Completed else Failed;
  }

  /**
   * The save callback and this worker both index a new message; the second
   * write replaces the first, so the index holds one document per message.
   */
  lemma CallbackThenWorkerIndexOnce(docs: map<int, Doc>, m: MessageRow)
    ensures Upsert(Upsert(docs, MessageModel.AsIndexedJson(m)), MessageModel.AsIndexedJson(m))
         == Upsert(docs, MessageModel.AsIndexedJson(m))
    ensures Upsert(docs, MessageModel.AsIndexedJson(m))[m.id] == MessageModel.AsIndexedJson(m)
  {
    UpsertIdempotent(docs, MessageModel.AsIndexedJson(m));
  }
}
