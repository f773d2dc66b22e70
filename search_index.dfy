/**
 * The search index (Elasticsearch), seen from the Rails side: a map from message id
 * to the indexed document, written by upsert. Query matching and ranking are
 * the engine's business; a query's answer is an input of the model.
 */
module SearchIndex {
  import opened Common

  /** The indexed document: exactly the fields `as_indexed_json` emits. */
  datatype Doc = Doc(id: int, number: int, body: string, chatId: int, createdAt: Timestamp)

  /** `index_document`: add the document under its id, replacing any earlier one. */
  function Upsert(docs: map<int, Doc>, d: Doc): (r: map<int, Doc>)
    ensures r.Keys == docs.Keys + {d.id}
    ensures r[d.id] == d
    ensures forall id :: id in docs && id != d.id ==> r[id] == docs[id]
  {
    docs[d.id := d]
  }

  /** Indexing a message again, as a retry after a success does, leaves one document for it. */
  lemma UpsertIdempotent(docs: map<int, Doc>, d: Doc)
    ensures Upsert(Upsert(docs, d), d) == Upsert(docs, d)
    ensures |Upsert(docs, d).Keys| <= |docs.Keys| + 1
  {
    if d.id in docs {
      assert Upsert(docs, d).Keys == docs.Keys;
    } else {
      assert Upsert(docs, d).Keys == docs.Keys + {d.id};
    }
  }

  class Index {
    var docs: map<int, Doc>
    var reachable: bool

    constructor (reachable0: bool)
      ensures docs == map[] && reachable == reachable0
    {
      docs := map[];
      reachable := reachable0;
    }

    /** `__elasticsearch__.index_document`; raises when the cluster cannot be reached. */
    method IndexDocument(d: Doc) returns (ok: bool)
      modifies this`docs
      ensures ok == reachable
      ensures docs == if ok then Upsert(old(docs), d) else old(docs)
    {
      ok := reachable;
      if ok {
        docs := Upsert(docs, d);
      }
    }
  }

  /**
   * The engine's answer to the `multi_match` query of `search_messages`: the ids
   * of every matching document in rank order, or an error, of which a missing
   * index is told apart.
   */
  datatype EngineAnswer = Ranked(ids: seq<int>) | IndexNotFound(details: string) | EngineError(message: string)

  /** `size: 100` in `search_messages`. */
  const SearchSize: nat := 100

  /** The hits the engine returns: the best-ranked `SearchSize` matches. */
  function Hits(ranked: seq<int>): (h: seq<int>)
    ensures |h| == if |ranked| < SearchSize then |ranked| else SearchSize
    ensures h == ranked[..|h|]
  {
    if |ranked| <= SearchSize then ranked else ranked[..SearchSize]
  }
}
