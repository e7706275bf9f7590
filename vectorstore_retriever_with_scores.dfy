/**
 * `VectorStoreRetrieverWithScores`: asks the vector store for `k` hits with
 * their relevance scores and writes each hit's score into its document's
 * metadata under "score". The store is a parameter (`similarity_search_with_relevance_scores`).
 */
module VectorStoreWithScores {
  import opened Values

  /** A Qdrant `FieldCondition(key, match=MatchAny(any=values))`. */
  datatype FieldCondition = FieldCondition(key: string, matchAny: seq<string>)

  /** A Qdrant `Filter(should=[...])`. */
  datatype Filter = Filter(should: seq<FieldCondition>)

  /** `similarity_search_with_relevance_scores(query, k=k, filter=filter)` */
  type Store = (string, Option<Filter>, Option<int>) -> seq<(Doc, int)>

  datatype SearchError = SearchTypeNotAllowed(searchType: string)

  const SIMILARITY: string := "similarity"
  const SIMILARITY_SCORE_THRESHOLD: string := "similarity_score_threshold"

  predicate AllowedSearchType(searchType: string) {
    searchType == SIMILARITY || searchType == SIMILARITY_SCORE_THRESHOLD
  }

  /** The documents the store returned, in its order, each with its similarity as "score". */
  predicate StampedFrom(docs: seq<Scored>, hits: seq<(Doc, int)>) {
    && |docs| == |hits|
    && forall i :: 0 <= i < |hits| ==>
         && docs[i].doc == hits[i].0
         && docs[i].score == hits[i].1
  }

  /** The stamped hit list, as a value. */
  function WithScores(hits: seq<(Doc, int)>): (docs: seq<Scored>)
    ensures StampedFrom(docs, hits)
  {
    if hits == [] then [] else WithScores(hits[..|hits| - 1]) + [Scored(hits[|hits| - 1].0, hits[|hits| - 1].1)]
  }

  /** Stamping is deterministic: one hit list has one stamped form. */
  lemma StampedFromUnique(a: seq<Scored>, b: seq<Scored>, hits: seq<(Doc, int)>)
    requires StampedFrom(a, hits) && StampedFrom(b, hits)
    ensures a == b
  {
    assert forall i :: 0 <= i < |a| ==> a[i] == Scored(hits[i].0, hits[i].1) == b[i];
  }

  /** `_get_relevant_documents(query, k, filter=...)` */
  method GetRelevantDocuments(searchType: string, store: Store, query: string, filter: Option<Filter>, k: Option<int>)
    returns (r: Result<seq<Scored>, SearchError>)
    ensures r.Ok? <==> AllowedSearchType(searchType)
    ensures r.Err? ==> r.error == SearchTypeNotAllowed(searchType)
    ensures r.Ok? ==> StampedFrom(r.value, store(query, filter, k))
  {
    if !AllowedSearchType(searchType) {
      return Err(SearchTypeNotAllowed(searchType));
    }
    var hits := store(query, filter, k);
    var docs: seq<Scored> := [];
    var i := 0;
    while i < |hits|
      invariant 0 <= i <= |hits|
      invariant StampedFrom(docs, hits[..i])
    {
      var (doc, sim) := hits[i];
      docs := docs + [Scored(doc, sim)];
      i := i + 1;
    }
    assert hits[..i] == hits;
    return Ok(docs);
  }

  /**
   * In the source's terms: each document's metadata map gains "score" = its
   * similarity, and every other key keeps the value the store gave it.
   */
  lemma StampedMetadata(docs: seq<Scored>, hits: seq<(Doc, int)>, i: int)
    requires StampedFrom(docs, hits)
    requires 0 <= i < |hits|
    ensures FullMetadata(docs[i]) == hits[i].0.metadata["score" := Int(hits[i].1)]
    ensures docs[i].doc.pageContent == hits[i].0.pageContent
    ensures forall key :: key != "score" ==>
      (key in FullMetadata(docs[i]) <==> key in hits[i].0.metadata)
  {
  }
}
