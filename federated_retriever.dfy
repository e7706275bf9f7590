/**
 * The access-controlled retrieval tree.
 *
 * A `Leaf` owns one department's similarity index; a `Router` fans a query out
 * to its children. Both first check their gate ("right to search") against the
 * requesting user's attributes and answer `[]` when it denies. A leaf then checks
 * each hit against its document policies ("right to retrieve") and stamps the
 * admitted ones with its own metadata. Every node ends with the merge of
 * `Merge.MergeTopK`. The `Root` sends the query to every hospital and merges
 * the answers; the `Baseline` is one flat index with the same checks.
 *
 * The similarity indexes, the named-entity recogniser and the peer hospitals
 * are parameters (oracles): the model says what is done with their answers.
 */
module FederatedRetriever {
  import opened Values
  import opened Abac
  import opened Merge
  import VS = VectorStoreWithScores

  // ---------------------------------------------------------------------------
  // Search arguments and the metadata filter

  /** `{attribute: [accepted values]}`, in insertion order. */
  type FilterMap = seq<(string, seq<string>)>

  /**
   * The `search_kwargs` dict: `k` (final cut), `fetch_k` (candidates asked of
   * an index), `filters` and `secure`, each absent key being `None`.
   */
  datatype SearchKwargs = SearchKwargs(k: int, fetchK: Option<int>, filters: Option<FilterMap>, secure: Option<bool>)

  /** `search_kwargs.get("secure", True)` */
  function IsSecure(kw: SearchKwargs): (b: bool)
    ensures kw.secure.None? ==> b
    ensures kw.secure.Some? ==> b == kw.secure.value
  {
    kw.secure.GetOr(true)
  }

  /** One `FieldCondition(key="metadata.<attr>", match=MatchAny(any=vals))` per filter entry. */
  function Conditions(fs: FilterMap): (cs: seq<VS.FieldCondition>)
    ensures |cs| == |fs|
    ensures forall i :: 0 <= i < |fs| ==> cs[i].key == "metadata." + fs[i].0 && cs[i].matchAny == fs[i].1
  {
    if fs == [] then [] else [VS.FieldCondition("metadata." + fs[0].0, fs[0].1)] + Conditions(fs[1..])
  }

  /** The index filter: only for a present, non-empty `filters`; otherwise `None`. */
  function BuildFilter(filters: Option<FilterMap>): (f: Option<VS.Filter>)
    ensures f.Some? <==> filters.Some? && |filters.value| > 0
    ensures f.Some? ==> |f.value.should| == |filters.value|
    ensures f.Some? ==> forall i :: 0 <= i < |filters.value| ==>
      f.value.should[i] == VS.FieldCondition("metadata." + filters.value[i].0, filters.value[i].1)
  {
    match filters
    case None => None
    case Some(fs) => if |fs| > 0 then Some(VS.Filter(Conditions(fs))) else None
  }

  // ---------------------------------------------------------------------------
  // The tree

  /** What identifies a leaf's similarity index (collection `leaf_<id>` under `db_path`, built from `df`). */
  datatype LeafStore = LeafStore(id: string, dbPath: string, df: Table, textCol: Option<string>)

  /** The similarity indexes: `(store, query, filter, k)` to `(document, similarity)` hits. */
  type Indexes = (LeafStore, string, Option<VS.Filter>, Option<int>) -> seq<(Doc, int)>

  /**
   * A retriever node. `metadata` is the node's own attribute map (`{}` when
   * unset); it is the resource its gate is asked about and, at a leaf, what
   * admitted documents are stamped with.
   */
  datatype Node =
    | Leaf(id: string, dbPath: string, df: Table, textCol: Option<string>,
           abacGate: Option<Pdp>, abacPdp: Option<Pdp>, metadata: Attrs)
    | Router(id: string, children: seq<Node>, abacGate: Option<Pdp>, metadata: Attrs)

  function Store(n: Node): LeafStore
    requires n.Leaf?
  {
    LeafStore(n.id, n.dbPath, n.df, n.textCol)
  }

  /** A gate lets the user through: no gate, or its policies allow reading the node. */
  predicate GateAllows(gate: Option<Pdp>, userinfo: Attrs, metadata: Attrs) {
    gate.None? || IsAllowed(gate.value, ReadRequest(userinfo, metadata))
  }

  /** The node answers `[]` without searching. */
  predicate GateDenies(n: Node, kw: SearchKwargs, userinfo: Attrs) {
    IsSecure(kw) && !GateAllows(n.abacGate, userinfo, n.metadata)
  }

  /** The document check, evaluated on the document's own metadata (its score included). */
  predicate DocAllowed(pdp: Pdp, userinfo: Attrs, d: Scored) {
    IsAllowed(pdp, ReadRequest(userinfo, FullMetadata(d)))
  }

  /**
   * `doc.metadata.update(meta)`: the node's keys overwrite the document's.
   * A "score" key in the node's metadata is not applied (see README).
   */
  function Stamp(d: Scored, meta: Attrs): (r: Scored)
    ensures r.score == d.score && r.doc.pageContent == d.doc.pageContent
    ensures FullMetadata(r).Keys == FullMetadata(d).Keys + (meta.Keys - {"score"})
    ensures forall key :: key in meta && key != "score" ==> FullMetadata(r)[key] == meta[key]
    ensures forall key :: key in FullMetadata(d) && key !in meta ==> FullMetadata(r)[key] == FullMetadata(d)[key]
  {
    Scored(Doc(d.doc.pageContent, d.doc.metadata + (meta - {"score"})), d.score)
  }

  /** `[f(x) for x in xs if p(x)]` */
  function KeepMapped<T, U>(xs: seq<T>, p: T -> bool, f: T -> U): (r: seq<U>)
    ensures |r| <= |xs|
  {
    if xs == [] then []
    else KeepMapped(xs[..|xs| - 1], p, f) + (if p(xs[|xs| - 1]) then [f(xs[|xs| - 1])] else [])
  }

  /** The filtered list holds exactly the images of the kept items. */
  lemma {:induction false} KeepMappedMembers<T, U>(xs: seq<T>, p: T -> bool, f: T -> U, y: U)
    ensures y in KeepMapped(xs, p, f) <==> exists x :: x in xs && p(x) && y == f(x)
  {
    if xs != [] {
      var init, last := xs[..|xs| - 1], xs[|xs| - 1];
      KeepMappedMembers(init, p, f, y);
      assert xs == init + [last];
      if exists x :: x in xs && p(x) && y == f(x) {
        var x :| x in xs && p(x) && y == f(x);
        if x != last {
          assert x in init;
        }
      }
    }
  }

  /** The documents the check admits, in order, each stamped with the node's metadata. */
  function Admit(pdp: Pdp, userinfo: Attrs, meta: Attrs, docs: seq<Scored>): (r: seq<Scored>)
    ensures |r| <= |docs|
  {
    KeepMapped(docs, d => DocAllowed(pdp, userinfo, d), d => Stamp(d, meta))
  }

  /** What a leaf or the baseline does with its hits: check and stamp when secure and configured, then merge. */
  function Finish(secure: bool, pdp: Option<Pdp>, userinfo: Attrs, meta: Attrs, relevant: seq<Scored>, k: int): seq<Scored> {
    if !secure || pdp.None? then MergeTopK(relevant, k)
    else MergeTopK(Admit(pdp.value, userinfo, meta, relevant), k)
  }

  /** A leaf's hits: `fetch_k` candidates under the filter, each with its score. */
  function LeafHits(n: Node, query: string, kw: SearchKwargs, idx: Indexes): seq<Scored>
    requires n.Leaf?
  {
    VS.WithScores(idx(Store(n), query, BuildFilter(kw.filters), kw.fetchK))
  }

  /** What `n.get_relevant_documents(query, search_kwargs=kw, userinfo=u)` answers. */
  function Retrieve(n: Node, query: string, kw: SearchKwargs, userinfo: Attrs, idx: Indexes): seq<Scored>
    decreases n, 1
  {
    if GateDenies(n, kw, userinfo) then []
    else match n
      case Leaf(_, _, _, _, _, pdp, meta) => Finish(IsSecure(kw), pdp, userinfo, meta, LeafHits(n, query, kw, idx), kw.k)
      case Router(_, cs, _, _) => MergeTopK(Gathered(n, |cs|, query, kw, userinfo, idx), kw.k)
  }

  /** The answers of a router's first `i` children, concatenated in list order. */
  function Gathered(n: Node, i: nat, query: string, kw: SearchKwargs, userinfo: Attrs, idx: Indexes): seq<Scored>
    requires n.Router? && i <= |n.children|
    decreases n, 0, i
  {
    if i == 0 then []
    else Gathered(n, i - 1, query, kw, userinfo, idx) + Retrieve(n.children[i - 1], query, kw, userinfo, idx)
  }

  // ---------------------------------------------------------------------------
  // The retrievers as the source runs them

  /** The per-document loop of a leaf (and of the baseline). */
  method FilterAccessible(pdp: Pdp, userinfo: Attrs, meta: Attrs, relevant: seq<Scored>) returns (acc: seq<Scored>)
    ensures acc == Admit(pdp, userinfo, meta, relevant)
  {
    acc := [];
    var i := 0;
    while i < |relevant|
      invariant 0 <= i <= |relevant|
      invariant acc == Admit(pdp, userinfo, meta, relevant[..i])
    {
      var d := relevant[i];
      if IsAllowed(pdp, ReadRequest(userinfo, FullMetadata(d))) {
        acc := acc + [Stamp(d, meta)];
      }
      assert relevant[..i + 1][..i] == relevant[..i];
      i := i + 1;
    }
    assert relevant[..i] == relevant;
  }

  /** `LeafRetriever._get_relevant_documents` */
  method LeafGetRelevantDocuments(n: Node, query: string, kw: SearchKwargs, userinfo: Attrs, idx: Indexes)
    returns (r: seq<Scored>)
    requires n.Leaf?
    ensures GateDenies(n, kw, userinfo) ==> r == []
    ensures r == Retrieve(n, query, kw, userinfo, idx)
  {
    var secure := kw.secure.GetOr(true);
    if secure && n.abacGate.Some? && !IsAllowed(n.abacGate.value, ReadRequest(userinfo, n.metadata)) {
      return [];
    }
    var flt := BuildFilter(kw.filters);
    var store: VS.Store := (q, f, k) => idx(Store(n), q, f, k);
    var res := VS.GetRelevantDocuments(VS.SIMILARITY, store, query, flt, kw.fetchK);
    var relevant := res.value;
    VS.StampedFromUnique(relevant, LeafHits(n, query, kw, idx), idx(Store(n), query, flt, kw.fetchK));
    if !secure || n.abacPdp.None? {
      return MergeTopK(relevant, kw.k);
    }
    var accessible := FilterAccessible(n.abacPdp.value, userinfo, n.metadata, relevant);
    return MergeTopK(accessible, kw.k);
  }

  /** `RouterRetriever._get_relevant_documents`: every child gets the same query, user and arguments. */
  method RouterGetRelevantDocuments(n: Node, query: string, kw: SearchKwargs, userinfo: Attrs, idx: Indexes)
    returns (r: seq<Scored>)
    requires n.Router?
    ensures GateDenies(n, kw, userinfo) ==> r == []
    ensures r == Retrieve(n, query, kw, userinfo, idx)
    decreases n
  {
    var secure := kw.secure.GetOr(true);
    if secure && n.abacGate.Some? && !IsAllowed(n.abacGate.value, ReadRequest(userinfo, n.metadata)) {
      return [];
    }
    var docs: seq<Scored> := [];
    var i := 0;
    while i < |n.children|
      invariant 0 <= i <= |n.children|
      invariant docs == Gathered(n, i, query, kw, userinfo, idx)
    {
      var child := n.children[i];
      var part: seq<Scored>;
      if child.Leaf? {
        part := LeafGetRelevantDocuments(child, query, kw, userinfo, idx);
      } else {
        part := RouterGetRelevantDocuments(child, query, kw, userinfo, idx);
      }
      docs := docs + part;
      i := i + 1;
    }
    return MergeTopK(docs, kw.k);
  }

  // ---------------------------------------------------------------------------
  // What the tree guarantees

  /** Every node's answer is sorted by score and, for `k >= 0`, at most `k` long. */
  lemma RetrieveBounded(n: Node, query: string, kw: SearchKwargs, userinfo: Attrs, idx: Indexes)
    ensures SortedDesc(Retrieve(n, query, kw, userinfo, idx))
    ensures kw.k >= 0 ==> |Retrieve(n, query, kw, userinfo, idx)| <= kw.k
  {
    if !GateDenies(n, kw, userinfo) {
      match n
      case Leaf(_, _, _, _, _, pdp, meta) =>
        var hits := LeafHits(n, query, kw, idx);
        if !IsSecure(kw) || pdp.None? {
          MergeTopKBounded(hits, kw.k);
        } else {
          MergeTopKBounded(Admit(pdp.value, userinfo, meta, hits), kw.k);
        }
      case Router(_, cs, _, _) =>
        MergeTopKBounded(Gathered(n, |cs|, query, kw, userinfo, idx), kw.k);
    }
  }

  /** The document check admits exactly the allowed documents, stamped. */
  lemma AdmitSpec(pdp: Pdp, userinfo: Attrs, meta: Attrs, docs: seq<Scored>, x: Scored)
    ensures x in Admit(pdp, userinfo, meta, docs) <==>
      exists d :: d in docs && DocAllowed(pdp, userinfo, d) && x == Stamp(d, meta)
  {
    KeepMappedMembers(docs, d => DocAllowed(pdp, userinfo, d), d => Stamp(d, meta), x);
  }

  /** The ACL-free copy of a tree: no gate and no document check anywhere. */
  function Unguarded(n: Node): (u: Node)
    ensures u.Leaf? <==> n.Leaf?
    ensures u.abacGate.None? && u.id == n.id && u.metadata == n.metadata
    ensures u.Leaf? ==> u.abacPdp.None? && Store(u) == Store(n)
    ensures u.Router? ==> |u.children| == |n.children|
    decreases n
  {
    match n
    case Leaf(id, dbPath, df, textCol, _, _, meta) => Leaf(id, dbPath, df, textCol, None, None, meta)
    case Router(id, cs, _, meta) =>
      Router(id, seq(|cs|, i requires 0 <= i < |cs| => Unguarded(cs[i])), None, meta)
  }

  /**
   * With `secure` false, no gate and no document check is consulted: the answer
   * is the ACL-free tree's answer, whoever asks.
   */
  lemma {:induction false} InsecureIgnoresAccess(n: Node, query: string, kw: SearchKwargs, userinfo: Attrs, other: Attrs, idx: Indexes)
    requires !IsSecure(kw)
    ensures Retrieve(n, query, kw, userinfo, idx) == Retrieve(Unguarded(n), query, kw, other, idx)
    decreases n, 1
  {
    match n
    case Leaf(_, _, _, _, _, _, _) =>
      assert LeafHits(n, query, kw, idx) == LeafHits(Unguarded(n), query, kw, idx);
    case Router(_, cs, _, _) =>
      InsecureGathered(n, |cs|, query, kw, userinfo, other, idx);
  }

  lemma {:induction false} InsecureGathered(n: Node, i: nat, query: string, kw: SearchKwargs, userinfo: Attrs, other: Attrs, idx: Indexes)
    requires !IsSecure(kw)
    requires n.Router? && i <= |n.children|
    ensures Gathered(n, i, query, kw, userinfo, idx) == Gathered(Unguarded(n), i, query, kw, other, idx)
    decreases n, 0, i
  {
    if i > 0 {
      InsecureGathered(n, i - 1, query, kw, userinfo, other, idx);
      assert Unguarded(n).children[i - 1] == Unguarded(n.children[i - 1]);
      InsecureIgnoresAccess(n.children[i - 1], query, kw, userinfo, other, idx);
    }
  }

  /**
   * Where a returned document comes from: a leaf below `n` whose gates on the
   * way down all let the user through, whose index returned the document, and,
   * when secure with a document check, whose check admitted it (on its own
   * metadata) before it was stamped with the leaf's metadata.
   */
  ghost predicate Sourced(n: Node, x: Scored, query: string, kw: SearchKwargs, userinfo: Attrs, idx: Indexes)
    decreases n
  {
    && !GateDenies(n, kw, userinfo)
    && match n
      case Leaf(_, _, _, _, _, pdp, meta) =>
        exists d :: d in LeafHits(n, query, kw, idx) &&
          if IsSecure(kw) && pdp.Some? then DocAllowed(pdp.value, userinfo, d) && x == Stamp(d, meta)
          else x == d
      case Router(_, cs, _, _) =>
        exists i :: 0 <= i < |cs| && Sourced(cs[i], x, query, kw, userinfo, idx)
  }

  /** Every document the tree returns is sourced: no gate or check is bypassed. */
  lemma {:induction false} RetrieveSourced(n: Node, x: Scored, query: string, kw: SearchKwargs, userinfo: Attrs, idx: Indexes)
    requires x in Retrieve(n, query, kw, userinfo, idx)
    ensures Sourced(n, x, query, kw, userinfo, idx)
    decreases n, 1
  {
    match n
    case Leaf(_, _, _, _, _, pdp, meta) =>
      var hits := LeafHits(n, query, kw, idx);
      if IsSecure(kw) && pdp.Some? {
        var admitted := Admit(pdp.value, userinfo, meta, hits);
        MergeTopKSubset(admitted, kw.k, x);
        AdmitSpec(pdp.value, userinfo, meta, hits, x);
      } else {
        MergeTopKSubset(hits, kw.k, x);
      }
    case Router(_, cs, _, _) =>
      MergeTopKSubset(Gathered(n, |cs|, query, kw, userinfo, idx), kw.k, x);
      GatheredSourced(n, |cs|, x, query, kw, userinfo, idx);
  }

  lemma {:induction false} GatheredSourced(n: Node, i: nat, x: Scored, query: string, kw: SearchKwargs, userinfo: Attrs, idx: Indexes)
    requires n.Router? && i <= |n.children|
    requires x in Gathered(n, i, query, kw, userinfo, idx)
    ensures exists j :: 0 <= j < i && Sourced(n.children[j], x, query, kw, userinfo, idx)
    decreases n, 0, i
  {
    var prev := Gathered(n, i - 1, query, kw, userinfo, idx);
    if x in prev {
      GatheredSourced(n, i - 1, x, query, kw, userinfo, idx);
    } else {
      RetrieveSourced(n.children[i - 1], x, query, kw, userinfo, idx);
    }
  }

  /** Secure, with a document check at the leaf: what the leaf answers carries the leaf's metadata. */
  lemma SourcedLeafStamped(leaf: Node, x: Scored, query: string, kw: SearchKwargs, userinfo: Attrs, idx: Indexes, key: string)
    requires leaf.Leaf? && IsSecure(kw) && leaf.abacPdp.Some?
    requires Sourced(leaf, x, query, kw, userinfo, idx)
    requires key in leaf.metadata && key != "score"
    ensures key in FullMetadata(x) && FullMetadata(x)[key] == leaf.metadata[key]
  {
    var d :| d in LeafHits(leaf, query, kw, idx) && DocAllowed(leaf.abacPdp.value, userinfo, d) && x == Stamp(d, leaf.metadata);
  }

  /**
   * Secure, under a router whose children are leaves with document checks:
   * every answer carries the `key` metadata of the leaf it came through.
   */
  lemma RouterAnswersStamped(n: Node, x: Scored, query: string, kw: SearchKwargs, userinfo: Attrs, idx: Indexes, key: string)
    requires n.Router? && IsSecure(kw) && key != "score"
    requires forall i :: 0 <= i < |n.children| ==>
      n.children[i].Leaf? && n.children[i].abacPdp.Some? && key in n.children[i].metadata
    requires x in Retrieve(n, query, kw, userinfo, idx)
    ensures key in FullMetadata(x)
    ensures exists i :: 0 <= i < |n.children| && FullMetadata(x)[key] == n.children[i].metadata[key]
  {
    RetrieveSourced(n, x, query, kw, userinfo, idx);
    var i :| 0 <= i < |n.children| && Sourced(n.children[i], x, query, kw, userinfo, idx);
    SourcedLeafStamped(n.children[i], x, query, kw, userinfo, idx, key);
  }

  /** A denied gate hides the whole subtree: the indexes' answers do not matter. */
  lemma DeniedGateSkipsSearch(n: Node, query: string, kw: SearchKwargs, userinfo: Attrs, idx: Indexes, idx': Indexes)
    requires GateDenies(n, kw, userinfo)
    ensures Retrieve(n, query, kw, userinfo, idx) == [] == Retrieve(n, query, kw, userinfo, idx')
  {
  }

  // ---------------------------------------------------------------------------
  // Person names found in the query

  /** A named entity the recogniser found, with its label `label_` (`PERSON`, `DATE`, ...). */
  datatype Entity = Entity(text: string, kind: string)

  /** The named-entity recogniser (`spacy.load("en_core_web_sm")(query).ents`). */
  type Ner = string -> seq<Entity>

  /** `t.rfind(c)` for a character that occurs. */
  function LastIndexOf(t: string, c: char): (i: nat)
    requires c in t
    ensures i < |t| && t[i] == c
    ensures forall j :: i < j < |t| ==> t[j] != c
  {
    if t[|t| - 1] == c then |t| - 1
    else
      assert c in t[..|t| - 1] by {
        var j :| 0 <= j < |t| && t[j] == c;
        assert t[..|t| - 1][j] == c;
      }
      LastIndexOf(t[..|t| - 1], c)
  }

  /** A name is cut at its last apostrophe (`"Edward Fisher's"` to `"Edward Fisher"`). */
  function TrimName(text: string): (name: string)
    ensures |name| <= |text| && name == text[..|name|]
    ensures '\'' !in text ==> name == text
    ensures '\'' in text ==> |name| < |text| && text[|name|] == '\''
    ensures '\'' in text ==> forall j :: |name| < j < |text| ==> text[j] != '\''
  {
    if '\'' in text then text[..LastIndexOf(text, '\'')] else text
  }

  /** The trimmed texts of the `PERSON` entities, in order. */
  function PersonNames(ents: seq<Entity>): (names: seq<string>)
    ensures |names| <= |ents|
  {
    if ents == [] then []
    else
      var e := ents[|ents| - 1];
      PersonNames(ents[..|ents| - 1]) + (if e.kind == "PERSON" then [TrimName(e.text)] else [])
  }

  /** The names found are exactly the trimmed person entities, and none is found without one. */
  lemma {:induction false} PersonNamesSpec(ents: seq<Entity>, name: string)
    ensures name in PersonNames(ents) <==> exists e :: e in ents && e.kind == "PERSON" && name == TrimName(e.text)
    ensures PersonNames(ents) == [] <==> forall e :: e in ents ==> e.kind != "PERSON"
  {
    if ents != [] {
      var init, last := ents[..|ents| - 1], ents[|ents| - 1];
      PersonNamesSpec(init, name);
      assert ents == init + [last];
      if exists e :: e in ents && e.kind == "PERSON" && name == TrimName(e.text) {
        var e :| e in ents && e.kind == "PERSON" && name == TrimName(e.text);
        if e != last {
          assert e in init;
        }
      }
      if PersonNames(ents) == [] {
        forall e | e in ents ensures e.kind != "PERSON" {
          if e != last {
            assert e in init;
          }
        }
      }
    }
  }

  /** `filters = {}`, then `filters["name"] = names` when names were found. */
  function NameFilters(names: seq<string>): (fs: FilterMap)
    ensures fs == [] <==> names == []
    ensures fs != [] ==> fs == [("name", names)]
  {
    if names == [] then [] else [("name", names)]
  }

  // ---------------------------------------------------------------------------
  // The root: one request per hospital

  /** The GET parameters of a peer request; `userinfo` and `search_kwargs` travel as JSON. */
  datatype Params = Params(query: string, userinfo: Attrs, searchKwargs: SearchKwargs)

  /** An object's "docs" entry: absent, JSON `null`, or a list of documents. */
  datatype DocsEntry = Absent | Null | Docs(list: seq<Scored>)

  /** A peer's body: a JSON object, other JSON, or unparsable text. */
  datatype Body = Object(docs: DocsEntry) | NotObject | Unparsable

  /** What `requests.get` ends in: a connection error, or a response. */
  datatype Reply = Unreachable | Response(status: int, body: Body)

  /** The hospitals' `/api/retrieve` endpoints. */
  type Peers = (string, Params) -> Reply

  /**
   * `RootRetriever._retrieve`: the reply's "docs" (`[]` when the key is
   * absent); `None` on any exception (no connection, a 4xx/5xx status from
   * `raise_for_status`, a body that is not JSON or not an object) and when
   * "docs" is `null`, which `get` hands back as `None`.
   */
  function FetchDocs(reply: Reply): (r: Option<seq<Scored>>)
    ensures r.Some? <==>
      reply.Response? && !(400 <= reply.status < 600) && reply.body.Object? && !reply.body.docs.Null?
    ensures r.Some? && reply.body.docs.Docs? ==> r.value == reply.body.docs.list
    ensures r.Some? && reply.body.docs.Absent? ==> r.value == []
  {
    match reply
    case Unreachable => None
    case Response(status, body) =>
      if 400 <= status < 600 then None
      else match body
        case Object(docs) => (
          match docs
          case Absent => Some([])
          case Null => None
          case Docs(list) => Some(list))
        case NotObject => None
        case Unparsable => None
  }

  /** `_retrieve` for every endpoint, in list order. */
  function FetchAll(uris: seq<string>, params: Params, peers: Peers): (rs: seq<Option<seq<Scored>>>)
    ensures |rs| == |uris|
    ensures forall i :: 0 <= i < |uris| ==> rs[i] == FetchDocs(peers(uris[i], params))
  {
    seq(|uris|, i requires 0 <= i < |uris| => FetchDocs(peers(uris[i], params)))
  }

  /** `order` lists each of `0 .. n-1` once: the order `done.pop()` hands the futures out. */
  predicate IsPermutation(order: seq<nat>, n: nat) {
    && |order| == n
    && (forall j :: 0 <= j < |order| ==> order[j] < n)
    && (forall j, j' :: 0 <= j < j' < |order| ==> order[j] != order[j'])
  }

  datatype RootError = ExtendedWithNone(peer: nat)

  /**
   * The `while done: docs.extend(done.pop().result())` loop: the lists are
   * concatenated in pop order; extending with a failed peer's `None` raises.
   */
  function Drain(results: seq<Option<seq<Scored>>>, order: seq<nat>): Result<seq<Scored>, RootError>
    requires forall j :: 0 <= j < |order| ==> order[j] < |results|
  {
    if order == [] then Ok([])
    else
      var prev := Drain(results, order[..|order| - 1]);
      var p := order[|order| - 1];
      if prev.Err? then prev
      else if results[p].None? then Err(ExtendedWithNone(p))
      else Ok(prev.value + results[p].value)
  }

  /** `RootRetriever._get_relevant_documents` as a value. */
  function RootResult(results: seq<Option<seq<Scored>>>, order: seq<nat>, k: int): Result<seq<Scored>, RootError>
    requires forall j :: 0 <= j < |order| ==> order[j] < |results|
  {
    match Drain(results, order)
    case Err(e) => Err(e)
    case Ok(docs) => Ok(MergeTopK(docs, k))
  }

  /**
   * The drain succeeds iff every drained peer answered, and then holds exactly
   * the documents of the drained peers.
   */
  lemma {:induction false} DrainSpec(results: seq<Option<seq<Scored>>>, order: seq<nat>, x: Scored)
    requires forall j :: 0 <= j < |order| ==> order[j] < |results|
    ensures Drain(results, order).Ok? <==> forall j :: 0 <= j < |order| ==> results[order[j]].Some?
    ensures Drain(results, order).Ok? ==>
      (x in Drain(results, order).value <==> exists j :: 0 <= j < |order| && x in results[order[j]].value)
  {
    if order != [] {
      var init := order[..|order| - 1];
      var p := order[|order| - 1];
      DrainSpec(results, init, x);
      assert forall j :: 0 <= j < |init| ==> init[j] == order[j];
      if Drain(results, order).Ok? && exists j :: 0 <= j < |order| && x in results[order[j]].value {
        var j :| 0 <= j < |order| && x in results[order[j]].value;
        if j < |init| {
          assert x in results[init[j]].value;
        }
      }
    }
  }

  /**
   * One failing peer makes the whole root call fail, whatever the pop order;
   * when all answer, every peer's documents reach the final merge.
   */
  lemma RootFailsIffSomePeerFails(results: seq<Option<seq<Scored>>>, order: seq<nat>, k: int, x: Scored)
    requires IsPermutation(order, |results|)
    ensures RootResult(results, order, k).Err? <==> exists i :: 0 <= i < |results| && results[i].None?
    ensures Drain(results, order).Ok? ==>
      (x in Drain(results, order).value <==> exists i :: 0 <= i < |results| && x in results[i].value)
  {
    DrainSpec(results, order, x);
    PermutationCovers(order, |results|);
    if exists i :: 0 <= i < |results| && results[i].None? {
      var i :| 0 <= i < |results| && results[i].None?;
      assert i in order;
      var j :| 0 <= j < |order| && order[j] == i;
      assert results[order[j]].None?;
    }
    if Drain(results, order).Ok? && exists i :: 0 <= i < |results| && x in results[i].value {
      var i :| 0 <= i < |results| && x in results[i].value;
      assert i in order;
      var j :| 0 <= j < |order| && order[j] == i;
      assert x in results[order[j]].value;
    }
  }

  /** A permutation of `0 .. n-1` lists every index. */
  lemma PermutationCovers(order: seq<nat>, n: nat)
    requires IsPermutation(order, n)
    ensures forall i :: 0 <= i < n ==> i in order
  {
    var listed := set j | 0 <= j < |order| :: order[j];
    assert forall i :: i in listed ==> i < n;
    InjectiveImage(order);
    assert |listed| == n;
    SubsetOfRange(listed, n);
    forall i | 0 <= i < n ensures i in order {
      assert i in listed;
    }
  }

  /** Distinct entries: the set of entries is as large as the list. */
  lemma {:induction false} InjectiveImage(order: seq<nat>)
    requires forall j, j' :: 0 <= j < j' < |order| ==> order[j] != order[j']
    ensures |set j | 0 <= j < |order| :: order[j]| == |order|
  {
    if order != [] {
      var init := order[..|order| - 1];
      InjectiveImage(init);
      var s := set j | 0 <= j < |init| :: init[j];
      assert (set j | 0 <= j < |order| :: order[j]) == s + {order[|order| - 1]};
      assert order[|order| - 1] !in s;
    }
  }

  /** A subset of `0 .. n-1` with `n` elements is all of it. */
  lemma {:induction false} SubsetOfRange(s: set<nat>, n: nat)
    requires forall i :: i in s ==> i < n
    requires |s| == n
    ensures forall i :: 0 <= i < n ==> i in s
  {
    if n > 0 {
      if n - 1 in s {
        SubsetOfRange(s - {n - 1}, n - 1);
      } else {
        SmallSet(s, n - 1);
      }
    }
  }

  /** A subset of `0 .. n-1` has at most `n` elements. */
  lemma {:induction false} SmallSet(s: set<nat>, n: nat)
    requires forall i :: i in s ==> i < n
    ensures |s| <= n
  {
    if n > 0 {
      SmallSet(s - {n - 1}, n - 1);
    } else {
      assert s == {};
    }
  }

  /** The top-level retriever of the querying hospital. */
  class RootRetriever {
    const hospitalRetrieveUris: seq<string>
    const userinfo: Attrs
    var searchKwargs: SearchKwargs

    constructor(uris: seq<string>, userinfo: Attrs, searchKwargs: SearchKwargs)
      ensures hospitalRetrieveUris == uris && this.userinfo == userinfo && this.searchKwargs == searchKwargs
    {
      hospitalRetrieveUris := uris;
      this.userinfo := userinfo;
      this.searchKwargs := searchKwargs;
    }

    /**
     * `RootRetriever._get_relevant_documents`: rewrites `filters` from the
     * person names in the query, sends every peer the same (rewritten)
     * parameters, concatenates the answers in pop order and merges them.
     */
    method GetRelevantDocuments(query: string, ner: Ner, peers: Peers, order: seq<nat>)
      returns (r: Result<seq<Scored>, RootError>)
      requires IsPermutation(order, |hospitalRetrieveUris|)
      modifies this
      ensures searchKwargs == old(searchKwargs).(filters := Some(NameFilters(PersonNames(ner(query)))))
      ensures r == RootResult(FetchAll(hospitalRetrieveUris, Params(query, userinfo, searchKwargs), peers), order, searchKwargs.k)
    {
      var names := PersonNames(ner(query));
      searchKwargs := searchKwargs.(filters := Some([]));
      if names != [] {
        searchKwargs := searchKwargs.(filters := Some([("name", names)]));
      }
      var params := Params(query, userinfo, searchKwargs);
      var results := FetchEach(hospitalRetrieveUris, params, peers);
      var drained := DrainInOrder(results, order);
      if drained.Err? {
        return Err(drained.error);
      }
      var docs := drained.value;
      return Ok(MergeTopK(docs, searchKwargs.k));
    }
  }

  /** The submit loop: one request per peer, answers kept in peer order. */
  method FetchEach(uris: seq<string>, params: Params, peers: Peers) returns (results: seq<Option<seq<Scored>>>)
    ensures results == FetchAll(uris, params, peers)
  {
    results := [];
    var i := 0;
    while i < |uris|
      invariant 0 <= i <= |uris|
      invariant results == FetchAll(uris, params, peers)[..i]
    {
      results := results + [FetchDocs(peers(uris[i], params))];
      i := i + 1;
    }
    assert results == FetchAll(uris, params, peers);
  }

  /** The drain loop: extends with each popped answer, raising at the first failed peer. */
  method DrainInOrder(results: seq<Option<seq<Scored>>>, order: seq<nat>) returns (r: Result<seq<Scored>, RootError>)
    requires forall j :: 0 <= j < |order| ==> order[j] < |results|
    ensures r == Drain(results, order)
  {
    var docs: seq<Scored> := [];
    var j := 0;
    while j < |order|
      invariant 0 <= j <= |order|
      invariant Drain(results, order[..j]) == Ok(docs)
    {
      assert order[..j + 1][..j] == order[..j];
      var fetched := results[order[j]];
      if fetched.None? {
        DrainErrSticks(results, order, j + 1);
        return Err(ExtendedWithNone(order[j]));
      }
      docs := docs + fetched.value;
      j := j + 1;
    }
    assert order[..j] == order;
    return Ok(docs);
  }

  /** Once the drain has raised, draining more keeps the same error. */
  lemma {:induction false} DrainErrSticks(results: seq<Option<seq<Scored>>>, order: seq<nat>, j: nat)
    requires forall i :: 0 <= i < |order| ==> order[i] < |results|
    requires j <= |order|
    requires Drain(results, order[..j]).Err?
    ensures Drain(results, order) == Drain(results, order[..j])
    decreases |order| - j
  {
    if j < |order| {
      assert order[..j + 1][..j] == order[..j];
      DrainErrSticks(results, order, j + 1);
    } else {
      assert order[..j] == order;
    }
  }

  // ---------------------------------------------------------------------------
  // The baseline: one index over every hospital's documents

  /** The centralised retriever the evaluation compares against. */
  class BaselineRetriever {
    const docs: seq<Doc>
    const dbPath: string
    const abacGate: Option<Pdp>
    const abacPdp: Option<Pdp>
    const metadata: Attrs
    var searchKwargs: SearchKwargs

    constructor(docs: seq<Doc>, dbPath: string, searchKwargs: SearchKwargs, abacGate: Option<Pdp>, abacPdp: Option<Pdp>, metadata: Attrs)
      ensures this.docs == docs && this.dbPath == dbPath && this.searchKwargs == searchKwargs
      ensures this.abacGate == abacGate && this.abacPdp == abacPdp && this.metadata == metadata
    {
      this.docs := docs;
      this.dbPath := dbPath;
      this.searchKwargs := searchKwargs;
      this.abacGate := abacGate;
      this.abacPdp := abacPdp;
      this.metadata := metadata;
    }

    /**
     * `BaselineRetriever._get_relevant_documents`: the gate comes first and
     * ignores `secure`; only a user it lets through gets `filters` rewritten.
     * `store` is the baseline collection.
     */
    method GetRelevantDocuments(query: string, userinfo: Attrs, ner: Ner, store: VS.Store) returns (r: seq<Scored>)
      modifies this
      ensures !GateAllows(abacGate, userinfo, metadata) ==> r == [] && searchKwargs == old(searchKwargs)
      ensures GateAllows(abacGate, userinfo, metadata) ==>
        && searchKwargs == old(searchKwargs).(filters := Some(NameFilters(PersonNames(ner(query)))))
        && r == Finish(true, abacPdp, userinfo, metadata,
                       VS.WithScores(store(query, BuildFilter(searchKwargs.filters), searchKwargs.fetchK)), searchKwargs.k)
    {
      if abacGate.Some? && !IsAllowed(abacGate.value, ReadRequest(userinfo, metadata)) {
        return [];
      }
      var names := PersonNames(ner(query));
      searchKwargs := searchKwargs.(filters := Some([]));
      if names != [] {
        searchKwargs := searchKwargs.(filters := Some([("name", names)]));
      }
      var flt := BuildFilter(searchKwargs.filters);
      var res := VS.GetRelevantDocuments(VS.SIMILARITY, store, query, flt, searchKwargs.fetchK);
      var relevant := res.value;
      VS.StampedFromUnique(relevant, VS.WithScores(store(query, flt, searchKwargs.fetchK)), store(query, flt, searchKwargs.fetchK));
      if abacPdp.None? {
        return MergeTopK(relevant, searchKwargs.k);
      }
      var accessible := FilterAccessible(abacPdp.value, userinfo, metadata, relevant);
      return MergeTopK(accessible, searchKwargs.k);
    }
  }
}
