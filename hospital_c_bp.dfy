/**
 * Hospital C's retrieval service: one leaf per department, each guarded by the
 * department's gate list and document policies, under an org router guarded
 * by the org policies; `/api/retrieve` answers with the router's documents.
 */
module HospitalCBlueprint {
  import opened Values
  import opened Abac
  import opened Merge
  import opened FederatedRetriever
  import CP = HospitalCPolicy

  const ORG: string := "C"
  const HOSP_DATA_PATH: string := "data/"
  const QDRANT_PATH: string := "qdrant/"
  const DEPTS: seq<string> := ["admissions", "neurology"]
  const ROLES: seq<string> := ["physician", "nurse", "technician", "researcher", "student"]

  /** `pd.read_csv(path)` */
  type ReadCsv = string -> Table

  /** The leaf of one department of C, over the table read for it. */
  function DeptRetriever(dept: string, df: Table): (n: Node)
    requires dept in CP.DEPT_GATE_POLICIES && dept in CP.DEPT_POLICIES
    ensures n.Leaf? && n.id == dept && n.df == df
    ensures n.dbPath == PathJoin(QDRANT_PATH, dept)
    ensures n.textCol.None? <==> dept == "admissions"
    ensures n.textCol.Some? ==> n.textCol.value == "text"
    ensures n.abacGate == Some(Pdp(CP.DEPT_GATE_POLICIES[dept]))
    ensures n.abacPdp == Some(Pdp(CP.DEPT_POLICIES[dept]))
    ensures n.metadata == map["org" := Str(ORG), "dept_id" := Str(dept)]
  {
    Leaf(dept, PathJoin(QDRANT_PATH, dept), df, if dept == "admissions" then None else Some("text"),
         Some(Pdp(CP.DEPT_GATE_POLICIES[dept])), Some(Pdp(CP.DEPT_POLICIES[dept])),
         map["org" := Str(ORG), "dept_id" := Str(dept)])
  }

  /** The org router over the department leaves. */
  function OrgRetriever(children: seq<Node>): (n: Node)
    ensures n.Router? && n.id == ORG && n.children == children
    ensures n.abacGate == Some(Pdp(CP.ORG_POLICIES))
    ensures n.metadata == map["org" := Str(ORG), "depts" := Strs(DEPTS)]
  {
    Router(ORG, children, Some(Pdp(CP.ORG_POLICIES)), map["org" := Str(ORG), "depts" := Strs(DEPTS)])
  }

  /** The module-level `for dept in DEPTS` loop: one leaf per department, in `DEPTS` order. */
  method BuildChildRetrievers(readCsv: ReadCsv) returns (children: seq<Node>)
    ensures |children| == |DEPTS|
    ensures forall i :: 0 <= i < |DEPTS| ==>
      children[i] == DeptRetriever(DEPTS[i], readCsv(PathJoin(HOSP_DATA_PATH, DEPTS[i] + ".csv")))
  {
    children := [];
    var i := 0;
    while i < |DEPTS|
      invariant 0 <= i <= |DEPTS|
      invariant |children| == i
      invariant forall j :: 0 <= j < i ==>
        children[j] == DeptRetriever(DEPTS[j], readCsv(PathJoin(HOSP_DATA_PATH, DEPTS[j] + ".csv")))
    {
      var dept := DEPTS[i];
      var deptDf := readCsv(PathJoin(HOSP_DATA_PATH, dept + ".csv"));
      var gate := Pdp(CP.DEPT_GATE_POLICIES[dept]);
      var pdp := Pdp(CP.DEPT_POLICIES[dept]);
      var leaf := Leaf(dept, PathJoin(QDRANT_PATH, dept), deptDf,
                       if dept == "admissions" then None else Some("text"),
                       Some(gate), Some(pdp), map["org" := Str(ORG), "dept_id" := Str(dept)]);
      children := children + [leaf];
      i := i + 1;
    }
  }

  /** Hospital C's tree, as the blueprint builds it at import time. */
  method BuildOrgRetriever(readCsv: ReadCsv) returns (root: Node)
    ensures root == OrgRetriever([DeptRetriever("admissions", readCsv("data/admissions.csv")),
                                  DeptRetriever("neurology", readCsv("data/neurology.csv"))])
  {
    var children := BuildChildRetrievers(readCsv);
    assert PathJoin(HOSP_DATA_PATH, DEPTS[0] + ".csv") == "data/admissions.csv";
    assert PathJoin(HOSP_DATA_PATH, DEPTS[1] + ".csv") == "data/neurology.csv";
    assert children == [children[0], children[1]];
    root := OrgRetriever(children);
  }

  /** The tree over any two department tables. */
  function Tree(admissions: Table, neurology: Table): Node {
    OrgRetriever([DeptRetriever("admissions", admissions), DeptRetriever("neurology", neurology)])
  }

  /** The JSON `/api/retrieve` answers with. */
  datatype ApiResponse = ApiResponse(docs: seq<Scored>, query: string)

  /** `GET /api/retrieve?query=..&userinfo=..&search_kwargs=..` */
  function ApiRetrieve(root: Node, query: string, userinfo: Attrs, kw: SearchKwargs, idx: Indexes): (resp: ApiResponse)
    ensures resp.query == query
    ensures resp.docs == Retrieve(root, query, kw, userinfo, idx)
  {
    ApiResponse(Retrieve(root, query, kw, userinfo, idx), query)
  }

  /** Who gets past C's department gates. */
  predicate PassesDeptGate(u: Attrs) {
    || (Is(u, "org", "C") && IsOneOf(u, "role", ["physician", "nurse", "technician", "researcher"]))
    || (Is(u, "org", "A") && Is(u, "role", "physician") && HasAnyOf(u, "affiliations", ["C_neuro"]))
  }

  /** With access control on, C answers `[]` to anyone outside A and C, whatever the indexes hold. */
  lemma OutsidersGetNothing(admissions: Table, neurology: Table, query: string, kw: SearchKwargs, u: Attrs, idx: Indexes)
    requires IsSecure(kw) && !IsOneOf(u, "org", ["A", "C"])
    ensures Retrieve(Tree(admissions, neurology), query, kw, u, idx) == []
  {
    var t := Tree(admissions, neurology);
    CP.OrgGate(u, t.metadata);
  }

  /** With access control on, C answers `[]` to anyone its department gates turn away. */
  lemma DeptGateKeepsOut(admissions: Table, neurology: Table, query: string, kw: SearchKwargs, u: Attrs, idx: Indexes)
    requires IsSecure(kw) && !PassesDeptGate(u)
    ensures Retrieve(Tree(admissions, neurology), query, kw, u, idx) == []
  {
    var t := Tree(admissions, neurology);
    var adm, neu := t.children[0], t.children[1];
    CP.DeptGate(u, adm.metadata);
    CP.DeptGate(u, neu.metadata);
    assert GateDenies(adm, kw, u) && GateDenies(neu, kw, u);
    assert Gathered(t, 1, query, kw, u, idx) == [];
    assert Gathered(t, 2, query, kw, u, idx) == [];
  }

  /**
   * With access control on, whatever C answers came through one of its
   * department leaves and carries that leaf's `org` and `dept_id`.
   */
  lemma AnswersAreStamped(admissions: Table, neurology: Table, query: string, kw: SearchKwargs, u: Attrs, idx: Indexes, x: Scored)
    requires IsSecure(kw)
    requires x in Retrieve(Tree(admissions, neurology), query, kw, u, idx)
    ensures Is(FullMetadata(x), "org", "C") && IsOneOf(FullMetadata(x), "dept_id", DEPTS)
  {
    var t := Tree(admissions, neurology);
    RouterAnswersStamped(t, x, query, kw, u, idx, "org");
    RouterAnswersStamped(t, x, query, kw, u, idx, "dept_id");
    var i :| 0 <= i < 2 && FullMetadata(x)["dept_id"] == t.children[i].metadata["dept_id"];
    assert FullMetadata(x)["dept_id"] == Str(DEPTS[i]);
  }
}
