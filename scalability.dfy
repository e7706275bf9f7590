/**
 * The scalability experiment's tree builder: the data frame is split into
 * `n` organisations; with depth 0 each organisation is one leaf, otherwise
 * its part is split into `2^d` leaves which are paired into routers, round
 * after round, until one root remains.
 */
module Scalability {
  import opened Values
  import opened FederatedRetriever
  import Util

  // ---------------------------------------------------------------------------
  // `np.array_split`

  /** Where part `i` of `len` items split into `n` parts starts: the first `len % n` parts get one extra. */
  function PartStart(len: nat, n: nat, i: nat): nat
    requires n >= 1 && i <= n
  {
    i * (len / n) + (if i < len % n then i else len % n)
  }

  lemma {:induction false} MulMono(a: nat, b: nat, q: nat)
    requires a <= b
    ensures a * q <= b * q
    decreases b - a
  {
    if a < b {
      MulMono(a, b - 1, q);
      assert b * q == (b - 1) * q + q;
    }
  }

  lemma PartStartBounds(len: nat, n: nat, i: nat)
    requires n >= 1 && i < n
    ensures PartStart(len, n, i) <= PartStart(len, n, i + 1) <= len
    ensures PartStart(len, n, i + 1) - PartStart(len, n, i) == len / n + (if i < len % n then 1 else 0)
  {
    var q, r := len / n, len % n;
    assert len == n * q + r;
    assert (i + 1) * q == i * q + q;
    MulMono(i + 1, n, q);
    assert PartStart(len, n, i + 1) <= (i + 1) * q + r;
  }

  /** `np.array_split(xs, n)`: `n` consecutive parts whose sizes differ by at most one. */
  function ArraySplit<T>(xs: seq<T>, n: nat): (parts: seq<seq<T>>)
    requires n >= 1
    ensures |parts| == n
  {
    seq(n, i requires 0 <= i < n =>
      PartStartBounds(|xs|, n, i);
      xs[PartStart(|xs|, n, i)..PartStart(|xs|, n, i + 1)])
  }

  /** Each part has `len / n` items, one more for the first `len % n` parts. */
  lemma ArraySplitSizes<T>(xs: seq<T>, n: nat, i: int)
    requires n >= 1 && 0 <= i < n
    ensures |ArraySplit(xs, n)[i]| == |xs| / n + (if i < |xs| % n then 1 else 0)
  {
    PartStartBounds(|xs|, n, i);
  }

  /** The parts, concatenated, are the input. */
  lemma ArraySplitPartition<T>(xs: seq<T>, n: nat)
    requires n >= 1
    ensures Util.Flatten(ArraySplit(xs, n)) == xs
  {
    var parts := ArraySplit(xs, n);
    ArraySplitPrefix(xs, n, n);
    assert parts[..n] == parts;
    assert PartStart(|xs|, n, n) == |xs| by {
      assert n * (|xs| / n) + |xs| % n == |xs|;
    }
  }

  lemma {:induction false} ArraySplitPrefix<T>(xs: seq<T>, n: nat, k: nat)
    requires 1 <= n && k <= n
    ensures PartStart(|xs|, n, k) <= |xs|
    ensures Util.Flatten(ArraySplit(xs, n)[..k]) == xs[..PartStart(|xs|, n, k)]
  {
    var parts := ArraySplit(xs, n);
    if k == 0 {
      assert parts[..0] == [];
    } else {
      ArraySplitPrefix(xs, n, k - 1);
      PartStartBounds(|xs|, n, k - 1);
      assert parts[..k][..k - 1] == parts[..k - 1];
      assert xs[..PartStart(|xs|, n, k)] == xs[..PartStart(|xs|, n, k - 1)] + parts[k - 1];
    }
  }

  /** A data frame split by rows, each part keeping the columns. */
  function SplitTable(df: Table, n: nat): (parts: seq<Table>)
    requires n >= 1
    ensures |parts| == n
    ensures forall i :: 0 <= i < n ==> parts[i] == Table(df.columns, ArraySplit(df.rows, n)[i])
  {
    var rowParts := ArraySplit(df.rows, n);
    seq(n, i requires 0 <= i < n => Table(df.columns, rowParts[i]))
  }

  // ---------------------------------------------------------------------------
  // Nodes

  /** `LeafRetriever(id=..., db_path=..., df=..., text_col="text")`: no gates, no metadata. */
  function ScaleLeaf(id: string, dbPath: string, df: Table): Node {
    Leaf(id, dbPath, df, Some("text"), None, None, map[])
  }

  /** `RouterRetriever(id="", children=[left, right])` */
  function PairRouter(left: Node, right: Node): Node {
    Router("", [left, right], None, map[])
  }

  function NatStr(k: nat): string {
    NatToString(k)
  }

  /** The leaves of one organisation: `f"{n}{d}{i}{j}"` over `qdrant/n/d/i/j`, one per part. */
  function LeafLevel(n: nat, d: nat, i: nat, parts: seq<Table>): (level: seq<Node>)
    ensures |level| == |parts|
    ensures forall j :: 0 <= j < |parts| ==>
      level[j] == ScaleLeaf(NatStr(n) + NatStr(d) + NatStr(i) + NatStr(j),
                            "qdrant/" + NatStr(n) + "/" + NatStr(d) + "/" + NatStr(i) + "/" + NatStr(j), parts[j])
  {
    seq(|parts|, j requires 0 <= j < |parts| =>
      ScaleLeaf(NatStr(n) + NatStr(d) + NatStr(i) + NatStr(j),
                "qdrant/" + NatStr(n) + "/" + NatStr(d) + "/" + NatStr(i) + "/" + NatStr(j), parts[j]))
  }

  /** One pairing round: router `m` takes nodes `2m` and `2m + 1`. */
  function Paired(level: seq<Node>): (next: seq<Node>)
    requires |level| % 2 == 0
    ensures |next| == |level| / 2
    ensures forall m :: 0 <= m < |next| ==> next[m] == PairRouter(level[2 * m], level[2 * m + 1])
  {
    seq(|level| / 2, m requires 0 <= m < |level| / 2 => PairRouter(level[2 * m], level[2 * m + 1]))
  }

  function Pow2(k: nat): (p: nat)
    ensures p >= 1
  {
    if k == 0 then 1 else Pow2(k - 1) + Pow2(k - 1)
  }

  /** `k` pairing rounds over a level of `2^k` nodes. */
  function Rounds(level: seq<Node>, k: nat): (top: seq<Node>)
    requires |level| == Pow2(k)
    ensures |top| == 1
    decreases k
  {
    if k == 0 then level else Rounds(Paired(level), k - 1)
  }

  /** One round takes a level of `2^k` nodes to one of `2^(k-1)`. */
  lemma RoundsStep(level: seq<Node>, k: nat)
    requires k > 0 && |level| == Pow2(k)
    ensures |level| % 2 == 0 && |Paired(level)| == Pow2(k - 1)
    ensures Rounds(level, k) == Rounds(Paired(level), k - 1)
  {
  }

  /** The inner `for left_i in range(0, len(level_nodes), 2)` loop. */
  method PairUp(level: seq<Node>) returns (newLevel: seq<Node>)
    requires |level| % 2 == 0
    ensures newLevel == Paired(level)
  {
    newLevel := [];
    var leftI := 0;
    while leftI < |level|
      invariant leftI % 2 == 0 && 0 <= leftI <= |level|
      invariant |newLevel| == leftI / 2
      invariant forall m :: 0 <= m < |newLevel| ==> newLevel[m] == PairRouter(level[2 * m], level[2 * m + 1])
    {
      var left, right := level[leftI], level[leftI + 1];
      newLevel := newLevel + [PairRouter(left, right)];
      leftI := leftI + 2;
    }
  }

  /** The `for _ in range(d)` loop: the organisation's root. */
  method BuildOrgRoot(leafNodes: seq<Node>, d: nat) returns (orgRoot: Node)
    requires |leafNodes| == Pow2(d)
    ensures orgRoot == Rounds(leafNodes, d)[0]
  {
    var levelNodes := leafNodes;
    var round := 0;
    while round < d
      invariant 0 <= round <= d
      invariant |levelNodes| == Pow2(d - round)
      invariant Rounds(levelNodes, d - round) == Rounds(leafNodes, d)
    {
      RoundsStep(levelNodes, d - round);
      levelNodes := PairUp(levelNodes);
      round := round + 1;
    }
    orgRoot := levelNodes[0];
  }

  // ---------------------------------------------------------------------------
  // The shape of an organisation's tree

  /** The leaves under a node, left to right. */
  function LeavesOf(n: Node): seq<Node>
    decreases n, 1
  {
    if n.Leaf? then [n] else LeavesUpTo(n, |n.children|)
  }

  function LeavesUpTo(n: Node, i: nat): seq<Node>
    requires n.Router? && i <= |n.children|
    decreases n, 0, i
  {
    if i == 0 then [] else LeavesUpTo(n, i - 1) + LeavesOf(n.children[i - 1])
  }

  /** The leaves under a level's nodes, left to right. */
  function LevelLeaves(level: seq<Node>): seq<Node> {
    if level == [] then [] else LevelLeaves(level[..|level| - 1]) + LeavesOf(level[|level| - 1])
  }

  /** Every leaf is at depth `d`, and every router has two children. */
  predicate Balanced(n: Node, d: nat)
    decreases n
  {
    match n
    case Leaf(_, _, _, _, _, _, _) => d == 0
    case Router(_, children, _, _) =>
      d > 0 && |children| == 2 && Balanced(children[0], d - 1) && Balanced(children[1], d - 1)
  }

  lemma PairRouterLeaves(left: Node, right: Node)
    ensures LeavesOf(PairRouter(left, right)) == LeavesOf(left) + LeavesOf(right)
  {
    var r := PairRouter(left, right);
    assert LeavesUpTo(r, 1) == LeavesUpTo(r, 0) + LeavesOf(left);
  }

  lemma LevelLeavesSnoc(level: seq<Node>, x: Node)
    ensures LevelLeaves(level + [x]) == LevelLeaves(level) + LeavesOf(x)
  {
    assert (level + [x])[..|level|] == level;
  }

  lemma PairedSnoc(init: seq<Node>, a: Node, b: Node)
    requires |init| % 2 == 0
    ensures Paired(init + [a, b]) == Paired(init) + [PairRouter(a, b)]
  {
  }

  lemma {:induction false} PairedKeepsLeaves(level: seq<Node>)
    requires |level| % 2 == 0
    ensures LevelLeaves(Paired(level)) == LevelLeaves(level)
    decreases |level|
  {
    if level != [] {
      var k := |level|;
      var init, a, b := level[..k - 2], level[k - 2], level[k - 1];
      assert level == init + [a, b];
      PairedKeepsLeaves(init);
      PairedSnoc(init, a, b);
      LevelLeavesSnoc(Paired(init), PairRouter(a, b));
      PairRouterLeaves(a, b);
      LevelLeavesSnoc(init, a);
      LevelLeavesSnoc(init + [a], b);
      assert init + [a] + [b] == level;
    }
  }

  lemma {:induction false} RoundsKeepLeaves(level: seq<Node>, k: nat)
    requires |level| == Pow2(k)
    ensures LevelLeaves(Rounds(level, k)) == LevelLeaves(level)
    decreases k
  {
    if k > 0 {
      RoundsStep(level, k);
      PairedKeepsLeaves(level);
      RoundsKeepLeaves(Paired(level), k - 1);
    }
  }

  /** Every node of the level is balanced at depth `depth`. */
  predicate AllBalanced(level: seq<Node>, depth: nat) {
    forall j :: 0 <= j < |level| ==> Balanced(level[j], depth)
  }

  lemma PairedBalanced(level: seq<Node>, depth: nat)
    requires |level| % 2 == 0 && AllBalanced(level, depth)
    ensures AllBalanced(Paired(level), depth + 1)
  {
    forall m | 0 <= m < |Paired(level)| ensures Balanced(Paired(level)[m], depth + 1) {
      assert Balanced(level[2 * m], depth) && Balanced(level[2 * m + 1], depth);
    }
  }

  lemma {:induction false} RoundsBalanced(level: seq<Node>, k: nat, depth: nat)
    requires |level| == Pow2(k) && AllBalanced(level, depth)
    ensures AllBalanced(Rounds(level, k), depth + k)
    decreases k
  {
    if k > 0 {
      RoundsStep(level, k);
      PairedBalanced(level, depth);
      RoundsBalanced(Paired(level), k - 1, depth + 1);
      assert depth + 1 + (k - 1) == depth + k;
    }
  }

  /** Every node of the level is a leaf. */
  predicate AllLeaves(level: seq<Node>) {
    forall j :: 0 <= j < |level| ==> level[j].Leaf?
  }

  lemma {:induction false} LeafLevelLeaves(level: seq<Node>)
    requires AllLeaves(level)
    ensures LevelLeaves(level) == level
  {
    if level != [] {
      var init := level[..|level| - 1];
      assert AllLeaves(init) by {
        forall j | 0 <= j < |init| ensures init[j].Leaf? {
          assert init[j] == level[j];
        }
      }
      LeafLevelLeaves(init);
      assert init + [level[|level| - 1]] == level;
    }
  }

  lemma SingleLevelLeaves(top: seq<Node>)
    requires |top| == 1
    ensures LevelLeaves(top) == LeavesOf(top[0])
  {
    assert top[..0] == [];
  }

  /**
   * An organisation's root built over `2^d` leaves: every leaf at depth `d`,
   * every router with two children, and the leaves, left to right, in the
   * order they were built.
   */
  lemma OrgRootShape(leafNodes: seq<Node>, d: nat)
    requires |leafNodes| == Pow2(d)
    requires AllLeaves(leafNodes)
    ensures Balanced(Rounds(leafNodes, d)[0], d)
    ensures LeavesOf(Rounds(leafNodes, d)[0]) == leafNodes
  {
    var top := Rounds(leafNodes, d);
    RoundsBalanced(leafNodes, d, 0);
    assert AllBalanced(top, d);
    RoundsKeepLeaves(leafNodes, d);
    LeafLevelLeaves(leafNodes);
    SingleLevelLeaves(top);
  }

  // ---------------------------------------------------------------------------
  // `gen_org_subtrees`

  datatype ScaleError = NumberOfSectionsNotPositive

  /** The leaves of organisation `i` when the depth is positive. */
  function OrgLeaves(n: nat, d: nat, i: nat, orgDf: Table): (leaves: seq<Node>)
    ensures |leaves| == Pow2(d)
  {
    LeafLevel(n, d, i, SplitTable(orgDf, Pow2(d)))
  }

  /** Organisation `i`'s subtree. */
  function OrgSubtree(n: nat, d: nat, i: nat, orgDf: Table): Node {
    if d == 0 then ScaleLeaf(NatStr(n) + NatStr(d) + NatStr(i), "qdrant/" + NatStr(n) + "/" + NatStr(d) + "/" + NatStr(i), orgDf)
    else Rounds(OrgLeaves(n, d, i, orgDf), d)[0]
  }

  /** Every organisation's subtree is balanced at depth `d`, with its part's rows split over its leaves in order. */
  lemma OrgSubtreeShape(n: nat, d: nat, i: nat, orgDf: Table)
    ensures Balanced(OrgSubtree(n, d, i, orgDf), d)
    ensures var leaves := LeavesOf(OrgSubtree(n, d, i, orgDf));
      && |leaves| == Pow2(d)
      && (forall j :: 0 <= j < |leaves| ==> leaves[j].Leaf? && leaves[j].df.columns == orgDf.columns)
      && Util.Flatten(seq(|leaves|, j requires 0 <= j < |leaves| => leaves[j].df.rows)) == orgDf.rows
  {
    if d > 0 {
      OrgRootShape(OrgLeaves(n, d, i, orgDf), d);
    }
    var leaves := LeavesOf(OrgSubtree(n, d, i, orgDf));
    var rows := seq(|leaves|, j requires 0 <= j < |leaves| => leaves[j].df.rows);
    if d == 0 {
      assert rows == [orgDf.rows];
      assert Util.Flatten(rows) == Util.Flatten(rows[..0]) + orgDf.rows;
    } else {
      assert rows == ArraySplit(orgDf.rows, Pow2(d));
      ArraySplitPartition(orgDf.rows, Pow2(d));
    }
  }

  /** One turn of the per-organisation loop at a positive depth: split, build the leaves, pair them up. */
  method BuildOrgSubtree(n: nat, d: nat, i: nat, orgDf: Table) returns (orgRoot: Node)
    requires d > 0
    ensures orgRoot == OrgSubtree(n, d, i, orgDf)
  {
    var nLeaf := Pow2(d);
    var leafDfs := SplitTable(orgDf, nLeaf);
    var leafNodes := LeafLevel(n, d, i, leafDfs);
    orgRoot := BuildOrgRoot(leafNodes, d);
  }

  /**
   * `gen_org_subtrees(df, n, d)` without the per-organisation server: one
   * subtree per part of the frame, in order; a part count of zero or less is numpy's `ValueError`.
   */
  method GenOrgSubtrees(df: Table, n: int, d: nat) returns (r: Result<seq<Node>, ScaleError>)
    ensures n <= 0 <==> r.Err?
    ensures r.Ok? ==> |r.value| == n
    ensures r.Ok? ==> forall i :: 0 <= i < n ==> r.value[i] == OrgSubtree(n, d, i, SplitTable(df, n)[i])
  {
    if n <= 0 {
      return Err(NumberOfSectionsNotPositive);
    }
    var orgDfs := SplitTable(df, n);
    if d == 0 {
      return Ok(seq(n, i requires 0 <= i < n =>
        ScaleLeaf(NatStr(n) + NatStr(d) + NatStr(i), "qdrant/" + NatStr(n) + "/" + NatStr(d) + "/" + NatStr(i), orgDfs[i])));
    }
    var orgSubtrees: seq<Node> := [];
    for i := 0 to n
      invariant |orgSubtrees| == i
      invariant forall k :: 0 <= k < i ==> orgSubtrees[k] == OrgSubtree(n, d, k, orgDfs[k])
    {
      var orgRoot := BuildOrgSubtree(n, d, i, orgDfs[i]);
      orgSubtrees := orgSubtrees + [orgRoot];
    }
    return Ok(orgSubtrees);
  }
}
