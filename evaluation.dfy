/**
 * The evaluation script's bookkeeping: the evaluated users, the scenario
 * pairs, scenario short names, the key each retrieved document is recorded
 * under, the `[k1,k2,...]` cell those keys are stored in, and the share of a
 * reference scenario's documents a predicted scenario also retrieved.
 */
module Evaluation {
  import opened Values

  /** The users each secure scenario runs as. */
  const USERINFOS: seq<Attrs> := [
    map["name" := Str("A.phys"), "org" := Str("A"), "role" := Str("physician"), "dept" := Str("surgery"), "sub" := Str("0")],
    map["name" := Str("A.phys.neur"), "org" := Str("A"), "role" := Str("physician"), "dept" := Str("medicine"),
        "affiliations" := Strs(["C_neuro"]), "sub" := Str("1")],
    map["name" := Str("A.tech.rad"), "org" := Str("A"), "role" := Str("technician"), "dept" := Str("radiology"), "sub" := Str("2")],
    map["name" := Str("A.admin"), "org" := Str("A"), "role" := Str("admin"), "sub" := Str("3")],
    map["name" := Str("A.nurse"), "org" := Str("A"), "role" := Str("nurse"), "dept" := Str("psychiatry"), "sub" := Str("4")],
    map["name" := Str("B.phys"), "org" := Str("B"), "role" := Str("physician"), "dept" := Str("cardiology"), "sub" := Str("5")],
    map["name" := Str("B.nurse"), "org" := Str("B"), "role" := Str("nurse"), "dept" := Str("medicine"), "sub" := Str("6")],
    map["name" := Str("C.research"), "org" := Str("C"), "role" := Str("researcher"), "dept" := Str("neurology"), "sub" := Str("7")]
  ]

  /** `f"{user['name']}"` */
  function UserName(u: Attrs): string
    requires "name" in u
  {
    Show(u["name"])
  }

  /** The baseline against the insecure federation, then the insecure federation against each user's secure run. */
  function EvalPairs(users: seq<Attrs>): (pairs: seq<(string, string)>)
    requires forall i :: 0 <= i < |users| ==> "name" in users[i]
    ensures |pairs| == |users| + 1
    ensures pairs[0] == ("centralized_insecure", "federated_insecure")
    ensures forall i :: 0 <= i < |users| ==> pairs[i + 1] == ("federated_insecure", "federated_secure_" + UserName(users[i]))
  {
    [("centralized_insecure", "federated_insecure")]
      + seq(|users|, i requires 0 <= i < |users| => ("federated_insecure", "federated_secure_" + UserName(users[i])))
  }

  const EVAL_PAIRS: seq<(string, string)> := EvalPairs(USERINFOS)

  // ---------------------------------------------------------------------------
  // Scenario short names

  /**
   * `shorten`: the first letters of the first two `_`-parts, then "." and the
   * third part when there is one; `None` where Python raises `IndexError`
   * (fewer than two parts, or an empty first or second part).
   */
  function Shorten(scenario: string): (r: Option<string>)
  {
    var splits := SplitChar(scenario, '_');
    if |splits| < 2 || |splits[0]| == 0 || |splits[1]| == 0 then None
    else Some([splits[0][0], splits[1][0]] + (if |splits| > 2 then "." + splits[2] else ""))
  }

  /** Splitting at a separator-free head peels that head off. */
  lemma SplitCharCons(a: string, sep: char, rest: string)
    requires sep !in a
    ensures SplitChar(a + [sep] + rest, sep) == [a] + SplitChar(rest, sep)
  {
    var t := a + [sep] + rest;
    assert t[|a|] == sep;
    var i := IndexOf(t, sep);
    assert forall j :: 0 <= j < |a| ==> t[j] == a[j];
    assert t[..i] == a;
    assert t[i + 1..] == rest;
  }

  lemma SplitCharNone(a: string, sep: char)
    requires sep !in a
    ensures SplitChar(a, sep) == [a]
  {
  }

  /** Two underscore-free parts: their first letters. */
  lemma ShortenTwo(a: string, b: string)
    requires |a| > 0 && |b| > 0 && '_' !in a && '_' !in b
    ensures Shorten(a + "_" + b) == Some([a[0], b[0]])
  {
    SplitCharCons(a, '_', b);
    SplitCharNone(b, '_');
    assert a + "_" + b == a + ['_'] + b;
    var splits := SplitChar(a + "_" + b, '_');
    assert splits == [a, b];
    assert [a[0], b[0]] + "" == [a[0], b[0]];
  }

  lemma SplitTwo(b: string, c: string)
    requires '_' !in b && '_' !in c
    ensures SplitChar(b + "_" + c, '_') == [b, c]
  {
    SplitCharNone(c, '_');
    SplitCharCons(b, '_', c);
    assert b + "_" + c == b + ['_'] + c;
  }

  lemma SplitThree(a: string, b: string, c: string)
    requires '_' !in a && '_' !in b && '_' !in c
    ensures SplitChar(a + "_" + b + "_" + c, '_') == [a, b, c]
  {
    var rest := b + "_" + c;
    calc {
      SplitChar(a + "_" + b + "_" + c, '_');
      == { assert a + "_" + b + "_" + c == a + ['_'] + rest; }
      SplitChar(a + ['_'] + rest, '_');
      == { SplitCharCons(a, '_', rest); }
      [a] + SplitChar(rest, '_');
      == { SplitTwo(b, c); }
      [a] + [b, c];
    }
  }

  /** Three parts, the last one underscore-free: first letters, then "." and the third part. */
  lemma ShortenThree(a: string, b: string, c: string)
    requires |a| > 0 && |b| > 0 && '_' !in a && '_' !in b && '_' !in c
    ensures Shorten(a + "_" + b + "_" + c) == Some([a[0], b[0]] + "." + c)
  {
    SplitThree(a, b, c);
    assert [a[0], b[0]] + ("." + c) == [a[0], b[0]] + "." + c;
  }

  /** A secure scenario's short name: "fs." and the user's name. */
  lemma ShortenSecure(name: string)
    requires |name| > 0 && '_' !in name
    ensures Shorten("federated_secure_" + name) == Some("fs." + name)
  {
    ShortenThree("federated", "secure", name);
    assert "federated_secure_" + name == "federated" + "_" + "secure" + "_" + name;
    assert ["federated"[0], "secure"[0]] + "." + name == "fs." + name;
  }

  /**
   * Each secure scenario of the pairs is shortened to "fs." and its user's
   * name, so users with distinct underscore-free names get distinct columns.
   */
  lemma EvalPairsShortNames(users: seq<Attrs>, i: int, j: int)
    requires forall k :: 0 <= k < |users| ==> "name" in users[k]
    requires 0 <= i < |users| && 0 <= j < |users|
    requires |UserName(users[i])| > 0 && '_' !in UserName(users[i])
    requires |UserName(users[j])| > 0 && '_' !in UserName(users[j])
    ensures Shorten(EvalPairs(users)[i + 1].1) == Some("fs." + UserName(users[i]))
    ensures UserName(users[i]) != UserName(users[j]) ==>
      Shorten(EvalPairs(users)[i + 1].1) != Shorten(EvalPairs(users)[j + 1].1)
  {
    var ni, nj := UserName(users[i]), UserName(users[j]);
    ShortenSecure(ni);
    ShortenSecure(nj);
    if ni != nj {
      assert ("fs." + ni)[3..] == ni;
      assert ("fs." + nj)[3..] == nj;
    }
  }

  // ---------------------------------------------------------------------------
  // Per-department tables

  /** `pd.read_csv(path)` */
  type ReadCsv = string -> Table

  /** `hosp_dfs`: one `(has a text column, table)` pair per department, in order. */
  method HospDfs(hospDataPath: string, depts: seq<string>, readCsv: ReadCsv) returns (dfs: seq<(bool, Table)>)
    ensures |dfs| == |depts|
    ensures forall i :: 0 <= i < |depts| ==>
      dfs[i] == (depts[i] != "admissions", readCsv(PathJoin(hospDataPath, depts[i] + ".csv")))
  {
    dfs := [];
    for i := 0 to |depts|
      invariant |dfs| == i
      invariant forall j :: 0 <= j < i ==>
        dfs[j] == (depts[j] != "admissions", readCsv(PathJoin(hospDataPath, depts[j] + ".csv")))
    {
      var deptDf := readCsv(PathJoin(hospDataPath, depts[i] + ".csv"));
      dfs := dfs + [(depts[i] != "admissions", deptDf)];
    }
  }

  // ---------------------------------------------------------------------------
  // Document keys

  /**
   * The key a retrieved document is recorded under: its `note_id` (else its
   * `org`, or "x", followed by "-adm"), ":", and its `text_index` (else its
   * `row`). Python builds the `org` fallback even when `note_id` is present,
   * so a non-string `org` raises `TypeError`: `None`.
   */
  function DocKey(meta: Attrs): (r: Option<string>)
    ensures r.None? <==> "org" in meta && !meta["org"].Str?
  {
    var org := Get(meta, "org", Str("x"));
    if !org.Str? then None
    else
      var id := Get(meta, "note_id", Str(org.s + "-adm"));
      var index := Get(meta, "text_index", Get(meta, "row", Null));
      Some(Show(id) + ":" + Show(index))
  }

  /**
   * Keys of chunked notes and of admissions rows, whatever other metadata the
   * document carries: a note's `note_id` and `text_index`; otherwise the
   * string `org` (or "x" without one) with "-adm", and the `row`.
   */
  lemma DocKeyCases(meta: Attrs, note: string, org: string, index: int, row: int)
    ensures && "note_id" in meta && meta["note_id"] == Str(note)
            && "text_index" in meta && meta["text_index"] == Int(index)
            && ("org" !in meta || meta["org"].Str?) ==>
      DocKey(meta) == Some(note + ":" + IntToString(index))
    ensures && "note_id" !in meta && "text_index" !in meta
            && "org" in meta && meta["org"] == Str(org)
            && "row" in meta && meta["row"] == Int(row) ==>
      DocKey(meta) == Some(org + "-adm:" + IntToString(row))
    ensures && "note_id" !in meta && "text_index" !in meta && "org" !in meta
            && "row" in meta && meta["row"] == Int(row) ==>
      DocKey(meta) == Some("x-adm:" + IntToString(row))
  {
    if && "note_id" in meta && meta["note_id"] == Str(note)
       && "text_index" in meta && meta["text_index"] == Int(index)
       && ("org" !in meta || meta["org"].Str?)
    {
      NoteKey(meta, note, index);
    } else if "note_id" !in meta && "text_index" !in meta && "row" in meta && meta["row"] == Int(row) {
      if "org" in meta && meta["org"] == Str(org) {
        AdmissionKey(meta, org, row);
      } else if "org" !in meta {
        AdmissionKey(meta, "x", row);
        assert "x" + "-adm:" == "x-adm:";
      }
    }
  }

  /** A chunked note's key: its `note_id` and `text_index`. */
  lemma NoteKey(meta: Attrs, note: string, index: int)
    requires "note_id" in meta && meta["note_id"] == Str(note)
    requires "text_index" in meta && meta["text_index"] == Int(index)
    requires "org" !in meta || meta["org"].Str?
    ensures DocKey(meta) == Some(note + ":" + IntToString(index))
  {
  }

  /** An admissions row's key: the organisation's name with "-adm", and the row. */
  lemma AdmissionKey(meta: Attrs, org: string, row: int)
    requires "note_id" !in meta && "text_index" !in meta
    requires Get(meta, "org", Str("x")) == Str(org)
    requires "row" in meta && meta["row"] == Int(row)
    ensures DocKey(meta) == Some(org + "-adm:" + IntToString(row))
  {
    assert org + "-adm" + ":" + IntToString(row) == org + "-adm:" + IntToString(row);
  }

  /** Each document's key, in order. */
  function DocKeyList(docs: seq<Scored>): (ks: seq<Option<string>>)
    ensures |ks| == |docs|
    ensures forall i :: 0 <= i < |docs| ==> ks[i] == DocKey(FullMetadata(docs[i]))
  {
    seq(|docs|, i requires 0 <= i < |docs| => DocKey(FullMetadata(docs[i])))
  }

  /** The set of the keys, `None` as soon as one of them is. */
  function KeySet(ks: seq<Option<string>>): (r: Option<set<string>>)
    ensures r.Some? ==> |r.value| <= |ks|
  {
    if ks == [] then Some({})
    else
      var prev := KeySet(ks[..|ks| - 1]);
      var key := ks[|ks| - 1];
      if prev.None? || key.None? then None
      else
        assert |prev.value + {key.value}| <= |prev.value| + 1;
        Some(prev.value + {key.value})
  }

  /** The keys of the documents, `None` when one of them raises. */
  function DocKeys(docs: seq<Scored>): (r: Option<set<string>>)
    ensures r.Some? ==> |r.value| <= |docs|
  {
    KeySet(DocKeyList(docs))
  }

  lemma {:induction false} KeySetSome(ks: seq<Option<string>>)
    ensures KeySet(ks).Some? <==> forall i :: 0 <= i < |ks| ==> ks[i].Some?
  {
    if ks != [] {
      var init := ks[..|ks| - 1];
      KeySetSome(init);
      assert forall i :: 0 <= i < |init| ==> init[i] == ks[i];
    }
  }

  lemma {:induction false} KeySetMembers(ks: seq<Option<string>>, k: string)
    requires KeySet(ks).Some?
    ensures k in KeySet(ks).value <==> Some(k) in ks
  {
    if ks != [] {
      var init := ks[..|ks| - 1];
      KeySetMembers(init, k);
      assert ks == init + [ks[|ks| - 1]];
    }
  }

  /** The keys are recorded iff no document's key raises. */
  lemma DocKeysSome(docs: seq<Scored>)
    ensures DocKeys(docs).Some? <==> forall i :: 0 <= i < |docs| ==> DocKey(FullMetadata(docs[i])).Some?
  {
    KeySetSome(DocKeyList(docs));
  }

  /** A key is recorded iff some retrieved document has it. */
  lemma DocKeysMembers(docs: seq<Scored>, k: string)
    requires DocKeys(docs).Some?
    ensures k in DocKeys(docs).value <==> exists i :: 0 <= i < |docs| && DocKey(FullMetadata(docs[i])) == Some(k)
  {
    var ks := DocKeyList(docs);
    KeySetMembers(ks, k);
    if Some(k) in ks {
      var i :| 0 <= i < |ks| && ks[i] == Some(k);
      assert DocKey(FullMetadata(docs[i])) == Some(k);
    }
  }

  /** The `retrieved_docs.add(...)` loop over a response's documents. */
  method RetrievedDocKeys(docs: seq<Scored>) returns (r: Option<set<string>>)
    ensures r == DocKeys(docs)
  {
    ghost var ks := DocKeyList(docs);
    var keys: set<string> := {};
    var i := 0;
    while i < |docs|
      invariant 0 <= i <= |docs|
      invariant KeySet(ks[..i]) == Some(keys)
    {
      assert ks[..i + 1][..i] == ks[..i];
      var key := DocKey(FullMetadata(docs[i]));
      if key.None? {
        KeySetNoneSticks(ks, i + 1);
        return None;
      }
      keys := keys + {key.value};
      i := i + 1;
    }
    assert ks[..i] == ks;
    return Some(keys);
  }

  /** Once a key is missing, every longer list of keys fails too. */
  lemma {:induction false} KeySetNoneSticks(ks: seq<Option<string>>, j: nat)
    requires j <= |ks| && KeySet(ks[..j]).None?
    ensures KeySet(ks).None?
    decreases |ks| - j
  {
    if j < |ks| {
      assert ks[..j + 1][..j] == ks[..j];
      KeySetNoneSticks(ks, j + 1);
    } else {
      assert ks[..j] == ks;
    }
  }

  // ---------------------------------------------------------------------------
  // The `[k1,k2,...]` cell

  /** `"[" + ",".join(keys) + "]"`, `keys` in the set's iteration order. */
  function EncodeDocs(keys: seq<string>): (cell: string)
    ensures |cell| >= 2 && cell[0] == '[' && cell[|cell| - 1] == ']'
  {
    "[" + Join(",", keys) + "]"
  }

  /** `set(cell[1:-1].split(","))` */
  function DecodeDocs(cell: string): (keys: set<string>)
    ensures |keys| >= 1
  {
    var parts := SplitChar(PySlice(cell, 1, -1), ',');
    var keys := set p | p in parts;
    assert parts[0] in keys;
    keys
  }

  lemma {:induction false} SplitJoin(xs: seq<string>)
    requires |xs| >= 1 && forall i :: 0 <= i < |xs| ==> ',' !in xs[i]
    ensures SplitChar(Join(",", xs), ',') == xs
  {
    if |xs| == 1 {
      SplitCharNone(xs[0], ',');
    } else {
      SplitJoin(xs[1..]);
      SplitCharCons(xs[0], ',', Join(",", xs[1..]));
      assert Join(",", xs) == xs[0] + [','] + Join(",", xs[1..]);
      assert xs == [xs[0]] + xs[1..];
    }
  }

  /** Comma-free keys of a non-empty set come back unchanged, whatever order they were written in. */
  lemma EncodeDecode(keys: seq<string>)
    requires |keys| >= 1 && forall i :: 0 <= i < |keys| ==> ',' !in keys[i]
    ensures DecodeDocs(EncodeDocs(keys)) == set k | k in keys
  {
    var cell := EncodeDocs(keys);
    assert PySlice(cell, 1, -1) == Join(",", keys);
    SplitJoin(keys);
  }

  /** An empty set is written "[]" and read back as `{""}`. */
  lemma EmptyDecodesToBlank()
    ensures EncodeDocs([]) == "[]"
    ensures DecodeDocs("[]") == {""}
  {
    assert PySlice("[]", 1, -1) == "";
    assert SplitChar("", ',') == [""];
  }

  // ---------------------------------------------------------------------------
  // The intersection ratio

  /** `len(ref & pred) / len(ref)`, and `1.0` for an empty `ref`. */
  function IntersectionRatio(ref: set<string>, pred: set<string>): (r: real)
    ensures 0.0 <= r <= 1.0
  {
    SubsetSize(ref * pred, ref);
    if |ref| > 0 then (|ref * pred| as real) / (|ref| as real) else 1.0
  }

  lemma {:induction false} SubsetSize(a: set<string>, b: set<string>)
    requires a <= b
    ensures |a| <= |b|
    decreases |b|
  {
    if a != {} {
      var x :| x in a;
      SubsetSize(a - {x}, b - {x});
    }
  }

  /**
   * The cells are never read back as an empty set, so the `1.0` fallback is
   * never taken: the ratio is the plain share.
   */
  lemma RatioOfCells(refCell: string, predCell: string)
    ensures var ref := DecodeDocs(refCell);
      |ref| >= 1 && IntersectionRatio(ref, DecodeDocs(predCell)) == (|ref * DecodeDocs(predCell)| as real) / (|ref| as real)
  {
  }

  /** `compute_doc_intersection`: one ratio per row, from the two scenarios' cells. */
  method ComputeDocIntersection(refCells: seq<string>, predCells: seq<string>) returns (ratios: seq<real>)
    requires |refCells| == |predCells|
    ensures |ratios| == |refCells|
    ensures forall i :: 0 <= i < |refCells| ==>
      ratios[i] == IntersectionRatio(DecodeDocs(refCells[i]), DecodeDocs(predCells[i]))
    ensures forall i :: 0 <= i < |ratios| ==> 0.0 <= ratios[i] <= 1.0
  {
    ratios := [];
    for i := 0 to |refCells|
      invariant |ratios| == i
      invariant forall j :: 0 <= j < i ==>
        ratios[j] == IntersectionRatio(DecodeDocs(refCells[j]), DecodeDocs(predCells[j]))
    {
      var refDocs := DecodeDocs(refCells[i]);
      var predDocs := DecodeDocs(predCells[i]);
      ratios := ratios + [IntersectionRatio(refDocs, predDocs)];
    }
  }
}
