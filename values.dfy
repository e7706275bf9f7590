/**
 * Shared values of the federated retrieval system: attribute values and maps,
 * documents, data-frame rows, and the Python string operations the core uses
 * (`str()` of a value, `sep.join`, `str.split`, substring containment, slicing).
 */
module Values {

  datatype Option<+T> = None | Some(value: T) {
    function GetOr(default: T): T {
      match this
      case Some(v) => v
      case None => default
    }
  }

  datatype Result<+T, +E> = Ok(value: T) | Err(error: E)

  /** A JSON/pandas cell value as far as the core distinguishes them. */
  datatype Value =
    | Str(s: string)
    | Int(i: int)
    | Strs(items: seq<string>)
    | Null

  /** An attribute map: a subject's claims, a node's metadata, a document's metadata. */
  type Attrs = map<string, Value>

  /** A LangChain document: page text and a metadata map. */
  datatype Doc = Doc(pageContent: string, metadata: Attrs)

  /**
   * A document returned by the similarity store; `score` is the value the store
   * writes into `metadata["score"]`, held in its own field.
   */
  datatype Scored = Scored(doc: Doc, score: int)

  /** The document's metadata as the source holds it, "score" included. */
  function FullMetadata(d: Scored): (m: Attrs)
    ensures "score" in m && m["score"] == Int(d.score)
    ensures forall key :: key in d.doc.metadata && key != "score" ==> key in m && m[key] == d.doc.metadata[key]
    ensures m.Keys == d.doc.metadata.Keys + {"score"}
  {
    d.doc.metadata["score" := Int(d.score)]
  }

  /** `d.get(key, default)` */
  function Get(m: Attrs, key: string, default: Value): Value {
    if key in m then m[key] else default
  }

  // ---------------------------------------------------------------------------
  // Data frames: a row is a sequence of (column, value) cells.

  datatype Cell = Cell(column: string, value: Value)
  type Row = seq<Cell>
  datatype Table = Table(columns: seq<string>, rows: seq<Row>)

  function Columns(row: Row): (cs: seq<string>)
    ensures |cs| == |row|
    ensures forall i :: 0 <= i < |row| ==> cs[i] == row[i].column
  {
    if row == [] then [] else [row[0].column] + Columns(row[1..])
  }

  /** `row[col]`: the first cell of that column, `None` for a KeyError. */
  function Lookup(row: Row, col: string): (r: Option<Value>)
    ensures r.Some? <==> exists i :: 0 <= i < |row| && row[i].column == col
    ensures r.Some? ==> exists i :: 0 <= i < |row| && row[i] == Cell(col, r.value)
  {
    if row == [] then None
    else if row[0].column == col then Some(row[0].value)
    else
      var r := Lookup(row[1..], col);
      assert forall i :: 0 <= i < |row| - 1 ==> row[1..][i] == row[i + 1];
      assert r.Some? ==> exists i :: 0 <= i < |row| - 1 && row[1..][i] == Cell(col, r.value);
      r
  }

  // ---------------------------------------------------------------------------
  // Python string operations

  function DigitChar(d: nat): char
    requires d < 10
  {
    "0123456789"[d]
  }

  /** `str(n)` for a natural number. */
  function NatToString(n: nat): (s: string)
    ensures |s| >= 1
    ensures forall i :: 0 <= i < |s| ==> '0' <= s[i] <= '9'
    decreases n
  {
    if n < 10 then [DigitChar(n)] else NatToString(n / 10) + [DigitChar(n % 10)]
  }

  /** `str(i)` for an integer. */
  function IntToString(i: int): (s: string)
    ensures |s| >= 1
    ensures i < 0 <==> s[0] == '-'
  {
    if i < 0 then "-" + NatToString(-i) else NatToString(i)
  }

  /** `str(v)`; a list is shown as Python's repr of a list of strings without escaping. */
  function Show(v: Value): string {
    match v
    case Str(s) => s
    case Int(i) => IntToString(i)
    case Null => "None"
    case Strs(items) => "[" + Join(", ", QuoteAll(items)) + "]"
  }

  function QuoteAll(items: seq<string>): (r: seq<string>)
    ensures |r| == |items|
  {
    if items == [] then [] else ["'" + items[0] + "'"] + QuoteAll(items[1..])
  }

  /** `sep.join(xs)` */
  function Join(sep: string, xs: seq<string>): string {
    if xs == [] then ""
    else if |xs| == 1 then xs[0]
    else xs[0] + sep + Join(sep, xs[1..])
  }

  /** Whether `s` occurs in `t` at position `i`. */
  predicate OccursAt(s: string, t: string, i: nat) {
    i + |s| <= |t| && t[i..i + |s|] == s
  }

  /** Python's `s in t` for strings. */
  predicate Contains(t: string, s: string) {
    exists i: nat | i <= |t| :: OccursAt(s, t, i)
  }

  /**
   * `t.split(sep)` for a separator of one character; Python splits at every
   * occurrence and always returns at least one piece.
   */
  function SplitChar(t: string, sep: char): (parts: seq<string>)
    ensures |parts| >= 1
    ensures forall p :: p in parts ==> sep !in p
    decreases |t|
  {
    if sep !in t then [t]
    else
      var i := IndexOf(t, sep);
      [t[..i]] + SplitChar(t[i + 1..], sep)
  }

  /** The first position of `c` in `t`. */
  function IndexOf(t: string, c: char): (i: nat)
    requires c in t
    ensures i < |t| && t[i] == c && c !in t[..i]
    ensures forall j :: 0 <= j < i ==> t[j] != c
  {
    if t[0] == c then 0
    else
      assert c in t[1..] by { var j :| 0 <= j < |t| && t[j] == c; assert t[1..][j - 1] == c; }
      var i := 1 + IndexOf(t[1..], c);
      assert t[..i] == [t[0]] + t[1..][..i - 1];
      i
  }

  /**
   * `t.split(sep)` for a separator of any non-empty length: cuts at the
   * leftmost occurrence, then splits the rest.
   */
  function SplitOn(t: string, sep: string): (parts: seq<string>)
    requires |sep| > 0
    ensures |parts| >= 1
    decreases |t|
  {
    var i := FirstOccurrence(t, sep, 0);
    if i.None? then [t]
    else [t[..i.value]] + SplitOn(t[i.value + |sep|..], sep)
  }

  /** The leftmost position at or after `from` where `sep` occurs in `t`. */
  function FirstOccurrence(t: string, sep: string, from: nat): (r: Option<nat>)
    requires |sep| > 0
    ensures r.Some? ==> from <= r.value && OccursAt(sep, t, r.value)
    ensures r.Some? ==> forall j :: from <= j < r.value ==> !OccursAt(sep, t, j)
    ensures r.None? ==> forall j :: from <= j ==> !OccursAt(sep, t, j)
    decreases |t| - from
  {
    if from + |sep| > |t| then None
    else if t[from..from + |sep|] == sep then Some(from)
    else FirstOccurrence(t, sep, from + 1)
  }

  /** Python's `s[a:]` for a non-negative or negative start. */
  function PySliceFrom<T>(s: seq<T>, a: int): (r: seq<T>)
    ensures |r| <= |s|
  {
    if a >= 0 then (if a <= |s| then s[a..] else [])
    else if -a <= |s| then s[|s| + a..] else s
  }

  /** Python's `s[:b]`. */
  function PySliceTo<T>(s: seq<T>, b: int): (r: seq<T>)
    ensures 0 <= b ==> |r| == if b <= |s| then b else |s|
    ensures b < 0 ==> |r| == if -b <= |s| then |s| + b else 0
    ensures r == s[..|r|]
  {
    if b >= 0 then (if b <= |s| then s[..b] else s)
    else if -b <= |s| then s[..|s| + b] else []
  }

  /** Python's `s[a:b]`. */
  function PySlice<T>(s: seq<T>, a: int, b: int): seq<T> {
    var start := if a >= 0 then (if a <= |s| then a else |s|) else (if -a <= |s| then |s| + a else 0);
    var stop := if b >= 0 then (if b <= |s| then b else |s|) else (if -b <= |s| then |s| + b else 0);
    if start <= stop then s[start..stop] else []
  }

  /** `s.replace(old, new)` for single characters. */
  function ReplaceChar(s: string, target: char, replacement: char): (r: string)
    ensures |r| == |s|
    ensures forall i :: 0 <= i < |s| ==> r[i] == if s[i] == target then replacement else s[i]
  {
    if s == [] then [] else [if s[0] == target then replacement else s[0]] + ReplaceChar(s[1..], target, replacement)
  }

  /** Characters Python's `str.isspace` accepts (those `str.strip()` removes). */
  predicate IsSpace(c: char) {
    c == ' ' || ('\t' <= c <= '\r') || ('\U{1C}' <= c <= '\U{1F}')
    || c == '\U{85}' || c == '\U{A0}' || c == '\U{1680}' || ('\U{2000}' <= c <= '\U{200A}')
    || c == '\U{2028}' || c == '\U{2029}' || c == '\U{202F}' || c == '\U{205F}' || c == '\U{3000}'
  }

  /** `len(s.strip()) == 0` */
  predicate IsBlank(s: string) {
    forall i :: 0 <= i < |s| ==> IsSpace(s[i])
  }

  /** `os.path.join(a, b)` for a relative `b`: a "/" is inserted unless `a` is empty or already ends in one. */
  function PathJoin(a: string, b: string): (p: string)
    ensures a == "" ==> p == b
    ensures a != "" && a[|a| - 1] == '/' ==> p == a + b
    ensures a != "" && a[|a| - 1] != '/' ==> p == a + "/" + b
  {
    if a == "" || a[|a| - 1] == '/' then a + b else a + "/" + b
  }

  // ---------------------------------------------------------------------------
  // Substrings

  lemma ContainsMiddle(a: string, s: string, b: string)
    ensures Contains(a + s + b, s)
  {
    assert (a + s + b)[|a|..|a| + |s|] == s;
    assert OccursAt(s, a + s + b, |a|);
  }

  lemma ContainsWithin(t: string, s: string, a: string, b: string)
    requires Contains(t, s)
    ensures Contains(a + t + b, s)
  {
    var i: nat :| i <= |t| && OccursAt(s, t, i);
    assert (a + t + b)[|a| + i..|a| + i + |s|] == t[i..i + |s|];
    assert OccursAt(s, a + t + b, |a| + i);
  }

  lemma ContainsSelf(s: string)
    ensures Contains(s, s)
  {
    assert OccursAt(s, s, 0);
  }

  /** Every piece of a join occurs in it. */
  lemma {:induction false} JoinContains(sep: string, xs: seq<string>, i: int)
    requires 0 <= i < |xs|
    ensures Contains(Join(sep, xs), xs[i])
  {
    if |xs| == 1 {
      ContainsSelf(xs[0]);
    } else if i == 0 {
      ContainsMiddle("", xs[0], sep + Join(sep, xs[1..]));
      assert "" + xs[0] + (sep + Join(sep, xs[1..])) == Join(sep, xs);
    } else {
      JoinContains(sep, xs[1..], i - 1);
      ContainsWithin(Join(sep, xs[1..]), xs[i], xs[0] + sep, "");
      assert xs[0] + sep + Join(sep, xs[1..]) + "" == Join(sep, xs);
    }
  }
}
