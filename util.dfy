/**
 * Preparing discharge notes for indexing: splitting a MIMIC-IV discharge
 * summary into sentences, packing a row's sentences greedily into chunks of
 * at most `MAX_DOC_CHUNK_SIZE` characters, one output row per chunk, and
 * prefixing each row's text with its metadata columns.
 */
module Util {
  import opened Values

  const MAX_DOC_CHUNK_SIZE: nat := 800

  datatype UtilError =
    | KeyError(column: string)   // `row[col]` on a missing column
    | NotText(column: string)    // the column's value is not a string

  /** The concatenation of the pieces, in order. */
  function Flatten<T>(xss: seq<seq<T>>): seq<T> {
    if xss == [] then [] else Flatten(xss[..|xss| - 1]) + xss[|xss| - 1]
  }

  lemma {:induction false} FlattenCons<T>(xs: seq<T>, xss: seq<seq<T>>)
    ensures Flatten([xs] + xss) == xs + Flatten(xss)
    decreases |xss|
  {
    if xss != [] {
      var init := xss[..|xss| - 1];
      assert ([xs] + xss)[..|xss|] == [xs] + init;
      FlattenCons(xs, init);
    }
  }

  // ---------------------------------------------------------------------------
  // Greedy packing

  /** `sum(len(c) for c in chunk)`: the joining spaces are not counted. */
  function TotalLength(group: seq<string>): nat {
    if group == [] then 0 else TotalLength(group[..|group| - 1]) + |group[|group| - 1]|
  }

  /** The packing loop's state: the chunks already closed and the one being filled. */
  datatype Packing = Packing(done: seq<seq<string>>, current: seq<string>)

  /** One iteration: a sentence that would overflow the current chunk closes it and starts the next. */
  function PackStep(p: Packing, sentence: string): Packing {
    if TotalLength(p.current) + |sentence| > MAX_DOC_CHUNK_SIZE then Packing(p.done + [p.current], [sentence])
    else Packing(p.done, p.current + [sentence])
  }

  /** The state after the loop has seen `sentences`. */
  function Packed(sentences: seq<string>): Packing {
    if sentences == [] then Packing([], [])
    else PackStep(Packed(sentences[..|sentences| - 1]), sentences[|sentences| - 1])
  }

  /** The chunks' sentence lists: the closed ones, then the last one unless it is empty. */
  function Groups(sentences: seq<string>): seq<seq<string>> {
    var p := Packed(sentences);
    if |p.current| > 0 then p.done + [p.current] else p.done
  }

  /** `" ".join(...)` of each group. */
  function JoinGroups(groups: seq<seq<string>>): (texts: seq<string>)
    ensures |texts| == |groups|
    ensures forall i :: 0 <= i < |groups| ==> texts[i] == Join(" ", groups[i])
  {
    seq(|groups|, i requires 0 <= i < |groups| => Join(" ", groups[i]))
  }

  /** The chunk texts of a row. */
  function Chunks(sentences: seq<string>): seq<string> {
    JoinGroups(Groups(sentences))
  }

  /** A group of two or more sentences stays within the limit. */
  predicate WithinLimit(group: seq<string>) {
    |group| >= 2 ==> TotalLength(group) <= MAX_DOC_CHUNK_SIZE
  }

  /** What the packing loop keeps true. */
  predicate PackingInvariant(sentences: seq<string>, p: Packing) {
    && Flatten(p.done) + p.current == sentences
    && Limits(p)
    && (sentences != [] ==> |p.current| >= 1)
    && EmptyOnlyFirst(sentences, p)
  }

  /** Every group, closed or current, is within the limit. */
  predicate Limits(p: Packing) {
    (forall i :: 0 <= i < |p.done| ==> WithinLimit(p.done[i])) && WithinLimit(p.current)
  }

  /** A closed group is empty iff it is the first and the first sentence is over the limit, which closes it. */
  predicate EmptyOnlyFirst(sentences: seq<string>, p: Packing) {
    && (forall i :: 0 <= i < |p.done| ==> (p.done[i] == [] <==> i == 0 && FirstTooLong(sentences)))
    && (FirstTooLong(sentences) ==> |p.done| >= 1)
  }

  /** The row's first sentence alone is over the limit. */
  predicate FirstTooLong(sentences: seq<string>) {
    |sentences| >= 1 && |sentences[0]| > MAX_DOC_CHUNK_SIZE
  }

  lemma TotalLengthSnoc(group: seq<string>, s: string)
    ensures TotalLength(group + [s]) == TotalLength(group) + |s|
  {
    assert (group + [s])[..|group|] == group;
  }

  lemma FlattenSnoc<T>(xss: seq<seq<T>>, xs: seq<T>)
    ensures Flatten(xss + [xs]) == Flatten(xss) + xs
  {
    assert (xss + [xs])[..|xss|] == xss;
  }

  lemma PackStepTiles(init: seq<string>, p: Packing, s: string)
    requires Flatten(p.done) + p.current == init
    ensures Flatten(PackStep(p, s).done) + PackStep(p, s).current == init + [s]
  {
    if TotalLength(p.current) + |s| > MAX_DOC_CHUNK_SIZE {
      FlattenSnoc(p.done, p.current);
    }
  }

  lemma PackStepLimits(p: Packing, s: string)
    requires Limits(p)
    ensures Limits(PackStep(p, s))
  {
    if TotalLength(p.current) + |s| <= MAX_DOC_CHUNK_SIZE {
      TotalLengthSnoc(p.current, s);
    }
  }

  lemma PackStepEmptyOnlyFirst(init: seq<string>, p: Packing, s: string)
    requires EmptyOnlyFirst(init, p) && (init != [] ==> |p.current| >= 1) && (init == [] ==> p == Packing([], []))
    ensures EmptyOnlyFirst(init + [s], PackStep(p, s))
  {
    var sentences := init + [s];
    assert FirstTooLong(sentences) <==> (init == [] && |s| > MAX_DOC_CHUNK_SIZE) || FirstTooLong(init) by {
      if init != [] { assert sentences[0] == init[0]; } else { assert sentences[0] == s; }
    }
  }

  /** One iteration keeps the invariant. */
  lemma PackStepKeeps(init: seq<string>, s: string)
    requires PackingInvariant(init, Packed(init))
    ensures PackingInvariant(init + [s], PackStep(Packed(init), s))
  {
    var p := Packed(init);
    PackStepTiles(init, p, s);
    PackStepLimits(p, s);
    PackStepEmptyOnlyFirst(init, p, s);
  }

  lemma {:induction false} PackedInvariant(sentences: seq<string>)
    ensures PackingInvariant(sentences, Packed(sentences))
  {
    if sentences != [] {
      var init := sentences[..|sentences| - 1];
      PackedInvariant(init);
      PackStepKeeps(init, sentences[|sentences| - 1]);
      assert init + [sentences[|sentences| - 1]] == sentences;
    }
  }

  /** Packing keeps every sentence, in order: the groups concatenate back to the row's sentences. */
  lemma GroupsPreserveOrder(sentences: seq<string>)
    ensures Flatten(Groups(sentences)) == sentences
  {
    PackedInvariant(sentences);
    var p := Packed(sentences);
    if |p.current| > 0 {
      FlattenSnoc(p.done, p.current);
    }
  }

  /** Every chunk of two or more sentences has at most 800 characters of sentences. */
  lemma GroupsWithinLimit(sentences: seq<string>, i: int)
    requires 0 <= i < |Groups(sentences)|
    ensures |Groups(sentences)[i]| >= 2 ==> TotalLength(Groups(sentences)[i]) <= MAX_DOC_CHUNK_SIZE
  {
    PackedInvariant(sentences);
  }

  /**
   * The only empty group is a first one, emitted exactly when the row's first
   * sentence alone is longer than 800 characters.
   */
  lemma GroupsEmptyOnlyFirst(sentences: seq<string>, i: int)
    requires 0 <= i < |Groups(sentences)|
    ensures Groups(sentences)[i] == [] <==> i == 0 && FirstTooLong(sentences)
  {
    PackedInvariant(sentences);
  }

  /** No sentences, no groups; a first sentence over the limit, an empty first group. */
  lemma GroupsEmptyIff(sentences: seq<string>)
    ensures Groups(sentences) == [] <==> sentences == []
    ensures FirstTooLong(sentences) ==> |Groups(sentences)| >= 1 && Groups(sentences)[0] == []
  {
    PackedInvariant(sentences);
  }

  lemma PackedSnoc(sentences: seq<string>, i: nat)
    requires i < |sentences|
    ensures Packed(sentences[..i + 1]) == PackStep(Packed(sentences[..i]), sentences[i])
  {
    assert sentences[..i + 1][..i] == sentences[..i];
  }

  lemma JoinGroupsSnoc(groups: seq<seq<string>>, group: seq<string>)
    ensures JoinGroups(groups + [group]) == JoinGroups(groups) + [Join(" ", group)]
  {
  }

  /** The packing loop of `chunk_df` for one row: the chunk texts in order. */
  method PackChunks(sentences: seq<string>) returns (rowChunks: seq<string>)
    ensures rowChunks == Chunks(sentences)
  {
    rowChunks := [];
    var currentChunk: seq<string> := [];
    for i := 0 to |sentences|
      invariant Packed(sentences[..i]).current == currentChunk
      invariant rowChunks == JoinGroups(Packed(sentences[..i]).done)
    {
      PackedSnoc(sentences, i);
      var sentence := sentences[i];
      if TotalLength(currentChunk) + |sentence| > MAX_DOC_CHUNK_SIZE {
        JoinGroupsSnoc(Packed(sentences[..i]).done, currentChunk);
        rowChunks := rowChunks + [Join(" ", currentChunk)];
        currentChunk := [sentence];
      } else {
        currentChunk := currentChunk + [sentence];
      }
    }
    assert sentences[..|sentences|] == sentences;
    if |currentChunk| > 0 {
      JoinGroupsSnoc(Packed(sentences).done, currentChunk);
      rowChunks := rowChunks + [Join(" ", currentChunk)];
    }
  }

  // ---------------------------------------------------------------------------
  // Output rows

  /** The row with every cell of column `col` holding `v` instead. */
  function ReplaceColumn(row: Row, col: string, v: Value): (r: Row)
    ensures |r| == |row|
    ensures forall i :: 0 <= i < |row| ==> r[i] == if row[i].column == col then Cell(col, v) else row[i]
  {
    seq(|row|, i requires 0 <= i < |row| => if row[i].column == col then Cell(col, v) else row[i])
  }

  /** One output row per chunk: the chunk in `chunkCol`, every other cell copied, and its `text_index`. */
  function ChunkedRows(row: Row, chunkCol: string, chunks: seq<string>): (rows: seq<Row>)
    ensures |rows| == |chunks|
    ensures forall t :: 0 <= t < |chunks| ==> |rows[t]| == |row| + 1
    ensures forall t :: 0 <= t < |chunks| ==> rows[t][|row|] == Cell("text_index", Int(t))
    ensures forall t, c :: 0 <= t < |chunks| && 0 <= c < |row| ==>
      rows[t][c] == if row[c].column == chunkCol then Cell(chunkCol, Str(chunks[t])) else row[c]
  {
    seq(|chunks|, t requires 0 <= t < |chunks| => ReplaceColumn(row, chunkCol, Str(chunks[t])) + [Cell("text_index", Int(t))])
  }

  /** The chunk texts of one input row. */
  function RowChunks(row: Row, chunkCol: string): Result<seq<string>, UtilError> {
    match Lookup(row, chunkCol)
    case None => Err(KeyError(chunkCol))
    case Some(v) => if v.Str? then Ok(Chunks(SplitMimicDischarge(v.s))) else Err(NotText(chunkCol))
  }

  /** The output rows for the input rows, in order; the first failing row's error. */
  function ChunkDfRows(rows: seq<Row>, chunkCol: string): Result<seq<Row>, UtilError> {
    if rows == [] then Ok([])
    else
      var prev := ChunkDfRows(rows[..|rows| - 1], chunkCol);
      var row := rows[|rows| - 1];
      if prev.Err? then prev
      else
        var chunks := RowChunks(row, chunkCol);
        if chunks.Err? then Err(chunks.error)
        else Ok(prev.value + ChunkedRows(row, chunkCol, chunks.value))
  }

  lemma {:induction false} ChunkDfRowsErrSticks(rows: seq<Row>, chunkCol: string, j: nat)
    requires j <= |rows| && ChunkDfRows(rows[..j], chunkCol).Err?
    ensures ChunkDfRows(rows, chunkCol) == ChunkDfRows(rows[..j], chunkCol)
    decreases |rows| - j
  {
    if j == |rows| {
      assert rows[..j] == rows;
    } else {
      assert rows[..j + 1][..j] == rows[..j];
      ChunkDfRowsErrSticks(rows, chunkCol, j + 1);
    }
  }

  lemma ChunkDfRowsSnoc(rows: seq<Row>, chunkCol: string, j: nat)
    requires j < |rows| && ChunkDfRows(rows[..j], chunkCol).Ok?
    ensures RowChunks(rows[j], chunkCol).Err? ==>
      ChunkDfRows(rows[..j + 1], chunkCol) == Err(RowChunks(rows[j], chunkCol).error)
    ensures RowChunks(rows[j], chunkCol).Ok? ==>
      ChunkDfRows(rows[..j + 1], chunkCol) ==
        Ok(ChunkDfRows(rows[..j], chunkCol).value + ChunkedRows(rows[j], chunkCol, RowChunks(rows[j], chunkCol).value))
  {
    assert rows[..j + 1][..j] == rows[..j];
  }

  /** A row without sentences yields no output row. */
  lemma NoSentencesNoRows(row: Row, chunkCol: string)
    requires Lookup(row, chunkCol).Some? && Lookup(row, chunkCol).value.Str?
    requires SplitMimicDischarge(Lookup(row, chunkCol).value.s) == []
    ensures RowChunks(row, chunkCol) == Ok([])
  {
    GroupsEmptyIff([]);
  }

  /** The `for text_index, chunk in enumerate(row_chunks)` loop: one appended row per chunk. */
  method AppendChunkedRows(rows: seq<Row>, row: Row, chunkCol: string, rowChunks: seq<string>) returns (rows': seq<Row>)
    ensures rows' == rows + ChunkedRows(row, chunkCol, rowChunks)
  {
    rows' := rows;
    for t := 0 to |rowChunks|
      invariant rows' == rows + ChunkedRows(row, chunkCol, rowChunks)[..t]
    {
      var newRow := ReplaceColumn(row, chunkCol, Str(rowChunks[t])) + [Cell("text_index", Int(t))];
      assert ChunkedRows(row, chunkCol, rowChunks)[..t + 1] == ChunkedRows(row, chunkCol, rowChunks)[..t] + [newRow];
      rows' := rows' + [newRow];
    }
    assert ChunkedRows(row, chunkCol, rowChunks)[..|rowChunks|] == ChunkedRows(row, chunkCol, rowChunks);
  }

  /** `chunk_df`: the table's columns plus `text_index`, and every row's chunked rows in order. */
  method ChunkDf(df: Table, chunkCol: string) returns (r: Result<Table, UtilError>)
    ensures r.Ok? <==> ChunkDfRows(df.rows, chunkCol).Ok?
    ensures r.Ok? ==> r.value == Table(df.columns + ["text_index"], ChunkDfRows(df.rows, chunkCol).value)
    ensures r.Err? ==> r.error == ChunkDfRows(df.rows, chunkCol).error
  {
    var rows: seq<Row> := [];
    for j := 0 to |df.rows|
      invariant ChunkDfRows(df.rows[..j], chunkCol) == Ok(rows)
    {
      ChunkDfRowsSnoc(df.rows, chunkCol, j);
      var row := df.rows[j];
      var text := Lookup(row, chunkCol);
      if text.None? || !text.value.Str? {
        ChunkDfRowsErrSticks(df.rows, chunkCol, j + 1);
        return Err(if text.None? then KeyError(chunkCol) else NotText(chunkCol));
      }
      var rowSentences := SplitMimicDischarge(text.value.s);
      var rowChunks := PackChunks(rowSentences);
      assert RowChunks(row, chunkCol) == Ok(rowChunks);
      rows := AppendChunkedRows(rows, row, chunkCol, rowChunks);
    }
    assert df.rows[..|df.rows|] == df.rows;
    return Ok(Table(df.columns + ["text_index"], rows));
  }

  // ---------------------------------------------------------------------------
  // Splitting a discharge summary into sentences

  const FIELD_SEPARATOR: string := "\n \n"

  /** `categories[3:5] + categories[6:]` */
  function KeptFields(categories: seq<string>): seq<string> {
    PySlice(categories, 3, 5) + PySliceFrom(categories, 6)
  }

  lemma KeptFieldsCases(categories: seq<string>)
    ensures |categories| <= 3 ==> KeptFields(categories) == []
    ensures |categories| >= 6 ==> KeptFields(categories) == categories[3..5] + categories[6..]
  {
  }

  /** The non-blank fields with their newlines turned into spaces, in order. */
  function Condensed(fields: seq<string>): (r: seq<string>)
    ensures |r| <= |fields|
    ensures forall i :: 0 <= i < |r| ==> '\n' !in r[i] && !IsBlank(r[i])
  {
    if fields == [] then []
    else
      var prev := Condensed(fields[..|fields| - 1]);
      var field := fields[|fields| - 1];
      if IsBlank(field) then prev
      else
        var f := ReplaceChar(field, '\n', ' ');
        assert !IsBlank(f) by {
          var k :| 0 <= k < |field| && !IsSpace(field[k]);
          assert !IsSpace(f[k]);
        }
        prev + [f]
  }

  /** What one field becomes: nothing when blank, else itself with its newlines turned into spaces. */
  lemma CondensedSingle(field: string)
    ensures Condensed([field]) == if IsBlank(field) then [] else [ReplaceChar(field, '\n', ' ')]
  {
    assert [field][..0] == [];
  }

  /** Condensing works field by field: the fields of `a + b` condense to those of `a`, then those of `b`. */
  lemma {:induction false} CondensedAppend(a: seq<string>, b: seq<string>)
    ensures Condensed(a + b) == Condensed(a) + Condensed(b)
    decreases |b|
  {
    if b == [] {
      assert a + b == a;
    } else {
      var init := b[..|b| - 1];
      assert (a + b)[..|a + b| - 1] == a + init;
      assert (a + b)[|a + b| - 1] == b[|b| - 1];
      CondensedAppend(a, init);
    }
  }

  /** A field is in the result iff it is a non-blank input field with its newlines turned into spaces. */
  lemma {:induction false} CondensedMembers(fields: seq<string>, g: string)
    ensures g in Condensed(fields) <==>
      exists f :: f in fields && !IsBlank(f) && g == ReplaceChar(f, '\n', ' ')
  {
    if fields != [] {
      var init, last := fields[..|fields| - 1], fields[|fields| - 1];
      CondensedMembers(init, g);
      assert fields == init + [last];
      if exists f :: f in fields && !IsBlank(f) && g == ReplaceChar(f, '\n', ' ') {
        var f :| f in fields && !IsBlank(f) && g == ReplaceChar(f, '\n', ' ');
        if f != last {
          assert f in init;
        }
      }
    }
  }

  predicate IsAsciiDigit(c: char) {
    '0' <= c <= '9'
  }

  /** Position `e` can end a match of `.*?[^0-9]\.`: a "." preceded by a non-digit. */
  predicate EndsSentenceAt(t: string, e: int) {
    2 <= e <= |t| && t[e - 1] == '.' && !IsAsciiDigit(t[e - 2])
  }

  /** The first position from `e` on that ends a sentence. */
  function SentenceEndFrom(t: string, e: nat): (r: Option<nat>)
    ensures r.Some? ==> e <= r.value && EndsSentenceAt(t, r.value)
    ensures r.Some? ==> forall j :: e <= j < r.value ==> !EndsSentenceAt(t, j)
    ensures r.None? ==> forall j :: e <= j ==> !EndsSentenceAt(t, j)
    decreases |t| - e
  {
    if e > |t| then None
    else if EndsSentenceAt(t, e) then Some(e)
    else SentenceEndFrom(t, e + 1)
  }

  /**
   * `re.findall(r".*?[^0-9]\.", field)` on a field without newlines: the
   * shortest match from the start, then again after it, until none is left.
   */
  function FindSentences(t: string): seq<string>
    decreases |t|
  {
    match SentenceEndFrom(t, 2)
    case None => []
    case Some(e) => [t[..e]] + FindSentences(t[e..])
  }

  /** Each match is as short as possible: it ends at its first sentence end. */
  predicate IsSentence(s: string) {
    EndsSentenceAt(s, |s|) && forall j :: 2 <= j < |s| ==> !EndsSentenceAt(s, j)
  }

  /**
   * The matches are shortest sentences, they tile a prefix of the field, and
   * what is left after them holds no further sentence end.
   */
  lemma {:induction false} FindSentencesSpec(t: string)
    ensures forall i :: 0 <= i < |FindSentences(t)| ==> IsSentence(FindSentences(t)[i])
    ensures |Flatten(FindSentences(t))| <= |t|
    ensures t[..|Flatten(FindSentences(t))|] == Flatten(FindSentences(t))
    ensures SentenceEndFrom(t[|Flatten(FindSentences(t))|..], 2).None?
    decreases |t|
  {
    var end := SentenceEndFrom(t, 2);
    if end.None? {
      assert FindSentences(t) == [];
      assert t[0..] == t;
    } else {
      var e := end.value;
      var s := t[..e];
      var rest := FindSentences(t[e..]);
      FindSentencesSpec(t[e..]);
      assert FindSentences(t) == [s] + rest;
      FlattenCons(s, rest);
      assert EndsSentenceAt(s, |s|);
      forall j | 2 <= j < |s| ensures !EndsSentenceAt(s, j) {
        assert !EndsSentenceAt(t, j);
      }
      var tail := Flatten(rest);
      assert t[..|s| + |tail|] == s + tail by {
        assert t[e..][..|tail|] == tail;
      }
      assert t[|s| + |tail|..] == t[e..][|tail|..];
    }
  }

  /** A field's sentences: its matches, or the field with "." appended when there is none. */
  function FieldSentences(field: string): seq<string> {
    var found := FindSentences(field);
    if |found| == 0 then [field + "."] else found
  }

  /** The sentences of the fields, field by field. */
  function SentencesOf(fields: seq<string>): seq<string> {
    if fields == [] then [] else SentencesOf(fields[..|fields| - 1]) + FieldSentences(fields[|fields| - 1])
  }

  /** `split_mimic_discharge` */
  function SplitMimicDischarge(text: string): seq<string> {
    SentencesOf(Condensed(KeptFields(SplitOn(text, FIELD_SEPARATOR))))
  }

  /** Every sentence of a note ends with ".". */
  lemma {:induction false} SentencesEndWithPeriod(fields: seq<string>)
    ensures forall i :: 0 <= i < |SentencesOf(fields)| ==>
      |SentencesOf(fields)[i]| >= 1 && SentencesOf(fields)[i][|SentencesOf(fields)[i]| - 1] == '.'
  {
    if fields != [] {
      var init := fields[..|fields| - 1];
      var field := fields[|fields| - 1];
      SentencesEndWithPeriod(init);
      FindSentencesSpec(field);
      var prev := SentencesOf(init);
      var more := FieldSentences(field);
      assert forall i :: 0 <= i < |more| ==> |more[i]| >= 1 && more[i][|more[i]| - 1] == '.';
      assert SentencesOf(fields) == prev + more;
    }
  }

  /** A field without a sentence end contributes itself, closed with ".". */
  lemma UnterminatedField(field: string)
    requires forall j :: 2 <= j ==> !EndsSentenceAt(field, j)
    ensures FieldSentences(field) == [field + "."]
  {
  }

  // ---------------------------------------------------------------------------
  // Metadata prefix

  const PREFIX_START: string := "For patient with "

  /** `metadata_cols`, or every column except `chunk_col` and `skip_cols` when it is `None`. */
  function MetadataColumns(columns: seq<string>, chunkCol: string, metadataCols: Option<seq<string>>,
                           skipCols: Option<seq<string>>): (cols: seq<string>)
    ensures metadataCols.Some? ==> cols == metadataCols.value
    ensures metadataCols.None? ==> forall c :: c in cols <==>
      c in columns && c != chunkCol && c !in skipCols.GetOr([])
  {
    if metadataCols.Some? then metadataCols.value
    else Without(columns, skipCols.GetOr([]) + [chunkCol])
  }

  function Without(columns: seq<string>, drop: seq<string>): (r: seq<string>)
    ensures forall c :: c in r <==> c in columns && c !in drop
  {
    if columns == [] then []
    else Without(columns[..|columns| - 1], drop)
         + (if columns[|columns| - 1] in drop then [] else [columns[|columns| - 1]])
  }

  /** Dropping works column by column, so the kept columns stay in their order. */
  lemma {:induction false} WithoutAppend(a: seq<string>, b: seq<string>, drop: seq<string>)
    ensures Without(a + b, drop) == Without(a, drop) + Without(b, drop)
    decreases |b|
  {
    if b == [] {
      assert a + b == a;
    } else {
      var init := b[..|b| - 1];
      assert (a + b)[..|a + b| - 1] == a + init;
      assert (a + b)[|a + b| - 1] == b[|b| - 1];
      WithoutAppend(a, init, drop);
    }
  }

  /** `f"{mc} of {row[mc]}"` for each metadata column; `KeyError` for the first missing one. */
  function Descriptions(row: Row, cols: seq<string>): (r: Result<seq<string>, UtilError>)
    ensures r.Ok? ==> |r.value| == |cols|
  {
    if cols == [] then Ok([])
    else
      var prev := Descriptions(row, cols[..|cols| - 1]);
      var col := cols[|cols| - 1];
      if prev.Err? then prev
      else match Lookup(row, col)
        case None => Err(KeyError(col))
        case Some(v) => Ok(prev.value + [col + " of " + Show(v)])
  }

  /** The descriptions exist iff every metadata column is in the row. */
  lemma {:induction false} DescriptionsOk(row: Row, cols: seq<string>)
    ensures Descriptions(row, cols).Ok? <==> forall i :: 0 <= i < |cols| ==> Lookup(row, cols[i]).Some?
  {
    if cols != [] {
      var init, col := cols[..|cols| - 1], cols[|cols| - 1];
      DescriptionsOk(row, init);
      if Descriptions(row, init).Err? {
        var i :| 0 <= i < |init| && Lookup(row, init[i]).None?;
        assert cols[i] == init[i];
      } else if Lookup(row, col).None? {
        assert Lookup(row, cols[|cols| - 1]).None?;
      } else {
        forall i | 0 <= i < |cols|
          ensures Lookup(row, cols[i]).Some?
        {
          if i < |init| {
            assert cols[i] == init[i];
          }
        }
      }
    }
  }

  /** The i-th description is `f"{cols[i]} of {row[cols[i]]}"`. */
  lemma {:induction false} DescriptionsContent(row: Row, cols: seq<string>, i: int)
    requires Descriptions(row, cols).Ok? && 0 <= i < |cols|
    ensures Lookup(row, cols[i]).Some?
    ensures Descriptions(row, cols).value[i] == cols[i] + " of " + Show(Lookup(row, cols[i]).value)
  {
    var init := cols[..|cols| - 1];
    var prev := Descriptions(row, init);
    assert prev.Ok?;
    if i < |init| {
      DescriptionsContent(row, init, i);
      assert init[i] == cols[i];
      assert Descriptions(row, cols).value == prev.value + [Descriptions(row, cols).value[|init|]];
    }
  }

  /** A failure is the `KeyError` of the first metadata column missing from the row. */
  lemma {:induction false} DescriptionsErr(row: Row, cols: seq<string>)
    requires Descriptions(row, cols).Err?
    ensures exists i :: && 0 <= i < |cols| && Lookup(row, cols[i]).None?
                        && Descriptions(row, cols).error == KeyError(cols[i])
                        && forall j :: 0 <= j < i ==> Lookup(row, cols[j]).Some?
  {
    var init := cols[..|cols| - 1];
    var last := |cols| - 1;
    assert forall i :: 0 <= i < |init| ==> init[i] == cols[i];
    if Descriptions(row, init).Err? {
      DescriptionsErr(row, init);
      var i :| && 0 <= i < |init| && Lookup(row, init[i]).None?
               && Descriptions(row, init).error == KeyError(init[i])
               && forall j :: 0 <= j < i ==> Lookup(row, init[j]).Some?;
      assert Lookup(row, cols[i]).None? && Descriptions(row, cols).error == KeyError(cols[i]);
    } else {
      DescriptionsOk(row, init);
      assert Lookup(row, cols[last]).None? && Descriptions(row, cols).error == KeyError(cols[last]);
    }
  }

  /** The prefix after the `prefix += ...` loop: each description followed by ", ". */
  function Accumulated(descs: seq<string>): string {
    if descs == [] then PREFIX_START else Accumulated(descs[..|descs| - 1]) + descs[|descs| - 1] + ", "
  }

  /** `prefix[:-2] + ": "` */
  function PrefixOf(descs: seq<string>): string {
    PySliceTo(Accumulated(descs), -2) + ": "
  }

  lemma {:induction false} JoinSnoc(sep: string, xs: seq<string>, x: string)
    requires xs != []
    ensures Join(sep, xs + [x]) == Join(sep, xs) + sep + x
  {
    if |xs| > 1 {
      JoinSnoc(sep, xs[1..], x);
      assert (xs + [x])[1..] == xs[1..] + [x];
    }
  }

  lemma {:induction false} AccumulatedJoin(descs: seq<string>)
    requires descs != []
    ensures Accumulated(descs) == PREFIX_START + Join(", ", descs) + ", "
  {
    var init := descs[..|descs| - 1];
    var d := descs[|descs| - 1];
    assert init + [d] == descs;
    if init == [] {
      assert Accumulated(descs) == Accumulated([]) + d + ", ";
      assert Join(", ", descs) == d;
    } else {
      AccumulatedJoin(init);
      JoinSnoc(", ", init, d);
      assert Accumulated(descs) == PREFIX_START + Join(", ", init) + ", " + d + ", ";
    }
  }

  /**
   * The prefix is "For patient with ", the descriptions joined by ", ", and
   * ": "; with no metadata column the slice eats into the opening words.
   */
  lemma PrefixOfSpec(descs: seq<string>)
    ensures descs != [] ==> PrefixOf(descs) == PREFIX_START + Join(", ", descs) + ": "
    ensures descs == [] ==> PrefixOf(descs) == "For patient wit: "
  {
    if descs != [] {
      AccumulatedJoin(descs);
      var body := PREFIX_START + Join(", ", descs);
      assert (body + ", ")[..|body|] == body;
    }
  }

  /** One rewritten row: the prefix and the old text in `chunkCol`; the errors Python raises. */
  function PrefixedRow(row: Row, chunkCol: string, cols: seq<string>): Result<Row, UtilError> {
    var descs := Descriptions(row, cols);
    if descs.Err? then Err(descs.error)
    else match Lookup(row, chunkCol)
      case None => Err(KeyError(chunkCol))
      case Some(v) =>
        if v.Str? then Ok(ReplaceColumn(row, chunkCol, Str(PrefixOf(descs.value) + v.s)))
        else Err(NotText(chunkCol))
  }

  /** The rewritten row keeps every other column and puts the prefix before the old text. */
  lemma PrefixedRowSpec(row: Row, chunkCol: string, cols: seq<string>, c: int)
    requires PrefixedRow(row, chunkCol, cols).Ok? && 0 <= c < |row|
    ensures var r := PrefixedRow(row, chunkCol, cols).value;
      && |r| == |row|
      && (row[c].column != chunkCol ==> r[c] == row[c])
      && (row[c].column == chunkCol && cols != [] ==>
            r[c] == Cell(chunkCol, Str(PREFIX_START + Join(", ", Descriptions(row, cols).value) + ": "
                                       + Lookup(row, chunkCol).value.s)))
  {
    PrefixOfSpec(Descriptions(row, cols).value);
  }

  /** The `prefix +=` loop for one row. */
  method BuildPrefix(row: Row, cols: seq<string>) returns (r: Result<string, UtilError>)
    ensures Descriptions(row, cols).Err? ==> r == Err(Descriptions(row, cols).error)
    ensures Descriptions(row, cols).Ok? ==> r == Ok(PrefixOf(Descriptions(row, cols).value))
  {
    var prefix := PREFIX_START;
    for m := 0 to |cols|
      invariant Descriptions(row, cols[..m]).Ok?
      invariant prefix == Accumulated(Descriptions(row, cols[..m]).value)
    {
      assert cols[..m + 1][..m] == cols[..m];
      var v := Lookup(row, cols[m]);
      if v.None? {
        DescriptionsErrSticks(row, cols, m + 1);
        return Err(KeyError(cols[m]));
      }
      prefix := prefix + cols[m] + " of " + Show(v.value) + ", ";
    }
    assert cols[..|cols|] == cols;
    return Ok(PySliceTo(prefix, -2) + ": ");
  }

  lemma {:induction false} DescriptionsErrSticks(row: Row, cols: seq<string>, m: nat)
    requires m <= |cols| && Descriptions(row, cols[..m]).Err?
    ensures Descriptions(row, cols) == Descriptions(row, cols[..m])
    decreases |cols| - m
  {
    if m == |cols| {
      assert cols[..m] == cols;
    } else {
      assert cols[..m + 1][..m] == cols[..m];
      DescriptionsErrSticks(row, cols, m + 1);
    }
  }

  /**
   * `prefix_metadata`, in place: every row rewritten, or, at the first row
   * that raises, the rows before it rewritten and the rest untouched.
   */
  method PrefixMetadata(df: array<Row>, columns: seq<string>, chunkCol: string,
                        metadataCols: Option<seq<string>>, skipCols: Option<seq<string>>)
    returns (err: Option<UtilError>)
    modifies df
    ensures var cols := MetadataColumns(columns, chunkCol, metadataCols, skipCols);
      err.None? ==> forall i :: 0 <= i < df.Length ==> PrefixedRow(old(df[i]), chunkCol, cols) == Ok(df[i])
    ensures var cols := MetadataColumns(columns, chunkCol, metadataCols, skipCols);
      err.Some? ==> exists k :: (
        && 0 <= k < df.Length
        && PrefixedRow(old(df[k]), chunkCol, cols) == Err(err.value)
        && (forall i :: 0 <= i < k ==> PrefixedRow(old(df[i]), chunkCol, cols) == Ok(df[i]))
        && (forall i :: k <= i < df.Length ==> df[i] == old(df[i])))
  {
    var cols := MetadataColumns(columns, chunkCol, metadataCols, skipCols);
    for i := 0 to df.Length
      invariant forall j :: 0 <= j < i ==> PrefixedRow(old(df[j]), chunkCol, cols) == Ok(df[j])
      invariant forall j :: i <= j < df.Length ==> df[j] == old(df[j])
    {
      var rewritten := RewriteRow(df[i], chunkCol, cols);
      if rewritten.Err? {
        assert PrefixedRow(old(df[i]), chunkCol, cols) == Err(rewritten.error);
        return Some(rewritten.error);
      }
      df[i] := rewritten.value;
    }
    return None;
  }

  /** The body of the row loop: the prefix, then the text cell, each step raising as Python does. */
  method RewriteRow(row: Row, chunkCol: string, cols: seq<string>) returns (r: Result<Row, UtilError>)
    ensures r == PrefixedRow(row, chunkCol, cols)
  {
    var prefix := BuildPrefix(row, cols);
    if prefix.Err? {
      return Err(prefix.error);
    }
    var text := Lookup(row, chunkCol);
    if text.None? {
      return Err(KeyError(chunkCol));
    }
    if !text.value.Str? {
      return Err(NotText(chunkCol));
    }
    return Ok(ReplaceColumn(row, chunkCol, Str(prefix.value + text.value.s)));
  }
}
