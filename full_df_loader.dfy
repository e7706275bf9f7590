/**
 * `AllColumnsDataFrameLoader`: one document per data-frame row, whose page
 * content lists every non-metadata column as "column: value" lines and whose
 * metadata holds the row's source, its position, and the metadata columns.
 */
module FullDfLoader {
  import opened Values

  datatype LoaderError =
    | SourceColumnNotFound(column: string)
    | MetadataColumnNotFound(column: string)
  {
    /** The `ValueError` message. */
    function Message(): string {
      match this
      case SourceColumnNotFound(c) => "Source column '" + c + "' not found in CSV file."
      case MetadataColumnNotFound(c) => "Metadata column '" + c + "' not found in CSV file."
    }
  }

  /** The `"k: v"` lines of the cells whose column is not a metadata column, in column order. */
  function ContentLines(row: Row, metadataColumns: seq<string>): (lines: seq<string>)
    ensures |lines| <= |row|
  {
    if row == [] then []
    else
      var cell := row[|row| - 1];
      ContentLines(row[..|row| - 1], metadataColumns)
        + (if cell.column in metadataColumns then [] else [cell.column + ": " + Show(cell.value)])
  }

  /** One cell: its `"k: v"` line, or nothing when its column is a metadata column. */
  lemma ContentLinesSingle(cell: Cell, metadataColumns: seq<string>)
    ensures ContentLines([cell], metadataColumns) ==
      if cell.column in metadataColumns then [] else [cell.column + ": " + Show(cell.value)]
  {
    assert [cell][..0] == [];
  }

  /** The lines of `a + b` are those of `a`, then those of `b`: column order is kept. */
  lemma {:induction false} ContentLinesAppend(a: Row, b: Row, metadataColumns: seq<string>)
    ensures ContentLines(a + b, metadataColumns) == ContentLines(a, metadataColumns) + ContentLines(b, metadataColumns)
    decreases |b|
  {
    if b == [] {
      assert a + b == a;
    } else {
      var init := b[..|b| - 1];
      assert (a + b)[..|a + b| - 1] == a + init;
      assert (a + b)[|a + b| - 1] == b[|b| - 1];
      ContentLinesAppend(a, init, metadataColumns);
    }
  }

  /** Every line of the content is the `"k: v"` line of some non-metadata cell. */
  lemma {:induction false} ContentLinesSource(row: Row, metadataColumns: seq<string>, l: string)
    requires l in ContentLines(row, metadataColumns)
    ensures exists c :: 0 <= c < |row| && row[c].column !in metadataColumns && l == row[c].column + ": " + Show(row[c].value)
  {
    var init, last := row[..|row| - 1], row[|row| - 1];
    if l in ContentLines(init, metadataColumns) {
      ContentLinesSource(init, metadataColumns, l);
      var c :| 0 <= c < |init| && init[c].column !in metadataColumns && l == init[c].column + ": " + Show(init[c].value);
      assert row[c] == init[c];
    } else {
      assert last.column !in metadataColumns && l == last.column + ": " + Show(last.value);
      assert row[|row| - 1] == last;
    }
  }

  /** A line is in the content iff it is the `"k: v"` line of a non-metadata cell. */
  lemma ContentLinesMembers(row: Row, metadataColumns: seq<string>, l: string)
    ensures l in ContentLines(row, metadataColumns) <==>
      exists c :: 0 <= c < |row| && row[c].column !in metadataColumns && l == row[c].column + ": " + Show(row[c].value)
  {
    if l in ContentLines(row, metadataColumns) {
      ContentLinesSource(row, metadataColumns, l);
    }
    if exists c :: 0 <= c < |row| && row[c].column !in metadataColumns && l == row[c].column + ": " + Show(row[c].value) {
      var c :| 0 <= c < |row| && row[c].column !in metadataColumns && l == row[c].column + ": " + Show(row[c].value);
      ContentLinesSpec(row, metadataColumns, c);
    }
  }

  /** Every non-metadata cell has its line. */
  lemma {:induction false} ContentLinesSpec(row: Row, metadataColumns: seq<string>, c: int)
    requires 0 <= c < |row| && row[c].column !in metadataColumns
    ensures row[c].column + ": " + Show(row[c].value) in ContentLines(row, metadataColumns)
  {
    if c < |row| - 1 {
      ContentLinesSpec(row[..|row| - 1], metadataColumns, c);
    }
  }

  lemma {:induction false} ContentLinesAllMetadata(row: Row, metadataColumns: seq<string>)
    requires forall c :: 0 <= c < |row| ==> row[c].column in metadataColumns
    ensures ContentLines(row, metadataColumns) == []
  {
    if row != [] {
      ContentLinesAllMetadata(row[..|row| - 1], metadataColumns);
    }
  }

  /** `"\n".join(...)` of the lines. */
  function PageContent(row: Row, metadataColumns: seq<string>): string {
    Join("\n", ContentLines(row, metadataColumns))
  }

  /** The page content shows every non-metadata column with its value. */
  lemma PageContentShowsColumn(row: Row, metadataColumns: seq<string>, c: int)
    requires 0 <= c < |row| && row[c].column !in metadataColumns
    ensures Contains(PageContent(row, metadataColumns), row[c].column + ": " + Show(row[c].value))
  {
    var lines := ContentLines(row, metadataColumns);
    ContentLinesSpec(row, metadataColumns, c);
    var k :| 0 <= k < |lines| && lines[k] == row[c].column + ": " + Show(row[c].value);
    JoinContains("\n", lines, k);
  }

  /** The row's source: the source column's value, or "DataFrame" when there is none. */
  function Source(row: Row, sourceColumn: Option<string>): (r: Result<Value, LoaderError>)
    ensures sourceColumn.None? ==> r == Ok(Str("DataFrame"))
    ensures sourceColumn.Some? && Lookup(row, sourceColumn.value).None? ==> r == Err(SourceColumnNotFound(sourceColumn.value))
    ensures sourceColumn.Some? && Lookup(row, sourceColumn.value).Some? ==> r == Ok(Lookup(row, sourceColumn.value).value)
  {
    match sourceColumn
    case None => Ok(Str("DataFrame"))
    case Some(col) =>
      match Lookup(row, col)
      case None => Err(SourceColumnNotFound(col))
      case Some(v) => Ok(v)
  }

  /** `metadata[col] = row[col]` for each metadata column in turn, after `base`. */
  function AddColumns(row: Row, base: Attrs, cols: seq<string>): (r: Result<Attrs, LoaderError>)
  {
    if cols == [] then Ok(base)
    else
      var prev := AddColumns(row, base, cols[..|cols| - 1]);
      var col := cols[|cols| - 1];
      if prev.Err? then prev
      else match Lookup(row, col)
        case None => Err(MetadataColumnNotFound(col))
        case Some(v) => Ok(prev.value[col := v])
  }

  /** The columns are added iff all of them are present. */
  lemma {:induction false} AddColumnsOk(row: Row, base: Attrs, cols: seq<string>)
    ensures AddColumns(row, base, cols).Ok? <==> forall i :: 0 <= i < |cols| ==> Lookup(row, cols[i]).Some?
  {
    if cols != [] {
      var init := cols[..|cols| - 1];
      AddColumnsOk(row, base, init);
      assert forall i :: 0 <= i < |init| ==> init[i] == cols[i];
    }
  }

  /** Once added, the metadata has exactly the base keys and the columns. */
  lemma {:induction false} AddColumnsKeys(row: Row, base: Attrs, cols: seq<string>)
    requires AddColumns(row, base, cols).Ok?
    ensures AddColumns(row, base, cols).value.Keys == base.Keys + (set c | c in cols)
  {
    if cols != [] {
      var init := cols[..|cols| - 1];
      AddColumnsKeys(row, base, init);
      assert (set c | c in cols) == (set c | c in init) + {cols[|cols| - 1]};
    }
  }

  /** Each column holds its row value. */
  lemma {:induction false} AddColumnsColumn(row: Row, base: Attrs, cols: seq<string>, i: int)
    requires AddColumns(row, base, cols).Ok? && 0 <= i < |cols|
    ensures cols[i] in AddColumns(row, base, cols).value
    ensures Lookup(row, cols[i]) == Some(AddColumns(row, base, cols).value[cols[i]])
  {
    var last := |cols| - 1;
    if i < last && cols[i] != cols[last] {
      AddColumnsColumn(row, base, cols[..last], i);
    }
  }

  /** Every base key that is not a column keeps its value. */
  lemma {:induction false} AddColumnsBase(row: Row, base: Attrs, cols: seq<string>, k: string)
    requires AddColumns(row, base, cols).Ok? && k in base && k !in cols
    ensures k in AddColumns(row, base, cols).value && AddColumns(row, base, cols).value[k] == base[k]
  {
    if cols != [] {
      AddColumnsBase(row, base, cols[..|cols| - 1], k);
    }
  }

  /** The document for row `i`; the first missing column's error. */
  function RowDocument(row: Row, i: int, sourceColumn: Option<string>, metadataColumns: seq<string>)
    : Result<Doc, LoaderError>
  {
    var source := Source(row, sourceColumn);
    if source.Err? then Err(source.error)
    else
      var metadata := AddColumns(row, map["source" := source.value, "row" := Int(i)], metadataColumns);
      if metadata.Err? then Err(metadata.error)
      else Ok(Doc(PageContent(row, metadataColumns), metadata.value))
  }

  /** The outcome for each row, in row order. */
  function RowDocuments(rows: seq<Row>, sourceColumn: Option<string>, metadataColumns: seq<string>)
    : (rs: seq<Result<Doc, LoaderError>>)
    ensures |rs| == |rows|
    ensures forall i :: 0 <= i < |rows| ==> rs[i] == RowDocument(rows[i], i, sourceColumn, metadataColumns)
  {
    seq(|rows|, i requires 0 <= i < |rows| => RowDocument(rows[i], i, sourceColumn, metadataColumns))
  }

  /** `list(...)` over a generator that may raise: all values in order, or the first error. */
  function Collect<T>(rs: seq<Result<T, LoaderError>>): Result<seq<T>, LoaderError> {
    if rs == [] then Ok([])
    else
      var prev := Collect(rs[..|rs| - 1]);
      var last := rs[|rs| - 1];
      if prev.Err? then prev
      else if last.Err? then Err(last.error)
      else Ok(prev.value + [last.value])
  }

  lemma {:induction false} CollectSpec<T>(rs: seq<Result<T, LoaderError>>)
    ensures Collect(rs).Ok? <==> forall i :: 0 <= i < |rs| ==> rs[i].Ok?
    ensures Collect(rs).Ok? ==> |Collect(rs).value| == |rs| && forall i :: 0 <= i < |rs| ==> rs[i] == Ok(Collect(rs).value[i])
  {
    if rs != [] {
      var n := |rs| - 1;
      var init := rs[..n];
      CollectSpec(init);
      assert forall i :: 0 <= i < n ==> init[i] == rs[i];
      if Collect(init).Err? {
        var j :| 0 <= j < n && !init[j].Ok?;
        assert !rs[j].Ok?;
      }
    }
  }

  /** `load()`: the documents of all rows in order, or the first row's error. */
  function Load(rows: seq<Row>, sourceColumn: Option<string>, metadataColumns: seq<string>)
    : Result<seq<Doc>, LoaderError>
  {
    Collect(RowDocuments(rows, sourceColumn, metadataColumns))
  }

  /** Loading succeeds iff every row's document does, and then gives one document per row, in row order. */
  lemma LoadOnePerRow(rows: seq<Row>, sourceColumn: Option<string>, metadataColumns: seq<string>)
    ensures Load(rows, sourceColumn, metadataColumns).Ok? <==>
      forall i :: 0 <= i < |rows| ==> RowDocument(rows[i], i, sourceColumn, metadataColumns).Ok?
    ensures Load(rows, sourceColumn, metadataColumns).Ok? ==>
      var docs := Load(rows, sourceColumn, metadataColumns).value;
      |docs| == |rows| &&
      forall i :: 0 <= i < |rows| ==> RowDocument(rows[i], i, sourceColumn, metadataColumns) == Ok(docs[i])
  {
    CollectSpec(RowDocuments(rows, sourceColumn, metadataColumns));
  }

  /**
   * A loaded document's metadata: "source" (the source column's value or
   * "DataFrame") and "row" (its position), unless a metadata column of that
   * name replaces them, and each metadata column's value.
   */
  lemma RowDocumentSpec(row: Row, i: int, sourceColumn: Option<string>, metadataColumns: seq<string>)
    requires RowDocument(row, i, sourceColumn, metadataColumns).Ok?
    ensures var doc := RowDocument(row, i, sourceColumn, metadataColumns).value;
      && doc.pageContent == PageContent(row, metadataColumns)
      && doc.metadata.Keys == {"source", "row"} + (set c | c in metadataColumns)
      && ("source" !in metadataColumns ==> Source(row, sourceColumn) == Ok(doc.metadata["source"]))
      && ("row" !in metadataColumns ==> doc.metadata["row"] == Int(i))
      && (forall k :: 0 <= k < |metadataColumns| ==>
            metadataColumns[k] in doc.metadata && Lookup(row, metadataColumns[k]) == Some(doc.metadata[metadataColumns[k]]))
  {
    var source := Source(row, sourceColumn);
    var base := map["source" := source.value, "row" := Int(i)];
    AddColumnsKeys(row, base, metadataColumns);
    forall k | 0 <= k < |metadataColumns|
      ensures metadataColumns[k] in RowDocument(row, i, sourceColumn, metadataColumns).value.metadata
      ensures Lookup(row, metadataColumns[k]) == Some(RowDocument(row, i, sourceColumn, metadataColumns).value.metadata[metadataColumns[k]])
    {
      AddColumnsColumn(row, base, metadataColumns, k);
    }
    if "source" !in metadataColumns {
      AddColumnsBase(row, base, metadataColumns, "source");
    }
    if "row" !in metadataColumns {
      AddColumnsBase(row, base, metadataColumns, "row");
    }
  }

  /** The two `ValueError`s: a missing source column, and the first missing metadata column. */
  lemma RowDocumentErrors(row: Row, i: int, sourceColumn: Option<string>, metadataColumns: seq<string>)
    ensures sourceColumn.Some? && Lookup(row, sourceColumn.value).None? ==>
      RowDocument(row, i, sourceColumn, metadataColumns) == Err(SourceColumnNotFound(sourceColumn.value))
    ensures Source(row, sourceColumn).Ok? && (exists k :: 0 <= k < |metadataColumns| && Lookup(row, metadataColumns[k]).None?) ==>
      RowDocument(row, i, sourceColumn, metadataColumns).Err? &&
      RowDocument(row, i, sourceColumn, metadataColumns).error.MetadataColumnNotFound?
  {
    var source := Source(row, sourceColumn);
    if source.Ok? {
      AddColumnsOk(row, map["source" := source.value, "row" := Int(i)], metadataColumns);
      AddColumnsErrKind(row, map["source" := source.value, "row" := Int(i)], metadataColumns);
    }
  }

  lemma {:induction false} AddColumnsErrKind(row: Row, base: Attrs, cols: seq<string>)
    ensures AddColumns(row, base, cols).Err? ==> AddColumns(row, base, cols).error.MetadataColumnNotFound?
  {
    if cols != [] {
      AddColumnsErrKind(row, base, cols[..|cols| - 1]);
    }
  }
}
