/**
 * The document processor's ingestion rules: which files it accepts, how a
 * file's text is assembled and chunked, how chunk ids and metadata are
 * built, how table rows become documents, and the checks `validate_file`
 * makes before a file is processed.
 *
 * The file readers (PDF, Word, CSV and Excel parsers) are not modelled: what
 * they extract is an input, and a reader that fails is an absent input.
 */
module Ingest {
  import opened Wrappers
  import opened Text
  import opened Records
  import opened Chunker

  // ================================================================ files

  /**
   * `Path(name).suffix`: the name's last dot and what follows it, or "" when
   * the name has no dot, starts with its only dot or ends with a dot.
   */
  function FileSuffix(name: string): (r: string)
    ensures r == [] || (|r| >= 2 && |r| <= |name| && r[0] == '.' && r == name[|name| - |r|..])
    ensures forall k :: 1 <= k < |r| ==> r[k] != '.'
  {
    var i := RFind(name, '.');
    if 0 < i < |name| - 1 then name[i..] else []
  }

  /** The extensions the processor accepts, lower-case. */
  const SupportedExtensions: seq<string> := [".pdf", ".docx", ".txt", ".csv", ".xlsx", ".xls"]

  /** What the reader for each kind of file extracts. */
  datatype Content =
    | Pages(pages: seq<string>)            // the text of each PDF page
    | Paragraphs(paragraphs: seq<string>)  // the text of each Word paragraph
    | Plain(text: string)                  // a text file, decoded
    | Tabular(table: Table)                // a CSV file
    | Workbook(sheets: seq<Sheet>)         // an Excel workbook

  /** A table: column names and rows of cells, one cell per column. */
  datatype Table = Table(columns: seq<string>, rows: seq<seq<string>>)

  /** An Excel sheet: its name and its table. */
  datatype Sheet = Sheet(name: string, table: Table)

  // ================================================================ ids and metadata

  /** `md5(f"{file_path.name}_{suffix}")`: a chunk's id depends only on the file name and the suffix. */
  function DocumentId(fileName: string, suffix: string): (r: Digest)
    ensures |r.source| == |fileName| + 1 + |suffix|
    ensures r.source[..|fileName|] == fileName && r.source[|fileName|] == '_' && r.source[|fileName| + 1..] == suffix
  {
    Md5(fileName + "_" + suffix)
  }

  /** Chunks (and CSV rows) of one file with different indices get different ids. */
  lemma IndexIdsDistinct(fileName: string, i: nat, j: nat)
    requires DocumentId(fileName, NatToString(i)) == DocumentId(fileName, NatToString(j))
    ensures i == j
  {
    var p := fileName + "_";
    assert (p + NatToString(i))[|p|..] == NatToString(i);
    assert (p + NatToString(j))[|p|..] == NatToString(j);
    NatToStringInjective(i, j);
  }

  /**
   * Excel rows are ided by `f"{sheet_name}_{index}"`: since the index is all
   * digits, distinct (sheet, row) pairs of one workbook get distinct ids.
   */
  lemma SheetRowIdsDistinct(fileName: string, sheet1: string, i: nat, sheet2: string, j: nat)
    requires DocumentId(fileName, sheet1 + "_" + NatToString(i)) == DocumentId(fileName, sheet2 + "_" + NatToString(j))
    ensures sheet1 == sheet2 && i == j
  {
    var p := fileName + "_";
    var x1, x2 := sheet1 + "_" + NatToString(i), sheet2 + "_" + NatToString(j);
    assert (p + x1)[|p|..] == x1;
    assert (p + x2)[|p|..] == x2;
    SheetRowSplits(sheet1, i);
    SheetRowSplits(sheet2, j);
    NatToStringInjective(i, j);
  }

  /** A `sheet_row` suffix splits back at its last underscore into the sheet name and the row number. */
  lemma SheetRowSplits(sheet: string, i: nat)
    ensures var x := sheet + "_" + NatToString(i);
      RFind(x, '_') == |sheet| && x[..|sheet|] == sheet && x[|sheet| + 1..] == NatToString(i)
  {
    RFindJoint(sheet, '_', NatToString(i));
  }

  /** `{**built, **(metadata or {})}`: the caller's metadata is spread last and wins. */
  function WithCaller(built: Metadata, caller: Option<Metadata>): (m: Metadata)
    ensures m.Keys == built.Keys + (if caller.Some? then caller.value.Keys else {})
    ensures caller.Some? ==> forall k :: k in caller.value ==> m[k] == caller.value[k]
    ensures forall k :: k in built && (caller.None? || k !in caller.value) ==> m[k] == built[k]
  {
    match caller
    case None => built
    case Some(c) => built + c
  }

  /** The metadata of chunk `i` of `total` of a PDF, Word or text file. */
  function ChunkMetadata(fileName: string, sourceType: string, i: nat, total: nat, now: string, caller: Option<Metadata>): Metadata
  {
    WithCaller(map["source_file" := Str(fileName), "source_type" := Str(sourceType),
                   "chunk_index" := Int(i), "total_chunks" := Int(total), "processed_at" := Str(now)], caller)
  }

  /**
   * Every chunk records the file name, the source type, its index and the
   * number of chunks, unless the caller's metadata replaces them, and carries
   * every key of the caller's metadata.
   */
  lemma ChunkMetadataFields(fileName: string, sourceType: string, i: nat, total: nat, now: string, caller: Option<Metadata>)
    ensures var m := ChunkMetadata(fileName, sourceType, i, total, now, caller);
      var own := caller.None? || "chunk_index" !in caller.value;
      && (caller.Some? ==> forall k :: k in caller.value ==> k in m && m[k] == caller.value[k])
      && (own ==> m["chunk_index"] == Int(i))
      && (caller.None? || "total_chunks" !in caller.value ==> m["total_chunks"] == Int(total))
      && (caller.None? || "source_file" !in caller.value ==> m["source_file"] == Str(fileName))
      && (caller.None? || "source_type" !in caller.value ==> m["source_type"] == Str(sourceType))
  {
  }

  /** The documents of a chunked file: chunk `i` gets id `md5(name + "_" + str(i))`. */
  function ChunkDocuments(fileName: string, sourceType: string, chunks: seq<string>, now: string, caller: Option<Metadata>): (docs: seq<Document>)
    ensures |docs| == |chunks|
    ensures forall i :: 0 <= i < |docs| ==> docs[i].content == chunks[i]
    ensures forall i :: 0 <= i < |docs| ==> docs[i].id == DocumentId(fileName, NatToString(i))
    ensures forall i :: 0 <= i < |docs| ==> docs[i].metadata == ChunkMetadata(fileName, sourceType, i, |chunks|, now, caller)
  {
    seq(|chunks|, i requires 0 <= i < |chunks| =>
      Document(DocumentId(fileName, NatToString(i)), chunks[i], ChunkMetadata(fileName, sourceType, i, |chunks|, now, caller)))
  }

  /** The chunks of one file have pairwise distinct ids. */
  lemma ChunkDocumentIdsDistinct(fileName: string, sourceType: string, chunks: seq<string>, now: string, caller: Option<Metadata>, i: nat, j: nat)
    requires i < j < |chunks|
    ensures ChunkDocuments(fileName, sourceType, chunks, now, caller)[i].id
         != ChunkDocuments(fileName, sourceType, chunks, now, caller)[j].id
  {
    var docs := ChunkDocuments(fileName, sourceType, chunks, now, caller);
    if docs[i].id == docs[j].id {
      IndexIdsDistinct(fileName, i, j);
    }
  }

  /** The loop that wraps each chunk into a document. */
  method BuildChunkDocuments(fileName: string, sourceType: string, chunks: seq<string>, now: string, caller: Option<Metadata>)
    returns (documents: seq<Document>)
    ensures documents == ChunkDocuments(fileName, sourceType, chunks, now, caller)
  {
    ghost var all := ChunkDocuments(fileName, sourceType, chunks, now, caller);
    documents := [];
    for i := 0 to |chunks|
      invariant documents == all[..i]
    {
      var metadata := ChunkMetadata(fileName, sourceType, i, |chunks|, now, caller);
      documents := documents + [Document(DocumentId(fileName, NatToString(i)), chunks[i], metadata)];
    }
  }

  // ================================================================ text of a file

  /** The header the PDF reader puts before page `n` (counted from 1). */
  function PageHeader(n: nat): string
  {
    "\n\n" + PageMarker + NatToString(n) + " ---\n"
  }

  /** The text of a PDF: each page's text after its header, in page order. */
  function PdfText(pages: seq<string>): string
  {
    if pages == [] then []
    else PdfText(pages[..|pages| - 1]) + PageHeader(|pages|) + pages[|pages| - 1]
  }

  /** The text of the first pages of a PDF starts the text of the whole PDF. */
  lemma {:induction false} PdfTextPrefix(pages: seq<string>, i: nat)
    requires i <= |pages|
    ensures |PdfText(pages[..i])| <= |PdfText(pages)|
    ensures PdfText(pages[..i]) == PdfText(pages)[..|PdfText(pages[..i])|]
    decreases |pages| - i
  {
    if i < |pages| {
      PdfTextPrefix(pages, i + 1);
      assert pages[..i + 1][..i] == pages[..i];
    } else {
      assert pages[..i] == pages;
    }
  }

  /** Page `i` (from 0) appears in the PDF's text right after the header numbered `i + 1`. */
  lemma PdfTextPage(pages: seq<string>, i: nat)
    requires i < |pages|
    ensures OccursAt(PdfText(pages), PageHeader(i + 1) + pages[i], |PdfText(pages[..i])|)
  {
    PdfTextPrefix(pages, i + 1);
    PdfTextLast(pages, i);
    var s := PageHeader(i + 1) + pages[i];
    var a := |PdfText(pages[..i])|;
    InsidePrefix(PdfText(pages), PdfText(pages[..i + 1]), a, s);
  }

  /** The text of the first `i + 1` pages is that of the first `i` followed by page `i` under its header. */
  lemma PdfTextLast(pages: seq<string>, i: nat)
    requires i < |pages|
    ensures PdfText(pages[..i + 1]) == PdfText(pages[..i]) + PageHeader(i + 1) + pages[i]
  {
    assert pages[..i + 1][..i] == pages[..i];
  }

  /** What ends a prefix of `whole` at `a + |s|` occurs in `whole` at `a`. */
  lemma InsidePrefix(whole: string, t: string, a: nat, s: string)
    requires |t| <= |whole| && t == whole[..|t|] && a + |s| == |t| && t[a..] == s
    ensures OccursAt(whole, s, a)
  {
    assert whole[a..a + |s|] == t[a..];
  }

  /** The PDF reader's loop over pages. */
  method ReadPdfText(pages: seq<string>) returns (fullText: string)
    ensures fullText == PdfText(pages)
  {
    fullText := [];
    for n := 0 to |pages|
      invariant fullText == PdfText(pages[..n])
    {
      assert pages[..n + 1][..n] == pages[..n];
      fullText := fullText + PageHeader(n + 1) + pages[n];
    }
    assert pages[..|pages|] == pages;
  }

  /** The text of a Word document: each paragraph followed by a line end. */
  function DocxText(paragraphs: seq<string>): string
  {
    if paragraphs == [] then []
    else DocxText(paragraphs[..|paragraphs| - 1]) + paragraphs[|paragraphs| - 1] + "\n"
  }

  /** The text of a Word document is as long as its paragraphs and one line end per paragraph. */
  lemma {:induction false} DocxTextLength(paragraphs: seq<string>)
    ensures |DocxText(paragraphs)| == |Flatten(paragraphs)| + |paragraphs|
  {
    if paragraphs != [] {
      DocxTextLength(paragraphs[..|paragraphs| - 1]);
    }
  }

  /** The Word reader's loop over paragraphs. */
  method ReadDocxText(paragraphs: seq<string>) returns (fullText: string)
    ensures fullText == DocxText(paragraphs)
  {
    fullText := [];
    for n := 0 to |paragraphs|
      invariant fullText == DocxText(paragraphs[..n])
    {
      assert paragraphs[..n + 1][..n] == paragraphs[..n];
      fullText := fullText + paragraphs[n] + "\n";
    }
    assert paragraphs[..|paragraphs|] == paragraphs;
  }

  // ================================================================ table rows

  /** `str(row[j])`. */
  function Cell(row: seq<string>, j: nat): string
  {
    if j < |row| then row[j] else []
  }

  /** The position of column `c`: its first occurrence, or `None` when absent. */
  function IndexOf(columns: seq<string>, c: string): (r: Option<nat>)
    ensures r.Some? <==> c in columns
    ensures r.Some? ==> r.value < |columns| && columns[r.value] == c
  {
    if columns == [] then None
    else if columns[0] == c then Some(0)
    else match IndexOf(columns[1..], c)
      case None => None
      case Some(k) => Some(k + 1)
  }

  /** Whether `k` starts with `prefix`. */
  predicate HasPrefix(k: string, prefix: string)
  {
    |prefix| <= |k| && k[..|prefix|] == prefix
  }

  /**
   * The loop that copies the other columns of a row into its metadata: every
   * column not in `skip` sets key `prefix + column` to its cell, later columns
   * overwriting earlier ones of the same name.
   */
  function WithColumns(m: Metadata, prefix: string, columns: seq<string>, row: seq<string>, skip: set<string>): Metadata
  {
    if columns == [] then m
    else
      var n := |columns| - 1;
      var r := WithColumns(m, prefix, columns[..n], row, skip);
      if columns[n] in skip then r else r[prefix + columns[n] := Str(Cell(row, n))]
  }

  /**
   * Copying columns keeps every key of the metadata, adds only keys that
   * start with the prefix, and leaves the values of other keys alone.
   */
  lemma {:induction false} WithColumnsKeeps(m: Metadata, prefix: string, columns: seq<string>, row: seq<string>, skip: set<string>)
    ensures var r := WithColumns(m, prefix, columns, row, skip);
      && m.Keys <= r.Keys
      && (forall k :: k in r && k !in m ==> HasPrefix(k, prefix))
      && (forall k :: k in m && !HasPrefix(k, prefix) ==> r[k] == m[k])
  {
    if columns != [] {
      var n := |columns| - 1;
      WithColumnsKeeps(m, prefix, columns[..n], row, skip);
      assert HasPrefix(prefix + columns[n], prefix) by {
        assert (prefix + columns[n])[..|prefix|] == prefix;
      }
    }
  }

  /** A column outside `skip` with no later namesake leaves its cell under `prefix + column`. */
  lemma {:induction false} WithColumnsCell(m: Metadata, prefix: string, columns: seq<string>, row: seq<string>, skip: set<string>, j: nat)
    requires j < |columns| && columns[j] !in skip && columns[j] !in columns[j + 1..]
    ensures var r := WithColumns(m, prefix, columns, row, skip);
      prefix + columns[j] in r && r[prefix + columns[j]] == Str(Cell(row, j))
  {
    var n := |columns| - 1;
    if j < n {
      assert columns[..n][j + 1..] == columns[j + 1..n];
      assert columns[n] in columns[j + 1..];
      assert (prefix + columns[n])[|prefix|..] == columns[n];
      WithColumnsCell(m, prefix, columns[..n], row, skip, j);
    }
  }

  /**
   * The documents of a table's rows: one per row whose content cell (column
   * `ci`) is not blank, built by `mk` from the row's index and cells, in row
   * order.
   */
  function RowDocuments(rows: seq<seq<string>>, ci: nat, mk: (nat, seq<string>) -> Document): (r: seq<Document>)
    ensures |r| <= |rows|
  {
    if rows == [] then []
    else
      var n := |rows| - 1;
      RowDocuments(rows[..n], ci, mk) + (if IsBlank(Cell(rows[n], ci)) then [] else [mk(n, rows[n])])
  }

  /** Every row document comes from a row whose content cell is not blank. */
  lemma {:induction false} RowDocumentsFrom(rows: seq<seq<string>>, ci: nat, mk: (nat, seq<string>) -> Document, d: Document)
    requires d in RowDocuments(rows, ci, mk)
    ensures exists i :: 0 <= i < |rows| && !IsBlank(Cell(rows[i], ci)) && d == mk(i, rows[i])
  {
    var n := |rows| - 1;
    if d !in RowDocuments(rows[..n], ci, mk) {
      assert d == mk(n, rows[n]);
    } else {
      RowDocumentsFrom(rows[..n], ci, mk, d);
      var i :| 0 <= i < n && !IsBlank(Cell(rows[..n][i], ci)) && d == mk(i, rows[..n][i]);
      assert rows[..n][i] == rows[i];
    }
  }

  /** Every row whose content cell is not blank has its document. */
  lemma {:induction false} RowDocumentsKeep(rows: seq<seq<string>>, ci: nat, mk: (nat, seq<string>) -> Document, i: nat)
    requires i < |rows| && !IsBlank(Cell(rows[i], ci))
    ensures mk(i, rows[i]) in RowDocuments(rows, ci, mk)
  {
    var n := |rows| - 1;
    if i < n {
      RowDocumentsKeep(rows[..n], ci, mk, i);
      assert rows[..n][i] == rows[i];
    }
  }

  /** The row loop shared by the CSV and Excel readers: blank content cells are skipped. */
  method ProcessRows(rows: seq<seq<string>>, ci: nat, mk: (nat, seq<string>) -> Document) returns (documents: seq<Document>)
    ensures documents == RowDocuments(rows, ci, mk)
  {
    documents := [];
    for index := 0 to |rows|
      invariant documents == RowDocuments(rows[..index], ci, mk)
    {
      assert rows[..index + 1][..index] == rows[..index];
      var content := Cell(rows[index], ci);
      if IsBlank(content) {
        continue;
      }
      documents := documents + [mk(index, rows[index])];
    }
    assert rows[..|rows|] == rows;
  }

  /**
   * The content column and column mapping the CSV reader settles on: without
   * a mapping (or with an empty one) the first column, provided there is one
   * and its name is not empty; with one, its "content" entry, which must name
   * a column. `None` where the reader gives up and returns no documents.
   */
  function CsvMapping(columns: seq<string>, mapping: Option<map<string, string>>): (r: Option<(string, map<string, string>)>)
    ensures r.Some? ==> r.value.0 in columns && "content" in r.value.1 && r.value.1["content"] == r.value.0
    ensures (mapping.None? || mapping.value == map[]) && columns != [] && columns[0] != [] ==>
      r == Some((columns[0], map["content" := columns[0]]))
    ensures (mapping.None? || mapping.value == map[]) && (columns == [] || columns[0] == []) ==> r.None?
    ensures mapping.Some? && mapping.value != map[] && ("content" !in mapping.value || mapping.value["content"] !in columns) ==> r.None?
  {
    var m :=
      if mapping.None? || mapping.value == map[] then
        (if columns == [] || columns[0] == [] then None else Some(map["content" := columns[0]]))
      else mapping;
    if m.None? || "content" !in m.value || m.value["content"] !in columns then None
    else Some((m.value["content"], m.value))
  }

  /** The metadata of CSV row `index`: the row number counts from 1; other columns go under "csv_". */
  function CsvRowMetadata(fileName: string, columns: seq<string>, row: seq<string>, index: nat, skip: set<string>,
                          now: string, caller: Option<Metadata>): Metadata
  {
    var built := map["source_file" := Str(fileName), "source_type" := Str("csv"),
                     "row_number" := Int(index + 1), "processed_at" := Str(now)];
    WithColumns(WithCaller(built, caller), "csv_", columns, row, skip)
  }

  /** The document of CSV row `index`, whose content is the cell of column `ci`. */
  function CsvRowDocument(fileName: string, columns: seq<string>, ci: nat, skip: set<string>, now: string,
                          caller: Option<Metadata>): (nat, seq<string>) -> Document
  {
    (index: nat, row: seq<string>) =>
      Document(DocumentId(fileName, NatToString(index)), Cell(row, ci), CsvRowMetadata(fileName, columns, row, index, skip, now, caller))
  }

  /** The documents of a CSV file. */
  function CsvDocuments(fileName: string, table: Table, mapping: Option<map<string, string>>, now: string,
                        caller: Option<Metadata>): (r: seq<Document>)
    ensures CsvMapping(table.columns, mapping).None? ==> r == []
    ensures |r| <= |table.rows|
  {
    match CsvMapping(table.columns, mapping)
    case None => []
    case Some((c, m)) =>
      var ci := IndexOf(table.columns, c).value;
      RowDocuments(table.rows, ci, CsvRowDocument(fileName, table.columns, ci, {c} + m.Values, now, caller))
  }

  /**
   * A CSV file read without a column mapping has documents only when its
   * first column has a name, and each one holds the non-blank first cell of
   * some row, under the id of that row's index.
   */
  lemma CsvDocumentsRows(fileName: string, table: Table, now: string, caller: Option<Metadata>, d: Document)
    requires d in CsvDocuments(fileName, table, None, now, caller)
    ensures table.columns != [] && table.columns[0] != []
    ensures exists i ::
      && 0 <= i < |table.rows|
      && d.content == Cell(table.rows[i], 0) && !IsBlank(d.content) && d.id == DocumentId(fileName, NatToString(i))
  {
    var c := table.columns[0];
    var f := CsvRowDocument(fileName, table.columns, 0, {c} + map["content" := c].Values, now, caller);
    RowDocumentsFrom(table.rows, 0, f, d);
  }

  /** The CSV reader. */
  method ProcessCsv(fileName: string, table: Table, mapping: Option<map<string, string>>, now: string, caller: Option<Metadata>)
    returns (documents: seq<Document>)
    ensures documents == CsvDocuments(fileName, table, mapping, now, caller)
  {
    var settled := CsvMapping(table.columns, mapping);
    if settled.None? {
      return [];
    }
    var (c, m) := settled.value;
    var ci := IndexOf(table.columns, c).value;
    documents := ProcessRows(table.rows, ci, CsvRowDocument(fileName, table.columns, ci, {c} + m.Values, now, caller));
  }

  /** The metadata of row `index` of an Excel sheet: other columns go under "excel_". */
  function SheetRowMetadata(fileName: string, sheet: Sheet, row: seq<string>, index: nat, now: string,
                            caller: Option<Metadata>): Metadata
    requires sheet.table.columns != []
  {
    var built := map["source_file" := Str(fileName), "source_type" := Str("excel"), "sheet_name" := Str(sheet.name),
                     "row_number" := Int(index + 1), "processed_at" := Str(now)];
    WithColumns(WithCaller(built, caller), "excel_", sheet.table.columns, row, {sheet.table.columns[0]})
  }

  /** The document of row `index` of a sheet, ided by the sheet name and the row index. */
  function SheetRowDocument(fileName: string, sheet: Sheet, now: string, caller: Option<Metadata>): (nat, seq<string>) -> Document
    requires sheet.table.columns != []
  {
    (index: nat, row: seq<string>) =>
      Document(DocumentId(fileName, sheet.name + "_" + NatToString(index)), Cell(row, 0),
               SheetRowMetadata(fileName, sheet, row, index, now, caller))
  }

  /** The documents of one sheet: none when it has no columns, else one per row with content in the first column. */
  function SheetDocuments(fileName: string, sheet: Sheet, now: string, caller: Option<Metadata>): seq<Document>
  {
    if sheet.table.columns == [] then []
    else RowDocuments(sheet.table.rows, 0, SheetRowDocument(fileName, sheet, now, caller))
  }

  /** The documents of each sheet. */
  function SheetLists(fileName: string, sheets: seq<Sheet>, now: string, caller: Option<Metadata>): (r: seq<seq<Document>>)
    ensures |r| == |sheets|
    ensures forall i :: 0 <= i < |r| ==> r[i] == SheetDocuments(fileName, sheets[i], now, caller)
  {
    seq(|sheets|, i requires 0 <= i < |sheets| => SheetDocuments(fileName, sheets[i], now, caller))
  }

  /** The documents of a workbook, sheet by sheet. */
  function ExcelDocuments(fileName: string, sheets: seq<Sheet>, now: string, caller: Option<Metadata>): (r: seq<Document>)
    ensures forall d :: d in r ==> exists i :: 0 <= i < |sheets| && d in SheetDocuments(fileName, sheets[i], now, caller)
  {
    var lists := SheetLists(fileName, sheets, now, caller);
    assert forall d :: d in Flatten(lists) ==> exists i :: 0 <= i < |sheets| && d in SheetDocuments(fileName, sheets[i], now, caller) by {
      forall d | d in Flatten(lists)
        ensures exists i :: 0 <= i < |sheets| && d in SheetDocuments(fileName, sheets[i], now, caller)
      {
        FlattenFrom(lists, d);
      }
    }
    Flatten(lists)
  }

  /** The Excel reader's loop over sheets. */
  method ProcessExcel(fileName: string, sheets: seq<Sheet>, now: string, caller: Option<Metadata>) returns (documents: seq<Document>)
    ensures documents == ExcelDocuments(fileName, sheets, now, caller)
  {
    ghost var lists := SheetLists(fileName, sheets, now, caller);
    documents := [];
    for i := 0 to |sheets|
      invariant documents == Flatten(lists[..i])
    {
      FlattenNext(lists, i);
      var sheet := sheets[i];
      if sheet.table.columns == [] {
        continue;
      }
      var rows := ProcessRows(sheet.table.rows, 0, SheetRowDocument(fileName, sheet, now, caller));
      documents := documents + rows;
    }
    assert lists[..|sheets|] == lists;
  }

  // ================================================================ dispatch

  /** The chunker's settings: chunk size, overlap and the section and paragraph splitters. */
  datatype ChunkSettings = ChunkSettings(size: nat, overlap: nat, patterns: Patterns)

  /** The documents of a chunked text. */
  function TextDocuments(fileName: string, sourceType: string, text: string, mode: string, settings: ChunkSettings,
                         now: string, caller: Option<Metadata>): seq<Document>
    requires 1 <= settings.size
  {
    ChunkDocuments(fileName, sourceType, ChunkText(text, mode, settings.patterns, settings.size, settings.overlap), now, caller)
  }

  /**
   * `process_file`: the reader is chosen by the lower-cased suffix; an
   * unsupported suffix, a reader that fails (`None`) or content of the wrong
   * kind gives no documents. CSV files are read without a column mapping.
   */
  function ProcessedDocuments(fileName: string, content: Option<Content>, mode: string, settings: ChunkSettings,
                              now: string, caller: Option<Metadata>): (docs: seq<Document>)
    requires 1 <= settings.size
    ensures Lower(FileSuffix(fileName)) !in SupportedExtensions ==> docs == []
    ensures content.None? ==> docs == []
  {
    var ext := Lower(FileSuffix(fileName));
    match content
    case None => []
    case Some(c) =>
      if ext == ".pdf" && c.Pages? then TextDocuments(fileName, "pdf", PdfText(c.pages), mode, settings, now, caller)
      else if ext == ".docx" && c.Paragraphs? then TextDocuments(fileName, "docx", DocxText(c.paragraphs), mode, settings, now, caller)
      else if ext == ".txt" && c.Plain? then TextDocuments(fileName, "txt", c.text, mode, settings, now, caller)
      else if ext == ".csv" && c.Tabular? then CsvDocuments(fileName, c.table, None, now, caller)
      else if (ext == ".xlsx" || ext == ".xls") && c.Workbook? then ExcelDocuments(fileName, c.sheets, now, caller)
      else []
  }

  /** Two document lists with the same ids and contents, position by position. */
  ghost predicate SameIds(d1: seq<Document>, d2: seq<Document>)
  {
    |d1| == |d2| && forall k :: 0 <= k < |d1| ==> d1[k].id == d2[k].id && d1[k].content == d2[k].content
  }

  /** Re-processing a file gives the same ids: they depend on its name and content only, not on the time or its folder. */
  lemma ReprocessSameIds(fileName: string, content: Option<Content>, mode: string, settings: ChunkSettings,
                         now1: string, now2: string, caller: Option<Metadata>)
    requires 1 <= settings.size
    ensures SameIds(ProcessedDocuments(fileName, content, mode, settings, now1, caller),
                    ProcessedDocuments(fileName, content, mode, settings, now2, caller))
  {
    var ext := Lower(FileSuffix(fileName));
    if content.Some? && (ext == ".csv" || ext == ".xlsx" || ext == ".xls") {
      var c := content.value;
      if ext == ".csv" && c.Tabular? {
        CsvIdsIgnoreTime(fileName, c.table, now1, now2, caller);
      } else if c.Workbook? {
        ExcelIdsIgnoreTime(fileName, c.sheets, now1, now2, caller);
      }
    }
  }

  /** Row documents built by two builders that agree on ids and contents agree on ids and contents. */
  lemma {:induction false} RowDocumentsAgree(rows: seq<seq<string>>, ci: nat, mk1: (nat, seq<string>) -> Document,
                                             mk2: (nat, seq<string>) -> Document)
    requires forall i, row :: mk1(i, row).id == mk2(i, row).id && mk1(i, row).content == mk2(i, row).content
    ensures SameIds(RowDocuments(rows, ci, mk1), RowDocuments(rows, ci, mk2))
  {
    if rows != [] {
      RowDocumentsAgree(rows[..|rows| - 1], ci, mk1, mk2);
    }
  }

  /** Flattening lists that agree position by position gives lists that agree. */
  lemma {:induction false} FlattenSameIds(l1: seq<seq<Document>>, l2: seq<seq<Document>>)
    requires |l1| == |l2| && forall i :: 0 <= i < |l1| ==> SameIds(l1[i], l2[i])
    ensures SameIds(Flatten(l1), Flatten(l2))
  {
    if l1 != [] {
      var n := |l1| - 1;
      FlattenSameIds(l1[..n], l2[..n]);
      var a1, a2 := Flatten(l1[..n]), Flatten(l2[..n]);
      assert SameIds(l1[n], l2[n]);
      forall k | 0 <= k < |a1| + |l1[n]|
        ensures (a1 + l1[n])[k].id == (a2 + l2[n])[k].id && (a1 + l1[n])[k].content == (a2 + l2[n])[k].content
      {
        if k >= |a1| {
          assert (a1 + l1[n])[k] == l1[n][k - |a1|];
          assert (a2 + l2[n])[k] == l2[n][k - |a1|];
        }
      }
    }
  }

  /** The CSV documents' ids and contents do not depend on the time of reading. */
  lemma CsvIdsIgnoreTime(fileName: string, table: Table, now1: string, now2: string, caller: Option<Metadata>)
    ensures SameIds(CsvDocuments(fileName, table, None, now1, caller), CsvDocuments(fileName, table, None, now2, caller))
  {
    if CsvMapping(table.columns, None).Some? {
      var c := table.columns[0];
      var skip := {c} + map["content" := c].Values;
      RowDocumentsAgree(table.rows, 0, CsvRowDocument(fileName, table.columns, 0, skip, now1, caller),
                        CsvRowDocument(fileName, table.columns, 0, skip, now2, caller));
    }
  }

  /** The Excel documents' ids and contents do not depend on the time of reading. */
  lemma ExcelIdsIgnoreTime(fileName: string, sheets: seq<Sheet>, now1: string, now2: string, caller: Option<Metadata>)
    ensures SameIds(ExcelDocuments(fileName, sheets, now1, caller), ExcelDocuments(fileName, sheets, now2, caller))
  {
    var l1 := SheetLists(fileName, sheets, now1, caller);
    var l2 := SheetLists(fileName, sheets, now2, caller);
    forall i | 0 <= i < |sheets| ensures SameIds(l1[i], l2[i]) {
      var s := sheets[i];
      if s.table.columns != [] {
        RowDocumentsAgree(s.table.rows, 0, SheetRowDocument(fileName, s, now1, caller), SheetRowDocument(fileName, s, now2, caller));
      }
    }
    FlattenSameIds(l1, l2);
  }

  /** `process_file`. */
  method ProcessFile(fileName: string, content: Option<Content>, mode: string, settings: ChunkSettings,
                     now: string, caller: Option<Metadata>) returns (documents: seq<Document>)
    requires 1 <= settings.size
    ensures documents == ProcessedDocuments(fileName, content, mode, settings, now, caller)
  {
    var ext := Lower(FileSuffix(fileName));
    if content.None? {
      return [];
    }
    var c := content.value;
    var text: string;
    var sourceType: string;
    if ext == ".pdf" && c.Pages? {
      text := ReadPdfText(c.pages);
      sourceType := "pdf";
    } else if ext == ".docx" && c.Paragraphs? {
      text := ReadDocxText(c.paragraphs);
      sourceType := "docx";
    } else if ext == ".txt" && c.Plain? {
      text := c.text;
      sourceType := "txt";
    } else if ext == ".csv" && c.Tabular? {
      documents := ProcessCsv(fileName, c.table, None, now, caller);
      return;
    } else if (ext == ".xlsx" || ext == ".xls") && c.Workbook? {
      documents := ProcessExcel(fileName, c.sheets, now, caller);
      return;
    } else {
      return [];
    }
    var chunks := ApplyChunkingStrategy(text, mode, settings.patterns, settings.size, settings.overlap);
    documents := BuildChunkDocuments(fileName, sourceType, chunks, now, caller);
  }

  // ================================================================ validation

  /** What the file system says about a path: whether it exists, and its size in bytes. */
  datatype FileInfo = FileInfo(name: string, present: bool, sizeBytes: nat)

  /** Why a file is refused. */
  datatype ValidationError = Missing | Unsupported(suffix: string) | TooLarge(sizeBytes: nat)

  /**
   * The result of `validate_file`: validity, the first failing check, the
   * size (0 until the size is read) and the lower-cased extension.
   */
  datatype Validation = Validation(valid: bool, error: Option<ValidationError>, sizeBytes: nat, extension: string)

  /** 100 MB, the largest file accepted. */
  const MaxBytes: nat := 100 * 1024 * 1024

  /**
   * `validate_file`: existence first, then the extension (case-insensitively),
   * then the size; the first failing check is reported.
   */
  function ValidateFile(f: FileInfo): (v: Validation)
    ensures v.valid <==> f.present && Lower(FileSuffix(f.name)) in SupportedExtensions && f.sizeBytes <= MaxBytes
    ensures v.valid <==> v.error.None?
    ensures !f.present ==> v.error == Some(Missing)
    ensures f.present && Lower(FileSuffix(f.name)) !in SupportedExtensions ==> v.error == Some(Unsupported(FileSuffix(f.name)))
    ensures f.present && Lower(FileSuffix(f.name)) in SupportedExtensions && f.sizeBytes > MaxBytes ==> v.error == Some(TooLarge(f.sizeBytes))
    ensures v.extension == Lower(FileSuffix(f.name))
  {
    var ext := Lower(FileSuffix(f.name));
    if !f.present then Validation(false, Some(Missing), 0, ext)
    else if ext !in SupportedExtensions then Validation(false, Some(Unsupported(FileSuffix(f.name))), 0, ext)
    else if f.sizeBytes > MaxBytes then Validation(false, Some(TooLarge(f.sizeBytes)), f.sizeBytes, ext)
    else Validation(true, None, f.sizeBytes, ext)
  }
}
