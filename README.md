# LocalRAG core in Dafny

LocalRAG is a desktop retrieval-augmented-generation application: documents
are read, cut into chunks and stored in encrypted per-topic vector databases,
and questions are answered by a local language model from the closest chunks.
This project models the application's core and proves properties of it:

- the document processor (`Chunker`, `Ingest`): it chooses a reader by file
  extension and assembles each file's text. Three chunkers cut the text: the
  general sliding window with sentence snapping and overlap, the legal-section
  accumulator and the page/paragraph splitter. The processor also builds chunk
  ids (MD5 of the file name and an index) and chunk metadata, turns CSV and
  Excel rows into documents, and checks a file before processing it;
- the database manager (`Store`, `Audit`): a state machine over the databases
  directory, the cache of loaded databases and the audit trail. It covers
  create, load, delete, add, list and query, and the `DatabaseManager` class
  is proved against that state machine;
- the retrieval pipeline (`Retrieval`): answering from one database or from
  several (merge, stable sort by distance, truncation), the confidence
  heuristics, the source previews and model loading;
- the prompt workshop (`Workshop`): templates and chains, listing and lookup,
  the default templates and running a chain step by step;
- the dialogs (`Dialogs`): the password and database-name validators, and the
  import dialog's file list and import;
- Python semantics the code relies on (`Text`, `Sorting`): `strip`, `rfind`,
  `split`/`join`, `lower`, `str(n)`, slicing with negative bounds,
  `split()[0]`, string order, and the stable `sort`.

Each loop of the source is a method with invariants, proved equal to a
function that specifies it. The properties are proved about those functions.
Examples:

- the general chunker loses no non-whitespace character;
- the legal chunker drops no non-whitespace character of any section;
- the windows tile the text;
- chunk ids within a file are distinct;
- every operation of the manager keeps its invariant;
- a created database loads and a deleted one does not;
- the keys of a query's result are the requested databases that load;
- the kept hits are the closest ones;
- a chain's results are numbered in step order, and only the last can be a
  failure;
- the import only ever processes files whose row was marked valid.

The model follows the code in these places, where the project's own
description of its behaviour says otherwise:

- `delete_database` logs DELETE_DATABASE after the folder is removed, not
  before.
- A query skips a database that fails to load. No empty result is recorded
  for it, and no QUERY_DATABASE row is written.
- `load_database` caches a handle whose metadata is None when `metadata.enc`
  cannot be decrypted. It reports no separate error.
- `add_documents` inserts the documents before it reads the cached metadata.
  When that metadata is None the call fails, but the documents stay in the
  collection and the stored `document_count` is not updated
  (`Store.AddWithoutMetadata`).
- `databases_dir / name` is the databases directory itself when the name is
  "" or ".". So `create_database("")` fails because the folder exists, and
  `delete_database("")` removes the whole directory, audit file included,
  then fails when it appends the audit row (`Store.DeleteDirectoryWipes`).
- In the general chunker, a window is shortened to its last break only when
  the break's index within the window exceeds `start + chunk_size // 2`,
  which is a position counted from the start of the text. So windows are
  shortened only while `start` is small. `Chunker.CutEnd` keeps this
  comparison as written.

## Model

| member | source | states |
|---|---|---|
| Text.Strip | LocalRAG_assets/app/components/document_processor.py:314 | `s.strip()` is the slice of `s` between its leading and trailing whitespace, trimmed, and empty exactly when `s` is blank |
| Text.StripTrimmed | LocalRAG_assets/app/components/document_processor.py:314 | stripping a trimmed string changes nothing, so a stripped chunk stays as it is |
| Text.RFind | LocalRAG_assets/app/components/document_processor.py:303-304 | `rfind` gives the last index holding the character, -1 exactly when it is absent |
| Text.FindFrom | LocalRAG_assets/app/components/document_processor.py:359 | `find` gives the first occurrence at or after the start, or -1 when there is none |
| Text.SplitOnPiecesFree | LocalRAG_assets/app/components/document_processor.py:359 | no piece of `text.split('--- Page ')` contains the separator |
| Text.SplitJoin | LocalRAG_assets/app/components/document_processor.py:359 | joining the pieces of a split with the separator gives the text back |
| Text.JoinHolds | LocalRAG_assets/app/components/rag_pipeline.py:148 | every part of a `sep.join(parts)` occurs in the joined text |
| Text.Lower | LocalRAG_assets/app/components/document_processor.py:33 | `lower()` keeps the length and lowers each character in place |
| Text.NatToStringInjective | LocalRAG_assets/app/components/document_processor.py:386 | distinct indices have distinct decimal spellings in the id source string |
| Text.PySlice | LocalRAG_assets/app/components/document_processor.py:298-311 | Python slicing agrees with Dafny slicing inside the bounds and never exceeds `j - i` characters |
| Text.FirstWord | LocalRAG_assets/app/ui/dialogs.py:387 | `split()[0]` is the first maximal run of non-whitespace, absent exactly when the string is blank (where Python raises) |
| Sorting.SortByCorrect | LocalRAG_assets/app/components/rag_pipeline.py:231 | the stable sort returns a permutation, in key order, that keeps equal keys in input order |
| Chunker.BestBreak | LocalRAG_assets/app/components/document_processor.py:302-306 | the larger of the two `rfind`s is the last '.' or '\n' of the window, or -1 |
| Chunker.CutEnd | LocalRAG_assets/app/components/document_processor.py:295-309 | the cut lies after `start` and at most `chunk_size` on; when shortened it falls just after a break beyond `2*start + size//2`; no break lies between it and the window's end |
| Chunker.CutEndIs | LocalRAG_assets/app/components/document_processor.py:302-309 | `CutEnd` is the end the loop body computes from the window's best break |
| Chunker.CutWindow | LocalRAG_assets/app/components/document_processor.py:295-309 | the loop body's end computation yields `CutEnd` |
| Chunker.Advance | LocalRAG_assets/app/components/document_processor.py:312 | corrected next start: `end - overlap` whenever that lies past `start`, else `end`; it always moves forward |
| Chunker.ValidWindowAdvances | LocalRAG_assets/app/components/document_processor.py:312 | for settings with `overlap < size` and `overlap <= size//2 + 1` the correction never applies: the next start is `end - overlap` |
| Chunker.Spans | LocalRAG_assets/app/components/document_processor.py:292-312 | the chunker's windows, the first at `start` |
| Chunker.SpansTile | LocalRAG_assets/app/components/document_processor.py:292-312 | the windows are non-empty, at most `chunk_size` long, start strictly later each time and no later than the previous end, and the last ends at the end of the text |
| Chunker.SpansStep | LocalRAG_assets/app/components/document_processor.py:308-312 | each non-final window ends at `CutEnd` and the next starts at `Advance` |
| Chunker.Slices | LocalRAG_assets/app/components/document_processor.py:311 | one slice per window, the window's text |
| Chunker.PieceIs | LocalRAG_assets/app/components/document_processor.py:298-311 | each raw chunk is its window's text and no longer than `chunk_size` |
| Chunker.Clean | LocalRAG_assets/app/components/document_processor.py:314 | the filtered chunks are non-empty and stripped |
| Chunker.CleanKeeps | LocalRAG_assets/app/components/document_processor.py:314 | every raw chunk that is not blank survives, stripped |
| Chunker.CleanWithin | LocalRAG_assets/app/components/document_processor.py:314 | stripping keeps the `chunk_size` bound |
| Chunker.GeneralChunks | LocalRAG_assets/app/components/document_processor.py:286-314 | a text no longer than `chunk_size` comes back whole and unstripped; every chunk is at most `chunk_size` long; chunks of a longer text are non-empty and stripped. The windows advance by the corrected `Chunker.Advance` (first row of "## Findings"), so once a window is cut short at a break the chunks can differ from line 312's, which needs `chunk_overlap > chunk_size // 2 + 1`, e.g. size 100, overlap 60 |
| Chunker.WindowHolds | LocalRAG_assets/app/components/document_processor.py:292-312 | every position of the text lies in some window |
| Chunker.GeneralChunksCover | LocalRAG_assets/app/components/document_processor.py:286-314 | every non-whitespace character of the text lies inside some chunk, at its own position |
| Chunker.WindowLast | LocalRAG_assets/app/components/document_processor.py:297-299 | the window reaching the end of the text is the last, and its chunk is the tail `text[start:]` |
| Chunker.WindowNext | LocalRAG_assets/app/components/document_processor.py:302-312 | a window not reaching the end is cut at `CutEnd` and followed by one at `Advance` |
| Chunker.ChunkGeneral | LocalRAG_assets/app/components/document_processor.py:286-314 | the chunker's loop computes `GeneralChunks` |
| Chunker.PassAsWritten | LocalRAG_assets/app/components/document_processor.py:295-312 | one pass exactly as written, on unbounded integers with Python slicing: a cut happens only when the window does not reach the end, and the next start is at most `start + size - overlap` |
| Chunker.AsWrittenNeverEnds | LocalRAG_assets/app/components/document_processor.py:294-312 | with `overlap >= chunk_size` and a text longer than `chunk_size`, `start` never rises above 0 and the loop never ends |
| Chunker.AsWrittenStalls | LocalRAG_assets/app/components/document_processor.py:294-312 | with size 10 and overlap 7, `start` on "aaaaaa.aaaaa" returns to 0 on every pass |
| Chunker.AsWrittenRepeats | LocalRAG_assets/app/components/document_processor.py:294-312 | with size 10 and overlap 8 on "aaaaaa.aaaaaaaaaaaaa" the source cuts `text[0:7]`, then starts at -1, cuts an empty chunk and restarts at 1; the corrected loop cuts `text[0:7]` and then `text[7:17]` |
| Chunker.NextFollowsCut | LocalRAG_assets/app/components/document_processor.py:294-312 | for valid settings the source's pass stops when the window reaches the end, and otherwise moves `start` by `Advance` from `CutEnd` |
| Chunker.PassCuts | LocalRAG_assets/app/components/document_processor.py:302-312 | a pass that does not reach the end cuts `text[start:e]` and continues at `e - overlap` |
| Chunker.AsWrittenFollowsSpans | LocalRAG_assets/app/components/document_processor.py:294-312 | for valid settings the source's loop visits exactly the starts of `Spans`, in order, and stops after the last |
| Chunker.KeepNonBlank | LocalRAG_assets/app/components/document_processor.py:353 | no kept chunk is blank |
| Chunker.KeepNonBlankKeeps | LocalRAG_assets/app/components/document_processor.py:353 | a chunk is kept iff it was there and is not blank |
| Chunker.LegalStep | LocalRAG_assets/app/components/document_processor.py:337-348 | a pass only appends chunks; a marker flushes the stripped accumulator as one chunk when it is non-empty and restarts it as marker + " "; a section that fits is appended to the accumulator; an overflowing accumulator is chunked by `GeneralChunks`: the chunks emitted, followed by the new accumulator, are the old chunks followed by those general chunks (no general chunk leaves the accumulator empty); otherwise the accumulator ends at most `2*chunk_size` long; emitted chunks stay stripped |
| Chunker.StripKeeps | LocalRAG_assets/app/components/document_processor.py:341 | stripping keeps every non-whitespace character |
| Chunker.GeneralChunksShow | LocalRAG_assets/app/components/document_processor.py:286-314 | every non-whitespace character of the text is in some general chunk |
| Chunker.LegalStepKeeps | LocalRAG_assets/app/components/document_processor.py:337-348 | a pass keeps every non-whitespace character already kept or in the section: it is in an emitted chunk or in the accumulator |
| Chunker.LegalFold | LocalRAG_assets/app/components/document_processor.py:333-348 | after the loop the accumulator is the last marker + " ", or at most `2*chunk_size` long |
| Chunker.LegalFoldKeeps | LocalRAG_assets/app/components/document_processor.py:333-348 | after the loop every non-whitespace character of every section is in an emitted chunk or in the accumulator |
| Chunker.LegalFoldTrimmed | LocalRAG_assets/app/components/document_processor.py:336-348 | every chunk the loop emits is stripped |
| Chunker.LegalFlush | LocalRAG_assets/app/components/document_processor.py:350-351 | the final accumulator, if non-empty, is appended after the loop's chunks |
| Chunker.LegalChunks | LocalRAG_assets/app/components/document_processor.py:316-353 | every legal chunk is non-empty and stripped |
| Chunker.LegalChunksCover | LocalRAG_assets/app/components/document_processor.py:316-353 | no non-whitespace character of any section is dropped: each one is in some legal chunk |
| Chunker.LegalPass | LocalRAG_assets/app/components/document_processor.py:337-348 | one pass of the loop computes `LegalStep` |
| Chunker.ChunkLegal | LocalRAG_assets/app/components/document_processor.py:316-353 | the legal chunker's loop computes `LegalChunks` |
| Chunker.ParagraphChunks | LocalRAG_assets/app/components/document_processor.py:370-380 | each chunk of a paragraph is non-empty, stripped and at most `chunk_size` long |
| Chunker.ParagraphLists | LocalRAG_assets/app/components/document_processor.py:368-380 | one chunk list per paragraph, in order |
| Chunker.PageChunks | LocalRAG_assets/app/components/document_processor.py:363-380 | a blank page gives no chunks; every chunk of a page is non-empty, stripped and at most `chunk_size` long |
| Chunker.PageLists | LocalRAG_assets/app/components/document_processor.py:359-380 | one chunk list per piece between page markers, in order |
| Chunker.LetterChunks | LocalRAG_assets/app/components/document_processor.py:355-382 | every letter chunk is non-empty, stripped and at most `chunk_size` long |
| Chunker.ChunkParagraphs | LocalRAG_assets/app/components/document_processor.py:368-380 | the inner loop collects the paragraphs' chunks in order |
| Chunker.ChunkLetter | LocalRAG_assets/app/components/document_processor.py:355-382 | the letter chunker's loops compute `LetterChunks` |
| Chunker.ChunkText | LocalRAG_assets/app/components/document_processor.py:276-284 | "statute" chunks are non-empty and stripped; "letter" chunks are also at most `chunk_size` long; any other mode gives general chunks, at most `chunk_size` long, the whole text when short |
| Chunker.ApplyChunkingStrategy | LocalRAG_assets/app/components/document_processor.py:276-284 | the dispatch computes `ChunkText` |
| Ingest.FileSuffix | LocalRAG_assets/app/components/document_processor.py:33 | `Path.suffix` is empty or a dot followed by at least one character and no further dot, ending the name |
| Ingest.DocumentId | LocalRAG_assets/app/components/document_processor.py:384-387 | the hashed string is the file name, an underscore and the suffix |
| Ingest.IndexIdsDistinct | LocalRAG_assets/app/components/document_processor.py:384-387 | ids built from one file name and two indices agree only when the indices do |
| Ingest.SheetRowIdsDistinct | LocalRAG_assets/app/components/document_processor.py:247 | distinct (sheet, row) pairs of one workbook get distinct ids |
| Ingest.WithCaller | LocalRAG_assets/app/components/document_processor.py:71-78 | `{**built, **(metadata or {})}` has both key sets, the caller's values win, and the other built values stay |
| Ingest.ChunkMetadataFields | LocalRAG_assets/app/components/document_processor.py:71-78 | chunk metadata holds every caller key, and records file name, source type, index and total unless the caller's metadata replaces them |
| Ingest.ChunkDocuments | LocalRAG_assets/app/components/document_processor.py:69-84 | one document per chunk, in order, with its content, the id of its index and its metadata |
| Ingest.ChunkDocumentIdsDistinct | LocalRAG_assets/app/components/document_processor.py:69-84 | the chunks of one file have pairwise distinct ids |
| Ingest.BuildChunkDocuments | LocalRAG_assets/app/components/document_processor.py:69-84 | the loop computes `ChunkDocuments` |
| Ingest.PdfTextPage | LocalRAG_assets/app/components/document_processor.py:61-63 | page `i` occurs in the PDF text right after header `i + 1`, where the text of the earlier pages ends |
| Ingest.PdfTextPrefix | LocalRAG_assets/app/components/document_processor.py:61-63 | the text of the first pages is a prefix of the whole text |
| Ingest.ReadPdfText | LocalRAG_assets/app/components/document_processor.py:59-63 | the page loop computes `PdfText` |
| Ingest.DocxTextLength | LocalRAG_assets/app/components/document_processor.py:99-102 | the Word text is as long as the paragraphs plus one line end each |
| Ingest.ReadDocxText | LocalRAG_assets/app/components/document_processor.py:99-102 | the paragraph loop computes `DocxText` |
| Ingest.IndexOf | LocalRAG_assets/app/components/document_processor.py:184 | a column is found iff it is among the columns, at a position holding it |
| Ingest.WithColumnsKeeps | LocalRAG_assets/app/components/document_processor.py:207-209 | copying columns keeps every key, adds only prefixed keys and leaves other keys' values alone |
| Ingest.WithColumnsCell | LocalRAG_assets/app/components/document_processor.py:259-261 | a copied column's cell is stored under prefix + column name |
| Ingest.RowDocumentsFrom | LocalRAG_assets/app/components/document_processor.py:189-193 | every row document comes from a row whose content cell is not blank |
| Ingest.RowDocumentsKeep | LocalRAG_assets/app/components/document_processor.py:189-193 | every row with a non-blank content cell has its document |
| Ingest.ProcessRows | LocalRAG_assets/app/components/document_processor.py:189-215 | the row loop computes `RowDocuments` |
| Ingest.CsvMapping | LocalRAG_assets/app/components/document_processor.py:176-186 | without a mapping the first column is used if it has a name; a given mapping's content column must exist; otherwise no documents |
| Ingest.CsvDocumentsRows | LocalRAG_assets/app/components/document_processor.py:172-215 | each CSV document holds the non-blank first cell of some row, under that row's id |
| Ingest.CsvDocuments | LocalRAG_assets/app/components/document_processor.py:168-222 | no documents when no content column is settled; at most one document per row |
| Ingest.ProcessCsv | LocalRAG_assets/app/components/document_processor.py:168-222 | the CSV reader computes `CsvDocuments` |
| Ingest.SheetLists | LocalRAG_assets/app/components/document_processor.py:232-267 | one document list per sheet, in sheet order |
| Ingest.ExcelDocuments | LocalRAG_assets/app/components/document_processor.py:224-274 | every workbook document is a document of one of its sheets |
| Ingest.ProcessExcel | LocalRAG_assets/app/components/document_processor.py:224-274 | the sheet loop computes `ExcelDocuments` |
| Ingest.ProcessedDocuments | LocalRAG_assets/app/components/document_processor.py:30-51 | an unsupported suffix or a reader that fails gives no documents |
| Ingest.ReprocessSameIds | LocalRAG_assets/app/components/document_processor.py:30-51 | processing a file again at another time gives the same ids and contents, position by position |
| Ingest.CsvIdsIgnoreTime | LocalRAG_assets/app/components/document_processor.py:195-215 | CSV ids and contents do not depend on the time of reading |
| Ingest.ExcelIdsIgnoreTime | LocalRAG_assets/app/components/document_processor.py:247-267 | Excel ids and contents do not depend on the time of reading |
| Ingest.ProcessFile | LocalRAG_assets/app/components/document_processor.py:30-51 | the dispatch computes `ProcessedDocuments` |
| Ingest.ValidateFile | LocalRAG_assets/app/components/document_processor.py:393-424 | valid iff present, supported case-insensitively and at most 100 MB; otherwise the first failing check is reported; the extension is the lower-cased suffix |
| Store.DeriveKey | LocalRAG_assets/app/utils/database_manager.py:45-55 | PBKDF2-SHA256 with the fixed salt, 100000 iterations and 32 bytes |
| Store.Encrypt | LocalRAG_assets/app/utils/database_manager.py:105-107 | a blob opens with the key that sealed it and with no other |
| Store.Decrypt | LocalRAG_assets/app/utils/database_manager.py:140-150 | a blob opens iff it was sealed with this key, and then gives the sealed metadata |
| Store.Initial | LocalRAG_assets/app/utils/database_manager.py:29-41 | the starting state keeps the directory, adds the audit file, caches nothing and satisfies the invariant |
| Store.NewMetadata | LocalRAG_assets/app/utils/database_manager.py:96-102 | a new database's metadata has exactly the five keys, a count of 0 and `encrypted` true |
| Store.Create | LocalRAG_assets/app/utils/database_manager.py:69-118 | a name that is one path component is created iff unused, with the folder, its metadata, a collection and a CREATE_DATABASE row; a name that resolves to the databases directory itself ("" or ".") already exists, so creation fails and nothing changes |
| Store.LoadMetadata | LocalRAG_assets/app/utils/database_manager.py:135-154 | the metadata is present exactly when the folder's file was sealed with this key, and then it is what was sealed |
| Store.Load | LocalRAG_assets/app/utils/database_manager.py:156-192 | a handle is returned iff the database loads; a cached name returns its handle unchanged; a new load caches the decrypted metadata and logs LOAD_DATABASE |
| Store.Delete | LocalRAG_assets/app/utils/database_manager.py:194-212 | the cache entry is always evicted; a component name is deleted and logged unless it is a plain file; a name that resolves to the databases directory wipes every entry and the audit file, writes no row and fails |
| Store.Add | LocalRAG_assets/app/utils/database_manager.py:214-246 | adding only ever appends to the audit rows |
| Store.Listed | LocalRAG_assets/app/utils/database_manager.py:124-131 | an entry is listed iff its metadata decrypts to a non-empty dictionary, which is what is listed |
| Store.List | LocalRAG_assets/app/utils/database_manager.py:120-133 | at most one metadata per directory entry |
| Store.FormatHits | LocalRAG_assets/app/utils/database_manager.py:281-290 | formatting fails iff a metadata or distance list is too short; otherwise one hit per document, with its metadata (or {}), its distance (or None) and the database's name |
| Store.Put | LocalRAG_assets/app/utils/database_manager.py:292 | `results[k] = v` keeps the key order, appends a new key and replaces only `k`'s value |
| Store.Outcome | LocalRAG_assets/app/utils/database_manager.py:281-298 | every hit of a database's outcome is tagged with that database |
| Store.QueryStep | LocalRAG_assets/app/utils/database_manager.py:266-298 | one pass keeps the keys distinct, the directory unchanged and the log append-only |
| Store.Query | LocalRAG_assets/app/utils/database_manager.py:262-300 | the query keeps the keys distinct, the directory unchanged and the log append-only |
| Store.CreateValid | LocalRAG_assets/app/utils/database_manager.py:69-118 | creation, of a single entry or of a name for the directory itself, keeps the manager's invariant |
| Store.LoadValid | LocalRAG_assets/app/utils/database_manager.py:156-192 | loading keeps the invariant: cached metadata agrees with the file |
| Store.DeleteValid | LocalRAG_assets/app/utils/database_manager.py:194-212 | deleting a single entry keeps the invariant |
| Store.ComponentOrDirectory | LocalRAG_assets/app/utils/database_manager.py:72 | no name is both a single entry of the databases directory and the directory itself |
| Store.DeleteDirectoryWipes | LocalRAG_assets/app/utils/database_manager.py:202-212 | deleting a name that resolves to the databases directory removes every database, writes no row, fails, and breaks the invariant |
| Store.AddValid | LocalRAG_assets/app/utils/database_manager.py:214-260 | adding keeps the invariant: the rewritten file agrees with the cache |
| Store.QueryValid | LocalRAG_assets/app/utils/database_manager.py:262-300 | a query keeps the invariant |
| Store.CreateThenLoad | LocalRAG_assets/app/utils/database_manager.py:69-192 | a created database loads with its fresh metadata, after a CREATE_DATABASE and a LOAD_DATABASE row |
| Store.LoadTwice | LocalRAG_assets/app/utils/database_manager.py:159-160 | a second load returns the same handle and changes nothing |
| Store.DeleteThenLoad | LocalRAG_assets/app/utils/database_manager.py:194-212 | after a successful delete the database no longer loads |
| Store.AddCounts | LocalRAG_assets/app/utils/database_manager.py:214-260 | after a successful add the collection holds the old documents and then the new ones; the cached and stored counts equal the collection's size; ADD_DOCUMENTS logs how many were given |
| Store.AddUnloadable | LocalRAG_assets/app/utils/database_manager.py:217-219 | adding to a database that does not load fails and changes nothing |
| Store.AddWithoutMetadata | LocalRAG_assets/app/utils/database_manager.py:229-246 | when the cached metadata is None the documents are inserted and stay, yet the call fails, the file is not rewritten and nothing is logged after the load |
| Store.ListMembers | LocalRAG_assets/app/utils/database_manager.py:120-133 | a metadata is listed iff some entry of the listing decrypts to it and it is non-empty |
| Store.ListComplete | LocalRAG_assets/app/utils/database_manager.py:124-131 | when the listing enumerates the directory, a metadata is listed iff some entry decrypts to it and it is non-empty |
| Store.ListOncePerDatabase | LocalRAG_assets/app/utils/database_manager.py:124-131 | when the listing enumerates the directory, one metadata is listed per entry that lists |
| Store.CreateThenList | LocalRAG_assets/app/utils/database_manager.py:69-133 | a database created under an unused single-entry name is listed with its fresh metadata when the listing enumerates the directory |
| Store.RequestedMembers | LocalRAG_assets/app/utils/database_manager.py:266-270 | a name is among the requested-and-loadable names iff it was requested and loads |
| Store.QueryKeepsLoadable | LocalRAG_assets/app/utils/database_manager.py:266-270 | querying never changes which databases load |
| Store.QueryKeys | LocalRAG_assets/app/utils/database_manager.py:262-300 | the result's keys are the requested names that load, each once, in request order |
| Store.QueryValues | LocalRAG_assets/app/utils/database_manager.py:272-298 | each key holds its database's formatted hits, or [] when its query raised |
| Store.QueryLogsAnswers | LocalRAG_assets/app/utils/database_manager.py:294 | one QUERY_DATABASE row per requested database that loaded and answered, in request order |
| Store.DatabaseManager.AuditFile | LocalRAG_assets/app/utils/database_manager.py:57-67 | the audit file is the earlier lines followed by one line per logged row, each written by the corrected `Audit.AuditLine` (quotes doubled) rather than as line 67 writes it; for a row whose fields hold no `"` the line is the one line 67 writes (`Audit.AsWrittenLine`) |
| Store.DatabaseManager.constructor | LocalRAG_assets/app/utils/database_manager.py:29-43 | the manager starts in `Initial`, writes the header when the audit file is absent and derives its key from the password |
| Store.DatabaseManager.LogAudit | LocalRAG_assets/app/utils/database_manager.py:63-67 | appends exactly one row and changes nothing else |
| Store.DatabaseManager.CreateDatabase | LocalRAG_assets/app/utils/database_manager.py:69-118 | the new state and result are `Create`'s, so "" and "." fail as the existing directory, and the invariant holds |
| Store.DatabaseManager.LoadDatabase | LocalRAG_assets/app/utils/database_manager.py:156-192 | the new state and result are `Load`'s, and the invariant holds |
| Store.DatabaseManager.DeleteDatabase | LocalRAG_assets/app/utils/database_manager.py:194-212 | the new state and result are `Delete`'s, so "" and "." wipe the directory and fail; after deleting a single entry the invariant holds |
| Store.DatabaseManager.UpdateMetadata | LocalRAG_assets/app/utils/database_manager.py:248-260 | rewrites only the folder's metadata file, sealed with the session key; without a folder nothing changes |
| Store.DatabaseManager.AddDocuments | LocalRAG_assets/app/utils/database_manager.py:214-246 | the new state and result are `Add`'s, and the invariant holds |
| Store.DatabaseManager.ListDatabases | LocalRAG_assets/app/utils/database_manager.py:120-133 | the loop computes `List` over the directory's entries, and a metadata is returned iff some database decrypts to it and it is non-empty |
| Store.DatabaseManager.QueryDatabases | LocalRAG_assets/app/utils/database_manager.py:262-300 | the new state and results are `Query`'s, and the invariant holds |
| Audit.Fields | LocalRAG_assets/app/utils/database_manager.py:67 | five fields, the action's name second and `local_user` fourth |
| Audit.ParseRender | LocalRAG_assets/app/utils/database_manager.py:67 | an RFC 4180 reader gets back exactly the fields of a correctly quoted line |
| Audit.AuditLineRoundTrip | LocalRAG_assets/app/utils/database_manager.py:63-67 | the corrected audit line reads back as the record's five fields |
| Audit.AuditLine | LocalRAG_assets/app/utils/database_manager.py:67 | the corrected line starts with a quote and ends with the line break |
| Audit.AsWrittenLine | LocalRAG_assets/app/utils/database_manager.py:67 | the line as written starts with a quote and ends with the line break |
| Audit.AsWrittenAgrees | LocalRAG_assets/app/utils/database_manager.py:67 | for records without quotes, the line as written is the corrected line |
| Audit.AsWrittenSplitsField | LocalRAG_assets/app/utils/database_manager.py:294 | a query text containing `","` makes the QUERY_DATABASE line as written read back as six fields |
| Retrieval.GeneratorFor | LocalRAG_assets/app/components/rag_pipeline.py:71-85 | the generator uses the model's file and its context length, 4096 by default |
| Retrieval.Preview | LocalRAG_assets/app/components/rag_pipeline.py:172 | content up to 200 characters is shown whole; longer content shows its first 200 characters and "..." |
| Retrieval.SourcesOf | LocalRAG_assets/app/components/rag_pipeline.py:168-175 | one source per hit, in order, with its database, its preview and its metadata |
| Retrieval.SingleConfidence | LocalRAG_assets/app/components/rag_pipeline.py:165 | in hundredths: 20 per document, reaching 100 exactly at five documents |
| Retrieval.SingleConfidenceMonotone | LocalRAG_assets/app/components/rag_pipeline.py:165 | more documents never lower the confidence |
| Retrieval.MultiConfidence | LocalRAG_assets/app/components/rag_pipeline.py:266 | at most 100 hundredths, and 0 exactly when there are no hits and no databases |
| Retrieval.MultiConfidenceMonotone | LocalRAG_assets/app/components/rag_pipeline.py:266 | more hits or more databases never lower the confidence |
| Retrieval.FirstReply | LocalRAG_assets/app/components/rag_pipeline.py:181 | the first reply, or "No response generated." when there is none |
| Retrieval.ErrorReply | LocalRAG_assets/app/components/rag_pipeline.py:188-195 | the `except` reply has no sources, confidence 0 and the error prefix |
| Retrieval.Merge | LocalRAG_assets/app/components/rag_pipeline.py:214-216 | the merged list holds as many hits as the results together |
| Retrieval.MergeMembers | LocalRAG_assets/app/components/rag_pipeline.py:214-216 | a hit is merged iff it belongs to some database's results |
| Retrieval.Top | LocalRAG_assets/app/components/rag_pipeline.py:231-235 | at most `max_chunks` hits (a Python slice bound), all of them when there are no more |
| Retrieval.TopRanks | LocalRAG_assets/app/components/rag_pipeline.py:231-235 | the kept hits are drawn from the hits, sorted by distance, a prefix of the stable ranking, and no dropped hit is closer than a kept one |
| Retrieval.Lookup | LocalRAG_assets/app/components/rag_pipeline.py:127 | `get` finds a name iff it is a key, with that key's hits |
| Retrieval.SingleReply | LocalRAG_assets/app/components/rag_pipeline.py:114-195 | confidence at most 100; a success names the current model; a failure has no sources, confidence 0 and the error prefix; the no-documents reply and the contents of a success are stated by `SingleNoDocuments` and `SingleAnswered` |
| Retrieval.MultiReply | LocalRAG_assets/app/components/rag_pipeline.py:197-297 | as `SingleReply`, and the reply always lists the requested databases; the no-hits reply and the contents of a success are stated by `MultiNoHits` and `MultiAnswered` |
| Retrieval.SingleContextHolds | LocalRAG_assets/app/components/rag_pipeline.py:148 | every hit's text occurs in the one-database context |
| Retrieval.MultiContextHolds | LocalRAG_assets/app/components/rag_pipeline.py:244-249 | every hit occurs in the several-database context as "Source: " + its database + a line break + its text |
| Retrieval.SingleNoDocuments | LocalRAG_assets/app/components/rag_pipeline.py:127-133 | a missing or empty result for the database gives the fixed answer with no sources and confidence 0, whatever the formatter and generator do |
| Retrieval.SingleAnswered | LocalRAG_assets/app/components/rag_pipeline.py:127-186 | with hits, the reply succeeds iff a model and generator are loaded and formatting and generation succeed; then its sources are the hits' sources, its confidence `SingleConfidence` of their number and its answer the first reply |
| Retrieval.MultiNoHits | LocalRAG_assets/app/components/rag_pipeline.py:218-225 | no merged hit gives the fixed answer with no sources, confidence 0 and the requested names, whatever the formatter and generator do |
| Retrieval.MultiAnswered | LocalRAG_assets/app/components/rag_pipeline.py:218-287 | with hits, the reply succeeds iff the hits sort, a model and generator are loaded and formatting and generation succeed; then its sources are those of the top hits of the merge and its confidence `MultiConfidence` of their number and the names |
| Retrieval.MergedFromRequested | LocalRAG_assets/app/components/rag_pipeline.py:204-216 | every merged hit was found in a requested database that loads, among its formatted hits |
| Retrieval.MultiSourcesFromRequested | LocalRAG_assets/app/components/rag_pipeline.py:204-276 | a several-database reply has at most `max_chunks` sources, each from a requested database that loads |
| Retrieval.SingleSourcesFromDatabase | LocalRAG_assets/app/components/rag_pipeline.py:121-175 | a one-database reply with sources shows all that database's hits, with the matching confidence, and the database loads |
| Retrieval.FindModel | LocalRAG_assets/app/components/rag_pipeline.py:61-65 | the first configured model of that name, None iff there is none |
| Retrieval.RagPipeline.constructor | LocalRAG_assets/app/components/rag_pipeline.py:23-40 | no model, no generator and no manager yet |
| Retrieval.RagPipeline.SetMasterPassword | LocalRAG_assets/app/components/rag_pipeline.py:52-55 | a fresh manager over the directory, keyed by the password, and the model is left alone |
| Retrieval.RagPipeline.LoadModel | LocalRAG_assets/app/components/rag_pipeline.py:57-93 | succeeds iff the model is configured and its file is present, then becomes current; otherwise nothing changes |
| Retrieval.RagPipeline.BuildSources | LocalRAG_assets/app/components/rag_pipeline.py:168-175 | the sources loop computes `SourcesOf` |
| Retrieval.RagPipeline.CollectHits | LocalRAG_assets/app/components/rag_pipeline.py:214-216 | the collecting loop computes `Merge` |
| Retrieval.RagPipeline.AnswerSingle | LocalRAG_assets/app/components/rag_pipeline.py:127-186 | the reply is `SingleReply` of the manager's results |
| Retrieval.RagPipeline.QuerySingleDatabase | LocalRAG_assets/app/components/rag_pipeline.py:114-195 | the manager moves as `Query` on the one name and the reply is `SingleReply` |
| Retrieval.RagPipeline.AnswerMulti | LocalRAG_assets/app/components/rag_pipeline.py:218-287 | the reply is `MultiReply` of any results that merge into these hits |
| Retrieval.RagPipeline.QueryMultipleDatabases | LocalRAG_assets/app/components/rag_pipeline.py:197-297 | the manager moves as `Query` on the names and the reply is `MultiReply` |
| Workshop.StepKey | LocalRAG_assets/app/components/prompt_workshop.py:241 | a step variable never clashes with `previous_answer` |
| Workshop.StepKeyInjective | LocalRAG_assets/app/components/prompt_workshop.py:241 | distinct steps have distinct variables |
| Workshop.Render | LocalRAG_assets/app/components/prompt_workshop.py:31-38 | rendering gives Jinja's text, or the error prefix followed by the exception's message |
| Workshop.FindById | LocalRAG_assets/app/components/prompt_workshop.py:190-196 | a template or chain is found iff some element has the id, and the one found has it |
| Workshop.FindByIdUnique | LocalRAG_assets/app/components/prompt_workshop.py:190-196 | with distinct ids, each element is found by its own id |
| Workshop.FindTemplateUnique | LocalRAG_assets/app/components/prompt_workshop.py:190-192 | with distinct ids, each template is found by its own id |
| Workshop.SelectedMembers | LocalRAG_assets/app/components/prompt_workshop.py:181-183 | the filter keeps a template iff it has the category, or no category is given |
| Workshop.ListTemplates | LocalRAG_assets/app/components/prompt_workshop.py:179-184 | the listed templates are a permutation of the filtered ones, sorted by name, keeping templates of equal name in their stored order, and holding exactly the templates of the category |
| Workshop.ListChains | LocalRAG_assets/app/components/prompt_workshop.py:186-188 | the listed chains are a permutation of all chains, sorted by name, keeping chains of equal name in their stored order |
| Workshop.ExecuteChainSpec | LocalRAG_assets/app/components/prompt_workshop.py:198-206 | "chain not found" iff the id is unknown; "not ready" iff the chain exists but no model is loaded |
| Workshop.RunFrom | LocalRAG_assets/app/components/prompt_workshop.py:208-258 | running the steps from `i` on yields at most one result per remaining step |
| Workshop.RunShape | LocalRAG_assets/app/components/prompt_workshop.py:208-258 | results are numbered in step order, no more than the steps; only the last can be a failure; each names its step and an existing template |
| Workshop.RunComplete | LocalRAG_assets/app/components/prompt_workshop.py:211-237 | without a failure every step whose template exists has a result |
| Workshop.RunAnswered | LocalRAG_assets/app/components/prompt_workshop.py:222-241 | an answered step is recorded first and the run goes on with its answer bound to `previous_answer` and its step variable |
| Workshop.RunKeepsVariables | LocalRAG_assets/app/components/prompt_workshop.py:209-241 | the caller's other variables stay as given |
| Workshop.FirstPrompt | LocalRAG_assets/app/components/prompt_workshop.py:209-222 | the first answered step is rendered with the caller's variables |
| Workshop.PromptSeesPrevious | LocalRAG_assets/app/components/prompt_workshop.py:222-241 | each later answered step is rendered with `previous_answer` and the previous step's variable bound to the previous answer |
| Workshop.DefaultTemplates | LocalRAG_assets/app/components/prompt_workshop.py:69-163 | five templates with the given ids and creation time |
| Workshop.DefaultChain | LocalRAG_assets/app/components/prompt_workshop.py:166-175 | three steps running the third, fourth and fifth templates |
| Workshop.DefaultChainResolves | LocalRAG_assets/app/components/prompt_workshop.py:166-175 | each default step finds its "Chain" template of the same name among the defaults |
| Workshop.PromptWorkshop.constructor | LocalRAG_assets/app/components/prompt_workshop.py:54-65 | a fresh workshop holds exactly the defaults, with distinct ids |
| Workshop.PromptWorkshop.LoadDefaultTemplates | LocalRAG_assets/app/components/prompt_workshop.py:67-177 | the defaults are installed only when there are no templates; otherwise nothing changes; ids stay distinct |
| Workshop.PromptWorkshop.ExecuteChain | LocalRAG_assets/app/components/prompt_workshop.py:198-258 | the outcome is `ExecuteChainSpec` of the workshop's templates and chains |
| Dialogs.Login | LocalRAG_assets/app/ui/dialogs.py:108-121 | refused as empty iff blank; accepted iff at least 8 characters after stripping, keeping the stripped text |
| Dialogs.LoginStable | LocalRAG_assets/app/ui/dialogs.py:108-125 | the kept password is accepted again as it stands |
| Dialogs.CheckDatabaseName | LocalRAG_assets/app/ui/dialogs.py:189-207 | refused as empty iff blank; accepted iff at least 3 characters after stripping and free of `<>:"/\|?*` |
| Dialogs.DatabaseInfo | LocalRAG_assets/app/ui/dialogs.py:209-211 | the stripped name and description |
| Dialogs.AcceptedNameIsComponent | LocalRAG_assets/app/ui/dialogs.py:189-211 | an accepted name is one path component: stripped, not "." or "..", with no separator or colon, so `Store.IsComponent` holds of it |
| Dialogs.LabelWord | LocalRAG_assets/app/ui/dialogs.py:387 | absent (Python raises) exactly when the lower-cased caption is blank |
| Dialogs.LabelWords | LocalRAG_assets/app/ui/dialogs.py:273 | the captions' words are "general", "statute" and "letter/report" |
| Dialogs.BeforeSlash | LocalRAG_assets/app/ui/dialogs.py:387 | the longest slash-free prefix of the word |
| Dialogs.LabelModes | LocalRAG_assets/app/ui/dialogs.py:273 | the corrected modes of the three captions are "general", "statute" and "letter" |
| Dialogs.ModeAsWritten | LocalRAG_assets/app/ui/dialogs.py:387 | for a caption whose first word has no slash ("General", "Statute (Legal)") the corrected mode is the word the source passes, so the import agrees with the source's |
| Dialogs.ChunkingMode | LocalRAG_assets/app/ui/dialogs.py:387 | the mode is the caption's lower-cased first word up to its first slash: a prefix of the word with no slash, followed in the word by a slash when shorter |
| Dialogs.AsWrittenLetterReportIsGeneral | LocalRAG_assets/app/ui/dialogs.py:387 | the "Letter/Report" caption gives "letter/report", which chunks " " into one blank chunk that the letter chunker never produces |
| Dialogs.BaseName | LocalRAG_assets/app/ui/dialogs.py:346 | `Path(p).name` is a suffix of the path |
| Dialogs.ItemFor | LocalRAG_assets/app/ui/dialogs.py:343-354 | a row is marked valid iff the file exists, has a supported extension and is at most 100 MB |
| Dialogs.Added | LocalRAG_assets/app/ui/dialogs.py:339-341 | the earlier selection is kept as a prefix |
| Dialogs.AddedMembers | LocalRAG_assets/app/ui/dialogs.py:339-341 | a path is selected afterwards iff it was selected or added |
| Dialogs.AddedDistinct | LocalRAG_assets/app/ui/dialogs.py:339-341 | no path is ever selected twice |
| Dialogs.AddedIdempotent | LocalRAG_assets/app/ui/dialogs.py:339-341 | adding already-selected paths changes nothing |
| Dialogs.ValidPaths | LocalRAG_assets/app/ui/dialogs.py:370-375 | no more valid paths than rows |
| Dialogs.ValidPathsMembers | LocalRAG_assets/app/ui/dialogs.py:370-375 | a path is collected iff some row marked valid shows it |
| Dialogs.Processor | LocalRAG_assets/app/ui/dialogs.py:394-398 | each path is processed under its base name with the import-time metadata |
| Dialogs.ProcessAll | LocalRAG_assets/app/ui/dialogs.py:391-401 | every document produced for one of the paths is in the collected list |
| Dialogs.Import | LocalRAG_assets/app/ui/dialogs.py:363-418 | "no files" iff nothing is selected; "no valid files" iff something is selected but no row is valid; otherwise the valid paths are processed in order and the import succeeds iff that gives at least one document, reporting their number and the number of valid paths, else "nothing processed" with that number of paths. The mode is the corrected `ChunkingMode` (Findings row 3), so "Letter/Report" is chunked as letters where line 387 gives general chunking |
| Dialogs.ImportOnlyValid | LocalRAG_assets/app/ui/dialogs.py:370-401 | every imported chunk comes from the path of a row marked valid |
| Dialogs.ImportNeedsValidRow | LocalRAG_assets/app/ui/dialogs.py:377-379 | with no row marked valid the dialog warns, whatever the files hold |
| Dialogs.AddRows | LocalRAG_assets/app/ui/dialogs.py:339-356 | the loop gives `Added` and keeps the old rows; each new row is the new path's row, one per path |
| Dialogs.CollectValid | LocalRAG_assets/app/ui/dialogs.py:370-375 | the loop computes `ValidPaths` |
| Dialogs.ProcessPaths | LocalRAG_assets/app/ui/dialogs.py:391-401 | the loop collects every valid path's documents in order |
| Dialogs.DocumentImportDialog.constructor | LocalRAG_assets/app/ui/dialogs.py:216-226 | empty selection and list |
| Dialogs.DocumentImportDialog.AddFiles | LocalRAG_assets/app/ui/dialogs.py:337-356 | selection becomes `Added`; old rows stay; each new row carries its path's validation; the list follows the selection one to one |
| Dialogs.DocumentImportDialog.ClearFiles | LocalRAG_assets/app/ui/dialogs.py:358-361 | selection and list are emptied |
| Dialogs.DocumentImportDialog.ImportDocuments | LocalRAG_assets/app/ui/dialogs.py:363-421 | the outcome is `Import` of the dialog's selection and rows, so it too processes in the corrected mode: "Letter/Report" gives letter chunks where line 387 gives general chunks |

## Left out

- File readers (pypdf, python-docx, pandas): what they extract is an input (`Content`), and a reader that raises is `None`. NaN cells and `str()` of non-string cells are not modelled: cells are strings.
- Regular expressions: the legal section split, the marker test and the numbered-paragraph split are parameters (`Patterns`). The split on "--- Page " is concrete.
- Encryption and key derivation are symbolic (`Blob`, `Key`): Fernet, PBKDF2 and JSON encoding are not modelled, and neither are MD5 collisions (`Digest`).
- ChromaDB: a collection is the sequence of documents added to it; embedding, id collisions and nearest-neighbour search are not modelled. The answer of `collection.query` is an input, so `n_results` has no effect in the model.
- Time: each call takes one timestamp `now`, so every row and chunk of one call carries the same time. Template and chain ids (`uuid4`) and step timestamps are parameters.
- Retrieval.SingleConfidence: floating point is kept as integer hundredths; `min(n * 0.2, 1.0)` is computed exactly, so `3 * 0.2` is 60 hundredths where Python gives 0.6000000000000001.
- Retrieval.MultiConfidence: floating point is kept as integer hundredths; `0.15 * n + 0.1 * d` is computed exactly, without binary rounding.
- Retrieval.TopRanks: distances are reals; a hit without a distance makes the sort raise (`Comparable`), and NaN is not modelled.
- Retrieval.ErrorReply: the text of the exception (`str(e)`) after the error prefix is not modelled; `failure` says which step raised.
- The multi-database sort is in place in the source; the model sorts values (`Sorting.SortBy`).
- The language model, prompt formatting and Jinja rendering are parameters (`format`, `generate`, `jinja`, `run`). The embedding model set up in the pipeline's constructor is not modelled.
- `get_available_models`, the model download dialog and worker, `select_files`/`select_folder`, progress callbacks and bars, message boxes and display text are UI or network work and are not modelled.
- The file-list item text of `add_files` (name and size in MB) is display only; a row keeps the path and the validation.
- The import dialog's chunk size and overlap spin boxes are not read by `import_documents`; the chunker settings are a parameter (`ChunkSettings`).
- Text.Lower: only ASCII letters are lowered; other Unicode case mappings are not modelled.
- Dialogs.BaseName: only '/' separates path components; Windows separators are not modelled.
- `get_supported_extensions` is the constant `Ingest.SupportedExtensions`.
- Dialogs.Import: the documents are processed in the corrected mode `Dialogs.ChunkingMode`, not the word line 387 passes; for the "Letter/Report" caption the model chunks the text as letters (page and paragraph chunks), where the source chunks it as general text, so the reported chunk count can differ. The two modes agree for the other captions (`Dialogs.ModeAsWritten`), and the source's choice is shown by `Dialogs.AsWrittenLetterReportIsGeneral`.
- Dialogs.DocumentImportDialog.ImportDocuments: the same corrected mode as `Dialogs.Import`.
- Store.DatabaseManager.AuditFile: the audit file is written with the corrected `Audit.AuditLine` (second row of "## Findings"), which doubles an embedded quote, so for any row whose timestamp, database name or details (a query text, a description) holds `"` the model's line differs from the one line 67 writes; for rows without quotes the two agree, as its contract states.
- Dialogs.Import: the `try` around processing is not modelled, because `process_file` catches every reader error itself.
- Loading saved templates and chains from `templates.json` and `chains.json` is not part of the source's workshop, so it is not modelled.
- CreateDatabase: a name is either one path component or one that resolves to the databases directory itself ("", ".", "./."); a name with several components, "..", or a leading '/' is outside the model (`Store.Resolves` is required), because it reaches another folder of the file system. The database-name dialog only accepts single components (`Dialogs.AcceptedNameIsComponent`). `Store.Create` carries the same requirement.
- DeleteDatabase: the same names are outside the model. For a name that resolves to the directory itself the wipe and the failed return are modelled (`Store.DeleteDirectoryWipes`), but the state afterwards breaks the manager's invariant and the later operations are not described on it. `Store.Delete` carries the same requirement.
- Store.Create: requires `Resolves(name)`, for the reason given on the CreateDatabase line.
- Store.Delete: requires `Resolves(name)`, for the reason given on the DeleteDatabase line.
- Store.Load: for a name that resolves to the directory itself the source opens a ChromaDB client on the databases directory, which may write its own files there; the model reports that nothing loads and records no such files.
- Chunker.LegalChunksCover: the legal chunker's cover is stated per character, not per position: a marker gains a trailing space and re-chunked accumulators are not slices of the text, so the chunks do not carry positions.
- logger.py and main_window.py are not part of this model, except the settings ranges that the first finding cites.

## Findings

| source | as written | input that shows it | evidently intended | confidence | as-written member | corrected member |
|---|---|---|---|---|---|---|
| LocalRAG_assets/app/components/document_processor.py:312 | the next window starts at `end - chunk_overlap` with no check that it lies past `start` | chunk size 100 and overlap 500, which the settings spin boxes accept (LocalRAG_assets/app/ui/main_window.py:539-545), on any text longer than 100 characters; or size 10, overlap 7 on "aaaaaa.aaaaa", where the window snaps after its '.' and `start` returns to 0. The correction also changes runs the source does finish: size 10, overlap 8 on "aaaaaa.aaaaaaaaaaaaa" gives `text[0:7]`, then an empty chunk, then starts again at 1, inside the first chunk, where the corrected loop continues with `text[7:17]`; likewise size 100, overlap 60 (allowed by the spin boxes) on a 300-character text whose only '.' is at index 55 gives `text[0:56]`, `text[-4:96]` (empty, dropped) and then `text[36:136]`, where the model gives `text[0:56]` and then `text[56:156]` | every pass moves the window forward, so the chunker always finishes | not executed | Chunker.AsWrittenNeverEnds, Chunker.AsWrittenStalls, Chunker.AsWrittenRepeats | Chunker.ChunkGeneral (with Chunker.Advance, Chunker.SpansTile, Chunker.GeneralChunksCover; Chunker.AsWrittenFollowsSpans shows both agree for valid settings) |
| LocalRAG_assets/app/utils/database_manager.py:67 | each audit field is written between quotes without doubling the quotes inside it | a query text containing `","` (or a database description with `"`): the QUERY_DATABASE line reads back as six fields. The modelled manager (`Store.DatabaseManager.AuditFile`) writes the corrected line, so its audit file differs from the source's for any field holding `"`; for fields without quotes both agree (`Audit.AsWrittenAgrees`) | fields quoted by the rules of section 2 of RFC 4180, an embedded quote written twice | not executed | Audit.AsWrittenSplitsField | Audit.AuditLineRoundTrip (line built by `Audit.AuditLine`) |
| LocalRAG_assets/app/ui/dialogs.py:387 | the chunking mode is the first word of the lower-cased caption | the caption "Letter/Report" gives "letter/report", which the processor does not know, so the text is chunked as general text. The modelled import (`Dialogs.Import`) uses the corrected mode, so for this caption its chunks, and the count it reports, differ from the source's | "Letter/Report" selects the letter chunker | not executed | Dialogs.AsWrittenLetterReportIsGeneral | Dialogs.LabelModes (mode by `Dialogs.ChunkingMode`, used by `Dialogs.Import`) |
