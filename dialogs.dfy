/**
 * The dialogs' input rules: the master-password and database-name
 * validators, and the import dialog's file selection and import.
 *
 * The import dialog's chunking mode is derived from the combo box caption. As
 * written, the caption "Letter/Report" gives the mode "letter/report", which
 * the processor does not know, so such documents are chunked as general text
 * (`AsWrittenLetterReportIsGeneral`). `ChunkingMode` keeps the word before
 * the slash, so "Letter/Report" selects the letter chunker, as the caption
 * promises; the import uses it.
 */
module Dialogs {
  import opened Wrappers
  import opened Text
  import opened Records
  import opened Chunker
  import opened Ingest
  import Store

  // ---------------------------------------------------------------------
  // Login
  // ---------------------------------------------------------------------

  datatype LoginOutcome = EmptyPassword | WeakPassword | LoggedIn(password: string)

  const MinPasswordLength: nat := 8

  /**
   * `LoginDialog.accept`: the stripped text is refused when empty or shorter
   * than eight characters, else kept as the password.
   */
  function Login(text: string): (r: LoginOutcome)
    ensures r == EmptyPassword <==> IsBlank(text)
    ensures r.LoggedIn? <==> |Strip(text)| >= MinPasswordLength
    ensures r.LoggedIn? ==> r.password == Strip(text) && IsTrimmed(r.password)
  {
    var password := Strip(text);
    if password == [] then EmptyPassword
    else if |password| < MinPasswordLength then WeakPassword
    else LoggedIn(password)
  }

  /** A kept password is accepted again as it stands. */
  lemma LoginStable(text: string)
    requires Login(text).LoggedIn?
    ensures Login(Login(text).password) == Login(text)
  {
    StripTrimmed(Strip(text));
  }

  // ---------------------------------------------------------------------
  // New database
  // ---------------------------------------------------------------------

  datatype NameOutcome = EmptyName | ShortName | ForbiddenCharacter | NameAccepted

  const MinNameLength: nat := 3
  const InvalidNameChars: string := "<>:\"/\\|?*"

  /**
   * `DatabaseCreateDialog.accept`: the stripped name must be non-empty, at
   * least three characters long and free of the characters `<>:"/\|?*`.
   */
  function CheckDatabaseName(text: string): (r: NameOutcome)
    ensures r == EmptyName <==> IsBlank(text)
    ensures r == NameAccepted <==> |Strip(text)| >= MinNameLength && !ContainsAny(Strip(text), InvalidNameChars)
  {
    var name := Strip(text);
    if name == [] then EmptyName
    else if |name| < MinNameLength then ShortName
    else if ContainsAny(name, InvalidNameChars) then ForbiddenCharacter
    else NameAccepted
  }

  /** `get_database_info`: the stripped name and description. */
  function DatabaseInfo(nameText: string, descriptionText: string): (r: (string, string))
    ensures IsTrimmed(r.0) && IsTrimmed(r.1)
    ensures r.0 == Strip(nameText) && r.1 == Strip(descriptionText)
  {
    (Strip(nameText), Strip(descriptionText))
  }

  /**
   * An accepted name is one path component: it has no separator, no drive
   * colon, no surrounding whitespace, and is not "." or "..".
   */
  lemma AcceptedNameIsComponent(nameText: string, descriptionText: string)
    requires CheckDatabaseName(nameText) == NameAccepted
    ensures var name := DatabaseInfo(nameText, descriptionText).0;
      && IsTrimmed(name) && |name| >= MinNameLength && name != "." && name != ".."
      && (forall k :: 0 <= k < |name| ==> name[k] != '/' && name[k] != '\\' && name[k] != ':')
      && Store.IsComponent(name)
  {
    var name := Strip(nameText);
    forall k | 0 <= k < |name|
      ensures name[k] != '/' && name[k] != '\\' && name[k] != ':'
    {
      if name[k] in InvalidNameChars {
        assert ContainsAny(name, InvalidNameChars);
      }
    }
  }

  // ---------------------------------------------------------------------
  // Chunking mode
  // ---------------------------------------------------------------------

  /** The chunking combo box's labels, in order. */
  const ModeLabels: seq<string> := ["General", "Statute (Legal)", "Letter/Report"]

  /** `currentText().lower().split()[0]`, as written: None where the caption is blank and Python raises. */
  function LabelWord(caption: string): (r: Option<string>)
    ensures r.None? <==> IsBlank(Lower(caption))
  {
    FirstWord(Lower(caption))
  }

  /** The text of a word up to its first slash. */
  function BeforeSlash(w: string): (r: string)
    ensures |r| <= |w| && r == w[..|r|]
    ensures forall k :: 0 <= k < |r| ==> r[k] != '/'
    ensures |r| < |w| ==> w[|r|] == '/'
  {
    if w == [] || w[0] == '/' then [] else [w[0]] + BeforeSlash(w[1..])
  }

  /** The chunking mode of a caption: its first word, lower-cased, up to any slash. */
  function ChunkingMode(caption: string): (m: string)
    requires !IsBlank(Lower(caption))
    ensures |m| <= |LabelWord(caption).value| && m == LabelWord(caption).value[..|m|]
    ensures forall k :: 0 <= k < |m| ==> m[k] != '/'
    ensures |m| < |LabelWord(caption).value| ==> LabelWord(caption).value[|m|] == '/'
  {
    BeforeSlash(LabelWord(caption).value)
  }

  /**
   * For a caption whose first word has no slash ("General", "Statute (Legal)")
   * the corrected mode is the word line 387 passes, so the import agrees with
   * the source's.
   */
  lemma ModeAsWritten(caption: string)
    requires !IsBlank(Lower(caption))
    requires forall k :: 0 <= k < |LabelWord(caption).value| ==> LabelWord(caption).value[k] != '/'
    ensures ChunkingMode(caption) == LabelWord(caption).value
  {
  }

  lemma {:induction false} WordLengthIs(s: string, n: nat)
    requires n <= |s| && (forall i :: 0 <= i < n ==> !IsSpace(s[i])) && (n == |s| || IsSpace(s[n]))
    ensures WordLength(s) == n
  {
    if n > 0 {
      WordLengthIs(s[1..], n - 1);
    }
  }

  /** A lower-case ASCII letter or a slash: never whitespace. */
  predicate WordChar(c: char) {
    'a' <= c <= 'z' || c == '/'
  }

  /** Every character of `w` is a word character, checked one by one. */
  predicate WordChars(w: string) {
    w == [] || (WordChar(w[0]) && WordChars(w[1..]))
  }

  lemma {:induction false} WordCharsAll(w: string)
    requires WordChars(w)
    ensures forall i :: 0 <= i < |w| ==> WordChar(w[i])
  {
    if w != [] {
      WordCharsAll(w[1..]);
      assert forall i :: 1 <= i < |w| ==> w[i] == w[1..][i - 1];
    }
  }

  lemma {:induction false} WordCharsEach(w: string)
    requires forall i :: 0 <= i < |w| ==> WordChar(w[i])
    ensures WordChars(w)
  {
    if w != [] {
      assert forall i :: 1 <= i < |w| ==> w[1..][i - 1] == w[i];
      WordCharsEach(w[1..]);
    }
  }

  lemma GeneralChars()
    ensures WordChars("general")
  {
    WordCharsEach("general");
  }

  lemma StatuteChars()
    ensures WordChars("statute")
  {
    WordCharsEach("statute");
  }

  lemma LetterReportChars()
    ensures WordChars("letter/report")
  {
    WordCharsEach("letter/report");
  }

  /** No character of `w` is a slash, checked one by one. */
  predicate SlashFree(w: string) {
    w == [] || (w[0] != '/' && SlashFree(w[1..]))
  }

  /** The text before the first slash of `a + b` is `a` when `a` has no slash and `b` is empty or starts with one. */
  lemma {:induction false} BeforeSlashIs(a: string, b: string)
    requires SlashFree(a) && (b == [] || b[0] == '/')
    ensures BeforeSlash(a + b) == a
  {
    if a != [] {
      BeforeSlashIs(a[1..], b);
      assert (a + b)[1..] == a[1..] + b;
    }
  }

  /** `w` is the first word of `w + rest` when `rest` is empty or starts with a space. */
  lemma FirstWordIs(w: string, rest: string)
    requires w != [] && WordChars(w)
    requires rest == [] || rest[0] == ' '
    ensures FirstWord(w + rest) == Some(w)
  {
    WordCharsAll(w);
    var s := w + rest;
    assert forall i :: 0 <= i < |w| ==> s[i] == w[i] && !IsSpace(s[i]);
    assert !IsSpace(s[0]);
    WordLengthIs(s, |w|);
    assert s[0..] == s;
    assert s[..|w|] == w;
  }

  /** The label word of a caption, from its lower-cased form and that form's first word. */
  lemma LabelWordFrom(caption: string, lowered: string, w: string)
    requires Lower(caption) == lowered && FirstWord(lowered) == Some(w)
    ensures LabelWord(caption) == Some(w) && !IsBlank(Lower(caption))
  {
  }

  lemma GeneralLower()
    ensures Lower(ModeLabels[0]) == "general"
  {
  }

  lemma GeneralFirstWord()
    ensures FirstWord("general") == Some("general")
  {
    assert "general" + "" == "general";
    GeneralChars();
    FirstWordIs("general", "");
  }

  lemma StatuteLower()
    ensures Lower(ModeLabels[1]) == "statute (legal)"
  {
  }

  lemma StatuteFirstWord()
    ensures FirstWord("statute (legal)") == Some("statute")
  {
    assert "statute" + " (legal)" == "statute (legal)";
    StatuteChars();
    FirstWordIs("statute", " (legal)");
  }

  lemma LetterReportLower()
    ensures Lower(ModeLabels[2]) == "letter/report"
  {
  }

  lemma LetterReportFirstWord()
    ensures FirstWord("letter/report") == Some("letter/report")
  {
    assert "letter/report" + "" == "letter/report";
    LetterReportChars();
    FirstWordIs("letter/report", "");
  }

  /** The label words of the three captions. */
  lemma LabelWords()
    ensures LabelWord(ModeLabels[0]) == Some("general") && !IsBlank(Lower(ModeLabels[0]))
    ensures LabelWord(ModeLabels[1]) == Some("statute") && !IsBlank(Lower(ModeLabels[1]))
    ensures LabelWord(ModeLabels[2]) == Some("letter/report") && !IsBlank(Lower(ModeLabels[2]))
  {
    GeneralLower();
    GeneralFirstWord();
    LabelWordFrom(ModeLabels[0], "general", "general");
    StatuteLower();
    StatuteFirstWord();
    LabelWordFrom(ModeLabels[1], "statute (legal)", "statute");
    LetterReportLower();
    LetterReportFirstWord();
    LabelWordFrom(ModeLabels[2], "letter/report", "letter/report");
  }

  lemma GeneralMode()
    ensures BeforeSlash("general") == "general"
  {
    assert "general" + "" == "general";
    BeforeSlashIs("general", "");
  }

  lemma StatuteMode()
    ensures BeforeSlash("statute") == "statute"
  {
    assert "statute" + "" == "statute";
    BeforeSlashIs("statute", "");
  }

  lemma LetterMode()
    ensures BeforeSlash("letter/report") == "letter"
  {
    assert "letter" + "/report" == "letter/report";
    BeforeSlashIs("letter", "/report");
  }

  /** Each caption of the combo box selects the processor's mode of that name. */
  lemma LabelModes()
    ensures !IsBlank(Lower(ModeLabels[0])) && ChunkingMode(ModeLabels[0]) == "general"
    ensures !IsBlank(Lower(ModeLabels[1])) && ChunkingMode(ModeLabels[1]) == "statute"
    ensures !IsBlank(Lower(ModeLabels[2])) && ChunkingMode(ModeLabels[2]) == "letter"
  {
    LabelWords();
    GeneralMode();
    StatuteMode();
    LetterMode();
  }

  /**
   * As written, the "Letter/Report" caption yields the mode "letter/report",
   * and a text chunked under it is chunked as general text: a blank text
   * comes back as one blank chunk, which the letter chunker never produces.
   */
  lemma AsWrittenLetterReportIsGeneral(patterns: Patterns)
    ensures LabelWord(ModeLabels[2]) == Some("letter/report")
    ensures ChunkText(" ", "letter/report", patterns, 1, 0) == [" "]
    ensures !LetterChunkOk(" ", 1)
    ensures forall k :: 0 <= k < |ChunkText(" ", "letter", patterns, 1, 0)| ==>
      LetterChunkOk(ChunkText(" ", "letter", patterns, 1, 0)[k], 1)
  {
    LabelWords();
    assert IsSpace(' ');
  }

  // ---------------------------------------------------------------------
  // File selection
  // ---------------------------------------------------------------------

  /** The last component of a path: `Path(p).name`. */
  function BaseName(path: string): (r: string)
    ensures |r| <= |path| && r == path[|path| - |r|..]
  {
    var i := RFind(path, '/');
    if i < 0 then path else path[i + 1..]
  }

  /** What the file system holds: each present path with its size in bytes. */
  type Disk = map<string, nat>

  /** The file as `validate_file` sees it. */
  function Stat(disk: Disk, path: string): FileInfo {
    FileInfo(BaseName(path), path in disk, if path in disk then disk[path] else 0)
  }

  /** One row of the file list: the path and its validation when it was added. */
  datatype Item = Item(path: string, fileName: string, validation: Validation)

  function ItemFor(disk: Disk, path: string): (it: Item)
    ensures it.path == path
    ensures it.validation.valid <==> path in disk && Lower(FileSuffix(BaseName(path))) in SupportedExtensions
                                     && disk[path] <= MaxBytes
  {
    Item(path, BaseName(path), ValidateFile(Stat(disk, path)))
  }

  predicate Distinct(s: seq<string>) {
    forall i, j :: 0 <= i < j < |s| ==> s[i] != s[j]
  }

  /** The selection after adding `paths` in order, each only if not yet selected. */
  function Added(selected: seq<string>, paths: seq<string>): (r: seq<string>)
    ensures |selected| <= |r| && r[..|selected|] == selected
  {
    if paths == [] then selected
    else
      var before := Added(selected, paths[..|paths| - 1]);
      if paths[|paths| - 1] in before then before else before + [paths[|paths| - 1]]
  }

  /** Adding one more path: appended unless already selected. */
  lemma AddedNext(selected: seq<string>, paths: seq<string>, i: nat)
    requires i < |paths|
    ensures var before := Added(selected, paths[..i]);
      Added(selected, paths[..i + 1]) == if paths[i] in before then before else before + [paths[i]]
  {
    assert paths[..i + 1][..i] == paths[..i];
  }

  /** A path is selected afterwards iff it was selected or added. */
  lemma {:induction false} AddedMembers(selected: seq<string>, paths: seq<string>, p: string)
    ensures p in Added(selected, paths) <==> p in selected || p in paths
  {
    if paths != [] {
      var n := |paths| - 1;
      AddedMembers(selected, paths[..n], p);
      assert paths == paths[..n] + [paths[n]];
    }
  }

  /** Adding never makes a path appear twice. */
  lemma {:induction false} AddedDistinct(selected: seq<string>, paths: seq<string>)
    requires Distinct(selected)
    ensures Distinct(Added(selected, paths))
  {
    if paths != [] {
      AddedDistinct(selected, paths[..|paths| - 1]);
    }
  }

  /** Adding paths that are all selected already changes nothing. */
  lemma {:induction false} AddedIdempotent(selected: seq<string>, paths: seq<string>)
    requires forall k :: 0 <= k < |paths| ==> paths[k] in selected
    ensures Added(selected, paths) == selected
  {
    if paths != [] {
      AddedIdempotent(selected, paths[..|paths| - 1]);
    }
  }

  /** The paths of the rows marked valid, in list order. */
  function ValidPaths(items: seq<Item>): (r: seq<string>)
    ensures |r| <= |items|
  {
    if items == [] then []
    else
      var n := |items| - 1;
      ValidPaths(items[..n]) + if items[n].validation.valid then [items[n].path] else []
  }

  /** Some row marked valid shows path `p`. */
  predicate ValidRowFor(items: seq<Item>, p: string) {
    exists i :: 0 <= i < |items| && items[i].path == p && items[i].validation.valid
  }

  lemma {:induction false} ValidPathsMembers(items: seq<Item>, p: string)
    ensures p in ValidPaths(items) <==> ValidRowFor(items, p)
  {
    if items != [] {
      var n := |items| - 1;
      ValidPathsMembers(items[..n], p);
      if ValidRowFor(items[..n], p) {
        var i :| 0 <= i < n && items[..n][i].path == p && items[..n][i].validation.valid;
        assert items[i] == items[..n][i];
      }
      if ValidRowFor(items, p) {
        var i :| 0 <= i < |items| && items[i].path == p && items[i].validation.valid;
        if i < n {
          assert items[..n][i] == items[i];
        }
      }
    }
  }

  // ---------------------------------------------------------------------
  // Import
  // ---------------------------------------------------------------------

  /** The dialog's result. None of the outcomes stores the documents anywhere. */
  datatype ImportOutcome = NoFiles | NoValidFiles | NothingProcessed(files: nat) | Imported(chunks: nat, files: nat)

  /** The caller metadata every imported chunk receives. */
  function ImportMetadata(now: string): Metadata {
    map["imported_at" := Str(now)]
  }

  /** What the dialog does with one selected path: `process_file` on its base name and contents, tagged with the import time. */
  function Processor(read: string -> Option<Content>, mode: string, settings: ChunkSettings, now: string)
    : (f: string -> seq<Document>)
    requires 1 <= settings.size
    ensures forall p :: f(p) == ProcessedDocuments(BaseName(p), read(p), mode, settings, now, Some(ImportMetadata(now)))
  {
    p => ProcessedDocuments(BaseName(p), read(p), mode, settings, now, Some(ImportMetadata(now)))
  }

  /** The documents `f` makes of each path, one path after the other. */
  function ProcessAll<T>(paths: seq<string>, f: string -> seq<T>): (r: seq<T>)
    ensures forall k, x :: 0 <= k < |paths| && x in f(paths[k]) ==> x in r
  {
    if paths == [] then []
    else
      var n := |paths| - 1;
      assert forall k :: 0 <= k < n ==> paths[..n][k] == paths[k];
      ProcessAll(paths[..n], f) + f(paths[n])
  }



  /**
   * `import_documents`: what the dialog reports. The documents are processed
   * in the corrected mode `ChunkingMode(caption)`; line 387 as written passes
   * `LabelWord(caption)` instead, which differs for "Letter/Report".
   */
  function Import(selected: seq<string>, items: seq<Item>, caption: string, read: string -> Option<Content>,
                  settings: ChunkSettings, now: string): (r: ImportOutcome)
    requires !IsBlank(Lower(caption)) && 1 <= settings.size
    ensures r == NoFiles <==> selected == []
    ensures r == NoValidFiles <==> selected != [] && ValidPaths(items) == []
    ensures var docs := ProcessAll(ValidPaths(items), Processor(read, ChunkingMode(caption), settings, now));
      && (r.Imported? <==> selected != [] && docs != [])
      && (r.Imported? ==> r.chunks == |docs| && r.files == |ValidPaths(items)|)
      && (r.NothingProcessed? <==> selected != [] && ValidPaths(items) != [] && docs == [])
      && (r.NothingProcessed? ==> r.files == |ValidPaths(items)|)
    ensures r.Imported? ==> r.chunks >= 1 && r.files >= 1
  {
    if selected == [] then NoFiles
    else
      var valid := ValidPaths(items);
      if valid == [] then NoValidFiles
      else
        var docs := ProcessAll(valid, Processor(read, ChunkingMode(caption), settings, now));
        if docs == [] then NothingProcessed(|valid|) else Imported(|docs|, |valid|)
  }



  lemma ProcessAllNext<T>(paths: seq<string>, f: string -> seq<T>, i: nat, docs: seq<T>)
    requires i < |paths| && docs == f(paths[i])
    ensures ProcessAll(paths[..i + 1], f) == ProcessAll(paths[..i], f) + docs
  {
    assert paths[..i + 1][..i] == paths[..i];
  }

  /** Every document of `ProcessAll` comes from `f` of one of the paths. */
  lemma {:induction false} ProcessAllFrom<T>(paths: seq<string>, f: string -> seq<T>, x: T)
    requires x in ProcessAll(paths, f)
    ensures exists k :: 0 <= k < |paths| && x in f(paths[k])
  {
    var n := |paths| - 1;
    if x !in f(paths[n]) {
      ProcessAllFrom(paths[..n], f, x);
      var k :| 0 <= k < n && x in f(paths[..n][k]);
      assert paths[..n][k] == paths[k];
    }
  }

  /** Every one of `paths` is the path of a row marked valid. */
  predicate RowsValid(items: seq<Item>, paths: seq<string>) {
    forall k :: 0 <= k < |paths| ==> ValidRowFor(items, paths[k])
  }

  /** Each valid path is the path of a row marked valid. */
  lemma ValidPathRows(items: seq<Item>)
    ensures RowsValid(items, ValidPaths(items))
  {
    forall k | 0 <= k < |ValidPaths(items)|
      ensures ValidRowFor(items, ValidPaths(items)[k])
    {
      ValidPathsMembers(items, ValidPaths(items)[k]);
      assert ValidPaths(items)[k] in ValidPaths(items);
    }
  }

  /** What `f` makes of paths that all belong to valid rows comes from a valid row. */
  lemma ProcessedFromRows<T>(items: seq<Item>, paths: seq<string>, f: string -> seq<T>, x: T)
    requires x in ProcessAll(paths, f)
    requires RowsValid(items, paths)
    ensures exists i :: 0 <= i < |items| && items[i].validation.valid && x in f(items[i].path)
  {
    ProcessAllFrom(paths, f, x);
    var k :| 0 <= k < |paths| && x in f(paths[k]);
    var i :| 0 <= i < |items| && items[i].path == paths[k] && items[i].validation.valid;
    assert x in f(items[i].path);
  }

  /**
   * Every chunk the dialog imports comes from processing the path of a row
   * marked valid (`Import` takes `f` to be the `Processor` of its mode).
   */
  lemma ImportOnlyValid<T>(items: seq<Item>, f: string -> seq<T>, x: T)
    requires x in ProcessAll(ValidPaths(items), f)
    ensures exists i :: 0 <= i < |items| && items[i].validation.valid && x in f(items[i].path)
  {
    ValidPathRows(items);
    ProcessedFromRows(items, ValidPaths(items), f, x);
  }

  /** With no row marked valid the dialog warns and stays open, whatever the files hold. */
  lemma ImportNeedsValidRow(selected: seq<string>, items: seq<Item>, caption: string, read: string -> Option<Content>,
                            settings: ChunkSettings, now: string)
    requires !IsBlank(Lower(caption)) && 1 <= settings.size
    requires selected != []
    requires forall i :: 0 <= i < |items| ==> !items[i].validation.valid
    ensures Import(selected, items, caption, read, settings, now) == NoValidFiles
  {
    if ValidPaths(items) != [] {
      ValidPathsMembers(items, ValidPaths(items)[0]);
    }
  }

  /** The list rows `items` show the paths of `selected`, one to one and in order. */
  predicate Rows(items: seq<Item>, selected: seq<string>) {
    |items| == |selected| && forall i :: 0 <= i < |items| ==> items[i].path == selected[i]
  }

  /** The loop of `add_files`: the new selection and rows, the row of each new path made by `row`. */
  method AddRows(selected: seq<string>, items: seq<Item>, paths: seq<string>, row: string -> Item)
    returns (newSelected: seq<string>, newItems: seq<Item>)
    requires Rows(items, selected) && forall p :: row(p).path == p
    ensures newSelected == Added(selected, paths) && Rows(newItems, newSelected)
    ensures |items| <= |newItems| && newItems[..|items|] == items
    ensures forall k :: |items| <= k < |newItems| ==> newItems[k] == row(newSelected[k])
  {
    newSelected, newItems := selected, items;
    for i := 0 to |paths|
      invariant newSelected == Added(selected, paths[..i]) && Rows(newItems, newSelected)
      invariant |items| <= |newItems| && newItems[..|items|] == items
      invariant forall k :: |items| <= k < |newItems| ==> newItems[k] == row(newSelected[k])
    {
      var path := paths[i];
      AddedNext(selected, paths, i);
      if path !in newSelected {
        newSelected := newSelected + [path];
        newItems := newItems + [row(path)];
      }
    }
    assert paths[..|paths|] == paths;
  }

  /** The first loop of `import_documents`: the paths of the rows marked valid. */
  method CollectValid(items: seq<Item>) returns (valid: seq<string>)
    ensures valid == ValidPaths(items)
  {
    valid := [];
    for i := 0 to |items|
      invariant valid == ValidPaths(items[..i])
    {
      assert items[..i + 1][..i] == items[..i];
      if items[i].validation.valid {
        valid := valid + [items[i].path];
      }
    }
    assert items[..|items|] == items;
  }

  /** The second loop of `import_documents`: `process_file` on each valid path, documents collected in order. */
  method ProcessPaths(valid: seq<string>, read: string -> Option<Content>, mode: string, settings: ChunkSettings,
                      now: string)
    returns (all: seq<Document>)
    requires 1 <= settings.size
    ensures all == ProcessAll(valid, Processor(read, mode, settings, now))
  {
    ghost var f := Processor(read, mode, settings, now);
    all := [];
    for i := 0 to |valid|
      invariant all == ProcessAll(valid[..i], f)
    {
      var documents := ProcessFile(BaseName(valid[i]), read(valid[i]), mode, settings, now, Some(ImportMetadata(now)));
      ProcessAllNext(valid, f, i, documents);
      all := all + documents;
    }
    assert valid[..|valid|] == valid;
  }

  class DocumentImportDialog {
    const databaseName: string
    /** `selected_files`. */
    var selectedFiles: seq<string>
    /** The rows of `files_list`, one per selected file. */
    var items: seq<Item>

    /** The list rows follow the selection one to one, and no path is selected twice. */
    predicate Valid()
      reads this
    {
      Rows(items, selectedFiles) && Distinct(selectedFiles)
    }

    constructor(databaseName: string)
      ensures this.databaseName == databaseName && selectedFiles == [] && items == [] && Valid()
    {
      this.databaseName := databaseName;
      selectedFiles := [];
      items := [];
    }

    /** `add_files`: each path not yet selected is appended with its validation. */
    method AddFiles(paths: seq<string>, disk: Disk)
      requires Valid()
      modifies this
      ensures Valid()
      ensures selectedFiles == Added(old(selectedFiles), paths)
      ensures |old(items)| <= |items| && items[..|old(items)|] == old(items)
      ensures forall k :: |old(items)| <= k < |items| ==> items[k] == ItemFor(disk, selectedFiles[k])
    {
      selectedFiles, items := AddRows(selectedFiles, items, paths, p => ItemFor(disk, p));
      AddedDistinct(old(selectedFiles), paths);
    }

    /** `clear_files`: empties the selection and the list. */
    method ClearFiles()
      modifies this
      ensures selectedFiles == [] && items == [] && Valid()
    {
      selectedFiles := [];
      items := [];
    }

    /** `import_documents`: collects the valid rows, processes each, reports. */
    method ImportDocuments(caption: string, read: string -> Option<Content>, settings: ChunkSettings, now: string)
      returns (outcome: ImportOutcome)
      requires !IsBlank(Lower(caption)) && 1 <= settings.size
      ensures outcome == Import(selectedFiles, items, caption, read, settings, now)
    {
      if selectedFiles == [] {
        return NoFiles;
      }
      var valid := CollectValid(items);
      if valid == [] {
        return NoValidFiles;
      }
      var all := ProcessPaths(valid, read, ChunkingMode(caption), settings, now);
      if all == [] {
        return NothingProcessed(|valid|);
      }
      return Imported(|all|, |valid|);
    }
  }
}
