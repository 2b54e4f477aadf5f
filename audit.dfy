/**
 * The database manager's audit trail: one CSV record per logged action, five
 * quoted fields (timestamp, action, database name, user, details).
 *
 * The manager writes each field between double quotes without doubling the
 * quotes inside it (`AsWrittenLine`). Read by the rules of section 2 of
 * RFC 4180, such a line can come back as a different record: a database
 * name, description or query text containing `","` splits a field in two.
 * `AuditLine` is the corrected rendering (rule 7 of that section: an embedded
 * quote is written twice), and `AuditLineRoundTrip` proves that an RFC 4180
 * reader gets the five fields back from it.
 */
module Audit {
  import opened Wrappers

  /** The actions the manager records. */
  datatype Action = CreateDatabase | LoadDatabase | DeleteDatabase | AddDocuments | QueryDatabase

  function ActionName(a: Action): (r: string)
    ensures |r| > 0
  {
    match a
    case CreateDatabase => "CREATE_DATABASE"
    case LoadDatabase => "LOAD_DATABASE"
    case DeleteDatabase => "DELETE_DATABASE"
    case AddDocuments => "ADD_DOCUMENTS"
    case QueryDatabase => "QUERY_DATABASE"
  }

  /** One audit record; the user field is always `AuditUser`. */
  datatype AuditRow = AuditRow(timestamp: string, action: Action, database: string, details: string)

  const AuditUser: string := "local_user"

  /** The first line of a fresh audit file. */
  const Header: string := "timestamp,action,database_name,user,details\n"

  /** The five fields of a record, in file order. */
  function Fields(row: AuditRow): (r: seq<string>)
    ensures |r| == 5 && r[1] == ActionName(row.action) && r[3] == AuditUser
  {
    [row.timestamp, ActionName(row.action), row.database, AuditUser, row.details]
  }

  // ---------------------------------------------------------------------
  // Reading a record by the rules of RFC 4180, section 2.
  // ---------------------------------------------------------------------

  /**
   * Reads the inside of a quoted field, `s` starting just after the opening
   * quote: a doubled quote stands for one quote, a single quote closes the
   * field. Returns the field and what follows the closing quote.
   */
  function Unquote(s: string): (r: Option<(string, string)>)
    ensures r.Some? ==> |r.value.1| < |s|
    decreases |s|
  {
    if s == [] then None
    else if s[0] == '"' then
      if |s| >= 2 && s[1] == '"' then
        match Unquote(s[2..])
        case None => None
        case Some((f, rest)) => Some((['"'] + f, rest))
      else Some(([], s[1..]))
    else
      match Unquote(s[1..])
      case None => None
      case Some((f, rest)) => Some(([s[0]] + f, rest))
  }

  /**
   * Reads one line made of quoted fields separated by commas and ended by a
   * line break; None when the line is not of that form.
   */
  function ParseRecord(s: string): (r: Option<seq<string>>)
    ensures r.Some? ==> |r.value| >= 1
    decreases |s|
  {
    if s == [] || s[0] != '"' then None
    else
      match Unquote(s[1..])
      case None => None
      case Some((f, rest)) =>
        if rest == "\n" then Some([f])
        else if rest != [] && rest[0] == ',' then
          match ParseRecord(rest[1..])
          case None => None
          case Some(fs) => Some([f] + fs)
        else None
  }

  // ---------------------------------------------------------------------
  // Writing a record.
  // ---------------------------------------------------------------------

  /**
   * The fields as the manager writes them: each between quotes as it stands,
   * joined by commas and ended by a line break.
   */
  function RenderRaw(fs: seq<string>): (r: string)
    requires |fs| >= 1
    ensures |r| > 0 && r[0] == '"' && r[|r| - 1] == '\n'
  {
    if |fs| == 1 then "\"" + fs[0] + "\"" + "\n"
    else "\"" + fs[0] + "\"" + "," + RenderRaw(fs[1..])
  }

  /** The line the manager appends for a record: one quoted line. */
  function AsWrittenLine(row: AuditRow): (r: string)
    ensures |r| > 0 && r[0] == '"' && r[|r| - 1] == '\n'
  {
    RenderRaw(Fields(row))
  }

  /** Doubles every quote of a field (RFC 4180, section 2, rule 7). */
  function Escape(f: string): (r: string)
    ensures |r| >= |f|
  {
    if f == [] then []
    else (if f[0] == '"' then "\"\"" else [f[0]]) + Escape(f[1..])
  }

  function Quote(f: string): string {
    "\"" + Escape(f) + "\""
  }

  /** Quoted, escaped fields joined by commas and ended by a line break. */
  function RenderFields(fs: seq<string>): (r: string)
    requires |fs| >= 1
    ensures |r| > 0 && r[0] == '"' && r[|r| - 1] == '\n'
  {
    if |fs| == 1 then Quote(fs[0]) + "\n"
    else Quote(fs[0]) + "," + RenderFields(fs[1..])
  }

  /** The corrected audit line: one quoted line. */
  function AuditLine(row: AuditRow): (r: string)
    ensures |r| > 0 && r[0] == '"' && r[|r| - 1] == '\n'
  {
    RenderFields(Fields(row))
  }

  /** An escaped field followed by the closing quote reads back as itself. */
  lemma {:induction false} UnquoteEscape(f: string, rest: string)
    requires rest == [] || rest[0] != '"'
    ensures Unquote(Escape(f) + "\"" + rest) == Some((f, rest))
  {
    if f == [] {
      assert Escape(f) + "\"" + rest == "\"" + rest;
    } else {
      UnquoteEscape(f[1..], rest);
      UnquoteEscapeStep(f, rest);
    }
  }

  /** The step of `UnquoteEscape` for the first character of the field. */
  lemma UnquoteEscapeStep(f: string, rest: string)
    requires f != [] && Unquote(Escape(f[1..]) + "\"" + rest) == Some((f[1..], rest))
    ensures Unquote(Escape(f) + "\"" + rest) == Some((f, rest))
  {
    var tail := Escape(f[1..]) + "\"" + rest;
    assert [f[0]] + f[1..] == f;
    if f[0] == '"' {
      EscapePair(f, rest);
      UnquotePair(tail, f[1..], rest);
    } else {
      EscapeChar(f, rest);
      UnquoteChar(f[0], tail, f[1..], rest);
    }
  }

  lemma EscapePair(f: string, rest: string)
    requires f != [] && f[0] == '"'
    ensures Escape(f) + "\"" + rest == "\"\"" + (Escape(f[1..]) + "\"" + rest)
  {
  }

  lemma EscapeChar(f: string, rest: string)
    requires f != [] && f[0] != '"'
    ensures Escape(f) + "\"" + rest == [f[0]] + (Escape(f[1..]) + "\"" + rest)
  {
  }

  /** A doubled quote inside a quoted field reads back as one quote. */
  lemma UnquotePair(tail: string, f: string, rest: string)
    requires Unquote(tail) == Some((f, rest))
    ensures Unquote("\"\"" + tail) == Some((['"'] + f, rest))
  {
    assert ("\"\"" + tail)[2..] == tail;
  }

  /** Any other character inside a quoted field reads back as itself. */
  lemma UnquoteChar(c: char, tail: string, f: string, rest: string)
    requires c != '"' && Unquote(tail) == Some((f, rest))
    ensures Unquote([c] + tail) == Some(([c] + f, rest))
  {
    assert ([c] + tail)[1..] == tail;
  }

  lemma QuoteSplit(f: string, rest: string)
    ensures (Quote(f) + rest)[0] == '"'
    ensures (Quote(f) + rest)[1..] == Escape(f) + "\"" + rest
  {
  }

  /** One quoted field read off the front of a line. */
  lemma ParseQuoted(f: string, rest: string)
    requires rest == [] || rest[0] != '"'
    ensures ParseRecord(Quote(f) + rest) ==
      if rest == "\n" then Some([f])
      else if rest != [] && rest[0] == ',' then
        match ParseRecord(rest[1..])
        case None => None
        case Some(fs) => Some([f] + fs)
      else None
  {
    QuoteSplit(f, rest);
    UnquoteEscape(f, rest);
  }

  /** Reading a rendered record gives back exactly its fields. */
  lemma {:induction false} ParseRender(fs: seq<string>)
    requires |fs| >= 1
    ensures ParseRecord(RenderFields(fs)) == Some(fs)
  {
    if |fs| == 1 {
      ParseQuoted(fs[0], "\n");
      assert [fs[0]] == fs;
    } else {
      var rest := "," + RenderFields(fs[1..]);
      assert RenderFields(fs) == Quote(fs[0]) + rest;
      ParseQuoted(fs[0], rest);
      assert rest[1..] == RenderFields(fs[1..]);
      ParseRender(fs[1..]);
      assert [fs[0]] + fs[1..] == fs;
    }
  }

  /** The corrected line reads back as the record's five fields. */
  lemma AuditLineRoundTrip(row: AuditRow)
    ensures ParseRecord(AuditLine(row)) == Some(Fields(row))
  {
    ParseRender(Fields(row));
  }

  /** Escaping leaves a field without quotes unchanged. */
  lemma {:induction false} EscapePlain(f: string)
    requires forall k :: 0 <= k < |f| ==> f[k] != '"'
    ensures Escape(f) == f
  {
    if f != [] {
      EscapePlain(f[1..]);
      assert [f[0]] + f[1..] == f;
    }
  }

  predicate Plain(f: string) {
    forall k :: 0 <= k < |f| ==> f[k] != '"'
  }

  /** Fields without quotes are written the same either way. */
  lemma {:induction false} RawIsRendered(fs: seq<string>)
    requires |fs| >= 1
    requires forall i :: 0 <= i < |fs| ==> Plain(fs[i])
    ensures RenderRaw(fs) == RenderFields(fs)
  {
    EscapePlain(fs[0]);
    if |fs| > 1 {
      RawIsRendered(fs[1..]);
    }
  }

  /** For records without quotes the correction changes nothing. */
  lemma AsWrittenAgrees(row: AuditRow)
    requires Plain(row.timestamp) && Plain(row.database) && Plain(row.details)
    ensures AsWrittenLine(row) == AuditLine(row)
  {
    var fs := Fields(row);
    assert Plain(fs[1]) by {
      match row.action
      case CreateDatabase =>
      case LoadDatabase =>
      case DeleteDatabase =>
      case AddDocuments =>
      case QueryDatabase =>
    }
    RawIsRendered(fs);
  }

  /**
   * A query text containing `","` makes the as-written QUERY_DATABASE line
   * read back as a six-field record: the details field is split in two.
   */
  lemma AsWrittenSplitsField()
    ensures var row := AuditRow("t", QueryDatabase, "db", "Query: x\",\"y...");
      ParseRecord(AsWrittenLine(row)) == Some(["t", "QUERY_DATABASE", "db", "local_user", "Query: x", "y..."])
  {
    var fs := ["t", "QUERY_DATABASE", "db", "local_user", "Query: x", "y..."];
    SplitLineIs();
    SplitFieldsPlain();
    RawIsRendered(fs);
    ParseRender(fs);
  }

  /** The as-written line of the splitting row is the raw line of six fields. */
  lemma SplitLineIs()
    ensures AsWrittenLine(AuditRow("t", QueryDatabase, "db", "Query: x\",\"y..."))
         == RenderRaw(["t", "QUERY_DATABASE", "db", "local_user", "Query: x", "y..."])
  {
    var row := AuditRow("t", QueryDatabase, "db", "Query: x\",\"y...");
    var fs := ["t", "QUERY_DATABASE", "db", "local_user", "Query: x", "y..."];
    SplitTail();
    assert fs[4..] == ["Query: x", "y..."];
    assert Fields(row)[4..] == [row.details];
    assert Fields(row)[..4] == fs[..4];
    PrefixRaw(Fields(row), fs, 4);
  }

  /** The last two fields, written raw, are the details field written raw. */
  lemma SplitTail()
    ensures RenderRaw(["Query: x", "y..."]) == RenderRaw(["Query: x\",\"y..."])
  {
    assert ["Query: x", "y..."][1..] == ["y..."];
  }

  lemma SplitFieldsPlain()
    ensures forall i :: 0 <= i < 6 ==> Plain(["t", "QUERY_DATABASE", "db", "local_user", "Query: x", "y..."][i])
  {
  }

  /** Records that agree on their first fields and on the rest of the line agree. */
  lemma {:induction false} PrefixRaw(a: seq<string>, b: seq<string>, n: nat)
    requires n < |a| && n < |b| && a[..n] == b[..n]
    requires RenderRaw(a[n..]) == RenderRaw(b[n..])
    ensures RenderRaw(a) == RenderRaw(b)
    decreases n
  {
    if n > 0 {
      assert a[n - 1..][1..] == a[n..] && b[n - 1..][1..] == b[n..];
      assert a[n - 1] == b[n - 1];
      PrefixRaw(a, b, n - 1);
    } else {
      assert a[0..] == a && b[0..] == b;
    }
  }
}
