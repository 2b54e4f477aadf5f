/**
 * The encrypted multi-database manager as a state machine.
 *
 * The state is the databases directory (`entries`: one entry per name, either
 * a database folder or a plain file such as the audit file), the in-memory
 * cache of loaded databases (`active`) and the audit rows appended during the
 * session (`log`). Each operation of the manager is a function from the old
 * state to the new state and its result; the `DatabaseManager` class at the
 * end of this file keeps the same state in fields and is proved against these
 * functions.
 *
 * Key derivation and encryption are symbolic: a blob sealed with a key opens
 * with that key and no other. A ChromaDB collection is the sequence of the
 * documents added to it; nearest-neighbour search is an input.
 */
module Store {
  import opened Wrappers
  import opened Text
  import opened Records
  import opened Audit

  // ---------------------------------------------------------------------
  // Keys and encrypted metadata
  // ---------------------------------------------------------------------

  /** A key derived by PBKDF2-HMAC-SHA256; the derivation itself is not modelled. */
  datatype Key = Pbkdf2Sha256(password: string, salt: string, iterations: nat, length: nat)

  const Salt: string := "localrag_salt_2024"

  /** Every manager derives its key from the master password with the same fixed salt. */
  function DeriveKey(password: string): (k: Key)
    ensures k.salt == Salt && k.iterations == 100000 && k.length == 32
  {
    Pbkdf2Sha256(password, Salt, 100000, 32)
  }

  /** The contents of a `metadata.enc` file. */
  datatype Blob = Sealed(key: Key, plain: Metadata) | Unreadable

  /** Fernet decryption followed by JSON decoding; None where either raises. */
  function Decrypt(key: Key, b: Blob): (r: Option<Metadata>)
    ensures r.Some? <==> b.Sealed? && b.key == key
    ensures r.Some? ==> r.value == b.plain
  {
    if b.Sealed? && b.key == key then Some(b.plain) else None
  }

  /** Encryption: the blob opens with the key that sealed it and with no other. */
  function Encrypt(key: Key, m: Metadata): (b: Blob)
    ensures Decrypt(key, b) == Some(m)
    ensures forall k :: k != key ==> Decrypt(k, b) == None
  {
    Sealed(key, m)
  }

  // ---------------------------------------------------------------------
  // State
  // ---------------------------------------------------------------------

  /**
   * An entry of the databases directory: a folder with an optional
   * `metadata.enc` and an optional ChromaDB collection named "documents",
   * or a plain file.
   */
  datatype Entry = Database(metadataFile: Option<Blob>, collection: Option<seq<Document>>) | PlainFile

  /** A cached database: the client and collection are the folder's; the metadata as decrypted on load. */
  datatype Handle = Handle(metadata: Option<Metadata>)

  datatype StoreState = StoreState(entries: map<string, Entry>, active: map<string, Handle>, log: seq<AuditRow>)

  /** The audit file lives in the databases directory beside the database folders. */
  const AuditFileName: string := "audit.csv"

  // ---------------------------------------------------------------------
  // Names as paths: `databases_dir / name`
  // ---------------------------------------------------------------------

  /** `databases_dir / name` is an entry directly inside the databases directory. */
  predicate IsComponent(name: string) {
    name != [] && (forall i :: 0 <= i < |name| ==> name[i] != '/') && name != "." && name != ".."
  }

  /**
   * `databases_dir / name` is the databases directory itself: a relative path
   * whose parts are all "" or "." (such as "" or "./"), which `pathlib` drops.
   */
  predicate NamesDirectory(name: string) {
    && (name == [] || name[0] != '/')
    && (forall i :: 0 <= i < |name| ==> name[i] == '.' || name[i] == '/')
    && (forall i :: 0 <= i < |name| - 1 ==> !(name[i] == '.' && name[i + 1] == '.'))
  }

  /** The names whose path stays within the modelled directory. */
  predicate Resolves(name: string) {
    IsComponent(name) || NamesDirectory(name)
  }

  /** A name leads either into the directory or to the directory itself, never both. */
  lemma ComponentOrDirectory(name: string)
    ensures !(IsComponent(name) && NamesDirectory(name))
  {
    if NamesDirectory(name) && name != [] && name[0] != '/' && |name| >= 2 {
      assert name[0] == '.';
      assert name[1] == '.' || name[1] == '/';
    }
  }

  /** Whether `name` is a folder directly inside the directory whose ChromaDB collection opens. */
  predicate OnDisk(s: StoreState, name: string) {
    IsComponent(name) && name in s.entries && s.entries[name].Database? && s.entries[name].collection.Some?
  }

  /** Whether `load_database(name)` returns a handle. */
  predicate Loadable(s: StoreState, name: string) {
    name in s.active || OnDisk(s, name)
  }

  /** A cached handle's metadata is what the folder's `metadata.enc` holds. */
  predicate Coherent(s: StoreState, key: Key, name: string)
    requires name in s.active && name in s.entries
  {
    s.active[name].metadata.Some? ==>
      s.entries[name].Database? && s.entries[name].metadataFile == Some(Encrypt(key, s.active[name].metadata.value))
  }

  /**
   * The manager's invariant: the audit file is present, every cached database
   * is a folder with a collection, cached metadata agrees with the file,
   * and every entry's name is a single path component.
   */
  predicate Valid(s: StoreState, key: Key) {
    && AuditFileName in s.entries && s.entries[AuditFileName] == PlainFile
    && (forall n :: n in s.entries ==> IsComponent(n))
    && (forall n :: n in s.active ==> OnDisk(s, n) && Coherent(s, key, n))
  }

  /** `new` only ever appends to `old`. */
  predicate Extends(before: seq<AuditRow>, after: seq<AuditRow>) {
    |before| <= |after| && after[..|before|] == before
  }

  /** The state of the directory when the manager starts: the audit file is added when absent. */
  function Initial(dir: map<string, Entry>): (s: StoreState)
    requires AuditFileName !in dir && forall n :: n in dir ==> IsComponent(n)
    ensures forall key :: Valid(s, key)
    ensures s.active == map[] && s.log == []
    ensures forall n :: n != AuditFileName ==> (n in s.entries <==> n in dir)
  {
    assert IsComponent(AuditFileName) by {
      assert forall i :: 0 <= i < |AuditFileName| ==> AuditFileName[i] != '/';
    }
    StoreState(dir[AuditFileName := PlainFile], map[], [])
  }

  // ---------------------------------------------------------------------
  // create_database
  // ---------------------------------------------------------------------

  /** The metadata a new database starts with. */
  function NewMetadata(name: string, description: string, now: string): (m: Metadata)
    ensures m.Keys == {"name", "description", "created_at", "document_count", "encrypted"}
    ensures m["name"] == Str(name) && m["description"] == Str(description)
    ensures m["document_count"] == Int(0) && m["encrypted"] == Bool(true)
  {
    map["name" := Str(name), "description" := Str(description), "created_at" := Str(now),
        "document_count" := Int(0), "encrypted" := Bool(true)]
  }

  /**
   * `create_database`: fails when the path exists, the databases directory
   * itself included, and otherwise makes the folder with an empty collection
   * and fresh encrypted metadata.
   */
  function Create(s: StoreState, key: Key, name: string, description: string, now: string): (r: (StoreState, bool))
    requires Resolves(name)
    ensures r.1 <==> IsComponent(name) && name !in s.entries
    ensures !r.1 ==> r.0 == s
    ensures r.0.active == s.active
    ensures Extends(s.log, r.0.log)
    ensures r.1 ==>
      && r.0.entries == s.entries[name := Database(Some(Encrypt(key, NewMetadata(name, description, now))), Some([]))]
      && r.0.log == s.log + [AuditRow(now, CreateDatabase, name, "Database created: " + description)]
  {
    ComponentOrDirectory(name);
    if NamesDirectory(name) || name in s.entries then (s, false)
    else
      var blob := Encrypt(key, NewMetadata(name, description, now));
      (s.(entries := s.entries[name := Database(Some(blob), Some([]))],
          log := s.log + [AuditRow(now, CreateDatabase, name, "Database created: " + description)]), true)
  }

  // ---------------------------------------------------------------------
  // _load_database_metadata and load_database
  // ---------------------------------------------------------------------

  /** The decrypted `metadata.enc` of a folder; None when missing or unreadable with `key`. */
  function LoadMetadata(s: StoreState, key: Key, name: string): (r: Option<Metadata>)
    ensures r.Some? ==>
      name in s.entries && s.entries[name].Database? && s.entries[name].metadataFile == Some(Encrypt(key, r.value))
    ensures r.None? ==>
      !(name in s.entries && s.entries[name].Database? && s.entries[name].metadataFile.Some?
        && s.entries[name].metadataFile.value.Sealed? && s.entries[name].metadataFile.value.key == key)
  {
    if name in s.entries && s.entries[name].Database? && s.entries[name].metadataFile.Some?
    then Decrypt(key, s.entries[name].metadataFile.value)
    else None
  }

  function Load(s: StoreState, key: Key, name: string, now: string): (r: (StoreState, Option<Handle>))
    ensures r.1.Some? <==> Loadable(s, name)
    ensures r.0.entries == s.entries
    ensures Extends(s.log, r.0.log)
    ensures forall n :: Loadable(r.0, n) <==> Loadable(s, n)
    ensures name in s.active ==> r == (s, Some(s.active[name]))
    ensures !Loadable(s, name) ==> r.0 == s
    ensures name !in s.active && Loadable(s, name) ==>
      && r.1 == Some(Handle(LoadMetadata(s, key, name)))
      && r.0.active == s.active[name := r.1.value]
      && r.0.log == s.log + [AuditRow(now, LoadDatabase, name, "")]
  {
    if name in s.active then (s, Some(s.active[name]))
    else if !OnDisk(s, name) then (s, None)
    else
      var h := Handle(LoadMetadata(s, key, name));
      (s.(active := s.active[name := h], log := s.log + [AuditRow(now, LoadDatabase, name, "")]), Some(h))
  }

  // ---------------------------------------------------------------------
  // delete_database
  // ---------------------------------------------------------------------

  /**
   * Evicts the cache entry, then removes the folder when there is one; a
   * plain file under that name makes the removal raise and the call fail.
   * A name for the databases directory itself removes the whole directory,
   * audit file included, after which appending the audit row raises and the
   * call fails.
   */
  function Delete(s: StoreState, name: string, now: string): (r: (StoreState, bool))
    requires Resolves(name)
    ensures r.0.active == s.active - {name}
    ensures NamesDirectory(name) ==> !r.1 && r.0.entries == map[] && r.0.log == s.log
    ensures IsComponent(name) ==> (r.1 <==> !(name in s.entries && s.entries[name].PlainFile?))
    ensures IsComponent(name) ==> r.0.entries == if r.1 then s.entries - {name} else s.entries
    ensures IsComponent(name) ==> r.0.log == if r.1 then s.log + [AuditRow(now, DeleteDatabase, name, "")] else s.log
  {
    ComponentOrDirectory(name);
    var evicted := s.(active := s.active - {name});
    if NamesDirectory(name) then (evicted.(entries := map[]), false)
    else if name in s.entries && s.entries[name].PlainFile? then (evicted, false)
    else (evicted.(entries := s.entries - {name}, log := s.log + [AuditRow(now, DeleteDatabase, name, "")]), true)
  }

  // ---------------------------------------------------------------------
  // add_documents and _update_database_metadata
  // ---------------------------------------------------------------------

  function AddedDetails(n: nat): string {
    "Added " + NatToString(n) + " documents"
  }

  /**
   * Loads the database, inserts the documents, then sets the cached
   * metadata's `document_count` to the collection's size and rewrites
   * `metadata.enc`. When the cached metadata is None the count update
   * raises after the insertion: the call fails and the documents stay.
   */
  function Add(s: StoreState, key: Key, name: string, docs: seq<Document>, now: string): (r: (StoreState, bool))
    ensures Extends(s.log, r.0.log)
  {
    var (loaded, h) := Load(s, key, name, now);
    if h.None? || !OnDisk(loaded, name) then (loaded, false)
    else
      var coll := loaded.entries[name].collection.value + docs;
      var inserted := loaded.(entries := loaded.entries[name := loaded.entries[name].(collection := Some(coll))]);
      match h.value.metadata
      case None => (inserted, false)
      case Some(md) =>
        var counted := md["document_count" := Int(|coll|)];
        (inserted.(entries := inserted.entries[name := Database(Some(Encrypt(key, counted)), Some(coll))],
                   active := inserted.active[name := Handle(Some(counted))],
                   log := inserted.log + [AuditRow(now, AddDocuments, name, AddedDetails(|docs|))]), true)
  }

  // ---------------------------------------------------------------------
  // list_databases
  // ---------------------------------------------------------------------

  /** What the listing reports for one directory entry: its metadata when it decrypts to a non-empty dictionary. */
  function Listed(s: StoreState, key: Key, name: string): (r: Option<Metadata>)
    ensures r.Some? <==> LoadMetadata(s, key, name).Some? && LoadMetadata(s, key, name).value != map[]
    ensures r.Some? ==> r == LoadMetadata(s, key, name)
  {
    var m := LoadMetadata(s, key, name);
    if m.Some? && m.value != map[] then m else None
  }

  /** The metadata of the databases met in `listing` (the directory's entries, in `iterdir` order). */
  function List(s: StoreState, key: Key, listing: seq<string>): (r: seq<Metadata>)
    ensures |r| <= |listing|
  {
    if listing == [] then []
    else
      var n := |listing| - 1;
      var m := Listed(s, key, listing[n]);
      List(s, key, listing[..n]) + (if m.Some? then [m.value] else [])
  }

  // ---------------------------------------------------------------------
  // query_databases
  // ---------------------------------------------------------------------

  /**
   * What `collection.query` returns for the one query text: the documents,
   * their metadata (possibly an empty list) and their distances (absent
   * when the store reports none).
   */
  datatype Answer = Answer(documents: seq<string>, metadatas: seq<Metadata>, distances: Option<seq<real>>)

  /** The formatted hits of an answer; None where an index is out of range and the formatting raises. */
  function FormatHits(name: string, a: Answer): (r: Option<seq<Hit>>)
    ensures r.None? <==>
      (a.metadatas != [] && |a.metadatas| < |a.documents|) || (a.distances.Some? && |a.distances.value| < |a.documents|)
    ensures r.Some? ==> |r.value| == |a.documents|
    ensures r.Some? ==> forall i :: 0 <= i < |r.value| ==>
      && r.value[i].content == a.documents[i]
      && r.value[i].sourceDatabase == name
      && r.value[i].metadata == (if a.metadatas == [] then map[] else a.metadatas[i])
      && r.value[i].distance == (if a.distances.Some? then Some(a.distances.value[i]) else None)
  {
    if (a.metadatas != [] && |a.metadatas| < |a.documents|) || (a.distances.Some? && |a.distances.value| < |a.documents|)
    then None
    else Some(seq(|a.documents|, i requires 0 <= i < |a.documents| =>
      Hit(a.documents[i],
          if a.metadatas == [] then map[] else a.metadatas[i],
          if a.distances.Some? then Some(a.distances.value[i]) else None,
          name)))
  }

  /** A Python dict built by assignment: keys in first-insertion order. */
  type Results = seq<(string, seq<Hit>)>

  function KeysOf(res: Results): (r: seq<string>)
    ensures |r| == |res| && forall i :: 0 <= i < |res| ==> r[i] == res[i].0
  {
    seq(|res|, i requires 0 <= i < |res| => res[i].0)
  }

  /** No key occurs twice. */
  predicate DistinctKeys(res: Results) {
    forall i, j :: 0 <= i < j < |res| ==> res[i].0 != res[j].0
  }

  /** `res[k] = v`: replaces the value in place when `k` is a key, else appends. */
  function Put(res: Results, k: string, v: seq<Hit>): (r: Results)
    requires DistinctKeys(res)
    ensures DistinctKeys(r)
    ensures KeysOf(r) == if k in KeysOf(res) then KeysOf(res) else KeysOf(res) + [k]
    ensures forall i :: 0 <= i < |r| ==> r[i].1 == if r[i].0 == k then v else res[i].1
  {
    if k in KeysOf(res) then
      var r := seq(|res|, i requires 0 <= i < |res| => if res[i].0 == k then (k, v) else res[i]);
      assert KeysOf(r) == KeysOf(res);
      r
    else
      var r := res + [(k, v)];
      assert KeysOf(r) == KeysOf(res) + [k];
      r
  }

  /** The details of a QUERY_DATABASE row: the first 100 characters of the query. */
  function QueryDetails(query: string): string {
    "Query: " + PyPrefix(query, 100) + "..."
  }

  /** Whether the query and the formatting of its answer both succeed. */
  predicate Answered(name: string, answer: Option<Answer>) {
    answer.Some? && FormatHits(name, answer.value).Some?
  }

  /** The hits `results[name]` receives: the formatted answer, or [] when the query or the formatting raises. */
  function Outcome(name: string, answer: Option<Answer>): (r: seq<Hit>)
    ensures forall i :: 0 <= i < |r| ==> r[i].sourceDatabase == name
  {
    if Answered(name, answer) then FormatHits(name, answer.value).value else []
  }

  /** One pass of the loop over the requested names. */
  function QueryStep(s: StoreState, res: Results, key: Key, query: string, name: string,
                     search: string -> Option<Answer>, now: string): (r: (StoreState, Results))
    requires DistinctKeys(res)
    ensures DistinctKeys(r.1)
    ensures r.0.entries == s.entries
    ensures Extends(s.log, r.0.log)
  {
    var (loaded, h) := Load(s, key, name, now);
    if h.None? then (loaded, res)
    else if !Answered(name, search(name)) then (loaded, Put(res, name, []))
    else
      (loaded.(log := loaded.log + [AuditRow(now, QueryDatabase, name, QueryDetails(query))]),
       Put(res, name, Outcome(name, search(name))))
  }

  /** The loop over `names`, from an empty result. */
  function Query(s: StoreState, key: Key, query: string, names: seq<string>,
                 search: string -> Option<Answer>, now: string): (r: (StoreState, Results))
    ensures DistinctKeys(r.1)
    ensures r.0.entries == s.entries
    ensures Extends(s.log, r.0.log)
  {
    if names == [] then (s, [])
    else
      var n := |names| - 1;
      var (mid, res) := Query(s, key, query, names[..n], search, now);
      QueryStep(mid, res, key, query, names[n], search, now)
  }

  // ---------------------------------------------------------------------
  // The invariant is kept by every operation
  // ---------------------------------------------------------------------

  lemma CreateValid(s: StoreState, key: Key, name: string, description: string, now: string)
    requires Valid(s, key) && Resolves(name)
    ensures Valid(Create(s, key, name, description, now).0, key)
  {
    var r := Create(s, key, name, description, now).0;
    forall n | n in r.active
      ensures OnDisk(r, n) && Coherent(r, key, n)
    {
      assert n != name || name in s.entries;
    }
  }

  lemma LoadValid(s: StoreState, key: Key, name: string, now: string)
    requires Valid(s, key)
    ensures Valid(Load(s, key, name, now).0, key)
  {
  }

  lemma DeleteValid(s: StoreState, key: Key, name: string, now: string)
    requires Valid(s, key) && IsComponent(name)
    ensures Valid(Delete(s, name, now).0, key)
  {
  }

  /**
   * Deleting under a name for the databases directory itself (such as "")
   * removes every database and the audit file, reports failure and leaves a
   * manager whose invariant no longer holds.
   */
  lemma DeleteDirectoryWipes(s: StoreState, key: Key, name: string, now: string)
    requires Valid(s, key) && NamesDirectory(name)
    ensures var (r, ok) := Delete(s, name, now);
      !ok && r.entries == map[] && r.log == s.log && !Valid(r, key)
  {
  }

  lemma AddValid(s: StoreState, key: Key, name: string, docs: seq<Document>, now: string)
    requires Valid(s, key)
    ensures Valid(Add(s, key, name, docs, now).0, key)
  {
    var (loaded, h) := Load(s, key, name, now);
    LoadValid(s, key, name, now);
    var r := Add(s, key, name, docs, now).0;
    forall n | n in r.active
      ensures OnDisk(r, n) && Coherent(r, key, n)
    {
      if n != name {
        assert n in loaded.active && r.active[n] == loaded.active[n];
        assert r.entries[n] == loaded.entries[n];
      }
    }
  }

  lemma {:induction false} QueryValid(s: StoreState, key: Key, query: string, names: seq<string>,
                                       search: string -> Option<Answer>, now: string)
    requires Valid(s, key)
    ensures Valid(Query(s, key, query, names, search, now).0, key)
  {
    if names != [] {
      var n := |names| - 1;
      QueryValid(s, key, query, names[..n], search, now);
      var (mid, res) := Query(s, key, query, names[..n], search, now);
      LoadValid(mid, key, names[n], now);
    }
  }

  // ---------------------------------------------------------------------
  // What the operations promise together
  // ---------------------------------------------------------------------

  /** A database just created loads, with its fresh metadata and a LOAD_DATABASE row. */
  lemma CreateThenLoad(s: StoreState, key: Key, name: string, description: string, now: string, later: string)
    requires Valid(s, key) && IsComponent(name) && name !in s.entries
    ensures var created := Create(s, key, name, description, now).0;
      var (loaded, h) := Load(created, key, name, later);
      && h == Some(Handle(Some(NewMetadata(name, description, now))))
      && loaded.log == s.log + [AuditRow(now, CreateDatabase, name, "Database created: " + description),
                                AuditRow(later, LoadDatabase, name, "")]
  {
    var created := Create(s, key, name, description, now).0;
    assert name !in s.active;
    assert LoadMetadata(created, key, name) == Some(NewMetadata(name, description, now));
  }

  /** A second load is a cache hit: same handle, nothing changes, no audit row. */
  lemma LoadTwice(s: StoreState, key: Key, name: string, now: string, later: string)
    requires Loadable(s, name)
    ensures var (once, h1) := Load(s, key, name, now);
      Load(once, key, name, later) == (once, h1)
  {
  }

  /** After a successful delete the database no longer loads. */
  lemma DeleteThenLoad(s: StoreState, key: Key, name: string, now: string, later: string)
    requires Resolves(name) && Delete(s, name, now).1
    ensures Load(Delete(s, name, now).0, key, name, later).1 == None
  {
  }

  /** A successful add leaves cache, file and collection size in agreement and logs how many documents were supplied. */
  lemma AddCounts(s: StoreState, key: Key, name: string, docs: seq<Document>, now: string)
    requires Add(s, key, name, docs, now).1
    ensures var r := Add(s, key, name, docs, now).0;
      && OnDisk(r, name) && name in r.active
      && Loadable(s, name)
      && r.entries[name].collection.value == s.entries[name].collection.value + docs
      && r.active[name].metadata.Some?
      && r.active[name].metadata.value["document_count"] == Int(|r.entries[name].collection.value|)
      && Decrypt(key, r.entries[name].metadataFile.value) == r.active[name].metadata
      && r.log[|r.log| - 1] == AuditRow(now, AddDocuments, name, AddedDetails(|docs|))
  {
  }

  /** An add to a database that does not load changes nothing. */
  lemma AddUnloadable(s: StoreState, key: Key, name: string, docs: seq<Document>, now: string)
    requires !Loadable(s, name)
    ensures Add(s, key, name, docs, now) == (s, false)
  {
  }

  /**
   * When the cached metadata is None (the file could not be decrypted with
   * this key), the documents are inserted and stay, yet the call fails, the
   * metadata file is not rewritten and no ADD_DOCUMENTS row is logged.
   */
  lemma AddWithoutMetadata(s: StoreState, key: Key, name: string, docs: seq<Document>, now: string)
    requires Valid(s, key) && OnDisk(s, name)
    requires Load(s, key, name, now).1.value.metadata.None?
    ensures var (r, ok) := Add(s, key, name, docs, now);
      && !ok
      && r.entries[name].collection.value == s.entries[name].collection.value + docs
      && r.entries[name].metadataFile == s.entries[name].metadataFile
      && r.log == Load(s, key, name, now).0.log
  {
  }

  // ---------------------------------------------------------------------
  // list_databases
  // ---------------------------------------------------------------------

  /** The listing holds exactly the non-empty, decryptable metadata of the entries met. */
  lemma {:induction false} ListMembers(s: StoreState, key: Key, listing: seq<string>, m: Metadata)
    ensures m in List(s, key, listing) <==> exists i :: 0 <= i < |listing| && Listed(s, key, listing[i]) == Some(m)
  {
    if listing != [] {
      var n := |listing| - 1;
      ListMembers(s, key, listing[..n], m);
      if m in List(s, key, listing[..n]) {
        var i :| 0 <= i < n && Listed(s, key, listing[..n][i]) == Some(m);
        assert listing[..n][i] == listing[i];
      }
      if exists i :: 0 <= i < |listing| && Listed(s, key, listing[i]) == Some(m) {
        var i :| 0 <= i < |listing| && Listed(s, key, listing[i]) == Some(m);
        if i < n {
          assert listing[..n][i] == listing[i];
        }
      }
    }
  }

  /** `listing` is what `iterdir` yields: every entry of the directory once, in some order. */
  predicate Enumerates(listing: seq<string>, entries: map<string, Entry>) {
    && (forall n :: n in listing ==> n in entries)
    && (forall n :: n in entries ==> n in listing)
    && (forall i, j :: 0 <= i < j < |listing| ==> listing[i] != listing[j])
  }

  /**
   * Over the directory's entries, the listing holds exactly the non-empty,
   * decryptable metadata of the database folders.
   */
  lemma ListComplete(s: StoreState, key: Key, listing: seq<string>, m: Metadata)
    requires Enumerates(listing, s.entries)
    ensures m in List(s, key, listing) <==> exists n :: n in s.entries && Listed(s, key, n) == Some(m)
  {
    ListMembers(s, key, listing, m);
    if exists n :: n in s.entries && Listed(s, key, n) == Some(m) {
      var n :| n in s.entries && Listed(s, key, n) == Some(m);
      var i :| 0 <= i < |listing| && listing[i] == n;
    }
  }

  /** The entries of `listing` that are listed. */
  function ListedNames(s: StoreState, key: Key, listing: seq<string>): set<string> {
    set n | n in listing && Listed(s, key, n).Some?
  }

  /** Over a listing without repeats, one metadata is reported per listed entry. */
  lemma {:induction false} ListCount(s: StoreState, key: Key, listing: seq<string>)
    requires forall i, j :: 0 <= i < j < |listing| ==> listing[i] != listing[j]
    ensures |List(s, key, listing)| == |ListedNames(s, key, listing)|
  {
    if listing != [] {
      var n := |listing| - 1;
      var x := listing[n];
      ListCount(s, key, listing[..n]);
      var before := ListedNames(s, key, listing[..n]);
      assert x !in listing[..n];
      assert x !in before;
      assert listing == listing[..n] + [x];
      if Listed(s, key, x).Some? {
        assert ListedNames(s, key, listing) == before + {x};
      } else {
        assert ListedNames(s, key, listing) == before;
      }
    }
  }

  /**
   * `list_databases` reports each database folder of the directory whose
   * metadata decrypts to a non-empty dictionary once, and nothing else.
   */
  lemma ListOncePerDatabase(s: StoreState, key: Key, listing: seq<string>)
    requires Enumerates(listing, s.entries)
    ensures |List(s, key, listing)| == |set n | n in s.entries && Listed(s, key, n).Some?|
  {
    ListCount(s, key, listing);
    assert ListedNames(s, key, listing) == set n | n in s.entries && Listed(s, key, n).Some?;
  }

  /** A database just created is listed with its fresh metadata. */
  lemma CreateThenList(s: StoreState, key: Key, name: string, description: string, now: string, listing: seq<string>)
    requires IsComponent(name) && name !in s.entries
    requires Enumerates(listing, Create(s, key, name, description, now).0.entries)
    ensures NewMetadata(name, description, now) in List(Create(s, key, name, description, now).0, key, listing)
  {
    var created := Create(s, key, name, description, now).0;
    assert name in listing;
    var i :| 0 <= i < |listing| && listing[i] == name;
    assert "name" in NewMetadata(name, description, now);
    assert Listed(created, key, listing[i]) == Some(NewMetadata(name, description, now));
    ListMembers(created, key, listing, NewMetadata(name, description, now));
  }

  // ---------------------------------------------------------------------
  // query_databases
  // ---------------------------------------------------------------------

  /** The names that load, each once, in order of first request. */
  function Requested(s: StoreState, names: seq<string>): (r: seq<string>)
    ensures |r| <= |names|
  {
    if names == [] then []
    else
      var n := |names| - 1;
      var before := Requested(s, names[..n]);
      if Loadable(s, names[n]) && names[n] !in before then before + [names[n]] else before
  }

  lemma {:induction false} RequestedMembers(s: StoreState, names: seq<string>, x: string)
    ensures x in Requested(s, names) <==> x in names && Loadable(s, x)
  {
    if names != [] {
      var n := |names| - 1;
      RequestedMembers(s, names[..n], x);
      assert names == names[..n] + [names[n]];
    }
  }

  /** Loading during the query never changes which names load. */
  lemma {:induction false} QueryKeepsLoadable(s: StoreState, key: Key, query: string, names: seq<string>,
                                               search: string -> Option<Answer>, now: string, x: string)
    ensures Loadable(Query(s, key, query, names, search, now).0, x) <==> Loadable(s, x)
  {
    if names != [] {
      var n := |names| - 1;
      QueryKeepsLoadable(s, key, query, names[..n], search, now, x);
    }
  }

  /**
   * The result's keys are the requested names that load, each once, in
   * request order: a database that fails to load is absent.
   */
  lemma {:induction false} QueryKeys(s: StoreState, key: Key, query: string, names: seq<string>,
                                      search: string -> Option<Answer>, now: string)
    ensures KeysOf(Query(s, key, query, names, search, now).1) == Requested(s, names)
  {
    if names != [] {
      var n := |names| - 1;
      QueryKeys(s, key, query, names[..n], search, now);
      QueryKeepsLoadable(s, key, query, names[..n], search, now, names[n]);
    }
  }

  /**
   * Each key maps to its database's formatted hits, or to [] when the query
   * raised; every hit is tagged with the database it came from.
   */
  lemma {:induction false} QueryValues(s: StoreState, key: Key, query: string, names: seq<string>,
                                        search: string -> Option<Answer>, now: string)
    ensures OutcomesOf(Query(s, key, query, names, search, now).1, search)
  {
    if names != [] {
      var n := |names| - 1;
      var name := names[n];
      QueryValues(s, key, query, names[..n], search, now);
      var (mid, res) := Query(s, key, query, names[..n], search, now);
      var v := Outcome(name, search(name));
      var h := Load(mid, key, name, now).1;
      assert Answered(name, search(name)) || v == [];
      var out := Query(s, key, query, names, search, now).1;
      assert out == if h.None? then res else Put(res, name, v);
      if h.Some? {
        forall i | 0 <= i < |out|
          ensures out[i].1 == Outcome(out[i].0, search(out[i].0))
        {
          if out[i].0 != name {
            assert KeysOf(out)[i] == out[i].0;
            assert i < |res| && KeysOf(res)[i] == res[i].0;
          }
        }
        assert OutcomesOf(out, search);
      }
    }
  }

  /** Every key holds the outcome of querying its database. */
  predicate OutcomesOf(res: Results, search: string -> Option<Answer>) {
    forall i :: 0 <= i < |res| ==> res[i].1 == Outcome(res[i].0, search(res[i].0))
  }

  /** The QUERY_DATABASE rows of a log, in order. */
  function QueryRows(log: seq<AuditRow>): (r: seq<AuditRow>)
    ensures |r| <= |log|
  {
    if log == [] then []
    else
      var n := |log| - 1;
      QueryRows(log[..n]) + (if log[n].action == QueryDatabase then [log[n]] else [])
  }

  lemma {:induction false} QueryRowsAppend(a: seq<AuditRow>, b: seq<AuditRow>)
    ensures QueryRows(a + b) == QueryRows(a) + QueryRows(b)
  {
    if b != [] {
      var n := |b| - 1;
      QueryRowsAppend(a, b[..n]);
      assert (a + b)[..|a + b| - 1] == a + b[..n];
    } else {
      assert a + b == a;
    }
  }

  /** Every requested name, repeats included, whose database loads and answers. */
  function Answering(s: StoreState, names: seq<string>, search: string -> Option<Answer>): (r: seq<string>)
    ensures |r| <= |names|
  {
    if names == [] then []
    else
      var n := |names| - 1;
      Answering(s, names[..n], search)
        + (if Loadable(s, names[n]) && Answered(names[n], search(names[n])) then [names[n]] else [])
  }

  /** The QUERY_DATABASE rows for the databases `dbs`, in order. */
  function QueryRowsFor(dbs: seq<string>, query: string, now: string): (r: seq<AuditRow>)
    ensures |r| == |dbs|
  {
    if dbs == [] then []
    else
      var n := |dbs| - 1;
      QueryRowsFor(dbs[..n], query, now) + [AuditRow(now, QueryDatabase, dbs[n], QueryDetails(query))]
  }

  /** One pass of the loop logs a QUERY_DATABASE row exactly when the database loads and answers. */
  lemma QueryStepRows(mid: StoreState, res: Results, key: Key, query: string, name: string,
                      search: string -> Option<Answer>, now: string)
    requires DistinctKeys(res)
    ensures QueryRows(QueryStep(mid, res, key, query, name, search, now).0.log) ==
      QueryRows(mid.log) +
      (if Loadable(mid, name) && Answered(name, search(name))
       then [AuditRow(now, QueryDatabase, name, QueryDetails(query))] else [])
  {
    var loaded := Load(mid, key, name, now).0;
    LoadRows(mid, key, name, now);
    if Loadable(mid, name) && Answered(name, search(name)) {
      var row := AuditRow(now, QueryDatabase, name, QueryDetails(query));
      QueryRowsAppend(loaded.log, [row]);
      assert [row][..0] == [];
    }
  }

  /** Loading logs no QUERY_DATABASE row. */
  lemma LoadRows(s: StoreState, key: Key, name: string, now: string)
    ensures QueryRows(Load(s, key, name, now).0.log) == QueryRows(s.log)
  {
    if name !in s.active && Loadable(s, name) {
      var row := AuditRow(now, LoadDatabase, name, "");
      QueryRowsAppend(s.log, [row]);
      assert [row][..0] == [];
    }
  }

  /** One QUERY_DATABASE row is logged per database that loaded and answered, in request order. */
  lemma {:induction false} QueryLogsAnswers(s: StoreState, key: Key, query: string, names: seq<string>,
                                             search: string -> Option<Answer>, now: string)
    ensures QueryRows(Query(s, key, query, names, search, now).0.log)
      == QueryRows(s.log) + QueryRowsFor(Answering(s, names, search), query, now)
  {
    if names == [] {
      assert QueryRowsFor([], query, now) == [];
    } else {
      var n := |names| - 1;
      QueryLogsAnswers(s, key, query, names[..n], search, now);
      QueryLogsNext(s, key, query, names, search, now);
    }
  }

  /** The step of `QueryLogsAnswers`: the last requested name. */
  lemma QueryLogsNext(s: StoreState, key: Key, query: string, names: seq<string>,
                      search: string -> Option<Answer>, now: string)
    requires names != []
    requires QueryRows(Query(s, key, query, names[..|names| - 1], search, now).0.log)
      == QueryRows(s.log) + QueryRowsFor(Answering(s, names[..|names| - 1], search), query, now)
    ensures QueryRows(Query(s, key, query, names, search, now).0.log)
      == QueryRows(s.log) + QueryRowsFor(Answering(s, names, search), query, now)
  {
    var n := |names| - 1;
    var name := names[n];
    QueryRowsLast(s, key, query, names, search, now);
    var ans := Answering(s, names[..n], search);
    var whole := QueryRows(Query(s, key, query, names, search, now).0.log);
    var prefix := QueryRows(Query(s, key, query, names[..n], search, now).0.log);
    if Loadable(s, name) && Answered(name, search(name)) {
      var row := AuditRow(now, QueryDatabase, name, QueryDetails(query));
      assert Answering(s, names, search) == ans + [name];
      QueryRowsForNext(ans, name, query, now);
      Chain(whole, prefix, QueryRows(s.log), QueryRowsFor(ans, query, now), [row]);
    } else {
      assert Answering(s, names, search) == ans;
      Chain(whole, prefix, QueryRows(s.log), QueryRowsFor(ans, query, now), []);
      assert QueryRowsFor(ans, query, now) + [] == QueryRowsFor(ans, query, now);
    }
  }

  lemma Chain<T>(whole: seq<T>, prefix: seq<T>, base: seq<T>, mid: seq<T>, tail: seq<T>)
    requires whole == prefix + tail && prefix == base + mid
    ensures whole == base + (mid + tail)
  {
  }

  /** The rows the last pass of the loop adds. */
  lemma QueryRowsLast(s: StoreState, key: Key, query: string, names: seq<string>,
                      search: string -> Option<Answer>, now: string)
    requires names != []
    ensures var name := names[|names| - 1];
      QueryRows(Query(s, key, query, names, search, now).0.log)
      == QueryRows(Query(s, key, query, names[..|names| - 1], search, now).0.log)
         + (if Loadable(s, name) && Answered(name, search(name))
            then [AuditRow(now, QueryDatabase, name, QueryDetails(query))] else [])
  {
    var n := |names| - 1;
    QueryKeepsLoadable(s, key, query, names[..n], search, now, names[n]);
    var (mid, res) := Query(s, key, query, names[..n], search, now);
    QueryStepRows(mid, res, key, query, names[n], search, now);
  }

  lemma QueryRowsForNext(dbs: seq<string>, name: string, query: string, now: string)
    ensures QueryRowsFor(dbs + [name], query, now)
      == QueryRowsFor(dbs, query, now) + [AuditRow(now, QueryDatabase, name, QueryDetails(query))]
  {
    assert (dbs + [name])[..|dbs|] == dbs;
  }

  // ---------------------------------------------------------------------
  // The manager object
  // ---------------------------------------------------------------------

  class DatabaseManager {
    /** The entries of the databases directory. */
    var entries: map<string, Entry>
    /** `active_databases`: the cache of loaded databases. */
    var active: map<string, Handle>
    /** The audit rows appended during this session. */
    var log: seq<AuditRow>
    /** The audit file's lines before this session: the header when the file was absent. */
    const priorAudit: seq<string>
    /** The key derived from the master password. */
    const key: Key

    function State(): StoreState
      reads this
    {
      StoreState(entries, active, log)
    }

    /** The audit file as it stands: the earlier lines, then one line per row. */
    function AuditFile(): (lines: seq<string>)
      reads this
      ensures |lines| == |priorAudit| + |log|
      ensures lines[..|priorAudit|] == priorAudit
      ensures forall i :: 0 <= i < |log| ==> lines[|priorAudit| + i] == AuditLine(log[i])
      ensures forall i ::
        (0 <= i < |log| && Plain(log[i].timestamp) && Plain(log[i].database) && Plain(log[i].details))
        ==> lines[|priorAudit| + i] == AsWrittenLine(log[i])
    {
      forall i | 0 <= i < |log| && Plain(log[i].timestamp) && Plain(log[i].database) && Plain(log[i].details) {
        AsWrittenAgrees(log[i]);
      }
      priorAudit + seq(|log|, i requires 0 <= i < |log| reads this => AuditLine(log[i]))
    }

    /**
     * Opens the databases directory `dir` (every entry but the audit file)
     * with the audit file's lines, if it exists.
     */
    constructor(dir: map<string, Entry>, auditFile: Option<seq<string>>, masterPassword: string)
      requires AuditFileName !in dir && forall n :: n in dir ==> IsComponent(n)
      ensures State() == Initial(dir)
      ensures priorAudit == if auditFile.None? then [Header] else auditFile.value
      ensures key == DeriveKey(masterPassword)
      ensures Valid(State(), key)
    {
      assert Initial(dir).entries == dir[AuditFileName := PlainFile];
      entries := dir[AuditFileName := PlainFile];
      active := map[];
      log := [];
      priorAudit := if auditFile.None? then [Header] else auditFile.value;
      key := DeriveKey(masterPassword);
    }

    /** `_log_audit`: appends one row. */
    method LogAudit(action: Action, database: string, details: string, now: string)
      modifies this
      ensures log == old(log) + [AuditRow(now, action, database, details)]
      ensures entries == old(entries) && active == old(active)
    {
      log := log + [AuditRow(now, action, database, details)];
    }

    method CreateDatabase(name: string, description: string, now: string) returns (ok: bool)
      requires Valid(State(), key) && Resolves(name)
      modifies this
      ensures (State(), ok) == Create(old(State()), key, name, description, now)
      ensures Valid(State(), key)
    {
      CreateValid(State(), key, name, description, now);
      ComponentOrDirectory(name);
      if NamesDirectory(name) || name in entries {
        return false;
      }
      var metadata := NewMetadata(name, description, now);
      entries := entries[name := Database(Some(Encrypt(key, metadata)), Some([]))];
      LogAudit(Action.CreateDatabase, name, "Database created: " + description, now);
      ok := true;
    }

    method LoadDatabase(name: string, now: string) returns (db: Option<Handle>)
      requires Valid(State(), key)
      modifies this
      ensures (State(), db) == Load(old(State()), key, name, now)
      ensures Valid(State(), key)
    {
      LoadValid(State(), key, name, now);
      if name in active {
        return Some(active[name]);
      }
      if !(IsComponent(name) && name in entries && entries[name].Database? && entries[name].collection.Some?) {
        return None;
      }
      var h := Handle(LoadMetadata(State(), key, name));
      active := active[name := h];
      LogAudit(Action.LoadDatabase, name, "", now);
      db := Some(h);
    }

    method DeleteDatabase(name: string, now: string) returns (ok: bool)
      requires Valid(State(), key) && Resolves(name)
      modifies this
      ensures (State(), ok) == Delete(old(State()), name, now)
      ensures IsComponent(name) ==> Valid(State(), key)
    {
      ComponentOrDirectory(name);
      active := active - {name};
      if NamesDirectory(name) {
        entries := map[];
        return false;
      }
      DeleteValid(old(State()), key, name, now);
      if name in entries {
        if entries[name].PlainFile? {
          return false;
        }
        entries := entries - {name};
      } else {
        assert entries - {name} == entries;
      }
      LogAudit(Action.DeleteDatabase, name, "", now);
      ok := true;
    }

    /** `_update_database_metadata`: rewrites the folder's `metadata.enc`. */
    method UpdateMetadata(name: string, metadata: Metadata)
      modifies this
      ensures name in old(entries) && old(entries)[name].Database? ==>
        entries == old(entries)[name := old(entries)[name].(metadataFile := Some(Encrypt(key, metadata)))]
      ensures !(name in old(entries) && old(entries)[name].Database?) ==> entries == old(entries)
      ensures active == old(active) && log == old(log)
    {
      if name in entries && entries[name].Database? {
        entries := entries[name := entries[name].(metadataFile := Some(Encrypt(key, metadata)))];
      }
    }

    method AddDocuments(name: string, documents: seq<Document>, now: string) returns (ok: bool)
      requires Valid(State(), key)
      modifies this
      ensures (State(), ok) == Add(old(State()), key, name, documents, now)
      ensures Valid(State(), key)
    {
      AddValid(State(), key, name, documents, now);
      var db := LoadDatabase(name, now);
      if db.None? || !(name in entries && entries[name].Database? && entries[name].collection.Some?) {
        return false;
      }
      var collection := entries[name].collection.value + documents;
      entries := entries[name := entries[name].(collection := Some(collection))];
      if db.value.metadata.None? {
        return false;
      }
      var metadata := db.value.metadata.value["document_count" := Int(|collection|)];
      active := active[name := Handle(Some(metadata))];
      UpdateMetadata(name, metadata);
      LogAudit(Action.AddDocuments, name, AddedDetails(|documents|), now);
      ok := true;
    }

    /** `list_databases` over the directory's entries in the order `listing` gives them. */
    method ListDatabases(listing: seq<string>) returns (databases: seq<Metadata>)
      requires Enumerates(listing, entries)
      ensures databases == List(State(), key, listing)
      ensures forall m :: m in databases <==> exists n :: n in entries && Listed(State(), key, n) == Some(m)
    {
      databases := [];
      for i := 0 to |listing|
        invariant databases == List(State(), key, listing[..i])
      {
        assert listing[..i + 1][..i] == listing[..i];
        var name := listing[i];
        if name in entries && entries[name].Database? && entries[name].metadataFile.Some? {
          var metadata := LoadMetadata(State(), key, name);
          if metadata.Some? && metadata.value != map[] {
            databases := databases + [metadata.value];
          }
        }
      }
      assert listing[..|listing|] == listing;
      forall m ensures m in databases <==> exists n :: n in entries && Listed(State(), key, n) == Some(m) {
        ListComplete(State(), key, listing, m);
      }
    }

    method QueryDatabases(query: string, names: seq<string>, search: string -> Option<Answer>, now: string)
      returns (results: Results)
      requires Valid(State(), key)
      modifies this
      ensures (State(), results) == Query(old(State()), key, query, names, search, now)
      ensures Valid(State(), key)
    {
      results := [];
      for i := 0 to |names|
        invariant (State(), results) == Query(old(State()), key, query, names[..i], search, now)
        invariant Valid(State(), key)
      {
        assert names[..i + 1][..i] == names[..i];
        var name := names[i];
        var db := LoadDatabase(name, now);
        if db.None? {
          continue;
        }
        var answer := search(name);
        if answer.None? || FormatHits(name, answer.value).None? {
          results := Put(results, name, []);
        } else {
          results := Put(results, name, FormatHits(name, answer.value).value);
          LogAudit(Action.QueryDatabase, name, QueryDetails(query), now);
        }
      }
      assert names[..|names|] == names;
    }
  }
}
