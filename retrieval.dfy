/**
 * The retrieval pipeline: answering a query from one database or from
 * several, and choosing the language model.
 *
 * The hits come from the database manager's `query_databases` (a `Results`
 * value of module Store). From several databases they are concatenated in
 * the order of the results, stably sorted by distance and cut to the
 * configured number of chunks. Prompt formatting and generation are inputs:
 * `format` stands for `str.format` on the model's prompt template (None where
 * it raises), `generate` for the generator's `run` (its replies, None where it
 * raises). Confidence is kept in hundredths.
 */
module Retrieval {
  import opened Wrappers
  import opened Text
  import opened Records
  import opened Sorting
  import opened Store

  /** An entry of the configuration's model list. */
  datatype ModelConfig = ModelConfig(name: string, filePath: string, contextLength: Option<nat>,
                                     promptTemplate: string, systemMessage: string)

  /** A llama.cpp generator over a model file. */
  datatype Generator = Generator(modelPath: string, contextLength: nat)

  /** The generator `load_model` builds: the context length defaults to 4096. */
  function GeneratorFor(m: ModelConfig): (g: Generator)
    ensures g.modelPath == m.filePath
    ensures g.contextLength == if m.contextLength.Some? then m.contextLength.value else 4096
  {
    Generator(m.filePath, if m.contextLength.Some? then m.contextLength.value else 4096)
  }

  /** Where the source raises; the exception's text is not modelled. */
  datatype Failure = NoDatabaseManager | NoModelLoaded | UnorderedDistances | PromptFormatFailed | GenerationFailed

  /** One source shown under the answer. */
  datatype Source = Source(database: string, contentPreview: string, metadata: Metadata)

  /**
   * The reply dictionary. `databasesQueried` is absent where the source's
   * dictionary has no such key; `failure` says which step raised, for the
   * error replies.
   */
  datatype Reply = Reply(answer: string, sources: seq<Source>, confidence: nat, modelUsed: string,
                         databasesQueried: Option<seq<string>>, failure: Option<Failure>)

  const NoDocumentsSingle: string := "No relevant documents found in the database."
  const NoDocumentsMulti: string := "No relevant documents found in any of the selected databases."
  const NoResponse: string := "No response generated."
  const SingleErrorPrefix: string := "Error occurred during query: "
  const MultiErrorPrefix: string := "Error occurred during multi-database query: "
  const PreviewLength: nat := 200

  // ---------------------------------------------------------------------
  // Sources, confidence, answers
  // ---------------------------------------------------------------------

  /** The first 200 characters followed by "..." when the content is longer, else the whole content. */
  function Preview(content: string): (r: string)
    ensures |content| <= PreviewLength ==> r == content
    ensures |content| > PreviewLength ==> |r| == PreviewLength + 3 && r[..PreviewLength] == content[..PreviewLength]
    ensures |r| <= PreviewLength + 3
  {
    if |content| > PreviewLength then content[..PreviewLength] + "..." else content
  }

  function SourceOf(h: Hit): Source {
    Source(h.sourceDatabase, Preview(h.content), h.metadata)
  }

  /** One source per hit, in order. */
  function SourcesOf(hits: seq<Hit>): (r: seq<Source>)
    ensures |r| == |hits|
    ensures forall i :: 0 <= i < |hits| ==>
      r[i].database == hits[i].sourceDatabase && r[i].metadata == hits[i].metadata
      && r[i].contentPreview == Preview(hits[i].content)
  {
    seq(|hits|, i requires 0 <= i < |hits| => SourceOf(hits[i]))
  }

  /** `min(0.2 * n, 1.0)` in hundredths. */
  function SingleConfidence(n: nat): (c: nat)
    ensures c <= 100
    ensures c == 100 <==> n >= 5
    ensures n < 5 ==> c == 20 * n
  {
    if 20 * n < 100 then 20 * n else 100
  }

  /** `min(0.15 * hits + 0.1 * databases, 1.0)` in hundredths. */
  function MultiConfidence(hits: nat, databases: nat): (c: nat)
    ensures c <= 100
    ensures c == 0 <==> hits == 0 && databases == 0
  {
    if 15 * hits + 10 * databases < 100 then 15 * hits + 10 * databases else 100
  }

  /** More hits or more requested databases never lower the confidence. */
  lemma MultiConfidenceMonotone(h1: nat, d1: nat, h2: nat, d2: nat)
    requires h1 <= h2 && d1 <= d2
    ensures MultiConfidence(h1, d1) <= MultiConfidence(h2, d2)
  {
  }

  lemma SingleConfidenceMonotone(n1: nat, n2: nat)
    requires n1 <= n2
    ensures SingleConfidence(n1) <= SingleConfidence(n2)
  {
  }

  /** `replies[0]` when there is a reply, else the fixed text. */
  function FirstReply(replies: seq<string>): (r: string)
    ensures replies != [] ==> r == replies[0]
    ensures replies == [] ==> r == NoResponse
  {
    if replies != [] then replies[0] else NoResponse
  }

  function ModelName(model: Option<ModelConfig>): string {
    if model.Some? then model.value.name else "None"
  }

  /** The reply of the `except` branch: no sources and no confidence. */
  function ErrorReply(prefix: string, model: Option<ModelConfig>, queried: Option<seq<string>>, f: Failure): (r: Reply)
    ensures r.sources == [] && r.confidence == 0 && r.answer == prefix && r.failure == Some(f)
  {
    Reply(prefix, [], 0, ModelName(model), queried, Some(f))
  }

  // ---------------------------------------------------------------------
  // Merge, rank, truncate
  // ---------------------------------------------------------------------

  /** How many hits the results hold together. */
  function HitCount(res: Results): nat {
    if res == [] then 0 else HitCount(res[..|res| - 1]) + |res[|res| - 1].1|
  }

  /** The hit lists of the results, concatenated in result order: as many hits as the results hold. */
  function Merge(res: Results): (r: seq<Hit>)
    ensures |r| == HitCount(res)
  {
    if res == [] then []
    else Merge(res[..|res| - 1]) + res[|res| - 1].1
  }

  lemma {:induction false} MergeMembers(res: Results, h: Hit)
    ensures h in Merge(res) <==> exists i :: 0 <= i < |res| && h in res[i].1
  {
    if res != [] {
      var n := |res| - 1;
      MergeMembers(res[..n], h);
      if exists i :: 0 <= i < n && h in res[..n][i].1 {
        var i :| 0 <= i < n && h in res[..n][i].1;
        assert res[..n][i] == res[i];
      }
      if exists i :: 0 <= i < |res| && h in res[i].1 {
        var i :| 0 <= i < |res| && h in res[i].1;
        if i < n {
          assert res[..n][i] == res[i];
        }
      }
    }
  }

  /** The sort key: the distance (only compared when every hit has one). */
  function Distance(h: Hit): real {
    if h.distance.Some? then h.distance.value else 0.0
  }

  predicate ByDistance(a: Hit, b: Hit) {
    Distance(a) <= Distance(b)
  }

  lemma ByDistanceOrders()
    ensures TotalPreorder(ByDistance)
  {
  }

  /**
   * Whether `list.sort` can order the hits: with two or more, a missing
   * distance makes a comparison with None, which raises.
   */
  predicate Comparable(hits: seq<Hit>) {
    |hits| <= 1 || forall i :: 0 <= i < |hits| ==> hits[i].distance.Some?
  }

  /** The hits sorted by distance (stable) and cut to `maxChunks` (a Python slice bound). */
  function Top(hits: seq<Hit>, maxChunks: int): (r: seq<Hit>)
    ensures |r| <= |hits|
    ensures 0 <= maxChunks ==> |r| <= maxChunks
    ensures maxChunks >= |hits| ==> |r| == |hits|
  {
    ByDistanceOrders();
    SortByCorrect(hits, ByDistance);
    assert |multiset(SortBy(hits, ByDistance))| == |multiset(hits)|;
    PyPrefix(SortBy(hits, ByDistance), maxChunks)
  }

  /**
   * The kept hits are drawn from the hits, in non-decreasing distance, and
   * none of the dropped hits is closer than a kept one.
   */
  lemma TopRanks(hits: seq<Hit>, maxChunks: int)
    ensures multiset(Top(hits, maxChunks)) <= multiset(hits)
    ensures maxChunks >= |hits| ==> multiset(Top(hits, maxChunks)) == multiset(hits)
    ensures SortedBy(Top(hits, maxChunks), ByDistance)
    ensures var ranked := SortBy(hits, ByDistance);
      var top := Top(hits, maxChunks);
      |top| <= |ranked| && top == ranked[..|top|] &&
      forall i, j :: 0 <= i < |top| <= j < |ranked| ==> Distance(top[i]) <= Distance(ranked[j])
  {
    ByDistanceOrders();
    var ranked := SortBy(hits, ByDistance);
    SortByCorrect(hits, ByDistance);
    var top := Top(hits, maxChunks);
    assert ranked == top + ranked[|top|..];
    assert multiset(ranked) == multiset(top) + multiset(ranked[|top|..]);
  }

  // ---------------------------------------------------------------------
  // Replies
  // ---------------------------------------------------------------------

  /** `db_results.get(name)`. */
  function Lookup(res: Results, name: string): (r: Option<seq<Hit>>)
    ensures r.Some? <==> name in KeysOf(res)
    ensures r.Some? ==> exists i :: 0 <= i < |res| && res[i] == (name, r.value)
  {
    if res == [] then None
    else if res[0].0 == name then Some(res[0].1)
    else
      assert KeysOf(res) == [res[0].0] + KeysOf(res[1..]);
      var r := Lookup(res[1..], name);
      if r.Some? then
        var i :| 0 <= i < |res[1..]| && res[1..][i] == (name, r.value);
        assert res[i + 1] == (name, r.value);
        r
      else r
  }

  /** The hits' texts. */
  function Contents(hits: seq<Hit>): (r: seq<string>)
    ensures |r| == |hits| && forall i :: 0 <= i < |hits| ==> r[i] == hits[i].content
  {
    seq(|hits|, i requires 0 <= i < |hits| => hits[i].content)
  }

  /** The hits as the several-database context shows them. */
  function LabelledAll(hits: seq<Hit>): (r: seq<string>)
    ensures |r| == |hits| && forall i :: 0 <= i < |hits| ==> r[i] == Labelled(hits[i])
  {
    seq(|hits|, i requires 0 <= i < |hits| => Labelled(hits[i]))
  }

  /** The context of the one-database prompt: the hits' texts, one per line. */
  function SingleContext(hits: seq<Hit>): string {
    Join(Contents(hits), "\n")
  }

  /** One hit as the several-database context shows it: its database's name, then its text. */
  function Labelled(h: Hit): string {
    "Source: " + h.sourceDatabase + "\n" + h.content
  }

  /** The context of the several-database prompt: each hit under its database's name. */
  function MultiContext(hits: seq<Hit>): string {
    Join(LabelledAll(hits), "\n\n")
  }

  /** Every hit's text is in the one-database context. */
  lemma SingleContextHolds(hits: seq<Hit>, i: nat)
    requires i < |hits|
    ensures exists p :: OccursAt(SingleContext(hits), hits[i].content, p)
  {
    JoinHolds(Contents(hits), "\n", i);
    var p :| OccursAt(Join(Contents(hits), "\n"), Contents(hits)[i], p);
    assert OccursAt(SingleContext(hits), hits[i].content, p);
  }

  /** Every hit, under its database's name, is in the several-database context. */
  lemma MultiContextHolds(hits: seq<Hit>, i: nat)
    requires i < |hits|
    ensures exists p :: OccursAt(MultiContext(hits), "Source: " + hits[i].sourceDatabase + "\n" + hits[i].content, p)
  {
    JoinHolds(LabelledAll(hits), "\n\n", i);
    var p :| OccursAt(Join(LabelledAll(hits), "\n\n"), LabelledAll(hits)[i], p);
    assert OccursAt(MultiContext(hits), Labelled(hits[i]), p);
  }

  /** `prompt_template.format(...)` of the one-database path, with the hits as context. */
  function SinglePrompt(m: ModelConfig, hits: seq<Hit>, query: string,
                        format: (string, string, string) -> Option<string>): Option<string>
  {
    format(m.promptTemplate, m.systemMessage + "\n\nContext:\n" + SingleContext(hits), query)
  }

  /** `prompt_template.format(...)` of the several-database path, with the kept hits as context. */
  function MultiPrompt(m: ModelConfig, top: seq<Hit>, query: string,
                       format: (string, string, string) -> Option<string>): Option<string>
  {
    format(m.promptTemplate, m.systemMessage + "\n\nContext from multiple sources:\n" + MultiContext(top), query)
  }

  /**
   * `query_single_database`. `results` is what the manager's query returned
   * (None when no manager has been set up, which raises). The hits are used
   * as returned: not re-sorted, not cut.
   */
  function SingleReply(model: Option<ModelConfig>, generator: Option<Generator>, query: string, name: string,
                       results: Option<Results>,
                       format: (string, string, string) -> Option<string>,
                       generate: (Generator, string) -> Option<seq<string>>): (r: Reply)
    ensures r.confidence <= 100
    ensures r.failure.None? ==> model.Some? && r.modelUsed == model.value.name
    ensures r.failure.Some? ==> r.sources == [] && r.confidence == 0 && r.answer == SingleErrorPrefix
  {
    if results.None? then ErrorReply(SingleErrorPrefix, model, None, NoDatabaseManager)
    else
      var hits := Lookup(results.value, name);
      if model.None? then ErrorReply(SingleErrorPrefix, model, None, NoModelLoaded)
      else if hits.None? || hits.value == [] then Reply(NoDocumentsSingle, [], 0, model.value.name, None, None)
      else
        var prompt := SinglePrompt(model.value, hits.value, query, format);
        if prompt.None? then ErrorReply(SingleErrorPrefix, model, None, PromptFormatFailed)
        else if generator.None? || generate(generator.value, prompt.value).None? then
          ErrorReply(SingleErrorPrefix, model, None, GenerationFailed)
        else
          Reply(FirstReply(generate(generator.value, prompt.value).value), SourcesOf(hits.value),
                SingleConfidence(|hits.value|), model.value.name, Some([name]), None)
  }

  /**
   * `query_multiple_databases`: merge, sort by distance, keep `maxChunks`,
   * answer from those.
   */
  function MultiReply(model: Option<ModelConfig>, generator: Option<Generator>, maxChunks: int, query: string,
                      names: seq<string>, results: Option<Results>,
                      format: (string, string, string) -> Option<string>,
                      generate: (Generator, string) -> Option<seq<string>>): (r: Reply)
    ensures r.databasesQueried == Some(names)
    ensures r.confidence <= 100
    ensures r.failure.None? ==> model.Some? && r.modelUsed == model.value.name
    ensures r.failure.Some? ==> r.sources == [] && r.confidence == 0 && r.answer == MultiErrorPrefix
  {
    if results.None? then ErrorReply(MultiErrorPrefix, model, Some(names), NoDatabaseManager)
    else
      var hits := Merge(results.value);
      if hits == [] then
        if model.None? then ErrorReply(MultiErrorPrefix, model, Some(names), NoModelLoaded)
        else Reply(NoDocumentsMulti, [], 0, model.value.name, Some(names), None)
      else if !Comparable(hits) then ErrorReply(MultiErrorPrefix, model, Some(names), UnorderedDistances)
      else if model.None? then ErrorReply(MultiErrorPrefix, model, Some(names), NoModelLoaded)
      else
        var top := Top(hits, maxChunks);
        var prompt := MultiPrompt(model.value, top, query, format);
        if prompt.None? then ErrorReply(MultiErrorPrefix, model, Some(names), PromptFormatFailed)
        else if generator.None? || generate(generator.value, prompt.value).None? then
          ErrorReply(MultiErrorPrefix, model, Some(names), GenerationFailed)
        else
          Reply(FirstReply(generate(generator.value, prompt.value).value), SourcesOf(top),
                MultiConfidence(|top|, |names|), model.value.name, Some(names), None)
  }

  // ---------------------------------------------------------------------
  // What the replies promise
  // ---------------------------------------------------------------------

  /**
   * When the database's result is missing or empty, the one-database reply is
   * the fixed answer with no sources and no confidence, and it is the same
   * whatever the formatter and the generator would do: neither is called.
   */
  lemma SingleNoDocuments(model: Option<ModelConfig>, generator: Option<Generator>, query: string, name: string,
                          results: Option<Results>,
                          format: (string, string, string) -> Option<string>,
                          generate: (Generator, string) -> Option<seq<string>>,
                          otherFormat: (string, string, string) -> Option<string>,
                          otherGenerate: (Generator, string) -> Option<seq<string>>)
    requires results.Some? && model.Some?
    requires Lookup(results.value, name).None? || Lookup(results.value, name).value == []
    ensures var r := SingleReply(model, generator, query, name, results, format, generate);
      && r == Reply(NoDocumentsSingle, [], 0, model.value.name, None, None)
      && r == SingleReply(model, generator, query, name, results, otherFormat, otherGenerate)
  {
  }

  /**
   * With documents found, the one-database reply succeeds exactly when a
   * model and its generator are loaded, the prompt formats and generation
   * succeeds. Its answer is then the first reply generated for the prompt
   * built from the database's hits, its sources are those hits in order, and
   * its confidence is `SingleConfidence` of their number.
   */
  lemma SingleAnswered(model: Option<ModelConfig>, generator: Option<Generator>, query: string, name: string,
                       results: Option<Results>,
                       format: (string, string, string) -> Option<string>,
                       generate: (Generator, string) -> Option<seq<string>>)
    requires results.Some? && Lookup(results.value, name).Some? && Lookup(results.value, name).value != []
    ensures var r := SingleReply(model, generator, query, name, results, format, generate);
      var hits := Lookup(results.value, name).value;
      r.failure.None? <==>
        && model.Some? && generator.Some?
        && SinglePrompt(model.value, hits, query, format).Some?
        && generate(generator.value, SinglePrompt(model.value, hits, query, format).value).Some?
    ensures var r := SingleReply(model, generator, query, name, results, format, generate);
      var hits := Lookup(results.value, name).value;
      r.failure.None? ==>
        && r.answer == FirstReply(generate(generator.value, SinglePrompt(model.value, hits, query, format).value).value)
        && r.sources == SourcesOf(hits)
        && r.confidence == SingleConfidence(|hits|)
        && r.databasesQueried == Some([name])
  {
  }

  /**
   * When no database returned a hit, the several-database reply is the fixed
   * answer with no sources and no confidence, the same whatever the formatter
   * and the generator would do.
   */
  lemma MultiNoHits(model: Option<ModelConfig>, generator: Option<Generator>, maxChunks: int, query: string,
                    names: seq<string>, results: Option<Results>,
                    format: (string, string, string) -> Option<string>,
                    generate: (Generator, string) -> Option<seq<string>>,
                    otherFormat: (string, string, string) -> Option<string>,
                    otherGenerate: (Generator, string) -> Option<seq<string>>)
    requires results.Some? && model.Some? && Merge(results.value) == []
    ensures var r := MultiReply(model, generator, maxChunks, query, names, results, format, generate);
      && r == Reply(NoDocumentsMulti, [], 0, model.value.name, Some(names), None)
      && r == MultiReply(model, generator, maxChunks, query, names, results, otherFormat, otherGenerate)
  {
  }

  /**
   * With hits merged, the several-database reply succeeds exactly when the
   * hits can be ordered, a model and its generator are loaded, the prompt
   * formats and generation succeeds. Its answer is then the first reply
   * generated for the prompt built from the kept hits, its sources are the
   * kept hits (the closest `maxChunks`, in distance order), and its
   * confidence is `MultiConfidence` of their number and the number of
   * requested databases.
   */
  lemma MultiAnswered(model: Option<ModelConfig>, generator: Option<Generator>, maxChunks: int, query: string,
                      names: seq<string>, results: Option<Results>,
                      format: (string, string, string) -> Option<string>,
                      generate: (Generator, string) -> Option<seq<string>>)
    requires results.Some? && Merge(results.value) != []
    ensures var r := MultiReply(model, generator, maxChunks, query, names, results, format, generate);
      var top := Top(Merge(results.value), maxChunks);
      r.failure.None? <==>
        && Comparable(Merge(results.value)) && model.Some? && generator.Some?
        && MultiPrompt(model.value, top, query, format).Some?
        && generate(generator.value, MultiPrompt(model.value, top, query, format).value).Some?
    ensures var r := MultiReply(model, generator, maxChunks, query, names, results, format, generate);
      var top := Top(Merge(results.value), maxChunks);
      r.failure.None? ==>
        && r.answer == FirstReply(generate(generator.value, MultiPrompt(model.value, top, query, format).value).value)
        && r.sources == SourcesOf(top)
        && r.confidence == MultiConfidence(|top|, |names|)
  {
  }

  // ---------------------------------------------------------------------
  // Where the answers come from
  // ---------------------------------------------------------------------

  /**
   * Every hit merged from the manager's results was found in a requested
   * database that loads, and is one of that database's formatted hits.
   */
  lemma MergedFromRequested(s: StoreState, key: Key, query: string, names: seq<string>,
                            search: string -> Option<Answer>, now: string, h: Hit)
    requires h in Merge(Query(s, key, query, names, search, now).1)
    ensures h.sourceDatabase in names && Loadable(s, h.sourceDatabase)
    ensures h in Outcome(h.sourceDatabase, search(h.sourceDatabase))
  {
    var res := Query(s, key, query, names, search, now).1;
    MergeMembers(res, h);
    var i :| 0 <= i < |res| && h in res[i].1;
    QueryValues(s, key, query, names, search, now);
    assert res[i].1 == Outcome(res[i].0, search(res[i].0));
    QueryKeys(s, key, query, names, search, now);
    assert KeysOf(res)[i] == res[i].0;
    RequestedMembers(s, names, res[i].0);
  }

  /**
   * The sources of a several-database reply name requested databases that
   * load, and there are at most `maxChunks` of them.
   */
  lemma MultiSourcesFromRequested(s: StoreState, key: Key, query: string, names: seq<string>,
                                  search: string -> Option<Answer>, now: string,
                                  model: Option<ModelConfig>, generator: Option<Generator>, maxChunks: int,
                                  format: (string, string, string) -> Option<string>,
                                  generate: (Generator, string) -> Option<seq<string>>)
    ensures var r := MultiReply(model, generator, maxChunks, query, names,
                                Some(Query(s, key, query, names, search, now).1), format, generate);
      && (0 <= maxChunks ==> |r.sources| <= maxChunks)
      && forall k :: 0 <= k < |r.sources| ==> r.sources[k].database in names && Loadable(s, r.sources[k].database)
  {
    var hits := Merge(Query(s, key, query, names, search, now).1);
    var r := MultiReply(model, generator, maxChunks, query, names,
                        Some(Query(s, key, query, names, search, now).1), format, generate);
    if r.sources != [] {
      var top := Top(hits, maxChunks);
      assert r.sources == SourcesOf(top);
      TopRanks(hits, maxChunks);
      forall k | 0 <= k < |r.sources|
        ensures r.sources[k].database in names && Loadable(s, r.sources[k].database)
      {
        assert top[k] in multiset(top);
        assert top[k] in hits;
        MergedFromRequested(s, key, query, names, search, now, top[k]);
      }
    }
  }

  /**
   * A one-database reply with sources answers from that database's own
   * formatted hits, all of them, and the database loads.
   */
  lemma SingleSourcesFromDatabase(s: StoreState, key: Key, query: string, name: string,
                                  search: string -> Option<Answer>, now: string,
                                  model: Option<ModelConfig>, generator: Option<Generator>,
                                  format: (string, string, string) -> Option<string>,
                                  generate: (Generator, string) -> Option<seq<string>>)
    ensures var r := SingleReply(model, generator, query, name,
                                 Some(Query(s, key, query, [name], search, now).1), format, generate);
      r.sources != [] ==>
        && Loadable(s, name)
        && r.sources == SourcesOf(Outcome(name, search(name)))
        && r.confidence == SingleConfidence(|Outcome(name, search(name))|)
  {
    var res := Query(s, key, query, [name], search, now).1;
    var r := SingleReply(model, generator, query, name, Some(res), format, generate);
    if r.sources != [] {
      var hits := Lookup(res, name);
      var i :| 0 <= i < |res| && res[i] == (name, hits.value);
      QueryValues(s, key, query, [name], search, now);
      assert res[i].1 == Outcome(name, search(name));
      QueryKeys(s, key, query, [name], search, now);
      assert KeysOf(res)[i] == name;
      RequestedMembers(s, [name], name);
    }
  }

  // ---------------------------------------------------------------------
  // Model lookup
  // ---------------------------------------------------------------------

  /** The first configured model with that name. */
  function FindModel(models: seq<ModelConfig>, name: string): (r: Option<ModelConfig>)
    ensures r.None? <==> forall i :: 0 <= i < |models| ==> models[i].name != name
    ensures r.Some? ==>
      exists i :: 0 <= i < |models| && models[i] == r.value && r.value.name == name
                  && forall j :: 0 <= j < i ==> models[j].name != name
  {
    if models == [] then None
    else if models[0].name == name then Some(models[0])
    else
      var r := FindModel(models[1..], name);
      if r.Some? then
        var i :| 0 <= i < |models[1..]| && models[1..][i] == r.value && r.value.name == name
          && forall j :: 0 <= j < i ==> models[1..][j].name != name;
        assert models[i + 1] == r.value;
        assert forall j :: 1 <= j < i + 1 ==> models[j].name == models[1..][j - 1].name;
        r
      else r
  }

  // ---------------------------------------------------------------------
  // The pipeline object
  // ---------------------------------------------------------------------

  class RagPipeline {
    /** The configuration's model list. */
    const models: seq<ModelConfig>
    /** The model files present in the models directory. */
    const modelFiles: set<string>
    /** `database_settings.max_chunks_per_query`. */
    const maxChunks: int
    var currentModel: Option<ModelConfig>
    var generator: Option<Generator>
    /** The database manager, once the master password is set. */
    var manager: DatabaseManager?

    /** A model and its generator are loaded together. */
    predicate Valid()
      reads this
    {
      && (currentModel.Some? <==> generator.Some?)
      && (currentModel.Some? ==> generator.value == GeneratorFor(currentModel.value))
    }

    constructor(models: seq<ModelConfig>, modelFiles: set<string>, maxChunks: int)
      ensures this.models == models && this.modelFiles == modelFiles && this.maxChunks == maxChunks
      ensures currentModel.None? && generator.None? && manager == null
      ensures Valid()
    {
      this.models := models;
      this.modelFiles := modelFiles;
      this.maxChunks := maxChunks;
      currentModel := None;
      generator := None;
      manager := null;
    }

    /** `set_master_password`: a fresh manager over the databases directory. */
    method SetMasterPassword(dir: map<string, Entry>, auditFile: Option<seq<string>>, password: string)
      requires AuditFileName !in dir && forall n :: n in dir ==> IsComponent(n)
      modifies this
      ensures manager != null && fresh(manager)
      ensures manager.State() == Initial(dir) && manager.key == DeriveKey(password)
      ensures Store.Valid(manager.State(), manager.key)
      ensures currentModel == old(currentModel) && generator == old(generator)
    {
      manager := new DatabaseManager(dir, auditFile, password);
    }

    /**
     * `load_model`: the first configured model with that name, if its file
     * is present, becomes the current model with a fresh generator.
     */
    method LoadModel(name: string) returns (ok: bool)
      requires Valid()
      modifies this
      ensures Valid()
      ensures ok <==> FindModel(models, name).Some? && FindModel(models, name).value.filePath in modelFiles
      ensures ok ==> currentModel == FindModel(models, name)
      ensures !ok ==> currentModel == old(currentModel) && generator == old(generator)
      ensures manager == old(manager)
    {
      var config: Option<ModelConfig> := None;
      var i := 0;
      while i < |models| && config.None?
        invariant 0 <= i <= |models|
        invariant config.None? ==> FindModel(models, name) == FindModel(models[i..], name)
        invariant config.Some? ==> config == FindModel(models, name)
      {
        assert models[i..][1..] == models[i + 1..];
        if models[i].name == name {
          config := Some(models[i]);
        }
        i := i + 1;
      }
      if config.None? {
        return false;
      }
      if config.value.filePath !in modelFiles {
        return false;
      }
      generator := Some(GeneratorFor(config.value));
      currentModel := config;
      ok := true;
    }

    /** The sources loop: one source per hit, in order. */
    static method BuildSources(hits: seq<Hit>) returns (sources: seq<Source>)
      ensures sources == SourcesOf(hits)
    {
      sources := [];
      for i := 0 to |hits|
        invariant sources == SourcesOf(hits[..i])
      {
        assert SourcesOf(hits[..i + 1]) == SourcesOf(hits[..i]) + [SourceOf(hits[i])];
        sources := sources + [SourceOf(hits[i])];
      }
      assert hits[..|hits|] == hits;
    }

    /** The loop collecting every database's hits, in result order. */
    static method CollectHits(res: Results) returns (hits: seq<Hit>)
      ensures hits == Merge(res)
    {
      hits := [];
      for i := 0 to |res|
        invariant hits == Merge(res[..i])
      {
        assert res[..i + 1][..i] == res[..i];
        hits := hits + res[i].1;
      }
      assert res[..|res|] == res;
    }

    /** The manager's results for these names, None when no manager is set up. */
    function Results(names: seq<string>, query: string, search: string -> Option<Answer>, now: string)
      : Option<Results>
      reads this, manager
      requires manager != null ==> Store.Valid(manager.State(), manager.key)
    {
      if manager == null then None
      else Some(Query(manager.State(), manager.key, query, names, search, now).1)
    }

    /** The manager's state after querying these names. */
    function StateAfter(names: seq<string>, query: string, search: string -> Option<Answer>, now: string)
      : StoreState
      reads this, manager
      requires manager != null
    {
      Query(manager.State(), manager.key, query, names, search, now).0
    }

    /** `query_single_database` once the manager has answered. */
    static method AnswerSingle(model: Option<ModelConfig>, generator: Option<Generator>, query: string, name: string,
                               results: Results,
                               format: (string, string, string) -> Option<string>,
                               generate: (Generator, string) -> Option<seq<string>>) returns (reply: Reply)
      requires model.Some? <==> generator.Some?
      ensures reply == SingleReply(model, generator, query, name, Some(results), format, generate)
    {
      var hits := Lookup(results, name);
      if model.None? {
        return ErrorReply(SingleErrorPrefix, model, None, NoModelLoaded);
      }
      if hits.None? || hits.value == [] {
        return Reply(NoDocumentsSingle, [], 0, model.value.name, None, None);
      }
      var prompt := SinglePrompt(model.value, hits.value, query, format);
      if prompt.None? {
        return ErrorReply(SingleErrorPrefix, model, None, PromptFormatFailed);
      }
      var replies := generate(generator.value, prompt.value);
      if replies.None? {
        return ErrorReply(SingleErrorPrefix, model, None, GenerationFailed);
      }
      var sources := BuildSources(hits.value);
      reply := Reply(FirstReply(replies.value), sources, SingleConfidence(|hits.value|), model.value.name,
                     Some([name]), None);
    }

    /** `query_single_database`. */
    method QuerySingleDatabase(query: string, name: string, search: string -> Option<Answer>, now: string,
                               format: (string, string, string) -> Option<string>,
                               generate: (Generator, string) -> Option<seq<string>>) returns (reply: Reply)
      requires Valid()
      requires manager != null ==> Store.Valid(manager.State(), manager.key)
      modifies manager
      ensures manager != null ==> Store.Valid(manager.State(), manager.key)
      ensures manager != null ==> manager.State() == old(StateAfter([name], query, search, now))
      ensures reply == SingleReply(currentModel, generator, query, name,
                                   old(Results([name], query, search, now)), format, generate)
    {
      if manager == null {
        return ErrorReply(SingleErrorPrefix, currentModel, None, NoDatabaseManager);
      }
      var results := manager.QueryDatabases(query, [name], search, now);
      reply := AnswerSingle(currentModel, generator, query, name, results, format, generate);
    }

    /** `query_multiple_databases` from the merged hits on. */
    static method AnswerMulti(model: Option<ModelConfig>, generator: Option<Generator>, maxChunks: int, query: string,
                              names: seq<string>, hits: seq<Hit>,
                              format: (string, string, string) -> Option<string>,
                              generate: (Generator, string) -> Option<seq<string>>) returns (reply: Reply)
      requires model.Some? <==> generator.Some?
      requires hits != []
      ensures forall results :: Merge(results) == hits ==>
        reply == MultiReply(model, generator, maxChunks, query, names, Some(results), format, generate)
    {
      if !Comparable(hits) {
        return ErrorReply(MultiErrorPrefix, model, Some(names), UnorderedDistances);
      }
      if model.None? {
        return ErrorReply(MultiErrorPrefix, model, Some(names), NoModelLoaded);
      }
      var top := Top(hits, maxChunks);
      var prompt := MultiPrompt(model.value, top, query, format);
      if prompt.None? {
        return ErrorReply(MultiErrorPrefix, model, Some(names), PromptFormatFailed);
      }
      var replies := generate(generator.value, prompt.value);
      if replies.None? {
        return ErrorReply(MultiErrorPrefix, model, Some(names), GenerationFailed);
      }
      var sources := BuildSources(top);
      reply := Reply(FirstReply(replies.value), sources, MultiConfidence(|top|, |names|), model.value.name,
                     Some(names), None);
    }

    /** `query_multiple_databases`. */
    method QueryMultipleDatabases(query: string, names: seq<string>, search: string -> Option<Answer>, now: string,
                                  format: (string, string, string) -> Option<string>,
                                  generate: (Generator, string) -> Option<seq<string>>) returns (reply: Reply)
      requires Valid()
      requires manager != null ==> Store.Valid(manager.State(), manager.key)
      modifies manager
      ensures manager != null ==> Store.Valid(manager.State(), manager.key)
      ensures manager != null ==> manager.State() == old(StateAfter(names, query, search, now))
      ensures reply == MultiReply(currentModel, generator, maxChunks, query, names,
                                  old(Results(names, query, search, now)), format, generate)
    {
      if manager == null {
        return ErrorReply(MultiErrorPrefix, currentModel, Some(names), NoDatabaseManager);
      }
      var results := manager.QueryDatabases(query, names, search, now);
      var hits := CollectHits(results);
      if hits == [] {
        if currentModel.None? {
          return ErrorReply(MultiErrorPrefix, currentModel, Some(names), NoModelLoaded);
        }
        return Reply(NoDocumentsMulti, [], 0, currentModel.value.name, Some(names), None);
      }
      reply := AnswerMulti(currentModel, generator, maxChunks, query, names, hits, format, generate);
    }
  }
}
