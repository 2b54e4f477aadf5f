/**
 * The prompt workshop: named prompt templates, chains of templates, and
 * running a chain against the loaded model.
 *
 * Templates and chains are kept in insertion order, as the source's
 * dictionaries are, and are found by their id. Jinja rendering and the
 * generator are parameters: `jinja` stands for rendering a template's text
 * with the variables, `run` for the generator's `run`. Ids (`uuid4`) and
 * timestamps are parameters too.
 */
module Workshop {
  import opened Wrappers
  import opened Text
  import opened Sorting
  import opened Retrieval

  /** A value bound to a template variable: an answer text, or any other value given by the caller. */
  datatype Var = Text(text: string) | Other(tag: nat)

  type Vars = map<string, Var>

  datatype PromptTemplate = PromptTemplate(id: string, name: string, description: string, content: string,
                                           variables: seq<string>, category: string,
                                           createdAt: string, modifiedAt: string)

  /** One step of a chain: the template to run and the step's display name. */
  datatype Step = Step(templateId: string, name: string)

  datatype PromptChain = PromptChain(id: string, name: string, description: string, steps: seq<Step>,
                                     createdAt: string)

  /** What Jinja makes of a template: its text, or the message of the exception it raised. */
  datatype Rendered = Rendered(text: string) | RenderFailed(message: string)

  /** What the generator does with a prompt: its replies (possibly none), or the message of what it raised. */
  datatype Run = Replies(replies: seq<string>) | Raised(error: string)

  /** One entry of a chain's results: a step that answered, or the step that raised. */
  datatype StepResult =
    | Done(stepNumber: nat, stepName: string, templateId: string, prompt: string, answer: string, timestamp: string)
    | Failed(stepNumber: nat, stepName: string, templateId: string, error: string, timestamp: string)

  /** `execute_chain`'s outcome: one of its two `ValueError`s, or the step results. */
  datatype ChainOutcome = ChainNotFound | NotReady | Ran(results: seq<StepResult>)

  const RenderErrorPrefix: string := "Template rendering error: "
  const PreviousAnswer: string := "previous_answer"

  /** The variable holding step `n`'s answer. */
  function StepKey(n: nat): (k: string)
    ensures k != PreviousAnswer
  {
    assert ("step_" + NatToString(n) + "_result")[0] == 's';
    "step_" + NatToString(n) + "_result"
  }

  lemma StepKeyInjective(a: nat, b: nat)
    requires StepKey(a) == StepKey(b)
    ensures a == b
  {
    var ka := "step_" + NatToString(a) + "_result";
    var kb := "step_" + NatToString(b) + "_result";
    assert ka[5..|ka| - 7] == NatToString(a);
    assert kb[5..|kb| - 7] == NatToString(b);
    NatToStringInjective(a, b);
  }

  // ---------------------------------------------------------------------
  // Templates
  // ---------------------------------------------------------------------

  /**
   * `PromptTemplate.render`: never raises. A failure of Jinja becomes a
   * prompt made of the error prefix and the exception's message.
   */
  function Render(t: PromptTemplate, vars: Vars, jinja: (string, Vars) -> Rendered): (r: string)
    ensures jinja(t.content, vars).Rendered? ==> r == jinja(t.content, vars).text
    ensures jinja(t.content, vars).RenderFailed? ==>
      |r| >= |RenderErrorPrefix| && r[..|RenderErrorPrefix|] == RenderErrorPrefix && r[|RenderErrorPrefix|..] == jinja(t.content, vars).message
  {
    match jinja(t.content, vars)
    case Rendered(text) => text
    case RenderFailed(message) => RenderErrorPrefix + message
  }

  predicate DistinctTemplateIds(ts: seq<PromptTemplate>) {
    forall i, j :: 0 <= i < j < |ts| ==> ts[i].id != ts[j].id
  }

  predicate DistinctChainIds(cs: seq<PromptChain>) {
    forall i, j :: 0 <= i < j < |cs| ==> cs[i].id != cs[j].id
  }

  /** The first element whose id, as `idOf` reads it, is `id`: a dictionary lookup by id. */
  function FindById<T>(xs: seq<T>, idOf: T -> string, id: string): (r: Option<T>)
    ensures r.None? <==> forall i :: 0 <= i < |xs| ==> idOf(xs[i]) != id
    ensures r.Some? ==> r.value in xs && idOf(r.value) == id
  {
    if xs == [] then None
    else if idOf(xs[0]) == id then Some(xs[0])
    else
      var r := FindById(xs[1..], idOf, id);
      assert forall i :: 1 <= i < |xs| ==> xs[i] == xs[1..][i - 1];
      r
  }

  /** With distinct ids, each element is found by its own id. */
  lemma {:induction false} FindByIdUnique<T>(xs: seq<T>, idOf: T -> string, i: nat)
    requires i < |xs| && forall j, k :: 0 <= j < k < |xs| ==> idOf(xs[j]) != idOf(xs[k])
    ensures FindById(xs, idOf, idOf(xs[i])) == Some(xs[i])
  {
    if i > 0 {
      assert idOf(xs[0]) != idOf(xs[i]);
      assert xs[1..][i - 1] == xs[i];
      FindByIdUnique(xs[1..], idOf, i - 1);
    }
  }

  function TemplateId(t: PromptTemplate): string { t.id }

  function ChainId(c: PromptChain): string { c.id }

  /** `get_template`: the template with that id. */
  function FindTemplate(ts: seq<PromptTemplate>, id: string): Option<PromptTemplate> {
    FindById(ts, TemplateId, id)
  }

  /** With distinct ids, the template found is the only one with that id. */
  lemma FindTemplateUnique(ts: seq<PromptTemplate>, i: nat)
    requires DistinctTemplateIds(ts) && i < |ts|
    ensures FindTemplate(ts, ts[i].id) == Some(ts[i])
  {
    FindByIdUnique(ts, TemplateId, i);
  }

  /** `get_chain`: the chain with that id. */
  function FindChain(cs: seq<PromptChain>, id: string): Option<PromptChain> {
    FindById(cs, ChainId, id)
  }

  // ---------------------------------------------------------------------
  // Listing
  // ---------------------------------------------------------------------

  /** Python's truthiness of the optional category: None and "" do not filter. */
  predicate Filters(category: Option<string>) {
    category.Some? && category.value != ""
  }

  /** The templates kept by the category filter, in insertion order. */
  function Selected(ts: seq<PromptTemplate>, category: Option<string>): (r: seq<PromptTemplate>)
    ensures |r| <= |ts|
    ensures !Filters(category) ==> r == ts
  {
    if ts == [] then []
    else
      (if !Filters(category) || ts[0].category == category.value then [ts[0]] else []) + Selected(ts[1..], category)
  }

  lemma {:induction false} SelectedMembers(ts: seq<PromptTemplate>, category: Option<string>, t: PromptTemplate)
    ensures t in Selected(ts, category) <==> t in ts && (!Filters(category) || t.category == category.value)
  {
    if ts != [] {
      SelectedMembers(ts[1..], category, t);
      assert ts == [ts[0]] + ts[1..];
    }
  }

  predicate ByTemplateName(a: PromptTemplate, b: PromptTemplate) {
    StrLe(a.name, b.name)
  }

  predicate ByChainName(a: PromptChain, b: PromptChain) {
    StrLe(a.name, b.name)
  }

  lemma NameOrders()
    ensures TotalPreorder(ByTemplateName) && TotalPreorder(ByChainName)
  {
    forall a: string, b: string ensures StrLe(a, b) || StrLe(b, a) {
      StrLeTotal(a, b);
    }
    forall a: string, b: string, c: string | StrLe(a, b) && StrLe(b, c) ensures StrLe(a, c) {
      StrLeTransitive(a, b, c);
    }
  }

  /**
   * `list_templates`: the templates of the category (all of them when no
   * category is given), sorted by name; equal names keep insertion order.
   */
  function ListTemplates(ts: seq<PromptTemplate>, category: Option<string>): (r: seq<PromptTemplate>)
    ensures multiset(r) == multiset(Selected(ts, category))
    ensures SortedBy(r, ByTemplateName)
    ensures forall p :: Ties(r, p, ByTemplateName) == Ties(Selected(ts, category), p, ByTemplateName)
    ensures forall t :: t in r <==> t in ts && (!Filters(category) || t.category == category.value)
  {
    NameOrders();
    SortByCorrect(Selected(ts, category), ByTemplateName);
    forall t ensures t in SortBy(Selected(ts, category), ByTemplateName) <==> t in Selected(ts, category) {
      assert t in multiset(SortBy(Selected(ts, category), ByTemplateName)) <==> t in multiset(Selected(ts, category));
    }
    forall t ensures t in Selected(ts, category) <==> t in ts && (!Filters(category) || t.category == category.value) {
      SelectedMembers(ts, category, t);
    }
    SortBy(Selected(ts, category), ByTemplateName)
  }

  /** `list_chains`: every chain, sorted by name; equal names keep insertion order. */
  function ListChains(cs: seq<PromptChain>): (r: seq<PromptChain>)
    ensures multiset(r) == multiset(cs)
    ensures SortedBy(r, ByChainName)
    ensures forall p :: Ties(r, p, ByChainName) == Ties(cs, p, ByChainName)
  {
    NameOrders();
    SortByCorrect(cs, ByChainName);
    SortBy(cs, ByChainName)
  }

  // ---------------------------------------------------------------------
  // Running a chain
  // ---------------------------------------------------------------------

  /**
   * The chain's steps from `i` on, run with the variables `vars`: the
   * results and the variables afterwards. A step whose template is missing
   * is skipped; the first step whose generation raises is recorded as a
   * failure and ends the run; an answered step binds its answer to
   * `previous_answer` and to its own step variable.
   */
  function RunFrom(ts: seq<PromptTemplate>, steps: seq<Step>, i: nat, vars: Vars, gen: Generator,
                   jinja: (string, Vars) -> Rendered, run: (Generator, string) -> Run,
                   clock: nat -> string): (r: (seq<StepResult>, Vars))
    requires i <= |steps|
    ensures |r.0| <= |steps| - i
    decreases |steps| - i
  {
    if i == |steps| then ([], vars)
    else
      match FindTemplate(ts, steps[i].templateId)
      case None => RunFrom(ts, steps, i + 1, vars, gen, jinja, run, clock)
      case Some(t) =>
        var prompt := Render(t, vars, jinja);
        match run(gen, prompt)
        case Raised(e) => ([Failed(i + 1, steps[i].name, steps[i].templateId, e, clock(i))], vars)
        case Replies(rs) =>
          var answer := FirstReply(rs);
          var rest := RunFrom(ts, steps, i + 1, vars[PreviousAnswer := Text(answer)][StepKey(i + 1) := Text(answer)],
                              gen, jinja, run, clock);
          ([Done(i + 1, steps[i].name, steps[i].templateId, prompt, answer, clock(i))] + rest.0, rest.1)
  }

  /** `execute_chain` as a whole. `generator` is None when no pipeline or no model is loaded. */
  function ExecuteChainSpec(ts: seq<PromptTemplate>, cs: seq<PromptChain>, chainId: string, init: Vars,
                            generator: Option<Generator>, jinja: (string, Vars) -> Rendered,
                            run: (Generator, string) -> Run, clock: nat -> string): (r: ChainOutcome)
    ensures r == ChainNotFound <==> FindChain(cs, chainId).None?
    ensures r == NotReady <==> FindChain(cs, chainId).Some? && generator.None?
  {
    match FindChain(cs, chainId)
    case None => ChainNotFound
    case Some(chain) =>
      if generator.None? then NotReady
      else Ran(RunFrom(ts, chain.steps, 0, init, generator.value, jinja, run, clock).0)
  }

  /** Step numbers lie in `lo+1..hi` and strictly increase. */
  predicate Numbered(r: seq<StepResult>, lo: nat, hi: nat) {
    && (forall p :: 0 <= p < |r| ==> lo < r[p].stepNumber <= hi)
    && (forall p, q :: 0 <= p < q < |r| ==> r[p].stepNumber < r[q].stepNumber)
  }

  /** Only the last result can be a failure. */
  predicate FailsLast(r: seq<StepResult>) {
    forall p :: 0 <= p < |r| - 1 ==> r[p].Done?
  }

  /** Each result names its step and that step's template, which exists. */
  predicate FromSteps(r: seq<StepResult>, ts: seq<PromptTemplate>, steps: seq<Step>) {
    forall p :: 0 <= p < |r| ==>
      && 1 <= r[p].stepNumber <= |steps|
      && r[p].stepName == steps[r[p].stepNumber - 1].name
      && r[p].templateId == steps[r[p].stepNumber - 1].templateId
      && FindTemplate(ts, r[p].templateId).Some?
  }

  lemma {:induction false} NumberedCons(x: StepResult, rest: seq<StepResult>, i: nat, hi: nat)
    requires x.stepNumber == i + 1 && i + 1 <= hi && Numbered(rest, i + 1, hi)
    ensures Numbered([x] + rest, i, hi)
  {
    var r := [x] + rest;
    assert forall p :: 1 <= p < |r| ==> r[p] == rest[p - 1];
  }

  /** The results of a run are numbered in step order within the remaining steps. */
  lemma {:induction false} RunNumbered(ts: seq<PromptTemplate>, steps: seq<Step>, i: nat, vars: Vars, gen: Generator,
                                       jinja: (string, Vars) -> Rendered, run: (Generator, string) -> Run,
                                       clock: nat -> string)
    requires i <= |steps|
    ensures Numbered(RunFrom(ts, steps, i, vars, gen, jinja, run, clock).0, i, |steps|)
    decreases |steps| - i
  {
    var r := RunFrom(ts, steps, i, vars, gen, jinja, run, clock).0;
    if i < |steps| {
      match FindTemplate(ts, steps[i].templateId)
      case None =>
        RunNumbered(ts, steps, i + 1, vars, gen, jinja, run, clock);
      case Some(t) =>
        match run(gen, Render(t, vars, jinja))
        case Raised(e) =>
        case Replies(rs) =>
          var answer := FirstReply(rs);
          var next := vars[PreviousAnswer := Text(answer)][StepKey(i + 1) := Text(answer)];
          RunNumbered(ts, steps, i + 1, next, gen, jinja, run, clock);
          NumberedCons(r[0], RunFrom(ts, steps, i + 1, next, gen, jinja, run, clock).0, i, |steps|);
    }
  }

  /** Numbers strictly increasing within `lo+1..hi` leave room for at most `hi - lo` results. */
  lemma {:induction false} NumberedLength(r: seq<StepResult>, lo: nat, hi: nat)
    requires lo <= hi && Numbered(r, lo, hi)
    ensures |r| <= hi - lo
    decreases |r|
  {
    if r != [] {
      assert lo < r[0].stepNumber <= hi;
      var rest := r[1..];
      assert Numbered(rest, r[0].stepNumber, hi) by {
        assert forall p :: 0 <= p < |rest| ==> rest[p] == r[p + 1];
      }
      NumberedLength(rest, r[0].stepNumber, hi);
    }
  }

  /** Only the last result of a run can be a failure. */
  lemma {:induction false} RunFailsLast(ts: seq<PromptTemplate>, steps: seq<Step>, i: nat, vars: Vars, gen: Generator,
                                        jinja: (string, Vars) -> Rendered, run: (Generator, string) -> Run,
                                        clock: nat -> string)
    requires i <= |steps|
    ensures FailsLast(RunFrom(ts, steps, i, vars, gen, jinja, run, clock).0)
    decreases |steps| - i
  {
    var r := RunFrom(ts, steps, i, vars, gen, jinja, run, clock).0;
    if i < |steps| {
      match FindTemplate(ts, steps[i].templateId)
      case None =>
        RunFailsLast(ts, steps, i + 1, vars, gen, jinja, run, clock);
      case Some(t) =>
        match run(gen, Render(t, vars, jinja))
        case Raised(e) =>
        case Replies(rs) =>
          var answer := FirstReply(rs);
          var next := vars[PreviousAnswer := Text(answer)][StepKey(i + 1) := Text(answer)];
          var rest := RunFrom(ts, steps, i + 1, next, gen, jinja, run, clock).0;
          RunFailsLast(ts, steps, i + 1, next, gen, jinja, run, clock);
          assert forall p :: 1 <= p < |r| ==> r[p] == rest[p - 1];
    }
  }

  lemma FromStepsCons(x: StepResult, rest: seq<StepResult>, ts: seq<PromptTemplate>, steps: seq<Step>)
    requires FromSteps([x], ts, steps) && FromSteps(rest, ts, steps)
    ensures FromSteps([x] + rest, ts, steps)
  {
    var r := [x] + rest;
    assert forall p :: 1 <= p < |r| ==> r[p] == rest[p - 1];
  }

  /** Each result of a run names its step and that step's template, which exists. */
  lemma {:induction false} RunFromSteps(ts: seq<PromptTemplate>, steps: seq<Step>, i: nat, vars: Vars, gen: Generator,
                                        jinja: (string, Vars) -> Rendered, run: (Generator, string) -> Run,
                                        clock: nat -> string)
    requires i <= |steps|
    ensures FromSteps(RunFrom(ts, steps, i, vars, gen, jinja, run, clock).0, ts, steps)
    decreases |steps| - i
  {
    var r := RunFrom(ts, steps, i, vars, gen, jinja, run, clock).0;
    if i < |steps| {
      match FindTemplate(ts, steps[i].templateId)
      case None =>
        RunFromSteps(ts, steps, i + 1, vars, gen, jinja, run, clock);
      case Some(t) =>
        match run(gen, Render(t, vars, jinja))
        case Raised(e) =>
        case Replies(rs) =>
          var answer := FirstReply(rs);
          var next := vars[PreviousAnswer := Text(answer)][StepKey(i + 1) := Text(answer)];
          var rest := RunFrom(ts, steps, i + 1, next, gen, jinja, run, clock).0;
          RunFromSteps(ts, steps, i + 1, next, gen, jinja, run, clock);
          assert r == [r[0]] + rest;
          FromStepsCons(r[0], rest, ts, steps);
    }
  }

  /**
   * The results of a run: numbered in step order within the remaining
   * steps, so no more of them than steps; a failure only at the end; each
   * from a step whose template exists.
   */
  lemma RunShape(ts: seq<PromptTemplate>, steps: seq<Step>, i: nat, vars: Vars, gen: Generator,
                 jinja: (string, Vars) -> Rendered, run: (Generator, string) -> Run, clock: nat -> string)
    requires i <= |steps|
    ensures var r := RunFrom(ts, steps, i, vars, gen, jinja, run, clock).0;
      Numbered(r, i, |steps|) && FailsLast(r) && FromSteps(r, ts, steps) && |r| <= |steps| - i
  {
    RunNumbered(ts, steps, i, vars, gen, jinja, run, clock);
    NumberedLength(RunFrom(ts, steps, i, vars, gen, jinja, run, clock).0, i, |steps|);
    RunFailsLast(ts, steps, i, vars, gen, jinja, run, clock);
    RunFromSteps(ts, steps, i, vars, gen, jinja, run, clock);
  }

  /** No step of the run raised. */
  predicate AllDone(r: seq<StepResult>) {
    forall p :: 0 <= p < |r| ==> r[p].Done?
  }

  /** Some result is numbered `n`. */
  predicate HasStep(r: seq<StepResult>, n: nat) {
    exists p :: 0 <= p < |r| && r[p].stepNumber == n
  }

  lemma HasStepCons(x: StepResult, rest: seq<StepResult>, n: nat)
    requires HasStep(rest, n)
    ensures HasStep([x] + rest, n)
  {
    var p :| 0 <= p < |rest| && rest[p].stepNumber == n;
    assert ([x] + rest)[p + 1] == rest[p];
  }

  lemma AllDoneTail(x: StepResult, rest: seq<StepResult>)
    requires AllDone([x] + rest)
    ensures AllDone(rest)
  {
    assert forall p :: 0 <= p < |rest| ==> rest[p] == ([x] + rest)[p + 1];
  }

  /**
   * A run without a failure has a result for every remaining step whose
   * template exists.
   */
  lemma {:induction false} RunComplete(ts: seq<PromptTemplate>, steps: seq<Step>, i: nat, vars: Vars, gen: Generator,
                                       jinja: (string, Vars) -> Rendered, run: (Generator, string) -> Run,
                                       clock: nat -> string, j: nat)
    requires i <= j < |steps| && FindTemplate(ts, steps[j].templateId).Some?
    requires AllDone(RunFrom(ts, steps, i, vars, gen, jinja, run, clock).0)
    ensures HasStep(RunFrom(ts, steps, i, vars, gen, jinja, run, clock).0, j + 1)
    decreases |steps| - i
  {
    var r := RunFrom(ts, steps, i, vars, gen, jinja, run, clock).0;
    match FindTemplate(ts, steps[i].templateId)
    case None =>
      RunComplete(ts, steps, i + 1, vars, gen, jinja, run, clock, j);
    case Some(t) =>
      match run(gen, Render(t, vars, jinja))
      case Raised(e) =>
        assert false;
      case Replies(rs) =>
        var next := RunAnswered(ts, steps, i, vars, gen, jinja, run, clock, t, rs);
        var rest := RunFrom(ts, steps, i + 1, next, gen, jinja, run, clock).0;
        if j == i {
          assert r[0].stepNumber == j + 1;
        } else {
          AllDoneTail(r[0], rest);
          RunComplete(ts, steps, i + 1, next, gen, jinja, run, clock, j);
          HasStepCons(r[0], rest, j + 1);
        }
  }

  /**
   * An answered step is recorded first, and the run goes on with its answer
   * bound to `previous_answer` and to the step's own variable.
   */
  lemma RunAnswered(ts: seq<PromptTemplate>, steps: seq<Step>, i: nat, vars: Vars, gen: Generator,
                    jinja: (string, Vars) -> Rendered, run: (Generator, string) -> Run,
                    clock: nat -> string, t: PromptTemplate, rs: seq<string>) returns (next: Vars)
    requires i < |steps| && FindTemplate(ts, steps[i].templateId) == Some(t)
    requires run(gen, Render(t, vars, jinja)) == Replies(rs)
    ensures next == vars[PreviousAnswer := Text(FirstReply(rs))][StepKey(i + 1) := Text(FirstReply(rs))]
    ensures var r := RunFrom(ts, steps, i, vars, gen, jinja, run, clock).0;
      r == [Done(i + 1, steps[i].name, steps[i].templateId, Render(t, vars, jinja), FirstReply(rs), clock(i))]
           + RunFrom(ts, steps, i + 1, next, gen, jinja, run, clock).0
  {
    next := vars[PreviousAnswer := Text(FirstReply(rs))][StepKey(i + 1) := Text(FirstReply(rs))];
  }

  /** The variables a chain run may bind: `previous_answer` and the step variables of steps `lo+1..hi`. */
  predicate ChainKey(k: string, lo: nat, hi: nat) {
    k == PreviousAnswer || exists n :: lo < n <= hi && k == StepKey(n)
  }

  /**
   * The caller's variables other than the chain's own stay bound as given,
   * for every step of the run.
   */
  lemma {:induction false} RunKeepsVariables(ts: seq<PromptTemplate>, steps: seq<Step>, i: nat, vars: Vars,
                                             gen: Generator, jinja: (string, Vars) -> Rendered,
                                             run: (Generator, string) -> Run, clock: nat -> string, k: string)
    requires i <= |steps| && !ChainKey(k, i, |steps|)
    ensures var v := RunFrom(ts, steps, i, vars, gen, jinja, run, clock).1;
      (k in v <==> k in vars) && (k in vars ==> v[k] == vars[k])
    decreases |steps| - i
  {
    if i < |steps| {
      match FindTemplate(ts, steps[i].templateId)
      case None =>
        RunKeepsVariables(ts, steps, i + 1, vars, gen, jinja, run, clock, k);
      case Some(t) =>
        var prompt := Render(t, vars, jinja);
        match run(gen, prompt)
        case Raised(e) =>
        case Replies(rs) =>
          var answer := FirstReply(rs);
          var next := vars[PreviousAnswer := Text(answer)][StepKey(i + 1) := Text(answer)];
          assert k != StepKey(i + 1);
          RunKeepsVariables(ts, steps, i + 1, next, gen, jinja, run, clock, k);
    }
  }

  /** The first result of a run, when it answered, was rendered with the run's own variables. */
  lemma {:induction false} FirstPrompt(ts: seq<PromptTemplate>, steps: seq<Step>, i: nat, vars: Vars,
                                       gen: Generator, jinja: (string, Vars) -> Rendered,
                                       run: (Generator, string) -> Run, clock: nat -> string)
    requires i <= |steps|
    ensures var r := RunFrom(ts, steps, i, vars, gen, jinja, run, clock).0;
      r != [] && r[0].Done? ==>
        FindTemplate(ts, r[0].templateId).Some? && r[0].prompt == Render(FindTemplate(ts, r[0].templateId).value, vars, jinja)
    decreases |steps| - i
  {
    if i < |steps| && FindTemplate(ts, steps[i].templateId).None? {
      FirstPrompt(ts, steps, i + 1, vars, gen, jinja, run, clock);
    }
  }

  /**
   * Each answered step after the first is rendered with variables that bind
   * `previous_answer` and the previous step's own variable to the previous
   * step's answer.
   */
  lemma {:induction false} PromptSeesPrevious(ts: seq<PromptTemplate>, steps: seq<Step>, i: nat, vars: Vars,
                                              gen: Generator, jinja: (string, Vars) -> Rendered,
                                              run: (Generator, string) -> Run, clock: nat -> string, q: nat)
    requires i <= |steps|
    requires var r := RunFrom(ts, steps, i, vars, gen, jinja, run, clock).0;
      0 < q < |r| && r[q].Done?
    ensures var r := RunFrom(ts, steps, i, vars, gen, jinja, run, clock).0;
      && r[q - 1].Done? && FindTemplate(ts, r[q].templateId).Some?
      && exists v: Vars ::
        && v.Keys >= {PreviousAnswer, StepKey(r[q - 1].stepNumber)}
        && v[PreviousAnswer] == Text(r[q - 1].answer)
        && v[StepKey(r[q - 1].stepNumber)] == Text(r[q - 1].answer)
        && r[q].prompt == Render(FindTemplate(ts, r[q].templateId).value, v, jinja)
    decreases |steps| - i
  {
    var r := RunFrom(ts, steps, i, vars, gen, jinja, run, clock).0;
    match FindTemplate(ts, steps[i].templateId)
    case None =>
      PromptSeesPrevious(ts, steps, i + 1, vars, gen, jinja, run, clock, q);
    case Some(t) =>
      var prompt := Render(t, vars, jinja);
      match run(gen, prompt)
      case Raised(e) =>
      case Replies(rs) =>
        var next := RunAnswered(ts, steps, i, vars, gen, jinja, run, clock, t, rs);
        var rest := RunFrom(ts, steps, i + 1, next, gen, jinja, run, clock).0;
        if q == 1 {
          FirstPrompt(ts, steps, i + 1, next, gen, jinja, run, clock);
          assert rest[0] == r[1];
          assert next.Keys >= {PreviousAnswer, StepKey(r[0].stepNumber)};
        } else {
          PromptSeesPrevious(ts, steps, i + 1, next, gen, jinja, run, clock, q - 1);
          assert rest[q - 1] == r[q] && rest[q - 2] == r[q - 1];
        }
  }

  // ---------------------------------------------------------------------
  // Default templates
  // ---------------------------------------------------------------------

  const BasicQaText: string :=
    "Based on the following context, please answer the question.\n\nContext:\n{% for document in documents %}\n"
    + "{{ document.content }}\n{% endfor %}\n\nQuestion: {{ query }}\n\nAnswer:"
  const AnalysisText: string :=
    "Please provide a detailed analysis:\n\nSource Materials:\n{% for document in documents %}\n"
    + "Source: {{ document.meta.source_database if document.meta else 'Unknown' }}\n{{ document.content }}\n\n"
    + "{% endfor %}\n\nAnalysis Request: {{ query }}\n\nPlease provide:\n1. Key findings\n2. Detailed analysis\n"
    + "3. Supporting evidence\n4. Conclusions\n\nAnalysis:"
  const ExtractText: string :=
    "Extract all information relevant to: {{ query }}\n\nContext:\n{{ context }}\n\nExtracted Information:"
  const AnalyzeText: string :=
    "Based on the extracted information, provide analysis:\n\nQuery: {{ query }}\n\nExtracted Information:\n"
    + "{{ previous_answer }}\n\nAnalysis:"
  const RecommendText: string :=
    "Based on the analysis, provide recommendations:\n\nOriginal Query: {{ query }}\n\nAnalysis:\n"
    + "{{ previous_answer }}\n\nRecommendations:"

  /** The five default templates, with ids `ids[0..5]`, in the order they are added. */
  function DefaultTemplates(ids: seq<string>, now: string): (r: seq<PromptTemplate>)
    requires |ids| >= 5
    ensures |r| == 5 && forall i :: 0 <= i < 5 ==> r[i].id == ids[i] && r[i].createdAt == now
  {
    [ PromptTemplate(ids[0], "Basic Q&A", "Simple question answering with context", BasicQaText,
                     ["documents", "query"], "General", now, now),
      PromptTemplate(ids[1], "Detailed Analysis", "In-depth analysis with structured response", AnalysisText,
                     ["documents", "query"], "Analysis", now, now),
      PromptTemplate(ids[2], "Step 1: Extract Information", "Extract relevant information", ExtractText,
                     ["query", "context"], "Chain", now, now),
      PromptTemplate(ids[3], "Step 2: Analyze Information", "Analyze extracted information", AnalyzeText,
                     ["query", "previous_answer"], "Chain", now, now),
      PromptTemplate(ids[4], "Step 3: Generate Recommendations", "Provide actionable recommendations", RecommendText,
                     ["query", "previous_answer"], "Chain", now, now) ]
  }

  /** The default chain, with id `ids[5]`: extract, analyze, recommend. */
  function DefaultChain(ids: seq<string>, now: string): (r: PromptChain)
    requires |ids| >= 6
    ensures r.id == ids[5] && |r.steps| == 3
    ensures forall k :: 0 <= k < 3 ==> r.steps[k].templateId == ids[k + 2]
  {
    var ts := DefaultTemplates(ids, now);
    PromptChain(ids[5], "Extract \U{2192} Analyze \U{2192} Recommend", "Three-step analysis chain",
                [Step(ts[2].id, ts[2].name), Step(ts[3].id, ts[3].name), Step(ts[4].id, ts[4].name)], now)
  }

  /** Fresh ids for the defaults: the five template ids are distinct. */
  predicate FreshIds(ids: seq<string>) {
    |ids| == 6 && forall i, j :: 0 <= i < j < 5 ==> ids[i] != ids[j]
  }

  /**
   * Each step of the default chain finds, among the default templates, the
   * template it was built from: the one with the step's name, in the
   * "Chain" category.
   */
  lemma DefaultChainResolves(ids: seq<string>, now: string)
    requires FreshIds(ids)
    ensures var ts := DefaultTemplates(ids, now);
      DistinctTemplateIds(ts) &&
      forall k :: 0 <= k < 3 ==>
        var step := DefaultChain(ids, now).steps[k];
        FindTemplate(ts, step.templateId) == Some(ts[k + 2])
        && ts[k + 2].name == step.name && ts[k + 2].category == "Chain"
  {
    var ts := DefaultTemplates(ids, now);
    DefaultIdsDistinct(ids, now);
    DefaultStepsNamed(ids, now);
    forall k | 0 <= k < 3
      ensures FindTemplate(ts, DefaultChain(ids, now).steps[k].templateId) == Some(ts[k + 2])
    {
      FindTemplateUnique(ts, k + 2);
    }
  }

  lemma DefaultIdsDistinct(ids: seq<string>, now: string)
    requires FreshIds(ids)
    ensures DistinctTemplateIds(DefaultTemplates(ids, now))
  {
  }

  /** Each step of the default chain carries the id and the name of a "Chain" template. */
  lemma DefaultStepsNamed(ids: seq<string>, now: string)
    requires |ids| >= 6
    ensures var ts := DefaultTemplates(ids, now);
      forall k :: 0 <= k < 3 ==>
        var step := DefaultChain(ids, now).steps[k];
        step.templateId == ts[k + 2].id && ts[k + 2].name == step.name && ts[k + 2].category == "Chain"
  {
  }

  // ---------------------------------------------------------------------
  // The workshop object
  // ---------------------------------------------------------------------

  class PromptWorkshop {
    var templates: seq<PromptTemplate>
    var chains: seq<PromptChain>

    /** Ids are unique, as the source's dictionary keys are. */
    predicate Valid()
      reads this
    {
      DistinctTemplateIds(templates) && DistinctChainIds(chains)
    }

    /** A fresh workshop holds exactly the defaults. */
    constructor(ids: seq<string>, now: string)
      requires FreshIds(ids)
      ensures Valid()
      ensures templates == DefaultTemplates(ids, now) && chains == [DefaultChain(ids, now)]
    {
      templates := [];
      chains := [];
      new;
      LoadDefaultTemplates(ids, now);
    }

    /** `load_default_templates`: installs the defaults only when there are no templates. */
    method LoadDefaultTemplates(ids: seq<string>, now: string)
      requires Valid() && FreshIds(ids)
      requires forall c :: c in chains ==> c.id != ids[5]
      modifies this
      ensures Valid()
      ensures old(templates) == [] ==>
        templates == DefaultTemplates(ids, now) && chains == old(chains) + [DefaultChain(ids, now)]
      ensures old(templates) != [] ==> templates == old(templates) && chains == old(chains)
    {
      if templates == [] {
        DefaultChainResolves(ids, now);
        templates := DefaultTemplates(ids, now);
        chains := chains + [DefaultChain(ids, now)];
        assert forall i :: 0 <= i < |chains| - 1 ==> chains[i] == old(chains)[i];
      }
    }

    /** `execute_chain`: the chain's steps in order, with the loop's own variable map. */
    method ExecuteChain(chainId: string, init: Vars, pipeline: RagPipeline?, jinja: (string, Vars) -> Rendered,
                        run: (Generator, string) -> Run, clock: nat -> string) returns (outcome: ChainOutcome)
      requires pipeline != null ==> pipeline.Valid()
      ensures outcome == ExecuteChainSpec(templates, chains, chainId, init,
                                          if pipeline == null then None else pipeline.generator, jinja, run, clock)
    {
      var chain := FindChain(chains, chainId);
      if chain.None? {
        return ChainNotFound;
      }
      if pipeline == null || pipeline.currentModel.None? {
        return NotReady;
      }
      var gen := pipeline.generator.value;
      var steps := chain.value.steps;
      ghost var whole := RunFrom(templates, steps, 0, init, gen, jinja, run, clock).0;
      var results: seq<StepResult> := [];
      var vars := init;
      var i := 0;
      while i < |steps|
        invariant 0 <= i <= |steps|
        invariant results + RunFrom(templates, steps, i, vars, gen, jinja, run, clock).0 == whole
      {
        var template := FindTemplate(templates, steps[i].templateId);
        if template.None? {
          i := i + 1;
          continue;
        }
        var prompt := Render(template.value, vars, jinja);
        var response := run(gen, prompt);
        if response.Raised? {
          results := results + [Failed(i + 1, steps[i].name, steps[i].templateId, response.error, clock(i))];
          break;
        }
        var answer := FirstReply(response.replies);
        ghost var rest := RunFrom(templates, steps, i + 1, vars[PreviousAnswer := Text(answer)][StepKey(i + 1) := Text(answer)],
                                  gen, jinja, run, clock).0;
        assert results + ([Done(i + 1, steps[i].name, steps[i].templateId, prompt, answer, clock(i))] + rest)
            == (results + [Done(i + 1, steps[i].name, steps[i].templateId, prompt, answer, clock(i))]) + rest;
        results := results + [Done(i + 1, steps[i].name, steps[i].templateId, prompt, answer, clock(i))];
        vars := vars[PreviousAnswer := Text(answer)];
        vars := vars[StepKey(i + 1) := Text(answer)];
        i := i + 1;
      }
      return Ran(results);
    }
  }
}
