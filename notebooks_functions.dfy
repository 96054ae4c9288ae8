/**
 * Model of qualitative_analysis/notebooks_functions.py: classifying verbatims
 * (free-text entries) with a language model, theme by theme, and keeping track of
 * the tokens and the cost each verbatim used.
 *
 * Each operation is written twice: as a pure specification over the client's
 * script and log, and as the imperative loop of the source, driving a
 * `ScriptedClient` in place; the method's postcondition says that it does what
 * the specification says.  Lemmas then prove what the specification promises:
 * the shape of the result table, valid labels, when the batch aborts, which
 * requests are sent.
 *
 * Four helpers of the source live in modules that are not part of this model
 * and are parameters here (`Hooks`): `str.format` on the prompt template,
 * `parse_key_value_lines` and `extract_code_from_response` from
 * qualitative_analysis/parsing.py, and `openai_api_calculate_cost`.
 */
module Notebooks {
  import opened Common
  import opened LlmClient

  /** Every call of the source asks for at most 500 completion tokens. */
  const MaxTokens: nat := 500

  /** The temperature the batch functions pass to the classification calls. */
  const BatchTemperature: real := 0.0001

  /** A value in a result row: Python's None, a string, or an integer. */
  datatype Cell = Null | Str(s: string) | Int(i: int)

  /** A result row, a dictionary from column names to values. */
  type Row = map<string, Cell>

  /** One entry of `verbatim_costs`. */
  datatype CostRecord = CostRecord(verbatim: string, tokensUsed: nat, cost: real)

  /**
   * The helpers the source imports.  `format` returns None where `str.format`
   * raises (a missing placeholder); `calculateCost` returns None where the cost
   * helper raises (an unknown model).
   */
  datatype Hooks = Hooks(
    format: (string, map<string, string>) -> Option<string>,
    parseKeyValueLines: string -> map<string, string>,
    calculateCost: (UsageCounts, string) -> Option<real>,
    extractCode: (string, Option<string>) -> Option<int>)

  // ------------------------------------------------------------------
  // generate_multiclass_classification_answer / generate_binary_classification_answer
  // ------------------------------------------------------------------

  /** The two classification tasks, which differ only in how they build their prompts. */
  datatype Task = Multiclass | Binary

  /** The prompt of the first (or only) call. */
  function FirstPrompt(task: Task, reasoning: bool, base: string, query: string, reasoningQuery: string): string
  {
    if reasoning then base + "\n\n" + reasoningQuery
    else match task
      case Multiclass => base
      case Binary => base + "\n\n" + query
  }

  /** The heading that introduces the first call's reasoning in the second prompt. */
  function ReasoningHeading(task: Task): string
  {
    match task
    case Multiclass => "\n\nReasoning about the entry:\n"
    case Binary => "\n\nReasoning:\n"
  }

  /** The prompt of the second call, which carries the first call's reasoning. */
  function SecondPrompt(task: Task, base: string, reasoningText: string, query: string): string
  {
    base + ReasoningHeading(task) + reasoningText + "\n\n" + query
  }

  /** The requests one classification sends, the script left, and its answer (None if a call raised). */
  datatype Exchange = Exchange(requests: seq<Request>, rest: seq<Outcome>, answer: Option<(string, UsageCounts)>)

  /** What one classification call does with a client whose outcomes are `script`. */
  function Classify(task: Task, reasoning: bool, script: seq<Outcome>, model: string, base: string,
                    query: string, reasoningQuery: string, temperature: real): Exchange
  {
    var first := Request(FirstPrompt(task, reasoning, base, query, reasoningQuery), model, MaxTokens, temperature);
    match Next(script)
    case Failure => Exchange([first], Rest(script), None)
    case Reply(text1, usage1) =>
      if !reasoning then Exchange([first], Rest(script), Some((text1, usage1)))
      else
        var second := Request(SecondPrompt(task, base, text1, query), model, MaxTokens, temperature);
        var script1 := Rest(script);
        match Next(script1)
        case Failure => Exchange([first, second], Rest(script1), None)
        case Reply(text2, usage2) => Exchange([first, second], Rest(script1), Some((text2, AddUsage(usage1, usage2))))
  }

  /** The script without its first k outcomes (empty if it has fewer). */
  function Drop(script: seq<Outcome>, k: nat): seq<Outcome>
  {
    if k <= |script| then script[k..] else []
  }

  /**
   * One request without reasoning, two with it unless the first call raises; every
   * request carries the model, 500 tokens and the temperature; one outcome is
   * consumed per request.
   */
  lemma ClassifyRequests(task: Task, reasoning: bool, script: seq<Outcome>, model: string, base: string,
                         query: string, reasoningQuery: string, temperature: real)
    ensures var e := Classify(task, reasoning, script, model, base, query, reasoningQuery, temperature);
      (|e.requests| == 2 <==> reasoning && Next(script).Reply?)
      && (|e.requests| == 1 || |e.requests| == 2)
      && e.rest == Drop(script, |e.requests|)
      && (forall r :: r in e.requests ==> r.model == model && r.maxTokens == 500 && r.temperature == temperature)
  {
    if |script| >= 2 {
      assert script[1..][1..] == script[2..];
    }
  }

  /**
   * Without reasoning the answer is the first reply, and the only prompt is the
   * base prompt (multiclass) or the base prompt and the query (binary).  With
   * reasoning the first prompt is the base prompt and the reasoning query, the
   * second is the base prompt, the heading of the classification kind, the first reply and the query,
   * and the answer is the second reply's text with the usage of both calls added up.
   */
  lemma ClassifyAnswer(task: Task, reasoning: bool, script: seq<Outcome>, model: string, base: string,
                       query: string, reasoningQuery: string, temperature: real)
    ensures var e := Classify(task, reasoning, script, model, base, query, reasoningQuery, temperature);
      (e.answer.Some? <==> Next(script).Reply? && (reasoning ==> Next(Rest(script)).Reply?))
      && (!reasoning ==>
            e.requests[0].prompt == (if task.Binary? then base + "\n\n" + query else base)
            && (e.answer.Some? ==> e.answer.value == (script[0].text, script[0].usage)))
      && (reasoning ==> e.requests[0].prompt == base + "\n\n" + reasoningQuery)
      && (reasoning && Next(script).Reply? ==>
            e.requests[1].prompt == base + ReasoningHeading(task) + script[0].text + "\n\n" + query)
      && (e.answer.Some? && reasoning ==>
            e.answer.value == (script[1].text, AddUsage(script[0].usage, script[1].usage)))
  {
  }


  /**
   * generate_multiclass_classification_answer.  Without reasoning the base prompt
   * is sent as it is; with reasoning the reasoning call comes first and its text is
   * put into the classification call, whose usage is then added into the first
   * call's usage object, which is returned.  A call that raises makes the whole
   * function raise: the answer is then None.
   */
  method GenerateMulticlassAnswer(client: ScriptedClient, model: string, basePrompt: string, multiclassQuery: string,
                                  reasoningQuery: string, reasoning: bool, temperature: real)
    returns (answer: Option<(string, Usage)>)
    modifies client
    ensures var e := Classify(Multiclass, reasoning, old(client.script), model, basePrompt, multiclassQuery, reasoningQuery, temperature);
      client.log == old(client.log) + e.requests && client.script == e.rest
      && (answer.None? <==> e.answer.None?)
      && (answer.Some? ==> answer.value.0 == e.answer.value.0 && fresh(answer.value.1) && answer.value.1.Counts() == e.answer.value.1)
  {
    if reasoning {
      var firstPrompt := basePrompt + "\n\n" + reasoningQuery;
      var reply1 := client.GetResponse(firstPrompt, model, MaxTokens, temperature);
      if reply1.None? {
        return None;
      }
      var (text1, usage1) := reply1.value;
      var secondPrompt := basePrompt + "\n\nReasoning about the entry:\n" + text1 + "\n\n" + multiclassQuery;
      var reply2 := client.GetResponse(secondPrompt, model, MaxTokens, temperature);
      if reply2.None? {
        return None;
      }
      var (text2, usage2) := reply2.value;
      usage1.Absorb(usage2);
      answer := Some((text2, usage1));
    } else {
      answer := client.GetResponse(basePrompt, model, MaxTokens, temperature);
    }
  }

  /**
   * generate_binary_classification_answer: as the multiclass one, except that the
   * single call also carries the query, and the reasoning has a shorter heading.
   */
  method GenerateBinaryAnswer(client: ScriptedClient, model: string, finalPrompt: string, reasoningQuery: string,
                              binaryQuery: string, reasoning: bool, temperature: real)
    returns (answer: Option<(string, Usage)>)
    modifies client
    ensures var e := Classify(Binary, reasoning, old(client.script), model, finalPrompt, binaryQuery, reasoningQuery, temperature);
      client.log == old(client.log) + e.requests && client.script == e.rest
      && (answer.None? <==> e.answer.None?)
      && (answer.Some? ==> answer.value.0 == e.answer.value.0 && fresh(answer.value.1) && answer.value.1.Counts() == e.answer.value.1)
  {
    if reasoning {
      var firstPrompt := finalPrompt + "\n\n" + reasoningQuery;
      var reply1 := client.GetResponse(firstPrompt, model, MaxTokens, temperature);
      if reply1.None? {
        return None;
      }
      var (text1, usage1) := reply1.value;
      var secondPrompt := finalPrompt + "\n\nReasoning:\n" + text1 + "\n\n" + binaryQuery;
      var reply2 := client.GetResponse(secondPrompt, model, MaxTokens, temperature);
      if reply2.None? {
        return None;
      }
      var (text2, usage2) := reply2.value;
      usage1.Absorb(usage2);
      answer := Some((text2, usage1));
    } else {
      var singlePrompt := finalPrompt + "\n\n" + binaryQuery;
      answer := client.GetResponse(singlePrompt, model, MaxTokens, temperature);
    }
  }

  // ------------------------------------------------------------------
  // process_verbatims_for_multiclass_criteria / process_verbatims_for_binary_criteria
  // ------------------------------------------------------------------

  /**
   * The parameters of a batch: the classification kind, the labels it accepts (`valid_scores` for
   * the multiclass batch, 0 and 1 for the binary one), the model, the template and
   * the queries.
   */
  datatype Job = Job(task: Task, validScores: seq<int>, model: string, template: string, query: string, reasoningQuery: string, reasoning: bool)

  /** The label kept in the table: the extracted code if it is a valid label, otherwise None. */
  function CheckedLabel(code: Option<int>, valid: seq<int>): Cell
  {
    if code.Some? && code.value in valid then Int(code.value) else Null
  }

  /** A label cell the batch accepts. */
  predicate ValidLabel(c: Cell, valid: seq<int>)
  {
    c.Null? || (c.Int? && c.i in valid)
  }

  /** The parsed key-value fields of a verbatim, as row cells. */
  function FieldCells(fields: map<string, string>): Row
  {
    map k | k in fields :: Str(fields[k])
  }

  /** `{**parsed_fields, "Theme": theme_name, "Label": label}`. */
  function CriteriaRow(hooks: Hooks, verbatim: string, theme: string, labelCell: Cell): Row
  {
    FieldCells(hooks.parseKeyValueLines(verbatim))["Theme" := Str(theme)]["Label" := labelCell]
  }

  /** The template arguments of one (verbatim, codebook) pair. */
  function CriteriaArgs(verbatim: string, codebook: string): map<string, string>
  {
    map["verbatim_text" := verbatim, "codebook" := codebook]
  }

  /** One theme of one verbatim: the requests, the script left, the label, and the tokens and cost counted. */
  datatype CellResult = CellResult(requests: seq<Request>, rest: seq<Outcome>, labelCell: Cell, tokens: nat, cost: real)

  /**
   * The body of the `try` for one theme.  A call that raises, or a cost helper
   * that raises, leaves the label None and counts no tokens and no cost.
   */
  function ClassifyCell(job: Job, hooks: Hooks, script: seq<Outcome>, prompt: string): CellResult
  {
    var e := Classify(job.task, job.reasoning, script, job.model, prompt, job.query, job.reasoningQuery, BatchTemperature);
    match e.answer
    case None => CellResult(e.requests, e.rest, Null, 0, 0.0)
    case Some((text, usage)) =>
      match hooks.calculateCost(usage, job.model)
      case None => CellResult(e.requests, e.rest, Null, 0, 0.0)
      case Some(cost) =>
        CellResult(e.requests, e.rest, CheckedLabel(hooks.extractCode(text, None), job.validScores),
                   usage.totalTokens, cost)
  }

  /**
   * The state of a batch: the client's script and log, the rows and cost entries
   * so far, and whether a template failed to format, which raises out of the
   * whole batch.
   */
  datatype BatchState = BatchState(script: seq<Outcome>, log: seq<Request>, rows: seq<Row>, costs: seq<CostRecord>, aborted: bool)

  /** The inner loop over the codebook's themes for one verbatim, with the verbatim's token and cost totals. */
  function ThemesRun(job: Job, hooks: Hooks, verbatim: string, themes: seq<(string, string)>, st: BatchState): (BatchState, nat, real)
    decreases |themes|
  {
    if |themes| == 0 then (st, 0, 0.0)
    else ThemeStep(job, hooks, verbatim, themes[|themes| - 1], ThemesRun(job, hooks, verbatim, themes[..|themes| - 1], st))
  }

  /** One theme of the inner loop: format the prompt (a failure raises), classify, append the row and add up. */
  function ThemeStep(job: Job, hooks: Hooks, verbatim: string, theme: (string, string), acc: (BatchState, nat, real)): (BatchState, nat, real)
  {
    var (s, tokens, cost) := acc;
    if s.aborted then acc
    else
      match hooks.format(job.template, CriteriaArgs(verbatim, theme.1))
      case None => (s.(aborted := true), tokens, cost)
      case Some(prompt) =>
        var c := ClassifyCell(job, hooks, s.script, prompt);
        (s.(script := c.rest, log := s.log + c.requests, rows := s.rows + [CriteriaRow(hooks, verbatim, theme.0, c.labelCell)]),
         tokens + c.tokens, cost + c.cost)
  }

  /** The inner loop after one more theme. */
  lemma ThemesRunSnoc(job: Job, hooks: Hooks, verbatim: string, themes: seq<(string, string)>, j: nat, st: BatchState)
    requires j < |themes|
    ensures ThemesRun(job, hooks, verbatim, themes[..j + 1], st)
            == ThemeStep(job, hooks, verbatim, themes[j], ThemesRun(job, hooks, verbatim, themes[..j], st))
  {
    assert themes[..j + 1][..j] == themes[..j];
  }

  /**
   * The cells the inner loop classifies for one verbatim, in order, up to the
   * first template that fails to format.
   */
  function ThemeCells(job: Job, hooks: Hooks, verbatim: string, themes: seq<(string, string)>, st: BatchState): seq<CellResult>
    decreases |themes|
  {
    if |themes| == 0 then []
    else
      var init := themes[..|themes| - 1];
      var s := ThemesRun(job, hooks, verbatim, init, st).0;
      var cells := ThemeCells(job, hooks, verbatim, init, st);
      if s.aborted then cells
      else
        match hooks.format(job.template, CriteriaArgs(verbatim, themes[|themes| - 1].1))
        case None => cells
        case Some(prompt) => cells + [ClassifyCell(job, hooks, s.script, prompt)]
  }

  /** The script the cells leave: that of the last one, or `script` when there is none. */
  function After(cells: seq<CellResult>, script: seq<Outcome>): seq<Outcome>
  {
    if |cells| == 0 then script else cells[|cells| - 1].rest
  }

  /** Cell j is theme j's formatted prompt classified with the script the cells before it left. */
  predicate ChainedAt(job: Job, hooks: Hooks, verbatim: string, themes: seq<(string, string)>, cells: seq<CellResult>,
                      script: seq<Outcome>, j: nat)
  {
    j < |themes| && j < |cells|
    && hooks.format(job.template, CriteriaArgs(verbatim, themes[j].1)).Some?
    && cells[j] == ClassifyCell(job, hooks, After(cells[..j], script),
                                hooks.format(job.template, CriteriaArgs(verbatim, themes[j].1)).value)
  }

  /** One cell per theme, each classified in turn, starting from `script`. */
  predicate Chained(job: Job, hooks: Hooks, verbatim: string, themes: seq<(string, string)>, cells: seq<CellResult>,
                    script: seq<Outcome>)
  {
    |cells| == |themes| && forall j :: 0 <= j < |themes| ==> ChainedAt(job, hooks, verbatim, themes, cells, script, j)
  }

  /** The tokens the cells count. */
  function CellTokens(cells: seq<CellResult>): nat
  {
    if |cells| == 0 then 0 else CellTokens(cells[..|cells| - 1]) + cells[|cells| - 1].tokens
  }

  /** The cost the cells count. */
  function CellCost(cells: seq<CellResult>): real
  {
    if |cells| == 0 then 0.0 else CellCost(cells[..|cells| - 1]) + cells[|cells| - 1].cost
  }

  /** The requests the cells send, in order. */
  function CellRequestsOf(cells: seq<CellResult>): seq<Request>
  {
    if |cells| == 0 then [] else CellRequestsOf(cells[..|cells| - 1]) + cells[|cells| - 1].requests
  }

  /** One verbatim of the outer loop: its themes, then its cost entry, unless a template raised. */
  function VerbatimStep(job: Job, hooks: Hooks, verbatim: string, themes: seq<(string, string)>, st: BatchState): BatchState
  {
    var (s, tokens, cost) := ThemesRun(job, hooks, verbatim, themes, st);
    if s.aborted then s else s.(costs := s.costs + [CostRecord(verbatim, tokens, cost)])
  }

  /** The outer loop over the verbatims; once a template has raised nothing more happens. */
  function CriteriaRun(job: Job, hooks: Hooks, verbatims: seq<string>, themes: seq<(string, string)>, st: BatchState): BatchState
    decreases |verbatims|
  {
    if |verbatims| == 0 then st
    else
      var s := CriteriaRun(job, hooks, verbatims[..|verbatims| - 1], themes, st);
      if s.aborted then s else VerbatimStep(job, hooks, verbatims[|verbatims| - 1], themes, s)
  }

  /** Every request made for the batch asks the model for at most 500 tokens at temperature 0.0001. */
  predicate BatchRequest(job: Job, r: Request)
  {
    r.model == job.model && r.maxTokens == 500 && r.temperature == BatchTemperature
  }

  /** One theme: one request without reasoning, one or two with it, all with the batch's parameters. */
  lemma CellRequests(job: Job, hooks: Hooks, script: seq<Outcome>, prompt: string)
    ensures var c := ClassifyCell(job, hooks, script, prompt);
      (if job.reasoning then 1 <= |c.requests| <= 2 else |c.requests| == 1)
      && c.rest == Drop(script, |c.requests|)
      && forall r :: r in c.requests ==> BatchRequest(job, r)
  {
    ClassifyRequests(job.task, job.reasoning, script, job.model, prompt, job.query, job.reasoningQuery, BatchTemperature);
  }

  /** A theme whose call or cost helper raises keeps no label and counts nothing; every label kept is valid. */
  lemma CellLabel(job: Job, hooks: Hooks, script: seq<Outcome>, prompt: string)
    ensures var c := ClassifyCell(job, hooks, script, prompt);
      var e := Classify(job.task, job.reasoning, script, job.model, prompt, job.query, job.reasoningQuery, BatchTemperature);
      ValidLabel(c.labelCell, job.validScores)
      && (e.answer.None? || hooks.calculateCost(e.answer.value.1, job.model).None? ==>
            c.labelCell == Null && c.tokens == 0 && c.cost == 0.0)
      && (e.answer.Some? && hooks.calculateCost(e.answer.value.1, job.model).Some? ==>
            c.tokens == e.answer.value.1.totalTokens
            && c.cost == hooks.calculateCost(e.answer.value.1, job.model).value
            && (var code := hooks.extractCode(e.answer.value.0, None);
                (c.labelCell == Null <==> code.None? || code.value !in job.validScores)
                && (code.Some? && code.value in job.validScores ==> c.labelCell == Int(code.value))))
  {
  }

  /** Row base + j is theme j's row: the parsed fields, the theme, and the valid label of cell j. */
  predicate CellRowAt(hooks: Hooks, valid: seq<int>, rows: seq<Row>, base: nat, verbatim: string,
                      themes: seq<(string, string)>, cells: seq<CellResult>, j: nat)
  {
    base + j < |rows| && j < |themes| && j < |cells|
    && rows[base + j] == CriteriaRow(hooks, verbatim, themes[j].0, cells[j].labelCell)
    && ValidLabel(cells[j].labelCell, valid)
  }

  /** Some template formatting fails for this verbatim. */
  predicate FormatFailsFor(job: Job, hooks: Hooks, verbatim: string, themes: seq<(string, string)>)
  {
    exists j :: 0 <= j < |themes| && hooks.format(job.template, CriteriaArgs(verbatim, themes[j].1)).None?
  }

  /** A prefix of a sequence is a prefix of anything appended to it. */
  lemma PrefixOfAppend<T>(a: seq<T>, b: seq<T>, k: nat)
    requires k <= |a|
    ensures (a + b)[..k] == a[..k]
  {
  }

  /** The inner loop raises exactly when one of the verbatim's templates fails to format; it adds no cost entry. */
  lemma {:induction false} ThemesAbort(job: Job, hooks: Hooks, verbatim: string, themes: seq<(string, string)>, st: BatchState)
    requires !st.aborted
    ensures ThemesRun(job, hooks, verbatim, themes, st).0.aborted <==> FormatFailsFor(job, hooks, verbatim, themes)
    ensures ThemesRun(job, hooks, verbatim, themes, st).0.costs == st.costs
    decreases |themes|
  {
    if |themes| > 0 {
      var init := themes[..|themes| - 1];
      ThemesAbort(job, hooks, verbatim, init, st);
      ThemeStepAbort(job, hooks, verbatim, themes[|themes| - 1], ThemesRun(job, hooks, verbatim, init, st));
      FormatFailsSnoc(job, hooks, verbatim, themes);
    }
  }

  /** Some template of the themes fails exactly when one of the earlier themes' does or the last one's does. */
  lemma FormatFailsSnoc(job: Job, hooks: Hooks, verbatim: string, themes: seq<(string, string)>)
    requires |themes| > 0
    ensures FormatFailsFor(job, hooks, verbatim, themes)
            <==> FormatFailsFor(job, hooks, verbatim, themes[..|themes| - 1])
                 || hooks.format(job.template, CriteriaArgs(verbatim, themes[|themes| - 1].1)).None?
  {
    var init := themes[..|themes| - 1];
    if FormatFailsFor(job, hooks, verbatim, init) {
      var j :| 0 <= j < |init| && hooks.format(job.template, CriteriaArgs(verbatim, init[j].1)).None?;
      assert themes[j] == init[j];
    }
    if FormatFailsFor(job, hooks, verbatim, themes) {
      var j :| 0 <= j < |themes| && hooks.format(job.template, CriteriaArgs(verbatim, themes[j].1)).None?;
      if j < |init| {
        assert themes[j] == init[j];
      }
    }
  }

  /** One theme aborts exactly when it was aborted before or its template fails to format; it adds no cost entry. */
  lemma ThemeStepAbort(job: Job, hooks: Hooks, verbatim: string, theme: (string, string), acc: (BatchState, nat, real))
    ensures ThemeStep(job, hooks, verbatim, theme, acc).0.aborted
            <==> acc.0.aborted || hooks.format(job.template, CriteriaArgs(verbatim, theme.1)).None?
    ensures ThemeStep(job, hooks, verbatim, theme, acc).0.costs == acc.0.costs
  {
  }

  /** `b` is `a` followed by requests with the batch's parameters. */
  predicate Extends(job: Job, a: seq<Request>, b: seq<Request>)
  {
    |a| <= |b| && b[..|a|] == a && forall k :: |a| <= k < |b| ==> BatchRequest(job, b[k])
  }

  /** `sent` requests for `cells` classified cells: one each, or one to two each with reasoning. */
  predicate RequestCount(reasoning: bool, cells: nat, sent: int)
  {
    if reasoning then cells <= sent <= 2 * cells else sent == cells
  }

  lemma ExtendsTrans(job: Job, a: seq<Request>, b: seq<Request>, c: seq<Request>)
    requires Extends(job, a, b) && Extends(job, b, c)
    ensures Extends(job, a, c)
  {
    assert c[..|b|][..|a|] == c[..|a|];
    forall k | |a| <= k < |c| ensures BatchRequest(job, c[k]) {
      if k < |b| {
        assert c[k] == c[..|b|][k];
      }
    }
  }

  lemma ExtendsAppend(job: Job, a: seq<Request>, rs: seq<Request>)
    requires forall r :: r in rs ==> BatchRequest(job, r)
    ensures Extends(job, a, a + rs)
  {
    assert (a + rs)[..|a|] == a;
    forall k | |a| <= k < |a + rs| ensures BatchRequest(job, (a + rs)[k]) {
      assert (a + rs)[k] == rs[k - |a|];
    }
  }

  lemma RequestCountAdd(reasoning: bool, c0: nat, d0: int, c1: nat, d1: int)
    requires RequestCount(reasoning, c0, d0) && RequestCount(reasoning, c1, d1)
    ensures RequestCount(reasoning, c0 + c1, d0 + d1)
  {
  }

  /**
   * The inner loop only appends to the log, every request it sends has the batch's
   * parameters, and when it completes it has sent one request per theme, or
   * between one and two with reasoning.
   */
  lemma {:induction false} ThemesLog(job: Job, hooks: Hooks, verbatim: string, themes: seq<(string, string)>, st: BatchState)
    requires !st.aborted
    ensures var s := ThemesRun(job, hooks, verbatim, themes, st).0;
      Extends(job, st.log, s.log) && (!s.aborted ==> RequestCount(job.reasoning, |themes|, |s.log| - |st.log|))
    decreases |themes|
  {
    if |themes| == 0 {
      assert st.log[..|st.log|] == st.log;
    } else {
      var init := themes[..|themes| - 1];
      ThemesLog(job, hooks, verbatim, init, st);
      var s0 := ThemesRun(job, hooks, verbatim, init, st).0;
      var codebook := themes[|themes| - 1].1;
      if !s0.aborted {
        match hooks.format(job.template, CriteriaArgs(verbatim, codebook))
        case None =>
        case Some(prompt) =>
          var c := ClassifyCell(job, hooks, s0.script, prompt);
          CellRequests(job, hooks, s0.script, prompt);
          var s := ThemesRun(job, hooks, verbatim, themes, st).0;
          assert s.log == s0.log + c.requests;
          ExtendsAppend(job, s0.log, c.requests);
          ExtendsTrans(job, st.log, s0.log, s.log);
          RequestCountAdd(job.reasoning, |init|, |s0.log| - |st.log|, 1, |c.requests|);
      }
    }
  }

  /** When the inner loop completes it has appended one row per theme, in order, each with the label of its cell. */
  lemma {:induction false} ThemesRows(job: Job, hooks: Hooks, verbatim: string, themes: seq<(string, string)>, st: BatchState)
    requires !st.aborted
    ensures var s := ThemesRun(job, hooks, verbatim, themes, st).0;
      var cells := ThemeCells(job, hooks, verbatim, themes, st);
      !s.aborted ==>
        |s.rows| == |st.rows| + |themes| && s.rows[..|st.rows|] == st.rows && |cells| == |themes|
        && forall j :: 0 <= j < |themes| ==> CellRowAt(hooks, job.validScores, s.rows, |st.rows|, verbatim, themes, cells, j)
    decreases |themes|
  {
    if |themes| > 0 {
      var init := themes[..|themes| - 1];
      ThemesRows(job, hooks, verbatim, init, st);
      var s0 := ThemesRun(job, hooks, verbatim, init, st).0;
      var cells0 := ThemeCells(job, hooks, verbatim, init, st);
      var codebook := themes[|themes| - 1].1;
      if !s0.aborted {
        match hooks.format(job.template, CriteriaArgs(verbatim, codebook))
        case None =>
        case Some(prompt) =>
          CellLabel(job, hooks, s0.script, prompt);
          ThemesLast(job, hooks, verbatim, themes, st, prompt);
          RowsStep(hooks, job.validScores, verbatim, init, themes, st.rows, s0.rows, ThemesRun(job, hooks, verbatim, themes, st).0.rows,
                   cells0, ClassifyCell(job, hooks, s0.script, prompt));
      }
    }
  }

  /**
   * A completed inner loop classifies one cell per theme, in turn, starting from
   * the client's script, and leaves the script the last cell left; the log gains
   * the cells' requests, and the verbatim's tokens and cost are the sums of the
   * cells' (a cell whose call or cost helper raised counts 0).
   */
  lemma {:induction false} ThemesCells(job: Job, hooks: Hooks, verbatim: string, themes: seq<(string, string)>, st: BatchState)
    requires !st.aborted
    ensures var r := ThemesRun(job, hooks, verbatim, themes, st);
      var cells := ThemeCells(job, hooks, verbatim, themes, st);
      !r.0.aborted ==>
        Chained(job, hooks, verbatim, themes, cells, st.script)
        && r.0.script == After(cells, st.script) && r.0.log == st.log + CellRequestsOf(cells)
        && r.1 == CellTokens(cells) && r.2 == CellCost(cells)
    decreases |themes|
  {
    if |themes| > 0 {
      var n := |themes| - 1;
      var init := themes[..n];
      ThemesCells(job, hooks, verbatim, init, st);
      var r0 := ThemesRun(job, hooks, verbatim, init, st);
      if !r0.0.aborted {
        match hooks.format(job.template, CriteriaArgs(verbatim, themes[n].1))
        case None =>
        case Some(prompt) =>
          ThemesLast(job, hooks, verbatim, themes, st, prompt);
          CellsStep(job, hooks, verbatim, themes, st.script, st.log, ThemeCells(job, hooks, verbatim, init, st),
                    ClassifyCell(job, hooks, r0.0.script, prompt), r0, ThemesRun(job, hooks, verbatim, themes, st), prompt);
      }
    }
  }

  /**
   * The step of ThemesCells, on values: chained cells whose sums are the totals so
   * far, followed by one more cell classified where they left the script.
   */
  lemma CellsStep(job: Job, hooks: Hooks, verbatim: string, themes: seq<(string, string)>, script: seq<Outcome>,
                  log0: seq<Request>, cells0: seq<CellResult>, c: CellResult, r0: (BatchState, nat, real),
                  r: (BatchState, nat, real), prompt: string)
    requires |themes| > 0 && Chained(job, hooks, verbatim, themes[..|themes| - 1], cells0, script)
    requires r0.0.script == After(cells0, script) && r0.0.log == log0 + CellRequestsOf(cells0)
    requires r0.1 == CellTokens(cells0) && r0.2 == CellCost(cells0)
    requires hooks.format(job.template, CriteriaArgs(verbatim, themes[|themes| - 1].1)) == Some(prompt)
    requires c == ClassifyCell(job, hooks, r0.0.script, prompt)
    requires r.0.script == c.rest && r.0.log == r0.0.log + c.requests && r.1 == r0.1 + c.tokens && r.2 == r0.2 + c.cost
    ensures var cells := cells0 + [c];
      Chained(job, hooks, verbatim, themes, cells, script)
      && r.0.script == After(cells, script) && r.0.log == log0 + CellRequestsOf(cells)
      && r.1 == CellTokens(cells) && r.2 == CellCost(cells)
  {
    CellSumsSnoc(cells0, c);
    ChainedSnoc(job, hooks, verbatim, themes, cells0, c, script, prompt);
  }

  /**
   * The step of ThemesRows, on values: rows for the first themes' cells, followed by
   * the row of one more cell with a valid label.
   */
  lemma RowsStep(hooks: Hooks, valid: seq<int>, verbatim: string, init: seq<(string, string)>, themes: seq<(string, string)>,
                 base: seq<Row>, rows0: seq<Row>, rows: seq<Row>, cells0: seq<CellResult>, c: CellResult)
    requires |themes| > 0 && init == themes[..|themes| - 1] && |cells0| == |init|
    requires |rows0| == |base| + |init| && rows0[..|base|] == base
    requires forall j :: 0 <= j < |init| ==> CellRowAt(hooks, valid, rows0, |base|, verbatim, init, cells0, j)
    requires rows == rows0 + [CriteriaRow(hooks, verbatim, themes[|themes| - 1].0, c.labelCell)] && ValidLabel(c.labelCell, valid)
    ensures |rows| == |base| + |themes| && rows[..|base|] == base && |cells0 + [c]| == |themes|
    ensures forall j :: 0 <= j < |themes| ==> CellRowAt(hooks, valid, rows, |base|, verbatim, themes, cells0 + [c], j)
  {
    var cells := cells0 + [c];
    PrefixOfAppend(rows0, [rows[|rows0|]], |base|);
    forall j | 0 <= j < |themes| ensures CellRowAt(hooks, valid, rows, |base|, verbatim, themes, cells, j) {
      if j < |init| {
        assert CellRowAt(hooks, valid, rows0, |base|, verbatim, init, cells0, j);
        assert themes[j] == init[j] && cells[j] == cells0[j];
        assert rows[|base| + j] == rows0[|base| + j];
      }
    }
  }

  /** The last theme, whose template formats to prompt, adds one cell, classified where the first themes left the script. */
  lemma ThemesLast(job: Job, hooks: Hooks, verbatim: string, themes: seq<(string, string)>, st: BatchState, prompt: string)
    requires |themes| > 0
    requires !ThemesRun(job, hooks, verbatim, themes[..|themes| - 1], st).0.aborted
    requires hooks.format(job.template, CriteriaArgs(verbatim, themes[|themes| - 1].1)) == Some(prompt)
    ensures var init := themes[..|themes| - 1];
      var r0 := ThemesRun(job, hooks, verbatim, init, st);
      var c := ClassifyCell(job, hooks, r0.0.script, prompt);
      var r := ThemesRun(job, hooks, verbatim, themes, st);
      ThemeCells(job, hooks, verbatim, themes, st) == ThemeCells(job, hooks, verbatim, init, st) + [c]
      && r.0.script == c.rest && r.0.log == r0.0.log + c.requests && r.1 == r0.1 + c.tokens && r.2 == r0.2 + c.cost
      && r.0.rows == r0.0.rows + [CriteriaRow(hooks, verbatim, themes[|themes| - 1].0, c.labelCell)] && !r.0.aborted
  {
  }

  /** The sums over the cells after one more cell. */
  lemma CellSumsSnoc(cells: seq<CellResult>, c: CellResult)
    ensures CellTokens(cells + [c]) == CellTokens(cells) + c.tokens
    ensures CellCost(cells + [c]) == CellCost(cells) + c.cost
    ensures CellRequestsOf(cells + [c]) == CellRequestsOf(cells) + c.requests
  {
    assert (cells + [c])[..|cells|] == cells;
  }

  /** The cells of the first themes, chained, followed by the last theme's cell classified where they left the script. */
  lemma ChainedSnoc(job: Job, hooks: Hooks, verbatim: string, themes: seq<(string, string)>, cells0: seq<CellResult>,
                    c: CellResult, script: seq<Outcome>, prompt: string)
    requires |themes| > 0 && Chained(job, hooks, verbatim, themes[..|themes| - 1], cells0, script)
    requires hooks.format(job.template, CriteriaArgs(verbatim, themes[|themes| - 1].1)) == Some(prompt)
    requires c == ClassifyCell(job, hooks, After(cells0, script), prompt)
    ensures Chained(job, hooks, verbatim, themes, cells0 + [c], script)
  {
    var n := |themes| - 1;
    var init := themes[..n];
    var cells := cells0 + [c];
    forall j | 0 <= j < |themes| ensures ChainedAt(job, hooks, verbatim, themes, cells, script, j) {
      if j < n {
        assert ChainedAt(job, hooks, verbatim, init, cells0, script, j);
        assert themes[j] == init[j];
        assert cells[..j] == cells0[..j];
        assert cells[j] == cells0[j];
      } else {
        assert cells[..j] == cells0;
      }
    }
  }

  /** The total tokens of the replies among the first k outcomes of the script. */
  function ReplyTokens(script: seq<Outcome>, k: nat): nat
  {
    if k == 0 then 0
    else ReplyTokens(script, k - 1) + (if k - 1 < |script| && script[k - 1].Reply? then script[k - 1].usage.totalTokens else 0)
  }

  /** Dropping k outcomes, then one more. */
  lemma DropNext(script: seq<Outcome>, k: nat)
    ensures Rest(Drop(script, k)) == Drop(script, k + 1)
    ensures Next(Drop(script, k)) == (if k < |script| then script[k] else Failure)
  {
    if k < |script| {
      assert script[k..][1..] == script[k + 1..];
    }
  }

  /**
   * Without reasoning, and with a cost helper that prices every model, a completed
   * inner loop consumes one outcome per theme, and the verbatim's token count is
   * the total tokens of the replies among them: a call that raised counts 0.
   */
  lemma {:induction false} ThemesTokens(job: Job, hooks: Hooks, verbatim: string, themes: seq<(string, string)>, st: BatchState)
    requires !st.aborted && !job.reasoning
    requires forall u, m :: hooks.calculateCost(u, m).Some?
    ensures var (s, tokens, _) := ThemesRun(job, hooks, verbatim, themes, st);
      !s.aborted ==> s.script == Drop(st.script, |themes|) && tokens == ReplyTokens(st.script, |themes|)
    decreases |themes|
  {
    if |themes| > 0 {
      var n := |themes| - 1;
      ThemesTokens(job, hooks, verbatim, themes[..n], st);
      var (s0, tokens0, _) := ThemesRun(job, hooks, verbatim, themes[..n], st);
      if !s0.aborted {
        DropNext(st.script, n);
        match hooks.format(job.template, CriteriaArgs(verbatim, themes[n].1))
        case None =>
        case Some(prompt) =>
          CellRequests(job, hooks, s0.script, prompt);
          CellLabel(job, hooks, s0.script, prompt);
      }
    }
  }

  /** Some template formatting fails somewhere in the batch. */
  predicate BatchFormatFails(job: Job, hooks: Hooks, verbatims: seq<string>, themes: seq<(string, string)>)
  {
    exists i :: 0 <= i < |verbatims| && FormatFailsFor(job, hooks, verbatims[i], themes)
  }

  /** One block of m rows for each of n verbatims: row base + i * m + j is a row `ok` accepts for verbatim i and theme j. */
  predicate Blocks(ok: (Row, nat, nat) -> bool, rows: seq<Row>, base: nat, n: nat, m: nat)
  {
    |rows| == base + n * m
    && forall i, j :: 0 <= i < n && 0 <= j < m ==> BlockOk(ok, rows, base, n, m, i, j)
  }

  /** Row base + i * m + j exists and is one `ok` accepts for verbatim i and theme j. */
  predicate BlockOk(ok: (Row, nat, nat) -> bool, rows: seq<Row>, base: nat, n: nat, m: nat, i: nat, j: nat)
  {
    i < n && j < m && base + i * m + j < |rows| && ok(rows[base + i * m + j], i, j)
  }

  /** Row at + j exists and is one `ok` accepts for verbatim i and theme j. */
  predicate NewBlockOk(ok: (Row, nat, nat) -> bool, rows: seq<Row>, at: nat, i: nat, j: nat)
  {
    at + j < |rows| && ok(rows[at + j], i, j)
  }

  /** The cells of verbatim i of the batch, classified from the state the first i verbatims left. */
  function BatchCells(job: Job, hooks: Hooks, verbatims: seq<string>, themes: seq<(string, string)>, st: BatchState, i: nat)
    : seq<CellResult>
    requires i < |verbatims|
  {
    ThemeCells(job, hooks, verbatims[i], themes, CriteriaRun(job, hooks, verbatims[..i], themes, st))
  }

  /** The row of verbatim i and theme j: the verbatim's parsed fields, the theme, and the valid label of their cell. */
  predicate BatchRowIs(job: Job, hooks: Hooks, verbatims: seq<string>, themes: seq<(string, string)>, st: BatchState,
                       row: Row, i: nat, j: nat)
    requires i < |verbatims|
  {
    var cells := BatchCells(job, hooks, verbatims, themes, st, i);
    j < |themes| && j < |cells|
    && row == CriteriaRow(hooks, verbatims[i], themes[j].0, cells[j].labelCell)
    && ValidLabel(cells[j].labelCell, job.validScores)
  }

  function BatchRowOk(job: Job, hooks: Hooks, verbatims: seq<string>, themes: seq<(string, string)>, st: BatchState)
    : (Row, nat, nat) -> bool
  {
    (row: Row, i: nat, j: nat) => i < |verbatims| && BatchRowIs(job, hooks, verbatims, themes, st, row, i, j)
  }

  /** After base, the rows of the first k verbatims, theme by theme. */
  predicate BatchRows(job: Job, hooks: Hooks, rows: seq<Row>, base: nat, verbatims: seq<string>, themes: seq<(string, string)>,
                      st: BatchState, k: nat)
  {
    Blocks(BatchRowOk(job, hooks, verbatims, themes, st), rows, base, k, |themes|)
  }

  /** The cost entry of verbatim i: the tokens and the cost its cells counted. */
  function VerbatimRecord(job: Job, hooks: Hooks, verbatims: seq<string>, themes: seq<(string, string)>, st: BatchState, i: nat)
    : CostRecord
    requires i < |verbatims|
  {
    var cells := BatchCells(job, hooks, verbatims, themes, st, i);
    CostRecord(verbatims[i], CellTokens(cells), CellCost(cells))
  }

  /** After base, the cost entries of the first k verbatims, in order. */
  predicate BatchCosts(job: Job, hooks: Hooks, costs: seq<CostRecord>, base: seq<CostRecord>, verbatims: seq<string>,
                       themes: seq<(string, string)>, st: BatchState, k: nat)
  {
    k <= |verbatims| && |costs| == |base| + k && costs[..|base|] == base
    && forall i :: 0 <= i < k ==> costs[|base| + i] == VerbatimRecord(job, hooks, verbatims, themes, st, i)
  }

  /** Multiplication by a natural number is monotonic. */
  lemma {:induction false} MulMono(a: nat, b: nat, m: nat)
    requires a <= b
    ensures a * m <= b * m
    decreases b - a
  {
    if a < b {
      MulMono(a, b - 1, m);
      assert (b - 1) * m + m == b * m;
    }
  }

  /** Row i * m + j of n blocks of m rows lies in block i. */
  lemma {:induction false} BlockIndex(i: nat, j: nat, n: nat, m: nat)
    requires i < n && j < m
    ensures i * m + j < n * m
    ensures i + 1 < n ==> i * m + j < (n - 1) * m
  {
    assert (i + 1) * m == i * m + m;
    MulMono(i + 1, n, m);
    if i + 1 < n {
      MulMono(i + 1, n - 1, m);
    }
  }

  /**
   * One verbatim raises exactly when one of its templates fails to format; a
   * completed one adds one cost entry: the verbatim, with the tokens and the cost
   * its cells counted.
   */
  lemma VerbatimAbort(job: Job, hooks: Hooks, verbatim: string, themes: seq<(string, string)>, st: BatchState)
    requires !st.aborted
    ensures var s := VerbatimStep(job, hooks, verbatim, themes, st);
      var cells := ThemeCells(job, hooks, verbatim, themes, st);
      (s.aborted <==> FormatFailsFor(job, hooks, verbatim, themes))
      && (!s.aborted ==> |s.costs| == |st.costs| + 1 && s.costs[..|st.costs|] == st.costs
                         && s.costs[|st.costs|] == CostRecord(verbatim, CellTokens(cells), CellCost(cells)))
  {
    ThemesAbort(job, hooks, verbatim, themes, st);
    ThemesCells(job, hooks, verbatim, themes, st);
    var s := VerbatimStep(job, hooks, verbatim, themes, st);
    if !s.aborted {
      var s1 := ThemesRun(job, hooks, verbatim, themes, st).0;
      PrefixOfAppend(s1.costs, [s.costs[|st.costs|]], |st.costs|);
    }
  }

  /** Some pair of the batch fails to format exactly when one of the first verbatims' pairs, or the last one's, does. */
  lemma BatchFormatFailsSnoc(job: Job, hooks: Hooks, verbatims: seq<string>, themes: seq<(string, string)>)
    requires |verbatims| > 0
    ensures var n := |verbatims| - 1;
      BatchFormatFails(job, hooks, verbatims, themes)
      == (BatchFormatFails(job, hooks, verbatims[..n], themes) || FormatFailsFor(job, hooks, verbatims[n], themes))
  {
    var n := |verbatims| - 1;
    var init := verbatims[..n];
    if BatchFormatFails(job, hooks, init, themes) {
      var i :| 0 <= i < |init| && FormatFailsFor(job, hooks, init[i], themes);
      assert verbatims[i] == init[i];
    }
    if BatchFormatFails(job, hooks, verbatims, themes) {
      var i :| 0 <= i < |verbatims| && FormatFailsFor(job, hooks, verbatims[i], themes);
      if i < n {
        assert verbatims[i] == init[i];
      }
    }
  }

  /** The batch raises exactly when some (verbatim, codebook) pair fails to format. */
  lemma {:induction false} CriteriaAbort(job: Job, hooks: Hooks, verbatims: seq<string>, themes: seq<(string, string)>, st: BatchState)
    requires !st.aborted
    ensures CriteriaRun(job, hooks, verbatims, themes, st).aborted <==> BatchFormatFails(job, hooks, verbatims, themes)
    decreases |verbatims|
  {
    if |verbatims| > 0 {
      var n := |verbatims| - 1;
      CriteriaAbort(job, hooks, verbatims[..n], themes, st);
      var s0 := CriteriaRun(job, hooks, verbatims[..n], themes, st);
      if !s0.aborted {
        VerbatimAbort(job, hooks, verbatims[n], themes, s0);
      }
      BatchFormatFailsSnoc(job, hooks, verbatims, themes);
    }
  }

  /** One more block of `m` cells after `n` blocks. */
  lemma BlocksStep(n: nat, m: nat)
    ensures n * m + m == (n + 1) * m
  {
  }

  /** The request count of the first verbatims' blocks, and of one more block. */
  lemma RequestCountSnoc(reasoning: bool, init: seq<string>, verbatims: seq<string>, m: nat, d0: int, d1: int)
    requires |verbatims| == |init| + 1
    requires RequestCount(reasoning, |init| * m, d0) && RequestCount(reasoning, m, d1)
    ensures RequestCount(reasoning, |verbatims| * m, d0 + d1)
  {
    BlocksStep(|init|, m);
  }

  /** `costs` is `base` followed by one cost entry per verbatim, in order. */
  predicate CostsFor(costs: seq<CostRecord>, base: seq<CostRecord>, verbatims: seq<string>)
  {
    |costs| == |base| + |verbatims| && costs[..|base|] == base
    && forall i :: 0 <= i < |verbatims| ==> costs[|base| + i].verbatim == verbatims[i]
  }

  /** The entries of the first verbatims, followed by the entry of one more. */
  lemma CostsSnoc(costs0: seq<CostRecord>, costs: seq<CostRecord>, base: seq<CostRecord>, init: seq<string>, v: string)
    requires CostsFor(costs0, base, init)
    requires |costs| == |costs0| + 1 && costs[..|costs0|] == costs0 && costs[|costs0|].verbatim == v
    ensures CostsFor(costs, base, init + [v])
  {
    assert costs[..|costs0|][..|base|] == costs[..|base|];
    forall i | 0 <= i < |init + [v]| ensures costs[|base| + i].verbatim == (init + [v])[i] {
      if i < |init| {
        assert costs[|base| + i] == costs[..|costs0|][|base| + i];
      }
    }
  }

  /**
   * The batch only appends to the log; every request has the batch's parameters;
   * a completed batch has sent one request per row, or one to two with reasoning.
   */
  lemma {:induction false} CriteriaLog(job: Job, hooks: Hooks, verbatims: seq<string>, themes: seq<(string, string)>, st: BatchState)
    requires !st.aborted
    ensures var s := CriteriaRun(job, hooks, verbatims, themes, st);
      Extends(job, st.log, s.log)
      && (!s.aborted ==> RequestCount(job.reasoning, |verbatims| * |themes|, |s.log| - |st.log|))
    decreases |verbatims|
  {
    if |verbatims| == 0 {
      assert st.log[..|st.log|] == st.log;
    } else {
      var n := |verbatims| - 1;
      var init := verbatims[..n];
      CriteriaLog(job, hooks, init, themes, st);
      var s0 := CriteriaRun(job, hooks, init, themes, st);
      if !s0.aborted {
        ThemesLog(job, hooks, verbatims[n], themes, s0);
        var s1 := ThemesRun(job, hooks, verbatims[n], themes, s0).0;
        assert CriteriaRun(job, hooks, verbatims, themes, st) == VerbatimStep(job, hooks, verbatims[n], themes, s0);
        ExtendsTrans(job, st.log, s0.log, s1.log);
        if !s1.aborted {
          RequestCountSnoc(job.reasoning, init, verbatims, |themes|, |s0.log| - |st.log|, |s1.log| - |s0.log|);
        }
      }
    }
  }

  /** A completed verbatim appends one row per theme after the rows so far, each with the label of its cell. */
  lemma VerbatimRows(job: Job, hooks: Hooks, verbatim: string, themes: seq<(string, string)>, st: BatchState)
    requires !st.aborted
    ensures var s := VerbatimStep(job, hooks, verbatim, themes, st);
      var cells := ThemeCells(job, hooks, verbatim, themes, st);
      !s.aborted ==>
        |s.rows| == |st.rows| + |themes| && s.rows[..|st.rows|] == st.rows
        && forall j :: 0 <= j < |themes| ==> CellRowAt(hooks, job.validScores, s.rows, |st.rows|, verbatim, themes, cells, j)
  {
    ThemesRows(job, hooks, verbatim, themes, st);
  }

  /** A non-empty sequence is its prefix followed by its last element. */
  lemma SplitLast<T>(xs: seq<T>)
    requires |xs| > 0
    ensures xs[..|xs| - 1] + [xs[|xs| - 1]] == xs
  {
  }

  /** A prefix of a prefix is a prefix. */
  lemma PrefixOfPrefix<T>(a: seq<T>, b: seq<T>, c: seq<T>)
    requires |c| <= |b| <= |a| && a[..|b|] == b && b[..|c|] == c
    ensures a[..|c|] == c
  {
    assert a[..|b|][..|c|] == a[..|c|];
  }

  /** Cell (i, j) of n + 1 blocks: from the first n blocks, or from the new block. */
  lemma BlockCell(ok: (Row, nat, nat) -> bool, rows0: seq<Row>, rows: seq<Row>, b: nat, n: nat, m: nat, i: nat, j: nat)
    requires i < n + 1 && j < m
    requires Blocks(ok, rows0, b, n, m)
    requires |rows| == |rows0| + m && rows[..|rows0|] == rows0
    requires forall j :: 0 <= j < m ==> NewBlockOk(ok, rows, |rows0|, n, j)
    ensures BlockOk(ok, rows, b, n + 1, m, i, j)
  {
    BlockIndex(i, j, n + 1, m);
    var k := b + i * m + j;
    if i < n {
      assert BlockOk(ok, rows0, b, n, m, i, j);
      assert rows[k] == rows[..|rows0|][k];
    } else {
      assert k == |rows0| + j;
      assert NewBlockOk(ok, rows, |rows0|, n, j);
    }
  }

  /** n blocks followed by one block for the next verbatim are n + 1 blocks. */
  lemma BlocksSnoc(ok: (Row, nat, nat) -> bool, rows0: seq<Row>, rows: seq<Row>, b: nat, n: nat, m: nat)
    requires Blocks(ok, rows0, b, n, m)
    requires |rows| == |rows0| + m && rows[..|rows0|] == rows0
    requires forall j :: 0 <= j < m ==> NewBlockOk(ok, rows, |rows0|, n, j)
    ensures Blocks(ok, rows, b, n + 1, m)
  {
    BlocksStep(n, m);
    var n1 := n + 1;
    forall i, j | 0 <= i < n1 && 0 <= j < m ensures BlockOk(ok, rows, b, n1, m, i, j) {
      BlockCell(ok, rows0, rows, b, n, m, i, j);
    }
  }

  /** The rows of the first k verbatims, followed by one row per theme for verbatim k. */
  lemma BatchRowsSnoc(job: Job, hooks: Hooks, base: seq<Row>, rows0: seq<Row>, rows: seq<Row>,
                      verbatims: seq<string>, themes: seq<(string, string)>, st: BatchState, k: nat)
    requires k < |verbatims|
    requires |base| <= |rows0| && rows0[..|base|] == base
    requires BatchRows(job, hooks, rows0, |base|, verbatims, themes, st, k)
    requires |rows| == |rows0| + |themes| && rows[..|rows0|] == rows0
    requires forall j :: 0 <= j < |themes| ==>
      CellRowAt(hooks, job.validScores, rows, |rows0|, verbatims[k], themes, BatchCells(job, hooks, verbatims, themes, st, k), j)
    ensures |base| <= |rows| && rows[..|base|] == base
    ensures BatchRows(job, hooks, rows, |base|, verbatims, themes, st, k + 1)
  {
    PrefixOfPrefix(rows, rows0, base);
    var ok := BatchRowOk(job, hooks, verbatims, themes, st);
    forall j | 0 <= j < |themes| ensures NewBlockOk(ok, rows, |rows0|, k, j) {
      assert CellRowAt(hooks, job.validScores, rows, |rows0|, verbatims[k], themes, BatchCells(job, hooks, verbatims, themes, st, k), j);
    }
    BlocksSnoc(ok, rows0, rows, |base|, k, |themes|);
  }

  /** The first k verbatims of a batch: the rows, verbatim by verbatim, each with the label of its cell. */
  lemma {:induction false} CriteriaRowsUpTo(job: Job, hooks: Hooks, verbatims: seq<string>, themes: seq<(string, string)>,
                                            st: BatchState, k: nat)
    requires !st.aborted && k <= |verbatims|
    ensures var s := CriteriaRun(job, hooks, verbatims[..k], themes, st);
      !s.aborted ==>
        |st.rows| <= |s.rows| && s.rows[..|st.rows|] == st.rows
        && BatchRows(job, hooks, s.rows, |st.rows|, verbatims, themes, st, k)
    decreases k
  {
    if k == 0 {
      assert st.rows[..|st.rows|] == st.rows;
    } else {
      CriteriaRowsUpTo(job, hooks, verbatims, themes, st, k - 1);
      var s0 := CriteriaRun(job, hooks, verbatims[..k - 1], themes, st);
      CriteriaRunSnoc(job, hooks, verbatims, themes, k - 1, st);
      var s := CriteriaRun(job, hooks, verbatims[..k], themes, st);
      if !s.aborted {
        VerbatimRows(job, hooks, verbatims[k - 1], themes, s0);
        var cells := BatchCells(job, hooks, verbatims, themes, st, k - 1);
        assert cells == ThemeCells(job, hooks, verbatims[k - 1], themes, s0);
        assert s == VerbatimStep(job, hooks, verbatims[k - 1], themes, s0);
        var v := verbatims[k - 1];
        var at := |s0.rows|;
        forall j | 0 <= j < |themes| ensures CellRowAt(hooks, job.validScores, s.rows, at, v, themes, cells, j) {
          assert CellRowAt(hooks, job.validScores, s.rows, at, v, themes, ThemeCells(job, hooks, v, themes, s0), j);
        }
        BatchRowsSnoc(job, hooks, st.rows, s0.rows, s.rows, verbatims, themes, st, k - 1);
      }
    }
  }

  /**
   * A completed batch has one row per verbatim and theme, verbatim by verbatim;
   * row i * |themes| + j (after the rows so far) holds verbatim i's parsed fields,
   * theme j's name, and the valid label of their cell.
   */
  lemma CriteriaRows(job: Job, hooks: Hooks, verbatims: seq<string>, themes: seq<(string, string)>, st: BatchState)
    requires !st.aborted
    ensures var s := CriteriaRun(job, hooks, verbatims, themes, st);
      !s.aborted ==>
        |st.rows| <= |s.rows| && s.rows[..|st.rows|] == st.rows
        && BatchRows(job, hooks, s.rows, |st.rows|, verbatims, themes, st, |verbatims|)
  {
    CriteriaRowsUpTo(job, hooks, verbatims, themes, st, |verbatims|);
    assert verbatims[..|verbatims|] == verbatims;
  }

  /** The cost entries of the first k verbatims, followed by the entry of verbatim k. */
  lemma BatchCostsSnoc(job: Job, hooks: Hooks, costs0: seq<CostRecord>, costs: seq<CostRecord>, base: seq<CostRecord>,
                       verbatims: seq<string>, themes: seq<(string, string)>, st: BatchState, k: nat)
    requires k < |verbatims| && BatchCosts(job, hooks, costs0, base, verbatims, themes, st, k)
    requires |costs| == |costs0| + 1 && costs[..|costs0|] == costs0
    requires costs[|costs0|] == VerbatimRecord(job, hooks, verbatims, themes, st, k)
    ensures BatchCosts(job, hooks, costs, base, verbatims, themes, st, k + 1)
  {
    PrefixOfPrefix(costs, costs0, base);
    forall i | 0 <= i < k + 1 ensures costs[|base| + i] == VerbatimRecord(job, hooks, verbatims, themes, st, i) {
      if i < k {
        assert costs[|base| + i] == costs[..|costs0|][|base| + i];
      }
    }
  }

  /** The first k verbatims of a batch: one cost entry each, in order, with the tokens and cost of its cells. */
  lemma {:induction false} CriteriaCostsUpTo(job: Job, hooks: Hooks, verbatims: seq<string>, themes: seq<(string, string)>,
                                             st: BatchState, k: nat)
    requires !st.aborted && k <= |verbatims|
    ensures var s := CriteriaRun(job, hooks, verbatims[..k], themes, st);
      !s.aborted ==> BatchCosts(job, hooks, s.costs, st.costs, verbatims, themes, st, k)
    decreases k
  {
    if k == 0 {
      assert st.costs[..|st.costs|] == st.costs;
    } else {
      CriteriaCostsUpTo(job, hooks, verbatims, themes, st, k - 1);
      var s0 := CriteriaRun(job, hooks, verbatims[..k - 1], themes, st);
      CriteriaRunSnoc(job, hooks, verbatims, themes, k - 1, st);
      var s := CriteriaRun(job, hooks, verbatims[..k], themes, st);
      if !s.aborted {
        VerbatimAbort(job, hooks, verbatims[k - 1], themes, s0);
        assert BatchCells(job, hooks, verbatims, themes, st, k - 1) == ThemeCells(job, hooks, verbatims[k - 1], themes, s0);
        BatchCostsSnoc(job, hooks, s0.costs, s.costs, st.costs, verbatims, themes, st, k - 1);
      }
    }
  }

  /**
   * A completed batch has one cost entry per verbatim, in order: the verbatim with
   * the tokens and the cost its cells counted.
   */
  lemma CriteriaCosts(job: Job, hooks: Hooks, verbatims: seq<string>, themes: seq<(string, string)>, st: BatchState)
    requires !st.aborted
    ensures var s := CriteriaRun(job, hooks, verbatims, themes, st);
      !s.aborted ==> BatchCosts(job, hooks, s.costs, st.costs, verbatims, themes, st, |verbatims|)
  {
    CriteriaCostsUpTo(job, hooks, verbatims, themes, st, |verbatims|);
    assert verbatims[..|verbatims|] == verbatims;
  }

  /**
   * The cells of verbatim i are classified in turn from the script the first i
   * verbatims left, and the script and log after verbatim i are what its cells
   * leave and send: the batch's cells, verbatim by verbatim, consume the script in order.
   */
  lemma CriteriaCells(job: Job, hooks: Hooks, verbatims: seq<string>, themes: seq<(string, string)>, st: BatchState, i: nat)
    requires !st.aborted && i < |verbatims|
    ensures var s0 := CriteriaRun(job, hooks, verbatims[..i], themes, st);
      var s1 := CriteriaRun(job, hooks, verbatims[..i + 1], themes, st);
      var cells := BatchCells(job, hooks, verbatims, themes, st, i);
      !s1.aborted ==>
        !s0.aborted && Chained(job, hooks, verbatims[i], themes, cells, s0.script)
        && s1.script == After(cells, s0.script) && s1.log == s0.log + CellRequestsOf(cells)
  {
    var s0 := CriteriaRun(job, hooks, verbatims[..i], themes, st);
    CriteriaRunSnoc(job, hooks, verbatims, themes, i, st);
    if !s0.aborted {
      ThemesCells(job, hooks, verbatims[i], themes, s0);
    }
  }

  /**
   * What a batch of process_verbatims_for_*_criteria promises: it raises exactly
   * when some (verbatim, codebook) pair fails to format; otherwise it returns one
   * row per verbatim and theme, verbatim by verbatim, each holding the verbatim's
   * parsed fields, the theme and the valid label of its cell, and one cost entry per
   * verbatim with the tokens and cost of its cells; it sends one request per row
   * (one or two with reasoning), each with the model, 500 tokens and temperature 0.0001.
   */
  lemma CriteriaRunShape(job: Job, hooks: Hooks, verbatims: seq<string>, themes: seq<(string, string)>)
    ensures var st := BatchState([], [], [], [], false);
      var s := CriteriaRun(job, hooks, verbatims, themes, st);
      (s.aborted <==> BatchFormatFails(job, hooks, verbatims, themes))
      && (forall r :: r in s.log ==> BatchRequest(job, r))
      && (!s.aborted ==>
            BatchRows(job, hooks, s.rows, 0, verbatims, themes, st, |verbatims|)
            && BatchCosts(job, hooks, s.costs, [], verbatims, themes, st, |verbatims|)
            && (if job.reasoning then |verbatims| * |themes| <= |s.log| <= 2 * (|verbatims| * |themes|)
                else |s.log| == |verbatims| * |themes|))
  {
    var st := BatchState([], [], [], [], false);
    var s := CriteriaRun(job, hooks, verbatims, themes, st);
    CriteriaAbort(job, hooks, verbatims, themes, st);
    CriteriaLog(job, hooks, verbatims, themes, st);
    forall r | r in s.log ensures BatchRequest(job, r) {
      var k :| 0 <= k < |s.log| && s.log[k] == r;
    }
    if !s.aborted {
      CriteriaRows(job, hooks, verbatims, themes, st);
      CriteriaCosts(job, hooks, verbatims, themes, st);
    }
  }

  /** Once the first k themes have raised, the rest of the inner loop changes nothing. */
  lemma {:induction false} ThemesAbortedStays(job: Job, hooks: Hooks, verbatim: string, themes: seq<(string, string)>, k: nat,
                                              st: BatchState)
    requires k <= |themes| && ThemesRun(job, hooks, verbatim, themes[..k], st).0.aborted
    ensures ThemesRun(job, hooks, verbatim, themes, st) == ThemesRun(job, hooks, verbatim, themes[..k], st)
    decreases |themes| - k
  {
    if k < |themes| {
      var init := themes[..|themes| - 1];
      assert init[..k] == themes[..k];
      ThemesAbortedStays(job, hooks, verbatim, init, k, st);
    } else {
      assert themes[..k] == themes;
    }
  }

  /** Once the first k verbatims have raised, the rest of the batch changes nothing. */
  lemma {:induction false} CriteriaAbortedStays(job: Job, hooks: Hooks, verbatims: seq<string>, themes: seq<(string, string)>, k: nat,
                                                st: BatchState)
    requires k <= |verbatims| && CriteriaRun(job, hooks, verbatims[..k], themes, st).aborted
    ensures CriteriaRun(job, hooks, verbatims, themes, st) == CriteriaRun(job, hooks, verbatims[..k], themes, st)
    decreases |verbatims| - k
  {
    if k < |verbatims| {
      var init := verbatims[..|verbatims| - 1];
      assert init[..k] == verbatims[..k];
      CriteriaAbortedStays(job, hooks, init, themes, k, st);
    } else {
      assert verbatims[..k] == verbatims;
    }
  }

  /**
   * The body of the `try` for one theme: classify, then count the tokens and the
   * cost and check the label, all only if the classification and the cost helper
   * did not raise.
   */
  method ClassifyTheme(client: ScriptedClient, job: Job, hooks: Hooks, prompt: string)
    returns (labelCell: Cell, tokens: nat, cost: real)
    modifies client
    ensures var c := ClassifyCell(job, hooks, old(client.script), prompt);
      client.script == c.rest && client.log == old(client.log) + c.requests
      && labelCell == c.labelCell && tokens == c.tokens && cost == c.cost
  {
    var answer;
    match job.task {
      case Multiclass =>
        answer := GenerateMulticlassAnswer(client, job.model, prompt, job.query, job.reasoningQuery, job.reasoning, BatchTemperature);
      case Binary =>
        answer := GenerateBinaryAnswer(client, job.model, prompt, job.reasoningQuery, job.query, job.reasoning, BatchTemperature);
    }
    labelCell, tokens, cost := Null, 0, 0.0;
    if answer.Some? {
      var (text, usage) := answer.value;
      var priced := hooks.calculateCost(usage.Counts(), job.model);
      if priced.Some? {
        tokens := usage.totalTokens;
        cost := priced.value;
        labelCell := CheckedLabel(hooks.extractCode(text, None), job.validScores);
      }
    }
  }

  /**
   * The loops shared by the multiclass and the binary batch.  The result is None
   * when a template fails to format, which raises out of the batch; otherwise it is
   * the result rows and the cost entries.  The client ends in the state the
   * specification gives.
   */
  method ProcessCriteria(client: ScriptedClient, job: Job, hooks: Hooks, verbatims: seq<string>, themes: seq<(string, string)>)
    returns (result: Option<(seq<Row>, seq<CostRecord>)>)
    modifies client
    ensures var s := CriteriaRun(job, hooks, verbatims, themes, BatchState(old(client.script), old(client.log), [], [], false));
      client.script == s.script && client.log == s.log
      && (result.None? <==> s.aborted)
      && (result.Some? ==> result.value == (s.rows, s.costs))
  {
    ghost var st0 := BatchState(client.script, client.log, [], [], false);
    var rows: seq<Row> := [];
    var costs: seq<CostRecord> := [];
    for i := 0 to |verbatims|
      invariant CriteriaRun(job, hooks, verbatims[..i], themes, st0) == BatchState(client.script, client.log, rows, costs, false)
    {
      var verbatim := verbatims[i];
      ghost var sv := BatchState(client.script, client.log, rows, costs, false);
      CriteriaRunSnoc(job, hooks, verbatims, themes, i, st0);
      var aborted, verbatimTokens, verbatimCost;
      rows, aborted, verbatimTokens, verbatimCost := ProcessThemes(client, job, hooks, verbatim, themes, rows, costs);
      if aborted {
        CriteriaAbortedStays(job, hooks, verbatims, themes, i + 1, st0);
        return None;
      }
      costs := costs + [CostRecord(verbatim, verbatimTokens, verbatimCost)];
    }
    assert verbatims[..|verbatims|] == verbatims;
    result := Some((rows, costs));
  }

  /** The outer loop after one more verbatim. */
  lemma CriteriaRunSnoc(job: Job, hooks: Hooks, verbatims: seq<string>, themes: seq<(string, string)>, i: nat, st: BatchState)
    requires i < |verbatims|
    ensures var s := CriteriaRun(job, hooks, verbatims[..i], themes, st);
      CriteriaRun(job, hooks, verbatims[..i + 1], themes, st)
      == if s.aborted then s else VerbatimStep(job, hooks, verbatims[i], themes, s)
  {
    assert verbatims[..i + 1][..i] == verbatims[..i];
  }

  /**
   * The inner loop over the codebook's themes for one verbatim: it appends one row
   * per theme and adds up the verbatim's tokens and cost; `aborted` says that a
   * template failed to format, which raises out of the batch.
   */
  method ProcessThemes(client: ScriptedClient, job: Job, hooks: Hooks, verbatim: string, themes: seq<(string, string)>,
                       rows0: seq<Row>, ghost costs: seq<CostRecord>)
    returns (rows: seq<Row>, aborted: bool, verbatimTokens: nat, verbatimCost: real)
    modifies client
    ensures ThemesRun(job, hooks, verbatim, themes, BatchState(old(client.script), old(client.log), rows0, costs, false))
            == (BatchState(client.script, client.log, rows, costs, aborted), verbatimTokens, verbatimCost)
  {
    ghost var sv := BatchState(client.script, client.log, rows0, costs, false);
    rows, aborted, verbatimTokens, verbatimCost := rows0, false, 0, 0.0;
    for j := 0 to |themes|
      invariant ThemesRun(job, hooks, verbatim, themes[..j], sv)
                == (BatchState(client.script, client.log, rows, costs, false), verbatimTokens, verbatimCost)
    {
      ThemesRunSnoc(job, hooks, verbatim, themes, j, sv);
      rows, aborted, verbatimTokens, verbatimCost := ProcessTheme(client, job, hooks, verbatim, themes[j], rows, costs,
                                                                  verbatimTokens, verbatimCost);
      if aborted {
        ThemesAbortedStays(job, hooks, verbatim, themes, j + 1, sv);
        return;
      }
    }
    assert themes[..|themes|] == themes;
  }

  /** The body of the inner loop for one theme: a template that fails to format raises; otherwise classify and append the row. */
  method ProcessTheme(client: ScriptedClient, job: Job, hooks: Hooks, verbatim: string, theme: (string, string),
                      rows0: seq<Row>, ghost costs: seq<CostRecord>, tokens0: nat, cost0: real)
    returns (rows: seq<Row>, aborted: bool, tokens: nat, cost: real)
    modifies client
    ensures ThemeStep(job, hooks, verbatim, theme, (BatchState(old(client.script), old(client.log), rows0, costs, false), tokens0, cost0))
            == (BatchState(client.script, client.log, rows, costs, aborted), tokens, cost)
  {
    var prompt := hooks.format(job.template, CriteriaArgs(verbatim, theme.1));
    if prompt.None? {
      return rows0, true, tokens0, cost0;
    }
    var labelCell, t, c := ClassifyTheme(client, job, hooks, prompt.value);
    rows, aborted, tokens, cost := rows0 + [CriteriaRow(hooks, verbatim, theme.0, labelCell)], false, tokens0 + t, cost0 + c;
  }

  /** process_verbatims_for_multiclass_criteria: labels must be among `validScores`. */
  method ProcessMulticlassVerbatims(client: ScriptedClient, hooks: Hooks, verbatims: seq<string>, codebooks: seq<(string, string)>,
                                    model: string, template: string, multiclassQuery: string, reasoningQuery: string,
                                    validScores: seq<int>, reasoning: bool)
    returns (result: Option<(seq<Row>, seq<CostRecord>)>)
    modifies client
    ensures var job := Job(Multiclass, validScores, model, template, multiclassQuery, reasoningQuery, reasoning);
      var s := CriteriaRun(job, hooks, verbatims, codebooks, BatchState(old(client.script), old(client.log), [], [], false));
      client.script == s.script && client.log == s.log
      && (result.None? <==> s.aborted)
      && (result.Some? ==> result.value == (s.rows, s.costs))
  {
    var job := Job(Multiclass, validScores, model, template, multiclassQuery, reasoningQuery, reasoning);
    result := ProcessCriteria(client, job, hooks, verbatims, codebooks);
  }

  /** process_verbatims_for_binary_criteria: labels must be 0 or 1. */
  method ProcessBinaryVerbatims(client: ScriptedClient, hooks: Hooks, verbatims: seq<string>, codebooks: seq<(string, string)>,
                                model: string, template: string, reasoningQuery: string, binaryQuery: string, reasoning: bool)
    returns (result: Option<(seq<Row>, seq<CostRecord>)>)
    modifies client
    ensures var job := Job(Binary, [0, 1], model, template, binaryQuery, reasoningQuery, reasoning);
      var s := CriteriaRun(job, hooks, verbatims, codebooks, BatchState(old(client.script), old(client.log), [], [], false));
      client.script == s.script && client.log == s.log
      && (result.None? <==> s.aborted)
      && (result.Some? ==> result.value == (s.rows, s.costs))
  {
    var job := Job(Binary, [0, 1], model, template, binaryQuery, reasoningQuery, reasoning);
    result := ProcessCriteria(client, job, hooks, verbatims, codebooks);
  }

  // ------------------------------------------------------------------
  // process_general_verbatims
  // ------------------------------------------------------------------

  /** The parameters of process_general_verbatims. */
  datatype GeneralJob = GeneralJob(model: string, template: string, prefix: Option<string>, temperature: real)

  /** The state of the loop: the client, the rows, the cost entries and the two running totals. */
  datatype GeneralState = GeneralState(script: seq<Outcome>, log: seq<Request>, rows: seq<Row>, costs: seq<CostRecord>,
                                       totalTokens: nat, totalCost: real)

  /** `{"Verbatim": verbatim_text, "Label": label}`. */
  function GeneralRow(verbatim: string, labelCell: Cell): Row
  {
    map["Verbatim" := Str(verbatim), "Label" := labelCell]
  }

  /** The row `{"Verbatim": verbatim, "Label": _}`. */
  predicate GeneralRowFor(row: Row, verbatim: string)
  {
    "Label" in row && row == GeneralRow(verbatim, row["Label"])
  }

  /** The label as a cell: the code itself, or None. */
  function CodeCell(code: Option<int>): Cell
  {
    if code.Some? then Int(code.value) else Null
  }

  /**
   * One verbatim.  Everything is inside the `try`: a template that fails to format
   * (no request is sent), a call that raises or a cost helper that raises give the
   * row with label None and a cost entry of 0 tokens and 0 cost, and add nothing to
   * the totals.  The label is not checked against any list.
   */
  function GeneralStep(job: GeneralJob, hooks: Hooks, verbatim: string, st: GeneralState): GeneralState
  {
    var failedRows := st.rows + [GeneralRow(verbatim, Null)];
    var failedCosts := st.costs + [CostRecord(verbatim, 0, 0.0)];
    match hooks.format(job.template, map["verbatim_text" := verbatim])
    case None => st.(rows := failedRows, costs := failedCosts)
    case Some(prompt) =>
      var log := st.log + [Request(prompt, job.model, MaxTokens, job.temperature)];
      var script := Rest(st.script);
      match Next(st.script)
      case Failure => st.(script := script, log := log, rows := failedRows, costs := failedCosts)
      case Reply(text, usage) =>
        var code := hooks.extractCode(text, job.prefix);
        match hooks.calculateCost(usage, job.model)
        case None => st.(script := script, log := log, rows := failedRows, costs := failedCosts)
        case Some(cost) =>
          GeneralState(script, log, st.rows + [GeneralRow(verbatim, CodeCell(code))],
                       st.costs + [CostRecord(verbatim, usage.totalTokens, cost)],
                       st.totalTokens + usage.totalTokens, st.totalCost + cost)
  }

  /** The loop over the verbatims. */
  function GeneralRun(job: GeneralJob, hooks: Hooks, verbatims: seq<string>, st: GeneralState): GeneralState
    decreases |verbatims|
  {
    if |verbatims| == 0 then st
    else GeneralStep(job, hooks, verbatims[|verbatims| - 1], GeneralRun(job, hooks, verbatims[..|verbatims| - 1], st))
  }

  function SumTokens(costs: seq<CostRecord>): nat
  {
    if |costs| == 0 then 0 else SumTokens(costs[..|costs| - 1]) + costs[|costs| - 1].tokensUsed
  }

  function SumCost(costs: seq<CostRecord>): real
  {
    if |costs| == 0 then 0.0 else SumCost(costs[..|costs| - 1]) + costs[|costs| - 1].cost
  }

  /** The totals the source returns. */
  datatype Totals = Totals(totalTokensUsed: nat, totalCost: real)

  /** The sums of a sequence of cost entries with one more entry. */
  lemma SumSnoc(costs: seq<CostRecord>, e: CostRecord)
    ensures SumTokens(costs + [e]) == SumTokens(costs) + e.tokensUsed
    ensures SumCost(costs + [e]) == SumCost(costs) + e.cost
  {
    assert (costs + [e])[..|costs|] == costs;
  }

  /**
   * One verbatim appends exactly one row `{"Verbatim": v, "Label": _}` and one cost
   * entry for v, adds that entry's tokens and cost to the totals, and sends at
   * most one request, with the model, 500 tokens and the caller's temperature.
   */
  lemma GeneralStepShape(job: GeneralJob, hooks: Hooks, verbatim: string, st: GeneralState)
    ensures var s := GeneralStep(job, hooks, verbatim, st);
      |s.rows| == |st.rows| + 1 && s.rows[..|st.rows|] == st.rows
      && GeneralRowFor(s.rows[|st.rows|], verbatim)
      && |s.costs| == |st.costs| + 1 && s.costs[..|st.costs|] == st.costs
      && s.costs[|st.costs|].verbatim == verbatim
      && s.totalTokens == st.totalTokens + s.costs[|st.costs|].tokensUsed
      && s.totalCost == st.totalCost + s.costs[|st.costs|].cost
      && (|s.log| == |st.log| || |s.log| == |st.log| + 1) && s.log[..|st.log|] == st.log
      && (|s.log| == |st.log| + 1 ==> s.log[|st.log|].model == job.model && s.log[|st.log|].maxTokens == 500
                                       && s.log[|st.log|].temperature == job.temperature)
  {
    var s := GeneralStep(job, hooks, verbatim, st);
    assert s.rows[..|st.rows|] == st.rows;
    assert s.costs[..|st.costs|] == st.costs;
    assert s.log[..|st.log|] == st.log;
  }

  /** One verbatim appends exactly one row `{"Verbatim": v, "Label": _}`. */
  lemma GeneralStepRow(job: GeneralJob, hooks: Hooks, verbatim: string, st: GeneralState)
    ensures var rows := GeneralStep(job, hooks, verbatim, st).rows;
      |rows| == |st.rows| + 1 && rows[..|st.rows|] == st.rows && GeneralRowFor(rows[|st.rows|], verbatim)
  {
    var rows := GeneralStep(job, hooks, verbatim, st).rows;
    assert rows[..|st.rows|] == st.rows;
  }

  /** One verbatim appends exactly one cost entry and adds its tokens and cost to the totals. */
  lemma GeneralStepCost(job: GeneralJob, hooks: Hooks, verbatim: string, st: GeneralState)
    ensures var s := GeneralStep(job, hooks, verbatim, st);
      |s.costs| == |st.costs| + 1 && s.costs[..|st.costs|] == st.costs && s.costs[|st.costs|].verbatim == verbatim
      && s.totalTokens == st.totalTokens + s.costs[|st.costs|].tokensUsed
      && s.totalCost == st.totalCost + s.costs[|st.costs|].cost
  {
    var s := GeneralStep(job, hooks, verbatim, st);
    assert s.costs[..|st.costs|] == st.costs;
  }

  /**
   * A verbatim whose template fails to format, whose call raises, or whose cost
   * helper raises gives label None and a cost entry of 0 tokens and 0 cost.
   */
  lemma GeneralStepFailure(job: GeneralJob, hooks: Hooks, verbatim: string, st: GeneralState)
    ensures var s := GeneralStep(job, hooks, verbatim, st);
      var prompt := hooks.format(job.template, map["verbatim_text" := verbatim]);
      (prompt.None? || Next(st.script).Failure? || hooks.calculateCost(Next(st.script).usage, job.model).None?) ==>
        s.rows[|s.rows| - 1] == GeneralRow(verbatim, Null)
        && s.costs[|s.costs| - 1] == CostRecord(verbatim, 0, 0.0)
        && s.totalTokens == st.totalTokens && s.totalCost == st.totalCost
        && (prompt.None? ==> s.log == st.log && s.script == st.script)
  {
  }

  /** `rows` is `base` followed by one row `{"Verbatim": v, "Label": _}` per verbatim, in order. */
  predicate GeneralRowsFor(rows: seq<Row>, base: seq<Row>, verbatims: seq<string>)
  {
    |rows| == |base| + |verbatims| && rows[..|base|] == base
    && forall i :: 0 <= i < |verbatims| ==> GeneralRowFor(rows[|base| + i], verbatims[i])
  }

  /** The rows of the first verbatims, followed by the row of one more. */
  lemma GeneralRowsSnoc(rows0: seq<Row>, rows: seq<Row>, base: seq<Row>, init: seq<string>, v: string)
    requires GeneralRowsFor(rows0, base, init)
    requires |rows| == |rows0| + 1 && rows[..|rows0|] == rows0 && GeneralRowFor(rows[|rows0|], v)
    ensures GeneralRowsFor(rows, base, init + [v])
  {
    assert rows[..|rows0|][..|base|] == rows[..|base|];
    forall i | 0 <= i < |init + [v]| ensures GeneralRowFor(rows[|base| + i], (init + [v])[i]) {
      if i < |init| {
        assert rows[|base| + i] == rows[..|rows0|][|base| + i];
      }
    }
  }

  /** The totals are the sums of the cost entries. */
  predicate Totalled(s: GeneralState)
  {
    s.totalTokens == SumTokens(s.costs) && s.totalCost == SumCost(s.costs)
  }

  /** Adding one entry's tokens and cost to the totals keeps them the sums. */
  lemma TotalledSnoc(s0: GeneralState, s: GeneralState)
    requires Totalled(s0)
    requires |s.costs| == |s0.costs| + 1 && s.costs[..|s0.costs|] == s0.costs
    requires s.totalTokens == s0.totalTokens + s.costs[|s0.costs|].tokensUsed
    requires s.totalCost == s0.totalCost + s.costs[|s0.costs|].cost
    ensures Totalled(s)
  {
    assert s.costs == s0.costs + [s.costs[|s0.costs|]];
    SumSnoc(s0.costs, s.costs[|s0.costs|]);
  }

  /** The rows of the first verbatims of a batch, then the row of the last one. */
  lemma GeneralRowsStep(job: GeneralJob, hooks: Hooks, verbatims: seq<string>, st: GeneralState)
    requires |verbatims| > 0
    requires GeneralRowsFor(GeneralRun(job, hooks, verbatims[..|verbatims| - 1], st).rows, st.rows, verbatims[..|verbatims| - 1])
    ensures GeneralRowsFor(GeneralRun(job, hooks, verbatims, st).rows, st.rows, verbatims)
  {
    var n := |verbatims| - 1;
    var init, v := verbatims[..n], verbatims[n];
    var s0 := GeneralRun(job, hooks, init, st);
    GeneralStepRow(job, hooks, v, s0);
    GeneralRowsSnoc(s0.rows, GeneralStep(job, hooks, v, s0).rows, st.rows, init, v);
    assert init + [v] == verbatims;
  }

  /** One row per verbatim, in order, each `{"Verbatim": v, "Label": _}`. */
  lemma {:induction false} GeneralRows(job: GeneralJob, hooks: Hooks, verbatims: seq<string>, st: GeneralState)
    ensures GeneralRowsFor(GeneralRun(job, hooks, verbatims, st).rows, st.rows, verbatims)
    decreases |verbatims|
  {
    if |verbatims| == 0 {
      assert st.rows[..|st.rows|] == st.rows;
    } else {
      GeneralRows(job, hooks, verbatims[..|verbatims| - 1], st);
      GeneralRowsStep(job, hooks, verbatims, st);
    }
  }

  /** The cost entries and the totals after the first verbatims, then after one more step. */
  lemma GeneralCostsSnoc(st: GeneralState, s0: GeneralState, s: GeneralState, init: seq<string>, v: string)
    requires CostsFor(s0.costs, st.costs, init) && Totalled(s0)
    requires |s.costs| == |s0.costs| + 1 && s.costs[..|s0.costs|] == s0.costs && s.costs[|s0.costs|].verbatim == v
    requires s.totalTokens == s0.totalTokens + s.costs[|s0.costs|].tokensUsed
    requires s.totalCost == s0.totalCost + s.costs[|s0.costs|].cost
    ensures CostsFor(s.costs, st.costs, init + [v]) && Totalled(s)
  {
    CostsSnoc(s0.costs, s.costs, st.costs, init, v);
    TotalledSnoc(s0, s);
  }

  /** One cost entry per verbatim, in order, and the totals are the sums of the entries. */
  lemma {:induction false} GeneralCosts(job: GeneralJob, hooks: Hooks, verbatims: seq<string>, st: GeneralState)
    requires Totalled(st)
    ensures var s := GeneralRun(job, hooks, verbatims, st);
      CostsFor(s.costs, st.costs, verbatims) && Totalled(s)
    decreases |verbatims|
  {
    if |verbatims| == 0 {
      assert st.costs[..|st.costs|] == st.costs;
    } else {
      var n := |verbatims| - 1;
      var init, v := verbatims[..n], verbatims[n];
      SplitLast(verbatims);
      var s0 := GeneralRun(job, hooks, init, st);
      GeneralCosts(job, hooks, init, st);
      GeneralStepCost(job, hooks, v, s0);
      GeneralCostsSnoc(st, s0, GeneralStep(job, hooks, v, s0), init, v);
    }
  }

  /** At most one request per verbatim, only appended, each with the model, 500 tokens and the caller's temperature. */
  lemma {:induction false} GeneralLog(job: GeneralJob, hooks: Hooks, verbatims: seq<string>, st: GeneralState)
    ensures var s := GeneralRun(job, hooks, verbatims, st);
      |st.log| <= |s.log| <= |st.log| + |verbatims| && s.log[..|st.log|] == st.log
      && forall k :: |st.log| <= k < |s.log| ==>
           s.log[k].model == job.model && s.log[k].maxTokens == 500 && s.log[k].temperature == job.temperature
    decreases |verbatims|
  {
    if |verbatims| > 0 {
      var n := |verbatims| - 1;
      GeneralLog(job, hooks, verbatims[..n], st);
      var s0 := GeneralRun(job, hooks, verbatims[..n], st);
      GeneralStepShape(job, hooks, verbatims[n], s0);
      var s := GeneralRun(job, hooks, verbatims, st);
      PrefixOfPrefix(s.log, s0.log, st.log);
      forall k | |st.log| <= k < |s.log|
        ensures s.log[k].model == job.model && s.log[k].maxTokens == 500 && s.log[k].temperature == job.temperature
      {
        if k < |s0.log| {
          assert s.log[k] == s.log[..|s0.log|][k];
        }
      }
    }
  }

  /** A verbatim whose reply is read and priced keeps the code the reply carries, without any check. */
  lemma GeneralStepLabel(job: GeneralJob, hooks: Hooks, verbatim: string, st: GeneralState, prompt: string)
    requires hooks.format(job.template, map["verbatim_text" := verbatim]) == Some(prompt)
    requires Next(st.script).Reply? && hooks.calculateCost(Next(st.script).usage, job.model).Some?
    ensures var s := GeneralStep(job, hooks, verbatim, st);
      s.rows[|s.rows| - 1]["Label"] == CodeCell(hooks.extractCode(Next(st.script).text, job.prefix))
      && s.costs[|s.costs| - 1].tokensUsed == Next(st.script).usage.totalTokens
      && s.log[|s.log| - 1] == Request(prompt, job.model, 500, job.temperature)
  {
  }

  /**
   * process_general_verbatims: one prompt and one call per verbatim, with the
   * caller's temperature and the caller's prefix for extracting the code.  The
   * rows, the cost entries and the totals are those the specification gives.
   */
  method ProcessGeneralVerbatims(client: ScriptedClient, hooks: Hooks, verbatims: seq<string>, model: string, template: string,
                                 prefix: Option<string>, temperature: real)
    returns (rows: seq<Row>, costs: seq<CostRecord>, totals: Totals)
    modifies client
    ensures var s := GeneralRun(GeneralJob(model, template, prefix, temperature), hooks, verbatims,
                                GeneralState(old(client.script), old(client.log), [], [], 0, 0.0));
      client.script == s.script && client.log == s.log && rows == s.rows && costs == s.costs
      && totals == Totals(s.totalTokens, s.totalCost)
  {
    var job := GeneralJob(model, template, prefix, temperature);
    ghost var st0 := GeneralState(client.script, client.log, [], [], 0, 0.0);
    rows, costs := [], [];
    var totalTokensUsed: nat := 0;
    var totalCost: real := 0.0;
    for i := 0 to |verbatims|
      invariant GeneralRun(job, hooks, verbatims[..i], st0)
                == GeneralState(client.script, client.log, rows, costs, totalTokensUsed, totalCost)
    {
      GeneralRunSnoc(job, hooks, verbatims, i, st0);
      rows, costs, totalTokensUsed, totalCost := GeneralVerbatim(client, job, hooks, verbatims[i], rows, costs, totalTokensUsed, totalCost);
    }
    assert verbatims[..|verbatims|] == verbatims;
    totals := Totals(totalTokensUsed, totalCost);
  }

  /** The outer loop after one more verbatim. */
  lemma GeneralRunSnoc(job: GeneralJob, hooks: Hooks, verbatims: seq<string>, i: nat, st: GeneralState)
    requires i < |verbatims|
    ensures GeneralRun(job, hooks, verbatims[..i + 1], st) == GeneralStep(job, hooks, verbatims[i], GeneralRun(job, hooks, verbatims[..i], st))
  {
    assert verbatims[..i + 1][..i] == verbatims[..i];
  }

  /**
   * The body of the loop for one verbatim: format, call, extract the code and
   * price the call; any failure appends a row with label None and a zero cost
   * entry, otherwise the row, the entry and the totals get the call's values.
   */
  method GeneralVerbatim(client: ScriptedClient, job: GeneralJob, hooks: Hooks, verbatim: string,
                         rows0: seq<Row>, costs0: seq<CostRecord>, tokens0: nat, cost0: real)
    returns (rows: seq<Row>, costs: seq<CostRecord>, totalTokensUsed: nat, totalCost: real)
    modifies client
    ensures GeneralStep(job, hooks, verbatim, GeneralState(old(client.script), old(client.log), rows0, costs0, tokens0, cost0))
            == GeneralState(client.script, client.log, rows, costs, totalTokensUsed, totalCost)
  {
    rows, costs, totalTokensUsed, totalCost := rows0, costs0, tokens0, cost0;
    var failed := true;
    var prompt := hooks.format(job.template, map["verbatim_text" := verbatim]);
    if prompt.Some? {
      var reply := client.GetResponse(prompt.value, job.model, MaxTokens, job.temperature);
      if reply.Some? {
        var (text, usage) := reply.value;
        var code := hooks.extractCode(text, job.prefix);
        var priced := hooks.calculateCost(usage.Counts(), job.model);
        if priced.Some? {
          totalTokensUsed := totalTokensUsed + usage.totalTokens;
          totalCost := totalCost + priced.value;
          rows := rows + [GeneralRow(verbatim, CodeCell(code))];
          costs := costs + [CostRecord(verbatim, usage.totalTokens, priced.value)];
          failed := false;
        }
      }
    }
    if failed {
      rows := rows + [GeneralRow(verbatim, Null)];
      costs := costs + [CostRecord(verbatim, 0, 0.0)];
    }
  }
}
