/** The question-answering pipeline of src/graph_rag_compute.py: prune the
    schema, then up to `max_retries` passes of generate / validate with
    EXPLAIN / execute, each failed pass recorded in a history that the next
    generation sees, then one terminal result.

    The language model, JSON parsing, the graph store and Python's `str()`
    of a result set are not modelled; they are the oracles of `Env`.  The
    store is asked for both the EXPLAIN call and the real execution, during
    a given pass; the query generator's model is asked with the pass number
    and the prompt. */
module GraphRag {
  import opened Wrappers
  import opened JsonValues
  import opened Schema
  import opened Fence
  import opened Prompt
  import Normalise

  /** What an agent's `run_sync` gives: the reply text, or a raised error. */
  datatype Reply = Reply(text: string) | AgentRaised(message: string)

  /** What `execute_query` gives: a result list or None, or a raised error. */
  datatype StoreReply = Returned(value: Option<seq<Json>>) | StoreRaised(message: string)

  /** What a call of `generate_cypher` gives. */
  datatype Generation = Generated(query: string) | GenerationRaised(message: string)

  /** How `generate_cypher` is reached: through `functools.lru_cache`, as
      written, or directly.  The cache hashes every argument, and the history
      argument is a list, so as written each call raises a TypeError (whose
      text is carried here) before the body runs. */
  datatype CypherCall = Direct | LruCached(typeError: string)

  datatype Env = Env(
    schemaText: string,                       // self.schema, the full schema as text
    pruneAgent: string -> Reply,              // prune_schema_agent, by prompt
    cypherAgent: (nat, string) -> Reply,      // text2cypher_agent, by pass and prompt
    answerAgent: string -> Reply,             // answer_agent, by prompt
    loads: string -> Result<Json, string>,    // json.loads
    execute: (nat, string) -> StoreReply,     // db_manager.execute_query, by pass and text
    dumpJson: GraphSchema -> string,          // GraphSchema.model_dump_json
    show: seq<Json> -> string                 // str(results)
  )

  const ValidationPrefix: string := "Validation Error (EXPLAIN): "
  const ExecutionPrefix: string := "Execution Error: "
  // The first letter is written apart so that the verifier sees it.
  const NoResultsMessage: string :=
    "Q" + "uery executed successfully but returned no results. The query may need to be adjusted to find matching data in the graph."
  const NoQuerySentinel: string := "Failed to generate query"
  const NoValidQuerySentinel: string := "Failed to generate valid query"
  const NotEnoughInformation: string := "I don't have enough information to answer this question."

  /** `data[key]` where the value must be a string. */
  function StringMember(data: Json, key: string): (r: Result<string, string>)
    ensures r.Success? ==> data.JObj? && Lookup(data.fields, key) == Some(JStr(r.value))
    ensures data.JObj? && Lookup(data.fields, key).Some? && Lookup(data.fields, key).value.JStr? ==> r.Success?
  {
    match data
    case JObj(fields) =>
      (match Lookup(fields, key)
       case Some(JStr(s)) => Success(s)
       case Some(_) => Failure(key + " is not a string")
       case None => Failure("'" + key + "'"))
    case _ => Failure("object is not subscriptable")
  }

  // ---- prune_schema (lines 16-53) ----------------------------------------

  /** The pruned schema, or the error that escapes `prune_schema`. */
  function Pruned(env: Env, question: string): Result<GraphSchema, string>
  {
    match env.pruneAgent(QuestionAndSchema(question, env.schemaText))
    case AgentRaised(m) => Failure(m)
    case Reply(text) =>
      match env.loads(StripFence(text))
      case Failure(m) => Failure(m)
      case Success(data) => GraphSchemaFromJson(Normalise.FixSchema(data))
  }

  method PruneSchema(env: Env, question: string) returns (r: Result<GraphSchema, string>)
    ensures r == Pruned(env, question)
  {
    var result := env.pruneAgent(QuestionAndSchema(question, env.schemaText));
    if result.AgentRaised? {
      return Failure(result.message);
    }
    var outputStr := StripFence(result.text);
    var data := env.loads(outputStr);
    if data.Failure? {
      return Failure(data.error);
    }
    var fixed := Normalise.NormaliseProperties(data.value);
    r := GraphSchemaFromJson(fixed);
  }

  // ---- validate_query_with_explain (lines 55-72) --------------------------

  /** Never raises: any error of the EXPLAIN call becomes `(False, str(e))`. */
  function ValidateQueryWithExplain(env: Env, attempt: nat, query: string): (r: (bool, string))
    ensures r.0 <==> env.execute(attempt, "EXPLAIN " + query).Returned?
    ensures r.0 ==> r.1 == ""
    ensures !r.0 ==> r.1 == env.execute(attempt, "EXPLAIN " + query).message
  {
    match env.execute(attempt, "EXPLAIN " + query)
    case Returned(_) => (true, "")
    case StoreRaised(m) => (false, m)
  }

  // ---- generate_cypher (lines 74-114) --------------------------------------

  /** The body of `generate_cypher`. */
  function CypherGeneration(env: Env, question: string, schema: GraphSchema, history: seq<Attempt>, attempt: nat): Generation
  {
    match env.cypherAgent(attempt, CypherPrompt(question, env.dumpJson(schema), history))
    case AgentRaised(m) => GenerationRaised(m)
    case Reply(text) =>
      match env.loads(StripFence(text))
      case Failure(m) => GenerationRaised(m)
      case Success(data) =>
        match StringMember(data, "query")
        case Success(q) => Generated(q)
        case Failure(m) => GenerationRaised(m)
  }

  /** A call of `generate_cypher` as the run loop makes it. */
  function Generate(call: CypherCall, env: Env, question: string, schema: GraphSchema, history: seq<Attempt>, attempt: nat): Generation
  {
    match call
    case Direct => CypherGeneration(env, question, schema, history, attempt)
    case LruCached(typeError) => GenerationRaised(typeError)
  }

  method GenerateCypher(env: Env, question: string, schema: GraphSchema, history: seq<Attempt>, attempt: nat)
    returns (g: Generation)
    ensures g == CypherGeneration(env, question, schema, history, attempt)
  {
    var prompt := BuildCypherPrompt(question, env.dumpJson(schema), history);
    var result := env.cypherAgent(attempt, prompt);
    if result.AgentRaised? {
      return GenerationRaised(result.message);
    }
    var data := env.loads(StripFence(result.text));
    if data.Failure? {
      return GenerationRaised(data.error);
    }
    var query := StringMember(data.value, "query");
    g := if query.Success? then Generated(query.value) else GenerationRaised(query.error);
  }

  // ---- generate_answer (lines 116-136) -------------------------------------

  /** The answer is the `response` string of the dict the fenced reply
      parses to; an agent error, a parse error or a missing `response`
      escapes. */
  function GenerateAnswer(env: Env, question: string, query: string, context: string): (r: Result<string, string>)
    ensures env.answerAgent(AnswerPrompt(question, query, context)).AgentRaised? ==>
      r == Failure(env.answerAgent(AnswerPrompt(question, query, context)).message)
    ensures r.Success? <==>
      var reply := env.answerAgent(AnswerPrompt(question, query, context));
      reply.Reply? && env.loads(StripFence(reply.text)).Success? &&
      var data := env.loads(StripFence(reply.text)).value;
      data.JObj? && Lookup(data.fields, "response").Some? && Lookup(data.fields, "response").value.JStr?
    ensures r.Success? ==>
      var data := env.loads(StripFence(env.answerAgent(AnswerPrompt(question, query, context)).text)).value;
      Lookup(data.fields, "response") == Some(JStr(r.value))
  {
    match env.answerAgent(AnswerPrompt(question, query, context))
    case AgentRaised(m) => Failure(m)
    case Reply(text) =>
      match env.loads(StripFence(text))
      case Failure(m) => Failure(m)
      case Success(data) => StringMember(data, "response")
  }

  // ---- run (lines 138-223) -------------------------------------------------

  /** The loop's variables: `cypher_query`, `results`, `previous_attempts`,
      and whether the loop has left by `break`. */
  datatype LoopState = LoopState(query: Option<string>, results: Option<seq<Json>>, history: seq<Attempt>, broke: bool)

  const Start: LoopState := LoopState(None, None, [], false)

  /** `results is not None and len(results) > 0` */
  predicate HasRows(results: Option<seq<Json>>)
  {
    results.Some? && |results.value| > 0
  }

  /** `x if x else fallback` for the possibly unset query. */
  function QueryOr(query: Option<string>, fallback: string): string
  {
    if query.Some? && query.value != "" then query.value else fallback
  }

  /** The three kinds of recorded failure. */
  predicate Classified(error: string)
  {
    Text.StartsWith(error, ValidationPrefix) || error == NoResultsMessage || Text.StartsWith(error, ExecutionPrefix)
  }

  /** One pass of the loop body (lines 160-201), from a state the loop has
      not left.  A failed pass appends exactly one classified record. */
  function Pass(call: CypherCall, env: Env, question: string, schema: GraphSchema, attempt: nat, st: LoopState): (r: LoopState)
    requires !st.broke && !HasRows(st.results) && (st.results.Some? ==> st.query.Some?)
    ensures r.broke <==> HasRows(r.results)
    ensures r.results.Some? ==> r.query.Some?
    ensures r.broke ==> r.history == st.history
    ensures !r.broke ==> |r.history| == |st.history| + 1 && r.history[..|st.history|] == st.history
    ensures !r.broke ==> Classified(r.history[|st.history|].error)
  {
    match Generate(call, env, question, schema, st.history, attempt)
    case GenerationRaised(m) =>
      st.(history := st.history + [Attempt(QueryOr(st.query, NoQuerySentinel), ExecutionPrefix + m)])
    case Generated(q) =>
      var (isValid, errorMsg) := ValidateQueryWithExplain(env, attempt, q);
      if !isValid then
        LoopState(Some(q), st.results, st.history + [Attempt(q, ValidationPrefix + errorMsg)], false)
      else
        match env.execute(attempt, q)
        case StoreRaised(m) =>
          LoopState(Some(q), st.results, st.history + [Attempt(QueryOr(Some(q), NoQuerySentinel), ExecutionPrefix + m)], false)
        case Returned(results) =>
          if !HasRows(results) then
            LoopState(Some(q), results, st.history + [Attempt(q, NoResultsMessage)], false)
          else
            LoopState(Some(q), results, st.history, true)
  }

  /** The loop's state after its first `k` passes (or at its `break`, if that
      came earlier).  Before pass `k` the history holds exactly `k` records. */
  function After(call: CypherCall, env: Env, question: string, schema: GraphSchema, k: nat): (r: LoopState)
    ensures r.broke <==> HasRows(r.results)
    ensures r.results.Some? ==> r.query.Some?
    ensures !r.broke ==> |r.history| == k
    ensures r.broke ==> |r.history| < k
  {
    if k == 0 then Start
    else
      var p := After(call, env, question, schema, k - 1);
      if p.broke then p
      else Pass(call, env, question, schema, k - 1, p)
  }

  /** Every record the loop leaves is a validation, empty-result or
      execution error. */
  lemma {:induction false} AfterClassified(call: CypherCall, env: Env, question: string, schema: GraphSchema, k: nat)
    ensures AllClassified(After(call, env, question, schema, k).history)
  {
    if k > 0 {
      AfterClassified(call, env, question, schema, k - 1);
      AfterClassifiedStep(call, env, question, schema, k - 1);
    }
  }

  lemma AfterClassifiedStep(call: CypherCall, env: Env, question: string, schema: GraphSchema, k: nat)
    requires AllClassified(After(call, env, question, schema, k).history)
    ensures AllClassified(After(call, env, question, schema, k + 1).history)
  {
    var p := After(call, env, question, schema, k);
    if !p.broke {
      AfterStep(call, env, question, schema, k);
      PassClassified(call, env, question, schema, k, p);
    }
  }

  /** One pass keeps every record classified. */
  lemma PassClassified(call: CypherCall, env: Env, question: string, schema: GraphSchema, k: nat, st: LoopState)
    requires !st.broke && !HasRows(st.results) && (st.results.Some? ==> st.query.Some?)
    requires AllClassified(st.history)
    ensures AllClassified(Pass(call, env, question, schema, k, st).history)
  {
    var r := Pass(call, env, question, schema, k, st);
    if !r.broke {
      ClassifiedExtended(st.history, r.history);
    }
  }

  predicate AllClassified(h: seq<Attempt>)
  {
    forall i :: 0 <= i < |h| ==> Classified(h[i].error)
  }

  /** Appending one classified record to classified records. */
  lemma ClassifiedExtended(before: seq<Attempt>, after: seq<Attempt>)
    requires |after| == |before| + 1 && after[..|before|] == before
    requires AllClassified(before)
    requires Classified(after[|before|].error)
    ensures AllClassified(after)
  {
    forall i | 0 <= i < |before|
      ensures Classified(after[i].error)
    {
      assert after[i] == after[..|before|][i];
    }
  }

  /** `range(max_retries)` is empty for a negative count. */
  function RetryCount(maxRetries: int): nat
  {
    if maxRetries > 0 then maxRetries else 0
  }

  /** The dict `run` returns (lines 205-210 or 216-221). */
  datatype PipelineResult = PipelineResult(question: string, query: string, answer: string, context: Option<seq<Json>>)

  /** `run` either returns its dict or lets an error escape. */
  datatype RunOutcome = Completed(result: PipelineResult) | Raised(message: string)

  /** Lines 203-221: the terminal result from the loop's final state. */
  function Finish(env: Env, question: string, last: LoopState): (r: RunOutcome)
    requires last.results.Some? ==> last.query.Some?
    ensures r.Raised? ==>
      HasRows(last.results) && GenerateAnswer(env, question, last.query.value, env.show(last.results.value)) == Failure(r.message)
    ensures r.Completed? ==> r.result.question == question && (r.result.context.Some? <==> HasRows(last.results))
    ensures r.Completed? && r.result.context.None? ==>
      r.result.answer == NotEnoughInformation && r.result.query == QueryOr(last.query, NoValidQuerySentinel)
    ensures r.Completed? && r.result.context.Some? ==>
      r.result.context == last.results && r.result.query == last.query.value &&
      GenerateAnswer(env, question, last.query.value, env.show(last.results.value)) == Success(r.result.answer)
  {
    if !HasRows(last.results) then
      Completed(PipelineResult(question, QueryOr(last.query, NoValidQuerySentinel), NotEnoughInformation, None))
    else
      match GenerateAnswer(env, question, last.query.value, env.show(last.results.value))
      case Success(answer) => Completed(PipelineResult(question, last.query.value, answer, last.results))
      case Failure(m) => Raised(m)
  }

  /** What `run(question, max_retries)` does. */
  function RunResult(call: CypherCall, env: Env, question: string, maxRetries: int): (r: RunOutcome)
    ensures Pruned(env, question).Failure? ==> r == Raised(Pruned(env, question).error)
    ensures r.Completed? ==> r.result.question == question && (r.result.context.None? || HasRows(r.result.context))
  {
    match Pruned(env, question)
    case Failure(m) => Raised(m)
    case Success(schema) => Finish(env, question, After(call, env, question, schema, RetryCount(maxRetries)))
  }

  /** Once the loop has left by `break`, later passes change nothing. */
  lemma {:induction false} AfterBreakStable(call: CypherCall, env: Env, question: string, schema: GraphSchema, k: nat, k': nat)
    requires k <= k' && After(call, env, question, schema, k).broke
    ensures After(call, env, question, schema, k') == After(call, env, question, schema, k)
    decreases k'
  {
    if k' > k {
      AfterBreakStable(call, env, question, schema, k, k' - 1);
    }
  }

  /** One more pass from a state the loop has not left. */
  lemma AfterStep(call: CypherCall, env: Env, question: string, schema: GraphSchema, k: nat)
    requires !After(call, env, question, schema, k).broke
    ensures After(call, env, question, schema, k + 1) == Pass(call, env, question, schema, k, After(call, env, question, schema, k))
  {
  }

  /** Lines 138-223; `call` says whether `generate_cypher` goes through its
      cache, as the source has it, or is called directly. */
  method Run(call: CypherCall, env: Env, question: string, maxRetries: int) returns (out: RunOutcome)
    ensures out == RunResult(call, env, question, maxRetries)
  {
    var pruned := PruneSchema(env, question);
    if pruned.Failure? {
      return Raised(pruned.error);
    }
    var schema := pruned.value;

    var last := RetryLoop(call, env, question, schema, RetryCount(maxRetries));
    out := Conclude(env, question, last);
  }

  /** Lines 154-201: the retry loop, `max_retries` passes at most, left by
      `break` when a query returns rows. */
  method RetryLoop(call: CypherCall, env: Env, question: string, schema: GraphSchema, n: nat) returns (last: LoopState)
    ensures last == After(call, env, question, schema, n)
  {
    var cypherQuery: Option<string> := None;
    var results: Option<seq<Json>> := None;
    var previousAttempts: seq<Attempt> := [];
    var broke := false;
    ghost var passes: nat := 0;

    for attempt := 0 to n
      invariant !broke
      invariant !After(call, env, question, schema, attempt).broke
      invariant After(call, env, question, schema, attempt).query == cypherQuery
      invariant After(call, env, question, schema, attempt).results == results
      invariant After(call, env, question, schema, attempt).history == previousAttempts
    {
      AfterStep(call, env, question, schema, attempt);
      var next := RunPass(call, env, question, schema, attempt, LoopState(cypherQuery, results, previousAttempts, false));
      cypherQuery, results, previousAttempts := next.query, next.results, next.history;
      if next.broke {
        broke := true;
        passes := attempt + 1;
        break;
      }
    }

    if broke {
      AfterBreakStable(call, env, question, schema, passes, n);
    }
    last := LoopState(cypherQuery, results, previousAttempts, broke);
  }

  /** Lines 163-201: the body of one pass; each `continue` returns the state
      with its new record, and the `break` returns the rows. */
  method RunPass(call: CypherCall, env: Env, question: string, schema: GraphSchema, attempt: nat, st: LoopState)
    returns (next: LoopState)
    requires !st.broke && !HasRows(st.results) && (st.results.Some? ==> st.query.Some?)
    ensures next == Pass(call, env, question, schema, attempt, st)
  {
    var cypherQuery, results, previousAttempts := st.query, st.results, st.history;
    var generated := CallGenerator(call, env, question, schema, previousAttempts, attempt);
    if generated.GenerationRaised? {
      previousAttempts := previousAttempts
        + [Attempt(if cypherQuery.Some? && cypherQuery.value != "" then cypherQuery.value else NoQuerySentinel,
                   ExecutionPrefix + generated.message)];
      return LoopState(cypherQuery, results, previousAttempts, false);
    }
    cypherQuery := Some(generated.query);
    var (isValid, errorMsg) := ValidateQueryWithExplain(env, attempt, generated.query);
    if !isValid {
      previousAttempts := previousAttempts + [Attempt(generated.query, ValidationPrefix + errorMsg)];
      return LoopState(cypherQuery, results, previousAttempts, false);
    }
    var executed := env.execute(attempt, generated.query);
    if executed.StoreRaised? {
      previousAttempts := previousAttempts
        + [Attempt(if generated.query != "" then generated.query else NoQuerySentinel, ExecutionPrefix + executed.message)];
      return LoopState(cypherQuery, results, previousAttempts, false);
    }
    results := executed.value;
    if results.None? || |results.value| == 0 {
      previousAttempts := previousAttempts + [Attempt(generated.query, NoResultsMessage)];
      return LoopState(cypherQuery, results, previousAttempts, false);
    }
    next := LoopState(cypherQuery, results, previousAttempts, true);
  }

  /** A call of `generate_cypher` from the loop: through the cache it raises
      before the body runs. */
  method CallGenerator(call: CypherCall, env: Env, question: string, schema: GraphSchema, history: seq<Attempt>, attempt: nat)
    returns (g: Generation)
    ensures g == Generate(call, env, question, schema, history, attempt)
  {
    if call.LruCached? {
      g := GenerationRaised(call.typeError);
    } else {
      g := GenerateCypher(env, question, schema, history, attempt);
    }
  }

  /** Lines 203-221 after the loop. */
  method Conclude(env: Env, question: string, last: LoopState) returns (out: RunOutcome)
    requires last.results.Some? ==> last.query.Some?
    ensures out == Finish(env, question, last)
  {
    var cypherQuery, results := last.query, last.results;
    if results.None? || |results.value| == 0 {
      var query := if cypherQuery.Some? && cypherQuery.value != "" then cypherQuery.value else NoValidQuerySentinel;
      return Completed(PipelineResult(question, query, NotEnoughInformation, None));
    }
    var context := env.show(results.value);
    var answer := GenerateAnswer(env, question, cypherQuery.value, context);
    if answer.Failure? {
      return Raised(answer.error);
    }
    out := Completed(PipelineResult(question, cypherQuery.value, answer.value, results));
  }
}
