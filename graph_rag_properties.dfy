/** What `run` promises, stated over the model of module GraphRag: how the
    retry loop records its failures, when it stops, which errors escape, the
    shape of the result, and what the lru_cache decoration does to it. */
module GraphRagProperties {
  import opened Wrappers
  import opened JsonValues
  import opened Text
  import opened Fence
  import opened Schema
  import opened Prompt
  import opened GraphRag

  // ---- the loop ------------------------------------------------------------

  /** A pass only appends: the records of earlier passes stay, in order. */
  lemma {:induction false} HistoryOnlyGrows(call: CypherCall, env: Env, question: string, schema: GraphSchema, k: nat, k': nat)
    requires k <= k'
    ensures After(call, env, question, schema, k).history <= After(call, env, question, schema, k').history
    decreases k' - k
  {
    if k < k' {
      HistoryOnlyGrows(call, env, question, schema, k + 1, k');
      PassAppends(call, env, question, schema, k);
      PrefixTransitive(After(call, env, question, schema, k).history,
                       After(call, env, question, schema, k + 1).history,
                       After(call, env, question, schema, k').history);
    }
  }

  lemma PassAppends(call: CypherCall, env: Env, question: string, schema: GraphSchema, k: nat)
    ensures After(call, env, question, schema, k).history <= After(call, env, question, schema, k + 1).history
  {
    var p := After(call, env, question, schema, k);
    if !p.broke {
      var r := Pass(call, env, question, schema, k, p);
      assert r.history[..|p.history|] == p.history;
    }
  }

  lemma PrefixTransitive(a: seq<Attempt>, b: seq<Attempt>, c: seq<Attempt>)
    requires a <= b && b <= c
    ensures a <= c
  {
    assert c[..|a|] == b[..|a|];
  }

  /** A generation that raises is recorded with the query left over from an
      earlier pass, or the placeholder when there is none, and nothing else
      changes. */
  lemma GenerationFailureRecorded(call: CypherCall, env: Env, question: string, schema: GraphSchema, k: nat, message: string)
    requires !After(call, env, question, schema, k).broke
    requires Generate(call, env, question, schema, After(call, env, question, schema, k).history, k) == GenerationRaised(message)
    ensures var p := After(call, env, question, schema, k);
      After(call, env, question, schema, k + 1) ==
        p.(history := p.history + [Attempt(QueryOr(p.query, NoQuerySentinel), ExecutionPrefix + message)])
  {
  }

  /** The stale query: when pass `k` generated `q` but failed, and pass
      `k + 1` cannot generate, the record of pass `k + 1` names `q` again. */
  lemma {:induction false} StaleQueryRecorded(call: CypherCall, env: Env, question: string, schema: GraphSchema, k: nat, q: string, message: string)
    requires q != ""
    requires !After(call, env, question, schema, k + 1).broke
    requires After(call, env, question, schema, k + 1).query == Some(q)
    requires Generate(call, env, question, schema, After(call, env, question, schema, k + 1).history, k + 1) == GenerationRaised(message)
    ensures After(call, env, question, schema, k + 2).history[k + 1] == Attempt(q, ExecutionPrefix + message)
  {
    GenerationFailureRecorded(call, env, question, schema, k + 1, message);
  }

  /** A query the EXPLAIN call rejects, for whatever reason the store gives,
      is recorded with the validation prefix; the error does not escape. */
  lemma ExplainFailureRecorded(call: CypherCall, env: Env, question: string, schema: GraphSchema, k: nat, q: string, message: string)
    requires !After(call, env, question, schema, k).broke
    requires Generate(call, env, question, schema, After(call, env, question, schema, k).history, k) == Generated(q)
    requires env.execute(k, "EXPLAIN " + q) == StoreRaised(message)
    ensures var p := After(call, env, question, schema, k);
      After(call, env, question, schema, k + 1) ==
        LoopState(Some(q), p.results, p.history + [Attempt(q, ValidationPrefix + message)], false)
  {
  }

  /** An accepted query whose execution raises is recorded with the
      execution prefix. */
  lemma ExecutionFailureRecorded(call: CypherCall, env: Env, question: string, schema: GraphSchema, k: nat, q: string, message: string)
    requires !After(call, env, question, schema, k).broke
    requires Generate(call, env, question, schema, After(call, env, question, schema, k).history, k) == Generated(q)
    requires env.execute(k, "EXPLAIN " + q).Returned? && env.execute(k, q) == StoreRaised(message)
    ensures var p := After(call, env, question, schema, k);
      After(call, env, question, schema, k + 1) ==
        LoopState(Some(q), p.results, p.history + [Attempt(QueryOr(Some(q), NoQuerySentinel), ExecutionPrefix + message)], false)
  {
  }

  /** An accepted query with no rows (None or an empty list) is recorded with
      the fixed message, and the loop goes on. */
  lemma EmptyResultRecorded(call: CypherCall, env: Env, question: string, schema: GraphSchema, k: nat, q: string, rows: Option<seq<Json>>)
    requires !After(call, env, question, schema, k).broke
    requires Generate(call, env, question, schema, After(call, env, question, schema, k).history, k) == Generated(q)
    requires env.execute(k, "EXPLAIN " + q).Returned? && env.execute(k, q) == Returned(rows)
    requires !HasRows(rows)
    ensures var p := After(call, env, question, schema, k);
      After(call, env, question, schema, k + 1) ==
        LoopState(Some(q), rows, p.history + [Attempt(q, NoResultsMessage)], false)
  {
  }

  /** What happened in pass `k`, read from its inputs: the generator
      raised, EXPLAIN rejected the query, its execution raised, it returned
      no rows, or it returned rows. */
  datatype PassCause = GenerationFailed | ExplainRejected | ExecutionRaised | NoRows | RowsFound

  function CauseOf(call: CypherCall, env: Env, question: string, schema: GraphSchema, k: nat): PassCause
  {
    CauseFrom(call, env, question, schema, After(call, env, question, schema, k).history, k)
  }

  /** The cause of pass `k` when it is given `history`. */
  function CauseFrom(call: CypherCall, env: Env, question: string, schema: GraphSchema, history: seq<Attempt>, k: nat): PassCause
  {
    match Generate(call, env, question, schema, history, k)
    case GenerationRaised(_) => GenerationFailed
    case Generated(q) =>
      if ExplainRejects(env, k, q) then ExplainRejected
      else
        match env.execute(k, q)
        case StoreRaised(_) => ExecutionRaised
        case Returned(rows) => if HasRows(rows) then RowsFound else NoRows
  }

  /** The error text tells the cause: the validation prefix exactly for an
      EXPLAIN rejection, the no-results text exactly for an empty result,
      and the execution prefix exactly for a generator or execution error. */
  predicate RecordsCause(error: string, cause: PassCause)
  {
    (StartsWith(error, ValidationPrefix) <==> cause == ExplainRejected) &&
    (error == NoResultsMessage <==> cause == NoRows) &&
    (StartsWith(error, ExecutionPrefix) <==> cause == GenerationFailed || cause == ExecutionRaised)
  }

  /** Record `j` of the history is left by pass `j`, which did not find
      rows, and its error text is exactly one of the three kinds, the one
      that names what went wrong in that pass. */
  lemma RecordKindsMatchCauses(call: CypherCall, env: Env, question: string, schema: GraphSchema, k: nat)
    ensures var h := After(call, env, question, schema, k).history;
      forall j :: 0 <= j < |h| ==>
        CauseOf(call, env, question, schema, j) != RowsFound &&
        RecordsCause(h[j].error, CauseOf(call, env, question, schema, j))
  {
    var h := After(call, env, question, schema, k).history;
    forall j | 0 <= j < |h|
      ensures CauseOf(call, env, question, schema, j) != RowsFound
      ensures RecordsCause(h[j].error, CauseOf(call, env, question, schema, j))
    {
      RecordOfPass(call, env, question, schema, k, j);
      PassRecord(call, env, question, schema, j);
    }
  }

  /** Record `j` of any later history is the one pass `j` appended. */
  lemma RecordOfPass(call: CypherCall, env: Env, question: string, schema: GraphSchema, k: nat, j: nat)
    requires j < |After(call, env, question, schema, k).history|
    ensures j < k && !After(call, env, question, schema, j + 1).broke
    ensures After(call, env, question, schema, k).history[j] == After(call, env, question, schema, j + 1).history[j]
  {
    PassNotBroken(call, env, question, schema, k, j);
    HistoryOnlyGrows(call, env, question, schema, j + 1, k);
    assert j < |After(call, env, question, schema, j + 1).history|;
  }

  /** A history with a record at index `j` was built past pass `j`, and pass
      `j` did not break. */
  lemma PassNotBroken(call: CypherCall, env: Env, question: string, schema: GraphSchema, k: nat, j: nat)
    requires j < |After(call, env, question, schema, k).history|
    ensures j < k && !After(call, env, question, schema, j + 1).broke
  {
    if After(call, env, question, schema, j + 1).broke {
      AfterBreakStable(call, env, question, schema, j + 1, k);
    }
  }

  /** The record a failed pass appends names its cause. */
  lemma PassRecord(call: CypherCall, env: Env, question: string, schema: GraphSchema, k: nat)
    requires !After(call, env, question, schema, k + 1).broke
    ensures |After(call, env, question, schema, k + 1).history| == k + 1
    ensures CauseOf(call, env, question, schema, k) != RowsFound
    ensures RecordsCause(After(call, env, question, schema, k + 1).history[k].error, CauseOf(call, env, question, schema, k))
  {
    AfterStep(call, env, question, schema, k);
    var p := After(call, env, question, schema, k);
    StepRecord(call, env, question, schema, k, p);
  }

  /** The same for one pass from any state the loop has not left. */
  lemma StepRecord(call: CypherCall, env: Env, question: string, schema: GraphSchema, k: nat, st: LoopState)
    requires !st.broke && !HasRows(st.results) && (st.results.Some? ==> st.query.Some?)
    requires !Pass(call, env, question, schema, k, st).broke
    ensures CauseFrom(call, env, question, schema, st.history, k) != RowsFound
    ensures RecordsCause(Pass(call, env, question, schema, k, st).history[|st.history|].error,
                         CauseFrom(call, env, question, schema, st.history, k))
  {
    var e := Pass(call, env, question, schema, k, st).history[|st.history|].error;
    var c := CauseFrom(call, env, question, schema, st.history, k);
    match Generate(call, env, question, schema, st.history, k)
    case GenerationRaised(m) =>
      assert e == ExecutionPrefix + m && c == GenerationFailed;
      ExecutionKind(e, c, m);
    case Generated(q) =>
      if ExplainRejects(env, k, q) {
        var m := env.execute(k, "EXPLAIN " + q).message;
        assert e == ValidationPrefix + m && c == ExplainRejected;
        ValidationKind(e, c, m);
      } else if env.execute(k, q).StoreRaised? {
        var m := env.execute(k, q).message;
        assert e == ExecutionPrefix + m && c == ExecutionRaised;
        ExecutionKind(e, c, m);
      } else {
        var rows := env.execute(k, q).value;
        assert Pass(call, env, question, schema, k, st).results == rows;
        assert e == NoResultsMessage && c == NoRows;
        KindsExclusive(e);
      }
  }

  lemma ValidationKind(e: string, c: PassCause, m: string)
    requires e == ValidationPrefix + m && c == ExplainRejected
    ensures RecordsCause(e, c)
  {
    PrefixOfAppended(ValidationPrefix, m);
    KindsExclusive(e);
  }

  lemma ExecutionKind(e: string, c: PassCause, m: string)
    requires e == ExecutionPrefix + m && (c == GenerationFailed || c == ExecutionRaised)
    ensures RecordsCause(e, c)
  {
    PrefixOfAppended(ExecutionPrefix, m);
    KindsExclusive(e);
  }

  /** The three kinds of error text exclude one another. */
  lemma KindsExclusive(e: string)
    ensures !(StartsWith(e, ValidationPrefix) && StartsWith(e, ExecutionPrefix))
    ensures StartsWith(e, ValidationPrefix) ==> e != NoResultsMessage
    ensures StartsWith(e, ExecutionPrefix) ==> e != NoResultsMessage
  {
    assert NoResultsMessage[0] == 'Q';
    if StartsWith(e, ValidationPrefix) {
      FirstOfPrefix(e, ValidationPrefix);
      assert ValidationPrefix[0] == 'V';
    }
    if StartsWith(e, ExecutionPrefix) {
      FirstOfPrefix(e, ExecutionPrefix);
      assert ExecutionPrefix[0] == 'E';
    }
  }

  lemma PrefixOfAppended(prefix: string, m: string)
    ensures StartsWith(prefix + m, prefix)
  {
    assert (prefix + m)[..|prefix|] == prefix;
  }

  lemma FirstOfPrefix(e: string, prefix: string)
    requires prefix != [] && StartsWith(e, prefix)
    ensures e[0] == prefix[0]
  {
    assert e[..|prefix|][0] == e[0];
  }

  // ---- the terminal result -------------------------------------------------

  /** The first pass that finds rows ends the loop: `run` answers from that
      query and those rows, whatever the later passes would have done. */
  lemma {:induction false} SuccessAtPass(call: CypherCall, env: Env, question: string, maxRetries: int, schema: GraphSchema,
                                         k: nat, q: string, rows: seq<Json>)
    requires Pruned(env, question) == Success(schema)
    requires k < RetryCount(maxRetries)
    requires !After(call, env, question, schema, k).broke
    requires Generate(call, env, question, schema, After(call, env, question, schema, k).history, k) == Generated(q)
    requires env.execute(k, "EXPLAIN " + q).Returned? && env.execute(k, q) == Returned(Some(rows)) && |rows| > 0
    ensures RunResult(call, env, question, maxRetries) ==
      match GenerateAnswer(env, question, q, env.show(rows))
      case Success(answer) => Completed(PipelineResult(question, q, answer, Some(rows)))
      case Failure(m) => Raised(m)
  {
    var n := RetryCount(maxRetries);
    AfterStep(call, env, question, schema, k);
    RowsEndPass(call, env, question, schema, k, After(call, env, question, schema, k), q, rows);
    AfterBreakStable(call, env, question, schema, k + 1, n);
    assert After(call, env, question, schema, n) == LoopState(Some(q), Some(rows), After(call, env, question, schema, k).history, true);
  }

  /** A pass whose query runs and returns rows ends the loop with them. */
  lemma RowsEndPass(call: CypherCall, env: Env, question: string, schema: GraphSchema, k: nat, p: LoopState, q: string, rows: seq<Json>)
    requires !p.broke && !HasRows(p.results) && (p.results.Some? ==> p.query.Some?)
    requires Generate(call, env, question, schema, p.history, k) == Generated(q)
    requires env.execute(k, "EXPLAIN " + q).Returned? && env.execute(k, q) == Returned(Some(rows)) && |rows| > 0
    ensures Pass(call, env, question, schema, k, p) == LoopState(Some(q), Some(rows), p.history, true)
  {
  }

  /** With no passes (`max_retries` of zero or less) the result is the
      placeholder answer without a query. */
  lemma NoRetries(call: CypherCall, env: Env, question: string, maxRetries: int)
    requires maxRetries <= 0 && Pruned(env, question).Success?
    ensures RunResult(call, env, question, maxRetries) ==
      Completed(PipelineResult(question, NoValidQuerySentinel, NotEnoughInformation, None))
  {
  }

  /** A failure of the pruning step escapes `run` unchanged. */
  lemma PruneFailurePropagates(call: CypherCall, env: Env, question: string, maxRetries: int)
    requires Pruned(env, question).Failure?
    ensures RunResult(call, env, question, maxRetries) == Raised(Pruned(env, question).error)
  {
  }

  /** Only the pruning step and the final answer can make `run` raise; every
      error inside the loop is recorded instead. */
  lemma RaisedOnlyOutsideLoop(call: CypherCall, env: Env, question: string, maxRetries: int)
    requires RunResult(call, env, question, maxRetries).Raised?
    ensures var m := RunResult(call, env, question, maxRetries).message;
      Pruned(env, question) == Failure(m) ||
      (Pruned(env, question).Success? &&
       var last := After(call, env, question, Pruned(env, question).value, RetryCount(maxRetries));
       HasRows(last.results) && GenerateAnswer(env, question, last.query.value, env.show(last.results.value)) == Failure(m))
  {
  }

  /** A returned result either carries rows and the model's answer, or
      carries no context and the placeholder answer; it never carries an
      empty row list. */
  lemma CompletedShape(call: CypherCall, env: Env, question: string, maxRetries: int)
    requires RunResult(call, env, question, maxRetries).Completed?
    ensures var r := RunResult(call, env, question, maxRetries).result;
      r.question == question &&
      ((r.context == None && r.answer == NotEnoughInformation) ||
       (HasRows(r.context) &&
        GenerateAnswer(env, question, r.query, env.show(r.context.value)) == Success(r.answer)))
  {
  }

  /** The store raises on pass `k`'s EXPLAIN of `q`. */
  predicate ExplainRejects(env: Env, k: nat, q: string)
  {
    env.execute(k, "EXPLAIN " + q).StoreRaised?
  }

  /** The records `i` rejected queries leave: each query with its EXPLAIN error. */
  function RejectedHistory(env: Env, qs: seq<string>, i: nat): (h: seq<Attempt>)
    requires i <= |qs|
    ensures |h| == i
    ensures forall j :: 0 <= j < i ==> StartsWith(h[j].error, ValidationPrefix)
  {
    seq(i, j requires 0 <= j < i => RejectedRecord(env, qs, j))
  }

  function RejectedRecord(env: Env, qs: seq<string>, j: nat): (a: Attempt)
    requires j < |qs|
    ensures a.query == qs[j] && StartsWith(a.error, ValidationPrefix)
  {
    var m := ValidateQueryWithExplain(env, j, qs[j]).1;
    assert (ValidationPrefix + m)[..|ValidationPrefix|] == ValidationPrefix;
    Attempt(qs[j], ValidationPrefix + m)
  }

  /** The passes actually taken generate `qs` one by one, each from the
      records the earlier rejections left, and EXPLAIN rejects each. */
  predicate RejectedRun(env: Env, question: string, schema: GraphSchema, qs: seq<string>)
  {
    forall i :: 0 <= i < |qs| ==>
      CypherGeneration(env, question, schema, RejectedHistory(env, qs, i), i) == Generated(qs[i]) &&
      ExplainRejects(env, i, qs[i])
  }

  lemma {:induction false} RejectedPasses(env: Env, question: string, schema: GraphSchema, qs: seq<string>, k: nat)
    requires k <= |qs| && RejectedRun(env, question, schema, qs)
    ensures After(Direct, env, question, schema, k) ==
      LoopState(if k == 0 then None else Some(qs[k - 1]), None, RejectedHistory(env, qs, k), false)
  {
    if k > 0 {
      RejectedPasses(env, question, schema, qs, k - 1);
      RejectedPassesStep(env, question, schema, qs, k);
    } else {
      assert RejectedHistory(env, qs, 0) == [];
    }
  }

  lemma RejectedPassesStep(env: Env, question: string, schema: GraphSchema, qs: seq<string>, k: nat)
    requires 0 < k <= |qs| && RejectedRun(env, question, schema, qs)
    requires After(Direct, env, question, schema, k - 1) ==
      LoopState(if k == 1 then None else Some(qs[k - 2]), None, RejectedHistory(env, qs, k - 1), false)
    ensures After(Direct, env, question, schema, k) ==
      LoopState(if k == 0 then None else Some(qs[k - 1]), None, RejectedHistory(env, qs, k), false)
  {
    AfterStep(Direct, env, question, schema, k - 1);
    var h := RejectedHistory(env, qs, k - 1);
    RejectedRunAt(env, question, schema, qs, k - 1);
    RejectedPass(env, question, schema, k - 1, if k == 1 then None else Some(qs[k - 2]), h, qs[k - 1]);
    RejectedHistorySnoc(env, qs, k);
  }

  lemma RejectedRunAt(env: Env, question: string, schema: GraphSchema, qs: seq<string>, i: nat)
    requires i < |qs| && RejectedRun(env, question, schema, qs)
    ensures CypherGeneration(env, question, schema, RejectedHistory(env, qs, i), i) == Generated(qs[i])
    ensures ExplainRejects(env, i, qs[i])
  {
  }

  lemma RejectedHistorySnoc(env: Env, qs: seq<string>, k: nat)
    requires 0 < k <= |qs|
    ensures RejectedHistory(env, qs, k) ==
      RejectedHistory(env, qs, k - 1) + [Attempt(qs[k - 1], ValidationPrefix + ValidateQueryWithExplain(env, k - 1, qs[k - 1]).1)]
  {
    assert RejectedHistory(env, qs, k)[k - 1] == RejectedRecord(env, qs, k - 1);
  }

  /** One pass whose EXPLAIN fails appends one validation record. */
  lemma RejectedPass(env: Env, question: string, schema: GraphSchema, k: nat, prev: Option<string>, h: seq<Attempt>, q: string)
    requires CypherGeneration(env, question, schema, h, k) == Generated(q)
    requires ExplainRejects(env, k, q)
    ensures Pass(Direct, env, question, schema, k, LoopState(prev, None, h, false)) ==
      LoopState(Some(q), None, h + [Attempt(q, ValidationPrefix + ValidateQueryWithExplain(env, k, q).1)], false)
  {
  }

  /** When every pass taken generates a query that EXPLAIN rejects, all
      `max_retries` passes are recorded as validation errors, the last
      generation sees the records of the earlier ones, and the last query is
      returned without an answer. */
  lemma AllValidationsFail(env: Env, question: string, maxRetries: int, qs: seq<string>)
    requires Pruned(env, question).Success? && maxRetries > 0 && |qs| == maxRetries
    requires RejectedRun(env, question, Pruned(env, question).value, qs)
    ensures var schema := Pruned(env, question).value;
      After(Direct, env, question, schema, maxRetries).history == RejectedHistory(env, qs, maxRetries) &&
      After(Direct, env, question, schema, maxRetries - 1).history == RejectedHistory(env, qs, maxRetries - 1) &&
      RunResult(Direct, env, question, maxRetries) ==
        Completed(PipelineResult(question, QueryOr(Some(qs[maxRetries - 1]), NoValidQuerySentinel), NotEnoughInformation, None))
  {
    var schema := Pruned(env, question).value;
    RejectedPasses(env, question, schema, qs, maxRetries);
    RejectedPasses(env, question, schema, qs, maxRetries - 1);
  }

  // ---- reply unwrapping ----------------------------------------------------

  /** A body the fence strip gives back unchanged once wrapped. */
  predicate Unfenced(body: string)
  {
    !HasMarker(body) && (body == [] || (!IsSpace(body[0]) && !IsSpace(body[|body| - 1])))
  }

  /** A reply wrapped in a ```json fence yields the query inside it. */
  lemma FencedQueryExtracted(env: Env, question: string, schema: GraphSchema, history: seq<Attempt>, k: nat, body: string, q: string)
    requires Unfenced(body)
    requires env.cypherAgent(k, CypherPrompt(question, env.dumpJson(schema), history)) ==
      Reply(Marker + JsonTag + "\n" + body + "\n" + Marker)
    requires env.loads(body) == Success(JObj([Member("query", JStr(q))]))
    ensures CypherGeneration(env, question, schema, history, k) == Generated(q)
  {
    StripFenceTaggedRoundTrip(body);
  }

  /** A reply wrapped in a ```json fence yields the answer inside it. */
  lemma FencedAnswerExtracted(env: Env, question: string, query: string, context: string, body: string, answer: string)
    requires Unfenced(body)
    requires env.answerAgent(AnswerPrompt(question, query, context)) == Reply(Marker + JsonTag + "\n" + body + "\n" + Marker)
    requires env.loads(body) == Success(JObj([Member("response", JStr(answer))]))
    ensures GenerateAnswer(env, question, query, context) == Success(answer)
  {
    StripFenceTaggedRoundTrip(body);
  }

  /** The pruned schema does not depend on whether the reply was fenced. */
  lemma PrunedIgnoresFence(env: Env, env': Env, question: string, body: string)
    requires Unfenced(body)
    requires env'.schemaText == env.schemaText && env'.loads == env.loads
    requires env.pruneAgent(QuestionAndSchema(question, env.schemaText)) == Reply(body)
    requires env'.pruneAgent(QuestionAndSchema(question, env.schemaText)) == Reply(Marker + JsonTag + "\n" + body + "\n" + Marker)
    ensures Pruned(env', question) == Pruned(env, question)
  {
    StripFenceTaggedRoundTrip(body);
    if StartsWith(body, Marker) {
      NotFenced(body);
    }
  }

  /** The single-line rule of the query record is documentation only: a
      reply whose JSON text encodes a query spanning two lines (with the
      escape `\n`) is taken as it is. */
  lemma MultiLineQueryAccepted(env: Env, question: string, schema: GraphSchema, history: seq<Attempt>, k: nat)
    requires env.cypherAgent(k, CypherPrompt(question, env.dumpJson(schema), history)) ==
      Reply("{\"query\": \"MATCH (n)\\nRETURN n\"}")
    requires env.loads("{\"query\": \"MATCH (n)\\nRETURN n\"}") ==
      Success(JObj([Member("query", JStr("MATCH (n)\nRETURN n"))]))
    ensures CypherGeneration(env, question, schema, history, k) == Generated("MATCH (n)\nRETURN n")
    ensures !SingleLine(Query("MATCH (n)\nRETURN n"))
  {
    var text := "{\"query\": \"MATCH (n)\\nRETURN n\"}";
    assert text[..|Marker|][0] == '{' != Marker[0];
    assert Query("MATCH (n)\nRETURN n").query[9] == '\n';
  }

  // ---- the lru_cache decoration --------------------------------------------

  /** The records a cached generator leaves after `k` passes. */
  function CachedFailures(typeError: string, k: nat): (h: seq<Attempt>)
    ensures |h| == k
    ensures forall i :: 0 <= i < k ==> h[i] == Attempt(NoQuerySentinel, ExecutionPrefix + typeError)
  {
    if k == 0 then [] else CachedFailures(typeError, k - 1) + [Attempt(NoQuerySentinel, ExecutionPrefix + typeError)]
  }

  lemma {:induction false} CachedPasses(env: Env, question: string, schema: GraphSchema, typeError: string, k: nat)
    ensures After(LruCached(typeError), env, question, schema, k) ==
      LoopState(None, None, CachedFailures(typeError, k), false)
  {
    if k > 0 {
      CachedPasses(env, question, schema, typeError, k - 1);
      AfterStep(LruCached(typeError), env, question, schema, k - 1);
    }
  }

  /** As written, with `generate_cypher` behind `lru_cache`, no run ever
      reaches the database: every pass records the TypeError under the
      placeholder query and the run ends without an answer. */
  lemma LruCachedNeverAnswers(env: Env, question: string, maxRetries: int, typeError: string)
    requires Pruned(env, question).Success?
    ensures var last := After(LruCached(typeError), env, question, Pruned(env, question).value, RetryCount(maxRetries));
      (forall i :: 0 <= i < |last.history| ==> last.history[i] == Attempt(NoQuerySentinel, ExecutionPrefix + typeError)) &&
      RunResult(LruCached(typeError), env, question, maxRetries) ==
        Completed(PipelineResult(question, NoValidQuerySentinel, NotEnoughInformation, None))
  {
    CachedPasses(env, question, Pruned(env, question).value, typeError, RetryCount(maxRetries));
  }

  /** The intended behaviour, with `generate_cypher` called directly: if
      the first reply holds a query the store accepts and that returns rows,
      `run` answers from those rows.  The cached version, on the same
      inputs, does not. */
  lemma FirstPassAnswers(env: Env, question: string, maxRetries: int, body: string, q: string, rows: seq<Json>, answer: string, typeError: string)
    requires maxRetries > 0 && Pruned(env, question).Success?
    requires Unfenced(body)
    requires env.cypherAgent(0, CypherPrompt(question, env.dumpJson(Pruned(env, question).value), [])) ==
      Reply(Marker + JsonTag + "\n" + body + "\n" + Marker)
    requires env.loads(body) == Success(JObj([Member("query", JStr(q))]))
    requires env.execute(0, "EXPLAIN " + q).Returned? && env.execute(0, q) == Returned(Some(rows)) && |rows| > 0
    requires GenerateAnswer(env, question, q, env.show(rows)) == Success(answer)
    ensures RunResult(Direct, env, question, maxRetries) == Completed(PipelineResult(question, q, answer, Some(rows)))
    ensures RunResult(LruCached(typeError), env, question, maxRetries) ==
      Completed(PipelineResult(question, NoValidQuerySentinel, NotEnoughInformation, None))
  {
    var schema := Pruned(env, question).value;
    FencedQueryExtracted(env, question, schema, [], 0, body, q);
    FirstPassGenerates(env, question, schema, q);
    SuccessAtPass(Direct, env, question, maxRetries, schema, 0, q, rows);
    LruCachedNeverAnswers(env, question, maxRetries, typeError);
  }

  lemma FirstPassGenerates(env: Env, question: string, schema: GraphSchema, q: string)
    requires CypherGeneration(env, question, schema, [], 0) == Generated(q)
    ensures !After(Direct, env, question, schema, 0).broke
    ensures Generate(Direct, env, question, schema, After(Direct, env, question, schema, 0).history, 0) == Generated(q)
  {
  }
}
