/** The offline scoring of a run log (src/detail_eval.py): whether each
    generated query's result context covers the gold context, and the
    true / false / no-attempt tallies with their accuracy and precision.

    Each log line is given already parsed; Python's `str()` of a context
    item is the parameter `show`. */
module DetailEval {
  import opened Wrappers
  import opened JsonValues
  import Text

  // ---- text ------------------------------------------------------------------

  /** `str.lower()` on ASCII letters. */
  function LowerChar(c: char): (d: char)
    ensures 'A' <= c <= 'Z' ==> d as int == c as int + 32
    ensures !('A' <= c <= 'Z') ==> d == c
  {
    if 'A' <= c <= 'Z' then (c as int + 32) as char else c
  }

  function Lower(s: string): (r: string)
    ensures |r| == |s|
    ensures forall i :: 0 <= i < |s| ==> r[i] == LowerChar(s[i])
  {
    seq(|s|, i requires 0 <= i < |s| => LowerChar(s[i]))
  }

  lemma LowerIdempotent(s: string)
    ensures Lower(Lower(s)) == Lower(s)
  {
    assert forall i :: 0 <= i < |s| ==> LowerChar(LowerChar(s[i])) == LowerChar(s[i]);
  }

  /** `needle in hay` for strings: some slice of `hay` is `needle`. */
  ghost predicate IsSubstring(needle: string, hay: string)
  {
    exists i, j :: 0 <= i <= j <= |hay| && hay[i..j] == needle
  }

  /** A scan for `needle` at each position of `hay` in turn. */
  predicate Occurs(needle: string, hay: string)
    decreases |hay|
  {
    Text.StartsWith(hay, needle) || (hay != [] && Occurs(needle, hay[1..]))
  }

  lemma {:induction false} OccursIsSubstring(needle: string, hay: string)
    ensures Occurs(needle, hay) <==> IsSubstring(needle, hay)
  {
    if Occurs(needle, hay) {
      OccursGivesSlice(needle, hay);
    }
    if IsSubstring(needle, hay) {
      var i, j :| 0 <= i <= j <= |hay| && hay[i..j] == needle;
      SliceGivesOccurs(needle, hay, i);
    }
  }

  lemma {:induction false} OccursGivesSlice(needle: string, hay: string)
    requires Occurs(needle, hay)
    ensures IsSubstring(needle, hay)
    decreases |hay|
  {
    if Text.StartsWith(hay, needle) {
      assert hay[0..|needle|] == needle;
    } else {
      OccursGivesSlice(needle, hay[1..]);
      var i, j :| 0 <= i <= j <= |hay[1..]| && hay[1..][i..j] == needle;
      assert hay[i + 1..j + 1] == needle;
    }
  }

  lemma {:induction false} SliceGivesOccurs(needle: string, hay: string, i: nat)
    requires i + |needle| <= |hay| && hay[i..i + |needle|] == needle
    ensures Occurs(needle, hay)
    decreases i
  {
    if i == 0 {
      assert hay[..|needle|] == needle;
    } else {
      assert hay[1..][i - 1..i - 1 + |needle|] == needle;
      SliceGivesOccurs(needle, hay[1..], i - 1);
    }
  }

  // ---- mini_check (lines 3-9) ------------------------------------------------

  /** Both values truthy, and one's lower-cased text contains the other's. */
  function MiniCheck(show: Json -> string, a: Json, b: Json): (r: bool)
    ensures r <==>
      Truthy(a) && Truthy(b) &&
      (IsSubstring(Lower(show(a)), Lower(show(b))) || IsSubstring(Lower(show(b)), Lower(show(a))))
  {
    if !Truthy(a) || !Truthy(b) then false
    else
      var x := Lower(show(a));
      var y := Lower(show(b));
      OccursIsSubstring(x, y);
      OccursIsSubstring(y, x);
      Occurs(x, y) || Occurs(y, x)
  }

  lemma MiniCheckSymmetric(show: Json -> string, a: Json, b: Json)
    ensures MiniCheck(show, a, b) == MiniCheck(show, b, a)
  {
  }

  /** A truthy value always matches itself. */
  lemma MiniCheckReflexive(show: Json -> string, a: Json)
    requires Truthy(a)
    ensures MiniCheck(show, a, a)
  {
    var x := Lower(show(a));
    assert x[..|x|] == x;
  }

  /** Items whose texts differ only in ASCII letter case match alike. */
  lemma MiniCheckCaseBlind(show: Json -> string, a: Json, a': Json, b: Json)
    requires Truthy(a) == Truthy(a') && Lower(show(a)) == Lower(show(a'))
    ensures MiniCheck(show, a, b) == MiniCheck(show, a', b)
  {
  }

  // ---- valid_query (lines 11-16) -----------------------------------------------

  /** `any(mini_check(item, ct) for ct in contexts)` */
  predicate AnyMatch(show: Json -> string, item: Json, contexts: seq<Json>)
  {
    exists j :: 0 <= j < |contexts| && MiniCheck(show, item, contexts[j])
  }

  /** The loop over the gold items: every one is matched by some context item. */
  function AllCovered(show: Json -> string, gold: seq<Json>, contexts: seq<Json>): (r: bool)
    ensures r <==> forall i :: 0 <= i < |gold| ==> AnyMatch(show, gold[i], contexts)
  {
    if gold == [] then true
    else AnyMatch(show, gold[0], contexts) && AllCovered(show, gold[1..], contexts)
  }

  /** `valid_query(query_context, gold_context)`; iterating a value that is
      truthy but not a list, string or dict raises TypeError. */
  function ValidQuery(show: Json -> string, queryContext: Json, goldContext: Json): (r: Result<bool, string>)
    ensures !Truthy(queryContext) || !Truthy(goldContext) ==> r == Success(false)
    ensures r == Success(true) ==>
      Iterated(goldContext).Some? && Iterated(queryContext).Some? &&
      forall i :: 0 <= i < |Iterated(goldContext).value| ==>
        AnyMatch(show, Iterated(goldContext).value[i], Iterated(queryContext).value)
    ensures Truthy(queryContext) && Truthy(goldContext) &&
            Iterated(goldContext).Some? && Iterated(queryContext).Some? ==>
      r == Success(forall i :: 0 <= i < |Iterated(goldContext).value| ==>
                     AnyMatch(show, Iterated(goldContext).value[i], Iterated(queryContext).value))
    ensures r.Failure? <==>
      Truthy(queryContext) && Truthy(goldContext) && (Iterated(goldContext).None? || Iterated(queryContext).None?)
  {
    if !Truthy(queryContext) then Success(false)
    else if !Truthy(goldContext) then Success(false)
    else if Iterated(goldContext).None? then Failure("object is not iterable")
    else if Iterated(queryContext).None? then Failure("object is not iterable")
    else Success(AllCovered(show, Iterated(goldContext).value, Iterated(queryContext).value))
  }

  /** A query whose result list gains items never loses its validity. */
  lemma MoreContextStaysValid(show: Json -> string, contexts: seq<Json>, more: seq<Json>, goldContext: Json)
    requires ValidQuery(show, JArr(contexts), goldContext) == Success(true)
    ensures ValidQuery(show, JArr(contexts + more), goldContext) == Success(true)
  {
    var gold := Iterated(goldContext).value;
    forall i | 0 <= i < |gold|
      ensures AnyMatch(show, gold[i], contexts + more)
    {
      var j :| 0 <= j < |contexts| && MiniCheck(show, gold[i], contexts[j]);
      assert (contexts + more)[j] == contexts[j];
    }
  }

  /** Every gold item must be matched: one unmatched item makes the query invalid. */
  lemma UncoveredGoldItemInvalid(show: Json -> string, contexts: seq<Json>, gold: seq<Json>, i: nat)
    requires contexts != [] && i < |gold|
    requires forall j :: 0 <= j < |contexts| ==> !MiniCheck(show, gold[i], contexts[j])
    ensures ValidQuery(show, JArr(contexts), JArr(gold)) == Success(false)
  {
  }

  // ---- analyse (lines 19-33) ---------------------------------------------------

  /** `sum(a is v for a in answer)` for v among True, False, None. */
  function Count(answer: seq<Json>, v: Json): (n: nat)
    ensures n == multiset(answer)[v]
    ensures n <= |answer|
  {
    if answer == [] then 0
    else
      assert answer == [answer[0]] + answer[1..];
      (if answer[0] == v then 1 else 0) + Count(answer[1..], v)
  }

  datatype Analysis = Analysis(trueCount: nat, falseCount: nat, noAttempt: nat, accuracy: real, precision: real)

  /** The tallies and the two ratios; a non-empty list holding none of
      True, False and None divides by zero. */
  function Analyse(answer: seq<Json>): (r: Result<Analysis, string>)
    ensures r.Failure? <==> |answer| > 0 && Count(answer, JBool(true)) + Count(answer, JBool(false)) + Count(answer, JNull) == 0
    ensures r.Success? ==>
      r.value.trueCount == Count(answer, JBool(true)) &&
      r.value.falseCount == Count(answer, JBool(false)) &&
      r.value.noAttempt == Count(answer, JNull)
    ensures r.Success? ==>
      r.value.precision == Ratio(r.value.trueCount, r.value.trueCount + r.value.falseCount) &&
      r.value.accuracy == Ratio(r.value.trueCount, r.value.trueCount + r.value.falseCount + r.value.noAttempt)
  {
    var t := Count(answer, JBool(true));
    var f := Count(answer, JBool(false));
    var n := Count(answer, JNull);
    var pre := Ratio(t, t + f);
    if |answer| > 0 && t + f + n == 0 then Failure("division by zero")
    else
      var acc := Ratio(t, t + f + n);
      Success(Analysis(t, f, n, acc, pre))
  }

  /** `part / whole if whole > 0 else 0`. */
  function Ratio(part: nat, whole: nat): (q: real)
    ensures whole > 0 ==> q * whole as real == part as real
    ensures whole == 0 ==> q == 0.0
  {
    if whole > 0 then part as real / whole as real else 0.0
  }

  lemma {:induction false} CountsBounded(answer: seq<Json>)
    ensures Count(answer, JBool(true)) + Count(answer, JBool(false)) + Count(answer, JNull) <= |answer|
  {
    if answer != [] {
      CountsBounded(answer[1..]);
    }
  }

  /** `analyse` raises exactly when the list is non-empty and holds no True,
      False or None; otherwise both ratios lie between 0 and 1. */
  lemma AnalyseMeaning(answer: seq<Json>)
    ensures Analyse(answer).Failure? <==>
      |answer| > 0 && forall k :: 0 <= k < |answer| ==> answer[k] != JBool(true) && answer[k] != JBool(false) && answer[k] != JNull
    ensures Analyse(answer).Success? ==>
      var a := Analyse(answer).value;
      a.trueCount + a.falseCount + a.noAttempt <= |answer| &&
      0.0 <= a.accuracy <= 1.0 && 0.0 <= a.precision <= 1.0 &&
      a.accuracy <= a.precision
  {
    CountsBounded(answer);
    var t := Count(answer, JBool(true));
    var f := Count(answer, JBool(false));
    var n := Count(answer, JNull);
    if forall k :: 0 <= k < |answer| ==> answer[k] != JBool(true) && answer[k] != JBool(false) && answer[k] != JNull {
      NotInMultiset(answer, JBool(true));
      NotInMultiset(answer, JBool(false));
      NotInMultiset(answer, JNull);
    } else {
      var k :| 0 <= k < |answer| && !(answer[k] != JBool(true) && answer[k] != JBool(false) && answer[k] != JNull);
      assert answer[k] in multiset(answer);
    }
    if t + f + n > 0 {
      RatioBounds(t, f, n);
    }
  }

  lemma NotInMultiset(answer: seq<Json>, v: Json)
    requires forall k :: 0 <= k < |answer| ==> answer[k] != v
    ensures multiset(answer)[v] == 0
  {
    assert v !in answer;
  }

  lemma RatioBounds(t: nat, f: nat, n: nat)
    requires t + f + n > 0
    ensures 0.0 <= t as real / (t + f + n) as real <= 1.0
    ensures t + f > 0 ==> t as real / (t + f + n) as real <= t as real / (t + f) as real <= 1.0
  {
    RatioInUnit(t as real, (t + f + n) as real);
    if t + f > 0 {
      RatioInUnit(t as real, (t + f) as real);
      RatioShrinks(t as real, (t + f) as real, (t + f + n) as real);
    }
  }

  lemma RatioInUnit(a: real, b: real)
    requires 0.0 <= a <= b && 0.0 < b
    ensures 0.0 <= a / b <= 1.0
  {
    QuotientNonNegative(a, b);
    var x := a / b;
    assert x * b == a;
    assert (1.0 - x) * b == b - a;
    FactorNonNegative(1.0 - x, b);
  }

  lemma QuotientNonNegative(a: real, b: real)
    requires 0.0 <= a && 0.0 < b
    ensures 0.0 <= a / b
  {
  }

  lemma FactorNonNegative(u: real, b: real)
    requires 0.0 < b && 0.0 <= u * b
    ensures 0.0 <= u
  {
  }

  lemma RatioShrinks(a: real, s: real, b: real)
    requires 0.0 <= a && 0.0 < s <= b
    ensures a / b <= a / s
  {
    QuotientNonNegative(a * (b - s), s * b);
    assert a / s - a / b == a * (b - s) / (s * b);
  }

  /** A list of booleans only, such as the query verdicts, never raises, has
      no "no attempt" entries, and its accuracy equals its precision. */
  lemma BooleanListAnalysis(answer: seq<Json>)
    requires forall k :: 0 <= k < |answer| ==> answer[k].JBool?
    ensures Analyse(answer).Success?
    ensures Analyse(answer).value.noAttempt == 0
    ensures Analyse(answer).value.trueCount + Analyse(answer).value.falseCount == |answer|
    ensures Analyse(answer).value.accuracy == Analyse(answer).value.precision
  {
    BooleanCounts(answer);
    NotInMultiset(answer, JNull);
  }

  lemma {:induction false} BooleanCounts(answer: seq<Json>)
    requires forall k :: 0 <= k < |answer| ==> answer[k].JBool?
    ensures Count(answer, JBool(true)) + Count(answer, JBool(false)) == |answer|
  {
    if answer != [] {
      BooleanCounts(answer[1..]);
    }
  }

  // ---- main (lines 37-58) -----------------------------------------------------

  /** The fields of one log line that `main` reads:
      model_answer.context, judge_result and metadata.gold_context. */
  datatype LogRecord = LogRecord(context: Json, judgeResult: Json, goldContext: Json)

  /** The verdict lists the loop fills: the judge's verdict where the run
      produced a context and None where it did not, and a boolean per query. */
  datatype Verdicts = Verdicts(answerResults: seq<Json>, queryResults: seq<Json>)

  /** The answer verdict for one record (lines 44-47). */
  function AnswerVerdict(r: LogRecord): Json
  {
    if Truthy(r.context) then r.judgeResult else JNull
  }

  /** Every record's `valid_query` returns instead of raising. */
  predicate QueriesCheckable(show: Json -> string, records: seq<LogRecord>)
  {
    forall k :: 0 <= k < |records| ==> ValidQuery(show, records[k].context, records[k].goldContext).Success?
  }

  /** The answer verdict list of the whole log, record by record. */
  function AnswerVerdicts(records: seq<LogRecord>): (v: seq<Json>)
    ensures |v| == |records|
    ensures forall k :: 0 <= k < |records| ==> v[k] == AnswerVerdict(records[k])
  {
    seq(|records|, k requires 0 <= k < |records| => AnswerVerdict(records[k]))
  }

  /** The query verdict list of the whole log, record by record. */
  function QueryVerdicts(show: Json -> string, records: seq<LogRecord>): (v: seq<Json>)
    requires QueriesCheckable(show, records)
    ensures |v| == |records|
    ensures forall k :: 0 <= k < |records| ==>
      v[k] == JBool(ValidQuery(show, records[k].context, records[k].goldContext).value)
  {
    seq(|records|, k requires 0 <= k < |records| => JBool(ValidQuery(show, records[k].context, records[k].goldContext).value))
  }

  /** The loop of lines 42-53; the first record whose `valid_query` raises
      ends it with that error. */
  method CollectVerdicts(show: Json -> string, records: seq<LogRecord>) returns (out: Result<Verdicts, string>)
    ensures out.Success? <==> forall k :: 0 <= k < |records| ==> ValidQuery(show, records[k].context, records[k].goldContext).Success?
    ensures out.Success? ==>
      |out.value.answerResults| == |records| && |out.value.queryResults| == |records| &&
      (forall k :: 0 <= k < |records| ==> out.value.answerResults[k] == AnswerVerdict(records[k])) &&
      (forall k :: 0 <= k < |records| ==>
         out.value.queryResults[k] == JBool(ValidQuery(show, records[k].context, records[k].goldContext).value))
    ensures out.Success? ==>
      QueriesCheckable(show, records) && out.value == Verdicts(AnswerVerdicts(records), QueryVerdicts(show, records))
    ensures out.Failure? ==> exists k :: (0 <= k < |records| &&
      (forall m :: 0 <= m < k ==> ValidQuery(show, records[m].context, records[m].goldContext).Success?) &&
      ValidQuery(show, records[k].context, records[k].goldContext) == Failure(out.error))
  {
    var answerResults: seq<Json> := [];
    var queryResults: seq<Json> := [];
    for k := 0 to |records|
      invariant |answerResults| == k && |queryResults| == k
      invariant forall m :: 0 <= m < k ==> ValidQuery(show, records[m].context, records[m].goldContext).Success?
      invariant forall m :: 0 <= m < k ==> answerResults[m] == AnswerVerdict(records[m])
      invariant forall m :: 0 <= m < k ==>
        queryResults[m] == JBool(ValidQuery(show, records[m].context, records[m].goldContext).value)
    {
      var line := records[k];
      if Truthy(line.context) {
        answerResults := answerResults + [line.judgeResult];
      } else {
        answerResults := answerResults + [JNull];
      }
      var valid := ValidQuery(show, line.context, line.goldContext);
      if valid.Failure? {
        return Failure(valid.error);
      }
      queryResults := queryResults + [JBool(valid.value)];
    }
    assert answerResults == AnswerVerdicts(records);
    assert queryResults == QueryVerdicts(show, records);
    out := Success(Verdicts(answerResults, queryResults));
  }

  /** The dict `main` returns. */
  datatype Report = Report(queryAnalyse: Analysis, overallAnalyse: Analysis)

  /** Lines 37-58 on parsed records: the query verdicts are scored, then the
      answer verdicts; only the second can raise. */
  method DetailEvaluation(show: Json -> string, records: seq<LogRecord>) returns (out: Result<Report, string>)
    ensures out.Success? ==>
      out.value.queryAnalyse.noAttempt == 0 &&
      out.value.queryAnalyse.trueCount + out.value.queryAnalyse.falseCount == |records| &&
      out.value.queryAnalyse.accuracy == out.value.queryAnalyse.precision &&
      out.value.overallAnalyse.trueCount + out.value.overallAnalyse.falseCount + out.value.overallAnalyse.noAttempt <= |records|
    ensures (forall k :: 0 <= k < |records| ==> ValidQuery(show, records[k].context, records[k].goldContext).Success?) &&
            (forall k :: 0 <= k < |records| ==> records[k].judgeResult.JBool?)
            ==> out.Success?
    ensures out.Success? <==> QueriesCheckable(show, records) && Analyse(AnswerVerdicts(records)).Success?
    ensures out.Success? ==>
      out.value == Report(Analyse(QueryVerdicts(show, records)).value, Analyse(AnswerVerdicts(records)).value)
    ensures QueriesCheckable(show, records) && out.Failure? ==> out.error == Analyse(AnswerVerdicts(records)).error
    ensures !QueriesCheckable(show, records) ==> out.Failure? && exists k :: (0 <= k < |records| &&
      (forall m :: 0 <= m < k ==> ValidQuery(show, records[m].context, records[m].goldContext).Success?) &&
      ValidQuery(show, records[k].context, records[k].goldContext) == Failure(out.error))
  {
    var verdicts := CollectVerdicts(show, records);
    if verdicts.Failure? {
      return Failure(verdicts.error);
    }
    var queryResults := verdicts.value.queryResults;
    var answerResults := verdicts.value.answerResults;
    BooleanListAnalysis(queryResults);
    var queryAnalyse := Analyse(queryResults);
    AnalyseMeaning(answerResults);
    var overallAnalyse := Analyse(answerResults);
    if overallAnalyse.Failure? {
      if |records| > 0 {
        assert answerResults[0] == AnswerVerdict(records[0]);
      }
      return Failure(overallAnalyse.error);
    }
    out := Success(Report(queryAnalyse.value, overallAnalyse.value));
  }
}
