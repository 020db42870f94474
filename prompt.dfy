/** The prompts the pipeline sends to the language model.  The query
    generator's prompt carries the history of failed attempts
    (src/graph_rag_compute.py:89-97). */
module Prompt {
  import opened Text

  /** One failed attempt: the query that was tried (or a sentinel) and why it failed. */
  datatype Attempt = Attempt(query: string, error: string)

  const HistoryHeader: string := "\n\n### Previous Failed Attempts ###"
  const Instruction: string :=
    "\n\nPlease learn from these failures and generate a corrected query that addresses all the issues above."

  /** `f"Question: {question}\n\nInput Schema: {schema}"`, the opening of the
      pruning prompt and of every query-generation prompt. */
  function QuestionAndSchema(question: string, schemaText: string): string
  {
    "Question: " + question + "\n\nInput Schema: " + schemaText
  }

  /** The answer generator's prompt (line 123). */
  function AnswerPrompt(question: string, query: string, context: string): string
  {
    "Question: " + question + "\n\nCypher Query: " + query + "\n\nContext: " + context
  }

  /** The block for attempt `i` (numbered from 0). */
  function AttemptBlock(i: nat, a: Attempt): string
  {
    "\n\nAttempt " + DecimalString(i) + ":" + "\nGenerated Query: " + a.query + "\nError/Issue: " + a.error
  }

  /** The blocks of a history, as the loop appends them. */
  function AttemptBlocks(history: seq<Attempt>): string
  {
    if history == [] then ""
    else AttemptBlocks(history[..|history| - 1]) + AttemptBlock(|history| - 1, history[|history| - 1])
  }

  /** Reference reading of the same text: the blocks of `history`, numbered
      from `start`, first block first. */
  function BlocksFrom(start: nat, history: seq<Attempt>): string
    decreases |history|
  {
    if history == [] then "" else AttemptBlock(start, history[0]) + BlocksFrom(start + 1, history[1..])
  }

  /** The query generator's prompt for a given history. */
  function CypherPrompt(question: string, schemaJson: string, history: seq<Attempt>): string
  {
    QuestionAndSchema(question, schemaJson)
    + (if history == [] then "" else HistoryHeader + AttemptBlocks(history) + Instruction)
  }

  /** Lines 89-97: the prompt is built with `+=`, one block per attempt. */
  method BuildCypherPrompt(question: string, schemaJson: string, history: seq<Attempt>) returns (prompt: string)
    ensures prompt == CypherPrompt(question, schemaJson, history)
  {
    prompt := "Question: " + question + "\n\nInput Schema: " + schemaJson;
    if |history| > 0 {
      prompt := prompt + HistoryHeader;
      ghost var opening := prompt;
      for i := 0 to |history|
        invariant prompt == opening + AttemptBlocks(history[..i])
      {
        ghost var before := prompt;
        prompt := prompt + "\n\nAttempt " + DecimalString(i) + ":";
        prompt := prompt + "\nGenerated Query: " + history[i].query;
        prompt := prompt + "\nError/Issue: " + history[i].error;
        AppendBlock(before, i, history[i]);
        BlocksSnoc(history, i);
        Regroup(opening, AttemptBlocks(history[..i]), AttemptBlock(i, history[i]));
      }
      assert history[..|history|] == history;
      prompt := prompt + Instruction;
      Regroup3(QuestionAndSchema(question, schemaJson), HistoryHeader, AttemptBlocks(history), Instruction);
    }
  }

  /** The history's blocks split at any attempt `i`: the blocks before it,
      then the rest numbered on from `i`. */
  lemma {:induction false} BlocksSplit(history: seq<Attempt>, i: nat)
    requires i <= |history|
    ensures AttemptBlocks(history) == AttemptBlocks(history[..i]) + BlocksFrom(i, history[i..])
    decreases |history| - i
  {
    if i == |history| {
      assert history[..i] == history;
    } else {
      BlocksSplit(history, i + 1);
      BlocksSnoc(history, i);
      BlocksFromCons(history, i);
      Regroup(AttemptBlocks(history[..i]), AttemptBlock(i, history[i]), BlocksFrom(i + 1, history[i + 1..]));
    }
  }

  lemma BlocksSnoc(history: seq<Attempt>, i: nat)
    requires i < |history|
    ensures AttemptBlocks(history[..i + 1]) == AttemptBlocks(history[..i]) + AttemptBlock(i, history[i])
  {
    assert history[..i + 1][..i] == history[..i];
  }

  lemma BlocksFromCons(history: seq<Attempt>, i: nat)
    requires i < |history|
    ensures BlocksFrom(i, history[i..]) == AttemptBlock(i, history[i]) + BlocksFrom(i + 1, history[i + 1..])
  {
    assert history[i..][1..] == history[i + 1..];
  }

  lemma Regroup(a: string, b: string, c: string)
    ensures (a + b) + c == a + (b + c)
  {
  }

  lemma Regroup3(a: string, b: string, c: string, d: string)
    ensures a + (b + c + d) == a + b + c + d
  {
  }

  lemma Regroup6(head: string, header: string, a: string, b: string, c: string, tail: string)
    ensures head + (header + (a + (b + c)) + tail) == head + header + a + b + c + tail
  {
  }

  /** Every attempt of the history appears in the prompt, in history order,
      numbered from 0, carrying its own query and error; a non-empty history
      is framed by the header and the correction instruction, an empty one
      adds nothing. */
  lemma CypherPromptLayout(question: string, schemaJson: string, history: seq<Attempt>, i: nat)
    requires i < |history|
    ensures CypherPrompt(question, schemaJson, history)
      == QuestionAndSchema(question, schemaJson) + HistoryHeader
         + AttemptBlocks(history[..i]) + AttemptBlock(i, history[i]) + BlocksFrom(i + 1, history[i + 1..])
         + Instruction
  {
    BlocksSplit(history, i);
    BlocksFromCons(history, i);
    var a := AttemptBlocks(history[..i]);
    var b := AttemptBlock(i, history[i]);
    var c := BlocksFrom(i + 1, history[i + 1..]);
    Regroup6(QuestionAndSchema(question, schemaJson), HistoryHeader, a, b, c, Instruction);
  }

  /** Reading the blocks back to front or front to back gives the same text. */
  lemma BlocksInOrder(history: seq<Attempt>)
    ensures AttemptBlocks(history) == BlocksFrom(0, history)
  {
    BlocksSplit(history, 0);
    assert history[0..] == history;
  }

  /** Whatever the history, the prompt opens with the question and the schema. */
  lemma CypherPromptOpening(question: string, schemaJson: string, history: seq<Attempt>)
    ensures StartsWith(CypherPrompt(question, schemaJson, history), QuestionAndSchema(question, schemaJson))
    ensures history == [] ==> CypherPrompt(question, schemaJson, history) == QuestionAndSchema(question, schemaJson)
  {
    var head := QuestionAndSchema(question, schemaJson);
    var p := CypherPrompt(question, schemaJson, history);
    assert p[..|head|] == head;
  }

  /** Appending the three parts of a block one by one appends the block. */
  lemma AppendBlock(before: string, i: nat, a: Attempt)
    ensures before + "\n\nAttempt " + DecimalString(i) + ":" + "\nGenerated Query: " + a.query
            + "\nError/Issue: " + a.error
         == before + AttemptBlock(i, a)
  {
  }
}
