# GraphRAG question answering: a verified model

This project models, in Dafny, the core of a small GraphRAG pipeline that
answers natural-language questions over a graph database, and the offline
scoring of its logged answers.

* **The pipeline** (`GraphRAG` in src/graph_rag_compute.py).
  * A language model first prunes the database schema to the part the question needs.
  * Then up to `max_retries` passes each ask a second model for a Cypher query. The query is checked with `EXPLAIN` and then executed.
  * Every failed pass adds a `{query, error}` record to a history, and the next prompt shows that history.
  * The first pass whose query returns rows ends the loop. A third model then turns those rows into an answer.
  * If no pass returned rows, the result is a fixed "not enough information" answer.
* **The schema records** (src/schema.py): `Property`, `Node`, `Edge`, `GraphSchema`, `Query` and `Answer`, together with the validation that builds them from parsed JSON.
* **The scoring** (src/detail_eval.py).
  * A case-insensitive containment check.
  * The test of whether a query's result context covers the gold context.
  * The true/false/no-attempt tallies with accuracy and precision.
  * The loop that turns log records into verdict lists.

Modules, one per concern:

| file | module | what it holds |
|---|---|---|
| wrappers.dfy | Wrappers | `Option`, `Result` |
| json.dfy | JsonValues | values as `json.loads` yields them; truthiness, iteration, dict lookup and update |
| text.dfy | Text | `startswith`, `strip()` over Python's whitespace set, decimal rendering of a counter |
| fence.dfy | Fence | the markdown-fence unwrapping shared by the three model replies |
| schema.dfy | Schema | the records of src/schema.py, their validation from JSON and a rendering that round-trips |
| normalise.dfy | Normalise | the property fix-up inside `prune_schema`, as its nested loops and as functions |
| prompt.dfy | Prompt | the prompts, including the retry prompt built with `+=` |
| graph_rag.dfy | GraphRag | the oracles, `prune_schema`, `validate_query_with_explain`, `generate_cypher`, `generate_answer`, and `run` as a loop proved against a pass-by-pass specification |
| graph_rag_properties.dfy | GraphRagProperties | what `run` promises, and the effect of the `lru_cache` decoration |
| detail_eval.dfy | DetailEval | `mini_check`, `valid_query`, `analyse` and the loop of `main` |

The code does things outside the model. Each of these enters as a field of `GraphRag.Env`:

* the language-model agents: `pruneAgent`, `cypherAgent` and `answerAgent`. The query generator's agent also receives the pass number.
* `json.loads`: `loads`.
* the database's `execute_query`: `execute`, called with the pass number and the text, for both the `EXPLAIN` call and the real execution.
* `GraphSchema.model_dump_json`: `dumpJson`.
* `str()` of a result list: `show`.
* the full schema text computed in the constructor: `schemaText`.

`run` is modelled twice: as the method `GraphRag.Run`, a `for` loop with `continue` and `break` over the variables the source updates, and as the function `GraphRag.RunResult`. `RunResult` is built from `Pass`, one pass of the loop body, and `After`, the loop state after `k` passes. `Run` is proved equal to `RunResult`. The properties are then lemmas about `After` and `RunResult`.

Both take a `GraphRag.CypherCall` that says how the loop reaches `generate_cypher`. `LruCached` is the code as written: the call goes through `lru_cache` and raises TypeError before the body runs (see Findings). `Direct` calls the body itself.

Two behaviours of the code are easy to miss, and the model keeps both:

* An error raised by the store during the `EXPLAIN` check does not escape. `validate_query_with_explain` catches every exception (src/graph_rag_compute.py:69-72), so the loop records it as a validation error and goes on. `GraphRagProperties.ExplainFailureRecorded` states this.
* When generation raises, the record names the query of an earlier pass if that query is non-empty. The placeholder "Failed to generate query" is used when no query has been generated yet, or when the last one generated was the empty string (src/graph_rag_compute.py:198). `GraphRagProperties.GenerationFailureRecorded` and `GraphRagProperties.StaleQueryRecorded` state this.

## Model

| member | source | states |
|---|---|---|
| JsonValues.Iterated | src/graph_rag_compute.py:35 | `for x in v` yields a list's items in order, a string's characters one by one as one-character strings, or a dict's keys in order; nothing else can be iterated; the iteration is non-empty exactly when the value is truthy |
| JsonValues.Lookup | src/graph_rag_compute.py:33 | `d.get(key)` finds a value exactly when `key in d` |
| JsonValues.LookupAt | src/graph_rag_compute.py:33 | lookup returns the value of the first member with the key |
| JsonValues.Update | src/graph_rag_compute.py:40 | after `d[key] = v`, `key` maps to `v` and every other key keeps its value |
| JsonValues.UpdateSame | src/graph_rag_compute.py:40 | assigning a key the value it already holds leaves the dict unchanged |
| Text.Strip | src/graph_rag_compute.py:25 | `strip()` returns a slice of its input that neither starts nor ends with whitespace |
| Text.StripStripped | src/graph_rag_compute.py:25 | a string without surrounding whitespace is its own strip |
| Text.StripPadded | src/graph_rag_compute.py:25 | strip removes exactly the whitespace added around a stripped string |
| Text.DecimalString | src/graph_rag_compute.py:94 | the attempt number is rendered as decimal digits without a leading zero |
| Text.DecimalRoundTrip | src/graph_rag_compute.py:94 | reading the rendered attempt number back gives the number |
| Text.DecimalInjective | src/graph_rag_compute.py:94 | distinct attempt numbers render differently |
| Fence.NextMarker | src/graph_rag_compute.py:22 | the position found is the first fence marker at or after the start, or the end of the text |
| Fence.FencedSegment | src/graph_rag_compute.py:22 | `split('```')[1]` of a fenced reply contains no marker |
| Fence.StripFence | src/graph_rag_compute.py:21-25 | a reply not starting with a marker is returned unchanged, not even stripped; an unwrapped reply contains no marker |
| Fence.UnwrappedHasNoMarker | src/graph_rag_compute.py:23-25 | dropping the `json` tag and stripping cannot create a marker |
| Fence.StripFenceIdempotent | src/graph_rag_compute.py:21-25 | unwrapping an unwrapped reply changes nothing |
| Fence.StripFenceTaggedRoundTrip | src/graph_rag_compute.py:105-109 | a body fenced as "```json", newline, body, newline, "```" is recovered exactly |
| Fence.StripFencePlainRoundTrip | src/graph_rag_compute.py:128-132 | a body fenced without the tag is recovered exactly |
| Schema.StringField | src/schema.py:7-8 | a required string field is accepted exactly when the key holds a JSON string |
| Schema.ListFromJson | src/schema.py:24-25 | a list validates exactly when every element does, giving one record per element, in order |
| Schema.PropertyFromJson | src/schema.py:6-8 | a property validates exactly when it is a dict with string `name` and `type` |
| Schema.OptionalProperties | src/schema.py:13 | an absent or null property list gives None; a list is accepted exactly when every element validates as a property, and gives those properties in order; any other value is rejected |
| Schema.NodeFromJson | src/schema.py:11-13 | a node validates exactly when it is a dict with a string `label` and valid optional properties, and carries both |
| Schema.EdgeFromJson | src/schema.py:16-20 | an edge validates exactly when it is a dict with string `label`, "from" and `to` and valid optional properties, and carries them, the source label from the key "from" |
| Schema.GraphSchemaFromJson | src/schema.py:23-25 | a schema validates exactly when it is a dict whose `nodes` and `edges` are lists that validate element by element, and its nodes and edges are those validated lists |
| Schema.PropertyRoundTrip | src/schema.py:6-8 | every property survives rendering and validation |
| Schema.PropertiesRoundTrip | src/schema.py:13 | every optional property list survives rendering and validation |
| Schema.NodeRoundTrip | src/schema.py:11-13 | every node survives rendering and validation |
| Schema.EdgeRoundTrip | src/schema.py:16-20 | every edge survives rendering and validation |
| Schema.NodesRoundTrip | src/schema.py:24 | every node list survives rendering and validation |
| Schema.EdgesRoundTrip | src/schema.py:25 | every edge list survives rendering and validation |
| Schema.SchemaRoundTrip | src/schema.py:23-25 | every schema survives rendering and validation |
| Schema.SchemaFromLists | src/schema.py:23-25 | a dict whose two lists validate gives the schema of those lists |
| Schema.DanglingEdgeAccepted | src/schema.py:16-25 | some accepted schema has an edge whose endpoints name no node |
| Schema.PropertyTypeRequired | src/schema.py:6-8 | a property without a type is rejected; there is no default type |
| Schema.AcceptedPropertiesTyped | src/schema.py:6-13 | every property of a node of an accepted schema comes from the dict at the same position of that node's input list, with its name and its type as strings |
| Schema.UntypedPropertyRejected | src/schema.py:6-8 | a schema holding one property without a type is rejected as a whole |
| Schema.AbsentAndEmptyPropertiesDiffer | src/schema.py:11-13 | absent and null properties give None, while an empty list gives an empty list |
| Normalise.FixProperty | src/graph_rag_compute.py:36-39 | each kept element is a dict, and a dict is kept as it is |
| Normalise.FixProperties | src/graph_rag_compute.py:34-40 | the rebuilt list is no longer than the input, holds only dicts, and equals the input when that is all dicts |
| Normalise.FixEntity | src/graph_rag_compute.py:33-40 | only the `properties` member of a node or edge changes, and only when it is truthy |
| Normalise.FixEntities | src/graph_rag_compute.py:32-40 | every node or edge of a section is visited, one result each |
| Normalise.FixSection | src/graph_rag_compute.py:31-51 | fixing one section leaves every other key of the reply unchanged |
| Normalise.FixPropertyList | src/graph_rag_compute.py:34-39 | the appending inner loop builds exactly the rebuilt list |
| Normalise.FixSectionInPlace | src/graph_rag_compute.py:32-40 | the loop that assigns each entity's properties in place gives exactly the fixed section |
| Normalise.NormaliseProperties | src/graph_rag_compute.py:31-51 | the fix-up of nodes, then edges, gives exactly the specified fixed reply |
| Normalise.FixPropertiesAppend | src/graph_rag_compute.py:35-39 | the rebuild keeps the input order: it distributes over concatenation |
| Normalise.FixPropertiesSingle | src/graph_rag_compute.py:36-39 | a string becomes `{name, type: "string"}`, a dict is kept, and anything else is dropped |
| Normalise.FixPropertiesIdempotent | src/graph_rag_compute.py:34-40 | rebuilding a rebuilt list changes nothing |
| Normalise.FixNamesPointwise | src/graph_rag_compute.py:36-37 | a list of bare names becomes the same number of named properties, in order |
| Normalise.NamedPropertyValidates | src/graph_rag_compute.py:37 | a bare name's replacement validates as a property of type "string" |
| Normalise.BareNamesValidate | src/graph_rag_compute.py:36-37 | a list of bare names validates, in order, as properties of type "string" |
| Normalise.FixEntityIdempotent | src/graph_rag_compute.py:33-40 | fixing a node or edge twice is fixing it once |
| Normalise.FixEntitiesIdempotent | src/graph_rag_compute.py:32-40 | fixing a section twice is fixing it once |
| Normalise.FixSectionStable | src/graph_rag_compute.py:42-51 | a section that is already fixed is left unchanged |
| Normalise.FixSchemaIdempotent | src/graph_rag_compute.py:31-51 | normalising a normalised reply changes nothing |
| Prompt.BuildCypherPrompt | src/graph_rag_compute.py:89-97 | the prompt built with `+=` is exactly the specified prompt for the question, schema and history |
| Prompt.BlocksSplit | src/graph_rag_compute.py:93-96 | the attempt blocks split at any attempt into the blocks before it and the blocks from it on |
| Prompt.BlocksInOrder | src/graph_rag_compute.py:93-96 | the blocks read back to front equal the blocks read front to back |
| Prompt.CypherPromptLayout | src/graph_rag_compute.py:91-97 | a non-empty history gives the header, then block `i` with entry `i`'s query and error for every `i` in order, then the instruction |
| Prompt.CypherPromptOpening | src/graph_rag_compute.py:89-91 | the prompt always opens with the question and the schema, and an empty history adds nothing |
| GraphRag.StringMember | src/graph_rag_compute.py:114 | `data['query']` succeeds exactly when the reply is a dict whose key holds a string, and gives that string |
| GraphRag.PruneSchema | src/graph_rag_compute.py:16-53 | pruning asks the model, unwraps, parses, normalises and validates, and gives exactly the specified schema or error |
| GraphRag.ValidateQueryWithExplain | src/graph_rag_compute.py:55-72 | the EXPLAIN check never raises: it gives (true, "") when the store accepts and (false, the store's message) otherwise |
| GraphRag.GenerateCypher | src/graph_rag_compute.py:89-114 | generation sends the history prompt and gives the reply's `query` string, or the error raised on the way |
| GraphRag.CallGenerator | src/graph_rag_compute.py:74-76 | through the cache the call raises the TypeError and never reaches the body; called directly it gives exactly what the body gives |
| GraphRag.GenerateAnswer | src/graph_rag_compute.py:116-136 | an agent error escapes; the call succeeds exactly when the unwrapped reply parses to a dict whose `response` holds a string, and the answer is that string |
| GraphRag.Pass | src/graph_rag_compute.py:160-201 | a pass that ends the loop has rows and records nothing; any other pass appends exactly one classified record |
| GraphRag.After | src/graph_rag_compute.py:159-201 | the loop stops exactly when rows arrive; before pass `k` the history has exactly `k` records, and after a `break` fewer than `k` |
| GraphRag.AfterClassified | src/graph_rag_compute.py:174-200 | every record the loop leaves is a validation, empty-result or execution error |
| GraphRag.PassClassified | src/graph_rag_compute.py:163-201 | a pass keeps every record of the history classified |
| GraphRag.AfterBreakStable | src/graph_rag_compute.py:191-192 | once the loop has broken, later passes change nothing |
| GraphRag.Finish | src/graph_rag_compute.py:203-221 | without rows the result has no context, the fixed answer and the last non-empty query or "Failed to generate valid query"; with rows it has those rows, their query and the generated answer, and it raises only when answering raises |
| GraphRag.RunResult | src/graph_rag_compute.py:138-223 | a pruning failure escapes; a returned dict repeats the question and carries either no context or non-empty rows |
| GraphRag.Conclude | src/graph_rag_compute.py:203-221 | the code after the loop gives exactly the specified terminal result |
| GraphRag.RunPass | src/graph_rag_compute.py:163-201 | one pass of the loop body, each `continue` returning its new record and the `break` its rows, gives exactly the specified pass |
| GraphRag.RetryLoop | src/graph_rag_compute.py:154-201 | the `for` loop with its `break` leaves exactly the specified state after `max_retries` passes, or at the first pass with rows |
| GraphRag.Run | src/graph_rag_compute.py:138-223 | for the cached and the direct generator alike, pruning, the retry loop and the terminal branches return exactly the specified outcome of the pipeline |
| GraphRagProperties.HistoryOnlyGrows | src/graph_rag_compute.py:174-200 | records are only appended: each earlier history is a prefix of each later one |
| GraphRagProperties.GenerationFailureRecorded | src/graph_rag_compute.py:194-201 | a raising generation records the last non-empty query, or "Failed to generate query", with "Execution Error: " and the message |
| GraphRagProperties.StaleQueryRecorded | src/graph_rag_compute.py:197-198 | a generation failure after an earlier query records that stale query |
| GraphRagProperties.ExplainFailureRecorded | src/graph_rag_compute.py:170-178 | a query the EXPLAIN check rejects is recorded with "Validation Error (EXPLAIN): " and the message, and nothing is raised |
| GraphRagProperties.ExecutionFailureRecorded | src/graph_rag_compute.py:181-200 | a raising execution records the query with "Execution Error: " and the message |
| GraphRagProperties.EmptyResultRecorded | src/graph_rag_compute.py:183-189 | None or an empty row list records the fixed no-results text and the loop goes on |
| GraphRagProperties.RecordKindsMatchCauses | src/graph_rag_compute.py:163-201 | record `j` of the history comes from pass `j`, which found no rows; its error carries the validation prefix exactly when EXPLAIN rejected that pass's query, is the no-results text exactly when the execution gave no rows, and carries the execution prefix exactly when generation or execution raised |
| GraphRagProperties.RecordOfPass | src/graph_rag_compute.py:159-201 | a record at index `j` of any history is the one pass `j` appended, and that pass did not break |
| GraphRagProperties.PassRecord | src/graph_rag_compute.py:163-201 | a pass that does not break appends one record, whose error text names what went wrong in that pass |
| GraphRagProperties.StepRecord | src/graph_rag_compute.py:163-201 | the same for one pass from any state the loop has not left |
| GraphRagProperties.KindsExclusive | src/graph_rag_compute.py:176-199 | no error text is of two of the three kinds |
| GraphRagProperties.SuccessAtPass | src/graph_rag_compute.py:191-221 | the first pass that gets rows decides the result: its query, those rows as context, and the answer generated from them |
| GraphRagProperties.NoRetries | src/graph_rag_compute.py:159-210 | with `max_retries <= 0`, the result is "Failed to generate valid query" with the not-enough-information answer and no context |
| GraphRagProperties.PruneFailurePropagates | src/graph_rag_compute.py:152 | a pruning failure escapes `run` |
| GraphRagProperties.RaisedOnlyOutsideLoop | src/graph_rag_compute.py:152-214 | `run` raises only when pruning fails or when answering the found rows fails |
| GraphRagProperties.CompletedShape | src/graph_rag_compute.py:203-221 | a returned dict has either no context and the fixed answer, or non-empty rows and the answer generated from them |
| GraphRagProperties.RejectedHistory | src/graph_rag_compute.py:174-177 | the records left by rejected queries: one per query, in order, each with the validation prefix |
| GraphRagProperties.RejectedPasses | src/graph_rag_compute.py:165-178 | when each pass actually taken generates a query that EXPLAIN rejects, the state after `k` passes is exactly: the `k`-th query, no results, and the `k` validation records of those queries |
| GraphRagProperties.AllValidationsFail | src/graph_rag_compute.py:159-210 | when each pass actually taken generates a query that EXPLAIN rejects, the history holds exactly their `max_retries` validation records, the last generation saw the first `max_retries - 1` of them, and the last query is returned without an answer |
| GraphRagProperties.FencedQueryExtracted | src/graph_rag_compute.py:103-114 | a fenced reply holding a query yields that query |
| GraphRagProperties.FencedAnswerExtracted | src/graph_rag_compute.py:126-136 | a fenced reply holding a response yields that response |
| GraphRagProperties.PrunedIgnoresFence | src/graph_rag_compute.py:20-29 | the pruned schema is the same whether or not the reply was fenced |
| GraphRagProperties.MultiLineQueryAccepted | src/schema.py:28-29 | a reply whose JSON text encodes a query spanning two lines gives that query as it is; the single-line rule is not enforced |
| GraphRagProperties.CachedFailures | src/graph_rag_compute.py:197-200 | the history a cached generator leaves: `k` records of the placeholder query and the TypeError |
| GraphRagProperties.CachedPasses | src/graph_rag_compute.py:74-76 | with the cache as written, every pass records the TypeError under "Failed to generate query" and sets no query |
| GraphRagProperties.LruCachedNeverAnswers | src/graph_rag_compute.py:74-76 | with the cache as written, every run ends with "Failed to generate valid query" and no answer |
| GraphRagProperties.FirstPassAnswers | src/graph_rag_compute.py:159-221 | calling the generator directly, a first reply that returns rows is answered; the cached version gives no answer on the same inputs |
| DetailEval.LowerChar | src/detail_eval.py:5-6 | an ASCII capital is shifted to lower case and every other character is kept |
| DetailEval.Lower | src/detail_eval.py:5-6 | lower-casing keeps the length and maps each character |
| DetailEval.LowerIdempotent | src/detail_eval.py:5-6 | lower-casing twice is lower-casing once |
| DetailEval.OccursIsSubstring | src/detail_eval.py:7 | the position-by-position scan finds the needle exactly when some slice of the text equals it |
| DetailEval.MiniCheck | src/detail_eval.py:3-9 | the check holds exactly when both values are truthy and one lower-cased text is a substring of the other |
| DetailEval.MiniCheckSymmetric | src/detail_eval.py:7 | the check is symmetric |
| DetailEval.MiniCheckReflexive | src/detail_eval.py:3-9 | a truthy value matches itself |
| DetailEval.MiniCheckCaseBlind | src/detail_eval.py:5-6 | values that differ only in letter case match alike |
| DetailEval.AllCovered | src/detail_eval.py:14-16 | the loop holds exactly when every gold item is matched by some context item |
| DetailEval.ValidQuery | src/detail_eval.py:11-16 | false for a falsy context or falsy gold; raises exactly when both are truthy and one cannot be iterated; otherwise true exactly when every gold item is matched by some context item |
| DetailEval.MoreContextStaysValid | src/detail_eval.py:14-16 | adding context items never makes a valid query invalid |
| DetailEval.UncoveredGoldItemInvalid | src/detail_eval.py:15 | one unmatched gold item makes the query invalid |
| DetailEval.Count | src/detail_eval.py:20-22 | each tally is the number of entries exactly equal to True, False or None |
| DetailEval.CountsBounded | src/detail_eval.py:20-22 | the three tallies sum to at most the list length |
| DetailEval.Analyse | src/detail_eval.py:19-33 | the tallies count the entries equal to True, False and None; precision is true/(true+false) and accuracy true/(true+false+none), each 0 when its divisor is 0; a non-empty list with none of the three raises |
| DetailEval.Ratio | src/detail_eval.py:24-25 | the ratio times its divisor is the count, and a zero divisor gives 0 |
| DetailEval.AnalyseMeaning | src/detail_eval.py:19-33 | `analyse` raises exactly when a non-empty list holds no True, False or None; otherwise both ratios lie in [0, 1] and accuracy is at most precision |
| DetailEval.RatioBounds | src/detail_eval.py:24-25 | true/(true+false+none) lies in [0, 1] and is at most true/(true+false) |
| DetailEval.BooleanListAnalysis | src/detail_eval.py:19-33 | a list of booleans never raises, has no no-attempt entries, and its accuracy equals its precision |
| DetailEval.AnswerVerdicts | src/detail_eval.py:44-47 | one answer verdict per record, in order |
| DetailEval.QueryVerdicts | src/detail_eval.py:49-53 | one query verdict per record, in order, the result of `valid_query` |
| DetailEval.CollectVerdicts | src/detail_eval.py:42-53 | the loop fills exactly the two verdict lists: each record gives its judge verdict if its context is truthy and None otherwise, plus its query verdict; the first raising `valid_query` ends the loop with its error |
| DetailEval.DetailEvaluation | src/detail_eval.py:37-58 | the report is exactly `analyse` of the query verdicts and of the answer verdicts; it raises exactly when some `valid_query` raises (with the first such error) or the answer verdicts hold none of True, False and None; the query scores cover every record with accuracy equal to precision |

## Left out

- The language-model agents, the database, `json.loads` and `str()` of rows are oracles (the fields of `GraphRag.Env`). Their behaviour is outside the model.
- The full schema text built in the constructor (src/graph_rag_compute.py:14) is the parameter `Env.schemaText`. The database manager is not part of this model.
- `print` logging and `time.sleep(1)` (src/graph_rag_compute.py:222) have no effect on results and are not modelled.
- The memoisation of `generate_answer` by `lru_cache` is not modelled. Its arguments are strings, and a cached answer equals a recomputed one for a deterministic model. The `lru_cache` on `generate_cypher` is modelled only through its effect, the TypeError (see Findings). No cache policy is modelled.
- GraphRag.StringMember: the texts of the KeyError and TypeError are placeholders, and a non-string `query` or `response` value is treated as a failure. The source would return that value unchecked.
- DetailEval.ValidQuery: the text of the TypeError for a value that cannot be iterated is a placeholder.
- DetailEval.Lower: only ASCII letters are lower-cased. Python's `lower()` also maps other Unicode letters.
- DetailEval.MiniCheck: `str()` of a context item is the parameter `show`. Python's rendering of dicts and numbers is not modelled.
- DetailEval.Analyse: the ratios are exact reals. Python computes floating-point values and returns the integer 0 when a ratio's condition fails.
- DetailEval.DetailEvaluation: reading and parsing the log file (src/detail_eval.py:38) is left out. A log line is given as its three parsed fields, so a missing key (a KeyError in the source) is not modelled.
- Normalise.FixEntity: the source raises TypeError inside the normalisation loop (src/graph_rag_compute.py:31-51) in four cases. These are a section that cannot be iterated (`{"nodes": 5}` or `null`); an entity on which `'properties' in` fails (None, a number or a bool); a string or list entity that contains "properties", which is then indexed with a string; and a truthy `properties` value that cannot be iterated. Other entities that are not dicts, such as a string or list without "properties", pass the loop, because `in` is then a substring or element test. `GraphSchema(**data)` at line 53 then rejects them. The model leaves all of these values as they are (`Normalise.FixSection`, `Normalise.FixEntity`), and validation rejects the reply. `prune_schema` fails in every case; only the error text differs.
- A parsed dict (`JsonValues.Json.JObj`) is a list of members that may repeat a key, and the oracle `Env.loads` is not required to give distinct keys. `json.loads` keeps only the last value of a repeated key. The model's lookup reads the first member with the key, and `Iterated` would list a repeated key twice. The lemmas hold for every such value, but a value with a repeated key is not one that `json.loads` returns.
- Schema validation covers only the fields these records declare. A field of the wrong type is rejected, as pydantic 2 does for `str` fields; pydantic's error texts are placeholders.
- The commented-out evaluation code at src/graph_rag_compute.py:224-273 and the driver run.py are not part of this model.

## Findings

| source | as written | input that shows it | evidently intended | confidence | as-written member | corrected member |
|---|---|---|---|---|---|---|
| src/graph_rag_compute.py:74-76 | `generate_cypher` is decorated with `lru_cache`, but its arguments include the list `previous_attempts` (already `[]` on the first pass) and an unfrozen pydantic model. Neither can be hashed, so every call raises TypeError before the body runs. The handler at line 194 records it, and `run` never executes a query. | `run("Who won the 1921 prize in physics?", 1)` with any model replies and any database: the first call of `generate_cypher` receives `[]` as `previous_attempts` | `generate_cypher` called directly, without the cache, so that a good first query is executed and answered | high, not executed | GraphRagProperties.LruCachedNeverAnswers | GraphRagProperties.FirstPassAnswers |
