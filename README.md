# InsightX core, modelled in Dafny

InsightX is a data-analysis workspace. A user uploads a dataset. A backend profiles it into a *Data DNA*: its columns, baselines, patterns and insights. The user then asks questions in a chat. The chat is answered by a pipeline of language-model agents:

- an **orchestrator** classifies the question as SQL_ONLY, PY_ONLY, SQL_THEN_PY or EXPLAIN_ONLY;
- a **SQL agent** and a **Python agent** run code against the dataset, calling tools;
- a **composer** or an **explainer** writes the final answer.

The agents share a pool of API keys. A key manager rotates through the pool and tracks each key's health.

This project states that core in Dafny and proves what its code promises. It is one module per source file:

| module | models |
|---|---|
| `KeyManager`, `ApiHealth` | key selection from the environment, masking, rotation, failure marking, the read-once event, and the healthy/degraded/critical classification |
| `Orchestrator` | the retry loop bounded by the key count; the agent loop bounded by five tool cycles, recording each tool's latest result; the classification routing and the order of the streamed events |
| `ToolExecutor` | dispatch of the five tools; Data DNA section filtering; insight search; local insight accumulation; the SQL and Python request defaults |
| `Summarizer` | the summary counter rule, the summary text's counts and topics, and the cache |
| `AgentConfig`, `Tools`, `AgentIdentities` | the three constant registries and their lookups |
| `Toasts` | the toast queue, its listeners, and the message helpers |
| `ResponseParser` | the composer-response parse strategy order, validation, normalisation and detection |
| `Backend` | the session-to-Data DNA conversion, the ready-poll loop, SSE line buffering and `data:` decoding |
| `RichMarkdown` | the `**Label**: value` stat extractor, the insight detector and the highlight/grid split |
| `ChatStore`, `DataStore`, `WorkspaceStore` | the client stores' actions, as next-state functions |
| `PromptInput`, `ChatInput`, `WorkspaceSidebar`, `RightSidebar`, `ReportFilterBar`, `Recents` | the attachment limits, the submit guards, the chat list filter, partition, pinning, renaming and deletion, the drawer machine, the filter bar and the relative-time labels |
| `ContextService` | the context-insight table: default filling, JSON list fields, latest-row reads, update-all and delete, with errors turned into results |
| `SidebarService` | the workspace-sidebar table: auto-initialisation, code-history append and clear, and the context-analysis upsert |

`Wrappers`, `Json` and `Text` hold shared vocabulary:

- `Wrappers` has Option and Result.
- `Json` has a JSON value with truthiness, and objects as ordered key lists where a later write wins.
- `Text` has the JavaScript string operations the code uses: `trim`, `split`/`join`, `includes`, ASCII case mapping and decimal rendering.

**How the code's form is kept.**

- Objects whose methods update fields are classes: KeyManager, ToolExecutor, ConversationSummarizer, ToastManager, the two sidebars, the filter bar and the two tables.
- Loops are methods whose loop invariants tie them to a specification function:
  - the environment key scan, rotation and retry;
  - the tool cycle and the data-DNA section filter;
  - the file admission loop, the stat extractor, the poll loop and the stream buffer.
- The pure stores and parsers are functions.

**What becomes a parameter.** Clocks, random ids, network, database and model results, and the JSON and regex engines are parameters of the operations that use them.

## Model

| member | source | states |
|---|---|---|
| KeyManager.MaskKey | lib/agents/key-manager.ts:252-255 | a key shorter than 16 characters masks to "***"; a longer one to 15 characters: its first 8, "..." and its last 4 |
| KeyManager.MaskHidesLongKeys | lib/agents/key-manager.ts:252-255 | the mask of a key of 16 characters or more is never the key itself |
| KeyManager.ShortKeysShareMask | lib/agents/key-manager.ts:252-255 | all keys shorter than 16 characters share one mask, hence one metrics record (records are keyed by the mask at line 85) |
| KeyManager.NumberedRunUnique | lib/agents/key-manager.ts:48-57 | an environment has exactly one run of numbered keys 1, 2, … ending before the first missing number |
| KeyManager.TrimAll | lib/agents/key-manager.ts:64 | every comma-separated part is trimmed, in order |
| KeyManager.NonEmpty | lib/agents/key-manager.ts:64 | `.filter(Boolean)` keeps exactly the non-empty parts |
| KeyManager.NonEmptyAppend | lib/agents/key-manager.ts:64 | the filter keeps order: filtering a concatenation is concatenating the filtered parts |
| KeyManager.FallbackKeysWellFormed | lib/agents/key-manager.ts:59-72 | fallback keys are never empty; keys from the comma-separated list carry no surrounding whitespace and no comma |
| KeyManager.WitnessInjective | lib/agents/key-manager.ts:50-52 | different key numbers are read from different environment variables |
| KeyManager.KeyCountBound | lib/agents/key-manager.ts:48-57 | numbered keys 1 … i come from i different variables, so the loop ends within the size of the environment |
| KeyManager.LoadKeys | lib/agents/key-manager.ts:44-81 | when key 1 is set the pool is exactly the numbered run up to the first missing number; otherwise it is the comma-separated list if that variable is set, else the single key if set, else empty |
| KeyManager.MasksBound | lib/agents/key-manager.ts:84-86 | there are never more metrics records than keys |
| KeyManager.InitialMetrics | lib/agents/key-manager.ts:83-93 | right after loading there is exactly one fresh, healthy record per distinct mask |
| KeyManager.InitializeMetrics | lib/agents/key-manager.ts:83-93 | the loop builds exactly that table, a later key with the same mask overwriting the earlier record |
| KeyManager.NextMod | lib/agents/key-manager.ts:159 | the step `(i + 1) % n` is the next index, wrapping to 0 |
| KeyManager.PosClosedForm | lib/agents/key-manager.ts:158-184 | within one lap, e steps from the start land on start + e, wrapped once |
| KeyManager.FirstHealthyStep | lib/agents/key-manager.ts:158-185 | a step found lies in 1 … n and lands on a key with a healthy record; step n is the start itself, so the current key is tried last |
| KeyManager.FirstHealthyStepLeast | lib/agents/key-manager.ts:158-185 | the step found is the least healthy one, and no step is found only when no key on the lap is healthy |
| KeyManager.FindHealthy | lib/agents/key-manager.ts:158-185 | the loop stops at the least healthy step and its index; with none, the index has gone round n times back to the start |
| KeyManager.RotationFindsHealthyKey | lib/agents/key-manager.ts:158-195 | rotation succeeds iff some key of the pool has a healthy record |
| KeyManager.ResetRecords | lib/agents/key-manager.ts:242-245 | every record becomes healthy without a failure reason; counters and times are kept; no record is added or removed |
| KeyManager.KeyManager.constructor | lib/agents/key-manager.ts:34-93 | the pool is what loadKeys reads, the index is 0, there is no event, and the table has one fresh record per mask |
| KeyManager.KeyManager.GetCurrentKey | lib/agents/key-manager.ts:98-117 | no keys throws the "no keys" error and changes nothing; a healthy current key is returned without change; a failed one triggers rotation, which throws "All API keys exhausted" iff no key is healthy, leaving the index and the last event as they were; otherwise the index moves to the first healthy key after the current one in pool order and the rotation event records the time, both masks and the reason; a returned key always has a healthy record |
| KeyManager.KeyManager.GetCurrentKeyIndex | lib/agents/key-manager.ts:122-124 | the index points into a non-empty pool |
| KeyManager.KeyManager.MarkCurrentKeyAsFailed | lib/agents/key-manager.ts:129-140 | the current key's record becomes failed with one more error, the time and the reason; every key with the same mask is then failed; other keys' health and the index are unchanged |
| KeyManager.KeyManager.RotateKey | lib/agents/key-manager.ts:153-196 | returns true iff some step from the current key is healthy; then the index is the first healthy one in cyclic order and the event records the from and to masks; otherwise the index ends where it started and the event is unchanged |
| KeyManager.KeyManager.RecordSuccess | lib/agents/key-manager.ts:201-209 | the current key's record counts one more use and takes the time; nothing else changes |
| KeyManager.KeyManager.GetAndClearLastEvent | lib/agents/key-manager.ts:214-218 | the event is returned once and the slot is then empty; nothing else changes |
| KeyManager.KeyManager.GetMetrics | lib/agents/key-manager.ts:223-229 | one record per mask of the pool, each the record the manager holds, and never more records than keys |
| KeyManager.KeyManager.GetKeyCount | lib/agents/key-manager.ts:234-236 | the number of keys, which bounds the number of records |
| KeyManager.KeyManager.ResetAllKeys | lib/agents/key-manager.ts:241-247 | every record becomes healthy without a failure reason; counters, times, the index and the event are kept |
| ApiHealth.SnapshotOf | lib/agents/api-health.ts:64-73 | what the health functions read: the metrics table, one record per mask of the pool, and the key count |
| ApiHealth.HealthyMasks | lib/agents/api-health.ts:68-70 | exactly the records whose status is healthy |
| ApiHealth.GetAPIHealthMetrics | lib/agents/api-health.ts:62-88 | totalKeys is the key count and healthyKeys the number of healthy records, never more than the records; a key manager that throws gives all zeros and an empty table |
| ApiHealth.HealthyKeysAtMostTotal | lib/agents/api-health.ts:68-73 | for a well-formed key manager healthyKeys never exceeds totalKeys |
| ApiHealth.AllRecordsHealthy | lib/agents/api-health.ts:68-70 | when every record is healthy, healthyKeys is the number of records |
| ApiHealth.SharedMasksLookDegraded | lib/agents/api-health.ts:68-116 | for any pool of three or more keys shorter than 16 characters, all share the record "***", so the fresh pool has every record healthy yet counts 1 healthy key and is reported degraded |
| ApiHealth.IsAPIHealthy | lib/agents/api-health.ts:93-101 | true iff there is a healthy record |
| ApiHealth.GetHealthStatus | lib/agents/api-health.ts:106-124 | critical iff no record is healthy; degraded iff some is but healthyKeys < totalKeys / 2; healthy otherwise |
| ApiHealth.HealthyIffNotCritical | lib/agents/api-health.ts:93-124 | the pool is usable iff its status is not critical; a key manager that throws is critical and not usable |
| ApiHealth.GetHealthSummary | lib/agents/api-health.ts:129-138 | the summary is exactly the status emoji, a space, the status in capitals, ": ", the healthy count, "/", the total and " keys available" |
| ApiHealth.SummaryShowsStatus | lib/agents/api-health.ts:134-137 | different statuses give summaries that differ in their first character |
| Orchestrator.TriedSnoc | lib/agents/orchestrator.ts:64-80 | one more attempt leaves the earlier attempts' outcomes as they were and runs from the state they left |
| Orchestrator.HealthyExtends | lib/agents/orchestrator.ts:64-67 | the key handed out after earlier keys were all marked failed has a record different from all of theirs |
| Orchestrator.FailedExtends | lib/agents/orchestrator.ts:76-77 | marking the current key failed keeps every earlier failed key failed and adds the current one |
| Orchestrator.FailAndRotate | lib/agents/orchestrator.ts:76-80 | a retriable failure leaves the key list unchanged and all keys tried so far marked failed; the refreshed client gets a key only when some record is healthy, and otherwise throws the key manager's exhaustion error |
| Orchestrator.CurrentKeyRead | lib/agents/orchestrator.ts:18-20 | reading the current key of a non-empty pool returns a key only when some record is healthy, and throws the exhaustion error exactly when none is |
| Orchestrator.TriedAllNoneHealthy | lib/agents/orchestrator.ts:64-80 | once as many keys as the pool holds have been tried, each on its own record and each marked failed, no healthy key is left |
| Orchestrator.TryOnce | lib/agents/orchestrator.ts:64-83 | one attempt runs from the state the earlier attempts left; it ends with the operation's value, its non-retriable error, or the key manager's error (no keys, or exhaustion with no healthy record, before the attempt or after a retriable failure), or goes on with one more key used, all used keys failed, in distinct records, and a healthy key current |
| Orchestrator.ExecuteWithRetry | lib/agents/orchestrator.ts:60-86 | at most one attempt per key counted at the start; an empty pool throws the exhaustion error at once; each attempt starts from the state the closure's earlier attempts left; a last attempt's value is returned, and only it; a non-retriable error is rethrown; every attempt before the last was retriable; a retriable last failure ends with the key manager's exhaustion error once no record is healthy; no attempt is made on a non-empty pool only when no record is healthy; the loop's own exhaustion message comes back on a non-empty pool only as a non-retriable error's text; all used keys are distinct records and, when all attempts were retriable, all are marked failed |
| Orchestrator.ToolValue | lib/agents/orchestrator.ts:168 | the tool's data when truthy, the error text otherwise, nothing when neither |
| Orchestrator.Answer | lib/agents/orchestrator.ts:170-174 | the tool message answers the call's id and has content iff the recorded value exists |
| Orchestrator.RoundAppend | lib/agents/orchestrator.ts:160-175 | running two lists of calls one after the other is running their concatenation: the second starts from the executor state and results the first left, unless the first stopped |
| Orchestrator.RoundGrows | lib/agents/orchestrator.ts:168 | a round of calls only adds tool results |
| Orchestrator.RoundKeys | lib/agents/orchestrator.ts:160-168 | after a round that was not stopped, a tool has an entry iff it had one or was called, and an uncalled tool keeps its entry |
| Orchestrator.RoundLatest | lib/agents/orchestrator.ts:160-168 | each tool's entry holds the value of its latest call, computed on the executor state the earlier calls left |
| Orchestrator.WriteThenReadInOneReply | lib/agents/orchestrator.ts:160-168 | one executor serves every call of a reply: a read_context after a write_context in the same reply sees the new insight |
| Orchestrator.RoundAnswers | lib/agents/orchestrator.ts:160-175 | every call of a round that was not stopped is answered by one tool message with its id, in call order; a stopped round answers the calls before the one whose arguments failed to parse, and fails with that parse error |
| Orchestrator.AnswersNext | lib/agents/orchestrator.ts:170-174 | answering the next call keeps one message per call, in order |
| Orchestrator.ContentOrEmpty | lib/agents/orchestrator.ts:183 | the reply's text, or "" when it has none |
| Orchestrator.RunTools | lib/agents/orchestrator.ts:160-175 | the loop over a reply's tool calls computes exactly the round: same tool results, tool messages, executor state and parse error |
| Orchestrator.StreamResult | lib/agents/orchestrator.ts:121-140 | a streamed first completion gives the concatenated tokens with the tool results so far, or what the stream threw |
| Orchestrator.StartConv | lib/agents/orchestrator.ts:101-107 | the conversation starts with the system prompt, then the history, then the user message, with no tool results |
| Orchestrator.CyclesReplies | lib/agents/orchestrator.ts:110-188 | an attempt makes at most five model calls; every reply but the last asked for tools; a success is the text of a last reply that asked for none |
| Orchestrator.CyclesGrow | lib/agents/orchestrator.ts:101-188 | within an attempt the messages and the tool results only grow, and a success returns the tool results the attempt leaves |
| Orchestrator.CyclesRound | lib/agents/orchestrator.ts:155-175 | with an executor, a successful attempt's tool results and executor state are those of all its replies' tool calls run in order on one executor from where the attempt started; without one nothing is recorded |
| Orchestrator.CyclesErrors | lib/agents/orchestrator.ts:155-188 | five replies that all ask for tools whose calls all run end in the max-cycles error; tools asked of an agent without an executor end in its error |
| Orchestrator.CyclesStep | lib/agents/orchestrator.ts:155-175 | a reply asking for tools that all run continues the attempt from the conversation after its round; a parse error ends the attempt with that error and the partial round |
| Orchestrator.AttemptsCarryOver | lib/agents/orchestrator.ts:101-110 | the messages and tool results, declared outside the retried closure, are kept from each attempt to every later one |
| Orchestrator.SuccessKeepsEarlierResults | lib/agents/orchestrator.ts:101-110 | a run that succeeds returns every tool result recorded by the attempts that failed before it |
| Orchestrator.RunCycles | lib/agents/orchestrator.ts:110-188 | the while loop of one attempt computes exactly the attempt's cycles: the same result, conversation and replies |
| Orchestrator.RunAgent | lib/agents/orchestrator.ts:97-189 | the retry runs its attempts on one shared conversation, tool-result record and executor, starting from the system prompt, history and user message; the conversation only grows; a success returns the shared tool results; as in the retry, a run without an attempt or ending on a retriable failure throws the exhaustion error with no healthy record left |
| Orchestrator.InterleavedStep | lib/agents/orchestrator.ts:288-298 | a status event and, when the agent succeeded, its report extend the alternation by one agent |
| Orchestrator.SqlStage | lib/agents/orchestrator.ts:287-313 | the SQL agent runs exactly on SQL_ONLY and SQL_THEN_PY when nothing failed; earlier events are kept; a failed line passes through unchanged |
| Orchestrator.PythonStage | lib/agents/orchestrator.ts:315-341 | the Python agent runs exactly on PY_ONLY and SQL_THEN_PY when nothing failed; earlier events are kept; a failed line passes through unchanged |
| Orchestrator.FinalStage | lib/agents/orchestrator.ts:343-385 | exactly one final agent runs when nothing failed; a line that completes ends with a final response carrying the classification |
| Orchestrator.Pipeline | lib/agents/orchestrator.ts:286-385 | the stages only add events and agents; a completed line ends with a final response carrying the classification |
| Orchestrator.SqlStageInterleaved | lib/agents/orchestrator.ts:288-298 | the SQL stage keeps status and report events alternating, one pair per agent |
| Orchestrator.PythonStageInterleaved | lib/agents/orchestrator.ts:316-326 | the Python stage keeps status and report events alternating, one pair per agent |
| Orchestrator.FinalStageInterleaved | lib/agents/orchestrator.ts:345-385 | the final stage keeps status and report events alternating, one pair per agent |
| Orchestrator.PipelineInterleaved | lib/agents/orchestrator.ts:286-385 | the stages together keep status and report events alternating |
| Orchestrator.RanAgentsMembers | lib/agents/orchestrator.ts:287-345 | a specialist is among the agents iff its test held, and a completed run is the classification's route |
| Orchestrator.PipelineRouting | lib/agents/orchestrator.ts:287-361 | after the orchestrator, the SQL agent runs iff the route asks for SQL, the Python agent only on Python routes, and a completed line ran the whole route and reported its classification |
| Orchestrator.OrchestrateStream | lib/agents/orchestrator.ts:236-392 | a failed DNA load throws before any event; otherwise the first event is the "Analyzing query type..." status and the orchestrator runs first; when it succeeds its parsed output is the second event; a completed stream ends with the final response |
| Orchestrator.Classified | lib/agents/orchestrator.ts:274-287 | the first two events are the status and the orchestrator's result; a null result throws when its classification is read |
| Orchestrator.StreamInterleaved | lib/agents/orchestrator.ts:236-392 | every stream alternates one status and one report per agent, and a stream that does not throw ends with the final response |
| Orchestrator.ClassifiedInterleaved | lib/agents/orchestrator.ts:281-385 | from the orchestrator's result on, status and report events keep alternating |
| Orchestrator.NullClassificationStops | lib/agents/orchestrator.ts:276-287 | orchestrator output "null" yields the status and the null result and then throws |
| Orchestrator.StreamRouting | lib/agents/orchestrator.ts:264-385 | the SQL agent runs exactly for SQL_ONLY and SQL_THEN_PY, the Python agent only for PY_ONLY and SQL_THEN_PY, and a completed stream runs the whole route and reports the classification last |
| Orchestrator.ExactlyOneFinalAgent | lib/agents/orchestrator.ts:345-361 | exactly one of explainer and composer runs, the explainer iff the classification is EXPLAIN_ONLY |
| Orchestrator.SqlBeforePython | lib/agents/orchestrator.ts:287-341 | when both specialists run, the route is orchestrator, SQL, Python, composer |
| Orchestrator.UnparsableIsExplained | lib/agents/orchestrator.ts:275-352 | output that is not JSON is explained: a completed stream runs only the orchestrator and the explainer and reports EXPLAIN_ONLY |
| ToolExecutor.ToCallResult | lib/agents/tool-executor.ts:79-97 | a value becomes a success with that data and no error; a thrown message becomes a failure with that error and no data |
| ToolExecutor.SessionDna | lib/agents/tool-executor.ts:29-34 | the session body's data_dna; a non-2xx answer throws "Failed to load session: " with the status text; a network error is rethrown |
| ToolExecutor.SectionKeys | lib/agents/tool-executor.ts:115 | an array visits its elements as keys, a string its characters, and anything else throws |
| ToolExecutor.SelectedFails | lib/agents/tool-executor.ts:115-118 | reading sections throws exactly when sections were asked for and the DNA is null or undefined |
| ToolExecutor.SelectedLookup | lib/agents/tool-executor.ts:114-120 | a key of the selection has its DNA value iff it was requested and that value is truthy, and is absent otherwise |
| ToolExecutor.SelectedLast | lib/agents/tool-executor.ts:115-118 | the last requested section is written over the others' selection when its value is truthy |
| ToolExecutor.SelectedNullDna | lib/agents/tool-executor.ts:115-116 | with a null or undefined DNA the section read throws on the first key |
| ToolExecutor.FindingMatches | lib/agents/tool-executor.ts:138-140 | true iff the insight's finding is a string containing the query, ignoring case; a missing or null finding gives false without reading the query; a null insight, a non-string finding, or a string finding with a non-string query throws |
| ToolExecutor.FilterInsights | lib/agents/tool-executor.ts:138-140 | succeeds iff the test succeeds on every insight, and keeps at most all of them |
| ToolExecutor.FilterInsightsMembers | lib/agents/tool-executor.ts:138-142 | an insight is kept iff its finding mentions the query |
| ToolExecutor.FilterInsightsAppend | lib/agents/tool-executor.ts:138-140 | the filter keeps order: filtering a concatenation concatenates the filtered parts |
| ToolExecutor.FilterCons | lib/agents/tool-executor.ts:138-140 | one step of the filter keeps the head iff it matches |
| ToolExecutor.Stamp | lib/agents/tool-executor.ts:151-153 | an insight with a truthy timestamp is unchanged; an object without one gains the current time and keeps all other properties; a primitive value throws |
| ToolExecutor.LookupLiteral3 | lib/agents/tool-executor.ts:192-226 | each key of a three-member request body reads its own value, and an undefined middle value is absent |
| ToolExecutor.SqlRequest | lib/agents/tool-executor.ts:192-196 | the body carries the session id and the sql, and a falsy limit becomes 500; null arguments throw |
| ToolExecutor.PythonRequest | lib/agents/tool-executor.ts:222-226 | the body carries the session id and the code, and a falsy timeout becomes 10; null arguments throw |
| ToolExecutor.ServiceResult | lib/agents/tool-executor.ts:199-235 | a 2xx answer gives its body; a non-2xx answer throws the prefix and the response text; a network error is rethrown |
| ToolExecutor.RunSql | lib/agents/tool-executor.ts:185-210 | null arguments throw; otherwise the request body is POSTed and the result is the 2xx body, "SQL execution failed: " with the response text, or the network error |
| ToolExecutor.RunPython | lib/agents/tool-executor.ts:215-240 | null arguments throw; otherwise the request body is POSTed and the result is the 2xx body, "Python execution failed: " with the response text, or the network error |
| ToolExecutor.Loaded | lib/agents/tool-executor.ts:34-35 | the list is the DNA's own truthy accumulated_insights value, whatever its type, and a separate empty array otherwise |
| ToolExecutor.EnsureLoadedOf | lib/agents/tool-executor.ts:104-106 | a truthy DNA is kept without a fetch; otherwise the load succeeds iff the session fetch does, takes its DNA, and its failure is thrown |
| ToolExecutor.ReadDna | lib/agents/tool-executor.ts:108-120 | fails iff the arguments are null or sections are truthy, non-empty and either not iterable or read from a null or undefined DNA; no sections or an empty length give the whole DNA; otherwise an object holding exactly the requested keys whose DNA values are truthy |
| ToolExecutor.ReadDataDnaOf | lib/agents/tool-executor.ts:103-121 | a loaded executor answers from its DNA and keeps its state; otherwise a failed load throws and changes nothing, and a successful one answers from the loaded DNA |
| ToolExecutor.Context | lib/agents/tool-executor.ts:131-142 | fails iff the arguments are null, or a truthy query type other than "all" meets a list that is not an array or an insight the test throws on; a falsy query type or "all" gives the list itself; otherwise exactly the insights whose finding mentions it |
| ToolExecutor.ReadContextOf | lib/agents/tool-executor.ts:126-143 | a loaded executor answers from its list and keeps its state; otherwise a failed load throws and changes nothing, and a successful one answers from the loaded list |
| ToolExecutor.StampedInsight | lib/agents/tool-executor.ts:151-153 | the stamped args.insight; an object insight always stamps |
| ToolExecutor.Push | lib/agents/tool-executor.ts:155 | the list grows by the item and stays coherent; when it is the DNA's own array the DNA's accumulated_insights is the grown list and every other section is unchanged; otherwise the DNA is unchanged |
| ToolExecutor.SaveResult | lib/agents/tool-executor.ts:158-175 | a 2xx answer gives the confirmation; a non-2xx answer throws "Failed to save insight: " with its text; a network error is rethrown |
| ToolExecutor.WriteContextOf | lib/agents/tool-executor.ts:148-180 | a missing or primitive insight throws and changes nothing; a list that is not an array throws on push and changes nothing; otherwise the insight is pushed before the save, so a failed save still leaves it, and the result is the save's |
| ToolExecutor.Execute | lib/agents/tool-executor.ts:45-98 | never throws; success iff no error; an unknown name fails with "Unknown tool: <name>" and the SQL and Python tools leave the state; the three context tools give their own results and states; coherence is kept; on a loaded executor only write_context changes the state |
| ToolExecutor.WriteSeenInDna | lib/agents/tool-executor.ts:34-35 | after a write to a list that is the DNA's own array, reading that section of the DNA gives the grown list without a fetch |
| ToolExecutor.WriteSeenInContext | lib/agents/tool-executor.ts:131-134 | an insight written to a loaded executor is in the next unfiltered read_context |
| ToolExecutor.ToolExecutor.constructor | lib/agents/tool-executor.ts:15-22 | the session id is kept, the DNA is null and the list an empty array |
| ToolExecutor.ToolExecutor.LoadDataDna | lib/agents/tool-executor.ts:27-40 | on success the state is the one loaded from the session's DNA; on failure the error is thrown and nothing changes |
| ToolExecutor.ToolExecutor.EnsureLoaded | lib/agents/tool-executor.ts:104-106 | the fields change as the lazy load says, and its failure is returned with nothing changed |
| ToolExecutor.ToolExecutor.ReadDataDna | lib/agents/tool-executor.ts:103-121 | the section loop computes exactly the answer and the state of read_data_dna |
| ToolExecutor.ToolExecutor.ReadContext | lib/agents/tool-executor.ts:126-143 | the answer and the new fields are those of read_context |
| ToolExecutor.ToolExecutor.WriteContext | lib/agents/tool-executor.ts:148-180 | the answer and the new fields are those of write_context, including the DNA's array when the list is aliased |
| ToolExecutor.ToolExecutor.ExecuteToolCall | lib/agents/tool-executor.ts:45-98 | the result and the new fields are those of executeToolCall on the executor's state |
| Summarizer.WithRole | lib/agents/summarizer.ts:41-42 | at most the history's entries, each with the requested role |
| Summarizer.WithRoleMembers | lib/agents/summarizer.ts:41-42 | an entry is kept iff it is in the history with that role |
| Summarizer.WithRoleAppend | lib/agents/summarizer.ts:41-42 | filtering by role distributes over concatenation, so history order is kept |
| Summarizer.CountIf | lib/agents/summarizer.ts:45-55 | an interaction count never exceeds the history length |
| Summarizer.Recent | lib/agents/summarizer.ts:70 | the last five user queries, or all when there are fewer, in order |
| Summarizer.Preview | lib/agents/summarizer.ts:74 | a prefix of the content of at most 80 characters, exactly 80 when the content is that long, the whole content when shorter, and "" without content |
| Summarizer.TopicLineEllipsis | lib/agents/summarizer.ts:74-75 | a topic line ends with "..." when the content reaches 80 characters, and is the number, ". " and the whole content when it is shorter |
| Summarizer.Header | lib/agents/summarizer.ts:58-67 | the summary head has eight lines |
| Summarizer.TopicLines | lib/agents/summarizer.ts:73-76 | one numbered line per recent query, in order |
| Summarizer.RecentBlock | lib/agents/summarizer.ts:71-77 | nothing without recent queries, otherwise "Recent topics:" followed by one numbered line per query |
| Summarizer.SummaryHeader | lib/agents/summarizer.ts:58-62 | the summary opens with the history length, and its user and assistant counts are the numbers of entries with those roles |
| Summarizer.HeaderLines | lib/agents/summarizer.ts:59-62 | the title, user and assistant lines of the head |
| Summarizer.SummaryTopics | lib/agents/summarizer.ts:69-77 | after the eight head lines come exactly the recent-topics lines |
| Summarizer.SummaryTextStartsWithIcon | lib/agents/summarizer.ts:59-79 | every joined summary starts with the clipboard icon |
| Summarizer.NeedsSummarization | lib/agents/summarizer.ts:156-158 | for a positive interval, true iff the count is a positive multiple of it; never true for interval 0 |
| Summarizer.BuildSummaryParts | lib/agents/summarizer.ts:41-77 | the lines pushed are the head and the recent-topics block of the history |
| Summarizer.SummaryPartsSplit | lib/agents/summarizer.ts:58-77 | the summary is the head alone without recent queries, else the head, "Recent topics:" and the numbered lines |
| Summarizer.PushTopics | lib/agents/summarizer.ts:73-76 | the loop appends one numbered line per recent query, in order |
| Summarizer.PushTopic | lib/agents/summarizer.ts:75 | one push extends the numbered lines by one |
| Summarizer.ConversationSummarizer.constructor | lib/agents/summarizer.ts:6-16 | an empty cache and a count of zero |
| Summarizer.ConversationSummarizer.ShouldUpdateSummary | lib/agents/summarizer.ts:21-28 | true iff the count is a positive multiple of ten and differs from the count last summarised |
| Summarizer.ConversationSummarizer.UpdateSummary | lib/agents/summarizer.ts:33-87 | an empty history clears the cache and keeps the count; any other history caches its summary and records its length, after which no refresh is due at that length |
| Summarizer.ConversationSummarizer.GetSummaryForContext | lib/agents/summarizer.ts:92-97 | the no-context text iff the cache is empty, otherwise the cache |
| Summarizer.ConversationSummarizer.GetSummaryStats | lib/agents/summarizer.ts:102-112 | both counts are the last summarised length, and hasSummary iff the cache is non-empty |
| Summarizer.ConversationSummarizer.ClearSummary | lib/agents/summarizer.ts:117-120 | the cache is emptied and the count reset to zero |
| Summarizer.ConversationSummarizer.CreateCompressedSummary | lib/agents/summarizer.ts:125-143 | below fifty messages the cached summary; otherwise exactly "Long session: <n> messages, <user messages> queries, <entries mentioning analysis> analyses performed. Recent context available in full summary." |
| Config.GetAgentConfig | lib/agents/config.ts:206-276 | an entry exactly for orchestrator, sql_agent, python_agent, composer and explainer, whose id is the one asked for; any other id throws "Unknown agent: <id>" |
| Config.GetAgentToolIds | lib/agents/config.ts:282-285 | the tool list of the agent's config, and the same error for an unknown id |
| Config.IdsMatchKeys | lib/agents/config.ts:206-265 | every entry's id equals its registry key |
| Config.ToolAssignment | lib/agents/config.ts:216-264 | every agent may read the Data DNA; only sql_agent runs SQL, only python_agent runs Python, only composer writes context |
| Config.ToolLists | lib/agents/config.ts:206-265 | the five registered ids and each agent's tool list |
| Config.ContextAgentUnregistered | app/api/agents/context/route.ts:35-36 | the id the context route asks for is not registered, so the lookup throws "Unknown agent: context_agent" |
| Tools.ParamNames | lib/agents/tools.ts:12-14 | the declared parameter names, one per parameter, in order |
| Tools.GetToolsForAgent | lib/agents/tools.ts:170-174 | at most one schema per id, each a registry entry; when every id is registered, exactly their schemas in input order, repeats kept |
| Tools.GetToolsForAgentMembers | lib/agents/tools.ts:170-174 | a schema is in the result iff some requested id is registered to it |
| Tools.GetToolByName | lib/agents/tools.ts:179-181 | a schema iff the name is registered, and it carries that name |
| Tools.RegistryWellFormed | lib/agents/tools.ts:20-165 | every key is its schema's function name, every required parameter is declared, and read_data_dna and read_context require nothing |
| Tools.NoToolsForNoIds | lib/agents/tools.ts:170-174 | an example: no ids give no schemas |
| AgentIdentities.IndexOf | lib/agents/agent-identities.ts:14-57 | the position of the id in the registry when it is there, and nothing exactly when no later entry has it |
| AgentIdentities.GetAgentIdentity | lib/agents/agent-identities.ts:59-70 | the registered identity of a known id; the "AI Assistant" default for null, undefined, "" or an unknown id |
| AgentIdentities.FindFrom | lib/agents/agent-identities.ts:72-79 | the id of the first entry from a position on whose display name matches ignoring case, or nothing when none does |
| AgentIdentities.FindAgentIdByName | lib/agents/agent-identities.ts:72-79 | the id of the first entry in registry order whose display name matches ignoring case, or null when none does |
| AgentIdentities.IsValidAgentId | lib/agents/agent-identities.ts:81-83 | true iff the id is registered |
| AgentIdentities.GetAllAgentIds | lib/agents/agent-identities.ts:85-87 | the registered ids in registry order |
| AgentIdentities.GetAllAgentIdentities | lib/agents/agent-identities.ts:89-91 | the registered identities in registry order |
| AgentIdentities.AllIdsAndIdentitiesCorrespond | lib/agents/agent-identities.ts:59-91 | the two lists have equal length, and each listed id is valid and looks up the identity at the same position |
| AgentIdentities.IdsDistinct | lib/agents/agent-identities.ts:14-57 | each registered id is found at its own position |
| AgentIdentities.NameRoundTrip | lib/agents/agent-identities.ts:14-79 | looking an id's display name back up gives that id, since the six names differ even ignoring case |
| Toasts.WithoutId | lib/agents/toast-notifications.ts:46 | no toast with the id remains, every other toast stays, and nothing new appears |
| Toasts.WithoutIdAppend | lib/agents/toast-notifications.ts:46 | removal distributes over concatenation, so the others keep their order |
| Toasts.WithoutIdAbsent | lib/agents/toast-notifications.ts:46 | removing an id no toast has changes nothing |
| Toasts.WithoutIdIdempotent | lib/agents/toast-notifications.ts:45-48 | removing the same id twice is removing it once |
| Toasts.Deliveries | lib/agents/toast-notifications.ts:55-57 | one copy of the list per listener, in subscription order |
| Toasts.Unlisted | lib/agents/toast-notifications.ts:52 | the listener is gone, every other listener stays, and the set stays free of duplicates |
| Toasts.ToastManager.constructor | lib/agents/toast-notifications.ts:21-23 | no toasts, no listeners, nothing delivered and no timers |
| Toasts.ToastManager.NotifyListeners | lib/agents/toast-notifications.ts:55-57 | each listener receives a copy of the current list; nothing else changes |
| Toasts.ToastManager.Show | lib/agents/toast-notifications.ts:25-43 | outside a browser nothing changes; otherwise exactly one toast with the given fields is appended at the end, every listener is notified, and only a finite duration starts a removal timer |
| Toasts.ToastManager.Remove | lib/agents/toast-notifications.ts:45-48 | every toast with the id goes, the others stay in order, and the listeners are notified |
| Toasts.ToastManager.Subscribe | lib/agents/toast-notifications.ts:50-51 | the listener is added once; the toasts are unchanged |
| Toasts.ToastManager.Unsubscribe | lib/agents/toast-notifications.ts:52 | the returned function removes exactly that listener and reports whether it was there |
| Toasts.KeyFailureToast | lib/agents/toast-notifications.ts:62-72 | a five-second warning titled "🔄 API Key Rotation" whose whole text names key index + 1 and the total − index − 1 backups left, "backup" singular only for one |
| Toasts.BackupPlural | lib/agents/toast-notifications.ts:69 | "backups" iff the number remaining is not 1 |
| Toasts.AllKeysExhaustedToast | lib/agents/toast-notifications.ts:74-83 | an error toast titled "❌ All API Keys Exhausted" with the key count in its text and an infinite duration |
| Toasts.OnlyExhaustedStays | lib/agents/toast-notifications.ts:38-147 | the exhausted-keys toast is the only one of the helpers never scheduled for removal |
| Toasts.KeyRotationSuccessToast | lib/agents/toast-notifications.ts:85-94 | a five-second success titled "✅ API Key Rotated Successfully" naming backup key index + 1 |
| Toasts.AgentChangeToast | lib/agents/toast-notifications.ts:96-108 | a four-second success with the identity's icon and name |
| Toasts.UnknownAgentChange | lib/agents/toast-notifications.ts:99-105 | an unregistered agent is announced as the default assistant |
| Toasts.ToolDisplay | lib/agents/toast-notifications.ts:110-121 | a tool's display entry, or its own name with the gear icon |
| Toasts.ToolCallToast | lib/agents/toast-notifications.ts:118-129 | a three-second info toast titled "Tool: <name>" showing the display icon and name |
| Toasts.UnknownToolToast | lib/agents/toast-notifications.ts:121 | an unknown tool is shown by its own name with the gear icon |
| Toasts.DispatchedToolsDisplayed | lib/agents/toast-notifications.ts:110-116 | all five dispatched tools have display entries of their own |
| Toasts.ErrorToast | lib/agents/toast-notifications.ts:131-135 | an error toast with the caller's title and text, shown for seven seconds |
| Toasts.SuccessToast | lib/agents/toast-notifications.ts:137-141 | a success toast with the caller's title and text, shown for five seconds |
| Toasts.InfoToast | lib/agents/toast-notifications.ts:143-147 | an information toast with the caller's title and text, shown for five seconds |
| WorkspaceStore.ToggleLeftSidebar | store/workspaceStore.ts:27-29 | the left sidebar flag flips and no other field changes |
| WorkspaceStore.ToggleRightPanel | store/workspaceStore.ts:31-33 | the right panel flag flips and no other field changes |
| WorkspaceStore.SetRightPanelTab | store/workspaceStore.ts:35-37 | the tab becomes the given one and no other field changes |
| WorkspaceStore.SetWorkspaceMode | store/workspaceStore.ts:39-41 | the mode becomes the given one and no other field changes |
| WorkspaceStore.SetLeftSidebarOpen | store/workspaceStore.ts:43-45 | the left sidebar flag becomes the given value and no other field changes |
| WorkspaceStore.SetRightPanelOpen | store/workspaceStore.ts:47-49 | the right panel flag becomes the given value and no other field changes |
| WorkspaceStore.TogglesAreInvolutions | store/workspaceStore.ts:27-33 | toggling twice restores the state; the two toggles commute |
| WorkspaceStore.SettersIdempotent | store/workspaceStore.ts:35-49 | setting a field twice equals setting it once, and the last value set wins |
| WorkspaceStore.ToggleIsSetNegated | store/workspaceStore.ts:27-49 | each toggle equals its setter applied to the negated current value |
| DataStore.SetDataDNA | store/dataStore.ts:146-151 | the DNA is stored and the active dataset id is `dataset_` followed by the clock value, never null |
| DataStore.ClearDataDNA | store/dataStore.ts:153-158 | both the DNA and the dataset id become null |
| DataStore.UpdateBaselines | store/dataStore.ts:160-169 | without a DNA nothing changes; with one only the baselines change, to their merge with the update; the dataset id is kept |
| DataStore.UpdateBaselinesLookup | store/dataStore.ts:165 | the merge is right-biased: a key in the update reads as in the update, any other key as before |
| DataStore.UpdateBaselinesEmpty | store/dataStore.ts:165 | an empty update leaves the state unchanged |
| DataStore.AddPattern | store/dataStore.ts:171-180 | without a DNA nothing changes; with one exactly one pattern is appended at the end and nothing else changes |
| DataStore.AddInsight | store/dataStore.ts:182-191 | without a DNA nothing changes; with one exactly one insight is appended at the end and nothing else changes |
| DataStore.AddsCommute | store/dataStore.ts:171-191 | adding a pattern never touches the insights or baselines and vice versa, so the two additions commute |
| DataStore.AddPatternsAppend | store/dataStore.ts:171-180 | patterns added one after another end up at the end of the list in the order they were added |
| DataStore.ClearedIgnoresEdits | store/dataStore.ts:153-191 | after clearDataDNA every edit action is a no-op |
| ChatStore.CreateSession | store/chatStore.ts:66-83 | returns `session_<now>`; the new session, titled "New Analysis" with count 0, goes first and becomes active; the old sessions follow in order; messages and streaming state are kept |
| ChatStore.SetActiveSession | store/chatStore.ts:85-87 | only the active session id changes, to the given id |
| ChatStore.TitleFrom | store/chatStore.ts:107 | content of at most 50 characters is the title itself; longer content gives its first 50 characters followed by "..." |
| ChatStore.TitleBounded | store/chatStore.ts:107 | a derived title is at most 53 characters and starts with the first 50 characters of the content |
| ChatStore.AddMessage | store/chatStore.ts:89-119 | exactly one message with id `msg_<now>` is appended at the end; each session with the message's id counts one more, is stamped `now`, and takes its title from the content iff its count was 0 and the message is a user's; every other session is unchanged |
| ChatStore.AddMessageUnknownSession | store/chatStore.ts:96-117 | a message for an unknown session is still appended, and no session changes |
| ChatStore.UpdateMessage | store/chatStore.ts:121-127 | the list keeps its length; each message with the id takes the patch, every other message and every other field is unchanged |
| ChatStore.PatchNamesFields | store/chatStore.ts:124 | the spread merge changes exactly the fields the patch names; an empty patch changes nothing |
| ChatStore.UpdateSession | store/chatStore.ts:129-135 | the list keeps its length; each session with the id takes the patch and is stamped `now`, whatever the patch says about updatedAt; every other session is unchanged |
| ChatStore.ForSession | store/chatStore.ts:137-139 | the result holds exactly the messages of that session and is no longer than the input |
| ChatStore.GetSessionMessages | store/chatStore.ts:137-139 | a message is returned iff it is in the store and belongs to that session |
| ChatStore.ForSessionNone | store/chatStore.ts:138 | a session no message names has no messages |
| ChatStore.ForSessionAppend | store/chatStore.ts:138 | the filter distributes over concatenation, so it keeps the messages' order |
| ChatStore.AddThenGet | store/chatStore.ts:89-139 | after addMessage the session's messages are the previous ones plus the new one at the end; other sessions' messages are unchanged |
| ChatStore.SetStreaming | store/chatStore.ts:141-143 | the flag is stored; the message id is stored when present and non-empty, and null otherwise; nothing else changes |
| ChatStore.WithoutSession | store/chatStore.ts:147 | the result holds exactly the messages of other sessions |
| ChatStore.OtherSessions | store/chatStore.ts:148 | the result holds exactly the sessions with another id |
| ChatStore.ClearSession | store/chatStore.ts:145-152 | messages and sessions of that id are removed; the active id becomes null iff it was that id; the streaming state is kept |
| ChatStore.ClearKeepsOthers | store/chatStore.ts:147 | after clearing, the cleared session has no messages and every other session has exactly the messages it had, in order |
| ChatStore.ClearSessionEffect | store/chatStore.ts:145-152 | clearSession leaves no message and no session with that id, and other sessions' messages unchanged |
| ChatStore.AddMessageCounted | store/chatStore.ts:98-117 | if every session's count is its number of messages, that still holds after addMessage |
| ChatStore.CreateSessionCounted | store/chatStore.ts:66-83 | creating a session whose id no message carries keeps every count equal to its number of messages |
| ChatStore.ClearSessionCounted | store/chatStore.ts:145-152 | clearSession keeps every remaining count equal to its number of messages |
| ChatStore.InitialCounted | store/chatStore.ts:60-64 | the initial store has consistent counts and no active session |
| PromptInput.InSize | components/ai-elements/prompt-input.tsx:123-127 | the incoming files that pass the size check, in order; none is over the limit |
| PromptInput.AdmitAccepts | components/ai-elements/prompt-input.tsx:120-147 | the admission loop accepts exactly the in-size files, in incoming order, cut to the room maxFiles leaves; a full list stops the loop at the first in-size file after it fills |
| PromptInput.AddFilesBounded | components/ai-elements/prompt-input.tsx:124-131 | the list never grows past a given maxFiles; a list already past it takes nothing; no accepted file is over the size limit; without maxFiles every in-size file is accepted |
| PromptInput.AddFiles | components/ai-elements/prompt-input.tsx:120-147 | the loop's new list is the old one followed by the accepted files, and its errors are the loop's size and count messages, in order |
| PromptInput.Remove | components/ai-elements/prompt-input.tsx:151-153 | the result holds exactly the files with another id |
| PromptInput.RemoveAppend | components/ai-elements/prompt-input.tsx:152 | removal distributes over concatenation, so the other files keep their order |
| PromptInput.RemoveAbsent | components/ai-elements/prompt-input.tsx:152 | removing an id no file has changes nothing |
| PromptInput.Clear | components/ai-elements/prompt-input.tsx:155 | clear leaves no attachments |
| PromptInput.HasContentIff | components/ai-elements/prompt-input.tsx:357 | the submit guard passes iff the text has a non-whitespace character or a file is attached (the same guard is repeated at line 598) |
| PromptInput.KeyDown | components/ai-elements/prompt-input.tsx:352-363 | any key but unshifted Enter is only forwarded; unshifted Enter prevents the newline, returns early when the guard fails, and otherwise submits `{text, files}` to the input, then to the textarea callback, then forwards the event |
| PromptInput.KeyDownSubmitsIff | components/ai-elements/prompt-input.tsx:352-361 | the textarea submits iff the key is Enter, Shift is up and the guard passes |
| PromptInput.ButtonDisabled | components/ai-elements/prompt-input.tsx:581-607 | the button is disabled iff the disabled prop is set and no reply is streaming or submitted |
| PromptInput.LooksDisabled | components/ai-elements/prompt-input.tsx:583 | the button looks disabled iff the disabled prop is set or the status is idle |
| PromptInput.DisabledLooksDisabled | components/ai-elements/prompt-input.tsx:581-607 | a disabled button always looks disabled; an idle button that is not disabled looks disabled anyway |
| PromptInput.Click | components/ai-elements/prompt-input.tsx:585-601 | while streaming or submitted a click is exactly a stop; otherwise it submits iff the guard passes on the textarea's text (empty when there is no textarea), and empties the textarea iff there is one |
| ChatInput.HandleSubmit | components/chat/ChatInput.tsx:135-146 | an empty message does nothing; otherwise onSubmit, when given, receives the message unchanged; failing that onSend receives a non-empty text; the local text is reset for every non-empty message |
| ChatInput.FilesOnlyWithOnSend | components/chat/ChatInput.tsx:136-145 | files without text and without onSubmit reach no callback but still reset the text; a whitespace text that comes with files reaches onSend as it is |
| ChatInput.GuardsAgree | components/chat/ChatInput.tsx:136 | the emptiness test here is exactly the negation of the prompt input's submit guard, so no submitted message is dropped |
| ChatInput.IsDisabled | components/chat/ChatInput.tsx:148-149 | input is disabled iff the prop is set or the status is submitted or streaming |
| ChatInput.SubmitDisabledProp | components/chat/ChatInput.tsx:243 | the button's disabled prop is set iff input is disabled or the text is all whitespace |
| ChatInput.StopAlwaysAvailable | components/chat/ChatInput.tsx:148-149 | while a reply is on its way the textarea is disabled but the button is not, so the reply can be stopped; otherwise the button is disabled iff the prop is set or the text is all whitespace (the button at lines 182 and 243) |
| WorkspaceSidebar.Filtered | components/workspace/WorkspaceSidebar.tsx:101-105 | the search filter never lengthens the list |
| WorkspaceSidebar.FilteredMembers | components/workspace/WorkspaceSidebar.tsx:101-105 | a chat is in the filtered list iff it is in the list and its shown title (the title, or "Untitled Chat") contains the query, both lower-cased |
| WorkspaceSidebar.MatchesEmpty | components/workspace/WorkspaceSidebar.tsx:102-104 | every chat matches the empty query |
| WorkspaceSidebar.EmptyQueryKeepsAll | components/workspace/WorkspaceSidebar.tsx:101-105 | with an empty query the filtered list is the whole list, in order |
| WorkspaceSidebar.FilteredLast | components/workspace/WorkspaceSidebar.tsx:101-105 | the last chat follows the filtered others exactly when it matches |
| WorkspaceSidebar.FilteredAppend | components/workspace/WorkspaceSidebar.tsx:101-105 | the filter distributes over concatenation, so it keeps chat order |
| WorkspaceSidebar.Pinned | components/workspace/WorkspaceSidebar.tsx:108-113 | the pinned list holds exactly the chats whose id is pinned, the recent list exactly the others |
| WorkspaceSidebar.PartitionExact | components/workspace/WorkspaceSidebar.tsx:108-113 | the pinned and recent lists together are the filtered chats as a multiset, and no chat is in both |
| WorkspaceSidebar.TogglePin | components/workspace/WorkspaceSidebar.tsx:184-194 | the chat's pin flips and every other chat's pin is unchanged |
| WorkspaceSidebar.TogglePinTwice | components/workspace/WorkspaceSidebar.tsx:184-194 | pinning a chat twice restores the pinned set |
| WorkspaceSidebar.Find | components/workspace/WorkspaceSidebar.tsx:116 | a found chat is in the list with that id; nothing found means no chat has that id |
| WorkspaceSidebar.HandleRename | components/workspace/WorkspaceSidebar.tsx:115-120 | an unknown chat changes nothing; a known one enters edit mode with its shown title as the edit text |
| WorkspaceSidebar.Renamed | components/workspace/WorkspaceSidebar.tsx:128-130 | the list keeps its length; each chat with the id takes the new title, every other chat is unchanged |
| WorkspaceSidebar.HandleSaveRename | components/workspace/WorkspaceSidebar.tsx:122-141 | edit mode always ends; an all-whitespace title changes nothing else; any other title, untrimmed, renames the chats with that id and asks the parent to refresh on success, and restores the given list on failure |
| WorkspaceSidebar.WithoutChat | components/workspace/WorkspaceSidebar.tsx:156 | the result holds exactly the chats with another id |
| WorkspaceSidebar.HandleDeleteConfirm | components/workspace/WorkspaceSidebar.tsx:153-182 | with no chat selected nothing happens; otherwise the dialog closes, the selection is cleared, the chats with that id are dropped (or the given list is restored on failure), the parent refreshes iff the delete succeeded, and the page navigates iff it succeeded and the deleted id equals the current session id, to the first remaining chat, or with none left to the first chat's session before the delete, or the current one |
| WorkspaceSidebar.DeleteNavigatesAway | components/workspace/WorkspaceSidebar.tsx:163-169 | deleting the current chat while others remain moves the page to one of the other chats |
| WorkspaceSidebar.DeleteRemovesExactly | components/workspace/WorkspaceSidebar.tsx:156 | after a successful delete a chat remains iff it was there and its id differs from the deleted one |
| RightSidebar.Clicked | components/workspace/WorkspaceRightSidebar.tsx:29-37 | clicking the open option collapses the drawer and clears the option; any other click opens the drawer on the clicked option |
| RightSidebar.DrawerOpened | components/workspace/WorkspaceRightSidebar.tsx:41-47 | a truthy drawer name opens the drawer on it whatever the state; a missing or empty one changes nothing |
| RightSidebar.HandlersKeepConsistent | components/workspace/WorkspaceRightSidebar.tsx:29-47 | both handlers keep "expanded iff an option is selected" |
| RightSidebar.ClickTwice | components/workspace/WorkspaceRightSidebar.tsx:29-37 | from the collapsed state two clicks on one option collapse the drawer again; a click on another option while open switches to it |
| RightSidebar.Truthy | components/workspace/WorkspaceRightSidebar.tsx:60-73 | a code pane shows code iff the code is present and non-empty |
| RightSidebar.Content | components/workspace/WorkspaceRightSidebar.tsx:52-119 | nothing shows unless the drawer is expanded with a non-empty option; an unknown option shows nothing; the context panel shows only with a non-empty session id |
| RightSidebar.KnownOptionsShow | components/workspace/WorkspaceRightSidebar.tsx:52-119 | in a consistent open drawer each of the four options shows a panel, and context without a session shows the session-required notice |
| RightSidebar.Sidebar.constructor | components/workspace/WorkspaceRightSidebar.tsx:26-27 | the drawer starts collapsed with no option, which is consistent |
| RightSidebar.Sidebar.OptionClick | components/workspace/WorkspaceRightSidebar.tsx:29-37 | the fields take the values `Clicked` gives for the old ones, and consistency is kept |
| RightSidebar.Sidebar.OpenDrawer | components/workspace/WorkspaceRightSidebar.tsx:41-47 | the fields take the values `DrawerOpened` gives for the old ones, and consistency is kept |
| ReportFilterBar.Toggled | components/interactive/ReportFilterBar.tsx:29-35 | selecting the selected value clears it; any other value replaces it |
| ReportFilterBar.ToggledTwice | components/interactive/ReportFilterBar.tsx:28-38 | selecting one value twice from nothing ends with nothing selected; selecting two different values in turn keeps the second |
| ReportFilterBar.HasActiveFilters | components/interactive/ReportFilterBar.tsx:48 | a filter is active iff the query, the tag or the range is a non-empty string |
| ReportFilterBar.TagSelectActivates | components/interactive/ReportFilterBar.tsx:34-48 | selecting a new non-empty tag makes a filter active; deselecting the only active tag leaves none |
| ReportFilterBar.FilterBar.constructor | components/interactive/ReportFilterBar.tsx:15-17 | the bar starts with an empty query, no tag, no range, and no active filter |
| ReportFilterBar.FilterBar.SearchChange | components/interactive/ReportFilterBar.tsx:23-26 | the query becomes the exact text, which is forwarded once; tag and range are kept |
| ReportFilterBar.FilterBar.TagSelect | components/interactive/ReportFilterBar.tsx:28-32 | the tag toggles and the callback receives the new tag with the current range; query and range are kept |
| ReportFilterBar.FilterBar.DateRangeSelect | components/interactive/ReportFilterBar.tsx:34-38 | the range toggles and the callback receives the current tag with the new range; query and tag are kept |
| ReportFilterBar.FilterBar.ClearFilters | components/interactive/ReportFilterBar.tsx:40-46 | all three are reset, no filter is active, and the callbacks receive "" and then `{}`, in that order |
| Recents.AgeOf | app/recents/page.tsx:76-89 | the bucket is decided by the first test that holds: under a minute (future times included) is "just now", then minutes under an hour, hours under a day, days under a week, else the date; each count is the floor of the difference and lies in its bucket's range |
| Recents.FormatDate | app/recents/page.tsx:76-89 | the date bucket shows the locale date; the others show the count followed by "m ago", "h ago" or "d ago" |
| Recents.AgeMonotone | app/recents/page.tsx:76-89 | an older record never falls in a newer bucket, and within a bucket its count is never smaller |
| Recents.MinuteBoundaries | app/recents/page.tsx:80-84 | the bucket edges below an hour: a negative difference and 59999 ms are "Just now", 60000 ms is "1m ago", one ms short of an hour is "59m ago" |
| Recents.DayBoundaries | app/recents/page.tsx:84-88 | the bucket edges from an hour on: "1h ago", "1d ago", "6d ago", and the locale date at exactly seven days |
| Recents.LabelDeterminesAge | app/recents/page.tsx:76-89 | two relative labels that are equal mean the same bucket and the same count |
| Recents.RelativeLabel | app/recents/page.tsx:80-87 | a relative label is "Just now", or the count, the unit letter and " ago" |
| Recents.LabelParts | app/recents/page.tsx:82-86 | the count and the unit letter can be read back from a label |
| Recents.CountLabel | app/recents/page.tsx:233-269 | the count, a space and the noun, with an "s" appended iff the count is not 1 |
| RichMarkdown.LabelEnd | components/chat/RichMarkdownRenderer.tsx:24 | a label end it finds is a closer `**:` from which the rest of the line can still match |
| RichMarkdown.LabelEndFirst | components/chat/RichMarkdownRenderer.tsx:24 | the lazy `(.+?)`: the closer found is no later than any closer that admits a match |
| RichMarkdown.ClosesMatches | components/chat/RichMarkdownRenderer.tsx:24 | every closer that is accepted gives a match of the pattern, with `\s*` taking the whitespace after it |
| RichMarkdown.StatOfSound | components/chat/RichMarkdownRenderer.tsx:24-37 | every stat taken from a line is a match of the pattern, and its label is what the lazy group captures |
| RichMarkdown.StatOfValue | components/chat/RichMarkdownRenderer.tsx:37 | the value is the rest of the line after the closer, trimmed |
| RichMarkdown.MatchCloses | components/chat/RichMarkdownRenderer.tsx:24 | a match on a trimmed line has an accepted closer at its label's end |
| RichMarkdown.StatOfComplete | components/chat/RichMarkdownRenderer.tsx:24-37 | every match on a trimmed line is found; the label taken is the shortest one; with that label the greedy `\s*` takes no less than any match does, and the value is the trimmed capture of `(.+)` |
| RichMarkdown.StatOfFound | components/chat/RichMarkdownRenderer.tsx:24-35 | a trimmed line that matches yields a stat, with a label no longer than the match's |
| RichMarkdown.StatOfGreedy | components/chat/RichMarkdownRenderer.tsx:24-37 | with the match's own label the values agree, whatever `\s*` takes |
| RichMarkdown.LineStat | components/chat/RichMarkdownRenderer.tsx:35-38 | one line yields at most one stat |
| RichMarkdown.StatsOfAppend | components/chat/RichMarkdownRenderer.tsx:32-40 | the stats of consecutive runs of lines concatenate, so stats keep line order and a non-matching line adds nothing |
| RichMarkdown.StatsOfOne | components/chat/RichMarkdownRenderer.tsx:35-38 | a single line contributes its own stat, if any |
| RichMarkdown.StatsOfPrefix | components/chat/RichMarkdownRenderer.tsx:34-39 | one more line adds its stat, if any, at the end |
| RichMarkdown.ExtractStats | components/chat/RichMarkdownRenderer.tsx:31-41 | the loop's result is the stats of the "\n"-separated lines, in order, and there are no more stats than lines |
| RichMarkdown.Layout | components/chat/RichMarkdownRenderer.tsx:229-235 | the highlight exists iff there is a stat and is the first; with two or more stats the grid is the rest; with one or none the grid is all of them |
| RichMarkdown.ContainsWithin | components/chat/RichMarkdownRenderer.tsx:224 | an occurrence of a marker stays an occurrence inside any surrounding text |
| RichMarkdown.IsInsightResponse | components/chat/RichMarkdownRenderer.tsx:215-225 | an answer is an insight iff it contains one of "Maximum Amount", "Based on the Data DNA", "INSIGHTX LEAD" or "Additional Context" |
| RichMarkdown.InsightKept | components/chat/RichMarkdownRenderer.tsx:216-225 | adding text around an insight answer keeps it an insight answer |
| RichMarkdown.LeadIsInsight | components/chat/RichMarkdownRenderer.tsx:216-225 | an answer that starts with "INSIGHTX LEAD" is an insight answer |
| ResponseParser.OrNull | lib/utils/response-parser.ts:67-74 | `json.k \|\| null` is null or truthy, and is the field itself whenever the field is truthy |
| ResponseParser.ValidateComposerResponse | lib/utils/response-parser.ts:58-78 | validation succeeds iff the value is not null and its `text` is a non-empty string; text, insight_type and data_rows are kept exactly; metrics, chart_spec, sql_used and warning become null unless truthy; confidence is kept iff it is a number; follow_ups is kept iff it is an array, else [] |
| ResponseParser.Attempt | lib/utils/response-parser.ts:33-51 | a candidate gives a response iff it parses and validates, and then it is the validated response |
| ResponseParser.ParseComposerResponse | lib/utils/response-parser.ts:28-52 | the outcome is the attempt on the first candidate whose pattern matches: the fence body, else the embedded object, else the whole reply |
| ResponseParser.FenceDecides | lib/utils/response-parser.ts:31-35 | when the fence matches, later strategies have no influence, and invalid fenced JSON gives null |
| ResponseParser.MissingTextIsNull | lib/utils/response-parser.ts:47-62 | a chosen JSON without a usable text gives null, not an exception |
| ResponseParser.IsComposerResponse | lib/utils/response-parser.ts:83-89 | true iff the text mentions `"text"` and at least one of "```json", `"metrics"` or `"follow_ups"` |
| ResponseParser.IsComposerResponseExample | lib/utils/response-parser.ts:83-89 | an example: the text {"text":1,"metrics":2} is recognised as a structured response |
| ResponseParser.PlainTextIsNotComposer | lib/utils/response-parser.ts:83-89 | an example: the text "ok" is not recognised |
| ResponseParser.ExtractSQLQuery | lib/utils/response-parser.ts:94-100 | the result is null or truthy; for a parsed response it is its truthy sql_used, else null; for text it is the parsed response's sql_used, or null when the text does not parse |
| Backend.Rename | lib/api/backend.ts:41-139 | each camelCase field holds the value of its snake_case source field, or undefined, one field per table entry in table order |
| Backend.Defaulted | lib/api/backend.ts:47-50 | each `x \|\| default` field is never undefined: it holds the source field when that is truthy and the default otherwise |
| Backend.SampleValues | lib/api/backend.ts:73-77 | at most three values: the first three of a truthy array of top values, else the first three keys of a truthy non-array, else min, mean and max as strings when min is defined, else none |
| Backend.ColumnRecord | lib/api/backend.ts:66-101 | a column has all its fields in declaration order; nullPercentage is null_pct or 0; sampleValues is as above |
| Backend.MapRecords | lib/api/backend.ts:59-125 | mapping succeeds iff no element is null (reading a field of null throws), and then maps element-wise, keeping length and order |
| Backend.ListSection | lib/api/backend.ts:59-129 | `(v \|\| []).map(f)`: a falsy section is empty; a truthy one succeeds iff it is an array without nulls, mapped element-wise |
| Backend.ColumnsSection | lib/api/backend.ts:66-102 | `v?.map(f) \|\| []`: null and undefined give []; otherwise it succeeds iff the value is an array without nulls, mapped element-wise |
| Backend.ColumnCount | lib/api/backend.ts:37 | the number of columns when there is a non-empty column array, else a truthy col_count, else 0 |
| Backend.MissingSection | lib/api/backend.ts:53-64 | the summary is present iff the raw one is truthy, and succeeds iff its co-missing pairs do |
| Backend.Prefixed | lib/api/backend.ts:144-146 | the members of a nested object are renamed to "key_subKey", in order |
| Backend.BaselinesLaterWins | lib/api/backend.ts:142-151 | after one more baseline entry, a scalar is read under its own key and a nested object's members under "key_subKey"; every other key reads as before, so later writes win |
| Backend.BaselinesScalarsKept | lib/api/backend.ts:142-151 | baselines without nested objects read exactly as the raw baselines |
| Backend.BaselinesOneLevel | lib/api/backend.ts:143-146 | an example of the one-level flattening: an entry holding a one-member object becomes that member under "<key>_<sub>", its value kept as it is even when it is an object |
| Backend.FormatSessionToDataDNA | lib/api/backend.ts:31-157 | normalisation succeeds iff no section throws; rowCount is the first truthy of the two row counts, else 0; uploadDate is the raw created_at; health, missingSummary and datetimeInfo are undefined iff falsy, and otherwise the renamed health record with its list defaults, the renamed missing summary with its renamed pairs, and the renamed datetime info; baselines are flattened; patterns, insights and accumulated insights default to []; every list section is mapped element-wise |
| Backend.EmptySessionDefaults | lib/api/backend.ts:32-155 | a session without DNA or row count normalises to zero counts, empty sections, no health and no missing summary |
| Backend.PollSessionUntilReady | lib/api/backend.ts:280-316 | the loop's outcome is the reference `PollFrom`; onProgress receives each readable status in order, at most maxAttempts of them; a ready outcome is the last status reported, the session of that poll, after statuses that were all not ready; a timeout reports maxAttempts statuses, none ready; a failure is the error of the poll after the reported ones |
| Backend.PollReadyIsFirst | lib/api/backend.ts:300-303 | a ready outcome is the first poll whose status is "ready", every earlier poll having returned a session that was not ready |
| Backend.PollTimeoutIff | lib/api/backend.ts:288-315 | polling times out iff every remaining poll, up to maxAttempts, returns a session that is not ready |
| Backend.PollErrorStops | lib/api/backend.ts:308-311 | a poll that throws ends polling at once with that error |
| Backend.LinesRebuild | lib/api/backend.ts:448-449 | the complete lines and the pending tail, joined by "\n", are exactly the text, and none of them holds a "\n" |
| Backend.LineEvents | lib/api/backend.ts:451-466 | a line yields at most one event, and yields one iff it starts with "data: ", its payload is not "[DONE]" and the payload parses; the event is the parsed payload |
| Backend.EventsOf | lib/api/backend.ts:451-467 | the reference definition of the events a run of complete lines yields, which the stream loop is proved against; never more events than lines |
| Backend.EventsOfAppend | lib/api/backend.ts:451-467 | events of consecutive runs of lines concatenate, so events come in arrival order |
| Backend.DecodeLines | lib/api/backend.ts:451-467 | the loop over one batch of lines yields exactly the events of those lines, in order |
| Backend.ProcessChunk | lib/api/backend.ts:447-467 | the buffer plus the chunk splits into the decoded lines and the tail kept in the buffer; the decoded events are those of the complete lines |
| Backend.ChatStream | lib/api/backend.ts:437-469 | whatever the chunking, the events are exactly those of the "\n"-terminated lines of the concatenated text, in order |
| Backend.UnterminatedTailIgnored | lib/api/backend.ts:442-449 | text after the last line break is never decoded: the stream yields the same events without it |
| ContextService.GetOr | backend/services/context_service.py:35-45 | the input's value for a present key, else the default |
| ContextService.AsObj | backend/services/context_service.py:33-46 | the record as a dictionary with all eleven keys |
| ContextService.FilledEmpty | backend/services/context_service.py:35-45 | an empty input gets "Unknown Dataset" as its name, [] for the four lists and "" for every other field |
| ContextService.FilledAsObj | backend/services/context_service.py:35-45 | defaults never override a given value: a full record fills to itself (update repeats these defaults at lines 172-182) |
| ContextService.FilledAsObjFront | backend/services/context_service.py:35-36 | the name and purpose survive filling |
| ContextService.FilledAsObjMiddle | backend/services/context_service.py:37-39 | the domain, entities and use cases survive filling |
| ContextService.FilledAsObjBack | backend/services/context_service.py:40-45 | the remaining six fields survive filling |
| ContextService.LookupLastBinding | backend/services/context_service.py:35-45 | a key bound once from a position on reads as its value there |
| ContextService.Encode | backend/services/context_service.py:63-69 | the four list columns are stored as dumped JSON text |
| ContextService.Decode | backend/services/context_service.py:113-116 | decoding succeeds iff all four stored list texts decode |
| ContextService.DecodeEncode | backend/services/context_service.py:63-116 | what is written is what is read: the lists come back equal, in order |
| ContextService.Latest | backend/services/context_service.py:100-108 | a row of the session that no other row of the session postdates, and nothing iff the session has no row |
| ContextService.Read | backend/services/context_service.py:87-132 | a database error is returned as the error; no row gives "No context insight found for this session"; otherwise the newest row with its lists decoded, or the decode error |
| ContextService.Rewritten | backend/services/context_service.py:152-185 | every row of the session gets the new columns and the update time; creation times and other sessions' rows stay |
| ContextService.First | backend/services/context_service.py:169-185 | the first row of the session in table order, and nothing iff the session has no row |
| ContextService.Without | backend/services/context_service.py:213-216 | exactly the rows of other sessions remain |
| ContextService.SaveThenRead | backend/services/context_service.py:33-120 | after a save at a later time, a read returns the filled-in record with that time |
| ContextService.LatestAppended | backend/services/context_service.py:100-108 | a row created after all others of its session is the newest |
| ContextService.UpdateThenRead | backend/services/context_service.py:152-185 | after an update of a session that has rows, a read sees the new columns, the newest row's creation time and the update's time (read back with get, lines 100-116) |
| ContextService.LatestRewritten | backend/services/context_service.py:152-168 | an update keeps creation times, so the newest row stays the newest |
| ContextService.DeleteThenRead | backend/services/context_service.py:213-216 | after a delete nothing of the session is found, and deleting again changes nothing (read back with get, lines 100-125) |
| ContextService.WithoutIdempotent | backend/services/context_service.py:213-221 | deleting twice is deleting once |
| ContextService.NoneLeft | backend/services/context_service.py:213-216 | deleting a session with no rows changes nothing |
| ContextService.Store.constructor | backend/services/context_service.py:9-30 | the store holds the given table |
| ContextService.Store.Save | backend/services/context_service.py:14-84 | a database error changes nothing and is returned; otherwise exactly one row with the filled-in record is appended and returned |
| ContextService.Store.Get | backend/services/context_service.py:86-132 | the read of the current table, which changes nothing |
| ContextService.Store.Update | backend/services/context_service.py:134-197 | a database error changes nothing; otherwise every row of the session is rewritten, the first one is returned, and with no row the input is echoed back unfilled |
| ContextService.Store.Delete | backend/services/context_service.py:199-228 | a database error changes nothing; otherwise every row of the session goes and success is reported whether or not one existed |
| SidebarService.HistoryOrEmpty | lib/db/sidebar.ts:376-380 | a missing row or a null history reads as empty; otherwise the stored history (the same default at lines 278 and 316) |
| SidebarService.Initialized | lib/db/sidebar.ts:78-132 | a new row takes the session's Data DNA when truthy, else null; its file name when truthy, else "Unknown Dataset"; empty histories; no code and no context analysis |
| SidebarService.Fetched | lib/db/sidebar.ts:49-108 | an error other than "no row" is rethrown with nothing written; an existing row is returned unchanged; a missing one is created from the session and returned, or null is returned when reading the session or inserting fails; no other session's row changes |
| SidebarService.FetchedStable | lib/db/sidebar.ts:49-108 | once a row exists, fetching again returns it and writes nothing |
| SidebarService.Recorded | lib/db/sidebar.ts:273-325 | the language's current code is set, one entry is appended to its history when asked, and the other language and the other columns stay |
| SidebarService.UpdateRow | lib/db/sidebar.ts:289-330 | the update touches the session's row if it exists and nothing otherwise |
| SidebarService.CodeUpdated | lib/db/sidebar.ts:265-336 | a read error is rethrown with nothing written; the sessions with rows are those the fetch leaves; without an update error the call succeeds |
| SidebarService.CodeUpdatedAppendsOne | lib/db/sidebar.ts:271-330 | on a session with a row, exactly one entry is appended at the end of the history, the code is set, the other language is unchanged and every other session's row stays |
| SidebarService.CodeUpdatedInitializes | lib/db/sidebar.ts:271-292 | a session without a row gets one whose history is the single new entry (the row is created by getSidebar, lines 56-83) |
| SidebarService.CodeUpdatedNoHistory | lib/db/sidebar.ts:273-277 | without addToHistory only the current code changes |
| SidebarService.Cleared | lib/db/sidebar.ts:345-355 | each language named gets an empty history and null code; the other language and the other columns stay |
| SidebarService.ClearedCompose | lib/db/sidebar.ts:347-355 | clearing both is clearing SQL then Python in either order, and clearing twice is clearing once |
| SidebarService.HistoryCleared | lib/db/sidebar.ts:341-366 | an update error changes nothing; otherwise the session's row, if any, is cleared and no row is created |
| SidebarService.CodeHistory | lib/db/sidebar.ts:371-381 | a read error is rethrown; otherwise the fetched row's history of that language, or [] when there is none |
| SidebarService.RecordThenHistory | lib/db/sidebar.ts:265-381 | the entry just recorded is the last entry getCodeHistory returns |
| SidebarService.Stamped | lib/db/sidebar.ts:187-190 | the analysis gains analyzed_at with the current time and keeps every other key |
| SidebarService.Upserted | lib/db/sidebar.ts:218-229 | the row holds the file name and the analysis; an existing row keeps all its other columns |
| SidebarService.ContextUpdated | lib/db/sidebar.ts:183-260 | a missing session throws "session not found" with its message, a session without a file name throws, an upsert error is rethrown, and in all three cases nothing is written |
| SidebarService.ContextSaved | lib/db/sidebar.ts:218-259 | once the checks pass and the upsert succeeds, the read-back finds the stamped analysis under the session's file name, so the call succeeds |
| SidebarService.Table.constructor | lib/db/sidebar.ts:44 | the table holds the given rows |
| SidebarService.Table.GetSidebar | lib/db/sidebar.ts:49-108 | the table and the result are those of the fetch |
| SidebarService.Table.UpdateCode | lib/db/sidebar.ts:265-336 | the table and the result are those of recording code in the given language |
| SidebarService.Table.UpdateSqlCode | lib/db/sidebar.ts:265-298 | the table and the result are those of recording SQL code |
| SidebarService.Table.UpdatePythonCode | lib/db/sidebar.ts:303-336 | the table and the result are those of recording Python code |
| SidebarService.Table.ClearCodeHistory | lib/db/sidebar.ts:341-366 | the table and the result are those of the clear |
| SidebarService.Table.GetCodeHistory | lib/db/sidebar.ts:371-381 | the table and the result are those of the history read |
| SidebarService.Table.UpdateContextAnalysis | lib/db/sidebar.ts:183-260 | the table and the result are those of the context upsert |

## Left out

- **Rendering, styling, animation and browser state.** All JSX, CSS and the `window` object are left out. Toast display is reduced to the `hasWindow` flag of `Toasts.ToastManager.Show`.
- **Network, database and model I/O.** This covers `fetch`, the Supabase client, the OpenAI-compatible client and the HTTP calls of the backend API. Each result is an input of the operation that awaits it. The persistence calls of `orchestrateStream` (lib/agents/orchestrator.ts:248, 302, 330, 368) are awaited, but each failure is caught and logged, so none can stop the stream. They are not modelled.
- **The BytezClient singleton** (lib/agents/orchestrator.ts:13-34) is not modelled. The agent loop receives the model's replies as a function of the call.
- **getHistory and the chat history fetch.** History is a parameter of the orchestrator and the summariser.
- **console logging and `logAPIHealth`.** They have no effect on state.
- **Timers.**
  - The 2-second poll sleep is not modelled.
  - Toast auto-removal is not run: each finite-duration toast is recorded in the manager's `timers` list.
  - The elapsed-time field of a tool-call result is not modelled.
- **Clocks and randomness.** Toast, chat, file and history ids and timestamps are parameters. This covers `Math.random`, `Date.now` and `new Date()`.
- **Floating point.**
  - JSON numbers are integers, so non-integral statistics such as a column mean are not modelled.
  - `String(x)` of a number is its decimal integer rendering.
  - The health percentage is not modelled.
  - `uploadDate` is kept as the raw text.
- **Locale formatting.** `toLocaleDateString` is a parameter of `Recents.FormatDate`. An invalid date (NaN difference) is not modelled.
- **Case mapping.** `Text.Lower` and `Text.Upper` map ASCII letters only. JavaScript's full Unicode case mapping is not modelled.
- **String lengths and slices** count characters, not UTF-16 code units. This affects the summary previews and the chat title truncation.
- **JSON and regex engines.**
  - `JSON.parse`, `JSON.stringify`, `json.dumps` and `json.loads` are not implemented.
  - Parsing is a parameter returning a `Json` value or an error.
  - Stored JSON text is either the dump of a value or malformed text. Reading the dump gives the value back, so the round trip holds by construction.
  - The two response-parser regexes are reduced to which strategy matched and whether its text parsed.
- **JavaScript prototype-chain lookups.** The registries are maps over their own keys only. So `isValidAgentId("constructor")`, `getAgentIdentity("toString")` and `getAgentConfig("constructor")` behave as for any unknown id. In JavaScript they find inherited members of `Object.prototype`.
- **Empty key lists.** These methods require a non-empty key list, because the code dereferences `keys[currentIndex]` and masks `undefined` there and crashes with a TypeError:
  - KeyManager.KeyManager.RotateKey
  - KeyManager.KeyManager.MarkCurrentKeyAsFailed
  - KeyManager.KeyManager.RecordSuccess
- **Atomic React updates.** Each React update is one atomic step.
  - addFiles reads `files.length` from a possibly stale closure; the model reads the current list.
  - Optimistic rename and delete updates in the workspace sidebar are applied, then reverted on failure, as in the code.
  - `{...props}` spread after `onClick` on the submit button, which would replace the handler, is not modelled.
  - Image previews and object URLs of attachments are not modelled.
- **Keydown forwarding.** The textarea's Enter handler returns before forwarding `onKeyDown` when the submit guard fails (components/ai-elements/prompt-input.tsx:357). `PromptInput.KeyDown` follows the code here, so the event is forwarded in every other case but not that one.
- **Chat message extras.** The optional `thinking`, `code` and `insight` fields of a chat message (store/chatStore.ts:11-21) are not modelled. `ChatStore.Message` holds the id, the session, the type, the content and the timestamp.
- **Persist middleware** of the client stores (local-storage rehydration) is not modelled.
- **ContextService.Latest ties.** `ORDER BY created_at DESC LIMIT 1` is modelled as the last row inserted for the session. Rows with equal timestamps, whose order the database leaves open, are not distinguished.
- **Sidebar operations not modelled.** These are `updateDataDNA`, `deleteSidebar`, `upsertSidebar` and the exported `initializeSidebar` wrapper. They are single-statement writes that nothing else in the model reads. `SidebarService.ContextUpdated` treats the read-back's own error as only logged, as the code does.
- **ToolExecutor plain reads.** `getDataDNA` and `getAccumulatedInsights` return a field each and carry no contract. The fields are stated by the other ToolExecutor members.
- **Returned references.** A tool result that hands out the DNA or the insight list is a snapshot value. That a later push also changes an object returned earlier by reference is not captured.
- Orchestrator.OrchestrateStream: each agent run is an input function of the agent id and the message. All agents share one ToolExecutor (lib/agents/orchestrator.ts:240-241), so a later agent can read what an earlier one wrote; that sharing across agents is not captured at this level. Within one run, Orchestrator.RunAgent threads the executor state through every call and every retry.
- KeyManager.KeyManager.MarkCurrentKeyAsFailed and KeyManager.KeyManager.RotateKey: the toasts they show (lib/agents/key-manager.ts:144-146, 177-179, 191-193) are not modelled. The toast helpers themselves are modelled in `Toasts`.
- Summarizer.NeedsSummarization: the interval is a `nat`, so a negative interval, for which `messageCount % interval === 0` can hold, is not modelled.
- Backend.ChatStream: the errors thrown for a non-OK response and for a missing body (lib/api/backend.ts:425-434) are not modelled; the model starts from the chunks of a body that was read.
- **Summarizer error paths.** The try/catch in updateSummary guards code that cannot throw on the modelled inputs, so its catch branch is not modelled.
- **lib/agents/config.ts prompts.** The system prompt texts at lines 19-203 are opaque strings. `Config.AgentConfig` keeps each agent's model name and temperature, but no modelled operation reads them, because they only go to the model client.
