# AI analytics agent: a verified model of the NL-to-SQL core

This project models the deterministic core of an analytics assistant. The
assistant turns a natural-language question into a Trino SQL query with a
language model served by Ollama. It keeps past conversations in a ChromaDB
vector store, and it guards a schema catalogue with a time-to-live cache.
The project also proves properties of that model.

The model has five parts, one Dafny module each:

- `Ai` (`ai_service.dfy`): `AIService`.
  - The SQL generation retry machine: fence clean-up, the `:` check and its
    retry, test execution with one more retry on an engine error, and the
    memory write on success.
  - The Trino availability verdict.
  - The multi-turn analysis context: reset, merge and the completeness test.
  - The follow-up fallback.
  - The synchronous result analysis and its memory write.
- `SqlCheck` (`sql_check.dfy`): the pure string checks `validate_sql_query`
  and the code-fence clean-up.
- `Schema` (`schema_service.dfy`): `SchemaService`.
  - The TTL-guarded cache, held in two fields.
  - The catalog → schema → table enumeration. It skips the system schemas
    and tolerates failures per schema and per table.
  - The text rendering of the catalogue for prompts.
- `Memory` (`memory_service.dfy`): `MemoryService`.
  - The conversation collection and its statistics.
  - Id generation, recall of at most `min(k, count)` records, the prompt
    rendering, and the cut-off based cleanup.
- `Iam` (`iam_service.dfy`): `IAMService`.
  - The fixed role / resource / action table.
  - A user store keyed by username. Creation refuses duplicates,
    authentication and password change check the old password, and every
    read drops the password hash.
- `Errors` (`error_service.dfy`): `ErrorService`.
  - The error-type templates with their default.
  - The error response, and the HTML display with its context list.

The other modules are shared helpers:

- `Base`: `Option`, `Min`.
- `Text`: Python's `strip`, `upper`, `lower`, `in`, `startswith`,
  `endswith`, `split(sep)[0]` and `[1]`, `str(int)` and `"\n".join`.
- `Dicts`: Python dicts as insertion-ordered association lists, with
  `d[k] = v`, `.get`, `.update` and `.keys()`.
- `Json`: a JSON value (with floats as `JReal`, and `JNative` for a
  `Decimal`, `date` or `datetime` cell that plain `json.dumps` refuses),
  Python truthiness, and `json.dumps` / `json.loads` as a `Codec` supplied
  by the caller.

The outside world becomes parameters:

- The language model is an oracle `replies: nat -> string`. `replies(k)` is
  its answer to the k-th model call of one operation. Prompts are opaque.
- Whether Ollama answers is the boolean `ollamaUp`.
- The query engine is a function from a statement to `Rows`, an
  `EngineError` result (a result with an `"error"` key) or `Raised` (an
  exception).
- The schema enumeration asks the `Engine` record. Each of its statements
  answers `None` where the cursor raises.
- The vector store's similarity ranking is `ranking: Option<seq<nat>>`.
  `None` means the query raised.
- bcrypt is a `Hasher` pair of functions, with the salt as a parameter.
- Clock readings are `now`, in whole seconds.

Classes keep the state the source updates in place:

- `SchemaService`: `schemaCache` and `schemaCacheTimestamp`.
- `MemoryService`: `collection`, `memoryCount` and `lastUpdated`.
- `IAMService`: `users`, a map from username to record.
- `AIService`: `analysisContext` and the `memory` it writes to.

The loops of the source are `while` loops with invariants. Each loop is
proved equal to a specification function, and the properties are lemmas
about those functions.

## Model

| member | source | states |
|---|---|---|
| SqlCheck.ValidateIgnoresComment | app/services/ai_service.py:298 | The verdict on a query equals the verdict on its text before the first `--`. |
| SqlCheck.CommentTailIgnored | app/services/ai_service.py:298 | Appending `--` and any text to a query with no `--` (and no trailing `-`) never changes its verdict. |
| SqlCheck.ForbiddenReportedInOrder | app/services/ai_service.py:298-304 | In the text before the first `--`, the first of `:`, `;`, `/*`, `*/` present, in list order, gives `(False, "Invalid character '<c>' found in query")`. |
| SqlCheck.CommentMarkerNeverReported | app/services/ai_service.py:298-304 | The `--` entry of the forbidden list can never be the reported character. |
| SqlCheck.ValidIff | app/services/ai_service.py:295-337 | A query is valid iff: no forbidden character before `--`; the stripped, upper-cased text starts with SELECT and contains FROM; a JOIN comes with one of the four join forms; no WHERE, GROUP BY or ORDER BY has an empty tail. Valid iff the message is "Query is valid". |
| SqlCheck.CleanFenceNoOp | app/services/ai_service.py:394-399 | Clean-up leaves alone a string that has no surrounding whitespace, does not start with "```sql" and does not end with "```". |
| SqlCheck.CleanFenceNoEdgeSpace | app/services/ai_service.py:394-399 | The cleaned text never starts or ends with whitespace. |
| SqlCheck.CleanFenceIdempotent | app/services/ai_service.py:394-399 | Cleaning again a cleaned string that carries no fence changes nothing. |
| SqlCheck.FenceRemoved | app/services/ai_service.py:394-399 | "```sql" + body + "```" cleans to the stripped body. |
| Ai.CheckTrinoAvailability | app/services/ai_service.py:339-347 | Trino is up iff the probe `SELECT 1` returns a result without an `"error"` key. An exception means down. |
| Ai.CandidateFacts | app/services/ai_service.py:403-426 | A candidate that survives the `:` check contains no `:` and cost one or two model calls. |
| Ai.ValidatedFacts | app/services/ai_service.py:428-474 | The test stage: at most one more model call and one or two test executions. It stores iff the last test returned rows. The stored query is the one the last test wrapped, never the wrapper. |
| Ai.GenerationBounds | app/services/ai_service.py:349-474 | At most three model calls and two test executions, never more tests than calls. No model call at all iff Ollama or Trino is down. |
| Ai.FirstTrySuccess | app/services/ai_service.py:390-437 | A colon-free cleaned first reply whose test returns rows is returned after exactly one model call and one test, and is stored. |
| Ai.ColonRetryExhausted | app/services/ai_service.py:403-426 | When the retry still contains `:`, the fixed "unsupported characters" placeholder is returned. There is no test and no memory write. |
| Ai.ExecutionRetryUnchecked | app/services/ai_service.py:455-466 | After an engine error, the stripped retry reply is returned and stored once its test passes, `:` or not. |
| Ai.StoredIffLastTestPassed | app/services/ai_service.py:428-488 | The query is stored exactly when a test ran and the last one returned rows. The stored query is the one wrapped by that test and differs from the wrapper. No returned query equals its own test wrapper. |
| Ai.GenerationMetadataStorable | app/services/ai_service.py:476-486 | The generation metadata holds only strings, so storing it cannot raise. |
| Ai.FailureIsPlaceholder | app/services/ai_service.py:351-474 | Every exit that does not store returns a `SELECT '…' as error` or `SELECT '…' as message` string. |
| Ai.GenerationMetadataFields | app/services/ai_service.py:480-485 | The stored metadata has type "sql_generation". Its status is "valid" unless the last result had an error; its message is that error, or "Query is valid". |
| Ai.StoredAsValid | app/services/ai_service.py:476-486 | Whatever is stored always carries `validation_status` "valid" and `validation_message` "Query is valid". |
| Ai.CleanQuery | app/services/ai_service.py:394-399 | The step-by-step clean-up equals the clean-up function. |
| Ai.PickCandidate | app/services/ai_service.py:390-426 | The `:` check and its retry: succeeds iff a candidate exists and returns it with its call count. On failure two calls were made. |
| Ai.TestExecute | app/services/ai_service.py:428-474 | The test executions and the execution retry return the query, call count and tests of the test-stage specification. On success, the outcome kept is the engine's answer to the returned query's test. |
| Ai.AIService.GenerateQuery | app/services/ai_service.py:349-488 | Returns the specified query, call count and tests. On success it appends exactly one conversation record (id, response = query, question, JSON metadata, time, kind) and refreshes the statistics. On every other exit the memory is untouched. |
| Ai.AIService.constructor | app/services/ai_service.py:17-25 | The analysis context starts with the seven keys: `user_type`, `time_period` and `scope` None; `metrics`, `tables`, `columns` and `relationships` empty. |
| Ai.FollowUpQuestions | app/services/ai_service.py:109-115 | The decoded model reply, or the three fixed default questions when it does not decode. |
| Ai.FreshContextShape | app/services/ai_service.py:172-186 | The reset context keeps the seven keys in order. Every field except `user_type` is back to None or empty. |
| Ai.AIService.AnalyzeWithContext | app/services/ai_service.py:164-198 | With Ollama down, it returns the error and leaves the context alone. Otherwise the context becomes the fresh context with the stripped, lower-cased user type, and it returns "questions" with the follow-ups and that context. |
| Ai.MergeUndecodable | app/services/ai_service.py:135-140 | A reply that does not decode, or that decodes to neither an object nor a list, leaves the context unchanged. |
| Ai.MergeObject | app/services/ai_service.py:135-140 | Merging a decoded object overrides exactly the keys it carries, with their last value. Every other key keeps its value. |
| Ai.AIService.UpdateAnalysisContext | app/services/ai_service.py:117-140 | The new context is the merge of the old context with the decoded reply. |
| Ai.FreshNotComplete | app/services/ai_service.py:142-145 | A freshly reset context is never complete. |
| Ai.CompleteAfterMerge | app/services/ai_service.py:142-145 | After merging an object, the context is complete iff `time_period`, `scope` and `metrics` are each truthy where the merge leaves them. |
| Ai.ContinuedStatus | app/services/ai_service.py:214-245 | With Ollama up, the turn is "complete" iff the merged context is complete and the query does not raise. It is "questions" iff the merged context is not complete. The merged context is kept and reported. |
| Ai.AIService.ContinueAnalysis | app/services/ai_service.py:206-251 | Response and new context are those of the corrected turn. |
| Ai.AsWrittenNeverComplete | app/services/ai_service.py:225 | As written, no turn ever reports "complete". |
| Ai.CompletingTurnFails | app/services/ai_service.py:219-232 | On a turn that completes the context and whose query does not raise, the code as written answers with the `TypeError` message, while the corrected turn is "complete". |
| Ai.AIService.AnalyzeResults | app/services/ai_service.py:490-523 | With Ollama down it returns the fixed message and leaves the memory untouched. With Ollama up and results that plain `json.dumps` refuses (a `Decimal` or date cell) it raises (None) and the memory is untouched. Otherwise it returns the model's analysis and appends one record with metadata type "result_analysis", the schema context and the results. |
| Ai.AnalysisMetadataStorable | app/services/ai_service.py:502-521 | The analysis metadata can be stored iff the results are serialisable without `default=str`, which only the prompt uses. |
| Schema.SchemaService.constructor | app/services/schema_service.py:7-10 | The cache starts empty, stamped 0. |
| Schema.SchemaService.GetDatabaseSchema | app/services/schema_service.py:12-22 | Refreshes iff forced, the cache is empty, or `now − timestamp > 3600` (strict). A refresh replaces the cache wholesale by the fetch result, partial or empty, and stamps it `now`. Otherwise cache and stamp are unchanged. Returns the cache. |
| Schema.Describe | app/services/schema_service.py:60-76 | Name and type are copied. The description is the comment, or "Column {name} in table {table}" when the comment is missing or empty. |
| Schema.Columns | app/services/schema_service.py:72-76 | One column entry per DESCRIBE row, in order. |
| Schema.FetchSchema | app/services/schema_service.py:24-90 | The nested loops build exactly the specified fetch result. When `SHOW CATALOGS` or a `SHOW SCHEMAS` raises, the fetch ends with what has been built. |
| Schema.FetchTables | app/services/schema_service.py:57-78 | The table loop of one schema equals the specified table fold. It stops at the first failing DESCRIBE. |
| Schema.FetchedSchemaOk | app/services/schema_service.py:42-78 | No catalog holds `information_schema` or `sys`. Every catalog and schema entry holds at least one table. Every table entry is its described columns and statistics. |
| Schema.FailedDescribeKeepsEarlier | app/services/schema_service.py:48-82 | When DESCRIBE fails on table k of a schema, the schema's result is the result of its first k tables. |
| Schema.TablesFromKeeps | app/services/schema_service.py:48-82 | A table already in the map stays in it through a schema's enumeration. |
| Schema.TablesFromAddsAll | app/services/schema_service.py:57-78 | When every DESCRIBE of a schema succeeds, every listed table is in the map. |
| Schema.PutTableKeeps | app/services/schema_service.py:66-78 | Inserting a table adds it and keeps every table already present. |
| Schema.RenderEmptyIff | app/services/schema_service.py:111-126 | The prompt text is "" iff the map holds no table. |
| Schema.RenderSingleTable | app/services/schema_service.py:116-124 | One table renders as `Table: c.s.t (Rows: n)` (n or `unknown`), `Columns:`, one `  - name (type): description` line per column in order, and a blank line. |
| Schema.RenderLines | app/services/schema_service.py:114-124 | The nested loops append exactly the specified lines, in enumeration order. |
| Schema.SchemaService.FormatSchemaForPrompt | app/services/schema_service.py:111-126 | Reads through the cache under the same refresh rule, then returns the rendering of the cache joined by newlines. |
| Memory.ConversationIdShape | app/services/memory_service.py:61 | The id is `conv_`, the seconds, `_`, then the count before the add. |
| Memory.MemoryService.constructor | app/services/memory_service.py:12-41 | The statistics agree with the opened collection. |
| Memory.MemoryService.StoreConversation | app/services/memory_service.py:53-82 | Returns None (the re-raised `TypeError`) iff a dict metadata holds a value `json.dumps` refuses, and then stores nothing. Otherwise it appends exactly one record: metadata serialised to JSON for a dict, "" for none; kind "conversation"; the id from the count before the add. The count is re-read afterwards. |
| Memory.StoreThenRecall | app/services/memory_service.py:57-100 | With a codec whose `loads` inverts `dumps`, a stored dict record is recalled with its question, response, time and the same metadata. |
| Memory.Candidates | app/services/memory_service.py:87-91 | The records the query may return are present in the collection and of kind "conversation". There are no more than the ranking names. |
| Memory.Take | app/services/memory_service.py:89 | The first `min(k, n)` results. |
| Memory.MemoryService.GetRelevantMemories | app/services/memory_service.py:84-110 | A failed query returns []. Otherwise the first `min(n_results, memory_count)` candidates are decoded, skipping those whose metadata fails to parse. Never more than `min(n_results, memory_count)` records. |
| Memory.RecalledBound | app/services/memory_service.py:94-104 | Decoding never adds records. |
| Memory.RecalledAppend | app/services/memory_service.py:94-104 | Decoding works record by record and keeps the order of the results. |
| Memory.RecalledSingle | app/services/memory_service.py:94-104 | A result is kept exactly when its metadata is empty or parses. |
| Memory.FormattedEmptyIff | app/services/memory_service.py:112-117 | No memories render as "". Any memory makes the text start with the "Relevant past conversations" header. |
| Memory.MemoryBlocksAppend | app/services/memory_service.py:118-123 | Rendering splits at any point. The numbering of the second part continues where the first stops. |
| Memory.ContextLineIff | app/services/memory_service.py:119-123 | A memory's block is its Question, Response and Time lines alone iff its metadata is falsy. |
| Memory.FormatMemoriesForPrompt | app/services/memory_service.py:112-125 | The `+=` loop builds exactly the specified rendering, numbered from 1. |
| Memory.MemoryService.GetMemoryStats | app/services/memory_service.py:127-133 | The statistics report the record count, the last update and the directory. |
| Memory.OlderKeptMembers | app/services/memory_service.py:138-144 | Cleanup selects exactly the records stamped before the cut-off and keeps exactly the others. |
| Memory.OlderKeptPartition | app/services/memory_service.py:139-147 | Selected plus kept is the whole collection. |
| Memory.KeptHasNoOlder | app/services/memory_service.py:138-144 | After cleanup, no record is older than the cut-off. |
| Memory.KeptNoneOlder | app/services/memory_service.py:143-147 | When nothing is older than the cut-off, the collection is kept as it is. |
| Memory.SecondCleanupRemovesNothing | app/services/memory_service.py:135-147 | A second cleanup with the same cut-off removes nothing and keeps the collection. |
| Memory.MemoryService.CleanupOldMemories | app/services/memory_service.py:135-147 | Removes exactly the records stamped before `now − days·86400` and returns their number. Statistics are refreshed only when something was removed. The count drops by the number returned. |
| Iam.CheckPermission | app/services/iam_service.py:165-180 | False for an unknown resource, and false for an action the resource does not define. Otherwise granted iff the role is listed. |
| Iam.AnalystOnlyViewsAnalytics | app/services/iam_service.py:24-39 | With the fixed table, "analyst" is granted exactly ai-analytics/view. |
| Iam.AdminHoldsEveryDefinedAction | app/services/iam_service.py:24-39 | "admin" is granted exactly the actions the table defines. |
| Iam.NobodyDeletesSettings | app/services/iam_service.py:35-38 | Nobody may delete settings. |
| Iam.NewUser | app/services/iam_service.py:59-66 | A new record has the given name, hash and role, `created_at` now, `last_login` None and `is_active` true. |
| Iam.IAMService.constructor | app/services/iam_service.py:11-20 | The store opens with the stored records, each filed under its own username. |
| Iam.IAMService.CreateUser | app/services/iam_service.py:45-77 | Succeeds iff the name is new. On failure nothing changes. On success exactly that record is added. Records stay filed under their own names. |
| Iam.CreateTwice | app/services/iam_service.py:48-50 | A second account under an existing name is refused. |
| Iam.IAMService.AuthenticateUser | app/services/iam_service.py:79-124 | Succeeds iff the user exists, the password checks and the token encodes. Whenever the password checks, only `last_login` of that user changes, even if encoding then fails. On success it returns the username and stored role. A missing user or wrong password changes nothing. |
| Iam.IAMService.UpdatePassword | app/services/iam_service.py:182-217 | Succeeds iff the user exists and the old password checks. On success only that user's hash changes, to the hash of the new password. On failure the stored hash is unchanged. |
| Iam.View | app/services/iam_service.py:231 | A read copies every field but the password. |
| Iam.ViewIgnoresPassword | app/services/iam_service.py:231 | What a read returns does not depend on the stored hash. |
| Iam.IAMService.GetUser | app/services/iam_service.py:219-236 | None for an unknown user. Otherwise the record without its password. |
| Iam.IAMService.ListUsers | app/services/iam_service.py:238-252 | One password-free view per stored user, and nothing else. |
| Errors.TemplateFor | app/services/error_service.py:38-42 | A known type gets its template. Any other gets status 500, "Unknown error", "An unexpected error occurred". |
| Errors.HandleError | app/services/error_service.py:31-65 | The status is the template's. The detail is `{"error": {type, message, detail, context or {}}}`. |
| Errors.StatusCodes | app/services/error_service.py:8-29 | `validation_error` gives 400. Every other type, known or not, gives 500. |
| Errors.UnknownType | app/services/error_service.py:38-42 | An unknown type gives 500, "Unknown error", "An unexpected error occurred". |
| Errors.ContextHtmlShape | app/services/error_service.py:95-104 | An empty context renders as "". Any other renders as one `<ul>` after the Context header, closed by `</ul>`. |
| Errors.ContextItemsAppend | app/services/error_service.py:101-102 | Items render one per entry, in insertion order. |
| Errors.FormatContext | app/services/error_service.py:95-104 | The `+=` loop builds exactly the specified HTML. |
| Errors.FormatErrorForDisplay | app/services/error_service.py:80-93 | `str(detail)` unless the detail holds an `"error"` dict. In that case it is the HTML error container: the opening, the type, message, details and context lines, and the closing. |
| Errors.DisplayShowsError | app/services/error_service.py:85-92 | The display of a structured error opens the container and contains the type, message, details and context HTML. |

## Left out

- The Ollama HTTP client and `check_ollama_availability` are not modelled. Model replies and availability are inputs. The source calls the async availability check without `await` (lines 351, 492) and calls the one-parameter `query_model` with two arguments (line 390). The model follows the evident intent: a boolean and a reply string.
- Exceptions raised by a model call are left out, in `generate_query`, `analyze_with_context`, `continue_analysis` and the sync `analyze_results`.
- `app/services/trino_service.py` is not part of this model. It is an HTTP wrapper around the model endpoint. The query engine is a parameter instead.
- In `continue_analysis`, the engine call is modelled as awaitable.
- The prompt texts, and the recalled memories that only feed them, are opaque. `AIService.get_database_schema` (app/services/ai_service.py:38-74) only feeds a prompt and is left out.
- The outer `Trino service error` handler of `generate_query` (lines 472-474) is unreachable once the engine is a function: there is no code between the two `try`s that can raise.
- The stored metadata's `result.get` (line 484) is modelled on a dict-valued engine result, the only kind the engine parameter returns.
- The `print` logging calls are not modelled.
- Ai.MergedContext: `dict.update` with a list is merged pair by pair up to the first element that is not a pair, after which the exception is swallowed. A pair whose key is not a JSON string also ends the merge; Python would accept a number, bool or null key.
- Ai.AnalyzeResultsArityError is Python 3.10's wording of the `TypeError`. Other versions word it differently.
- Schema: the engine is a pure function, so "no engine call on a cache hit" is represented only by the unchanged cache.
- Schema: fractional `time.time()` is not modelled; clock readings are whole numbers.
- Schema: `log_schema_update` calls and the per-catalog and per-schema table counters are left out. They only feed the log.
- Schema.Describe: DESCRIBE rows are modelled as name, type and an optional third field. Other columns of the row are ignored.
- Schema.TableStatistics: the statistics dict (`{}` or `{"row_count": n}`) is modelled as an optional integer.
- Memory: Chroma timestamps are `str(datetime.now())` and the cleanup compares them as strings with `$lt`. The model uses seconds as integers, so string-order effects are not captured.
- Memory: the embedding and the similarity ranking are an oracle, and the `where` filter and `n_results` are applied to it. Duplicate ids are not modelled. Cleanup deletes exactly the selected records.
- Memory: failures of `count()` and `add()` are left out. In the source, a failed `count()` sets the count to 0 and the last update to None, and a failed `add()` re-raises. Other failures of the recall query are modelled only as a ranking of `None`.
- Memory.MemoryService.CleanupOldMemories: the exception path that returns 0 is left out.
- Memory.StoredMetadata: metadata arguments are limited to a dict, a string or None.
- Json: a `Decimal`, `date` or `datetime` value is given by its `str()` text and its truthiness. Its arithmetic and JSON text for floats are not modelled, since `dumps` is supplied by the caller.
- Iam: JWT encoding, the token, `verify_token` and its expiry clock are left out. Whether `jwt.encode` succeeds is the input `encodeOk`. The JWT settings it reads are absent from the settings file, so in the source it raises.
- Iam: the JSON user files, their path mapping, and file or parse exceptions are left out. The store is a map from username to record, and clock readings are whole seconds.
- Iam.IAMService.ListUsers: the record order follows the directory, which is arbitrary. The model picks any order.
- Errors.HandleError: the fallback at app/services/error_service.py:67-78 is unreachable, since building the response cannot fail once logging is left out. The error object itself only goes to the log and is not a parameter.
- Errors: context values are modelled as the text Python prints for them.
- SqlCheck: `upper()` and `lower()` are modelled on ASCII letters only. `strip()` uses Python's full whitespace set.
- Logging, the status probes, configuration loading (except the schema cache TTL, app/config/settings.py:19), HTTP routing and the admin script are not part of this model.
- Concurrency is left out. The source has no locks, and the model is single-threaded.

## Findings

| source | as written | input that shows it | evidently intended | confidence | as-written member | corrected member |
|---|---|---|---|---|---|---|
| app/services/ai_service.py:225 | `continue_analysis` calls `self.analyze_results(query_result)`. The name resolves to the later three-parameter `analyze_results(question, schema_context, results)`, so the call raises `TypeError`. The turn then answers `{"status": "error", "error": "Error in analysis: …missing 2 required positional arguments…"}`, and no turn can ever be "complete". | Any turn with Ollama up whose merged context has truthy `time_period`, `scope` and `metrics`, and whose SQL does not raise in the engine. | The result analyser is asked about `query_result`, and the turn returns status "complete" with the analysis, the SQL and the context. | not executed | Ai.ContinueAnalysisAsWritten (shown by Ai.AsWrittenNeverComplete, Ai.CompletingTurnFails) | Ai.ContinuedTurn (proved in Ai.ContinuedStatus; implemented by Ai.AIService.ContinueAnalysis) |
