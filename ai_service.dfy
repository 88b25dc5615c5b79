/**
 * `AIService` (app/services/ai_service.py): the bounded retry machine that
 * turns a question into a test-executed SQL query, the multi-turn analysis
 * context, and the result-analysis step that records its answer in memory.
 *
 * The language model is the oracle `replies`: `replies(k)` is its answer to
 * the k-th model call of one operation (0-based); prompts are opaque. The
 * query engine is the oracle `engine` from statement to outcome. Whether the
 * model endpoint answers is the input `ollamaUp`; clock readings are `now`.
 */
module Ai {
  import opened Base
  import opened Text
  import opened Dicts
  import opened Json
  import opened SqlCheck
  import opened Memory

  /** What `execute_query` does with a statement: a result without an `"error"` key, one with it, or an exception. */
  datatype ExecResult = Rows(value: Json) | EngineError(error: string) | Raised(message: string)

  const ProbeStatement: string := "SELECT 1"

  /** `check_trino_availability`: up iff the probe returns a result without `"error"`; an exception means down. */
  function CheckTrinoAvailability(engine: string -> ExecResult): (up: bool)
    ensures up <==> !engine(ProbeStatement).EngineError? && !engine(ProbeStatement).Raised?
  {
    match engine(ProbeStatement)
    case Rows(_) => true
    case EngineError(_) => false
    case Raised(_) => false
  }

  // ----- the strings generate_query returns instead of a query -----

  /** `f"SELECT '{body}' as error"`. */
  function ErrorSelect(body: string): string {
    "SELECT '" + body + "' as error"
  }

  /** `f"SELECT '{body}' as message"`. */
  function MessageSelect(body: string): string {
    "SELECT '" + body + "' as message"
  }

  const OllamaUnavailable: string := MessageSelect("Ollama service is not available")
  const TrinoUnavailable: string := ErrorSelect("Trino service is not available. Please make sure Trino is running.")
  const UnsupportedCharacters: string := ErrorSelect("Invalid query: Query contains unsupported characters")

  function InvalidGenerated(error: string): string {
    ErrorSelect("Invalid query generated: " + error)
  }

  function ExecutionFailed(message: string): string {
    ErrorSelect("Error executing query: " + message)
  }

  /** A `SELECT '…' as error` or `SELECT '…' as message` pseudo-query. */
  predicate IsPlaceholder(s: string) {
    StartsWith(s, "SELECT '") && (EndsWith(s, "' as error") || EndsWith(s, "' as message"))
  }

  lemma ErrorSelectShape(body: string)
    ensures IsPlaceholder(ErrorSelect(body))
  {
    ConcatEdges("SELECT '", body + "' as error");
    ConcatEdges("SELECT '" + body, "' as error");
  }

  lemma MessageSelectShape(body: string)
    ensures IsPlaceholder(MessageSelect(body))
  {
    ConcatEdges("SELECT '", body + "' as message");
    ConcatEdges("SELECT '" + body, "' as message");
  }

  /** The statement that test-executes a candidate with a one-row cap. */
  function TestStatement(query: string): (t: string)
    ensures |t| > |query|
  {
    "WITH test_query AS (" + query + ") SELECT * FROM test_query LIMIT 1"
  }

  /** The metadata stored with a generated query; `result` is the last test execution's outcome. */
  function GenerationMetadata(schemaContext: string, result: ExecResult): Dict<Json> {
    [("type", JStr("sql_generation")),
     ("schema_context", JStr(schemaContext)),
     ("validation_status", JStr(if !result.EngineError? then "valid" else "invalid")),
     ("validation_message", JStr(if result.EngineError? then result.error else "Query is valid"))]
  }

  /** The generation metadata holds strings only, so storing it never raises. */
  lemma GenerationMetadataStorable(schemaContext: string, result: ExecResult)
    ensures Storable(DictMetadata(GenerationMetadata(schemaContext, result)))
  {
    var fields := GenerationMetadata(schemaContext, result);
    forall i | 0 <= i < |fields|
      ensures Serializable(fields[i].1)
    {
      assert fields[i].1.JStr?;
    }
  }

  /** The metadata's status and message follow the last test: "valid" and "Query is valid" after rows. */
  lemma GenerationMetadataFields(schemaContext: string, result: ExecResult)
    ensures var meta := GenerationMetadata(schemaContext, result);
            && Get(meta, "type") == Some(JStr("sql_generation"))
            && Get(meta, "validation_status") == Some(JStr(if !result.EngineError? then "valid" else "invalid"))
            && Get(meta, "validation_message") == Some(JStr(if result.EngineError? then result.error else "Query is valid"))
  {
    var meta := GenerationMetadata(schemaContext, result);
    var status, message := meta[2..], meta[3..];
    assert Get(status, "validation_status") == Some(status[0].1);
    assert Get(message, "validation_message") == Some(message[0].1);
    assert Get(meta[1..], "validation_status") == Get(status, "validation_status");
    assert Get(meta[2..], "validation_message") == Get(message, "validation_message");
    assert Get(meta[1..], "validation_message") == Get(meta[2..], "validation_message");
  }

  // ----- the retry machine, as a specification -----

  /**
   * How one `generate_query` call ends: the string returned, the number of
   * model calls, the test statements executed in order, and whether the
   * query was written to memory.
   */
  datatype Outcome = Outcome(query: string, modelCalls: nat, tests: seq<string>, stored: bool)

  /**
   * The candidate that gets past the ':' check, with the model calls spent
   * on it: the cleaned first reply, else the stripped second reply; `None`
   * when that one has a ':' too.
   */
  function Candidate(replies: nat -> string): Option<(string, nat)> {
    var first := CleanFence(replies(0));
    if !Contains(first, ":") then Some((first, 1))
    else
      var retry := Strip(replies(1));
      if !Contains(retry, ":") then Some((retry, 2)) else None
  }

  /**
   * The test-execution stage, entered with `candidate` after `calls` model
   * calls: an engine error buys one more model call and one more test; the
   * new candidate is only stripped, not checked for ':'.
   */
  function Validated(candidate: string, calls: nat, engine: string -> ExecResult, replies: nat -> string): Outcome {
    var test := TestStatement(candidate);
    match engine(test)
    case Rows(_) => Outcome(candidate, calls, [test], true)
    case Raised(m) => Outcome(ExecutionFailed(m), calls, [test], false)
    case EngineError(_) =>
      var retry := Strip(replies(calls));
      var test2 := TestStatement(retry);
      match engine(test2)
      case Rows(_) => Outcome(retry, calls + 1, [test, test2], true)
      case Raised(m) => Outcome(ExecutionFailed(m), calls + 1, [test, test2], false)
      case EngineError(e) => Outcome(InvalidGenerated(e), calls + 1, [test, test2], false)
  }

  /** `generate_query`: the availability checks, the ':' check and its retry, then test execution. */
  function Generation(ollamaUp: bool, engine: string -> ExecResult, replies: nat -> string): Outcome {
    if !ollamaUp then Outcome(OllamaUnavailable, 0, [], false)
    else if !CheckTrinoAvailability(engine) then Outcome(TrinoUnavailable, 0, [], false)
    else
      match Candidate(replies)
      case None => Outcome(UnsupportedCharacters, 2, [], false)
      case Some(c) => Validated(c.0, c.1, engine, replies)
  }

  /** A surviving candidate has no ':' and cost one or two model calls. */
  lemma CandidateFacts(replies: nat -> string)
    ensures var c := Candidate(replies);
            c.Some? ==> !Contains(c.value.0, ":") && 1 <= c.value.1 <= 2
  {
  }

  /** The test stage makes at most one more model call and runs one or two tests, the last deciding the store. */
  lemma ValidatedFacts(candidate: string, calls: nat, engine: string -> ExecResult, replies: nat -> string)
    ensures var o := Validated(candidate, calls, engine, replies);
            && calls <= o.modelCalls <= calls + 1 && 1 <= |o.tests| <= o.modelCalls - calls + 1
            && (o.stored <==> engine(o.tests[|o.tests| - 1]).Rows?)
            && (o.stored ==> o.tests[|o.tests| - 1] == TestStatement(o.query) && o.query != o.tests[|o.tests| - 1])
  {
  }

  /** At most three model calls and two test executions; no call at all when a service is down. */
  lemma GenerationBounds(ollamaUp: bool, engine: string -> ExecResult, replies: nat -> string)
    ensures var o := Generation(ollamaUp, engine, replies);
            && o.modelCalls <= 3 && |o.tests| <= 2 && |o.tests| <= o.modelCalls
            && (o.modelCalls == 0 <==> !ollamaUp || !CheckTrinoAvailability(engine))
  {
    var c := Candidate(replies);
    CandidateFacts(replies);
    if c.Some? {
      ValidatedFacts(c.value.0, c.value.1, engine, replies);
    }
  }

  /** A clean, colon-free first candidate that test-executes is returned after exactly one model call. */
  lemma FirstTrySuccess(engine: string -> ExecResult, replies: nat -> string)
    requires CheckTrinoAvailability(engine)
    requires !Contains(CleanFence(replies(0)), ":")
    requires engine(TestStatement(CleanFence(replies(0)))).Rows?
    ensures Generation(true, engine, replies)
            == Outcome(CleanFence(replies(0)), 1, [TestStatement(CleanFence(replies(0)))], true)
  {
  }

  /** When the ':' retry still has a ':', the fixed error comes back with no test and no memory write. */
  lemma ColonRetryExhausted(engine: string -> ExecResult, replies: nat -> string)
    requires CheckTrinoAvailability(engine)
    requires Contains(CleanFence(replies(0)), ":") && Contains(Strip(replies(1)), ":")
    ensures Generation(true, engine, replies) == Outcome(UnsupportedCharacters, 2, [], false)
  {
  }

  /** The candidate of the execution retry is returned as it is, ':' or not, once its test passes. */
  lemma ExecutionRetryUnchecked(engine: string -> ExecResult, replies: nat -> string)
    requires CheckTrinoAvailability(engine)
    requires !Contains(CleanFence(replies(0)), ":")
    requires engine(TestStatement(CleanFence(replies(0)))).EngineError?
    requires engine(TestStatement(Strip(replies(1)))).Rows?
    ensures Generation(true, engine, replies).query == Strip(replies(1))
    ensures Generation(true, engine, replies).stored
  {
  }

  /**
   * The query is stored exactly when the last test execution returned rows;
   * the stored query is the one that test wrapped, and no returned query is ever its own test wrapper.
   */
  lemma StoredIffLastTestPassed(ollamaUp: bool, engine: string -> ExecResult, replies: nat -> string)
    ensures var o := Generation(ollamaUp, engine, replies);
            && (o.stored <==> o.tests != [] && engine(o.tests[|o.tests| - 1]).Rows?)
            && (o.stored ==> o.tests[|o.tests| - 1] == TestStatement(o.query) && o.query != o.tests[|o.tests| - 1])
            && o.query != TestStatement(o.query)
  {
    var c := if ollamaUp && CheckTrinoAvailability(engine) then Candidate(replies) else None;
    if c.Some? {
      GenerationTested(ollamaUp, engine, replies);
    } else {
      GenerationUntested(ollamaUp, engine, replies);
    }
    OutcomeFacts(Generation(ollamaUp, engine, replies), c, engine, replies);
  }

  /** An outcome that is either untested or the test stage's has the properties above. */
  lemma OutcomeFacts(o: Outcome, c: Option<(string, nat)>, engine: string -> ExecResult, replies: nat -> string)
    requires c.Some? ==> o == Validated(c.value.0, c.value.1, engine, replies)
    requires c.None? ==> o.tests == [] && !o.stored
    ensures o.stored <==> o.tests != [] && engine(o.tests[|o.tests| - 1]).Rows?
    ensures o.stored ==> o.tests[|o.tests| - 1] == TestStatement(o.query) && o.query != o.tests[|o.tests| - 1]
  {
    if c.Some? {
      ValidatedFacts(c.value.0, c.value.1, engine, replies);
    }
  }

  /** With both services up and a candidate through the ':' check, generation is the test stage. */
  lemma GenerationTested(ollamaUp: bool, engine: string -> ExecResult, replies: nat -> string)
    requires ollamaUp && CheckTrinoAvailability(engine) && Candidate(replies).Some?
    ensures Generation(ollamaUp, engine, replies)
            == Validated(Candidate(replies).value.0, Candidate(replies).value.1, engine, replies)
  {
  }

  /** Otherwise no test runs and nothing is stored. */
  lemma GenerationUntested(ollamaUp: bool, engine: string -> ExecResult, replies: nat -> string)
    requires !(ollamaUp && CheckTrinoAvailability(engine) && Candidate(replies).Some?)
    ensures Generation(ollamaUp, engine, replies).tests == [] && !Generation(ollamaUp, engine, replies).stored
  {
  }

  /** Every exit other than the stored query is a `SELECT '…' as error` or `as message` string. */
  lemma FailureIsPlaceholder(ollamaUp: bool, engine: string -> ExecResult, replies: nat -> string)
    ensures !Generation(ollamaUp, engine, replies).stored ==> IsPlaceholder(Generation(ollamaUp, engine, replies).query)
  {
    var o := Generation(ollamaUp, engine, replies);
    var c := Candidate(replies);
    if o.stored {
    } else if !ollamaUp {
      MessageSelectShape("Ollama service is not available");
    } else if !CheckTrinoAvailability(engine) {
      ErrorSelectShape("Trino service is not available. Please make sure Trino is running.");
    } else if c.None? {
      ErrorSelectShape("Invalid query: Query contains unsupported characters");
    } else {
      var r1 := engine(TestStatement(c.value.0));
      if r1.Raised? {
        ErrorSelectShape("Error executing query: " + r1.message);
      } else {
        var r2 := engine(TestStatement(Strip(replies(c.value.1))));
        if r2.Raised? {
          ErrorSelectShape("Error executing query: " + r2.message);
        } else {
          ErrorSelectShape("Invalid query generated: " + r2.error);
        }
      }
    }
  }

  /** What is stored alongside a generated query always says "valid" and "Query is valid". */
  lemma StoredAsValid(ollamaUp: bool, engine: string -> ExecResult, replies: nat -> string, schemaContext: string)
    requires Generation(ollamaUp, engine, replies).stored
    ensures var meta := GenerationMetadata(schemaContext, engine(TestStatement(Generation(ollamaUp, engine, replies).query)));
            && Get(meta, "validation_status") == Some(JStr("valid"))
            && Get(meta, "validation_message") == Some(JStr("Query is valid"))
  {
    var o := Generation(ollamaUp, engine, replies);
    StoredIffLastTestPassed(ollamaUp, engine, replies);
    GenerationMetadataFields(schemaContext, engine(TestStatement(o.query)));
  }

  // ----- the retry machine, step by step -----

  /** The fence clean-up of `generate_query`, one reassignment at a time. */
  method CleanQuery(raw: string) returns (query: string)
    ensures query == CleanFence(raw)
  {
    query := Strip(raw);
    if StartsWith(query, "```sql") {
      query := query[6..];
    }
    if EndsWith(query, "```") {
      query := query[..|query| - 3];
    }
    query := Strip(query);
  }

  /** The ':' check and its retry; `calls` counts the model calls made. */
  method PickCandidate(replies: nat -> string) returns (query: string, calls: nat, ok: bool)
    ensures ok <==> Candidate(replies).Some?
    ensures ok ==> Candidate(replies) == Some((query, calls))
    ensures !ok ==> calls == 2
  {
    query := CleanQuery(replies(0));
    calls := 1;
    if !Contains(query, ":") {
      return query, calls, true;
    }
    query := Strip(replies(1));
    calls := 2;
    ok := !Contains(query, ":");
  }

  /**
   * The test executions and the execution retry. `passed` is whether the
   * last test returned rows, `last` that test's outcome.
   */
  method TestExecute(candidate: string, calls0: nat, engine: string -> ExecResult, replies: nat -> string)
    returns (query: string, calls: nat, ghost tests: seq<string>, passed: bool, last: ExecResult)
    ensures Outcome(query, calls, tests, passed) == Validated(candidate, calls0, engine, replies)
    ensures passed ==> last == engine(TestStatement(query))
  {
    query, calls := candidate, calls0;
    var testQuery := TestStatement(query);
    var result := engine(testQuery);
    tests := [testQuery];
    if result.Raised? {
      return ExecutionFailed(result.message), calls, tests, false, result;
    }
    if result.EngineError? {
      query := Strip(replies(calls));
      calls := calls + 1;
      testQuery := TestStatement(query);
      result := engine(testQuery);
      tests := tests + [testQuery];
      if result.Raised? {
        return ExecutionFailed(result.message), calls, tests, false, result;
      }
      if result.EngineError? {
        return InvalidGenerated(result.error), calls, tests, false, result;
      }
    }
    passed, last := true, result;
  }

  // ----- the multi-turn analysis context -----

  /** The context `__init__` creates and `analyze_with_context` resets to. */
  const InitialContext: Dict<Json> := [
    ("user_type", JNull), ("time_period", JNull), ("scope", JNull),
    ("metrics", JArr([])), ("tables", JArr([])), ("columns", JArr([])), ("relationships", JArr([]))
  ]

  /** The questions `generate_follow_up_questions` falls back to. */
  const DefaultQuestions: seq<string> := [
    "Could you clarify the time period you're interested in?",
    "What specific metrics would you like to analyze?",
    "What is the scope of your analysis?"
  ]

  function JStrings(ss: seq<string>): seq<Json>
    decreases |ss|
  {
    if ss == [] then [] else [JStr(ss[0])] + JStrings(ss[1..])
  }

  /** `determine_user_type`: the model's answer lower-cased and stripped. */
  function UserType(reply: string): string {
    Strip(Lower(reply))
  }

  /** The reset context with `user_type` filled in. */
  function FreshContext(userType: string): Dict<Json> {
    Put(InitialContext, "user_type", JStr(userType))
  }

  /** The reset context keeps its seven keys in order; every field but `user_type` is back to None or []. */
  lemma FreshContextShape(userType: string, k: string)
    ensures Keys(FreshContext(userType)) == Keys(InitialContext)
    ensures Get(FreshContext(userType), k) == if k == "user_type" then Some(JStr(userType)) else Get(InitialContext, k)
  {
    KeysPut(InitialContext, "user_type", JStr(userType));
    GetPut(InitialContext, "user_type", JStr(userType), k);
  }

  /** `generate_follow_up_questions`: the decoded reply, or the three defaults when it does not decode. */
  function FollowUpQuestions(reply: string, codec: Codec): (q: Json)
    ensures codec.loads(reply).Some? ==> q == codec.loads(reply).value
    ensures codec.loads(reply).None? ==> q == JArr(JStrings(DefaultQuestions))
  {
    match codec.loads(reply)
    case Some(v) => v
    case None => JArr(JStrings(DefaultQuestions))
  }

  /**
   * One element of a sequence given to `dict.update`, as a key/value pair:
   * a two-element list with a string key, a two-character string, or a
   * two-key object (iterated by its keys). Anything else makes `update` raise.
   */
  function AsPair(v: Json): Option<(string, Json)> {
    match v
    case JArr(items) => if |items| == 2 && items[0].JStr? then Some((items[0].s, items[1])) else None
    case JStr(s) => if |s| == 2 then Some(([s[0]], JStr([s[1]]))) else None
    case JObj(fields) => if |fields| == 2 then Some((fields[0].0, JStr(fields[1].0))) else None
    case _ => None
  }

  /** The pairs `dict.update(items)` assigns before it meets an element that is not a pair. */
  function PairPrefix(items: seq<Json>): Dict<Json>
    decreases |items|
  {
    if items == [] || AsPair(items[0]).None? then [] else [AsPair(items[0]).value] + PairPrefix(items[1..])
  }

  /**
   * `update_analysis_context`: `self.analysis_context.update(json.loads(reply))`,
   * with every exception swallowed. An object is merged key by key; a list
   * is merged pair by pair up to its first non-pair; anything else, or a
   * reply that does not decode, leaves the context as it was.
   */
  function MergedContext(ctx: Dict<Json>, reply: string, codec: Codec): Dict<Json> {
    match codec.loads(reply)
    case Some(JObj(fields)) => Update(ctx, fields)
    case Some(JArr(items)) => Update(ctx, PairPrefix(items))
    case _ => ctx
  }

  lemma MergeUndecodable(ctx: Dict<Json>, reply: string, codec: Codec)
    requires codec.loads(reply).None? || !(codec.loads(reply).value.JObj? || codec.loads(reply).value.JArr?)
    ensures MergedContext(ctx, reply, codec) == ctx
  {
  }

  /** A decoded object overrides exactly the keys it carries. */
  lemma MergeObject(ctx: Dict<Json>, reply: string, codec: Codec, k: string)
    requires codec.loads(reply).Some? && codec.loads(reply).value.JObj?
    ensures var fields := codec.loads(reply).value.fields;
            Get(MergedContext(ctx, reply, codec), k)
            == if HasKey(fields, k) then Some(LastValue(fields, k)) else Get(ctx, k)
  {
    GetUpdate(ctx, codec.loads(reply).value.fields, k);
  }

  /** `is_context_complete`: time_period, scope and metrics all truthy (`.get` gives None for a missing key). */
  predicate Complete(ctx: Dict<Json>) {
    Truthy(Field(ctx, "time_period")) && Truthy(Field(ctx, "scope")) && Truthy(Field(ctx, "metrics"))
  }

  /** A freshly reset context is never complete. */
  lemma FreshNotComplete(userType: string)
    ensures !Complete(FreshContext(userType))
  {
    FreshContextShape(userType, "time_period");
  }

  /** The value a merge of the object `fields` leaves under `k`. */
  function MergedField(ctx: Dict<Json>, fields: Dict<Json>, k: string): Json {
    if HasKey(fields, k) then LastValue(fields, k) else Field(ctx, k)
  }

  /** After merging an object, the context is complete iff each required field is truthy where the merge leaves it. */
  lemma CompleteAfterMerge(ctx: Dict<Json>, reply: string, codec: Codec)
    requires codec.loads(reply).Some? && codec.loads(reply).value.JObj?
    ensures var fields := codec.loads(reply).value.fields;
            Complete(MergedContext(ctx, reply, codec))
            <==> Truthy(MergedField(ctx, fields, "time_period")) && Truthy(MergedField(ctx, fields, "scope"))
                 && Truthy(MergedField(ctx, fields, "metrics"))
  {
    MergeObject(ctx, reply, codec, "time_period");
    MergeObject(ctx, reply, codec, "scope");
    MergeObject(ctx, reply, codec, "metrics");
  }

  /** The dict `analyze_with_context` and `continue_analysis` return. */
  datatype Response =
    | Failed(error: string)
    | Questions(questions: Json, context: Dict<Json>)
    | Finished(analysis: string, sqlQuery: string, context: Dict<Json>)

  /** The `"status"` entry of a response. */
  function Status(r: Response): string {
    match r
    case Failed(_) => "error"
    case Questions(_, _) => "questions"
    case Finished(_, _, _) => "complete"
  }

  const OllamaMissing: string := "Ollama service is not available"

  /** `f"Error in analysis: {e}"`. */
  function AnalysisError(message: string): string {
    "Error in analysis: " + message
  }

  /** The `TypeError` text of a one-argument call to the three-parameter `analyze_results` (Python 3.10 wording). */
  const AnalyzeResultsArityError: string :=
    "AIService.analyze_results() missing 2 required positional arguments: 'schema_context' and 'results'"

  /** The response of one `continue_analysis` turn and the context it leaves. */
  datatype Turn = Turn(response: Response, context: Dict<Json>)

  /**
   * `continue_analysis` as written: once the context is complete it runs
   * the model's SQL and then calls `analyze_results(query_result)`, which
   * resolves to the three-parameter definition and raises `TypeError`.
   */
  function ContinueAnalysisAsWritten(ctx: Dict<Json>, ollamaUp: bool, engine: string -> ExecResult,
                                     replies: nat -> string, codec: Codec): Turn {
    if !ollamaUp then Turn(Failed(OllamaMissing), ctx)
    else
      var merged := MergedContext(ctx, replies(0), codec);
      if Complete(merged) then
        match engine(replies(1))
        case Raised(m) => Turn(Failed(AnalysisError(m)), merged)
        case _ => Turn(Failed(AnalysisError(AnalyzeResultsArityError)), merged)
      else Turn(Questions(FollowUpQuestions(replies(1), codec), merged), merged)
  }

  /** As written, no turn ever reports "complete". */
  lemma AsWrittenNeverComplete(ctx: Dict<Json>, ollamaUp: bool, engine: string -> ExecResult,
                               replies: nat -> string, codec: Codec)
    ensures Status(ContinueAnalysisAsWritten(ctx, ollamaUp, engine, replies, codec).response) != "complete"
  {
  }

  /**
   * `continue_analysis` as intended: the one-argument analyzer is asked
   * about the results and its answer (the third model call) is returned.
   */
  function ContinuedTurn(ctx: Dict<Json>, ollamaUp: bool, engine: string -> ExecResult,
                         replies: nat -> string, codec: Codec): Turn {
    if !ollamaUp then Turn(Failed(OllamaMissing), ctx)
    else
      var merged := MergedContext(ctx, replies(0), codec);
      if Complete(merged) then
        match engine(replies(1))
        case Raised(m) => Turn(Failed(AnalysisError(m)), merged)
        case _ => Turn(Finished(replies(2), replies(1), merged), merged)
      else Turn(Questions(FollowUpQuestions(replies(1), codec), merged), merged)
  }

  /**
   * With the model up, a turn is "complete" iff the merged context is
   * complete and the query runs, and "questions" iff it is not complete;
   * the context left is the merged one and is the one reported.
   */
  lemma ContinuedStatus(ctx: Dict<Json>, engine: string -> ExecResult, replies: nat -> string, codec: Codec)
    ensures var t := ContinuedTurn(ctx, true, engine, replies, codec);
            var merged := MergedContext(ctx, replies(0), codec);
            && t.context == merged
            && (Status(t.response) == "complete" <==> Complete(merged) && !engine(replies(1)).Raised?)
            && (Status(t.response) == "questions" <==> !Complete(merged))
            && (!t.response.Failed? ==> t.response.context == merged)
  {
  }

  /** A turn that completes the context shows the discrepancy: error as written, "complete" as intended. */
  lemma CompletingTurnFails(ctx: Dict<Json>, engine: string -> ExecResult, replies: nat -> string, codec: Codec)
    requires Complete(MergedContext(ctx, replies(0), codec)) && !engine(replies(1)).Raised?
    ensures ContinueAnalysisAsWritten(ctx, true, engine, replies, codec).response
            == Failed(AnalysisError(AnalyzeResultsArityError))
    ensures ContinuedTurn(ctx, true, engine, replies, codec).response.Finished?
  {
  }

  const AnalysisUnavailable: string := "Ollama service is not available. Please make sure Ollama is running and try again."

  /** The metadata stored with an analysis. */
  function AnalysisMetadata(schemaContext: string, results: Json): Dict<Json> {
    [("type", JStr("result_analysis")), ("schema_context", JStr(schemaContext)), ("results", results)]
  }

  /** The analysis metadata can be stored exactly when the results can be serialised. */
  lemma AnalysisMetadataStorable(schemaContext: string, results: Json)
    ensures Storable(DictMetadata(AnalysisMetadata(schemaContext, results))) <==> Serializable(results)
  {
    var fields := AnalysisMetadata(schemaContext, results);
    assert fields[2].1 == results;
    if Serializable(results) {
      forall i | 0 <= i < |fields|
        ensures Serializable(fields[i].1)
      {
      }
    }
  }

  /** The number of memories recalled into a prompt (`n_results` defaults to 3). */
  const RecallCount: nat := 3

  class AIService {
    const memory: MemoryService
    var analysisContext: Dict<Json>

    constructor(memory: MemoryService)
      ensures this.memory == memory && analysisContext == InitialContext
    {
      this.memory := memory;
      analysisContext := InitialContext;
    }

    /**
     * `generate_query(question, schema_context)`. `ranking` is the memory
     * collection's answer to the recall query; the recalled memories only
     * feed the opaque prompt. The ghost results count the model calls and
     * list the test statements run.
     */
    method GenerateQuery(question: string, schemaContext: string, ollamaUp: bool, engine: string -> ExecResult,
                         replies: nat -> string, ranking: Option<seq<nat>>, now: nat, codec: Codec)
      returns (query: string, ghost modelCalls: nat, ghost tests: seq<string>)
      modifies memory
      ensures var o := Generation(ollamaUp, engine, replies);
              query == o.query && modelCalls == o.modelCalls && tests == o.tests
      ensures Generation(ollamaUp, engine, replies).stored ==>
                && memory.collection == old(memory.collection)
                     + [Entry(ConversationId(now, old(memory.memoryCount)), query, question,
                              StoredMetadata(DictMetadata(GenerationMetadata(schemaContext, engine(TestStatement(query)))), codec),
                              now, ConversationKind)]
                && memory.memoryCount == |memory.collection| && memory.lastUpdated == Some(now)
      ensures !Generation(ollamaUp, engine, replies).stored ==>
                && memory.collection == old(memory.collection) && memory.memoryCount == old(memory.memoryCount)
                && memory.lastUpdated == old(memory.lastUpdated)
    {
      if !ollamaUp {
        return OllamaUnavailable, 0, [];
      }
      if !CheckTrinoAvailability(engine) {
        return TrinoUnavailable, 0, [];
      }
      var memories := memory.GetRelevantMemories(question, RecallCount, ranking, codec);
      var memoryContext := FormatMemoriesForPrompt(memories, codec);
      var candidate, calls, ok := PickCandidate(replies);
      if !ok {
        return UnsupportedCharacters, calls, [];
      }
      var passed, result;
      query, modelCalls, tests, passed, result := TestExecute(candidate, calls, engine, replies);
      if passed {
        GenerationMetadataStorable(schemaContext, result);
        var _ := memory.StoreConversation(question, query, DictMetadata(GenerationMetadata(schemaContext, result)), now, codec);
      }
    }

    /** `update_analysis_context(user_response)`, the model's reply being `reply`. */
    method UpdateAnalysisContext(reply: string, codec: Codec)
      modifies this
      ensures analysisContext == MergedContext(old(analysisContext), reply, codec)
    {
      var updated := codec.loads(reply);
      if updated.Some? && updated.value.JObj? {
        analysisContext := Update(analysisContext, updated.value.fields);
      } else if updated.Some? && updated.value.JArr? {
        analysisContext := Update(analysisContext, PairPrefix(updated.value.items));
      }
    }

    /**
     * `analyze_with_context(user_input)`: `replies(0)` answers the user-type
     * prompt, `replies(1)` the follow-up prompt.
     */
    method AnalyzeWithContext(userInput: string, ollamaUp: bool, replies: nat -> string, codec: Codec)
      returns (r: Response)
      modifies this
      ensures !ollamaUp ==> r == Failed(OllamaMissing) && analysisContext == old(analysisContext)
      ensures ollamaUp ==>
                && analysisContext == FreshContext(UserType(replies(0)))
                && r == Questions(FollowUpQuestions(replies(1), codec), analysisContext)
    {
      if !ollamaUp {
        return Failed(OllamaMissing);
      }
      analysisContext := InitialContext;
      var userType := UserType(replies(0));
      analysisContext := Put(analysisContext, "user_type", JStr(userType));
      var questions := FollowUpQuestions(replies(1), codec);
      r := Questions(questions, analysisContext);
    }

    /**
     * `continue_analysis(user_response)` as intended: `replies(0)` answers
     * the merge prompt, `replies(1)` the SQL or the follow-up prompt,
     * `replies(2)` the analysis prompt.
     */
    method ContinueAnalysis(userResponse: string, ollamaUp: bool, engine: string -> ExecResult,
                            replies: nat -> string, codec: Codec)
      returns (r: Response)
      modifies this
      ensures Turn(r, analysisContext) == ContinuedTurn(old(analysisContext), ollamaUp, engine, replies, codec)
    {
      if !ollamaUp {
        return Failed(OllamaMissing);
      }
      UpdateAnalysisContext(replies(0), codec);
      if Complete(analysisContext) {
        var sqlQuery := replies(1);
        var queryResult := engine(sqlQuery);
        if queryResult.Raised? {
          return Failed(AnalysisError(queryResult.message));
        }
        var analysis := replies(2);
        r := Finished(analysis, sqlQuery, analysisContext);
      } else {
        var questions := FollowUpQuestions(replies(1), codec);
        r := Questions(questions, analysisContext);
      }
    }

    /**
     * The synchronous `analyze_results(question, schema_context, results)`;
     * `reply` is the model's analysis. `None` is the `TypeError` that storing
     * raises when the results hold a native value: the prompt serialises
     * them with `default=str`, the stored metadata without it.
     */
    method AnalyzeResults(question: string, schemaContext: string, results: Json, ollamaUp: bool, reply: string,
                          ranking: Option<seq<nat>>, now: nat, codec: Codec)
      returns (analysis: Option<string>)
      modifies memory
      ensures analysis.None? <==> ollamaUp && !Serializable(results)
      ensures (!ollamaUp || !Serializable(results)) ==>
                && memory.collection == old(memory.collection) && memory.memoryCount == old(memory.memoryCount)
                && memory.lastUpdated == old(memory.lastUpdated)
      ensures !ollamaUp ==> analysis == Some(AnalysisUnavailable)
      ensures ollamaUp && Serializable(results) ==>
                && analysis == Some(reply)
                && memory.collection == old(memory.collection)
                     + [Entry(ConversationId(now, old(memory.memoryCount)), reply, question,
                              StoredMetadata(DictMetadata(AnalysisMetadata(schemaContext, results)), codec),
                              now, ConversationKind)]
                && memory.memoryCount == |memory.collection| && memory.lastUpdated == Some(now)
    {
      if !ollamaUp {
        return Some(AnalysisUnavailable);
      }
      var memories := memory.GetRelevantMemories(question, RecallCount, ranking, codec);
      var memoryContext := FormatMemoriesForPrompt(memories, codec);
      AnalysisMetadataStorable(schemaContext, results);
      var stored := memory.StoreConversation(question, reply, DictMetadata(AnalysisMetadata(schemaContext, results)), now, codec);
      if stored.None? {
        return None;
      }
      analysis := Some(reply);
    }
  }
}
