/** The value forms of activities, resource ledgers and child results: what one trip there and back
    normalises, and that a second trip changes nothing. */
module AsyncCodec {
  import opened Values
  import opened AsyncRuns

  // ---------------------------------------------------------------- activities

  datatype Activity = Activity(
    phase: string, currentTarget: string, currentToolName: string, currentIteration: int, interruptible: bool,
    stallReason: string, lastHeartbeatAtMs: int, lastActivityAtMs: int)

  const NO_ACTIVITY := Activity("queued", "", "", -1, true, "", 0, 0)

  function ActivityToValue(a: Activity): Value {
    Obj(map["phase" := Str(a.phase), "currentTarget" := Str(a.currentTarget),
            "currentToolName" := Str(a.currentToolName),
            "currentIteration" := Int(if a.currentIteration < 0 then 0 else a.currentIteration),
            "interruptible" := Bool(a.interruptible), "stallReason" := Str(a.stallReason),
            "lastHeartbeatAtMs" := Int(a.lastHeartbeatAtMs), "lastActivityAtMs" := Int(a.lastActivityAtMs)])
  }

  function ActivityFromValue(v: Value): Activity {
    if !v.Obj? then NO_ACTIVITY
    else
      Activity(v.At("phase").AsString("queued"), v.At("currentTarget").AsString(""),
               v.At("currentToolName").AsString(""), v.At("currentIteration").AsInteger(-1),
               if v.Contains("interruptible") then v.At("interruptible").AsBool(false) else true,
               v.At("stallReason").AsString(""), v.At("lastHeartbeatAtMs").AsInteger(0),
               v.At("lastActivityAtMs").AsInteger(0))
  }

  /** An iteration that is not known yet comes back as the first one; all else is kept. */
  lemma ActivityRoundTrip(a: Activity)
    ensures var once := ActivityFromValue(ActivityToValue(a));
            && once == a.(currentIteration := if a.currentIteration < 0 then 0 else a.currentIteration)
            && ActivityFromValue(ActivityToValue(once)) == once
            && (once == a <==> a.currentIteration >= 0)
  {
    ActivityFields(a);
    ActivityFields(ActivityFromValue(ActivityToValue(a)));
  }

  /** Without an activity a run is queued, can be interrupted and has no iteration. */
  lemma NoActivity(v: Value)
    requires !v.Obj? || v.fields == map[]
    ensures ActivityFromValue(v) == Activity("queued", "", "", -1, true, "", 0, 0)
  {
  }

  lemma ActivityFields(a: Activity)
    ensures ActivityFromValue(ActivityToValue(a))
            == a.(currentIteration := if a.currentIteration < 0 then 0 else a.currentIteration)
  {
  }

  // ---------------------------------------------------------------- ledgers

  datatype Tokens = Tokens(
    input: int, output: int, total: int, inputSource: string, outputSource: string, totalSource: string,
    quality: string, reasoning: int, cachedInput: int, cachedInputSource: string, reasoningSource: string,
    provider: string)

  datatype Ledger = Ledger(
    tokens: Tokens, iterationCount: int, toolCallCount: int, toolSuccessCount: int, toolErrorCount: int,
    childRunCount: int, details: Value)

  function TokensToValue(t: Tokens): Value {
    Obj(map["inputTokens" := Int(t.input), "outputTokens" := Int(t.output), "totalTokens" := Int(t.total),
            "inputTokensSource" := Str(t.inputSource), "outputTokensSource" := Str(t.outputSource),
            "totalTokensSource" := Str(t.totalSource), "quality" := Str(t.quality),
            "reasoningTokens" := Int(t.reasoning), "cachedInputTokens" := Int(t.cachedInput),
            "cachedInputTokensSource" := Str(t.cachedInputSource), "reasoningSource" := Str(t.reasoningSource),
            "provider" := Str(t.provider)])
  }

  function TokensFromValue(v: Value): Tokens {
    Tokens(v.At("inputTokens").AsInteger(0), v.At("outputTokens").AsInteger(0), v.At("totalTokens").AsInteger(0),
           v.At("inputTokensSource").AsString(""), v.At("outputTokensSource").AsString(""),
           v.At("totalTokensSource").AsString(""), v.At("quality").AsString(""),
           v.At("reasoningTokens").AsInteger(0), v.At("cachedInputTokens").AsInteger(0),
           v.At("cachedInputTokensSource").AsString(""), v.At("reasoningSource").AsString(""),
           v.At("provider").AsString(""))
  }

  lemma TokenCounts(t: Tokens)
    ensures var v := TokensFromValue(TokensToValue(t));
            && v.input == t.input && v.output == t.output && v.total == t.total && v.reasoning == t.reasoning
            && v.cachedInput == t.cachedInput
  {
  }

  lemma TokenSources(t: Tokens)
    ensures var v := TokensFromValue(TokensToValue(t));
            && v.inputSource == t.inputSource && v.outputSource == t.outputSource && v.totalSource == t.totalSource
            && v.cachedInputSource == t.cachedInputSource
  {
  }

  lemma TokenTexts(t: Tokens)
    ensures var v := TokensFromValue(TokensToValue(t));
            && v.quality == t.quality && v.reasoningSource == t.reasoningSource && v.provider == t.provider
  {
  }

  lemma TokensRoundTrip(t: Tokens)
    ensures TokensFromValue(TokensToValue(t)) == t
  {
    TokenCounts(t);
    TokenSources(t);
    TokenTexts(t);
  }

  /** The lists that a ledger keeps in its details and shows beside its counts. */
  const LISTS := ["filesRead", "filesWritten", "artifacts", "networkRequests", "approvalRequests", "childRuns"]

  function ListOf(details: Value, key: string): Value {
    if details.At(key).Arr? then details.At(key) else Arr([])
  }

  function LedgerToValue(l: Ledger): Value {
    Obj(map["tokenUsage" := TokensToValue(l.tokens), "toolCalls" := Int(l.toolCallCount),
            LISTS[0] := ListOf(l.details, LISTS[0]), LISTS[1] := ListOf(l.details, LISTS[1]),
            LISTS[2] := ListOf(l.details, LISTS[2]), LISTS[3] := ListOf(l.details, LISTS[3]),
            LISTS[4] := ListOf(l.details, LISTS[4]), LISTS[5] := ListOf(l.details, LISTS[5]),
            "iterationCount" := Int(l.iterationCount), "toolSuccessCount" := Int(l.toolSuccessCount),
            "toolErrorCount" := Int(l.toolErrorCount), "childRunCount" := Int(l.childRunCount),
            "details" := l.details])
  }

  const NO_LEDGER := Ledger(Tokens(0, 0, 0, "", "", "", "", 0, 0, "", "", ""), 0, 0, 0, 0, 0, Obj(map[]))

  /** Copies the lists from `v` into the details. */
  function WithLists(details: Value, v: Value, keys: seq<string>): Value
    decreases |keys|
  {
    if keys == [] then details
    else WithLists(if v.At(keys[0]).Arr? then details.With(keys[0], v.At(keys[0])) else details, v, keys[1..])
  }

  function LedgerFromValue(v: Value): Ledger {
    if !v.Obj? then NO_LEDGER
    else
      var tokens := if v.At("tokenUsage").Obj? then v.At("tokenUsage") else v;
      Ledger(TokensFromValue(tokens), v.At("iterationCount").AsInteger(0),
             v.At("toolCalls").AsInteger(v.At("toolCallCount").AsInteger(0)),
             v.At("toolSuccessCount").AsInteger(0), v.At("toolErrorCount").AsInteger(0),
             v.At("childRunCount").AsInteger(|v.At("childRuns").AsArray()|),
             WithLists(v.At("details").ObjectOrEmpty(), v, LISTS))
  }

  /** What a trip makes of the details: an object with all six lists. */
  ghost predicate Normalises(details: Value, normal: Value) {
    && normal.Obj?
    && (forall key | key in LISTS :: normal.At(key) == ListOf(details, key))
    && (forall key | key !in LISTS :: normal.At(key) == details.ObjectOrEmpty().At(key)
                                      && normal.Contains(key) == details.Contains(key))
  }

  lemma LedgerCounts(l: Ledger)
    ensures var v := LedgerToValue(l);
            && v.At("toolCalls") == Int(l.toolCallCount) && v.At("iterationCount") == Int(l.iterationCount)
            && v.At("toolSuccessCount") == Int(l.toolSuccessCount) && v.At("toolErrorCount") == Int(l.toolErrorCount)
            && v.At("childRunCount") == Int(l.childRunCount)
  {
  }

  lemma LedgerRest(l: Ledger)
    ensures LedgerToValue(l).At("tokenUsage") == TokensToValue(l.tokens)
    ensures LedgerToValue(l).At("details") == l.details
  {
  }

  lemma LedgerFirstLists(l: Ledger)
    ensures forall i | 0 <= i < 2 :: LedgerToValue(l).At(LISTS[i]) == ListOf(l.details, LISTS[i])
  {
  }

  lemma LedgerMiddleLists(l: Ledger)
    ensures forall i | 2 <= i < 4 :: LedgerToValue(l).At(LISTS[i]) == ListOf(l.details, LISTS[i])
  {
  }

  lemma LedgerLastLists(l: Ledger)
    ensures forall i | 4 <= i < 6 :: LedgerToValue(l).At(LISTS[i]) == ListOf(l.details, LISTS[i])
  {
  }

  lemma {:induction false} WithListsAt(details: Value, v: Value, keys: seq<string>, key: string)
    requires details.Obj?
    ensures var merged := WithLists(details, v, keys);
            && merged.Obj?
            && merged.At(key) == (if key in keys && v.At(key).Arr? then v.At(key) else details.At(key))
            && merged.Contains(key) == (details.Contains(key) || (key in keys && v.At(key).Arr?))
    decreases |keys|
  {
    if keys != [] {
      var first := if v.At(keys[0]).Arr? then details.With(keys[0], v.At(keys[0])) else details;
      WithListsAt(first, v, keys[1..], key);
    }
  }

  lemma DetailsNormalised(l: Ledger)
    ensures Normalises(l.details, LedgerFromValue(LedgerToValue(l)).details)
  {
    var v := LedgerToValue(l);
    LedgerRest(l);
    LedgerFirstLists(l);
    LedgerMiddleLists(l);
    LedgerLastLists(l);
    WithListsAt(l.details.ObjectOrEmpty(), v, LISTS, "");
    forall key: string
      ensures var normal := WithLists(l.details.ObjectOrEmpty(), v, LISTS);
              if key in LISTS then normal.At(key) == ListOf(l.details, key)
              else
                && normal.At(key) == l.details.ObjectOrEmpty().At(key)
                && normal.Contains(key) == l.details.Contains(key)
    {
      WithListsAt(l.details.ObjectOrEmpty(), v, LISTS, key);
    }
  }

  lemma LedgerFrom(v: Value, l: Ledger)
    requires v.Obj? && v.At("tokenUsage") == TokensToValue(l.tokens) && v.At("toolCalls") == Int(l.toolCallCount)
    requires v.At("iterationCount") == Int(l.iterationCount) && v.At("toolSuccessCount") == Int(l.toolSuccessCount)
    requires v.At("toolErrorCount") == Int(l.toolErrorCount) && v.At("childRunCount") == Int(l.childRunCount)
    ensures LedgerFromValue(v) == l.(details := LedgerFromValue(v).details)
  {
    TokensRoundTrip(l.tokens);
  }

  /** A ledger of the older form has its token figures beside the counts, and may count tool calls under
      another name or child runs only by listing them. */
  lemma OlderLedger(v: Value)
    requires v.Obj? && !v.At("tokenUsage").Obj?
    ensures LedgerFromValue(v).tokens == TokensFromValue(v)
    ensures !v.At("toolCalls").Num? ==> LedgerFromValue(v).toolCallCount == v.At("toolCallCount").AsInteger(0)
    ensures !v.At("childRunCount").Num? ==>
              LedgerFromValue(v).childRunCount == if v.At("childRuns").Arr? then |v.At("childRuns").items| else 0
  {
  }

  lemma LedgerNumbers(l: Ledger)
    ensures LedgerFromValue(LedgerToValue(l)) == l.(details := LedgerFromValue(LedgerToValue(l)).details)
  {
    LedgerCounts(l);
    LedgerRest(l);
    LedgerFrom(LedgerToValue(l), l);
  }

  /** Details that are normal already do not change any more. */
  lemma NormalIsFixed(details: Value, normal: Value, again: Value)
    requires Normalises(details, normal) && Normalises(normal, again)
    ensures again == normal
  {
    forall key: string ensures (key in again.fields <==> key in normal.fields) && again.At(key) == normal.At(key) {
      assert key in again.fields <==> again.Contains(key);
      assert key in normal.fields <==> normal.Contains(key);
      if key in LISTS {
        assert normal.At(key) == ListOf(details, key) && again.At(key) == ListOf(normal, key);
      }
    }
    assert again.fields.Keys == normal.fields.Keys;
    forall key | key in again.fields ensures again.fields[key] == normal.fields[key] {
      assert again.At(key) == normal.At(key);
    }
  }

  /** A trip keeps all counts and token figures; the details become an object that has the six lists, and
      keep whatever else they had. A second trip changes nothing. */
  lemma LedgerRoundTrip(l: Ledger) returns (once: Ledger)
    ensures once == LedgerFromValue(LedgerToValue(l))
    ensures once == l.(details := once.details) && Normalises(l.details, once.details)
    ensures LedgerFromValue(LedgerToValue(once)) == once
  {
    once := LedgerFromValue(LedgerToValue(l));
    LedgerNumbers(l);
    DetailsNormalised(l);
    LedgerNumbers(once);
    DetailsNormalised(once);
    NormalIsFixed(l.details, once.details, LedgerFromValue(LedgerToValue(once)).details);
  }

  // ---------------------------------------------------------------- child results

  datatype Result = Result(
    schemaVersion: int, summary: string, outputText: string, evidence: Value, ledger: Ledger,
    modifiedResources: Value, openQuestions: seq<string>, nextActions: seq<string>,
    runId: string, kind: string, status: Status, rootRunId: string, parentRunId: string, depth: int, role: string,
    relation: string, toolCallId: string, text: string, output: Value, error: string, metadata: Value)

  function StatusToString(s: Status): string {
    match s
    case Queued => "queued"
    case Running => "running"
    case Waiting => "waiting"
    case Completed => "completed"
    case Failed => "failed"
    case Cancelled => "cancelled"
  }

  function StatusFromString(s: string): Status {
    if s == "running" then Running
    else if s == "waiting" then Waiting
    else if s == "completed" then Completed
    else if s == "failed" then Failed
    else if s == "cancelled" then Cancelled
    else Queued
  }

  lemma StatusRoundTrip(s: Status)
    ensures StatusFromString(StatusToString(s)) == s
  {
  }

  /** Six names are statuses, and every other text means queued. */
  lemma StatusNames(text: string)
    ensures StatusFromString(text)
            == match text
               case "running" => Running
               case "waiting" => Waiting
               case "completed" => Completed
               case "failed" => Failed
               case "cancelled" => Cancelled
               case _ => Queued
    ensures StatusToString(Queued) == "queued"
  {
  }

  function ArrayOrEmpty(v: Value): Value {
    if v.Arr? then v else Arr([])
  }

  function ResultToValue(r: Result): Value {
    Obj(map["schemaVersion" := Int(r.schemaVersion), "summary" := Str(r.summary), "outputText" := Str(r.outputText),
            "evidence" := r.evidence, "resourceLedger" := LedgerToValue(r.ledger),
            "modifiedResources" := r.modifiedResources, "openQuestions" := StringsToValue(r.openQuestions),
            "nextActions" := StringsToValue(r.nextActions), "runId" := Str(r.runId), "kind" := Str(r.kind),
            "status" := Str(StatusToString(r.status)), "rootRunId" := Str(r.rootRunId),
            "parentRunId" := Str(r.parentRunId), "depth" := Int(r.depth), "role" := Str(r.role),
            "parentChildRelation" := Str(r.relation), "spawnedByToolCallId" := Str(r.toolCallId),
            "text" := Str(r.text), "output" := r.output, "error" := Str(r.error), "metadata" := r.metadata])
  }

  const NO_RESULT := Result(1, "", "", Arr([]), NO_LEDGER, Arr([]), [], [], "", KIND_AGENT, Queued, "", "", 0, "leaf",
                            "", "", "", Null, "", Obj(map[]))

  function ResultFromValue(v: Value): Result {
    if !v.Obj? then NO_RESULT
    else
      var text := v.At("text").AsString("");
      Result(v.At("schemaVersion").AsInteger(1), v.At("summary").AsString(text), v.At("outputText").AsString(text),
             ArrayOrEmpty(v.At("evidence")), LedgerFromValue(v.At("resourceLedger")),
             ArrayOrEmpty(v.At("modifiedResources")), StringsFromValue(v.At("openQuestions")),
             StringsFromValue(v.At("nextActions")), v.At("runId").AsString(""), v.At("kind").AsString(KIND_AGENT),
             StatusFromString(v.At("status").AsString("")), v.At("rootRunId").AsString(""),
             v.At("parentRunId").AsString(""), v.At("depth").AsInteger(0), v.At("role").AsString("leaf"),
             v.At("parentChildRelation").AsString(""), v.At("spawnedByToolCallId").AsString(""), text,
             v.At("output"), v.At("error").AsString(""), v.At("metadata").ObjectOrEmpty())
  }

  /** A result that has only a text: it is its summary and its output, and the rest are defaults. */
  lemma TextOnly(text: string)
    ensures var r := ResultFromValue(Obj(map["text" := Str(text)]));
            && r.schemaVersion == 1 && r.summary == text && r.outputText == text && r.text == text
            && r.kind == "agent.run" && r.role == "leaf" && r.status == Queued && r.depth == 0
            && r.evidence == Arr([]) && r.modifiedResources == Arr([]) && r.openQuestions == r.nextActions == []
            && r.metadata == Obj(map[]) && r.output == Null && r.error == ""
  {
  }

  lemma ResultTexts(r: Result)
    ensures var v := ResultToValue(r);
            && v.At("schemaVersion") == Int(r.schemaVersion) && v.At("summary") == Str(r.summary)
            && v.At("outputText") == Str(r.outputText)
  {
  }

  lemma ResultReport(r: Result)
    ensures var v := ResultToValue(r);
            && v.At("evidence") == r.evidence && v.At("resourceLedger") == LedgerToValue(r.ledger)
            && v.At("modifiedResources") == r.modifiedResources
  {
  }

  lemma ResultLists(r: Result)
    ensures var v := ResultToValue(r);
            && v.At("openQuestions") == StringsToValue(r.openQuestions)
            && v.At("nextActions") == StringsToValue(r.nextActions)
            && v.At("runId") == Str(r.runId) && v.At("kind") == Str(r.kind)
  {
  }

  lemma ResultTopology(r: Result)
    ensures var v := ResultToValue(r);
            && v.At("status") == Str(StatusToString(r.status)) && v.At("rootRunId") == Str(r.rootRunId)
            && v.At("parentRunId") == Str(r.parentRunId) && v.At("depth") == Int(r.depth) && v.At("role") == Str(r.role)
  {
  }

  lemma ResultTail(r: Result)
    ensures var v := ResultToValue(r);
            && v.At("parentChildRelation") == Str(r.relation) && v.At("spawnedByToolCallId") == Str(r.toolCallId)
            && v.At("text") == Str(r.text) && v.At("output") == r.output && v.At("error") == Str(r.error)
            && v.At("metadata") == r.metadata
  {
  }

  /** What decoding makes of the fields. */
  lemma ResultDecoded(r: Result, v: Value)
    requires v.Obj? && v.At("schemaVersion") == Int(r.schemaVersion)
    requires v.At("summary") == Str(r.summary) && v.At("outputText") == Str(r.outputText)
    requires v.At("evidence") == r.evidence && v.At("resourceLedger") == LedgerToValue(r.ledger)
    requires v.At("modifiedResources") == r.modifiedResources
    requires v.At("openQuestions") == StringsToValue(r.openQuestions)
    requires v.At("nextActions") == StringsToValue(r.nextActions)
    requires v.At("runId") == Str(r.runId) && v.At("kind") == Str(r.kind)
    requires v.At("status") == Str(StatusToString(r.status)) && v.At("rootRunId") == Str(r.rootRunId)
    requires v.At("parentRunId") == Str(r.parentRunId) && v.At("depth") == Int(r.depth) && v.At("role") == Str(r.role)
    requires v.At("parentChildRelation") == Str(r.relation) && v.At("spawnedByToolCallId") == Str(r.toolCallId)
    requires v.At("text") == Str(r.text) && v.At("output") == r.output && v.At("error") == Str(r.error)
    requires v.At("metadata") == r.metadata
    ensures ResultFromValue(v)
            == r.(evidence := ArrayOrEmpty(r.evidence), modifiedResources := ArrayOrEmpty(r.modifiedResources),
                  metadata := r.metadata.ObjectOrEmpty(), ledger := LedgerFromValue(LedgerToValue(r.ledger)))
  {
    StatusRoundTrip(r.status);
    StringsRoundTrip(r.openQuestions);
    StringsRoundTrip(r.nextActions);
  }

  lemma ResultOnce(r: Result)
    ensures ResultFromValue(ResultToValue(r))
            == r.(evidence := ArrayOrEmpty(r.evidence), modifiedResources := ArrayOrEmpty(r.modifiedResources),
                  metadata := r.metadata.ObjectOrEmpty(), ledger := LedgerFromValue(LedgerToValue(r.ledger)))
  {
    ResultTexts(r);
    ResultReport(r);
    ResultLists(r);
    ResultTopology(r);
    ResultTail(r);
    ResultDecoded(r, ResultToValue(r));
  }

  /** A trip keeps every text, id, status and count of a child result; what should have been a list or an
      object becomes one, and the ledger is normalised. A second trip changes nothing. */
  lemma ResultRoundTrip(r: Result) returns (once: Result)
    ensures once == ResultFromValue(ResultToValue(r))
    ensures once == r.(evidence := ArrayOrEmpty(r.evidence), modifiedResources := ArrayOrEmpty(r.modifiedResources),
                       metadata := r.metadata.ObjectOrEmpty(), ledger := once.ledger)
    ensures once.ledger == r.ledger.(details := once.ledger.details)
    ensures Normalises(r.ledger.details, once.ledger.details)
    ensures ResultFromValue(ResultToValue(once)) == once
  {
    once := ResultFromValue(ResultToValue(r));
    var ledger := LedgerRoundTrip(r.ledger);
    ResultOnce(r);
    ResultOnce(once);
  }
}
