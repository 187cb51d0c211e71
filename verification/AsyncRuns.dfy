/** Async agent runs as their store keeps them, and how a start request becomes one. */
module AsyncRuns {
  import opened Wrappers
  import opened Values
  import opened AsyncPolicy

  const KIND_AGENT := "agent.run"
  const KIND_SUBAGENT := "subagent.run"

  datatype Status = Queued | Running | Waiting | Completed | Failed | Cancelled

  predicate IsActive(status: Status) {
    status.Queued? || status.Running? || status.Waiting?
  }

  predicate IsClosed(status: Status) {
    status.Completed? || status.Cancelled?
  }

  /** A key that its owner uses for one run only; an empty one is no key. */
  datatype RequestKey = RequestKey(idempotencyKey: string, ownerApiKeyId: string, tenantId: string)

  datatype StartInput = StartInput(
    id: string, sessionId: string, input: Value, kind: string, rootRunId: string, parentRunId: string, depth: int,
    role: string, relation: string, toolCallId: string, policy: Policy, key: RequestKey)
  {
    predicate IsChild() {
      parentRunId != "" || kind == KIND_SUBAGENT
    }
  }

  /** One entry of a run's log; `childRunId` is empty but for the events about a child run. */
  datatype Event = Event(kind: string, childRunId: string, payload: Value)

  /** What the task store keeps. `ledgerChildren` is the child count in the ledger of the output. */
  datatype Task = Task(id: string, input: Value, key: RequestKey, status: Status, ledgerChildren: int, log: seq<Event>)

  datatype Run = Run(
    id: string, kind: string, status: Status, rootRunId: string, parentRunId: string, depth: int, role: string,
    relation: string, toolCallId: string)

  // ---------------------------------------------------------------- the stored form

  function StartToValue(s: StartInput): Value {
    Obj(map["schemaVersion" := Int(1), "input" := s.input, "sessionId" := Str(s.sessionId),
            "kind" := Str(s.kind), "rootRunId" := Str(s.rootRunId), "parentRunId" := Str(s.parentRunId),
            "depth" := Int(if s.depth < 0 then 0 else s.depth),
            "role" := Str(if s.role == "" then "leaf" else s.role),
            "parentChildRelation" := Str(s.relation), "spawnedByToolCallId" := Str(s.toolCallId),
            "childAgentPolicy" := PolicyToValue(s.policy)])
  }

  function RunFromFields(id: string, status: Status, v: Value): Run {
    var kind := v.At("kind").AsString(KIND_AGENT);
    var root := v.At("rootRunId").AsString("");
    var parent := v.At("parentRunId").AsString("");
    var depth := if v.Contains("depth") then v.At("depth").AsInteger(0) else -1;
    var role := v.At("role").AsString("");
    Run(id, if kind == "" then KIND_AGENT else kind, status, if root == "" then id else root, parent,
        if depth < 0 then 0 else depth,
        if role != "" then role else if parent == "" then "orchestrator" else "leaf",
        v.At("parentChildRelation").AsString(""), v.At("spawnedByToolCallId").AsString(""))
  }

  /** Whether the stored input decodes at all. */
  predicate Readable(t: Task) {
    t.input.Obj? && t.input.Contains("input") && PolicyFromValue(t.input.At("childAgentPolicy")).Ok?
  }

  function RunOf(t: Task): Run {
    RunFromFields(t.id, t.status, t.input)
  }

  lemma StoredTexts(s: StartInput)
    ensures var v := StartToValue(s);
            && v.At("kind") == Str(s.kind) && v.At("rootRunId") == Str(s.rootRunId)
            && v.At("parentRunId") == Str(s.parentRunId)
            && v.At("parentChildRelation") == Str(s.relation) && v.At("spawnedByToolCallId") == Str(s.toolCallId)
  {
  }

  lemma StoredRest(s: StartInput)
    ensures var v := StartToValue(s);
            && v.Contains("input") && v.Contains("depth")
            && v.At("depth") == Int(if s.depth < 0 then 0 else s.depth)
            && v.At("role") == Str(if s.role == "" then "leaf" else s.role)
            && v.At("childAgentPolicy") == PolicyToValue(s.policy)
  {
  }

  /** The topology of a normalised request survives the trip through the stored input. */
  lemma TopologySurvives(s: StartInput, t: Task)
    requires t.id == s.id && t.input == StartToValue(s)
    requires s.kind != "" && s.rootRunId != "" && s.depth >= 0 && s.role != ""
    ensures RunOf(t)
            == Run(s.id, s.kind, t.status, s.rootRunId, s.parentRunId, s.depth, s.role, s.relation, s.toolCallId)
    ensures Readable(t) <==> Checked(s.policy).Ok?
  {
    StoredTexts(s);
    StoredRest(s);
    PolicyDecodesIffChecked(s.policy);
  }

  /** A stored run without a topology is an agent run and its own root; one that only names its parent is a
      leaf at depth 0, and so is one with a negative depth. */
  lemma StoredDefaults(t: Task)
    requires t.input.Obj?
    requires forall key | key != "parentRunId" && key != "depth" ::
               t.input.At(key) == Null || t.input.At(key) == Str("")
    requires t.input.Contains("depth") ==> t.input.At("depth").AsInteger(0) <= 0
    ensures var parent := t.input.At("parentRunId").AsString("");
            RunOf(t) == Run(t.id, "agent.run", t.status, t.id, parent, 0,
                            if parent == "" then "orchestrator" else "leaf", "", "")
  {
    assert |"depth"| == 5 && |"parentRunId"| == 11 && |"kind"| == 4 && |"rootRunId"| == 9 && |"role"| == 4;
    assert |"parentChildRelation"| == 19 && |"spawnedByToolCallId"| == 19;
  }

  // ---------------------------------------------------------------- the store

  /** The tasks in the order they were created. */
  function Find(tasks: seq<Task>, id: string): (i: nat)
    ensures i <= |tasks|
    ensures i < |tasks| ==> tasks[i].id == id
    ensures forall j | 0 <= j < i :: tasks[j].id != id
  {
    if tasks == [] then 0 else if tasks[0].id == id then 0 else 1 + Find(tasks[1..], id)
  }

  function Count(tasks: seq<Task>, p: Run -> bool): nat {
    if tasks == [] then 0 else (if p(RunOf(tasks[0])) then 1 else 0) + Count(tasks[1..], p)
  }

  function ChildOf(parent: string): Run -> bool {
    (r: Run) => parent != "" && r.parentRunId == parent
  }

  function ActiveChildOf(parent: string): Run -> bool {
    (r: Run) => parent != "" && r.parentRunId == parent && IsActive(r.status)
  }

  function ActiveChild(): Run -> bool {
    (r: Run) => (r.parentRunId != "" || r.kind == KIND_SUBAGENT) && IsActive(r.status)
  }

  /** The child count of a run: what its ledger says, or what there is, whichever is more. */
  function ChildCount(tasks: seq<Task>, i: nat): int
    requires i < |tasks|
  {
    var there := Count(tasks, ChildOf(tasks[i].id));
    if tasks[i].ledgerChildren < there then there else tasks[i].ledgerChildren
  }

  /** The run as the store shows it: a leaf with children passes for an orchestrator. */
  function Get(tasks: seq<Task>, id: string): Option<Run> {
    var i := Find(tasks, id);
    if i == |tasks| then None
    else
      var run := RunOf(tasks[i]);
      Some(if ChildCount(tasks, i) > 0 && run.role == "leaf" then run.(role := "orchestrator") else run)
  }

  // ---------------------------------------------------------------- starting a run

  function NormalRole(role: string, default: string): Result<string, Refusal> {
    if role == "" then Ok(default) else if role == "leaf" || role == "orchestrator" then Ok(role) else Err(BadRole)
  }

  /** Fills in the topology; root and depth are always taken from the parent, whatever was asked for.
      `generated` is the id for a request without one. */
  function NormalizeTopology(tasks: seq<Task>, asked: StartInput, generated: string): Result<StartInput, Refusal> {
    var s := asked.(id := if asked.id == "" then generated else asked.id,
                    kind := if asked.kind == "" then KIND_AGENT else asked.kind);
    if !s.IsChild() then
      match NormalRole(s.role, "orchestrator")
      case Err(e) => Err(e)
      case Ok(role) => Ok(s.(rootRunId := s.id, depth := 0, role := role))
    else if s.parentRunId == "" then Err(ParentRequired)
    else if s.parentRunId == s.id then Err(OwnParent)
    else
      match Get(tasks, s.parentRunId)
      case None => Err(ParentNotFound)
      case Some(parent) =>
        if IsClosed(parent.status) then Err(ParentClosed)
        else if parent.role == "leaf" then Err(LeafParent)
        else
          match NormalRole(s.role, "leaf")
          case Err(e) => Err(e)
          case Ok(role) =>
            Ok(s.(kind := if s.kind == KIND_AGENT then KIND_SUBAGENT else s.kind,
                  rootRunId := if parent.rootRunId == "" then parent.id else parent.rootRunId,
                  depth := parent.depth + 1, role := role,
                  relation := if s.relation == "" then "delegated" else s.relation))
  }

  predicate Exceeds(limit: Option<int>, next: int) {
    limit.Some? && next > limit.value
  }

  /** Checks a normalised request against the merged policy and the runs there are. */
  function EnforcePolicy(tasks: seq<Task>, policy: Policy, s: StartInput): Option<Refusal> {
    match MergePolicies(policy, s.policy)
    case Err(e) => Some(e)
    case Ok(merged) =>
      if !s.IsChild() then if Exceeds(merged.maxSpawnDepth, s.depth) then Some(TooDeep) else None
      else if merged.allowChildSpawn == Some(false) then Some(SpawnForbidden)
      else if Exceeds(merged.maxSpawnDepth, s.depth) then Some(TooDeep)
      else if Exceeds(merged.maxGlobalChildRuns, Count(tasks, ActiveChild()) + 1) then Some(TooManyActive)
      else if Exceeds(merged.maxChildRunsPerParent, Count(tasks, ChildOf(s.parentRunId)) + 1) then Some(TooManyOfParent)
      else if Exceeds(merged.maxChildrenPerRun, Count(tasks, ActiveChildOf(s.parentRunId)) + 1) then
        Some(TooManyActiveOfParent)
      else None
  }

  predicate Taken(tasks: seq<Task>, key: RequestKey) {
    key.idempotencyKey != "" && exists k | 0 <= k < |tasks| :: tasks[k].key == key
  }

  /** The request as it is stored, or why it is refused. */
  function Admit(tasks: seq<Task>, policy: Policy, asked: StartInput, generated: string): Result<StartInput, Refusal> {
    match NormalizeTopology(tasks, asked, generated)
    case Err(e) => Err(e)
    case Ok(s) =>
      match EnforcePolicy(tasks, policy, s)
      case Some(e) => Err(e)
      case None =>
        if Find(tasks, s.id) < |tasks| then Err(RunAlreadyExists)
        else if Taken(tasks, s.key) then Err(IdempotencyKeyTaken)
        else Ok(s)
  }
}
