/** The controller, the store and the worker of async runs as objects. Their methods take the steps of
    `AsyncForest`, so everything proved about those steps holds between any two calls. */
module AsyncController {
  import opened Wrappers
  import opened Values
  import opened AsyncPolicy
  import opened AsyncRuns
  import opened AsyncForest
  import opened AsyncTopology
  import opened AsyncMirror
  import opened AsyncEffects
  import opened AsyncCancellation

  lemma CountNext(tasks: seq<Task>, k: nat, p: Run -> bool)
    requires k < |tasks|
    ensures Count(tasks[..k + 1], p) == Count(tasks[..k], p) + (if p(RunOf(tasks[k])) then 1 else 0)
  {
    assert tasks[..k + 1] == tasks[..k] + [tasks[k]];
    CountAppend(tasks[..k], tasks[k], p);
  }

  class AsyncRunStore {
    var tasks: seq<Task>

    /** The forest of runs, with its mirrored logs. */
    ghost predicate Valid()
      reads this
    {
      Inv(tasks) && Mirrors(tasks)
    }

    constructor ()
      ensures Valid() && tasks == []
    {
      tasks := [];
    }

    method FindTask(id: string) returns (i: nat)
      ensures i == Find(tasks, id)
    {
      i := 0;
      while i < |tasks| && tasks[i].id != id
        invariant i <= |tasks|
        invariant forall k | 0 <= k < i :: tasks[k].id != id
      {
        i := i + 1;
      }
    }

    method DirectChildCount(parent: string) returns (n: nat)
      ensures n == Count(tasks, ChildOf(parent))
    {
      n := 0;
      for k := 0 to |tasks|
        invariant n == Count(tasks[..k], ChildOf(parent))
      {
        CountNext(tasks, k, ChildOf(parent));
        if parent != "" && RunOf(tasks[k]).parentRunId == parent {
          n := n + 1;
        }
      }
      assert tasks[..|tasks|] == tasks;
    }

    method GetRun(id: string) returns (r: Option<Run>)
      ensures r == Get(tasks, id)
    {
      var i := FindTask(id);
      if i == |tasks| {
        return None;
      }
      var run := RunOf(tasks[i]);
      var there := DirectChildCount(id);
      var children := if tasks[i].ledgerChildren < there then there else tasks[i].ledgerChildren;
      if children > 0 && run.role == "leaf" {
        run := run.(role := "orchestrator");
      }
      r := Some(run);
    }

    method UpdateStatus(i: nat, status: Status)
      requires i < |tasks|
      modifies this
      ensures tasks == SetStatus(old(tasks), i, status) && |tasks| == |old(tasks)|
    {
      tasks := tasks[i := tasks[i].(status := status)];
    }

    /** The ledger gets the number of children there are. */
    method UpdateLedger(i: nat)
      requires i < |tasks|
      modifies this
      ensures tasks
              == old(tasks)[i := old(tasks)[i].(ledgerChildren := Count(old(tasks), ChildOf(old(tasks)[i].id)))]
    {
      var children := DirectChildCount(tasks[i].id);
      tasks := tasks[i := tasks[i].(ledgerChildren := children)];
    }

    method AppendEvent(i: nat, e: Event)
      requires i < |tasks|
      modifies this
      ensures tasks == Logged(old(tasks), i, e) && |tasks| == |old(tasks)|
    {
      tasks := tasks[i := tasks[i].(log := tasks[i].log + [e])];
    }

    method EmitChildLifecycle(i: nat, kind: string, payload: Value)
      requires i < |tasks|
      modifies this
      ensures tasks == EmitChild(old(tasks), i, kind, payload) && |tasks| == |old(tasks)|
    {
      var run := RunOf(tasks[i]);
      if run.parentRunId == "" && run.kind != KIND_SUBAGENT {
        return;
      }
      var e := Event(kind, run.id, payload);
      AppendEvent(i, e);
      if run.parentRunId != "" {
        var p := FindTask(run.parentRunId);
        if p < |tasks| {
          AppendEvent(p, e);
        }
      }
    }

    method IsTaken(key: RequestKey) returns (taken: bool)
      ensures taken == Taken(tasks, key)
    {
      if key.idempotencyKey == "" {
        return false;
      }
      for k := 0 to |tasks|
        invariant forall j | 0 <= j < k :: tasks[j].key != key
      {
        if tasks[k].key == key {
          return true;
        }
      }
      taken := false;
    }

    /** Stores a request under its id, unless the id or its idempotency key is taken. */
    method Create(s: StartInput, payload: Value) returns (r: Result<Run, Refusal>)
      modifies this
      ensures Find(old(tasks), s.id) < |old(tasks)| ==> r == Err(RunAlreadyExists) && tasks == old(tasks)
      ensures Find(old(tasks), s.id) == |old(tasks)| && Taken(old(tasks), s.key) ==>
                r == Err(IdempotencyKeyTaken) && tasks == old(tasks)
      ensures Find(old(tasks), s.id) == |old(tasks)| && !Taken(old(tasks), s.key) ==>
                && tasks == AddRun(old(tasks), s, payload) && |tasks| == |old(tasks)| + 1
                && r == Ok(RunOf(tasks[|old(tasks)|])) && r.value.id == s.id
    {
      var known := FindTask(s.id);
      if known < |tasks| {
        return Err(RunAlreadyExists);
      }
      var taken := IsTaken(s.key);
      if taken {
        return Err(IdempotencyKeyTaken);
      }
      AddedRun(tasks, s, payload);
      tasks := tasks + [NewTask(s)];
      EmitChildLifecycle(|tasks| - 1, "child.run.queued", payload);
      r := Ok(RunOf(tasks[|tasks| - 1]));
    }
  }

  /** Lays one policy over another, field by field, and checks the outcome. */
  method MergeAgentPolicies(base: Policy, overlay: Policy) returns (r: Result<Policy, Refusal>)
    ensures r == MergePolicies(base, overlay)
  {
    var merged := base;
    if overlay.maxGlobalChildRuns.Some? {
      merged := merged.(maxGlobalChildRuns := overlay.maxGlobalChildRuns);
    }
    if overlay.maxChildRunsPerParent.Some? {
      merged := merged.(maxChildRunsPerParent := overlay.maxChildRunsPerParent);
    }
    if overlay.maxSpawnDepth.Some? {
      merged := merged.(maxSpawnDepth := overlay.maxSpawnDepth);
    }
    if overlay.maxChildrenPerRun.Some? {
      merged := merged.(maxChildrenPerRun := overlay.maxChildrenPerRun);
    }
    if overlay.allowChildSpawn.Some? {
      merged := merged.(allowChildSpawn := overlay.allowChildSpawn);
    }
    if overlay.cancelPropagation.Some? {
      merged := merged.(cancelPropagation := overlay.cancelPropagation);
    }
    assert merged == Overlay(base, overlay);
    if !merged.LimitsValid() {
      return Err(NegativeLimit);
    }
    if merged.cancelPropagation.Some? {
      var propagation := NormalPropagation(merged.cancelPropagation.value);
      if propagation.Err? {
        return Err(propagation.error);
      }
      merged := merged.(cancelPropagation := Some(propagation.value));
    }
    r := Ok(merged);
  }

  class AsyncAgentRunController {
    const store: AsyncRunStore
    const policy: Policy
    const worker: Option<AsyncAgentRunWorker>

    ghost predicate Valid()
      reads store
      reads if worker.Some? then {worker.value.registry} else {}
      reads if worker.Some? then worker.value.registry.active.Values else {}
    {
      store.Valid() && (worker.Some? ==> worker.value.store == store && worker.value.registry.Valid())
    }

    constructor (store: AsyncRunStore, policy: Policy, worker: Option<AsyncAgentRunWorker>)
      requires store.Valid() && (worker.Some? ==> worker.value.store == store && worker.value.Valid())
      ensures Valid() && this.store == store && this.policy == policy && this.worker == worker
    {
      this.store, this.policy, this.worker := store, policy, worker;
    }

    /** Fills the request in, field by field. */
    method FillTopology(asked: StartInput, generated: string) returns (r: Result<StartInput, Refusal>)
      ensures r == NormalizeTopology(store.tasks, asked, generated)
    {
      var input := asked;
      if input.id == "" {
        input := input.(id := generated);
      }
      if input.kind == "" {
        input := input.(kind := KIND_AGENT);
      }
      if input.parentRunId == "" && input.kind != KIND_SUBAGENT {
        var rootRole := NormalRole(input.role, "orchestrator");
        if rootRole.Err? {
          return Err(rootRole.error);
        }
        return Ok(input.(rootRunId := input.id, depth := 0, role := rootRole.value));
      }
      if input.parentRunId == "" {
        return Err(ParentRequired);
      }
      if input.parentRunId == input.id {
        return Err(OwnParent);
      }
      var parent := store.GetRun(input.parentRunId);
      if parent.None? {
        return Err(ParentNotFound);
      }
      if parent.value.status.Completed? || parent.value.status.Cancelled? {
        return Err(ParentClosed);
      }
      if parent.value.role == "leaf" {
        return Err(LeafParent);
      }
      if input.kind == KIND_AGENT {
        input := input.(kind := KIND_SUBAGENT);
      }
      var above := parent.value;
      input := input.(rootRunId := if above.rootRunId == "" then above.id else above.rootRunId,
                      depth := above.depth + 1);
      var role := NormalRole(input.role, "leaf");
      if role.Err? {
        return Err(role.error);
      }
      input := input.(role := role.value);
      if input.relation == "" {
        input := input.(relation := "delegated");
      }
      r := Ok(input);
    }

    /** The three counts that the limits are about, in one pass. */
    method CountChildren(parent: string) returns (active: nat, children: nat, activeChildren: nat)
      requires parent != ""
      ensures active == Count(store.tasks, ActiveChild())
      ensures children == Count(store.tasks, ChildOf(parent))
      ensures activeChildren == Count(store.tasks, ActiveChildOf(parent))
    {
      active, children, activeChildren := 0, 0, 0;
      for k := 0 to |store.tasks|
        invariant active == Count(store.tasks[..k], ActiveChild())
        invariant children == Count(store.tasks[..k], ChildOf(parent))
        invariant activeChildren == Count(store.tasks[..k], ActiveChildOf(parent))
      {
        var run := RunOf(store.tasks[k]);
        CountNext(store.tasks, k, ActiveChild());
        CountNext(store.tasks, k, ChildOf(parent));
        CountNext(store.tasks, k, ActiveChildOf(parent));
        var running := run.status in {Queued, Running, Waiting};
        if (run.parentRunId != "" || run.kind == KIND_SUBAGENT) && running {
          active := active + 1;
        }
        if run.parentRunId == parent {
          children := children + 1;
          if running {
            activeChildren := activeChildren + 1;
          }
        }
      }
      assert store.tasks[..|store.tasks|] == store.tasks;
    }

    method EnforceChildAgentPolicy(s: StartInput) returns (refusal: Option<Refusal>)
      requires s.IsChild() ==> s.parentRunId != ""
      ensures refusal == EnforcePolicy(store.tasks, policy, s)
    {
      var merged := MergeAgentPolicies(policy, s.policy);
      if merged.Err? {
        return Some(merged.error);
      }
      var limits := merged.value;
      if !s.IsChild() {
        return if Exceeds(limits.maxSpawnDepth, s.depth) then Some(TooDeep) else None;
      }
      if limits.allowChildSpawn == Some(false) {
        return Some(SpawnForbidden);
      }
      if Exceeds(limits.maxSpawnDepth, s.depth) {
        return Some(TooDeep);
      }
      var active, children, activeChildren := CountChildren(s.parentRunId);
      refusal :=
        if Exceeds(limits.maxGlobalChildRuns, active + 1) then Some(TooManyActive)
        else if Exceeds(limits.maxChildRunsPerParent, children + 1) then Some(TooManyOfParent)
        else if Exceeds(limits.maxChildrenPerRun, activeChildren + 1) then Some(TooManyActiveOfParent)
        else None;
    }

    /** Fills in, checks and stores one request; a refused one leaves no trace. */
    method StartRun(asked: StartInput, generated: string, payload: Value) returns (r: Result<Run, Refusal>)
      requires Valid() && generated != ""
      modifies store
      ensures Valid()
      ensures forall resumed ::
                Apply(World(old(store.tasks), resumed), policy, Start(asked, generated, payload))
                == World(store.tasks, resumed)
      ensures match Admit(old(store.tasks), policy, asked, generated)
              case Err(e) => r == Err(e) && store.tasks == old(store.tasks)
              case Ok(s) =>
                && |store.tasks| == |old(store.tasks)| + 1
                && r == Ok(RunOf(store.tasks[|old(store.tasks)|])) && r.value.id == s.id
    {
      ghost var before := World(store.tasks, []);
      ghost var op := Start(asked, generated, payload);
      var filled := FillTopology(asked, generated);
      if filled.Err? {
        return Err(filled.error);
      }
      var s := filled.value;
      var refusal := EnforceChildAgentPolicy(s);
      if refusal.Some? {
        return Err(refusal.value);
      }
      StepKeepsInv(before, policy, op);
      StepKeepsMirrors(before, policy, op);
      r := store.Create(s, payload);
    }

    /** Queues a waiting or failed run again; nobody looks at the limits. */
    method ResumeRun(id: string) returns (refusal: Option<Refusal>)
      requires Valid()
      modifies store
      ensures Valid()
      ensures refusal == Refusable(old(store.tasks), policy, Resume(id))
      ensures forall resumed ::
                Apply(World(old(store.tasks), resumed), policy, Resume(id)).tasks == store.tasks
    {
      var i := store.FindTask(id);
      if i == |store.tasks| {
        Refused(store.tasks, policy, Resume(id));
        return Some(RunNotFound);
      }
      if !store.tasks[i].status.Waiting? && !store.tasks[i].status.Failed? {
        Refused(store.tasks, policy, Resume(id));
        return Some(NotResumable);
      }
      ResumeApplies(store.tasks, policy, id, i);
      QueueAgain(i);
      refusal := None;
    }

    method QueueAgain(i: nat)
      requires i < |store.tasks|
      modifies store
      ensures store.tasks == AsyncForest.ResumeRun(old(store.tasks), i)
    {
      store.UpdateStatus(i, Queued);
      store.AppendEvent(i, PlainEvent("async_run.resume.requested"));
      store.AppendEvent(i, PlainEvent("async_run.activity"));
      store.AppendEvent(i, PlainEvent("async_run.resumed"));
    }

    /** With a worker, the cancellation also reaches the attempt that is running. */
    method CancelRun(id: string, reason: string) returns (refusal: Option<Refusal>)
      requires Valid()
      modifies store
      modifies if worker.Some? then {worker.value.registry} else {}
      modifies if worker.Some? && id in worker.value.registry.active then {worker.value.registry.active[id]} else {}
      ensures Valid()
      ensures refusal == Refusable(old(store.tasks), policy, Cancel(id))
      ensures forall resumed ::
                Apply(World(old(store.tasks), resumed), policy, Cancel(id)).tasks == store.tasks
      ensures refusal.None? <==>
                var i := Find(old(store.tasks), id);
                && i < |old(store.tasks)|
                && old(store.tasks)[i].status != Completed && old(store.tasks)[i].status != Cancelled
      ensures |store.tasks| == |old(store.tasks)|
      ensures worker.Some? ==>
                var registry := worker.value.registry;
                && registry.active == old(registry.active)
                && registry.reasons
                   == (if refusal.None? then old(registry.reasons)[id := reason] else old(registry.reasons))
                && (refusal.None? && id in registry.active ==> registry.active[id].reason == Some(reason))
    {
      var i := store.FindTask(id);
      if i == |store.tasks| {
        Refused(store.tasks, policy, Cancel(id));
        return Some(RunNotFound);
      }
      if store.tasks[i].status.Completed? || store.tasks[i].status.Cancelled? {
        Refused(store.tasks, policy, Cancel(id));
        return Some(NotCancellable);
      }
      CancelApplies(store.tasks, policy, id, i);
      TakeCancellation(i, id, reason);
      refusal := None;
    }

    /** Cancels through the worker, if there is one. */
    method TakeCancellation(i: nat, id: string, reason: string)
      requires Valid() && i == Find(store.tasks, id) < |store.tasks|
      modifies store
      modifies if worker.Some? then {worker.value.registry} else {}
      modifies if worker.Some? && id in worker.value.registry.active then {worker.value.registry.active[id]} else {}
      ensures store.tasks == AsyncForest.CancelRun(old(store.tasks), i)
      ensures worker.Some? ==>
                var registry := worker.value.registry;
                && registry.Valid() && registry.active == old(registry.active)
                && registry.reasons == old(registry.reasons)[id := reason]
                && (id in registry.active ==> registry.active[id].reason == Some(reason))
    {
      if worker.Some? {
        var _ := worker.value.CancelRunning(id, reason);
      } else {
        CancelStored(i);
      }
    }

    method CancelStored(i: nat)
      requires i < |store.tasks|
      modifies store
      ensures store.tasks == AsyncForest.CancelRun(old(store.tasks), i)
    {
      store.UpdateStatus(i, Cancelled);
      store.AppendEvent(i, PlainEvent("async_run.cancel.requested"));
      store.AppendEvent(i, PlainEvent("async_run.activity"));
      store.AppendEvent(i, PlainEvent("async_run.cancelled"));
    }
  }

  /** What the runner does with an attempt: it is not found, it throws a `std::exception` or something
      else, or it returns. */
  datatype RunnerEnd = NoRunner | Throws(thrown: Thrown) | ThrowsForeign | Returns

  /** How an attempt is recorded that did not end with a foreign exception. */
  function OutcomeOf(end: RunnerEnd, told: bool): Outcome {
    if end.Returns? then Succeeded
    else if told || (end.Throws? && end.thrown.CancellationThrown?) then Stopped
    else Broke
  }

  /** A thrown exception is recorded as the registry's decision says. */
  lemma OutcomeAsRecorded<T>(r: Registry<T>, id: string, token: T, thrown: Thrown)
    ensures OutcomeOf(Throws(thrown), id in r.reasons || token in r.cancelled) == Recorded(r, id, token, thrown)
  {
  }

  /** The run after an attempt that ended like this: completed exactly if the runner returned, failed exactly if
      nobody told it to stop and it did not stop by itself, and cancelled otherwise. The last entry of its log
      says so. */
  ghost predicate EndedAs(t: Task, end: RunnerEnd, told: bool, payload: Value) {
    && t.log != []
    && (t.status == Completed <==> end == Returns)
    && (t.status == Failed <==> !told && (end == NoRunner || end == Throws(OtherThrown)))
    && (t.status == Cancelled <==> (told && (end == NoRunner || end.Throws?)) || end == Throws(CancellationThrown))
    && var last := t.log[|t.log| - 1];
       if RunOf(t).parentRunId == "" then
         last == Event(if t.status == Completed then "async_run.completed"
                       else if t.status == Failed then "async_run.failed" else "async_run.cancelled", "", Null)
       else
         last == Event(if t.status == Completed then "child.run.completed"
                       else if t.status == Failed then "child.run.failed" else "child.run.cancelled", t.id, payload)
  }

  lemma LastEntry(tasks: seq<Task>, after: seq<Task>, i: nat, e: Effect, ending: Event, news: seq<Event>)
    requires i < |tasks| && Comes(tasks, after, i, e) && e.own == [ACTIVITY, ending] + news
    ensures |after| == |tasks| && after[i].status == e.status && after[i].id == tasks[i].id && after[i].log != []
    ensures RunOf(after[i]).parentRunId == RunOf(tasks[i]).parentRunId
    ensures after[i].log[|after[i].log| - 1] == if news == [] then ending else news[|news| - 1]
  {
    assert after[i].log == (tasks[i].log + [ACTIVITY, ending]) + news;
  }

  lemma CloseEndsAs(tasks: seq<Task>, i: nat, end: RunnerEnd, told: bool, ledgerPayload: Value, payload: Value)
    requires Forest(tasks) && i < |tasks| && !end.ThrowsForeign?
    ensures var after := Closed(tasks, i, end, told, ledgerPayload, payload);
            |after| == |tasks| && EndedAs(after[i], end, told, payload)
  {
    if end.Returns? {
      CompletedEndsAs(tasks, i, told, ledgerPayload, payload);
    } else if told || end == Throws(CancellationThrown) {
      StoppedEndsAs(tasks, i, end, told, ledgerPayload, payload);
    } else {
      assert end.Throws? ==> end.thrown.OtherThrown?;
      FailedEndsAs(tasks, i, end, ledgerPayload, payload);
    }
  }

  lemma CloseSaysHow(tasks: seq<Task>, i: nat, end: RunnerEnd, told: bool, ledgerPayload: Value, payload: Value)
    requires i < |tasks| && !end.ThrowsForeign?
    ensures var after := Closed(tasks, i, end, told, ledgerPayload, payload);
            |after| == |tasks| && (Forest(tasks) ==> EndedAs(after[i], end, told, payload))
  {
    EndChanges(tasks, i, OutcomeOf(end, told), ledgerPayload, payload);
    if Forest(tasks) {
      CloseEndsAs(tasks, i, end, told, ledgerPayload, payload);
    }
  }

  lemma CompletedEndsAs(tasks: seq<Task>, i: nat, told: bool, ledgerPayload: Value, payload: Value)
    requires Forest(tasks) && i < |tasks|
    ensures var after := EndRun(tasks, i, Succeeded, ledgerPayload, payload);
            |after| == |tasks| && EndedAs(after[i], Returns, told, payload)
  {
    var news := ChildNews(tasks[i], "child.run.ledger.updated", ledgerPayload)
                + ChildNews(tasks[i], "child.run.completed", payload);
    var over := Event("async_run.completed", "", Null);
    CompletionInPlainTerms(tasks, i, ledgerPayload, payload);
    LastEntry(tasks, EndRun(tasks, i, Succeeded, ledgerPayload, payload), i,
              Effect(Completed, Count(tasks, ChildOf(tasks[i].id)), [ACTIVITY, over] + news, news), over, news);
  }

  lemma StoppedEndsAs(tasks: seq<Task>, i: nat, end: RunnerEnd, told: bool, ledgerPayload: Value, payload: Value)
    requires Forest(tasks) && i < |tasks|
    requires (told && (end.NoRunner? || end.Throws?)) || end == Throws(CancellationThrown)
    ensures var after := EndRun(tasks, i, Stopped, ledgerPayload, payload);
            |after| == |tasks| && EndedAs(after[i], end, told, payload)
  {
    var news := ChildNews(tasks[i], "child.run.cancelled", payload);
    var over := Event("async_run.cancelled", "", Null);
    StopInPlainTerms(tasks, i, ledgerPayload, payload);
    LastEntry(tasks, EndRun(tasks, i, Stopped, ledgerPayload, payload), i,
              Effect(Cancelled, tasks[i].ledgerChildren, [ACTIVITY, over] + news, news), over, news);
  }

  lemma FailedEndsAs(tasks: seq<Task>, i: nat, end: RunnerEnd, ledgerPayload: Value, payload: Value)
    requires Forest(tasks) && i < |tasks| && (end.NoRunner? || end == Throws(OtherThrown))
    ensures var after := EndRun(tasks, i, Broke, ledgerPayload, payload);
            |after| == |tasks| && EndedAs(after[i], end, false, payload)
  {
    var news := ChildNews(tasks[i], "child.run.failed", payload);
    var over := Event("async_run.failed", "", Null);
    FailureInPlainTerms(tasks, i, ledgerPayload, payload);
    LastEntry(tasks, EndRun(tasks, i, Broke, ledgerPayload, payload), i,
              Effect(Failed, tasks[i].ledgerChildren, [ACTIVITY, over] + news, news), over, news);
  }

  function Opened(tasks: seq<Task>, i: nat, end: RunnerEnd, payload: Value): (t: seq<Task>)
    requires i < |tasks|
    ensures |t| == |tasks| && t[i].id == tasks[i].id
  {
    var claimed := SetStatus(tasks, i, Running);
    if end.NoRunner? then claimed else BeginRun(claimed, i, payload)
  }

  /** The tasks after `n` cancellations of a run. */
  function CancelledTimes(tasks: seq<Task>, i: nat, n: nat): (t: seq<Task>)
    requires i < |tasks|
    ensures |t| == |tasks| && t[i].id == tasks[i].id
  {
    if n == 0 then tasks else CancelRun(CancelledTimes(tasks, i, n - 1), i)
  }

  /** The end of an attempt; a foreign exception is recorded nowhere. */
  function Closed(tasks: seq<Task>, i: nat, end: RunnerEnd, told: bool, ledgerPayload: Value, payload: Value): seq<Task>
    requires i < |tasks|
  {
    if end.ThrowsForeign? then tasks else EndRun(tasks, i, OutcomeOf(end, told), ledgerPayload, payload)
  }

  /** The tasks after one attempt during which `n` cancellations came in. */
  function Attempted(
      tasks: seq<Task>, i: nat, end: RunnerEnd, told: bool, n: nat, payloads: (Value, Value, Value)): seq<Task>
    requires i < |tasks|
  {
    Closed(CancelledTimes(Opened(tasks, i, end, payloads.0), i, n), i, end, told, payloads.1, payloads.2)
  }

  class AsyncAgentRunWorker {
    const store: AsyncRunStore
    const registry: CancellationRegistry

    ghost predicate Valid()
      reads store, registry, registry.active.Values
    {
      store.Valid() && registry.Valid()
    }

    constructor (store: AsyncRunStore, registry: CancellationRegistry)
      requires store.Valid() && registry.Valid()
      ensures Valid() && this.store == store && this.registry == registry
    {
      this.store, this.registry := store, registry;
    }

    method BeginAttempt(i: nat, payload: Value)
      requires i < |store.tasks|
      modifies store
      ensures store.tasks == BeginRun(old(store.tasks), i, payload)
    {
      store.AppendEvent(i, PlainEvent("async_run.started"));
      store.AppendEvent(i, PlainEvent("async_run.activity"));
      store.EmitChildLifecycle(i, "child.run.started", payload);
    }

    method EndAttempt(i: nat, outcome: Outcome, ledgerPayload: Value, payload: Value)
      requires i < |store.tasks|
      modifies store
      ensures store.tasks == EndRun(old(store.tasks), i, outcome, ledgerPayload, payload)
    {
      if outcome.Succeeded? {
        store.UpdateLedger(i);
      }
      store.UpdateStatus(i, outcome.Status());
      store.AppendEvent(i, PlainEvent("async_run.activity"));
      store.AppendEvent(i, PlainEvent("async_run." + outcome.Kind()));
      if outcome.Succeeded? {
        store.EmitChildLifecycle(i, "child.run.ledger.updated", ledgerPayload);
      }
      store.EmitChildLifecycle(i, "child.run." + outcome.Kind(), payload);
    }

    /** Claims the run, registers the attempt and reports its start. */
    method OpenAttempt(i: nat, end: RunnerEnd, payload: Value) returns (token: CancellationToken)
      requires registry.Valid() && i < |store.tasks|
      modifies store, registry
      ensures registry.Valid() && fresh(token) && store.tasks == Opened(old(store.tasks), i, end, payload)
      ensures registry.reasons == old(registry.reasons)
      ensures registry.active == old(registry.active)[old(store.tasks)[i].id := token]
      ensures token.reason.Some? <==> old(store.tasks)[i].id in registry.reasons
    {
      var id := store.tasks[i].id;
      store.UpdateStatus(i, Running);
      token := new CancellationToken();
      registry.RegisterActiveToken(id, token);
      if !end.NoRunner? {
        BeginAttempt(i, payload);
      }
    }

    /** The same for a queued run of a valid store. */
    method OpenQueued(i: nat, end: RunnerEnd, payload: Value) returns (token: CancellationToken)
      requires Valid() && i < |store.tasks| && store.tasks[i].status.Queued?
      modifies store, registry
      ensures Valid() && fresh(token) && store.tasks == Opened(old(store.tasks), i, end, payload)
      ensures Find(store.tasks, old(store.tasks)[i].id) == i < |store.tasks| && store.tasks[i].status.Running?
      ensures registry.active == old(registry.active)[old(store.tasks)[i].id := token]
    {
      FindOwn(store.tasks, i);
      OpenKeepsPlaces(store.tasks, i, end, payload);
      OpenKeepsAll(store.tasks, i, end, payload);
      token := OpenAttempt(i, end, payload);
    }

    /** Cancels a run while it may be running. */
    method CancelRunning(id: string, reason: string) returns (known: bool)
      requires registry.Valid()
      modifies store, registry`reasons, if id in registry.active then {registry.active[id]} else {}
      ensures registry.Valid()
      ensures known <==> Find(old(store.tasks), id) < |old(store.tasks)|
      ensures !known ==> store.tasks == old(store.tasks) && registry.reasons == old(registry.reasons)
      ensures known ==>
                && store.tasks == CancelRun(old(store.tasks), Find(old(store.tasks), id))
                && registry.reasons == old(registry.reasons)[id := reason]
                && (id in registry.active ==> registry.active[id].reason == Some(reason))
    {
      var i := store.FindTask(id);
      if i == |store.tasks| {
        return false;
      }
      registry.MarkCancelled(id, reason);
      ReportCancelled(i);
      known := true;
    }

    method ReportCancelled(i: nat)
      requires i < |store.tasks|
      modifies store
      ensures store.tasks == CancelRun(old(store.tasks), i)
    {
      store.AppendEvent(i, PlainEvent("async_run.cancel.requested"));
      store.UpdateStatus(i, Cancelled);
      store.AppendEvent(i, PlainEvent("async_run.activity"));
      store.AppendEvent(i, PlainEvent("async_run.cancelled"));
    }

    /** Decides how the attempt ended, records it and forgets the attempt and any request to cancel it; a
        foreign exception only forgets the attempt. */
    method CloseAttempt(i: nat, end: RunnerEnd, token: CancellationToken, ledgerPayload: Value, payload: Value)
      returns (told: bool)
      requires registry.Valid() && i < |store.tasks|
      modifies store, registry
      ensures registry.Valid()
      ensures told == (old(store.tasks)[i].id in old(registry.reasons) || token.reason.Some?)
      ensures store.tasks == Closed(old(store.tasks), i, end, told, ledgerPayload, payload)
      ensures |store.tasks| == |old(store.tasks)|
      ensures Forest(old(store.tasks)) && !end.ThrowsForeign? ==> EndedAs(store.tasks[i], end, told, payload)
      ensures var id := old(store.tasks)[i].id;
              && registry.reasons
                 == (if end.ThrowsForeign? then old(registry.reasons) else old(registry.reasons) - {id})
              && registry.active == if id in old(registry.active) && old(registry.active)[id] == token
                                    then old(registry.active) - {id} else old(registry.active)
    {
      var id := store.tasks[i].id;
      var known := registry.IsCancelled(id);
      told := known || token.reason.Some?;
      if !end.ThrowsForeign? {
        var outcome :=
          if end.Returns? then Succeeded
          else if end == Throws(CancellationThrown) || told then Stopped
          else Broke;
        EndAttempt(i, outcome, ledgerPayload, payload);
      }
      registry.UnregisterActiveToken(id, token);
      if !end.ThrowsForeign? {
        registry.ClearCancelled(id);
        CloseSaysHow(old(store.tasks), i, end, told, ledgerPayload, payload);
      }
    }

    /** One cancellation while an attempt is registered. */
    method TakeCancellation(i: nat, token: CancellationToken, reason: string)
      requires registry.Valid() && i < |store.tasks| && Find(store.tasks, store.tasks[i].id) == i
      requires store.tasks[i].id in registry.active && registry.active[store.tasks[i].id] == token
      modifies store, registry`reasons, token
      ensures registry.Valid() && store.tasks == CancelRun(old(store.tasks), i)
      ensures token.reason == Some(reason)
      ensures registry.reasons == old(registry.reasons)[old(store.tasks)[i].id := reason]
    {
      var _ := CancelRunning(store.tasks[i].id, reason);
    }

    /** Cancellations that come in one after the other while an attempt is registered. */
    method TakeCancellations(i: nat, token: CancellationToken, reasons: seq<string>)
      requires registry.Valid() && i < |store.tasks| && Find(store.tasks, store.tasks[i].id) == i
      requires store.tasks[i].id in registry.active && registry.active[store.tasks[i].id] == token
      modifies store, registry`reasons, token
      ensures registry.Valid() && store.tasks == CancelledTimes(old(store.tasks), i, |reasons|)
      ensures token.reason == if reasons == [] then old(token.reason) else Some(reasons[|reasons| - 1])
      ensures var id := old(store.tasks)[i].id;
              registry.reasons
              == if reasons == [] then old(registry.reasons) else old(registry.reasons)[id := reasons[|reasons| - 1]]
    {
      var id := store.tasks[i].id;
      ghost var start, marks := store.tasks, registry.reasons;
      for k := 0 to |reasons|
        invariant registry.Valid() && store.tasks == CancelledTimes(start, i, k)
        invariant token.reason == if k == 0 then old(token.reason) else Some(reasons[k - 1])
        invariant registry.reasons == if k == 0 then marks else marks[id := reasons[k - 1]]
      {
        CancelKeepsPlaces(start, i, k);
        OneMoreCancel(start, i, k);
        UpdateTwice(marks, id, if k == 0 then "" else reasons[k - 1], reasons[k]);
        TakeCancellation(i, token, reasons[k]);
      }
    }

    method RunAttempt(i: nat, end: RunnerEnd, reasons: seq<string>, payloads: (Value, Value, Value))
      returns (told: bool)
      requires registry.Valid() && i < |store.tasks| && Find(store.tasks, store.tasks[i].id) == i
      modifies store, registry
      ensures registry.Valid()
      ensures told <==> old(store.tasks)[i].id in old(registry.reasons) || reasons != []
      ensures store.tasks == Attempted(old(store.tasks), i, end, told, |reasons|, payloads)
      ensures !end.ThrowsForeign? ==> registry.reasons == old(registry.reasons) - {old(store.tasks)[i].id}
      ensures end.ThrowsForeign? ==>
                registry.reasons == if reasons == [] then old(registry.reasons)
                                    else old(registry.reasons)[old(store.tasks)[i].id := reasons[|reasons| - 1]]
      ensures registry.active == old(registry.active) - {old(store.tasks)[i].id}
    {
      var id := store.tasks[i].id;
      OpenKeepsPlaces(store.tasks, i, end, payloads.0);
      var token := OpenAttempt(i, end, payloads.0);
      TakeCancellations(i, token, reasons);
      UpdateThenRemove(old(registry.active), id, token);
      UpdateThenRemove(old(registry.reasons), id, if reasons == [] then "" else reasons[|reasons| - 1]);
      told := CloseAttempt(i, end, token, payloads.1, payloads.2);
    }

    /** One attempt at a queued run, while any number of cancellations of it come in. An attempt that was told
        to stop, before it began or while it ran, and then throws a `std::exception` is recorded as cancelled
        and never as failed. */
    method RunOnce(i: nat, end: RunnerEnd, reasons: seq<string>, payloads: (Value, Value, Value)) returns (told: bool)
      requires Valid() && i < |store.tasks| && store.tasks[i].status.Queued?
      modifies store, registry
      ensures Valid()
      ensures told <==> old(store.tasks)[i].id in old(registry.reasons) || reasons != []
      ensures store.tasks == Attempted(old(store.tasks), i, end, told, |reasons|, payloads) && i < |store.tasks|
      ensures !end.ThrowsForeign? ==> EndedAs(store.tasks[i], end, told, payloads.2)
      ensures !end.ThrowsForeign? ==> registry.reasons == old(registry.reasons) - {old(store.tasks)[i].id}
      ensures registry.active == old(registry.active) - {old(store.tasks)[i].id}
    {
      ghost var before := store.tasks;
      FindOwn(store.tasks, i);
      told := RunAttempt(i, end, reasons, payloads);
      AttemptKeepsAll(before, i, end, told, |reasons|, payloads);
    }
  }

  /** A cancellation through the controller while an attempt is registered is never lost: the attempt's
      token is cancelled. */
  method CancelWhileOpen(controller: AsyncAgentRunController, i: nat, end: RunnerEnd, reason: string, payload: Value)
    returns (token: CancellationToken)
    requires controller.Valid() && controller.worker.Some?
    requires i < |controller.store.tasks| && controller.store.tasks[i].status.Queued?
    modifies controller.store, controller.worker.value.registry
    ensures controller.Valid() && i < |controller.store.tasks| && fresh(token) && token.reason == Some(reason)
  {
    var id := controller.store.tasks[i].id;
    token := controller.worker.value.OpenQueued(i, end, payload);
    var refusal := controller.CancelRun(id, reason);
    assert refusal.None?;
  }

  /** So however the attempt then throws, the run ends cancelled. */
  method CancelDuringAttempt(
      controller: AsyncAgentRunController, i: nat, end: RunnerEnd, reason: string, payloads: (Value, Value, Value))
    requires controller.Valid() && controller.worker.Some?
    requires i < |controller.store.tasks| && controller.store.tasks[i].status.Queued?
    modifies controller.store, controller.worker.value.registry
    ensures controller.Valid() && i < |controller.store.tasks|
    ensures end.NoRunner? || end.Throws? ==> controller.store.tasks[i].status.Cancelled?
  {
    var token := CancelWhileOpen(controller, i, end, reason, payloads.0);
    CloseKeepsAll(controller.store.tasks, i, end, true, payloads.1, payloads.2);
    var told := controller.worker.value.CloseAttempt(i, end, token, payloads.1, payloads.2);
  }

  lemma Refused(tasks: seq<Task>, policy: Policy, op: Op)
    requires Refusable(tasks, policy, op).Some?
    ensures forall resumed :: Apply(World(tasks, resumed), policy, op).tasks == tasks
  {
  }

  lemma ResumeApplies(tasks: seq<Task>, policy: Policy, id: string, i: nat)
    requires Inv(tasks) && Mirrors(tasks)
    requires i == Find(tasks, id) < |tasks| && (tasks[i].status.Waiting? || tasks[i].status.Failed?)
    ensures forall resumed :: Apply(World(tasks, resumed), policy, Resume(id)).tasks == ResumeRun(tasks, i)
    ensures Inv(ResumeRun(tasks, i)) && Mirrors(ResumeRun(tasks, i))
  {
    StepKeepsInv(World(tasks, []), policy, Resume(id));
    StepKeepsMirrors(World(tasks, []), policy, Resume(id));
  }

  lemma CancelApplies(tasks: seq<Task>, policy: Policy, id: string, i: nat)
    requires Inv(tasks) && Mirrors(tasks) && i == Find(tasks, id) < |tasks| && !IsClosed(tasks[i].status)
    ensures forall resumed :: Apply(World(tasks, resumed), policy, Cancel(id)).tasks == CancelRun(tasks, i)
    ensures Inv(CancelRun(tasks, i)) && Mirrors(CancelRun(tasks, i)) && |CancelRun(tasks, i)| == |tasks|
  {
    StepKeepsInv(World(tasks, []), policy, Cancel(id));
    StepKeepsMirrors(World(tasks, []), policy, Cancel(id));
  }

  lemma UpdateTwice<K, V>(m: map<K, V>, key: K, before: V, value: V)
    ensures m[key := before][key := value] == m[key := value]
  {
  }

  lemma UpdateThenRemove<K, V>(m: map<K, V>, key: K, value: V)
    ensures m[key := value] - {key} == m - {key}
  {
  }

  // ---------------------------------------------------------------- what an attempt keeps

  /** The same ids in the same places. */
  lemma OpenKeepsPlaces(tasks: seq<Task>, i: nat, end: RunnerEnd, payload: Value)
    requires i < |tasks|
    ensures Keeps(tasks, Opened(tasks, i, end, payload))
    ensures Find(Opened(tasks, i, end, payload), tasks[i].id) == Find(tasks, tasks[i].id)
    ensures Opened(tasks, i, end, payload)[i].status.Running?
  {
    BeginChanges(SetStatus(tasks, i, Running), i, payload);
    SameFind(tasks, Opened(tasks, i, end, payload), tasks[i].id);
  }

  lemma OneMoreCancel(tasks: seq<Task>, i: nat, n: nat)
    requires i < |tasks|
    ensures CancelledTimes(tasks, i, n + 1) == CancelRun(CancelledTimes(tasks, i, n), i)
  {
  }

  lemma {:induction false} CancelsKeep(tasks: seq<Task>, i: nat, n: nat)
    requires i < |tasks|
    ensures Keeps(tasks, CancelledTimes(tasks, i, n))
  {
    if n > 0 {
      var before := CancelledTimes(tasks, i, n - 1);
      CancelsKeep(tasks, i, n - 1);
      CancelChanges(before, i);
    }
  }

  lemma CancelKeepsPlaces(tasks: seq<Task>, i: nat, n: nat)
    requires i < |tasks|
    ensures Keeps(tasks, CancelledTimes(tasks, i, n))
    ensures Find(CancelledTimes(tasks, i, n), tasks[i].id) == Find(tasks, tasks[i].id)
  {
    CancelsKeep(tasks, i, n);
    SameFind(tasks, CancelledTimes(tasks, i, n), tasks[i].id);
  }

  lemma OpenKeepsAll(tasks: seq<Task>, i: nat, end: RunnerEnd, payload: Value)
    requires Inv(tasks) && Mirrors(tasks) && i < |tasks|
    ensures Inv(Opened(tasks, i, end, payload)) && Mirrors(Opened(tasks, i, end, payload))
  {
    var claimed := SetStatus(tasks, i, Running);
    ChangeKeepsInv(tasks, claimed, i, Running);
    FieldsKeepMirrors(tasks, claimed);
    if !end.NoRunner? {
      BeginChanges(claimed, i, payload);
      ChangeKeepsInv(claimed, BeginRun(claimed, i, payload), i, Running);
      BeginKeepsMirrors(claimed, i, payload);
    }
  }

  lemma CancelKeepsAll(tasks: seq<Task>, i: nat)
    requires Inv(tasks) && Mirrors(tasks) && i < |tasks|
    ensures Inv(CancelRun(tasks, i)) && Mirrors(CancelRun(tasks, i))
  {
    CancelChanges(tasks, i);
    ChangeKeepsInv(tasks, CancelRun(tasks, i), i, Cancelled);
    StatusAndThreeKeepMirrors(
      tasks, i, Cancelled, "async_run.cancel.requested", "async_run.activity", "async_run.cancelled");
  }

  lemma {:induction false} CancelsKeepAll(tasks: seq<Task>, i: nat, n: nat)
    requires Inv(tasks) && Mirrors(tasks) && i < |tasks|
    ensures Inv(CancelledTimes(tasks, i, n)) && Mirrors(CancelledTimes(tasks, i, n))
  {
    if n > 0 {
      CancelsKeepAll(tasks, i, n - 1);
      CancelKeepsAll(CancelledTimes(tasks, i, n - 1), i);
    }
  }

  lemma CloseKeepsAll(tasks: seq<Task>, i: nat, end: RunnerEnd, told: bool, ledgerPayload: Value, payload: Value)
    requires Inv(tasks) && Mirrors(tasks) && i < |tasks|
    ensures var after := Closed(tasks, i, end, told, ledgerPayload, payload);
            && Inv(after) && Mirrors(after) && |after| == |tasks|
            && (!end.ThrowsForeign? ==> EndedAs(after[i], end, told, payload))
  {
    if !end.ThrowsForeign? {
      CloseEndsAs(tasks, i, end, told, ledgerPayload, payload);
      var outcome := OutcomeOf(end, told);
      EndChanges(tasks, i, outcome, ledgerPayload, payload);
      ChangeKeepsInv(tasks, EndRun(tasks, i, outcome, ledgerPayload, payload), i, outcome.Status());
      EndKeepsMirrors(tasks, i, outcome, ledgerPayload, payload);
    }
  }

  lemma AttemptKeepsAll(tasks: seq<Task>, i: nat, end: RunnerEnd, told: bool, n: nat, payloads: (Value, Value, Value))
    requires Inv(tasks) && Mirrors(tasks) && i < |tasks|
    ensures var after := Attempted(tasks, i, end, told, n, payloads);
            && Inv(after) && Mirrors(after) && |after| == |tasks|
            && (!end.ThrowsForeign? ==> EndedAs(after[i], end, told, payloads.2))
  {
    var running := Opened(tasks, i, end, payloads.0);
    OpenKeepsAll(tasks, i, end, payloads.0);
    CancelsKeepAll(running, i, n);
    CloseKeepsAll(CancelledTimes(running, i, n), i, end, told, payloads.1, payloads.2);
  }
}
