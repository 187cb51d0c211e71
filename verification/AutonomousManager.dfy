/** The run manager, call by call against its store: every method makes exactly the writes that
    `AutonomousOperations` gives for it, and so inherits what is proved about them. */
module AutonomousManager {
  import opened Wrappers
  import opened Values
  import opened Autonomous
  import opened AutonomousCodec
  import opened AutonomousOperations
  import opened AutonomousProtocol
  import opened AutonomousGuards
  import opened AutonomousStore

  lemma AfterTwo(s: State, id: string, a: Write, b: Write)
    requires id in s.records
    ensures s.After(id, [a]).After(id, [b]) == s.After(id, [a, b])
  {
    AfterConcat(s, id, [a], [b]);
    assert [a] + [b] == [a, b];
  }

  lemma AfterThree(s: State, id: string, a: Write, b: Write, c: Write)
    requires id in s.records
    ensures s.After(id, [a]).After(id, [b]).After(id, [c]) == s.After(id, [a, b, c])
  {
    AfterTwo(s, id, a, b);
    AfterConcat(s, id, [a, b], [c]);
    assert [a, b] + [c] == [a, b, c];
  }

  lemma AfterThreeOrFour(s: State, id: string, log: seq<Write>)
    requires id in s.records && 3 <= |log| <= 4
    ensures var three := s.After(id, [log[0]]).After(id, [log[1]]).After(id, [log[2]]);
            s.After(id, log) == if |log| == 3 then three else three.After(id, [log[3]])
  {
    AfterThree(s, id, log[0], log[1], log[2]);
    if |log| == 4 {
      AfterConcat(s, id, [log[0], log[1], log[2]], [log[3]]);
      assert log == [log[0], log[1], log[2]] + [log[3]];
    } else {
      assert log == [log[0], log[1], log[2]];
    }
  }

  /** What `run` answers. */
  function RunAnswer(rec: Record, env: Env): Result<Record, Failure> {
    match PrepareWrites(rec, env.plan)
    case None => Err(EmptyPlan)
    case Some(writes) => LoopAnswer(ApplyAll(rec, writes), env, env.Limit())
  }

  /** What `run` answers once it is prepared. */
  function LoopAnswer(rec: Record, env: Env, budget: nat): Result<Record, Failure> {
    var trace := RunLoop(rec, env, budget);
    if trace.exceeded then Err(LimitExceeded(env.Limit())) else Ok(ApplyAll(rec, trace.log))
  }

  /** What `resume` answers. */
  function ResumeAnswer(rec: Record, retryFailedStep: bool, env: Env): Result<Record, Failure> {
    if Closed(rec) then Ok(rec)
    else
      var after := ApplyAll(rec, RetryWrites(rec, retryFailedStep));
      if after.run.status.RunWaiting? && AnyWaiting(after.steps) then Ok(after) else RunAnswer(after, env)
  }

  datatype Ending = Ending(state: State, answer: Result<Record, Failure>)

  /** Where the loop leads from here, and its answer. */
  ghost function LoopEnd(s: State, rec: Record, env: Env, budget: nat): Ending
    requires rec.run.id in s.records
  {
    Ending(s.After(rec.run.id, RunLoop(rec, env, budget).log), LoopAnswer(rec, env, budget))
  }

  lemma LoopExhausted(s: State, rec: Record, env: Env)
    requires rec.run.id in s.records
    ensures LoopEnd(s, rec, env, 0) == Ending(s, Err(LimitExceeded(env.Limit())))
  {
    AfterNothing(s, rec.run.id);
  }

  lemma LoopIdle(s: State, rec: Record, env: Env, budget: nat)
    requires rec.run.id in s.records && budget > 0 && FirstReady(rec.steps, 0) == |rec.steps|
    ensures LoopEnd(s, rec, env, budget)
            == Ending(s.After(rec.run.id, IdleWrites(rec)), Ok(ApplyAll(rec, IdleWrites(rec))))
  {
  }

  lemma LoopTurn(s: State, rec: Record, env: Env, budget: nat, left: nat, next: nat, after: Record)
    requires rec.run.id in s.records && s.records[rec.run.id] == rec
    requires budget == left + 1 && next == FirstReady(rec.steps, 0) < |rec.steps|
    requires after == ApplyAll(rec, ExecuteWrites(rec, next, env.executor(InputFor(rec, next))))
    ensures after.run.id == rec.run.id
    ensures var turned := s.After(rec.run.id, ExecuteWrites(rec, next, env.executor(InputFor(rec, next))));
            LoopEnd(s, rec, env, budget)
            == if Stops(after.run.status) then Ending(turned, Ok(after)) else LoopEnd(turned, after, env, left)
  {
    var writes := ExecuteWrites(rec, next, env.executor(InputFor(rec, next)));
    KeepsRunId(rec, writes);
    Unrolled(rec, env, budget, left);
    if !Stops(after.run.status) {
      var rest := RunLoop(after, env, left).log;
      ApplyConcat(rec, writes, rest);
      AfterConcat(s, rec.run.id, writes, rest);
    }
  }

  lemma {:induction false} KeepsRunId(rec: Record, log: seq<Write>)
    ensures ApplyAll(rec, log).run.id == rec.run.id
    decreases |log|
  {
    if log != [] {
      KeepsRunId(Apply(rec, log[0]), log[1..]);
    }
  }

  // ---------------------------------------------------------------- searching the steps

  /** Every dependency has to be found, and found completed. */
  method DependenciesDone(step: Step, steps: seq<Step>) returns (done: bool)
    ensures done == DependenciesCompleted(steps, step)
  {
    for d := 0 to |step.dependsOn|
      invariant forall k | 0 <= k < d :: IdCompleted(steps, step.dependsOn[k])
    {
      var found := 0;
      while found < |steps| && steps[found].id != step.dependsOn[d]
        invariant found <= |steps| && forall k | 0 <= k < found :: steps[k].id != step.dependsOn[d]
      {
        found := found + 1;
      }
      assert found == IndexOf(steps, step.dependsOn[d]);
      if found == |steps| || !steps[found].status.Completed? {
        assert !IdCompleted(steps, step.dependsOn[d]);
        return false;
      }
    }
    done := true;
  }

  method FindReady(steps: seq<Step>) returns (next: nat)
    ensures next == FirstReady(steps, 0)
  {
    next := 0;
    while next < |steps|
      invariant next <= |steps| && forall k | 0 <= k < next :: !IsReady(steps, k)
    {
      if steps[next].status.Pending? {
        var done := DependenciesDone(steps[next], steps);
        if done {
          assert IsReady(steps, next);
          assert FirstReady(steps, 0) == next;
          return;
        }
      }
      next := next + 1;
    }
  }

  method HasWaiting(steps: seq<Step>) returns (waiting: bool)
    ensures waiting == AnyWaiting(steps)
  {
    for k := 0 to |steps|
      invariant forall j | 0 <= j < k :: !steps[j].status.Waiting?
    {
      if steps[k].status.Waiting? {
        return true;
      }
    }
    waiting := false;
  }

  method FindFailed(steps: seq<Step>) returns (failed: nat)
    ensures failed == FirstFailed(steps, 0)
  {
    failed := 0;
    while failed < |steps| && !steps[failed].status.Failed?
      invariant failed <= |steps| && forall k | 0 <= k < failed :: !steps[k].status.Failed?
    {
      failed := failed + 1;
    }
  }

  /** Copies the steps with a smaller index. */
  method CopyPrevious(steps: seq<Step>, index: nat) returns (previous: seq<Step>)
    ensures previous == PreviousSteps(steps, index)
  {
    previous := [];
    assert steps[0..] == steps;
    for k := 0 to |steps|
      invariant previous + PreviousSteps(steps[k..], index) == PreviousSteps(steps, index)
    {
      assert steps[k..][1..] == steps[k + 1..];
      if steps[k].index < index {
        previous := previous + [steps[k]];
      }
    }
  }

  /** Lists id, title and output of every step. */
  method OutputFrom(steps: seq<Step>) returns (output: Value)
    ensures output == OutputOfSteps(steps)
  {
    var items := [];
    for k := 0 to |steps|
      invariant |items| == k
      invariant forall j | 0 <= j < k ::
                  items[j] == Obj(map["stepId" := Str(steps[j].id), "title" := Str(steps[j].title),
                                      "output" := steps[j].output])
    {
      items := items + [Obj(map["stepId" := Str(steps[k].id), "title" := Str(steps[k].title),
                                "output" := steps[k].output])];
    }
    output := Arr(items);
  }

  class AutonomousRunManager {
    const store: InMemoryAutonomousStore
    const planner: Run -> Plan
    const executor: ExecutionInput -> Execution
    const maxStepsPerRun: nat

    ghost predicate Valid()
      reads store
    {
      maxStepsPerRun > 0 && store.Valid()
    }

    ghost function View(): State
      reads store
    {
      store.View()
    }

    function EnvFor(run: Run): Env {
      Env(planner(run), executor, maxStepsPerRun)
    }

    constructor (
        store: InMemoryAutonomousStore, planner: Run -> Plan, executor: ExecutionInput -> Execution, limit: nat)
      requires store.Valid()
      ensures Valid() && this.store == store && this.planner == planner && this.executor == executor
      ensures maxStepsPerRun == if limit == 0 then 64 else limit
    {
      this.store, this.planner, this.executor := store, planner, executor;
      maxStepsPerRun := if limit == 0 then 64 else limit;
    }

    /** The store holds this record of the run. */
    ghost predicate Holds(snapshot: Record)
      reads store
    {
      && Valid()
      && snapshot.run.id in View().records && View().records[snapshot.run.id] == snapshot
    }

    method RequireSnapshot(runId: string) returns (r: Result<Record, Failure>)
      requires Valid()
      modifies store
      ensures Valid() && View() == old(View())
      ensures runId !in View().records ==> r == Err(RunNotFound(runId))
      ensures runId in View().records ==> r == Ok(View().records[runId]) && r.value.run.id == runId && Holds(r.value)
    {
      var found := store.GetRun(runId);
      r := if found.Some? then Ok(found.value) else Err(RunNotFound(runId));
    }

    // ---------------------------------------------------------------- executing a step

    method StartStep(snapshot: Record, i: nat) returns (running: Step)
      requires Holds(snapshot) && i < |snapshot.steps|
      modifies store
      ensures Valid() && running == StartedStep(snapshot, snapshot.steps[i])
      ensures View() == old(View()).After(snapshot.run.id, StartWrites(snapshot, snapshot.steps[i]))
    {
      var id, step := snapshot.run.id, snapshot.steps[i];
      ghost var log := StartWrites(snapshot, step);
      AfterThree(View(), id, log[0], log[1], log[2]);
      var patch := STEP_PATCH.(status := Some(Running), error := Some(""), waitReason := Some(""),
                               attempts := Some(step.attempts + 1));
      assert patch == StartPatch(step);
      var updated := store.UpdateStep(id, step.id, patch);
      running := updated.value;
      var _ := store.AppendEvent(
        Event(id, step.id, STEP_STARTED, Obj(map["attempt" := Int(running.attempts)])));
      var _ := store.AppendCheckpoint(Checkpoint(id, step.id, "step.started", StepToValue(running)));
    }

    method RecordCallbacks(snapshot: Record, step: Step, checkpoints: seq<(string, Value)>)
      requires Valid() && snapshot.run.id in View().records
      modifies store
      ensures Valid() && View() == old(View()).After(snapshot.run.id, CallbackWrites(snapshot, step, checkpoints))
    {
      var id := snapshot.run.id;
      ghost var log := CallbackWrites(snapshot, step, checkpoints);
      ghost var start := View();
      AfterNothing(start, id);
      assert log[..0] == [];
      for k := 0 to |checkpoints|
        invariant Valid() && View() == start.After(id, log[..k])
      {
        AfterConcat(start, id, log[..k], [log[k]]);
        assert log[..k] + [log[k]] == log[..k + 1];
        var _ := store.AppendCheckpoint(Checkpoint(id, step.id, checkpoints[k].0, checkpoints[k].1));
      }
      assert log[..|checkpoints|] == log;
    }

    method PauseStep(snapshot: Record, running: Step, finish: Finish)
      requires finish.Returned? && finish.status.Waiting?
      requires Valid() && snapshot.run.id in View().records
      requires var steps := View().records[snapshot.run.id].steps; IndexOf(steps, running.id) < |steps|
      modifies store
      ensures Valid() && View() == old(View()).After(snapshot.run.id, FinishWrites(snapshot, running, finish))
    {
      var id := snapshot.run.id;
      ghost var log := FinishWrites(snapshot, running, finish);
      AfterThree(View(), id, log[0], log[1], log[2]);
      assert log == [log[0], log[1], log[2]];
      var _ := store.UpdateStep(
        id, running.id, STEP_PATCH.(status := Some(Waiting), output := Some(finish.output),
                                    waitReason := Some(finish.waitReason),
                                    metadata := Some(MergeMetadata(running.metadata, finish.metadata))));
      var _ := store.UpdateRun(id, RUN_PATCH.(status := Some(RunWaiting)));
      var _ := store.AppendEvent(Event(id, running.id, STEP_WAITING, Obj(map["reason" := Str(finish.waitReason)])));
    }

    method FailStep(snapshot: Record, running: Step, finish: Finish)
      requires finish.Threw?
      requires Valid() && snapshot.run.id in View().records
      requires var steps := View().records[snapshot.run.id].steps; IndexOf(steps, running.id) < |steps|
      modifies store
      ensures Valid() && View() == old(View()).After(snapshot.run.id, FinishWrites(snapshot, running, finish))
    {
      var id := snapshot.run.id;
      ghost var log := FinishWrites(snapshot, running, finish);
      AfterThree(View(), id, log[0], log[1], log[2]);
      assert log == [log[0], log[1], log[2]];
      var _ := store.UpdateStep(
        id, running.id, STEP_PATCH.(status := Some(Failed), error := Some(finish.message)));
      var _ := store.UpdateRun(id, RUN_PATCH.(status := Some(RunFailed), error := Some(finish.message)));
      var _ := store.AppendEvent(
        Event(id, running.id, "autonomous.run.failed", Obj(map["error" := Str(finish.message)])));
    }

    method CompleteStep(snapshot: Record, running: Step, finish: Finish)
      requires finish.Returned? && !finish.status.Waiting?
      requires Valid() && snapshot.run.id in View().records
      requires var steps := View().records[snapshot.run.id].steps; IndexOf(steps, running.id) < |steps|
      modifies store
      ensures Valid() && View() == old(View()).After(snapshot.run.id, FinishWrites(snapshot, running, finish))
    {
      var id := snapshot.run.id;
      ghost var log := FinishWrites(snapshot, running, finish);
      AfterThreeOrFour(View(), id, log);
      var _ := store.UpdateStep(
        id, running.id, STEP_PATCH.(status := Some(Completed), output := Some(finish.output),
                                    metadata := Some(MergeMetadata(running.metadata, finish.metadata))));
      var _ := store.AppendCheckpoint(Checkpoint(id, running.id, "step.completed", finish.output));
      var _ := store.AppendEvent(Event(id, running.id, STEP_COMPLETED, Obj(map["output" := finish.output])));
      if finish.nextSteps != [] {
        var _ := store.AppendSteps(id, finish.nextSteps);
      }
    }

    method FinishStep(snapshot: Record, running: Step, finish: Finish)
      requires Valid() && snapshot.run.id in View().records
      requires var steps := View().records[snapshot.run.id].steps; IndexOf(steps, running.id) < |steps|
      modifies store
      ensures Valid() && View() == old(View()).After(snapshot.run.id, FinishWrites(snapshot, running, finish))
    {
      if finish.Threw? {
        FailStep(snapshot, running, finish);
      } else if finish.status.Waiting? {
        PauseStep(snapshot, running, finish);
      } else {
        CompleteStep(snapshot, running, finish);
      }
    }

    method ExecuteStep(snapshot: Record, i: nat) returns (after: Record)
      requires Holds(snapshot) && i < |snapshot.steps|
      modifies store
      ensures Valid()
      ensures var log := ExecuteWrites(snapshot, i, executor(InputFor(snapshot, i)));
              View() == old(View()).After(snapshot.run.id, log) && after == ApplyAll(snapshot, log)
    {
      var step := snapshot.steps[i];
      ghost var start := View();
      var running := StartStep(snapshot, i);
      var previous := CopyPrevious(snapshot.steps, step.index);
      var execution := executor(ExecutionInput(snapshot.run, running, previous));
      RecordCallbacks(snapshot, step, execution.checkpoints);
      ExecuteInThree(start, snapshot, i, execution);
      FinishStep(snapshot, running, execution.finish);
      var answer := RequireSnapshot(snapshot.run.id);
      after := answer.value;
    }

    // ---------------------------------------------------------------- running

    /** The scheduling loop. */
    method RunPrepared(prepared: Record, ghost env: Env, ghost end: Ending)
      returns (r: Result<Record, Failure>)
      requires Holds(prepared) && env.executor == executor && env.Limit() == maxStepsPerRun
      requires end == LoopEnd(View(), prepared, env, maxStepsPerRun)
      modifies store
      ensures Valid()
      ensures Ending(View(), r) == end
    {
      var snapshot, executed := prepared, 0;
      ghost var left := maxStepsPerRun;
      while executed < maxStepsPerRun
        invariant executed + left == maxStepsPerRun && Holds(snapshot)
        invariant LoopEnd(View(), snapshot, env, left) == end
      {
        executed := executed + 1;
        ghost var rest := left - 1;
        var done;
        snapshot, done := Pick(snapshot, env, left, rest, end);
        if done {
          return Ok(snapshot);
        }
        left := rest;
      }
      LoopExhausted(View(), snapshot, env);
      r := Err(LimitExceeded(maxStepsPerRun));
    }

    /** One turn of the loop: start the first ready step, or wait or complete if there is none. */
    method Pick(snapshot: Record, ghost env: Env, ghost left: nat, ghost rest: nat, ghost end: Ending)
      returns (after: Record, done: bool)
      requires Holds(snapshot) && env.executor == executor
      requires left == rest + 1 && LoopEnd(View(), snapshot, env, left) == end
      modifies store
      ensures Holds(after)
      ensures if done then Ending(View(), Ok(after)) == end else LoopEnd(View(), after, env, rest) == end
    {
      var next := FindReady(snapshot.steps);
      if next == |snapshot.steps| {
        after := GoIdle(snapshot, env, left);
        done := true;
      } else {
        after := TakeTurn(snapshot, next, env, left, rest);
        done := after.run.status in {RunWaiting, RunFailed, RunInterrupted, RunCancelled};
      }
    }

    method TakeTurn(snapshot: Record, next: nat, ghost env: Env, ghost left: nat, ghost rest: nat)
      returns (after: Record)
      requires Holds(snapshot) && next == FirstReady(snapshot.steps, 0) < |snapshot.steps|
      requires env.executor == executor && left == rest + 1
      modifies store
      ensures Holds(after)
      ensures LoopEnd(old(View()), snapshot, env, left)
              == if Stops(after.run.status) then Ending(View(), Ok(after)) else LoopEnd(View(), after, env, rest)
    {
      ghost var before := View();
      after := ExecuteStep(snapshot, next);
      LoopTurn(before, snapshot, env, left, rest, next, after);
    }

    /** The loop found nothing to start. */
    method GoIdle(snapshot: Record, ghost env: Env, ghost budget: nat) returns (after: Record)
      requires Holds(snapshot) && FirstReady(snapshot.steps, 0) == |snapshot.steps| && budget > 0
      modifies store
      ensures Holds(after) && LoopEnd(old(View()), snapshot, env, budget) == Ending(View(), Ok(after))
    {
      LoopIdle(View(), snapshot, env, budget);
      KeepsRunId(snapshot, IdleWrites(snapshot));
      var waiting := HasWaiting(snapshot.steps);
      if waiting {
        var _ := store.UpdateRun(snapshot.run.id, RUN_PATCH.(status := Some(RunWaiting)));
      } else {
        CompleteRun(snapshot);
      }
      var answer := RequireSnapshot(snapshot.run.id);
      after := answer.value;
    }

    method CompleteRun(snapshot: Record)
      requires Holds(snapshot)
      modifies store
      ensures Valid() && View() == old(View()).After(snapshot.run.id, CompleteWrites(snapshot))
    {
      var id := snapshot.run.id;
      var output := OutputFrom(snapshot.steps);
      ghost var log := CompleteWrites(snapshot);
      AfterThree(View(), id, log[0], log[1], log[2]);
      var _ := store.UpdateRun(id, RUN_PATCH.(status := Some(RunCompleted), output := Some(output)));
      var _ := store.AppendCheckpoint(Checkpoint(id, "", "run.completed", Obj(map["output" := output])));
      var _ := store.AppendEvent(Event(id, "", "autonomous.run.completed", Obj(map["output" := output])));
    }

    // ---------------------------------------------------------------- preparing

    method CreateRun(id: string, goal: string, input: Value, metadata: Value) returns (r: Result<Run, Failure>)
      requires Valid()
      modifies store
      ensures Valid()
      ensures id in old(View()).records ==> r == Err(RunExists(id)) && View() == old(View())
      ensures id !in old(View()).records ==>
                && r == Ok(NewRun(id, goal, input, metadata))
                && View().records == old(View()).records[id := Created(r.value)]
    {
      r := store.CreateRun(id, goal, input, metadata);
      if r.Ok? {
        var e := Event(id, "", "autonomous.run.created", Obj(map["goal" := Str(goal)]));
        AfterOne(View(), id, AppendEvent(e));
        assert Apply(Record(r.value, [], [], []), AppendEvent(e)) == Created(r.value);
        ghost var records := old(View()).records;
        assert records[id := Record(r.value, [], [], [])][id := Created(r.value)] == records[id := Created(r.value)];
        var _ := store.AppendEvent(e);
      }
    }

    method Plan(runId: string) returns (r: Result<Record, Failure>)
      requires Valid()
      modifies store
      ensures Valid()
      ensures runId !in old(View()).records ==> r == Err(RunNotFound(runId)) && View() == old(View())
      ensures runId in old(View()).records ==>
                var rec := old(View()).records[runId];
                var plan := planner(rec.run);
                if rec.steps == [] && plan.steps == [] then r == Err(EmptyPlan) && View() == old(View())
                else
                  && View() == old(View()).After(runId, PlanWrites(rec, plan))
                  && r == Ok(ApplyAll(rec, PlanWrites(rec, plan)))
      ensures runId in old(View()).records && planner(old(View()).records[runId].run).steps != [] ==>
                var rec := old(View()).records[runId];
                View() == old(View()).After(runId, OpWrites(rec, OpPlan, EnvFor(rec.run)))
    {
      r := RequireSnapshot(runId);
      if r.Err? {
        return;
      }
      var snapshot := r.value;
      if snapshot.steps != [] {
        AfterNothing(View(), runId);
        return;
      }
      var plan := planner(snapshot.run);
      if plan.steps == [] {
        return Err(EmptyPlan);
      }
      ghost var log := PlanWrites(snapshot, plan);
      AfterThree(View(), runId, log[0], log[1], log[2]);
      var planned := store.ReplaceSteps(runId, plan.steps);
      var _ := store.AppendCheckpoint(Checkpoint(runId, "", "plan", PlanToValue(plan)));
      var _ := store.AppendEvent(
        Event(runId, "", "autonomous.run.planned",
              Obj(map["summary" := Str(plan.summary), "stepCount" := Int(|planned.value|)])));
      r := RequireSnapshot(runId);
    }

    method SweepStep(snapshot: Record, sweep: Sweep, step: Step)
      requires Valid() && snapshot.run.id in View().records
      requires var steps := View().records[snapshot.run.id].steps; IndexOf(steps, step.id) < |steps|
      modifies store
      ensures Valid() && View() == old(View()).After(snapshot.run.id, SweepOne(snapshot, sweep, step))
    {
      var id := snapshot.run.id;
      AfterNothing(View(), id);
      if (if sweep.Requeue? then step.status.Running? else step.status in {Pending, Running, Waiting}) {
        ghost var log := SweepOne(snapshot, sweep, step);
        if sweep.Requeue? {
          AfterTwo(View(), id, log[0], log[1]);
        }
        var _ := store.UpdateStep(
          id, step.id,
          if sweep.Requeue? then
            STEP_PATCH.(status := Some(Pending), error := Some("Step was interrupted before completion."))
          else STEP_PATCH.(status := Some(Cancelled), error := Some(sweep.reason)));
        if sweep.Requeue? {
          var _ := store.AppendEvent(Event(id, step.id, STEP_INTERRUPTED, Null));
        }
      }
    }

    /** Goes over the steps as the snapshot shows them. */
    method SweepSteps(snapshot: Record, sweep: Sweep)
      requires Valid() && snapshot.run.id in View().records
      requires SameIds(snapshot.steps, View().records[snapshot.run.id].steps)
      modifies store
      ensures Valid()
      ensures View() == old(View()).After(snapshot.run.id, SweepWrites(snapshot, sweep, snapshot.steps, 0))
    {
      var id, steps := snapshot.run.id, snapshot.steps;
      ghost var end := View().After(id, SweepWrites(snapshot, sweep, steps, 0));
      for k := 0 to |steps|
        invariant Valid() && id in View().records && SameIds(steps, View().records[id].steps)
        invariant View().After(id, SweepWrites(snapshot, sweep, steps, k)) == end
      {
        ghost var here := View();
        SweepGoesOn(here, snapshot, sweep, k);
        SweepStep(snapshot, sweep, steps[k]);
      }
      AfterNothing(View(), id);
    }

    method PrepareRun(snapshot: Record) returns (r: Result<Record, Failure>)
      requires Holds(snapshot)
      modifies store
      ensures Valid()
      ensures match PrepareWrites(snapshot, planner(snapshot.run))
              case None => r == Err(EmptyPlan) && View() == old(View())
              case Some(writes) =>
                && View() == old(View()).After(snapshot.run.id, writes)
                && r == Ok(ApplyAll(snapshot, writes)) && r.value.run.id == snapshot.run.id
    {
      var id := snapshot.run.id;
      ghost var start := View();
      AfterNothing(start, id);
      if snapshot.run.status.RunCompleted? || snapshot.run.status.RunCancelled? {
        return Ok(snapshot);
      }
      r := Plan(id);
      if r.Err? {
        return;
      }
      PrepareInOrder(start, snapshot, planner(snapshot.run));
      SweepSteps(r.value, Requeue);
      var _ := store.UpdateRun(id, RUN_PATCH.(status := Some(RunRunning)));
      var _ := store.AppendEvent(Event(id, "", "autonomous.run.started", Null));
      r := RequireSnapshot(id);
    }

    /** Plans the run if it has no steps yet, puts interrupted steps back and schedules. */
    method Run(runId: string) returns (r: Result<Record, Failure>)
      requires Valid()
      modifies store
      ensures Valid()
      ensures runId !in old(View()).records ==> r == Err(RunNotFound(runId)) && View() == old(View())
      ensures runId in old(View()).records ==>
                var rec := old(View()).records[runId];
                && View() == old(View()).After(runId, OpWrites(rec, OpRun, EnvFor(rec.run)))
                && r == RunAnswer(rec, EnvFor(rec.run))
    {
      r := RequireSnapshot(runId);
      if r.Err? {
        return;
      }
      var snapshot := r.value;
      ghost var start := View();
      r := PrepareRun(snapshot);
      ghost var env := EnvFor(snapshot.run);
      RunInOrder(start, snapshot, env);
      if r.Ok? {
        ghost var end := start.After(runId, RunWrites(snapshot, env));
        r := RunPrepared(r.value, env, Ending(end, RunAnswer(snapshot, env)));
      }
    }

    // ---------------------------------------------------------------- going on, or giving up

    method Resume(runId: string, retryFailedStep: bool) returns (r: Result<Record, Failure>)
      requires Valid()
      modifies store
      ensures Valid()
      ensures runId !in old(View()).records ==> r == Err(RunNotFound(runId)) && View() == old(View())
      ensures runId in old(View()).records ==>
                var rec := old(View()).records[runId];
                && View() == old(View()).After(runId, OpWrites(rec, OpResume(retryFailedStep), EnvFor(rec.run)))
                && r == ResumeAnswer(rec, retryFailedStep, EnvFor(rec.run))
    {
      r := RequireSnapshot(runId);
      if r.Err? {
        return;
      }
      var snapshot := r.value;
      ghost var start := View();
      AfterNothing(start, runId);
      if snapshot.run.status.RunCompleted? || snapshot.run.status.RunCancelled? {
        return;
      }
      RetryFailed(snapshot, retryFailedStep);
      ResumeInOrder(start, snapshot, retryFailedStep, EnvFor(snapshot.run));
      r := RequireSnapshot(runId);
      var waiting := HasWaiting(r.value.steps);
      if r.value.run.status.RunWaiting? && waiting {
        return;
      }
      r := Run(runId);
    }

    method RetryFailed(snapshot: Record, retryFailedStep: bool)
      requires Holds(snapshot)
      modifies store
      ensures Valid() && View() == old(View()).After(snapshot.run.id, RetryWrites(snapshot, retryFailedStep))
    {
      var id := snapshot.run.id;
      var failed := FindFailed(snapshot.steps);
      AfterNothing(View(), id);
      if failed < |snapshot.steps| && retryFailedStep {
        ghost var log := RetryWrites(snapshot, retryFailedStep);
        AfterTwo(View(), id, log[0], log[1]);
        var _ := store.UpdateStep(
          id, snapshot.steps[failed].id, STEP_PATCH.(status := Some(Pending), error := Some("")));
        var _ := store.AppendEvent(Event(id, snapshot.steps[failed].id, STEP_RETRY, Null));
      }
    }

    method CompleteWaitingStep(runId: string, stepId: string, output: Value) returns (r: Result<Record, Failure>)
      requires Valid()
      modifies store
      ensures Valid()
      ensures runId !in old(View()).records ==> r == Err(RunNotFound(runId)) && View() == old(View())
      ensures runId in old(View()).records ==>
                var rec := old(View()).records[runId];
                var i := IndexOf(rec.steps, stepId);
                && View() == old(View()).After(runId, OpWrites(rec, OpCompleteWaiting(stepId, output), EnvFor(rec.run)))
                && r == if i == |rec.steps| then Err(StepNotFound(stepId))
                        else if !rec.steps[i].status.Waiting? then Err(StepNotWaiting(stepId))
                        else Ok(ApplyAll(rec, CompleteWaitingWrites(rec, stepId, output)))
    {
      r := RequireSnapshot(runId);
      if r.Err? {
        return;
      }
      var snapshot := r.value;
      AfterNothing(View(), runId);
      var i := store.FindStep(snapshot.steps, stepId);
      if i == |snapshot.steps| {
        return Err(StepNotFound(stepId));
      }
      if !snapshot.steps[i].status.Waiting? {
        return Err(StepNotWaiting(stepId));
      }
      ghost var log := CompleteWaitingWrites(snapshot, stepId, output);
      AfterThree(View(), runId, log[0], log[1], log[2]);
      var _ := store.UpdateStep(
        runId, stepId, STEP_PATCH.(status := Some(Completed), output := Some(output), waitReason := Some("")));
      var _ := store.AppendEvent(
        Event(runId, stepId, STEP_COMPLETED, Obj(map["output" := output, "source" := Str("external")])));
      var _ := store.UpdateRun(runId, RUN_PATCH.(status := Some(RunQueued)));
      r := RequireSnapshot(runId);
    }

    method Cancel(runId: string, reason: string) returns (r: Result<Record, Failure>)
      requires Valid()
      modifies store
      ensures Valid()
      ensures runId !in old(View()).records ==> r == Err(RunNotFound(runId)) && View() == old(View())
      ensures runId in old(View()).records ==>
                var rec := old(View()).records[runId];
                && View() == old(View()).After(runId, OpWrites(rec, OpCancel(reason), EnvFor(rec.run)))
                && r == Ok(ApplyAll(rec, CancelWrites(rec, reason)))
    {
      r := RequireSnapshot(runId);
      if r.Err? {
        return;
      }
      var snapshot := r.value;
      CancelAll(snapshot, reason);
      r := RequireSnapshot(runId);
    }

    method CancelAll(snapshot: Record, reason: string)
      requires Holds(snapshot)
      modifies store
      ensures Valid() && View() == old(View()).After(snapshot.run.id, CancelWrites(snapshot, reason))
    {
      var id := snapshot.run.id;
      CancelInOrder(View(), snapshot, reason);
      var _ := store.UpdateRun(id, RUN_PATCH.(status := Some(RunCancelled), error := Some(reason)));
      SweepSteps(snapshot, CancelOpen(reason));
      var _ := store.AppendEvent(Event(id, "", "autonomous.run.cancelled", Obj(map["reason" := Str(reason)])));
    }
  }

  lemma ExecuteInThree(start: State, snapshot: Record, i: nat, execution: Execution)
    requires snapshot.run.id in start.records && start.records[snapshot.run.id] == snapshot && i < |snapshot.steps|
    ensures var id, step, running := snapshot.run.id, snapshot.steps[i], StartedStep(snapshot, snapshot.steps[i]);
            var mid := start.After(id, StartWrites(snapshot, step))
                            .After(id, CallbackWrites(snapshot, step, execution.checkpoints));
            && (var steps := mid.records[id].steps; IndexOf(steps, running.id) < |steps|)
            && mid.After(id, FinishWrites(snapshot, running, execution.finish))
               == start.After(id, ExecuteWrites(snapshot, i, execution))
  {
    var id, step, running := snapshot.run.id, snapshot.steps[i], StartedStep(snapshot, snapshot.steps[i]);
    var first := StartWrites(snapshot, step);
    var second := CallbackWrites(snapshot, step, execution.checkpoints);
    var third := FinishWrites(snapshot, running, execution.finish);
    AfterConcat(start, id, first, second);
    StillThere(snapshot, first + second, step.id);
    AfterConcat(start, id, first + second, third);
    assert (first + second) + third == first + (second + third);
  }

  /** A step that is in the list stays in it. */
  lemma StillThere(rec: Record, log: seq<Write>, stepId: string)
    requires NoReplace(log) && IndexOf(rec.steps, stepId) < |rec.steps|
    ensures var steps := ApplyAll(rec, log).steps; IndexOf(steps, stepId) < |steps|
  {
    IdsKept(rec, log);
    var i := IndexOf(rec.steps, stepId);
    assert ApplyAll(rec, log).steps[i].id == stepId;
  }

  lemma SweepGoesOn(s: State, snapshot: Record, sweep: Sweep, k: nat)
    requires snapshot.run.id in s.records && k < |snapshot.steps|
    requires SameIds(snapshot.steps, s.records[snapshot.run.id].steps)
    ensures var id, steps := snapshot.run.id, s.records[snapshot.run.id].steps;
            var next := s.After(id, SweepOne(snapshot, sweep, snapshot.steps[k]));
            && IndexOf(steps, snapshot.steps[k].id) < |steps|
            && SameIds(snapshot.steps, next.records[id].steps)
            && next.After(id, SweepWrites(snapshot, sweep, snapshot.steps, k + 1))
               == s.After(id, SweepWrites(snapshot, sweep, snapshot.steps, k))
  {
    var id := snapshot.run.id;
    var one := SweepOne(snapshot, sweep, snapshot.steps[k]);
    AfterConcat(s, id, one, SweepWrites(snapshot, sweep, snapshot.steps, k + 1));
    IdsKept(s.records[id], one);
    assert s.records[id].steps[k].id == snapshot.steps[k].id;
  }

  lemma {:induction false} SweepSameRun(a: Record, b: Record, sweep: Sweep, steps: seq<Step>, k: nat)
    requires a.run == b.run && k <= |steps|
    ensures SweepWrites(a, sweep, steps, k) == SweepWrites(b, sweep, steps, k)
    decreases |steps| - k
  {
    if k < |steps| {
      SweepSameRun(a, b, sweep, steps, k + 1);
    }
  }

  lemma PlanKeepsRun(rec: Record, plan: Plan)
    ensures ApplyAll(rec, PlanWrites(rec, plan)).run == rec.run
  {
    var log := PlanWrites(rec, plan);
    if log != [] {
      QuietLog(false, Apply(rec, log[0]), log[1..]);
    }
  }

  lemma PrepareInOrder(start: State, rec: Record, plan: Plan)
    requires rec.run.id in start.records && start.records[rec.run.id] == rec
    requires !Closed(rec) && PrepareWrites(rec, plan).Some?
    ensures var id, planned, log := rec.run.id, ApplyAll(rec, PlanWrites(rec, plan)), StartRunWrites(rec);
            && planned.run == rec.run
            && start.After(id, PlanWrites(rec, plan)).After(id, SweepWrites(planned, Requeue, planned.steps, 0))
                 .After(id, [log[0]]).After(id, [log[1]])
               == start.After(id, PrepareWrites(rec, plan).value)
  {
    var id, log := rec.run.id, StartRunWrites(rec);
    var planning := PlanWrites(rec, plan);
    var planned := ApplyAll(rec, planning);
    PlanKeepsRun(rec, plan);
    SweepSameRun(rec, planned, Requeue, planned.steps, 0);
    var sweep := SweepWrites(rec, Requeue, planned.steps, 0);
    AfterConcat(start, id, planning, sweep);
    AfterTwo(start.After(id, planning + sweep), id, log[0], log[1]);
    AfterConcat(start, id, planning + sweep, log);
    assert [log[0], log[1]] == log && (planning + sweep) + log == planning + (sweep + log);
  }

  /** Preparing and then looping is running. */
  lemma RunInOrder(start: State, rec: Record, env: Env)
    requires rec.run.id in start.records && start.records[rec.run.id] == rec
    ensures match PrepareWrites(rec, env.plan)
            case None =>
              start == start.After(rec.run.id, RunWrites(rec, env)) && RunAnswer(rec, env) == Err(EmptyPlan)
            case Some(writes) =>
              && ApplyAll(rec, writes).run.id == rec.run.id
              && LoopEnd(start.After(rec.run.id, writes), ApplyAll(rec, writes), env, env.Limit())
                 == Ending(start.After(rec.run.id, RunWrites(rec, env)), RunAnswer(rec, env))
  {
    AfterNothing(start, rec.run.id);
    var prepare := PrepareWrites(rec, env.plan);
    if prepare.Some? {
      KeepsRunId(rec, prepare.value);
      AfterConcat(start, rec.run.id, prepare.value, RunLoop(ApplyAll(rec, prepare.value), env, env.Limit()).log);
    }
  }

  lemma ResumeInOrder(start: State, rec: Record, retry: bool, env: Env)
    requires rec.run.id in start.records && start.records[rec.run.id] == rec && !Closed(rec)
    ensures var id, first := rec.run.id, RetryWrites(rec, retry);
            var after := ApplyAll(rec, first);
            && after.run == rec.run
            && start.After(id, ResumeWrites(rec, retry, env))
               == if after.run.status.RunWaiting? && AnyWaiting(after.steps) then start.After(id, first)
                  else start.After(id, first).After(id, RunWrites(after, env))
  {
    var first := RetryWrites(rec, retry);
    var after := ApplyAll(rec, first);
    if first != [] {
      QuietLog(false, Apply(rec, first[0]), first[1..]);
    }
    AfterConcat(start, rec.run.id, first, RunWrites(after, env));
  }

  lemma CancelInOrder(start: State, rec: Record, reason: string)
    requires rec.run.id in start.records && start.records[rec.run.id] == rec
    ensures var id, log := rec.run.id, CancelWrites(rec, reason);
            var sweep := SweepWrites(rec, CancelOpen(reason), rec.steps, 0);
            start.After(id, [log[0]]).After(id, sweep).After(id, [log[|log| - 1]]) == start.After(id, log)
  {
    var id, log := rec.run.id, CancelWrites(rec, reason);
    var sweep := SweepWrites(rec, CancelOpen(reason), rec.steps, 0);
    AfterConcat(start.After(id, [log[0]]), id, sweep, [log[|log| - 1]]);
    AfterConcat(start, id, [log[0]], sweep + [log[|log| - 1]]);
    assert log == [log[0]] + (sweep + [log[|log| - 1]]);
  }
}
