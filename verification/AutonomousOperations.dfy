/** What the run manager writes: each operation as the sequence of store writes it makes, given the
    record it finds and what the planner and the executor answer. A crash is a shorter sequence. */
module AutonomousOperations {
  import opened Wrappers
  import opened Values
  import opened Autonomous
  import opened AutonomousCodec

  datatype Plan = Plan(summary: string, steps: seq<PlanStep>)

  datatype ExecutionInput = ExecutionInput(run: Run, step: Step, previousSteps: seq<Step>)

  datatype Finish =
    | Returned(status: StepStatus, output: Value, waitReason: string, nextSteps: seq<PlanStep>, metadata: Value)
    | Threw(message: string)

  /** The checkpoints the executor recorded through its callback, and how it ended. */
  datatype Execution = Execution(checkpoints: seq<(string, Value)>, finish: Finish)

  /** What surrounds one operation: the planner's answer, the executor, the configured limit. */
  datatype Env = Env(plan: Plan, executor: ExecutionInput -> Execution, maxStepsPerRun: nat)
  {
    /** A limit of zero means the default. */
    function Limit(): (n: nat)
      ensures n > 0
    {
      if maxStepsPerRun == 0 then 64 else maxStepsPerRun
    }
  }

  const STEP_STARTED := "autonomous.step.started"
  const STEP_COMPLETED := "autonomous.step.completed"
  const STEP_WAITING := "autonomous.step.waiting"
  const STEP_INTERRUPTED := "autonomous.step.interrupted"
  const STEP_RETRY := "autonomous.step.retry-scheduled"

  function StepEvent(rec: Record, stepId: string, kind: string, payload: Value): Write {
    AppendEvent(Event(rec.run.id, stepId, kind, payload))
  }

  function RunEvent(rec: Record, kind: string, payload: Value): Write {
    StepEvent(rec, "", kind, payload)
  }

  function Note(rec: Record, stepId: string, name: string, state: Value): Write {
    AppendCheckpoint(Checkpoint(rec.run.id, stepId, name, state))
  }

  /** What creating a run leaves in the store. */
  function Created(run: Run): Record {
    Record(run, [], [Event(run.id, "", "autonomous.run.created", Obj(map["goal" := Str(run.goal)]))], [])
  }

  // ---------------------------------------------------------------- one step

  function StartPatch(step: Step): StepPatch {
    STEP_PATCH.(status := Some(Running), error := Some(""), waitReason := Some(""), attempts := Some(step.attempts + 1))
  }

  function Started(step: Step): Step {
    PatchStep(step, StartPatch(step))
  }

  /** What `update_step` returns for the start: the first step with the id, patched. */
  function StartedStep(rec: Record, step: Step): Step {
    var i := IndexOf(rec.steps, step.id);
    if i < |rec.steps| then PatchStep(rec.steps[i], StartPatch(step)) else Started(step)
  }

  function StartWrites(rec: Record, step: Step): seq<Write> {
    [UpdateStep(step.id, StartPatch(step)),
     StepEvent(rec, step.id, STEP_STARTED, Obj(map["attempt" := Int(step.attempts + 1)])),
     Note(rec, step.id, "step.started", StepToValue(StartedStep(rec, step)))]
  }

  function CallbackWrites(rec: Record, step: Step, checkpoints: seq<(string, Value)>): seq<Write> {
    seq(|checkpoints|, k requires 0 <= k < |checkpoints| => Note(rec, step.id, checkpoints[k].0, checkpoints[k].1))
  }

  /** Only a waiting result pauses: any other returned status counts as completion. */
  function FinishPatch(step: Step, finish: Finish): StepPatch {
    match finish
    case Returned(status, output, waitReason, nextSteps, metadata) =>
      var merged := MergeMetadata(step.metadata, metadata);
      if status.Waiting? then
        STEP_PATCH.(status := Some(Waiting), output := Some(output), waitReason := Some(waitReason),
                    metadata := Some(merged))
      else
        STEP_PATCH.(status := Some(Completed), output := Some(output), metadata := Some(merged))
    case Threw(message) => STEP_PATCH.(status := Some(Failed), error := Some(message))
  }

  function AfterFinishWrites(rec: Record, step: Step, finish: Finish): seq<Write> {
    match finish
    case Returned(status, output, waitReason, nextSteps, metadata) =>
      if status.Waiting? then
        [UpdateRun(RUN_PATCH.(status := Some(RunWaiting))),
         StepEvent(rec, step.id, STEP_WAITING, Obj(map["reason" := Str(waitReason)]))]
      else
        [Note(rec, step.id, "step.completed", output),
         StepEvent(rec, step.id, STEP_COMPLETED, Obj(map["output" := output]))]
        + (if nextSteps == [] then [] else [AppendSteps(nextSteps)])
    case Threw(message) =>
      [UpdateRun(RUN_PATCH.(status := Some(RunFailed), error := Some(message))),
       StepEvent(rec, step.id, "autonomous.run.failed", Obj(map["error" := Str(message)]))]
  }

  function FinishWrites(rec: Record, step: Step, finish: Finish): seq<Write> {
    [UpdateStep(step.id, FinishPatch(step, finish))] + AfterFinishWrites(rec, step, finish)
  }

  /** The step once its execution is over. */
  function Finished(step: Step, finish: Finish): Step {
    PatchStep(Started(step), FinishPatch(step, finish))
  }

  /** The steps before this one by index are what the executor is shown. */
  function PreviousSteps(steps: seq<Step>, index: nat): seq<Step> {
    if steps == [] then []
    else (if steps[0].index < index then [steps[0]] else []) + PreviousSteps(steps[1..], index)
  }

  function InputFor(rec: Record, i: nat): ExecutionInput
    requires i < |rec.steps|
  {
    ExecutionInput(rec.run, StartedStep(rec, rec.steps[i]), PreviousSteps(rec.steps, rec.steps[i].index))
  }

  function ExecuteWrites(rec: Record, i: nat, execution: Execution): seq<Write>
    requires i < |rec.steps|
  {
    StartWrites(rec, rec.steps[i])
    + (CallbackWrites(rec, rec.steps[i], execution.checkpoints)
       + FinishWrites(rec, StartedStep(rec, rec.steps[i]), execution.finish))
  }

  // ---------------------------------------------------------------- run

  function PlanWrites(rec: Record, plan: Plan): seq<Write> {
    if rec.steps != [] then []
    else
      [ReplaceSteps(plan.steps),
       Note(rec, "", "plan", PlanToValue(plan)),
       RunEvent(rec, "autonomous.run.planned",
                Obj(map["summary" := Str(plan.summary), "stepCount" := Int(|plan.steps|)]))]
  }

  function PlanToValue(plan: Plan): Value {
    Obj(map["summary" := StringOrNull(plan.summary),
            "steps" := Arr(seq(|plan.steps|, i requires 0 <= i < |plan.steps| => PlanStepToValue(plan.steps[i])))])
  }

  function PlanStepToValue(step: PlanStep): Value {
    Obj(map["id" := StringOrNull(step.id), "title" := Str(step.title), "objective" := Str(step.objective),
            "input" := step.input, "dependsOn" := StringsToValue(step.dependsOn), "metadata" := step.metadata])
  }

  /** Two operations go over the steps of a snapshot, in order, and patch some of them: steps that a
      crash left running go back to pending, and a cancelled run takes its open steps with it. */
  datatype Sweep = Requeue | CancelOpen(reason: string)
  {
    predicate Selects(status: StepStatus) {
      if Requeue? then status.Running? else IsOpen(status)
    }

    function Patch(): StepPatch {
      match this
      case Requeue => STEP_PATCH.(status := Some(Pending), error := Some("Step was interrupted before completion."))
      case CancelOpen(reason) => STEP_PATCH.(status := Some(Cancelled), error := Some(reason))
    }
  }

  predicate IsOpen(status: StepStatus) {
    status.Pending? || status.Running? || status.Waiting?
  }

  function SweepOne(rec: Record, sweep: Sweep, step: Step): seq<Write> {
    if !sweep.Selects(step.status) then []
    else if sweep.Requeue? then [UpdateStep(step.id, sweep.Patch()), StepEvent(rec, step.id, STEP_INTERRUPTED, Null)]
    else [UpdateStep(step.id, sweep.Patch())]
  }

  function SweepWrites(rec: Record, sweep: Sweep, steps: seq<Step>, from: nat): seq<Write>
    requires from <= |steps|
    decreases |steps| - from
  {
    if from == |steps| then [] else SweepOne(rec, sweep, steps[from]) + SweepWrites(rec, sweep, steps, from + 1)
  }

  predicate Closed(rec: Record) {
    rec.run.status.RunCompleted? || rec.run.status.RunCancelled?
  }

  const RUN_START := RUN_PATCH.(status := Some(RunRunning))

  function StartRunWrites(rec: Record): seq<Write> {
    [UpdateRun(RUN_START), RunEvent(rec, "autonomous.run.started", Null)]
  }

  /** `None` when the planner's plan is empty: the manager throws before it writes anything. */
  function PrepareWrites(rec: Record, plan: Plan): Option<seq<Write>> {
    if Closed(rec) then Some([])
    else if rec.steps == [] && plan.steps == [] then None
    else
      var planning := PlanWrites(rec, plan);
      var planned := ApplyAll(rec, planning);
      Some(planning + (SweepWrites(rec, Requeue, planned.steps, 0)
                       + StartRunWrites(rec)))
  }

  function OutputOfSteps(steps: seq<Step>): Value {
    Arr(seq(|steps|, i requires 0 <= i < |steps| =>
        Obj(map["stepId" := Str(steps[i].id), "title" := Str(steps[i].title), "output" := steps[i].output])))
  }

  function CompleteWrites(rec: Record): seq<Write> {
    var output := OutputOfSteps(rec.steps);
    [UpdateRun(RUN_PATCH.(status := Some(RunCompleted), output := Some(output))),
     Note(rec, "", "run.completed", Obj(map["output" := output])),
     RunEvent(rec, "autonomous.run.completed", Obj(map["output" := output]))]
  }

  predicate Stops(status: RunStatus) {
    status.RunWaiting? || status.RunFailed? || status.RunInterrupted? || status.RunCancelled?
  }

  /** The scheduling loop: its writes, the steps it started in order, and whether it ran into the limit. */
  datatype LoopTrace = LoopTrace(log: seq<Write>, started: seq<nat>, exceeded: bool) {
    /** The same with a turn before it. */
    function Behind(writes: seq<Write>, next: nat): LoopTrace {
      LoopTrace(writes + log, [next] + started, exceeded)
    }
  }

  function ExecutionOf(rec: Record, env: Env, i: nat): Execution
    requires i < |rec.steps|
  {
    env.executor(InputFor(rec, i))
  }

  function IdleWrites(rec: Record): seq<Write> {
    if AnyWaiting(rec.steps) then [UpdateRun(RUN_PATCH.(status := Some(RunWaiting)))] else CompleteWrites(rec)
  }

  function TurnWrites(rec: Record, env: Env, i: nat): seq<Write>
    requires i < |rec.steps|
  {
    ExecuteWrites(rec, i, ExecutionOf(rec, env, i))
  }

  function RunLoop(rec: Record, env: Env, budget: nat): LoopTrace
    decreases budget
  {
    if budget == 0 then LoopTrace([], [], true)
    else
      var next := FirstReady(rec.steps, 0);
      if next == |rec.steps| then LoopTrace(IdleWrites(rec), [], false)
      else
        var writes := TurnWrites(rec, env, next);
        var after := ApplyAll(rec, writes);
        if Stops(after.run.status) then LoopTrace(writes, [next], false)
        else RunLoop(after, env, budget - 1).Behind(writes, next)
  }

  function RunWrites(rec: Record, env: Env): seq<Write> {
    match PrepareWrites(rec, env.plan)
    case None => []
    case Some(prepare) => prepare + RunLoop(ApplyAll(rec, prepare), env, env.Limit()).log
  }

  // ---------------------------------------------------------------- resume, complete, cancel

  const RETRY := STEP_PATCH.(status := Some(Pending), error := Some(""))

  function RetryWrites(rec: Record, retryFailedStep: bool): seq<Write> {
    var failed := FirstFailed(rec.steps, 0);
    if failed < |rec.steps| && retryFailedStep then
      [UpdateStep(rec.steps[failed].id, RETRY),
       StepEvent(rec, rec.steps[failed].id, STEP_RETRY, Null)]
    else []
  }

  function ResumeWrites(rec: Record, retryFailedStep: bool, env: Env): seq<Write> {
    if Closed(rec) then []
    else
      var retry := RetryWrites(rec, retryFailedStep);
      var after := ApplyAll(rec, retry);
      if after.run.status.RunWaiting? && AnyWaiting(after.steps) then retry
      else retry + RunWrites(after, env)
  }

  function ExternalCompletion(output: Value): StepPatch {
    STEP_PATCH.(status := Some(Completed), output := Some(output), waitReason := Some(""))
  }

  function CompleteWaitingWrites(rec: Record, stepId: string, output: Value): seq<Write> {
    var i := IndexOf(rec.steps, stepId);
    if i == |rec.steps| || !rec.steps[i].status.Waiting? then []
    else
      [UpdateStep(stepId, ExternalCompletion(output)),
       StepEvent(rec, stepId, STEP_COMPLETED, Obj(map["output" := output, "source" := Str("external")])),
       UpdateRun(RUN_PATCH.(status := Some(RunQueued)))]
  }

  function CancelWrites(rec: Record, reason: string): seq<Write> {
    [UpdateRun(RUN_PATCH.(status := Some(RunCancelled), error := Some(reason)))]
    + (SweepWrites(rec, CancelOpen(reason), rec.steps, 0)
       + [RunEvent(rec, "autonomous.run.cancelled", Obj(map["reason" := Str(reason)]))])
  }

  // ---------------------------------------------------------------- any operation

  datatype Op =
    | OpPlan
    | OpRun
    | OpResume(retryFailedStep: bool)
    | OpCompleteWaiting(stepId: string, output: Value)
    | OpCancel(reason: string)

  function OpWrites(rec: Record, op: Op, env: Env): seq<Write> {
    match op
    case OpPlan => if env.plan.steps == [] then [] else PlanWrites(rec, env.plan)
    case OpRun => RunWrites(rec, env)
    case OpResume(retry) => ResumeWrites(rec, retry, env)
    case OpCompleteWaiting(stepId, output) => CompleteWaitingWrites(rec, stepId, output)
    case OpCancel(reason) => CancelWrites(rec, reason)
  }
}
