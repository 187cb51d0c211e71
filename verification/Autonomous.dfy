/** The data of autonomous runs, and what each store write does to the record of one run. */
module Autonomous {
  import opened Wrappers
  import opened Values

  datatype RunStatus =
    RunQueued | RunRunning | RunWaiting | RunCompleted | RunFailed | RunCancelled | RunInterrupted

  datatype StepStatus = Pending | Running | Waiting | Completed | Failed | Cancelled | Skipped

  datatype Run = Run(
    id: string, goal: string, input: Value, status: RunStatus, output: Value, error: string, metadata: Value)

  datatype PlanStep = PlanStep(
    id: string, title: string, objective: string, input: Value, dependsOn: seq<string>, metadata: Value)

  datatype Step = Step(
    id: string, runId: string, index: nat, title: string, objective: string, input: Value,
    status: StepStatus, attempts: int, output: Value, error: string, waitReason: string,
    dependsOn: seq<string>, metadata: Value)

  datatype Event = Event(runId: string, stepId: string, kind: string, payload: Value)

  datatype Checkpoint = Checkpoint(runId: string, stepId: string, name: string, state: Value)

  /** Everything a store holds about one run; the original calls it a snapshot. */
  datatype Record = Record(run: Run, steps: seq<Step>, events: seq<Event>, checkpoints: seq<Checkpoint>)

  // ---------------------------------------------------------------- patches and writes

  datatype RunPatch = RunPatch(
    status: Option<RunStatus>, output: Option<Value>, error: Option<string>,
    goal: Option<string>, input: Option<Value>, metadata: Option<Value>)

  datatype StepPatch = StepPatch(
    status: Option<StepStatus>, attempts: Option<int>, output: Option<Value>, error: Option<string>,
    waitReason: Option<string>, metadata: Option<Value>,
    title: Option<string>, objective: Option<string>, input: Option<Value>, dependsOn: Option<seq<string>>)

  const RUN_PATCH := RunPatch(None, None, None, None, None, None)
  const STEP_PATCH := StepPatch(None, None, None, None, None, None, None, None, None, None)

  function PatchRun(run: Run, p: RunPatch): Run {
    run.(status := p.status.GetOr(run.status),
         output := p.output.GetOr(run.output),
         error := p.error.GetOr(run.error),
         goal := p.goal.GetOr(run.goal),
         input := p.input.GetOr(run.input),
         metadata := if p.metadata.Some? then p.metadata.value.ObjectOrEmpty() else run.metadata)
  }

  function PatchStep(step: Step, p: StepPatch): Step {
    step.(status := p.status.GetOr(step.status),
          attempts := p.attempts.GetOr(step.attempts),
          output := p.output.GetOr(step.output),
          error := p.error.GetOr(step.error),
          waitReason := p.waitReason.GetOr(step.waitReason),
          metadata := if p.metadata.Some? then p.metadata.value.ObjectOrEmpty() else step.metadata,
          title := p.title.GetOr(step.title),
          objective := p.objective.GetOr(step.objective),
          input := p.input.GetOr(step.input),
          dependsOn := p.dependsOn.GetOr(step.dependsOn))
  }

  /** The position of the first step with this id, or the number of steps. */
  function IndexOf(steps: seq<Step>, id: string): (i: nat)
    ensures i <= |steps|
    ensures i < |steps| ==> steps[i].id == id
    ensures forall j | 0 <= j < i :: steps[j].id != id
  {
    if steps == [] then 0
    else if steps[0].id == id then 0
    else 1 + IndexOf(steps[1..], id)
  }

  function NormalizeStep(runId: string, index: nat, step: PlanStep): Step {
    Step(step.id, runId, index, step.title, if step.objective == "" then step.title else step.objective, step.input,
         Pending, 0, Null, "", "", step.dependsOn, step.metadata.ObjectOrEmpty())
  }

  function NormalizeSteps(runId: string, existing: nat, steps: seq<PlanStep>): seq<Step> {
    seq(|steps|, offset requires 0 <= offset < |steps| => NormalizeStep(runId, existing + offset, steps[offset]))
  }

  /** What the store makes of a planned step: the plan's own id, texts, input and dependencies, at its
      position, and not begun. */
  ghost predicate MadeFrom(s: Step, p: PlanStep, runId: string, index: nat) {
    && s.id == p.id && s.runId == runId && s.index == index && s.title == p.title && s.input == p.input
    && s.objective == (if p.objective == "" then p.title else p.objective) && s.dependsOn == p.dependsOn
    && s.status.Pending? && s.attempts == 0 && s.output == Null && s.error == "" && s.waitReason == ""
    && s.metadata == (if p.metadata.Obj? then p.metadata else Obj(map[]))
  }

  lemma StepsMadeFromPlan(runId: string, existing: nat, plan: seq<PlanStep>)
    ensures var steps := NormalizeSteps(runId, existing, plan);
            |steps| == |plan| && forall i | 0 <= i < |steps| :: MadeFrom(steps[i], plan[i], runId, existing + i)
  {
  }

  /** One call of a mutating store operation, for a run that exists. */
  datatype Write =
    | UpdateRun(runPatch: RunPatch)
    | ReplaceSteps(plan: seq<PlanStep>)
    | AppendSteps(plan: seq<PlanStep>)
    | UpdateStep(stepId: string, stepPatch: StepPatch)
    | AppendEvent(event: Event)
    | AppendCheckpoint(checkpoint: Checkpoint)

  /** `update_step` changes the first step with the id; without one it throws and changes nothing. */
  function Apply(rec: Record, w: Write): Record {
    match w
    case UpdateRun(p) => rec.(run := PatchRun(rec.run, p))
    case ReplaceSteps(plan) => rec.(steps := NormalizeSteps(rec.run.id, 0, plan))
    case AppendSteps(plan) => rec.(steps := rec.steps + NormalizeSteps(rec.run.id, |rec.steps|, plan))
    case UpdateStep(id, p) =>
      var i := IndexOf(rec.steps, id);
      if i < |rec.steps| then rec.(steps := rec.steps[i := PatchStep(rec.steps[i], p)]) else rec
    case AppendEvent(e) => rec.(events := rec.events + [e])
    case AppendCheckpoint(c) => rec.(checkpoints := rec.checkpoints + [c])
  }

  function ApplyAll(rec: Record, log: seq<Write>): Record
    decreases |log|
  {
    if log == [] then rec else ApplyAll(Apply(rec, log[0]), log[1..])
  }

  lemma {:induction false} ApplyConcat(rec: Record, a: seq<Write>, b: seq<Write>)
    ensures ApplyAll(rec, a + b) == ApplyAll(ApplyAll(rec, a), b)
    decreases |a|
  {
    if a == [] {
      assert a + b == b;
    } else {
      ApplyConcat(Apply(rec, a[0]), a[1..], b);
      assert (a + b)[1..] == a[1..] + b;
    }
  }

  // ---------------------------------------------------------------- readiness

  predicate IdCompleted(steps: seq<Step>, id: string) {
    var i := IndexOf(steps, id);
    i < |steps| && steps[i].status.Completed?
  }

  predicate DependenciesCompleted(steps: seq<Step>, step: Step) {
    forall k | 0 <= k < |step.dependsOn| :: IdCompleted(steps, step.dependsOn[k])
  }

  predicate IsReady(steps: seq<Step>, i: nat)
    requires i < |steps|
  {
    steps[i].status.Pending? && DependenciesCompleted(steps, steps[i])
  }

  /** The first ready step at or after `from`, or the number of steps. */
  function FirstReady(steps: seq<Step>, from: nat): (i: nat)
    requires from <= |steps|
    ensures from <= i <= |steps|
    ensures i < |steps| ==> IsReady(steps, i)
    ensures forall j | from <= j < i :: !IsReady(steps, j)
    decreases |steps| - from
  {
    if from == |steps| || IsReady(steps, from) then from else FirstReady(steps, from + 1)
  }

  predicate AnyWaiting(steps: seq<Step>) {
    exists i | 0 <= i < |steps| :: steps[i].status.Waiting?
  }

  function FirstFailed(steps: seq<Step>, from: nat): (i: nat)
    requires from <= |steps|
    ensures from <= i <= |steps|
    ensures i < |steps| ==> steps[i].status.Failed?
    ensures forall j | from <= j < i :: !steps[j].status.Failed?
    decreases |steps| - from
  {
    if from == |steps| || steps[from].status.Failed? then from else FirstFailed(steps, from + 1)
  }

  ghost predicate UniqueIds(steps: seq<Step>) {
    forall i, j | 0 <= i < j < |steps| :: steps[i].id != steps[j].id
  }
}
