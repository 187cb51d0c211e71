/** What each operation comes to when nothing interrupts it: the record after it in terms of the record before,
    field by field, whatever writes lead there. */
module AutonomousEffects {
  import opened Wrappers
  import opened Values
  import opened Autonomous
  import opened AutonomousCodec
  import opened AutonomousOperations
  import opened AutonomousProtocol
  import opened AutonomousGuards
  import opened AutonomousHistory
  import opened AutonomousLedger

  // ---------------------------------------------------------------- notes

  /** What a log adds to the checkpoints. */
  function NotesOf(log: seq<Write>): seq<Checkpoint> {
    if log == [] then [] else NoteIn(log[0]) + NotesOf(log[1..])
  }

  function NoteIn(w: Write): seq<Checkpoint> {
    if w.AppendCheckpoint? then [w.checkpoint] else []
  }

  lemma {:induction false} NotesAppended(rec: Record, log: seq<Write>)
    ensures ApplyAll(rec, log).checkpoints == rec.checkpoints + NotesOf(log)
    decreases |log|
  {
    if log != [] {
      var next := Apply(rec, log[0]);
      NotesAppended(next, log[1..]);
      assert next.checkpoints == rec.checkpoints + NoteIn(log[0]);
      SameGrouping(rec.checkpoints, NoteIn(log[0]), NotesOf(log[1..]));
    }
  }

  lemma {:induction false} NotesConcat(a: seq<Write>, b: seq<Write>)
    ensures NotesOf(a + b) == NotesOf(a) + NotesOf(b)
  {
    if a == [] {
      assert a + b == b;
    } else {
      NotesConcat(a[1..], b);
      assert (a + b)[1..] == a[1..] + b && (a + b)[0] == a[0];
      SameGrouping(NoteIn(a[0]), NotesOf(a[1..]), NotesOf(b));
    }
  }

  lemma NoteOfOne(w: Write)
    ensures NotesOf([w]) == NoteIn(w)
  {
    assert [w][1..] == [];
    assert NotesOf([w][1..]) == [];
  }

  lemma {:induction false} NotesOfCallbacks(rec: Record, step: Step, given: seq<(string, Value)>)
    ensures NotesOf(CallbackWrites(rec, step, given))
            == seq(|given|, k requires 0 <= k < |given| => Checkpoint(rec.run.id, step.id, given[k].0, given[k].1))
    decreases |given|
  {
    var all := seq(|given|, k requires 0 <= k < |given| => Checkpoint(rec.run.id, step.id, given[k].0, given[k].1));
    var log := CallbackWrites(rec, step, given);
    if given != [] {
      var rest := given[1..];
      NotesOfCallbacks(rec, step, rest);
      assert log[1..] == CallbackWrites(rec, step, rest);
      assert all == [all[0]]
                    + seq(|rest|, k requires 0 <= k < |rest| => Checkpoint(rec.run.id, step.id, rest[k].0, rest[k].1));
    }
  }

  // ---------------------------------------------------------------- what an executor is given

  /** The executor sees the run, the step as it is started, and the steps before it. */
  lemma ExecutorIsShown(rec: Record, i: nat)
    requires UniqueIds(rec.steps) && i < |rec.steps|
    ensures InputFor(rec, i).run == rec.run
    ensures InputFor(rec, i).step
            == rec.steps[i].(status := Running, attempts := rec.steps[i].attempts + 1, error := "", waitReason := "")
  {
    OwnIndex(rec.steps, i);
  }

  // ---------------------------------------------------------------- an execution

  /** The step after an execution that ended like this. */
  ghost predicate Executed(before: Step, after: Step, finish: Finish) {
    match finish
    case Returned(Waiting, output, waitReason, _, metadata) =>
      after == before.(status := Waiting, attempts := before.attempts + 1, output := output, error := "",
                       waitReason := waitReason, metadata := MergeMetadata(before.metadata, metadata))
    case Returned(_, output, _, _, metadata) =>
      after == before.(status := Completed, attempts := before.attempts + 1, output := output, error := "",
                       waitReason := "", metadata := MergeMetadata(before.metadata, metadata))
    case Threw(message) =>
      after == before.(status := Failed, attempts := before.attempts + 1, error := message, waitReason := "")
  }

  /** An execution changes its step as the outcome says, appends what was asked for exactly when it
      completes the step, and tells the run. */
  lemma ExecutionInPlainTerms(rec: Record, i: nat, execution: Execution) returns (after: Record)
    requires UniqueIds(rec.steps) && i < |rec.steps| && IsReady(rec.steps, i)
    ensures after == ApplyAll(rec, ExecuteWrites(rec, i, execution))
    ensures |rec.steps| <= |after.steps| && Executed(rec.steps[i], after.steps[i], execution.finish)
    ensures forall j | 0 <= j < |rec.steps| && j != i :: after.steps[j] == rec.steps[j]
    ensures match execution.finish
            case Returned(Waiting, _, _, _, _) =>
              |after.steps| == |rec.steps| && after.run == rec.run.(status := RunWaiting)
            case Returned(_, _, _, asked, _) =>
              && after.run == rec.run && |after.steps| == |rec.steps| + |asked|
              && forall k | 0 <= k < |asked| ::
                   MadeFrom(after.steps[|rec.steps| + k], asked[k], rec.run.id, |rec.steps| + k)
            case Threw(message) =>
              |after.steps| == |rec.steps| && after.run == rec.run.(status := RunFailed, error := message)
  {
    after := ApplyAll(rec, ExecuteWrites(rec, i, execution));
    ExecuteGuarded(false, rec, i, execution);
    if execution.finish.Returned? && !execution.finish.status.Waiting? {
      StepsMadeFromPlan(rec.run.id, |rec.steps|, execution.finish.nextSteps);
    }
  }

  /** It logs the start with the number of the attempt, and the outcome. */
  lemma ExecutionLogs(rec: Record, i: nat, execution: Execution) returns (after: Record)
    requires i < |rec.steps|
    ensures after == ApplyAll(rec, ExecuteWrites(rec, i, execution))
    ensures var run, step := rec.run.id, rec.steps[i];
            var begun := Event(run, step.id, "autonomous.step.started", Obj(map["attempt" := Int(step.attempts + 1)]));
            after.events
            == rec.events + [begun]
               + match execution.finish
                 case Returned(Waiting, _, waitReason, _, _) =>
                   [Event(run, step.id, "autonomous.step.waiting", Obj(map["reason" := Str(waitReason)]))]
                 case Returned(_, output, _, _, _) =>
                   [Event(run, step.id, "autonomous.step.completed", Obj(map["output" := output]))]
                 case Threw(message) =>
                   [Event(run, step.id, "autonomous.run.failed", Obj(map["error" := Str(message)]))]
  {
    after := ApplyAll(rec, ExecuteWrites(rec, i, execution));
    EventsAppended(rec, ExecuteWrites(rec, i, execution));
    EventsOfExecute(rec, i, execution);
  }

  /** It notes the started step, what the executor noted, and the output of a completed step. */
  lemma ExecutionNotes(rec: Record, i: nat, execution: Execution) returns (after: Record)
    requires UniqueIds(rec.steps) && i < |rec.steps|
    ensures after == ApplyAll(rec, ExecuteWrites(rec, i, execution))
    ensures var run, step, given := rec.run.id, rec.steps[i], execution.checkpoints;
            after.checkpoints
            == rec.checkpoints + [Checkpoint(run, step.id, "step.started", StepToValue(InputFor(rec, i).step))]
               + (seq(|given|, k requires 0 <= k < |given| => Checkpoint(run, step.id, given[k].0, given[k].1))
                  + match execution.finish
                    case Returned(Waiting, _, _, _, _) => []
                    case Returned(_, output, _, _, _) => [Checkpoint(run, step.id, "step.completed", output)]
                    case Threw(_) => [])
  {
    var log := ExecuteWrites(rec, i, execution);
    var step, running := rec.steps[i], StartedStep(rec, rec.steps[i]);
    var start, callbacks := StartWrites(rec, step), CallbackWrites(rec, step, execution.checkpoints);
    var finish := FinishWrites(rec, running, execution.finish);
    after := ApplyAll(rec, log);
    OwnIndex(rec.steps, i);
    NotesAppended(rec, log);
    NotesConcat(start, callbacks + finish);
    NotesConcat(callbacks, finish);
    NotesOfStart(rec, step);
    NotesOfCallbacks(rec, step, execution.checkpoints);
    NotesOfFinish(rec, running, execution.finish);
    SameGrouping(rec.checkpoints, NotesOf(start), NotesOf(callbacks) + NotesOf(finish));
  }

  lemma NotesOfThree(a: Write, b: Write, c: Write)
    ensures NotesOf([a, b, c]) == NoteIn(a) + NoteIn(b) + NoteIn(c)
  {
    NoteOfOne(a);
    NoteOfOne(b);
    NoteOfOne(c);
    NotesConcat([a], [b]);
    NotesConcat([a] + [b], [c]);
    assert [a] + [b] + [c] == [a, b, c];
  }

  lemma NotesOfThreeOrFour(log: seq<Write>)
    requires 3 <= |log| <= 4 && (|log| == 4 ==> !log[3].AppendCheckpoint?)
    ensures NotesOf(log) == NoteIn(log[0]) + NoteIn(log[1]) + NoteIn(log[2])
  {
    NotesOfThree(log[0], log[1], log[2]);
    if |log| == 4 {
      NoteOfOne(log[3]);
      NotesConcat([log[0], log[1], log[2]], [log[3]]);
      assert log == [log[0], log[1], log[2]] + [log[3]];
    } else {
      assert log == [log[0], log[1], log[2]];
    }
  }

  lemma NotesOfStart(rec: Record, step: Step)
    ensures NotesOf(StartWrites(rec, step))
            == [Checkpoint(rec.run.id, step.id, "step.started", StepToValue(StartedStep(rec, step)))]
  {
    NotesOfThreeOrFour(StartWrites(rec, step));
  }

  lemma NotesOfFinish(rec: Record, step: Step, finish: Finish)
    ensures NotesOf(FinishWrites(rec, step, finish))
            == match finish
               case Returned(Waiting, _, _, _, _) => []
               case Returned(_, output, _, _, _) => [Checkpoint(rec.run.id, step.id, "step.completed", output)]
               case Threw(_) => []
  {
    NotesOfThreeOrFour(FinishWrites(rec, step, finish));
  }

  // ---------------------------------------------------------------- planning and preparing

  /** The planner's plan becomes the steps of a run without steps, and is noted and logged. */
  lemma PlanningInPlainTerms(rec: Record, plan: Plan) returns (after: Record)
    ensures after == ApplyAll(rec, PlanWrites(rec, plan)) && after.run == rec.run
    ensures rec.steps != [] ==> after == rec
    ensures rec.steps == [] ==>
              && |after.steps| == |plan.steps|
              && (forall k | 0 <= k < |plan.steps| :: MadeFrom(after.steps[k], plan.steps[k], rec.run.id, k))
              && after.events == rec.events + [Event(
                   rec.run.id, "", "autonomous.run.planned",
                   Obj(map["summary" := Str(plan.summary), "stepCount" := Int(|plan.steps|)]))]
              && after.checkpoints == rec.checkpoints + [Checkpoint(rec.run.id, "", "plan", PlanToValue(plan))]
  {
    var log := PlanWrites(rec, plan);
    after := ApplyAll(rec, log);
    if rec.steps == [] {
      ThreeWrites(rec, log);
      StepsMadeFromPlan(rec.run.id, 0, plan.steps);
    }
  }

  /** What the note of a plan says about its steps. */
  lemma PlanAsNoted(plan: Plan, k: nat)
    requires k < |plan.steps|
    ensures var noted, p := PlanToValue(plan).At("steps").AsArray(), plan.steps[k];
            && |noted| == |plan.steps|
            && noted[k].At("id") == (if p.id == "" then Null else Str(p.id)) && noted[k].At("title") == Str(p.title)
            && noted[k].At("objective") == Str(p.objective) && noted[k].At("input") == p.input
            && StringsFromValue(noted[k].At("dependsOn")) == p.dependsOn && noted[k].At("metadata") == p.metadata
    ensures PlanToValue(plan).At("summary") == if plan.summary == "" then Null else Str(plan.summary)
  {
    StringsRoundTrip(plan.steps[k].dependsOn);
  }

  /** Preparing an open run with steps puts interrupted steps back, with a reason and an event for each, and
      marks the run running. */
  lemma PreparingInPlainTerms(rec: Record, plan: Plan) returns (after: Record)
    requires UniqueIds(rec.steps) && rec.steps != []
    requires rec.run.status != RunCompleted && rec.run.status != RunCancelled
    ensures PrepareWrites(rec, plan).Some? && after == ApplyAll(rec, PrepareWrites(rec, plan).value)
    ensures after.run == rec.run.(status := RunRunning) && |after.steps| == |rec.steps|
    ensures forall i | 0 <= i < |rec.steps| ::
              after.steps[i]
              == if rec.steps[i].status != Running then rec.steps[i]
                 else rec.steps[i].(status := Pending, error := "Step was interrupted before completion.")
  {
    var sweep, start := SweepWrites(rec, Requeue, rec.steps, 0), StartRunWrites(rec);
    var none: seq<Write> := [];
    assert none + (sweep + start) == sweep + start;
    after := ApplyAll(rec, sweep + start);
    SweepGuarded(false, rec, Requeue, rec, rec.steps, 0);
    StartRunGuarded(false, rec, ApplyAll(rec, sweep));
    ApplyConcat(rec, sweep, start);
  }

  /** The events of it: one for each interrupted step, in order, and the start of the run. */
  lemma PreparingLogs(rec: Record, plan: Plan) returns (after: Record)
    requires rec.steps != [] && rec.run.status != RunCompleted && rec.run.status != RunCancelled
    ensures PrepareWrites(rec, plan).Some? && after == ApplyAll(rec, PrepareWrites(rec, plan).value)
    ensures after.events
            == rec.events + (InterruptionsOf(rec.run.id, rec.steps)
                             + [Event(rec.run.id, "", "autonomous.run.started", Null)])
  {
    var sweep, start := SweepWrites(rec, Requeue, rec.steps, 0), StartRunWrites(rec);
    var none: seq<Write> := [];
    assert none + (sweep + start) == sweep + start;
    after := ApplyAll(rec, sweep + start);
    EventsAppended(rec, sweep + start);
    EventsConcat(sweep, start);
    EventsOfRequeue(rec, rec.steps, 0);
    assert rec.steps[0..] == rec.steps;
    EventInMiddle(start, 1);
  }

  function InterruptionsOf(runId: string, steps: seq<Step>): seq<Event> {
    if steps == [] then []
    else (if steps[0].status == Running then [Event(runId, steps[0].id, "autonomous.step.interrupted", Null)] else [])
         + InterruptionsOf(runId, steps[1..])
  }

  lemma {:induction false} EventsOfRequeue(rec: Record, steps: seq<Step>, k: nat)
    requires k <= |steps|
    ensures EventsOf(SweepWrites(rec, Requeue, steps, k)) == InterruptionsOf(rec.run.id, steps[k..])
    decreases |steps| - k
  {
    if k < |steps| {
      var one := SweepOne(rec, Requeue, steps[k]);
      EventsOfRequeue(rec, steps, k + 1);
      EventsConcat(one, SweepWrites(rec, Requeue, steps, k + 1));
      assert steps[k..][1..] == steps[k + 1..];
      if one != [] {
        EventInMiddle(one, 1);
      }
    }
  }

  // ---------------------------------------------------------------- the end of a run

  /** A loop that finds nothing to start leaves the steps alone: it waits if a step waits, and else completes
      the run with the id, title and output of every step in order. */
  lemma IdleInPlainTerms(rec: Record, env: Env, budget: nat) returns (after: Record)
    requires budget > 0 && forall i | 0 <= i < |rec.steps| :: !IsReady(rec.steps, i)
    ensures after == ApplyAll(rec, RunLoop(rec, env, budget).log) && after.steps == rec.steps
    ensures (exists i :: 0 <= i < |rec.steps| && rec.steps[i].status == Waiting) ==>
              after == rec.(run := rec.run.(status := RunWaiting))
    ensures (forall i | 0 <= i < |rec.steps| :: rec.steps[i].status != Waiting) ==>
              && after.run == rec.run.(status := RunCompleted, output := after.run.output)
              && after.run.output.Arr? && |after.run.output.items| == |rec.steps|
              && (forall i | 0 <= i < |rec.steps| ::
                    after.run.output.items[i]
                    == Obj(map["stepId" := Str(rec.steps[i].id), "title" := Str(rec.steps[i].title),
                               "output" := rec.steps[i].output]))
              && after.events == rec.events + [Event(rec.run.id, "", "autonomous.run.completed",
                                                     Obj(map["output" := after.run.output]))]
              && after.checkpoints == rec.checkpoints + [Checkpoint(rec.run.id, "", "run.completed",
                                                                    Obj(map["output" := after.run.output]))]
  {
    Idle(rec, env, budget);
    var log := RunLoop(rec, env, budget).log;
    after := ApplyAll(rec, log);
    if AnyWaiting(rec.steps) {
      GuardedOneWrite(rec, log[0]);
    } else {
      ThreeWrites(rec, log);
    }
  }

  /** After a turn the loop goes on exactly if the run is queued, running or completed. */
  lemma TurnsGoOn(rec: Record, env: Env, budget: nat, left: nat) returns (next: nat, after: Record)
    requires budget == left + 1 && exists i :: 0 <= i < |rec.steps| && IsReady(rec.steps, i)
    ensures next < |rec.steps| && IsReady(rec.steps, next) && forall j | 0 <= j < next :: !IsReady(rec.steps, j)
    ensures after == ApplyAll(rec, ExecuteWrites(rec, next, env.executor(InputFor(rec, next))))
    ensures ApplyAll(rec, RunLoop(rec, env, budget).log)
            == if after.run.status in {RunQueued, RunRunning, RunCompleted}
               then ApplyAll(after, RunLoop(after, env, left).log) else after
    ensures var trace, rest := RunLoop(rec, env, budget), RunLoop(after, env, left);
            var goesOn := after.run.status in {RunQueued, RunRunning, RunCompleted};
            && trace.started == [next] + (if goesOn then rest.started else [])
            && trace.exceeded == (goesOn && rest.exceeded)
    ensures RunLoop(rec, env, 0) == LoopTrace([], [], true)
  {
    var execution;
    next, execution, after := OneTurn(rec, env, budget, left);
    Unrolled(rec, env, budget, left);
  }

  // ---------------------------------------------------------------- the other calls

  /** Completing a waiting step from outside: the first step with the id gets the output. */
  lemma ExternalCompletionInPlainTerms(rec: Record, i: nat, output: Value) returns (after: Record)
    requires UniqueIds(rec.steps) && i < |rec.steps|
    ensures after == ApplyAll(rec, CompleteWaitingWrites(rec, rec.steps[i].id, output))
    ensures rec.steps[i].status != Waiting ==> after == rec
    ensures rec.steps[i].status == Waiting ==>
              after == Record(rec.run.(status := RunQueued),
                              rec.steps[i := rec.steps[i].(status := Completed, output := output, waitReason := "")],
                              rec.events + [Event(rec.run.id, rec.steps[i].id, "autonomous.step.completed",
                                                  Obj(map["output" := output, "source" := Str("external")]))],
                              rec.checkpoints)
  {
    var log := CompleteWaitingWrites(rec, rec.steps[i].id, output);
    after := ApplyAll(rec, log);
    OwnIndex(rec.steps, i);
    if log != [] {
      ThreeWrites(rec, log);
    }
  }

  /** Cancelling takes every pending, running and waiting step along. */
  lemma CancellingInPlainTerms(rec: Record, reason: string) returns (after: Record)
    requires UniqueIds(rec.steps)
    ensures after == ApplyAll(rec, CancelWrites(rec, reason))
    ensures after.run == rec.run.(status := RunCancelled, error := reason) && |after.steps| == |rec.steps|
    ensures forall i | 0 <= i < |rec.steps| ::
              after.steps[i] == if rec.steps[i].status in {Pending, Running, Waiting}
                                then rec.steps[i].(status := Cancelled, error := reason) else rec.steps[i]
    ensures after.events == rec.events + [Event(rec.run.id, "", "autonomous.run.cancelled",
                                                Obj(map["reason" := Str(reason)]))]
  {
    var log := CancelWrites(rec, reason);
    var mid := Apply(rec, log[0]);
    var sweep := SweepWrites(rec, CancelOpen(reason), rec.steps, 0);
    var last := log[|log| - 1];
    SweepGuarded(false, rec, CancelOpen(reason), mid, rec.steps, 0);
    ApplyConcat(mid, sweep, [last]);
    assert log[1..] == sweep + [last];
    GuardedOneWrite(ApplyAll(mid, sweep), last);
    after := ApplyAll(rec, log);
    EventsAppended(mid, sweep);
    EventsOfCancelling(rec, reason, rec.steps, 0);
  }

  lemma {:induction false} EventsOfCancelling(rec: Record, reason: string, steps: seq<Step>, k: nat)
    requires k <= |steps|
    ensures EventsOf(SweepWrites(rec, CancelOpen(reason), steps, k)) == []
    decreases |steps| - k
  {
    if k < |steps| {
      EventsOfCancelling(rec, reason, steps, k + 1);
      EventsConcat(SweepOne(rec, CancelOpen(reason), steps[k]), SweepWrites(rec, CancelOpen(reason), steps, k + 1));
      NoEventsInNotes(SweepOne(rec, CancelOpen(reason), steps[k]));
    }
  }

  // ---------------------------------------------------------------- going on with a run

  /** `resume` makes no write at all exactly for a completed or cancelled run, for a run without steps and
      without a plan, and for a waiting run in which a step waits and none is retried. */
  lemma ResumeWritesNothingIff(rec: Record, retry: bool, env: Env)
    ensures ResumeWrites(rec, retry, env) == []
            <==> || rec.run.status == RunCompleted || rec.run.status == RunCancelled
                 || (rec.steps == [] && env.plan.steps == [])
                 || (rec.run.status == RunWaiting
                     && (exists i :: 0 <= i < |rec.steps| && rec.steps[i].status == Waiting)
                     && !(retry && exists i :: 0 <= i < |rec.steps| && rec.steps[i].status == Failed))
  {
    if rec.run.status != RunCompleted && rec.run.status != RunCancelled {
      RetryWritesNothingIff(rec, retry);
      if RetryWrites(rec, retry) == [] {
        RunWritesSomething(rec, env);
      }
    }
  }

  lemma RetryWritesNothingIff(rec: Record, retry: bool)
    ensures RetryWrites(rec, retry) == []
            <==> !(retry && exists i :: 0 <= i < |rec.steps| && rec.steps[i].status == Failed)
  {
    if exists i :: 0 <= i < |rec.steps| && rec.steps[i].status == Failed {
      assert FirstFailed(rec.steps, 0) < |rec.steps|;
    }
  }

  lemma RunWritesSomething(rec: Record, env: Env)
    requires rec.run.status != RunCompleted && rec.run.status != RunCancelled
    ensures RunWrites(rec, env) == [] <==> rec.steps == [] && env.plan.steps == []
  {
  }

  /** Preparing a run makes no write exactly for a completed or cancelled run, and refuses exactly an open run
      without steps and without a plan. */
  lemma PrepareWritesNothingIff(rec: Record, plan: Plan)
    ensures PrepareWrites(rec, plan) == Some([]) <==> rec.run.status == RunCompleted || rec.run.status == RunCancelled
    ensures PrepareWrites(rec, plan) == None
            <==> && rec.run.status != RunCompleted && rec.run.status != RunCancelled
                 && rec.steps == [] && plan.steps == []
  {
  }

  /** Resuming a failed run with retry first puts its first failed step back, cleared of its error, and logs
      it. */
  lemma ResumeRetriesFirstFailed(rec: Record, i: nat, env: Env) returns (state: Record)
    requires UniqueIds(rec.steps) && rec.run.status == RunFailed
    requires i < |rec.steps| && rec.steps[i].status == Failed && forall j | 0 <= j < i :: rec.steps[j].status != Failed
    ensures 2 <= |ResumeWrites(rec, true, env)| && state == StateAt(rec, ResumeWrites(rec, true, env), 2)
    ensures state == rec.(steps := rec.steps[i := rec.steps[i].(status := Pending, error := "")],
                          events := rec.events + [Event(rec.run.id, rec.steps[i].id, "autonomous.step.retry-scheduled",
                                                        Null)])
    ensures ResumeWrites(rec, true, env)[2..] == RunWrites(state, env)
  {
    var log, retry := ResumeWrites(rec, true, env), RetryWrites(rec, true);
    assert FirstFailed(rec.steps, 0) == i;
    OwnIndex(rec.steps, i);
    state := Apply(Apply(rec, retry[0]), retry[1]);
    GuardedOneWrite(Apply(rec, retry[0]), retry[1]);
    assert retry[1..] == [retry[1]];
    assert ApplyAll(rec, retry) == state;
    assert log == retry + RunWrites(state, env);
    assert log[..2] == retry;
  }

  /** If the dependencies of that step are met and of no open step before it, it is the one that is executed
      next. */
  lemma RetriedStepRunsNext(rec: Record, i: nat, env: Env) returns (ready: Record, next: Record)
    requires UniqueIds(rec.steps) && rec.run.status == RunFailed
    requires i < |rec.steps| && rec.steps[i].status == Failed && forall j | 0 <= j < i :: rec.steps[j].status != Failed
    requires DependenciesMet(rec.steps, i)
    requires forall j | 0 <= j < i && rec.steps[j].status in {Pending, Running} :: !DependenciesMet(rec.steps, j)
    ensures |ready.steps| == |rec.steps| && ready.steps[i] == rec.steps[i].(status := Pending, error := "")
    ensures next == ApplyAll(ready, ExecuteWrites(ready, i, env.executor(InputFor(ready, i))))
    ensures var trace := RunLoop(ready, env, env.Limit());
            && trace.started != [] && trace.started[0] == i
            && ApplyAll(rec, ResumeWrites(rec, true, env)) == ApplyAll(ready, trace.log)
  {
    var state := ResumeRetriesFirstFailed(rec, i, env);
    ready := PreparingInPlainTerms(state, env.plan);
    RetriedIsFirst(rec, state.steps, ready.steps, i);
    next := FirstTurn(ready, i, env, env.Limit(), env.Limit() - 1);
    ResumedFrom(rec, state, ready, env);
  }

  lemma FirstTurn(ready: Record, i: nat, env: Env, budget: nat, left: nat) returns (next: Record)
    requires i < |ready.steps| && IsReady(ready.steps, i) && forall j | 0 <= j < i :: !IsReady(ready.steps, j)
    requires budget == left + 1
    ensures next == ApplyAll(ready, ExecuteWrites(ready, i, env.executor(InputFor(ready, i))))
    ensures RunLoop(ready, env, budget).started != [] && RunLoop(ready, env, budget).started[0] == i
  {
    var first;
    first, next := TurnsGoOn(ready, env, budget, left);
    assert first == i;
  }

  lemma ResumedFrom(rec: Record, state: Record, ready: Record, env: Env)
    requires 2 <= |ResumeWrites(rec, true, env)| && state == StateAt(rec, ResumeWrites(rec, true, env), 2)
    requires ResumeWrites(rec, true, env)[2..] == RunWrites(state, env)
    requires PrepareWrites(state, env.plan).Some? && ready == ApplyAll(state, PrepareWrites(state, env.plan).value)
    ensures ApplyAll(rec, ResumeWrites(rec, true, env)) == ApplyAll(ready, RunLoop(ready, env, env.Limit()).log)
  {
    var log := ResumeWrites(rec, true, env);
    assert log == log[..2] + log[2..];
    ApplyConcat(rec, log[..2], log[2..]);
    ApplyConcat(state, PrepareWrites(state, env.plan).value, RunLoop(ready, env, env.Limit()).log);
  }

  /** Every id that step `i` depends on is that of a completed step. */
  ghost predicate DependenciesMet(steps: seq<Step>, i: nat)
    requires i < |steps|
  {
    forall id | id in steps[i].dependsOn ::
      exists j :: 0 <= j < |steps| && steps[j].id == id && steps[j].status == Completed
  }

  lemma ReadyIff(steps: seq<Step>, i: nat)
    requires UniqueIds(steps) && i < |steps|
    ensures IsReady(steps, i) <==> steps[i].status == Pending && DependenciesMet(steps, i)
  {
    if DependenciesMet(steps, i) {
      forall k | 0 <= k < |steps[i].dependsOn| ensures IdCompleted(steps, steps[i].dependsOn[k]) {
        var id := steps[i].dependsOn[k];
        assert id in steps[i].dependsOn;
        var j :| 0 <= j < |steps| && steps[j].id == id && steps[j].status == Completed;
        OwnIndex(steps, j);
      }
    }
    if IsReady(steps, i) {
      forall id | id in steps[i].dependsOn
        ensures exists j :: 0 <= j < |steps| && steps[j].id == id && steps[j].status == Completed
      {
        var k :| 0 <= k < |steps[i].dependsOn| && steps[i].dependsOn[k] == id;
        assert IdCompleted(steps, steps[i].dependsOn[k]);
      }
    }
  }

  lemma RetriedIsFirst(rec: Record, state: seq<Step>, ready: seq<Step>, i: nat)
    requires UniqueIds(rec.steps) && i < |rec.steps| && rec.steps[i].status == Failed
    requires state == rec.steps[i := rec.steps[i].(status := Pending, error := "")] && |ready| == |state|
    requires forall j | 0 <= j < |state| ::
               ready[j] == if state[j].status != Running then state[j]
                           else state[j].(status := Pending, error := "Step was interrupted before completion.")
    requires DependenciesMet(rec.steps, i)
    requires forall j | 0 <= j < i && rec.steps[j].status in {Pending, Running} :: !DependenciesMet(rec.steps, j)
    ensures IsReady(ready, i) && forall j | 0 <= j < i :: !IsReady(ready, j)
  {
    assert UniqueIds(ready);
    assert forall j | 0 <= j < |ready| ::
        && ready[j].id == rec.steps[j].id && ready[j].dependsOn == rec.steps[j].dependsOn
        && (ready[j].status == Completed <==> rec.steps[j].status == Completed);
    forall j | 0 <= j <= i ensures DependenciesMet(ready, j) <==> DependenciesMet(rec.steps, j) {
      SameMet(rec.steps, ready, j);
    }
    forall j | 0 <= j <= i ensures IsReady(ready, j) <==> ready[j].status == Pending && DependenciesMet(ready, j) {
      ReadyIff(ready, j);
    }
  }

  lemma SameMet(s: seq<Step>, t: seq<Step>, i: nat)
    requires |s| == |t| && i < |s| && s[i].dependsOn == t[i].dependsOn
    requires forall j | 0 <= j < |s| ::
               t[j].id == s[j].id && (t[j].status == Completed <==> s[j].status == Completed)
    ensures DependenciesMet(s, i) <==> DependenciesMet(t, i)
  {
    forall id | id in s[i].dependsOn
      ensures (exists j :: 0 <= j < |s| && s[j].id == id && s[j].status == Completed)
              <==> exists j :: 0 <= j < |t| && t[j].id == id && t[j].status == Completed
    {
    }
  }
}
