/** What the operations do at the edges: crashes inside them, duplicate ids and cancelled runs. Where a
    promise breaks there is the exact condition. */
module AutonomousEdges {
  import opened Wrappers
  import opened Values
  import opened Autonomous
  import opened AutonomousOperations
  import opened AutonomousProtocol
  import opened AutonomousGuards
  import opened AutonomousHistory
  import opened AutonomousLedger
  import opened AutonomousSchedule
  import opened PlanGraph

  // ---------------------------------------------------------------- a crash before the append

  /** The position of the write that completes the step. */
  function CompletionAt(execution: Execution): nat {
    3 + |execution.checkpoints|
  }

  predicate AsksForMore(finish: Finish) {
    finish.Returned? && !finish.status.Waiting? && finish.nextSteps != []
  }

  lemma WritesOfExecution(rec: Record, i: nat, execution: Execution, k: nat)
    requires i < |rec.steps| && UniqueIds(rec.steps) && AsksForMore(execution.finish)
    requires k < |ExecuteWrites(rec, i, execution)|
    ensures var log, n := ExecuteWrites(rec, i, execution), CompletionAt(execution);
            && |log| == n + 4
            && if k == 0 then log[k] == UpdateStep(rec.steps[i].id, StartPatch(rec.steps[i]))
               else if k == n then log[k] == UpdateStep(rec.steps[i].id, FinishPatch(rec.steps[i], execution.finish))
               else if k == n + 3 then log[k] == AppendSteps(execution.finish.nextSteps)
               else Quiet(log[k])
  {
    FinishOfStarted(rec, i, execution.finish);
  }

  function StepsAtCut(rec: Record, i: nat, execution: Execution, cut: nat): seq<Step>
    requires i < |rec.steps| && execution.finish.Returned?
  {
    var n := CompletionAt(execution);
    if cut == 0 then rec.steps
    else if cut <= n then rec.steps[i := Started(rec.steps[i])]
    else
      rec.steps[i := Finished(rec.steps[i], execution.finish)]
      + if cut <= n + 3 then [] else NormalizeSteps(rec.run.id, |rec.steps|, execution.finish.nextSteps)
  }

  lemma {:induction false} CutExecution(rec: Record, i: nat, execution: Execution, cut: nat)
    requires UniqueIds(rec.steps) && i < |rec.steps| && IsReady(rec.steps, i) && AsksForMore(execution.finish)
    requires cut <= |ExecuteWrites(rec, i, execution)|
    ensures StateAt(rec, ExecuteWrites(rec, i, execution), cut).steps == StepsAtCut(rec, i, execution, cut)
    ensures StateAt(rec, ExecuteWrites(rec, i, execution), cut).run.id == rec.run.id
    decreases cut, 1
  {
    var log := ExecuteWrites(rec, i, execution);
    if cut == 0 {
      assert log[..0] == [];
    } else {
      NextCut(rec, i, execution, cut - 1, cut);
    }
  }

  lemma {:induction false} NextCut(rec: Record, i: nat, execution: Execution, k: nat, cut: nat)
    requires UniqueIds(rec.steps) && i < |rec.steps| && IsReady(rec.steps, i) && AsksForMore(execution.finish)
    requires cut == k + 1 && cut <= |ExecuteWrites(rec, i, execution)|
    ensures StateAt(rec, ExecuteWrites(rec, i, execution), cut).steps == StepsAtCut(rec, i, execution, cut)
    ensures StateAt(rec, ExecuteWrites(rec, i, execution), cut).run.id == rec.run.id
    decreases cut, 0
  {
    var log := ExecuteWrites(rec, i, execution);
    CutExecution(rec, i, execution, k);
    ExecuteGuarded(false, rec, i, execution);
    GuardedAt(false, rec, log, k);
    WritesOfExecution(rec, i, execution, k);
    OneWriteOn(rec, i, execution, StateAt(rec, log, k), log[k], cut);
  }

  lemma OneWriteOn(rec: Record, i: nat, execution: Execution, before: Record, w: Write, cut: nat)
    requires UniqueIds(rec.steps) && i < |rec.steps| && AsksForMore(execution.finish)
    requires 0 < cut <= CompletionAt(execution) + 4
    requires before.steps == StepsAtCut(rec, i, execution, cut - 1) && before.run.id == rec.run.id
    requires var n := CompletionAt(execution);
             if cut == 1 then w == UpdateStep(rec.steps[i].id, StartPatch(rec.steps[i]))
             else if cut == n + 1 then w == UpdateStep(rec.steps[i].id, FinishPatch(rec.steps[i], execution.finish))
             else if cut == n + 4 then w == AppendSteps(execution.finish.nextSteps)
             else Quiet(w)
    ensures Apply(before, w).steps == StepsAtCut(rec, i, execution, cut) && Apply(before, w).run.id == rec.run.id
  {
    var n := CompletionAt(execution);
    if cut == 1 {
      OwnIndex(rec.steps, i);
    } else if cut == n + 1 {
      OwnIndex(rec.steps[i := Started(rec.steps[i])], i);
      assert rec.steps[i := Started(rec.steps[i])][i := Finished(rec.steps[i], execution.finish)]
          == rec.steps[i := Finished(rec.steps[i], execution.finish)];
    }
  }

  /** What a crash can cost: exactly at the three cuts between the completion of a step and the append of
      the steps it asked for, the completion is durable and the new steps are not. */
  lemma CrashBeforeAppend(rec: Record, i: nat, execution: Execution, cut: nat) returns (steps: seq<Step>)
    requires UniqueIds(rec.steps) && i < |rec.steps| && IsReady(rec.steps, i) && AsksForMore(execution.finish)
    requires cut <= |ExecuteWrites(rec, i, execution)|
    ensures steps == StateAt(rec, ExecuteWrites(rec, i, execution), cut).steps && |steps| >= |rec.steps|
    ensures steps[i].status.Completed? && |steps| == |rec.steps|
            <==> |ExecuteWrites(rec, i, execution)| - 3 <= cut < |ExecuteWrites(rec, i, execution)|
  {
    CutExecution(rec, i, execution, cut);
    steps := StepsAtCut(rec, i, execution, cut);
    WritesOfExecution(rec, i, execution, 0);
  }

  /** A completed step is never started again. */
  lemma CompletedNeverStarts(rec: Record, sessions: seq<Session>, i: nat, k: nat)
    requires i < |rec.steps| && rec.steps[i].status.Completed?
    requires k < |History(rec, sessions)| && IsStart(History(rec, sessions)[k])
    requires UniqueIds(ApplyAll(rec, History(rec, sessions)).steps)
    ensures History(rec, sessions)[k].stepId != rec.steps[i].id
  {
    var log := History(rec, sessions);
    StartsAreSafe(rec, sessions, k, k + 1);
    CompletedForever(rec, sessions, 0, k);
    HistoryGuarded(rec, sessions);
    UniqueBefore(false, rec, log, k);
    assert log[..0] == [];
    OwnIndex(StateAt(rec, log, k).steps, i);
  }

  /** So the steps are lost for good: only the execution of this step asks for them, and no later history
      starts it again. */
  lemma LostForGood(rec: Record, i: nat, execution: Execution, cut: nat, after: Record, sessions: seq<Session>, k: nat)
    requires UniqueIds(rec.steps) && i < |rec.steps| && IsReady(rec.steps, i) && AsksForMore(execution.finish)
    requires |ExecuteWrites(rec, i, execution)| - 3 <= cut < |ExecuteWrites(rec, i, execution)|
    requires after == StateAt(rec, ExecuteWrites(rec, i, execution), cut)
    requires UniqueIds(ApplyAll(after, History(after, sessions)).steps)
    requires k < |History(after, sessions)| && IsStart(History(after, sessions)[k])
    ensures History(after, sessions)[k].stepId != rec.steps[i].id
  {
    CutExecution(rec, i, execution, cut);
    WritesOfExecution(rec, i, execution, 0);
    CompletedNeverStarts(after, sessions, i, k);
  }

  // ---------------------------------------------------------------- running a cancelled run

  predicate LeavesRun(w: Write) {
    !w.UpdateRun?
  }

  lemma {:induction false} SweepLeavesRun(rec: Record, sweep: Sweep, steps: seq<Step>, k: nat)
    requires k <= |steps|
    ensures forall j | 0 <= j < |SweepWrites(rec, sweep, steps, k)| :: LeavesRun(SweepWrites(rec, sweep, steps, k)[j])
    decreases |steps| - k
  {
    if k < |steps| {
      SweepLeavesRun(rec, sweep, steps, k + 1);
    }
  }

  lemma {:induction false} RunLeft(rec: Record, log: seq<Write>)
    requires forall k | 0 <= k < |log| :: LeavesRun(log[k])
    ensures ApplyAll(rec, log).run == rec.run
    decreases |log|
  {
    if log != [] {
      RunLeft(Apply(rec, log[0]), log[1..]);
    }
  }

  /** An execution in stages: the start, the notes, the finish of the step, and the rest. */
  lemma ExecuteStages(rec: Record, i: nat, execution: Execution) returns (begun: Record, mid: Record, done: Record)
    requires i < |rec.steps|
    ensures begun == Apply(rec, UpdateStep(rec.steps[i].id, StartPatch(rec.steps[i])))
    ensures mid.run == begun.run && mid.steps == begun.steps
    ensures var running := StartedStep(rec, rec.steps[i]);
            && done == Apply(mid, UpdateStep(running.id, FinishPatch(running, execution.finish)))
            && ApplyAll(rec, ExecuteWrites(rec, i, execution))
               == ApplyAll(done, AfterFinishWrites(rec, running, execution.finish))
  {
    var step, running := rec.steps[i], StartedStep(rec, rec.steps[i]);
    var start, callbacks := StartWrites(rec, step), CallbackWrites(rec, step, execution.checkpoints);
    var finish := FinishWrites(rec, running, execution.finish);
    begun := Apply(rec, start[0]);
    QuietLog(false, begun, start[1..]);
    var started := ApplyAll(rec, start);
    QuietLog(false, started, callbacks);
    mid := ApplyAll(started, callbacks);
    done := Apply(mid, finish[0]);
    ApplyConcat(started, callbacks, finish);
    ApplyConcat(rec, start, callbacks + finish);
    assert finish[1..] == AfterFinishWrites(rec, running, execution.finish);
  }

  /** How an execution leaves the status of the run, whatever the ids. */
  lemma ExecuteRunStatus(rec: Record, i: nat, execution: Execution, after: Record)
    requires i < |rec.steps| && after == ApplyAll(rec, ExecuteWrites(rec, i, execution))
    ensures after.run.status
            == match execution.finish
               case Threw(_) => RunFailed
               case Returned(status, _, _, _, _) => if status.Waiting? then RunWaiting else rec.run.status
  {
    var begun, mid, done := ExecuteStages(rec, i, execution);
    AfterFinishGuarded(false, rec, done, StartedStep(rec, rec.steps[i]), execution.finish);
  }

  /** `resume` leaves a cancelled run alone. `run` does not: it completes the run exactly if nothing is left
      to do, and otherwise executes what is ready. */
  lemma RunCompletesCancelled(rec: Record, retry: bool, env: Env)
    requires rec.run.status.RunCancelled?
    ensures ResumeWrites(rec, retry, env) == []
    ensures ApplyAll(rec, RunWrites(rec, env)).run.status.RunCompleted? <==> NothingToDo(rec.steps)
  {
    var none: seq<Write> := [];
    assert none + RunLoop(rec, env, env.Limit()).log == RunLoop(rec, env, env.Limit()).log;
    assert RunWrites(rec, env) == RunLoop(rec, env, env.Limit()).log;
    if FirstReady(rec.steps, 0) < |rec.steps| {
      var next, execution, after := OneTurn(rec, env, env.Limit(), env.Limit() - 1);
      ExecuteRunStatus(rec, next, execution, after);
    } else if AnyWaiting(rec.steps) {
      GuardedOneWrite(rec, UpdateRun(RUN_PATCH.(status := Some(RunWaiting))));
    } else {
      CompleteGuarded(false, rec);
    }
  }

  // ---------------------------------------------------------------- running a failed run

  ghost predicate NoneRunning(steps: seq<Step>) {
    forall i | 0 <= i < |steps| :: !steps[i].status.Running?
  }

  /** An execution leaves no step running, if none was. */
  lemma EffectEnds(rec: Record, i: nat, finish: Finish, after: Record)
    requires i < |rec.steps| && NoneRunning(rec.steps) && ExecuteEffect(rec, i, finish, after)
    ensures NoneRunning(after.steps) && |after.steps| >= |rec.steps|
    ensures after.steps[i].attempts == rec.steps[i].attempts + 1
  {
  }

  lemma LoopStartsUnique(rec: Record, env: Env, budget: nat)
    requires UniqueIds(ApplyAll(rec, RunLoop(rec, env, budget).log).steps)
    ensures UniqueIds(rec.steps)
  {
    var log := RunLoop(rec, env, budget).log;
    LoopGuarded(false, rec, env, budget);
    UniqueBefore(false, rec, log, 0);
    StartOfLog(rec, log);
  }

  /** Neither does the loop. */
  lemma {:induction false} LoopEnds(rec: Record, env: Env, budget: nat, final: Record)
    requires final == ApplyAll(rec, RunLoop(rec, env, budget).log) && UniqueIds(final.steps) && NoneRunning(rec.steps)
    ensures NoneRunning(final.steps)
    decreases budget, 1
  {
    if budget > 0 {
      if FirstReady(rec.steps, 0) == |rec.steps| {
        IdleLeavesSteps(rec, env, budget);
      } else {
        TurnEnds(rec, env, budget, budget - 1, final);
      }
    }
  }

  lemma {:induction false} TurnEnds(rec: Record, env: Env, budget: nat, left: nat, final: Record)
    requires final == ApplyAll(rec, RunLoop(rec, env, budget).log) && UniqueIds(final.steps) && NoneRunning(rec.steps)
    requires budget == left + 1 && FirstReady(rec.steps, 0) < |rec.steps|
    ensures NoneRunning(final.steps)
    decreases budget, 0
  {
    LoopStartsUnique(rec, env, budget);
    var next, execution, after := OneTurn(rec, env, budget, left);
    ExecuteGuarded(false, rec, next, execution);
    EffectEnds(rec, next, execution.finish, after);
    if !Stops(after.run.status) {
      LoopEnds(after, env, left, final);
    }
  }

  lemma StartOfLog(rec: Record, log: seq<Write>)
    ensures StateAt(rec, log, 0) == rec
  {
    assert log[..0] == [];
  }

  lemma IdleLeavesSteps(rec: Record, env: Env, budget: nat)
    requires budget > 0 && FirstReady(rec.steps, 0) == |rec.steps|
    ensures var after := ApplyAll(rec, RunLoop(rec, env, budget).log);
            after.steps == rec.steps && (after.run.status.RunCompleted? <==> !AnyWaiting(rec.steps))
  {
    if AnyWaiting(rec.steps) {
      GuardedOneWrite(rec, UpdateRun(RUN_PATCH.(status := Some(RunWaiting))));
    } else {
      CompleteGuarded(false, rec);
    }
  }

  /** A turn of the loop can be seen in the attempts afterwards. */
  lemma TurnShows(rec: Record, env: Env, budget: nat, left: nat, final: Record)
    requires final == ApplyAll(rec, RunLoop(rec, env, budget).log) && UniqueIds(final.steps)
    requires budget == left + 1 && FirstReady(rec.steps, 0) < |rec.steps|
    ensures final.steps != rec.steps
  {
    LoopStartsUnique(rec, env, budget);
    var next, execution, after := OneTurn(rec, env, budget, left);
    ExecuteGuarded(false, rec, next, execution);
    if !Stops(after.run.status) {
      LoopEvolves(after, env, left, final);
    }
    assert after.steps[next].attempts == rec.steps[next].attempts + 1;
  }

  lemma LoopEvolves(rec: Record, env: Env, budget: nat, final: Record)
    requires final == ApplyAll(rec, RunLoop(rec, env, budget).log) && UniqueIds(final.steps)
    ensures Evolves(rec.steps, final.steps)
  {
    var log := RunLoop(rec, env, budget).log;
    LoopGuarded(false, rec, env, budget);
    EvolvesBetween(false, rec, log, 0, |log|);
    assert log[..0] == [] && log[..|log|] == log;
  }

  /** `resume` without retry, and `run`, complete a planned run as it is, failed steps and all, exactly if
      no step is running, ready or waiting. */
  lemma RunCompletesFailed(rec: Record, env: Env, final: Record)
    requires rec.run.status != RunCompleted && rec.run.status != RunCancelled && rec.steps != []
    requires final == ApplyAll(rec, RunWrites(rec, env)) && UniqueIds(final.steps)
    ensures ResumeWrites(rec, false, env)
            == if rec.run.status.RunWaiting? && AnyWaiting(rec.steps) then [] else RunWrites(rec, env)
    ensures final.run.status.RunCompleted? && final.steps == rec.steps
            <==> NoneRunning(rec.steps) && NothingToDo(rec.steps)
  {
    var none: seq<Write> := [];
    assert none + RunWrites(rec, env) == RunWrites(rec, env);
    if NoneRunning(rec.steps) {
      QuietRunCompletes(rec, env, final);
    } else {
      RunEndsRunning(rec, env, final);
    }
  }

  lemma QuietRunCompletes(rec: Record, env: Env, final: Record)
    requires rec.run.status != RunCompleted && rec.run.status != RunCancelled && rec.steps != []
    requires final == ApplyAll(rec, RunWrites(rec, env)) && UniqueIds(final.steps) && NoneRunning(rec.steps)
    ensures final.run.status.RunCompleted? && final.steps == rec.steps <==> NothingToDo(rec.steps)
  {
    PrepareQuietly(rec, env.plan);
    var started := ApplyAll(rec, StartRunWrites(rec));
    ApplyConcat(rec, StartRunWrites(rec), RunLoop(started, env, env.Limit()).log);
    if FirstReady(started.steps, 0) == |started.steps| {
      IdleLeavesSteps(started, env, env.Limit());
    } else {
      TurnShows(started, env, env.Limit(), env.Limit() - 1, final);
    }
  }

  /** A run that gets to its end leaves no step running. */
  lemma RunEndsRunning(rec: Record, env: Env, final: Record)
    requires rec.run.status != RunCompleted && rec.run.status != RunCancelled && rec.steps != []
    requires final == ApplyAll(rec, RunWrites(rec, env)) && UniqueIds(final.steps)
    ensures NoneRunning(final.steps)
  {
    var prepare := SweepWrites(rec, Requeue, rec.steps, 0) + StartRunWrites(rec);
    var none: seq<Write> := [];
    assert none + prepare == prepare;
    assert PrepareWrites(rec, env.plan) == Some(prepare);
    var prepared := ApplyAll(rec, prepare);
    ApplyConcat(rec, prepare, RunLoop(prepared, env, env.Limit()).log);
    RunGuarded(false, rec, env);
    UniqueBefore(false, rec, RunWrites(rec, env), 0);
    StartOfLog(rec, RunWrites(rec, env));
    NoneRunningOnceSwept(rec, prepared);
    LoopEnds(prepared, env, env.Limit(), final);
  }

  lemma NoneRunningOnceSwept(rec: Record, prepared: Record)
    requires UniqueIds(rec.steps)
    requires prepared == ApplyAll(rec, SweepWrites(rec, Requeue, rec.steps, 0) + StartRunWrites(rec))
    ensures NoneRunning(prepared.steps)
  {
    var sweep, start := SweepWrites(rec, Requeue, rec.steps, 0), StartRunWrites(rec);
    SweepGuarded(false, rec, Requeue, rec, rec.steps, 0);
    StartRunGuarded(false, rec, ApplyAll(rec, sweep));
    ApplyConcat(rec, sweep, start);
  }

  // ---------------------------------------------------------------- cancelling

  /** Cancelling takes every open step with it and leaves the finished ones alone, and afterwards neither
      `resume` nor the completion of a waiting step does anything. */
  lemma CancelClosesEverything(rec: Record, reason: string) returns (after: Record)
    requires UniqueIds(rec.steps)
    ensures after == ApplyAll(rec, CancelWrites(rec, reason))
    ensures after.run.status.RunCancelled? && after.run.error == reason && |after.steps| == |rec.steps|
    ensures forall i | 0 <= i < |rec.steps| ::
              if rec.steps[i].status in {Pending, Running, Waiting}
              then after.steps[i].status.Cancelled? && after.steps[i].error == reason
              else after.steps[i] == rec.steps[i]
    ensures forall retry, env :: ResumeWrites(after, retry, env) == []
    ensures forall stepId, output :: CompleteWaitingWrites(after, stepId, output) == []
  {
    var log := CancelWrites(rec, reason);
    var mid := Apply(rec, log[0]);
    var sweep := SweepWrites(rec, CancelOpen(reason), rec.steps, 0);
    var last := log[|log| - 1];
    SweepGuarded(false, rec, CancelOpen(reason), mid, rec.steps, 0);
    ApplyConcat(mid, sweep, [last]);
    assert log[1..] == sweep + [last];
    GuardedOneWrite(ApplyAll(mid, sweep), last);
    after := ApplyAll(rec, log);
  }

  lemma CutCancelLeavesRun(rec: Record, reason: string, cut: nat)
    requires 0 < cut <= |CancelWrites(rec, reason)|
    ensures StateAt(rec, CancelWrites(rec, reason), cut).run.status.RunCancelled?
  {
    var log := CancelWrites(rec, reason);
    SweepLeavesRun(rec, CancelOpen(reason), rec.steps, 0);
    assert forall k | 1 <= k < |log| :: LeavesRun(log[k]);
    var prefix := log[..cut];
    assert prefix[0] == log[0] && forall k | 0 <= k < |prefix[1..]| :: prefix[1..][k] == log[k + 1];
    RunLeft(Apply(rec, prefix[0]), prefix[1..]);
  }

  /** A cancellation cut short anywhere after its first write leaves the run cancelled, and so `resume` does
      nothing, although there may be open steps. */
  lemma CutCancelStaysClosed(rec: Record, reason: string, cut: nat, retry: bool, env: Env) returns (state: Record)
    requires 0 < cut <= |CancelWrites(rec, reason)|
    ensures state == StateAt(rec, CancelWrites(rec, reason), cut)
    ensures state.run.status.RunCancelled? && ResumeWrites(state, retry, env) == []
  {
    CutCancelLeavesRun(rec, reason, cut);
    state := StateAt(rec, CancelWrites(rec, reason), cut);
  }

  /** How many open steps come before position `n`: each of them takes the cancellation one write. */
  function OpenBefore(steps: seq<Step>, from: nat, n: nat): nat
    requires n <= |steps|
    decreases n - from
  {
    if from >= n then 0 else (if IsOpen(steps[from].status) then 1 else 0) + OpenBefore(steps, from + 1, n)
  }

  /** Cancelling a step takes at most one write, so a cut falls between two steps. */
  lemma CutOnce(rec: Record, reason: string, cur: Record, seen: seq<Step>, k: nat, cut: nat)
    returns (next: Record, left: nat)
    requires k < |seen| && 0 < cut <= |SweepWrites(rec, CancelOpen(reason), seen, k)|
    ensures next == ApplyAll(cur, SweepOne(rec, CancelOpen(reason), seen[k]))
    ensures left == cut - (if IsOpen(seen[k].status) then 1 else 0)
    ensures var rest := SweepWrites(rec, CancelOpen(reason), seen, k + 1);
            left <= |rest|
            && ApplyAll(cur, SweepWrites(rec, CancelOpen(reason), seen, k)[..cut]) == ApplyAll(next, rest[..left])
  {
    var one, rest := SweepOne(rec, CancelOpen(reason), seen[k]), SweepWrites(rec, CancelOpen(reason), seen, k + 1);
    next, left := ApplyAll(cur, one), cut - |one|;
    assert (one + rest)[..cut] == one + rest[..left];
    ApplyConcat(cur, one, rest[..left]);
  }

  /** After `cut` writes the sweep has dealt with the first `j` steps, and with step `i` among them if it is
      open and has fewer than `cut` open steps before it. */
  lemma {:induction false} CutSweep(
      rec: Record, reason: string, cur: Record, seen: seq<Step>, k: nat, cut: nat, i: nat)
    returns (after: Record, j: nat)
    requires UniqueIds(cur.steps) && SweptUpTo(CancelOpen(reason), cur.steps, seen, k)
    requires cut <= |SweepWrites(rec, CancelOpen(reason), seen, k)|
    ensures after == ApplyAll(cur, SweepWrites(rec, CancelOpen(reason), seen, k)[..cut])
    ensures k <= j && SweptUpTo(CancelOpen(reason), after.steps, seen, j)
    ensures k <= i < |seen| && IsOpen(seen[i].status) ==> (i < j <==> OpenBefore(seen, k, i) < cut)
    decreases |seen| - k
  {
    if cut == 0 {
      after, j := cur, k;
    } else {
      var next, left := CutOnce(rec, reason, cur, seen, k, cut);
      SweepOneGuarded(false, rec, CancelOpen(reason), cur, seen, k);
      after, j := CutSweep(rec, reason, next, seen, k + 1, left, i);
      ReachedFrom(seen, k, cut, left, i, j);
    }
  }

  lemma ReachedFrom(seen: seq<Step>, k: nat, cut: nat, left: nat, i: nat, j: nat)
    requires k < |seen| && cut > 0 && left == cut - (if IsOpen(seen[k].status) then 1 else 0) && k < j
    requires k < i < |seen| && IsOpen(seen[i].status) ==> (i < j <==> OpenBefore(seen, k + 1, i) < left)
    ensures k <= i < |seen| && IsOpen(seen[i].status) ==> (i < j <==> OpenBefore(seen, k, i) < cut)
  {
  }

  lemma {:induction false} OpenHasWrite(rec: Record, reason: string, steps: seq<Step>, k: nat, i: nat)
    requires k <= i < |steps| && IsOpen(steps[i].status)
    ensures OpenBefore(steps, k, i) < |SweepWrites(rec, CancelOpen(reason), steps, k)|
    decreases i - k
  {
    if k < i {
      OpenHasWrite(rec, reason, steps, k + 1, i);
    }
  }

  /** The steps of a cut cancellation are those of its cut sweep. */
  lemma CutCancelSteps(rec: Record, reason: string, cut: nat, m: nat)
    requires 0 < cut <= |CancelWrites(rec, reason)|
    requires var sweep := SweepWrites(rec, CancelOpen(reason), rec.steps, 0);
             m == if cut - 1 <= |sweep| then cut - 1 else |sweep|
    ensures var log, sweep := CancelWrites(rec, reason), SweepWrites(rec, CancelOpen(reason), rec.steps, 0);
            StateAt(rec, log, cut).steps == ApplyAll(Apply(rec, log[0]), sweep[..m]).steps
  {
    var log, sweep := CancelWrites(rec, reason), SweepWrites(rec, CancelOpen(reason), rec.steps, 0);
    var mid := Apply(rec, log[0]);
    assert log == [log[0]] + (sweep + [log[|log| - 1]]);
    assert log[..cut][1..] == log[1..cut];
    if cut - 1 <= |sweep| {
      assert log[1..cut] == sweep[..m];
    } else {
      assert log[1..cut] == sweep[..m] + [log[|log| - 1]];
      ApplyConcat(mid, sweep[..m], [log[|log| - 1]]);
      GuardedOneWrite(ApplyAll(mid, sweep[..m]), log[|log| - 1]);
    }
  }

  lemma CutKeepsIds(rec: Record, reason: string, m: nat, state: Record)
    requires UniqueIds(rec.steps) && m <= |SweepWrites(rec, CancelOpen(reason), rec.steps, 0)|
    requires var mid := Apply(rec, CancelWrites(rec, reason)[0]);
             state.steps == ApplyAll(mid, SweepWrites(rec, CancelOpen(reason), rec.steps, 0)[..m]).steps
    ensures |state.steps| == |rec.steps| && SameIds(rec.steps, state.steps)
  {
    var mid, sweep := Apply(rec, CancelWrites(rec, reason)[0]), SweepWrites(rec, CancelOpen(reason), rec.steps, 0);
    NoReplaceInSweep(rec, CancelOpen(reason), rec.steps, 0);
    IdsKept(mid, sweep[..m]);
    var swept, j := CutSweep(rec, reason, mid, rec.steps, 0, m, 0);
  }

  lemma CompletionReopens(state: Record, stepId: string, output: Value)
    ensures var i, after := IndexOf(state.steps, stepId), ApplyAll(state, CompleteWaitingWrites(state, stepId, output));
            after.run.status
            == if i < |state.steps| && state.steps[i].status.Waiting? then RunQueued else state.run.status
  {
    var log := CompleteWaitingWrites(state, stepId, output);
    if log != [] {
      ThreeWrites(state, log);
    }
  }

  /** Completing a step does reopen a cut cancellation, exactly if the step was waiting and the crash came
      before the sweep got to it. */
  lemma CompletionReopensCutCancel(rec: Record, reason: string, cut: nat, stepId: string, output: Value)
    returns (state: Record, i: nat, after: Record)
    requires UniqueIds(rec.steps) && 0 < cut <= |CancelWrites(rec, reason)|
    ensures state == StateAt(rec, CancelWrites(rec, reason), cut) && i == IndexOf(rec.steps, stepId)
    ensures after == ApplyAll(state, CompleteWaitingWrites(state, stepId, output))
    ensures after.run.status == RunQueued || after.run.status == RunCancelled
    ensures after.run.status == RunQueued
            <==> i < |rec.steps| && rec.steps[i].status.Waiting? && cut <= 1 + OpenBefore(rec.steps, 0, i)
  {
    var log, sweep := CancelWrites(rec, reason), SweepWrites(rec, CancelOpen(reason), rec.steps, 0);
    var m := if cut - 1 <= |sweep| then cut - 1 else |sweep|;
    state := StateAt(rec, log, cut);
    i := IndexOf(rec.steps, stepId);
    after := ApplyAll(state, CompleteWaitingWrites(state, stepId, output));
    CutCancelLeavesRun(rec, reason, cut);
    CutCancelSteps(rec, reason, cut, m);
    CutKeepsIds(rec, reason, m, state);
    SameIndexOf(rec.steps, state.steps, stepId);
    if i < |rec.steps| {
      var swept, j := CutSweep(rec, reason, Apply(rec, log[0]), rec.steps, 0, m, i);
      if rec.steps[i].status.Waiting? {
        OpenHasWrite(rec, reason, rec.steps, 0, i);
      }
    }
    CompletionReopens(state, stepId, output);
  }

  // ---------------------------------------------------------------- duplicate ids

  /** Why the ids must be unique. Starting a ready step takes the completion of some step away exactly if
      the first step with its id is completed; with unique ids that is the ready step itself, so never. */
  lemma DuplicateIdLosesCompletion(rec: Record, i: nat, execution: Execution) returns (after: Record)
    requires i < |rec.steps| && IsReady(rec.steps, i)
    ensures after == StateAt(rec, ExecuteWrites(rec, i, execution), 1) && |after.steps| == |rec.steps|
    ensures (exists j :: 0 <= j < |rec.steps| && rec.steps[j].status.Completed? && !after.steps[j].status.Completed?)
            <==> rec.steps[IndexOf(rec.steps, rec.steps[i].id)].status.Completed?
  {
    var log := ExecuteWrites(rec, i, execution);
    var start := UpdateStep(rec.steps[i].id, StartPatch(rec.steps[i]));
    assert log[..1] == [start];
    GuardedOneWrite(rec, start);
    after := Apply(rec, start);
    var first := IndexOf(rec.steps, rec.steps[i].id);
    assert after.steps[first].status.Running?;
  }

  lemma FirstPatched(rec: Record, i: nat, p: StepPatch)
    requires i < |rec.steps| && IndexOf(rec.steps, rec.steps[i].id) == i
    ensures var steps := rec.steps[i := PatchStep(rec.steps[i], p)];
            Apply(rec, UpdateStep(rec.steps[i].id, p)) == rec.(steps := steps) && IndexOf(steps, rec.steps[i].id) == i
  {
    SameIndexOf(rec.steps, rec.steps[i := PatchStep(rec.steps[i], p)], rec.steps[i].id);
  }

  lemma FirstFinished(rec: Record, i: nat, finish: Finish, begun: Record, mid: Record, done: Record)
    requires i < |rec.steps| && IndexOf(rec.steps, rec.steps[i].id) == i
    requires begun == Apply(rec, UpdateStep(rec.steps[i].id, StartPatch(rec.steps[i])))
    requires mid.run == begun.run && mid.steps == begun.steps
    requires done == Apply(mid, UpdateStep(rec.steps[i].id, FinishPatch(Started(rec.steps[i]), finish)))
    ensures done.run == rec.run && done.steps == rec.steps[i := Finished(rec.steps[i], finish)]
  {
    FirstPatched(rec, i, StartPatch(rec.steps[i]));
    FirstPatched(mid, i, FinishPatch(Started(rec.steps[i]), finish));
  }

  /** An execution of the first step with its id changes that step, whatever comes after it. */
  lemma ExecuteFirst(rec: Record, i: nat, execution: Execution)
    requires i < |rec.steps| && IndexOf(rec.steps, rec.steps[i].id) == i
    ensures ExecuteEffect(rec, i, execution.finish, ApplyAll(rec, ExecuteWrites(rec, i, execution)))
  {
    var running := StartedStep(rec, rec.steps[i]);
    var begun, mid, done := ExecuteStages(rec, i, execution);
    FirstPatched(rec, i, StartPatch(rec.steps[i]));
    FirstFinished(rec, i, execution.finish, begun, mid, done);
    AfterFinishGuarded(false, rec, done, running, execution.finish);
  }

  /** A plan of two steps with one id that depend on nothing. */
  ghost predicate IsTwinPlan(plan: Plan, id: string) {
    |plan.steps| == 2 && forall k | 0 <= k < 2 :: plan.steps[k].id == id && plan.steps[k].dependsOn == []
  }

  /** The record of a twin plan whose second step has not been started. */
  ghost predicate Twins(rec: Record, id: string, first: StepStatus, status: RunStatus) {
    && |rec.steps| == 2 && (forall k | 0 <= k < 2 :: rec.steps[k].id == id && rec.steps[k].dependsOn == [])
    && rec.steps[0].status == first && rec.steps[1].status.Pending? && rec.run.status == status
  }

  ghost predicate AlwaysWaits(env: Env) {
    forall input: ExecutionInput :: env.executor(input).finish.Returned? && env.executor(input).finish.status.Waiting?
  }

  function AfterSession(rec: Record, s: Session): Record {
    ApplyAll(rec, SessionWrites(rec, s))
  }

  lemma FirstTwinWaits(rec: Record, env: Env, id: string)
    requires FreshRun(rec) && IsTwinPlan(env.plan, id) && AlwaysWaits(env)
    ensures Twins(AfterSession(rec, Session(OpRun, env, |RunWrites(rec, env)|)), id, Waiting, RunWaiting)
  {
    PrepareFresh(rec, env.plan);
    var prepared := Prepared(rec, env.plan);
    assert Twins(prepared, id, Pending, RunRunning);
    assert IsReady(prepared.steps, 0);
    var next, execution, after := OneTurn(prepared, env, env.Limit(), env.Limit() - 1);
    assert env.executor(InputFor(prepared, 0)) == execution;
    ExecuteFirst(prepared, 0, execution);
    ApplyConcat(rec, PrepareWrites(rec, env.plan).value, RunLoop(prepared, env, env.Limit()).log);
  }

  lemma FirstTwinCompletes(rec: Record, env: Env, id: string, output: Value)
    requires Twins(rec, id, Waiting, RunWaiting)
    ensures Twins(AfterSession(rec, Session(OpCompleteWaiting(id, output), env, 3)), id, Completed, RunQueued)
  {
    assert IndexOf(rec.steps, id) == 0;
    ThreeWrites(rec, CompleteWaitingWrites(rec, id, output));
  }

  lemma StartComesFirst(rec: Record, next: nat, env: Env)
    requires FirstReady(rec.steps, 0) == next < |rec.steps|
    ensures var log := RunLoop(rec, env, env.Limit()).log;
            |log| > 0 && log[0] == UpdateStep(rec.steps[next].id, StartPatch(rec.steps[next]))
  {
    var execution := ExecuteWrites(rec, next, ExecutionOf(rec, env, next));
    assert execution[0] == UpdateStep(rec.steps[next].id, StartPatch(rec.steps[next]));
  }

  lemma SecondTwinIsNext(rec: Record, id: string)
    requires Twins(rec, id, Completed, rec.run.status)
    ensures FirstReady(rec.steps, 0) == 1
  {
    assert !IsReady(rec.steps, 0) && IsReady(rec.steps, 1);
    assert FirstReady(rec.steps, 1) == 1;
  }

  /** The third write of the next run starts the second twin, and hits the first. */
  lemma SecondTwinStarts(rec: Record, env: Env, id: string)
    requires Twins(rec, id, Completed, RunQueued)
    ensures Twins(AfterSession(rec, Session(OpRun, env, 3)), id, Running, RunRunning)
  {
    var prepare := StartRunWrites(rec);
    PrepareQuietly(rec, env.plan);
    var started := ApplyAll(rec, prepare);
    SecondTwinIsNext(started, id);
    StartComesFirst(started, 1, env);
    var start := UpdateStep(rec.steps[1].id, StartPatch(rec.steps[1]));
    var log := RunWrites(rec, env);
    assert log == prepare + RunLoop(started, env, env.Limit()).log;
    FirstThree(rec, prepare, log, start);
    assert IndexOf(started.steps, id) == 0;
  }

  lemma FirstThree(rec: Record, prepare: seq<Write>, log: seq<Write>, start: Write)
    requires |prepare| == 2 && |log| >= 3 && prepare <= log && log[2] == start
    ensures ApplyAll(rec, if 3 < |log| then log[..3] else log) == Apply(ApplyAll(rec, prepare), start)
  {
    assert log[..3] == prepare + [start];
    assert |log| == 3 ==> log[..3] == log;
    ApplyConcat(rec, prepare, [start]);
    GuardedOneWrite(ApplyAll(rec, prepare), start);
  }

  lemma HistoryGoesOn(rec: Record, first: Session, rest: seq<Session>)
    ensures ApplyAll(rec, History(rec, [first] + rest))
            == ApplyAll(AfterSession(rec, first), History(AfterSession(rec, first), rest))
  {
    assert ([first] + rest)[1..] == rest;
    ApplyConcat(rec, SessionWrites(rec, first), History(AfterSession(rec, first), rest));
  }

  lemma OneSession(rec: Record, s: Session)
    ensures ApplyAll(rec, History(rec, [s])) == AfterSession(rec, s)
  {
    HistoryGoesOn(rec, s, []);
    assert [s] + [] == [s];
  }

  /** Such a state is reached by ordinary calls on any twin plan: run while the executor makes the first
      twin wait, complete it from outside, and run again up to the third write. */
  lemma TwinPlanLosesCompletion(rec: Record, env: Env, id: string, output: Value)
    returns (before: seq<Session>, again: Session)
    requires FreshRun(rec) && IsTwinPlan(env.plan, id) && AlwaysWaits(env)
    ensures before == [Session(OpRun, env, |RunWrites(rec, env)|), Session(OpCompleteWaiting(id, output), env, 3)]
    ensures again == Session(OpRun, env, 3)
    ensures Twins(ApplyAll(rec, History(rec, before)), id, Completed, RunQueued)
    ensures Twins(ApplyAll(rec, History(rec, before + [again])), id, Running, RunRunning)
  {
    var run, complete := Session(OpRun, env, |RunWrites(rec, env)|), Session(OpCompleteWaiting(id, output), env, 3);
    before, again := [run, complete], Session(OpRun, env, 3);
    var waiting := AfterSession(rec, run);
    FirstTwinWaits(rec, env, id);
    var completed := AfterSession(waiting, complete);
    FirstTwinCompletes(waiting, env, id, output);
    SecondTwinStarts(completed, env, id);
    HistoryGoesOn(rec, run, [complete]);
    OneSession(waiting, complete);
    HistoryGoesOn(rec, run, [complete] + [again]);
    HistoryGoesOn(waiting, complete, [again]);
    OneSession(completed, again);
    assert [run] + [complete] == before && [run] + ([complete] + [again]) == before + [again];
  }
}
