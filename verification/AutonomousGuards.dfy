/** Every write of every manager operation is legal in the record it is made to. */
module AutonomousGuards {
  import opened Wrappers
  import opened Values
  import opened Autonomous
  import opened AutonomousOperations
  import opened AutonomousProtocol
  import opened PlanGraph

  lemma PatchById(rec: Record, i: nat, p: StepPatch)
    requires UniqueIds(rec.steps) && i < |rec.steps|
    ensures Apply(rec, UpdateStep(rec.steps[i].id, p)) == rec.(steps := rec.steps[i := PatchStep(rec.steps[i], p)])
    ensures UniqueIds(rec.steps[i := PatchStep(rec.steps[i], p)])
  {
    OwnIndex(rec.steps, i);
  }

  // ---------------------------------------------------------------- executing a step

  lemma StartGuarded(driver: bool, rec: Record, i: nat)
    requires UniqueIds(rec.steps) && i < |rec.steps| && IsReady(rec.steps, i)
    requires driver ==> NoneRunningOrFailed(rec.steps) && !rec.run.status.RunCompleted?
    ensures GuardedAll(driver, rec, StartWrites(rec, rec.steps[i]))
    ensures ApplyAll(rec, StartWrites(rec, rec.steps[i])).run == rec.run
    ensures ApplyAll(rec, StartWrites(rec, rec.steps[i])).steps == rec.steps[i := Started(rec.steps[i])]
  {
    var w := StartWrites(rec, rec.steps[i]);
    PatchById(rec, i, StartPatch(rec.steps[i]));
    OwnIndex(rec.steps, i);
    QuietLog(driver, Apply(rec, w[0]), w[1..]);
  }

  /** What an execution leaves behind. */
  ghost predicate ExecuteEffect(rec: Record, i: nat, finish: Finish, after: Record)
    requires i < |rec.steps|
  {
    var steps := rec.steps[i := Finished(rec.steps[i], finish)];
    match finish
    case Returned(status, _, _, nextSteps, _) =>
      if status.Waiting? then
        after.steps == steps && after.run == rec.run.(status := RunWaiting)
      else
        after.steps == steps + NormalizeSteps(rec.run.id, |rec.steps|, nextSteps) && after.run == rec.run
    case Threw(message) =>
      after.steps == steps && after.run == rec.run.(status := RunFailed, error := message)
  }

  lemma AfterFinishGuarded(driver: bool, rec: Record, mid: Record, step: Step, finish: Finish)
    requires driver ==> !mid.run.status.RunCompleted?
    requires mid.run == rec.run
    ensures GuardedAll(driver, mid, AfterFinishWrites(rec, step, finish))
    ensures var after := ApplyAll(mid, AfterFinishWrites(rec, step, finish));
            match finish
            case Returned(status, _, _, nextSteps, _) =>
              if status.Waiting? then after.steps == mid.steps && after.run == mid.run.(status := RunWaiting)
              else after.steps == mid.steps + NormalizeSteps(mid.run.id, |mid.steps|, nextSteps) && after.run == mid.run
            case Threw(message) =>
              after.steps == mid.steps && after.run == mid.run.(status := RunFailed, error := message)
  {
    var w := AfterFinishWrites(rec, step, finish);
    if finish.Threw? || finish.status.Waiting? {
      QuietLog(driver, Apply(mid, w[0]), w[1..]);
    } else {
      QuietLog(driver, mid, w[..2]);
      assert w == w[..2] + w[2..];
      if finish.nextSteps != [] {
        GuardedOne(driver, ApplyAll(mid, w[..2]), w[2]);
        assert w[2..] == [w[2]];
      } else {
        assert w[2..] == [];
        assert mid.steps + NormalizeSteps(mid.run.id, |mid.steps|, []) == mid.steps;
      }
      GuardedConcat(driver, mid, w[..2], w[2..]);
    }
  }

  lemma FinishGuarded(driver: bool, rec: Record, mid: Record, i: nat, finish: Finish)
    requires UniqueIds(rec.steps) && i < |rec.steps|
    requires mid.run == rec.run && mid.steps == rec.steps[i := Started(rec.steps[i])]
    requires driver ==> !rec.run.status.RunCompleted?
    ensures GuardedAll(driver, mid, FinishWrites(rec, rec.steps[i], finish))
    ensures ExecuteEffect(rec, i, finish, ApplyAll(mid, FinishWrites(rec, rec.steps[i], finish)))
  {
    var p := FinishPatch(rec.steps[i], finish);
    var w := UpdateStep(rec.steps[i].id, p);
    PatchById(mid, i, p);
    OwnIndex(mid.steps, i);
    assert Guarded(driver, mid, w);
    GuardedOne(driver, mid, w);
    AfterFinishGuarded(driver, rec, Apply(mid, w), rec.steps[i], finish);
    GuardedConcat(driver, mid, [w], AfterFinishWrites(rec, rec.steps[i], finish));
    assert mid.steps[i := PatchStep(mid.steps[i], p)] == rec.steps[i := Finished(rec.steps[i], finish)];
  }

  lemma FinishOfStarted(rec: Record, i: nat, finish: Finish)
    requires UniqueIds(rec.steps) && i < |rec.steps|
    ensures FinishWrites(rec, StartedStep(rec, rec.steps[i]), finish) == FinishWrites(rec, rec.steps[i], finish)
  {
    OwnIndex(rec.steps, i);
  }

  lemma ExecuteGuarded(driver: bool, rec: Record, i: nat, execution: Execution)
    requires UniqueIds(rec.steps) && i < |rec.steps| && IsReady(rec.steps, i)
    requires driver ==> NoneRunningOrFailed(rec.steps) && !rec.run.status.RunCompleted?
    ensures GuardedAll(driver, rec, ExecuteWrites(rec, i, execution))
    ensures ExecuteEffect(rec, i, execution.finish, ApplyAll(rec, ExecuteWrites(rec, i, execution)))
  {
    var start := StartWrites(rec, rec.steps[i]);
    var callbacks := CallbackWrites(rec, rec.steps[i], execution.checkpoints);
    var finish := FinishWrites(rec, StartedStep(rec, rec.steps[i]), execution.finish);
    FinishOfStarted(rec, i, execution.finish);
    StartGuarded(driver, rec, i);
    var started := ApplyAll(rec, start);
    QuietLog(driver, started, callbacks);
    var mid := ApplyAll(started, callbacks);
    FinishGuarded(driver, rec, mid, i, execution.finish);
    GuardedConcat(driver, started, callbacks, finish);
    GuardedConcat(driver, rec, start, callbacks + finish);
  }

  // ---------------------------------------------------------------- the loop

  lemma CompleteGuarded(driver: bool, rec: Record)
    requires NothingToDo(rec.steps)
    requires driver ==> Settled(rec.steps) && !rec.run.status.RunCompleted?
    ensures GuardedAll(driver, rec, CompleteWrites(rec))
    ensures ApplyAll(rec, CompleteWrites(rec)).steps == rec.steps
    ensures ApplyAll(rec, CompleteWrites(rec)).run
            == rec.run.(status := RunCompleted, output := OutputOfSteps(rec.steps))
  {
    var w := CompleteWrites(rec);
    QuietLog(driver, Apply(rec, w[0]), w[1..]);
  }

  /** The statuses a run can have while nobody cancels and the loop is about to pick a step. */
  ghost predicate DriverReady(rec: Record) {
    && NoneRunningOrFailed(rec.steps)
    && (forall i | 0 <= i < |rec.steps| :: !rec.steps[i].status.Cancelled? && !rec.steps[i].status.Skipped?)
    && !rec.run.status.RunCompleted? && !rec.run.status.RunCancelled?
  }

  lemma NoReplaceInExecute(rec: Record, i: nat, execution: Execution)
    requires i < |rec.steps|
    ensures NoReplace(ExecuteWrites(rec, i, execution))
  {
  }

  lemma Idle(rec: Record, env: Env, budget: nat)
    requires budget > 0 && FirstReady(rec.steps, 0) == |rec.steps|
    ensures RunLoop(rec, env, budget) == LoopTrace(IdleWrites(rec), [], false)
  {
  }

  lemma OneMoreTurn(rec: Record, env: Env, budget: nat)
    requires budget > 0 && FirstReady(rec.steps, 0) < |rec.steps|
    ensures var next := FirstReady(rec.steps, 0);
            var writes := TurnWrites(rec, env, next);
            var after := ApplyAll(rec, writes);
            RunLoop(rec, env, budget)
            == if Stops(after.run.status) then LoopTrace(writes, [next], false)
               else RunLoop(after, env, budget - 1).Behind(writes, next)
  {
  }

  /** The loop as one turn and the rest of it. */
  lemma Unrolled(rec: Record, env: Env, budget: nat, left: nat)
    requires budget == left + 1 && FirstReady(rec.steps, 0) < |rec.steps|
    ensures var next := FirstReady(rec.steps, 0);
            var writes := TurnWrites(rec, env, next);
            var after := ApplyAll(rec, writes);
            RunLoop(rec, env, budget)
            == if Stops(after.run.status) then LoopTrace(writes, [next], false)
               else RunLoop(after, env, left).Behind(writes, next)
  {
    OneMoreTurn(rec, env, left + 1);
  }

  lemma {:induction false} NoReplaceInLoop(rec: Record, env: Env, budget: nat)
    ensures NoReplace(RunLoop(rec, env, budget).log)
    decreases budget, 1
  {
    if budget > 0 && FirstReady(rec.steps, 0) < |rec.steps| {
      NoReplaceInTurn(rec, env, budget, budget - 1);
    }
  }

  lemma {:induction false} NoReplaceInTurn(rec: Record, env: Env, budget: nat, left: nat)
    requires budget == left + 1 && FirstReady(rec.steps, 0) < |rec.steps|
    ensures NoReplace(RunLoop(rec, env, budget).log)
    decreases budget, 0
  {
    var next := FirstReady(rec.steps, 0);
    NoReplaceInExecute(rec, next, ExecutionOf(rec, env, next));
    Unrolled(rec, env, budget, left);
    NoReplaceInLoop(ApplyAll(rec, TurnWrites(rec, env, next)), env, left);
  }

  lemma {:induction false} LoopGuarded(driver: bool, rec: Record, env: Env, budget: nat)
    requires driver && UniqueIds(rec.steps) ==> DriverReady(rec)
    ensures GuardedAll(driver, rec, RunLoop(rec, env, budget).log)
    decreases budget, 1
  {
    if budget > 0 {
      if !UniqueIds(rec.steps) {
        NoReplaceInLoop(rec, env, budget);
        DuplicatesStay(driver, rec, RunLoop(rec, env, budget).log);
      } else {
        if FirstReady(rec.steps, 0) == |rec.steps| {
          LoopIdleGuarded(driver, rec, env, budget);
        } else {
          LoopExecuteGuarded(driver, rec, env, budget, budget - 1);
        }
      }
    }
  }

  lemma IdleMeansSettled(steps: seq<Step>)
    requires NothingToDo(steps) && NoneRunningOrFailed(steps)
    requires forall i | 0 <= i < |steps| :: !steps[i].status.Cancelled? && !steps[i].status.Skipped?
    ensures Settled(steps)
  {
  }

  lemma ExecuteKeepsDriverReady(driver: bool, rec: Record, i: nat, finish: Finish, after: Record)
    requires i < |rec.steps| && (driver ==> DriverReady(rec))
    requires ExecuteEffect(rec, i, finish, after) && !Stops(after.run.status)
    ensures driver ==> DriverReady(after)
  {
  }

  lemma LoopIdleGuarded(driver: bool, rec: Record, env: Env, budget: nat)
    requires budget > 0 && (driver ==> DriverReady(rec))
    requires FirstReady(rec.steps, 0) == |rec.steps|
    ensures GuardedAll(driver, rec, RunLoop(rec, env, budget).log)
  {
    if AnyWaiting(rec.steps) {
      GuardedOne(driver, rec, UpdateRun(RUN_PATCH.(status := Some(RunWaiting))));
    } else {
      if driver {
        IdleMeansSettled(rec.steps);
      }
      CompleteGuarded(driver, rec);
    }
  }

  lemma {:induction false} LoopExecuteGuarded(driver: bool, rec: Record, env: Env, budget: nat, left: nat)
    requires budget == left + 1 && UniqueIds(rec.steps) && (driver ==> DriverReady(rec))
    requires FirstReady(rec.steps, 0) < |rec.steps|
    ensures GuardedAll(driver, rec, RunLoop(rec, env, budget).log)
    decreases budget, 0
  {
    var next := FirstReady(rec.steps, 0);
    var execution := ExecutionOf(rec, env, next);
    var writes := TurnWrites(rec, env, next);
    var after := ApplyAll(rec, writes);
    ExecuteGuarded(driver, rec, next, execution);
    Unrolled(rec, env, budget, left);
    if !Stops(after.run.status) {
      ExecuteKeepsDriverReady(driver, rec, next, execution.finish, after);
      LoopGuarded(driver, after, env, left);
      GuardedConcat(driver, rec, writes, RunLoop(after, env, left).log);
    }
  }

  /** One turn of the loop, and where the rest of it goes on. */
  lemma OneTurn(rec: Record, env: Env, budget: nat, left: nat)
    returns (next: nat, execution: Execution, after: Record)
    requires budget == left + 1 && FirstReady(rec.steps, 0) < |rec.steps|
    ensures next == FirstReady(rec.steps, 0) && execution == ExecutionOf(rec, env, next)
    ensures after == ApplyAll(rec, ExecuteWrites(rec, next, execution))
    ensures ApplyAll(rec, RunLoop(rec, env, budget).log)
            == if Stops(after.run.status) then after else ApplyAll(after, RunLoop(after, env, left).log)
  {
    next := FirstReady(rec.steps, 0);
    execution := ExecutionOf(rec, env, next);
    after := ApplyAll(rec, ExecuteWrites(rec, next, execution));
    Unrolled(rec, env, budget, left);
    if !Stops(after.run.status) {
      ApplyConcat(rec, ExecuteWrites(rec, next, execution), RunLoop(after, env, left).log);
    }
  }

  // ---------------------------------------------------------------- preparing a run

  function Swept(sweep: Sweep, step: Step): Step {
    if sweep.Selects(step.status) then PatchStep(step, sweep.Patch()) else step
  }

  /** The steps from position `k` on are still as the snapshot shows them, those before are swept. */
  ghost predicate SweptUpTo(sweep: Sweep, steps: seq<Step>, seen: seq<Step>, k: nat) {
    && |steps| == |seen| && k <= |seen|
    && forall j | 0 <= j < |seen| :: steps[j] == if j < k then Swept(sweep, seen[j]) else seen[j]
  }

  lemma SweepOneGuarded(driver: bool, rec: Record, sweep: Sweep, cur: Record, seen: seq<Step>, k: nat)
    requires UniqueIds(cur.steps) && k < |seen| && SweptUpTo(sweep, cur.steps, seen, k)
    requires driver ==> sweep.Requeue? && !cur.run.status.RunCompleted?
    ensures GuardedAll(driver, cur, SweepOne(rec, sweep, seen[k]))
    ensures var after := ApplyAll(cur, SweepOne(rec, sweep, seen[k]));
            UniqueIds(after.steps) && SweptUpTo(sweep, after.steps, seen, k + 1) && after.run == cur.run
  {
    var log := SweepOne(rec, sweep, seen[k]);
    if log != [] {
      PatchById(cur, k, sweep.Patch());
      OwnIndex(cur.steps, k);
      QuietLog(driver, Apply(cur, log[0]), log[1..]);
    }
  }

  lemma {:induction false} SweepGuarded(driver: bool, rec: Record, sweep: Sweep, cur: Record, seen: seq<Step>, k: nat)
    requires UniqueIds(cur.steps) && SweptUpTo(sweep, cur.steps, seen, k)
    requires driver ==> sweep.Requeue? && !cur.run.status.RunCompleted?
    ensures GuardedAll(driver, cur, SweepWrites(rec, sweep, seen, k))
    ensures var after := ApplyAll(cur, SweepWrites(rec, sweep, seen, k));
            UniqueIds(after.steps) && SweptUpTo(sweep, after.steps, seen, |seen|) && after.run == cur.run
    decreases |seen| - k
  {
    if k < |seen| {
      var log := SweepOne(rec, sweep, seen[k]);
      SweepOneGuarded(driver, rec, sweep, cur, seen, k);
      SweepGuarded(driver, rec, sweep, ApplyAll(cur, log), seen, k + 1);
      GuardedConcat(driver, cur, log, SweepWrites(rec, sweep, seen, k + 1));
    }
  }

  lemma {:induction false} NoReplaceInSweep(rec: Record, sweep: Sweep, steps: seq<Step>, k: nat)
    requires k <= |steps|
    ensures NoReplace(SweepWrites(rec, sweep, steps, k))
    decreases |steps| - k
  {
    if k < |steps| {
      NoReplaceInSweep(rec, sweep, steps, k + 1);
    }
  }

  /** A record that the driver may run: nothing has failed, been cancelled or been completed. */
  ghost predicate DriverStart(rec: Record) {
    && (forall i | 0 <= i < |rec.steps| ::
          !rec.steps[i].status.Failed? && !rec.steps[i].status.Cancelled? && !rec.steps[i].status.Skipped?)
    && !Closed(rec)
  }

  lemma StartRunGuarded(driver: bool, rec: Record, cur: Record)
    requires driver ==> !cur.run.status.RunCompleted?
    ensures GuardedAll(driver, cur, StartRunWrites(rec))
    ensures var after := ApplyAll(cur, StartRunWrites(rec));
            after.steps == cur.steps && after.run == cur.run.(status := RunRunning)
  {
    var log := StartRunWrites(rec);
    QuietLog(driver, Apply(cur, log[0]), log[1..]);
  }

  lemma RequeueAndStart(driver: bool, rec: Record, cur: Record)
    requires driver && UniqueIds(cur.steps) ==> DriverStart(cur)
    ensures var log := SweepWrites(rec, Requeue, cur.steps, 0) + StartRunWrites(rec);
            && GuardedAll(driver, cur, log)
            && (driver && UniqueIds(ApplyAll(cur, log).steps) ==> DriverReady(ApplyAll(cur, log)))
  {
    if UniqueIds(cur.steps) {
      RequeueUnique(driver, rec, cur);
    } else {
      var log := SweepWrites(rec, Requeue, cur.steps, 0) + StartRunWrites(rec);
      NoReplaceInSweep(rec, Requeue, cur.steps, 0);
      DuplicatesStay(driver, cur, log);
      DuplicatesKept(cur, log);
    }
  }

  lemma RequeueUnique(driver: bool, rec: Record, cur: Record)
    requires UniqueIds(cur.steps) && (driver ==> DriverStart(cur))
    ensures var log := SweepWrites(rec, Requeue, cur.steps, 0) + StartRunWrites(rec);
            GuardedAll(driver, cur, log) && (driver ==> DriverReady(ApplyAll(cur, log)))
  {
    var sweep, start := SweepWrites(rec, Requeue, cur.steps, 0), StartRunWrites(rec);
    SweepGuarded(driver, rec, Requeue, cur, cur.steps, 0);
    StartRunGuarded(driver, rec, ApplyAll(cur, sweep));
    GuardedConcat(driver, cur, sweep, start);
    ApplyConcat(cur, sweep, start);
  }

  lemma PlanGuarded(driver: bool, rec: Record, plan: Plan)
    requires driver && UniqueIds(rec.steps) ==> DriverStart(rec)
    ensures GuardedAll(driver, rec, PlanWrites(rec, plan))
    ensures driver && UniqueIds(ApplyAll(rec, PlanWrites(rec, plan)).steps) ==>
              DriverStart(ApplyAll(rec, PlanWrites(rec, plan)))
  {
    var log := PlanWrites(rec, plan);
    if log != [] {
      QuietLog(driver, Apply(rec, log[0]), log[1..]);
    }
  }

  lemma RunGuarded(driver: bool, rec: Record, env: Env)
    requires driver && UniqueIds(rec.steps) ==> DriverStart(rec)
    ensures GuardedAll(driver, rec, RunWrites(rec, env))
  {
    if Closed(rec) {
      assert PrepareWrites(rec, env.plan) == Some([]);
      LoopGuarded(driver, rec, env, env.Limit());
      assert RunWrites(rec, env) == RunLoop(rec, env, env.Limit()).log;
    } else if PrepareWrites(rec, env.plan).Some? {
      var planning := PlanWrites(rec, env.plan);
      var planned := ApplyAll(rec, planning);
      var starting := SweepWrites(rec, Requeue, planned.steps, 0) + StartRunWrites(rec);
      PlanGuarded(driver, rec, env.plan);
      RequeueAndStart(driver, rec, planned);
      GuardedConcat(driver, rec, planning, starting);
      LoopGuarded(driver, ApplyAll(planned, starting), env, env.Limit());
      GuardedConcat(driver, rec, planning + starting, RunLoop(ApplyAll(planned, starting), env, env.Limit()).log);
    }
  }

  // ---------------------------------------------------------------- the other operations

  /** The record that the driver's operations keep, also when they crash: nothing is cancelled, at
      most one step is running or failed, and a completed run is settled. */
  ghost predicate DriverInv(rec: Record) {
    && (forall i | 0 <= i < |rec.steps| :: !rec.steps[i].status.Cancelled? && !rec.steps[i].status.Skipped?)
    && (forall i, j | 0 <= i < j < |rec.steps| :: !(Troubled(rec.steps[i]) && Troubled(rec.steps[j])))
    && !rec.run.status.RunCancelled?
    && (rec.run.status.RunCompleted? ==> Settled(rec.steps))
  }

  predicate Troubled(step: Step) {
    step.status.Running? || step.status.Failed?
  }

  lemma RetryGuarded(driver: bool, rec: Record, retry: bool)
    requires UniqueIds(rec.steps) && !Closed(rec)
    requires driver ==> DriverInv(rec)
    ensures GuardedAll(driver, rec, RetryWrites(rec, retry))
    ensures UniqueIds(ApplyAll(rec, RetryWrites(rec, retry)).steps)
    ensures ApplyAll(rec, RetryWrites(rec, retry)).run == rec.run
    ensures driver && retry ==> DriverStart(ApplyAll(rec, RetryWrites(rec, retry)))
  {
    var failed := FirstFailed(rec.steps, 0);
    var log := RetryWrites(rec, retry);
    if log != [] {
      PatchById(rec, failed, RETRY);
      OwnIndex(rec.steps, failed);
      QuietLog(driver, Apply(rec, log[0]), log[1..]);
    }
  }

  lemma ResumeGuarded(driver: bool, rec: Record, retry: bool, env: Env)
    requires driver ==> retry && (UniqueIds(rec.steps) ==> DriverInv(rec))
    ensures GuardedAll(driver, rec, ResumeWrites(rec, retry, env))
  {
    if !Closed(rec) {
      var first := RetryWrites(rec, retry);
      var after := ApplyAll(rec, first);
      if UniqueIds(rec.steps) {
        RetryGuarded(driver, rec, retry);
      } else {
        DuplicatesStay(driver, rec, first);
        DuplicatesKept(rec, first);
      }
      if !(after.run.status.RunWaiting? && AnyWaiting(after.steps)) {
        RunGuarded(driver, after, env);
        GuardedConcat(driver, rec, first, RunWrites(after, env));
      }
    }
  }

  lemma CompleteWaitingGuarded(driver: bool, rec: Record, stepId: string, output: Value)
    requires driver && UniqueIds(rec.steps) ==> DriverInv(rec)
    ensures GuardedAll(driver, rec, CompleteWaitingWrites(rec, stepId, output))
  {
    var log := CompleteWaitingWrites(rec, stepId, output);
    if log != [] {
      var i := IndexOf(rec.steps, stepId);
      if UniqueIds(rec.steps) {
        PatchById(rec, i, ExternalCompletion(output));
        var mid := Apply(rec, log[0]);
        QuietLog(driver, mid, log[1..2]);
        GuardedOne(driver, ApplyAll(mid, log[1..2]), log[2]);
        GuardedConcat(driver, mid, log[1..2], [log[2]]);
        assert log[1..] == log[1..2] + [log[2]];
      } else {
        DuplicatesStay(driver, rec, log);
      }
    }
  }

  lemma CancelGuarded(rec: Record, reason: string)
    ensures GuardedAll(false, rec, CancelWrites(rec, reason))
  {
    var first := UpdateRun(RUN_PATCH.(status := Some(RunCancelled), error := Some(reason)));
    var sweep := SweepWrites(rec, CancelOpen(reason), rec.steps, 0);
    var last := RunEvent(rec, "autonomous.run.cancelled", Obj(map["reason" := Str(reason)]));
    var mid := Apply(rec, first);
    NoReplaceInSweep(rec, CancelOpen(reason), rec.steps, 0);
    if UniqueIds(rec.steps) {
      GuardedOne(false, rec, first);
      SweepGuarded(false, rec, CancelOpen(reason), mid, rec.steps, 0);
      GuardedOne(false, ApplyAll(mid, sweep), last);
      GuardedConcat(false, mid, sweep, [last]);
      GuardedConcat(false, rec, [first], sweep + [last]);
    } else {
      DuplicatesStay(false, rec, CancelWrites(rec, reason));
    }
  }

  /** Whatever the operation, the planner and the executor: every write is legal. */
  lemma OperationGuarded(rec: Record, op: Op, env: Env)
    ensures GuardedAll(false, rec, OpWrites(rec, op, env))
  {
    match op
    case OpPlan => PlanGuarded(false, rec, env.plan);
    case OpRun => RunGuarded(false, rec, env);
    case OpResume(retry) => ResumeGuarded(false, rec, retry, env);
    case OpCompleteWaiting(stepId, output) => CompleteWaitingGuarded(false, rec, stepId, output);
    case OpCancel(reason) => CancelGuarded(rec, reason);
  }
}
