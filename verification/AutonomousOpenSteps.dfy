/** How many steps of a run are open between operations that were not cut by a crash. */
module AutonomousOpenSteps {
  import opened Values
  import opened Autonomous
  import opened AutonomousOperations
  import opened AutonomousProtocol
  import opened AutonomousGuards
  import opened AutonomousHistory
  import opened AutonomousLedger

  /** A step that somebody must still act on: the caller, for a waiting or failed one. */
  predicate Halted(step: Step) {
    step.status.Waiting? || step.status.Failed?
  }

  ghost predicate NoneOpen(steps: seq<Step>) {
    forall i | 0 <= i < |steps| :: !steps[i].status.Running? && !Halted(steps[i])
  }

  /** No step is running, at most one is halted, and the status of the run says which way. */
  ghost predicate OneOpenAtMost(rec: Record) {
    && (forall i | 0 <= i < |rec.steps| :: !rec.steps[i].status.Running?)
    && (forall i, j | 0 <= i < j < |rec.steps| :: !(Halted(rec.steps[i]) && Halted(rec.steps[j])))
    && (forall i | 0 <= i < |rec.steps| ::
          && (rec.steps[i].status.Waiting? ==> rec.run.status.RunWaiting?)
          && (rec.steps[i].status.Failed? ==> rec.run.status.RunFailed? || rec.run.status.RunCancelled?))
  }

  ghost predicate Orderly(rec: Record) {
    UniqueIds(rec.steps) ==> OneOpenAtMost(rec)
  }

  // ---------------------------------------------------------------- the loop

  lemma ExecuteOpens(rec: Record, i: nat, execution: Execution, after: Record)
    requires UniqueIds(rec.steps) && i < |rec.steps| && IsReady(rec.steps, i) && NoneOpen(rec.steps)
    requires after == ApplyAll(rec, ExecuteWrites(rec, i, execution))
    ensures OneOpenAtMost(after)
    ensures !Stops(after.run.status) ==> NoneOpen(after.steps)
  {
    ExecuteGuarded(false, rec, i, execution);
    EffectOpens(rec, i, execution.finish, after);
  }

  lemma EffectOpens(rec: Record, i: nat, finish: Finish, after: Record)
    requires i < |rec.steps| && NoneOpen(rec.steps) && ExecuteEffect(rec, i, finish, after)
    ensures OneOpenAtMost(after)
    ensures !Stops(after.run.status) ==> NoneOpen(after.steps)
  {
  }

  lemma {:induction false} LoopIsOrderly(rec: Record, env: Env, budget: nat, final: Record)
    requires final == ApplyAll(rec, RunLoop(rec, env, budget).log)
    requires UniqueIds(rec.steps) ==> NoneOpen(rec.steps)
    ensures Orderly(final)
    decreases budget, 1
  {
    if budget > 0 {
      if !UniqueIds(rec.steps) {
        NoReplaceInLoop(rec, env, budget);
        DuplicatesKept(rec, RunLoop(rec, env, budget).log);
      } else if FirstReady(rec.steps, 0) == |rec.steps| {
        Idle(rec, env, budget);
        CompleteGuarded(false, rec);
      } else {
        TurnIsOrderly(rec, env, budget, budget - 1, final);
      }
    }
  }

  lemma {:induction false} TurnIsOrderly(rec: Record, env: Env, budget: nat, left: nat, final: Record)
    requires UniqueIds(rec.steps) && NoneOpen(rec.steps) && final == ApplyAll(rec, RunLoop(rec, env, budget).log)
    requires budget == left + 1 && FirstReady(rec.steps, 0) < |rec.steps|
    ensures Orderly(final)
    decreases budget, 0
  {
    var next, execution, after := OneTurn(rec, env, budget, left);
    ExecuteOpens(rec, next, execution, after);
    if !Stops(after.run.status) {
      LoopIsOrderly(after, env, left, final);
    }
  }

  // ---------------------------------------------------------------- the operations

  lemma PlanIsOrderly(rec: Record, plan: Plan)
    requires UniqueIds(rec.steps) ==> NoneOpen(rec.steps)
    ensures var planned := ApplyAll(rec, PlanWrites(rec, plan));
            UniqueIds(planned.steps) ==> NoneOpen(planned.steps)
  {
    var log := PlanWrites(rec, plan);
    if log != [] {
      QuietLog(false, Apply(rec, log[0]), log[1..]);
    }
  }

  lemma RequeueIsOrderly(rec: Record, planned: Record)
    requires UniqueIds(planned.steps) ==> NoneOpen(planned.steps)
    ensures var swept := ApplyAll(planned, SweepWrites(rec, Requeue, planned.steps, 0));
            UniqueIds(swept.steps) ==> NoneOpen(swept.steps)
  {
    if UniqueIds(planned.steps) {
      NothingToRequeue(rec, planned.steps, 0);
    } else {
      NoReplaceInSweep(rec, Requeue, planned.steps, 0);
      DuplicatesKept(planned, SweepWrites(rec, Requeue, planned.steps, 0));
    }
  }

  lemma PrepareIsOrderly(rec: Record, plan: Plan)
    requires UniqueIds(rec.steps) ==> NoneOpen(rec.steps)
    requires PrepareWrites(rec, plan).Some?
    ensures var ready := ApplyAll(rec, PrepareWrites(rec, plan).value);
            UniqueIds(ready.steps) ==> NoneOpen(ready.steps)
  {
    if !Closed(rec) {
      var planning := PlanWrites(rec, plan);
      var planned := ApplyAll(rec, planning);
      var sweep := SweepWrites(rec, Requeue, planned.steps, 0);
      PlanIsOrderly(rec, plan);
      RequeueIsOrderly(rec, planned);
      StartRunGuarded(false, rec, ApplyAll(planned, sweep));
      ApplyConcat(planned, sweep, StartRunWrites(rec));
      ApplyConcat(rec, planning, sweep + StartRunWrites(rec));
    }
  }

  lemma RunIsOrderly(rec: Record, env: Env)
    requires UniqueIds(rec.steps) ==> NoneOpen(rec.steps)
    ensures Orderly(ApplyAll(rec, RunWrites(rec, env)))
  {
    var prepare := PrepareWrites(rec, env.plan);
    if prepare.Some? {
      var ready := ApplyAll(rec, prepare.value);
      PrepareIsOrderly(rec, env.plan);
      ApplyConcat(rec, prepare.value, RunLoop(ready, env, env.Limit()).log);
      LoopIsOrderly(ready, env, env.Limit(), ApplyAll(rec, RunWrites(rec, env)));
    }
  }

  /** Retrying closes the one step that is open, unless it waits. */
  lemma RetryIsOrderly(rec: Record)
    requires Orderly(rec) && !Closed(rec)
    ensures var after := ApplyAll(rec, RetryWrites(rec, true));
            && (UniqueIds(after.steps) ==> UniqueIds(rec.steps))
            && Orderly(after) && (UniqueIds(after.steps) && !AnyWaiting(after.steps) ==> NoneOpen(after.steps))
            && (UniqueIds(after.steps) && AnyWaiting(after.steps) ==> after.run.status.RunWaiting?)
  {
    if UniqueIds(rec.steps) {
      RetryGuarded(false, rec, true);
      var failed := FirstFailed(rec.steps, 0);
      if failed < |rec.steps| {
        PatchById(rec, failed, RETRY);
        var log := RetryWrites(rec, true);
        QuietLog(false, Apply(rec, log[0]), log[1..]);
      }
    } else {
      DuplicatesKept(rec, RetryWrites(rec, true));
    }
  }

  lemma ResumeIsOrderly(rec: Record, env: Env)
    requires Orderly(rec)
    ensures Orderly(ApplyAll(rec, ResumeWrites(rec, true, env)))
  {
    if !Closed(rec) {
      var first := RetryWrites(rec, true);
      var after := ApplyAll(rec, first);
      RetryIsOrderly(rec);
      if !(after.run.status.RunWaiting? && AnyWaiting(after.steps)) {
        RunIsOrderly(after, env);
        ApplyConcat(rec, first, RunWrites(after, env));
      }
    }
  }

  lemma CompleteWaitingIsOrderly(rec: Record, stepId: string, output: Value)
    requires Orderly(rec)
    ensures Orderly(ApplyAll(rec, CompleteWaitingWrites(rec, stepId, output)))
  {
    var log := CompleteWaitingWrites(rec, stepId, output);
    if log != [] {
      if UniqueIds(rec.steps) {
        PatchById(rec, IndexOf(rec.steps, stepId), ExternalCompletion(output));
        ThreeWrites(rec, log);
      } else {
        DuplicatesKept(rec, log);
      }
    }
  }

  lemma CancelIsOrderly(rec: Record, reason: string)
    requires Orderly(rec)
    ensures Orderly(ApplyAll(rec, CancelWrites(rec, reason)))
  {
    var log := CancelWrites(rec, reason);
    var mid := Apply(rec, log[0]);
    var sweep := SweepWrites(rec, CancelOpen(reason), rec.steps, 0);
    NoReplaceInSweep(rec, CancelOpen(reason), rec.steps, 0);
    var swept := ApplyAll(mid, sweep);
    GuardedOneWrite(swept, log[|log| - 1]);
    ApplyConcat(mid, sweep, [log[|log| - 1]]);
    assert log[1..] == sweep + [log[|log| - 1]];
    if UniqueIds(rec.steps) {
      SweepGuarded(false, rec, CancelOpen(reason), mid, rec.steps, 0);
    } else {
      DuplicatesKept(mid, sweep);
    }
  }

  // ---------------------------------------------------------------- whole histories

  /** Calls that run to their end: a run while no step is open, or afterwards only resumes with retry,
      completions of waiting steps and cancellations; a plan at any time. */
  ghost predicate OrderlySession(rec: Record, s: Session) {
    && s.cut >= |OpWrites(rec, s.op, s.env)|
    && match s.op
       case OpPlan => true
       case OpRun => UniqueIds(rec.steps) ==> NoneOpen(rec.steps)
       case OpResume(retry) => retry
       case OpCompleteWaiting(_, _) => true
       case OpCancel(_) => true
  }

  ghost predicate OrderlySessions(rec: Record, sessions: seq<Session>)
    decreases |sessions|
  {
    sessions != [] ==>
      OrderlySession(rec, sessions[0]) && OrderlySessions(ApplyAll(rec, SessionWrites(rec, sessions[0])), sessions[1..])
  }

  lemma SessionIsOrderly(rec: Record, s: Session)
    requires Orderly(rec) && OrderlySession(rec, s)
    ensures Orderly(ApplyAll(rec, SessionWrites(rec, s)))
  {
    match s.op
    case OpRun => RunIsOrderly(rec, s.env);
    case OpResume(_) => ResumeIsOrderly(rec, s.env);
    case OpCompleteWaiting(stepId, output) => CompleteWaitingIsOrderly(rec, stepId, output);
    case OpCancel(reason) => CancelIsOrderly(rec, reason);
    case OpPlan =>
      if rec.steps == [] {
        PlanIsOrderly(rec, s.env.plan);
      }
  }

  /** After every history of such calls, however the executor answered, no step is running, at most one
      is waiting or failed, and the run's status shows it. */
  lemma {:induction false} OrderlyForever(rec: Record, sessions: seq<Session>)
    requires Orderly(rec) && OrderlySessions(rec, sessions)
    requires UniqueIds(ApplyAll(rec, History(rec, sessions)).steps)
    ensures OneOpenAtMost(ApplyAll(rec, History(rec, sessions)))
    decreases |sessions|
  {
    if sessions != [] {
      var log := SessionWrites(rec, sessions[0]);
      var next := ApplyAll(rec, log);
      ApplyConcat(rec, log, History(next, sessions[1..]));
      SessionIsOrderly(rec, sessions[0]);
      OrderlyForever(next, sessions[1..]);
    }
  }
}
