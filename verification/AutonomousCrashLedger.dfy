/** What the event log still says about the steps when operations are cut short: starts are never more than
    attempts, and a completion is reported at most once, and only of a completed step. */
module AutonomousCrashLedger {
  import opened Values
  import opened Autonomous
  import opened AutonomousOperations
  import opened AutonomousProtocol
  import opened AutonomousGuards
  import opened AutonomousHistory
  import opened AutonomousLedger

  ghost predicate Bounded(rec: Record, id: string) {
    && |StartsOf(rec.events, id)| <= AttemptsOf(rec.steps, id)
    && CompletionsOf(rec.events, id) <= (if IdCompleted(rec.steps, id) then 1 else 0)
  }

  ghost predicate Loose(rec: Record) {
    UniqueIds(rec.steps) ==> forall id: string :: Bounded(rec, id)
  }

  /** A start is reported after it was counted, and a completion after it happened, once. */
  ghost predicate Timely(rec: Record, w: Write) {
    w.AppendEvent? ==>
      && (w.event.kind == STEP_STARTED ==>
            |StartsOf(rec.events, w.event.stepId)| < AttemptsOf(rec.steps, w.event.stepId))
      && (w.event.kind == STEP_COMPLETED ==>
            IdCompleted(rec.steps, w.event.stepId) && CompletionsOf(rec.events, w.event.stepId) == 0)
  }

  ghost predicate TimelyAll(rec: Record, log: seq<Write>)
    decreases |log|
  {
    log != [] ==> (UniqueIds(rec.steps) ==> Timely(rec, log[0])) && TimelyAll(Apply(rec, log[0]), log[1..])
  }

  // ---------------------------------------------------------------- logs

  lemma {:induction false} TimelyConcat(rec: Record, a: seq<Write>, b: seq<Write>)
    requires TimelyAll(rec, a) && TimelyAll(ApplyAll(rec, a), b)
    ensures TimelyAll(rec, a + b)
    decreases |a|
  {
    if a == [] {
      assert a + b == b;
    } else {
      TimelyConcat(Apply(rec, a[0]), a[1..], b);
      assert (a + b)[1..] == a[1..] + b;
    }
  }

  lemma {:induction false} TimelyPrefix(rec: Record, log: seq<Write>, cut: nat)
    requires TimelyAll(rec, log) && cut <= |log|
    ensures TimelyAll(rec, log[..cut])
    decreases |log|
  {
    if cut > 0 {
      TimelyPrefix(Apply(rec, log[0]), log[1..], cut - 1);
      assert log[..cut][1..] == log[1..][..cut - 1];
    }
  }

  lemma {:induction false} PlainIsTimely(rec: Record, log: seq<Write>)
    requires PlainLog(log)
    ensures TimelyAll(rec, log)
    decreases |log|
  {
    if log != [] {
      PlainIsTimely(Apply(rec, log[0]), log[1..]);
    }
  }

  // ---------------------------------------------------------------- what timely logs keep

  /** Steps are started no less often and completed no less than before. */
  ghost predicate NoLess(s: seq<Step>, t: seq<Step>) {
    && |s| <= |t|
    && (forall i | 0 <= i < |s| ::
          t[i].id == s[i].id && t[i].attempts >= s[i].attempts && (s[i].status.Completed? ==> t[i].status.Completed?))
    && forall i | |s| <= i < |t| :: t[i].attempts >= 0
  }

  lemma NoLessById(s: seq<Step>, t: seq<Step>, id: string)
    requires NoLess(s, t)
    ensures AttemptsOf(s, id) <= AttemptsOf(t, id) && (IdCompleted(s, id) ==> IdCompleted(t, id))
  {
    var i, j := IndexOf(s, id), IndexOf(t, id);
    if j < |s| {
      assert s[j].id == t[j].id;
    }
    if i < |s| {
      assert t[i].id == s[i].id;
    }
  }

  lemma GuardedNoLess(rec: Record, w: Write)
    requires Guarded(false, rec, w) && UniqueIds(rec.steps)
    ensures NoLess(rec.steps, Apply(rec, w).steps)
  {
    LegalEvolves(false, rec, w);
  }

  lemma EventKeepsLoose(rec: Record, e: Event)
    requires Loose(rec) && UniqueIds(rec.steps) && Timely(rec, AppendEvent(e))
    ensures Loose(Apply(rec, AppendEvent(e)))
  {
    var after := Apply(rec, AppendEvent(e));
    forall id: string ensures Bounded(after, id) {
      assert Bounded(rec, id);
      LedgerConcat(rec.events, [e], id);
      OneEvent(e, id);
    }
  }

  lemma OneEvent(e: Event, id: string)
    ensures |StartsOf([e], id)| == (if e.kind == STEP_STARTED && e.stepId == id then 1 else 0)
    ensures CompletionsOf([e], id) == (if e.kind == STEP_COMPLETED && e.stepId == id then 1 else 0)
  {
    assert StartsOf([e][1..], id) == [] && CompletionsOf([e][1..], id) == 0;
  }

  lemma OtherKeepsLoose(rec: Record, w: Write)
    requires Loose(rec) && UniqueIds(rec.steps) && Guarded(false, rec, w) && !w.AppendEvent?
    ensures Loose(Apply(rec, w))
  {
    var after := Apply(rec, w);
    GuardedNoLess(rec, w);
    forall id: string ensures Bounded(after, id) {
      assert Bounded(rec, id);
      NoLessById(rec.steps, after.steps, id);
    }
  }

  lemma {:induction false} LooseAlong(rec: Record, log: seq<Write>)
    requires Loose(rec) && GuardedAll(false, rec, log) && TimelyAll(rec, log)
    ensures Loose(ApplyAll(rec, log))
    decreases |log|
  {
    if log != [] {
      var next := Apply(rec, log[0]);
      if UniqueIds(next.steps) {
        GuardedKeepsIds(false, rec, log[0]);
        if log[0].AppendEvent? {
          EventKeepsLoose(rec, log[0].event);
        } else {
          OtherKeepsLoose(rec, log[0]);
        }
      }
      LooseAlong(next, log[1..]);
    }
  }

  // ---------------------------------------------------------------- an execution

  /** The start of a step and the event after it. */
  lemma StartIsTimely(rec: Record, i: nat)
    requires UniqueIds(rec.steps) && i < |rec.steps| && Loose(rec)
    ensures TimelyAll(rec, StartWrites(rec, rec.steps[i]))
  {
    var step := rec.steps[i];
    var log := StartWrites(rec, step);
    var begun := Apply(rec, log[0]);
    assert Bounded(rec, step.id);
    PatchById(rec, i, StartPatch(step));
    CountsOfReplaced(rec.steps, i, Started(step), step.id);
    assert Timely(begun, log[1]) by {
      assert STEP_STARTED[16] == 's' && STEP_COMPLETED[16] == 'c';
    }
    TimelyOne(Apply(begun, log[1]), log[2]);
    assert log[1..][1..] == [log[2]];
    assert TimelyAll(begun, log[1..]);
  }

  lemma TimelyOne(rec: Record, w: Write)
    requires Timely(rec, w)
    ensures TimelyAll(rec, [w])
  {
    assert TimelyAll(Apply(rec, w), [w][1..]);
  }

  lemma CompletedIsTimely(rec: Record, log: seq<Write>)
    requires 3 <= |log| <= 4 && !log[0].AppendEvent? && !log[1].AppendEvent? && log[2].AppendEvent?
    requires |log| == 4 ==> !log[3].AppendEvent?
    requires Timely(Apply(Apply(rec, log[0]), log[1]), log[2])
    ensures TimelyAll(rec, log)
  {
    var r1 := Apply(rec, log[0]);
    var r2 := Apply(r1, log[1]);
    assert TimelyAll(Apply(r2, log[2]), log[3..]) by {
      PlainIsTimely(Apply(r2, log[2]), log[3..]);
    }
    assert log[2..][1..] == log[3..] && log[1..][1..] == log[2..];
    assert TimelyAll(r2, log[2..]);
    assert TimelyAll(r1, log[1..]);
  }

  /** The outcome of a step that had not been reported completed before. */
  lemma FinishIsTimely(rec: Record, running: Step, finish: Finish)
    requires IndexOf(rec.steps, running.id) < |rec.steps| && CompletionsOf(rec.events, running.id) == 0
    ensures TimelyAll(rec, FinishWrites(rec, running, finish))
  {
    if finish.Threw? || finish.status.Waiting? {
      HaltIsPlain(rec, running, finish);
      PlainIsTimely(rec, FinishWrites(rec, running, finish));
    } else {
      CompletionIsTimely(rec, running, finish);
    }
  }

  lemma HaltIsPlain(rec: Record, running: Step, finish: Finish)
    requires finish.Threw? || finish.status.Waiting?
    ensures PlainLog(FinishWrites(rec, running, finish))
  {
    PlainKind(FinishWrites(rec, running, finish)[2].event.kind);
  }

  lemma CompletionIsTimely(rec: Record, running: Step, finish: Finish)
    requires finish.Returned? && !finish.status.Waiting?
    requires IndexOf(rec.steps, running.id) < |rec.steps| && CompletionsOf(rec.events, running.id) == 0
    ensures TimelyAll(rec, FinishWrites(rec, running, finish))
  {
    var log := FinishWrites(rec, running, finish);
    CompletionShape(rec, running, finish, log);
    CompletedOutcome(rec, running, finish);
    var noted := Apply(Apply(rec, log[0]), log[1]);
    CompletionOnTime(noted, log[2].event);
    CompletedIsTimely(rec, log);
  }

  lemma CompletionShape(rec: Record, running: Step, finish: Finish, log: seq<Write>)
    requires finish.Returned? && !finish.status.Waiting? && log == FinishWrites(rec, running, finish)
    ensures 3 <= |log| <= 4 && log[0] == UpdateStep(running.id, FinishPatch(running, finish))
    ensures log[1].AppendCheckpoint? && (|log| == 4 ==> log[3].AppendSteps?)
    ensures log[2].AppendEvent? && log[2].event.kind == STEP_COMPLETED && log[2].event.stepId == running.id
  {
  }

  lemma CompletionOnTime(rec: Record, e: Event)
    requires e.kind == STEP_COMPLETED && IdCompleted(rec.steps, e.stepId) && CompletionsOf(rec.events, e.stepId) == 0
    ensures Timely(rec, AppendEvent(e))
  {
    assert STEP_STARTED[16] == 's' && STEP_COMPLETED[16] == 'c';
  }

  lemma CompletedOutcome(rec: Record, running: Step, finish: Finish)
    requires finish.Returned? && !finish.status.Waiting? && IndexOf(rec.steps, running.id) < |rec.steps|
    ensures IdCompleted(Apply(rec, UpdateStep(running.id, FinishPatch(running, finish))).steps, running.id)
  {
    var i := IndexOf(rec.steps, running.id);
    var after := Apply(rec, UpdateStep(running.id, FinishPatch(running, finish))).steps;
    assert forall k | 0 <= k < |after| :: after[k].id == rec.steps[k].id;
    assert IndexOf(after, running.id) == i;
  }

  lemma ExecuteIsTimely(rec: Record, i: nat, execution: Execution)
    requires UniqueIds(rec.steps) && i < |rec.steps| && IsReady(rec.steps, i) && Loose(rec)
    ensures TimelyAll(rec, ExecuteWrites(rec, i, execution))
  {
    var step, running := rec.steps[i], StartedStep(rec, rec.steps[i]);
    var start, callbacks := StartWrites(rec, step), CallbackWrites(rec, step, execution.checkpoints);
    var finish := FinishWrites(rec, running, execution.finish);
    StartGuarded(false, rec, i);
    StartIsTimely(rec, i);
    var started := ApplyAll(rec, start);
    PlainIsTimely(started, callbacks);
    QuietLog(false, started, callbacks);
    var mid := ApplyAll(started, callbacks);
    EventsBeforeFinish(rec, step, execution.checkpoints);
    NoCompletionYet(rec, i, mid);
    FinishIsTimely(mid, running, execution.finish);
    FinishSameRun(rec, mid, running, execution.finish);
    TimelyConcat(started, callbacks, finish);
    TimelyConcat(rec, start, callbacks + finish);
  }

  lemma FinishSameRun(a: Record, b: Record, running: Step, finish: Finish)
    requires a.run == b.run
    ensures FinishWrites(a, running, finish) == FinishWrites(b, running, finish)
  {
  }

  lemma EventsBeforeFinish(rec: Record, step: Step, checkpoints: seq<(string, Value)>)
    ensures ApplyAll(ApplyAll(rec, StartWrites(rec, step)), CallbackWrites(rec, step, checkpoints)).events
            == rec.events + [StartEvent(rec, step)]
  {
    var start, callbacks := StartWrites(rec, step), CallbackWrites(rec, step, checkpoints);
    EventsOfStart(rec, step);
    NoEventsInNotes(callbacks);
    OneThenNone(rec, start, callbacks, StartEvent(rec, step));
  }

  lemma OneThenNone(rec: Record, a: seq<Write>, b: seq<Write>, e: Event)
    requires EventsOf(a) == [e] && EventsOf(b) == []
    ensures ApplyAll(ApplyAll(rec, a), b).events == rec.events + [e]
  {
    EventsAppended(rec, a);
    EventsAppended(ApplyAll(rec, a), b);
  }

  lemma NoCompletionYet(rec: Record, i: nat, mid: Record)
    requires UniqueIds(rec.steps) && i < |rec.steps| && IsReady(rec.steps, i) && Loose(rec)
    requires mid.steps == rec.steps[i := Started(rec.steps[i])]
    requires mid.events == rec.events + [StartEvent(rec, rec.steps[i])]
    ensures IndexOf(mid.steps, rec.steps[i].id) < |mid.steps| && CompletionsOf(mid.events, rec.steps[i].id) == 0
  {
    var id := rec.steps[i].id;
    CompletionsConcat(rec.events, [StartEvent(rec, rec.steps[i])], id);
    OneEvent(StartEvent(rec, rec.steps[i]), id);
    assert STEP_STARTED[16] == 's' && STEP_COMPLETED[16] == 'c';
    assert Bounded(rec, id);
    OwnIndex(rec.steps, i);
    assert mid.steps[i].id == id;
  }

  lemma ExecuteKeepsLoose(rec: Record, i: nat, execution: Execution, after: Record)
    requires UniqueIds(rec.steps) && i < |rec.steps| && IsReady(rec.steps, i) && Loose(rec)
    requires after == ApplyAll(rec, ExecuteWrites(rec, i, execution))
    ensures TimelyAll(rec, ExecuteWrites(rec, i, execution)) && Loose(after)
  {
    ExecuteIsTimely(rec, i, execution);
    ExecuteGuarded(false, rec, i, execution);
    LooseAlong(rec, ExecuteWrites(rec, i, execution));
  }

  // ---------------------------------------------------------------- operations

  lemma {:induction false} LoopIsTimely(rec: Record, env: Env, budget: nat)
    requires Loose(rec)
    ensures TimelyAll(rec, RunLoop(rec, env, budget).log)
    decreases budget, 1
  {
    if budget > 0 {
      if !UniqueIds(rec.steps) {
        NoReplaceInLoop(rec, env, budget);
        DuplicatesAreTimely(rec, RunLoop(rec, env, budget).log);
      } else if FirstReady(rec.steps, 0) == |rec.steps| {
        IdleIsTimely(rec, env, budget);
      } else {
        TurnIsTimely(rec, env, budget, budget - 1);
      }
    }
  }

  lemma {:induction false} TurnIsTimely(rec: Record, env: Env, budget: nat, left: nat)
    requires Loose(rec) && UniqueIds(rec.steps)
    requires budget == left + 1 && FirstReady(rec.steps, 0) < |rec.steps|
    ensures TimelyAll(rec, RunLoop(rec, env, budget).log)
    decreases budget, 0
  {
    var next := FirstReady(rec.steps, 0);
    var execution := ExecutionOf(rec, env, next);
    var writes := TurnWrites(rec, env, next);
    var after := ApplyAll(rec, writes);
    ExecuteKeepsLoose(rec, next, execution, after);
    Unrolled(rec, env, budget, left);
    if !Stops(after.run.status) {
      LoopIsTimely(after, env, left);
      TimelyConcat(rec, writes, RunLoop(after, env, left).log);
    }
  }

  lemma {:induction false} DuplicatesAreTimely(rec: Record, log: seq<Write>)
    requires !UniqueIds(rec.steps) && NoReplace(log)
    ensures TimelyAll(rec, log)
    decreases |log|
  {
    if log != [] {
      GuardedOneWrite(rec, log[0]);
      DuplicatesKept(rec, [log[0]]);
      DuplicatesAreTimely(Apply(rec, log[0]), log[1..]);
    }
  }

  lemma IdleIsTimely(rec: Record, env: Env, budget: nat)
    requires budget > 0 && FirstReady(rec.steps, 0) == |rec.steps|
    ensures TimelyAll(rec, RunLoop(rec, env, budget).log)
  {
    var log := RunLoop(rec, env, budget).log;
    if !AnyWaiting(rec.steps) {
      assert log == CompleteWrites(rec);
      PlainKind(log[2].event.kind);
    }
    PlainIsTimely(rec, log);
  }

  lemma PrepareIsPlain(rec: Record, plan: Plan)
    requires PrepareWrites(rec, plan).Some?
    ensures PlainLog(PrepareWrites(rec, plan).value)
  {
    if !Closed(rec) {
      var planning, start := PlanWrites(rec, plan), StartRunWrites(rec);
      PlanIsPlain(rec, plan);
      PlainKind(start[1].event.kind);
      SweepIsPlain(rec, Requeue, ApplyAll(rec, planning).steps, 0);
    }
  }

  lemma PlanIsPlain(rec: Record, plan: Plan)
    ensures PlainLog(PlanWrites(rec, plan))
  {
    var log := PlanWrites(rec, plan);
    if log != [] {
      PlainKind(log[2].event.kind);
    }
  }

  lemma RunIsTimely(rec: Record, env: Env)
    requires Loose(rec)
    ensures TimelyAll(rec, RunWrites(rec, env))
  {
    var prepare := PrepareWrites(rec, env.plan);
    if prepare.Some? {
      PrepareIsPlain(rec, env.plan);
      PlainIsTimely(rec, prepare.value);
      PrepareGuarded(rec, env);
      LooseAlong(rec, prepare.value);
      LoopIsTimely(ApplyAll(rec, prepare.value), env, env.Limit());
      TimelyConcat(rec, prepare.value, RunLoop(ApplyAll(rec, prepare.value), env, env.Limit()).log);
    }
  }

  lemma PrepareGuarded(rec: Record, env: Env)
    requires PrepareWrites(rec, env.plan).Some?
    ensures GuardedAll(false, rec, PrepareWrites(rec, env.plan).value)
  {
    var prepare := PrepareWrites(rec, env.plan).value;
    RunGuarded(false, rec, env);
    GuardedPrefix(false, rec, RunWrites(rec, env), |prepare|);
    assert RunWrites(rec, env)[..|prepare|] == prepare;
  }

  lemma ResumeIsTimely(rec: Record, retry: bool, env: Env)
    requires Loose(rec)
    ensures TimelyAll(rec, ResumeWrites(rec, retry, env))
  {
    if !Closed(rec) {
      var first := RetryWrites(rec, retry);
      var after := ApplyAll(rec, first);
      PlainKind(STEP_RETRY);
      PlainIsTimely(rec, first);
      RetryKeepsLoose(rec, retry);
      RunIsTimely(after, env);
      TimelyConcat(rec, first, RunWrites(after, env));
    }
  }

  lemma RetryKeepsLoose(rec: Record, retry: bool)
    requires Loose(rec) && !Closed(rec) && TimelyAll(rec, RetryWrites(rec, retry))
    ensures Loose(ApplyAll(rec, RetryWrites(rec, retry)))
  {
    if UniqueIds(rec.steps) {
      RetryGuarded(false, rec, retry);
      LooseAlong(rec, RetryWrites(rec, retry));
    } else {
      DuplicatesKept(rec, RetryWrites(rec, retry));
    }
  }

  lemma CompleteWaitingIsTimely(rec: Record, stepId: string, output: Value)
    requires Loose(rec)
    ensures TimelyAll(rec, CompleteWaitingWrites(rec, stepId, output))
  {
    var log := CompleteWaitingWrites(rec, stepId, output);
    if log != [] {
      if UniqueIds(rec.steps) {
        var r1 := Apply(rec, log[0]);
        assert Bounded(rec, stepId);
        CountsOfReplaced(rec.steps, IndexOf(rec.steps, stepId), r1.steps[IndexOf(rec.steps, stepId)], stepId);
        assert STEP_STARTED[16] == 's' && STEP_COMPLETED[16] == 'c';
        assert Timely(r1, log[1]);
        TimelyOne(Apply(r1, log[1]), log[2]);
        assert log[1..][1..] == [log[2]];
        assert TimelyAll(r1, log[1..]);
      } else {
        DuplicatesAreTimely(rec, log);
      }
    }
  }

  lemma OperationIsTimely(rec: Record, op: Op, env: Env)
    requires Loose(rec)
    ensures TimelyAll(rec, OpWrites(rec, op, env))
  {
    match op
    case OpPlan =>
      PlanIsPlain(rec, env.plan);
      PlainIsTimely(rec, OpWrites(rec, op, env));
    case OpRun => RunIsTimely(rec, env);
    case OpResume(retry) => ResumeIsTimely(rec, retry, env);
    case OpCompleteWaiting(stepId, output) => CompleteWaitingIsTimely(rec, stepId, output);
    case OpCancel(reason) =>
      SweepIsPlain(rec, CancelOpen(reason), rec.steps, 0);
      var log := CancelWrites(rec, reason);
      PlainKind(log[|log| - 1].event.kind);
      PlainIsTimely(rec, log);
  }

  // ---------------------------------------------------------------- whole histories

  lemma {:induction false} HistoryIsTimely(rec: Record, sessions: seq<Session>)
    requires Loose(rec)
    ensures TimelyAll(rec, History(rec, sessions))
    decreases |sessions|
  {
    if sessions != [] {
      var s := sessions[0];
      var log := SessionWrites(rec, s);
      OperationIsTimely(rec, s.op, s.env);
      OperationGuarded(rec, s.op, s.env);
      if s.cut < |OpWrites(rec, s.op, s.env)| {
        TimelyPrefix(rec, OpWrites(rec, s.op, s.env), s.cut);
        GuardedPrefix(false, rec, OpWrites(rec, s.op, s.env), s.cut);
      }
      LooseAlong(rec, log);
      HistoryIsTimely(ApplyAll(rec, log), sessions[1..]);
      TimelyConcat(rec, log, History(ApplyAll(rec, log), sessions[1..]));
    }
  }

  /** At every moment of every history, whatever crashed in it: no step has more start events than attempts,
      and none has more than one completion event, or one without being completed. */
  lemma LogNeverAhead(run: Run, sessions: seq<Session>, k: nat, state: Record, i: nat)
    requires k <= |History(Created(run), sessions)|
    requires state == StateAt(Created(run), History(Created(run), sessions), k)
    requires UniqueIds(state.steps) && i < |state.steps|
    ensures |StartsOf(state.events, state.steps[i].id)| <= state.steps[i].attempts
    ensures CompletionsOf(state.events, state.steps[i].id) <= if state.steps[i].status.Completed? then 1 else 0
  {
    var rec := Created(run);
    var log := History(rec, sessions);
    CreatedIsPlain(run);
    forall id: string ensures Bounded(rec, id) {
      PlainEventsCount(rec.events, id);
    }
    HistoryIsTimely(rec, sessions);
    HistoryGuarded(rec, sessions);
    TimelyPrefix(rec, log, k);
    GuardedPrefix(false, rec, log, k);
    LooseAlong(rec, log[..k]);
    assert Bounded(state, state.steps[i].id);
    OwnIndex(state.steps, i);
  }
}
