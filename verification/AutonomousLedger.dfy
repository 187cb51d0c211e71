/** What the event log of a run says about its steps, between operations that were not cut by a crash. */
module AutonomousLedger {
  import opened Wrappers
  import opened Values
  import opened Autonomous
  import opened AutonomousOperations
  import opened AutonomousProtocol
  import opened AutonomousGuards
  import opened AutonomousHistory
  import opened PlanGraph

  // ---------------------------------------------------------------- the log, read back

  /** The payloads of the events that report a start of this step. */
  function StartsOf(events: seq<Event>, id: string): seq<Value> {
    if events == [] then []
    else (if events[0].kind == STEP_STARTED && events[0].stepId == id then [events[0].payload] else [])
         + StartsOf(events[1..], id)
  }

  /** How often the log reports this step completed. */
  function CompletionsOf(events: seq<Event>, id: string): nat {
    if events == [] then 0
    else (if events[0].kind == STEP_COMPLETED && events[0].stepId == id then 1 else 0) + CompletionsOf(events[1..], id)
  }

  lemma {:induction false} StartsConcat(a: seq<Event>, b: seq<Event>, id: string)
    ensures StartsOf(a + b, id) == StartsOf(a, id) + StartsOf(b, id)
  {
    if a == [] {
      assert a + b == b;
    } else {
      StartsConcat(a[1..], b, id);
      assert (a + b)[1..] == a[1..] + b && (a + b)[0] == a[0];
    }
  }

  lemma {:induction false} CompletionsConcat(a: seq<Event>, b: seq<Event>, id: string)
    ensures CompletionsOf(a + b, id) == CompletionsOf(a, id) + CompletionsOf(b, id)
  {
    if a == [] {
      assert a + b == b;
    } else {
      CompletionsConcat(a[1..], b, id);
      assert (a + b)[1..] == a[1..] + b && (a + b)[0] == a[0];
    }
  }

  lemma LedgerConcat(a: seq<Event>, b: seq<Event>, id: string)
    ensures StartsOf(a + b, id) == StartsOf(a, id) + StartsOf(b, id)
    ensures CompletionsOf(a + b, id) == CompletionsOf(a, id) + CompletionsOf(b, id)
  {
    StartsConcat(a, b, id);
    CompletionsConcat(a, b, id);
  }

  function AttemptPayload(before: int): Value {
    Obj(map["attempt" := Int(before + 1)])
  }

  /** The payloads of `n` starts: the k-th one carries attempt k. */
  function Attempts(n: nat): seq<Value> {
    seq(n, k => AttemptPayload(k))
  }

  function AttemptsOf(steps: seq<Step>, id: string): int {
    var i := IndexOf(steps, id);
    if i < |steps| then steps[i].attempts else 0
  }

  /** The log agrees with the record about one id. */
  ghost predicate Agrees(rec: Record, id: string) {
    && AttemptsOf(rec.steps, id) >= 0
    && StartsOf(rec.events, id) == Attempts(AttemptsOf(rec.steps, id))
    && CompletionsOf(rec.events, id) == (if IdCompleted(rec.steps, id) then 1 else 0)
  }

  /** For every step, `attempts` counts the starts in the log, the k-th of them carries attempt k, and the
      step is completed exactly if the log has one completion of it, and otherwise none. */
  ghost predicate Ledger(rec: Record) {
    UniqueIds(rec.steps) ==> forall id: string :: Agrees(rec, id)
  }

  // ---------------------------------------------------------------- writes that do not count

  predicate Plain(e: Event) {
    e.kind != STEP_STARTED && e.kind != STEP_COMPLETED
  }

  predicate PlainLog(log: seq<Write>) {
    forall k | 0 <= k < |log| :: log[k].AppendEvent? ==> Plain(log[k].event)
  }

  /** The two kinds that count differ from all others in the twelfth or the seventeenth letter. */
  lemma PlainKind(kind: string)
    requires |kind| > 16 && (kind[11] == 'r' || (kind[16] != 's' && kind[16] != 'c'))
    ensures kind != STEP_STARTED && kind != STEP_COMPLETED
  {
    assert STEP_STARTED[11] == STEP_COMPLETED[11] == 's';
    assert STEP_STARTED[16] == 's' && STEP_COMPLETED[16] == 'c';
  }

  /** Steps may change in other ways, and new ones may join, but no step changes how often it was
      started or whether it is completed. */
  ghost predicate SameCounts(s: seq<Step>, t: seq<Step>) {
    && |s| <= |t|
    && (forall i | 0 <= i < |s| ::
          t[i].id == s[i].id && t[i].attempts == s[i].attempts && t[i].status.Completed? == s[i].status.Completed?)
    && forall i | |s| <= i < |t| :: t[i].attempts == 0 && !t[i].status.Completed?
  }

  lemma SameCountsById(s: seq<Step>, t: seq<Step>, id: string)
    requires SameCounts(s, t)
    ensures AttemptsOf(s, id) == AttemptsOf(t, id) && (IdCompleted(s, id) <==> IdCompleted(t, id))
  {
    var i, j := IndexOf(s, id), IndexOf(t, id);
    if j < |s| {
      assert s[j].id == t[j].id;
    }
    if i < |s| {
      assert t[i].id == s[i].id;
    }
  }

  lemma {:induction false} PlainLogCounts(log: seq<Write>, id: string)
    requires PlainLog(log)
    ensures StartsOf(EventsOf(log), id) == [] && CompletionsOf(EventsOf(log), id) == 0
  {
    if log != [] {
      var head: seq<Event> := if log[0].AppendEvent? then [log[0].event] else [];
      LedgerConcat(head, EventsOf(log[1..]), id);
      PlainLogCounts(log[1..], id);
    }
  }

  lemma PlainKeepsLedger(rec: Record, log: seq<Write>)
    requires Ledger(rec) && PlainLog(log) && UniqueIds(rec.steps)
    requires SameCounts(rec.steps, ApplyAll(rec, log).steps)
    ensures Ledger(ApplyAll(rec, log))
  {
    var after := ApplyAll(rec, log);
    EventsAppended(rec, log);
    forall id: string ensures Agrees(after, id) {
      assert Agrees(rec, id);
      SameCountsById(rec.steps, after.steps, id);
      PlainLogCounts(log, id);
      LedgerConcat(rec.events, EventsOf(log), id);
    }
  }

  // ---------------------------------------------------------------- executing a step

  function StartEvent(rec: Record, step: Step): Event {
    Event(rec.run.id, step.id, STEP_STARTED, AttemptPayload(step.attempts))
  }

  /** The start and the outcome are the two events of an execution. */
  function OutcomeEvent(rec: Record, step: Step, finish: Finish): Event {
    match finish
    case Returned(status, output, waitReason, _, _) =>
      if status.Waiting? then Event(rec.run.id, step.id, STEP_WAITING, Obj(map["reason" := Str(waitReason)]))
      else Event(rec.run.id, step.id, STEP_COMPLETED, Obj(map["output" := output]))
    case Threw(message) => Event(rec.run.id, step.id, "autonomous.run.failed", Obj(map["error" := Str(message)]))
  }

  lemma {:induction false} NoEventsInNotes(log: seq<Write>)
    requires forall k | 0 <= k < |log| :: !log[k].AppendEvent?
    ensures EventsOf(log) == []
  {
    if log != [] {
      NoEventsInNotes(log[1..]);
    }
  }

  lemma EventsOfOne(w: Write)
    ensures EventsOf([w]) == if w.AppendEvent? then [w.event] else []
  {
    assert [w][1..] == [];
    assert EventsOf([w][1..]) == [];
  }

  lemma EventInMiddle(log: seq<Write>, k: nat)
    requires k < |log| && log[k].AppendEvent? && forall j | 0 <= j < |log| && j != k :: !log[j].AppendEvent?
    ensures EventsOf(log) == [log[k].event]
  {
    var before, at, after := log[..k], [log[k]], log[k + 1..];
    NoEventsInNotes(before);
    EventsOfOne(log[k]);
    NoEventsInNotes(after);
    EventsConcat(at, after);
    EventsConcat(before, at + after);
    assert log == before + (at + after);
  }

  lemma EventOfThree(a: Write, b: Write, c: Write)
    requires !a.AppendEvent? && b.AppendEvent? && !c.AppendEvent?
    ensures EventsOf([a, b, c]) == [b.event]
  {
    EventInMiddle([a, b, c], 1);
  }

  lemma EventsOfStart(rec: Record, step: Step)
    ensures EventsOf(StartWrites(rec, step)) == [StartEvent(rec, step)]
  {
    var w := StartWrites(rec, step);
    EventOfThree(w[0], w[1], w[2]);
    assert w == [w[0], w[1], w[2]];
  }

  lemma EventsOfFinish(rec: Record, step: Step, finish: Finish)
    ensures EventsOf(FinishWrites(rec, step, finish)) == [OutcomeEvent(rec, step, finish)]
  {
    EventInMiddle(FinishWrites(rec, step, finish), 2);
  }

  lemma EventsOfExecute(rec: Record, i: nat, execution: Execution)
    requires i < |rec.steps|
    ensures var step := rec.steps[i];
            EventsOf(ExecuteWrites(rec, i, execution))
            == [StartEvent(rec, step), OutcomeEvent(rec, step, execution.finish)]
  {
    var step := rec.steps[i];
    var start, callbacks := StartWrites(rec, step), CallbackWrites(rec, step, execution.checkpoints);
    var finish := FinishWrites(rec, StartedStep(rec, step), execution.finish);
    EventsOfStart(rec, step);
    NoEventsInNotes(callbacks);
    EventsOfFinish(rec, StartedStep(rec, step), execution.finish);
    EventsConcat(callbacks, finish);
    EventsConcat(start, callbacks + finish);
  }

  /** The outcome event counts as a completion exactly if the step is then completed. */
  lemma OutcomeCounts(rec: Record, step: Step, finish: Finish, id: string)
    ensures StartsOf([OutcomeEvent(rec, step, finish)], id) == []
    ensures CompletionsOf([OutcomeEvent(rec, step, finish)], id)
            == if id == step.id && Finished(step, finish).status.Completed? then 1 else 0
  {
    var e := OutcomeEvent(rec, step, finish);
    assert StartsOf([e][1..], id) == [] && CompletionsOf([e][1..], id) == 0;
    if e.kind != STEP_COMPLETED {
      PlainKind(e.kind);
    } else {
      assert STEP_COMPLETED[16] == 'c';
      assert STEP_STARTED[16] == 's';
    }
  }

  lemma StartCounts(e: Event, id: string)
    requires e.kind == STEP_STARTED
    ensures StartsOf([e], id) == (if id == e.stepId then [e.payload] else []) && CompletionsOf([e], id) == 0
  {
    assert StartsOf([e][1..], id) == [] && CompletionsOf([e][1..], id) == 0;
    assert STEP_COMPLETED[16] == 'c' && STEP_STARTED[16] == 's';
  }

  lemma TwoMoreEvents(events: seq<Event>, start: Event, outcome: Event, id: string)
    requires start.kind == STEP_STARTED && StartsOf([outcome], id) == []
    ensures StartsOf(events + [start, outcome], id)
            == StartsOf(events, id) + (if id == start.stepId then [start.payload] else [])
    ensures CompletionsOf(events + [start, outcome], id) == CompletionsOf(events, id) + CompletionsOf([outcome], id)
  {
    StartCounts(start, id);
    LedgerConcat([start], [outcome], id);
    assert [start] + [outcome] == [start, outcome];
    LedgerConcat(events, [start, outcome], id);
  }

  lemma ExecuteAgrees(rec: Record, i: nat, finish: Finish, after: Record, id: string)
    requires UniqueIds(rec.steps) && i < |rec.steps| && rec.steps[i].status.Pending?
    requires ExecuteEffect(rec, i, finish, after) && Agrees(rec, id)
    requires after.events == rec.events + [StartEvent(rec, rec.steps[i]), OutcomeEvent(rec, rec.steps[i], finish)]
    ensures Agrees(after, id)
  {
    OutcomeCounts(rec, rec.steps[i], finish, id);
    TwoMoreEvents(rec.events, StartEvent(rec, rec.steps[i]), OutcomeEvent(rec, rec.steps[i], finish), id);
    ExecuteCounts(rec, i, finish, after, id);
    OwnIndex(rec.steps, i);
    if id == rec.steps[i].id {
      var n := rec.steps[i].attempts;
      assert Attempts(n + 1) == Attempts(n) + [AttemptPayload(n)];
    }
  }

  lemma ExecuteKeepsLedger(rec: Record, i: nat, execution: Execution, after: Record)
    requires UniqueIds(rec.steps) && i < |rec.steps| && IsReady(rec.steps, i) && Ledger(rec)
    requires after == ApplyAll(rec, ExecuteWrites(rec, i, execution))
    ensures Ledger(after)
  {
    EventsAppended(rec, ExecuteWrites(rec, i, execution));
    EventsOfExecute(rec, i, execution);
    ExecuteGuarded(false, rec, i, execution);
    forall id: string ensures Agrees(after, id) {
      ExecuteAgrees(rec, i, execution.finish, after, id);
    }
  }

  /** An execution adds one attempt to its own step and nothing to the others. */
  lemma ExecuteCounts(rec: Record, i: nat, finish: Finish, after: Record, id: string)
    requires UniqueIds(rec.steps) && i < |rec.steps| && ExecuteEffect(rec, i, finish, after)
    ensures AttemptsOf(after.steps, id) == AttemptsOf(rec.steps, id) + (if id == rec.steps[i].id then 1 else 0)
    ensures IdCompleted(after.steps, id)
            == if id == rec.steps[i].id then Finished(rec.steps[i], finish).status.Completed?
               else IdCompleted(rec.steps, id)
  {
    var middle := rec.steps[i := Finished(rec.steps[i], finish)];
    CountsOfReplaced(rec.steps, i, Finished(rec.steps[i], finish), id);
    assert SameCounts(middle, after.steps);
    SameCountsById(middle, after.steps, id);
  }

  lemma CountsOfReplaced(steps: seq<Step>, i: nat, step: Step, id: string)
    requires UniqueIds(steps) && i < |steps| && step.id == steps[i].id
    ensures AttemptsOf(steps[i := step], id) == if id == step.id then step.attempts else AttemptsOf(steps, id)
    ensures IdCompleted(steps[i := step], id)
            == if id == step.id then step.status.Completed? else IdCompleted(steps, id)
    ensures AttemptsOf(steps, step.id) == steps[i].attempts
    ensures IdCompleted(steps, step.id) == steps[i].status.Completed?
  {
    OwnIndex(steps, i);
    OwnIndex(steps[i := step], i);
    SameIndexOf(steps, steps[i := step], id);
  }

  // ---------------------------------------------------------------- whole operations

  lemma DuplicatesHaveNoLedger(rec: Record, log: seq<Write>)
    requires !UniqueIds(rec.steps) && NoReplace(log)
    ensures Ledger(ApplyAll(rec, log))
  {
    DuplicatesKept(rec, log);
  }

  lemma IdleKeepsLedger(rec: Record, env: Env, budget: nat)
    requires UniqueIds(rec.steps) && Ledger(rec) && budget > 0 && FirstReady(rec.steps, 0) == |rec.steps|
    ensures Ledger(ApplyAll(rec, RunLoop(rec, env, budget).log))
  {
    var log := RunLoop(rec, env, budget).log;
    if AnyWaiting(rec.steps) {
      assert log == [UpdateRun(RUN_PATCH.(status := Some(RunWaiting)))];
      GuardedOneWrite(rec, log[0]);
    } else {
      assert log == CompleteWrites(rec);
      CompleteGuarded(false, rec);
      PlainKind(log[2].event.kind);
    }
    PlainKeepsLedger(rec, log);
  }

  lemma {:induction false} LoopKeepsLedger(rec: Record, env: Env, budget: nat, final: Record)
    requires Ledger(rec) && final == ApplyAll(rec, RunLoop(rec, env, budget).log)
    ensures Ledger(final)
    decreases budget, 1
  {
    if budget > 0 {
      if !UniqueIds(rec.steps) {
        NoReplaceInLoop(rec, env, budget);
        DuplicatesHaveNoLedger(rec, RunLoop(rec, env, budget).log);
      } else if FirstReady(rec.steps, 0) == |rec.steps| {
        IdleKeepsLedger(rec, env, budget);
      } else {
        TurnKeepsLedger(rec, env, budget, budget - 1, final);
      }
    }
  }

  lemma {:induction false} TurnKeepsLedger(rec: Record, env: Env, budget: nat, left: nat, final: Record)
    requires UniqueIds(rec.steps) && Ledger(rec) && final == ApplyAll(rec, RunLoop(rec, env, budget).log)
    requires budget == left + 1 && FirstReady(rec.steps, 0) < |rec.steps|
    ensures Ledger(final)
    decreases budget, 0
  {
    var next, execution, after := OneTurn(rec, env, budget, left);
    ExecuteKeepsLedger(rec, next, execution, after);
    if !Stops(after.run.status) {
      LoopKeepsLedger(after, env, left, final);
    }
  }

  lemma {:induction false} SweepIsPlain(rec: Record, sweep: Sweep, steps: seq<Step>, k: nat)
    requires k <= |steps|
    ensures PlainLog(SweepWrites(rec, sweep, steps, k))
    decreases |steps| - k
  {
    if k < |steps| {
      SweepIsPlain(rec, sweep, steps, k + 1);
      PlainKind(STEP_INTERRUPTED);
    }
  }

  lemma SweepKeepsLedger(rec: Record, sweep: Sweep, cur: Record)
    requires Ledger(cur)
    ensures Ledger(ApplyAll(cur, SweepWrites(rec, sweep, cur.steps, 0)))
  {
    var log := SweepWrites(rec, sweep, cur.steps, 0);
    if UniqueIds(cur.steps) {
      SweepGuarded(false, rec, sweep, cur, cur.steps, 0);
      SweepIsPlain(rec, sweep, cur.steps, 0);
      PlainKeepsLedger(cur, log);
    } else {
      NoReplaceInSweep(rec, sweep, cur.steps, 0);
      DuplicatesHaveNoLedger(cur, log);
    }
  }

  lemma PlanKeepsLedger(rec: Record, plan: Plan)
    requires Ledger(rec)
    ensures Ledger(ApplyAll(rec, PlanWrites(rec, plan)))
  {
    var log := PlanWrites(rec, plan);
    if log != [] {
      QuietLog(false, Apply(rec, log[0]), log[1..]);
      PlainKind(log[2].event.kind);
      PlainKeepsLedger(rec, log);
    }
  }

  lemma StartRunKeepsLedger(rec: Record, cur: Record)
    requires Ledger(cur)
    ensures Ledger(ApplyAll(cur, StartRunWrites(rec)))
  {
    var log := StartRunWrites(rec);
    StartRunGuarded(false, rec, cur);
    PlainKind(log[1].event.kind);
    if UniqueIds(cur.steps) {
      PlainKeepsLedger(cur, log);
    }
  }

  lemma RunKeepsLedger(rec: Record, env: Env)
    requires Ledger(rec)
    ensures Ledger(ApplyAll(rec, RunWrites(rec, env)))
  {
    var prepare := PrepareWrites(rec, env.plan);
    if prepare.Some? {
      PrepareKeepsLedger(rec, env.plan);
      var ready := ApplyAll(rec, prepare.value);
      ApplyConcat(rec, prepare.value, RunLoop(ready, env, env.Limit()).log);
      LoopKeepsLedger(ready, env, env.Limit(), ApplyAll(rec, RunWrites(rec, env)));
    }
  }

  lemma PrepareKeepsLedger(rec: Record, plan: Plan)
    requires Ledger(rec) && PrepareWrites(rec, plan).Some?
    ensures Ledger(ApplyAll(rec, PrepareWrites(rec, plan).value))
  {
    if !Closed(rec) {
      var planning := PlanWrites(rec, plan);
      var planned := ApplyAll(rec, planning);
      var sweep := SweepWrites(rec, Requeue, planned.steps, 0);
      var swept := ApplyAll(planned, sweep);
      PlanKeepsLedger(rec, plan);
      SweepKeepsLedger(rec, Requeue, planned);
      StartRunKeepsLedger(rec, swept);
      ApplyConcat(planned, sweep, StartRunWrites(rec));
      ApplyConcat(rec, planning, sweep + StartRunWrites(rec));
    }
  }

  lemma RetryKeepsLedger(rec: Record, retry: bool)
    requires Ledger(rec)
    ensures Ledger(ApplyAll(rec, RetryWrites(rec, retry)))
  {
    var failed := FirstFailed(rec.steps, 0);
    var log := RetryWrites(rec, retry);
    if log != [] {
      if UniqueIds(rec.steps) {
        PatchById(rec, failed, RETRY);
        QuietLog(false, Apply(rec, log[0]), log[1..]);
        PlainKind(STEP_RETRY);
        PlainKeepsLedger(rec, log);
      } else {
        DuplicatesHaveNoLedger(rec, log);
      }
    }
  }

  lemma ResumeKeepsLedger(rec: Record, retry: bool, env: Env)
    requires Ledger(rec)
    ensures Ledger(ApplyAll(rec, ResumeWrites(rec, retry, env)))
  {
    if !Closed(rec) {
      var first := RetryWrites(rec, retry);
      var after := ApplyAll(rec, first);
      RetryKeepsLedger(rec, retry);
      RunKeepsLedger(after, env);
      ApplyConcat(rec, first, RunWrites(after, env));
    }
  }

  lemma CompleteWaitingKeepsLedger(rec: Record, stepId: string, output: Value)
    requires Ledger(rec)
    ensures Ledger(ApplyAll(rec, CompleteWaitingWrites(rec, stepId, output)))
  {
    var log := CompleteWaitingWrites(rec, stepId, output);
    if log != [] {
      if UniqueIds(rec.steps) {
        ExternalKeepsLedger(rec, IndexOf(rec.steps, stepId), output, log);
      } else {
        DuplicatesHaveNoLedger(rec, log);
      }
    }
  }

  lemma ExternalKeepsLedger(rec: Record, i: nat, output: Value, log: seq<Write>)
    requires Ledger(rec) && UniqueIds(rec.steps) && i < |rec.steps|
    requires log == CompleteWaitingWrites(rec, rec.steps[i].id, output) && log != []
    ensures Ledger(ApplyAll(rec, log))
  {
    var after := ApplyAll(rec, log);
    OwnIndex(rec.steps, i);
    PatchById(rec, i, ExternalCompletion(output));
    ThreeWrites(rec, log);
    forall id: string ensures Agrees(after, id) {
      assert Agrees(rec, id);
      ExternalAgrees(rec, i, output, log[1].event, after, id);
    }
  }

  lemma ExternalAgrees(rec: Record, i: nat, output: Value, e: Event, after: Record, id: string)
    requires UniqueIds(rec.steps) && i < |rec.steps| && rec.steps[i].status.Waiting? && Agrees(rec, id)
    requires e.kind == STEP_COMPLETED && e.stepId == rec.steps[i].id && after.events == rec.events + [e]
    requires after.steps == rec.steps[i := PatchStep(rec.steps[i], ExternalCompletion(output))]
    ensures Agrees(after, id)
  {
    ExternalCounts(rec, i, output, after, id);
    CompletionCounts(e, id);
    LedgerConcat(rec.events, [e], id);
  }

  lemma ThreeWrites(rec: Record, log: seq<Write>)
    requires |log| == 3
    ensures ApplyAll(rec, log) == Apply(Apply(Apply(rec, log[0]), log[1]), log[2])
  {
    GuardedOneWrite(Apply(Apply(rec, log[0]), log[1]), log[2]);
    assert log[1..][1..] == [log[2]];
  }

  lemma CompletionCounts(e: Event, id: string)
    requires e.kind == STEP_COMPLETED
    ensures StartsOf([e], id) == [] && CompletionsOf([e], id) == if id == e.stepId then 1 else 0
  {
    assert StartsOf([e][1..], id) == [] && CompletionsOf([e][1..], id) == 0;
    assert STEP_COMPLETED[16] == 'c' && STEP_STARTED[16] == 's';
  }

  lemma ExternalCounts(rec: Record, i: nat, output: Value, mid: Record, id: string)
    requires UniqueIds(rec.steps) && i < |rec.steps| && rec.steps[i].status.Waiting?
    requires mid.steps == rec.steps[i := PatchStep(rec.steps[i], ExternalCompletion(output))]
    ensures AttemptsOf(mid.steps, id) == AttemptsOf(rec.steps, id)
    ensures IdCompleted(mid.steps, id) <==> id == rec.steps[i].id || IdCompleted(rec.steps, id)
    ensures !IdCompleted(rec.steps, rec.steps[i].id)
  {
    CountsOfReplaced(rec.steps, i, mid.steps[i], id);
  }

  lemma CancelKeepsLedger(rec: Record, reason: string)
    requires Ledger(rec)
    ensures Ledger(ApplyAll(rec, CancelWrites(rec, reason)))
  {
    var log := CancelWrites(rec, reason);
    var mid := Apply(rec, log[0]);
    var sweep := SweepWrites(rec, CancelOpen(reason), rec.steps, 0);
    var last := log[|log| - 1];
    if UniqueIds(mid.steps) {
      forall id: string ensures Agrees(mid, id) {
        assert Agrees(rec, id);
      }
    }
    SweepKeepsLedger(rec, CancelOpen(reason), mid);
    var swept := ApplyAll(mid, sweep);
    PlainKind(last.event.kind);
    GuardedOneWrite(swept, last);
    if UniqueIds(swept.steps) {
      PlainKeepsLedger(swept, [last]);
    }
    ApplyConcat(mid, sweep, [last]);
    assert log[1..] == sweep + [last];
  }

  lemma OperationKeepsLedger(rec: Record, op: Op, env: Env)
    requires Ledger(rec)
    ensures Ledger(ApplyAll(rec, OpWrites(rec, op, env)))
  {
    match op
    case OpPlan => PlanKeepsLedger(rec, env.plan);
    case OpRun => RunKeepsLedger(rec, env);
    case OpResume(retry) => ResumeKeepsLedger(rec, retry, env);
    case OpCompleteWaiting(stepId, output) => CompleteWaitingKeepsLedger(rec, stepId, output);
    case OpCancel(reason) => CancelKeepsLedger(rec, reason);
  }

  // ---------------------------------------------------------------- whole histories

  /** Every operation ran to its end. */
  ghost predicate NoCrash(rec: Record, sessions: seq<Session>)
    decreases |sessions|
  {
    sessions != [] ==>
      && sessions[0].cut >= |OpWrites(rec, sessions[0].op, sessions[0].env)|
      && NoCrash(ApplyAll(rec, SessionWrites(rec, sessions[0])), sessions[1..])
  }

  lemma {:induction false} LedgerAlong(rec: Record, sessions: seq<Session>)
    requires Ledger(rec) && NoCrash(rec, sessions)
    ensures Ledger(ApplyAll(rec, History(rec, sessions)))
    decreases |sessions|
  {
    if sessions != [] {
      var log := SessionWrites(rec, sessions[0]);
      var next := ApplyAll(rec, log);
      OperationKeepsLedger(rec, sessions[0].op, sessions[0].env);
      LedgerAlong(next, sessions[1..]);
      ApplyConcat(rec, log, History(next, sessions[1..]));
    }
  }

  lemma {:induction false} PlainEventsCount(events: seq<Event>, id: string)
    requires forall k | 0 <= k < |events| :: Plain(events[k])
    ensures StartsOf(events, id) == [] && CompletionsOf(events, id) == 0
  {
    if events != [] {
      PlainEventsCount(events[1..], id);
    }
  }

  /** The step was started as often as its log shows, the k-th start carries attempt k, and it is completed
      exactly if the log has one completion of it, and never more. */
  ghost predicate StepMatchesLog(rec: Record, i: nat)
    requires i < |rec.steps|
  {
    var step := rec.steps[i];
    && |StartsOf(rec.events, step.id)| == step.attempts
    && (forall k | 0 <= k < step.attempts :: StartsOf(rec.events, step.id)[k] == Obj(map["attempt" := Int(k + 1)]))
    && CompletionsOf(rec.events, step.id) <= 1
    && (step.status.Completed? <==> CompletionsOf(rec.events, step.id) == 1)
  }

  /** A run that starts without steps, and without an event that counts, keeps its books for ever: whoever
      finishes a step, the executor or an outside caller, its attempts and its completion are exactly what
      the log shows. */
  lemma LogMatchesSteps(rec: Record, sessions: seq<Session>, final: Record, i: nat)
    requires rec.steps == [] && (forall k | 0 <= k < |rec.events| :: Plain(rec.events[k])) && NoCrash(rec, sessions)
    requires final == ApplyAll(rec, History(rec, sessions))
    requires UniqueIds(final.steps) && i < |final.steps|
    ensures StepMatchesLog(final, i)
  {
    forall id: string ensures Agrees(rec, id) {
      PlainEventsCount(rec.events, id);
      assert Attempts(0) == [];
    }
    LedgerAlong(rec, sessions);
    assert Agrees(final, final.steps[i].id);
    OwnIndex(final.steps, i);
  }

  lemma CreatedIsPlain(run: Run)
    ensures Created(run).steps == [] && forall k | 0 <= k < |Created(run).events| :: Plain(Created(run).events[k])
  {
    PlainKind(Created(run).events[0].kind);
  }

  /** In particular every run does that the manager creates. */
  lemma CreatedRunLogMatches(run: Run, sessions: seq<Session>, final: Record, i: nat)
    requires NoCrash(Created(run), sessions) && final == ApplyAll(Created(run), History(Created(run), sessions))
    requires UniqueIds(final.steps) && i < |final.steps|
    ensures StepMatchesLog(final, i)
  {
    CreatedIsPlain(run);
    LogMatchesSteps(Created(run), sessions, final, i);
  }
}
