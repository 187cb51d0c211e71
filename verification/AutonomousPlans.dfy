/** Plans as the planner and the executor hand them over: how the order of work and the safety of starts
    follow from the dependencies that a plan itself names. */
module AutonomousPlans {
  import opened Wrappers
  import opened Autonomous
  import opened AutonomousOperations
  import opened AutonomousProtocol
  import opened AutonomousHistory
  import opened AutonomousSchedule
  import opened AutonomousStore
  import opened AutonomousManager
  import opened PlanGraph

  ghost predicate PlanUnique(plan: seq<PlanStep>) {
    forall i, j | 0 <= i < j < |plan| :: plan[i].id != plan[j].id
  }

  /** Step `i` of the plan names step `j` among its dependencies. */
  ghost predicate Names(plan: seq<PlanStep>, i: nat, j: nat) {
    i < |plan| && j < |plan| && plan[j].id in plan[i].dependsOn
  }

  ghost predicate PlanResolved(plan: seq<PlanStep>) {
    forall i, id | 0 <= i < |plan| && id in plan[i].dependsOn :: exists j :: 0 <= j < |plan| && plan[j].id == id
  }

  ghost predicate PlanAcyclic(plan: seq<PlanStep>) {
    forall p: seq<nat> | |p| > 1 && (forall a | 0 <= a < |p| - 1 :: Names(plan, p[a], p[a + 1])) :: p[0] != p[|p| - 1]
  }

  /** Every id that step `i` depends on belongs to a step among those started. */
  ghost predicate MayStart(plan: seq<PlanStep>, started: seq<nat>, i: nat) {
    && i < |plan| && i !in started
    && forall id | id in plan[i].dependsOn ::
         exists a :: 0 <= a < |started| && started[a] < |plan| && plan[started[a]].id == id
  }

  // ---------------------------------------------------------------- the stored plan

  ghost predicate StoredPlan(steps: seq<Step>, plan: seq<PlanStep>) {
    && |steps| == |plan|
    && forall i | 0 <= i < |plan| :: steps[i].id == plan[i].id && steps[i].dependsOn == plan[i].dependsOn
  }

  lemma FoundWhereNamed(steps: seq<Step>, plan: seq<PlanStep>, id: string)
    requires StoredPlan(steps, plan)
    ensures IndexOf(steps, id) == |plan| <==> forall j | 0 <= j < |plan| :: plan[j].id != id
    ensures PlanUnique(plan) ==> forall j: nat | j < |plan| :: plan[j].id == id <==> IndexOf(steps, id) == j
  {
    var i := IndexOf(steps, id);
    assert i < |plan| ==> plan[i].id == id;
  }

  lemma DependsAsNamed(steps: seq<Step>, plan: seq<PlanStep>, i: nat, j: nat)
    requires StoredPlan(steps, plan) && PlanUnique(plan)
    ensures DependsOn(steps, i, j) <==> Names(plan, i, j)
  {
    if DependsOn(steps, i, j) {
      var k :| 0 <= k < |steps[i].dependsOn| && IndexOf(steps, steps[i].dependsOn[k]) == j;
      FoundWhereNamed(steps, plan, steps[i].dependsOn[k]);
    }
    if Names(plan, i, j) {
      var k :| 0 <= k < |plan[i].dependsOn| && plan[i].dependsOn[k] == plan[j].id;
      FoundWhereNamed(steps, plan, plan[j].id);
      assert IndexOf(steps, steps[i].dependsOn[k]) == j;
    }
  }

  lemma StoredResolved(steps: seq<Step>, plan: seq<PlanStep>)
    requires StoredPlan(steps, plan) && PlanResolved(plan)
    ensures Resolved(steps)
  {
    forall i | 0 <= i < |steps| ensures !MissingDependency(steps, i) {
      forall k | 0 <= k < |steps[i].dependsOn| ensures IndexOf(steps, steps[i].dependsOn[k]) < |steps| {
        assert plan[i].dependsOn[k] in plan[i].dependsOn;
        FoundWhereNamed(steps, plan, plan[i].dependsOn[k]);
      }
    }
  }

  lemma StoredAcyclic(steps: seq<Step>, plan: seq<PlanStep>)
    requires StoredPlan(steps, plan) && PlanUnique(plan) && PlanAcyclic(plan)
    ensures Acyclic(steps)
  {
    forall p: seq<nat> | IsPath(steps, p) && |p| > 1 ensures p[0] != p[|p| - 1] {
      forall a | 0 <= a < |p| - 1 ensures Names(plan, p[a], p[a + 1]) {
        DependsAsNamed(steps, plan, p[a], p[a + 1]);
      }
    }
  }

  lemma ReadyAsPlanned(steps: seq<Step>, plan: seq<PlanStep>, done: seq<nat>, i: nat)
    requires StoredPlan(steps, plan) && PlanUnique(plan)
    requires forall a | 0 <= a < |done| :: done[a] < |plan|
    ensures ReadyAfter(steps, done, i) <==> MayStart(plan, done, i)
  {
    if ReadyAfter(steps, done, i) {
      forall id | id in plan[i].dependsOn
        ensures exists a :: 0 <= a < |done| && done[a] < |plan| && plan[done[a]].id == id
      {
        NamedIsDone(steps, plan, done, i, id);
      }
    }
    if MayStart(plan, done, i) {
      forall k | 0 <= k < |steps[i].dependsOn|
        ensures IndexOf(steps, steps[i].dependsOn[k]) < |steps| && IndexOf(steps, steps[i].dependsOn[k]) in done
      {
        var id := plan[i].dependsOn[k];
        assert id in plan[i].dependsOn;
        var a :| 0 <= a < |done| && done[a] < |plan| && plan[done[a]].id == id;
        FoundWhereNamed(steps, plan, id);
        assert IndexOf(steps, id) == done[a];
      }
    }
  }

  lemma NamedIsDone(steps: seq<Step>, plan: seq<PlanStep>, done: seq<nat>, i: nat, id: string)
    requires StoredPlan(steps, plan) && ReadyAfter(steps, done, i) && id in plan[i].dependsOn
    ensures exists a :: 0 <= a < |done| && done[a] < |plan| && plan[done[a]].id == id
  {
    var k :| 0 <= k < |plan[i].dependsOn| && plan[i].dependsOn[k] == id;
    var j := IndexOf(steps, steps[i].dependsOn[k]);
    assert j < |steps|;
    assert DependsOn(steps, i, j);
    var a :| 0 <= a < |done| && done[a] == j;
  }

  // ---------------------------------------------------------------- exact work

  /** A fresh run of a plan of `n` steps with different ids, whose dependencies are ids of the plan and go
      round in no circle, with an executor that always completes. Every step starts after all those it
      names, the first in the plan that may start goes first, and no step starts twice. The run is completed,
      unless `n` reaches the limit: then it is answered with the limit error after exactly `limit` starts,
      even when the last of them finished the plan. */
  lemma PlannedWork(rec: Record, env: Env) returns (started: seq<nat>, final: Record, limit: nat)
    requires rec.steps == [] && rec.run.status == RunQueued && AlwaysCompletes(env)
    requires env.plan.steps != [] && PlanUnique(env.plan.steps)
    requires PlanResolved(env.plan.steps) && PlanAcyclic(env.plan.steps)
    ensures limit == if env.maxStepsPerRun == 0 then 64 else env.maxStepsPerRun
    ensures final == ApplyAll(rec, RunWrites(rec, env)) && |final.steps| == |env.plan.steps|
    ensures |started| == (if |env.plan.steps| < limit then |env.plan.steps| else limit)
    ensures forall k | 0 <= k < |started| ::
              && MayStart(env.plan.steps, started[..k], started[k])
              && forall j: nat | j < started[k] :: !MayStart(env.plan.steps, started[..k], j)
    ensures forall i: nat | i < |final.steps| ::
              && final.steps[i].id == env.plan.steps[i].id
              && final.steps[i].status == if i in started then Completed else Pending
    ensures |env.plan.steps| <= limit ==> forall i: nat | i < |env.plan.steps| :: i in started
    ensures if |env.plan.steps| < limit
            then final.run.status == RunCompleted && RunAnswer(rec, env) == Ok(final)
            else final.run.status == RunRunning && RunAnswer(rec, env) == Err(LimitExceeded(limit))
  {
    limit := env.Limit();
    StoredAsPlanned(rec.run.id, env.plan.steps);
    var steps, trace, last := ExactWork(rec, env);
    started, final := trace.started, last;
    StartedAsPlanned(steps, env.plan.steps, started);
    EndedAsPlanned(steps, env.plan.steps, started, final.steps);
    AnswerOfRun(rec, env, trace, final);
  }

  lemma EndedAsPlanned(steps: seq<Step>, plan: seq<PlanStep>, started: seq<nat>, final: seq<Step>)
    requires StoredPlan(steps, plan) && InProgress(steps, final, started)
    ensures |final| == |plan|
    ensures forall i: nat | i < |final| ::
              final[i].id == plan[i].id && final[i].status == if i in started then Completed else Pending
  {
  }

  lemma StoredAsPlanned(runId: string, plan: seq<PlanStep>)
    requires PlanUnique(plan) && PlanResolved(plan) && PlanAcyclic(plan)
    ensures var steps := NormalizeSteps(runId, 0, plan);
            StoredPlan(steps, plan) && UniqueIds(steps) && Resolved(steps) && Acyclic(steps)
  {
    var steps := NormalizeSteps(runId, 0, plan);
    StepsMadeFromPlan(runId, 0, plan);
    assert forall i | 0 <= i < |plan| :: MadeFrom(steps[i], plan[i], runId, i);
    StoredResolved(steps, plan);
    StoredAcyclic(steps, plan);
  }

  lemma StartedAsPlanned(steps: seq<Step>, plan: seq<PlanStep>, started: seq<nat>)
    requires StoredPlan(steps, plan) && PlanUnique(plan)
    requires forall k | 0 <= k < |started| :: LeastReady(steps, started[..k], started[k])
    ensures forall k | 0 <= k < |started| ::
              && MayStart(plan, started[..k], started[k])
              && forall j: nat | j < started[k] :: !MayStart(plan, started[..k], j)
  {
    forall k | 0 <= k < |started|
      ensures MayStart(plan, started[..k], started[k])
      ensures forall j: nat | j < started[k] :: !MayStart(plan, started[..k], j)
    {
      assert LeastReady(steps, started[..k], started[k]);
      forall a | 0 <= a < k ensures started[..k][a] < |plan| {
        assert LeastReady(steps, started[..a], started[a]);
      }
      forall j: nat | j <= started[k] ensures ReadyAfter(steps, started[..k], j) <==> MayStart(plan, started[..k], j) {
        ReadyAsPlanned(steps, plan, started[..k], j);
      }
    }
  }

  lemma AnswerOfRun(rec: Record, env: Env, trace: LoopTrace, final: Record)
    requires PrepareWrites(rec, env.plan).Some?
    requires trace == RunLoop(Prepared(rec, env.plan), env, env.Limit()) && final == ApplyAll(rec, RunWrites(rec, env))
    ensures RunAnswer(rec, env) == if trace.exceeded then Err(LimitExceeded(env.Limit())) else Ok(final)
  {
    ApplyConcat(rec, PrepareWrites(rec, env.plan).value, trace.log);
  }

  // ---------------------------------------------------------------- safety

  /** The writes that bring new steps: the planner's plan, or what an executor asked for. */
  predicate BringsSteps(w: Write) {
    w.ReplaceSteps? || w.AppendSteps?
  }

  /** Every step of a run that began without steps was brought by an earlier write, with its id and its
      dependencies. */
  lemma {:induction false} BroughtBefore(rec: Record, log: seq<Write>, k: nat, i: nat) returns (w: nat, p: nat)
    requires rec.steps == [] && GuardedAll(false, rec, log) && UniqueIds(ApplyAll(rec, log).steps)
    requires k <= |log| && i < |StateAt(rec, log, k).steps|
    ensures w < k && BringsSteps(log[w]) && p < |log[w].plan|
    ensures log[w].plan[p].id == StateAt(rec, log, k).steps[i].id
    ensures log[w].plan[p].dependsOn == StateAt(rec, log, k).steps[i].dependsOn
    decreases k
  {
    if k > 0 {
      var before := StateAt(rec, log, k - 1);
      UniqueBefore(false, rec, log, k - 1);
      GuardedAt(false, rec, log, k - 1);
      if i < |before.steps| {
        LegalEvolves(false, before, log[k - 1]);
        w, p := BroughtBefore(rec, log, k - 1, i);
      } else {
        w, p := k - 1, i - |before.steps|;
        BroughtNow(before, log[k - 1], i);
      }
    }
  }

  lemma BroughtNow(rec: Record, w: Write, i: nat)
    requires Guarded(false, rec, w) && |rec.steps| <= i < |Apply(rec, w).steps|
    ensures BringsSteps(w) && i - |rec.steps| < |w.plan|
    ensures MadeFrom(Apply(rec, w).steps[i], w.plan[i - |rec.steps|], rec.run.id, i)
  {
    if BringsSteps(w) {
      StepsMadeFromPlan(rec.run.id, |rec.steps|, w.plan);
    }
  }

  /** In every history of a run, whatever crashes, a step is started only when all the ids that it was
      brought with as dependencies belong to completed steps, which are still completed later on. */
  lemma StartsFollowPlans(rec: Record, sessions: seq<Session>, k: nat, later: nat) returns (w: nat, p: nat)
    requires rec.steps == [] && k < later <= |History(rec, sessions)|
    requires UniqueIds(ApplyAll(rec, History(rec, sessions)).steps)
    requires var start := History(rec, sessions)[k]; start.UpdateStep? && start.stepPatch.status == Some(Running)
    ensures var log := History(rec, sessions);
            && w < k && BringsSteps(log[w]) && p < |log[w].plan| && log[w].plan[p].id == log[k].stepId
            && forall id | id in log[w].plan[p].dependsOn ::
                 exists j :: 0 <= j < |StateAt(rec, log, k).steps| && j < |StateAt(rec, log, later).steps|
                             && DoneAs(StateAt(rec, log, k).steps[j], id)
                             && DoneAs(StateAt(rec, log, later).steps[j], id)
  {
    var log := History(rec, sessions);
    var before, after := StateAt(rec, log, k).steps, StateAt(rec, log, later).steps;
    StartsAreSafe(rec, sessions, k, later);
    HistoryGuarded(rec, sessions);
    var i := IndexOf(before, log[k].stepId);
    w, p := BroughtBefore(rec, log, k, i);
    forall id | id in log[w].plan[p].dependsOn
      ensures exists j :: 0 <= j < |before| && j < |after| && DoneAs(before[j], id) && DoneAs(after[j], id)
    {
      var d :| 0 <= d < |before[i].dependsOn| && before[i].dependsOn[d] == id;
      var j := IndexOf(before, before[i].dependsOn[d]);
      assert DoneAs(before[j], id) && DoneAs(after[j], id);
    }
  }

  ghost predicate DoneAs(step: Step, id: string) {
    step.id == id && step.status == Completed
  }
}
