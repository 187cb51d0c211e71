/** How much work a run does, and in which order. */
module AutonomousSchedule {
  import opened Autonomous
  import opened AutonomousOperations
  import opened AutonomousProtocol
  import opened AutonomousGuards
  import opened AutonomousHistory
  import opened PlanGraph

  // ---------------------------------------------------------------- positions

  ghost predicate IndexedInOrder(steps: seq<Step>) {
    forall i | 0 <= i < |steps| :: steps[i].index == i
  }

  /** Every write of every history keeps the steps numbered by their position. */
  lemma {:induction false} IndexKept(rec: Record, log: seq<Write>)
    requires IndexedInOrder(rec.steps)
    ensures IndexedInOrder(ApplyAll(rec, log).steps)
    decreases |log|
  {
    if log != [] {
      IndexKept(Apply(rec, log[0]), log[1..]);
    }
  }

  lemma {:induction false} PreviousFrom(steps: seq<Step>, from: nat, i: nat)
    requires from <= |steps| && i <= |steps| && forall j | from <= j < |steps| :: steps[j].index == j
    ensures PreviousSteps(steps[from..], i) == if from <= i then steps[from..i] else []
    decreases |steps| - from
  {
    if from < |steps| {
      PreviousFrom(steps, from + 1, i);
      assert steps[from..][1..] == steps[from + 1..];
    }
  }

  /** What the executor is shown besides the step: exactly the steps before it in the list. */
  lemma PreviousStepsArePrefix(rec: Record, i: nat)
    requires IndexedInOrder(rec.steps) && i < |rec.steps|
    ensures InputFor(rec, i).previousSteps == rec.steps[..i]
  {
    PreviousFrom(rec.steps, 0, i);
    assert rec.steps[0..] == rec.steps;
  }

  // ---------------------------------------------------------------- counting finished steps

  lemma {:induction false} DistinctCover(p: seq<nat>, n: nat)
    requires NoDuplicates(p) && (forall a | 0 <= a < |p| :: p[a] < n)
    ensures |p| == n <==> forall i: nat | i < n :: i in p
  {
    DistinctBounded(p, n);
    if |p| == n {
      forall i: nat | i < n ensures i in p {
        if i !in p {
          DistinctBounded(p + [i], n);
        }
      }
    } else if forall i: nat | i < n :: i in p {
      CoverIsLong(p, n);
    }
  }

  lemma {:induction false} CoverIsLong(p: seq<nat>, n: nat)
    requires NoDuplicates(p) && forall i: nat | i < n :: i in p
    ensures |p| >= n
  {
    if n > 0 {
      var m: nat := n - 1;
      assert m in p;
      var k :| 0 <= k < |p| && p[k] == m;
      var q := p[..k] + p[k + 1..];
      assert forall a | 0 <= a < |q| :: q[a] == if a < k then p[a] else p[a + 1];
      forall i: nat | i < m ensures i in q {
        assert i in p;
        var a :| 0 <= a < |p| && p[a] == i;
        assert q[if a < k then a else a - 1] == i;
      }
      CoverIsLong(q, m);
    }
  }

  // ---------------------------------------------------------------- exact work

  /** An executor that always finishes a step and never asks for more steps. */
  ghost predicate AlwaysCompletes(env: Env) {
    forall input: ExecutionInput ::
      var finish := env.executor(input).finish;
      finish.Returned? && !finish.status.Waiting? && finish.nextSteps == []
  }

  /** Step `i` of the plan may start once exactly the steps in `done` are completed. */
  ghost predicate ReadyAfter(plan: seq<Step>, done: seq<nat>, i: nat) {
    i < |plan| && i !in done && !MissingDependency(plan, i) && forall j: nat | DependsOn(plan, i, j) :: j in done
  }

  ghost predicate LeastReady(plan: seq<Step>, done: seq<nat>, i: nat) {
    ReadyAfter(plan, done, i) && forall j: nat | j < i :: !ReadyAfter(plan, done, j)
  }

  /** The steps in `done` are completed and the others pending. */
  ghost predicate InProgress(plan: seq<Step>, steps: seq<Step>, done: seq<nat>) {
    && SameGraph(plan, steps)
    && NoDuplicates(done) && (forall a | 0 <= a < |done| :: done[a] < |plan|)
    && forall i: nat | i < |steps| :: steps[i].status == if i in done then Completed else Pending
  }

  lemma ReadyMeansReadyAfter(plan: seq<Step>, steps: seq<Step>, done: seq<nat>, i: nat)
    requires InProgress(plan, steps, done) && i < |steps|
    ensures IsReady(steps, i) <==> ReadyAfter(plan, done, i)
  {
    forall k | 0 <= k < |steps[i].dependsOn|
      ensures IndexOf(steps, steps[i].dependsOn[k]) == IndexOf(plan, plan[i].dependsOn[k])
    {
      SameIndexOf(steps, plan, steps[i].dependsOn[k]);
    }
    if IsReady(steps, i) {
      forall k | 0 <= k < |plan[i].dependsOn|
        ensures IndexOf(plan, plan[i].dependsOn[k]) < |plan| && IndexOf(plan, plan[i].dependsOn[k]) in done
      {
        assert IdCompleted(steps, steps[i].dependsOn[k]);
      }
    }
    if ReadyAfter(plan, done, i) {
      forall k | 0 <= k < |steps[i].dependsOn| ensures IdCompleted(steps, steps[i].dependsOn[k]) {
        var j := IndexOf(plan, plan[i].dependsOn[k]);
        assert j < |plan|;
        assert DependsOn(plan, i, j);
      }
    }
  }

  /** In an acyclic plan with resolved dependencies there is something to do until all is done. */
  lemma IdleMeansDone(plan: seq<Step>, steps: seq<Step>, done: seq<nat>)
    requires InProgress(plan, steps, done) && Resolved(plan) && Acyclic(plan)
    requires FirstReady(steps, 0) == |steps|
    ensures AllCompleted(steps) && |done| == |plan|
  {
    SameGraphSameShape(plan, steps);
    assert Settled(steps);
    SettledIsCompleted(steps);
    forall i: nat | i < |plan| ensures i in done {
      assert steps[i].status.Completed?;
    }
    DistinctCover(done, |plan|);
  }

  lemma ReadyMeansMore(plan: seq<Step>, steps: seq<Step>, done: seq<nat>)
    requires InProgress(plan, steps, done) && FirstReady(steps, 0) < |steps|
    ensures |done| < |plan| && LeastReady(plan, done, FirstReady(steps, 0))
  {
    var next := FirstReady(steps, 0);
    forall i: nat | i <= next ensures IsReady(steps, i) <==> ReadyAfter(plan, done, i) {
      ReadyMeansReadyAfter(plan, steps, done, i);
    }
    DistinctBounded(done, |plan|);
    DistinctCover(done, |plan|);
  }

  lemma OneMoreDone(plan: seq<Step>, rec: Record, done: seq<nat>, i: nat, finish: Finish, after: Record)
    requires InProgress(plan, rec.steps, done) && i < |rec.steps| && i !in done
    requires finish.Returned? && !finish.status.Waiting? && finish.nextSteps == []
    requires ExecuteEffect(rec, i, finish, after)
    ensures InProgress(plan, after.steps, done + [i]) && after.run == rec.run
  {
    assert after.steps == rec.steps[i := Finished(rec.steps[i], finish)];
  }

  /** The loop as the plan prescribes it: every turn starts the least step that is ready at that moment,
      until all steps are done or the budget is used up, whichever comes first; having used up the budget
      is an error even when all steps are done. */
  ghost predicate Greedy(
      plan: seq<Step>, done: seq<nat>, budget: nat, started: seq<nat>, exceeded: bool, final: Record)
    decreases |started|
  {
    if started == [] then
      && InProgress(plan, final.steps, done)
      && if budget == 0 then exceeded && final.run.status.RunRunning?
         else !exceeded && |done| == |plan| && AllCompleted(final.steps) && final.run.status.RunCompleted?
    else
      && budget > 0 && LeastReady(plan, done, started[0])
      && Greedy(plan, done + [started[0]], budget - 1, started[1..], exceeded, final)
  }

  lemma {:induction false} GreedyAt(
      plan: seq<Step>, done: seq<nat>, budget: nat, started: seq<nat>, exceeded: bool, final: Record, k: nat)
    requires Greedy(plan, done, budget, started, exceeded, final) && k < |started|
    ensures LeastReady(plan, done + started[..k], started[k])
    decreases |started|
  {
    if k == 0 {
      assert done + started[..0] == done;
    } else {
      GreedyAt(plan, done + [started[0]], budget - 1, started[1..], exceeded, final, k - 1);
      assert (done + [started[0]]) + started[1..][..k - 1] == done + started[..k];
    }
  }

  /** How a greedy loop ends. */
  lemma {:induction false} GreedyEnds(
      plan: seq<Step>, done: seq<nat>, budget: nat, started: seq<nat>, exceeded: bool, final: Record)
    requires Greedy(plan, done, budget, started, exceeded, final)
    ensures |started| <= budget && (exceeded <==> |started| == budget)
    ensures if exceeded then final.run.status.RunRunning?
            else |done| + |started| == |plan| && AllCompleted(final.steps) && final.run.status.RunCompleted?
    ensures InProgress(plan, final.steps, done + started)
    decreases |started|
  {
    if started == [] {
      assert done + started == done;
    } else {
      GreedyEnds(plan, done + [started[0]], budget - 1, started[1..], exceeded, final);
      assert (done + [started[0]]) + started[1..] == done + started;
    }
  }

  lemma GreedyCons(
      plan: seq<Step>, done: seq<nat>, budget: nat, next: nat, started: seq<nat>, exceeded: bool, final: Record)
    requires budget > 0 && LeastReady(plan, done, next)
    requires Greedy(plan, done + [next], budget - 1, started, exceeded, final)
    ensures Greedy(plan, done, budget, [next] + started, exceeded, final)
  {
    assert ([next] + started)[1..] == started;
  }

  /** The loop over an acyclic plan is greedy. */
  lemma {:induction false} LoopWork(
      plan: seq<Step>, rec: Record, env: Env, budget: nat, done: seq<nat>)
    requires UniqueIds(plan) && Resolved(plan) && Acyclic(plan) && AlwaysCompletes(env)
    requires InProgress(plan, rec.steps, done) && rec.run.status.RunRunning?
    ensures var trace := RunLoop(rec, env, budget);
            Greedy(plan, done, budget, trace.started, trace.exceeded, ApplyAll(rec, trace.log))
    decreases budget
  {
    if budget > 0 {
      if FirstReady(rec.steps, 0) == |rec.steps| {
        IdleWork(plan, rec, env, budget, done);
      } else {
        var i, writes, after, rest := LoopTurn(plan, rec, env, budget, done);
        LoopWork(plan, after, env, budget - 1, done + [i]);
        ApplyConcat(rec, writes, rest.log);
        GreedyCons(plan, done, budget, i, rest.started, rest.exceeded, ApplyAll(after, rest.log));
      }
    }
  }

  lemma IdleWork(plan: seq<Step>, rec: Record, env: Env, budget: nat, done: seq<nat>)
    requires Resolved(plan) && Acyclic(plan) && InProgress(plan, rec.steps, done)
    requires budget > 0 && FirstReady(rec.steps, 0) == |rec.steps|
    ensures var trace := RunLoop(rec, env, budget);
            Greedy(plan, done, budget, trace.started, trace.exceeded, ApplyAll(rec, trace.log))
  {
    IdleMeansDone(plan, rec.steps, done);
    Idle(rec, env, budget);
    CompleteGuarded(false, rec);
  }

  /** The first turn of a loop that still has a ready step. */
  lemma LoopTurn(plan: seq<Step>, rec: Record, env: Env, budget: nat, done: seq<nat>)
    returns (next: nat, writes: seq<Write>, after: Record, rest: LoopTrace)
    requires UniqueIds(plan) && AlwaysCompletes(env)
    requires InProgress(plan, rec.steps, done) && rec.run.status.RunRunning?
    requires budget > 0 && FirstReady(rec.steps, 0) < |rec.steps|
    ensures |done| < |plan| && LeastReady(plan, done, next)
    ensures after == ApplyAll(rec, writes) && after.run == rec.run && InProgress(plan, after.steps, done + [next])
    ensures rest == RunLoop(after, env, budget - 1)
    ensures RunLoop(rec, env, budget) == LoopTrace(writes + rest.log, [next] + rest.started, rest.exceeded)
  {
    next := FirstReady(rec.steps, 0);
    var execution := ExecutionOf(rec, env, next);
    writes := ExecuteWrites(rec, next, execution);
    after := ApplyAll(rec, writes);
    rest := RunLoop(after, env, budget - 1);
    CompletingExecution(rec, env, next);
    ReadyMeansMore(plan, rec.steps, done);
    ExecuteAdvances(plan, rec, done, next, execution);
    OneMoreTurn(rec, env, budget);
  }

  lemma CompletingExecution(rec: Record, env: Env, i: nat)
    requires AlwaysCompletes(env) && i < |rec.steps|
    ensures var finish := ExecutionOf(rec, env, i).finish;
            finish.Returned? && !finish.status.Waiting? && finish.nextSteps == []
  {
    assert env.executor(InputFor(rec, i)) == ExecutionOf(rec, env, i);
  }

  lemma ExecuteAdvances(plan: seq<Step>, rec: Record, done: seq<nat>, i: nat, execution: Execution)
    requires UniqueIds(plan) && InProgress(plan, rec.steps, done) && i < |rec.steps| && IsReady(rec.steps, i)
    requires execution.finish.Returned? && !execution.finish.status.Waiting? && execution.finish.nextSteps == []
    ensures var after := ApplyAll(rec, ExecuteWrites(rec, i, execution));
            InProgress(plan, after.steps, done + [i]) && after.run == rec.run
  {
    assert UniqueIds(rec.steps);
    ExecuteGuarded(false, rec, i, execution);
    OneMoreDone(plan, rec, done, i, execution.finish, ApplyAll(rec, ExecuteWrites(rec, i, execution)));
  }

  /** The planned record from which the loop of a fresh run starts. */
  function Prepared(rec: Record, plan: Plan): Record
    requires PrepareWrites(rec, plan).Some?
  {
    ApplyAll(rec, PrepareWrites(rec, plan).value)
  }

  lemma PrepareFresh(rec: Record, plan: Plan)
    requires FreshRun(rec) && plan.steps != []
    ensures PrepareWrites(rec, plan).Some?
    ensures Prepared(rec, plan).steps == NormalizeSteps(rec.run.id, 0, plan.steps)
    ensures Prepared(rec, plan).run == rec.run.(status := RunRunning)
  {
    var planning := PlanWrites(rec, plan);
    var planned := ApplyAll(rec, planning);
    QuietLog(false, Apply(rec, planning[0]), planning[1..]);
    NothingToRequeue(rec, planned.steps, 0);
    StartRunGuarded(false, rec, planned);
    var none: seq<Write> := [];
    assert none + StartRunWrites(rec) == StartRunWrites(rec);
    ApplyConcat(rec, planning, StartRunWrites(rec));
  }

  /** A fresh run over an acyclic plan of `n` steps whose dependencies resolve, with an executor that
      always completes: every step starts at most once, always the least ready one, after all the
      steps it depends on. The executor is called once for each step and the run completes, unless
      `n` reaches the limit: then it stops with an error after exactly `limit` calls, even when the
      last of them finished the plan. */
  lemma ExactWork(rec: Record, env: Env) returns (plan: seq<Step>, trace: LoopTrace, final: Record)
    requires FreshRun(rec) && env.plan.steps != [] && AlwaysCompletes(env)
    requires UniqueIds(NormalizeSteps(rec.run.id, 0, env.plan.steps))
    requires Resolved(NormalizeSteps(rec.run.id, 0, env.plan.steps))
    requires Acyclic(NormalizeSteps(rec.run.id, 0, env.plan.steps))
    ensures PrepareWrites(rec, env.plan).Some?
    ensures plan == NormalizeSteps(rec.run.id, 0, env.plan.steps)
    ensures trace == RunLoop(Prepared(rec, env.plan), env, env.Limit()) && final == ApplyAll(rec, RunWrites(rec, env))
    ensures NoDuplicates(trace.started)
    ensures |trace.started| == (if |plan| < env.Limit() then |plan| else env.Limit())
    ensures |plan| <= env.Limit() ==> forall i: nat | i < |plan| :: i in trace.started
    ensures forall k | 0 <= k < |trace.started| :: LeastReady(plan, trace.started[..k], trace.started[k])
    ensures trace.exceeded <==> |plan| >= env.Limit()
    ensures if trace.exceeded then final.run.status.RunRunning?
            else final.run.status.RunCompleted? && AllCompleted(final.steps)
    ensures InProgress(plan, final.steps, trace.started)
    ensures |plan| == env.Limit() ==> AllCompleted(final.steps)
  {
    plan, trace, final := FromPrepared(rec, env);
    LoopWork(plan, Prepared(rec, env.plan), env, env.Limit(), []);
    WorkFromStart(plan, env.Limit(), trace.started, trace.exceeded, final);
  }

  lemma FromPrepared(rec: Record, env: Env) returns (plan: seq<Step>, trace: LoopTrace, final: Record)
    requires FreshRun(rec) && env.plan.steps != []
    ensures plan == NormalizeSteps(rec.run.id, 0, env.plan.steps) && PrepareWrites(rec, env.plan).Some?
    ensures InProgress(plan, Prepared(rec, env.plan).steps, []) && Prepared(rec, env.plan).run.status.RunRunning?
    ensures trace == RunLoop(Prepared(rec, env.plan), env, env.Limit())
    ensures final == ApplyAll(rec, RunWrites(rec, env)) == ApplyAll(Prepared(rec, env.plan), trace.log)
  {
    plan := NormalizeSteps(rec.run.id, 0, env.plan.steps);
    PrepareFresh(rec, env.plan);
    trace := RunLoop(Prepared(rec, env.plan), env, env.Limit());
    ApplyConcat(rec, PrepareWrites(rec, env.plan).value, trace.log);
    final := ApplyAll(rec, RunWrites(rec, env));
  }

  lemma WorkFromStart(plan: seq<Step>, budget: nat, started: seq<nat>, exceeded: bool, final: Record)
    requires Greedy(plan, [], budget, started, exceeded, final)
    ensures exceeded <==> |plan| >= budget
    ensures if exceeded then final.run.status.RunRunning?
            else final.run.status.RunCompleted? && AllCompleted(final.steps)
    ensures |plan| == budget ==> AllCompleted(final.steps)
    ensures NoDuplicates(started) && |started| == (if |plan| < budget then |plan| else budget)
    ensures |plan| <= budget ==> forall i: nat | i < |plan| :: i in started
    ensures forall k | 0 <= k < |started| :: LeastReady(plan, started[..k], started[k])
    ensures InProgress(plan, final.steps, started)
  {
    forall k | 0 <= k < |started|
      ensures LeastReady(plan, started[..k], started[k]) && forall a | 0 <= a < k :: started[a] != started[k]
    {
      GreedyAt(plan, [], budget, started, exceeded, final, k);
      assert [] + started[..k] == started[..k];
      assert forall a | 0 <= a < k :: started[a] in started[..k];
    }
    GreedyEnds(plan, [], budget, started, exceeded, final);
    assert [] + started == started;
    DistinctBounded(started, |plan|);
    DistinctCover(started, |plan|);
  }
}
