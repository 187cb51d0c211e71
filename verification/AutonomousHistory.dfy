/** Whole histories of a run: any operations, any planner and executor answers, each operation cut by
    a crash after any of its writes and followed by the next one. */
module AutonomousHistory {
  import opened Wrappers
  import opened Autonomous
  import opened AutonomousOperations
  import opened AutonomousProtocol
  import opened AutonomousGuards
  import opened PlanGraph

  /** One manager call of which only the first `cut` writes reached the store. */
  datatype Session = Session(op: Op, env: Env, cut: nat)

  function SessionWrites(rec: Record, s: Session): seq<Write> {
    var log := OpWrites(rec, s.op, s.env);
    if s.cut < |log| then log[..s.cut] else log
  }

  /** All the writes of a history, in order. */
  function History(rec: Record, sessions: seq<Session>): seq<Write>
    decreases |sessions|
  {
    if sessions == [] then []
    else
      var log := SessionWrites(rec, sessions[0]);
      log + History(ApplyAll(rec, log), sessions[1..])
  }

  function StateAt(rec: Record, log: seq<Write>, k: nat): Record
    requires k <= |log|
  {
    ApplyAll(rec, log[..k])
  }

  lemma {:induction false} HistoryGuarded(rec: Record, sessions: seq<Session>)
    ensures GuardedAll(false, rec, History(rec, sessions))
    decreases |sessions|
  {
    if sessions != [] {
      var s := sessions[0];
      OperationGuarded(rec, s.op, s.env);
      var log := SessionWrites(rec, s);
      if s.cut < |OpWrites(rec, s.op, s.env)| {
        GuardedPrefix(false, rec, OpWrites(rec, s.op, s.env), s.cut);
      }
      HistoryGuarded(ApplyAll(rec, log), sessions[1..]);
      GuardedConcat(false, rec, log, History(ApplyAll(rec, log), sessions[1..]));
    }
  }

  // ---------------------------------------------------------------- along a guarded log

  lemma {:induction false} GuardedAt(driver: bool, rec: Record, log: seq<Write>, k: nat)
    requires GuardedAll(driver, rec, log) && k < |log|
    ensures Guarded(driver, StateAt(rec, log, k), log[k])
    ensures StateAt(rec, log, k + 1) == Apply(StateAt(rec, log, k), log[k])
    decreases |log|
  {
    if k == 0 {
      assert log[..0] == [] && log[..1] == [log[0]];
      GuardedOne(driver, rec, log[0]);
    } else {
      GuardedAt(driver, Apply(rec, log[0]), log[1..], k - 1);
      assert log[..k][1..] == log[1..][..k - 1] && log[..k + 1][1..] == log[1..][..k];
    }
  }

  /** Whatever a guarded write does, the earlier steps keep their ids. */
  lemma GuardedKeepsIds(driver: bool, rec: Record, w: Write)
    requires Guarded(driver, rec, w)
    ensures SameIds(rec.steps, Apply(rec, w).steps)
  {
  }

  /** If the ids are unique at the end of a history, they always were. */
  lemma {:induction false} UniqueBefore(driver: bool, rec: Record, log: seq<Write>, k: nat)
    requires GuardedAll(driver, rec, log) && k <= |log| && UniqueIds(ApplyAll(rec, log).steps)
    ensures UniqueIds(StateAt(rec, log, k).steps)
    decreases |log| - k
  {
    if k == |log| {
      assert log[..k] == log;
    } else {
      UniqueBefore(driver, rec, log, k + 1);
      GuardedAt(driver, rec, log, k);
      GuardedKeepsIds(driver, StateAt(rec, log, k), log[k]);
    }
  }

  /** How the steps of a run may change over time. */
  ghost predicate Evolves(s: seq<Step>, t: seq<Step>) {
    && |s| <= |t|
    && forall i | 0 <= i < |s| ::
         && t[i].id == s[i].id && t[i].index == s[i].index && t[i].dependsOn == s[i].dependsOn
         && s[i].attempts <= t[i].attempts
         && (s[i].status.Completed? ==> t[i].status.Completed?)
         && (s[i].status.Cancelled? ==> t[i].status.Cancelled?)
  }

  lemma LegalEvolves(driver: bool, rec: Record, w: Write)
    requires Guarded(driver, rec, w) && UniqueIds(rec.steps)
    ensures Evolves(rec.steps, Apply(rec, w).steps)
  {
  }

  lemma {:induction false} EvolvesBetween(driver: bool, rec: Record, log: seq<Write>, i: nat, j: nat)
    requires GuardedAll(driver, rec, log) && i <= j <= |log| && UniqueIds(ApplyAll(rec, log).steps)
    ensures Evolves(StateAt(rec, log, i).steps, StateAt(rec, log, j).steps)
    decreases j - i
  {
    if i < j {
      EvolvesBetween(driver, rec, log, i, j - 1);
      UniqueBefore(driver, rec, log, j - 1);
      GuardedAt(driver, rec, log, j - 1);
      LegalEvolves(driver, StateAt(rec, log, j - 1), log[j - 1]);
    }
  }

  // ---------------------------------------------------------------- dependency safety

  /** The write that starts a step. */
  predicate IsStart(w: Write) {
    w.UpdateStep? && w.stepPatch.status == Some(Running)
  }

  /** In every history a step is started only while every id it depends on names a completed step, and
      those steps are still completed at every later moment. */
  lemma StartsAreSafe(rec: Record, sessions: seq<Session>, k: nat, later: nat)
    requires k < later <= |History(rec, sessions)| && IsStart(History(rec, sessions)[k])
    requires UniqueIds(ApplyAll(rec, History(rec, sessions)).steps)
    ensures var log := History(rec, sessions);
            var before, after := StateAt(rec, log, k).steps, StateAt(rec, log, later).steps;
            var i := IndexOf(before, log[k].stepId);
            && i < |before| && IsReady(before, i)
            && forall d | 0 <= d < |before[i].dependsOn| ::
                 var j := IndexOf(before, before[i].dependsOn[d]);
                 j < |before| && j < |after| && after[j].id == before[i].dependsOn[d]
                 && before[j].status.Completed? && after[j].status.Completed?
  {
    var log := History(rec, sessions);
    HistoryGuarded(rec, sessions);
    UniqueBefore(false, rec, log, k);
    GuardedAt(false, rec, log, k);
    EvolvesBetween(false, rec, log, k, later);
    var before, after := StateAt(rec, log, k).steps, StateAt(rec, log, later).steps;
    var i := IndexOf(before, log[k].stepId);
    forall d | 0 <= d < |before[i].dependsOn|
      ensures var j := IndexOf(before, before[i].dependsOn[d]);
              j < |before| && j < |after| && after[j].id == before[i].dependsOn[d]
              && before[j].status.Completed? && after[j].status.Completed?
    {
      assert IdCompleted(before, before[i].dependsOn[d]);
    }
  }

  /** In every history a completed step stays completed, and no step changes its id, its position or
      its dependencies. */
  lemma CompletedForever(rec: Record, sessions: seq<Session>, i: nat, j: nat)
    requires i <= j <= |History(rec, sessions)|
    requires UniqueIds(ApplyAll(rec, History(rec, sessions)).steps)
    ensures Evolves(StateAt(rec, History(rec, sessions), i).steps, StateAt(rec, History(rec, sessions), j).steps)
  {
    HistoryGuarded(rec, sessions);
    EvolvesBetween(false, rec, History(rec, sessions), i, j);
  }

  lemma {:induction false} NothingToRequeue(rec: Record, steps: seq<Step>, k: nat)
    requires k <= |steps| && forall i | 0 <= i < |steps| :: !steps[i].status.Running?
    ensures SweepWrites(rec, Requeue, steps, k) == []
    decreases |steps| - k
  {
    if k < |steps| {
      NothingToRequeue(rec, steps, k + 1);
    }
  }

  /** Preparing a planned run in which nothing was interrupted only marks it as running. */
  lemma PrepareQuietly(rec: Record, plan: Plan)
    requires rec.run.status != RunCompleted && rec.run.status != RunCancelled
    requires rec.steps != [] && forall i | 0 <= i < |rec.steps| :: !rec.steps[i].status.Running?
    ensures PrepareWrites(rec, plan) == Some(StartRunWrites(rec))
    ensures var started := ApplyAll(rec, StartRunWrites(rec));
            started.steps == rec.steps && started.run == rec.run.(status := RunRunning)
  {
    NothingToRequeue(rec, rec.steps, 0);
    StartRunGuarded(false, rec, rec);
    var none: seq<Write> := [];
    assert none + (none + StartRunWrites(rec)) == StartRunWrites(rec);
  }

  lemma GuardedOneWrite(rec: Record, w: Write)
    ensures ApplyAll(rec, [w]) == Apply(rec, w)
  {
    assert [w][1..] == [];
  }

  // ---------------------------------------------------------------- completion soundness

  /** The calls of a careful driver: plan or run while nothing is broken, then resume with retry and
      complete waiting steps. Planning again does nothing. */
  ghost predicate DriverSession(rec: Record, s: Session) {
    || s.op == OpResume(true)
    || s.op.OpCompleteWaiting?
    || (s.op.OpRun? && DriverStart(rec))
    || (s.op.OpPlan? && (rec.steps != [] || DriverStart(rec)))
  }

  ghost predicate DriverSessions(rec: Record, sessions: seq<Session>)
    decreases |sessions|
  {
    sessions != [] ==>
      DriverSession(rec, sessions[0]) && DriverSessions(ApplyAll(rec, SessionWrites(rec, sessions[0])), sessions[1..])
  }

  lemma SettledStays(rec: Record, w: Write)
    requires UniqueIds(rec.steps) && DriverInv(rec) && Guarded(true, rec, w)
    ensures DriverInv(Apply(rec, w))
  {
    if w.UpdateStep? {
      PatchStays(rec, w);
    }
  }

  lemma PatchStays(rec: Record, w: Write)
    requires w.UpdateStep? && UniqueIds(rec.steps) && DriverInv(rec) && Guarded(true, rec, w)
    ensures DriverInv(Apply(rec, w))
  {
  }

  lemma {:induction false} DriverInvAlong(rec: Record, log: seq<Write>)
    requires DriverInv(rec) && GuardedAll(true, rec, log) && UniqueIds(ApplyAll(rec, log).steps)
    ensures DriverInv(ApplyAll(rec, log))
    decreases |log|
  {
    if log != [] {
      UniqueBefore(true, rec, log, 0);
      assert StateAt(rec, log, 0) == rec;
      SettledStays(rec, log[0]);
      DriverInvAlong(Apply(rec, log[0]), log[1..]);
    }
  }

  lemma DriverSessionGuarded(rec: Record, s: Session)
    requires DriverSession(rec, s) && (UniqueIds(rec.steps) ==> DriverInv(rec))
    ensures GuardedAll(true, rec, SessionWrites(rec, s))
  {
    match s.op {
      case OpResume(_) => ResumeGuarded(true, rec, true, s.env);
      case OpCompleteWaiting(stepId, output) => CompleteWaitingGuarded(true, rec, stepId, output);
      case OpRun => RunGuarded(true, rec, s.env);
      case OpPlan =>
        if rec.steps == [] {
          PlanGuarded(true, rec, s.env.plan);
        }
      case OpCancel(_) =>
    }
    if s.cut < |OpWrites(rec, s.op, s.env)| {
      GuardedPrefix(true, rec, OpWrites(rec, s.op, s.env), s.cut);
    }
  }

  lemma {:induction false} DriverHistory(rec: Record, sessions: seq<Session>)
    requires DriverInv(rec) && DriverSessions(rec, sessions)
    requires UniqueIds(ApplyAll(rec, History(rec, sessions)).steps)
    ensures DriverInv(ApplyAll(rec, History(rec, sessions)))
    decreases |sessions|
  {
    if sessions != [] {
      var log := SessionWrites(rec, sessions[0]);
      var next := ApplyAll(rec, log);
      var rest := History(next, sessions[1..]);
      ApplyConcat(rec, log, rest);
      DriverSessionGuarded(rec, sessions[0]);
      HistoryGuarded(next, sessions[1..]);
      UniqueBefore(false, next, rest, 0);
      assert StateAt(next, rest, 0) == next;
      DriverInvAlong(rec, log);
      DriverHistory(next, sessions[1..]);
    }
  }

  ghost predicate FreshRun(rec: Record) {
    rec.steps == [] && rec.run.status.RunQueued?
  }

  /** A run that a careful driver brings to completion, across any number of crashes, is settled: every
      step that is not completed leads through unmet dependencies to a missing id or a cycle. */
  lemma CompletionIsSound(rec: Record, sessions: seq<Session>)
    requires FreshRun(rec) && DriverSessions(rec, sessions)
    requires UniqueIds(ApplyAll(rec, History(rec, sessions)).steps)
    requires ApplyAll(rec, History(rec, sessions)).run.status.RunCompleted?
    ensures var steps := ApplyAll(rec, History(rec, sessions)).steps;
            && Settled(steps)
            && (forall i | 0 <= i < |steps| && !steps[i].status.Completed? :: exists p :: Stuck(steps, p) && p[0] == i)
            && (Resolved(steps) && Acyclic(steps) ==> AllCompleted(steps))
  {
    DriverHistory(rec, sessions);
    var steps := ApplyAll(rec, History(rec, sessions)).steps;
    forall i | 0 <= i < |steps| && !steps[i].status.Completed? ensures exists p :: Stuck(steps, p) && p[0] == i {
      var p := PendingMeansStuck(steps, i);
    }
    if Resolved(steps) && Acyclic(steps) {
      SettledIsCompleted(steps);
    }
  }
}
