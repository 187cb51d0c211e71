/** The discipline of single store writes, and that every manager operation keeps it at every
    write, so also when a crash cuts the operation short. */
module AutonomousProtocol {
  import opened Wrappers
  import opened Autonomous
  import opened AutonomousOperations
  import opened PlanGraph

  // ---------------------------------------------------------------- legal writes

  predicate Moves(from: StepStatus, to: StepStatus) {
    match to
    case Pending => from.Running? || from.Failed?
    case Running => from.Pending?
    case Waiting => from.Running?
    case Completed => from.Running? || from.Waiting?
    case Failed => from.Running?
    case Cancelled => IsOpen(from)
    case Skipped => false
  }

  /** A step is started only when all its dependencies are completed, and each start counts. */
  predicate LegalPatch(steps: seq<Step>, i: nat, p: StepPatch)
    requires i < |steps|
  {
    && p.status.Some? && Moves(steps[i].status, p.status.value)
    && p.dependsOn.None?
    && (p.status.value.Running? ==> DependenciesCompleted(steps, steps[i]))
    && p.attempts == (if p.status.value.Running? then Some(steps[i].attempts + 1) else None)
  }

  ghost predicate NothingToDo(steps: seq<Step>) {
    !AnyWaiting(steps) && forall i | 0 <= i < |steps| :: !IsReady(steps, i)
  }

  ghost predicate Legal(rec: Record, w: Write) {
    match w
    case UpdateRun(p) => p.status == Some(RunCompleted) ==> NothingToDo(rec.steps)
    case ReplaceSteps(_) => true
    case AppendSteps(_) => true
    case UpdateStep(id, p) =>
      var i := IndexOf(rec.steps, id);
      i < |rec.steps| && LegalPatch(rec.steps, i, p)
    case AppendEvent(_) => true
    case AppendCheckpoint(_) => true
  }

  ghost predicate NoneRunningOrFailed(steps: seq<Step>) {
    forall i | 0 <= i < |steps| :: !steps[i].status.Running? && !steps[i].status.Failed?
  }

  /** What holds in addition when nobody cancels and failed steps are always retried first: a step
      starts only when none runs or has failed, a run completes only when it is settled, and a
      completed run is left alone. */
  ghost predicate LegalForDriver(rec: Record, w: Write) {
    match w
    case UpdateRun(p) =>
      && !rec.run.status.RunCompleted? && p.status.Some? && !p.status.value.RunCancelled?
      && (p.status == Some(RunCompleted) ==> Settled(rec.steps))
    case ReplaceSteps(_) => !rec.run.status.RunCompleted?
    case AppendSteps(_) => !rec.run.status.RunCompleted?
    case UpdateStep(id, p) =>
      && !rec.run.status.RunCompleted?
      && p.status != Some(Cancelled)
      && (p.status == Some(Running) ==> NoneRunningOrFailed(rec.steps))
    case AppendEvent(_) => true
    case AppendCheckpoint(_) => true
  }

  /** Step ids are assumed to be unique; the store does not enforce it. A plan is written only once. */
  ghost predicate Guarded(driver: bool, rec: Record, w: Write) {
    && (w.ReplaceSteps? ==> rec.steps == [])
    && (UniqueIds(rec.steps) ==> Legal(rec, w) && (driver ==> LegalForDriver(rec, w)))
  }

  ghost predicate GuardedAll(driver: bool, rec: Record, log: seq<Write>)
    decreases |log|
  {
    log != [] ==> Guarded(driver, rec, log[0]) && GuardedAll(driver, Apply(rec, log[0]), log[1..])
  }

  // ---------------------------------------------------------------- putting logs together

  lemma {:induction false} GuardedConcat(driver: bool, rec: Record, a: seq<Write>, b: seq<Write>)
    requires GuardedAll(driver, rec, a) && GuardedAll(driver, ApplyAll(rec, a), b)
    ensures GuardedAll(driver, rec, a + b) && ApplyAll(rec, a + b) == ApplyAll(ApplyAll(rec, a), b)
    decreases |a|
  {
    if a == [] {
      assert a + b == b;
    } else {
      GuardedConcat(driver, Apply(rec, a[0]), a[1..], b);
      assert (a + b)[1..] == a[1..] + b;
    }
  }

  lemma {:induction false} GuardedPrefix(driver: bool, rec: Record, log: seq<Write>, cut: nat)
    requires GuardedAll(driver, rec, log) && cut <= |log|
    ensures GuardedAll(driver, rec, log[..cut])
    decreases |log|
  {
    if cut > 0 {
      GuardedPrefix(driver, Apply(rec, log[0]), log[1..], cut - 1);
      assert log[..cut][1..] == log[1..][..cut - 1];
    }
  }

  lemma GuardedOne(driver: bool, rec: Record, w: Write)
    requires Guarded(driver, rec, w)
    ensures GuardedAll(driver, rec, [w]) && ApplyAll(rec, [w]) == Apply(rec, w)
  {
    assert [w][1..] == [];
    assert GuardedAll(driver, Apply(rec, w), []);
  }

  /** Events and checkpoints are always allowed and leave run and steps alone. */
  predicate Quiet(w: Write) {
    w.AppendEvent? || w.AppendCheckpoint?
  }

  function EventIn(w: Write): seq<Event> {
    if w.AppendEvent? then [w.event] else []
  }

  function EventsOf(log: seq<Write>): seq<Event> {
    if log == [] then []
    else EventIn(log[0]) + EventsOf(log[1..])
  }

  lemma {:induction false} QuietLog(driver: bool, rec: Record, log: seq<Write>)
    requires forall k | 0 <= k < |log| :: Quiet(log[k])
    ensures GuardedAll(driver, rec, log)
    ensures ApplyAll(rec, log).run == rec.run && ApplyAll(rec, log).steps == rec.steps
    decreases |log|
  {
    if log != [] {
      QuietLog(driver, Apply(rec, log[0]), log[1..]);
    }
  }

  lemma {:induction false} EventsAppended(rec: Record, log: seq<Write>)
    ensures ApplyAll(rec, log).events == rec.events + EventsOf(log)
    decreases |log|
  {
    if log != [] {
      EventOfWrite(rec, log[0]);
      EventsAppended(Apply(rec, log[0]), log[1..]);
      EventsConcat([log[0]], log[1..]);
      assert [log[0]] + log[1..] == log;
    }
  }

  lemma EventOfWrite(rec: Record, w: Write)
    ensures Apply(rec, w).events == rec.events + EventsOf([w])
  {
    assert EventsOf([w][1..]) == [];
  }

  lemma SameGrouping<T>(a: seq<T>, b: seq<T>, c: seq<T>)
    ensures a + (b + c) == (a + b) + c
  {
  }

  lemma {:induction false} EventsConcat(a: seq<Write>, b: seq<Write>)
    ensures EventsOf(a + b) == EventsOf(a) + EventsOf(b)
  {
    if a == [] {
      assert a + b == b;
    } else {
      EventsConcat(a[1..], b);
      assert (a + b)[1..] == a[1..] + b && (a + b)[0] == a[0];
      SameGrouping(EventIn(a[0]), EventsOf(a[1..]), EventsOf(b));
    }
  }

  // ---------------------------------------------------------------- ids

  /** The earlier steps are still there, with the same ids. */
  ghost predicate SameIds(s: seq<Step>, t: seq<Step>) {
    |s| <= |t| && forall i | 0 <= i < |s| :: s[i].id == t[i].id
  }

  predicate NoReplace(log: seq<Write>) {
    forall w | w in log :: !w.ReplaceSteps?
  }

  lemma {:induction false} IdsKept(rec: Record, log: seq<Write>)
    requires NoReplace(log)
    ensures SameIds(rec.steps, ApplyAll(rec, log).steps)
    decreases |log|
  {
    if log != [] {
      IdsKept(Apply(rec, log[0]), log[1..]);
    }
  }

  /** Duplicates never go away, so there is nothing to show once there are any. */
  lemma {:induction false} DuplicatesStay(driver: bool, rec: Record, log: seq<Write>)
    requires !UniqueIds(rec.steps) && NoReplace(log)
    ensures GuardedAll(driver, rec, log)
    decreases |log|
  {
    if log != [] {
      var next := Apply(rec, log[0]);
      IdsKept(rec, [log[0]]);
      assert ApplyAll(rec, [log[0]]) == next by {
        assert [log[0]][1..] == [];
      }
      var i, j :| 0 <= i < j < |rec.steps| && rec.steps[i].id == rec.steps[j].id;
      assert next.steps[i].id == next.steps[j].id;
      DuplicatesStay(driver, next, log[1..]);
    }
  }

  lemma DuplicatesKept(rec: Record, log: seq<Write>)
    requires !UniqueIds(rec.steps) && NoReplace(log)
    ensures !UniqueIds(ApplyAll(rec, log).steps)
  {
    IdsKept(rec, log);
    var i, j :| 0 <= i < j < |rec.steps| && rec.steps[i].id == rec.steps[j].id;
    assert ApplyAll(rec, log).steps[i].id == ApplyAll(rec, log).steps[j].id;
  }

  lemma OwnIndex(steps: seq<Step>, i: nat)
    requires UniqueIds(steps) && i < |steps|
    ensures IndexOf(steps, steps[i].id) == i
  {
  }
}
