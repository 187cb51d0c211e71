/** The store of autonomous runs in memory: four tables that its methods update in place. */
module AutonomousStore {
  import opened Wrappers
  import opened Values
  import opened Autonomous
  import opened KeyOrder

  datatype Failure =
    | RunExists(runId: string)
    | RunNotFound(runId: string)
    | StepNotFound(stepId: string)
    | StepNotWaiting(stepId: string)
    | EmptyPlan
    | LimitExceeded(limit: nat)

  function NewRun(id: string, goal: string, input: Value, metadata: Value): Run {
    Run(id, goal, input, RunQueued, Null, "", metadata.ObjectOrEmpty())
  }

  function Listed<T>(table: map<string, seq<T>>, key: string): seq<T> {
    if key in table then table[key] else []
  }

  /** The four tables. A run without an entry in the last three has an empty list there. */
  datatype Tables = Tables(
    runs: map<string, Run>, steps: map<string, seq<Step>>, events: map<string, seq<Event>>,
    checkpoints: map<string, seq<Checkpoint>>)
  {
    /** Everything the store can be asked about its runs. */
    function Records(): map<string, Record> {
      map id | id in runs :: RecordAt(id)
    }

    function RecordAt(id: string): Record
      requires id in runs
    {
      Record(runs[id], Listed(steps, id), Listed(events, id), Listed(checkpoints, id))
    }

    /** Runs are filed under their own id, lists belong to runs, and metadata are objects. */
    ghost predicate Valid() {
      && (forall id | id in runs :: runs[id].id == id && runs[id].metadata.Obj?)
      && steps.Keys <= runs.Keys && events.Keys <= runs.Keys && checkpoints.Keys <= runs.Keys
      && forall id | id in steps :: ObjectsOnly(steps[id])
    }
  }

  predicate ObjectsOnly(steps: seq<Step>) {
    forall k | 0 <= k < |steps| :: steps[k].metadata.Obj?
  }

  datatype RunFilter = RunFilter(status: Option<RunStatus>, metadata: Value)
  {
    /** A filter that is no object matches everything. */
    predicate Matches(run: Run) {
      && (status.Some? ==> run.status == status.value)
      && (metadata.Obj? ==>
            forall key | key in metadata.fields ::
              run.metadata.Contains(key) && run.metadata.fields[key] == metadata.fields[key])
    }
  }

  /** The runs of these records that match, each once, in the order of their ids. */
  ghost predicate ListsMatching(listed: seq<Run>, records: map<string, Record>, filter: RunFilter) {
    && (forall i, j | 0 <= i < j < |listed| :: Before(listed[i].id, listed[j].id))
    && (forall run :: run in listed <==> exists id :: id in records && run == records[id].run && filter.Matches(run))
  }

  /** The listing once all runs but those left have been looked at. */
  ghost predicate ListedSoFar(listed: seq<Run>, runs: map<string, Run>, left: set<string>, filter: RunFilter) {
    && left <= runs.Keys
    && (forall k | 0 <= k < |listed| ::
          && listed[k].id in runs && listed[k] == runs[listed[k].id] && listed[k].id !in left
          && filter.Matches(listed[k]))
    && (forall i, j | 0 <= i < j < |listed| :: Before(listed[i].id, listed[j].id))
    && (forall k, id | 0 <= k < |listed| && id in left :: Before(listed[k].id, id))
    && forall id | id in runs && id !in left && filter.Matches(runs[id]) :: runs[id] in listed
  }

  lemma ListedNext(listed: seq<Run>, runs: map<string, Run>, left: set<string>, filter: RunFilter, id: string)
    requires ListedSoFar(listed, runs, left, filter) && (forall key | key in runs :: runs[key].id == key)
    requires id in left && forall key | key in left && key != id :: Before(id, key)
    ensures var more := if filter.Matches(runs[id]) then listed + [runs[id]] else listed;
            ListedSoFar(more, runs, left - {id}, filter)
  {
  }

  lemma ListedAll(listed: seq<Run>, t: Tables, filter: RunFilter)
    requires ListedSoFar(listed, t.runs, {}, filter) && t.Valid()
    ensures ListsMatching(listed, t.Records(), filter)
  {
    forall run
      ensures run in listed <==> exists id :: id in t.Records() && run == t.Records()[id].run && filter.Matches(run)
    {
      if run in listed {
        assert run.id in t.Records() && t.Records()[run.id].run == run;
      }
      if id :| id in t.Records() && run == t.Records()[id].run && filter.Matches(run) {
        assert t.runs[id] in listed;
      }
    }
  }

  /** A write together with the run it was made to. */
  datatype Entry = Entry(runId: string, write: Write)

  function Entries(runId: string, writes: seq<Write>): seq<Entry> {
    seq(|writes|, k requires 0 <= k < |writes| => Entry(runId, writes[k]))
  }

  /** What a store holds, and every write made to it so far. */
  datatype State = State(records: map<string, Record>, log: seq<Entry>)
  {
    /** The state after these writes to one run; other runs are as before. */
    function After(runId: string, writes: seq<Write>): State
      requires runId in records
    {
      State(records[runId := ApplyAll(records[runId], writes)], log + Entries(runId, writes))
    }
  }

  lemma AfterNothing(s: State, runId: string)
    requires runId in s.records
    ensures s.After(runId, []) == s
  {
    assert s.log + Entries(runId, []) == s.log;
    assert s.records[runId := s.records[runId]] == s.records;
  }

  lemma AfterConcat(s: State, runId: string, a: seq<Write>, b: seq<Write>)
    requires runId in s.records
    ensures s.After(runId, a).After(runId, b) == s.After(runId, a + b)
  {
    ApplyConcat(s.records[runId], a, b);
    assert Entries(runId, a + b) == Entries(runId, a) + Entries(runId, b);
    assert (s.log + Entries(runId, a)) + Entries(runId, b) == s.log + Entries(runId, a + b);
    var end := ApplyAll(s.records[runId], a + b);
    assert s.records[runId := ApplyAll(s.records[runId], a)][runId := end] == s.records[runId := end];
  }

  lemma AfterOne(s: State, runId: string, w: Write)
    requires runId in s.records
    ensures s.After(runId, [w]) == State(s.records[runId := Apply(s.records[runId], w)], s.log + [Entry(runId, w)])
  {
    assert ApplyAll(s.records[runId], [w]) == ApplyAll(Apply(s.records[runId], w), [w][1..]);
    assert [w][1..] == [];
    assert Entries(runId, [w]) == [Entry(runId, w)];
  }

  /** Setting the entries of one run. */
  function Put(t: Tables, id: string, rec: Record): Tables {
    Tables(t.runs[id := rec.run], t.steps[id := rec.steps], t.events[id := rec.events],
           t.checkpoints[id := rec.checkpoints])
  }

  lemma PutRecords(t: Tables, id: string, rec: Record)
    ensures Put(t, id, rec).Records() == t.Records()[id := rec]
  {
    var put := Put(t, id, rec);
    assert put.RecordAt(id) == rec;
    forall key | key in t.runs && key != id ensures put.RecordAt(key) == t.RecordAt(key) {
    }
  }

  lemma PutValid(t: Tables, id: string, rec: Record)
    requires t.Valid() && rec.run.id == id && rec.run.metadata.Obj? && ObjectsOnly(rec.steps)
    ensures Put(t, id, rec).Valid()
  {
  }

  /** The lists that an answer leaves behind say what was there before. */
  lemma PutSame(t: Tables, id: string)
    requires t.Valid() && id in t.runs
    ensures Put(t, id, t.RecordAt(id)).Valid() && Put(t, id, t.RecordAt(id)).Records() == t.Records()
  {
    PutRecords(t, id, t.RecordAt(id));
    PutValid(t, id, t.RecordAt(id));
  }

  lemma PutSteps(t: Tables, id: string, list: seq<Step>)
    requires t.Valid() && id in t.runs && ObjectsOnly(list)
    ensures var put := t.(steps := t.steps[id := list]);
            put.Valid() && put.Records() == t.Records()[id := t.RecordAt(id).(steps := list)]
  {
  }

  lemma AfterPatch(s: State, id: string, stepId: string, p: StepPatch)
    requires id in s.records && IndexOf(s.records[id].steps, stepId) < |s.records[id].steps|
    ensures var steps, i := s.records[id].steps, IndexOf(s.records[id].steps, stepId);
            s.After(id, [UpdateStep(stepId, p)])
            == State(s.records[id := s.records[id].(steps := steps[i := PatchStep(steps[i], p)])],
                     s.log + [Entry(id, UpdateStep(stepId, p))])
  {
    AfterOne(s, id, UpdateStep(stepId, p));
  }

  /** Every key of the filter has to be there with the filter's value. */
  method MetadataMatches(metadata: Value, filter: Value) returns (matches: bool)
    ensures matches <==> (filter.Obj? ==> forall key | key in filter.fields ::
                            metadata.Contains(key) && metadata.fields[key] == filter.fields[key])
  {
    if !filter.Obj? {
      return true;
    }
    var left := filter.fields.Keys;
    while left != {}
      invariant left <= filter.fields.Keys
      invariant forall key | key in filter.fields && key !in left ::
                  metadata.Contains(key) && metadata.fields[key] == filter.fields[key]
      decreases |left|
    {
      var key :| key in left;
      if !metadata.Obj? || key !in metadata.fields || metadata.fields[key] != filter.fields[key] {
        return false;
      }
      left := left - {key};
    }
    matches := true;
  }

  /** Sets the fields that the patch brings. */
  method PatchedRun(before: Run, p: RunPatch) returns (run: Run)
    ensures run == PatchRun(before, p)
  {
    run := before.(status := if p.status.Some? then p.status.value else before.status,
                   output := if p.output.Some? then p.output.value else before.output,
                   error := if p.error.Some? then p.error.value else before.error,
                   goal := if p.goal.Some? then p.goal.value else before.goal,
                   input := if p.input.Some? then p.input.value else before.input);
    if p.metadata.Some? {
      run := run.(metadata := if p.metadata.value.Obj? then p.metadata.value else Obj(map[]));
    }
  }

  method PatchedProgress(before: Step, p: StepPatch) returns (step: Step)
    ensures step == before.(status := step.status, attempts := step.attempts, output := step.output,
                            error := step.error, waitReason := step.waitReason)
    ensures step.status == p.status.GetOr(before.status) && step.attempts == p.attempts.GetOr(before.attempts)
    ensures step.output == p.output.GetOr(before.output) && step.error == p.error.GetOr(before.error)
    ensures step.waitReason == p.waitReason.GetOr(before.waitReason)
  {
    step := before.(status := if p.status.Some? then p.status.value else before.status,
                    attempts := if p.attempts.Some? then p.attempts.value else before.attempts,
                    output := if p.output.Some? then p.output.value else before.output,
                    error := if p.error.Some? then p.error.value else before.error,
                    waitReason := if p.waitReason.Some? then p.waitReason.value else before.waitReason);
  }

  method PatchedStep(before: Step, p: StepPatch) returns (step: Step)
    ensures step == PatchStep(before, p)
  {
    step := PatchedProgress(before, p);
    step := step.(title := if p.title.Some? then p.title.value else step.title,
                  objective := if p.objective.Some? then p.objective.value else step.objective,
                  input := if p.input.Some? then p.input.value else step.input,
                  dependsOn := if p.dependsOn.Some? then p.dependsOn.value else step.dependsOn);
    if p.metadata.Some? {
      step := step.(metadata := if p.metadata.value.Obj? then p.metadata.value else Obj(map[]));
    }
  }

  class InMemoryAutonomousStore {
    var runs: map<string, Run>
    var steps: map<string, seq<Step>>
    var events: map<string, seq<Event>>
    var checkpoints: map<string, seq<Checkpoint>>
    ghost var log: seq<Entry>

    ghost function Now(): Tables
      reads this
    {
      Tables(runs, steps, events, checkpoints)
    }

    ghost predicate Valid()
      reads this
    {
      Now().Valid()
    }

    ghost function View(): State
      reads this
    {
      State(Now().Records(), log)
    }

    constructor ()
      ensures Valid() && View() == State(map[], [])
    {
      runs, steps, events, checkpoints := map[], map[], map[], map[];
      log := [];
    }

    method CreateRun(id: string, goal: string, input: Value, metadata: Value) returns (r: Result<Run, Failure>)
      requires Valid()
      modifies this
      ensures Valid()
      ensures r.Err? <==> id in old(runs)
      ensures r.Err? ==> r.error == RunExists(id) && View() == old(View())
      ensures r.Ok? ==>
                && r.value == NewRun(id, goal, input, metadata)
                && View() == State(old(View()).records[id := Record(r.value, [], [], [])], old(log))
    {
      if id in runs {
        return Err(RunExists(id));
      }
      var run := Run(id, goal, input, RunQueued, Null, "", if metadata.Obj? then metadata else Obj(map[]));
      ghost var before := Now();
      runs := runs[id := run];
      steps, events, checkpoints := steps[id := []], events[id := []], checkpoints[id := []];
      PutRecords(before, id, Record(run, [], [], []));
      PutValid(before, id, Record(run, [], [], []));
      assert Now() == Put(before, id, Record(run, [], [], []));
      r := Ok(run);
    }

    /** Looking a run up creates its missing lists, which nobody can tell. */
    method GetRun(id: string) returns (r: Option<Record>)
      requires Valid()
      modifies this`steps, this`events, this`checkpoints
      ensures Valid() && View() == old(View())
      ensures r == if id in View().records then Some(View().records[id]) else None
    {
      if id !in runs {
        return None;
      }
      ghost var before := Now();
      steps, events, checkpoints :=
        steps[id := Listed(steps, id)], events[id := Listed(events, id)], checkpoints[id := Listed(checkpoints, id)];
      PutSame(before, id);
      assert Now() == Put(before, id, before.RecordAt(id));
      r := Some(Record(runs[id], steps[id], events[id], checkpoints[id]));
    }

    method UpdateRun(id: string, p: RunPatch) returns (r: Result<Run, Failure>)
      requires Valid()
      modifies this`runs, this`log
      ensures Valid()
      ensures id !in old(View()).records ==> r == Err(RunNotFound(id)) && View() == old(View())
      ensures id in old(View()).records ==>
                r == Ok(PatchRun(old(runs)[id], p)) && View() == old(View()).After(id, [Write.UpdateRun(p)])
    {
      if id !in runs {
        return Err(RunNotFound(id));
      }
      AfterOne(View(), id, Write.UpdateRun(p));
      var run := PatchedRun(runs[id], p);
      runs := runs[id := run];
      log := log + [Entry(id, Write.UpdateRun(p))];
      r := Ok(run);
    }

    method NormalizedSteps(id: string, existing: nat, plan: seq<PlanStep>) returns (normalized: seq<Step>)
      ensures normalized == NormalizeSteps(id, existing, plan) && ObjectsOnly(normalized)
      ensures forall k | 0 <= k < |plan| :: MadeFrom(normalized[k], plan[k], id, existing + k)
    {
      normalized := [];
      for offset := 0 to |plan|
        invariant |normalized| == offset && ObjectsOnly(normalized)
        invariant forall k | 0 <= k < offset :: normalized[k] == NormalizeStep(id, existing + k, plan[k])
        invariant forall k | 0 <= k < offset :: MadeFrom(normalized[k], plan[k], id, existing + k)
      {
        var step := plan[offset];
        var objective := if step.objective == "" then step.title else step.objective;
        var metadata := if step.metadata.Obj? then step.metadata else Obj(map[]);
        normalized := normalized + [Step(step.id, id, existing + offset, step.title, objective, step.input, Pending, 0,
                                         Null, "", "", step.dependsOn, metadata)];
      }
    }

    method ReplaceSteps(id: string, plan: seq<PlanStep>) returns (r: Result<seq<Step>, Failure>)
      requires Valid()
      modifies this`steps, this`log
      ensures Valid()
      ensures id !in old(View()).records ==> r == Err(RunNotFound(id)) && View() == old(View())
      ensures id in old(View()).records ==>
                && r == Ok(NormalizeSteps(id, 0, plan)) && View() == old(View()).After(id, [Write.ReplaceSteps(plan)])
                && |r.value| == |plan| && (forall k | 0 <= k < |plan| :: MadeFrom(r.value[k], plan[k], id, k))
                && View().records[id].steps == r.value
    {
      if id !in runs {
        return Err(RunNotFound(id));
      }
      AfterOne(View(), id, Write.ReplaceSteps(plan));
      var normalized := NormalizedSteps(id, 0, plan);
      PutSteps(Now(), id, normalized);
      steps := steps[id := normalized];
      log := log + [Entry(id, Write.ReplaceSteps(plan))];
      r := Ok(normalized);
    }

    method AppendSteps(id: string, plan: seq<PlanStep>) returns (r: Result<seq<Step>, Failure>)
      requires Valid()
      modifies this`steps, this`log
      ensures Valid()
      ensures id !in old(View()).records ==> r == Err(RunNotFound(id)) && View() == old(View())
      ensures id in old(View()).records ==>
                && r == Ok(NormalizeSteps(id, |old(View()).records[id].steps|, plan))
                && View() == old(View()).After(id, [Write.AppendSteps(plan)])
                && (var existing := old(View()).records[id].steps;
                    && View().records[id].steps == existing + r.value && |r.value| == |plan|
                    && forall k | 0 <= k < |plan| :: MadeFrom(r.value[k], plan[k], id, |existing| + k))
    {
      if id !in runs {
        return Err(RunNotFound(id));
      }
      AfterOne(View(), id, Write.AppendSteps(plan));
      var current := Listed(steps, id);
      var normalized := NormalizedSteps(id, |current|, plan);
      PutSteps(Now(), id, current + normalized);
      steps := steps[id := current + normalized];
      log := log + [Entry(id, Write.AppendSteps(plan))];
      r := Ok(normalized);
    }

    method FindStep(current: seq<Step>, stepId: string) returns (found: nat)
      ensures found == IndexOf(current, stepId)
    {
      found := 0;
      while found < |current| && current[found].id != stepId
        invariant found <= |current|
        invariant forall k | 0 <= k < found :: current[k].id != stepId
      {
        found := found + 1;
      }
    }

    /** Changes the first step with the id. */
    method UpdateStep(id: string, stepId: string, p: StepPatch) returns (r: Result<Step, Failure>)
      requires Valid()
      modifies this`steps, this`log
      ensures Valid()
      ensures id !in old(View()).records ==> r == Err(RunNotFound(id)) && View() == old(View())
      ensures id in old(View()).records ==>
                var before := old(View()).records[id].steps;
                var i := IndexOf(before, stepId);
                if i == |before| then r == Err(StepNotFound(stepId)) && View() == old(View())
                else r == Ok(PatchStep(before[i], p)) && View() == old(View()).After(id, [Write.UpdateStep(stepId, p)])
    {
      if id !in runs {
        return Err(RunNotFound(id));
      }
      var current := Listed(steps, id);
      var found := FindStep(current, stepId);
      if found == |current| {
        return Err(StepNotFound(stepId));
      }
      var patched := PatchedStep(current[found], p);
      AfterPatch(View(), id, stepId, p);
      PutSteps(Now(), id, current[found := patched]);
      steps := steps[id := current[found := patched]];
      log := log + [Entry(id, Write.UpdateStep(stepId, p))];
      r := Ok(patched);
    }

    method AppendEvent(e: Event) returns (r: Result<Event, Failure>)
      requires Valid()
      modifies this`events, this`log
      ensures Valid()
      ensures e.runId !in old(View()).records ==> r == Err(RunNotFound(e.runId)) && View() == old(View())
      ensures e.runId in old(View()).records ==>
                r == Ok(e) && View() == old(View()).After(e.runId, [Write.AppendEvent(e)])
    {
      if e.runId !in runs {
        return Err(RunNotFound(e.runId));
      }
      AfterOne(View(), e.runId, Write.AppendEvent(e));
      events := events[e.runId := Listed(events, e.runId) + [e]];
      log := log + [Entry(e.runId, Write.AppendEvent(e))];
      r := Ok(e);
    }

    method AppendCheckpoint(c: Checkpoint) returns (r: Result<Checkpoint, Failure>)
      requires Valid()
      modifies this`checkpoints, this`log
      ensures Valid()
      ensures c.runId !in old(View()).records ==> r == Err(RunNotFound(c.runId)) && View() == old(View())
      ensures c.runId in old(View()).records ==>
                r == Ok(c) && View() == old(View()).After(c.runId, [Write.AppendCheckpoint(c)])
    {
      if c.runId !in runs {
        return Err(RunNotFound(c.runId));
      }
      AfterOne(View(), c.runId, Write.AppendCheckpoint(c));
      checkpoints := checkpoints[c.runId := Listed(checkpoints, c.runId) + [c]];
      log := log + [Entry(c.runId, Write.AppendCheckpoint(c))];
      r := Ok(c);
    }

    /** The runs that match, each once, in the order of their ids. */
    method ListRuns(filter: RunFilter) returns (listed: seq<Run>)
      requires Valid()
      ensures ListsMatching(listed, View().records, filter)
    {
      listed := [];
      var left := runs.Keys;
      while left != {}
        invariant ListedSoFar(listed, runs, left, filter)
        decreases |left|
      {
        var id := Least(left);
        ListedNext(listed, runs, left, filter, id);
        left := left - {id};
        var matches := MetadataMatches(runs[id].metadata, filter.metadata);
        if (filter.status.None? || runs[id].status == filter.status.value) && matches {
          listed := listed + [runs[id]];
        }
      }
      ListedAll(listed, Now(), filter);
    }
  }
}
