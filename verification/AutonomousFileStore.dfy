/** The store that keeps its tables in a file: what it writes and what it reads back. */
module AutonomousFileStore {
  import opened Wrappers
  import opened Values
  import opened Autonomous
  import opened AutonomousCodec
  import opened AutonomousStore

  // ---------------------------------------------------------------- groups of lists

  function ItemsToValue<T>(items: seq<T>, toValue: T -> Value): seq<Value> {
    seq(|items|, k requires 0 <= k < |items| => toValue(items[k]))
  }

  function GroupToValue<T>(id: string, items: seq<T>, toValue: T -> Value): Value {
    Obj(map["runId" := Str(id), "items" := Arr(ItemsToValue(items, toValue))])
  }

  function GroupsToValue<T>(ids: seq<string>, table: map<string, seq<T>>, toValue: T -> Value): seq<Value> {
    if ids == [] then []
    else [GroupToValue(ids[0], Listed(table, ids[0]), toValue)] + GroupsToValue(ids[1..], table, toValue)
  }

  function ItemsFromValue<T>(items: seq<Value>, fromValue: Value -> T): seq<T> {
    seq(|items|, k requires 0 <= k < |items| => fromValue(items[k]))
  }

  /** Pushing items one by one creates the list with the first of them; no items, no list. */
  function Pushed<T>(table: map<string, seq<T>>, id: string, items: seq<T>): map<string, seq<T>> {
    if items == [] then table else table[id := Listed(table, id) + items]
  }

  lemma PushedOneMore<T>(table: map<string, seq<T>>, id: string, items: seq<T>, item: T)
    ensures var pushed := Pushed(table, id, items);
            Pushed(table, id, items + [item]) == pushed[id := Listed(pushed, id) + [item]]
  {
    assert (Listed(table, id) + items) + [item] == Listed(table, id) + (items + [item]);
    assert Listed(table, id) + [] == Listed(table, id);
    var all := Listed(table, id) + (items + [item]);
    assert table[id := Listed(table, id) + items][id := all] == table[id := all];
  }

  function LoadGroup<T>(table: map<string, seq<T>>, group: Value, fromValue: Value -> T): map<string, seq<T>> {
    var id, items := group.At("runId").AsString(""), group.At("items").AsArray();
    Pushed(table, id, ItemsFromValue(items, fromValue))
  }

  function LoadGroups<T>(table: map<string, seq<T>>, groups: seq<Value>, fromValue: Value -> T): map<string, seq<T>>
    decreases |groups|
  {
    if groups == [] then table else LoadGroups(LoadGroup(table, groups[0], fromValue), groups[1..], fromValue)
  }

  ghost predicate Distinct(ids: seq<string>) {
    forall i, j | 0 <= i < j < |ids| :: ids[i] != ids[j]
  }

  /** Some order in which the keys of a table can be visited, each once. */
  ghost predicate Enumerates<T>(ids: seq<string>, table: map<string, T>) {
    Distinct(ids) && forall id :: id in ids <==> id in table
  }

  ghost predicate Restores<T(!new)>(table: map<string, seq<T>>, toValue: T -> Value, fromValue: Value -> T) {
    forall id, k | id in table && 0 <= k < |table[id]| :: fromValue(toValue(table[id][k])) == table[id][k]
  }

  lemma LoadOneGroup<T(!new)>(
      table: map<string, seq<T>>, id: string, items: seq<T>, toValue: T -> Value, fromValue: Value -> T)
    requires id !in table && forall k | 0 <= k < |items| :: fromValue(toValue(items[k])) == items[k]
    ensures LoadGroup(table, GroupToValue(id, items, toValue), fromValue)
            == if items == [] then table else table[id := items]
  {
    var group := GroupToValue(id, items, toValue);
    assert group.At("runId") == Str(id) && group.At("items") == Arr(ItemsToValue(items, toValue));
    assert ItemsFromValue(ItemsToValue(items, toValue), fromValue) == items;
    assert Listed(table, id) + items == items;
  }

  /** The lists of these ids come from the table, the others are as they were. */
  ghost predicate ReadBack<T(!new)>(
      read: map<string, seq<T>>, ids: seq<string>, table: map<string, seq<T>>, loaded: map<string, seq<T>>)
  {
    forall id :: Listed(loaded, id) == (if id in ids then Listed(table, id) else Listed(read, id))
                 && (id in loaded ==> id in ids || id in read)
  }

  lemma ReadBackOneMore<T(!new)>(
      read: map<string, seq<T>>, next: map<string, seq<T>>, ids: seq<string>, table: map<string, seq<T>>,
      loaded: map<string, seq<T>>)
    requires ids != [] && Distinct(ids) && ids[0] !in read
    requires next == if Listed(table, ids[0]) == [] then read else read[ids[0] := Listed(table, ids[0])]
    requires ReadBack(next, ids[1..], table, loaded)
    ensures ReadBack(read, ids, table, loaded)
  {
    forall id
      ensures Listed(loaded, id) == (if id in ids then Listed(table, id) else Listed(read, id))
      ensures id in loaded ==> id in ids || id in read
    {
      assert Listed(next, id) == if id == ids[0] then Listed(table, id) else Listed(read, id);
    }
  }

  /** Reading groups back gives every key its list, whatever the order they were written in. */
  lemma {:induction false} LoadGroupsBack<T(!new)>(
      read: map<string, seq<T>>, ids: seq<string>, table: map<string, seq<T>>,
      toValue: T -> Value, fromValue: Value -> T)
    requires Distinct(ids) && Restores(table, toValue, fromValue)
    requires forall id | id in ids :: id in table && id !in read
    ensures ReadBack(read, ids, table, LoadGroups(read, GroupsToValue(ids, table, toValue), fromValue))
    decreases |ids|
  {
    if ids != [] {
      var items := table[ids[0]];
      LoadOneGroup(read, ids[0], items, toValue, fromValue);
      var next := if items == [] then read else read[ids[0] := items];
      assert forall id | id in ids[1..] :: id in table && id !in next;
      LoadGroupsBack(next, ids[1..], table, toValue, fromValue);
      var groups := GroupsToValue(ids, table, toValue);
      assert groups[1..] == GroupsToValue(ids[1..], table, toValue);
      ReadBackOneMore(read, next, ids, table, LoadGroups(next, groups[1..], fromValue));
    }
  }

  // ---------------------------------------------------------------- runs

  function RunsToValue(ids: seq<string>, runs: map<string, Run>): seq<Value>
    requires forall id | id in ids :: id in runs
  {
    if ids == [] then [] else [RunToValue(runs[ids[0]])] + RunsToValue(ids[1..], runs)
  }

  function LoadRuns(runs: map<string, Run>, items: seq<Value>): map<string, Run>
    decreases |items|
  {
    if items == [] then runs
    else
      var run := RunFromValue(items[0]);
      LoadRuns(runs[run.id := run], items[1..])
  }

  lemma {:induction false} LoadRunsBack(read: map<string, Run>, ids: seq<string>, runs: map<string, Run>)
    requires forall id | id in ids :: id in runs && runs[id].id == id && runs[id].metadata.Obj?
    ensures var loaded := LoadRuns(read, RunsToValue(ids, runs));
            forall id :: (id in loaded <==> id in ids || id in read)
                         && (id in loaded ==> loaded[id] == if id in ids then runs[id] else read[id])
    decreases |ids|
  {
    if ids != [] {
      var run := runs[ids[0]];
      RunRoundTrip(run);
      LoadRunsBack(read[run.id := run], ids[1..], runs);
      var items := RunsToValue(ids, runs);
      assert items[1..] == RunsToValue(ids[1..], runs);
      assert LoadRuns(read, items) == LoadRuns(read[run.id := run], items[1..]);
    }
  }

  // ---------------------------------------------------------------- the file

  /** The order in which each table was visited. */
  datatype Orders = Orders(runs: seq<string>, steps: seq<string>, events: seq<string>, checkpoints: seq<string>)

  ghost predicate OrdersOf(o: Orders, t: Tables) {
    && Enumerates(o.runs, t.runs) && Enumerates(o.steps, t.steps)
    && Enumerates(o.events, t.events) && Enumerates(o.checkpoints, t.checkpoints)
  }

  function TablesToValue(t: Tables, o: Orders): Value
    requires forall id | id in o.runs :: id in t.runs
  {
    Obj(map["runs" := Arr(RunsToValue(o.runs, t.runs)),
            "steps" := Arr(GroupsToValue(o.steps, t.steps, StepToValue)),
            "events" := Arr(GroupsToValue(o.events, t.events, EventToValue)),
            "checkpoints" := Arr(GroupsToValue(o.checkpoints, t.checkpoints, CheckpointToValue))])
  }

  function TablesFromValue(root: Value): Tables {
    Tables(LoadRuns(map[], root.At("runs").AsArray()),
           LoadGroups(map[], root.At("steps").AsArray(), StepFromValue),
           LoadGroups(map[], root.At("events").AsArray(), EventFromValue),
           LoadGroups(map[], root.At("checkpoints").AsArray(), CheckpointFromValue))
  }

  lemma ListsRestored(t: Tables)
    requires t.Valid()
    ensures Restores(t.steps, StepToValue, StepFromValue)
    ensures Restores(t.events, EventToValue, EventFromValue)
    ensures Restores(t.checkpoints, CheckpointToValue, CheckpointFromValue)
  {
    forall id, k | id in t.steps && 0 <= k < |t.steps[id]|
      ensures StepFromValue(StepToValue(t.steps[id][k])) == t.steps[id][k]
    {
      StepRoundTrip(t.steps[id][k]);
      assert ObjectsOnly(t.steps[id]);
    }
    forall id, k | id in t.events && 0 <= k < |t.events[id]|
      ensures EventFromValue(EventToValue(t.events[id][k])) == t.events[id][k]
    {
      EventRoundTrip(t.events[id][k]);
    }
    forall id, k | id in t.checkpoints && 0 <= k < |t.checkpoints[id]|
      ensures CheckpointFromValue(CheckpointToValue(t.checkpoints[id][k])) == t.checkpoints[id][k]
    {
      CheckpointRoundTrip(t.checkpoints[id][k]);
    }
  }

  lemma FileFields(t: Tables, o: Orders)
    requires forall id | id in o.runs :: id in t.runs
    ensures var root := TablesToValue(t, o);
            && root.At("runs").AsArray() == RunsToValue(o.runs, t.runs)
            && root.At("steps").AsArray() == GroupsToValue(o.steps, t.steps, StepToValue)
            && root.At("events").AsArray() == GroupsToValue(o.events, t.events, EventToValue)
            && root.At("checkpoints").AsArray() == GroupsToValue(o.checkpoints, t.checkpoints, CheckpointToValue)
  {
  }

  /** The same lists, although empty ones may have lost their key. */
  ghost predicate SameLists<T(!new)>(loaded: map<string, seq<T>>, table: map<string, seq<T>>) {
    loaded.Keys <= table.Keys && forall id :: Listed(loaded, id) == Listed(table, id)
  }

  lemma ListsBack<T(!new)>(ids: seq<string>, table: map<string, seq<T>>, toValue: T -> Value, fromValue: Value -> T)
    requires Enumerates(ids, table) && Restores(table, toValue, fromValue)
    ensures SameLists(LoadGroups(map[], GroupsToValue(ids, table, toValue), fromValue), table)
  {
    LoadGroupsBack(map[], ids, table, toValue, fromValue);
    var loaded := LoadGroups(map[], GroupsToValue(ids, table, toValue), fromValue);
    forall id ensures Listed(loaded, id) == Listed(table, id) {
      assert id in ids <==> id in table;
    }
  }

  lemma RunsBack(ids: seq<string>, runs: map<string, Run>)
    requires Enumerates(ids, runs) && forall id | id in runs :: runs[id].id == id && runs[id].metadata.Obj?
    ensures LoadRuns(map[], RunsToValue(ids, runs)) == runs
  {
    LoadRunsBack(map[], ids, runs);
  }

  /** Two sets of tables that answer alike. */
  ghost predicate Alike(s: Tables, t: Tables) {
    && s.runs == t.runs
    && SameLists(s.steps, t.steps) && SameLists(s.events, t.events) && SameLists(s.checkpoints, t.checkpoints)
  }

  lemma AlikeAnswers(s: Tables, t: Tables)
    requires Alike(s, t) && t.Valid()
    ensures s.Valid() && s.Records() == t.Records()
  {
    forall id | id in s.runs ensures s.RecordAt(id) == t.RecordAt(id) {
    }
    forall id | id in s.steps ensures ObjectsOnly(s.steps[id]) {
      assert s.steps[id] == Listed(t.steps, id);
    }
  }

  /** Writing the tables and reading them back changes no answer, although lists that were empty have
      lost their keys. */
  lemma LoadPersisted(t: Tables, o: Orders)
    requires t.Valid() && OrdersOf(o, t)
    ensures var loaded := TablesFromValue(TablesToValue(t, o));
            loaded.Valid() && loaded.runs == t.runs && loaded.Records() == t.Records()
  {
    FileFields(t, o);
    ListsRestored(t);
    RunsBack(o.runs, t.runs);
    ListsBack(o.steps, t.steps, StepToValue, StepFromValue);
    ListsBack(o.events, t.events, EventToValue, EventFromValue);
    ListsBack(o.checkpoints, t.checkpoints, CheckpointToValue, CheckpointFromValue);
    AlikeAnswers(TablesFromValue(TablesToValue(t, o)), t);
  }

  // ---------------------------------------------------------------- the store object

  lemma {:induction false} GroupsAppend<T>(
      ids: seq<string>, id: string, table: map<string, seq<T>>, toValue: T -> Value)
    ensures GroupsToValue(ids + [id], table, toValue)
            == GroupsToValue(ids, table, toValue) + [GroupToValue(id, Listed(table, id), toValue)]
  {
    if ids == [] {
      assert [id][1..] == [];
      assert GroupsToValue([id][1..], table, toValue) == [];
    } else {
      GroupsAppend(ids[1..], id, table, toValue);
      assert (ids + [id])[1..] == ids[1..] + [id];
    }
  }

  lemma {:induction false} RunsAppend(ids: seq<string>, id: string, runs: map<string, Run>)
    requires id in runs && forall other | other in ids :: other in runs
    ensures RunsToValue(ids + [id], runs) == RunsToValue(ids, runs) + [RunToValue(runs[id])]
  {
    if ids == [] {
      assert [id][1..] == [];
      assert RunsToValue([id][1..], runs) == [];
    } else {
      RunsAppend(ids[1..], id, runs);
      assert (ids + [id])[1..] == ids[1..] + [id];
    }
  }

  lemma {:induction false} LoadGroupsAppend<T>(
      table: map<string, seq<T>>, groups: seq<Value>, group: Value, fromValue: Value -> T)
    ensures LoadGroups(table, groups + [group], fromValue)
            == LoadGroup(LoadGroups(table, groups, fromValue), group, fromValue)
    decreases |groups|
  {
    if groups == [] {
      assert [group][1..] == [];
    } else {
      LoadGroupsAppend(LoadGroup(table, groups[0], fromValue), groups[1..], group, fromValue);
      assert (groups + [group])[1..] == groups[1..] + [group];
    }
  }

  lemma {:induction false} LoadRunsAppend(runs: map<string, Run>, items: seq<Value>, item: Value)
    ensures var run := RunFromValue(item);
            LoadRuns(runs, items + [item]) == LoadRuns(runs, items)[run.id := run]
    decreases |items|
  {
    if items == [] {
      assert [item][1..] == [];
    } else {
      var run := RunFromValue(items[0]);
      LoadRunsAppend(runs[run.id := run], items[1..], item);
      assert (items + [item])[1..] == items[1..] + [item];
    }
  }

  /** What a file holds; without a file there are no runs. */
  ghost function Stored(file: Option<Value>): map<string, Record> {
    if file.None? then map[] else TablesFromValue(file.value).Records()
  }

  const NO_TABLES := Tables(map[], map[], map[], map[])

  class FileAutonomousStore {
    const memory: InMemoryAutonomousStore
    var loaded: bool
    var file: Option<Value>

    /** Once loaded, memory and file answer alike. */
    ghost predicate Valid()
      reads this, memory
    {
      && memory.Valid()
      && (file.Some? ==> TablesFromValue(file.value).Valid())
      && if loaded then memory.Now().Records() == Stored(file) else memory.Now() == NO_TABLES
    }

    /** What the store answers for each run. */
    ghost function Answers(): map<string, Record>
      reads this
    {
      Stored(file)
    }

    constructor (file: Option<Value>)
      requires file.Some? ==> TablesFromValue(file.value).Valid()
      ensures Valid() && fresh(memory) && this.file == file && !loaded
    {
      memory := new InMemoryAutonomousStore();
      loaded := false;
      this.file := file;
    }

    static method PushItems<T>(table: map<string, seq<T>>, id: string, items: seq<Value>, fromValue: Value -> T)
      returns (pushed: map<string, seq<T>>)
      ensures pushed == Pushed(table, id, ItemsFromValue(items, fromValue))
    {
      pushed := table;
      ghost var all := ItemsFromValue(items, fromValue);
      for k := 0 to |items|
        invariant pushed == Pushed(table, id, all[..k])
      {
        assert all[..k + 1] == all[..k] + [all[k]];
        PushedOneMore(table, id, all[..k], all[k]);
        pushed := pushed[id := Listed(pushed, id) + [fromValue(items[k])]];
      }
      assert all[..|items|] == all;
    }

    static method LoadTable<T>(groups: seq<Value>, fromValue: Value -> T) returns (table: map<string, seq<T>>)
      ensures table == LoadGroups(map[], groups, fromValue)
    {
      table := map[];
      for g := 0 to |groups|
        invariant table == LoadGroups(map[], groups[..g], fromValue)
      {
        var id, items := groups[g].At("runId").AsString(""), groups[g].At("items").AsArray();
        table := PushItems(table, id, items, fromValue);
        LoadGroupsAppend(map[], groups[..g], groups[g], fromValue);
        assert groups[..g + 1] == groups[..g] + [groups[g]];
      }
      assert groups[..|groups|] == groups;
    }

    static method LoadAllRuns(items: seq<Value>) returns (runs: map<string, Run>)
      ensures runs == LoadRuns(map[], items)
    {
      runs := map[];
      for k := 0 to |items|
        invariant runs == LoadRuns(map[], items[..k])
      {
        LoadRunsAppend(map[], items[..k], items[k]);
        assert items[..k + 1] == items[..k] + [items[k]];
        var run := RunFromValue(items[k]);
        runs := runs[run.id := run];
      }
      assert items[..|items|] == items;
    }

    method EnsureLoaded()
      requires Valid()
      modifies this`loaded, memory
      ensures Valid() && loaded
    {
      if loaded {
        return;
      }
      loaded := true;
      if file.None? {
        return;
      }
      var root := file.value;
      var runs := LoadAllRuns(root.At("runs").AsArray());
      var steps := LoadTable(root.At("steps").AsArray(), StepFromValue);
      var events := LoadTable(root.At("events").AsArray(), EventFromValue);
      var checkpoints := LoadTable(root.At("checkpoints").AsArray(), CheckpointFromValue);
      memory.runs, memory.steps, memory.events, memory.checkpoints := runs, steps, events, checkpoints;
      assert memory.Now() == TablesFromValue(root);
    }

    static method WriteTable<T>(table: map<string, seq<T>>, toValue: T -> Value)
      returns (groups: seq<Value>, ghost order: seq<string>)
      ensures Enumerates(order, table) && groups == GroupsToValue(order, table, toValue)
    {
      groups, order := [], [];
      var left := table.Keys;
      while left != {}
        invariant left <= table.Keys && Distinct(order)
        invariant forall id :: id in order <==> id in table && id !in left
        invariant groups == GroupsToValue(order, table, toValue)
        decreases |left|
      {
        var id :| id in left;
        left := left - {id};
        GroupsAppend(order, id, table, toValue);
        order := order + [id];
        groups := groups + [GroupToValue(id, table[id], toValue)];
      }
    }

    static method WriteRuns(runs: map<string, Run>) returns (items: seq<Value>, ghost order: seq<string>)
      ensures Enumerates(order, runs) && items == RunsToValue(order, runs)
    {
      items, order := [], [];
      var left := runs.Keys;
      while left != {}
        invariant left <= runs.Keys && Distinct(order)
        invariant forall id :: id in order <==> id in runs && id !in left
        invariant items == RunsToValue(order, runs)
        decreases |left|
      {
        var id :| id in left;
        left := left - {id};
        RunsAppend(order, id, runs);
        order := order + [id];
        items := items + [RunToValue(runs[id])];
      }
    }

    method Persist()
      requires memory.Valid() && loaded
      modifies this`file
      ensures Valid() && Answers() == memory.Now().Records()
    {
      var runs, runOrder := WriteRuns(memory.runs);
      var steps, stepOrder := WriteTable(memory.steps, StepToValue);
      var events, eventOrder := WriteTable(memory.events, EventToValue);
      var checkpoints, checkpointOrder := WriteTable(memory.checkpoints, CheckpointToValue);
      file := Some(Obj(map["runs" := Arr(runs), "steps" := Arr(steps), "events" := Arr(events),
                           "checkpoints" := Arr(checkpoints)]));
      ghost var o := Orders(runOrder, stepOrder, eventOrder, checkpointOrder);
      assert file.value == TablesToValue(memory.Now(), o);
      LoadPersisted(memory.Now(), o);
    }

    method CreateRun(id: string, goal: string, input: Value, metadata: Value) returns (r: Result<Run, Failure>)
      requires Valid()
      modifies this, memory
      ensures Valid()
      ensures id in old(Answers()) ==> r == Err(RunExists(id)) && Answers() == old(Answers())
      ensures id !in old(Answers()) ==>
                && r == Ok(NewRun(id, goal, input, metadata))
                && Answers() == old(Answers())[id := Record(r.value, [], [], [])]
    {
      EnsureLoaded();
      r := memory.CreateRun(id, goal, input, metadata);
      if r.Ok? {
        Persist();
      }
    }

    method GetRun(id: string) returns (r: Option<Record>)
      requires Valid()
      modifies this`loaded, memory
      ensures Valid() && r == if id in Answers() then Some(Answers()[id]) else None
    {
      EnsureLoaded();
      r := memory.GetRun(id);
    }

    method ListRuns(filter: RunFilter) returns (listed: seq<Run>)
      requires Valid()
      modifies this`loaded, memory
      ensures Valid() && ListsMatching(listed, Answers(), filter)
    {
      EnsureLoaded();
      listed := memory.ListRuns(filter);
    }

    method UpdateRun(id: string, p: RunPatch) returns (r: Result<Run, Failure>)
      requires Valid()
      modifies this, memory
      ensures Valid()
      ensures id !in old(Answers()) ==> r == Err(RunNotFound(id)) && Answers() == old(Answers())
      ensures id in old(Answers()) ==>
                && r == Ok(PatchRun(old(Answers())[id].run, p))
                && Answers() == Written(old(Answers()), id, Write.UpdateRun(p))
    {
      EnsureLoaded();
      OneWrite(memory.View(), id, Write.UpdateRun(p));
      r := memory.UpdateRun(id, p);
      if r.Ok? {
        Persist();
      }
    }

    method ReplaceSteps(id: string, plan: seq<PlanStep>) returns (r: Result<seq<Step>, Failure>)
      requires Valid()
      modifies this, memory
      ensures Valid()
      ensures id !in old(Answers()) ==> r == Err(RunNotFound(id)) && Answers() == old(Answers())
      ensures id in old(Answers()) ==>
                && r == Ok(NormalizeSteps(id, 0, plan))
                && Answers() == Written(old(Answers()), id, Write.ReplaceSteps(plan))
                && |r.value| == |plan| && (forall k | 0 <= k < |plan| :: MadeFrom(r.value[k], plan[k], id, k))
                && Answers()[id].steps == r.value
    {
      EnsureLoaded();
      OneWrite(memory.View(), id, Write.ReplaceSteps(plan));
      r := memory.ReplaceSteps(id, plan);
      if r.Ok? {
        Persist();
      }
    }

    method AppendSteps(id: string, plan: seq<PlanStep>) returns (r: Result<seq<Step>, Failure>)
      requires Valid()
      modifies this, memory
      ensures Valid()
      ensures id !in old(Answers()) ==> r == Err(RunNotFound(id)) && Answers() == old(Answers())
      ensures id in old(Answers()) ==>
                && r == Ok(NormalizeSteps(id, |old(Answers())[id].steps|, plan))
                && Answers() == Written(old(Answers()), id, Write.AppendSteps(plan))
                && |r.value| == |plan|
                && forall k | 0 <= k < |plan| :: MadeFrom(r.value[k], plan[k], id, r.value[k].index)
    {
      EnsureLoaded();
      OneWrite(memory.View(), id, Write.AppendSteps(plan));
      r := memory.AppendSteps(id, plan);
      if r.Ok? {
        Persist();
      }
    }

    method UpdateStep(id: string, stepId: string, p: StepPatch) returns (r: Result<Step, Failure>)
      requires Valid()
      modifies this, memory
      ensures Valid()
      ensures id !in old(Answers()) ==> r == Err(RunNotFound(id)) && Answers() == old(Answers())
      ensures id in old(Answers()) ==>
                var before := old(Answers())[id].steps;
                var i := IndexOf(before, stepId);
                if i == |before| then r == Err(StepNotFound(stepId)) && Answers() == old(Answers())
                else
                  && r == Ok(PatchStep(before[i], p))
                  && Answers() == Written(old(Answers()), id, Write.UpdateStep(stepId, p))
    {
      EnsureLoaded();
      OneWrite(memory.View(), id, Write.UpdateStep(stepId, p));
      r := memory.UpdateStep(id, stepId, p);
      if r.Ok? {
        Persist();
      }
    }

    method AppendEvent(e: Event) returns (r: Result<Event, Failure>)
      requires Valid()
      modifies this, memory
      ensures Valid()
      ensures e.runId !in old(Answers()) ==> r == Err(RunNotFound(e.runId)) && Answers() == old(Answers())
      ensures e.runId in old(Answers()) ==>
                r == Ok(e) && Answers() == Written(old(Answers()), e.runId, Write.AppendEvent(e))
    {
      EnsureLoaded();
      OneWrite(memory.View(), e.runId, Write.AppendEvent(e));
      r := memory.AppendEvent(e);
      if r.Ok? {
        Persist();
      }
    }

    method AppendCheckpoint(c: Checkpoint) returns (r: Result<Checkpoint, Failure>)
      requires Valid()
      modifies this, memory
      ensures Valid()
      ensures c.runId !in old(Answers()) ==> r == Err(RunNotFound(c.runId)) && Answers() == old(Answers())
      ensures c.runId in old(Answers()) ==>
                r == Ok(c) && Answers() == Written(old(Answers()), c.runId, Write.AppendCheckpoint(c))
    {
      EnsureLoaded();
      OneWrite(memory.View(), c.runId, Write.AppendCheckpoint(c));
      r := memory.AppendCheckpoint(c);
      if r.Ok? {
        Persist();
      }
    }
  }

  ghost function Written(records: map<string, Record>, id: string, w: Write): map<string, Record>
    requires id in records
  {
    records[id := Apply(records[id], w)]
  }

  lemma OneWrite(s: State, id: string, w: Write)
    ensures id in s.records ==> s.After(id, [w]).records == Written(s.records, id, w)
  {
    if id in s.records {
      AfterOne(s, id, w);
    }
  }

  /** A process that dies and comes back with the same file answers as before, whenever that happens. */
  method Restart(before: FileAutonomousStore) returns (after: FileAutonomousStore)
    requires before.Valid()
    ensures after.Valid() && fresh(after) && fresh(after.memory) && !after.loaded
    ensures after.Answers() == before.Answers()
  {
    after := new FileAutonomousStore(before.file);
  }
}
