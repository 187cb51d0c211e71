/** A history after which a store holds more active child runs than its policy allows. */
module AsyncOverrun {
  import opened Wrappers
  import opened Values
  import opened AsyncPolicy
  import opened AsyncRuns
  import opened AsyncForest
  import opened AsyncTopology
  import opened AsyncQuota

  /** One active child run at a time. */
  const ONE_AT_A_TIME := NO_POLICY.(maxGlobalChildRuns := Some(1))

  function Request(id: string, parent: string): StartInput {
    StartInput(id, "", Null, KIND_AGENT, "", parent, -1, "", "", "", NO_POLICY, RequestKey("", "", ""))
  }

  /** What matters of a run here. */
  datatype Part = Part(id: string, parent: string, role: string, status: Status)
  {
    predicate ActiveChild() {
      parent != "" && IsActive(status)
    }
  }

  function PartOf(t: Task): Part {
    Part(t.id, RunOf(t).parentRunId, RunOf(t).role, t.status)
  }

  ghost predicate Cast(tasks: seq<Task>, cast: seq<Part>) {
    Inv(tasks) && |tasks| == |cast| && forall k | 0 <= k < |cast| :: PartOf(tasks[k]) == cast[k]
  }

  function ActiveParts(cast: seq<Part>): nat {
    if cast == [] then 0 else (if cast[0].ActiveChild() then 1 else 0) + ActiveParts(cast[1..])
  }

  lemma {:induction false} CountParts(tasks: seq<Task>, cast: seq<Part>)
    requires |tasks| == |cast|
    requires forall k | 0 <= k < |cast| :: ActiveChild()(RunOf(tasks[k])) == cast[k].ActiveChild()
    ensures Count(tasks, ActiveChild()) == ActiveParts(cast)
  {
    if tasks != [] {
      CountParts(tasks[1..], cast[1..]);
    }
  }

  lemma {:induction false} CastCounts(tasks: seq<Task>, cast: seq<Part>)
    requires Cast(tasks, cast)
    ensures Count(tasks, ActiveChild()) == ActiveParts(cast)
  {
    forall k | 0 <= k < |cast| ensures ActiveChild()(RunOf(tasks[k])) == cast[k].ActiveChild() {
      assert Sound(tasks, k) && PartOf(tasks[k]) == cast[k];
    }
    CountParts(tasks, cast);
  }

  // ---------------------------------------------------------------- single steps

  /** A request that is admitted adds one queued run. */
  lemma {:induction false} CastStart(w: World, cast: seq<Part>, op: Op, s: StartInput, after: World)
    requires Cast(w.tasks, cast) && op.Start? && Sensible(op) && after == Apply(w, ONE_AT_A_TIME, op)
    requires Admit(w.tasks, ONE_AT_A_TIME, op.asked, op.generated) == Ok(s)
    ensures Cast(after.tasks, cast + [Part(s.id, s.parentRunId, s.role, Queued)])
  {
    StepKeepsInv(w, ONE_AT_A_TIME, op);
    var same, j := AdmittedTopology(w.tasks, ONE_AT_A_TIME, op.asked, op.generated);
    CastGrows(w.tasks, cast, s, j, op.payload);
    Added(w, op, s);
  }

  lemma {:induction false} Added(w: World, op: Op, s: StartInput)
    requires op.Start? && Admit(w.tasks, ONE_AT_A_TIME, op.asked, op.generated) == Ok(s)
    ensures Apply(w, ONE_AT_A_TIME, op).tasks == AddRun(w.tasks, s, op.payload)
  {
  }

  lemma {:induction false} CastGrows(tasks: seq<Task>, cast: seq<Part>, s: StartInput, j: nat, payload: Value)
    requires Cast(tasks, cast) && s.id != "" && Checked(s.policy).Ok? && WellPlaced(tasks, s, j)
    ensures var after := AddRun(tasks, s, payload);
            Inv(after) ==> Cast(after, cast + [Part(s.id, s.parentRunId, s.role, Queued)])
  {
    var after := AddRun(tasks, s, payload);
    AddedRun(tasks, s, payload);
    TopologySurvives(s, after[|tasks|]);
    forall k | 0 <= k < |cast| ensures PartOf(after[k]) == cast[k] {
      KeptRun(tasks, after, k);
    }
  }

  lemma {:induction false} RootRequest(id: string) returns (s: StartInput)
    requires id != ""
    ensures Admit([], ONE_AT_A_TIME, Request(id, ""), id) == Ok(s)
    ensures s.id == id && s.parentRunId == "" && s.role == "orchestrator"
  {
    assert Find([], id) == 0;
    RootStartsIff([], ONE_AT_A_TIME, Request(id, ""), id);
    s := Admit([], ONE_AT_A_TIME, Request(id, ""), id).value;
  }

  lemma {:induction false} ChildRequest(tasks: seq<Task>, cast: seq<Part>, id: string) returns (s: StartInput)
    requires Cast(tasks, cast) && cast != [] && !IsClosed(cast[0].status) && cast[0].role == "orchestrator"
    requires id != "" && (forall k | 0 <= k < |cast| :: cast[k].id != id) && ActiveParts(cast) == 0
    ensures Admit(tasks, ONE_AT_A_TIME, Request(id, cast[0].id), id) == Ok(s)
    ensures s.id == id && s.parentRunId == cast[0].id && s.role == "leaf"
  {
    assert Sound(tasks, 0) && PartOf(tasks[0]) == cast[0];
    FindOwn(tasks, 0);
    CastCounts(tasks, cast);
    forall k | 0 <= k < |tasks| ensures tasks[k].id != id {
      assert PartOf(tasks[k]) == cast[k];
    }
    ChildStartsIff(tasks, ONE_AT_A_TIME, Request(id, cast[0].id), id, 0);
    s := Admit(tasks, ONE_AT_A_TIME, Request(id, cast[0].id), id).value;
  }

  lemma {:induction false} CastChange(w: World, cast: seq<Part>, op: Op, i: nat, status: Status, after: World)
    requires Cast(w.tasks, cast) && !op.Start? && after == Apply(w, ONE_AT_A_TIME, op)
    requires i < |cast| && Changes(w.tasks, after.tasks, i, status)
    ensures Cast(after.tasks, cast[i := cast[i].(status := status)])
  {
    StepKeepsInv(w, ONE_AT_A_TIME, op);
    ChangedRuns(w.tasks, after.tasks, i, status);
    forall k | 0 <= k < |cast| ensures PartOf(after.tasks[k]) == cast[i := cast[i].(status := status)][k] {
      assert PartOf(w.tasks[k]) == cast[k];
    }
  }

  lemma {:induction false} ApplyOneMore(w: World, policy: Policy, ops: seq<Op>, op: Op)
    ensures ApplyAll(w, policy, ops + [op]) == Apply(ApplyAll(w, policy, ops), policy, op)
    decreases |ops|
  {
    if ops == [] {
      assert [op][1..] == [];
      assert ApplyAll(Apply(w, policy, op), policy, []) == Apply(w, policy, op);
    } else {
      ApplyOneMore(Apply(w, policy, ops[0]), policy, ops[1..], op);
      assert (ops + [op])[1..] == ops[1..] + [op];
    }
  }

  // ---------------------------------------------------------------- the history

  /** The operations lead from an empty store to a store with this cast. */
  ghost predicate LeadsTo(ops: seq<Op>, w: World, cast: seq<Part>) {
    && w == ApplyAll(NOTHING, ONE_AT_A_TIME, ops) && Cast(w.tasks, cast)
    && forall k | 0 <= k < |ops| :: Plain(ops[k])
  }

  lemma {:induction false} OneMore(ops: seq<Op>, w: World, cast: seq<Part>, op: Op, after: World, next: seq<Part>)
    requires LeadsTo(ops, w, cast) && Plain(op) && after == Apply(w, ONE_AT_A_TIME, op) && Cast(after.tasks, next)
    ensures LeadsTo(ops + [op], after, next)
  {
    ApplyOneMore(NOTHING, ONE_AT_A_TIME, ops, op);
  }

  lemma {:induction false} ChildJoins(ops: seq<Op>, w: World, cast: seq<Part>, id: string)
    returns (more: seq<Op>, after: World)
    requires LeadsTo(ops, w, cast) && cast != [] && !IsClosed(cast[0].status) && cast[0].role == "orchestrator"
    requires id != "" && (forall k | 0 <= k < |cast| :: cast[k].id != id) && ActiveParts(cast) == 0
    ensures more == ops + [Start(Request(id, cast[0].id), id, Null)]
    ensures LeadsTo(more, after, cast + [Part(id, cast[0].id, "leaf", Queued)])
  {
    var op := Start(Request(id, cast[0].id), id, Null);
    var s := ChildRequest(w.tasks, cast, id);
    after := Apply(w, ONE_AT_A_TIME, op);
    CastStart(w, cast, op, s, after);
    OneMore(ops, w, cast, op, after, cast + [Part(id, cast[0].id, "leaf", Queued)]);
    more := ops + [op];
  }

  lemma {:induction false} Claimed(ops: seq<Op>, w: World, cast: seq<Part>, i: nat) returns (after: World)
    requires LeadsTo(ops, w, cast) && i < |cast| && cast[i].status.Queued?
    ensures LeadsTo(ops + [Claim(cast[i].id)], after, cast[i := cast[i].(status := Running)])
  {
    assert PartOf(w.tasks[i]) == cast[i];
    FindOwn(w.tasks, i);
    after := Apply(w, ONE_AT_A_TIME, Claim(cast[i].id));
    CastChange(w, cast, Claim(cast[i].id), i, Running, after);
    OneMore(ops, w, cast, Claim(cast[i].id), after, cast[i := cast[i].(status := Running)]);
  }

  lemma {:induction false} Breaks(ops: seq<Op>, w: World, cast: seq<Part>, i: nat) returns (after: World)
    requires LeadsTo(ops, w, cast) && i < |cast|
    ensures LeadsTo(ops + [End(cast[i].id, Broke, Null, Null)], after, cast[i := cast[i].(status := Failed)])
  {
    var op := End(cast[i].id, Broke, Null, Null);
    after := Apply(w, ONE_AT_A_TIME, op);
    CastBreaks(w, cast, i, op, after);
    OneMore(ops, w, cast, op, after, cast[i := cast[i].(status := Failed)]);
  }

  lemma {:induction false} CastBreaks(w: World, cast: seq<Part>, i: nat, op: Op, after: World)
    requires Cast(w.tasks, cast) && i < |cast| && op == End(cast[i].id, Broke, Null, Null)
    requires after == Apply(w, ONE_AT_A_TIME, op)
    ensures Cast(after.tasks, cast[i := cast[i].(status := Failed)])
  {
    assert PartOf(w.tasks[i]) == cast[i];
    FindOwn(w.tasks, i);
    EndChanges(w.tasks, i, Broke, Null, Null);
    CastChange(w, cast, op, i, Failed, after);
  }

  lemma {:induction false} ParentStarts(p: string) returns (ops: seq<Op>, w: World)
    requires p != ""
    ensures LeadsTo(ops, w, [Part(p, "", "orchestrator", Queued)])
  {
    var start := Start(Request(p, ""), p, Null);
    var root := RootRequest(p);
    w := Apply(NOTHING, ONE_AT_A_TIME, start);
    CastStart(NOTHING, [], start, root, w);
    assert [] + [Part(p, "", "orchestrator", Queued)] == [Part(p, "", "orchestrator", Queued)];
    OneMore([], NOTHING, [], start, w, [Part(p, "", "orchestrator", Queued)]);
    ops := [] + [start];
  }

  lemma {:induction false} ChildRuns(p: string, a: string) returns (ops: seq<Op>, w: World)
    requires p != "" && a != "" && p != a
    ensures LeadsTo(ops, w, [Part(p, "", "orchestrator", Queued), Part(a, p, "leaf", Running)])
  {
    var parent, child := Part(p, "", "orchestrator", Queued), Part(a, p, "leaf", Queued);
    var ops1, w1 := ParentStarts(p);
    ActiveOf(parent, child, child);
    var ops2, w2 := ChildJoins(ops1, w1, [parent], a);
    assert [parent] + [child] == [parent, child];
    w := Claimed(ops2, w2, [parent, child], 1);
    assert [parent, child][1 := child.(status := Running)] == [parent, child.(status := Running)];
    ops := ops2 + [Claim(a)];
  }

  /** A parent, a child of it that has failed, and one that has taken its place. */
  function BeforeResume(p: string, a: string, b: string): seq<Part> {
    [Part(p, "", "orchestrator", Queued), Part(a, p, "leaf", Failed), Part(b, p, "leaf", Queued)]
  }

  /** A parent starts, a child of it starts, is claimed and fails, and a second child takes its place. */
  lemma {:induction false} SecondChild(p: string, a: string, b: string) returns (ops: seq<Op>, w: World)
    requires p != "" && a != "" && b != "" && p != a && p != b && a != b
    ensures LeadsTo(ops, w, BeforeResume(p, a, b))
  {
    var before, running := ChildRuns(p, a);
    ops, w := FailedChild(before, running, Part(p, "", "orchestrator", Queued), a, b);
  }

  lemma {:induction false} FailedChild(before: seq<Op>, running: World, parent: Part, a: string, b: string)
    returns (ops: seq<Op>, w: World)
    requires parent.id != "" && a != "" && b != "" && b != parent.id && b != a
    requires parent == Part(parent.id, "", "orchestrator", Queued)
    requires LeadsTo(before, running, [parent, Part(a, parent.id, "leaf", Running)])
    ensures LeadsTo(ops, w, [parent, Part(a, parent.id, "leaf", Failed), Part(b, parent.id, "leaf", Queued)])
  {
    var failed := Breaks(before, running, [parent, Part(a, parent.id, "leaf", Running)], 1);
    var cast := [parent, Part(a, parent.id, "leaf", Failed)];
    assert [parent, Part(a, parent.id, "leaf", Running)][1 := Part(a, parent.id, "leaf", Failed)] == cast;
    ActiveOf(parent, Part(a, parent.id, "leaf", Failed), Part(b, parent.id, "leaf", Queued));
    ops, w := ChildJoins(before + [End(a, Broke, Null, Null)], failed, cast, b);
    assert cast + [Part(b, parent.id, "leaf", Queued)]
        == [parent, Part(a, parent.id, "leaf", Failed), Part(b, parent.id, "leaf", Queued)];
  }

  /** How many of the three are active children. */
  lemma {:induction false} ActiveOf(parent: Part, a: Part, b: Part)
    requires parent.parent == ""
    ensures ActiveParts([parent]) == 0
    ensures ActiveParts([parent, a]) == if a.ActiveChild() then 1 else 0
    ensures ActiveParts([parent, a, b]) == (if a.ActiveChild() then 1 else 0) + (if b.ActiveChild() then 1 else 0)
  {
    assert [parent][1..] == [] && [b][1..] == [] && [a][1..] == [];
    assert [parent, a][1..] == [a];
    assert [parent, a, b][1..] == [a, b] && [a, b][1..] == [b];
    assert ActiveParts([b]) == if b.ActiveChild() then 1 else 0;
    assert ActiveParts([a, b]) == (if a.ActiveChild() then 1 else 0) + ActiveParts([b]);
  }

  /** Resuming the failed child then makes two active child runs where one is allowed. */
  lemma {:induction false} LimitOverrun(p: string, a: string, b: string) returns (ops: seq<Op>, w: World)
    requires p != "" && a != "" && b != "" && p != a && p != b && a != b
    ensures w == ApplyAll(NOTHING, ONE_AT_A_TIME, ops) && forall k | 0 <= k < |ops| :: Plain(ops[k])
    ensures Count(w.tasks, ActiveChild()) == 2 && ONE_AT_A_TIME.maxGlobalChildRuns == Some(1)
  {
    var before, full := SecondChild(p, a, b);
    ops, w := before + [Resume(a)], Apply(full, ONE_AT_A_TIME, Resume(a));
    ApplyOneMore(NOTHING, ONE_AT_A_TIME, before, Resume(a));
    ActiveAfterResume(full, p, a, b);
  }

  lemma {:induction false} ActiveAfterResume(full: World, p: string, a: string, b: string)
    requires p != ""
    requires Cast(full.tasks, BeforeResume(p, a, b))
    ensures Count(Apply(full, ONE_AT_A_TIME, Resume(a)).tasks, ActiveChild()) == 2
  {
    var cast := BeforeResume(p, a, b);
    CastCounts(full.tasks, cast);
    ActiveOf(cast[0], cast[1], cast[2]);
    assert PartOf(full.tasks[1]) == cast[1];
    var parent, tasks := ResumeIsUnchecked(full, ONE_AT_A_TIME, 1);
  }
}
