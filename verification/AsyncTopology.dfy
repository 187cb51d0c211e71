/** The runs form a forest: in every world that operations can reach, parents exist before their
    children, depths count the hops to the root, and leaves have no children. */
module AsyncTopology {
  import opened Wrappers
  import opened Values
  import opened AsyncPolicy
  import opened AsyncRuns
  import opened AsyncForest

  /** Run `i` is a root, or hangs one level below an earlier run that may have children. */
  ghost predicate Placed(tasks: seq<Task>, i: nat)
    requires i < |tasks|
  {
    var run := RunOf(tasks[i]);
    if run.parentRunId == "" then run.rootRunId == run.id && run.depth == 0 && run.kind != KIND_SUBAGENT
    else exists j: nat :: HangsBelow(tasks, i, j)
  }

  ghost predicate HangsBelow(tasks: seq<Task>, i: nat, j: nat)
    requires i < |tasks|
  {
    && j < i
    && var run, parent := RunOf(tasks[i]), RunOf(tasks[j]);
       && parent.id == run.parentRunId && run.depth == parent.depth + 1 && run.rootRunId == parent.rootRunId
       && parent.role == "orchestrator"
  }

  ghost predicate DistinctIds(tasks: seq<Task>) {
    forall i, j | 0 <= i < j < |tasks| :: tasks[i].id != tasks[j].id
  }

  ghost predicate Sound(tasks: seq<Task>, i: nat)
    requires i < |tasks|
  {
    && tasks[i].id != "" && Readable(tasks[i]) && Placed(tasks, i)
    && (RunOf(tasks[i]).role == "leaf" || RunOf(tasks[i]).role == "orchestrator")
  }

  ghost predicate Forest(tasks: seq<Task>) {
    DistinctIds(tasks) && forall i | 0 <= i < |tasks| :: Sound(tasks, i)
  }

  /** The earlier tasks are still there and say the same about their topology. */
  ghost predicate Keeps(s: seq<Task>, t: seq<Task>) {
    |s| <= |t| && forall j | 0 <= j < |s| :: t[j].id == s[j].id && t[j].input == s[j].input
  }

  lemma KeptRun(s: seq<Task>, t: seq<Task>, i: nat)
    requires Keeps(s, t) && i < |s|
    ensures RunOf(t[i]) == RunOf(s[i]).(status := t[i].status)
    ensures Sound(s, i) ==> Sound(t, i)
  {
    if Sound(s, i) && RunOf(s[i]).parentRunId != "" {
      var j: nat :| HangsBelow(s, i, j);
      assert HangsBelow(t, i, j);
    }
  }

  lemma KeptSound(s: seq<Task>, t: seq<Task>, i: nat)
    requires Keeps(s, t) && i < |s| && Sound(s, i)
    ensures Sound(t, i)
  {
    KeptRun(s, t, i);
  }

  lemma KeptForest(s: seq<Task>, t: seq<Task>)
    requires Forest(s) && Keeps(s, t) && |s| == |t|
    ensures Forest(t)
  {
    forall i | 0 <= i < |t| ensures Sound(t, i) {
      KeptRun(s, t, i);
    }
  }

  // ---------------------------------------------------------------- counting children

  lemma {:induction false} CountZero(tasks: seq<Task>, p: Run -> bool)
    requires forall i | 0 <= i < |tasks| :: !p(RunOf(tasks[i]))
    ensures Count(tasks, p) == 0
  {
    if tasks != [] {
      CountZero(tasks[1..], p);
    }
  }

  lemma {:induction false} CountAppend(tasks: seq<Task>, t: Task, p: Run -> bool)
    ensures Count(tasks + [t], p) == Count(tasks, p) + (if p(RunOf(t)) then 1 else 0)
  {
    if tasks == [] {
      assert [t][1..] == [];
      assert Count([t][1..], p) == 0;
    } else {
      CountAppend(tasks[1..], t, p);
      assert (tasks + [t])[1..] == tasks[1..] + [t];
    }
  }

  /** Tasks that show the same runs count alike. */
  lemma {:induction false} CountSame(s: seq<Task>, t: seq<Task>, p: Run -> bool)
    requires |s| == |t| && forall i | 0 <= i < |s| :: p(RunOf(s[i])) == p(RunOf(t[i]))
    ensures Count(s, p) == Count(t, p)
  {
    if s != [] {
      CountSame(s[1..], t[1..], p);
    }
  }

  lemma ParentsAreOrchestrators(tasks: seq<Task>, k: nat, i: nat)
    requires Forest(tasks) && k < |tasks| && i < |tasks| && RunOf(tasks[k]).parentRunId == tasks[i].id
    ensures RunOf(tasks[i]).role == "orchestrator"
  {
    assert Sound(tasks, k) && Sound(tasks, i);
    var j: nat :| HangsBelow(tasks, k, j);
    assert tasks[j].id == tasks[i].id;
  }

  /** A leaf has no children: whoever has some is an orchestrator. */
  lemma LeavesAreBare(tasks: seq<Task>, i: nat)
    requires Forest(tasks) && i < |tasks| && RunOf(tasks[i]).role == "leaf"
    ensures Count(tasks, ChildOf(tasks[i].id)) == 0
  {
    var id := tasks[i].id;
    assert |"leaf"| != |"orchestrator"|;
    forall k | 0 <= k < |tasks| ensures RunOf(tasks[k]).parentRunId != id {
      if RunOf(tasks[k]).parentRunId == id {
        ParentsAreOrchestrators(tasks, k, i);
      }
    }
    CountZero(tasks, ChildOf(id));
  }

  // ---------------------------------------------------------------- starting

  lemma FindOwn(tasks: seq<Task>, i: nat)
    requires DistinctIds(tasks) && i < |tasks|
    ensures Find(tasks, tasks[i].id) == i
  {
  }

  /** No ledger claims more children than there are. */
  ghost predicate LedgersSound(tasks: seq<Task>) {
    forall i | 0 <= i < |tasks| :: tasks[i].ledgerChildren <= Count(tasks, ChildOf(tasks[i].id))
  }

  /** No two runs share a key of one owner. */
  ghost predicate KeysDistinct(tasks: seq<Task>) {
    forall i, j | 0 <= i < j < |tasks| && tasks[i].key.idempotencyKey != "" :: tasks[i].key != tasks[j].key
  }

  ghost predicate Inv(tasks: seq<Task>) {
    Forest(tasks) && LedgersSound(tasks) && KeysDistinct(tasks)
  }

  lemma LedgerIsBelow(tasks: seq<Task>, i: nat)
    requires LedgersSound(tasks) && i < |tasks|
    ensures ChildCount(tasks, i) == Count(tasks, ChildOf(tasks[i].id))
  {
  }

  lemma LeafIsBare(tasks: seq<Task>, i: nat)
    requires Inv(tasks) && i < |tasks|
    ensures RunOf(tasks[i]).role == "leaf" ==> ChildCount(tasks, i) == 0
  {
    if RunOf(tasks[i]).role == "leaf" {
      LeavesAreBare(tasks, i);
      LedgerIsBelow(tasks, i);
    }
  }

  lemma ShownAsStored(tasks: seq<Task>, i: nat)
    requires i < |tasks| && Find(tasks, tasks[i].id) == i
    requires RunOf(tasks[i]).role == "leaf" ==> ChildCount(tasks, i) == 0
    ensures Get(tasks, tasks[i].id) == Some(RunOf(tasks[i]))
  {
  }

  /** The store shows every run as it was stored: the promotion of leaves never happens. */
  lemma NeverPromoted(tasks: seq<Task>, i: nat)
    requires Inv(tasks) && i < |tasks|
    ensures Get(tasks, tasks[i].id) == Some(RunOf(tasks[i]))
    ensures ChildCount(tasks, i) == Count(tasks, ChildOf(tasks[i].id))
    ensures RunOf(tasks[i]).role == "leaf" ==> ChildCount(tasks, i) == 0
  {
    LedgerIsBelow(tasks, i);
    LeafIsBare(tasks, i);
    FindOwn(tasks, i);
    ShownAsStored(tasks, i);
  }

  ghost predicate WellPlaced(tasks: seq<Task>, s: StartInput, j: nat) {
    && s.kind != "" && s.rootRunId != "" && s.depth >= 0 && (s.role == "leaf" || s.role == "orchestrator")
    && if s.parentRunId == "" then s.rootRunId == s.id && s.depth == 0 && s.kind != KIND_SUBAGENT
       else
         && j < |tasks| && tasks[j].id == s.parentRunId && !IsClosed(tasks[j].status)
         && RunOf(tasks[j]).role == "orchestrator"
         && s.depth == RunOf(tasks[j]).depth + 1 && s.rootRunId == RunOf(tasks[j]).rootRunId
  }

  lemma NormalizedTopology(tasks: seq<Task>, asked: StartInput, generated: string) returns (s: StartInput, j: nat)
    requires Inv(tasks) && generated != "" && NormalizeTopology(tasks, asked, generated).Ok?
    ensures s == NormalizeTopology(tasks, asked, generated).value
    ensures s.id != "" && WellPlaced(tasks, s, j)
  {
    s := NormalizeTopology(tasks, asked, generated).value;
    j := Find(tasks, asked.parentRunId);
    if asked.parentRunId != "" {
      NormalizedChild(tasks, asked, generated, s, j);
    }
  }

  lemma NormalizedChild(tasks: seq<Task>, asked: StartInput, generated: string, s: StartInput, j: nat)
    requires Inv(tasks) && NormalizeTopology(tasks, asked, generated) == Ok(s) && asked.parentRunId != ""
    requires generated != "" && j == Find(tasks, asked.parentRunId)
    ensures s.id != "" && WellPlaced(tasks, s, j)
  {
    assert s.parentRunId == asked.parentRunId;
    NeverPromoted(tasks, j);
    assert Sound(tasks, j);
  }

  /** What an admitted request says: it names an open orchestrator as its parent, or no parent at all. */
  lemma AdmittedTopology(tasks: seq<Task>, policy: Policy, asked: StartInput, generated: string)
    returns (s: StartInput, j: nat)
    requires Inv(tasks) && generated != "" && Admit(tasks, policy, asked, generated).Ok?
    ensures s == Admit(tasks, policy, asked, generated).value
    ensures s.id != "" && Checked(s.policy).Ok? && WellPlaced(tasks, s, j)
    ensures forall k | 0 <= k < |tasks| :: tasks[k].id != s.id
  {
    s, j := NormalizedTopology(tasks, asked, generated);
    MergeChecksOverlay(policy, s.policy);
  }

  lemma AddedRun(tasks: seq<Task>, s: StartInput, payload: Value)
    ensures var after := AddRun(tasks, s, payload);
            |after| == |tasks| + 1 && OnlyLogs(tasks + [NewTask(s)], after) && Keeps(tasks, after)
  {
    EmitOnlyLogs(tasks + [NewTask(s)], |tasks|, "child.run.queued", payload);
  }

  /** The new run is in its place. */
  lemma NewRunPlaced(tasks: seq<Task>, s: StartInput, j: nat, after: seq<Task>)
    requires Keeps(tasks, after) && |after| == |tasks| + 1
    requires after[|tasks|].id == s.id && after[|tasks|].input == StartToValue(s)
    requires WellPlaced(tasks, s, j) && Checked(s.policy).Ok? && s.id != ""
    ensures Sound(after, |tasks|)
    ensures RunOf(after[|tasks|]).parentRunId == s.parentRunId
    ensures s.parentRunId != "" ==> HangsBelow(after, |tasks|, j)
  {
    TopologySurvives(s, after[|tasks|]);
    if s.parentRunId != "" {
      KeptRun(tasks, after, j);
      assert HangsBelow(after, |tasks|, j);
    }
  }

  lemma DistinctGrows(tasks: seq<Task>, after: seq<Task>)
    requires DistinctIds(tasks) && Keeps(tasks, after) && |after| == |tasks| + 1
    requires forall k | 0 <= k < |tasks| :: tasks[k].id != after[|tasks|].id
    ensures DistinctIds(after)
  {
  }

  lemma ForestGrows(tasks: seq<Task>, s: StartInput, j: nat, after: seq<Task>)
    requires Forest(tasks) && Keeps(tasks, after) && |after| == |tasks| + 1
    requires after[|tasks|].id == s.id && after[|tasks|].input == StartToValue(s)
    requires WellPlaced(tasks, s, j) && Checked(s.policy).Ok?
    requires s.id != "" && forall k | 0 <= k < |tasks| :: tasks[k].id != s.id
    ensures Forest(after)
  {
    DistinctGrows(tasks, after);
    NewRunPlaced(tasks, s, j, after);
    OneMoreSound(tasks, after);
  }

  lemma OneMoreSound(s: seq<Task>, t: seq<Task>)
    requires Forest(s) && Keeps(s, t) && |t| == |s| + 1 && Sound(t, |s|)
    ensures forall i | 0 <= i < |t| :: Sound(t, i)
  {
    forall i | 0 <= i < |s| ensures Sound(t, i) {
      KeptSound(s, t, i);
    }
  }

  lemma StartKeepsForest(
      tasks: seq<Task>, policy: Policy, asked: StartInput, generated: string, payload: Value, after: seq<Task>)
    requires Inv(tasks) && generated != "" && Admit(tasks, policy, asked, generated).Ok?
    requires after == AddRun(tasks, Admit(tasks, policy, asked, generated).value, payload)
    ensures Forest(after)
  {
    var s, j := AdmittedTopology(tasks, policy, asked, generated);
    AddedRun(tasks, s, payload);
    ForestGrows(tasks, s, j, after);
  }

  lemma StartKeepsLedgers(tasks: seq<Task>, s: StartInput, payload: Value)
    requires LedgersSound(tasks)
    ensures LedgersSound(AddRun(tasks, s, payload))
  {
    var after := AddRun(tasks, s, payload);
    AddedRun(tasks, s, payload);
    forall i | 0 <= i < |after| ensures after[i].ledgerChildren <= Count(after, ChildOf(after[i].id)) {
      CountSame(tasks + [NewTask(s)], after, ChildOf(after[i].id));
      CountAppend(tasks, NewTask(s), ChildOf(after[i].id));
    }
  }

  lemma ChangeKeepsInv(s: seq<Task>, t: seq<Task>, i: nat, status: Status)
    requires Inv(s) && Changes(s, t, i, status)
    ensures Inv(t)
  {
    KeptForest(s, t);
    forall k | 0 <= k < |t| ensures t[k].ledgerChildren <= Count(t, ChildOf(t[k].id)) {
      CountSame(s, t, ChildOf(t[k].id));
    }
  }

  /** Requests without an id get one. */
  ghost predicate Sensible(op: Op) {
    op.Start? ==> op.generated != ""
  }

  lemma StartKeepsKeys(tasks: seq<Task>, s: StartInput, payload: Value)
    requires KeysDistinct(tasks) && !Taken(tasks, s.key)
    ensures KeysDistinct(AddRun(tasks, s, payload))
  {
    AddedRun(tasks, s, payload);
  }

  lemma StartKeepsInv(w: World, policy: Policy, op: Op, after: seq<Task>)
    requires Inv(w.tasks) && Sensible(op) && op.Start? && Refusable(w.tasks, policy, op).None?
    requires after == Apply(w, policy, op).tasks
    ensures Inv(after) && Keeps(w.tasks, after)
  {
    var s := Admit(w.tasks, policy, op.asked, op.generated).value;
    StartKeepsForest(w.tasks, policy, op.asked, op.generated, op.payload, after);
    StartKeepsLedgers(w.tasks, s, op.payload);
    StartKeepsKeys(w.tasks, s, op.payload);
    AddedRun(w.tasks, s, op.payload);
  }

  lemma StepKeepsInv(w: World, policy: Policy, op: Op)
    requires Inv(w.tasks) && Sensible(op)
    ensures Inv(Apply(w, policy, op).tasks) && Keeps(w.tasks, Apply(w, policy, op).tasks)
  {
    var after := Apply(w, policy, op);
    if after != w {
      if op.Start? {
        StartKeepsInv(w, policy, op, after.tasks);
      } else {
        var i, status := StepChanges(w, policy, op);
        ChangeKeepsInv(w.tasks, after.tasks, i, status);
      }
    }
  }

  lemma {:induction false} InvAlong(w: World, policy: Policy, ops: seq<Op>)
    requires Inv(w.tasks) && forall k | 0 <= k < |ops| :: Sensible(ops[k])
    ensures Inv(ApplyAll(w, policy, ops).tasks) && Keeps(w.tasks, ApplyAll(w, policy, ops).tasks)
    decreases |ops|
  {
    if ops != [] {
      StepKeepsInv(w, policy, ops[0]);
      InvAlong(Apply(w, policy, ops[0]), policy, ops[1..]);
    }
  }

  /** Every world that operations reach from nothing is a forest in which leaves have no children, stored
      or shown, and topologies never change. */
  lemma ReachableForest(policy: Policy, ops: seq<Op>, i: nat)
    requires forall k | 0 <= k < |ops| :: Sensible(ops[k])
    requires i < |ApplyAll(NOTHING, policy, ops).tasks|
    ensures var tasks := ApplyAll(NOTHING, policy, ops).tasks;
            && Forest(tasks)
            && Get(tasks, tasks[i].id) == Some(RunOf(tasks[i]))
            && (RunOf(tasks[i]).role == "leaf" ==> Count(tasks, ChildOf(tasks[i].id)) == 0 && ChildCount(tasks, i) == 0)
  {
    InvAlong(NOTHING, policy, ops);
    NeverPromoted(ApplyAll(NOTHING, policy, ops).tasks, i);
  }

  /** An owner's idempotency key starts one run at most. */
  lemma KeysUsedOnce(policy: Policy, ops: seq<Op>, tasks: seq<Task>, i: nat, j: nat)
    requires forall k | 0 <= k < |ops| :: Sensible(ops[k])
    requires tasks == ApplyAll(NOTHING, policy, ops).tasks && i < j < |tasks|
    ensures tasks[i].key == tasks[j].key ==> tasks[i].key.idempotencyKey == ""
  {
    InvAlong(NOTHING, policy, ops);
  }

  /** A child is only ever started under a run that is then open and no leaf. */
  lemma StartsUnderOpenParent(w: World, policy: Policy, op: Op) returns (tasks: seq<Task>, j: nat)
    requires Inv(w.tasks) && Sensible(op) && op.Start? && Refusable(w.tasks, policy, op).None?
    ensures tasks == Apply(w, policy, op).tasks && |tasks| == |w.tasks| + 1
    ensures RunOf(tasks[|w.tasks|]).parentRunId != "" ==>
              && HangsBelow(tasks, |w.tasks|, j) && !IsClosed(w.tasks[j].status)
              && w.tasks[j].id == RunOf(tasks[|w.tasks|]).parentRunId
  {
    var s;
    s, j := AdmittedTopology(w.tasks, policy, op.asked, op.generated);
    tasks := AddRun(w.tasks, s, op.payload);
    AddedRun(w.tasks, s, op.payload);
    NewRunPlaced(w.tasks, s, j, tasks);
  }

  // ---------------------------------------------------------------- the way to the root

  /** Each run on the path is the parent of the one before. */
  ghost predicate ParentPath(tasks: seq<Task>, p: seq<nat>) {
    && p != []
    && (forall a | 0 <= a < |p| :: p[a] < |tasks|)
    && forall a | 0 <= a < |p| - 1 :: HangsBelow(tasks, p[a], p[a + 1])
  }

  lemma PathCons(tasks: seq<Task>, i: nat, p: seq<nat>)
    requires i < |tasks| && ParentPath(tasks, p) && HangsBelow(tasks, i, p[0])
    requires forall a, b | 0 <= a < b < |p| :: p[a] > p[b]
    ensures ParentPath(tasks, [i] + p)
    ensures forall a, b | 0 <= a < b < |p| + 1 :: ([i] + p)[a] > ([i] + p)[b]
  {
  }

  /** Following parents from any run reaches its root in exactly as many hops as its depth says. */
  lemma {:induction false} ReachesRoot(tasks: seq<Task>, i: nat) returns (p: seq<nat>)
    requires Forest(tasks) && i < |tasks|
    ensures ParentPath(tasks, p) && p[0] == i && |p| == RunOf(tasks[i]).depth + 1
    ensures var root := RunOf(tasks[p[|p| - 1]]);
            root.parentRunId == "" && root.depth == 0 && root.id == RunOf(tasks[i]).rootRunId == root.rootRunId
    ensures forall a, b | 0 <= a < b < |p| :: p[a] > p[b]
    decreases i
  {
    assert Sound(tasks, i);
    if RunOf(tasks[i]).parentRunId == "" {
      p := [i];
    } else {
      var j: nat :| HangsBelow(tasks, i, j);
      var rest := ReachesRoot(tasks, j);
      PathCons(tasks, i, rest);
      p := [i] + rest;
    }
  }
}
