/** Spawn quotas over whole histories of one controller whose callers bring no policy of their own. */
module AsyncQuota {
  import opened Wrappers
  import opened Values
  import opened AsyncPolicy
  import opened AsyncRuns
  import opened AsyncForest
  import opened AsyncTopology

  predicate Within(limit: Option<int>, n: int, slack: nat) {
    limit.Some? ==> n <= limit.value + slack
  }

  function Occurrences(ids: seq<string>, id: string): nat {
    if ids == [] then 0 else (if ids[0] == id then 1 else 0) + Occurrences(ids[1..], id)
  }

  lemma {:induction false} OccurrencesAppend(ids: seq<string>, more: string, id: string)
    ensures Occurrences(ids + [more], id) == Occurrences(ids, id) + (if more == id then 1 else 0)
  {
    if ids == [] {
      assert [more][1..] == [];
      assert Occurrences([more][1..], id) == 0;
    } else {
      OccurrencesAppend(ids[1..], more, id);
      assert (ids + [more])[1..] == ids[1..] + [more];
    }
  }

  /** Depth and the number of children per parent are bounded for good; what is active at once is bounded
      but for the failed child runs that were resumed, which nobody checks. */
  ghost predicate Quotas(w: World, policy: Policy) {
    && (forall i | 0 <= i < |w.tasks| :: Within(policy.maxSpawnDepth, RunOf(w.tasks[i]).depth, 0))
    && (forall parent :: Within(policy.maxChildRunsPerParent, Count(w.tasks, ChildOf(parent)), 0))
    && Within(policy.maxGlobalChildRuns, Count(w.tasks, ActiveChild()), |w.resumed|)
    && (forall parent ::
          Within(policy.maxChildrenPerRun, Count(w.tasks, ActiveChildOf(parent)), Occurrences(w.resumed, parent)))
  }

  // ---------------------------------------------------------------- one change of status

  function One(b: bool): nat {
    if b then 1 else 0
  }

  /** How a count moves when only run `i` changes. */
  lemma {:induction false} CountChange(s: seq<Task>, t: seq<Task>, i: nat, p: Run -> bool)
    requires |s| == |t| && i < |s|
    requires forall j | 0 <= j < |s| && j != i :: p(RunOf(s[j])) == p(RunOf(t[j]))
    ensures Count(t, p) + One(p(RunOf(s[i]))) == Count(s, p) + One(p(RunOf(t[i])))
  {
    if i == 0 {
      CountSame(s[1..], t[1..], p);
    } else {
      CountChange(s[1..], t[1..], i - 1, p);
    }
  }

  lemma ChangedRuns(s: seq<Task>, t: seq<Task>, i: nat, status: Status)
    requires Changes(s, t, i, status) && i < |s|
    ensures forall j | 0 <= j < |s| && j != i :: RunOf(t[j]) == RunOf(s[j])
    ensures RunOf(t[i]) == RunOf(s[i]).(status := status)
  {
  }

  /** A change that does not make a run active keeps all quotas. */
  lemma ChangeKeepsQuotas(w: World, after: World, policy: Policy, i: nat, status: Status)
    requires Quotas(w, policy) && i < |w.tasks| && Changes(w.tasks, after.tasks, i, status)
    requires after.resumed == w.resumed && (IsActive(status) ==> IsActive(w.tasks[i].status))
    ensures Quotas(after, policy)
  {
    ChangedRuns(w.tasks, after.tasks, i, status);
    CountChange(w.tasks, after.tasks, i, ActiveChild());
    forall parent ensures Count(after.tasks, ChildOf(parent)) == Count(w.tasks, ChildOf(parent)) {
      CountChange(w.tasks, after.tasks, i, ChildOf(parent));
    }
    forall parent ensures Count(after.tasks, ActiveChildOf(parent)) <= Count(w.tasks, ActiveChildOf(parent)) {
      CountChange(w.tasks, after.tasks, i, ActiveChildOf(parent));
    }
  }

  /** Resuming a failed child run adds one to what may be active too many. */
  lemma ResumeKeepsQuotas(w: World, after: World, policy: Policy, i: nat)
    requires Quotas(w, policy) && Inv(w.tasks) && i < |w.tasks| && Changes(w.tasks, after.tasks, i, Queued)
    requires w.tasks[i].status.Failed?
    requires var parent := RunOf(w.tasks[i]).parentRunId;
             after.resumed == if parent == "" then w.resumed else w.resumed + [parent]
    ensures Quotas(after, policy)
  {
    var own := RunOf(w.tasks[i]).parentRunId;
    assert Sound(w.tasks, i);
    ChangedRuns(w.tasks, after.tasks, i, Queued);
    CountChange(w.tasks, after.tasks, i, ActiveChild());
    forall parent ensures Count(after.tasks, ChildOf(parent)) == Count(w.tasks, ChildOf(parent)) {
      CountChange(w.tasks, after.tasks, i, ChildOf(parent));
    }
    forall parent
      ensures Within(policy.maxChildrenPerRun, Count(after.tasks, ActiveChildOf(parent)),
                     Occurrences(after.resumed, parent))
    {
      CountChange(w.tasks, after.tasks, i, ActiveChildOf(parent));
      OccurrencesAppend(w.resumed, own, parent);
    }
  }

  // ---------------------------------------------------------------- starting

  lemma CountStarted(tasks: seq<Task>, s: StartInput, payload: Value, p: Run -> bool, run: Run)
    requires run == RunOf(NewTask(s))
    ensures Count(AddRun(tasks, s, payload), p) == Count(tasks, p) + One(p(run))
  {
    AddedRun(tasks, s, payload);
    CountSame(tasks + [NewTask(s)], AddRun(tasks, s, payload), p);
    CountAppend(tasks, NewTask(s), p);
  }

  /** What an admitted request was checked for. */
  lemma AdmittedWithin(tasks: seq<Task>, policy: Policy, asked: StartInput, generated: string) returns (s: StartInput)
    requires asked.policy == NO_POLICY && Admit(tasks, policy, asked, generated).Ok?
    ensures s == Admit(tasks, policy, asked, generated).value
    ensures Checked(policy).Ok? && Within(policy.maxSpawnDepth, s.depth, 0)
    ensures s.IsChild() ==>
              && Within(policy.maxGlobalChildRuns, Count(tasks, ActiveChild()) + 1, 0)
              && Within(policy.maxChildRunsPerParent, Count(tasks, ChildOf(s.parentRunId)) + 1, 0)
              && Within(policy.maxChildrenPerRun, Count(tasks, ActiveChildOf(s.parentRunId)) + 1, 0)
  {
    s := Admit(tasks, policy, asked, generated).value;
    MergeWithNothing(policy);
  }

  predicate IsRole(role: string) {
    role == "" || role == "leaf" || role == "orchestrator"
  }

  function IdOf(asked: StartInput, generated: string): string {
    if asked.id == "" then generated else asked.id
  }

  /** Room for one more child of run `i`, each limit being the request's own where it has one. */
  predicate RoomBelow(tasks: seq<Task>, own: Policy, base: Policy, i: nat)
    requires i < |tasks|
  {
    && Within(if own.maxSpawnDepth.Some? then own.maxSpawnDepth else base.maxSpawnDepth, RunOf(tasks[i]).depth + 1, 0)
    && Within(if own.maxGlobalChildRuns.Some? then own.maxGlobalChildRuns else base.maxGlobalChildRuns,
              Count(tasks, ActiveChild()) + 1, 0)
    && Within(if own.maxChildRunsPerParent.Some? then own.maxChildRunsPerParent else base.maxChildRunsPerParent,
              Count(tasks, ChildOf(tasks[i].id)) + 1, 0)
    && Within(if own.maxChildrenPerRun.Some? then own.maxChildrenPerRun else base.maxChildrenPerRun,
              Count(tasks, ActiveChildOf(tasks[i].id)) + 1, 0)
  }

  /** The parent that a request finds. */
  lemma ParentShown(tasks: seq<Task>, i: nat, id: string)
    requires Inv(tasks) && i == Find(tasks, id)
    ensures Get(tasks, id) == if i < |tasks| then Some(RunOf(tasks[i])) else None
    ensures i < |tasks| ==> RunOf(tasks[i]).role == "leaf" || RunOf(tasks[i]).role == "orchestrator"
  {
    if i < |tasks| {
      NeverPromoted(tasks, i);
      assert Sound(tasks, i);
    }
  }

  lemma ChildNormalisedIff(tasks: seq<Task>, asked: StartInput, generated: string, parent: Option<Run>)
    requires asked.parentRunId != "" && parent == Get(tasks, asked.parentRunId)
    requires parent.Some? ==> parent.value.role == "leaf" || parent.value.role == "orchestrator"
    ensures NormalizeTopology(tasks, asked, generated).Ok?
            <==> && parent.Some? && IdOf(asked, generated) != asked.parentRunId && !IsClosed(parent.value.status)
                 && parent.value.role == "orchestrator" && IsRole(asked.role)
    ensures NormalizeTopology(tasks, asked, generated).Ok? ==>
              var s := NormalizeTopology(tasks, asked, generated).value;
              && s.id == IdOf(asked, generated) && s.parentRunId == asked.parentRunId && s.policy == asked.policy
              && s.key == asked.key && s.depth == parent.value.depth + 1
  {
    assert |"leaf"| != |"orchestrator"|;
  }

  lemma ChildPermittedIff(tasks: seq<Task>, policy: Policy, s: StartInput, i: nat)
    requires i < |tasks| && s.parentRunId == tasks[i].id != "" && s.depth == RunOf(tasks[i]).depth + 1
    ensures EnforcePolicy(tasks, policy, s) == None
            <==> && Acceptable(s.policy, policy) && RoomBelow(tasks, s.policy, policy, i)
                 && (if s.policy.allowChildSpawn.Some? then s.policy.allowChildSpawn else policy.allowChildSpawn)
                    != Some(false)
  {
    MergeFailsIff(policy, s.policy);
    if Acceptable(s.policy, policy) {
      MergeInPlainTerms(policy, s.policy);
    }
  }

  /** Exactly when a child is started: its id and its idempotency key are new, its parent is an orchestrator
      that is neither completed nor cancelled, its role is one, and by the policy in force, which is the
      request's own wherever it says something, spawning is not forbidden and there is room. */
  lemma ChildStartsIff(tasks: seq<Task>, policy: Policy, asked: StartInput, generated: string, i: nat)
    requires Inv(tasks) && asked.parentRunId != "" && i == Find(tasks, asked.parentRunId)
    ensures Admit(tasks, policy, asked, generated).Ok?
            <==> && i < |tasks| && tasks[i].status != Completed && tasks[i].status != Cancelled
                 && RunOf(tasks[i]).role == "orchestrator" && IsRole(asked.role)
                 && (forall k | 0 <= k < |tasks| :: tasks[k].id != IdOf(asked, generated))
                 && (asked.key.idempotencyKey != "" ==> forall k | 0 <= k < |tasks| :: tasks[k].key != asked.key)
                 && Acceptable(asked.policy, policy) && RoomBelow(tasks, asked.policy, policy, i)
                 && (if asked.policy.allowChildSpawn.Some? then asked.policy.allowChildSpawn
                     else policy.allowChildSpawn) != Some(false)
  {
    ParentShown(tasks, i, asked.parentRunId);
    ChildNormalisedIff(tasks, asked, generated, Get(tasks, asked.parentRunId));
    FindsNone(tasks, IdOf(asked, generated));
    AdmittedIff(tasks, policy, asked, generated);
    var normalised := NormalizeTopology(tasks, asked, generated);
    if normalised.Ok? {
      ChildPermittedIff(tasks, policy, normalised.value, i);
      KeyFree(tasks, asked.key);
    }
  }

  lemma AdmittedIff(tasks: seq<Task>, policy: Policy, asked: StartInput, generated: string)
    ensures var normalised := NormalizeTopology(tasks, asked, generated);
            Admit(tasks, policy, asked, generated).Ok?
            <==> && normalised.Ok? && EnforcePolicy(tasks, policy, normalised.value) == None
                 && Find(tasks, normalised.value.id) == |tasks| && !Taken(tasks, normalised.value.key)
  {
  }

  lemma KeyFree(tasks: seq<Task>, key: RequestKey)
    ensures !Taken(tasks, key)
            <==> (key.idempotencyKey != "" ==> forall k | 0 <= k < |tasks| :: tasks[k].key != key)
  {
  }

  lemma FindsNone(tasks: seq<Task>, id: string)
    ensures Find(tasks, id) == |tasks| <==> forall k | 0 <= k < |tasks| :: tasks[k].id != id
  {
    if Find(tasks, id) < |tasks| {
      assert tasks[Find(tasks, id)].id == id;
    }
  }

  /** A root is started exactly if its id and its idempotency key are new, its role is one, and the policy in
      force is acceptable. */
  lemma RootStartsIff(tasks: seq<Task>, policy: Policy, asked: StartInput, generated: string)
    requires asked.parentRunId == "" && asked.kind != KIND_SUBAGENT
    ensures Admit(tasks, policy, asked, generated).Ok?
            <==> && (forall k | 0 <= k < |tasks| :: tasks[k].id != IdOf(asked, generated)) && IsRole(asked.role)
                 && (asked.key.idempotencyKey != "" ==> forall k | 0 <= k < |tasks| :: tasks[k].key != asked.key)
                 && Acceptable(asked.policy, policy)
  {
    FindsNone(tasks, IdOf(asked, generated));
    MergeFailsIff(policy, asked.policy);
    if Acceptable(asked.policy, policy) {
      MergeInPlainTerms(policy, asked.policy);
    }
  }

  lemma StartKeepsQuotas(w: World, after: World, policy: Policy, op: Op)
    requires Quotas(w, policy) && Inv(w.tasks) && op.Start? && Sensible(op) && op.asked.policy == NO_POLICY
    requires Refusable(w.tasks, policy, op).None? && after == Apply(w, policy, op)
    ensures Quotas(after, policy)
  {
    var s, j := AdmittedTopology(w.tasks, policy, op.asked, op.generated);
    var same := AdmittedWithin(w.tasks, policy, op.asked, op.generated);
    var run := RunOf(NewTask(s));
    TopologySurvives(s, NewTask(s));
    StartedWithin(w, after, policy, s, op.payload, run);
  }

  lemma StartedWithin(w: World, after: World, policy: Policy, s: StartInput, payload: Value, run: Run)
    requires Quotas(w, policy) && after == w.(tasks := AddRun(w.tasks, s, payload)) && run == RunOf(NewTask(s))
    requires run.parentRunId == s.parentRunId && run.depth == s.depth && run.kind == s.kind
    requires Within(policy.maxSpawnDepth, s.depth, 0)
    requires s.IsChild() ==>
               && Within(policy.maxGlobalChildRuns, Count(w.tasks, ActiveChild()) + 1, 0)
               && Within(policy.maxChildRunsPerParent, Count(w.tasks, ChildOf(s.parentRunId)) + 1, 0)
               && Within(policy.maxChildrenPerRun, Count(w.tasks, ActiveChildOf(s.parentRunId)) + 1, 0)
    ensures Quotas(after, policy)
  {
    AddedRun(w.tasks, s, payload);
    CountStarted(w.tasks, s, payload, ActiveChild(), run);
    forall parent ensures Within(policy.maxChildRunsPerParent, Count(after.tasks, ChildOf(parent)), 0) {
      CountStarted(w.tasks, s, payload, ChildOf(parent), run);
    }
    forall parent
      ensures Within(policy.maxChildrenPerRun, Count(after.tasks, ActiveChildOf(parent)),
                     Occurrences(w.resumed, parent))
    {
      CountStarted(w.tasks, s, payload, ActiveChildOf(parent), run);
    }
    forall i | 0 <= i < |after.tasks| ensures Within(policy.maxSpawnDepth, RunOf(after.tasks[i]).depth, 0) {
      if i < |w.tasks| {
        KeptRun(w.tasks, after.tasks, i);
      } else {
        assert RunOf(after.tasks[i]).depth == run.depth;
      }
    }
  }

  // ---------------------------------------------------------------- whole histories

  ghost predicate Plain(op: Op) {
    Sensible(op) && (op.Start? ==> op.asked.policy == NO_POLICY)
  }

  /** Only resuming a failed run makes a run active that was not. */
  lemma ActiveBefore(w: World, policy: Policy, op: Op) returns (i: nat, status: Status)
    requires !op.Start? && Apply(w, policy, op) != w
    ensures i < |w.tasks| && Changes(w.tasks, Apply(w, policy, op).tasks, i, status)
    ensures op.Resume? && w.tasks[i].status.Failed? ==> status == Queued
    ensures !(op.Resume? && w.tasks[i].status.Failed?) && IsActive(status) ==> IsActive(w.tasks[i].status)
    ensures Apply(w, policy, op).resumed
            == if op.Resume? && w.tasks[i].status.Failed? && RunOf(w.tasks[i]).parentRunId != ""
               then w.resumed + [RunOf(w.tasks[i]).parentRunId] else w.resumed
  {
    i, status := StepChanges(w, policy, op);
  }

  lemma OtherStepKeepsQuotas(w: World, policy: Policy, op: Op, after: World)
    requires Quotas(w, policy) && Inv(w.tasks) && !op.Start? && after == Apply(w, policy, op) && after != w
    ensures Quotas(after, policy)
  {
    var i, status := ActiveBefore(w, policy, op);
    if op.Resume? && w.tasks[i].status.Failed? {
      ResumeKeepsQuotas(w, after, policy, i);
    } else {
      ChangeKeepsQuotas(w, after, policy, i, status);
    }
  }

  lemma StepKeepsQuotas(w: World, policy: Policy, op: Op)
    requires Quotas(w, policy) && Inv(w.tasks) && Plain(op)
    ensures Quotas(Apply(w, policy, op), policy)
  {
    var after := Apply(w, policy, op);
    if after != w {
      if op.Start? {
        StartKeepsQuotas(w, after, policy, op);
      } else {
        OtherStepKeepsQuotas(w, policy, op, after);
      }
    }
  }

  lemma {:induction false} QuotasAlong(w: World, policy: Policy, ops: seq<Op>)
    requires Quotas(w, policy) && Inv(w.tasks) && forall k | 0 <= k < |ops| :: Plain(ops[k])
    ensures Quotas(ApplyAll(w, policy, ops), policy)
    decreases |ops|
  {
    if ops != [] {
      StepKeepsQuotas(w, policy, ops[0]);
      StepKeepsInv(w, policy, ops[0]);
      QuotasAlong(Apply(w, policy, ops[0]), policy, ops[1..]);
    }
  }

  /** From an empty store, with acceptable limits, the quotas hold after every history. */
  lemma QuotasHold(policy: Policy, ops: seq<Op>)
    requires policy.LimitsValid() && forall k | 0 <= k < |ops| :: Plain(ops[k])
    ensures Quotas(ApplyAll(NOTHING, policy, ops), policy)
  {
    QuotasAlong(NOTHING, policy, ops);
  }

  /** With a negative limit nothing ever starts. */
  lemma {:induction false} BadLimitsStartNothing(policy: Policy, ops: seq<Op>)
    requires !policy.LimitsValid() && forall k | 0 <= k < |ops| :: Plain(ops[k])
    ensures ApplyAll(NOTHING, policy, ops) == NOTHING
    decreases |ops|
  {
    if ops != [] {
      if ops[0].Start? && Refusable([], policy, ops[0]).None? {
        var s := AdmittedWithin([], policy, ops[0].asked, ops[0].generated);
      }
      BadLimitsStartNothing(policy, ops[1..]);
    }
  }

  lemma ResumedCounts(tasks: seq<Task>, after: seq<Task>, i: nat, parent: string)
    requires i < |tasks| && tasks[i].status.Failed? && RunOf(tasks[i]).parentRunId == parent != ""
    requires Changes(tasks, after, i, Queued)
    ensures Count(after, ActiveChildOf(parent)) == Count(tasks, ActiveChildOf(parent)) + 1
    ensures Count(after, ActiveChild()) == Count(tasks, ActiveChild()) + 1
  {
    ChangedRuns(tasks, after, i, Queued);
    CountChange(tasks, after, i, ActiveChildOf(parent));
    CountChange(tasks, after, i, ActiveChild());
  }

  /** Why resumed runs count extra: resuming a failed child makes it active without looking at any limit, so
      that a limit still holds exactly if there was room for one more. */
  lemma ResumeIsUnchecked(w: World, policy: Policy, i: nat) returns (parent: string, after: seq<Task>)
    requires Inv(w.tasks) && i < |w.tasks| && w.tasks[i].status.Failed? && RunOf(w.tasks[i]).parentRunId != ""
    ensures parent == RunOf(w.tasks[i]).parentRunId && after == Apply(w, policy, Resume(w.tasks[i].id)).tasks
    ensures Count(after, ActiveChildOf(parent)) == Count(w.tasks, ActiveChildOf(parent)) + 1
    ensures Count(after, ActiveChild()) == Count(w.tasks, ActiveChild()) + 1
    ensures Within(policy.maxGlobalChildRuns, Count(after, ActiveChild()), 0)
            <==> Within(policy.maxGlobalChildRuns, Count(w.tasks, ActiveChild()) + 1, 0)
    ensures Within(policy.maxChildrenPerRun, Count(after, ActiveChildOf(parent)), 0)
            <==> Within(policy.maxChildrenPerRun, Count(w.tasks, ActiveChildOf(parent)) + 1, 0)
  {
    FindOwn(w.tasks, i);
    parent, after := RunOf(w.tasks[i]).parentRunId, ResumeRun(w.tasks, i);
    ResumeChanges(w.tasks, i);
    ResumedCounts(w.tasks, after, i, parent);
  }
}
