/** What happens to a child run is told twice, in its own log and in its parent's, and the two agree. */
module AsyncMirror {
  import opened Values
  import opened AsyncPolicy
  import opened AsyncRuns
  import opened AsyncForest
  import opened AsyncTopology

  const QUEUED_KIND := "child.run.queued"

  /** The events of a log that are about this child run. */
  function About(log: seq<Event>, id: string): seq<Event> {
    if log == [] then []
    else (if log[0].childRunId == id then [log[0]] else []) + About(log[1..], id)
  }

  lemma {:induction false} AboutAppend(log: seq<Event>, e: Event, id: string)
    ensures About(log + [e], id) == About(log, id) + (if e.childRunId == id then [e] else [])
  {
    if log == [] {
      assert [e][1..] == [];
      assert About([e][1..], id) == [];
    } else {
      AboutAppend(log[1..], e, id);
      assert (log + [e])[1..] == log[1..] + [e];
    }
  }

  ghost predicate QueuedOnce(events: seq<Event>) {
    events != [] && events[0].kind == QUEUED_KIND && forall k | 1 <= k < |events| :: events[k].kind != QUEUED_KIND
  }

  /** Both logs tell the same story about run `i`, and it begins with being queued. */
  ghost predicate Mirrored(tasks: seq<Task>, i: nat, p: nat)
    requires i < |tasks| && p < |tasks|
  {
    && About(tasks[i].log, tasks[i].id) == About(tasks[p].log, tasks[i].id)
    && QueuedOnce(About(tasks[i].log, tasks[i].id))
  }

  ghost predicate Agrees(tasks: seq<Task>, i: nat)
    requires i < |tasks|
  {
    forall p: nat | HangsBelow(tasks, i, p) :: Mirrored(tasks, i, p)
  }

  ghost predicate AllAgree(tasks: seq<Task>) {
    forall i | 0 <= i < |tasks| :: Agrees(tasks, i)
  }

  ghost predicate Absent(tasks: seq<Task>, id: string) {
    forall k | 0 <= k < |tasks| :: tasks[k].id != id
  }

  /** Nothing is told about runs that do not exist. */
  ghost predicate Silent(tasks: seq<Task>, id: string) {
    forall k | 0 <= k < |tasks| :: About(tasks[k].log, id) == []
  }

  ghost predicate Mirrors(tasks: seq<Task>) {
    && AllAgree(tasks)
    && forall id: string | id != "" && Absent(tasks, id) :: Silent(tasks, id)
  }

  /** Logs that differ only in what is about one run. */
  ghost predicate SameButAbout(s: seq<Task>, t: seq<Task>, id: string) {
    && Keeps(s, t) && |s| == |t|
    && forall k, other: string | 0 <= k < |s| && other != "" && other != id ::
         About(t[k].log, other) == About(s[k].log, other)
  }

  lemma SameFind(s: seq<Task>, t: seq<Task>, id: string)
    requires Keeps(s, t) && |s| == |t|
    ensures Find(s, id) == Find(t, id)
  {
    var i, j := Find(s, id), Find(t, id);
    assert i < |s| ==> t[i].id == id;
    assert j < |t| ==> s[j].id == id;
  }

  lemma SameAbsent(s: seq<Task>, t: seq<Task>, id: string)
    requires Keeps(s, t) && Absent(t, id)
    ensures Absent(s, id)
  {
    forall k | 0 <= k < |s| ensures s[k].id != id {
      assert t[k].id == s[k].id;
    }
  }

  lemma OnlyParent(tasks: seq<Task>, i: nat, p: nat, q: nat)
    requires DistinctIds(tasks) && i < |tasks| && HangsBelow(tasks, i, p) && HangsBelow(tasks, i, q)
    ensures p == q
  {
  }

  lemma SamePlaces(s: seq<Task>, t: seq<Task>, i: nat, p: nat)
    requires Keeps(s, t) && |s| == |t| && i < |s|
    ensures HangsBelow(s, i, p) <==> HangsBelow(t, i, p)
  {
  }

  lemma OthersAgree(s: seq<Task>, t: seq<Task>, i: nat, c: nat)
    requires i < |s| && c < |s| && i != c && Forest(s) && Agrees(s, c) && SameButAbout(s, t, s[i].id)
    ensures Agrees(t, c)
  {
    forall p: nat | HangsBelow(t, c, p) ensures Mirrored(t, c, p) {
      SamePlaces(s, t, c, p);
      assert Mirrored(s, c, p);
      assert Sound(s, c);
    }
  }

  /** If the two logs of the one run still agree, all do. */
  lemma MirrorsKept(s: seq<Task>, t: seq<Task>, i: nat)
    requires Forest(s) && Mirrors(s) && i < |s| && SameButAbout(s, t, s[i].id)
    requires Agrees(t, i)
    ensures Forest(t) && Mirrors(t)
  {
    KeptForest(s, t);
    forall c | 0 <= c < |t| ensures Agrees(t, c) {
      if c != i {
        OthersAgree(s, t, i, c);
      }
    }
    forall id: string | id != "" && Absent(t, id) ensures Silent(t, id) {
      SameAbsent(s, t, id);
      assert Silent(s, id);
    }
  }

  // ---------------------------------------------------------------- small steps

  /** Steps that do not touch logs. */
  lemma FieldsKeepMirrors(s: seq<Task>, t: seq<Task>)
    requires Forest(s) && Mirrors(s) && Keeps(s, t) && |s| == |t| && forall k | 0 <= k < |s| :: t[k].log == s[k].log
    ensures Forest(t) && Mirrors(t)
  {
    KeptForest(s, t);
    forall c | 0 <= c < |t| ensures Agrees(t, c) {
      assert Agrees(s, c);
      forall p: nat | HangsBelow(t, c, p) ensures Mirrored(t, c, p) {
        SamePlaces(s, t, c, p);
        assert Mirrored(s, c, p);
      }
    }
    forall id: string | id != "" && Absent(t, id) ensures Silent(t, id) {
      SameAbsent(s, t, id);
      assert Silent(s, id);
    }
  }

  lemma PlainKeepsMirrors(tasks: seq<Task>, i: nat, kind: string)
    requires Forest(tasks) && Mirrors(tasks) && i < |tasks|
    ensures var t := Logged(tasks, i, PlainEvent(kind)); Forest(t) && Mirrors(t) && Keeps(tasks, t)
  {
    var t := Logged(tasks, i, PlainEvent(kind));
    forall id: string | id != "" ensures About(t[i].log, id) == About(tasks[i].log, id) {
      AboutAppend(tasks[i].log, PlainEvent(kind), id);
    }
    assert Agrees(tasks, i);
    forall p: nat | HangsBelow(t, i, p) ensures Mirrored(t, i, p) {
      SamePlaces(tasks, t, i, p);
      assert Mirrored(tasks, i, p) && Sound(tasks, i);
    }
    MirrorsKept(tasks, t, i);
  }

  /** Where a child event goes. */
  lemma EmittedTo(tasks: seq<Task>, i: nat, p: nat, kind: string, payload: Value)
    requires Forest(tasks) && i < |tasks| && HangsBelow(tasks, i, p)
    ensures var e := Event(kind, tasks[i].id, payload);
            var t := EmitChild(tasks, i, kind, payload);
            && |t| == |tasks|
            && (forall k | 0 <= k < |t| ::
                  t[k] == if k == i || k == p then tasks[k].(log := tasks[k].log + [e]) else tasks[k])
  {
    var own := Logged(tasks, i, Event(kind, tasks[i].id, payload));
    assert Sound(tasks, i) && Sound(tasks, p);
    FindOwn(tasks, p);
    SameFind(tasks, own, tasks[p].id);
  }

  lemma RootsEmitNothing(tasks: seq<Task>, i: nat, kind: string, payload: Value)
    requires Forest(tasks) && i < |tasks| && RunOf(tasks[i]).parentRunId == ""
    ensures EmitChild(tasks, i, kind, payload) == tasks
  {
    assert Sound(tasks, i);
  }

  lemma EmitKeepsMirrors(tasks: seq<Task>, i: nat, kind: string, payload: Value)
    requires Forest(tasks) && Mirrors(tasks) && i < |tasks| && kind != QUEUED_KIND
    ensures var t := EmitChild(tasks, i, kind, payload); Forest(t) && Mirrors(t) && Keeps(tasks, t)
  {
    assert Sound(tasks, i);
    if RunOf(tasks[i]).parentRunId == "" {
      RootsEmitNothing(tasks, i, kind, payload);
    } else {
      var p: nat :| HangsBelow(tasks, i, p);
      EmitBothKeepsMirrors(tasks, i, p, kind, payload);
    }
  }

  lemma EmitBothKeepsMirrors(tasks: seq<Task>, i: nat, p: nat, kind: string, payload: Value)
    requires Forest(tasks) && Mirrors(tasks) && i < |tasks| && HangsBelow(tasks, i, p) && kind != QUEUED_KIND
    ensures var t := EmitChild(tasks, i, kind, payload); Forest(t) && Mirrors(t) && Keeps(tasks, t)
  {
    var e := Event(kind, tasks[i].id, payload);
    var t := EmitChild(tasks, i, kind, payload);
    EmittedTo(tasks, i, p, kind, payload);
    forall k, id: string | 0 <= k < |tasks|
      ensures About(t[k].log, id)
              == About(tasks[k].log, id) + (if (k == i || k == p) && id == tasks[i].id then [e] else [])
    {
      AboutAppend(tasks[k].log, e, id);
    }
    assert Agrees(tasks, i);
    forall q: nat | HangsBelow(t, i, q) ensures Mirrored(t, i, q) {
      SamePlaces(tasks, t, i, q);
      OnlyParent(tasks, i, p, q);
      assert Mirrored(tasks, i, p);
    }
    MirrorsKept(tasks, t, i);
  }

  // ---------------------------------------------------------------- the operations

  /** The kinds of the later events differ from the first one in the eleventh letter. */
  lemma LaterKind(kind: string)
    requires |kind| > 10 && kind[10] != 'q'
    ensures kind != QUEUED_KIND
  {
    assert QUEUED_KIND[10] == 'q';
  }

  lemma BeginKeepsMirrors(tasks: seq<Task>, i: nat, payload: Value)
    requires Forest(tasks) && Mirrors(tasks) && i < |tasks|
    ensures Mirrors(BeginRun(tasks, i, payload))
  {
    var started := Logged(tasks, i, PlainEvent("async_run.started"));
    PlainKeepsMirrors(tasks, i, "async_run.started");
    PlainKeepsMirrors(started, i, "async_run.activity");
    LaterKind("child.run.started");
    EmitKeepsMirrors(Logged(started, i, PlainEvent("async_run.activity")), i, "child.run.started", payload);
  }

  lemma EndKeepsMirrors(tasks: seq<Task>, i: nat, outcome: Outcome, ledgerPayload: Value, payload: Value)
    requires Forest(tasks) && Mirrors(tasks) && i < |tasks|
    ensures Mirrors(EndRun(tasks, i, outcome, ledgerPayload, payload))
  {
    var counted :=
      if outcome.Succeeded? then tasks[i := tasks[i].(ledgerChildren := Count(tasks, ChildOf(tasks[i].id)))] else tasks;
    var done := SetStatus(counted, i, outcome.Status());
    FieldsKeepMirrors(tasks, done);
    var ended := Logged(done, i, PlainEvent("async_run.activity"));
    PlainKeepsMirrors(done, i, "async_run.activity");
    var told := Logged(ended, i, PlainEvent("async_run." + outcome.Kind()));
    PlainKeepsMirrors(ended, i, "async_run." + outcome.Kind());
    LaterKind("child.run.ledger.updated");
    EmitKeepsMirrors(told, i, "child.run.ledger.updated", ledgerPayload);
    var ledger := if outcome.Succeeded? then EmitChild(told, i, "child.run.ledger.updated", ledgerPayload) else told;
    LaterKind("child.run." + outcome.Kind());
    EmitKeepsMirrors(ledger, i, "child.run." + outcome.Kind(), payload);
  }

  /** Setting a status and writing three plain events, as resuming and cancelling do. */
  lemma StatusAndThreeKeepMirrors(tasks: seq<Task>, i: nat, status: Status, a: string, b: string, c: string)
    requires Forest(tasks) && Mirrors(tasks) && i < |tasks|
    ensures var first := Logged(SetStatus(tasks, i, status), i, PlainEvent(a));
            Mirrors(Logged(Logged(first, i, PlainEvent(b)), i, PlainEvent(c)))
  {
    var changed := SetStatus(tasks, i, status);
    FieldsKeepMirrors(tasks, changed);
    PlainKeepsMirrors(changed, i, a);
    var first := Logged(changed, i, PlainEvent(a));
    PlainKeepsMirrors(first, i, b);
    PlainKeepsMirrors(Logged(first, i, PlainEvent(b)), i, c);
  }

  // ---------------------------------------------------------------- starting

  lemma NewLogIsPlain(s: StartInput, id: string)
    requires id != ""
    ensures About(NewTask(s).log, id) == []
  {
    var a, b, c := PlainEvent("async_run.created"), PlainEvent("async_run.queued"), PlainEvent("async_run.activity");
    AboutAppend([], a, id);
    AboutAppend([a], b, id);
    AboutAppend([a, b], c, id);
    assert [] + [a] == [a] && [a] + [b] == [a, b] && [a, b] + [c] == NewTask(s).log;
  }

  /** What the old logs say about the old runs has not changed. */
  ghost predicate OldNews(tasks: seq<Task>, after: seq<Task>, id: string) {
    && Keeps(tasks, after) && |after| == |tasks| + 1 && after[|tasks|].id == id
    && forall k, other: string | 0 <= k < |tasks| && other != "" && other != id ::
         About(after[k].log, other) == About(tasks[k].log, other)
  }

  lemma OldAgree(tasks: seq<Task>, after: seq<Task>, id: string, c: nat)
    requires c < |tasks| && Agrees(tasks, c) && OldNews(tasks, after, id) && tasks[c].id != id && tasks[c].id != ""
    ensures Agrees(after, c)
  {
    forall p: nat | HangsBelow(after, c, p) ensures Mirrored(after, c, p) {
      assert HangsBelow(tasks, c, p);
      assert Mirrored(tasks, c, p);
    }
  }

  lemma StillSilent(tasks: seq<Task>, after: seq<Task>, id: string, other: string)
    requires Mirrors(tasks) && OldNews(tasks, after, id)
    requires other != "" && Absent(after, other) && About(after[|tasks|].log, other) == []
    ensures Silent(after, other)
  {
    SameAbsent(tasks, after, other);
    assert Silent(tasks, other);
  }

  lemma SilenceGrows(tasks: seq<Task>, after: seq<Task>, id: string)
    requires Mirrors(tasks) && OldNews(tasks, after, id)
    requires forall other: string | other != "" && other != id :: About(after[|tasks|].log, other) == []
    ensures forall other: string | other != "" && Absent(after, other) :: Silent(after, other)
  {
    forall other: string | other != "" && Absent(after, other) ensures Silent(after, other) {
      assert other != after[|tasks|].id;
      StillSilent(tasks, after, id, other);
    }
  }

  lemma AgreementGrows(tasks: seq<Task>, after: seq<Task>, id: string)
    requires AllAgree(tasks) && OldNews(tasks, after, id) && Absent(tasks, id) && Absent(tasks, "")
    requires Agrees(after, |tasks|)
    ensures AllAgree(after)
  {
    forall c | 0 <= c < |tasks| ensures Agrees(after, c) {
      OldAgree(tasks, after, id, c);
    }
  }

  /** One more run, and nothing new about the old ones. */
  lemma MirrorsGrow(tasks: seq<Task>, after: seq<Task>, id: string)
    requires Forest(tasks) && Mirrors(tasks) && OldNews(tasks, after, id) && id != "" && Absent(tasks, id)
    requires forall other: string | other != "" && other != id :: About(after[|tasks|].log, other) == []
    requires Agrees(after, |tasks|)
    ensures Mirrors(after)
  {
    SilenceGrows(tasks, after, id);
    forall k | 0 <= k < |tasks| ensures tasks[k].id != "" {
      assert Sound(tasks, k);
    }
    AgreementGrows(tasks, after, id);
  }

  /** Where the first event of a new child run goes. */
  lemma FirstEvent(tasks: seq<Task>, s: StartInput, payload: Value, p: nat, grown: seq<Task>)
    requires grown == tasks + [NewTask(s)] && Forest(grown) && HangsBelow(grown, |tasks|, p)
    ensures var e := Event(QUEUED_KIND, s.id, payload);
            var after := AddRun(tasks, s, payload);
            && |after| == |grown|
            && after[|tasks|].log == NewTask(s).log + [e]
            && after[p].log == tasks[p].log + [e]
            && (forall k | 0 <= k < |tasks| && k != p :: after[k].log == tasks[k].log)
  {
    EmittedTo(grown, |tasks|, p, QUEUED_KIND, payload);
  }

  /** The logs after the first event `e` of the new run, whose parent is `p`. */
  ghost predicate ToldBoth(tasks: seq<Task>, s: StartInput, e: Event, p: nat, after: seq<Task>) {
    && Keeps(tasks, after) && |after| == |tasks| + 1 && after[|tasks|].id == s.id && p < |tasks|
    && after[|tasks|].log == NewTask(s).log + [e] && after[p].log == tasks[p].log + [e]
    && (forall k | 0 <= k < |tasks| && k != p :: after[k].log == tasks[k].log)
  }

  lemma ToldOldNews(tasks: seq<Task>, s: StartInput, e: Event, p: nat, after: seq<Task>)
    requires ToldBoth(tasks, s, e, p, after) && e.childRunId == s.id
    ensures OldNews(tasks, after, s.id)
  {
    forall k, other: string | 0 <= k < |tasks| && other != "" && other != s.id
      ensures About(after[k].log, other) == About(tasks[k].log, other)
    {
      AboutAppend(tasks[p].log, e, other);
    }
  }

  lemma ToldAbout(tasks: seq<Task>, s: StartInput, e: Event, p: nat, after: seq<Task>, other: string)
    requires ToldBoth(tasks, s, e, p, after) && e.childRunId == s.id && other != ""
    ensures About(after[|tasks|].log, other) == if other == s.id then [e] else []
    ensures About(after[p].log, other) == About(tasks[p].log, other) + (if other == s.id then [e] else [])
  {
    NewLogIsPlain(s, other);
    AboutAppend(NewTask(s).log, e, other);
    AboutAppend(tasks[p].log, e, other);
  }

  /** A child run's first event is in both logs, and in no other. */
  lemma ChildStartMirrored(tasks: seq<Task>, s: StartInput, e: Event, p: nat, after: seq<Task>)
    requires Forest(tasks) && Mirrors(tasks) && s.id != "" && Absent(tasks, s.id)
    requires ToldBoth(tasks, s, e, p, after) && e.childRunId == s.id && e.kind == QUEUED_KIND
    requires forall q: nat | HangsBelow(after, |tasks|, q) :: q == p
    ensures Mirrors(after)
  {
    ToldOldNews(tasks, s, e, p, after);
    forall other: string | other != "" && other != s.id ensures About(after[|tasks|].log, other) == [] {
      ToldAbout(tasks, s, e, p, after, other);
    }
    assert Mirrored(after, |tasks|, p) by {
      ToldAbout(tasks, s, e, p, after, s.id);
      assert Silent(tasks, s.id);
    }
    MirrorsGrow(tasks, after, s.id);
  }

  lemma RootStartMirrored(tasks: seq<Task>, s: StartInput, payload: Value, after: seq<Task>)
    requires Forest(tasks) && Mirrors(tasks) && s.id != "" && Absent(tasks, s.id)
    requires Forest(tasks + [NewTask(s)]) && RunOf(NewTask(s)).parentRunId == ""
    requires after == AddRun(tasks, s, payload)
    ensures Mirrors(after)
  {
    RootsEmitNothing(tasks + [NewTask(s)], |tasks|, QUEUED_KIND, payload);
    assert after[|tasks|] == NewTask(s);
    forall other: string | other != "" ensures About(after[|tasks|].log, other) == [] {
      NewLogIsPlain(s, other);
    }
    forall k | 0 <= k < |tasks| ensures after[k].id != "" {
      assert Sound(tasks, k);
    }
    MirrorsGrow(tasks, after, s.id);
  }

  lemma GrownForest(tasks: seq<Task>, s: StartInput, payload: Value, after: seq<Task>)
    requires Forest(after) && after == AddRun(tasks, s, payload)
    ensures Forest(tasks + [NewTask(s)]) && Keeps(tasks + [NewTask(s)], after)
  {
    EmitOnlyLogs(tasks + [NewTask(s)], |tasks|, QUEUED_KIND, payload);
    KeptForest(after, tasks + [NewTask(s)]);
  }

  lemma ChildStart(tasks: seq<Task>, s: StartInput, payload: Value, after: seq<Task>)
    requires Forest(tasks) && Mirrors(tasks) && s.id != "" && Absent(tasks, s.id)
    requires Forest(tasks + [NewTask(s)]) && RunOf(NewTask(s)).parentRunId != ""
    requires after == AddRun(tasks, s, payload) && Keeps(tasks, after) && Keeps(tasks + [NewTask(s)], after)
    ensures Mirrors(after)
  {
    var grown := tasks + [NewTask(s)];
    assert Sound(grown, |tasks|);
    var p: nat :| HangsBelow(grown, |tasks|, p);
    ChildTold(tasks, s, payload, p, grown, after);
    ChildStartMirrored(tasks, s, Event(QUEUED_KIND, s.id, payload), p, after);
  }

  lemma StartKeepsMirrors(tasks: seq<Task>, s: StartInput, payload: Value, after: seq<Task>)
    requires Forest(tasks) && Mirrors(tasks) && s.id != "" && Absent(tasks, s.id)
    requires Forest(after) && after == AddRun(tasks, s, payload) && Keeps(tasks, after)
    ensures Mirrors(after)
  {
    GrownForest(tasks, s, payload, after);
    if RunOf(NewTask(s)).parentRunId == "" {
      RootStartMirrored(tasks, s, payload, after);
    } else {
      ChildStart(tasks, s, payload, after);
    }
  }

  lemma ChildTold(tasks: seq<Task>, s: StartInput, payload: Value, p: nat, grown: seq<Task>, after: seq<Task>)
    requires grown == tasks + [NewTask(s)] && Forest(grown) && HangsBelow(grown, |tasks|, p)
    requires after == AddRun(tasks, s, payload) && Keeps(tasks, after) && Keeps(grown, after)
    ensures ToldBoth(tasks, s, Event(QUEUED_KIND, s.id, payload), p, after)
    ensures forall q: nat | HangsBelow(after, |tasks|, q) :: q == p
  {
    FirstEvent(tasks, s, payload, p, grown);
    forall q: nat | HangsBelow(after, |tasks|, q) ensures q == p {
      SamePlaces(grown, after, |tasks|, q);
      OnlyParent(grown, |tasks|, p, q);
    }
  }

  // ---------------------------------------------------------------- whole histories

  lemma StartStepKeepsMirrors(
      tasks: seq<Task>, policy: Policy, asked: StartInput, generated: string, payload: Value, after: seq<Task>)
    requires Inv(tasks) && Mirrors(tasks) && generated != "" && Admit(tasks, policy, asked, generated).Ok?
    requires after == AddRun(tasks, Admit(tasks, policy, asked, generated).value, payload)
    ensures Mirrors(after)
  {
    var s, j := AdmittedTopology(tasks, policy, asked, generated);
    AddedRun(tasks, s, payload);
    StartKeepsForest(tasks, policy, asked, generated, payload, after);
    StartKeepsMirrors(tasks, s, payload, after);
  }

  lemma LoggedStepKeepsMirrors(w: World, policy: Policy, op: Op)
    requires Inv(w.tasks) && Mirrors(w.tasks) && (op.Begin? || op.End?) && Refusable(w.tasks, policy, op).None?
    ensures Mirrors(Apply(w, policy, op).tasks)
  {
    match op
    case Begin(id, payload) => BeginKeepsMirrors(w.tasks, Find(w.tasks, id), payload);
    case End(id, outcome, ledgerPayload, payload) =>
      EndKeepsMirrors(w.tasks, Find(w.tasks, id), outcome, ledgerPayload, payload);
  }

  lemma StatusStepKeepsMirrors(w: World, policy: Policy, op: Op)
    requires Inv(w.tasks) && Mirrors(w.tasks) && (op.Claim? || op.Pause?) && Refusable(w.tasks, policy, op).None?
    ensures Mirrors(Apply(w, policy, op).tasks)
  {
    FieldsKeepMirrors(w.tasks, Apply(w, policy, op).tasks);
  }

  lemma AskedStepKeepsMirrors(w: World, policy: Policy, op: Op)
    requires Inv(w.tasks) && Mirrors(w.tasks) && (op.Resume? || op.Cancel?) && Refusable(w.tasks, policy, op).None?
    ensures Mirrors(Apply(w, policy, op).tasks)
  {
    match op
    case Resume(id) =>
      StatusAndThreeKeepMirrors(w.tasks, Find(w.tasks, id), Queued, "async_run.resume.requested",
                                "async_run.activity", "async_run.resumed");
    case Cancel(id) =>
      StatusAndThreeKeepMirrors(w.tasks, Find(w.tasks, id), Cancelled, "async_run.cancel.requested",
                                "async_run.activity", "async_run.cancelled");
  }

  lemma StepKeepsMirrors(w: World, policy: Policy, op: Op)
    requires Inv(w.tasks) && Mirrors(w.tasks) && Sensible(op)
    ensures Mirrors(Apply(w, policy, op).tasks)
  {
    if Refusable(w.tasks, policy, op).None? {
      if op.Start? {
        StartStepKeepsMirrors(w.tasks, policy, op.asked, op.generated, op.payload, Apply(w, policy, op).tasks);
      } else if op.Begin? || op.End? {
        LoggedStepKeepsMirrors(w, policy, op);
      } else if op.Claim? || op.Pause? {
        StatusStepKeepsMirrors(w, policy, op);
      } else {
        AskedStepKeepsMirrors(w, policy, op);
      }
    }
  }

  lemma {:induction false} MirrorsAlong(w: World, policy: Policy, ops: seq<Op>)
    requires Inv(w.tasks) && Mirrors(w.tasks) && forall k | 0 <= k < |ops| :: Sensible(ops[k])
    ensures Mirrors(ApplyAll(w, policy, ops).tasks)
    decreases |ops|
  {
    if ops != [] {
      StepKeepsInv(w, policy, ops[0]);
      StepKeepsMirrors(w, policy, ops[0]);
      MirrorsAlong(Apply(w, policy, ops[0]), policy, ops[1..]);
    }
  }

  /** After every history, what a child's own log says about it is what its parent's log says about it,
      event by event, and it was reported queued once, first. */
  lemma ChildHistoriesAgree(policy: Policy, ops: seq<Op>, i: nat) returns (tasks: seq<Task>)
    requires forall k | 0 <= k < |ops| :: Sensible(ops[k])
    requires i < |ApplyAll(NOTHING, policy, ops).tasks|
    requires RunOf(ApplyAll(NOTHING, policy, ops).tasks[i]).parentRunId != ""
    ensures tasks == ApplyAll(NOTHING, policy, ops).tasks
    ensures var parent := Find(tasks, RunOf(tasks[i]).parentRunId);
            && parent < |tasks|
            && About(tasks[i].log, tasks[i].id) == About(tasks[parent].log, tasks[i].id)
            && QueuedOnce(About(tasks[i].log, tasks[i].id))
  {
    tasks := ApplyAll(NOTHING, policy, ops).tasks;
    InvAlong(NOTHING, policy, ops);
    MirrorsAlong(NOTHING, policy, ops);
    assert Sound(tasks, i) && Agrees(tasks, i);
    var p: nat :| HangsBelow(tasks, i, p);
    FindOwn(tasks, p);
    assert Mirrored(tasks, i, p);
  }
}
