/** What each step comes to in terms of the runs before and after it: the status of the run, what its log and its
    parent's log gain, and that nothing else changes. */
module AsyncEffects {
  import opened Wrappers
  import opened Values
  import opened AsyncPolicy
  import opened AsyncRuns
  import opened AsyncForest
  import opened AsyncTopology
  import opened AsyncMirror

  /** A status, a child count, and new entries in the log of a run and in that of its parent. */
  datatype Effect = Effect(status: Status, children: int, own: seq<Event>, above: seq<Event>)
  {
    function Then(next: Effect): Effect {
      Effect(next.status, next.children, own + next.own, above + next.above)
    }
  }

  /** Run `i` and its parent are changed in this way, and all else is as before. */
  ghost predicate Comes(s: seq<Task>, t: seq<Task>, i: nat, e: Effect)
    requires i < |s|
  {
    && |t| == |s|
    && forall k | 0 <= k < |s| ::
         t[k] == if k == i then s[i].(status := e.status, ledgerChildren := e.children, log := s[i].log + e.own)
                 else if s[k].id == RunOf(s[i]).parentRunId then s[k].(log := s[k].log + e.above)
                 else s[k]
  }

  /** A child event, which a root does not emit. */
  function ChildNews(t: Task, kind: string, payload: Value): seq<Event> {
    if RunOf(t).parentRunId == "" then [] else [Event(kind, t.id, payload)]
  }

  lemma Together(s: seq<Task>, t: seq<Task>, u: seq<Task>, i: nat, a: Effect, b: Effect)
    requires i < |s| && Comes(s, t, i, a) && Comes(t, u, i, b)
    ensures Comes(s, u, i, a.Then(b))
  {
    assert RunOf(t[i]).parentRunId == RunOf(s[i]).parentRunId;
    forall k | 0 <= k < |s|
      ensures s[k].log + (a.own + b.own) == (s[k].log + a.own) + b.own
      ensures s[k].log + (a.above + b.above) == (s[k].log + a.above) + b.above
    {
    }
  }

  lemma KeepsForest(s: seq<Task>, t: seq<Task>, i: nat, e: Effect)
    requires Forest(s) && i < |s| && Comes(s, t, i, e)
    ensures Forest(t) && forall kind, payload :: ChildNews(t[i], kind, payload) == ChildNews(s[i], kind, payload)
  {
    KeptForest(s, t);
  }

  // ---------------------------------------------------------------- single entries

  lemma StatusComes(tasks: seq<Task>, i: nat, status: Status)
    requires i < |tasks|
    ensures Comes(tasks, SetStatus(tasks, i, status), i, Effect(status, tasks[i].ledgerChildren, [], []))
  {
    forall k | 0 <= k < |tasks| ensures tasks[k].log + [] == tasks[k].log {
    }
  }

  lemma LoggedComes(tasks: seq<Task>, i: nat, e: Event)
    requires i < |tasks|
    ensures Comes(tasks, Logged(tasks, i, e), i, Effect(tasks[i].status, tasks[i].ledgerChildren, [e], []))
  {
    forall k | 0 <= k < |tasks| ensures tasks[k].log + [] == tasks[k].log {
    }
  }

  lemma EmittedComes(tasks: seq<Task>, i: nat, kind: string, payload: Value)
    requires Forest(tasks) && i < |tasks|
    ensures var news := ChildNews(tasks[i], kind, payload);
            Comes(tasks, EmitChild(tasks, i, kind, payload), i,
                  Effect(tasks[i].status, tasks[i].ledgerChildren, news, news))
  {
    assert Sound(tasks, i);
    if RunOf(tasks[i]).parentRunId == "" {
      RootsEmitNothing(tasks, i, kind, payload);
      forall k | 0 <= k < |tasks| ensures tasks[k].log + [] == tasks[k].log {
      }
    } else {
      var p: nat :| HangsBelow(tasks, i, p);
      EmittedTo(tasks, i, p, kind, payload);
    }
  }

  lemma ThenLogged(s: seq<Task>, t: seq<Task>, i: nat, e: Effect, entry: Event)
    requires i < |s| && Comes(s, t, i, e)
    ensures Comes(s, Logged(t, i, entry), i, e.(own := e.own + [entry]))
  {
    LoggedComes(t, i, entry);
    Together(s, t, Logged(t, i, entry), i, e, Effect(e.status, e.children, [entry], []));
    assert e.above + [] == e.above;
  }

  lemma ThenEmitted(s: seq<Task>, t: seq<Task>, i: nat, e: Effect, kind: string, payload: Value)
    requires Forest(s) && i < |s| && Comes(s, t, i, e)
    ensures var news := ChildNews(s[i], kind, payload);
            Comes(s, EmitChild(t, i, kind, payload), i, e.(own := e.own + news, above := e.above + news))
  {
    var news := ChildNews(s[i], kind, payload);
    KeepsForest(s, t, i, e);
    EmittedComes(t, i, kind, payload);
    Together(s, t, EmitChild(t, i, kind, payload), i, e, Effect(e.status, e.children, news, news));
  }

  // ---------------------------------------------------------------- an attempt

  /** A worker that found a runner reports the start to the run and its parent. */
  lemma BeginInPlainTerms(tasks: seq<Task>, i: nat, payload: Value)
    requires Forest(tasks) && i < |tasks|
    ensures var news := ChildNews(tasks[i], "child.run.started", payload);
            var own := [Event("async_run.started", "", Null), Event("async_run.activity", "", Null)];
            Comes(tasks, BeginRun(tasks, i, payload), i,
                  Effect(tasks[i].status, tasks[i].ledgerChildren, own + news, news))
  {
    var started, active := Event("async_run.started", "", Null), Event("async_run.activity", "", Null);
    var one := Logged(tasks, i, started);
    var two := Logged(one, i, active);
    var e := Effect(tasks[i].status, tasks[i].ledgerChildren, [started], []);
    LoggedComes(tasks, i, started);
    ThenLogged(tasks, one, i, e, active);
    assert [started] + [active] == [started, active];
    ThenEmitted(tasks, two, i, e.(own := [started, active]), "child.run.started", payload);
    assert [] + ChildNews(tasks[i], "child.run.started", payload) == ChildNews(tasks[i], "child.run.started", payload);
  }

  const ACTIVITY := Event("async_run.activity", "", Null)

  lemma TwoEntries(s: seq<Task>, t: seq<Task>, i: nat, status: Status, children: int, over: Event)
    requires i < |s| && Comes(s, t, i, Effect(status, children, [], []))
    ensures Comes(s, Logged(Logged(t, i, ACTIVITY), i, over), i, Effect(status, children, [ACTIVITY, over], []))
  {
    var e := Effect(status, children, [], []);
    ThenLogged(s, t, i, e, ACTIVITY);
    assert [] + [ACTIVITY] == [ACTIVITY];
    ThenLogged(s, Logged(t, i, ACTIVITY), i, e.(own := [ACTIVITY]), over);
    assert [ACTIVITY] + [over] == [ACTIVITY, over];
  }

  lemma ThenNews(s: seq<Task>, t: seq<Task>, i: nat, e: Effect, kind: string, payload: Value)
    requires Forest(s) && i < |s| && Comes(s, t, i, e) && e.above == []
    ensures var news := ChildNews(s[i], kind, payload);
            Comes(s, EmitChild(t, i, kind, payload), i, e.(own := e.own + news, above := news))
  {
    ThenEmitted(s, t, i, e, kind, payload);
    assert [] + ChildNews(s[i], kind, payload) == ChildNews(s[i], kind, payload);
  }

  lemma ThenTwoNews(s: seq<Task>, t: seq<Task>, i: nat, e: Effect, first: string, p: Value, second: string, q: Value)
    requires Forest(s) && i < |s| && Comes(s, t, i, e) && e.above == []
    ensures var news := ChildNews(s[i], first, p) + ChildNews(s[i], second, q);
            Comes(s, EmitChild(EmitChild(t, i, first, p), i, second, q), i, e.(own := e.own + news, above := news))
  {
    var one, two := ChildNews(s[i], first, p), ChildNews(s[i], second, q);
    ThenNews(s, t, i, e, first, p);
    ThenEmitted(s, EmitChild(t, i, first, p), i, e.(own := e.own + one, above := one), second, q);
    assert (e.own + one) + two == e.own + (one + two);
  }

  lemma Words(outcome: Outcome)
    ensures "async_run." + outcome.Kind()
            == match outcome
               case Succeeded => "async_run.completed"
               case Broke => "async_run.failed"
               case Stopped => "async_run.cancelled"
    ensures "child.run." + outcome.Kind()
            == match outcome
               case Succeeded => "child.run.completed"
               case Broke => "child.run.failed"
               case Stopped => "child.run.cancelled"
  {
  }

  /** A completed attempt stores the number of children and reports the ledger and the completion. */
  lemma CompletionInPlainTerms(tasks: seq<Task>, i: nat, ledgerPayload: Value, payload: Value)
    requires Forest(tasks) && i < |tasks|
    ensures var news := ChildNews(tasks[i], "child.run.ledger.updated", ledgerPayload)
                        + ChildNews(tasks[i], "child.run.completed", payload);
            Comes(tasks, EndRun(tasks, i, Succeeded, ledgerPayload, payload), i,
                  Effect(Completed, Count(tasks, ChildOf(tasks[i].id)),
                         [ACTIVITY, Event("async_run.completed", "", Null)] + news, news))
  {
    var children := Count(tasks, ChildOf(tasks[i].id));
    var ended := SetStatus(tasks[i := tasks[i].(ledgerChildren := children)], i, Completed);
    var over := PlainEvent("async_run." + Succeeded.Kind());
    var word := "child.run." + Succeeded.Kind();
    CountedComes(tasks, i, children);
    TwoEntries(tasks, ended, i, Completed, children, over);
    ThenTwoNews(tasks, Logged(Logged(ended, i, ACTIVITY), i, over), i,
                Effect(Completed, children, [ACTIVITY, over], []),
                "child.run.ledger.updated", ledgerPayload, word, payload);
    Words(Succeeded);
  }

  lemma CountedComes(tasks: seq<Task>, i: nat, children: int)
    requires i < |tasks|
    ensures Comes(tasks, SetStatus(tasks[i := tasks[i].(ledgerChildren := children)], i, Completed), i,
                  Effect(Completed, children, [], []))
  {
    forall k | 0 <= k < |tasks| ensures tasks[k].log + [] == tasks[k].log {
    }
  }

  /** An attempt that failed leaves the run failed, one that was stopped leaves it cancelled; the count of
      children stays. */
  lemma FailureInPlainTerms(tasks: seq<Task>, i: nat, ledgerPayload: Value, payload: Value)
    requires Forest(tasks) && i < |tasks|
    ensures var news := ChildNews(tasks[i], "child.run.failed", payload);
            Comes(tasks, EndRun(tasks, i, Broke, ledgerPayload, payload), i,
                  Effect(Failed, tasks[i].ledgerChildren,
                         [ACTIVITY, Event("async_run.failed", "", Null)] + news, news))
  {
    NotCompletedComes(tasks, i, Broke, ledgerPayload, payload);
    Words(Broke);
  }

  lemma StopInPlainTerms(tasks: seq<Task>, i: nat, ledgerPayload: Value, payload: Value)
    requires Forest(tasks) && i < |tasks|
    ensures var news := ChildNews(tasks[i], "child.run.cancelled", payload);
            Comes(tasks, EndRun(tasks, i, Stopped, ledgerPayload, payload), i,
                  Effect(Cancelled, tasks[i].ledgerChildren,
                         [ACTIVITY, Event("async_run.cancelled", "", Null)] + news, news))
  {
    NotCompletedComes(tasks, i, Stopped, ledgerPayload, payload);
    Words(Stopped);
  }

  lemma NotCompletedComes(tasks: seq<Task>, i: nat, outcome: Outcome, ledgerPayload: Value, payload: Value)
    requires Forest(tasks) && i < |tasks| && !outcome.Succeeded?
    ensures var news := ChildNews(tasks[i], "child.run." + outcome.Kind(), payload);
            Comes(tasks, EndRun(tasks, i, outcome, ledgerPayload, payload), i,
                  Effect(outcome.Status(), tasks[i].ledgerChildren,
                         [ACTIVITY, PlainEvent("async_run." + outcome.Kind())] + news, news))
  {
    var status, word := outcome.Status(), "child.run." + outcome.Kind();
    var over := PlainEvent("async_run." + outcome.Kind());
    var ended := SetStatus(tasks, i, status);
    StatusComes(tasks, i, status);
    TwoEntries(tasks, ended, i, status, tasks[i].ledgerChildren, over);
    ThenNews(tasks, Logged(Logged(ended, i, ACTIVITY), i, over), i,
             Effect(status, tasks[i].ledgerChildren, [ACTIVITY, over], []), word, payload);
  }

  // ---------------------------------------------------------------- the controller's calls

  lemma AskedComes(tasks: seq<Task>, i: nat, status: Status, a: string, b: string, c: string)
    requires i < |tasks|
    ensures Comes(tasks, Logged(Logged(Logged(SetStatus(tasks, i, status), i, PlainEvent(a)), i, PlainEvent(b)), i,
                                PlainEvent(c)), i,
                  Effect(status, tasks[i].ledgerChildren,
                         [Event(a, "", Null), Event(b, "", Null), Event(c, "", Null)], []))
  {
    var set0 := SetStatus(tasks, i, status);
    var e := Effect(status, tasks[i].ledgerChildren, [], []);
    var one := Logged(set0, i, PlainEvent(a));
    var two := Logged(one, i, PlainEvent(b));
    StatusComes(tasks, i, status);
    ThenLogged(tasks, set0, i, e, PlainEvent(a));
    ThenLogged(tasks, one, i, e.(own := [] + [PlainEvent(a)]), PlainEvent(b));
    ThenLogged(tasks, two, i, e.(own := [] + [PlainEvent(a)] + [PlainEvent(b)]), PlainEvent(c));
    assert [] + [PlainEvent(a)] + [PlainEvent(b)] + [PlainEvent(c)] == [PlainEvent(a), PlainEvent(b), PlainEvent(c)];
  }

  /** Resuming queues the run and logs it, for that run only. */
  lemma ResumeInPlainTerms(tasks: seq<Task>, i: nat)
    requires i < |tasks|
    ensures Comes(tasks, ResumeRun(tasks, i), i,
                  Effect(Queued, tasks[i].ledgerChildren,
                         [Event("async_run.resume.requested", "", Null), Event("async_run.activity", "", Null),
                          Event("async_run.resumed", "", Null)], []))
  {
    AskedComes(tasks, i, Queued, "async_run.resume.requested", "async_run.activity", "async_run.resumed");
  }

  lemma CancelInPlainTerms(tasks: seq<Task>, i: nat)
    requires i < |tasks|
    ensures Comes(tasks, CancelRun(tasks, i), i,
                  Effect(Cancelled, tasks[i].ledgerChildren,
                         [Event("async_run.cancel.requested", "", Null), Event("async_run.activity", "", Null),
                          Event("async_run.cancelled", "", Null)], []))
  {
    AskedComes(tasks, i, Cancelled, "async_run.cancel.requested", "async_run.activity", "async_run.cancelled");
  }

  // ---------------------------------------------------------------- a start

  /** How a request for a root is filled in: it is its own root. */
  lemma RootInPlainTerms(tasks: seq<Task>, policy: Policy, asked: StartInput, generated: string, s: StartInput)
    requires Admit(tasks, policy, asked, generated) == Ok(s) && asked.parentRunId == ""
    ensures s == asked.(id := s.id, kind := s.kind, rootRunId := s.id, depth := 0, role := s.role)
    ensures s.id == if asked.id == "" then generated else asked.id
    ensures s.kind == (if asked.kind == "" then "agent.run" else asked.kind) && s.kind != "subagent.run"
    ensures s.role == if asked.role == "" then "orchestrator" else asked.role
  {
  }

  /** A child takes its place from its parent, whatever was asked for. */
  lemma ChildInPlainTerms(tasks: seq<Task>, policy: Policy, asked: StartInput, generated: string, s: StartInput, j: nat)
    requires Inv(tasks) && Admit(tasks, policy, asked, generated) == Ok(s) && generated != ""
    requires asked.parentRunId != "" && j == Find(tasks, asked.parentRunId)
    ensures s == asked.(id := s.id, kind := s.kind, rootRunId := s.rootRunId, depth := s.depth, role := s.role,
                        relation := s.relation)
    ensures s.id == if asked.id == "" then generated else asked.id
    ensures s.kind == if asked.kind == "" || asked.kind == "agent.run" then "subagent.run" else asked.kind
    ensures s.role == if asked.role == "" then "leaf" else asked.role
    ensures s.relation == if asked.relation == "" then "delegated" else asked.relation
    ensures j < |tasks| && s.rootRunId == RunOf(tasks[j]).rootRunId && s.depth == RunOf(tasks[j]).depth + 1
  {
    AdmittedIsNormalized(tasks, policy, asked, generated, s);
    ParentShows(tasks, asked.parentRunId, j);
    ChildFields(tasks, asked, generated, s, RunOf(tasks[j]));
  }

  lemma AdmittedIsNormalized(tasks: seq<Task>, policy: Policy, asked: StartInput, generated: string, s: StartInput)
    requires Admit(tasks, policy, asked, generated) == Ok(s)
    ensures NormalizeTopology(tasks, asked, generated) == Ok(s)
    ensures asked.parentRunId != "" ==> Find(tasks, asked.parentRunId) < |tasks|
  {
  }

  lemma ChildFields(tasks: seq<Task>, asked: StartInput, generated: string, s: StartInput, parent: Run)
    requires NormalizeTopology(tasks, asked, generated) == Ok(s) && asked.parentRunId != ""
    requires Get(tasks, asked.parentRunId) == Some(parent) && parent.rootRunId != ""
    ensures s == asked.(id := s.id, kind := s.kind, rootRunId := parent.rootRunId, depth := parent.depth + 1,
                        role := s.role, relation := s.relation)
    ensures s.id == if asked.id == "" then generated else asked.id
    ensures s.kind == if asked.kind == "" || asked.kind == "agent.run" then "subagent.run" else asked.kind
    ensures s.role == if asked.role == "" then "leaf" else asked.role
    ensures s.relation == if asked.relation == "" then "delegated" else asked.relation
  {
  }

  lemma ParentShows(tasks: seq<Task>, id: string, j: nat)
    requires Inv(tasks) && j == Find(tasks, id)
    ensures j < |tasks| ==> Get(tasks, id) == Some(RunOf(tasks[j])) && RunOf(tasks[j]).rootRunId != ""
  {
    if j < |tasks| {
      NeverPromoted(tasks, j);
      assert Sound(tasks, j);
    }
  }

  /** A start adds one queued run without children whose log begins with its creation, tells the parent of a
      child, and changes nothing else. */
  lemma StartInPlainTerms(tasks: seq<Task>, policy: Policy, asked: StartInput, generated: string, payload: Value)
    returns (s: StartInput, after: seq<Task>)
    requires Inv(tasks) && generated != "" && Admit(tasks, policy, asked, generated).Ok?
    ensures Admit(tasks, policy, asked, generated) == Ok(s) && after == AddRun(tasks, s, payload)
    ensures |after| == |tasks| + 1
    ensures var news := if s.parentRunId == "" then [] else [Event("child.run.queued", s.id, payload)];
            && after[|tasks|] == Task(s.id, StartToValue(s), s.key, Queued, 0,
                 [Event("async_run.created", "", Null), Event("async_run.queued", "", Null), ACTIVITY] + news)
            && forall k | 0 <= k < |tasks| ::
                 after[k] == if tasks[k].id == s.parentRunId then tasks[k].(log := tasks[k].log + news) else tasks[k]
  {
    var j;
    s, j := AdmittedTopology(tasks, policy, asked, generated);
    var added := tasks + [NewTask(s)];
    after := AddRun(tasks, s, payload);
    NewRunPlaced(tasks, s, j, added);
    ForestGrows(tasks, s, j, added);
    EmittedComes(added, |tasks|, "child.run.queued", payload);
  }
}
