/** Everything that happens to async runs after and around their start, and the forest they form. */
module AsyncForest {
  import opened Wrappers
  import opened Values
  import opened AsyncPolicy
  import opened AsyncRuns

  // ---------------------------------------------------------------- events

  function Logged(tasks: seq<Task>, i: nat, e: Event): seq<Task>
    requires i < |tasks|
  {
    tasks[i := tasks[i].(log := tasks[i].log + [e])]
  }

  function PlainEvent(kind: string): Event {
    Event(kind, "", Null)
  }

  /** An event about a child run goes to its own log and to that of its parent. */
  function EmitChild(tasks: seq<Task>, i: nat, kind: string, payload: Value): seq<Task>
    requires i < |tasks|
  {
    var run := RunOf(tasks[i]);
    if run.parentRunId == "" && run.kind != KIND_SUBAGENT then tasks
    else
      var e := Event(kind, run.id, payload);
      var own := Logged(tasks, i, e);
      var p := Find(own, run.parentRunId);
      if run.parentRunId == "" || p == |own| then own else Logged(own, p, e)
  }

  // ---------------------------------------------------------------- steps

  datatype Outcome = Succeeded | Broke | Stopped
  {
    function Status(): Status {
      match this
      case Succeeded => Completed
      case Broke => Failed
      case Stopped => Cancelled
    }

    function Kind(): string {
      match this
      case Succeeded => "completed"
      case Broke => "failed"
      case Stopped => "cancelled"
    }
  }

  /** What the controller, the queue, a worker or the host may do; each is one atomic step here. The queue
      hands out queued runs only. */
  datatype Op =
    | Start(asked: StartInput, generated: string, payload: Value)
    | Claim(id: string)
    | Begin(id: string, payload: Value)
    | End(id: string, outcome: Outcome, ledgerPayload: Value, payload: Value)
    | Pause(id: string)
    | Resume(id: string)
    | Cancel(id: string)

  /** The tasks, and for each failed child run that was resumed so far the id of its parent. */
  datatype World = World(tasks: seq<Task>, resumed: seq<string>)

  function NewTask(s: StartInput): Task {
    Task(s.id, StartToValue(s), s.key, Queued, 0,
         [PlainEvent("async_run.created"), PlainEvent("async_run.queued"), PlainEvent("async_run.activity")])
  }

  function AddRun(tasks: seq<Task>, s: StartInput, payload: Value): seq<Task> {
    EmitChild(tasks + [NewTask(s)], |tasks|, "child.run.queued", payload)
  }

  function SetStatus(tasks: seq<Task>, i: nat, status: Status): seq<Task>
    requires i < |tasks|
  {
    tasks[i := tasks[i].(status := status)]
  }

  /** A worker found a runner for the attempt it claimed; without one it goes straight to the end. */
  function BeginRun(tasks: seq<Task>, i: nat, payload: Value): seq<Task>
    requires i < |tasks|
  {
    var started := Logged(tasks, i, PlainEvent("async_run.started"));
    EmitChild(Logged(started, i, PlainEvent("async_run.activity")), i, "child.run.started", payload)
  }

  /** A worker reports the end of an attempt, whatever has become of the run meanwhile. Completing stores
      how many children there are. */
  function EndRun(tasks: seq<Task>, i: nat, outcome: Outcome, ledgerPayload: Value, payload: Value): seq<Task>
    requires i < |tasks|
  {
    var counted :=
      if outcome.Succeeded? then tasks[i := tasks[i].(ledgerChildren := Count(tasks, ChildOf(tasks[i].id)))] else tasks;
    var ended := Logged(SetStatus(counted, i, outcome.Status()), i, PlainEvent("async_run.activity"));
    var told := Logged(ended, i, PlainEvent("async_run." + outcome.Kind()));
    var ledger := if outcome.Succeeded? then EmitChild(told, i, "child.run.ledger.updated", ledgerPayload) else told;
    EmitChild(ledger, i, "child.run." + outcome.Kind(), payload)
  }

  function ResumeRun(tasks: seq<Task>, i: nat): seq<Task>
    requires i < |tasks|
  {
    var queued := Logged(SetStatus(tasks, i, Queued), i, PlainEvent("async_run.resume.requested"));
    Logged(Logged(queued, i, PlainEvent("async_run.activity")), i, PlainEvent("async_run.resumed"))
  }

  function CancelRun(tasks: seq<Task>, i: nat): seq<Task>
    requires i < |tasks|
  {
    var cancelled := Logged(SetStatus(tasks, i, Cancelled), i, PlainEvent("async_run.cancel.requested"));
    Logged(Logged(cancelled, i, PlainEvent("async_run.activity")), i, PlainEvent("async_run.cancelled"))
  }

  function Refusable(tasks: seq<Task>, policy: Policy, op: Op): Option<Refusal> {
    match op
    case Start(asked, generated, _) =>
      (match Admit(tasks, policy, asked, generated) case Err(e) => Some(e) case Ok(_) => None)
    case Resume(id) =>
      var i := Find(tasks, id);
      if i == |tasks| then Some(RunNotFound)
      else if tasks[i].status.Waiting? || tasks[i].status.Failed? then None else Some(NotResumable)
    case Cancel(id) =>
      var i := Find(tasks, id);
      if i == |tasks| then Some(RunNotFound) else if IsClosed(tasks[i].status) then Some(NotCancellable) else None
    case Claim(id) => if Find(tasks, id) == |tasks| then Some(RunNotFound) else None
    case Begin(id, _) => if Find(tasks, id) == |tasks| then Some(RunNotFound) else None
    case End(id, _, _, _) => if Find(tasks, id) == |tasks| then Some(RunNotFound) else None
    case Pause(id) => if Find(tasks, id) == |tasks| then Some(RunNotFound) else None
  }

  /** A refused operation changes nothing. */
  function Apply(w: World, policy: Policy, op: Op): World {
    if Refusable(w.tasks, policy, op).Some? then w
    else
      match op
      case Start(asked, generated, payload) =>
        w.(tasks := AddRun(w.tasks, Admit(w.tasks, policy, asked, generated).value, payload))
      case Claim(id) =>
        var i := Find(w.tasks, id);
        if w.tasks[i].status.Queued? then w.(tasks := SetStatus(w.tasks, i, Running)) else w
      case Begin(id, payload) => w.(tasks := BeginRun(w.tasks, Find(w.tasks, id), payload))
      case End(id, outcome, ledgerPayload, payload) =>
        w.(tasks := EndRun(w.tasks, Find(w.tasks, id), outcome, ledgerPayload, payload))
      case Pause(id) =>
        var i := Find(w.tasks, id);
        if w.tasks[i].status.Running? then w.(tasks := SetStatus(w.tasks, i, Waiting)) else w
      case Resume(id) =>
        var i := Find(w.tasks, id);
        var parent := RunOf(w.tasks[i]).parentRunId;
        World(ResumeRun(w.tasks, i),
              if w.tasks[i].status.Failed? && parent != "" then w.resumed + [parent] else w.resumed)
      case Cancel(id) => w.(tasks := CancelRun(w.tasks, Find(w.tasks, id)))
  }

  function ApplyAll(w: World, policy: Policy, ops: seq<Op>): World
    decreases |ops|
  {
    if ops == [] then w else ApplyAll(Apply(w, policy, ops[0]), policy, ops[1..])
  }

  const NOTHING := World([], [])

  // ---------------------------------------------------------------- what steps leave alone

  /** The same tasks with the same topology; one status may differ, and the logs. */
  ghost predicate Changes(s: seq<Task>, t: seq<Task>, i: nat, status: Status) {
    && |s| == |t|
    && forall j | 0 <= j < |s| ::
         && t[j].id == s[j].id && t[j].input == s[j].input && t[j].key == s[j].key
         && t[j].status == (if j == i then status else s[j].status)
         && (t[j].ledgerChildren == s[j].ledgerChildren || t[j].ledgerChildren == Count(s, ChildOf(s[j].id)))
  }

  ghost predicate OnlyLogs(s: seq<Task>, t: seq<Task>) {
    |s| == |t| && forall j | 0 <= j < |s| :: t[j] == s[j].(log := t[j].log)
  }

  lemma EmitOnlyLogs(tasks: seq<Task>, i: nat, kind: string, payload: Value)
    requires i < |tasks|
    ensures OnlyLogs(tasks, EmitChild(tasks, i, kind, payload))
  {
  }

  lemma BeginChanges(tasks: seq<Task>, i: nat, payload: Value)
    requires i < |tasks|
    ensures Changes(tasks, BeginRun(tasks, i, payload), i, tasks[i].status)
  {
    var started := Logged(tasks, i, PlainEvent("async_run.started"));
    EmitOnlyLogs(Logged(started, i, PlainEvent("async_run.activity")), i, "child.run.started", payload);
  }

  lemma EndChanges(tasks: seq<Task>, i: nat, outcome: Outcome, ledgerPayload: Value, payload: Value)
    requires i < |tasks|
    ensures Changes(tasks, EndRun(tasks, i, outcome, ledgerPayload, payload), i, outcome.Status())
  {
    var counted :=
      if outcome.Succeeded? then tasks[i := tasks[i].(ledgerChildren := Count(tasks, ChildOf(tasks[i].id)))] else tasks;
    var ended := Logged(SetStatus(counted, i, outcome.Status()), i, PlainEvent("async_run.activity"));
    var told := Logged(ended, i, PlainEvent("async_run." + outcome.Kind()));
    EmitOnlyLogs(told, i, "child.run.ledger.updated", ledgerPayload);
    var ledger := if outcome.Succeeded? then EmitChild(told, i, "child.run.ledger.updated", ledgerPayload) else told;
    EmitOnlyLogs(ledger, i, "child.run." + outcome.Kind(), payload);
  }

  lemma ResumeChanges(tasks: seq<Task>, i: nat)
    requires i < |tasks|
    ensures Changes(tasks, ResumeRun(tasks, i), i, Queued)
  {
  }

  lemma CancelChanges(tasks: seq<Task>, i: nat)
    requires i < |tasks|
    ensures Changes(tasks, CancelRun(tasks, i), i, Cancelled)
  {
  }

  /** Every step but a start changes at most one status. */
  lemma StepChanges(w: World, policy: Policy, op: Op) returns (i: nat, status: Status)
    requires !op.Start? && Apply(w, policy, op) != w
    ensures i < |w.tasks| && Changes(w.tasks, Apply(w, policy, op).tasks, i, status)
    ensures match op
            case Claim(_) => w.tasks[i].status.Queued? && status.Running?
            case Begin(_, _) => status == w.tasks[i].status
            case End(_, outcome, _, _) => status == outcome.Status()
            case Pause(_) => w.tasks[i].status.Running? && status.Waiting?
            case Resume(_) => (w.tasks[i].status.Waiting? || w.tasks[i].status.Failed?) && status.Queued?
            case Cancel(_) => status.Cancelled?
            case Start(_, _, _) => true
    ensures Apply(w, policy, op).resumed
            == if op.Resume? && w.tasks[i].status.Failed? && RunOf(w.tasks[i]).parentRunId != ""
               then w.resumed + [RunOf(w.tasks[i]).parentRunId] else w.resumed
  {
    match op
    case Claim(id) => i, status := Find(w.tasks, id), Running;
    case Begin(id, payload) =>
      i := Find(w.tasks, id);
      status := w.tasks[i].status;
      BeginChanges(w.tasks, i, payload);
    case End(id, outcome, ledgerPayload, payload) =>
      i, status := Find(w.tasks, id), outcome.Status();
      EndChanges(w.tasks, i, outcome, ledgerPayload, payload);
    case Pause(id) => i, status := Find(w.tasks, id), Waiting;
    case Resume(id) =>
      i, status := Find(w.tasks, id), Queued;
      ResumeChanges(w.tasks, i);
    case Cancel(id) => i, status := Find(w.tasks, id), Cancelled;
  }
}
