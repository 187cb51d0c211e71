/** The value forms of runs, steps, events and checkpoints, and the way back. */
module AutonomousCodec {
  import opened Values
  import opened Autonomous

  function RunStatusToString(s: RunStatus): string {
    match s
    case RunQueued => "queued"
    case RunRunning => "running"
    case RunWaiting => "waiting"
    case RunCompleted => "completed"
    case RunFailed => "failed"
    case RunCancelled => "cancelled"
    case RunInterrupted => "interrupted"
  }

  function RunStatusFromString(s: string): RunStatus {
    if s == "running" then RunRunning
    else if s == "waiting" then RunWaiting
    else if s == "completed" then RunCompleted
    else if s == "failed" then RunFailed
    else if s == "cancelled" then RunCancelled
    else if s == "interrupted" then RunInterrupted
    else RunQueued
  }

  function StepStatusToString(s: StepStatus): string {
    match s
    case Pending => "pending"
    case Running => "running"
    case Waiting => "waiting"
    case Completed => "completed"
    case Failed => "failed"
    case Cancelled => "cancelled"
    case Skipped => "skipped"
  }

  function StepStatusFromString(s: string): StepStatus {
    if s == "running" then Running
    else if s == "waiting" then Waiting
    else if s == "completed" then Completed
    else if s == "failed" then Failed
    else if s == "cancelled" then Cancelled
    else if s == "skipped" then Skipped
    else Pending
  }

  function RunToValue(r: Run): Value {
    Obj(map["id" := Str(r.id), "goal" := Str(r.goal), "input" := r.input,
            "status" := Str(RunStatusToString(r.status)), "output" := r.output,
            "error" := StringOrNull(r.error), "metadata" := r.metadata])
  }

  function RunFromValue(v: Value): Run {
    Run(v.At("id").AsString(""), v.At("goal").AsString(""), v.At("input"),
        RunStatusFromString(v.At("status").AsString("")), v.At("output"),
        v.At("error").AsString(""), v.At("metadata").ObjectOrEmpty())
  }

  function StepToValue(s: Step): Value {
    Obj(map["id" := Str(s.id), "runId" := Str(s.runId), "index" := Int(s.index),
            "title" := Str(s.title), "objective" := Str(s.objective), "input" := s.input,
            "status" := Str(StepStatusToString(s.status)), "attempts" := Int(s.attempts),
            "output" := s.output, "error" := StringOrNull(s.error), "waitReason" := StringOrNull(s.waitReason),
            "dependsOn" := StringsToValue(s.dependsOn), "metadata" := s.metadata])
  }

  /** The cast to an unsigned size wraps a negative index around; it is read as zero here. */
  function StepFromValue(v: Value): Step {
    var index := v.At("index").AsInteger(0);
    Step(v.At("id").AsString(""), v.At("runId").AsString(""), if index < 0 then 0 else index,
         v.At("title").AsString(""), v.At("objective").AsString(""), v.At("input"),
         StepStatusFromString(v.At("status").AsString("")), v.At("attempts").AsInteger(0),
         v.At("output"), v.At("error").AsString(""), v.At("waitReason").AsString(""),
         StringsFromValue(v.At("dependsOn")), v.At("metadata").ObjectOrEmpty())
  }

  function EventToValue(e: Event): Value {
    Obj(map["runId" := Str(e.runId), "stepId" := StringOrNull(e.stepId),
            "type" := Str(e.kind), "payload" := e.payload])
  }

  function EventFromValue(v: Value): Event {
    Event(v.At("runId").AsString(""), v.At("stepId").AsString(""), v.At("type").AsString(""), v.At("payload"))
  }

  function CheckpointToValue(c: Checkpoint): Value {
    Obj(map["runId" := Str(c.runId), "stepId" := StringOrNull(c.stepId),
            "name" := Str(c.name), "state" := c.state])
  }

  function CheckpointFromValue(v: Value): Checkpoint {
    Checkpoint(v.At("runId").AsString(""), v.At("stepId").AsString(""), v.At("name").AsString(""), v.At("state"))
  }

  lemma RunStatusRoundTrip(s: RunStatus)
    ensures RunStatusFromString(RunStatusToString(s)) == s
  {
  }

  lemma StepStatusRoundTrip(s: StepStatus)
    ensures StepStatusFromString(StepStatusToString(s)) == s
  {
  }

  /** Six names of each kind are statuses, and every other text means queued or pending. */
  lemma StatusNames(text: string)
    ensures RunStatusFromString(text)
            == match text
               case "running" => RunRunning
               case "waiting" => RunWaiting
               case "completed" => RunCompleted
               case "failed" => RunFailed
               case "cancelled" => RunCancelled
               case "interrupted" => RunInterrupted
               case _ => RunQueued
    ensures StepStatusFromString(text)
            == match text
               case "running" => Running
               case "waiting" => Waiting
               case "completed" => Completed
               case "failed" => Failed
               case "cancelled" => Cancelled
               case "skipped" => Skipped
               case _ => Pending
    ensures RunStatusToString(RunQueued) == "queued" && StepStatusToString(Pending) == "pending"
  {
  }

  /** A record comes back unchanged but for metadata that is no object, which stores never keep. */
  lemma RunRoundTrip(r: Run)
    ensures RunFromValue(RunToValue(r)) == r.(metadata := r.metadata.ObjectOrEmpty())
  {
    RunStatusRoundTrip(r.status);
  }

  lemma StepTexts(s: Step)
    ensures var v := StepToValue(s);
            && v.At("id") == Str(s.id) && v.At("runId") == Str(s.runId) && v.At("title") == Str(s.title)
            && v.At("objective") == Str(s.objective) && v.At("error") == StringOrNull(s.error)
            && v.At("waitReason") == StringOrNull(s.waitReason)
  {
  }

  lemma StepNumbersAndValues(s: Step)
    ensures var v := StepToValue(s);
            && v.At("index") == Int(s.index) && v.At("attempts") == Int(s.attempts) && v.At("input") == s.input
            && v.At("output") == s.output && v.At("metadata") == s.metadata
            && v.At("status") == Str(StepStatusToString(s.status)) && v.At("dependsOn") == StringsToValue(s.dependsOn)
  {
  }

  lemma StepRoundTrip(s: Step)
    ensures StepFromValue(StepToValue(s)) == s.(metadata := s.metadata.ObjectOrEmpty())
  {
    StepTexts(s);
    StepNumbersAndValues(s);
    StepStatusRoundTrip(s.status);
    StringsRoundTrip(s.dependsOn);
  }

  lemma EventRoundTrip(e: Event)
    ensures EventFromValue(EventToValue(e)) == e
  {
  }

  lemma CheckpointRoundTrip(c: Checkpoint)
    ensures CheckpointFromValue(CheckpointToValue(c)) == c
  {
  }

  // ---------------------------------------------------------------- dates and generated ids

  /** The text that stores add to a record: dates, and for events and checkpoints an id. An empty date that
      need not be there is stored as null. */
  datatype RunDates = RunDates(createdAt: string, updatedAt: string, completedAt: string)

  datatype StepDates = StepDates(createdAt: string, updatedAt: string, startedAt: string, completedAt: string)

  datatype Stamp = Stamp(id: string, createdAt: string)

  function DatedRunToValue(r: Run, d: RunDates): Value {
    RunToValue(r).With("createdAt", Str(d.createdAt)).With("updatedAt", Str(d.updatedAt))
                 .With("completedAt", StringOrNull(d.completedAt))
  }

  function RunDatesFromValue(v: Value): RunDates {
    RunDates(v.At("createdAt").AsString(""), v.At("updatedAt").AsString(""), v.At("completedAt").AsString(""))
  }

  function DatedStepToValue(s: Step, d: StepDates): Value {
    StepToValue(s).With("createdAt", Str(d.createdAt)).With("updatedAt", Str(d.updatedAt))
                  .With("startedAt", StringOrNull(d.startedAt)).With("completedAt", StringOrNull(d.completedAt))
  }

  function StepDatesFromValue(v: Value): StepDates {
    StepDates(v.At("createdAt").AsString(""), v.At("updatedAt").AsString(""),
              v.At("startedAt").AsString(""), v.At("completedAt").AsString(""))
  }

  function StampedEventToValue(e: Event, stamp: Stamp): Value {
    EventToValue(e).With("id", Str(stamp.id)).With("createdAt", Str(stamp.createdAt))
  }

  function StampedCheckpointToValue(c: Checkpoint, stamp: Stamp): Value {
    CheckpointToValue(c).With("id", Str(stamp.id)).With("createdAt", Str(stamp.createdAt))
  }

  function StampFromValue(v: Value): Stamp {
    Stamp(v.At("id").AsString(""), v.At("createdAt").AsString(""))
  }

  lemma WithAt(v: Value, key: string, field: Value)
    ensures v.With(key, field).At(key) == field
    ensures forall other | other != key :: v.With(key, field).At(other) == v.At(other)
  {
  }

  /** Three keys set one after the other. */
  lemma ThreeWith(v: Value, a: string, b: string, c: string, fields: seq<Value>)
    requires a != b && a != c && b != c && |fields| == 3
    ensures var w := v.With(a, fields[0]).With(b, fields[1]).With(c, fields[2]);
            && w.At(a) == fields[0] && w.At(b) == fields[1] && w.At(c) == fields[2]
            && forall other | other != a && other != b && other != c :: w.At(other) == v.At(other)
  {
    WithAt(v, a, fields[0]);
    WithAt(v.With(a, fields[0]), b, fields[1]);
    WithAt(v.With(a, fields[0]).With(b, fields[1]), c, fields[2]);
  }

  const DATE_KEYS := ["createdAt", "updatedAt", "startedAt", "completedAt"]

  lemma DateKeysDiffer()
    ensures forall i, j | 0 <= i < j < 4 :: DATE_KEYS[i] != DATE_KEYS[j]
  {
    assert |DATE_KEYS[0]| == 9 && |DATE_KEYS[1]| == 9 && |DATE_KEYS[2]| == 9 && |DATE_KEYS[3]| == 11;
    assert DATE_KEYS[0][0] == 'c' && DATE_KEYS[1][0] == 'u' && DATE_KEYS[2][0] == 's';
  }

  lemma SameRun(v: Value, w: Value)
    requires forall key | key !in DATE_KEYS :: v.At(key) == w.At(key)
    ensures RunFromValue(v) == RunFromValue(w)
  {
  }

  /** A stored run comes back unchanged, dates and all. */
  lemma DatedRunRoundTrip(r: Run, d: RunDates)
    ensures var v := DatedRunToValue(r, d);
            RunFromValue(v) == r.(metadata := r.metadata.ObjectOrEmpty()) && RunDatesFromValue(v) == d
  {
    RunRoundTrip(r);
    DateKeysDiffer();
    ThreeWith(RunToValue(r), DATE_KEYS[0], DATE_KEYS[1], DATE_KEYS[3],
              [Str(d.createdAt), Str(d.updatedAt), StringOrNull(d.completedAt)]);
    SameRun(DatedRunToValue(r, d), RunToValue(r));
  }

  lemma SameStepTexts(v: Value, w: Value)
    requires forall key | key !in DATE_KEYS :: v.At(key) == w.At(key)
    ensures v.At("id") == w.At("id") && v.At("runId") == w.At("runId") && v.At("title") == w.At("title")
    ensures v.At("objective") == w.At("objective") && v.At("error") == w.At("error")
    ensures v.At("waitReason") == w.At("waitReason")
  {
  }

  lemma SameStepNumbers(v: Value, w: Value)
    requires forall key | key !in DATE_KEYS :: v.At(key) == w.At(key)
    ensures v.At("index") == w.At("index") && v.At("attempts") == w.At("attempts") && v.At("input") == w.At("input")
    ensures v.At("output") == w.At("output") && v.At("metadata") == w.At("metadata")
    ensures v.At("status") == w.At("status") && v.At("dependsOn") == w.At("dependsOn")
  {
  }

  lemma SameStep(v: Value, w: Value)
    requires forall key | key !in DATE_KEYS :: v.At(key) == w.At(key)
    ensures StepFromValue(v) == StepFromValue(w)
  {
    SameStepTexts(v, w);
    SameStepNumbers(v, w);
  }

  lemma DatedStepAt(s: Step, d: StepDates)
    ensures var v := DatedStepToValue(s, d);
            StepDatesFromValue(v) == d && forall key | key !in DATE_KEYS :: v.At(key) == StepToValue(s).At(key)
  {
    DateKeysDiffer();
    ThreeWith(StepToValue(s), DATE_KEYS[0], DATE_KEYS[1], DATE_KEYS[2],
              [Str(d.createdAt), Str(d.updatedAt), StringOrNull(d.startedAt)]);
    WithAt(StepToValue(s).With("createdAt", Str(d.createdAt)).With("updatedAt", Str(d.updatedAt))
                         .With("startedAt", StringOrNull(d.startedAt)), DATE_KEYS[3], StringOrNull(d.completedAt));
  }

  /** Likewise a stored step. */
  lemma DatedStepRoundTrip(s: Step, d: StepDates)
    ensures var v := DatedStepToValue(s, d);
            StepFromValue(v) == s.(metadata := s.metadata.ObjectOrEmpty()) && StepDatesFromValue(v) == d
  {
    StepRoundTrip(s);
    DatedStepAt(s, d);
    SameStep(DatedStepToValue(s, d), StepToValue(s));
  }

  /** The two keys of a stamp are none of those that the rest of an event or checkpoint is stored under. */
  lemma StampAt(v: Value, stamp: Stamp) returns (w: Value)
    ensures w == v.With("id", Str(stamp.id)).With("createdAt", Str(stamp.createdAt)) && StampFromValue(w) == stamp
    ensures forall key | key != "id" && key != "createdAt" :: w.At(key) == v.At(key)
  {
    assert |"id"| != |"createdAt"|;
    WithAt(v, "id", Str(stamp.id));
    WithAt(v.With("id", Str(stamp.id)), "createdAt", Str(stamp.createdAt));
    w := v.With("id", Str(stamp.id)).With("createdAt", Str(stamp.createdAt));
  }

  lemma StampedEventRoundTrip(e: Event, stamp: Stamp)
    ensures var v := StampedEventToValue(e, stamp);
            EventFromValue(v) == e && StampFromValue(v) == stamp
  {
    EventRoundTrip(e);
    var v := StampAt(EventToValue(e), stamp);
  }

  lemma StampedCheckpointRoundTrip(c: Checkpoint, stamp: Stamp)
    ensures var v := StampedCheckpointToValue(c, stamp);
            CheckpointFromValue(v) == c && StampFromValue(v) == stamp
  {
    CheckpointRoundTrip(c);
    var v := StampAt(CheckpointToValue(c), stamp);
  }
}
