/** Any number of threads that push to, read from, close and fail one bounded stream queue, as a
    state machine whose steps are the critical sections, the waits and the notifications that
    follow an unlock. Wakeups may be spurious and the scheduler is arbitrary. */
module StreamProtocol {
  import opened Wrappers
  import opened StreamQueue

  /** What a thread does next. */
  datatype Pc<Event> =
    | Idle                                // not inside a call
    | PushEnter(e: Event)
    | PushAsleep(e: Event)
    | PushWoken(e: Event)
    | NotifyNotEmpty
    | NextEnter
    | NextAsleep
    | NextWoken
    | NotifyNotFull
    | CloseEnter
    | FailEnter(error: Option<Error>)
    | NotifyAllNotEmpty
    | NotifyAllNotFull

  datatype Machine<Event> = Machine(
    q: State<Event>,
    threads: seq<Pc<Event>>,
    accepted: seq<Event>,
    delivered: seq<Event>)

  datatype Action<Event> =
    | Call(t: nat, pc: Pc<Event>)         // a thread enters push, next, close or fail
    | Run(t: nat)                         // takes the mutex: critical section, or back to sleep
    | NotifyOne(t: nat, woken: Option<nat>)
    | NotifyAll(t: nat)
    | Spurious(t: nat)

  // ---------------------------------------------------------------- the transitions

  predicate Enters<Event>(pc: Pc<Event>) {
    pc.PushEnter? || pc.NextEnter? || pc.CloseEnter? || pc.FailEnter?
  }

  predicate Runs<Event>(pc: Pc<Event>) {
    Enters(pc) || pc.PushWoken? || pc.NextWoken?
  }

  predicate IsAsleep<Event>(pc: Pc<Event>) {
    pc.PushAsleep? || pc.NextAsleep?
  }

  /** The sleepers that a pending `notify_one` may wake. */
  predicate Wakes<Event>(notifier: Pc<Event>, sleeper: Pc<Event>) {
    (notifier.NotifyNotEmpty? && sleeper.NextAsleep?) || (notifier.NotifyNotFull? && sleeper.PushAsleep?)
  }

  function WakeUp<Event>(pc: Pc<Event>): Pc<Event> {
    match pc
    case PushAsleep(e) => PushWoken(e)
    case NextAsleep => NextWoken
    case other => other
  }

  predicate Enabled<Event>(m: Machine<Event>, a: Action<Event>) {
    && a.t < |m.threads|
    && match a
       case Call(t, pc) => m.threads[t].Idle? && Enters(pc)
       case Run(t) => Runs(m.threads[t])
       case NotifyOne(t, woken) =>
         && (m.threads[t].NotifyNotEmpty? || m.threads[t].NotifyNotFull?)
         && (match woken
             case Some(w) => w < |m.threads| && Wakes(m.threads[t], m.threads[w])
             case None => forall w | 0 <= w < |m.threads| :: !Wakes(m.threads[t], m.threads[w]))
       case NotifyAll(t) => m.threads[t].NotifyAllNotEmpty? || m.threads[t].NotifyAllNotFull?
       case Spurious(t) => IsAsleep(m.threads[t])
  }

  function RunPush<Event>(m: Machine<Event>, t: nat, e: Event): Machine<Event>
    requires t < |m.threads|
  {
    if !m.q.MayPush() then
      m.(threads := m.threads[t := PushAsleep(e)])
    else
      var (q, r) := PushSection(m.q, e);
      if r.Accepted? then
        m.(q := q, threads := m.threads[t := NotifyNotEmpty], accepted := m.accepted + [e])
      else
        m.(q := q, threads := m.threads[t := Idle])
  }

  function RunNext<Event>(m: Machine<Event>, t: nat): Machine<Event>
    requires t < |m.threads|
  {
    if !m.q.MayNext() then
      m.(threads := m.threads[t := NextAsleep])
    else
      var (q, r) := NextSection(m.q);
      if r.Delivered? then
        m.(q := q, threads := m.threads[t := NotifyNotFull], delivered := m.delivered + [r.event])
      else
        m.(q := q, threads := m.threads[t := Idle])
  }

  function RouseOne<Event>(pc: Pc<Event>, producers: bool): Pc<Event> {
    if pc.PushAsleep? == producers then WakeUp(pc) else pc
  }

  /** Wakes every sleeper on one side. */
  function Rouse<Event>(threads: seq<Pc<Event>>, producers: bool): (r: seq<Pc<Event>>)
    ensures |r| == |threads|
    ensures forall i | 0 <= i < |r| :: r[i] == RouseOne(threads[i], producers)
  {
    if threads == [] then []
    else Rouse(threads[..|threads| - 1], producers) + [RouseOne(threads[|threads| - 1], producers)]
  }

  /** A closer wakes the consumers first and the producers second. */
  function AfterBroadcast<Event>(producers: bool): Pc<Event> {
    if producers then Idle else NotifyAllNotFull
  }

  function Apply<Event>(m: Machine<Event>, a: Action<Event>): Machine<Event>
    requires Enabled(m, a)
  {
    match a
    case Call(t, pc) => m.(threads := m.threads[t := pc])
    case Run(t) =>
      (match m.threads[t]
       case PushEnter(e) => RunPush(m, t, e)
       case PushWoken(e) => RunPush(m, t, e)
       case NextEnter => RunNext(m, t)
       case NextWoken => RunNext(m, t)
       case CloseEnter => m.(q := CloseSection(m.q), threads := m.threads[t := NotifyAllNotEmpty])
       case FailEnter(error) => m.(q := FailSection(m.q, error), threads := m.threads[t := NotifyAllNotEmpty])
       case _ => m)
    case NotifyOne(t, woken) =>
      var rest := m.threads[t := Idle];
      (match woken
       case None => m.(threads := rest)
       case Some(w) => m.(threads := rest[w := WakeUp(m.threads[w])]))
    case NotifyAll(t) =>
      if m.threads[t].NotifyAllNotEmpty? then
        m.(threads := Rouse(m.threads, false)[t := AfterBroadcast(false)])
      else
        m.(threads := Rouse(m.threads, true)[t := AfterBroadcast(true)])
    case Spurious(t) => m.(threads := m.threads[t := WakeUp(m.threads[t])])
  }

  ghost predicate Initial<Event>(m: Machine<Event>) {
    && m.q.capacity >= 1 && m.q.events == [] && m.q.Open()
    && (forall t | 0 <= t < |m.threads| :: m.threads[t].Idle?)
    && m.accepted == m.delivered == []
  }

  /** A run: the machines between the actions, in order. */
  ghost predicate IsRun<Event>(ms: seq<Machine<Event>>, acts: seq<Action<Event>>) {
    && |ms| == |acts| + 1
    && forall i | 0 <= i < |acts| :: Enabled(ms[i], acts[i]) && ms[i + 1] == Apply(ms[i], acts[i])
  }

  // ---------------------------------------------------------------- counting threads

  /** How many threads stand at each kind of program point. */
  datatype Tally = Tally(enter: int, pushAsleep: int, pushWoken: int, notifyNotEmpty: int,
                         nextAsleep: int, nextWoken: int, notifyNotFull: int,
                         stopEnter: int, allNotEmpty: int, allNotFull: int)
  {
    function Plus<Event>(pc: Pc<Event>, n: int): Tally {
      Tally(enter + (if pc.PushEnter? || pc.NextEnter? then n else 0),
            pushAsleep + (if pc.PushAsleep? then n else 0),
            pushWoken + (if pc.PushWoken? then n else 0),
            notifyNotEmpty + (if pc.NotifyNotEmpty? then n else 0),
            nextAsleep + (if pc.NextAsleep? then n else 0),
            nextWoken + (if pc.NextWoken? then n else 0),
            notifyNotFull + (if pc.NotifyNotFull? then n else 0),
            stopEnter + (if pc.CloseEnter? || pc.FailEnter? then n else 0),
            allNotEmpty + (if pc.NotifyAllNotEmpty? then n else 0),
            allNotFull + (if pc.NotifyAllNotFull? then n else 0))
    }

    predicate NonNegative() {
      && enter >= 0 && pushAsleep >= 0 && pushWoken >= 0 && notifyNotEmpty >= 0 && nextAsleep >= 0
      && nextWoken >= 0 && notifyNotFull >= 0 && stopEnter >= 0 && allNotEmpty >= 0 && allNotFull >= 0
    }
  }

  function TallyOf<Event>(threads: seq<Pc<Event>>): (c: Tally)
    ensures c.NonNegative()
  {
    if threads == [] then Tally(0, 0, 0, 0, 0, 0, 0, 0, 0, 0)
    else TallyOf(threads[..|threads| - 1]).Plus(threads[|threads| - 1], 1)
  }

  lemma PlusCommutes<Event>(c: Tally, a: Pc<Event>, b: Pc<Event>, d: Pc<Event>)
    ensures c.Plus(a, -1).Plus(b, 1).Plus(d, 1) == c.Plus(d, 1).Plus(a, -1).Plus(b, 1)
    ensures c.Plus(d, 1).Plus(d, -1) == c
  {
  }

  lemma TallyLast<Event>(threads: seq<Pc<Event>>, n: nat)
    requires |threads| == n + 1
    ensures TallyOf(threads) == TallyOf(threads[..n]).Plus(threads[n], 1)
  {
  }

  lemma {:induction false} TallyMove<Event>(threads: seq<Pc<Event>>, t: nat, pc: Pc<Event>)
    requires t < |threads|
    ensures TallyOf(threads[t := pc]) == TallyOf(threads).Plus(threads[t], -1).Plus(pc, 1)
  {
    var n := |threads| - 1;
    TallyLast(threads, n);
    TallyLast(threads[t := pc], n);
    PlusCommutes(TallyOf(threads[..n]), threads[t], pc, threads[n]);
    if t < n {
      TallyMove(threads[..n], t, pc);
      assert threads[t := pc][..n] == threads[..n][t := pc];
    } else {
      assert threads[t := pc][..n] == threads[..n];
    }
  }

  /** A side sleeps exactly when the tally says so. */
  lemma {:induction false} TallySleepers<Event>(threads: seq<Pc<Event>>)
    ensures var c := TallyOf(threads);
            && (c.pushAsleep > 0 <==> exists t | 0 <= t < |threads| :: threads[t].PushAsleep?)
            && (c.nextAsleep > 0 <==> exists t | 0 <= t < |threads| :: threads[t].NextAsleep?)
  {
    if threads != [] {
      var n := |threads| - 1;
      TallySleepers(threads[..n]);
      assert forall t | 0 <= t < n :: threads[t] == threads[..n][t];
    }
  }

  /** The tally after a whole side is woken. */
  function Roused(c: Tally, producers: bool): Tally {
    if producers then c.(pushAsleep := 0, pushWoken := c.pushWoken + c.pushAsleep)
    else c.(nextAsleep := 0, nextWoken := c.nextWoken + c.nextAsleep)
  }

  lemma RousedPlus<Event>(c: Tally, producers: bool, pc: Pc<Event>)
    ensures Roused(c.Plus(pc, 1), producers) == Roused(c, producers).Plus(RouseOne(pc, producers), 1)
  {
  }

  /** Waking a whole side moves every sleeper of that side, and nobody else. */
  lemma {:induction false} TallyRouse<Event>(threads: seq<Pc<Event>>, producers: bool)
    ensures TallyOf(Rouse(threads, producers)) == Roused(TallyOf(threads), producers)
  {
    if threads != [] {
      var n := |threads| - 1;
      TallyRouse(threads[..n], producers);
      RousedPlus(TallyOf(threads[..n]), producers, threads[n]);
      assert Rouse(threads, producers)[..n] == Rouse(threads[..n], producers);
    }
  }

  // ---------------------------------------------------------------- the invariant

  ghost predicate Conserved<Event>(m: Machine<Event>) {
    && m.q.capacity >= 1
    && |m.q.events| <= m.q.capacity
    && m.accepted == m.delivered + m.q.events
  }

  /** While the queue is open, every free slot and every buffered event that a sleeper could use
      is covered by a thread that is already on its way. */
  ghost predicate WakeupsCovered<Event>(q: State<Event>, c: Tally) {
    && (c.pushAsleep > 0 ==> q.capacity - |q.events| <= c.pushWoken + c.notifyNotFull)
    && (c.nextAsleep > 0 ==> |q.events| <= c.nextWoken + c.notifyNotEmpty)
    && c.allNotEmpty == c.allNotFull == 0
  }

  /** Once the queue is closed or failed, whoever still sleeps has a broadcast coming. */
  ghost predicate BroadcastsPending(c: Tally) {
    && (c.nextAsleep > 0 ==> c.allNotEmpty > 0)
    && (c.pushAsleep > 0 ==> c.allNotEmpty + c.allNotFull > 0)
  }

  ghost predicate Inv<Event>(m: Machine<Event>) {
    && Conserved(m)
    && if m.q.Open() then WakeupsCovered(m.q, TallyOf(m.threads)) else BroadcastsPending(TallyOf(m.threads))
  }

  lemma {:induction false} TallyIdle<Event>(threads: seq<Pc<Event>>)
    requires forall t | 0 <= t < |threads| :: threads[t].Idle?
    ensures TallyOf(threads) == TallyOf<Event>([])
  {
    if threads != [] {
      TallyIdle(threads[..|threads| - 1]);
    }
  }

  lemma InvInitial<Event>(m: Machine<Event>)
    requires Initial(m)
    ensures Inv(m)
  {
    TallyIdle(m.threads);
  }

  lemma InvRunPush<Event>(m: Machine<Event>, t: nat, e: Event)
    requires Inv(m) && t < |m.threads|
    requires m.threads[t] == PushEnter(e) || m.threads[t] == PushWoken(e)
    ensures Inv(RunPush(m, t, e))
  {
    TallyMove(m.threads, t, RunPush(m, t, e).threads[t]);
  }

  lemma InvRunNext<Event>(m: Machine<Event>, t: nat)
    requires Inv(m) && t < |m.threads|
    requires m.threads[t].NextEnter? || m.threads[t].NextWoken?
    ensures Inv(RunNext(m, t))
  {
    TallyMove(m.threads, t, RunNext(m, t).threads[t]);
  }

  lemma InvStop<Event>(m: Machine<Event>, t: nat)
    requires Inv(m) && t < |m.threads|
    requires m.threads[t].CloseEnter? || m.threads[t].FailEnter?
    ensures Inv(Apply(m, Run(t)))
  {
    TallyMove(m.threads, t, NotifyAllNotEmpty);
  }

  lemma InvNotifyOne<Event>(m: Machine<Event>, t: nat, woken: Option<nat>)
    requires Inv(m) && Enabled(m, NotifyOne(t, woken))
    ensures Inv(Apply(m, NotifyOne(t, woken)))
  {
    TallyMove(m.threads, t, Idle);
    match woken
    case Some(w) => TallyMove(m.threads[t := Idle], w, WakeUp(m.threads[w]));
    case None => TallySleepers(m.threads);
  }

  lemma BroadcastThreads<Event>(m: Machine<Event>, t: nat)
    requires Enabled(m, NotifyAll(t))
    ensures var producers := m.threads[t].NotifyAllNotFull?;
            && Apply(m, NotifyAll(t)).threads == Rouse(m.threads, producers)[t := AfterBroadcast(producers)]
            && Rouse(m.threads, producers)[t] == m.threads[t]
  {
  }

  /** A broadcast in terms of the tally alone. */
  lemma TallyNotifyAll<Event>(m: Machine<Event>, t: nat)
    requires Enabled(m, NotifyAll(t))
    ensures var producers, c := m.threads[t].NotifyAllNotFull?, TallyOf(m.threads);
            && c.Plus(m.threads[t], -1).NonNegative()
            && TallyOf(Apply(m, NotifyAll(t)).threads)
               == Roused(c, producers).Plus(m.threads[t], -1).Plus(AfterBroadcast<Event>(producers), 1)
  {
    var producers := m.threads[t].NotifyAllNotFull?;
    var roused := Rouse(m.threads, producers);
    TallyMove(m.threads, t, Idle);        // t itself is counted
    TallyRouse(m.threads, producers);
    BroadcastThreads(m, t);
    TallyMove(roused, t, AfterBroadcast(producers));
  }

  lemma BroadcastKeepsPending<Event>(c: Tally, notifier: Pc<Event>)
    requires BroadcastsPending(c) && (notifier.NotifyAllNotEmpty? || notifier.NotifyAllNotFull?)
    requires c.Plus(notifier, -1).NonNegative()
    ensures var producers := notifier.NotifyAllNotFull?;
            BroadcastsPending(Roused(c, producers).Plus(notifier, -1).Plus(AfterBroadcast<Event>(producers), 1))
  {
  }

  lemma InvNotifyAll<Event>(m: Machine<Event>, t: nat)
    requires Inv(m) && Enabled(m, NotifyAll(t))
    ensures Inv(Apply(m, NotifyAll(t)))
  {
    TallyNotifyAll(m, t);
    assert !m.q.Open();
    BroadcastKeepsPending(TallyOf(m.threads), m.threads[t]);
  }

  lemma InvStep<Event>(m: Machine<Event>, a: Action<Event>)
    requires Inv(m) && Enabled(m, a)
    ensures Inv(Apply(m, a))
  {
    match a
    case Call(t, pc) => TallyMove(m.threads, t, pc);
    case Run(t) =>
      match m.threads[t] {
        case PushEnter(e) => InvRunPush(m, t, e);
        case PushWoken(e) => InvRunPush(m, t, e);
        case NextEnter => InvRunNext(m, t);
        case NextWoken => InvRunNext(m, t);
        case _ => InvStop(m, t);
      }
    case NotifyOne(t, woken) => InvNotifyOne(m, t, woken);
    case NotifyAll(t) => InvNotifyAll(m, t);
    case Spurious(t) => TallyMove(m.threads, t, WakeUp(m.threads[t]));
  }

  lemma {:induction false} InvAlongRun<Event>(ms: seq<Machine<Event>>, acts: seq<Action<Event>>, i: nat)
    requires IsRun(ms, acts) && Initial(ms[0]) && i < |ms|
    ensures Inv(ms[i])
  {
    if i == 0 {
      InvInitial(ms[0]);
    } else {
      InvAlongRun(ms, acts, i - 1);
      InvStep(ms[i - 1], acts[i - 1]);
    }
  }
}
