/** What the protocol guarantees over whole runs: no event is lost, reordered or invented, no
    wakeup is lost, no two sides sleep waiting for each other, and every burst of activity ends. */
module StreamLiveness {
  import opened Wrappers
  import opened StreamQueue
  import opened StreamProtocol

  // ---------------------------------------------------------------- quiescence

  /** Nothing happens any more unless a new call is made or a wakeup is spurious. */
  ghost predicate Quiescent<Event>(m: Machine<Event>) {
    forall t | 0 <= t < |m.threads| :: m.threads[t].Idle? || IsAsleep(m.threads[t])
  }

  /** The steps that need neither a new call nor a spurious wakeup. */
  predicate Internal<Event>(a: Action<Event>) {
    a.Run? || a.NotifyOne? || a.NotifyAll?
  }

  lemma {:induction false} TallyQuiet<Event>(threads: seq<Pc<Event>>)
    requires forall t | 0 <= t < |threads| :: threads[t].Idle? || IsAsleep(threads[t])
    ensures var c := TallyOf(threads);
            c.enter == c.pushWoken == c.notifyNotEmpty == c.nextWoken == c.notifyNotFull == 0
            && c.stopEnter == c.allNotEmpty == c.allNotFull == 0
  {
    if threads != [] {
      TallyQuiet(threads[..|threads| - 1]);
    }
  }

  /** No lost wakeup: at rest a producer sleeps only in front of a full queue, a consumer only in
      front of an empty one, so never both; and nobody sleeps on a closed or failed queue. */
  lemma RestingSleepersMustWait<Event>(ms: seq<Machine<Event>>, acts: seq<Action<Event>>, i: nat)
    requires IsRun(ms, acts) && Initial(ms[0]) && i < |ms| && Quiescent(ms[i])
    ensures forall t | 0 <= t < |ms[i].threads| && !ms[i].threads[t].Idle? ::
              && ms[i].q.Open()
              && (ms[i].threads[t].PushAsleep? ==> |ms[i].q.events| == ms[i].q.capacity)
              && (ms[i].threads[t].NextAsleep? ==> ms[i].q.events == [])
    ensures forall p, c | 0 <= p < |ms[i].threads| && 0 <= c < |ms[i].threads| ::
              !(ms[i].threads[p].PushAsleep? && ms[i].threads[c].NextAsleep?)
  {
    InvAlongRun(ms, acts, i);
    TallyQuiet(ms[i].threads);
    TallySleepers(ms[i].threads);
  }

  /** Whenever the machine is not at rest, some thread can move on its own. */
  lemma Mover<Event>(m: Machine<Event>) returns (a: Action<Event>)
    requires !Quiescent(m)
    ensures Enabled(m, a) && Internal(a)
  {
    var t: nat :| t < |m.threads| && !m.threads[t].Idle? && !IsAsleep(m.threads[t]);
    if Runs(m.threads[t]) {
      a := Run(t);
    } else if m.threads[t].NotifyAllNotEmpty? || m.threads[t].NotifyAllNotFull? {
      a := NotifyAll(t);
    } else if w: nat :| w < |m.threads| && Wakes(m.threads[t], m.threads[w]) {
      a := NotifyOne(t, Some(w));
    } else {
      a := NotifyOne(t, None);
    }
  }

  /** Deadlock freedom: a producer and a consumer asleep at the same time are never stuck. */
  lemma BothSidesAsleepMeansSomeoneMoves<Event>(
      ms: seq<Machine<Event>>, acts: seq<Action<Event>>, i: nat, p: nat, c: nat) returns (a: Action<Event>)
    requires IsRun(ms, acts) && Initial(ms[0]) && i < |ms|
    requires p < |ms[i].threads| && c < |ms[i].threads|
    requires ms[i].threads[p].PushAsleep? && ms[i].threads[c].NextAsleep?
    ensures Enabled(ms[i], a) && Internal(a)
  {
    if Quiescent(ms[i]) {
      RestingSleepersMustWait(ms, acts, i);
    }
    a := Mover(ms[i]);
  }

  // ---------------------------------------------------------------- every burst of activity ends

  /** The steps a thread may still take, where a sleeper is worth one wakeup more than it shows. */
  function Light<Event>(pc: Pc<Event>): nat {
    if pc.PushEnter? || pc.NextEnter? || pc.PushWoken? || pc.NextWoken? then 3
    else if IsAsleep(pc) || pc.NotifyNotEmpty? || pc.NotifyNotFull? then 2
    else 0
  }

  /** The steps that a closing or failing thread still owes; a broadcast may wake every thread. */
  function Heavy<Event>(pc: Pc<Event>): nat {
    if pc.CloseEnter? || pc.FailEnter? then 3
    else if pc.NotifyAllNotEmpty? then 2
    else if pc.NotifyAllNotFull? then 1
    else 0
  }

  function LightSum<Event>(threads: seq<Pc<Event>>): nat {
    if threads == [] then 0 else LightSum(threads[..|threads| - 1]) + Light(threads[|threads| - 1])
  }

  function HeavySum<Event>(threads: seq<Pc<Event>>): nat {
    if threads == [] then 0 else HeavySum(threads[..|threads| - 1]) + Heavy(threads[|threads| - 1])
  }

  /** A bound on the number of steps that can still happen without new calls. */
  ghost function Work<Event>(m: Machine<Event>): nat {
    LightSum(m.threads) + HeavySum(m.threads) * (|m.threads| + 1)
  }

  lemma {:induction false} SumsMove<Event>(threads: seq<Pc<Event>>, t: nat, pc: Pc<Event>)
    requires t < |threads|
    ensures LightSum(threads[t := pc]) == LightSum(threads) - Light(threads[t]) + Light(pc)
    ensures HeavySum(threads[t := pc]) == HeavySum(threads) - Heavy(threads[t]) + Heavy(pc)
  {
    var n := |threads| - 1;
    if t < n {
      SumsMove(threads[..n], t, pc);
      assert threads[t := pc][..n] == threads[..n][t := pc];
    } else {
      assert threads[t := pc][..n] == threads[..n];
    }
  }

  lemma {:induction false} SumsRouse<Event>(threads: seq<Pc<Event>>, producers: bool)
    ensures LightSum(Rouse(threads, producers)) <= LightSum(threads) + |threads|
    ensures HeavySum(Rouse(threads, producers)) == HeavySum(threads)
  {
    if threads != [] {
      var n := |threads| - 1;
      SumsRouse(threads[..n], producers);
      assert Rouse(threads, producers)[..n] == Rouse(threads[..n], producers);
    }
  }

  /** What an internal step may turn the thread that takes it into. */
  lemma RunMovesOneThread<Event>(m: Machine<Event>, t: nat)
    requires Enabled(m, Run(t))
    ensures var pc' := Apply(m, Run(t)).threads[t];
            && Apply(m, Run(t)).threads == m.threads[t := pc']
            && (Heavy(m.threads[t]) == 0 ==> Heavy(pc') == 0 && Light(pc') < Light(m.threads[t]))
            && (Heavy(m.threads[t]) > 0 ==> Heavy(pc') == Heavy(m.threads[t]) - 1 && Light(pc') == 0)
  {
  }

  /** Light work may grow by at most `n` when a unit of heavy work is done. */
  lemma HeavyForLight(light: int, heavy: int, light': int, heavy': int, n: nat)
    requires (heavy' == heavy && light' < light) || (heavy' == heavy - 1 && light' <= light + n)
    ensures light' + heavy' * (n + 1) < light + heavy * (n + 1)
  {
    if heavy' == heavy - 1 {
      assert heavy' * (n + 1) == heavy * (n + 1) - (n + 1);
    }
  }

  /** A step pays with light work, or pays a unit of heavy work for at most one wakeup per thread. */
  ghost predicate Trades<Event>(ts: seq<Pc<Event>>, ts': seq<Pc<Event>>) {
    && |ts'| == |ts|
    && ((HeavySum(ts') == HeavySum(ts) && LightSum(ts') < LightSum(ts))
        || (HeavySum(ts') == HeavySum(ts) - 1 && LightSum(ts') <= LightSum(ts) + |ts|))
  }

  lemma RunTrades<Event>(m: Machine<Event>, t: nat)
    requires Enabled(m, Run(t))
    ensures Trades(m.threads, Apply(m, Run(t)).threads)
  {
    RunMovesOneThread(m, t);
    var pc' := Apply(m, Run(t)).threads[t];
    SumsMove(m.threads, t, pc');
  }

  lemma WakeOneTrades<Event>(threads: seq<Pc<Event>>, t: nat, w: nat)
    requires t < |threads| && w < |threads| && Wakes(threads[t], threads[w])
    ensures Trades(threads, threads[t := Idle][w := WakeUp(threads[w])])
  {
    SumsMove(threads, t, Idle);
    SumsMove(threads[t := Idle], w, WakeUp(threads[w]));
    assert threads[t := Idle][w] == threads[w];
  }

  lemma NotifyOneTrades<Event>(m: Machine<Event>, t: nat, woken: Option<nat>)
    requires Enabled(m, NotifyOne(t, woken))
    ensures Trades(m.threads, Apply(m, NotifyOne(t, woken)).threads)
  {
    match woken
    case Some(w) => WakeOneTrades(m.threads, t, w);
    case None => SumsMove(m.threads, t, Idle);
  }

  lemma BroadcastMove<Event>(threads: seq<Pc<Event>>, roused: seq<Pc<Event>>, t: nat, pc: Pc<Event>)
    requires t < |threads| && |threads| == |roused| && roused[t] == threads[t]
    requires LightSum(roused) <= LightSum(threads) + |threads| && HeavySum(roused) == HeavySum(threads)
    requires Light(pc) == 0 && Heavy(pc) == Heavy(threads[t]) - 1
    ensures Trades(threads, roused[t := pc])
  {
    SumsMove(roused, t, pc);
  }

  lemma BroadcastSums<Event>(threads: seq<Pc<Event>>, roused: seq<Pc<Event>>, producers: bool, t: nat)
    requires t < |threads| && Heavy(threads[t]) == (if producers then 1 else 2)
    requires |roused| == |threads| && roused[t] == RouseOne(threads[t], producers)
    requires LightSum(roused) <= LightSum(threads) + |threads| && HeavySum(roused) == HeavySum(threads)
    ensures Trades(threads, roused[t := AfterBroadcast(producers)])
  {
    RouseOneKeepsNotifier(threads[t], producers);
    BroadcastMove(threads, roused, t, AfterBroadcast(producers));
  }

  lemma RouseOneKeepsNotifier<Event>(pc: Pc<Event>, producers: bool)
    requires Heavy(pc) > 0
    ensures RouseOne(pc, producers) == pc
  {
  }

  lemma NotifyAllTrades<Event>(m: Machine<Event>, t: nat)
    requires Enabled(m, NotifyAll(t))
    ensures Trades(m.threads, Apply(m, NotifyAll(t)).threads)
  {
    var producers := m.threads[t].NotifyAllNotFull?;
    BroadcastThreads(m, t);
    SumsRouse(m.threads, producers);
    BroadcastSums(m.threads, Rouse(m.threads, producers), producers, t);
  }

  lemma WorkDecreases<Event>(m: Machine<Event>, a: Action<Event>)
    requires Enabled(m, a) && Internal(a)
    ensures Work(Apply(m, a)) < Work(m)
  {
    match a {
      case Run(t) => RunTrades(m, t);
      case NotifyOne(t, woken) => NotifyOneTrades(m, t, woken);
      case NotifyAll(t) => NotifyAllTrades(m, t);
    }
    var ts, ts' := m.threads, Apply(m, a).threads;
    HeavyForLight(LightSum(ts), HeavySum(ts), LightSum(ts'), HeavySum(ts'), |ts|);
  }

  /** No livelock: without new calls a run is at most `Work` steps long. */
  lemma {:induction false} InternalRunsAreShort<Event>(ms: seq<Machine<Event>>, acts: seq<Action<Event>>)
    requires IsRun(ms, acts) && forall i | 0 <= i < |acts| :: Internal(acts[i])
    ensures |acts| + Work(ms[|acts|]) <= Work(ms[0])
  {
    if acts != [] {
      var n := |acts| - 1;
      InternalRunsAreShort(ms[..n + 1], acts[..n]);
      WorkDecreases(ms[n], acts[n]);
    }
  }

  /** ... and left alone, the machine does come to rest. */
  lemma {:induction false} ComesToRest<Event>(m: Machine<Event>)
    returns (ms: seq<Machine<Event>>, acts: seq<Action<Event>>)
    ensures IsRun(ms, acts) && ms[0] == m && Quiescent(ms[|acts|])
    ensures forall i | 0 <= i < |acts| :: Internal(acts[i])
    decreases Work(m)
  {
    if Quiescent(m) {
      ms, acts := [m], [];
    } else {
      var a := Mover(m);
      WorkDecreases(m, a);
      var ms', acts' := ComesToRest(Apply(m, a));
      ms, acts := [m] + ms', [a] + acts';
    }
  }

  // ---------------------------------------------------------------- closing and failing

  /** A closed or failed queue whose broadcasts have all been issued. */
  ghost predicate StopBroadcast<Event>(m: Machine<Event>) {
    && !m.q.Open()
    && forall t | 0 <= t < |m.threads| :: !m.threads[t].NotifyAllNotEmpty? && !m.threads[t].NotifyAllNotFull?
  }

  ghost predicate AllAwake<Event>(m: Machine<Event>) {
    !m.q.Open() && forall t | 0 <= t < |m.threads| :: !IsAsleep(m.threads[t])
  }

  lemma {:induction false} TallyNoBroadcast<Event>(threads: seq<Pc<Event>>)
    requires forall t | 0 <= t < |threads| :: !threads[t].NotifyAllNotEmpty? && !threads[t].NotifyAllNotFull?
    ensures TallyOf(threads).allNotEmpty == TallyOf(threads).allNotFull == 0
  {
    if threads != [] {
      TallyNoBroadcast(threads[..|threads| - 1]);
    }
  }

  lemma StaysAwake<Event>(m: Machine<Event>, a: Action<Event>)
    requires AllAwake(m) && Enabled(m, a)
    ensures AllAwake(Apply(m, a))
  {
  }

  /** A broadcast is only pending on a stopped queue, and whoever has come to wake the producers has woken
      the consumers before, for good. */
  ghost predicate ConsumersFirst<Event>(m: Machine<Event>) {
    && (forall t | 0 <= t < |m.threads| && (m.threads[t].NotifyAllNotEmpty? || m.threads[t].NotifyAllNotFull?) ::
          !m.q.Open())
    && forall t, c | 0 <= t < |m.threads| && 0 <= c < |m.threads| ::
         m.threads[t].NotifyAllNotFull? ==> !m.threads[c].NextAsleep?
  }

  lemma ConsumersFirstBroadcast<Event>(m: Machine<Event>, t: nat)
    requires ConsumersFirst(m) && Enabled(m, NotifyAll(t))
    ensures ConsumersFirst(Apply(m, NotifyAll(t)))
  {
  }

  lemma ConsumersFirstRun<Event>(m: Machine<Event>, t: nat)
    requires ConsumersFirst(m) && Enabled(m, Run(t))
    ensures ConsumersFirst(Apply(m, Run(t)))
  {
  }

  lemma ConsumersFirstStep<Event>(m: Machine<Event>, a: Action<Event>)
    requires ConsumersFirst(m) && Enabled(m, a)
    ensures ConsumersFirst(Apply(m, a))
  {
    match a
    case Run(t) => ConsumersFirstRun(m, t);
    case NotifyAll(t) => ConsumersFirstBroadcast(m, t);
    case _ =>
  }

  lemma {:induction false} ConsumersFirstAlong<Event>(ms: seq<Machine<Event>>, acts: seq<Action<Event>>, i: nat)
    requires IsRun(ms, acts) && Initial(ms[0]) && i < |ms|
    ensures ConsumersFirst(ms[i])
  {
    if i > 0 {
      ConsumersFirstAlong(ms, acts, i - 1);
      ConsumersFirstStep(ms[i - 1], acts[i - 1]);
    }
  }

  lemma {:induction false} AwakeForEver<Event>(ms: seq<Machine<Event>>, acts: seq<Action<Event>>, i: nat, j: nat)
    requires IsRun(ms, acts) && i <= j < |ms| && AllAwake(ms[i])
    ensures AllAwake(ms[j])
    decreases j - i
  {
    if i < j {
      AwakeForEver(ms, acts, i, j - 1);
      StaysAwake(ms[j - 1], acts[j - 1]);
    }
  }

  /** Once a single close or failure has issued its two broadcasts nobody is asleep, then or ever after,
      whatever other calls are doing or will do. */
  lemma OneStopWakesEverybody<Event>(ms: seq<Machine<Event>>, acts: seq<Action<Event>>, i: nat, j: nat, t: nat)
    requires IsRun(ms, acts) && Initial(ms[0]) && i < j < |ms|
    requires acts[i] == NotifyAll(t) && t < |ms[i].threads| && ms[i].threads[t].NotifyAllNotFull?
    ensures AllAwake(ms[j])
  {
    ConsumersFirstAlong(ms, acts, i);
    assert Enabled(ms[i], acts[i]) && ms[i + 1] == Apply(ms[i], acts[i]);
    AwakeForEver(ms, acts, i + 1, j);
  }

  /** On a stopped queue without a pending broadcast nobody is asleep either. */
  lemma StoppedQueueKeepsNobodyAsleep<Event>(ms: seq<Machine<Event>>, acts: seq<Action<Event>>, i: nat, j: nat)
    requires IsRun(ms, acts) && Initial(ms[0]) && i <= j < |ms| && StopBroadcast(ms[i])
    ensures AllAwake(ms[j])
  {
    InvAlongRun(ms, acts, i);
    TallyNoBroadcast(ms[i].threads);
    TallySleepers(ms[i].threads);
    AwakeForEver(ms, acts, i, j);
  }

  // ---------------------------------------------------------------- conservation and order

  /** In every reachable state the accepted events are exactly the delivered ones followed by the
      buffered ones, in order, and the buffer respects the capacity. */
  lemma NothingLostOrReordered<Event>(ms: seq<Machine<Event>>, acts: seq<Action<Event>>, i: nat)
    requires IsRun(ms, acts) && Initial(ms[0]) && i < |ms|
    ensures ms[i].accepted == ms[i].delivered + ms[i].q.events
    ensures |ms[i].q.events| <= ms[i].q.capacity
  {
    InvAlongRun(ms, acts, i);
  }

  /** Both histories only grow; a stopped queue stays stopped and accepts nothing more; and once it
      is drained it delivers nothing more. */
  lemma {:induction false} HistoriesOnlyGrow<Event>(
      ms: seq<Machine<Event>>, acts: seq<Action<Event>>, i: nat, j: nat)
    requires IsRun(ms, acts) && i <= j < |ms|
    ensures ms[i].accepted <= ms[j].accepted && ms[i].delivered <= ms[j].delivered
    ensures !ms[i].q.Open() ==> !ms[j].q.Open() && ms[j].accepted == ms[i].accepted
    ensures !ms[i].q.Open() && ms[i].q.events == [] ==> ms[j].q.events == [] && ms[j].delivered == ms[i].delivered
    decreases j - i
  {
    if i < j {
      HistoriesOnlyGrow(ms, acts, i, j - 1);
      assert Enabled(ms[j - 1], acts[j - 1]) && ms[j] == Apply(ms[j - 1], acts[j - 1]);
    }
  }

  /** A consumer is told about the end or a failure only after everything accepted was delivered,
      and a refused push leaves no trace. */
  lemma StopReportedOnlyWhenDrained<Event>(ms: seq<Machine<Event>>, acts: seq<Action<Event>>, i: nat, t: nat)
    requires IsRun(ms, acts) && Initial(ms[0]) && i < |acts| && acts[i] == Run(t)
    ensures (ms[i].threads[t].NextEnter? || ms[i].threads[t].NextWoken?) && ms[i + 1].threads[t].Idle? ==>
              && ms[i].delivered == ms[i].accepted
              && !ms[i].q.Open()
              && NextSection(ms[i].q).1 == (if ms[i].q.failed.Some? then Broken(ms[i].q.failed.value) else EndOfStream)
    ensures (ms[i].threads[t].PushEnter? || ms[i].threads[t].PushWoken?) && ms[i + 1].threads[t].Idle? ==>
              && !ms[i].q.Open()
              && ms[i + 1] == ms[i].(threads := ms[i + 1].threads)
  {
    InvAlongRun(ms, acts, i);
    assert Enabled(ms[i], acts[i]) && ms[i + 1] == Apply(ms[i], acts[i]);
  }

  // ---------------------------------------------------------------- what a failure is

  /** A thread runs the critical section of `fail`. */
  ghost predicate Fails<Event>(m: Machine<Event>, a: Action<Event>) {
    a.Run? && a.t < |m.threads| && m.threads[a.t].FailEnter?
  }

  /** The failure of a queue is the one that the last `fail` gave, or the closed error if it gave none. */
  lemma {:induction false} LastFailureCounts<Event>(ms: seq<Machine<Event>>, acts: seq<Action<Event>>, i: nat)
    returns (k: nat)
    requires IsRun(ms, acts) && Initial(ms[0]) && i < |ms| && ms[i].q.failed.Some?
    ensures k < i && Fails(ms[k], acts[k])
    ensures ms[i].q.failed.value == match ms[k].threads[acts[k].t].error
                                    case Some(given) => given
                                    case None => StreamQueueClosed
    ensures forall j | k < j < i :: !Fails(ms[j], acts[j])
    decreases i
  {
    var n: nat := i - 1;
    assert Enabled(ms[n], acts[n]) && ms[n + 1] == Apply(ms[n], acts[n]);
    if Fails(ms[n], acts[n]) {
      k := n;
    } else {
      k := LastFailureCounts(ms, acts, n);
    }
  }
}
