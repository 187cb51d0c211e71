/** Running an operation under a retry policy, a timeout and a cancellation token.
    The clock and the other threads are arguments: an attempt comes with the time it took, and a
    token comes with the observation from which on it reads as cancelled. */
module RetryLoop {
  import opened Wrappers
  import opened RetryDelay

  datatype Target = RunTarget | ModelTarget | ToolTarget | RetrievalTarget | PermissionTarget
                  | WorkflowTarget | WorkflowNodeTarget | ChildAgentTarget | SkillTarget

  datatype Error = OperationError(what: string) | TimeoutError(target: Target, timeoutMs: int)

  /** A returned value, a `std::exception`, or an exception of another kind, and how long it took. */
  datatype Attempt<T> =
    | Returned(value: T, elapsedMs: int)
    | Threw(error: Error, elapsedMs: int)
    | ThrewForeign(elapsedMs: int)

  datatype RetryPolicy = RetryPolicy(maxAttempts: int, delay: DelayPolicy, retryOn: Option<(int, Error) -> bool>)
  {
    function Attempts(): (n: nat) {
      if maxAttempts < 1 then 1 else maxAttempts
    }

    predicate Approves(attempt: int, error: Error) {
      retryOn.Some? && retryOn.value(attempt, error)
    }
  }

  datatype Notice = Notice(attempt: int, error: Error, delayMs: int)

  datatype Outcome<T> =
    | Completed(value: T)
    | Rethrown(error: Error)
    | Propagated                           // a foreign exception passes through
    | RetryExhausted(maxAttempts: int)
    | Cancelled

  /** `Some(n)`: every observation from the n-th on finds the token cancelled. */
  type Token = Option<nat>

  predicate IsCancelled(token: Token, observation: int) {
    token.Some? && token.value <= observation
  }

  /** What went wrong with an attempt, if anything a retry could follow did. */
  function Failure<T>(a: Attempt<T>, target: Target, timeoutMs: nat): Option<Error> {
    match a
    case Returned(_, elapsed) =>
      if timeoutMs > 0 && elapsed > timeoutMs then Some(TimeoutError(target, timeoutMs)) else None
    case Threw(error, _) => Some(error)
    case ThrewForeign(_) => None
  }

  // ---------------------------------------------------------------- sleeping in chunks

  /** The number of 50 ms chunks, the last one possibly shorter. */
  function Chunks(delay: nat): nat {
    if delay == 0 then 0 else if delay <= 50 then 1 else 1 + Chunks(delay - 50)
  }

  lemma {:induction false} ChunksCover(delay: nat)
    ensures delay <= 50 * Chunks(delay) < delay + 50
  {
    if delay > 50 {
      ChunksCover(delay - 50);
    }
  }

  /** Sleeps in chunks and looks at the token before each chunk and once at the end. It gives up at
      the first look that finds the token cancelled, so a cancellation costs at most one chunk. */
  method SleepWithCancellation(delay: nat, token: Token, first: nat)
    returns (completed: bool, slept: nat, next: nat)
    ensures completed <==> !IsCancelled(token, first + Chunks(delay))
    ensures completed ==> slept == delay && next == first + Chunks(delay) + 1 && (token.None? || token.value >= next)
    ensures !completed ==>
              && first < next <= first + Chunks(delay) + 1
              && IsCancelled(token, next - 1)
              && (first < next - 1 ==> !IsCancelled(token, next - 2))
              && slept == Min(delay, 50 * (next - 1 - first))
  {
    ChunksCover(delay);
    var remaining := delay;
    slept, next := 0, first;
    while remaining > 0
      invariant remaining >= 0 && slept + remaining == delay
      invariant remaining > 0 ==> slept == 50 * (next - first)
      invariant first <= next && next + Chunks(remaining) == first + Chunks(delay)
      invariant first < next ==> !IsCancelled(token, next - 1)
    {
      next := next + 1;
      if IsCancelled(token, next - 1) {
        completed := false;
        return;
      }
      var current := Min(remaining, 50);
      slept, remaining := slept + current, remaining - current;
    }
    next := next + 1;
    completed := !IsCancelled(token, next - 1);
  }

  // ---------------------------------------------------------------- the loop

  /** The attempt failed in a way that the policy lets be retried, and that is what was announced. */
  ghost predicate RetriedAt<T>(op: int -> Attempt<T>, target: Target, timeoutMs: nat, policy: RetryPolicy,
                               notice: Notice, attempt: int)
  {
    && Failure(op(attempt), target, timeoutMs) == Some(notice.error)
    && policy.Approves(attempt, notice.error)
    && notice.attempt == attempt
    && JitteredFrom(policy.delay, PlainDelay(policy.delay, attempt), notice.delayMs)
  }

  /** One announced retry for each of the first attempts, in order. */
  ghost predicate Retried<T>(op: int -> Attempt<T>, target: Target, timeoutMs: nat, policy: RetryPolicy,
                             notices: seq<Notice>)
  {
    notices != [] ==>
      var n := |notices| - 1;
      && Retried(op, target, timeoutMs, policy, notices[..n])
      && n + 1 < policy.Attempts()
      && RetriedAt(op, target, timeoutMs, policy, notices[n], n + 1)
  }

  lemma {:induction false} RetriedEach<T>(
      op: int -> Attempt<T>, target: Target, timeoutMs: nat, policy: RetryPolicy, notices: seq<Notice>, k: nat)
    requires Retried(op, target, timeoutMs, policy, notices) && k < |notices|
    ensures RetriedAt(op, target, timeoutMs, policy, notices[k], k + 1) && |notices| < policy.Attempts()
  {
    if k < |notices| - 1 {
      RetriedEach(op, target, timeoutMs, policy, notices[..|notices| - 1], k);
    }
  }

  /** The looks at the token that a sleep of `delay` takes when nothing is cancelled. */
  function SleepLooks(delay: int): nat {
    if delay <= 0 then 0 else Chunks(delay) + 1
  }

  /** The looks of rounds that went all the way: one before the operation, one after its failure, and
      those of the wait. */
  function LooksOf(notices: seq<Notice>): nat {
    if notices == [] then 0
    else
      var n := |notices| - 1;
      LooksOf(notices[..n]) + 2 + SleepLooks(notices[n].delayMs)
  }

  /** The cancellation was seen at look number `looks`, and not before: at the start of a round,
      in the wait after the last announcement, or right after an attempt. */
  ghost predicate CancelSeen<T>(op: int -> Attempt<T>, target: Target, timeoutMs: nat, token: Token,
                                calls: nat, notices: seq<Notice>, looks: nat)
  {
    && IsCancelled(token, looks - 1)
    && if |notices| == calls then
         && (looks > 1 ==> !IsCancelled(token, looks - 2))
         && looks <= LooksOf(notices) + 1
         && (calls > 0 ==> LooksOf(notices[..calls - 1]) + 2 < looks)
       else
         && |notices| == calls - 1
         && !op(calls).ThrewForeign?
         && !IsCancelled(token, LooksOf(notices))
         // A success is looked at inside the try block, and again by the catch block.
         && looks == LooksOf(notices) + (if Failure(op(calls), target, timeoutMs).None? then 3 else 2)
         && (Failure(op(calls), target, timeoutMs).None? ==> IsCancelled(token, looks - 2))
  }

  /** How a call may end after the operation ran `calls` times, the retries in `notices` were announced
      and the token was looked at `looks` times. */
  ghost predicate Ends<T>(op: int -> Attempt<T>, target: Target, timeoutMs: nat, policy: RetryPolicy, token: Token,
                          out: Outcome<T>, calls: nat, notices: seq<Notice>, looks: nat)
  {
    && looks > 0
    && calls <= policy.Attempts()
    && Retried(op, target, timeoutMs, policy, notices)
    && match out
       case Cancelled => CancelSeen(op, target, timeoutMs, token, calls, notices, looks)
       case Completed(v) =>
         && |notices| == calls - 1 && looks == LooksOf(notices) + 2 && !IsCancelled(token, looks - 1)
         && op(calls).Returned? && op(calls).value == v && Failure(op(calls), target, timeoutMs).None?
       case Propagated =>
         && |notices| == calls - 1 && looks == LooksOf(notices) + 1 && !IsCancelled(token, looks - 1)
         && op(calls).ThrewForeign?
       case Rethrown(error) =>
         && calls == 1 && notices == [] && looks == 2 && !IsCancelled(token, 1)
         && Failure(op(1), target, timeoutMs) == Some(error)
         && (policy.Attempts() == 1 || !policy.Approves(1, error))
       case RetryExhausted(n) =>
         && n == policy.Attempts() && calls > 1
         && |notices| == calls - 1 && looks == LooksOf(notices) + 2 && !IsCancelled(token, looks - 1)
         && Failure(op(calls), target, timeoutMs).Some?
         && (calls == n || !policy.Approves(calls, Failure(op(calls), target, timeoutMs).value))
  }

  datatype Verdict = GiveUp | Stop | Retry

  /** What the catch block does with a failure: look at the token, decide on a retry, announce it and
      wait for it. */
  method AfterFailure(policy: RetryPolicy, token: Token, attempt: nat, error: Error, before: nat)
    returns (verdict: Verdict, notices: seq<Notice>, looks: nat)
    ensures verdict.GiveUp? <==> IsCancelled(token, looks - 1)
    ensures notices == [] ==> looks == before + 1
    ensures notices != [] && !verdict.GiveUp? ==> looks == before + 1 + SleepLooks(notices[0].delayMs)
    ensures notices != [] && verdict.GiveUp? ==>
              before + 1 < looks <= before + 1 + SleepLooks(notices[0].delayMs) && !IsCancelled(token, looks - 2)
    ensures verdict.Stop? ==> notices == [] && (attempt >= policy.Attempts() || !policy.Approves(attempt, error))
    ensures verdict.Retry? ==> notices != []
    ensures notices != [] ==>
              && attempt < policy.Attempts() && policy.Approves(attempt, error)
              && |notices| == 1 && notices[0].attempt == attempt && notices[0].error == error
              && JitteredFrom(policy.delay, PlainDelay(policy.delay, attempt), notices[0].delayMs)
  {
    notices, looks := [], before + 1;
    if IsCancelled(token, looks - 1) {
      return GiveUp, notices, looks;
    }
    var maxAttempts := if policy.maxAttempts > 1 then policy.maxAttempts else 1;
    if attempt >= maxAttempts || policy.retryOn.None? || !policy.retryOn.value(attempt, error) {
      return Stop, notices, looks;
    }
    var delayMs := ResolveRetryDelayMs(policy.delay, attempt);
    notices := [Notice(attempt, error, delayMs)];
    verdict := Retry;
    if delayMs > 0 {
      var completed, _, next := SleepWithCancellation(delayMs, token, looks);
      looks := next;
      if !completed {
        verdict := GiveUp;
      }
    }
  }

  lemma RetriedExtend<T>(op: int -> Attempt<T>, target: Target, timeoutMs: nat, policy: RetryPolicy,
                         notices: seq<Notice>, notice: Notice)
    requires Retried(op, target, timeoutMs, policy, notices) && |notices| + 1 < policy.Attempts()
    requires RetriedAt(op, target, timeoutMs, policy, notice, |notices| + 1)
    ensures Retried(op, target, timeoutMs, policy, notices + [notice])
  {
    assert (notices + [notice])[..|notices|] == notices;
  }

  /** What one round of the loop comes to. */
  datatype Round<T> =
    | CancelledBefore                      // the operation was not called
    | CancelledAfter
    | Succeeded(value: T)
    | Foreign
    | Failed(error: Error)                 // and no retry follows
    | Again

  /** What a round that starts after `before` looks may come to. */
  ghost predicate RoundFits<T>(op: int -> Attempt<T>, target: Target, timeoutMs: nat, policy: RetryPolicy, token: Token,
                               attempt: nat, before: nat, round: Round<T>, notices: seq<Notice>, looks: nat)
  {
    && (round.CancelledBefore? <==> IsCancelled(token, before))
    && (notices != [] ==>
          && |notices| == 1 && (round.Again? || round.CancelledAfter?)
          && attempt < policy.Attempts() && RetriedAt(op, target, timeoutMs, policy, notices[0], attempt))
    && match round
       case CancelledBefore => looks == before + 1
       case CancelledAfter =>
         && IsCancelled(token, looks - 1) && !op(attempt).ThrewForeign?
         && (if notices != [] then
               before + 2 < looks <= before + 2 + SleepLooks(notices[0].delayMs) && !IsCancelled(token, looks - 2)
             else
               && looks == before + (if Failure(op(attempt), target, timeoutMs).None? then 3 else 2)
               && (Failure(op(attempt), target, timeoutMs).None? ==> IsCancelled(token, looks - 2)))
       case Succeeded(value) =>
         && looks == before + 2 && !IsCancelled(token, looks - 1)
         && op(attempt).Returned? && op(attempt).value == value && Failure(op(attempt), target, timeoutMs).None?
       case Foreign => looks == before + 1 && op(attempt).ThrewForeign?
       case Failed(error) =>
         && looks == before + 2 && !IsCancelled(token, looks - 1)
         && Failure(op(attempt), target, timeoutMs) == Some(error)
         && (attempt >= policy.Attempts() || !policy.Approves(attempt, error))
       case Again =>
         notices != [] && looks == before + 2 + SleepLooks(notices[0].delayMs) && !IsCancelled(token, looks - 1)
  }

  method OneRound<T>(target: Target, timeoutMs: nat, policy: RetryPolicy, token: Token, op: int -> Attempt<T>,
                     attempt: nat, before: nat)
    returns (round: Round<T>, notices: seq<Notice>, looks: nat)
    ensures RoundFits(op, target, timeoutMs, policy, token, attempt, before, round, notices, looks)
  {
    notices, looks := [], before + 1;
    if IsCancelled(token, looks - 1) {
      return CancelledBefore, notices, looks;
    }
    var a := op(attempt);
    if a.ThrewForeign? {
      return Foreign, notices, looks;
    }
    var failure :=
      if a.Threw? then Some(a.error)
      else if timeoutMs > 0 && a.elapsedMs > timeoutMs then Some(TimeoutError(target, timeoutMs))
      else None;
    if failure.None? {
      looks := looks + 1;
      if !IsCancelled(token, looks - 1) {
        return Succeeded(a.value), notices, looks;
      }
      // The value is thrown away inside the try block; the catch block looks at the token again.
      return CancelledAfter, notices, looks + 1;
    }
    var verdict;
    verdict, notices, looks := AfterFailure(policy, token, attempt, failure.value, looks);
    round := match verdict case GiveUp => CancelledAfter case Stop => Failed(failure.value) case Retry => Again;
  }

  /** The state between two rounds: everything so far was retried. */
  ghost predicate Between<T>(op: int -> Attempt<T>, target: Target, timeoutMs: nat, policy: RetryPolicy, token: Token,
                             notices: seq<Notice>, looks: nat)
  {
    && Retried(op, target, timeoutMs, policy, notices) && |notices| < policy.Attempts()
    && looks == LooksOf(notices) && (looks > 0 ==> !IsCancelled(token, looks - 1))
  }

  lemma NextRound<T>(op: int -> Attempt<T>, target: Target, timeoutMs: nat, policy: RetryPolicy, token: Token,
                     notices: seq<Notice>, looks: nat, round: Round<T>, announced: seq<Notice>, next: nat)
    requires Between(op, target, timeoutMs, policy, token, notices, looks)
    requires RoundFits(op, target, timeoutMs, policy, token, |notices| + 1, looks, round, announced, next)
    ensures Retried(op, target, timeoutMs, policy, notices + announced)
    ensures round.Again? ==> Between(op, target, timeoutMs, policy, token, notices + announced, next)
    ensures announced != [] ==>
              (notices + announced)[..|notices|] == notices
              && LooksOf(notices + announced) == LooksOf(notices) + 2 + SleepLooks(announced[0].delayMs)
  {
    if announced != [] {
      RetriedExtend(op, target, timeoutMs, policy, notices, announced[0]);
      assert notices + announced == notices + [announced[0]];
      assert (notices + announced)[..|notices|] == notices;
    } else {
      assert notices + announced == notices;
    }
  }

  lemma LastRound<T>(op: int -> Attempt<T>, target: Target, timeoutMs: nat, policy: RetryPolicy, token: Token,
                     notices: seq<Notice>, looks: nat, round: Round<T>, announced: seq<Notice>, next: nat)
    requires Between(op, target, timeoutMs, policy, token, notices, looks) && !round.Again?
    requires RoundFits(op, target, timeoutMs, policy, token, |notices| + 1, looks, round, announced, next)
    ensures Ends(op, target, timeoutMs, policy, token, OutcomeOf(round, policy, |notices| + 1),
                 if round.CancelledBefore? then |notices| else |notices| + 1, notices + announced, next)
  {
    NextRound(op, target, timeoutMs, policy, token, notices, looks, round, announced, next);
    assert announced == [] ==> notices + announced == notices;
    if round.CancelledBefore? && notices != [] {
      assert LooksOf(notices) == LooksOf(notices[..|notices| - 1]) + 2 + SleepLooks(notices[|notices| - 1].delayMs);
    }
  }

  function OutcomeOf<T>(round: Round<T>, policy: RetryPolicy, attempt: nat): Outcome<T>
    requires !round.Again?
  {
    match round
    case CancelledBefore => Cancelled
    case CancelledAfter => Cancelled
    case Succeeded(value) => Completed(value)
    case Foreign => Propagated
    case Failed(error) => if attempt == 1 then Rethrown(error) else RetryExhausted(policy.Attempts())
  }

  method RunAttempts<T>(target: Target, timeoutMs: nat, policy: RetryPolicy, token: Token, op: int -> Attempt<T>)
    returns (out: Outcome<T>, calls: nat, notices: seq<Notice>, looks: nat)
    ensures Ends(op, target, timeoutMs, policy, token, out, calls, notices, looks)
  {
    calls, notices, looks := 0, [], 0;
    while true
      invariant |notices| == calls && Between(op, target, timeoutMs, policy, token, notices, looks)
      decreases policy.Attempts() - calls
    {
      var round, announced, next := OneRound(target, timeoutMs, policy, token, op, calls + 1, looks);
      NextRound(op, target, timeoutMs, policy, token, notices, looks, round, announced, next);
      if !round.Again? {
        LastRound(op, target, timeoutMs, policy, token, notices, looks, round, announced, next);
        out := OutcomeOf(round, policy, calls + 1);
        calls := if round.CancelledBefore? then calls else calls + 1;
        notices, looks := notices + announced, next;
        return;
      }
      calls, notices, looks := calls + 1, notices + announced, next;
    }
  }

  const DEFAULT_POLICY := RetryPolicy(1, DelayPolicy(NoDelay, 0, 0, false), None)

  /** A target without a policy is tried once; permission checks never time out. */
  method ExecuteWithPolicies<T>(target: Target, retry: map<Target, RetryPolicy>, timeouts: map<Target, int>,
                                token: Token, op: int -> Attempt<T>)
    returns (out: Outcome<T>, calls: nat, notices: seq<Notice>, looks: nat)
    ensures var timeoutMs := if target != PermissionTarget && target in timeouts && timeouts[target] > 0
                             then timeouts[target] else 0;
            var policy := if target in retry then retry[target] else DEFAULT_POLICY;
            && Ends(op, target, timeoutMs, policy, token, out, calls, notices, looks)
            && (out.Completed? ==>
                  calls > 0 && op(calls).Returned? && out.value == op(calls).value
                  && (timeoutMs == 0 || op(calls).elapsedMs <= timeoutMs))
    ensures target !in retry ==> calls <= 1 && notices == []
  {
    var timeoutMs := 0;
    if target != PermissionTarget && target in timeouts && timeouts[target] > 0 {
      timeoutMs := timeouts[target];
    }
    var policy := if target in retry then retry[target] else DEFAULT_POLICY;
    out, calls, notices, looks := RunAttempts(target, timeoutMs, policy, token, op);
  }

  // ---------------------------------------------------------------- the ending in plain terms

  /** The attempt threw this error, or came back later than the timeout allows. */
  ghost predicate FailsWith<T>(a: Attempt<T>, target: Target, timeoutMs: nat, error: Error) {
    match a
    case Returned(_, elapsed) => 0 < timeoutMs < elapsed && error == TimeoutError(target, timeoutMs)
    case Threw(thrown, _) => error == thrown
    case ThrewForeign(_) => false
  }

  /** The announcement tells of a failed attempt that the policy lets be retried, and of the policy's wait. */
  ghost predicate AnnouncedFor<T>(a: Attempt<T>, target: Target, timeoutMs: nat, policy: RetryPolicy, notice: Notice,
                                  attempt: nat)
  {
    && notice.attempt == attempt && FailsWith(a, target, timeoutMs, notice.error)
    && attempt < policy.maxAttempts && policy.retryOn.Some? && policy.retryOn.value(attempt, notice.error)
    && var plain := PlainDelay(policy.delay, attempt);
       if policy.delay.jitter && plain > 0 then plain / 2 <= notice.delayMs < plain else notice.delayMs == plain
  }

  lemma AnnouncedInPlainTerms<T>(
      op: int -> Attempt<T>, target: Target, timeoutMs: nat, policy: RetryPolicy, notices: seq<Notice>, k: nat)
    requires Retried(op, target, timeoutMs, policy, notices) && k < |notices|
    ensures AnnouncedFor(op(k + 1), target, timeoutMs, policy, notices[k], k + 1) && |notices| < policy.maxAttempts
  {
    RetriedEach(op, target, timeoutMs, policy, notices, k);
  }

  /** What each ending says about the last attempt, and each announcement about the attempt before it. A
      value that comes too late is never returned. */
  lemma EndingInPlainTerms<T>(op: int -> Attempt<T>, target: Target, timeoutMs: nat, policy: RetryPolicy, token: Token,
                              out: Outcome<T>, calls: nat, notices: seq<Notice>, looks: nat)
    requires Ends(op, target, timeoutMs, policy, token, out, calls, notices, looks)
    ensures calls <= 1 || calls <= policy.maxAttempts
    ensures match out
            case Completed(v) =>
              calls > 0 && op(calls).Returned? && v == op(calls).value
              && (timeoutMs == 0 || op(calls).elapsedMs <= timeoutMs)
            case Rethrown(error) =>
              calls == 1 && notices == [] && FailsWith(op(1), target, timeoutMs, error)
              && (policy.maxAttempts <= 1 || policy.retryOn.None? || !policy.retryOn.value(1, error))
            case RetryExhausted(n) =>
              1 < calls <= n == policy.maxAttempts
              && exists error :: FailsWith(op(calls), target, timeoutMs, error)
                                 && (calls == n || policy.retryOn.None? || !policy.retryOn.value(calls, error))
            case Propagated => calls > 0 && op(calls).ThrewForeign?
            case Cancelled => token.Some? && token.value < looks
    ensures !out.Cancelled? ==> |notices| == calls - 1 && (token.None? || token.value >= looks)
    ensures forall k | 0 <= k < |notices| :: AnnouncedFor(op(k + 1), target, timeoutMs, policy, notices[k], k + 1)
  {
    forall k | 0 <= k < |notices|
      ensures AnnouncedFor(op(k + 1), target, timeoutMs, policy, notices[k], k + 1) && |notices| < policy.maxAttempts
    {
      AnnouncedInPlainTerms(op, target, timeoutMs, policy, notices, k);
    }
    if out.RetryExhausted? {
      assert FailsWith(op(calls), target, timeoutMs, Failure(op(calls), target, timeoutMs).value);
    }
  }

  /** Without a policy and without a cancellation, one attempt decides: a late answer is a timeout. */
  lemma SingleAttempt<T>(op: int -> Attempt<T>, target: Target, timeoutMs: nat, token: Token,
                         out: Outcome<T>, calls: nat, notices: seq<Notice>, looks: nat)
    requires Ends(op, target, timeoutMs, DEFAULT_POLICY, token, out, calls, notices, looks) && token == None
    ensures calls == 1 && notices == []
    ensures out == match op(1)
                   case Returned(v, elapsed) =>
                     if 0 < timeoutMs < elapsed then Rethrown(TimeoutError(target, timeoutMs)) else Completed(v)
                   case Threw(error, _) => Rethrown(error)
                   case ThrewForeign(_) => Propagated
  {
    EndingInPlainTerms(op, target, timeoutMs, DEFAULT_POLICY, token, out, calls, notices, looks);
  }

  // ---------------------------------------------------------------- what the ending determines

  /** Apart from cancellation there is only one way to end: two endings of the same call agree on the
      outcome and on the number of calls. */
  lemma EndingDetermined<T>(op: int -> Attempt<T>, target: Target, timeoutMs: nat, policy: RetryPolicy, token: Token,
                            out1: Outcome<T>, calls1: nat, notices1: seq<Notice>, looks1: nat,
                            out2: Outcome<T>, calls2: nat, notices2: seq<Notice>, looks2: nat)
    requires Ends(op, target, timeoutMs, policy, token, out1, calls1, notices1, looks1) && !out1.Cancelled?
    requires Ends(op, target, timeoutMs, policy, token, out2, calls2, notices2, looks2) && !out2.Cancelled?
    ensures calls1 == calls2 && out1 == out2
  {
    EndingNotLater(op, target, timeoutMs, policy, token, out1, calls1, notices1, looks1,
                   out2, calls2, notices2, looks2);
    EndingNotLater(op, target, timeoutMs, policy, token, out2, calls2, notices2, looks2,
                   out1, calls1, notices1, looks1);
  }

  lemma EndingNotLater<T>(op: int -> Attempt<T>, target: Target, timeoutMs: nat, policy: RetryPolicy, token: Token,
                          out1: Outcome<T>, calls1: nat, notices1: seq<Notice>, looks1: nat,
                          out2: Outcome<T>, calls2: nat, notices2: seq<Notice>, looks2: nat)
    requires Ends(op, target, timeoutMs, policy, token, out1, calls1, notices1, looks1) && !out1.Cancelled?
    requires Ends(op, target, timeoutMs, policy, token, out2, calls2, notices2, looks2) && !out2.Cancelled?
    ensures calls1 <= calls2
  {
    // The first call would have retried the attempt at which the second one ended.
    if calls2 - 1 < |notices1| {
      RetriedEach(op, target, timeoutMs, policy, notices1, calls2 - 1);
    }
  }

  lemma NoticesAgree<T>(op: int -> Attempt<T>, target: Target, timeoutMs: nat, policy: RetryPolicy,
                        notices1: seq<Notice>, notices2: seq<Notice>)
    requires !policy.delay.jitter && |notices1| <= |notices2|
    requires Retried(op, target, timeoutMs, policy, notices1) && Retried(op, target, timeoutMs, policy, notices2)
    ensures notices2[..|notices1|] == notices1
  {
    forall k | 0 <= k < |notices1| ensures notices1[k] == notices2[k] {
      RetriedEach(op, target, timeoutMs, policy, notices1, k);
      RetriedEach(op, target, timeoutMs, policy, notices2, k);
    }
  }

  lemma {:induction false} LooksMonotone(notices: seq<Notice>, k: nat)
    requires k <= |notices|
    ensures LooksOf(notices[..k]) <= LooksOf(notices)
    ensures k < |notices| ==> LooksOf(notices[..k]) + 2 <= LooksOf(notices)
  {
    var n := |notices| - 1;
    if k == |notices| {
      assert notices[..k] == notices;
    } else {
      LooksMonotone(notices[..n], k);
      assert notices[..n][..k] == notices[..k];
    }
  }

  /** A call that announced its retry number `k` had passed the looks around that attempt. */
  lemma PassedLooks<T>(op: int -> Attempt<T>, target: Target, timeoutMs: nat, policy: RetryPolicy, token: Token,
                       out: Outcome<T>, calls: nat, notices: seq<Notice>, looks: nat, k: nat)
    requires Ends(op, target, timeoutMs, policy, token, out, calls, notices, looks) && k < |notices|
    ensures !IsCancelled(token, LooksOf(notices[..k]) + 1)
  {
    var n := |notices| - 1;
    LooksMonotone(notices, k);
    LooksMonotone(notices[..n], k);
    assert notices[..n][..k] == notices[..k];
  }

  lemma SameRetries<T>(op: int -> Attempt<T>, target: Target, timeoutMs: nat, policy: RetryPolicy, token: Token,
                       out1: Outcome<T>, calls1: nat, notices1: seq<Notice>, looks1: nat,
                       out2: Outcome<T>, calls2: nat, notices2: seq<Notice>, looks2: nat)
    requires !policy.delay.jitter && |notices1| <= |notices2|
    requires Ends(op, target, timeoutMs, policy, token, out1, calls1, notices1, looks1)
    requires Ends(op, target, timeoutMs, policy, token, out2, calls2, notices2, looks2)
    ensures notices1 == notices2
  {
    NoticesAgree(op, target, timeoutMs, policy, notices1, notices2);
    var n := |notices1|;
    if n < |notices2| {
      RetriedEach(op, target, timeoutMs, policy, notices2, n);
      PassedLooks(op, target, timeoutMs, policy, token, out2, calls2, notices2, looks2, n);
    }
  }

  /** Without jitter the contract leaves no freedom at all: the attempts, the policy and the moment of
      the cancellation determine the outcome, the calls, the announcements and the looks. */
  lemma EverythingDetermined<T>(op: int -> Attempt<T>, target: Target, timeoutMs: nat, policy: RetryPolicy,
                                token: Token,
                                out1: Outcome<T>, calls1: nat, notices1: seq<Notice>, looks1: nat,
                                out2: Outcome<T>, calls2: nat, notices2: seq<Notice>, looks2: nat)
    requires !policy.delay.jitter
    requires Ends(op, target, timeoutMs, policy, token, out1, calls1, notices1, looks1)
    requires Ends(op, target, timeoutMs, policy, token, out2, calls2, notices2, looks2)
    ensures out1 == out2 && calls1 == calls2 && notices1 == notices2 && looks1 == looks2
  {
    if |notices1| <= |notices2| {
      SameRetries(op, target, timeoutMs, policy, token, out1, calls1, notices1, looks1, out2, calls2, notices2, looks2);
    } else {
      SameRetries(op, target, timeoutMs, policy, token, out2, calls2, notices2, looks2, out1, calls1, notices1, looks1);
    }
  }

  /** The announced waits of a call that was not cancelled add up to no more than the policy allows. */
  lemma WaitsBounded<T>(op: int -> Attempt<T>, target: Target, timeoutMs: nat, policy: RetryPolicy, token: Token,
                        out: Outcome<T>, calls: nat, notices: seq<Notice>, looks: nat)
    requires Ends(op, target, timeoutMs, policy, token, out, calls, notices, looks)
    ensures var delays := seq(|notices|, i requires 0 <= i < |notices| => notices[i].delayMs);
            && Sum(delays) <= (policy.Attempts() - 1) * policy.delay.Ceiling()
            && Sum(delays) <= policy.delay.Base() * (Pow2(policy.Attempts() - 1) - 1)
  {
    var delays := seq(|notices|, i requires 0 <= i < |notices| => notices[i].delayMs);
    forall k | 0 <= k < |delays| ensures JitteredFrom(policy.delay, PlainDelay(policy.delay, k + 1), delays[k]) {
      RetriedEach(op, target, timeoutMs, policy, notices, k);
    }
    TotalDelayLinear(policy.delay, delays);
    TotalDelayGeometric(policy.delay, delays);
    BoundsMonotone(policy.delay, |delays|, policy.Attempts() - 1);
  }
}
