/** How long to wait between attempts: fixed or saturating exponential back-off, with jitter. */
module RetryDelay {
  type CInt = x: int | -0x8000_0000 <= x <= 0x7fff_ffff

  datatype RetryStrategy = NoDelay | Fixed | Exponential

  datatype DelayPolicy = DelayPolicy(strategy: RetryStrategy, baseDelayMs: CInt, maxDelayMs: CInt, jitter: bool)
  {
    function Base(): nat {
      if baseDelayMs < 0 then 0 else baseDelayMs
    }

    /** No delay is ever longer than this; it is never below the base delay. */
    function Ceiling(): nat {
      if maxDelayMs < Base() then Base() else maxDelayMs
    }
  }

  function Min(a: int, b: int): int {
    if a < b then a else b
  }

  function Pow2(n: nat): (p: nat)
    ensures p >= 1
  {
    if n == 0 then 1 else 2 * Pow2(n - 1)
  }

  lemma {:induction false} Pow2Monotone(m: nat, n: nat)
    requires m <= n
    ensures Pow2(m) <= Pow2(n)
    decreases n - m
  {
    if m < n {
      Pow2Monotone(m, n - 1);
    }
  }

  /** The base delay doubled `n` times. */
  function Doubled(base: nat, n: nat): (d: nat)
    ensures d >= base
  {
    if n == 0 then base else 2 * Doubled(base, n - 1)
  }

  lemma {:induction false} DoubledIsPower(base: nat, n: nat)
    ensures Doubled(base, n) == base * Pow2(n)
  {
    if n > 0 {
      DoubledIsPower(base, n - 1);
    }
  }

  lemma {:induction false} DoubledMonotone(base: nat, m: nat, n: nat)
    requires m <= n
    ensures Doubled(base, m) <= Doubled(base, n)
    decreases n - m
  {
    if m < n {
      DoubledMonotone(base, m, n - 1);
    }
  }

  function Doublings(attempt: int): nat {
    if attempt <= 1 then 0 else attempt - 1
  }

  /** The delay before jitter. */
  function PlainDelay(p: DelayPolicy, attempt: int): nat {
    match p.strategy
    case NoDelay => 0
    case Fixed => p.Base()
    case Exponential => Min(Doubled(p.Base(), Doublings(attempt)), p.Ceiling())
  }

  ghost predicate JitteredFrom(p: DelayPolicy, plain: nat, delay: int) {
    if p.jitter && plain > 0 then plain / 2 <= delay <= plain - 1 else delay == plain
  }

  /** Exponential back-off in closed form: a power of two of the base delay, cut off at the ceiling. */
  lemma ExponentialDelay(p: DelayPolicy, attempt: nat)
    requires p.strategy.Exponential? && attempt >= 1
    ensures PlainDelay(p, attempt) == Min(p.Base() * Pow2(attempt - 1), p.Ceiling())
  {
    DoubledIsPower(p.Base(), attempt - 1);
  }

  /** The result of every step fits an `int`, although the loop stops early instead of multiplying. */
  method ResolveRetryDelayMs(p: DelayPolicy, attempt: int) returns (delay: CInt)
    ensures JitteredFrom(p, PlainDelay(p, attempt), delay)
    ensures var plain := PlainDelay(p, attempt);
            if p.jitter && plain > 0 then plain / 2 <= delay < plain else delay == plain
  {
    if p.strategy.NoDelay? {
      return 0;
    }
    var base: CInt := if p.baseDelayMs > 0 then p.baseDelayMs else 0;
    var ceiling: CInt := if p.maxDelayMs > base then p.maxDelayMs else base;
    delay := base;
    if p.strategy.Exponential? {
      var raw, step := base, 0;
      while step < attempt - 1
        invariant 0 <= step <= Doublings(attempt)
        invariant raw == Doubled(p.Base(), step) && raw <= ceiling
      {
        if raw >= ceiling || raw > ceiling / 2 {
          DoubledMonotone(p.Base(), step + 1, Doublings(attempt));
          raw := ceiling;
          break;
        }
        raw := raw * 2;
        step := step + 1;
      }
      delay := Min(raw, ceiling);
    }
    if p.jitter && delay > 0 {
      var plain := delay;
      delay :| plain / 2 <= delay <= plain - 1;
    }
  }

  /** Waiting never gets shorter from one attempt to a later one. */
  lemma DelayMonotone(p: DelayPolicy, i: int, j: int)
    requires i <= j
    ensures PlainDelay(p, i) <= PlainDelay(p, j) <= p.Ceiling()
  {
    DoubledMonotone(p.Base(), Doublings(i), Doublings(j));
  }

  function Sum(delays: seq<int>): int {
    if delays == [] then 0 else Sum(delays[..|delays| - 1]) + delays[|delays| - 1]
  }

  /** The delays that a sequence of consecutive attempts, counted from 1, may have waited. */
  ghost predicate DelaysOf(p: DelayPolicy, delays: seq<int>) {
    forall k | 0 <= k < |delays| :: JitteredFrom(p, PlainDelay(p, k + 1), delays[k])
  }

  lemma OneMore(n: nat, c: nat)
    ensures (n + 1) * c == n * c + c
  {
  }

  /** The whole wait of `k` retries, jittered or not, is at most `k` times the ceiling ... */
  lemma {:induction false} TotalDelayLinear(p: DelayPolicy, delays: seq<int>)
    requires DelaysOf(p, delays)
    ensures 0 <= Sum(delays) <= |delays| * p.Ceiling()
  {
    if delays != [] {
      var n, ceiling := |delays| - 1, p.Ceiling();
      TotalDelayLinear(p, delays[..n]);
      assert 0 <= delays[n] <= ceiling by {
        assert JitteredFrom(p, PlainDelay(p, n + 1), delays[n]);
        DelayMonotone(p, n + 1, n + 1);
      }
      OneMore(n, ceiling);
    }
  }

  lemma {:induction false} TotalDelayDoubled(p: DelayPolicy, delays: seq<int>)
    requires DelaysOf(p, delays)
    ensures Sum(delays) <= Doubled(p.Base(), |delays|) - p.Base()
  {
    if delays != [] {
      var n := |delays| - 1;
      TotalDelayDoubled(p, delays[..n]);
      assert JitteredFrom(p, PlainDelay(p, n + 1), delays[n]);
      assert delays[n] <= PlainDelay(p, n + 1) <= Doubled(p.Base(), n);
    }
  }

  lemma OneLess(c: int, n: int)
    ensures c * (n - 1) == c * n - c
  {
  }

  /** ... and at most the geometric sum of the base delay. */
  lemma TotalDelayGeometric(p: DelayPolicy, delays: seq<int>)
    requires DelaysOf(p, delays)
    ensures Sum(delays) <= p.Base() * (Pow2(|delays|) - 1)
  {
    TotalDelayDoubled(p, delays);
    DoubledIsPower(p.Base(), |delays|);
    OneLess(p.Base(), Pow2(|delays|));
  }

  lemma TimesMonotone(m: nat, n: nat, c: nat)
    requires m <= n
    ensures c * m <= c * n && m * c <= n * c
  {
    assert c * n - c * m == c * (n - m);
  }

  /** More retries are allowed a longer total wait. */
  lemma BoundsMonotone(p: DelayPolicy, m: nat, n: nat)
    requires m <= n
    ensures m * p.Ceiling() <= n * p.Ceiling()
    ensures p.Base() * (Pow2(m) - 1) <= p.Base() * (Pow2(n) - 1)
  {
    TimesMonotone(m, n, p.Ceiling());
    Pow2Monotone(m, n);
    TimesMonotone(Pow2(m) - 1, Pow2(n) - 1, p.Base());
  }
}
