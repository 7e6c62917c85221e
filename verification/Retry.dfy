/** Retrying with exponential backoff, a cap and jitter, over exact real arithmetic. */
module Retry {
  import opened Text
  import opened Errors

  datatype Config = Config(maxRetries: int, initial: real, max: real, multiplier: real, jitter: real)

  datatype RetryResult = RetryResult(attempts: nat, lastError: Error, lastInterval: real)

  const UNLIMITED: nat := 1000

  function MaxAttempts(cfg: Config): nat {
    if cfg.maxRetries < 0 then UNLIMITED else cfg.maxRetries + 1
  }

  function Smaller(x: real, y: real): real {
    if x <= y then x else y
  }

  /** Spreads `x` over [x - r·x, x + r·x) by the random draw `u`. */
  function Jittered(r: real, x: real, u: real): real {
    if r > 0.0 then (x - r * x) + u * ((x + r * x) - (x - r * x)) else x
  }

  function Capped(cfg: Config, x: real): real {
    if x > cfg.max then cfg.max else x
  }

  function Grown(cfg: Config, x: real): real {
    x * cfg.multiplier
  }

  /** The interval in force before call `k`, counting from 0; draws are numbered by the failure they follow. */
  function Wait(cfg: Config, draw: nat -> real, k: nat): real {
    if k == 0 then 0.0
    else if k == 1 then Jittered(cfg.jitter, Capped(cfg, cfg.initial), draw(0))
    else Jittered(cfg.jitter, Capped(cfg, Grown(cfg, Wait(cfg, draw, k - 1))), draw(k - 1))
  }

  method Spread(cfg: Config, x: real, u: real) returns (interval: real)
    ensures interval == Jittered(cfg.jitter, x, u)
  {
    interval := x;
    if cfg.jitter > 0.0 {
      var delta := cfg.jitter * interval;
      var low, high := interval - delta, interval + delta;
      interval := low + u * (high - low);
    }
  }

  /** Calls `fn` until it succeeds, fails for good, the attempts run out, or a wait is cancelled. */
  method RetryWithBackoff(cfg: Config, fn: nat -> Error, draw: nat -> real, cancelled: nat -> bool, reason: Error)
    returns (result: RetryResult, calls: seq<Error>, waits: seq<real>)
    requires reason != Nil
    ensures result.attempts == |calls| && 1 <= |calls| <= if cfg.maxRetries < 0 then 1000 else cfg.maxRetries + 1
    ensures forall i :: 0 <= i < |calls| ==> calls[i] == fn(i)
    ensures forall i :: 0 <= i < |calls| - 1 ==> calls[i] != Nil && IsRetryable(calls[i])
    ensures result.lastError == Nil <==> calls[|calls| - 1] == Nil
    ensures |calls| - 1 <= |waits| <= |calls|
    ensures forall i :: 0 <= i < |waits| ==> waits[i] == Wait(cfg, draw, i + 1)
    ensures |waits| == |calls| ==> result.lastError == reason && cancelled(|calls|) && IsRetryable(calls[|calls| - 1])
    ensures |waits| < |calls| ==> result.lastError == calls[|calls| - 1]
    ensures |waits| < |calls| && !(|calls| == if cfg.maxRetries < 0 then 1000 else cfg.maxRetries + 1) ==>
              !IsRetryable(calls[|calls| - 1])
    ensures result.lastInterval == Wait(cfg, draw, if IsRetryable(calls[|calls| - 1]) then |calls| else |calls| - 1)
  {
    var interval := 0.0;
    var lastErr := Nil;
    calls, waits := [], [];
    var attempt := 0;
    while attempt < MaxAttempts(cfg)
      invariant 0 <= attempt <= MaxAttempts(cfg)
      invariant |calls| == attempt && |waits| == (if attempt == 0 then 0 else attempt - 1)
      invariant forall i :: 0 <= i < |calls| ==> calls[i] == fn(i) && calls[i] != Nil && IsRetryable(calls[i])
      invariant forall i :: 0 <= i < |waits| ==> waits[i] == Wait(cfg, draw, i + 1)
      invariant interval == Wait(cfg, draw, attempt)
      invariant attempt > 0 ==> lastErr == calls[attempt - 1]
    {
      if attempt > 0 {
        waits := waits + [interval];
      }
      if interval > 0.0 && cancelled(attempt) {
        result := RetryResult(attempt, reason, interval);
        return;
      }
      lastErr := fn(attempt);
      calls := calls + [lastErr];
      if lastErr == Nil || !IsRetryable(lastErr) {
        result := RetryResult(attempt + 1, lastErr, interval);
        return;
      }
      interval := if attempt == 0 then cfg.initial else Grown(cfg, interval);
      interval := Spread(cfg, Capped(cfg, interval), draw(attempt));
      attempt := attempt + 1;
    }
    result := RetryResult(attempt, lastErr, interval);
  }

  // ----- Bounds on the waits ---------------------------------------------------------------------------------

  /** Configurations for which the backoff is meant: growth, a proper jitter, no negative durations. */
  predicate Sensible(cfg: Config) {
    cfg.multiplier >= 1.0 && 0.0 <= cfg.jitter < 1.0 && cfg.initial >= 0.0 && cfg.max >= 0.0
  }

  ghost predicate Draws(draw: nat -> real) {
    forall k: nat :: 0.0 <= draw(k) < 1.0
  }

  function Power(x: real, n: nat): real {
    if n == 0 then 1.0 else x * Power(x, n - 1)
  }

  /** The interval before retry `k` if there were no jitter. */
  function Base(cfg: Config, k: nat): real
    requires k >= 1
  {
    Smaller(cfg.max, cfg.initial * Power(cfg.multiplier, k - 1))
  }

  lemma MulMono(a: real, x: real, y: real)
    requires a >= 0.0 && x <= y
    ensures a * x <= a * y
  {}

  lemma JitterBounds(r: real, x: real, u: real)
    requires 0.0 <= r < 1.0 && x >= 0.0 && 0.0 <= u < 1.0
    ensures Spreads(r, x, Jittered(r, x, u))
  {
    var d := r * x;
    MulMono(r, 0.0, x);
    assert Jittered(r, x, u) == if r > 0.0 then (x - d) + u * (d + d) else x;
    MulMono(d + d, 0.0, u);
    MulMono(d + d, u, 1.0);
    assert (1.0 - r) * x == x - d && (1.0 + r) * x == x + d;
  }

  lemma {:induction false} PowerAtLeastOne(x: real, n: nat)
    requires x >= 1.0
    ensures Power(x, n) >= 1.0
  {
    if n == 0 {
    } else {
      PowerAtLeastOne(x, n - 1);
      MulMono(x, 1.0, Power(x, n - 1));
    }
  }

  lemma UnitProduct(x: real, y: real)
    requires 0.0 <= x <= 1.0 && 0.0 <= y <= 1.0
    ensures 0.0 <= x * y <= 1.0
  {
    MulMono(x, y, 1.0);
    assert x * y <= x * 1.0;
    assert x * 1.0 == x;
  }

  lemma {:induction false} PowerAtMostOne(x: real, n: nat)
    requires 0.0 <= x <= 1.0
    ensures 0.0 <= Power(x, n) <= 1.0
  {
    if n == 0 {
    } else {
      PowerAtMostOne(x, n - 1);
      UnitProduct(x, Power(x, n - 1));
    }
  }

  predicate Growth(max: real, m: real, b: real, b': real) {
    b >= 0.0 && b' == Smaller(max, b * m)
  }

  predicate CappedProduct(max: real, m: real, w: real, x: real) {
    x == (if w * m > max then max else w * m)
  }

  predicate Spreads(r: real, x: real, j: real) {
    (1.0 - r) * x <= j <= (1.0 + r) * x
  }

  predicate Shrinks(r: real, q: real, q': real) {
    0.0 <= q <= 1.0 && q' == (1.0 - r) * q
  }

  predicate Swells(r: real, p: real, p': real) {
    p >= 1.0 && p' == (1.0 + r) * p
  }

  lemma CapCommutes(max: real, m: real, y: real)
    requires m >= 1.0 && max >= 0.0
    ensures Smaller(max, y * m) == Smaller(max, Smaller(max, y) * m)
  {
    if y > max {
      MulMono(m, max, y);
      MulMono(max, 1.0, m);
      assert max * 1.0 == max;
    }
  }

  lemma PowerShift(a: real, m: real, p: real)
    ensures a * (m * p) == (a * p) * m
  {}

  lemma GrowthOfProducts(max: real, m: real, a: real, p: real, p': real)
    requires m >= 1.0 && max >= 0.0 && a >= 0.0 && p >= 0.0 && p' == m * p
    ensures Growth(max, m, Smaller(max, a * p), Smaller(max, a * p'))
  {
    PowerShift(a, m, p);
    CapCommutes(max, m, a * p);
    NonNegative(a, p);
  }

  lemma BaseStep(cfg: Config, k: nat)
    requires Sensible(cfg) && k >= 1
    ensures Growth(cfg.max, cfg.multiplier, Base(cfg, k), Base(cfg, k + 1))
  {
    PowerAtLeastOne(cfg.multiplier, k - 1);
    GrowthOfProducts(cfg.max, cfg.multiplier, cfg.initial, Power(cfg.multiplier, k - 1), Power(cfg.multiplier, k));
  }

  lemma NonNegative(a: real, x: real)
    requires a >= 0.0 && x >= 0.0
    ensures a * x >= 0.0
  {}

  lemma UpperStep(max: real, m: real, w: real, b: real, p: real, x: real, b': real)
    requires m >= 1.0 && max >= 0.0 && 0.0 <= w <= p * b && p >= 1.0 && b >= 0.0
    requires x == (if w * m > max then max else w * m) && b' == Smaller(max, b * m)
    ensures 0.0 <= x <= p * b' && x <= max
  {
    MulMono(m, w, p * b);
    MulMono(m, 0.0, w);
    assert p * (b * m) == m * (p * b);
    MulMono(max, 1.0, p);
  }

  lemma LowerStep(max: real, m: real, w: real, b: real, q: real, x: real, b': real)
    requires m >= 1.0 && max >= 0.0 && q * b <= w && 0.0 <= q <= 1.0 && b >= 0.0
    requires x == (if w * m > max then max else w * m) && b' == Smaller(max, b * m)
    ensures q * b' <= x
  {
    MulMono(m, q * b, w);
    assert q * (b * m) == m * (q * b);
    MulMono(max, q, 1.0);
    MulMono(q, b', max);
    MulMono(q, b', b * m);
  }

  lemma Regroup(a: real, b: real, c: real)
    ensures a * (b * c) == (a * b) * c
  {}

  /** One more retry, over plain numbers: `x` is the capped growth of `w`, `j` its jittered form. */
  lemma UpperWait(r: real, max: real, m: real, w: real, b: real, p: real, x: real, b': real, p': real, j: real)
    requires 0.0 <= r < 1.0 && m >= 1.0 && max >= 0.0 && b >= 0.0 && 0.0 <= w <= p * b && p >= 1.0
    requires x == (if w * m > max then max else w * m) && b' == Smaller(max, b * m)
    requires j <= (1.0 + r) * x && p' == (1.0 + r) * p
    ensures j <= p' * b' && j <= (1.0 + r) * max
  {
    UpperStep(max, m, w, b, p, x, b');
    MulMono(1.0 + r, x, p * b');
    MulMono(1.0 + r, x, max);
    Regroup(1.0 + r, p, b');
  }

  lemma LowerWait(r: real, max: real, m: real, w: real, b: real, q: real, x: real, b': real, q': real, j: real)
    requires 0.0 <= r < 1.0 && m >= 1.0 && max >= 0.0 && b >= 0.0 && 0.0 <= w && q * b <= w && 0.0 <= q <= 1.0
    requires x == (if w * m > max then max else w * m) && b' == Smaller(max, b * m)
    requires (1.0 - r) * x <= j && q' == (1.0 - r) * q
    ensures q' * b' <= j && 0.0 <= j
  {
    LowerStep(max, m, w, b, q, x, b');
    NonNegative(w, m);
    NonNegative(1.0 - r, x);
    MulMono(1.0 - r, q * b', x);
    Regroup(1.0 - r, q, b');
  }

  /** `w` lies between `q` and `p` times `b` and passes the cap by the factor 1+r at most. */
  predicate Within(r: real, max: real, q: real, p: real, b: real, w: real) {
    q * b <= w <= p * b && 0.0 <= w <= (1.0 + r) * max
  }

  /** How the numbers of one retry follow from those of the one before. */
  predicate Advance(r: real, max: real, m: real, w: real, b: real, q: real, p: real, x: real, b': real, q': real,
                    p': real, j: real) {
    && 0.0 <= r < 1.0 && m >= 1.0 && max >= 0.0
    && CappedProduct(max, m, w, x) && Growth(max, m, b, b') && Spreads(r, x, j) && Shrinks(r, q, q') && Swells(r, p, p')
  }

  lemma WithinStep(r: real, max: real, m: real, w: real, b: real, q: real, p: real, x: real, b': real, q': real,
                   p': real, j: real)
    requires Advance(r, max, m, w, b, q, p, x, b', q', p', j) && Within(r, max, q, p, b, w)
    ensures Within(r, max, q', p', b', j)
  {
    UpperWait(r, max, m, w, b, p, x, b', p', j);
    LowerWait(r, max, m, w, b, q, x, b', q', j);
  }

  /** The bounds on the wait before retry `k`. */
  predicate Bounded(cfg: Config, w: real, k: nat)
    requires k >= 1
  {
    Within(cfg.jitter, cfg.max, Power(1.0 - cfg.jitter, k), Power(1.0 + cfg.jitter, k), Base(cfg, k), w)
  }

  lemma CappedGrowth(cfg: Config, w: real)
    requires Sensible(cfg) && w >= 0.0
    ensures CappedProduct(cfg.max, cfg.multiplier, w, Capped(cfg, Grown(cfg, w)))
    ensures Capped(cfg, Grown(cfg, w)) >= 0.0
  {
    NonNegative(w, cfg.multiplier);
  }

  lemma PowerOne(x: real)
    ensures Power(x, 1) == x
  {
    assert Power(x, 1) == x * Power(x, 0);
  }

  lemma FirstBase(cfg: Config)
    ensures Base(cfg, 1) == Capped(cfg, cfg.initial)
  {
    assert Power(cfg.multiplier, 0) == 1.0;
  }

  lemma FirstWithin(r: real, max: real, x: real, j: real)
    requires 0.0 <= r < 1.0 && 0.0 <= x <= max && Spreads(r, x, j)
    ensures Within(r, max, 1.0 - r, 1.0 + r, x, j)
  {
    NonNegative(1.0 - r, x);
    MulMono(1.0 + r, x, max);
  }

  lemma FirstWait(cfg: Config, u: real)
    requires Sensible(cfg) && 0.0 <= u < 1.0
    ensures Bounded(cfg, Jittered(cfg.jitter, Capped(cfg, cfg.initial), u), 1)
  {
    var r, x := cfg.jitter, Capped(cfg, cfg.initial);
    JitterBounds(r, x, u);
    FirstWithin(r, cfg.max, x, Jittered(r, x, u));
    PowerOne(1.0 - r);
    PowerOne(1.0 + r);
    FirstBase(cfg);
  }

  lemma PowerShrinks(r: real, k: nat)
    requires 0.0 <= r < 1.0 && k >= 2
    ensures Shrinks(r, Power(1.0 - r, k - 1), Power(1.0 - r, k))
  {
    PowerAtMostOne(1.0 - r, k - 1);
  }

  lemma PowerSwells(r: real, k: nat)
    requires 0.0 <= r < 1.0 && k >= 2
    ensures Swells(r, Power(1.0 + r, k - 1), Power(1.0 + r, k))
  {
    PowerAtLeastOne(1.0 + r, k - 1);
  }

  lemma JitteredGrowth(cfg: Config, w: real, u: real)
    requires Sensible(cfg) && 0.0 <= u < 1.0 && w >= 0.0
    ensures var x := Capped(cfg, Grown(cfg, w)); Spreads(cfg.jitter, x, Jittered(cfg.jitter, x, u))
  {
    CappedGrowth(cfg, w);
    JitterBounds(cfg.jitter, Capped(cfg, Grown(cfg, w)), u);
  }

  lemma AdvanceHolds(cfg: Config, w: real, u: real, k: nat)
    requires Sensible(cfg) && 0.0 <= u < 1.0 && k >= 2 && w >= 0.0
    ensures var r, x := cfg.jitter, Capped(cfg, Grown(cfg, w));
            Advance(r, cfg.max, cfg.multiplier, w, Base(cfg, k - 1), Power(1.0 - r, k - 1), Power(1.0 + r, k - 1),
                    x, Base(cfg, k), Power(1.0 - r, k), Power(1.0 + r, k), Jittered(r, x, u))
  {
    BaseStep(cfg, k - 1);
    PowerShrinks(cfg.jitter, k);
    PowerSwells(cfg.jitter, k);
    CappedGrowth(cfg, w);
    JitteredGrowth(cfg, w, u);
  }

  lemma NextWait(cfg: Config, w: real, u: real, k: nat)
    requires Sensible(cfg) && 0.0 <= u < 1.0 && k >= 2 && w >= 0.0 && Bounded(cfg, w, k - 1)
    ensures Bounded(cfg, Jittered(cfg.jitter, Capped(cfg, Grown(cfg, w)), u), k)
  {
    var r, x := cfg.jitter, Capped(cfg, Grown(cfg, w));
    AdvanceHolds(cfg, w, u, k);
    WithinStep(r, cfg.max, cfg.multiplier, w, Base(cfg, k - 1), Power(1.0 - r, k - 1), Power(1.0 + r, k - 1),
               x, Base(cfg, k), Power(1.0 - r, k), Power(1.0 + r, k), Jittered(r, x, u));
  }

  /**
   Jitter compounds because each interval is computed from the jittered one before: the wait before
   retry k stays within factors (1-r)^k and (1+r)^k of the plain backoff, and since jitter follows the
   cap it can pass MaxInterval, but never by more than the factor 1+r.
   */
  lemma {:induction false} WaitBounds(cfg: Config, draw: nat -> real, k: nat)
    requires Sensible(cfg) && Draws(draw) && k >= 1
    ensures Bounded(cfg, Wait(cfg, draw, k), k)
  {
    assert 0.0 <= draw(k - 1) < 1.0;
    if k == 1 {
      FirstWait(cfg, draw(0));
    } else {
      WaitBounds(cfg, draw, k - 1);
      NextWait(cfg, Wait(cfg, draw, k - 1), draw(k - 1), k);
    }
  }

  // ----- When the documented cap holds ---------------------------------------------------------------------------

  /** The backoff before retry `k` with neither cap nor jitter. */
  function Uncapped(cfg: Config, k: nat): real
    requires k >= 1
  {
    cfg.initial * Power(cfg.multiplier, k - 1)
  }

  predicate KeepsCap(r: real, max: real, p: real, y: real) {
    r == 0.0 || max == 0.0 || p * y <= max
  }

  /** What the configuration must satisfy for MaxInterval to be a cap on the wait before retry `k`. */
  predicate CapKept(cfg: Config, k: nat)
    requires k >= 1
  {
    KeepsCap(cfg.jitter, cfg.max, Power(1.0 + cfg.jitter, k), Uncapped(cfg, k))
  }

  lemma WithinCap(cfg: Config, draw: nat -> real, k: nat)
    requires Sensible(cfg) && Draws(draw) && k >= 1 && CapKept(cfg, k)
    ensures Wait(cfg, draw, k) <= cfg.max
  {
    WaitBounds(cfg, draw, k);
    PowerAtLeastOne(1.0 + cfg.jitter, k);
    BoundedByMax(cfg, Wait(cfg, draw, k), k);
  }

  lemma BoundedByMax(cfg: Config, w: real, k: nat)
    requires k >= 1 && Bounded(cfg, w, k) && CapKept(cfg, k) && Power(1.0 + cfg.jitter, k) >= 1.0
    ensures w <= cfg.max
  {
    BaseIsCapped(cfg, k);
    WithinMax(cfg.jitter, cfg.max, Power(1.0 - cfg.jitter, k), Power(1.0 + cfg.jitter, k), Base(cfg, k), w,
              Uncapped(cfg, k));
  }

  lemma BaseIsCapped(cfg: Config, k: nat)
    requires k >= 1
    ensures Base(cfg, k) == Smaller(cfg.max, Uncapped(cfg, k))
  {}

  lemma WithinMax(r: real, max: real, q: real, p: real, b: real, w: real, y: real)
    requires Within(r, max, q, p, b, w) && b == Smaller(max, y) && p >= 1.0 && KeepsCap(r, max, p, y)
    ensures w <= max
  {
    MulMono(p, b, y);
  }

  /** The factor by which the draw `u` spreads an interval. */
  predicate Factor(r: real, u: real, f: real) {
    r > 0.0 && f == (1.0 - r) + 2.0 * r * u
  }

  lemma JitterFactor(r: real, x: real, u: real, f: real)
    requires Factor(r, u, f)
    ensures Jittered(r, x, u) == f * x
  {
    var d := r * x;
    assert u * (d + d) == 2.0 * (r * u) * x;
  }

  /** `w` is at least the smaller of `f` times the cap and `p` times `y`. */
  predicate Tops(f: real, max: real, p: real, y: real, w: real) {
    w >= Smaller(f * max, p * y)
  }

  lemma SteadyHigh(f: real, m: real, max: real, w: real, x: real)
    requires f >= 1.0 && m >= 1.0 && max >= 0.0 && w >= f * max && CappedProduct(max, m, w, x)
    ensures x == max
  {
    MulMono(max, 1.0, f);
    assert w >= max;
    MulMono(w, 1.0, m);
    assert w * m >= w;
  }

  lemma SteadyLow(f: real, m: real, max: real, w: real, p: real, y: real, x: real)
    requires f >= 1.0 && m >= 1.0 && w >= p * y && CappedProduct(max, m, w, x)
    ensures Tops(f, max, f * p, y * m, f * x)
  {
    if x < max {
      MulMono(m, p * y, w);
      assert m * (p * y) == p * (y * m);
      MulMono(f, p * (y * m), x);
      Regroup(f, p, y * m);
    }
  }

  lemma SteadyStep(f: real, m: real, max: real, w: real, p: real, y: real, x: real, p': real, y': real, j: real)
    requires f >= 1.0 && m >= 1.0 && max >= 0.0 && Tops(f, max, p, y, w) && CappedProduct(max, m, w, x)
    requires p' == f * p && y' == y * m && j == f * x
    ensures Tops(f, max, p', y', j)
  {
    if f * max <= p * y {
      SteadyHigh(f, m, max, w, x);
    } else {
      SteadyLow(f, m, max, w, p, y, x);
    }
  }

  lemma SteadyFirst(f: real, max: real, y: real, x: real, j: real)
    requires f >= 1.0 && x == (if y > max then max else y) && j == f * x
    ensures Tops(f, max, f, y, j)
  {}

  lemma UncappedStep(cfg: Config, k: nat)
    requires k >= 1
    ensures Uncapped(cfg, k + 1) == Uncapped(cfg, k) * cfg.multiplier
    ensures Uncapped(cfg, 1) == cfg.initial
  {
    PowerShift(cfg.initial, cfg.multiplier, Power(cfg.multiplier, k - 1));
  }

  lemma PowerStep(f: real, k: nat)
    requires k >= 1
    ensures Power(f, k) == f * Power(f, k - 1)
  {}

  lemma CapOfGrowth(cfg: Config, w: real)
    ensures CappedProduct(cfg.max, cfg.multiplier, w, Capped(cfg, Grown(cfg, w)))
  {}

  lemma WaitStep(cfg: Config, draw: nat -> real, u: real, f: real, k: nat) returns (x: real)
    requires Factor(cfg.jitter, u, f) && k >= 2 && draw(k - 1) == u
    ensures CappedProduct(cfg.max, cfg.multiplier, Wait(cfg, draw, k - 1), x)
    ensures Wait(cfg, draw, k) == f * x
  {
    x := Capped(cfg, Grown(cfg, Wait(cfg, draw, k - 1)));
    CapOfGrowth(cfg, Wait(cfg, draw, k - 1));
    assert Wait(cfg, draw, k) == Jittered(cfg.jitter, x, u);
    JitterFactor(cfg.jitter, x, u, f);
  }

  lemma SteadyBase(cfg: Config, draw: nat -> real, u: real, f: real)
    requires draw(0) == u && Factor(cfg.jitter, u, f) && f >= 1.0
    ensures Tops(f, cfg.max, Power(f, 1), Uncapped(cfg, 1), Wait(cfg, draw, 1))
  {
    var x := Capped(cfg, cfg.initial);
    JitterFactor(cfg.jitter, x, u, f);
    PowerOne(f);
    UncappedStep(cfg, 1);
    SteadyFirst(f, cfg.max, cfg.initial, x, Wait(cfg, draw, 1));
  }

  lemma SteadyNext(cfg: Config, draw: nat -> real, u: real, f: real, k: nat)
    requires Sensible(cfg) && k >= 2 && draw(k - 1) == u && Factor(cfg.jitter, u, f) && f >= 1.0
    requires Tops(f, cfg.max, Power(f, k - 1), Uncapped(cfg, k - 1), Wait(cfg, draw, k - 1))
    ensures Tops(f, cfg.max, Power(f, k), Uncapped(cfg, k), Wait(cfg, draw, k))
  {
    var x := WaitStep(cfg, draw, u, f, k);
    UncappedStep(cfg, k - 1);
    PowerStep(f, k);
    SteadyStep(f, cfg.multiplier, cfg.max, Wait(cfg, draw, k - 1), Power(f, k - 1), Uncapped(cfg, k - 1), x,
               Power(f, k), Uncapped(cfg, k), Wait(cfg, draw, k));
  }

  /** With a steady draw of factor `f` the wait gets as far as the compounded factors go, up to `f` times the cap. */
  lemma {:induction false} SteadyWait(cfg: Config, draw: nat -> real, u: real, f: real, k: nat)
    requires Sensible(cfg) && (forall i: nat :: draw(i) == u) && k >= 1 && Factor(cfg.jitter, u, f) && f >= 1.0
    ensures Tops(f, cfg.max, Power(f, k), Uncapped(cfg, k), Wait(cfg, draw, k))
  {
    if k == 1 {
      SteadyBase(cfg, draw, u, f);
    } else {
      SteadyWait(cfg, draw, u, f, k - 1);
      SteadyNext(cfg, draw, u, f, k);
    }
  }

  predicate Shrunk(b: real, e: real, f: real) {
    f == b * (1.0 - e)
  }

  /** Of `p`, all but the part n·e is kept in `y`. */
  predicate Keeps(y: real, p: real, n: real, e: real) {
    y >= p * (1.0 - n * e)
  }

  lemma BernoulliStep(b: real, e: real, y: real, p: real, n: real, f: real, y': real, p': real, n': real)
    requires b >= 0.0 && 0.0 <= e <= 1.0 && p >= 0.0 && n >= 0.0 && Keeps(y, p, n, e)
    requires Shrunk(b, e, f) && y' == f * y && p' == b * p && n' == n + 1.0
    ensures Keeps(y', p', n', e)
  {
    NonNegative(b, 1.0 - e);
    MulMono(f, p * (1.0 - n * e), y);
    var z := (1.0 - e) * (1.0 - n * e);
    assert f * (p * (1.0 - n * e)) == p' * z;
    NonNegative(e, e);
    NonNegative(n, e * e);
    assert z == 1.0 - n' * e + n * (e * e);
    NonNegative(b, p);
    MulMono(p', 1.0 - n' * e, z);
  }

  /** Shrinking a factor by the part `e` shrinks its k-th power by the part k·e at most. */
  lemma {:induction false} Bernoulli(b: real, e: real, f: real, k: nat)
    requires b >= 1.0 && 0.0 <= e <= 1.0 && Shrunk(b, e, f)
    ensures Keeps(Power(f, k), Power(b, k), k as real, e)
  {
    if k == 0 {
    } else {
      Bernoulli(b, e, f, k - 1);
      PowerAtLeastOne(b, k - 1);
      PowerStep(f, k);
      PowerStep(b, k);
      BernoulliStep(b, e, Power(f, k - 1), Power(b, k - 1), (k - 1) as real, f, Power(f, k), Power(b, k), k as real);
    }
  }

  lemma DivisionBound(e: real, n: real, d: real)
    requires d > 0.0 && e <= n / d
    ensures e * d <= n
  {
    MulMono(d, e, n / d);
    assert d * (n / d) == n;
  }

  lemma PositiveQuotient(n: real, d: real)
    requires n > 0.0 && d > 0.0
    ensures n / d > 0.0
  {}

  /** A part `e` so small that neither 1+r nor `top`, k times shrunk, falls to the bound it exceeds. */
  lemma SmallPart(r: real, max: real, top: real, n: real) returns (e: real)
    requires 0.0 < r < 1.0 && 0.0 < max < top && n >= 1.0
    ensures 0.0 < e <= 1.0 && (1.0 + r) * (1.0 - e) > 1.0 && top * (1.0 - n * e) > max
  {
    var d, d' := 2.0 * (n * top), 2.0 * (1.0 + r);
    MulMono(top, 1.0, n);
    assert d > 0.0;
    e := Smaller((top - max) / d, r / d');
    PositiveQuotient(top - max, d);
    PositiveQuotient(r, d');
    DivisionBound(e, top - max, d);
    DivisionBound(e, r, d');
    assert e * d' == 2.0 * (e * (1.0 + r)) && (1.0 + r) * (1.0 - e) == 1.0 + r - e * (1.0 + r);
    assert e * d == 2.0 * (top * (n * e)) && top * (1.0 - n * e) == top - top * (n * e);
    MulMono(e, 1.0, 1.0 + r);
  }

  lemma SteadyDraw(r: real, f: real) returns (u: real)
    requires 0.0 < r < 1.0 && 1.0 < f < 1.0 + r
    ensures 0.0 <= u < 1.0 && Factor(r, u, f)
  {
    var n, d := f - 1.0 + r, 2.0 * r;
    u := n / d;
    assert d * u == n;
    assert u >= 0.0 && u < 1.0 by {
      QuotientBelowOne(n, d);
    }
  }

  lemma QuotientBelowOne(n: real, d: real)
    requires 0.0 <= n < d
    ensures 0.0 <= n / d < 1.0
  {}

  lemma ShrunkFactor(r: real, e: real)
    requires 0.0 < r < 1.0 && 0.0 < e <= 1.0
    ensures (1.0 + r) * (1.0 - e) < 1.0 + r
  {
    assert (1.0 + r) * (1.0 - e) == 1.0 + r - e * (1.0 + r);
    MulMono(e, 1.0, 1.0 + r);
  }

  /** What is left of p·y after shrinking it by the part n·e still exceeds `max`. */
  predicate StillExceeds(p: real, y: real, n: real, e: real, max: real) {
    (p * y) * (1.0 - n * e) > max
  }

  /** A steady draw whose factor passes 1 and, compounded, still exceeds the cap. */
  lemma SteadyChoice(r: real, max: real, p: real, y: real, n: real) returns (e: real, f: real, u: real)
    requires 0.0 <= r < 1.0 && max >= 0.0 && n >= 1.0 && !KeepsCap(r, max, p, y)
    ensures r > 0.0 && max > 0.0 && 0.0 < e <= 1.0 && Shrunk(1.0 + r, e, f) && f > 1.0
    ensures 0.0 <= u < 1.0 && Factor(r, u, f) && StillExceeds(p, y, n, e, max)
  {
    e := SmallPart(r, max, p * y, n);
    f := (1.0 + r) * (1.0 - e);
    ShrunkFactor(r, e);
    u := SteadyDraw(r, f);
  }

  /** Draws that pass the cap, wherever the configuration does not rule it out. */
  lemma PastCap(cfg: Config, k: nat) returns (draw: nat -> real)
    requires Sensible(cfg) && k >= 1 && !CapKept(cfg, k)
    ensures Draws(draw) && Wait(cfg, draw, k) > cfg.max
  {
    var r, p, y := cfg.jitter, Power(1.0 + cfg.jitter, k), Uncapped(cfg, k);
    var e, f, u := SteadyChoice(r, cfg.max, p, y, k as real);
    draw := (_: nat) => u;
    SteadyWait(cfg, draw, u, f, k);
    UncappedNonNegative(cfg, k);
    Bernoulli(1.0 + r, e, f, k);
    StillPast(p, y, k as real, e, Power(f, k), f, cfg.max, Wait(cfg, draw, k));
  }

  lemma UncappedNonNegative(cfg: Config, k: nat)
    requires Sensible(cfg) && k >= 1
    ensures Uncapped(cfg, k) >= 0.0
  {
    PowerAtLeastOne(cfg.multiplier, k - 1);
    NonNegative(cfg.initial, Power(cfg.multiplier, k - 1));
  }

  predicate Beats(x: real, y: real, max: real) {
    x * y > max
  }

  lemma ScaledUp(f: real, max: real)
    requires f > 1.0 && max > 0.0
    ensures Beats(f, max, max)
  {
    assert f * max == max + (f - 1.0) * max;
  }

  lemma ProductExceeds(p: real, y: real, n: real, e: real, p': real, max: real)
    requires y >= 0.0 && Keeps(p', p, n, e) && StillExceeds(p, y, n, e, max)
    ensures Beats(p', y, max)
  {
    var z := 1.0 - n * e;
    MulMono(y, p * z, p');
    assert y * (p * z) == (p * y) * z;
  }

  lemma StillPast(p: real, y: real, n: real, e: real, p': real, f: real, max: real, w: real)
    requires y >= 0.0 && Keeps(p', p, n, e) && StillExceeds(p, y, n, e, max)
    requires f > 1.0 && max > 0.0 && Tops(f, max, p', y, w)
    ensures w > max
  {
    ScaledUp(f, max);
    ProductExceeds(p, y, n, e, p', max);
    BothBeat(f, max, p', y, w);
  }

  lemma BothBeat(f: real, max: real, p: real, y: real, w: real)
    requires Tops(f, max, p, y, w) && Beats(f, max, max) && Beats(p, y, max)
    ensures w > max
  {
    SmallerExceeds(f * max, p * y, max);
  }

  lemma SmallerExceeds(a: real, b: real, max: real)
    requires a > max && b > max
    ensures Smaller(a, b) > max
  {}

  /**
   The documented cap: the wait before retry k stays within MaxInterval for every draw exactly if there
   is no jitter, or the cap is zero, or the backoff with its jitter has not reached the cap by then.
   */
  lemma CapHoldsExactly(cfg: Config, k: nat)
    requires Sensible(cfg) && k >= 1
    ensures (forall draw: nat -> real :: Draws(draw) ==> Wait(cfg, draw, k) <= cfg.max) <==> CapKept(cfg, k)
  {
    if CapKept(cfg, k) {
      forall draw: nat -> real | Draws(draw) ensures Wait(cfg, draw, k) <= cfg.max {
        WithinCap(cfg, draw, k);
      }
    } else {
      var draw := PastCap(cfg, k);
      assert Draws(draw) && !(Wait(cfg, draw, k) <= cfg.max);
    }
  }

  function NineTenths(k: nat): real {
    0.9
  }

  /** One minute at most, says this configuration; the first wait can take 64.8 seconds. */
  lemma CapPassed()
    ensures var cfg := Config(3, 60.0, 60.0, 2.0, 0.1);
            Sensible(cfg) && Draws(NineTenths) && Wait(cfg, NineTenths, 1) == 64.8 && 64.8 > cfg.max
  {
    var cfg := Config(3, 60.0, 60.0, 2.0, 0.1);
    assert Capped(cfg, cfg.initial) == 60.0 && NineTenths(0) == 0.9;
    assert Jittered(0.1, 60.0, 0.9) == (60.0 - 6.0) + 0.9 * 12.0 == 64.8;
  }

  function DefaultConfig(): Config {
    Config(5, 5.0, 1800.0, 2.0, 0.1)
  }

  function ConnectionConfig(): Config {
    Config(3, 5.0, 1800.0, 2.0, 0.2)
  }

  function BackupConfig(): Config {
    Config(2, 10.0, 1800.0, 3.0, 0.1)
  }

  lemma {:induction false} PowerMono(x: real, n: nat, k: nat)
    requires x >= 1.0 && n <= k
    ensures Power(x, n) <= Power(x, k)
    decreases k - n
  {
    if n == k {
    } else {
      PowerMono(x, n + 1, k);
      PowerAtLeastOne(x, n);
      PowerStep(x, n + 1);
      MulMono(Power(x, n), 1.0, x);
    }
  }

  lemma PowerFive(x: real)
    ensures Power(x, 5) == x * (x * (x * (x * x)))
  {
    PowerOne(x);
    PowerStep(x, 2);
    PowerStep(x, 3);
    PowerStep(x, 4);
    PowerStep(x, 5);
  }

  lemma ProductBelow(p: real, q: real, a: real, p': real, q': real, max: real)
    requires 0.0 <= p <= p' && 0.0 <= q <= q' && a >= 0.0 && p' * (a * q') <= max
    ensures p * (a * q) <= max
  {
    MulMono(a, q, q');
    NonNegative(a, q');
    MulMono(p, a * q, a * q');
    MulMono(a * q', p, p');
  }

  /** The shipped configurations are far from their caps in all the retries they allow. */
  lemma ShippedConfigsKeepCap(cfg: Config, k: nat)
    requires cfg in {DefaultConfig(), ConnectionConfig(), BackupConfig()} && 1 <= k <= cfg.maxRetries
    ensures CapKept(cfg, k)
  {
    var x, m := 1.0 + cfg.jitter, cfg.multiplier;
    PowerMono(x, k, 5);
    PowerAtLeastOne(x, k);
    PowerAtLeastOne(m, k - 1);
    PowerFive(x);
    if cfg == BackupConfig() {
      PowerMono(m, k - 1, 1);
      PowerOne(m);
      ProductBelow(Power(x, k), Power(m, k - 1), cfg.initial, 3.0, 3.0, cfg.max);
    } else {
      PowerMono(m, k - 1, 5);
      PowerFive(m);
      ProductBelow(Power(x, k), Power(m, k - 1), cfg.initial, 3.0, 32.0, cfg.max);
    }
  }

  // ----- Requeue after a result ----------------------------------------------------------------------------------

  const NORMAL_REQUEUE := 300.0

  /** On failure the next interval is clamped between InitialInterval and MaxInterval; the former wins. */
  function RequeueAfter(cfg: Config, result: RetryResult): (r: real)
    ensures result.lastError == Nil ==> r == 300.0
    ensures result.lastError != Nil && cfg.initial <= cfg.max ==> cfg.initial <= r <= cfg.max
    ensures result.lastError != Nil && cfg.initial > cfg.max ==> r == cfg.initial
    ensures result.lastError != Nil && result.lastInterval != 0.0 && cfg.initial <= cfg.max ==>
              var next := result.lastInterval * cfg.multiplier;
              r == if next < cfg.initial then cfg.initial else if next > cfg.max then cfg.max else next
    ensures result.lastError != Nil && result.lastInterval == 0.0 ==> r == cfg.initial
  {
    if result.lastError == Nil then NORMAL_REQUEUE else
      var next := if result.lastInterval == 0.0 then cfg.initial else result.lastInterval * cfg.multiplier;
      var capped := if next > cfg.max then cfg.max else next;
      if capped < cfg.initial then cfg.initial else capped
  }
}
