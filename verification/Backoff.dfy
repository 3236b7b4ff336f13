/** Retry delays (internal/worker/retry.go), with real arithmetic in place of floats. */
module Backoff {
  import opened Arithmetic

  datatype Config = Config(baseMs: int, maxMs: int, maxAttempts: int)

  function Pow2(k: nat): nat {
    if k == 0 then 1 else 2 * Pow2(k - 1)
  }

  /** The delay before the cap. */
  function Uncapped(attempt: nat, cfg: Config): real {
    cfg.baseMs as real * Pow2(attempt) as real
  }

  /** The delay before jitter: doubled per attempt, capped. */
  function Delay(attempt: nat, cfg: Config): real {
    var delay := Uncapped(attempt, cfg);
    if delay > cfg.maxMs as real then cfg.maxMs as real else delay
  }

  /** Up to half a base at random. */
  function JitterOf(cfg: Config, unit: real): real {
    unit * cfg.baseMs as real * 0.5
  }

  /** CalculateBackoff in milliseconds; `unit` is the random number in [0, 1), and the sum is truncated. */
  function CalculateBackoff(attempt: nat, cfg: Config, unit: real): int {
    (Delay(attempt, cfg) + JitterOf(cfg, unit)).Floor
  }

  predicate ShouldRetry(currentAttempts: int, cfg: Config) {
    currentAttempts < cfg.maxAttempts
  }

  ghost predicate Positive(cfg: Config) {
    0 < cfg.baseMs && 0 < cfg.maxMs
  }

  predicate Jitter(unit: real) {
    0.0 <= unit < 1.0
  }

  lemma {:induction false} UncappedGrows(j: nat, k: nat, cfg: Config)
    requires 0 < cfg.baseMs && j <= k
    ensures 0.0 < Uncapped(j, cfg) <= Uncapped(k, cfg)
  {
    Pow2Grows(j, k);
    RealMonotone(cfg.baseMs as real, 1.0, Pow2(j) as real);
    RealMonotone(cfg.baseMs as real, Pow2(j) as real, Pow2(k) as real);
    assert cfg.baseMs as real * 1.0 == cfg.baseMs as real;
  }

  /** Before jitter the delays never shrink from one attempt to a later one, and never exceed the cap. */
  lemma {:induction false} DelaysGrowToCap(j: nat, k: nat, cfg: Config)
    requires Positive(cfg) && j <= k
    ensures Delay(j, cfg) <= Delay(k, cfg) <= cfg.maxMs as real
    ensures 0.0 < Delay(j, cfg)
  {
    UncappedGrows(j, k, cfg);
  }

  lemma {:induction false} Pow2Grows(j: nat, k: nat)
    requires j <= k
    ensures 1 <= Pow2(j) <= Pow2(k)
  {
    if j < k {
      Pow2Grows(j, k - 1);
    } else if 0 < j {
      Pow2Grows(j - 1, k - 1);
    }
  }

  function Lower(x: real, y: real): real {
    if x < y then x else y
  }

  /** The delay before jitter is the base, doubled with every further attempt, up to the cap. */
  lemma {:induction false} DelayDoubles(k: nat, cfg: Config)
    requires Positive(cfg)
    ensures Delay(0, cfg) == Lower(cfg.baseMs as real, cfg.maxMs as real)
    ensures Delay(k + 1, cfg) == Lower(2.0 * Delay(k, cfg), cfg.maxMs as real)
  {
    assert Pow2(k + 1) as real == 2.0 * Pow2(k) as real;
    assert cfg.baseMs as real * (2.0 * Pow2(k) as real) == 2.0 * (cfg.baseMs as real * Pow2(k) as real);
  }

  lemma JitterBound(cfg: Config, unit: real)
    requires 0 < cfg.baseMs && Jitter(unit)
    ensures 0.0 <= JitterOf(cfg, unit) < cfg.baseMs as real / 2.0
    ensures JitterOf(cfg, unit) == unit * cfg.baseMs as real / 2.0
  {
    var base := cfg.baseMs as real;
    RealNonNeg(unit, base);
    assert base - unit * base == (1.0 - unit) * base;
    assert 0.0 < (1.0 - unit) * base;
  }

  lemma Truncation(x: real)
    ensures x - 1.0 < x.Floor as real <= x
    ensures 0.0 <= x ==> 0 <= x.Floor
  {
  }

  /** One delay is the capped exponential and the drawn part of half a base, truncated. */
  lemma {:induction false} ExactBackoff(attempt: nat, cfg: Config, unit: real)
    requires Positive(cfg) && Jitter(unit)
    ensures
      var exact := Delay(attempt, cfg) + unit * cfg.baseMs as real / 2.0;
      exact - 1.0 < CalculateBackoff(attempt, cfg, unit) as real <= exact
  {
    JitterBound(cfg, unit);
    Truncation(Delay(attempt, cfg) + JitterOf(cfg, unit));
  }

  /** So it lies between the capped exponential and half a base more, up to truncation. */
  lemma {:induction false} OneBackoff(attempt: nat, cfg: Config, unit: real)
    requires Positive(cfg) && Jitter(unit)
    ensures Delay(attempt, cfg) - 1.0 < CalculateBackoff(attempt, cfg, unit) as real
    ensures CalculateBackoff(attempt, cfg, unit) as real < Delay(attempt, cfg) + cfg.baseMs as real / 2.0
    ensures 0 <= CalculateBackoff(attempt, cfg, unit)
  {
    DelaysGrowToCap(attempt, attempt, cfg);
    JitterBound(cfg, unit);
    Truncation(Delay(attempt, cfg) + JitterOf(cfg, unit));
  }

  /** The total of the failure retries of one request: retry number k waits CalculateBackoff(k). */
  function TotalBackoff(units: seq<real>, cfg: Config): int {
    if units == [] then 0
    else
      var last := |units| - 1;
      TotalBackoff(units[..last], cfg) + CalculateBackoff(last, cfg, units[last])
  }

  ghost predicate Jitters(units: seq<real>) {
    forall k :: 0 <= k < |units| ==> Jitter(units[k])
  }

  /** base * (2^m - 1) + m * base / 2 */
  function ExponentialBound(m: nat, cfg: Config): real {
    cfg.baseMs as real * (Pow2(m) - 1) as real + m as real * (cfg.baseMs as real / 2.0)
  }

  /** m * (max + base / 2) */
  function CapBound(m: nat, cfg: Config): real {
    m as real * (cfg.maxMs as real + cfg.baseMs as real / 2.0)
  }

  lemma BoundSteps(m: nat, cfg: Config)
    requires 0 < cfg.baseMs
    ensures ExponentialBound(m + 1, cfg)
      == ExponentialBound(m, cfg) + cfg.baseMs as real * Pow2(m) as real + cfg.baseMs as real / 2.0
    ensures CapBound(m + 1, cfg) == CapBound(m, cfg) + cfg.maxMs as real + cfg.baseMs as real / 2.0
  {
    var b, p, h := cfg.baseMs as real, Pow2(m) as real, cfg.baseMs as real / 2.0;
    assert Pow2(m + 1) as real == p + p;
    assert (Pow2(m + 1) - 1) as real == (Pow2(m) - 1) as real + p;
    assert b * ((Pow2(m) - 1) as real + p) == b * (Pow2(m) - 1) as real + b * p;
    assert (m + 1) as real * h == m as real * h + h;
    var c := cfg.maxMs as real + h;
    assert (m + 1) as real * c == m as real * c + c;
  }

  /** total is at most both bounds for m retries, and below them when m is not 0. */
  ghost predicate WithinBounds(total: int, m: nat, cfg: Config) {
    if m == 0 then total == 0
    else total as real < ExponentialBound(m, cfg) && total as real < CapBound(m, cfg)
  }

  lemma {:induction false} OneMoreRetry(total: int, more: int, m: nat, cfg: Config)
    requires 0 < cfg.baseMs && WithinBounds(total, m, cfg)
    requires more as real < Delay(m, cfg) + cfg.baseMs as real / 2.0
    ensures WithinBounds(total + more, m + 1, cfg)
  {
    BoundSteps(m, cfg);
    var b, c := ExponentialBound(m, cfg), CapBound(m, cfg);
    assert m == 0 ==> b == 0.0 && c == 0.0;
    assert (total + more) as real == total as real + more as real;
    assert Delay(m, cfg) <= cfg.baseMs as real * Pow2(m) as real;
  }

  /**
   The total backoff of m failure retries is below both base * (2^m - 1) + m * base / 2 and
   m * (max + base / 2), whatever the jitter was.
   */
  lemma {:induction false} TotalIsBounded(units: seq<real>, cfg: Config)
    requires Positive(cfg) && Jitters(units)
    ensures WithinBounds(TotalBackoff(units, cfg), |units|, cfg)
  {
    if units != [] {
      var last := |units| - 1;
      TotalIsBounded(units[..last], cfg);
      OneBackoff(last, cfg, units[last]);
      OneMoreRetry(TotalBackoff(units[..last], cfg), CalculateBackoff(last, cfg, units[last]), last, cfg);
    }
  }
}
