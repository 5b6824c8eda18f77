/**
  The reconnection delay of the SDK (calculateDelay in pkg/sdk/client.go), over exact reals:
  exponential growth, a cap, and jitter applied after the cap.
*/
module Reconnect {
  /** Durations in whole nanoseconds. */
  datatype Config = Config(minDelay: nat, maxDelay: nat, multiplier: real, jitterFactor: real)

  function Power(x: real, n: nat): real {
    if n == 0 then 1.0 else x * Power(x, n - 1)
  }

  function Capped(delay: real, max: real): real {
    if delay > max then max else delay
  }

  /** The delay before jitter. */
  function Base(cfg: Config, attempt: nat): real {
    Capped(cfg.minDelay as real * Power(cfg.multiplier, attempt), cfg.maxDelay as real)
  }

  /** `random` is the draw of rand.Float64, in [0, 1). */
  predicate IsDraw(random: real) {
    0.0 <= random < 1.0
  }

  /** The conversion to a Duration drops the fraction. */
  function Truncate(x: real): int {
    if x >= 0.0 then x.Floor else -((-x).Floor)
  }

  function Jittered(delay: real, factor: real, random: real): real {
    delay * (1.0 + (random * 2.0 - 1.0) * factor)
  }

  function Delay(cfg: Config, attempt: nat, random: real): int {
    Truncate(Jittered(Base(cfg, attempt), cfg.jitterFactor, random))
  }

  /** The ranges the configuration documents. */
  predicate IsConfigured(cfg: Config) {
    cfg.multiplier >= 1.0 && 0.0 <= cfg.jitterFactor <= 1.0
  }

  lemma {:induction false} PowerGrows(x: real, n: nat)
    requires x >= 1.0
    ensures Power(x, n + 1) >= Power(x, n) >= 1.0
  {
    if n > 0 {
      PowerGrows(x, n - 1);
      assert Power(x, n + 1) == x * Power(x, n);
    }
  }

  lemma TimesGrows(a: real, b: real, c: real)
    requires a >= 0.0 && b <= c
    ensures a * b <= a * c
  {
    assert a * (c - b) >= 0.0;
    assert a * (c - b) == a * c - a * b;
  }

  /** Without jitter delays never shrink from one attempt to the next, and stay below the cap. */
  lemma BaseGrows(cfg: Config, n: nat)
    requires IsConfigured(cfg)
    ensures 0.0 <= Base(cfg, n) <= Base(cfg, n + 1) <= cfg.maxDelay as real
  {
    var d, p, q := cfg.minDelay as real, Power(cfg.multiplier, n), Power(cfg.multiplier, n + 1);
    PowerGrows(cfg.multiplier, n);
    TimesGrows(d, 0.0, p);
    TimesGrows(d, p, q);
    CappedGrows(d * p, d * q, cfg.maxDelay as real);
  }

  /** The first delay is the configured minimum, each later one the multiple of the one before, up to the cap. */
  lemma BaseIsGeometric(cfg: Config, n: nat)
    requires IsConfigured(cfg)
    ensures cfg.minDelay <= cfg.maxDelay ==> Base(cfg, 0) == cfg.minDelay as real
    ensures cfg.minDelay > cfg.maxDelay ==> Base(cfg, 0) == cfg.maxDelay as real
    ensures Base(cfg, n + 1) == Capped(cfg.multiplier * Base(cfg, n), cfg.maxDelay as real)
  {
    var x, d, p := cfg.multiplier, cfg.minDelay as real, Power(cfg.multiplier, n);
    var max := cfg.maxDelay as real;
    assert Power(x, n + 1) == x * p;
    assert d * (x * p) == x * (d * p);
    assert max <= x * max by {
      TimesGrows(max, 1.0, x);
      assert max * 1.0 == max && max * x == x * max;
    }
    if d * p > max {
      TimesGrows(x, max, d * p);
    }
  }

  /** Every delay lies within the jitter's share of the base, which draw 0 reaches, evenly spread around it. */
  lemma JitterSpreadsEvenly(cfg: Config, attempt: nat, random: real)
    requires IsConfigured(cfg) && IsDraw(random)
    ensures var b, j := Base(cfg, attempt), cfg.jitterFactor;
            && b * (1.0 - j) <= Jittered(b, j, random) <= b * (1.0 + j)
            && Jittered(b, j, 0.0) == b * (1.0 - j)
            && Jittered(b, j, 0.5) == b
            && (0.0 < random ==> Jittered(b, j, random) + Jittered(b, j, 1.0 - random) == 2.0 * b)
    ensures 0 <= Delay(cfg, attempt, random)
    ensures Delay(cfg, attempt, random) as real <= Base(cfg, attempt) * (1.0 + cfg.jitterFactor)
    ensures Base(cfg, attempt) * (1.0 - cfg.jitterFactor) < (Delay(cfg, attempt, random) + 1) as real
  {
    var b, j := Base(cfg, attempt), cfg.jitterFactor;
    var r := random * 2.0 - 1.0;
    BaseGrows(cfg, attempt);
    JitterRange(r, j);
    TimesGrows(b, 1.0 - j, 1.0 + r * j);
    TimesGrows(b, 1.0 + r * j, 1.0 + j);
    TimesGrows(b, 0.0, 1.0 - j);
    assert b * 0.0 == 0.0;
    assert ((1.0 - random) * 2.0 - 1.0) * j == -(r * j);
    assert b * (1.0 + r * j) + b * (1.0 - r * j) == 2.0 * b;
  }

  lemma CappedGrows(x: real, y: real, max: real)
    requires 0.0 <= x <= y && 0.0 <= max
    ensures 0.0 <= Capped(x, max) <= Capped(y, max) <= max
  {
  }

  /** No draw takes the delay above the documented maximum. */
  ghost predicate RespectsMaximum(cfg: Config, attempt: nat) {
    forall random | IsDraw(random) :: Delay(cfg, attempt, random) <= cfg.maxDelay
  }

  predicate JitterFits(cfg: Config, attempt: nat) {
    Base(cfg, attempt) * (1.0 + cfg.jitterFactor) <= (cfg.maxDelay + 1) as real
  }

  lemma FloorAtMost(x: real, n: nat)
    requires x >= 0.0
    ensures Truncate(x) <= n <==> x < (n + 1) as real
  {
  }

  lemma JitterRange(r: real, factor: real)
    requires -1.0 <= r < 1.0 && factor >= 0.0
    ensures -factor <= r * factor <= factor && (factor > 0.0 ==> r * factor < factor)
  {
    assert (1.0 + r) * factor >= 0.0 && (1.0 - r) * factor >= 0.0;
    assert (1.0 + r) * factor == factor + r * factor && (1.0 - r) * factor == factor - r * factor;
    if factor > 0.0 {
      assert (1.0 - r) * factor > 0.0;
    }
  }

  lemma TimesGrowsStrictly(a: real, b: real, c: real)
    requires a > 0.0 && b < c
    ensures a * b < a * c
  {
    assert a * (c - b) > 0.0;
    assert a * (c - b) == a * c - a * b;
  }

  lemma FittingJitter(base: real, jitter: real, factor: real, bound: real)
    requires base >= 0.0 && -factor <= jitter <= factor <= 1.0 && (factor > 0.0 ==> jitter < factor)
    requires base * (1.0 + factor) <= bound && base < bound
    ensures 0.0 <= base * (1.0 + jitter) < bound
  {
    var j, f := 1.0 + jitter, 1.0 + factor;
    TimesGrows(base, 0.0, j);
    assert base * 0.0 == 0.0;
    if base == 0.0 {
      assert base * j == 0.0;
    } else if factor > 0.0 {
      TimesGrowsStrictly(base, j, f);
    } else {
      assert j == 1.0;
    }
  }

  /** A draw just below 1 exceeds the bound when the full jitter does. */
  lemma ExceedingJitter(base: real, jitter: real, bound: real) returns (random: real)
    requires base >= 0.0 && 0.0 <= jitter <= 1.0
    requires base * (1.0 + jitter) > bound && base <= bound
    ensures IsDraw(random) && Jittered(base, jitter, random) >= bound
  {
    assert base * jitter > 0.0;
    var p := base * jitter;
    var r := (bound - base) / p;
    assert 0.0 <= r < 1.0;
    random := (r + 1.0) / 2.0;
    assert random * 2.0 - 1.0 == r;
    assert base * (r * jitter) == r * p == bound - base;
    assert base * (1.0 + r * jitter) == base + base * (r * jitter);
  }

  lemma DelayFits(base: real, factor: real, random: real, max: nat)
    requires IsDraw(random) && 0.0 <= base <= max as real && 0.0 <= factor <= 1.0
    requires base * (1.0 + factor) <= (max + 1) as real
    ensures Truncate(Jittered(base, factor, random)) <= max
  {
    var r := random * 2.0 - 1.0;
    JitterRange(r, factor);
    FittingJitter(base, r * factor, factor, (max + 1) as real);
    FloorAtMost(base * (1.0 + r * factor), max);
  }

  lemma DelayExceeds(base: real, factor: real, max: nat) returns (random: real)
    requires 0.0 <= base <= max as real && 0.0 <= factor <= 1.0
    requires base * (1.0 + factor) > (max + 1) as real
    ensures IsDraw(random) && Truncate(Jittered(base, factor, random)) > max
  {
    random := ExceedingJitter(base, factor, (max + 1) as real);
    FloorAtMost(Jittered(base, factor, random), max);
  }

  /** The documented maximum holds for every draw iff the jittered base stays within it. */
  lemma MaximumHoldsIffJitterFits(cfg: Config, attempt: nat)
    requires IsConfigured(cfg)
    ensures RespectsMaximum(cfg, attempt) <==> JitterFits(cfg, attempt)
  {
    BaseGrows(cfg, attempt);
    if JitterFits(cfg, attempt) {
      forall random | IsDraw(random)
        ensures Delay(cfg, attempt, random) <= cfg.maxDelay
      {
        DelayFits(Base(cfg, attempt), cfg.jitterFactor, random, cfg.maxDelay);
      }
    } else {
      var random := DelayExceeds(Base(cfg, attempt), cfg.jitterFactor, cfg.maxDelay);
      assert Delay(cfg, attempt, random) > cfg.maxDelay;
    }
  }

  const DEFAULT := Config(1000_000_000, 30_000_000_000, 2.0, 0.3)

  lemma {:induction false} DefaultReachesCap(attempt: nat)
    requires attempt >= 5
    ensures Base(DEFAULT, attempt) == DEFAULT.maxDelay as real
  {
    if attempt == 5 {
      assert Power(2.0, 2) == 4.0;
      assert Power(2.0, 4) == 16.0;
      assert Power(2.0, 5) == 32.0;
    } else {
      DefaultReachesCap(attempt - 1);
      BaseGrows(DEFAULT, attempt - 1);
    }
  }

  /** With the default settings the sixth and every later delay can exceed the documented 30 seconds. */
  lemma DefaultExceedsMaximum(attempt: nat)
    requires attempt >= 5
    ensures !RespectsMaximum(DEFAULT, attempt)
  {
    DefaultReachesCap(attempt);
    MaximumHoldsIffJitterFits(DEFAULT, attempt);
  }
}
