/** The producer's configuration and its pacing engine: `LoadGenerator`
    chooses the delay before the next request from the configured traffic
    shape (llm-prompt-producer/main.py). Python floats are modelled as exact
    reals; the divisions Python would reject with ZeroDivisionError become
    `Err` results. */
module LoadGeneration {

  datatype LoadPattern = Constant | Poisson | Burst | RampUp

  /** The fields of `ProducerConfig` the producer's logic reads. Kafka
      addresses, topic, dataset path and metrics port are left out. */
  datatype ProducerConfig = ProducerConfig(
    loadPattern: LoadPattern,
    baseRps: real,
    durationSeconds: int,
    burstSize: int,
    burstInterval: int,
    rampUpEndRps: real,
    minPromptLength: int,
    maxPromptLength: int,
    shortPromptsRatio: real,
    mediumPromptsRatio: real,
    longPromptsRatio: real)

  /** The defaults of `ProducerConfig` (Poisson, 10 rps, 300 s, bursts of
      100 every 60 s, ramp to 50 rps, 10..500 tokens, 0.4/0.4/0.2). */
  const DefaultConfig := ProducerConfig(Poisson, 10.0, 300, 100, 60, 50.0, 10, 500, 0.4, 0.4, 0.2)

  /** Why Python would raise instead of returning a delay. */
  datatype DelayError =
    | ZeroDivision    // 1.0 / 0, x % 0, elapsed / 0
    | NegativeScale   // numpy rejects an exponential scale below zero

  datatype Result<T> = Ok(value: T) | Err(error: DelayError)

  /** The short delay between two requests inside a burst. */
  const BurstGap: real := 0.1

  /** The request rate of the ramp at `progress` (0 at the start, 1 at the end). */
  function RampRate(config: ProducerConfig, progress: real): real
  {
    config.baseRps + (config.rampUpEndRps - config.baseRps) * progress
  }

  /** Ramp progress: elapsed time over the duration, capped at 1 (and not
      clamped below: a negative elapsed time gives a negative progress). */
  function RampProgress(elapsed: real, duration: int): (p: real)
    requires duration != 0
    ensures p <= 1.0
    ensures duration > 0 && elapsed >= 0.0 ==> 0.0 <= p
    ensures duration > 0 && elapsed >= duration as real ==> p == 1.0
    ensures elapsed / duration as real < 1.0 ==> p * duration as real == elapsed
    ensures elapsed / duration as real >= 1.0 ==> p == 1.0
  {
    var q := elapsed / duration as real;
    if q < 1.0 then q else 1.0
  }

  /** `get_next_delay`: the delay before the next request, given the request
      count, the time elapsed since the start and, for the Poisson shape, a
      draw `unitExp` of the unit exponential distribution (numpy's
      `exponential(scale)` is `scale` times such a draw). */
  function NextDelay(config: ProducerConfig, requestCount: int, elapsed: real, unitExp: real): (r: Result<real>)
    ensures config.loadPattern == Constant ==> (r.Ok? <==> config.baseRps != 0.0)
    ensures config.loadPattern == Poisson ==> (r.Ok? <==> config.baseRps > 0.0)
    ensures config.loadPattern == Burst ==> (r.Ok? <==> config.burstSize != 0)
    ensures config.loadPattern == RampUp ==>
      (r.Ok? <==> config.durationSeconds != 0 && RampRate(config, RampProgress(elapsed, config.durationSeconds)) != 0.0)
  {
    match config.loadPattern
    case Constant =>
      if config.baseRps == 0.0 then Err(ZeroDivision) else Ok(1.0 / config.baseRps)
    case Poisson =>
      if config.baseRps == 0.0 then Err(ZeroDivision)
      else if config.baseRps < 0.0 then Err(NegativeScale)
      else Ok((1.0 / config.baseRps) * unitExp)
    case Burst =>
      // Python's `%` floors and Dafny's is Euclidean; they differ for a
      // negative burst size, but both are 0 exactly when it divides the count.
      if config.burstSize == 0 then Err(ZeroDivision)
      else if requestCount % config.burstSize == 0 then Ok(config.burstInterval as real)
      else Ok(BurstGap)
    case RampUp =>
      if config.durationSeconds == 0 then Err(ZeroDivision)
      else
        var rate := RampRate(config, RampProgress(elapsed, config.durationSeconds));
        if rate == 0.0 then Err(ZeroDivision) else Ok(1.0 / rate)
  }

  /** The delay a successful `get_next_delay` returns: the reciprocal of
      the base rate (constant), a draw scaled by the mean `1 / base_rps`
      (Poisson), `burst_interval` at the end of each burst and 0.1 s inside
      one (burst), and the reciprocal of the current ramp rate (ramp-up). */
  lemma NextDelayValue(config: ProducerConfig, requestCount: int, elapsed: real, unitExp: real)
    requires NextDelay(config, requestCount, elapsed, unitExp).Ok?
    ensures var d := NextDelay(config, requestCount, elapsed, unitExp).value;
      && (config.loadPattern == Constant ==> d * config.baseRps == 1.0)
      && (config.loadPattern == Poisson ==> d * config.baseRps == unitExp)
      && (config.loadPattern == Burst ==>
            d == if requestCount % config.burstSize == 0 then config.burstInterval as real else BurstGap)
      && (config.loadPattern == RampUp ==> d * RampRate(config, RampProgress(elapsed, config.durationSeconds)) == 1.0)
  {
  }

  /** A configuration whose rates, duration, burst size and interval are all positive. */
  predicate PositiveRates(config: ProducerConfig)
  {
    config.baseRps > 0.0 && config.rampUpEndRps > 0.0 && config.durationSeconds > 0 &&
    config.burstSize > 0 && config.burstInterval > 0
  }

  /** Between its endpoints the ramp rate stays between the two rates, so it
      is positive when both are. */
  lemma RampRateBetween(config: ProducerConfig, p: real)
    requires 0.0 <= p <= 1.0
    ensures config.baseRps <= config.rampUpEndRps ==> config.baseRps <= RampRate(config, p) <= config.rampUpEndRps
    ensures config.rampUpEndRps <= config.baseRps ==> config.rampUpEndRps <= RampRate(config, p) <= config.baseRps
  {
    if config.baseRps <= config.rampUpEndRps {
      RampRateRising(config, p);
    }
    if config.rampUpEndRps <= config.baseRps {
      RampRateFalling(config, p);
    }
  }

  /** A rising ramp climbs from the base rate to the end rate. */
  lemma RampRateRising(config: ProducerConfig, p: real)
    requires 0.0 <= p <= 1.0 && config.baseRps <= config.rampUpEndRps
    ensures config.baseRps <= RampRate(config, p) <= config.rampUpEndRps
  {
    var d := config.rampUpEndRps - config.baseRps;
    ScaleBetween(d, p);
    assert RampRate(config, p) == config.baseRps + d * p;
  }

  /** A falling ramp descends from the base rate to the end rate. */
  lemma RampRateFalling(config: ProducerConfig, p: real)
    requires 0.0 <= p <= 1.0 && config.rampUpEndRps <= config.baseRps
    ensures config.rampUpEndRps <= RampRate(config, p) <= config.baseRps
  {
    var d := config.baseRps - config.rampUpEndRps;
    ScaleBetween(d, p);
    assert RampRate(config, p) == config.baseRps - d * p;
  }

  /** Scaling a non-negative value by a factor in [0, 1] keeps it between 0
      and itself. */
  lemma ScaleBetween(d: real, p: real)
    requires d >= 0.0 && 0.0 <= p <= 1.0
    ensures 0.0 <= d * p <= d
  {
    var q := 1.0 - p;
    assert d * q == d - d * p;
    ProductNonNegative(d, p);
    ProductNonNegative(d, q);
  }

  /** The product of two non-negative reals is non-negative. */
  lemma ProductNonNegative(a: real, b: real)
    requires a >= 0.0 && b >= 0.0
    ensures a * b >= 0.0
  {
  }

  /** Every shape gives a strictly positive delay for a positive configuration,
      a non-negative elapsed time and a positive exponential draw. */
  lemma {:induction false} DelayPositive(config: ProducerConfig, requestCount: int, elapsed: real, unitExp: real)
    requires PositiveRates(config)
    requires elapsed >= 0.0 && unitExp > 0.0
    ensures NextDelay(config, requestCount, elapsed, unitExp).Ok?
    ensures NextDelay(config, requestCount, elapsed, unitExp).value > 0.0
  {
    if config.loadPattern == RampUp {
      var p := RampProgress(elapsed, config.durationSeconds);
      RampRateBetween(config, p);
      assert RampRate(config, p) > 0.0;
    }
  }

  /** Ramp-up endpoints: at the start the delay is `1/base_rps`; from the end
      of the duration on it is `1/ramp_up_end_rps`. */
  lemma RampEndpoints(config: ProducerConfig, elapsed: real)
    requires config.loadPattern == RampUp
    requires config.durationSeconds > 0 && config.baseRps > 0.0 && config.rampUpEndRps > 0.0
    ensures NextDelay(config, 0, 0.0, 0.0) == Ok(1.0 / config.baseRps)
    ensures elapsed >= config.durationSeconds as real ==>
      NextDelay(config, 0, elapsed, 0.0) == Ok(1.0 / config.rampUpEndRps)
  {
    assert RampProgress(0.0, config.durationSeconds) == 0.0;
    if elapsed >= config.durationSeconds as real {
      assert RampProgress(elapsed, config.durationSeconds) == 1.0;
    }
  }

  /** During the ramp, the delay is the reciprocal of the rate interpolated
      linearly over the duration: with `D` the duration,
      `delay * (base_rps + (ramp_up_end_rps - base_rps) * elapsed / D) == 1`,
      written here multiplied through by `D`. */
  lemma RampDelayDuring(config: ProducerConfig, requestCount: int, elapsed: real, unitExp: real)
    requires config.loadPattern == RampUp
    requires config.durationSeconds > 0 && config.baseRps > 0.0 && config.rampUpEndRps > 0.0
    requires 0.0 <= elapsed < config.durationSeconds as real
    ensures NextDelay(config, requestCount, elapsed, unitExp).Ok?
    ensures var d := NextDelay(config, requestCount, elapsed, unitExp).value;
      var dur := config.durationSeconds as real;
      d * (config.baseRps * dur + (config.rampUpEndRps - config.baseRps) * elapsed) == dur
  {
    var dur := config.durationSeconds as real;
    var p := RampProgress(elapsed, config.durationSeconds);
    assert elapsed / dur < 1.0;
    assert p * dur == elapsed && 0.0 <= p <= 1.0;
    RampRateBetween(config, p);
    var rate := RampRate(config, p);
    assert rate > 0.0;
    var d := NextDelay(config, requestCount, elapsed, unitExp).value;
    assert d * rate == 1.0;
    calc {
      d * (config.baseRps * dur + (config.rampUpEndRps - config.baseRps) * elapsed);
      { assert (config.rampUpEndRps - config.baseRps) * elapsed == (config.rampUpEndRps - config.baseRps) * p * dur; }
      d * (rate * dur);
      (d * rate) * dur;
      dur;
    }
  }

  /** The ramp is linear in the rate, not in the delay: equal steps of
      progress change the rate by equal amounts, proportional to the
      difference of the two configured rates. */
  lemma RampRateLinear(config: ProducerConfig, p: real, q: real)
    ensures RampRate(config, q) - RampRate(config, p) == (config.rampUpEndRps - config.baseRps) * (q - p)
    ensures RampRate(config, 0.0) == config.baseRps && RampRate(config, 1.0) == config.rampUpEndRps
  {
  }

  /** The pacing state: start time and request count. `run` sets the start
      time and increments the count; `get_next_delay` only reads them. */
  class LoadGenerator {
    const config: ProducerConfig
    var startTime: real
    var requestCount: int

    constructor (config: ProducerConfig, now: real)
      ensures this.config == config && startTime == now && requestCount == 0
    {
      this.config := config;
      startTime := now;
      requestCount := 0;
    }

    /** `get_next_delay`, with the clock reading `now` passed in: the pacing
        of `NextDelay` for the generator's count and the time since its
        start. */
    function GetNextDelay(now: real, unitExp: real): Result<real>
      reads this
    {
      NextDelay(config, requestCount, now - startTime, unitExp)
    }
  }

  // ---------------------------------------------------------------------
  // Burst timing as seen by the producer loop, which increments the count
  // before it asks for the delay: the counts it passes are 1, 2, 3, ...

  /** The delay returned for request count `c` under the burst shape. */
  function BurstDelayAt(config: ProducerConfig, c: int): real
    requires config.burstSize != 0
  {
    if c % config.burstSize == 0 then config.burstInterval as real else BurstGap
  }

  /** Number of counts `c` with `lo <= c < lo + n` that `b` divides. */
  function MultiplesIn(b: int, lo: int, n: nat): (m: nat)
    requires b > 0
    ensures m <= n
  {
    if n == 0 then 0 else MultiplesIn(b, lo, n - 1) + (if (lo + n - 1) % b == 0 then 1 else 0)
  }

  /** Number of entries of `s` equal to `x`. */
  function Occurrences(s: seq<real>, x: real): (m: nat)
    ensures m <= |s|
  {
    if s == [] then 0 else Occurrences(s[..|s| - 1], x) + (if s[|s| - 1] == x then 1 else 0)
  }

  lemma OccurrencesAppend(s: seq<real>, t: seq<real>, x: real)
    ensures Occurrences(s + t, x) == Occurrences(s, x) + Occurrences(t, x)
    decreases |t|
  {
    if t == [] {
      assert s + t == s;
    } else {
      assert (s + t)[..|s + t| - 1] == s + t[..|t| - 1];
      assert (s + t)[|s + t| - 1] == t[|t| - 1];
      OccurrencesAppend(s, t[..|t| - 1], x);
    }
  }

  /** `(m*b + j) % b == j` for `0 <= j < b`. */
  lemma ModOfOffset(m: int, b: int, j: int)
    requires b > 0 && 0 <= j < b
    ensures (m * b + j) % b == j
  {
    var x := m * b + j;
    var q, r := x / b, x % b;
    assert x == q * b + r;
    var k := m - q;
    assert k * b == r - j;
    assert k == 0 by {
      if k > 0 { MulAtLeast(k, b); }
      else if k < 0 { MulAtLeast(-k, b); }
    }
  }

  lemma MulAtLeast(k: int, b: int)
    requires k >= 1 && b > 0
    ensures k * b >= b
  {
    assert k * b == b + (k - 1) * b;
  }

  /** One block of `b` consecutive counts, `m*b+1 .. m*b+b`, holds exactly one multiple of `b`. */
  lemma {:induction false} OneMultiplePerBlock(b: int, m: int, n: nat)
    requires b > 0 && n <= b
    ensures MultiplesIn(b, m * b + 1, n) == if n == b then 1 else 0
  {
    if n > 0 {
      OneMultiplePerBlock(b, m, n - 1);
      if n < b {
        ModOfOffset(m, b, n);
      } else {
        assert m * b + 1 + n - 1 == (m + 1) * b + 0;
        ModOfOffset(m + 1, b, 0);
      }
    }
  }

  /** Splitting a range of counts in two. */
  lemma {:induction false} MultiplesInSplit(b: int, lo: int, n: nat, k: nat)
    requires b > 0
    ensures MultiplesIn(b, lo, n + k) == MultiplesIn(b, lo, n) + MultiplesIn(b, lo + n, k)
    decreases k
  {
    if k > 0 {
      MultiplesInSplit(b, lo, n, k - 1);
    }
  }

  /** Counts `1 .. N*b` hold exactly `N` multiples of `b`. */
  lemma {:induction false} MultiplesInBlocks(b: int, blocks: nat)
    requires b > 0
    ensures MultiplesIn(b, 1, blocks * b) == blocks
  {
    if blocks > 0 {
      var prev: nat := (blocks - 1) * b;
      assert prev + b == blocks * b;
      MultiplesInBlocks(b, blocks - 1);
      MultiplesInSplit(b, 1, prev, b);
      OneMultiplePerBlock(b, blocks - 1, b);
      assert 1 + prev == (blocks - 1) * b + 1;
    }
  }

  /** The delays for counts `lo .. lo+n-1` hold one burst interval per multiple of `b`. */
  lemma {:induction false} BurstIntervalsAreMultiples(config: ProducerConfig, lo: int, delays: seq<real>)
    requires config.burstSize > 0
    requires forall k :: 0 <= k < |delays| ==> delays[k] == BurstDelayAt(config, lo + k)
    ensures Occurrences(delays, config.burstInterval as real) == MultiplesIn(config.burstSize, lo, |delays|)
  {
    if delays != [] {
      var n := |delays| - 1;
      BurstIntervalsAreMultiples(config, lo, delays[..n]);
      // burst_interval is an int and 0.1 is not, so the two delays differ
      assert config.burstInterval as real != BurstGap by {
        if config.burstInterval <= 0 { } else { assert config.burstInterval as real >= 1.0; }
      }
    }
  }

  /** Over `N * burst_size` iterations of the producer loop starting from a
      zero count, exactly `N` delays equal `burst_interval` and the rest are
      the 0.1 s gap. */
  lemma BurstSchedule(config: ProducerConfig, blocks: nat, delays: seq<real>)
    requires config.burstSize > 0
    requires |delays| == blocks * config.burstSize
    requires forall k :: 0 <= k < |delays| ==> delays[k] == BurstDelayAt(config, 1 + k)
    ensures Occurrences(delays, config.burstInterval as real) == blocks
    ensures forall k :: 0 <= k < |delays| && delays[k] != config.burstInterval as real ==> delays[k] == BurstGap
  {
    BurstIntervalsAreMultiples(config, 1, delays);
    MultiplesInBlocks(config.burstSize, blocks);
  }

  /** The first delay the loop sees (count 1) is the burst interval only when
      the burst size is 1; otherwise it is the 0.1 s gap. */
  lemma FirstBurstDelay(config: ProducerConfig)
    requires config.burstSize > 0
    ensures BurstDelayAt(config, 1) == if config.burstSize == 1 then config.burstInterval as real else BurstGap
  {
    if config.burstSize > 1 {
      ModOfOffset(0, config.burstSize, 1);
    }
  }
}
