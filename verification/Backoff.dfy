/** The retry back-off of the worker pool, in 64-bit two's complement nanoseconds. */
module Backoff {
  import opened Jobs

  const TWO_63 := 0x8000_0000_0000_0000
  const TWO_64 := 0x1_0000_0000_0000_0000
  const SECOND := 1_000_000_000

  /** The int64 that a mathematical integer wraps to. */
  function Wrap64(x: int): (r: int)
    ensures -TWO_63 <= r < TWO_63
    ensures -TWO_63 <= x < TWO_63 ==> r == x
  {
    (x + TWO_63) % TWO_64 - TWO_63
  }

  function Pow2(n: nat): (r: nat)
    ensures r >= 1
  {
    if n == 0 then 1 else 2 * Pow2(n - 1)
  }

  /** `1 << uint(n-1)` on a 64-bit int: a non-positive n turns into a huge unsigned shift. */
  function Multiplier(n: int): int {
    if 1 <= n <= 64 then Wrap64(Pow2(n - 1)) else 0
  }

  function Min(a: int, b: int): int {
    if a < b then a else b
  }

  /** The uncapped delay: every multiplication wraps. */
  function RawDelay(retryCount: int, config: QueueConfig): int {
    var base := Wrap64(config.retryDelay * SECOND);
    match config.strategy
    case Linear => Wrap64(base * Wrap64(retryCount))
    case Exponential => Wrap64(base * Multiplier(retryCount))
    case _ => base
  }

  function CalculateRetryDelay(retryCount: int, config: QueueConfig): int {
    var delay := RawDelay(retryCount, config);
    var maxDelay := Wrap64(config.maxRetryDelay * SECOND);
    if delay > maxDelay then maxDelay else delay
  }

  /** What the documentation promises: the strategy's growth, capped, in unbounded integers. */
  function PromisedDelay(retryCount: nat, config: QueueConfig): int {
    var base := config.retryDelay * SECOND;
    Min(config.maxRetryDelay * SECOND, base * PromisedFactor(retryCount, config.strategy))
  }

  function PromisedFactor(retryCount: nat, strategy: RetryStrategy): nat {
    match strategy
    case Linear => retryCount
    case Exponential => if retryCount == 0 then 0 else Pow2(retryCount - 1)
    case _ => 1
  }

  /** Both configured delays fit in a time.Duration. */
  predicate FitsDuration(config: QueueConfig) {
    && 0 <= config.retryDelay * SECOND < TWO_63
    && 0 <= config.maxRetryDelay * SECOND < TWO_63
  }

  lemma WrapPeriodic(x: int, k: int)
    ensures Wrap64(x + k * TWO_64) == Wrap64(x)
  {
    assert (x + TWO_63 + k * TWO_64) % TWO_64 == (x + TWO_63) % TWO_64;
  }

  lemma WrapShift(x: int) returns (k: int)
    ensures Wrap64(x) == x + k * TWO_64
  {
    k := -((x + TWO_63) / TWO_64);
  }

  /** Wrapping a factor first changes nothing. */
  lemma WrapFactor(b: int, f: int)
    ensures Wrap64(b * Wrap64(f)) == Wrap64(b * f)
  {
    var k := WrapShift(f);
    assert b * Wrap64(f) == b * f + (b * k) * TWO_64 by {
      assert b * (f + k * TWO_64) == b * f + b * (k * TWO_64);
      assert b * (k * TWO_64) == (b * k) * TWO_64;
    }
    WrapPeriodic(b * f, b * k);
  }

  lemma {:induction false} Pow2Split(m: nat, n: nat)
    ensures Pow2(m + n) == Pow2(m) * Pow2(n)
  {
    if n > 0 {
      Pow2Split(m, n - 1);
    }
  }

  lemma Pow2Is64()
    ensures Pow2(64) == TWO_64
  {
    assert Pow2(8) == 256;
    Pow2Split(8, 8);
    Pow2Split(16, 16);
    Pow2Split(32, 32);
  }

  /** The shift is 2^(n-1) modulo 2^64 at every n, past 64 too. */
  lemma MultiplierWraps(n: int)
    requires n >= 1
    ensures Multiplier(n) == Wrap64(Pow2(n - 1))
  {
    if n > 64 {
      Pow2Is64();
      Pow2Split(n - 65, 64);
      WrapPeriodic(0, Pow2(n - 65));
    }
  }

  /** Nor does wrapping both. */
  lemma WrapProduct(b: int, f: int)
    ensures Wrap64(Wrap64(b) * Wrap64(f)) == Wrap64(b * f)
  {
    WrapFactor(Wrap64(b), f);
    WrapFactor(f, b);
    assert f * Wrap64(b) == Wrap64(b) * f && f * b == b * f;
  }

  /** Whatever the configured delay, the uncapped delay is the unbounded product wrapped once. */
  lemma RawDelayWraps(n: nat, config: QueueConfig)
    requires n >= 1
    ensures RawDelay(n, config) == Wrap64(config.retryDelay * SECOND * PromisedFactor(n, config.strategy))
  {
    var full := config.retryDelay * SECOND;
    if config.strategy == Linear {
      WrapProduct(full, n);
    } else if config.strategy == Exponential {
      MultiplierWraps(n);
      WrapProduct(full, Pow2(n - 1));
    } else {
      assert full * 1 == full;
    }
  }

  predicate Fits64(x: int) {
    -TWO_63 <= x < TWO_63
  }

  /** Capping after wrapping is capping exactly when the smaller of the two fits 64 bits and the other
      does not wrap below it. */
  lemma CappedWrap(product: int, cap: int)
    ensures Min(Wrap64(cap), Wrap64(product)) == Min(cap, product)
       <==> if product <= cap then Fits64(product) && Wrap64(cap) >= product
            else Fits64(cap) && Wrap64(product) >= cap
  {
  }

  lemma DelayIsCapped(n: nat, config: QueueConfig)
    ensures CalculateRetryDelay(n, config) == Min(Wrap64(config.maxRetryDelay * SECOND), RawDelay(n, config))
  {
  }

  /** The code keeps its promise, for any configuration, exactly when the smaller of the promised
      product and the cap fits 64 bits and the other does not wrap below it. */
  lemma DelayIsPromisedIff(n: nat, config: QueueConfig)
    requires n >= 1
    ensures
      var product := config.retryDelay * SECOND * PromisedFactor(n, config.strategy);
      var cap := config.maxRetryDelay * SECOND;
      CalculateRetryDelay(n, config) == PromisedDelay(n, config)
      <==> if product <= cap then Fits64(product) && Wrap64(cap) >= product
           else Fits64(cap) && Wrap64(product) >= cap
  {
    RawDelayWraps(n, config);
    DelayIsCapped(n, config);
    CappedWrap(config.retryDelay * SECOND * PromisedFactor(n, config.strategy), config.maxRetryDelay * SECOND);
  }

  lemma {:induction false} Pow2Grows(a: nat, b: nat)
    requires a <= b
    ensures Pow2(a) <= Pow2(b)
  {
    if a < b {
      Pow2Grows(a, b - 1);
    }
  }

  lemma FactorGrows(n: nat, m: nat, strategy: RetryStrategy)
    requires 1 <= n <= m
    ensures PromisedFactor(n, strategy) <= PromisedFactor(m, strategy)
  {
    if strategy == Exponential {
      Pow2Grows(n - 1, m - 1);
    }
  }

  lemma ProductGrows(base: int, f: nat, g: nat)
    requires base >= 0 && f <= g
    ensures 0 <= base * f <= base * g
  {
  }

  /** Below the overflow point the promise is kept. */
  lemma SmallIsPromised(n: nat, config: QueueConfig, product: int)
    requires FitsDuration(config) && n >= 1
    requires product == config.retryDelay * SECOND * PromisedFactor(n, config.strategy) && 0 <= product < TWO_63
    ensures CalculateRetryDelay(n, config) == Min(config.maxRetryDelay * SECOND, product)
  {
    DelayIsPromisedIff(n, config);
  }

  /** Below the overflow point the delay lies between zero and the cap and never shrinks. */
  lemma DelayGrows(n: nat, m: nat, config: QueueConfig)
    requires FitsDuration(config)
    requires 1 <= n <= m
    requires config.retryDelay * SECOND * PromisedFactor(m, config.strategy) < TWO_63
    ensures 0 <= CalculateRetryDelay(n, config) <= CalculateRetryDelay(m, config)
              <= config.maxRetryDelay * SECOND
  {
    var base := config.retryDelay * SECOND;
    var fn := PromisedFactor(n, config.strategy);
    var fm := PromisedFactor(m, config.strategy);
    FactorGrows(n, m, config.strategy);
    ProductGrows(base, fn, fm);
    SmallIsPromised(n, config, base * fn);
    SmallIsPromised(m, config, base * fm);
  }

  /** The manager's defaults: one minute, doubling, capped at one hour. */
  predicate IsDefault(config: QueueConfig) {
    config.strategy == Exponential && config.retryDelay == 60 && config.maxRetryDelay == 3600
  }

  lemma Pow2Table()
    ensures Pow2(27) == 134_217_728 && Pow2(28) == 268_435_456 && Pow2(53) == 9_007_199_254_740_992
  {
    assert Pow2(13) == 8192 && Pow2(14) == 16384;
    Pow2Split(13, 14);
    Pow2Split(14, 14);
    Pow2Split(27, 13);
    Pow2Split(40, 13);
  }

  /** With the defaults the promise is kept through retry 28; retry 29 gets a negative delay. */
  lemma DefaultHoldsThrough28(n: nat, config: QueueConfig)
    requires IsDefault(config)
    requires 1 <= n
    ensures n <= 28 ==> CalculateRetryDelay(n, config) == PromisedDelay(n, config)
    ensures n == 29 ==> CalculateRetryDelay(n, config) < 0 <= PromisedDelay(n, config)
  {
    Pow2Table();
    if n <= 28 {
      FactorGrows(n, 28, Exponential);
      DelayIsPromisedIff(n, config);
    } else if n == 29 {
      RawDelayWraps(n, config);
      DelayIsPromisedIff(n, config);
    }
  }

  /** 60 s is 29296875 * 2^11 ns, so 53 doublings make it a multiple of 2^64. */
  lemma MinuteVanishes(k: nat)
    ensures 60 * SECOND * Pow2(k + 53) == (29_296_875 * Pow2(k)) * TWO_64
  {
    Pow2Table();
    Pow2Split(k, 53);
    var rest := Pow2(k);
    assert 60 * SECOND * (rest * Pow2(53)) == rest * (60 * SECOND * Pow2(53));
  }

  /** Far beyond the overflow the defaults stop delaying at all: 60 s is a multiple of 2^11 ns. */
  lemma DefaultVanishesFrom54(n: nat, config: QueueConfig)
    requires IsDefault(config)
    requires 54 <= n
    ensures CalculateRetryDelay(n, config) == 0
    ensures CalculateRetryDelay(n, config) != PromisedDelay(n, config)
  {
    RawDelayWraps(n, config);
    MinuteVanishes(n - 54);
    WrapPeriodic(0, 29_296_875 * Pow2(n - 54));
  }

  /** The uncapped default delay of retry 29 + k: it doubles, and wraps. */
  function WrappedMinute(k: nat): int {
    Wrap64(if k == 0 then 60 * SECOND * 268_435_456 else 2 * WrappedMinute(k - 1))
  }

  lemma {:induction false} MinuteWraps(k: nat)
    ensures Wrap64(60 * SECOND * Pow2(k + 28)) == WrappedMinute(k)
  {
    if k == 0 {
      Pow2Table();
    } else {
      MinuteWraps(k - 1);
      WrapFactor(2, 60 * SECOND * Pow2(k + 27));
      assert 60 * SECOND * Pow2(k + 28) == 2 * (60 * SECOND * Pow2(k + 27));
    }
  }

  lemma FirstMinutes(k: nat, i: nat)
    requires WrappedMinute(k) == -2_340_616_713_709_551_616 && i <= 8
    ensures WrappedMinute(k + i) >= 3600 * SECOND <==> i == 2
    ensures WrappedMinute(k + 8) == -8_902_068_350_939_561_984
  {
    assert WrappedMinute(k + 1) == -4_681_233_427_419_103_232;
    assert WrappedMinute(k + 2) == 9_084_277_218_871_345_152;
    assert WrappedMinute(k + 3) == -278_189_635_966_861_312;
    assert WrappedMinute(k + 4) == -556_379_271_933_722_624;
    assert WrappedMinute(k + 5) == -1_112_758_543_867_445_248;
    assert WrappedMinute(k + 6) == -2_225_517_087_734_890_496;
    assert WrappedMinute(k + 7) == -4_451_034_175_469_780_992 && WrappedMinute(k + 8) == -8_902_068_350_939_561_984;
  }

  lemma SecondMinutes(k: nat, i: nat)
    requires WrappedMinute(k) == -8_902_068_350_939_561_984 && i <= 8
    ensures WrappedMinute(k + i) >= 3600 * SECOND <==> i == 1 || i == 2 || i == 3 || i == 4 || i == 6 || i == 7 || i == 8
    ensures WrappedMinute(k + 8) == 8_466_767_299_456_532_480
  {
    assert WrappedMinute(k + 1) == 642_607_371_830_427_648;
    assert WrappedMinute(k + 2) == 1_285_214_743_660_855_296;
    assert WrappedMinute(k + 3) == 2_570_429_487_321_710_592;
    assert WrappedMinute(k + 4) == 5_140_858_974_643_421_184;
    assert WrappedMinute(k + 5) == -8_165_026_124_422_709_248;
    assert WrappedMinute(k + 6) == 2_116_691_824_864_133_120;
    assert WrappedMinute(k + 7) == 4_233_383_649_728_266_240 && WrappedMinute(k + 8) == 8_466_767_299_456_532_480;
  }

  lemma ThirdMinutes(k: nat, i: nat)
    requires WrappedMinute(k) == 8_466_767_299_456_532_480 && i <= 8
    ensures WrappedMinute(k + i) >= 3600 * SECOND <==> i == 0 || i == 4 || i == 6
    ensures WrappedMinute(k + 8) == -9_223_372_036_854_775_808
  {
    assert WrappedMinute(k + 1) == -1_513_209_474_796_486_656;
    assert WrappedMinute(k + 2) == -3_026_418_949_592_973_312;
    assert WrappedMinute(k + 3) == -6_052_837_899_185_946_624;
    assert WrappedMinute(k + 4) == 6_341_068_275_337_658_368;
    assert WrappedMinute(k + 5) == -5_764_607_523_034_234_880;
    assert WrappedMinute(k + 6) == 6_917_529_027_641_081_856;
    assert WrappedMinute(k + 7) == -4_611_686_018_427_387_904 && WrappedMinute(k + 8) == -9_223_372_036_854_775_808;
  }

  lemma WrappedMinutes(k: nat)
    requires k <= 24
    ensures WrappedMinute(k) >= 3600 * SECOND <==>
      k == 2 || 9 <= k <= 12 || 14 <= k <= 16 || k == 20 || k == 22
  {
    var first: nat, second: nat, third: nat :| first == 0 && second == first + 8 && third == second + 8;
    FirstMinutes(first, if k <= 8 then k else 8);
    SecondMinutes(second, if k <= 8 then 0 else if k <= 16 then k - 8 else 8);
    ThirdMinutes(third, if k <= 16 then 0 else k - 16);
  }

  /** With the defaults the promise is kept at exactly these retries. */
  lemma DefaultIsPromisedIff(n: nat, config: QueueConfig)
    requires IsDefault(config) && n >= 1
    ensures CalculateRetryDelay(n, config) == PromisedDelay(n, config) <==>
      n <= 28 || n == 31 || 38 <= n <= 41 || 43 <= n <= 45 || n == 49 || n == 51
  {
    if n <= 28 {
      DefaultHoldsThrough28(n, config);
    } else if n >= 54 {
      DefaultVanishesFrom54(n, config);
    } else {
      Pow2Table();
      Pow2Grows(27, n - 1);
      DelayIsPromisedIff(n, config);
      MinuteWraps(n - 29);
      WrappedMinutes(n - 29);
    }
  }
}
