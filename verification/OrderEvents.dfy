/** Order events, the decision whether and when to retry them, and the retry back-off bound
(order_event.go, order_event_delay.go). Durations are 64-bit nanosecond counts. */
module OrderEvents {
  import opened Common

  const INT64_LIMIT := 0x8000_0000_0000_0000
  const MAX_BACK_OFF_N := 62
  const INITIAL_DELAY := 100_000_000
  const MAX_JITTER := 100_000_000
  const MIN_RETRIES_UNTIL_BACK_OFF := 2

  datatype Event = Event(user: UserId, order: OrderId, retries: nat)

  /** The error an event's processing ended with, as far as the retry decision looks at it. */
  datatype Failure = NoFailure | EventDiscarded | OrderNotFound | Other

  datatype DelayConfig = DelayConfig(
    initialDelay: int, maxJitter: int, maxDelay: int, maxBackOffN: nat, minRetriesUntilBackOff: nat)

  datatype DelayOption =
    | WithInitialDelay(delay: int)
    | WithMaxJitter(jitter: int)
    | WithMaxDelay(delay: int)
    | WithMinRetriesUntilBackOff(retries: nat)

  // ---- 64-bit shifts ----

  function Pow2(n: nat): (p: nat)
    ensures p > 0
  {
    if n == 0 then 1 else 2 * Pow2(n - 1)
  }

  function FloorLog2(d: nat): nat
    requires d >= 1
  {
    if d == 1 then 0 else 1 + FloorLog2(d / 2)
  }

  /** d doubled n times. */
  function Doubled(d: int, n: nat): (r: int)
    ensures d >= 0 ==> r >= 0
  {
    if n == 0 then d else 2 * Doubled(d, n - 1)
  }

  /** Go's `d << n` on an int64. */
  function ShiftLeft64(d: int, n: nat): int {
    var bits := Doubled(d, n) % UINT64_SIZE;
    if bits < INT64_LIMIT then bits else bits - UINT64_SIZE
  }

  lemma {:induction false} DoubledIsProduct(d: int, n: nat)
    ensures Doubled(d, n) == d * Pow2(n)
  {
    if n > 0 {
      DoubledIsProduct(d, n - 1);
      assert d * Pow2(n) == 2 * (d * Pow2(n - 1));
    }
  }

  lemma {:induction false} DoubledPower(l: nat, n: nat)
    ensures Doubled(Pow2(l), n) == Pow2(l + n)
  {
    if n > 0 {
      DoubledPower(l, n - 1);
    }
  }

  lemma {:induction false} DoubledGrowsInBase(a: nat, b: nat, n: nat)
    requires a < b
    ensures Doubled(a, n) < Doubled(b, n)
  {
    if n > 0 {
      DoubledGrowsInBase(a, b, n - 1);
    }
  }

  lemma {:induction false} DoubledGrowsInShift(d: nat, n: nat, m: nat)
    requires d >= 1 && n <= m
    ensures d <= Doubled(d, n) <= Doubled(d, m)
    ensures n < m ==> Doubled(d, n) < Doubled(d, m)
    decreases m
  {
    if n < m {
      DoubledGrowsInShift(d, n, m - 1);
    } else if n > 0 {
      DoubledGrowsInShift(d, n - 1, n - 1);
    }
  }

  lemma {:induction false} FloorLog2Bounds(d: nat)
    requires d >= 1
    ensures Pow2(FloorLog2(d)) <= d < 2 * Pow2(FloorLog2(d))
  {
    if d > 1 {
      FloorLog2Bounds(d / 2);
    }
  }

  lemma {:induction false} Pow2Triples(n: nat, p: nat)
    requires Pow2(n) == p
    ensures Pow2(3 * n) == p * p * p
  {
    DoubledPower(n, n);
    DoubledIsProduct(p, n);
    DoubledPower(2 * n, n);
    DoubledIsProduct(p * p, n);
  }

  lemma Pow2Literals()
    ensures Pow2(63) == INT64_LIMIT
  {
    Pow2Triples(7, 0x80);
    Pow2Triples(21, 0x20_0000);
  }

  lemma {:induction false} FloorLog2Fits(d: nat)
    requires 1 <= d < INT64_LIMIT
    ensures FloorLog2(d) <= MAX_BACK_OFF_N
  {
    var l := FloorLog2(d);
    FloorLog2Bounds(d);
    Pow2Literals();
    if l >= 63 {
      DoubledPower(63, l - 63);
      DoubledGrowsInShift(Pow2(63), 0, l - 63);
    }
  }

  /** The largest usable shift for an initial delay. */
  function BackOffLimit(d: nat): nat
    requires 1 <= d < INT64_LIMIT
  {
    FloorLog2Fits(d);
    MAX_BACK_OFF_N - FloorLog2(d)
  }

  lemma {:induction false} LimitBrackets(d: nat)
    requires 1 <= d < INT64_LIMIT
    ensures Doubled(d, BackOffLimit(d)) < INT64_LIMIT <= Doubled(d, BackOffLimit(d) + 1) < UINT64_SIZE
  {
    var l, n := FloorLog2(d), BackOffLimit(d);
    FloorLog2Bounds(d);
    Pow2Literals();
    DoubledGrowsInBase(d, Pow2(l + 1), n);
    DoubledPower(l + 1, n);
    DoubledPower(l, n + 1);
    if Pow2(l) < d {
      DoubledGrowsInBase(Pow2(l), d, n + 1);
    }
  }

  /** Up to the limit the shifted delay is exact, positive and growing with every step. */
  lemma {:induction false} ShiftWithinLimit(d: nat, n: nat)
    requires 1 <= d < INT64_LIMIT && n <= BackOffLimit(d)
    ensures d <= ShiftLeft64(d, n) == Doubled(d, n) < INT64_LIMIT
    ensures n > 0 ==> ShiftLeft64(d, n - 1) < ShiftLeft64(d, n)
  {
    LimitBrackets(d);
    DoubledGrowsInShift(d, n, BackOffLimit(d));
    SmallShiftIsExact(d, n);
    if n > 0 {
      DoubledGrowsInShift(d, n - 1, n);
      SmallShiftIsExact(d, n - 1);
    }
  }

  lemma SmallShiftIsExact(d: nat, n: nat)
    requires Doubled(d, n) < INT64_LIMIT
    ensures ShiftLeft64(d, n) == Doubled(d, n)
  {
  }

  /** One step beyond the limit the 64-bit delay turns negative, so no larger limit would do. */
  lemma {:induction false} LimitIsLargest(d: nat)
    requires 1 <= d < INT64_LIMIT
    ensures ShiftLeft64(d, BackOffLimit(d) + 1) < 0
  {
    LimitBrackets(d);
  }

  /** Shifting computes d * 2^n exactly for the shifts up to the limit. */
  lemma {:induction false} ShiftIsExactUpToLimit(d: nat, n: nat)
    requires 1 <= d < INT64_LIMIT
    ensures ShiftLeft64(d, n) == d * Pow2(n) <==> n <= BackOffLimit(d)
  {
    DoubledIsProduct(d, n);
    if n <= BackOffLimit(d) {
      ShiftWithinLimit(d, n);
    } else {
      LimitBrackets(d);
      DoubledGrowsInShift(d, BackOffLimit(d) + 1, n);
    }
  }

  // ---- Configuration ----

  function ApplyOption(config: DelayConfig, opt: DelayOption): DelayConfig {
    match opt
    case WithInitialDelay(delay) => config.(initialDelay := delay)
    case WithMaxJitter(jitter) => config.(maxJitter := jitter)
    case WithMaxDelay(delay) => config.(maxDelay := delay)
    case WithMinRetriesUntilBackOff(retries) => config.(minRetriesUntilBackOff := retries)
  }

  const DEFAULT_CONFIG := DelayConfig(INITIAL_DELAY, MAX_JITTER, 0, 0, MIN_RETRIES_UNTIL_BACK_OFF)

  function Configured(options: seq<DelayOption>): DelayConfig {
    if options == [] then DEFAULT_CONFIG
    else ApplyOption(Configured(options[..|options| - 1]), options[|options| - 1])
  }

  /** The defaults, as options that come before all others. */
  const DEFAULTS := [
    WithInitialDelay(100_000_000), WithMaxJitter(100_000_000), WithMaxDelay(0), WithMinRetriesUntilBackOff(2)]

  predicate SameField(a: DelayOption, b: DelayOption) {
    && (a.WithInitialDelay? <==> b.WithInitialDelay?)
    && (a.WithMaxJitter? <==> b.WithMaxJitter?)
    && (a.WithMaxDelay? <==> b.WithMaxDelay?)
  }

  predicate FieldIs(config: DelayConfig, opt: DelayOption) {
    match opt
    case WithInitialDelay(delay) => config.initialDelay == delay
    case WithMaxJitter(jitter) => config.maxJitter == jitter
    case WithMaxDelay(delay) => config.maxDelay == delay
    case WithMinRetriesUntilBackOff(retries) => config.minRetriesUntilBackOff == retries
  }

  /** No later option sets the field that option k sets. */
  predicate SetsLast(options: seq<DelayOption>, k: nat)
    requires k < |options|
  {
    forall j :: k < j < |options| ==> !SameField(options[j], options[k])
  }

  /** Every field has the value of the last option that sets it, or its default. */
  predicate AsLastSet(options: seq<DelayOption>, config: DelayConfig) {
    var all := DEFAULTS + options;
    forall k :: 0 <= k < |all| && SetsLast(all, k) ==> FieldIs(config, all[k])
  }

  lemma OptionSetsItsField(config: DelayConfig, opt: DelayOption, other: DelayOption)
    ensures FieldIs(ApplyOption(config, opt), opt)
    ensures FieldIs(config, other) && !SameField(opt, other) ==> FieldIs(ApplyOption(config, opt), other)
  {
  }

  lemma {:induction false} ConfiguredAsLastSet(options: seq<DelayOption>)
    ensures AsLastSet(options, Configured(options))
    decreases |options|
  {
    var all := DEFAULTS + options;
    if options == [] {
      assert all == DEFAULTS;
    } else {
      var init, last := options[..|options| - 1], options[|options| - 1];
      var before := DEFAULTS + init;
      ConfiguredAsLastSet(init);
      assert all == before + [last];
      forall k | 0 <= k < |all| && SetsLast(all, k)
        ensures FieldIs(Configured(options), all[k])
      {
        OptionSetsItsField(Configured(init), last, all[k]);
        if k < |before| {
          assert !SameField(all[|before|], all[k]);
          assert forall j :: k < j < |before| ==> before[j] == all[j];
          assert SetsLast(before, k);
        }
      }
    }
  }

  lemma WrappedDifference(x: nat)
    requires x < UINT64_SIZE
    ensures var r := (MAX_BACK_OFF_N - x) % UINT64_SIZE;
            && 0 <= r < UINT64_SIZE
            && r == if x <= MAX_BACK_OFF_N then MAX_BACK_OFF_N - x else MAX_BACK_OFF_N - x + UINT64_SIZE
  {
  }

  /** Runs the options over the defaults in order and derives the shift bound from the outcome. The
  logarithm of a non-positive delay is negative infinity or not a number; which unsigned value its
  conversion gives is up to the platform, so that value is an input. Subtracting it may wrap. */
  method NewOrderEventDelayConfig(options: seq<DelayOption>, converted: nat) returns (config: DelayConfig)
    requires -INT64_LIMIT <= Configured(options).initialDelay < INT64_LIMIT && converted < UINT64_SIZE
    ensures config == Configured(options).(maxBackOffN := config.maxBackOffN)
    ensures AsLastSet(options, config)
    ensures config.initialDelay > 0 ==>
      && 0 <= config.maxBackOffN
      && config.initialDelay * Pow2(config.maxBackOffN) < INT64_LIMIT
      && config.initialDelay * Pow2(config.maxBackOffN + 1) >= INT64_LIMIT
    ensures config.initialDelay <= 0 ==>
      && 0 <= config.maxBackOffN < UINT64_SIZE
      && (|| config.maxBackOffN + converted == MAX_BACK_OFF_N
          || config.maxBackOffN + converted == MAX_BACK_OFF_N + UINT64_SIZE)
  {
    config := DEFAULT_CONFIG;
    for i := 0 to |options|
      invariant config == Configured(options[..i])
    {
      assert options[..i + 1][..i] == options[..i];
      config := ApplyOption(config, options[i]);
    }
    assert options[..|options|] == options;
    if config.initialDelay > 0 {
      FloorLog2Fits(config.initialDelay);
      LimitBrackets(config.initialDelay);
      DoubledIsProduct(config.initialDelay, BackOffLimit(config.initialDelay));
      DoubledIsProduct(config.initialDelay, BackOffLimit(config.initialDelay) + 1);
    }
    var floorLog := if config.initialDelay > 0 then FloorLog2(config.initialDelay) else converted;
    WrappedDifference(floorLog);
    ConfiguredAsLastSet(options);
    config := config.(maxBackOffN := (MAX_BACK_OFF_N - floorLog) % UINT64_SIZE);
  }

  /** The bound on the shift is the one that the constructor derives from a delay that is not negative. */
  predicate UsableConfig(config: DelayConfig) {
    && 0 <= config.initialDelay < INT64_LIMIT
    && (config.initialDelay > 0 ==> config.maxBackOffN == BackOffLimit(config.initialDelay))
  }

  // ---- Retry decision ----

  predicate Retryable(failure: Failure) {
    failure == Other
  }

  datatype Strategy = RandomDelay | BackOffAndRandomDelay

  function GetDelayFn(config: DelayConfig, failure: Failure, retries: nat): Option<Strategy> {
    if failure == NoFailure then None
    else if failure == EventDiscarded then None
    else if failure == OrderNotFound then None
    else if retries < config.minRetriesUntilBackOff then Some(RandomDelay)
    else Some(BackOffAndRandomDelay)
  }

  function Min(a: int, b: int): int {
    if a < b then a else b
  }

  /** The number of doublings of an attempt. */
  function ShiftOf(config: DelayConfig, retries: nat): nat {
    if retries < config.maxBackOffN then retries else config.maxBackOffN
  }

  /** The delay of a strategy with the given random part. The sum is formed unsigned and saturates, so that
  a negative summand makes it the largest duration. */
  function StrategyDelay(config: DelayConfig, strategy: Strategy, retries: nat, jitter: nat): nat {
    match strategy
    case RandomDelay => jitter
    case BackOffAndRandomDelay =>
      var backOff := ShiftLeft64(config.initialDelay, ShiftOf(config, retries));
      if backOff < 0 then INT64_LIMIT - 1 else Min(backOff + jitter, INT64_LIMIT - 1)
  }

  function ClampedDelay(config: DelayConfig, delay: int): int {
    if config.maxDelay > 0 && delay > config.maxDelay then config.maxDelay else delay
  }

  /** The retried event and the earliest instant of its processing, if it is to be retried. */
  function GetNextEvent(config: DelayConfig, event: Event, failure: Failure, jitter: nat, now: Time)
    : (next: Option<(Event, int)>)
    ensures next.Some? <==> Retryable(failure)
    ensures next.Some? ==> next.value.0 == Event(event.user, event.order, event.retries + 1)
    ensures next.Some? ==> next.value.1 >= now
    ensures next.Some? && config.maxDelay > 0 ==> next.value.1 <= now + config.maxDelay
  {
    var retries := event.retries + 1;
    match GetDelayFn(config, failure, retries)
    case None => None
    case Some(strategy) =>
      var delay := ClampedDelay(config, StrategyDelay(config, strategy, retries, jitter));
      Some((event.(retries := retries), now + delay))
  }

  /** When an event is retried, and when exactly: before the back-off sets in the delay is the random part, from
  then on the initial delay times a power of two and the random part, up to the largest duration; a maximum
  delay caps it. It holds for every delay that is not negative and bound that keeps the product in 63 bits. */
  lemma {:induction false} RetryTime(config: DelayConfig, event: Event, failure: Failure, jitter: nat, now: Time)
    requires config.initialDelay >= 0 && config.initialDelay * Pow2(config.maxBackOffN) < INT64_LIMIT
    ensures var r := event.retries + 1;
            var shift := if r < config.maxBackOffN then r else config.maxBackOffN;
            var sum := config.initialDelay * Pow2(shift) + jitter;
            var raw := if r < config.minRetriesUntilBackOff then jitter
                       else if sum < INT64_LIMIT then sum
                       else INT64_LIMIT - 1;
            var delay := if config.maxDelay > 0 && raw > config.maxDelay then config.maxDelay else raw;
            GetNextEvent(config, event, failure, jitter, now)
            == if failure == Other then Some((Event(event.user, event.order, r), now + delay)) else None
  {
    var d, shift := config.initialDelay, ShiftOf(config, event.retries + 1);
    DoubledIsProduct(d, shift);
    DoubledIsProduct(d, config.maxBackOffN);
    if d == 0 {
      ZeroStaysZero(shift);
    } else {
      DoubledGrowsInShift(d, shift, config.maxBackOffN);
    }
    SmallShiftIsExact(d, shift);
  }

  /** With equal random parts a later attempt waits no less. */
  lemma {:induction false} RetryDelaysNeverShrink(
      config: DelayConfig, event: Event, later: Event, jitter: nat, now: Time)
    requires UsableConfig(config) && event.retries <= later.retries && jitter < INT64_LIMIT
    ensures GetNextEvent(config, event, Other, jitter, now).value.1
         <= GetNextEvent(config, later, Other, jitter, now).value.1
  {
    var d, n, m := config.initialDelay, ShiftOf(config, event.retries + 1), ShiftOf(config, later.retries + 1);
    if d == 0 {
      ZeroStaysZero(n);
      ZeroStaysZero(m);
    } else {
      ShiftWithinLimit(d, n);
      ShiftWithinLimit(d, m);
      DoubledGrowsInShift(d, n, m);
    }
  }

  lemma {:induction false} ZeroStaysZero(n: nat)
    ensures Doubled(0, n) == 0
  {
    if n > 0 {
      ZeroStaysZero(n - 1);
    }
  }

  /** With a negative initial delay a later attempt may wait less: an attempt whose shift is still negative
  waits as long as possible, one whose bits are all shifted out waits for the random part only. */
  lemma {:induction false} NegativeDelaysCanShrink(
      config: DelayConfig, event: Event, later: Event, jitter: nat, now: Time)
    requires -INT64_LIMIT <= config.initialDelay < 0 && config.maxDelay == 0 && jitter < INT64_LIMIT - 1
    requires config.minRetriesUntilBackOff <= event.retries + 1 && later.retries + 1 >= config.maxBackOffN >= 64
    requires ShiftLeft64(config.initialDelay, ShiftOf(config, event.retries + 1)) < 0
    ensures GetNextEvent(config, later, Other, jitter, now).value.1
          < GetNextEvent(config, event, Other, jitter, now).value.1
  {
    ShiftedOut(config.initialDelay, config.maxBackOffN);
  }

  lemma {:induction false} ShiftedOut(d: int, n: nat)
    requires n >= 64
    ensures ShiftLeft64(d, n) == 0
  {
    DoubledWords(d, n);
    MultiplesHaveNoBits(Doubled(d, n - 64));
  }

  lemma {:induction false} DoubledWords(d: int, n: nat)
    requires n >= 64
    ensures Doubled(d, n) == UINT64_SIZE * Doubled(d, n - 64)
  {
    if n == 64 {
      DoubledIsProduct(d, 64);
      Pow2Literals();
      assert Pow2(64) == 2 * Pow2(63);
    } else {
      DoubledWords(d, n - 1);
    }
  }

  lemma MultiplesHaveNoBits(k: int)
    ensures (UINT64_SIZE * k) % UINT64_SIZE == 0
  {
  }
}
