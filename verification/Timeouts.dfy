/** Timeout configuration, the multiplied timeout and the time budget of one read or write call
    (multiplier_timeout.hpp and the timeout arithmetic of read_impl.hpp and write_impl.hpp). */
module Timeouts {
  const INT_MAX: int := 0x7fff_ffff

  type int32 = x: int | -INT_MAX - 1 <= x <= INT_MAX

  datatype TimeoutConfig = TimeoutConfig(timeoutMs: int32, multiplier: int32)

  /** validateTimeoutConfig as the tests describe it: no negative value, no overflowing product. */
  predicate AcceptsTimeout(c: TimeoutConfig) {
    c.timeoutMs >= 0 && c.multiplier >= 0 && c.timeoutMs * c.multiplier <= INT_MAX
  }

  /** The configurations the tests name: negative ones and an overflowing product are rejected, a zero
      timeout with the greatest multiplier is accepted. */
  lemma AcceptsAsTested()
    ensures !AcceptsTimeout(TimeoutConfig(-1, 1)) && !AcceptsTimeout(TimeoutConfig(1, -1))
    ensures !AcceptsTimeout(TimeoutConfig(INT_MAX, 2)) && AcceptsTimeout(TimeoutConfig(0, INT_MAX))
  {
  }

  /** clampTimeout raises a negative value to zero and is the identity on what passes validation. */
  function ClampTimeout(timeoutMs: int32): (r: int32)
    ensures 0 <= r && (timeoutMs >= 0 ==> r == timeoutMs)
  {
    if timeoutMs < 0 then 0 else timeoutMs
  }

  function MultiplierTimeout(timeoutMs: int32, multiplier: int32): int32 {
    if multiplier <= 0 then 0
    else
      var timeout := ClampTimeout(timeoutMs) * multiplier;
      if timeout > INT_MAX then INT_MAX else timeout
  }

  lemma MulBounds(x: int, y: int, limit: int)
    requires 0 <= x <= limit && 0 <= y <= limit
    ensures 0 <= x * y <= limit * limit
  {
    assert x * y <= limit * y <= limit * limit;
  }

  lemma MulGrows(x: nat, y: nat, smaller: nat)
    requires smaller <= x
    ensures 0 <= smaller * y <= x * y
  {
    assert x * y == smaller * y + (x - smaller) * y;
  }

  /** The 64-bit product never overflows; the result is the saturated product, never negative, and
      for an accepted configuration saturation is unreachable. */
  lemma MultiplierTimeoutIsExact(timeoutMs: int32, multiplier: int32)
    ensures 0 <= multiplier ==> 0 <= ClampTimeout(timeoutMs) * multiplier <= INT_MAX * INT_MAX < 0x8000_0000_0000_0000
    ensures 0 <= multiplier ==>
      var product := ClampTimeout(timeoutMs) * multiplier;
      MultiplierTimeout(timeoutMs, multiplier) == if product <= INT_MAX then product else INT_MAX
    ensures 0 <= MultiplierTimeout(timeoutMs, multiplier)
    ensures AcceptsTimeout(TimeoutConfig(timeoutMs, multiplier)) ==>
      MultiplierTimeout(timeoutMs, multiplier) == timeoutMs * multiplier
  {
    if multiplier >= 0 {
      MulBounds(ClampTimeout(timeoutMs), multiplier, INT_MAX);
    }
  }

  function Sum(s: seq<int>): int {
    if s == [] then 0 else Sum(s[..|s| - 1]) + s[|s| - 1]
  }

  lemma SumAppend(s: seq<int>, x: int)
    ensures Sum(s + [x]) == Sum(s) + x
  {
    assert (s + [x])[..|s|] == s;
  }

  /** The time budget of `chunks` chunk calls: the timeout for the first, the multiplied timeout for
      each later one. */
  function Budget(first: int, later: int, chunks: nat): int {
    if chunks == 0 then 0 else if chunks == 1 then first else Budget(first, later, chunks - 1) + later
  }

  /** The plain timeout for a wait of the first chunk call, the multiplied one for every other. */
  ghost predicate Timed(waits: seq<int>, first: int, later: int, chunks: nat) {
    && (waits != [] ==> waits[0] == first || (waits[0] == later && chunks > 1))
    && forall i :: 1 <= i < |waits| ==> waits[i] == later
  }

  /** At most one wait per chunk call, all within the budget. */
  ghost predicate Waited(waits: seq<int>, first: int, later: int, chunks: nat) {
    |waits| <= chunks && Timed(waits, first, later, chunks) && Sum(waits) <= Budget(first, later, chunks)
  }

  lemma TimedGrows(before: seq<int>, wait: int, first: int, later: int, chunks: nat)
    requires |before| <= chunks && Timed(before, first, later, chunks)
    requires wait == if chunks == 0 then first else later
    ensures Timed(before + [wait], first, later, chunks + 1)
  {
    forall i | 1 <= i < |before + [wait]| ensures (before + [wait])[i] == later {
      if i < |before| {
        assert (before + [wait])[i] == before[i];
      }
    }
  }

  lemma OneMoreWait(before: seq<int>, wait: int, first: int, later: int, chunks: nat)
    requires Waited(before, first, later, chunks) && wait == if chunks == 0 then first else later
    ensures Waited(before + [wait], first, later, chunks + 1)
  {
    TimedGrows(before, wait, first, later, chunks);
    SumAppend(before, wait);
  }

  /** The waits of `chunks` chunk calls of a call with this configuration. */
  ghost predicate WithinBudget(waits: seq<int>, config: TimeoutConfig, chunks: nat) {
    Waited(waits, ClampTimeout(config.timeoutMs), MultiplierTimeout(config.timeoutMs, config.multiplier), chunks)
  }

  /** The timeout of the chunk call made when `total` bytes have been transferred. */
  function CurrentTimeout(config: TimeoutConfig, total: nat): int32 {
    if total == 0 then ClampTimeout(config.timeoutMs) else MultiplierTimeout(config.timeoutMs, config.multiplier)
  }

  /** The waits requested since `start`, over the chunk calls of one read or write call. */
  ghost predicate InBudget(start: seq<int>, waits: seq<int>, config: TimeoutConfig, chunks: nat) {
    start <= waits && WithinBudget(waits[|start|..], config, chunks)
  }

  /** One chunk call more: at most one wait more, the one its position allows. */
  lemma BudgetStep(start: seq<int>, before: seq<int>, after: seq<int>, config: TimeoutConfig, chunks: nat, total: nat)
    requires InBudget(start, before, config, chunks) && (total == 0 <==> chunks == 0)
    requires after == before || after == before + [CurrentTimeout(config, total)]
    ensures InBudget(start, after, config, chunks + 1)
  {
    var first, later := ClampTimeout(config.timeoutMs), MultiplierTimeout(config.timeoutMs, config.multiplier);
    if after != before {
      OneMoreWait(before[|start|..], CurrentTimeout(config, total), first, later, chunks);
      assert after[|start|..] == before[|start|..] + [CurrentTimeout(config, total)];
    }
  }

  lemma {:induction false} BudgetIs(first: int, later: int, chunks: nat)
    requires chunks > 0
    ensures Budget(first, later, chunks) == first + (chunks - 1) * later
  {
    if chunks > 1 {
      BudgetIs(first, later, chunks - 1);
    }
  }

  /** What a call with a buffer of `size` bytes may wait in all. */
  ghost predicate BoundedWaits(waits: seq<int>, config: TimeoutConfig, size: nat) {
    && |waits| <= size
    && Sum(waits) <= config.timeoutMs + (size - 1) * (config.timeoutMs * config.multiplier)
  }

  /** For an accepted configuration the budget of at most `size` chunk calls is
      timeout + (size - 1) * timeout * multiplier. */
  lemma BudgetTotal(waits: seq<int>, config: TimeoutConfig, chunks: nat, size: nat)
    requires AcceptsTimeout(config) && WithinBudget(waits, config, chunks) && chunks <= size && size > 0
    ensures BoundedWaits(waits, config, size)
  {
    MultiplierTimeoutIsExact(config.timeoutMs, config.multiplier);
    var per := config.timeoutMs * config.multiplier;
    MulGrows(size - 1, per, if chunks > 0 then chunks - 1 else 0);
    if chunks > 0 {
      BudgetIs(config.timeoutMs, per, chunks);
    }
  }
}
