/** Messages, handler results and the two retry coordinators. */
module Retry {
  import opened Bits

  datatype Option<+T> = None | Some(value: T)

  /** ringq.Action; a handler may return any integer, so codes outside the four named ones exist. */
  datatype Action = Ack | Retry | RetryWithDelay | DLQ | Unknown(code: int)

  datatype Result = Result(action: Action, delay: int)

  /** ringq.Message without its payload; `key` is the idempotency attribute when present. */
  datatype Message = Message(id: string, topic: string, key: Option<string>, attempts: int, notBefore: int)

  datatype Outcome = Outcome(action: Action, message: Message, delay: int)

  // ----- 64-bit durations

  /** Five minutes in nanoseconds. */
  const MAX_RETRY_DELAY: int := 300_000_000_000

  /** int64(math.Pow(2, float64(e))): fractions truncate to zero, and a value outside int64
      converts to whatever the platform yields, here `overflow`. */
  function PowInt64(e: int, overflow: int): (r: int) {
    if e < 0 then 0 else if e <= 62 then Pow2(e) else overflow
  }

  function Min(a: int, b: int): (r: int) {
    if a <= b then a else b
  }

  /** The delay computed for the given attempt number. */
  function Backoff(base: int, attempt: int, overflow: int): (r: int)
    ensures r <= MAX_RETRY_DELAY
  {
    Min(Wrap64(base * PowInt64(attempt - 1, overflow)), MAX_RETRY_DELAY)
  }

  // ----- coordinators

  datatype Coordinator =
    | Default(maxRetries: int, baseDelay: int)      // ringq.defaultRetryCoordinator
    | Configured(maxRetries: int, baseDelay: int)   // retry.Coordinator, defaults already applied

  /** retry.NewCoordinator: zero fields take their defaults, 3 retries and 5 seconds. */
  function NewCoordinator(maxRetries: int, baseDelay: int): (c: Coordinator)
    ensures c.Configured? && c.maxRetries != 0 && c.baseDelay != 0
    ensures c.maxRetries != maxRetries ==> maxRetries == 0 && c.maxRetries == 3
    ensures c.baseDelay != baseDelay ==> baseDelay == 0 && c.baseDelay == 5_000_000_000
  {
    Configured(if maxRetries == 0 then 3 else maxRetries,
               if baseDelay == 0 then 5_000_000_000 else baseDelay)
  }

  function DefaultHandle(maxRetries: int, baseDelay: int, overflow: int, msg: Message, result: Result): (o: Outcome) {
    match result.action
    case Ack => Outcome(Ack, msg, 0)
    case DLQ => Outcome(DLQ, msg, 0)
    case Unknown(_) => Outcome(DLQ, msg, 0)
    case _ =>
      var attempt := msg.attempts + 1;
      if attempt > maxRetries then Outcome(DLQ, msg, 0)
      else
        var delay := if result.delay <= 0 then Backoff(baseDelay, attempt, overflow) else result.delay;
        Outcome(if delay > 0 then RetryWithDelay else result.action, msg.(attempts := attempt), delay)
  }

  function ConfiguredHandle(maxRetries: int, baseDelay: int, msg: Message, result: Result): (o: Outcome) {
    match result.action
    case Ack => Outcome(Ack, msg, 0)
    case DLQ => Outcome(DLQ, msg, 0)
    case Unknown(_) => Outcome(DLQ, msg, 0)
    case Retry =>
      var attempt := msg.attempts + 1;
      if attempt > maxRetries then Outcome(DLQ, msg, 0)
      else Outcome(Retry, msg.(attempts := attempt), 0)
    case RetryWithDelay =>
      var attempt := msg.attempts + 1;
      if attempt > maxRetries then Outcome(DLQ, msg, 0)
      else Outcome(RetryWithDelay, msg.(attempts := attempt), if result.delay <= 0 then baseDelay else result.delay)
  }

  function Handle(c: Coordinator, overflow: int, msg: Message, result: Result): (o: Outcome) {
    match c
    case Default(maxRetries, baseDelay) => DefaultHandle(maxRetries, baseDelay, overflow, msg, result)
    case Configured(maxRetries, baseDelay) => ConfiguredHandle(maxRetries, baseDelay, msg, result)
  }

  predicate WantsRetry(a: Action) {
    a.Retry? || a.RetryWithDelay?
  }

  /** What both coordinators guarantee the pipeline: an Ack only for an Ack, a retry only inside the
      budget and only with Attempts raised by one, dead-lettering exactly otherwise, and no other change. */
  lemma CoordinatorContract(c: Coordinator, overflow: int, msg: Message, result: Result)
    ensures var o := Handle(c, overflow, msg, result);
      && (o.action.Ack? <==> result.action.Ack?)
      && (WantsRetry(o.action) <==> WantsRetry(result.action) && msg.attempts < c.maxRetries)
      && (o.action.DLQ? <==> !o.action.Ack? && !WantsRetry(o.action))
      && (!WantsRetry(o.action) ==> o.delay == 0)
      && o.message == (if WantsRetry(o.action) then msg.(attempts := msg.attempts + 1) else msg)
  {
  }

  // ----- what the backoff computes

  /** The documented delay, over unbounded integers. */
  function IdealBackoff(base: int, attempt: nat): (r: int)
    requires attempt >= 1
  {
    Min(base * Pow2(attempt - 1), MAX_RETRY_DELAY)
  }

  lemma ProductMonotone(base: int, a: nat, b: nat)
    requires base > 0 && a <= b
    ensures 0 < base * Pow2(a) <= base * Pow2(b)
    ensures base <= base * Pow2(a)
  {
  }

  /** A product inside int64 has an exponent the float conversion handles. */
  lemma ExponentFits(base: int, e: nat)
    requires base >= 1
    ensures base * Pow2(e) < TWO63 ==> e <= 62
    ensures base >= 2 && base * Pow2(e) < TWO63 ==> e <= 61
  {
    Pow2At62();
    MulAtLeast(Pow2(e), base);
    assert base * Pow2(e) == 2 * Pow2(e) + (base - 2) * Pow2(e);
    if base >= 3 {
      MulAtLeast(Pow2(e), base - 2);
    }
    if e > 62 {
      Pow2Monotone(63, e);
    } else if e == 62 {
    }
  }

  /** While the product stays inside int64 the computation is the documented minimum, and positive. */
  lemma BackoffInRange(base: int, attempt: nat, overflow: int)
    requires base > 0 && attempt >= 1 && base * Pow2(attempt - 1) < TWO63
    ensures Backoff(base, attempt, overflow) == IdealBackoff(base, attempt) > 0
    ensures Backoff(base, attempt, overflow) == Min(base * Pow2(attempt - 1), 300_000_000_000)
  {
    ProductMonotone(base, 0, attempt - 1);
    ExponentFits(base, attempt - 1);
  }

  /** The first attempt whose product leaves int64: its wrapped value is negative. */
  lemma FirstOverflow(base: int, attempt: nat, overflow: int)
    requires 2 <= base < TWO63 && attempt >= 2
    requires base * Pow2(attempt - 2) < TWO63 <= base * Pow2(attempt - 1)
    ensures Backoff(base, attempt, overflow) < 0
  {
    ExponentFits(base, attempt - 2);
    MulAssoc(base, 2, Pow2(attempt - 2));
    MulAssoc(2, base, Pow2(attempt - 2));
  }

  /** Finds the first attempt at which the product leaves int64. */
  lemma {:induction false} FindOverflow(base: int, n: nat) returns (attempt: nat)
    requires 0 < base < TWO63 && n >= 1 && base * Pow2(n - 1) >= TWO63
    ensures 2 <= attempt <= n
    ensures base * Pow2(attempt - 2) < TWO63 <= base * Pow2(attempt - 1)
  {
    assert Pow2(0) == 1;
    if n >= 2 && base * Pow2(n - 2) >= TWO63 {
      attempt := FindOverflow(base, n - 1);
    } else {
      attempt := n;
    }
  }

  ghost predicate BackoffAsDocumented(base: int, maxRetries: nat, overflow: int) {
    forall attempt: nat :: 1 <= attempt <= maxRetries ==>
      Backoff(base, attempt, overflow) == IdealBackoff(base, attempt)
  }

  /** The exact range: the documented backoff holds for every attempt a handler can reach if and only if the
      largest product fits int64, or the base is one nanosecond and the platform saturates upwards. */
  lemma BackoffExact(base: int, maxRetries: nat, overflow: int)
    requires 0 < base < TWO63 && maxRetries >= 1 && IsInt64(overflow)
    ensures BackoffAsDocumented(base, maxRetries, overflow)
      <==> base * Pow2(maxRetries - 1) < TWO63 || (base == 1 && overflow >= MAX_RETRY_DELAY)
  {
    if base * Pow2(maxRetries - 1) < TWO63 {
      forall attempt: nat | 1 <= attempt <= maxRetries
        ensures Backoff(base, attempt, overflow) == IdealBackoff(base, attempt)
      {
        ProductMonotone(base, attempt - 1, maxRetries - 1);
        BackoffInRange(base, attempt, overflow);
      }
    } else if base == 1 {
      OneNanosecond(maxRetries, overflow);
    } else {
      var attempt := FindOverflow(base, maxRetries);
      FirstOverflow(base, attempt, overflow);
      ProductMonotone(base, 0, attempt - 1);
      assert Backoff(base, attempt, overflow) != IdealBackoff(base, attempt);
    }
  }

  lemma OneNanosecond(maxRetries: nat, overflow: int)
    requires maxRetries >= 1 && IsInt64(overflow) && Pow2(maxRetries - 1) >= TWO63
    ensures BackoffAsDocumented(1, maxRetries, overflow) <==> overflow >= MAX_RETRY_DELAY
  {
    Pow2At62();
    if maxRetries - 1 < 63 {
      Pow2Monotone(maxRetries - 1, 62);
      assert false;
    }
    assert Backoff(1, 64, overflow) == Min(overflow, MAX_RETRY_DELAY);
    assert IdealBackoff(1, 64) == MAX_RETRY_DELAY;
    if overflow >= MAX_RETRY_DELAY {
      forall attempt: nat | 1 <= attempt <= maxRetries
        ensures Backoff(1, attempt, overflow) == IdealBackoff(1, attempt)
      {
        if attempt <= 63 {
          Pow2Monotone(attempt - 1, 62);
          BackoffInRange(1, attempt, overflow);
        } else {
          Pow2Monotone(63, attempt - 1);
        }
      }
    }
  }

  /** Successive delays never shrink. */
  lemma BackoffMonotone(base: int, a: nat, b: nat, overflow: int)
    requires base > 0 && 1 <= a <= b && base * Pow2(b - 1) < TWO63
    ensures 0 < Backoff(base, a, overflow) <= Backoff(base, b, overflow)
  {
    ProductMonotone(base, a - 1, b - 1);
    BackoffInRange(base, a, overflow);
    BackoffInRange(base, b, overflow);
  }

  /** The sum of the first n delays. */
  function TotalBackoff(base: int, n: nat, overflow: int): (r: int) {
    if n == 0 then 0 else TotalBackoff(base, n - 1, overflow) + Backoff(base, n, overflow)
  }

  /** Retries with computed delays hold a message for at most min(base * (2^n - 1), n * 5 min) in all. */
  lemma {:induction false} TotalBackoffBound(base: int, n: nat, overflow: int)
    requires base > 0 && (n >= 1 ==> base * Pow2(n - 1) < TWO63)
    ensures 0 <= TotalBackoff(base, n, overflow) <= n * MAX_RETRY_DELAY
    ensures TotalBackoff(base, n, overflow) <= base * (Pow2(n) - 1)
  {
    if n == 0 {
    } else {
      if n >= 2 {
        ProductMonotone(base, n - 2, n - 1);
      }
      TotalBackoffBound(base, n - 1, overflow);
      BackoffInRange(base, n, overflow);
      SumStep(base, Pow2(n - 1), Pow2(n));
    }
  }

  lemma SumStep(base: int, p: int, q: int)
    requires q == 2 * p
    ensures base * (q - 1) == base * (p - 1) + base * p
  {
  }

  // ----- the delay of a retry

  /** A retry of the default coordinator waits as long as the handler asked, or else the documented backoff of at most
      five minutes, and is delayed rather than immediate exactly when that is positive. */
  lemma DefaultDelay(maxRetries: int, base: int, overflow: int, msg: Message, result: Result)
    requires base > 0 && msg.attempts >= 0 && base * Pow2(msg.attempts) < TWO63
    requires WantsRetry(result.action) && msg.attempts < maxRetries
    ensures var o := Handle(Default(maxRetries, base), overflow, msg, result);
      && o.delay == (if result.delay > 0 then result.delay else Min(base * Pow2(msg.attempts), 300_000_000_000))
      && o.action == RetryWithDelay
  {
    BackoffInRange(base, msg.attempts + 1, overflow);
  }

  /** A negative Attempts has no backoff: without a delay of its own the retry is immediate, or as the handler said. */
  lemma NegativeAttempts(maxRetries: int, base: int, overflow: int, msg: Message, result: Result)
    requires msg.attempts < 0 && WantsRetry(result.action) && msg.attempts < maxRetries && result.delay <= 0
    ensures var o := Handle(Default(maxRetries, base), overflow, msg, result);
      o.delay == 0 && o.action == result.action
  {
    assert base * 0 == 0;
  }

  /** Every delay is the documented one, for all results and all Attempts in the budget. */
  ghost predicate DelaysAsDocumented(maxRetries: int, base: int, overflow: int) {
    forall msg: Message, result: Result ::
      0 <= msg.attempts < maxRetries && WantsRetry(result.action) ==>
        Handle(Default(maxRetries, base), overflow, msg, result).delay
        == (if result.delay > 0 then result.delay else Min(base * Pow2(msg.attempts), 300_000_000_000))
  }

  /** Exactly when the backoff is. */
  lemma DelaysExact(maxRetries: nat, base: int, overflow: int)
    requires 0 < base < TWO63 && maxRetries >= 1 && IsInt64(overflow)
    ensures DelaysAsDocumented(maxRetries, base, overflow)
      <==> base * Pow2(maxRetries - 1) < TWO63 || (base == 1 && overflow >= MAX_RETRY_DELAY)
  {
    BackoffExact(base, maxRetries, overflow);
    if BackoffAsDocumented(base, maxRetries, overflow) {
      forall msg: Message, result: Result | 0 <= msg.attempts < maxRetries && WantsRetry(result.action)
        ensures Handle(Default(maxRetries, base), overflow, msg, result).delay
             == (if result.delay > 0 then result.delay else Min(base * Pow2(msg.attempts), 300_000_000_000))
      {
        assert Backoff(base, msg.attempts + 1, overflow) == IdealBackoff(base, msg.attempts + 1);
      }
    } else {
      var attempt: nat :| 1 <= attempt <= maxRetries
        && Backoff(base, attempt, overflow) != IdealBackoff(base, attempt);
      var msg, result := Message("", "", None, attempt - 1, 0), Result(Retry, 0);
      assert Handle(Default(maxRetries, base), overflow, msg, result).delay == Backoff(base, attempt, overflow);
    }
  }

  /** A retry of the configurable coordinator is of the kind the handler asked for; a delayed one waits as long as the
      handler asked, or else the base delay. */
  lemma ConfiguredDelay(maxRetries: int, base: int, overflow: int, msg: Message, result: Result)
    requires WantsRetry(result.action) && msg.attempts < maxRetries
    ensures var o := Handle(Configured(maxRetries, base), overflow, msg, result);
      && o.action == result.action
      && o.delay == (if result.action.Retry? then 0 else if result.delay > 0 then result.delay else base)
  {
  }

  // ----- when a retry goes back through the ring

  /** No result at any attempt in the budget makes this coordinator re-insert into the ring. */
  ghost predicate NeverUsesRing(c: Coordinator, overflow: int) {
    forall msg: Message, result: Result :: msg.attempts >= 0 ==> !Handle(c, overflow, msg, result).action.Retry?
  }

  /** The default coordinator turns every retry into a delayed one exactly when its backoff stays positive. */
  lemma DefaultAvoidsRing(maxRetries: int, base: int, overflow: int)
    requires IsInt64(base) && IsInt64(overflow)
    ensures NeverUsesRing(Default(maxRetries, base), overflow) <==>
      || maxRetries <= 0
      || (base > 0 && (base * Pow2(maxRetries - 1) < TWO63 || (base == 1 && overflow > 0)))
  {
    var c := Default(maxRetries, base);
    if maxRetries <= 0 {
    } else if base <= 0 {
      assert Pow2(0) == 1;
      RingRetry(c, overflow, 1);
    } else if base * Pow2(maxRetries - 1) < TWO63 {
      forall attempt: nat | 1 <= attempt <= maxRetries
        ensures Backoff(base, attempt, overflow) > 0
      {
        ProductMonotone(base, attempt - 1, maxRetries - 1);
        BackoffInRange(base, attempt, overflow);
      }
    } else if base == 1 {
      OneNanosecondRing(maxRetries, overflow);
    } else {
      var attempt := FindOverflow(base, maxRetries);
      FirstOverflow(base, attempt, overflow);
      RingRetry(c, overflow, attempt);
    }
  }

  lemma RingRetry(c: Coordinator, overflow: int, attempt: nat)
    requires c.Default? && 1 <= attempt <= c.maxRetries && Backoff(c.baseDelay, attempt, overflow) <= 0
    ensures !NeverUsesRing(c, overflow)
  {
    var msg, result := Message("", "", None, attempt - 1, 0), Result(Retry, 0);
    assert Handle(c, overflow, msg, result).action.Retry?;
  }

  lemma OneNanosecondRing(maxRetries: int, overflow: int)
    requires maxRetries >= 1 && IsInt64(overflow) && Pow2(maxRetries - 1) >= TWO63
    ensures NeverUsesRing(Default(maxRetries, 1), overflow) <==> overflow > 0
  {
    Pow2At62();
    if maxRetries - 1 < 63 {
      Pow2Monotone(maxRetries - 1, 62);
      assert false;
    }
    if overflow <= 0 {
      RingRetry(Default(maxRetries, 1), overflow, 64);
    } else {
      forall attempt: nat | 1 <= attempt <= maxRetries
        ensures Backoff(1, attempt, overflow) > 0
      {
        if attempt <= 63 {
          Pow2Monotone(attempt - 1, 62);
          BackoffInRange(1, attempt, overflow);
        }
      }
    }
  }

  /** The configurable coordinator re-inserts whenever its budget allows a retry at all. */
  lemma ConfiguredUsesRing(maxRetries: int, base: int, overflow: int)
    ensures NeverUsesRing(Configured(maxRetries, base), overflow) <==> maxRetries <= 0
  {
    if maxRetries > 0 {
      var msg, result := Message("", "", None, 0, 0), Result(Retry, 0);
      assert Handle(Configured(maxRetries, base), overflow, msg, result).action.Retry?;
    }
  }
}
