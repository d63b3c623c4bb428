/** The per-socket token bucket (server/websocket.ts:52-77), with exact reals. */
module TokenBucket {
  const REFILL_PER_SEC := 20.0
  const CAPACITY := 40.0

  datatype Bucket = Bucket(tokens: real, lastRefillMs: int)

  function Refill(b: Bucket, nowMs: int): Bucket {
    var elapsedMs := nowMs - b.lastRefillMs;
    if elapsedMs > 0 then
      var filled := b.tokens + (elapsedMs as real / 1000.0) * REFILL_PER_SEC;
      Bucket(if filled < CAPACITY then filled else CAPACITY, nowMs)
    else b
  }

  /** The bucket after one message, and whether it was accepted. */
  function Consume(b: Bucket, nowMs: int): (Bucket, bool) {
    var full := Refill(b, nowMs);
    if full.tokens < 1.0 then (full, false) else (full.(tokens := full.tokens - 1.0), true)
  }

  class SocketRateState {
    var tokens: real
    var lastRefillMs: int

    constructor (nowMs: int)
      ensures State() == Bucket(CAPACITY, nowMs)
    {
      tokens, lastRefillMs := CAPACITY, nowMs;
    }

    ghost function State(): Bucket
      reads this
    {
      Bucket(tokens, lastRefillMs)
    }

    method ConsumeRateToken(nowMs: int) returns (accepted: bool)
      modifies this
      ensures (State(), accepted) == Consume(old(State()), nowMs)
    {
      var elapsedMs := nowMs - lastRefillMs;
      if elapsedMs > 0 {
        var filled := tokens + (elapsedMs as real / 1000.0) * REFILL_PER_SEC;
        tokens := if filled < CAPACITY then filled else CAPACITY;
        lastRefillMs := nowMs;
      }
      if tokens < 1.0 {
        return false;
      }
      tokens := tokens - 1.0;
      return true;
    }
  }

  // ------------------------------------------------ a socket's whole history

  /** The bucket of a socket that connected at `t0`, after its messages. */
  function After(t0: int, nows: seq<int>): Bucket {
    if nows == [] then Bucket(CAPACITY, t0)
    else Consume(After(t0, nows[..|nows| - 1]), nows[|nows| - 1]).0
  }

  /** Whether message `n` is accepted. */
  function Accepted(t0: int, nows: seq<int>, n: nat): bool
    requires n < |nows|
  {
    Consume(After(t0, nows[..n]), nows[n]).1
  }

  /** How many of the messages `i`, ..., `n - 1` are accepted. */
  function Count(t0: int, nows: seq<int>, i: nat, n: nat): nat
    requires i <= n <= |nows|
  {
    if i == n then 0 else Count(t0, nows, i, n - 1) + (if Accepted(t0, nows, n - 1) then 1 else 0)
  }

  /** The running maximum of the clock at message `n`, since the connection. */
  function Clock(t0: int, nows: seq<int>, n: nat): int
    requires n < |nows|
  {
    var before := if n == 0 then t0 else Clock(t0, nows, n - 1);
    if nows[n] > before then nows[n] else before
  }

  /** What is left at message `n` of what the stretch from message `i` may use: its first 40, and 20
    * for each second the running maximum of the clock grew. */
  function Allowance(t0: int, nows: seq<int>, i: nat, n: nat): real
    requires i <= n < |nows|
  {
    CAPACITY + ((Clock(t0, nows, n) - Clock(t0, nows, i)) as real / 1000.0) * REFILL_PER_SEC
      - Count(t0, nows, i, n) as real
  }

  function TokensAt(t0: int, nows: seq<int>, n: nat): real
    requires n < |nows|
  {
    Refill(After(t0, nows[..n]), nows[n]).tokens
  }

  lemma AfterNext(t0: int, nows: seq<int>, n: nat)
    requires n < |nows|
    ensures After(t0, nows[..n + 1]) == Consume(After(t0, nows[..n]), nows[n]).0
  {
    assert nows[..n + 1][..n] == nows[..n];
  }

  lemma {:induction false} RefillClock(t0: int, nows: seq<int>, n: nat)
    requires n < |nows|
    ensures Refill(After(t0, nows[..n]), nows[n]).lastRefillMs == Clock(t0, nows, n)
    ensures TokensAt(t0, nows, n) <= CAPACITY
  {
    if n > 0 {
      AfterNext(t0, nows, n - 1);
      RefillClock(t0, nows, n - 1);
    }
  }

  /** One more message and the time that passes before the next. */
  lemma NextTokens(t0: int, nows: seq<int>, n: nat)
    requires n + 1 < |nows|
    ensures var left := TokensAt(t0, nows, n) - (if Accepted(t0, nows, n) then 1.0 else 0.0)
                      + ((Clock(t0, nows, n + 1) - Clock(t0, nows, n)) as real / 1000.0) * REFILL_PER_SEC;
      TokensAt(t0, nows, n + 1) == (if left < CAPACITY then left else CAPACITY)
  {
    AfterNext(t0, nows, n);
    RefillClock(t0, nows, n);
    RefillClock(t0, nows, n + 1);
  }

  lemma AllowanceNext(t0: int, nows: seq<int>, i: nat, n: nat)
    requires i <= n && n + 1 < |nows|
    ensures Allowance(t0, nows, i, n + 1)
         == Allowance(t0, nows, i, n) - (if Accepted(t0, nows, n) then 1.0 else 0.0)
            + ((Clock(t0, nows, n + 1) - Clock(t0, nows, n)) as real / 1000.0) * REFILL_PER_SEC
  {
  }

  /** The tokens at a message are the least allowance over all stretches that end there. */
  lemma {:induction false} TokensAreLeastAllowance(t0: int, nows: seq<int>, n: nat)
    requires n < |nows|
    ensures forall i :: 0 <= i <= n ==> TokensAt(t0, nows, n) <= Allowance(t0, nows, i, n)
    ensures exists i :: 0 <= i <= n && TokensAt(t0, nows, n) == Allowance(t0, nows, i, n)
  {
    assert Allowance(t0, nows, n, n) == CAPACITY;
    RefillClock(t0, nows, n);
    if n > 0 {
      TokensAreLeastAllowance(t0, nows, n - 1);
      NextTokens(t0, nows, n - 1);
      forall i | 0 <= i < n ensures TokensAt(t0, nows, n) <= Allowance(t0, nows, i, n) {
        AllowanceNext(t0, nows, i, n - 1);
      }
      var i :| 0 <= i <= n - 1 && TokensAt(t0, nows, n - 1) == Allowance(t0, nows, i, n - 1);
      AllowanceNext(t0, nows, i, n - 1);
    }
  }

  /** With `count` messages, the stretch from message `i` to `n` is within the rate: 40, and 20 for each
    * second the running maximum of the clock grew. */
  predicate WithinRate(t0: int, nows: seq<int>, i: nat, n: nat, count: nat)
    requires i <= n < |nows|
  {
    count as real <= CAPACITY + ((Clock(t0, nows, n) - Clock(t0, nows, i)) as real / 1000.0) * REFILL_PER_SEC
  }

  /** Message `n` still fits into the stretch that starts at message `i`. */
  predicate Fits(t0: int, nows: seq<int>, i: nat, n: nat)
    requires i <= n < |nows|
  {
    WithinRate(t0, nows, i, n, Count(t0, nows, i, n) + 1)
  }

  lemma FitsIsAllowance(t0: int, nows: seq<int>, i: nat, n: nat)
    requires i <= n < |nows|
    ensures Fits(t0, nows, i, n) <==> Allowance(t0, nows, i, n) >= 1.0
  {
  }

  lemma AcceptedByTokens(t0: int, nows: seq<int>, n: nat)
    requires n < |nows|
    ensures Accepted(t0, nows, n) <==> TokensAt(t0, nows, n) >= 1.0
  {
  }

  /** A message is accepted exactly when, counting it, every stretch of messages it ends stays within
    * the rate, however the clock steps. */
  lemma AcceptsWhateverTheRateAllows(t0: int, nows: seq<int>, n: nat)
    requires n < |nows|
    ensures Accepted(t0, nows, n) <==> forall i :: 0 <= i <= n ==> Fits(t0, nows, i, n)
  {
    AcceptedByTokens(t0, nows, n);
    TokensAreLeastAllowance(t0, nows, n);
    forall i | 0 <= i <= n ensures Fits(t0, nows, i, n) <==> Allowance(t0, nows, i, n) >= 1.0 {
      FitsIsAllowance(t0, nows, i, n);
    }
    var i :| 0 <= i <= n && TokensAt(t0, nows, n) == Allowance(t0, nows, i, n);
    assert Fits(t0, nows, i, n) <==> TokensAt(t0, nows, n) >= 1.0;
  }

  lemma WithinGrows(t0: int, nows: seq<int>, i: nat, n: nat, count: nat)
    requires i <= n && n + 1 < |nows| && WithinRate(t0, nows, i, n, count)
    ensures WithinRate(t0, nows, i, n + 1, count)
  {
  }

  /** No stretch of messages ever gets more than the rate. */
  lemma {:induction false} RateIsBounded(t0: int, nows: seq<int>, i: nat, n: nat)
    requires i <= n < |nows|
    ensures WithinRate(t0, nows, i, n, Count(t0, nows, i, n + 1))
  {
    AcceptsWhateverTheRateAllows(t0, nows, n);
    assert Accepted(t0, nows, n) ==> Fits(t0, nows, i, n);
    if i < n && !Accepted(t0, nows, n) {
      RateIsBounded(t0, nows, i, n - 1);
      WithinGrows(t0, nows, i, n - 1, Count(t0, nows, i, n));
    }
  }
}
