/** The retry delays of the webhook inbox and of inbound payment recovery: doubling from a first delay up to a cap. */
module Backoff {

  function Pow2(n: nat): (r: nat)
    ensures r >= 1
  {
    if n == 0 then 1 else 2 * Pow2(n - 1)
  }

  function Delay(first: nat, cap: nat, attempt: int): nat {
    var doubled := first * Pow2(if attempt > 1 then attempt - 1 else 0);
    if doubled < cap then doubled else cap
  }

  /** paystack-transfer-webhook.ts: retryDelayMs. */
  function RetryDelay(attempt: int): nat {
    Delay(30_000, 900_000, attempt)
  }

  /** inbound-payment-recovery.ts: inboundRecoveryDelayMs. */
  function InboundRecoveryDelay(attempt: int): nat {
    Delay(60_000, 21_600_000, attempt)
  }

  lemma {:induction false} Pow2Monotone(m: nat, n: nat)
    requires m <= n
    ensures Pow2(m) <= Pow2(n)
  {
    if m < n { Pow2Monotone(m, n - 1); }
  }

  /** A later attempt never waits less. */
  lemma DelayGrows(first: nat, cap: nat, a: int, b: int)
    requires a <= b
    ensures Delay(first, cap, a) <= Delay(first, cap, b) <= cap
  {
    var m, n := if a > 1 then a - 1 else 0, if b > 1 then b - 1 else 0;
    Pow2Monotone(m, n);
    ProductMonotone(first, Pow2(m), Pow2(n));
  }

  lemma ProductMonotone(a: nat, b: nat, c: nat)
    requires b <= c
    ensures a * b <= a * c
  {
  }

  /** The first wait is the shortest and each wait doubles the previous one until the cap. */
  lemma DelayDoubles(first: nat, cap: nat, a: nat)
    requires a >= 1
    ensures Delay(first, cap, a + 1) == if 2 * Delay(first, cap, a) < cap then 2 * Delay(first, cap, a) else cap
  {
    var p := Pow2(a - 1);
    assert Pow2(a) == 2 * p;
    assert first * (2 * p) == 2 * (first * p);
  }

  /** The webhook wait reaches its fifteen minutes with the sixth attempt, not before; the inbound wait its six
      hours with the tenth. */
  lemma CapReached(attempt: int)
    ensures RetryDelay(attempt) == 900_000 <==> attempt >= 6
    ensures InboundRecoveryDelay(attempt) == 21_600_000 <==> attempt >= 10
  {
    assert Pow2(5) == 32 && Pow2(4) == 16;
    assert Pow2(9) == 512 && Pow2(8) == 256 by { assert Pow2(6) == 64 && Pow2(7) == 128; }
    if attempt >= 6 { Pow2Monotone(5, attempt - 1); } else if attempt > 1 { Pow2Monotone(attempt - 1, 4); }
    if attempt >= 10 { Pow2Monotone(9, attempt - 1); } else if attempt > 1 { Pow2Monotone(attempt - 1, 8); }
  }

  /** The waits attempt by attempt, in seconds: half a minute doubling to fifteen minutes for the inbox, one minute
      doubling to six hours for payments. */
  lemma FirstWaits(attempt: int)
    requires attempt <= 9
    ensures RetryDelay(attempt) == 1000 * if attempt <= 1 then 30 else [60, 120, 240, 480, 900, 900, 900, 900][attempt - 2]
    ensures InboundRecoveryDelay(attempt) == 60_000 * if attempt <= 1 then 1 else [2, 4, 8, 16, 32, 64, 128, 256][attempt - 2]
  {
    assert Pow2(1) == 2 && Pow2(2) == 4 && Pow2(3) == 8 && Pow2(4) == 16;
    assert Pow2(5) == 32 && Pow2(6) == 64 && Pow2(7) == 128 && Pow2(8) == 256;
  }
}
