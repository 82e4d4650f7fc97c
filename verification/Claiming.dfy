/** Claim tokens and retry delays shared by the job queue and the outbox relay. */
module Claiming {

  type Token = nat

  const MAX_BACKOFF_SECONDS := 3600

  function Pow2(n: nat): nat {
    if n == 0 then 1 else 2 * Pow2(n - 1)
  }

  function Backoff(attempts: int): nat {
    if attempts < 1 then 0
    else if 2 * Pow2(attempts - 1) < MAX_BACKOFF_SECONDS then 2 * Pow2(attempts - 1)
    else MAX_BACKOFF_SECONDS
  }

  lemma {:induction false} BackoffBounds(a: int, b: int)
    requires a <= b
    ensures Backoff(a) <= Backoff(b) <= MAX_BACKOFF_SECONDS
    ensures Backoff(b) == MAX_BACKOFF_SECONDS <==> b >= 12
  {
    if a >= 1 {
      Pow2Monotone(a - 1, b - 1);
    }
    assert Pow2(11) == 2048 && Pow2(10) == 1024;
    if b >= 12 {
      Pow2Monotone(11, b - 1);
    } else if b >= 1 {
      Pow2Monotone(b - 1, 10);
    }
  }

  /** No delay before the first failure, two seconds after it, then doubling until the cap. */
  lemma BackoffDoubles(n: int)
    ensures n < 1 ==> Backoff(n) == 0
    ensures Backoff(1) == 2
    ensures 1 <= n < 11 ==> Backoff(n + 1) == 2 * Backoff(n)
    ensures n >= 12 ==> Backoff(n) == 3600
  {
    BackoffBounds(n, n);
    assert Pow2(10) == 1024;
    if 1 <= n < 11 {
      Pow2Monotone(n, 10);
    }
  }

  lemma {:induction false} Pow2Monotone(m: nat, n: nat)
    requires m <= n
    ensures Pow2(m) <= Pow2(n)
  {
    if m < n {
      Pow2Monotone(m, n - 1);
    }
  }
}
