/** internal/core/worker.go: the exponential retry delay, in Go's signed 64-bit arithmetic. */
module Backoff {
  import opened GoText

  function Pow2(n: nat): (p: nat)
    ensures p >= 1
  {
    if n == 0 then 1 else 2 * Pow2(n - 1)
  }

  /** `RetryDelay << Attempt`: a shift of 64 or more gives zero, a shorter one wraps. */
  function Delay(retryDelay: int, attempt: nat): int {
    if attempt >= 64 then 0 else WrapInt(retryDelay * Pow2(attempt))
  }

  lemma {:induction false} Pow2Monotone(a: nat, b: nat)
    requires a <= b
    ensures Pow2(a) <= Pow2(b)
  {
    if a < b {
      Pow2Monotone(a, b - 1);
    }
  }

  lemma {:induction false} Pow2Add(a: nat, b: nat)
    ensures Pow2(a + b) == Pow2(a) * Pow2(b)
  {
    if b > 0 {
      Pow2Add(a, b - 1);
      assert Pow2(a + b) == 2 * Pow2(a + (b - 1));
    }
  }

  lemma SmallPowers()
    ensures Pow2(1) == 2 && Pow2(2) == 4 && Pow2(8) == 256
  {
  }

  lemma Powers()
    ensures Pow2(34) == 0x4_0000_0000 && Pow2(63) == 0x8000_0000_0000_0000 && Pow2(64) == 0x1_0000_0000_0000_0000
  {
    hide Pow2;
    SmallPowers();
    Pow2Add(8, 8);
    Pow2Add(16, 16);
    Pow2Add(32, 32);
    Pow2Add(32, 2);
    Pow2Add(63, 1);
  }

  lemma Scale(d: int, p: int, q: int)
    requires d > 0 && p <= q
    ensures d * p <= d * q
  {
  }

  /** The delay is the intended retryDelay * 2^attempt exactly when that product fits in 64 bits. */
  lemma ExactWhenItFits(retryDelay: int, attempt: nat)
    requires retryDelay > 0
    ensures Delay(retryDelay, attempt) == retryDelay * Pow2(attempt) <==> retryDelay * Pow2(attempt) <= MAX_INT
  {
    hide Pow2;
    Scale(retryDelay, 1, Pow2(attempt));
    if attempt >= 64 {
      Powers();
      Pow2Monotone(64, attempt);
      Scale(Pow2(attempt), 1, retryDelay);
    }
  }

  /** What k retries wait in total. */
  function Total(retryDelay: int, k: nat): int {
    if k == 0 then 0 else Total(retryDelay, k - 1) + Delay(retryDelay, k - 1)
  }

  lemma AllFit(retryDelay: int, k: nat, i: nat)
    requires retryDelay > 0 && i < k && retryDelay * Pow2(k - 1) <= MAX_INT
    ensures Delay(retryDelay, i) == retryDelay * Pow2(i) && retryDelay * Pow2(i) <= MAX_INT
  {
    hide Pow2, Delay;
    Pow2Monotone(i, k - 1);
    Scale(retryDelay, Pow2(i), Pow2(k - 1));
    ExactWhenItFits(retryDelay, i);
  }

  lemma TwiceAsLong(retryDelay: int, i: nat)
    ensures retryDelay * Pow2(i + 1) == 2 * (retryDelay * Pow2(i))
  {
  }

  /** While the last delay fits, each delay doubles the one before, and k retries wait
      retryDelay * (2^k - 1) in total. */
  lemma {:induction false} DelaysDouble(retryDelay: int, k: nat)
    requires retryDelay > 0 && (k > 0 ==> retryDelay * Pow2(k - 1) <= MAX_INT)
    ensures forall i :: 0 <= i < k - 1 ==> Delay(retryDelay, i + 1) == 2 * Delay(retryDelay, i)
    ensures Total(retryDelay, k) == retryDelay * Pow2(k) - retryDelay
  {
    hide Delay;
    if k == 0 {
      assert Pow2(0) == 1;
    } else {
      hide Pow2;
      forall i | 0 <= i < k - 1 ensures Delay(retryDelay, i + 1) == 2 * Delay(retryDelay, i) {
        AllFit(retryDelay, k, i);
        AllFit(retryDelay, k, i + 1);
        TwiceAsLong(retryDelay, i);
      }
      AllFit(retryDelay, k, k - 1);
      if k > 1 {
        AllFit(retryDelay, k, k - 2);
      }
      DelaysDouble(retryDelay, k - 1);
      TwiceAsLong(retryDelay, k - 1);
    }
  }

  /** All the delays of maxRetries retries are as intended exactly when the last one fits. */
  lemma AllDelaysFit(retryDelay: int, maxRetries: nat)
    requires retryDelay > 0 && maxRetries > 0
    ensures (forall i :: 0 <= i < maxRetries ==> Delay(retryDelay, i) == retryDelay * Pow2(i)) <==>
            retryDelay * Pow2(maxRetries - 1) <= MAX_INT
  {
    hide Delay, Pow2;
    ExactWhenItFits(retryDelay, maxRetries - 1);
    if retryDelay * Pow2(maxRetries - 1) <= MAX_INT {
      forall i | 0 <= i < maxRetries ensures Delay(retryDelay, i) == retryDelay * Pow2(i) {
        AllFit(retryDelay, maxRetries, i);
      }
    }
  }

  /** The limit of 100 retries does not keep delays in range: one second at attempt 34 wraps to a negative
      delay, and from attempt 64 on there is no delay at all. */
  lemma OneSecondWraps()
    ensures Delay(1_000_000_000, 34) < 0 && Delay(1_000_000_000, 64) == 0
  {
    hide Pow2;
    Powers();
  }
}
