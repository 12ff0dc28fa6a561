/** The retry delay of the outbox worker, in 64-bit nanoseconds. */
module BackoffDelay {
  import opened Domain

  const MINUTE := 60 * SECOND

  function Pow2(k: nat): (r: nat)
    ensures r >= 1
  {
    if k == 0 then 1 else 2 * Pow2(k - 1)
  }

  /** One second shifted left by `attempt - 1`, with the bits above 64 lost, capped at a minute from above. */
  function Backoff(attempt: int): (r: int) {
    if attempt <= 1 then SECOND else
    var d := Wrap64(SECOND * Pow2(attempt - 1));
    if d > MINUTE then MINUTE else d
  }

  lemma {:induction false} Pow2Grows(j: nat, k: nat)
    requires j <= k
    ensures Pow2(j) <= Pow2(k)
  {
    if j < k {
      Pow2Grows(j, k - 1);
    }
  }

  lemma Pow2Adds(j: nat, k: nat)
    ensures Pow2(j + k) == Pow2(j) * Pow2(k)
  {
    if k > 0 {
      Pow2Adds(j, k - 1);
      assert j + k - 1 == j + (k - 1);
    }
  }

  lemma Pow2Values()
    ensures Pow2(6) == 64 && Pow2(33) == 8_589_934_592 && Pow2(34) == 17_179_869_184
  {
    assert Pow2(3) == 8;
    Pow2Adds(3, 3);
    Pow2Adds(6, 6);
    Pow2Adds(12, 12);
    Pow2Adds(24, 6);
    Pow2Adds(30, 3);
  }

  /** Up to the 34th attempt the delay doubles from a second to a minute. */
  lemma BackoffDoubles(attempt: int)
    requires 1 <= attempt <= 34
    ensures Backoff(attempt) == if Pow2(attempt - 1) <= 60 then SECOND * Pow2(attempt - 1) else MINUTE
    ensures SECOND <= Backoff(attempt) <= MINUTE
  {
    hide Pow2, Wrap64;
    Pow2Values();
    Pow2Grows(attempt - 1, 33);
    OneSecond();
    NoWrap(SECOND * Pow2(attempt - 1));
  }

  lemma OneSecond()
    ensures Pow2(0) == 1
  {
  }

  lemma NoWrap(x: nat)
    requires x <= MAX_INT64
    ensures Wrap64(x) == x
  {
  }

  lemma BackoffMonotone(a: int, b: int)
    requires 1 <= a <= b <= 34
    ensures Backoff(a) <= Backoff(b)
  {
    BackoffDoubles(a);
    BackoffDoubles(b);
    Pow2Grows(a - 1, b - 1);
  }

  /** The 35th attempt is the first whose delay wraps around, and it is negative. */
  lemma BackoffWraps()
    ensures Backoff(35) < 0
  {
    Pow2Values();
  }

  /** Every retry of a delivery lies one second to one minute ahead exactly when at most 35 attempts are allowed. */
  lemma RetriesAhead(maxAttempts: int)
    ensures (forall a :: 1 <= a < maxAttempts ==> SECOND <= Backoff(a) <= MINUTE) <==> maxAttempts <= 35
  {
    if maxAttempts <= 35 {
      forall a | 1 <= a < maxAttempts ensures SECOND <= Backoff(a) <= MINUTE {
        BackoffDoubles(a);
      }
    } else {
      BackoffWraps();
    }
  }

  lemma Pow2Of55()
    ensures Pow2(55) == 36_028_797_018_963_968
  {
    Pow2Values();
    Pow2Adds(34, 20);
    Pow2Adds(14, 6);
    Pow2Adds(7, 7);
    Pow2Adds(6, 1);
    Pow2Adds(54, 1);
  }

  lemma ShiftedOut(k: nat)
    requires k >= 55
    ensures SECOND * Pow2(k) == 1_953_125 * Pow2(k - 55) * TWO_64
  {
    Pow2Of55();
    hide Pow2;
    Pow2Adds(55, k - 55);
    var p := Pow2(k - 55);
    assert Pow2(k) == 36_028_797_018_963_968 * p;
  }

  /** From the 56th attempt on nothing of the second is left: retries are immediate. */
  lemma BackoffVanishes(attempt: int)
    requires attempt >= 56
    ensures Backoff(attempt) == 0
  {
    ShiftedOut(attempt - 1);
    ModShift(0, -1_953_125 * Pow2(attempt - 56));
  }
}
