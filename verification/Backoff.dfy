/** The retry delay in Go's 64-bit arithmetic. */
module Backoff {

  const SECOND: int := 1_000_000_000
  const TWO64: int := 0x1_0000_0000_0000_0000
  const TWO63: int := 0x8000_0000_0000_0000

  function Pow2(n: nat): (r: nat)
    ensures r >= 1
  {
    if n == 0 then 1 else 2 * Pow2(n - 1)
  }

  /** Two's-complement wrap-around of int64. */
  function Wrap(x: int): int {
    var m := x % TWO64;
    if m < TWO63 then m else m - TWO64
  }

  /** 1 << n at type time.Duration: bits shifted past the word are lost. */
  function ShiftOne(n: nat): int {
    if n < 64 then Wrap(Pow2(n)) else 0
  }

  /** baseDelay * time.Duration(1 << (attempts - 1)), in nanoseconds. */
  function Delay(attempts: int): int
    requires attempts >= 1
  {
    Wrap(SECOND * ShiftOne(attempts - 1))
  }

  lemma {:induction false} Pow2Adds(m: nat, n: nat)
    ensures Pow2(m + n) == Pow2(m) * Pow2(n)
  {
    if m != 0 {
      Pow2Adds(m - 1, n);
    }
  }

  lemma {:induction false} Pow2Monotone(m: nat, n: nat)
    requires m <= n
    ensures Pow2(m) <= Pow2(n)
  {
    if m < n {
      Pow2Monotone(m, n - 1);
    }
  }

  lemma Pow2Values()
    ensures Pow2(9) == 512 && Pow2(33) == 8_589_934_592 && Pow2(34) == 17_179_869_184
    ensures Pow2(63) == TWO63 && Pow2(64) == TWO64
  {
    assert Pow2(4) == 16 && Pow2(8) == 256;
    Pow2Adds(8, 8);
    assert Pow2(16) == 65_536;
    Pow2Adds(16, 16);
    assert Pow2(32) == 4_294_967_296;
    Pow2Adds(32, 32);
    assert Pow2(64) == 2 * Pow2(63);
  }

  lemma WrapKeeps(x: int)
    ensures Wrap(x) == x <==> -TWO63 <= x < TWO63
    ensures Wrap(x) == 0 <==> x % TWO64 == 0
  {
  }

  /** The delay is the documented second times 2^(attempts-1) exactly up to 34 attempts. */
  lemma DelayIsExactIff(attempts: int)
    requires attempts >= 1
    ensures Delay(attempts) == SECOND * Pow2(attempts - 1) <==> attempts <= 34
  {
    var n := attempts - 1;
    Pow2Values();
    if n <= 33 {
      Pow2Monotone(n, 33);
      WrapKeeps(Pow2(n));
      WrapKeeps(SECOND * Pow2(n));
    } else {
      Pow2Monotone(34, n);
      assert SECOND * Pow2(n) >= SECOND * Pow2(34) > TWO63;
    }
  }

  /** Up to there each retry waits twice as long as the one before. */
  lemma DelayDoubles(attempts: int)
    requires 1 <= attempts <= 33
    ensures Delay(attempts + 1) == 2 * Delay(attempts) > Delay(attempts)
  {
    DelayIsExactIff(attempts);
    DelayIsExactIff(attempts + 1);
  }

  lemma CancelFactor(a: int, b: int, c: int)
    requires c > 0 && a * c == b * c
    ensures a == b
  {
    assert (a - b) * c == 0;
  }

  lemma Associates(a: int, b: int, c: int)
    ensures a * (b * c) == (a * b) * c
  {
  }

  lemma WholeWords(a: int, b: int)
    requires 512 * b == TWO64
    ensures (SECOND * (a * b)) % TWO64 == 0
  {
    Associates(512, a, b);
    Associates(a, 512, b);
    assert SECOND * (a * b) == (1_953_125 * a) * TWO64;
  }

  /** 5^9 is odd, so it is no multiple of a larger power of two. */
  lemma NoWholeWords(k: int, h: int, c: int)
    requires c > 0 && 2 * (h * c) == TWO64
    ensures 1_953_125 * c != k * TWO64
  {
    if 1_953_125 * c == k * TWO64 {
      Associates(k, 2, h * c);
      Associates(k, h, c);
      Associates(2, k * h, c);
      CancelFactor(1_953_125, 2 * (k * h), c);
    }
  }

  /** 10^9 * 2^n is a multiple of 2^64 exactly when n >= 55. */
  lemma FactorOfTwo64(n: nat)
    ensures (SECOND * Pow2(n)) % TWO64 == 0 <==> n >= 55
  {
    Pow2Values();
    if n >= 55 {
      Pow2Adds(9, 55);
      Pow2Adds(n - 55, 55);
      WholeWords(Pow2(n - 55), Pow2(55));
    } else {
      Pow2Adds(9, n);
      Pow2Adds(54 - n, 9 + n);
      assert Pow2(63) == Pow2(54 - n) * Pow2(9 + n);
      NoWholeWords((SECOND * Pow2(n)) / TWO64, Pow2(54 - n), Pow2(9 + n));
    }
  }

  /** From the 56th attempt on, within the accepted max_attempts of 100, there is no delay. */
  lemma DelayVanishesIff(attempts: int)
    requires attempts >= 1
    ensures Delay(attempts) == 0 <==> attempts >= 56
  {
    var n := attempts - 1;
    Pow2Values();
    if n < 63 {
      Pow2Monotone(n, 62);
      assert Pow2(63) == 2 * Pow2(62);
      WrapKeeps(Pow2(n));
      WrapKeeps(SECOND * Pow2(n));
      FactorOfTwo64(n);
    } else if n == 63 {
      assert ShiftOne(63) == -TWO63;
      assert SECOND * -TWO63 == -500_000_000 * TWO64;
    }
  }

  /** The 35th failure schedules the retry in the past. */
  lemma DelayTurnsNegative()
    ensures Delay(35) < 0
  {
    Pow2Values();
    WrapKeeps(Pow2(34));
    assert SECOND * Pow2(34) - TWO64 == Wrap(SECOND * Pow2(34));
  }
}
