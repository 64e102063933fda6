/** The retry intervals (internal/retry/retry.go), in int64 nanoseconds. */
module Intervals {

  const TWO_63: int := 0x8000_0000_0000_0000
  const TWO_64: int := 0x1_0000_0000_0000_0000
  const SECOND := 1_000_000_000

  /** int64 arithmetic: the value modulo 2^64 in two's complement. */
  function Wrap(x: int): (r: int)
    ensures -TWO_63 <= r < TWO_63
    ensures -TWO_63 <= x < TWO_63 <==> r == x
  {
    (x + TWO_63) % TWO_64 - TWO_63
  }

  function Fib(n: nat): nat {
    if n < 2 then n else Fib(n - 1) + Fib(n - 2)
  }

  function Pow2(n: nat): nat {
    if n == 0 then 1 else 2 * Pow2(n - 1)
  }

  function FibonacciInterval(base: int, attempt: nat): int {
    Wrap(Fib(attempt) * base)
  }

  lemma WrapShift(x: int, k: int)
    ensures Wrap(x + k * TWO_64) == Wrap(x)
  {
    ModShift(x + TWO_63, k);
    assert x + k * TWO_64 + TWO_63 == x + TWO_63 + k * TWO_64;
  }

  lemma ModShift(y: int, k: int)
    ensures (y + k * TWO_64) % TWO_64 == y % TWO_64
  {
    var q, q' := y / TWO_64, (y + k * TWO_64) / TWO_64;
    assert y == q * TWO_64 + y % TWO_64;
    assert y + k * TWO_64 == q' * TWO_64 + (y + k * TWO_64) % TWO_64;
    assert (y + k * TWO_64) % TWO_64 - y % TWO_64 == (q + k - q') * TWO_64;
  }

  lemma Unwrap(x: int) returns (k: int)
    ensures Wrap(x) == x + k * TWO_64
  {
    k := -((x + TWO_63) / TWO_64);
  }

  lemma WrapSum(x: int, y: int)
    ensures Wrap(Wrap(x) + Wrap(y)) == Wrap(x + y)
  {
    var k := Unwrap(x);
    var l := Unwrap(y);
    WrapShift(x + y, k + l);
    assert Wrap(x) + Wrap(y) == x + y + (k + l) * TWO_64;
  }

  lemma WrapProduct(x: int, y: int)
    ensures Wrap(Wrap(x) * y) == Wrap(x * y)
  {
    var k := Unwrap(x);
    WrapShift(x * y, k * y);
    assert (x + k * TWO_64) * y == x * y + (k * y) * TWO_64;
  }

  /** IntervalFibonacci: the table of int64 sums, which wrap around. */
  method IntervalFibonacci(base: int, attempt: nat) returns (d: int)
    ensures d == FibonacciInterval(base, attempt)
  {
    hide Wrap, Fib;
    var fib := new int[if attempt <= 1 then 2 else attempt + 1];
    fib[0], fib[1] := 0, 1;
    FirstTwo();
    var i := 2;
    while i <= attempt
      invariant 2 <= i <= fib.Length
      invariant forall j :: 0 <= j < i && j < fib.Length ==> fib[j] == Wrap(Fib(j))
    {
      FibNext(i);
      WrapSum(Fib(i - 1), Fib(i - 2));
      fib[i] := Wrap(fib[i - 1] + fib[i - 2]);
      i := i + 1;
    }
    WrapProduct(Fib(attempt), base);
    return Wrap(fib[attempt] * base);
  }

  lemma FirstTwo()
    ensures Wrap(Fib(0)) == 0 && Wrap(Fib(1)) == 1
  {
  }

  lemma FibNext(n: nat)
    requires n >= 2
    ensures Fib(n) == Fib(n - 1) + Fib(n - 2)
  {
  }

  /**
   What the conversion of the float 2^attempt to an int64 may yield: the power as long as it fits;
   beyond that Go leaves the result open.
   */
  predicate Converts(attempt: nat, converted: int) {
    -TWO_63 <= converted < TWO_63 && (attempt < 63 ==> converted == Pow2(attempt))
  }

  /** IntervalExponential with the converted power. */
  function ExponentialInterval(base: int, attempt: nat, converted: int): int {
    if attempt == 0 then 0 else Wrap(converted * base)
  }

  lemma {:induction false} FibMonotone(m: nat, n: nat)
    requires 1 <= m <= n
    ensures 1 <= Fib(m) <= Fib(n)
    decreases n
  {
    if m < n {
      FibMonotone(m, n - 1);
      if n > 2 { FibMonotone(1, n - 2); }
    } else if n > 2 {
      FibMonotone(n - 1, n - 1);
    }
  }

  lemma {:induction false} Pow2Monotone(m: nat, n: nat)
    requires m <= n
    ensures 1 <= Pow2(m) <= Pow2(n)
  {
    if m < n {
      Pow2Monotone(m, n - 1);
    } else if n > 0 {
      Pow2Monotone(n - 1, n - 1);
    }
  }

  lemma FibAdd10(n: nat)
    ensures Fib(n + 10) == 55 * Fib(n + 1) + 34 * Fib(n)
    ensures Fib(n + 11) == 89 * Fib(n + 1) + 55 * Fib(n)
  {
    hide Fib;
    FibNext(n + 2);
    FibNext(n + 3);
    FibNext(n + 4);
    FibNext(n + 5);
    FibNext(n + 6);
    FibNext(n + 7);
    FibNext(n + 8);
    FibNext(n + 9);
    FibNext(n + 10);
    FibNext(n + 11);
  }

  lemma FibAround49()
    ensures Fib(0) == 0 && Fib(49) == 7778742049 && Fib(50) == 12586269025
  {
    assert Fib(0) == 0 && Fib(1) == 1;
    hide Fib;
    FibAdd10(0);
    FibAdd10(10);
    FibAdd10(20);
    FibAdd10(30);
    FibAdd10(40);
    FibNext(51);
  }

  lemma Pow2Add8(n: nat)
    ensures Pow2(n + 8) == 256 * Pow2(n) && Pow2(0) == 1 && Pow2(n + 9) == 512 * Pow2(n)
  {
    assert Pow2(n + 4) == 2 * Pow2(n + 3) == 4 * Pow2(n + 2) == 8 * Pow2(n + 1) == 16 * Pow2(n);
    assert Pow2(n + 8) == 2 * Pow2(n + 7) == 4 * Pow2(n + 6) == 8 * Pow2(n + 5) == 16 * Pow2(n + 4);
  }

  /** With a base of one second the interval is the Fibonacci number exactly up to attempt 49. */
  lemma {:induction false} FibonacciExactIff(attempt: nat)
    ensures FibonacciInterval(SECOND, attempt) == Fib(attempt) * SECOND <==> attempt <= 49
  {
    hide Fib;
    FibAround49();
    if 1 <= attempt <= 49 {
      FibMonotone(attempt, 49);
    } else if attempt >= 50 {
      FibMonotone(50, attempt);
    }
  }

  /**
   With a base of two seconds the interval is the power of two exactly up to attempt 32, whatever
   later powers convert to; there is no wait for attempt 0.
   */
  lemma ExponentialExactIff(attempt: nat, converted: int)
    requires Converts(attempt, converted)
    ensures (ExponentialInterval(2 * SECOND, attempt, converted) ==
             if attempt == 0 then 0 else Pow2(attempt) * (2 * SECOND)) <==> attempt <= 32
  {
    Pow2Add8(0);
    Pow2Add8(8);
    Pow2Add8(16);
    Pow2Add8(24);
    if attempt <= 32 { Pow2Monotone(attempt, 32); } else { Pow2Monotone(33, attempt); }
  }
}
