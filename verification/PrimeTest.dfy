/**
  The primality test of primetest.cpp and the next-prime search of getrands.h.

  `witness` is shown to decide exactly the strong probable-prime property of number
  theory; that a prime always has it is Fermat's little theorem and the fact that 1 has
  only two square roots modulo a prime.
*/
module PrimeTest {
  import opened NumberTheory

  const INT_LIMIT: int := 0x8000_0000
  const INT64_LIMIT: int := 0x8000_0000_0000_0000
  const TRIAL_DIVISION_LIMIT: int := 1373653

  /** Square-and-multiply. The products stay inside 64 bits for 32-bit arguments. */
  method Power(a: int, n: int, mod: int) returns (result: int)
    requires a >= 0 && n >= 0 && mod >= 1
    ensures n > 0 ==> result == Pow(a, n) % mod
    ensures n == 0 ==> result == 1
  {
    var power := a;
    var k := n;
    result := 1;
    while k != 0
      invariant 0 <= k <= n
      invariant InRange(result, power, a, mod)
      invariant k == n ==> result == 1
      invariant k == 0 && n > 0 ==> result < mod
      invariant Completes(result, power, k, Pow(a, n), mod)
      decreases k
    {
      ProductFits(result, power, a, mod);
      SquareAndMultiply(result, power, k, Pow(a, n), mod);
      if k % 2 == 1 {
        result := (result * power) % mod;
      }
      power := (power * power) % mod;
      k := k / 2;
    }
    Finished(result, power, Pow(a, n), mod);
  }

  ghost predicate InRange(result: int, power: int, a: int, mod: int) {
    && 0 <= power && (power == a || power < mod)
    && 0 <= result && (result == 1 || result < mod)
  }

  /** What is left to multiply in, times what has been, is the power asked for. */
  ghost predicate Completes(result: int, power: int, k: nat, goal: int, mod: int)
    requires mod >= 1
  {
    (result * Pow(power, k)) % mod == goal % mod
  }

  lemma Finished(result: int, power: int, goal: int, mod: int)
    requires mod >= 1 && 0 <= result && Completes(result, power, 0, goal, mod)
    ensures result < mod ==> result == goal % mod
  {
    assert Pow(power, 0) == 1;
    if result < mod { SmallMod(result, mod); }
  }

  /** No product formed by Power overflows a signed 64-bit integer. */
  lemma ProductFits(result: int, power: int, a: int, mod: int)
    requires InRange(result, power, a, mod)
    ensures 0 <= a < INT_LIMIT && 0 < mod < INT_LIMIT ==>
              0 <= result * power < INT64_LIMIT && 0 <= power * power < INT64_LIMIT
  {
    if 0 <= a < INT_LIMIT && 0 < mod < INT_LIMIT {
      ProductBelow(result, power);
      ProductBelow(power, power);
    }
  }

  lemma ProductBelow(x: int, y: int)
    requires 0 <= x < INT_LIMIT && 0 <= y < INT_LIMIT
    ensures 0 <= x * y < INT64_LIMIT
  {
    ProductMonotone(0, x, y);
    ProductMonotone(x, INT_LIMIT - 1, y);
  }

  lemma SquareAndMultiply(result: int, power: int, k: nat, goal: int, mod: int)
    requires k > 0 && mod >= 1 && Completes(result, power, k, goal, mod)
    ensures k % 2 == 1 ==> Completes((result * power) % mod, (power * power) % mod, k / 2, goal, mod)
    ensures k % 2 == 0 ==> Completes(result, (power * power) % mod, k / 2, goal, mod)
  {
    var h := k / 2;
    PowMod(power * power, h, mod);
    PowSquare(power, h);
    var x := Pow((power * power) % mod, h);
    var y := Pow(power, 2 * h);
    if k % 2 == 1 {
      assert k == 2 * h + 1;
      ModMulCongruent(result * power, x, y, mod);
      Regroup(result, power, y);
    } else {
      ModMulCongruent(result, x, y, mod);
      ModMul(result, x, mod);
    }
  }

  // ---------- the strong probable-prime property ----------

  /** m with its factors of two removed, and how many there were. */
  function OddPart(m: int): (r: int)
    requires m > 0
    ensures r > 0 && r % 2 == 1
  {
    if m % 2 == 0 then OddPart(m / 2) else m
  }

  function Twos(m: int): nat
    requires m > 0
  {
    if m % 2 == 0 then 1 + Twos(m / 2) else 0
  }

  /** The k-th term of the chain a^u, a^2u, a^4u, ... modulo n, where n - 1 = u * 2^t with u odd. */
  function Chain(a: int, n: int, k: nat): int
    requires n >= 3
  {
    Pow(a, OddPart(n - 1) * Pow(2, k)) % n
  }

  ghost predicate StrongProbablePrime(a: int, n: int)
    requires n >= 3
  {
    Chain(a, n, 0) == 1 || exists k: nat :: k < Twos(n - 1) && Chain(a, n, k) == n - 1
  }

  lemma {:induction false} OddTimesTwos(m: int)
    requires m > 0
    ensures m == OddPart(m) * Pow(2, Twos(m))
  {
    if m % 2 == 0 {
      OddTimesTwos(m / 2);
      Regroup(OddPart(m / 2), 2, Pow(2, Twos(m / 2)));
    }
  }

  /** Each term of the chain is the square of the one before. */
  lemma ChainSquares(a: int, n: int, k: nat)
    requires n >= 3
    ensures Chain(a, n, k + 1) == (Chain(a, n, k) * Chain(a, n, k)) % n
    ensures 0 <= Chain(a, n, k) < n
  {
    var e := OddPart(n - 1) * Pow(2, k);
    Regroup(OddPart(n - 1), 2, Pow(2, k));
    assert OddPart(n - 1) * Pow(2, k + 1) == e + e;
    PowAdd(a, e, e);
    ModMulBoth(Pow(a, e), Pow(a, e), n);
  }

  /** The last term of the chain is a^(n-1). */
  lemma ChainEnd(a: int, n: int)
    requires n >= 3
    ensures Chain(a, n, Twos(n - 1)) == Pow(a, n - 1) % n
  {
    OddTimesTwos(n - 1);
  }

  lemma {:induction false} OnesStay(a: int, n: int, j: nat, k: nat)
    requires n >= 3 && j <= k && Chain(a, n, j) == 1
    ensures Chain(a, n, k) == 1
    decreases k
  {
    if j < k {
      OnesStay(a, n, j, k - 1);
      ChainSquares(a, n, k - 1);
      SmallMod(1, n);
    }
  }

  lemma MinusOneSquares(a: int, n: int, k: nat)
    requires n >= 3 && Chain(a, n, k) == n - 1
    ensures Chain(a, n, k + 1) == 1
  {
    ChainSquares(a, n, k);
    assert (n - 1) * (n - 1) == (n - 2) * n + 1;
    ModUnique((n - 1) * (n - 1), n, n - 2, 1);
  }

  /** A step of the chain that reaches 1 from something other than 1 and -1. */
  ghost predicate BadRoot(a: int, n: int, k: nat)
    requires n >= 3
  {
    Chain(a, n, k + 1) == 1 && Chain(a, n, k) != 1 && Chain(a, n, k) != n - 1
  }

  lemma StrongHasNoBadRoot(a: int, n: int, j: nat)
    requires n >= 3 && StrongProbablePrime(a, n) && j < Twos(n - 1)
    ensures !BadRoot(a, n, j) && Chain(a, n, Twos(n - 1)) == 1
  {
    if Chain(a, n, 0) == 1 {
      OnesStay(a, n, 0, j);
      OnesStay(a, n, 0, Twos(n - 1));
    } else {
      var k: nat :| k < Twos(n - 1) && Chain(a, n, k) == n - 1;
      MinusOneSquares(a, n, k);
      OnesStay(a, n, k + 1, Twos(n - 1));
      if j > k { OnesStay(a, n, k + 1, j); }
      if j < k && Chain(a, n, j + 1) == 1 { OnesStay(a, n, j + 1, k); }
    }
  }

  lemma {:induction false} NoBadRootIsStrong(a: int, n: int, j: nat)
    requires n >= 3 && j <= Twos(n - 1) && Chain(a, n, j) == 1
    requires forall k: nat :: k < j ==> !BadRoot(a, n, k)
    ensures StrongProbablePrime(a, n)
  {
    if j > 0 && Chain(a, n, j - 1) != n - 1 {
      assert !BadRoot(a, n, j - 1);
      NoBadRootIsStrong(a, n, j - 1);
    }
  }

  /** A prime is a strong probable prime to every base it does not divide. */
  lemma PrimeIsStrong(a: nat, n: int)
    requires IsPrime(n) && n >= 3 && a % n != 0
    ensures StrongProbablePrime(a, n)
  {
    Fermat(n, a);
    ChainEnd(a, n);
    forall k: nat | k < Twos(n - 1) ensures !BadRoot(a, n, k) {
      ChainSquares(a, n, k);
      if Chain(a, n, k + 1) == 1 { RootsOfOne(n, Chain(a, n, k)); }
    }
    NoBadRootIsStrong(a, n, Twos(n - 1));
  }

  lemma {:induction false} OddPartOf(u: int, t: nat)
    requires u > 0 && u % 2 == 1
    ensures u * Pow(2, t) > 0 && OddPart(u * Pow(2, t)) == u && Twos(u * Pow(2, t)) == t
  {
    if t > 0 {
      OddPartOf(u, t - 1);
      Regroup(u, 2, Pow(2, t - 1));
      assert u * Pow(2, t) == 2 * (u * Pow(2, t - 1));
    }
  }

  /** The property in the terms of number theory, for the one way to take the twos out of n - 1. */
  lemma StrongMeans(a: int, n: int, u: int, t: nat)
    requires n >= 3 && u > 0 && u % 2 == 1 && n - 1 == u * Pow(2, t)
    ensures StrongProbablePrime(a, n) <==>
              Pow(a, u) % n == 1 || exists k: nat :: k < t && Pow(a, u * Pow(2, k)) % n == n - 1
  {
    OddPartOf(u, t);
    ChainMeans(a, n, u, 0);
    assert Pow(2, 0) == 1;
    if k: nat :| k < t && Chain(a, n, k) == n - 1 { ChainMeans(a, n, u, k); }
    if k: nat :| k < t && Pow(a, u * Pow(2, k)) % n == n - 1 { ChainMeans(a, n, u, k); }
  }

  lemma ChainMeans(a: int, n: int, u: int, k: nat)
    requires n >= 3 && OddPart(n - 1) == u
    ensures u * Pow(2, k) >= 0 && Chain(a, n, k) == Pow(a, u * Pow(2, k)) % n
  {}

  // ---------- witness ----------

  /** True exactly when n is not a strong probable prime to base a. */
  method Witness(a: int, n: int) returns (composite: bool)
    requires a >= 0 && n >= 3 && n % 2 == 1
    ensures composite <==> !StrongProbablePrime(a, n)
    ensures composite && 0 < a < n ==> !IsPrime(n)
  {
    if 0 < a < n && IsPrime(n) {
      SmallMod(a, n);
      PrimeIsStrong(a, n);
    }
    var u := n / 2;
    var t := 1;
    while u % 2 == 0
      invariant u > 0 && t >= 1
      invariant OddPart(u) == OddPart(n - 1) && t + Twos(u) == Twos(n - 1)
      decreases u
    {
      u := u / 2;
      t := t + 1;
    }
    assert Pow(2, 0) == 1;
    var prev := Power(a, u, n);
    var curr := 0;
    for i := 1 to t + 1
      invariant prev == Chain(a, n, i - 1)
      invariant i > 1 ==> curr == prev
      invariant forall k: nat :: k < i - 1 ==> !BadRoot(a, n, k)
    {
      ChainSquares(a, n, i - 1);
      curr := (prev * prev) % n;
      if curr == 1 && prev != 1 && prev != n - 1 {
        assert BadRoot(a, n, i - 1);
        if StrongProbablePrime(a, n) { StrongHasNoBadRoot(a, n, i - 1); }
        return true;
      }
      prev := curr;
    }
    if curr != 1 {
      if StrongProbablePrime(a, n) { StrongHasNoBadRoot(a, n, 0); }
      return true;
    }
    NoBadRootIsStrong(a, n, t);
    return false;
  }

  // ---------- trial division ----------

  /**
    A number with no divisor 2 or 3 that is composite has a divisor 6k-1 or 6k+1 whose k
    the loop visits: (6k-1)^2 does not exceed the number.
  */
  lemma SixKDivisor(n: int) returns (k: int)
    requires n >= 2 && n % 2 != 0 && n % 3 != 0 && !IsPrime(n)
    ensures k >= 1 && 36 * k * k - 12 * k < n
    ensures n % (6 * k + 1) == 0 || n % (6 * k - 1) == 0
  {
    var p := LeastDivisor(n);
    var c := Cofactor(n, p);
    var q := p / 6;
    OddResidue(n, p, c);
    k := if p == 6 * q + 1 then q else q + 1;
    SquareBound(p, c, k);
  }

  lemma Cofactor(n: int, p: int) returns (c: int)
    requires 2 <= p <= n && n % p == 0 && IsPrime(p) && !IsPrime(n)
    requires forall d {:trigger n % d} :: 2 <= d < p ==> n % d != 0
    ensures n == c * p && c >= p
  {
    c := n / p;
    assert n == c * p;
    Scaled(c, p);
    assert c != 1;
    ModMultiple(p, c);
    assert p * c == n;
    assert !(2 <= c < p);
  }

  /** A divisor of a number that 2 and 3 do not divide is one more or one less than a multiple of 6. */
  lemma OddResidue(n: int, p: int, c: int)
    requires n == c * p && p >= 2 && n % 2 != 0 && n % 3 != 0
    ensures p == 6 * (p / 6) + 1 || p == 6 * (p / 6) + 5
  {
    if p % 2 == 0 {
      Regroup(c, p / 2, 2);
      ModMultiple(c * (p / 2), 2);
    }
    if p % 3 == 0 {
      Regroup(c, p / 3, 3);
      ModMultiple(c * (p / 3), 3);
    }
  }

  lemma SquareBound(p: int, c: int, k: int)
    requires 2 <= p <= c && k >= 1 && 6 * k - 1 <= p
    ensures 36 * k * k - 12 * k < c * p
  {
    var b := 6 * k - 1;
    ProductMonotone(b, p, b);
    ProductMonotone(b, p, p);
    ProductMonotone(p, c, p);
    assert b * b == 36 * k * k - 12 * k + 1;
  }

  lemma ProductMonotone(x: int, y: int, z: int)
    requires 0 <= x <= y && 0 <= z
    ensures x * z <= y * z
  {}

  /** A divisor found by the loop is a proper one. */
  lemma TrialDivisorProper(n: int, k: int, d: int)
    requires k >= 1 && 36 * k * k - 12 * k < n
    requires d == 6 * k + 1 || d == 6 * k - 1
    requires n % d == 0
    ensures !IsPrime(n)
  {
    assert k * k >= k;
    assert 2 <= d < n;
  }

  // ---------- isPrime ----------

  /**
    Never rejects a prime, at any size, and below the limit of the trial division never
    accepts a composite number either. Above it, accepts exactly the strong probable primes to
    the bases tried that 2 and 3 do not divide.
  */
  method IsPrimeTest(number: int) returns (prime: bool)
    ensures IsPrime(number) ==> prime
    ensures number < TRIAL_DIVISION_LIMIT ==> (prime <==> IsPrime(number))
    ensures number >= TRIAL_DIVISION_LIMIT ==>
              (prime <==> number % 2 != 0 && number % 3 != 0
                          && if number < 9080191 then StrongProbablePrime(31, number) && StrongProbablePrime(73, number)
                             else StrongProbablePrime(2, number) && StrongProbablePrime(7, number)
                                  && StrongProbablePrime(61, number))
  {
    if (number % 2 == 0 && number != 2) || number < 2 || (number % 3 == 0 && number != 3) {
      return false;
    }
    if number < TRIAL_DIVISION_LIMIT {
      var k := 1;
      while 36 * k * k - 12 * k < number
        invariant k >= 1
        invariant forall j :: 1 <= j < k ==> number % (6 * j + 1) != 0 && number % (6 * j - 1) != 0
        decreases number - 6 * k
      {
        if number % (6 * k + 1) == 0 {
          TrialDivisorProper(number, k, 6 * k + 1);
          return false;
        }
        if number % (6 * k - 1) == 0 {
          TrialDivisorProper(number, k, 6 * k - 1);
          return false;
        }
        LoopBound(k, number);
        k := k + 1;
      }
      if number == 2 || number == 3 {
        assert IsPrime(number);
      } else if !IsPrime(number) {
        var j := SixKDivisor(number);
        Increasing(k, j);
      }
      return true;
    }
    if number < 9080191 {
      var w := Witness(31, number);
      if w { return false; }
      w := Witness(73, number);
      if w { return false; }
      return true;
    }
    var w := Witness(2, number);
    if w { return false; }
    w := Witness(7, number);
    if w { return false; }
    w := Witness(61, number);
    if w { return false; }
    return true;
  }

  lemma LoopBound(k: int, n: int)
    requires k >= 1 && 36 * k * k - 12 * k < n
    ensures 6 * k < n
  {
    assert k * k >= k;
  }

  lemma Increasing(k: int, j: int)
    requires k >= 1 && j >= k
    ensures 36 * j * j - 12 * j >= 36 * k * k - 12 * k
  {
    assert j * j >= j * k >= k * k;
    assert j * j - k * k == (j - k) * (j + k);
    assert (j - k) * (j + k) >= (j - k);
  }

  // ---------- getp1 and getp2 ----------

  /** The least number above p1 that passes the test; it terminates because primes do not run out. */
  method GetP2(p1: nat) returns (i: int)
    ensures i > p1
    ensures forall j :: p1 < j < i ==> !IsPrime(j)
    ensures i < TRIAL_DIVISION_LIMIT ==> IsPrime(i)
  {
    ghost var bound := PrimeAbove(p1);
    i := p1 + 1;
    while true
      invariant p1 < i <= bound
      invariant forall j :: p1 < j < i ==> !IsPrime(j)
      decreases bound - i
    {
      var prime := IsPrimeTest(i);
      if prime { return; }
      i := i + 1;
    }
  }

  method GetP1(buffersize: nat) returns (i: int)
    ensures i > buffersize / 2
    ensures forall j :: buffersize / 2 < j < i ==> !IsPrime(j)
    ensures i < TRIAL_DIVISION_LIMIT ==> IsPrime(i)
  {
    i := GetP2(buffersize / 2);
  }
}
