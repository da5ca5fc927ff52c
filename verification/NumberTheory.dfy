/**
  The arithmetic behind primetest.cpp: powers and remainders, Euclid's lemma, the binomial
  theorem modulo a prime, and from them Fermat's little theorem.
*/
module NumberTheory {

  ghost predicate IsPrime(n: int) {
    n >= 2 && forall d {:trigger n % d} :: 2 <= d < n ==> n % d != 0
  }

  function Pow(a: int, n: nat): (r: int)
    ensures a >= 0 ==> r >= 0
    ensures a >= 1 ==> r >= 1
  {
    if n == 0 then 1 else a * Pow(a, n - 1)
  }

  // ---------- powers ----------

  lemma {:induction false} PowAdd(a: int, m: nat, n: nat)
    ensures Pow(a, m + n) == Pow(a, m) * Pow(a, n)
  {
    if m > 0 {
      PowAdd(a, m - 1, n);
      Regroup(a, Pow(a, m - 1), Pow(a, n));
    }
  }

  lemma {:induction false} PowSquare(a: int, n: nat)
    ensures Pow(a * a, n) == Pow(a, 2 * n)
  {
    if n > 0 {
      PowSquare(a, n - 1);
      assert Pow(a, 2 * n - 1) == a * Pow(a, 2 * (n - 1));
      Regroup(a, a, Pow(a, 2 * (n - 1)));
    }
  }

  // ---------- remainders ----------

  lemma Scaled(k: int, m: int)
    requires m > 0
    ensures k >= 1 ==> k * m >= m
    ensures k <= -1 ==> k * m <= -m
    ensures k == 0 ==> k * m == 0
  {}

  lemma ModUnique(x: int, m: int, q: int, r: int)
    requires m > 0 && x == q * m + r && 0 <= r < m
    ensures x % m == r && x / m == q
  {
    var k := x / m - q;
    assert k * m == r - x % m;
    Scaled(k, m);
  }

  lemma SmallMod(x: int, m: int)
    requires 0 <= x < m
    ensures x % m == x
  {
    ModUnique(x, m, 0, x);
  }

  lemma ModShift(x: int, k: int, m: int)
    requires m > 0
    ensures (x + k * m) % m == x % m
  {
    ModUnique(x + k * m, m, x / m + k, x % m);
  }

  lemma ModMultiple(k: int, m: int)
    requires m > 0
    ensures (k * m) % m == 0
  {
    ModShift(0, k, m);
  }

  lemma ModMul(a: int, b: int, m: int)
    requires m > 0
    ensures ((a % m) * b) % m == (a * b) % m
  {
    assert a * b == (a % m) * b + (a / m * b) * m;
    ModShift((a % m) * b, a / m * b, m);
  }

  lemma ModMulBoth(a: int, b: int, m: int)
    requires m > 0
    ensures ((a % m) * (b % m)) % m == (a * b) % m
  {
    ModMul(a, b % m, m);
    ModMul(b, a, m);
  }

  lemma ModMulCongruent(a: int, x: int, y: int, m: int)
    requires m > 0 && x % m == y % m
    ensures ((a % m) * x) % m == (a * y) % m
  {
    ModMul(a, x, m);
    ModMul(x, a, m);
    ModMul(y, a, m);
  }

  lemma ModAddBoth(a: int, b: int, m: int)
    requires m > 0
    ensures (a % m + b % m) % m == (a + b) % m
  {
    var k := a / m + b / m;
    Distribute(a / m, b / m, m);
    assert a + b == (a % m + b % m) + k * m;
    ModShift(a % m + b % m, k, m);
  }

  lemma Distribute(a: int, b: int, m: int)
    ensures (a + b) * m == a * m + b * m
    ensures m * (a + b) == m * a + m * b
  {}

  lemma Regroup(a: int, b: int, c: int)
    ensures a * (b * c) == (a * b) * c == b * (a * c)
  {}

  lemma {:induction false} PowMod(a: int, n: nat, m: int)
    requires m > 0
    ensures Pow(a % m, n) % m == Pow(a, n) % m
  {
    if n > 0 {
      PowMod(a, n - 1, m);
      ModMulCongruent(a, Pow(a % m, n - 1), Pow(a, n - 1), m);
    }
  }

  lemma QuotientOf(a: int, b: int, m: int) returns (k: int)
    requires m > 0 && a % m == b % m
    ensures a == b + k * m
  {
    k := a / m - b / m;
    Difference(a / m, b / m, m);
  }

  lemma Difference(a: int, b: int, m: int)
    ensures (a - b) * m == a * m - b * m
  {}

  lemma CongruentDifference(a: int, b: int, m: int)
    requires m > 0
    ensures a % m == b % m <==> (a - b) % m == 0
  {
    if a % m == b % m {
      var k := QuotientOf(a, b, m);
      ModMultiple(k, m);
    } else {
      NotMultiple(a, b, m);
    }
  }

  lemma NotMultiple(a: int, b: int, m: int)
    requires m > 0 && a % m != b % m
    ensures (a - b) % m != 0
  {
    ModShift(b, (a - b) / m, m);
  }

  lemma AddCongruent(x: int, y: int, z: int, m: int)
    requires m > 0 && x % m == y % m
    ensures (x + z) % m == (y + z) % m
  {
    var k := QuotientOf(x, y, m);
    ModShift(y + z, k, m);
  }

  // ---------- Euclid's lemma ----------

  /** A prime that divides a product and not its first factor divides the second. */
  lemma {:induction false} EuclidBelow(p: int, a: int, b: int)
    requires IsPrime(p) && 0 < a < p && (a * b) % p == 0
    ensures b % p == 0
    decreases a
  {
    if a > 1 {
      var r := p % a;
      assert r * b == b * p - (p / a) * (a * b);
      var c := a * b / p;
      assert a * b == c * p;
      assert r * b == (b - (p / a) * c) * p;
      ModMultiple(b - (p / a) * c, p);
      EuclidBelow(p, r, b);
    }
  }

  lemma EuclidLemma(p: int, a: int, b: int)
    requires IsPrime(p) && (a * b) % p == 0 && a % p != 0
    ensures b % p == 0
  {
    ModMul(a, b, p);
    EuclidBelow(p, a % p, b);
  }

  // ---------- the binomial theorem ----------

  function Choose(n: nat, k: nat): nat {
    if k == 0 then 1
    else if n == 0 then 0
    else Choose(n - 1, k - 1) + Choose(n - 1, k)
  }

  lemma {:induction false} ChooseAbove(n: nat, k: nat)
    requires k > n
    ensures Choose(n, k) == 0
  {
    if n > 0 {
      ChooseAbove(n - 1, k - 1);
      ChooseAbove(n - 1, k);
    }
  }

  lemma {:induction false} ChooseFull(n: nat)
    ensures Choose(n, n) == 1
  {
    if n > 0 {
      ChooseFull(n - 1);
      ChooseAbove(n - 1, n);
    }
  }

  lemma {:induction false} Absorption(n: nat, k: nat)
    requires n >= 1 && k >= 1
    ensures k * Choose(n, k) == n * Choose(n - 1, k - 1)
  {
    if n == 1 {
      if k > 1 { ChooseAbove(1, k); ChooseAbove(0, k - 1); }
    } else if k == 1 {
      Absorption(n - 1, 1);
    } else {
      Absorption(n - 1, k - 1);
      Absorption(n - 1, k);
      AbsorptionStep(n, k, Choose(n - 1, k - 1), Choose(n - 1, k), Choose(n - 2, k - 2), Choose(n - 2, k - 1));
    }
  }

  lemma AbsorptionStep(n: int, k: int, c: int, d: int, e: int, f: int)
    requires c == e + f && (k - 1) * c == (n - 1) * e && k * d == (n - 1) * f
    ensures k * (c + d) == n * c
  {
    Distribute(c, d, k);
    Distribute(e, f, n - 1);
  }

  /** The first m terms of the expansion of (a + 1)^n. */
  function BinomialSum(n: nat, a: int, m: nat): int {
    if m == 0 then 0 else BinomialSum(n, a, m - 1) + Choose(n, m - 1) * Pow(a, m - 1)
  }

  lemma {:induction false} PascalStep(n: nat, a: int, m: nat)
    ensures BinomialSum(n + 1, a, m + 1) == a * BinomialSum(n, a, m) + BinomialSum(n, a, m + 1)
  {
    if m == 0 {
      assert BinomialSum(n + 1, a, 1) == 1;
      assert BinomialSum(n, a, 1) == 1;
    } else {
      PascalStep(n, a, m - 1);
      var c, d, v := Choose(n, m - 1), Choose(n, m), Pow(a, m - 1);
      assert Choose(n + 1, m) == c + d;
      Distribute(c, d, a * v);
      Regroup(c, a, v);
      Distribute(BinomialSum(n, a, m - 1), c * v, a);
    }
  }

  lemma {:induction false} BinomialTheorem(n: nat, a: int)
    ensures Pow(a + 1, n) == BinomialSum(n, a, n + 1)
  {
    if n == 0 {
      assert BinomialSum(0, a, 1) == 1;
    } else {
      BinomialTheorem(n - 1, a);
      PascalStep(n - 1, a, n);
      LastTerm(n, a);
      Distribute(a, 1, Pow(a + 1, n - 1));
    }
  }

  lemma LastTerm(n: nat, a: int)
    requires n >= 1
    ensures BinomialSum(n - 1, a, n + 1) == BinomialSum(n - 1, a, n)
  {
    ChooseAbove(n - 1, n);
  }

  // ---------- Fermat's little theorem ----------

  lemma PrimeDividesCofactor(p: int, k: int, c: int, d: int)
    requires IsPrime(p) && 0 < k < p && k * c == p * d
    ensures c % p == 0
  {
    ModMultiple(d, p);
    EuclidBelow(p, k, c);
  }

  lemma PrimeDividesChoose(p: int, k: nat)
    requires IsPrime(p) && 0 < k < p
    ensures Choose(p, k) % p == 0
  {
    Absorption(p, k);
    PrimeDividesCofactor(p, k, Choose(p, k), Choose(p - 1, k - 1));
  }

  lemma AddMultiple(s: int, c: int, w: int, p: int)
    requires p > 0 && c % p == 0
    ensures (s + c * w) % p == s % p
  {
    var q := c / p;
    assert c == q * p;
    assert c * w == (q * w) * p;
    ModShift(s, q * w, p);
  }

  lemma {:induction false} InnerTermsVanish(p: int, a: int, m: nat)
    requires IsPrime(p) && 1 <= m <= p
    ensures BinomialSum(p, a, m) % p == 1
  {
    if m == 1 {
      assert BinomialSum(p, a, 1) == 1;
    } else {
      InnerTermsVanish(p, a, m - 1);
      PrimeDividesChoose(p, m - 1);
      AddMultiple(BinomialSum(p, a, m - 1), Choose(p, m - 1), Pow(a, m - 1), p);
    }
  }

  /** (a + 1)^p and a^p + 1 leave the same remainder modulo a prime p. */
  lemma FreshmansDream(p: int, a: int)
    requires IsPrime(p)
    ensures Pow(a + 1, p) % p == (Pow(a, p) + 1) % p
  {
    BinomialTheorem(p, a);
    ChooseFull(p);
    InnerTermsVanish(p, a, p);
    SmallMod(1, p);
    AddCongruent(BinomialSum(p, a, p), 1, Pow(a, p), p);
  }

  lemma {:induction false} FermatPower(p: int, a: nat)
    requires IsPrime(p)
    ensures Pow(a, p) % p == a % p
  {
    if a > 0 {
      FermatPower(p, a - 1);
      FreshmansDream(p, a - 1);
      AddCongruent(Pow(a - 1, p), a - 1, 1, p);
    }
  }

  lemma Fermat(p: int, a: nat)
    requires IsPrime(p) && a % p != 0
    ensures Pow(a, p - 1) % p == 1
  {
    FermatPower(p, a);
    Cancel(p, a, Pow(a, p - 1));
  }

  lemma Cancel(p: int, a: int, x: int)
    requires IsPrime(p) && a % p != 0 && (a * x) % p == a % p
    ensures x % p == 1
  {
    CongruentDifference(a * x, a, p);
    CancelStep(p, a, x);
    CongruentDifference(x, 1, p);
    SmallMod(1, p);
  }

  lemma CancelStep(p: int, a: int, x: int)
    requires IsPrime(p) && a % p != 0 && (a * x - a) % p == 0
    ensures (x - 1) % p == 0
  {
    Distribute(x, -1, a);
    EuclidLemma(p, a, x - 1);
  }

  /** Modulo a prime, 1 has no square roots but itself and -1. */
  lemma RootsOfOne(p: int, x: int)
    requires IsPrime(p) && 0 <= x < p && (x * x) % p == 1
    ensures x == 1 || x == p - 1
  {
    if x == 0 {
      SmallMod(0, p);
    } else if x > 1 {
      CongruentDifference(x * x, 1, p);
      SmallMod(1, p);
      assert x * x - 1 == (x - 1) * (x + 1);
      EuclidBelow(p, x - 1, x + 1);
      if x + 1 < p { SmallMod(x + 1, p); }
    }
  }

  // ---------- divisors ----------

  /** The least divisor above 1 is prime. */
  lemma LeastDivisor(n: int) returns (p: int)
    requires n >= 2
    ensures 2 <= p <= n && n % p == 0 && IsPrime(p)
    ensures forall d {:trigger n % d} :: 2 <= d < p ==> n % d != 0
  {
    p := 2;
    while n % p != 0
      invariant 2 <= p <= n
      invariant forall d {:trigger n % d} :: 2 <= d < p ==> n % d != 0
      decreases n - p
    {
      p := p + 1;
    }
    forall d {:trigger p % d} | 2 <= d < p ensures p % d != 0 {
      if p % d == 0 { DividesTransitive(n, p, d, n / p, p / d); }
    }
  }

  lemma DividesTransitive(n: int, p: int, d: int, a: int, b: int)
    requires d > 0 && n == a * p && p == b * d
    ensures n % d == 0
  {
    Regroup(a, b, d);
    ModMultiple(a * b, d);
  }

  function Factorial(n: nat): (r: int)
    ensures r >= 1
  {
    if n == 0 then 1 else n * Factorial(n - 1)
  }

  lemma {:induction false} DividesFactorial(d: int, n: nat)
    requires 1 <= d <= n
    ensures Factorial(n) % d == 0
  {
    if d == n {
      ModMultiple(Factorial(n - 1), n);
    } else {
      DividesFactorial(d, n - 1);
      AddMultiple(0, Factorial(n - 1), n, d);
    }
  }

  /** There is a prime above every number. */
  lemma PrimeAbove(n: nat) returns (p: int)
    ensures IsPrime(p) && p > n
  {
    p := LeastDivisor(Factorial(n) + 1);
    if p <= n {
      DividesFactorial(p, n);
      CongruentDifference(Factorial(n) + 1, Factorial(n), p);
      SmallMod(1, p);
    }
  }
}
