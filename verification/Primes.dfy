/** The little number theory the sieve rests on. */
module Primes {
  predicate Divides(d: nat, n: nat) { d > 0 && n % d == 0 }

  predicate IsPrime(n: nat) { n >= 2 && forall d :: 2 <= d < n ==> !Divides(d, n) }

  lemma MultipleDivides(d: nat, k: nat)
    requires d > 0
    ensures Divides(d, d * k)
  {
    if k > 0 {
      MultipleDivides(d, k - 1);
      assert d * k == d * (k - 1) + d;
      assert (d * (k - 1) + d) % d == (d * (k - 1)) % d;
    }
  }

  lemma Quotient(d: nat, n: nat) returns (k: nat)
    requires Divides(d, n)
    ensures n == d * k
  {
    k := n / d;
  }

  lemma DividesTransitive(a: nat, b: nat, c: nat)
    requires Divides(a, b) && Divides(b, c)
    ensures Divides(a, c)
  {
    var k := Quotient(a, b);
    var m := Quotient(b, c);
    assert c == a * (k * m) by { assert (a * k) * m == a * (k * m); }
    MultipleDivides(a, k * m);
  }

  /** The least divisor of `n` from `d` on. */
  function LeastFrom(n: nat, d: nat): (p: nat)
    requires 2 <= d <= n && forall k :: 2 <= k < d ==> !Divides(k, n)
    ensures 2 <= p <= n && Divides(p, n) && forall k :: 2 <= k < p ==> !Divides(k, n)
    decreases n - d
  {
    if Divides(d, n) then d
    else
      assert n % n == 0;
      LeastFrom(n, d + 1)
  }

  /** Every number from 2 on has a prime factor, and unless it is itself prime, one
      whose square does not exceed it. */
  lemma PrimeFactor(n: nat) returns (p: nat)
    requires n >= 2
    ensures IsPrime(p) && Divides(p, n) && p <= n && (!IsPrime(n) ==> p * p <= n)
  {
    p := LeastFrom(n, 2);
    forall d | 2 <= d < p ensures !Divides(d, p) {
      if Divides(d, p) { DividesTransitive(d, p, n); }
    }
    if !IsPrime(n) {
      var k := Quotient(p, n);
      Cofactor(n, p, k);
    }
  }

  lemma Cofactor(n: nat, p: nat, k: nat)
    requires n >= 2 && n == p * k && p >= 2 && !IsPrime(n) && forall d :: 2 <= d < p ==> !Divides(d, n)
    ensures p * p <= n
  {
    assert n == k * p;
    if k > 0 { MultipleDivides(k, p); }
    if k >= p { assert p * p <= p * k; }
  }

  // ------------------------------------------------------------------- Euclid

  function Factorial(n: nat): (f: nat)
    ensures f >= 1
  {
    if n == 0 then 1 else Grow(n, Factorial(n - 1)); n * Factorial(n - 1)
  }

  lemma Grow(a: nat, b: nat)
    requires a >= 1 && b >= 1
    ensures a * b >= 1
  {
  }

  lemma {:induction false} FactorialDivisible(n: nat, k: nat)
    requires 1 <= k <= n
    ensures Divides(k, Factorial(n))
  {
    if k == n {
      MultipleDivides(n, Factorial(n - 1));
    } else {
      FactorialDivisible(n - 1, k);
      var m := Quotient(k, Factorial(n - 1));
      assert n * (k * m) == k * (n * m);
      MultipleDivides(k, n * m);
    }
  }

  /** There is always another prime. */
  lemma NextPrime(n: nat) returns (p: nat)
    ensures IsPrime(p) && p > n
  {
    p := PrimeFactor(Factorial(n) + 1);
    if p <= n {
      FactorialDivisible(n, p);
      var a := Quotient(p, Factorial(n));
      var b := Quotient(p, Factorial(n) + 1);
      assert p * (b - a) == 1;
      NotUnit(p, b - a);
    }
  }

  lemma NotUnit(p: nat, k: int)
    requires p >= 2
    ensures p * k != 1
  {
    if k >= 1 { assert p * k >= 2 * k; } else { assert p * k <= 0; }
  }
}
