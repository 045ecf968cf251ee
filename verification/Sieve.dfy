/** The shared sieve of the prime factorization example: lanes extend private copies
    and merge what they found back into the noticeboard. */
module Sieve {
  import opened Wrappers
  import opened Primes

  function Last(s: seq<nat>): (n: nat)
    requires s != []
  {
    s[|s|-1]
  }

  ghost predicate Increasing(s: seq<nat>) { forall i, j :: 0 <= i < j < |s| ==> s[i] < s[j] }

  ghost predicate AllPrime(s: seq<nat>) { forall i :: 0 <= i < |s| ==> IsPrime(s[i]) }

  /** No prime up to `n` is missing. */
  ghost predicate NoGap(s: seq<nat>, n: nat) { forall p: nat {:trigger IsPrime(p)} :: IsPrime(p) && p <= n ==> p in s }

  /** A gap-free initial run of the primes, at least [2, 3]. */
  ghost predicate PrimeRun(s: seq<nat>) {
    |s| >= 2 && s[0] == 2 && s[1] == 3 && Increasing(s) && AllPrime(s) && NoGap(s, Last(s))
  }

  /** A prime run is determined by how long it is. */
  lemma {:induction false} RunsAgree(s: seq<nat>, t: seq<nat>, i: nat)
    requires PrimeRun(s) && PrimeRun(t) && i < |s| && i < |t|
    ensures s[i] == t[i]
    decreases i
  {
    if i > 0 {
      RunsAgree(s, t, i - 1);
      NotBefore(s, t, i);
      NotBefore(t, s, i);
    }
  }

  lemma NotBefore(s: seq<nat>, t: seq<nat>, i: nat)
    requires PrimeRun(s) && PrimeRun(t) && 0 < i < |s| && i < |t| && s[i-1] == t[i-1]
    ensures s[i] >= t[i]
  {
    if s[i] < t[i] {
      assert IsPrime(s[i]) && s[i] <= Last(t);
      var j :| 0 <= j < |t| && t[j] == s[i];
      Position(t, j, i);
    }
  }

  lemma Position(t: seq<nat>, j: nat, i: nat)
    requires Increasing(t) && j < |t| && 0 < i < |t| && t[j] < t[i]
    ensures t[j] <= t[i-1]
  {
    if j < i - 1 { assert t[j] < t[i-1]; }
  }

  /** Of two prime runs one begins the other. */
  lemma RunsNest(s: seq<nat>, t: seq<nat>)
    requires PrimeRun(s) && PrimeRun(t) && |s| <= |t|
    ensures s <= t
  {
    forall i | 0 <= i < |s| ensures s[i] == t[i] { RunsAgree(s, t, i); }
  }

  // ---------------------------------------------------------------- the extension

  predicate PassesSieve(s: seq<nat>, n: nat)
    requires forall p :: p in s ==> p > 0
  {
    forall p :: p in s && p * p <= n ==> n % p != 0
  }

  /** When the primes in the sieve are those below `n`, that test is primality. */
  lemma SieveTest(s: seq<nat>, n: nat)
    requires n >= 2 && AllPrime(s) && (forall p :: p in s ==> 0 < p < n) && NoGap(s, n - 1)
    ensures PassesSieve(s, n) <==> IsPrime(n)
  {
    if !IsPrime(n) {
      var p := PrimeFactor(n);
      Squares(p, n);
      assert p in s;
    } else {
      forall p | p in s && p * p <= n ensures n % p != 0 { assert IsPrime(p) && !Divides(p, n); }
    }
  }

  lemma Squares(p: nat, n: nat)
    requires p * p <= n && n >= 2 && p >= 2
    ensures p < n
  {
    assert p * p >= 2 * p;
  }

  /** A prime from 3 on is odd. */
  lemma OddPrime(p: nat) returns (h: nat)
    requires IsPrime(p) && p > 2
    ensures p == 2 * h + 1
  {
    assert !Divides(2, p);
    h := p / 2;
  }

  lemma Below(s: seq<nat>, p: nat)
    requires Increasing(s) && AllPrime(s) && p in s
    ensures 0 < p <= Last(s)
  {
    var i :| 0 <= i < |s| && s[i] == p;
    if i < |s| - 1 { assert s[i] < s[|s|-1]; }
  }

  lemma AppendPrime(s: seq<nat>, n: nat)
    requires PrimeRun(s) && IsPrime(n) && n > Last(s) && NoGap(s, n - 1)
    ensures PrimeRun(s + [n])
  {
    forall i | 0 <= i < |s| ensures s[i] < n { Below(s, s[i]); }
    forall p: nat {:trigger IsPrime(p)} | IsPrime(p) && p <= n ensures p in s + [n] {
      if p != n { assert p in s; }
    }
  }

  /** The next odd number needs no look: the one between is even. */
  lemma SkipEven(s: seq<nat>, h: nat)
    requires NoGap(s, 2 * h + 1) && h > 0
    ensures NoGap(s, 2 * h + 2)
  {
    forall p: nat {:trigger IsPrime(p)} | IsPrime(p) && p <= 2 * h + 2 ensures p in s {
      if p == 2 * h + 2 { var g := OddPrime(p); }
    }
  }

  /** One candidate of the extension. */
  lemma Tested(r: seq<nat>, n: nat, h: nat)
    requires PrimeRun(r) && Last(r) < n && n == 2 * h + 1 && NoGap(r, n - 1)
    ensures IsPrime(n) ==> PrimeRun(r + [n]) && NoGap(r + [n], n + 1)
    ensures !IsPrime(n) ==> NoGap(r, n + 1)
  {
    Below(r, 3);
    if IsPrime(n) {
      AppendPrime(r, n);
      SkipEven(r + [n], h);
    } else {
      assert NoGap(r, n);
      SkipEven(r, h);
    }
  }

  /** all(n % p != 0 for p in sieve if p * p <= n) */
  method Test(r: seq<nat>, n: nat, ghost h: nat) returns (prime: bool)
    requires PrimeRun(r) && Last(r) < n && n == 2 * h + 1 && NoGap(r, n - 1)
    ensures prime <==> IsPrime(n)
    ensures if prime then PrimeRun(r + [n]) && NoGap(r + [n], n + 1) else NoGap(r, n + 1)
  {
    forall p | p in r ensures 0 < p < n { Below(r, p); }
    Below(r, 3);
    SieveTest(r, n);
    Tested(r, n, h);
    prime := PassesSieve(r, n);
  }

  /** The next odd number with no smaller prime missing is within reach of a prime. */
  lemma Reaches(r: seq<nat>, n: nat, h: nat) returns (next: nat, g: nat)
    requires PrimeRun(r) && n == 2 * h + 1 && NoGap(r, n - 1)
    ensures IsPrime(next) && next == 2 * g + 1 && n <= next
  {
    Below(r, 3);
    next := NextPrime(Last(r));
    g := OddPrime(next);
    if next <= n - 1 { Below(r, next); }
  }

  /** Where the loop stands: the next odd number `n`, with no smaller prime missing
      and the prime `next` ahead. */
  ghost predicate Looking(r: seq<nat>, n: nat, h: nat, next: nat, g: nat, limit: nat) {
    && PrimeRun(r) && Last(r) < n && n == 2 * h + 1 && NoGap(r, n - 1)
    && IsPrime(next) && next == 2 * g + 1 && (Last(r) < limit ==> n <= next)
  }

  lemma StartsLooking(r: seq<nat>, limit: nat) returns (h: nat, next: nat, g: nat)
    requires PrimeRun(r)
    ensures Looking(r, Last(r) + 2, h, next, g, limit)
  {
    Below(r, 3);
    h := OddPrime(Last(r));
    SkipEven(r, h);
    h := h + 1;
    next, g := Reaches(r, Last(r) + 2, h);
  }

  lemma LooksOn(r: seq<nat>, n: nat, h: nat, next: nat, g: nat, limit: nat)
    requires Looking(r, n, h, next, g, limit) && Last(r) < limit && !IsPrime(n) && NoGap(r, n + 1)
    ensures Looking(r, n + 2, h + 1, next, g, limit)
  {
  }

  /** Without its last element it does not reach the limit. */
  predicate Short(r: seq<nat>, limit: nat) { |r| > 1 && r[|r|-2] < limit }

  lemma ShortAfter(r: seq<nat>, n: nat, limit: nat)
    requires r != [] && Last(r) < limit
    ensures Short(r + [n], limit)
  {
  }

  /** The loop of sieve_work that extends a lane's copy until it reaches `limit`. It
      ends because there is always another prime. */
  method Extend(sieve: seq<nat>, limit: nat) returns (r: seq<nat>, found: seq<nat>)
    requires PrimeRun(sieve)
    ensures PrimeRun(r) && r == sieve + found && Last(r) >= limit
    ensures found != [] ==> Short(r, limit)
  {
    r, found := sieve, [];
    assert r == sieve + found;
    var n: nat := Last(r) + 2;
    ghost var h: nat, next: nat, g: nat := StartsLooking(r, limit);
    while Last(r) < limit
      invariant Looking(r, n, h, next, g, limit) && r == sieve + found
      invariant found != [] ==> Short(r, limit)
      decreases limit - Last(r), next - n
    {
      var prime := Test(r, n, h);
      if prime {
        ShortAfter(r, n, limit);
        r, found := r + [n], found + [n];
        next, g := Reaches(r, n + 2, h + 1);
      } else {
        LooksOn(r, n, h, next, g, limit);
      }
      n, h := n + 2, h + 1;
    }
  }

  // -------------------------------------------------------------------- the merge

  /** The binary search of _merge_sieve: how many of the new primes are not past `cutoff`. */
  method Search(news: seq<nat>, cutoff: nat) returns (lo: nat)
    requires Increasing(news)
    ensures lo <= |news|
    ensures forall i :: 0 <= i < |news| ==> (news[i] <= cutoff <==> i < lo)
  {
    lo := 0;
    var hi := |news|;
    while lo < hi
      invariant lo <= hi <= |news|
      invariant forall i :: 0 <= i < lo ==> news[i] <= cutoff
      invariant forall i :: hi <= i < |news| ==> news[i] > cutoff
    {
      var mid := (lo + hi) / 2;
      if news[mid] <= cutoff { lo := mid + 1; } else { hi := mid; }
    }
  }

  /** _merge_sieve: what is past the end of the existing sieve goes behind it. */
  method MergeSieve(existing: seq<nat>, news: seq<nat>) returns (r: seq<nat>)
    requires Increasing(news)
    ensures news == [] ==> r == existing
    ensures existing == [] ==> r == news
    ensures existing != [] ==> exists k | 0 <= k <= |news| ::
      && r == existing + news[k..]
      && forall i :: 0 <= i < |news| ==> (news[i] <= Last(existing) <==> i < k)
  {
    if news == [] {
      assert existing + news[0..] == existing;
      return existing;
    }
    if existing == [] { return news; }
    var lo := Search(news, Last(existing));
    if lo >= |news| {
      assert existing + news[lo..] == existing;
      return existing;
    }
    return existing + news[lo..];
  }

  /** Nothing new: the others already merged at least as much. */
  lemma MergeNothing(existing: seq<nat>, base: seq<nat>, news: seq<nat>, i: nat)
    requires PrimeRun(existing) && PrimeRun(base + news) && |existing| >= |base + news| && i < |news|
    ensures news[i] <= Last(existing)
  {
    RunsNest(base + news, existing);
    assert (base + news)[|base| + i] == news[i] == existing[|base| + i];
    Below(existing, existing[|base| + i]);
  }

  /** Merging a lane's new primes, whatever others merged since the lane took its
      copy, leaves the longer of the two runs. */
  lemma MergeKeepsRun(existing: seq<nat>, base: seq<nat>, news: seq<nat>, k: nat)
    requires PrimeRun(existing) && PrimeRun(base + news) && base <= existing && k <= |news|
    requires forall i :: 0 <= i < |news| ==> (news[i] <= Last(existing) <==> i < k)
    ensures existing + news[k..] == if |existing| >= |base + news| then existing else base + news
  {
    if |existing| >= |base + news| {
      if k < |news| { MergeNothing(existing, base, news, k); }
      assert news[k..] == [];
    } else {
      RunsNest(existing, base + news);
      var m := |existing| - |base|;
      Split(existing, base, news, m);
      SameCut(news, Last(existing), k, m);
      assert base + news[..m] + news[m..] == base + news;
    }
  }

  lemma SameCut(news: seq<nat>, cutoff: nat, k: nat, m: nat)
    requires k <= |news| && m <= |news|
    requires forall i :: 0 <= i < |news| ==> (news[i] <= cutoff <==> i < k)
    requires forall i :: 0 <= i < |news| ==> (news[i] <= cutoff <==> i < m)
    ensures k == m
  {
    assert k < |news| ==> news[k] > cutoff;
    assert m < |news| ==> news[m] > cutoff;
  }

  /** Where a shorter run ends inside a longer one. */
  lemma Split(existing: seq<nat>, base: seq<nat>, news: seq<nat>, m: nat)
    requires PrimeRun(existing) && PrimeRun(base + news) && base <= existing <= base + news
    requires m == |existing| - |base| && |existing| < |base + news|
    ensures existing == base + news[..m]
    ensures forall i :: 0 <= i < |news| ==> (news[i] <= Last(existing) <==> i < m)
  {
    var run := base + news;
    forall i | 0 <= i < |news| ensures news[i] <= Last(existing) <==> i < m {
      assert run[|base| + i] == news[i] && run[|existing| - 1] == Last(existing);
      if i < m && |base| + i < |existing| - 1 { assert run[|base| + i] < run[|existing| - 1]; }
      if i >= m { assert run[|existing| - 1] < run[|base| + i]; }
    }
  }

  // --------------------------------------------------------------- the candidates

  /** math.isqrt */
  function Isqrt(c: nat): (r: nat)
    ensures r * r <= c < (r + 1) * (r + 1)
  {
    if c == 0 then 0 else
      var r := Isqrt(c - 1);
      if (r + 1) * (r + 1) <= c then r + 1 else r
  }

  lemma SquareGrows(a: nat, b: nat)
    requires a <= b
    ensures a * a <= b * b
  {
    assert a * a <= a * b <= b * b;
  }

  /** The trial division of sieve_work. */
  method KeepCandidate(sieve: seq<nat>, c: nat) returns (keep: bool)
    requires PrimeRun(sieve) && c >= 1 && Last(sieve) >= Isqrt(c) + 1
    ensures keep <==> IsPrime(c) || c == 1
  {
    ghost var p := FactorOf(sieve, c);
    for i := 0 to |sieve|
      invariant c >= 2 && !IsPrime(c) ==> p in sieve[i..]
    {
      var q := sieve[i];
      if q * q > c {
        NoneLeft(sieve, i, c, p);
        return true;
      }
      assert IsPrime(q);
      if c % q == 0 {
        NoFactor(q, c);
        return false;
      }
      assert sieve[i..] == [q] + sieve[i+1..];
    }
    return true;
  }

  /** A candidate that is not prime has a prime factor in the sieve, and no larger
      than its root. */
  lemma FactorOf(sieve: seq<nat>, c: nat) returns (p: nat)
    requires PrimeRun(sieve) && c >= 1 && Last(sieve) >= Isqrt(c) + 1
    ensures c >= 2 && !IsPrime(c) ==> p in sieve && p * p <= c && Divides(p, c)
  {
    p := 1;
    if c >= 2 { p := PrimeFactor(c); }
    if c >= 2 && !IsPrime(c) { FactorInSieve(sieve, c, p); }
  }

  /** Past its root there is none. */
  lemma NoneLeft(sieve: seq<nat>, i: nat, c: nat, p: nat)
    requires PrimeRun(sieve) && i < |sieve| && sieve[i] * sieve[i] > c >= 1
    requires c >= 2 && !IsPrime(c) ==> p in sieve[i..] && p * p <= c
    ensures IsPrime(c) || c == 1
  {
    if c >= 2 && !IsPrime(c) { StillAhead(sieve, i, p); }
  }

  lemma FactorInSieve(sieve: seq<nat>, c: nat, p: nat)
    requires PrimeRun(sieve) && Last(sieve) >= Isqrt(c) + 1 && IsPrime(p) && p * p <= c
    ensures p in sieve
  {
    if p > Isqrt(c) { SquareGrows(Isqrt(c) + 1, p); }
  }

  /** The square of a prime still ahead is no less than that of the one at hand. */
  lemma StillAhead(sieve: seq<nat>, i: nat, p: nat)
    requires PrimeRun(sieve) && i < |sieve| && p in sieve[i..]
    ensures sieve[i] * sieve[i] <= p * p
  {
    var j :| 0 <= j < |sieve[i..]| && sieve[i..][j] == p;
    assert sieve[i + j] == p && sieve[i] <= p;
    SquareGrows(sieve[i], p);
  }

  lemma NoFactor(d: nat, c: nat)
    requires d >= 2 && Divides(d, c) && d * d <= c && c >= 1
    ensures !IsPrime(c) && c != 1
  {
    Squares(d, c);
  }
}
