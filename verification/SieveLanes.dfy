/** Lanes at work on the shared sieve, in any order. */
module SieveLanes {
  import opened Wrappers
  import opened Primes
  import opened Sieve

  /** A merge on its way to the board: the copy the lane worked on, and what it found. */
  datatype Update = Update(base: seq<nat>, news: seq<nat>)

  /** Extend the copy past the candidate's square root, then divide. */
  method Try(sieve: seq<nat>, c: nat) returns (r: seq<nat>, more: seq<nat>, keep: bool)
    requires PrimeRun(sieve) && c >= 1
    ensures PrimeRun(r) && r == sieve + more && Last(r) >= Isqrt(c) + 1 && (keep <==> IsPrime(c) || c == 1)
  {
    r, more := Extend(sieve, Isqrt(c) + 1);
    keep := KeepCandidate(r, c);
  }

  /** random | 1 */
  function OrOne(random: nat): (c: nat)
    ensures c % 2 == 1 && random <= c <= random + 1
  {
    if random % 2 == 0 then random + 1 else random
  }

  /** A candidate drawn from the lane's range. */
  predicate Drawn(c: nat, lo: nat, hi: nat) { c % 2 == 1 && lo <= c <= hi }

  /** One lane: the candidates it has kept, and its bookkeeping. */
  class SieveLane {
    var remaining: nat
    const batch: nat
    const lo: nat
    const hi: nat
    var found: seq<nat>

    constructor (remaining: nat, batch: nat, lo: nat, hi: nat)
      ensures this.remaining == remaining && this.batch == batch && this.lo == lo && this.hi == hi && found == []
    {
      this.remaining, this.batch, this.lo, this.hi, found := remaining, batch, lo, hi, [];
    }

    /** sieve_work on a copy of the shared sieve: exactly the primes among the
        candidates are kept -- and 1, when the range starts that low. */
    method Work(copy: seq<nat>) returns (news: seq<nat>, tried: seq<nat>)
      requires PrimeRun(copy) && lo < hi
      modifies this
      ensures PrimeRun(copy + news) && Increasing(news)
      ensures |tried| == (if batch < old(remaining) then batch else old(remaining)) && remaining == old(remaining) - |tried|
      ensures AllDrawn(tried, lo, hi) && Covers(copy + news, tried)
      ensures found == old(found) + Kept(tried)
    {
      var sieve := copy;
      news, tried := [], [];
      var count := if batch < remaining then batch else remaining;
      assert copy + news == copy && Kept(tried) == [];
      for k := 0 to count
        invariant sieve == copy + news && PrimeRun(sieve) && |tried| == k && remaining == old(remaining)
        invariant AllDrawn(tried, lo, hi) && Covers(sieve, tried)
        invariant found == old(found) + Kept(tried)
      {
        var random: nat :| lo <= random < hi;
        var c := OrOne(random);
        var more, keep;
        ghost var before := sieve;
        sieve, more, keep := Try(sieve, c);
        CoversMore(before, more, tried);
        Longer(copy, news, more);
        news := news + more;
        if keep { found := found + [c]; }
        KeptNext(tried, c);
        tried := tried + [c];
      }
      remaining := remaining - count;
      Rising(copy, news);
    }
  }

  /** The sieve reaches past the square root of every candidate tried. */
  ghost predicate Covers(sieve: seq<nat>, tried: seq<nat>) {
    sieve != [] && forall i :: 0 <= i < |tried| ==> Last(sieve) >= Isqrt(tried[i]) + 1
  }

  lemma CoversMore(sieve: seq<nat>, more: seq<nat>, tried: seq<nat>)
    requires PrimeRun(sieve) && PrimeRun(sieve + more) && Covers(sieve, tried)
    ensures Covers(sieve + more, tried)
  {
    if more != [] { assert (sieve + more)[|sieve| - 1] < (sieve + more)[|sieve + more| - 1]; }
  }

  /** The candidates that are kept: the primes, and 1. */
  ghost function Kept(tried: seq<nat>): (kept: seq<nat>) {
    if tried == [] then [] else
      var c := tried[|tried|-1];
      Kept(tried[..|tried|-1]) + if IsPrime(c) || c == 1 then [c] else []
  }

  lemma KeptNext(tried: seq<nat>, c: nat)
    ensures Kept(tried + [c]) == Kept(tried) + if IsPrime(c) || c == 1 then [c] else []
  {
    assert (tried + [c])[..|tried|] == tried;
  }

  lemma Longer(copy: seq<nat>, news: seq<nat>, more: seq<nat>)
    ensures copy + news + more == copy + (news + more)
  {
  }

  lemma Rising(copy: seq<nat>, news: seq<nat>)
    requires Increasing(copy + news)
    ensures Increasing(news)
  {
    forall i, j | 0 <= i < j < |news| ensures news[i] < news[j] {
      assert (copy + news)[|copy| + i] < (copy + news)[|copy| + j];
    }
  }

  /** Every candidate kept is prime, if and only if 1 is not among those tried. */
  lemma {:induction false} KeptPrimeIff(tried: seq<nat>)
    ensures (forall c :: c in Kept(tried) ==> IsPrime(c)) <==> 1 !in tried
    ensures forall c :: c in Kept(tried) <==> c in tried && (IsPrime(c) || c == 1)
  {
    if tried != [] {
      var n := |tried| - 1;
      KeptPrimeIff(tried[..n]);
      assert tried == tried[..n] + [tried[n]];
      assert !IsPrime(1);
      if 1 in tried { assert 1 in Kept(tried); }
    }
  }

  // ------------------------------------------------------------------- the range

  /** The candidates that can be drawn from a range are those that come of a random
      number in it. */
  lemma DrawnIff(c: nat, lo: nat, hi: nat)
    requires lo < hi
    ensures Drawn(c, lo, hi) <==> exists random: nat :: lo <= random < hi && OrOne(random) == c
  {
    if Drawn(c, lo, hi) {
      var random := if c < hi then c else c - 1;
      assert lo <= random < hi && OrOne(random) == c;
    }
  }

  ghost predicate AllDrawn(tried: seq<nat>, lo: nat, hi: nat) { forall i :: 0 <= i < |tried| ==> Drawn(tried[i], lo, hi) }

  /** Whatever is drawn, only primes are kept, if and only if the range starts at 2
      or later. */
  lemma RangeKeepsPrimesIff(lo: nat, hi: nat)
    requires lo < hi
    ensures (forall tried :: AllDrawn(tried, lo, hi) ==> forall c :: c in Kept(tried) ==> IsPrime(c)) <==> lo >= 2
  {
    if lo >= 2 {
      forall tried, c | AllDrawn(tried, lo, hi) && c in Kept(tried) ensures IsPrime(c) { KeptPrimeIff(tried); }
    } else {
      OneKept(lo, hi);
    }
  }

  /** Otherwise 1 can be drawn, and is kept. */
  lemma OneKept(lo: nat, hi: nat)
    requires lo < 2 && lo < hi
    ensures AllDrawn([1], lo, hi) && 1 in Kept([1]) && !IsPrime(1)
  {
    KeptPrimeIff([1]);
  }

  function Pow2(n: nat): (p: nat)
    ensures p >= 1 && (n >= 1 ==> p >= 2)
  {
    if n == 0 then 1 else 2 * Pow2(n - 1)
  }

  /** main's range of `bits`-bit candidates is one that can be drawn from when there
      are at least two bits, and then only primes are kept. */
  lemma MainKeepsPrimes(bits: nat)
    requires bits >= 1
    ensures var lo, hi := Pow2(bits - 1), Pow2(bits) - 1;
      && (lo < hi <==> bits >= 2)
      && (lo < hi ==> forall tried :: AllDrawn(tried, lo, hi) ==> forall c :: c in Kept(tried) ==> IsPrime(c))
  {
    var lo, hi := Pow2(bits - 1), Pow2(bits) - 1;
    if lo < hi { RangeKeepsPrimesIff(lo, hi); }
  }

  lemma Prefixes(a: seq<nat>, b: seq<nat>, c: seq<nat>)
    requires a <= b <= c
    ensures a <= c
  {
  }

  /** What _merge_sieve makes of a board and an update to an earlier state of it. */
  lemma Merged(board: seq<nat>, u: Update, merged: seq<nat>)
    requires PrimeRun(board) && u.base <= board && PrimeRun(u.base + u.news)
    requires exists k | 0 <= k <= |u.news| ::
      && merged == board + u.news[k..]
      && forall i :: 0 <= i < |u.news| ==> (u.news[i] <= Last(board) <==> i < k)
    ensures merged == if |board| >= |u.base + u.news| then board else u.base + u.news
    ensures PrimeRun(merged) && board <= merged
  {
    var k :| 0 <= k <= |u.news| && merged == board + u.news[k..]
      && forall i :: 0 <= i < |u.news| ==> (u.news[i] <= Last(board) <==> i < k);
    MergeKeepsRun(board, u.base, u.news, k);
    if |board| < |u.base + u.news| { RunsNest(board, u.base + u.news); }
  }

  /** Each copy in a lane's hands was the board at an earlier time. */
  ghost predicate CopiesOK(board: seq<nat>, copies: map<nat, seq<nat>>) {
    forall i :: i in copies ==> copies[i] <= board && PrimeRun(copies[i])
  }

  /** Each update sent extends what the board was at an earlier time. */
  ghost predicate PendingOK(board: seq<nat>, pending: seq<Update>) {
    forall i :: 0 <= i < |pending| ==> pending[i].base <= board && PrimeRun(pending[i].base + pending[i].news)
  }

  lemma MoreCopies(board: seq<nat>, copies: map<nat, seq<nat>>, i: nat)
    requires PrimeRun(board) && CopiesOK(board, copies)
    ensures CopiesOK(board, copies[i := board])
  {
  }

  lemma LessCopies(board: seq<nat>, copies: map<nat, seq<nat>>, i: nat)
    requires CopiesOK(board, copies) && i in copies
    ensures CopiesOK(board, copies - {i}) && PrimeRun(copies[i]) && copies[i] <= board
  {
  }

  lemma MorePending(board: seq<nat>, pending: seq<Update>, u: Update)
    requires PendingOK(board, pending) && u.base <= board && PrimeRun(u.base + u.news)
    ensures PendingOK(board, pending + [u])
  {
  }

  lemma BoardGrows(board: seq<nat>, merged: seq<nat>, copies: map<nat, seq<nat>>, pending: seq<Update>)
    requires board <= merged && CopiesOK(board, copies) && PendingOK(board, pending)
    ensures CopiesOK(merged, copies) && PendingOK(merged, pending)
  {
    forall i | i in copies ensures copies[i] <= merged { Prefixes(copies[i], board, merged); }
    forall i | 0 <= i < |pending| ensures pending[i].base <= merged { Prefixes(pending[i].base, board, merged); }
  }

  lemma OneFewer(board: seq<nat>, pending: seq<Update>)
    requires PendingOK(board, pending) && pending != []
    ensures PendingOK(board, pending[1..])
  {
  }

  /** The noticeboard's "sieve" entry, seeded; the copies the lanes are working on;
      and the updates sent to the mutator. */
  class SharedSieve {
    var board: seq<nat>
    var copies: map<nat, seq<nat>>       // the behavior of lane i has read this
    var pending: seq<Update>

    ghost predicate Valid()
      reads this
    {
      PrimeRun(board) && CopiesOK(board, copies) && PendingOK(board, pending)
    }

    constructor (seed: seq<nat>)
      requires PrimeRun(seed)
      ensures Valid() && board == seed && copies == map[] && pending == []
    {
      board, copies, pending := seed, map[], [];
    }

    /** The behavior of lane `i` reads the board. */
    method Read(i: nat)
      requires Valid() && i !in copies
      modifies this`copies
      ensures Valid() && copies == old(copies)[i := board]
    {
      MoreCopies(board, copies, i);
      copies := copies[i := board];
    }

    /** The copy it has in hand, which was the board at an earlier time. */
    method TakeCopy(i: nat)
      requires Valid() && i in copies
      modifies this`copies
      ensures Valid() && copies == old(copies) - {i} && PrimeRun(old(copies)[i]) && old(copies)[i] <= board
    {
      LessCopies(board, copies, i);
      copies := copies - {i};
    }

    /** notice_update */
    method Post(copy: seq<nat>, news: seq<nat>)
      requires Valid() && copy <= board && PrimeRun(copy + news)
      modifies this`pending
      ensures Valid() && pending == old(pending) + [Update(copy, news)]
    {
      MorePending(board, pending, Update(copy, news));
      pending := pending + [Update(copy, news)];
    }

    /** It has worked on what it read, whatever others did meanwhile, and sends what
        it found beyond that, if anything. */
    method Send(i: nat, lane: SieveLane) returns (tried: seq<nat>, news: seq<nat>)
      requires Valid() && i in copies && lane.lo < lane.hi
      modifies this`copies, this`pending, lane
      ensures Valid() && copies == old(copies) - {i}
      ensures pending == old(pending) + if news == [] then [] else [Update(old(copies)[i], news)]
      ensures PrimeRun(old(copies)[i] + news) && Covers(old(copies)[i] + news, tried)
      ensures |tried| == (if lane.batch < old(lane.remaining) then lane.batch else old(lane.remaining))
      ensures AllDrawn(tried, lane.lo, lane.hi) && lane.found == old(lane.found) + Kept(tried)
    {
      var copy := copies[i];
      TakeCopy(i);
      news, tried := lane.Work(copy);
      if news != [] { Post(copy, news); }
    }

    /** One update: the board becomes the longer of what it was and what the lane had. */
    method Merge()
      requires Valid() && pending != []
      modifies this`board, this`pending
      ensures Valid() && old(board) <= board && pending == old(pending)[1..]
      ensures var u := old(pending)[0];
        board == if |old(board)| >= |u.base + u.news| then old(board) else u.base + u.news
    {
      var u := pending[0];
      Rising(u.base, u.news);
      var merged := MergeSieve(board, u.news);
      Merged(board, u, merged);
      BoardGrows(board, merged, copies, pending);
      OneFewer(merged, pending);
      board := merged;
      pending := pending[1..];
    }

    /** A lane reads, or sends, or the mutator takes an update, if it can. */
    method TakeTurn(lanes: seq<SieveLane>, t: Turn)
      requires Valid() && forall i :: 0 <= i < |lanes| ==> lanes[i].lo < lanes[i].hi
      modifies this, lanes
      ensures Valid() && old(board) <= board
    {
      match t {
        case Reads(i) => if i < |lanes| && i !in copies { Read(i); }
        case Sends(i) => if i < |lanes| && i in copies { SendTurn(i, lanes[i]); }
        case Merges => if pending != [] { Merge(); }
      }
    }

    method SendTurn(i: nat, lane: SieveLane)
      requires Valid() && i in copies && lane.lo < lane.hi
      modifies this`copies, this`pending, lane
      ensures Valid()
    {
      var _, _ := Send(i, lane);
    }

    /** Any number of lanes, which read, send and are merged in any order. */
    method Interleave(lanes: seq<SieveLane>, schedule: seq<Turn>)
      requires Valid() && forall i :: 0 <= i < |lanes| ==> lanes[i].lo < lanes[i].hi
      modifies this, lanes
      ensures Valid() && old(board) <= board
    {
      for n := 0 to |schedule|
        invariant Valid() && old(board) <= board
      {
        ghost var before := board;
        TakeTurn(lanes, schedule[n]);
        Prefixes(old(board), before, board);
      }
    }
  }

  datatype Turn = Reads(i: nat) | Sends(i: nat) | Merges

  /** The seed main writes. */
  lemma SeedIsRun()
    ensures PrimeRun([2, 3, 5, 7, 11, 13, 17, 19])
  {
    var s := [2, 3, 5, 7, 11, 13, 17, 19];
    forall i | 0 <= i < |s| ensures IsPrime(s[i]) {
      forall d: nat | 2 <= d < s[i] ensures !Divides(d, s[i]) { }
    }
    forall p: nat {:trigger IsPrime(p)} | IsPrime(p) && p <= 19 ensures p in s {
      if p % 2 == 0 && p != 2 { assert Divides(2, p); }
      if p % 3 == 0 && p != 3 { assert Divides(3, p); }
    }
  }
}
