/** Building a behavior's request array: one request per distinct cown, sorted
    by address, with the count corrected for the duplicates dropped. */
module CreateRequests {
  import opened CownProtocol

  /** The cowns a behavior needs: its result cown and its arguments. */
  function Needed(result: Cown, args: seq<Cown>): (r: set<Cown>) { {result} + KeySet(args) }

  predicate Distinct(s: seq<Cown>) {
    forall i, j :: 0 <= i < j < |s| ==> s[i] != s[j]
  }

  /** Linear search over the requests already made; request 0 is the result's
      and is not looked at. */
  method Seen(requests: array<Cown>, count: nat, cown: Cown) returns (seen: bool)
    requires 1 <= count <= requests.Length
    ensures seen <==> cown in requests[1..count]
  {
    seen := false;
    var j := 1;
    while j < count
      invariant 1 <= j <= count
      invariant seen <==> cown in requests[1..j]
    {
      if requests[j] == cown {
        return true;
      }
      assert requests[1..j+1] == requests[1..j] + [requests[j]];
      j := j + 1;
    }
  }

  function Swapped(s: seq<Cown>, j: nat): (r: seq<Cown>)
    requires 0 < j < |s|
  {
    s[j-1 := s[j]][j := s[j-1]]
  }

  lemma SwapKeeps(s: seq<Cown>, j: nat)
    requires 0 < j < |s| && Distinct(s)
    ensures Distinct(Swapped(s, j)) && multiset(Swapped(s, j)) == multiset(s)
  {
  }

  method Swap(a: array<Cown>, n: nat, j: nat)
    requires 0 < j < n <= a.Length
    modifies a
    ensures a[..n] == Swapped(old(a[..n]), j)
  {
    a[j-1], a[j] := a[j], a[j-1];
  }

  /** Everything is in place up to `i`, except perhaps the element at `j`. */
  predicate SortedBut(s: seq<Cown>, i: nat, j: nat) {
    i < |s| && forall x, y :: 0 <= x < y <= i && y != j ==> s[x] < s[y]
  }

  lemma SwapSorts(s: seq<Cown>, i: nat, j: nat)
    requires SortedBut(s, i, j) && 0 < j <= i && s[j-1] > s[j]
    ensures SortedBut(Swapped(s, j), i, j - 1)
  {
  }

  /** Moves a[i] down into the sorted prefix a[..i]. */
  method Sink(a: array<Cown>, n: nat, i: nat)
    requires i < n <= a.Length && Sorted(a[..n][..i]) && Distinct(a[..n])
    modifies a
    ensures Sorted(a[..n][..i+1]) && Distinct(a[..n])
    ensures multiset(a[..n]) == old(multiset(a[..n]))
  {
    var j := i;
    while j > 0 && a[j-1] > a[j]
      invariant 0 <= j <= i
      invariant SortedBut(a[..n], i, j)
      invariant multiset(a[..n]) == old(multiset(a[..n])) && Distinct(a[..n])
    {
      SwapKeeps(a[..n], j);
      SwapSorts(a[..n], i, j);
      Swap(a, n, j);
      j := j - 1;
    }
    assert j > 0 ==> a[..n][j-1] < a[..n][j];
  }

  /** qsort by target address. */
  method SortByTarget(a: array<Cown>, n: nat)
    requires n <= a.Length && Distinct(a[..n])
    modifies a
    ensures Sorted(a[..n]) && multiset(a[..n]) == old(multiset(a[..n]))
  {
    var i := 0;
    while i < n
      invariant 0 <= i <= n
      invariant Sorted(a[..n][..i])
      invariant multiset(a[..n]) == old(multiset(a[..n])) && Distinct(a[..n])
    {
      Sink(a, n, i);
      i := i + 1;
    }
    assert a[..n][..n] == a[..n];
  }

  /** BehaviorCapsule_create_requests, together with the count the capsule was
      built with.  Dropping a duplicate calls behavior_resolve_one; the count
      never reaches 0 there, so nothing is dispatched before it is linked. */
  method BuildRequests(result: Cown, args: seq<Cown>) returns (order: seq<Cown>, count: int, dispatched: bool)
    requires result !in args
    ensures Sorted(order) && KeySet(order) == Needed(result, args)
    ensures count == |order| + 1 && !dispatched
  {
    count := |args| + 2;
    dispatched := false;
    var requests := new Cown[|args| + 1];
    requests[0] := result;
    var n := 1;
    var i := 0;
    while i < |args|
      invariant 0 <= i <= |args| && 1 <= n <= i + 1
      invariant Distinct(requests[..n])
      invariant KeySet(requests[..n]) == Needed(result, args[..i])
      invariant requests[0] == result
      invariant count == |args| + 2 - (i + 1 - n) && !dispatched
    {
      var seen := Seen(requests, n, args[i]);
      GrowNeeded(result, args, i);
      GrowKeys(requests[..n], args[i]);
      assert args[i] in requests[..n] <==> seen by {
        assert requests[..n] == [result] + requests[1..n];
      }
      if seen {
        count := count - 1;
        if count == 0 { dispatched := true; }
      } else {
        ghost var before := requests[..n];
        requests[n] := args[i];
        assert requests[..n+1] == before + [args[i]];
        n := n + 1;
      }
      i := i + 1;
    }
    ghost var before := requests[..n];
    SortByTarget(requests, n);
    SameKeys(before, requests[..n]);
    order := requests[..n];
    assert args[..|args|] == args;
  }

  lemma GrowNeeded(result: Cown, args: seq<Cown>, i: nat)
    requires i < |args|
    ensures Needed(result, args[..i+1]) == Needed(result, args[..i]) + {args[i]}
  {
    assert args[..i+1] == args[..i] + [args[i]];
  }

  lemma GrowKeys(s: seq<Cown>, c: Cown)
    ensures KeySet(s + [c]) == KeySet(s) + {c}
    ensures c in s ==> KeySet(s) + {c} == KeySet(s)
    ensures Distinct(s) && c !in s ==> Distinct(s + [c])
  {
  }

  lemma SameKeys(s: seq<Cown>, t: seq<Cown>)
    requires multiset(s) == multiset(t)
    ensures KeySet(s) == KeySet(t)
  {
    forall c ensures c in s <==> c in t {
      assert c in s <==> c in multiset(s);
      assert c in t <==> c in multiset(t);
    }
  }
}
