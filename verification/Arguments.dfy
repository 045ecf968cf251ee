/** From the arguments of `whencall` to signed group ids, and back to the argument
    tuple of the behavior's body. */
module Arguments {
  import opened Wrappers

  type Cown = nat
  type Value = nat

  const INT_MAX: int := 0x7FFF_FFFF
  const INT_MIN: int := -0x8000_0000
  const SSIZE_MAX: int := 0x7FFF_FFFF_FFFF_FFFF

  /** An argument of whencall: a cown, a list or tuple, or something else. */
  datatype Arg = One(c: Cown) | Many(cs: seq<Element>) | Other
  datatype Element = IsCown(c: Cown) | NotCown

  /** What the body is given. */
  datatype Slot = Capsule(c: Cown) | Group(cs: seq<Cown>) | Capture(v: Value)

  type Pair = (int, Cown)   // (group id, cown)

  // ----------------------------------------------------------------- flattening

  predicate WellTyped(a: Arg) {
    match a
    case One(_) => true
    case Many(cs) => forall i :: 0 <= i < |cs| ==> cs[i].IsCown?
    case Other => false
  }

  function Cowns(cs: seq<Element>): (r: seq<Cown>)
    requires WellTyped(Many(cs))
    ensures |r| == |cs| && forall i :: 0 <= i < |cs| ==> r[i] == cs[i].c
  {
    if cs == [] then [] else Cowns(cs[..|cs|-1]) + [cs[|cs|-1].c]
  }

  /** The pairs of one argument, which is number `id`. */
  function PairsOf(a: Arg, id: int): (ps: seq<Pair>)
    requires WellTyped(a)
  {
    match a
    case One(c) => [(id, c)]
    case Many(cs) => seq(|cs|, i requires 0 <= i < |cs| => (-id, cs[i].c))
  }

  /** The pairs of the arguments up to `n`. */
  function Flatten(args: seq<Arg>, n: nat): (ps: seq<Pair>)
    requires n <= |args| && forall i :: 0 <= i < n ==> WellTyped(args[i])
  {
    if n == 0 then [] else Flatten(args, n - 1) + PairsOf(args[n-1], n)
  }

  /** The loop of whencall; None is its TypeError. */
  method FlattenArgs(args: seq<Arg>) returns (r: Option<seq<Pair>>)
    ensures r.Some? <==> forall i :: 0 <= i < |args| ==> WellTyped(args[i])
    ensures r.Some? ==> r.value == Flatten(args, |args|)
  {
    var cowns: seq<Pair> := [];
    var groupId := 1;
    for n := 0 to |args|
      invariant groupId == n + 1
      invariant forall i :: 0 <= i < n ==> WellTyped(args[i])
      invariant cowns == Flatten(args, n)
    {
      match args[n] {
        case One(c) =>
          cowns := cowns + [(groupId, c)];
        case Many(cs) =>
          ghost var before := cowns;
          for k := 0 to |cs|
            invariant forall i :: 0 <= i < k ==> cs[i].IsCown?
            invariant cowns == before + seq(k, i requires 0 <= i < k => (-groupId, cs[i].c))
          {
            if !cs[k].IsCown? { return None; }
            cowns := cowns + [(-groupId, cs[k].c)];
          }
        case Other =>
          return None;
      }
      groupId := groupId + 1;
    }
    return Some(cowns);
  }

  // -------------------------------------------------------------- the range check

  function Abs(n: int): (a: nat) { if n < 0 then -n else n }

  /** A C int to start with; then not 0, not INT_MIN, and within the slots. */
  predicate InRange(g: int, slots: nat) {
    INT_MIN <= g <= INT_MAX && g != 0 && g != INT_MIN && Abs(g) <= slots
  }

  /** BehaviorCapsule_init accepts the capsule. */
  predicate Accepts(ps: seq<Pair>, slots: nat, captures: nat) {
    AllInRange(ps, slots) && slots + captures <= SSIZE_MAX
  }

  predicate Empty(a: Arg) { a == Many([]) }

  lemma PairsRange(a: Arg, id: nat, slots: nat)
    requires WellTyped(a) && 0 < id <= slots
    ensures (forall p :: p in PairsOf(a, id) ==> InRange(p.0, slots)) <==> Empty(a) || id <= INT_MAX
  {
    var ps := PairsOf(a, id);
    if !Empty(a) {
      if a.Many? { assert a.cs != []; }
      assert ps[0] in ps;
    }
  }

  lemma {:induction false} FlattenRange(args: seq<Arg>, n: nat)
    requires n <= |args| && forall i :: 0 <= i < |args| ==> WellTyped(args[i])
    ensures (forall p :: p in Flatten(args, n) ==> InRange(p.0, |args|)) <==> (forall i :: 0 <= i < n && !Empty(args[i]) ==> i < INT_MAX)
  {
    if n > 0 {
      FlattenRange(args, n - 1);
      PairsRange(args[n-1], n, |args|);
      var ps, qs := Flatten(args, n - 1), PairsOf(args[n-1], n);
      assert forall p :: p in ps + qs <==> p in ps || p in qs;
    }
  }

  /** Every argument list is accepted, unless a non-empty argument's number is no C
      int, or the sizes overflow. */
  lemma AcceptedIff(args: seq<Arg>, captures: nat)
    requires forall i :: 0 <= i < |args| ==> WellTyped(args[i])
    ensures Accepts(Flatten(args, |args|), |args|, captures) <==>
      (forall i :: 0 <= i < |args| && !Empty(args[i]) ==> i < INT_MAX) && |args| + captures <= SSIZE_MAX
  {
    var ps := Flatten(args, |args|);
    FlattenRange(args, |args|);
    assert (forall p :: p in ps ==> InRange(p.0, |args|)) <==> (forall i :: 0 <= i < |ps| ==> InRange(ps[i].0, |args|));
  }

  // ------------------------------------------------------------------ regrouping

  /** One turn of the loop of behavior_execute_impl; None is the failing append to a
      slot that holds a capsule. */
  function Place(slots: seq<Option<Slot>>, p: Pair): (r: Option<seq<Option<Slot>>>)
    requires 0 < Abs(p.0) <= |slots|
    ensures r.Some? ==> |r.value| == |slots|
  {
    var i := Abs(p.0) - 1;
    if p.0 > 0 then Some(slots[i := Some(Capsule(p.1))])
    else match slots[i]
      case None => Some(slots[i := Some(Group([p.1]))])
      case Some(Group(cs)) => Some(slots[i := Some(Group(cs + [p.1]))])
      case _ => None
  }

  predicate AllInRange(ps: seq<Pair>, slots: nat) { forall i :: 0 <= i < |ps| ==> InRange(ps[i].0, slots) }

  /** ... and all its turns. */
  function PlaceAll(ps: seq<Pair>, slots: nat): (r: Option<seq<Option<Slot>>>)
    requires AllInRange(ps, slots)
    ensures r.Some? ==> |r.value| == slots
  {
    if ps == [] then Some(seq(slots, _ => None)) else
      var before := PlaceAll(ps[..|ps|-1], slots);
      if before.None? then None else Place(before.value, ps[|ps|-1])
  }

  /** A slot that was never touched is an empty group. */
  function Filled(slots: seq<Option<Slot>>): (r: seq<Slot>)
    ensures |r| == |slots|
  {
    seq(|slots|, i requires 0 <= i < |slots| => if slots[i].None? then Group([]) else slots[i].value)
  }

  function Regroup(ps: seq<Pair>, slots: nat, captures: seq<Value>): (r: Option<seq<Slot>>)
    requires Accepts(ps, slots, |captures|)
  {
    var placed := PlaceAll(ps, slots);
    if placed.None? then None
    else Some(Filled(placed.value) + seq(|captures|, i requires 0 <= i < |captures| => Capture(captures[i])))
  }

  /** behavior_execute_impl, up to the call of the body. */
  method RegroupArgs(ps: seq<Pair>, slots: nat, captures: seq<Value>) returns (r: Option<seq<Slot>>)
    requires Accepts(ps, slots, |captures|)
    ensures r == Regroup(ps, slots, captures)
  {
    var tuple := new Option<Slot>[slots](_ => None);
    assert tuple[..] == seq(slots, _ => None);
    for i := 0 to |ps|
      invariant PlaceAll(ps[..i], slots) == Some(tuple[..])
    {
      assert ps[..i+1][..i] == ps[..i] && ps[..i+1][i] == ps[i];
      var (g, c) := ps[i];
      var slot := Abs(g) - 1;
      if g > 0 {
        tuple[slot] := Some(Capsule(c));
      } else {
        match tuple[slot] {
          case None => tuple[slot] := Some(Group([c]));
          case Some(Group(cs)) => tuple[slot] := Some(Group(cs + [c]));
          case _ =>
            NoneAfter(ps, i + 1, |ps|, slots);
            assert ps[..|ps|] == ps;
            return None;
        }
      }
    }
    assert ps[..|ps|] == ps;
    ghost var placed := tuple[..];
    for slot := 0 to slots
      invariant forall i :: 0 <= i < slots ==>
        tuple[i] == if i < slot && placed[i].None? then Some(Group([])) else placed[i]
    {
      if tuple[slot].None? { tuple[slot] := Some(Group([])); }
    }
    var args: seq<Slot> := [];
    for slot := 0 to slots
      invariant args == Filled(placed)[..slot]
    {
      args := args + [tuple[slot].value];
    }
    for i := 0 to |captures|
      invariant args == Filled(placed) + seq(i, k requires 0 <= k < i => Capture(captures[k]))
    {
      args := args + [Capture(captures[i])];
    }
    return Some(args);
  }

  lemma {:induction false} NoneAfter(ps: seq<Pair>, i: nat, n: nat, slots: nat)
    requires i <= n <= |ps| && AllInRange(ps, slots) && PlaceAll(ps[..i], slots).None?
    ensures PlaceAll(ps[..n], slots).None?
  {
    if i < n {
      NoneAfter(ps, i, n - 1, slots);
      assert ps[..n][..n-1] == ps[..n-1];
    }
  }

  // ------------------------------------------------------------------ round trip

  /** The argument as the body should see it. */
  function Seen(a: Arg): (s: Slot)
    requires WellTyped(a)
  {
    match a
    case One(c) => Capsule(c)
    case Many(cs) => Group(Cowns(cs))
  }

  /** The first `n` arguments are in their slots; empty groups, and the rest, are not yet. */
  predicate PlacedUpTo(slots: seq<Option<Slot>>, args: seq<Arg>, n: nat)
    requires n <= |args| == |slots| && forall i :: 0 <= i < |args| ==> WellTyped(args[i])
  {
    forall i :: 0 <= i < |args| ==> slots[i] == if i < n && !Empty(args[i]) then Some(Seen(args[i])) else None
  }

  /** Slot `n` after the first `k` pairs of its argument. */
  function Partly(a: Arg, k: nat): (s: Option<Slot>)
    requires WellTyped(a) && k <= |PairsOf(a, 1)|
  {
    if k == 0 then None else match a
      case One(c) => Some(Capsule(c))
      case Many(cs) => Some(Group(Cowns(cs)[..k]))
  }

  /** One more pair of argument `n`. */
  lemma PartlyStep(slots: seq<Option<Slot>>, a: Arg, n: nat, k: nat)
    requires WellTyped(a) && k < |PairsOf(a, n + 1)| && n < |slots| && slots[n] == Partly(a, k)
    ensures Place(slots, PairsOf(a, n + 1)[k]) == Some(slots[n := Partly(a, k + 1)])
  {
    if a.Many? {
      assert Cowns(a.cs)[..k+1] == Cowns(a.cs)[..k] + [a.cs[k].c];
      if k == 0 { assert Cowns(a.cs)[..k+1] == [a.cs[k].c]; }
    }
  }

  lemma PlaceOneMore(ps: seq<Pair>, p: Pair, slots: nat)
    requires AllInRange(ps + [p], slots)
    ensures AllInRange(ps, slots) && InRange(p.0, slots)
    ensures PlaceAll(ps, slots).Some? ==> PlaceAll(ps + [p], slots) == Place(PlaceAll(ps, slots).value, p)
  {
    forall i | 0 <= i < |ps| ensures InRange(ps[i].0, slots) { assert ps[i] == (ps + [p])[i]; }
    assert (ps + [p])[|ps|] == p && (ps + [p])[..|ps|] == ps;
  }

  lemma PlaceNext(done: seq<Option<Slot>>, a: Arg, n: nat, k: nat)
    requires WellTyped(a) && n < |done| && k < |PairsOf(a, n + 1)|
    ensures Place(done[n := Partly(a, k)], PairsOf(a, n + 1)[k]) == Some(done[n := Partly(a, k + 1)])
  {
    PartlyStep(done[n := Partly(a, k)], a, n, k);
    assert done[n := Partly(a, k)][n := Partly(a, k + 1)] == done[n := Partly(a, k + 1)];
  }

  /** Placing the pairs of argument `n`, once those before it are in place. */
  lemma {:induction false} PlaceArg(before: seq<Pair>, a: Arg, n: nat, k: nat, slots: nat, done: seq<Option<Slot>>)
    requires WellTyped(a) && n < slots && k <= |PairsOf(a, n + 1)|
    requires AllInRange(before + PairsOf(a, n + 1)[..k], slots) && AllInRange(before, slots)
    requires PlaceAll(before, slots) == Some(done) && done[n] == None
    ensures PlaceAll(before + PairsOf(a, n + 1)[..k], slots) == Some(done[n := Partly(a, k)])
  {
    var qs := PairsOf(a, n + 1);
    if k == 0 {
      assert before + qs[..0] == before && done[n := None] == done;
    } else {
      var ps := before + qs[..k-1];
      assert before + qs[..k] == ps + [qs[k-1]];
      PlaceOneMore(ps, qs[k-1], slots);
      PlaceArg(before, a, n, k - 1, slots, done);
      PlaceNext(done, a, n, k - 1);
    }
  }

  /** All the pairs of an argument leave it in its slot. */
  lemma PlaceWhole(before: seq<Pair>, a: Arg, n: nat, slots: nat, done: seq<Option<Slot>>)
    requires WellTyped(a) && n < slots && AllInRange(before + PairsOf(a, n + 1), slots) && AllInRange(before, slots)
    requires PlaceAll(before, slots) == Some(done) && done[n] == None
    ensures PlaceAll(before + PairsOf(a, n + 1), slots) == Some(done[n := if Empty(a) then None else Some(Seen(a))])
  {
    var qs := PairsOf(a, n + 1);
    assert qs[..|qs|] == qs;
    PlaceArg(before, a, n, |qs|, slots, done);
    if a.Many? { assert Cowns(a.cs)[..|qs|] == Cowns(a.cs); }
  }

  lemma RangePrefix(ps: seq<Pair>, qs: seq<Pair>, slots: nat)
    requires AllInRange(ps + qs, slots)
    ensures AllInRange(ps, slots)
  {
    forall i | 0 <= i < |ps| ensures InRange(ps[i].0, slots) { assert ps[i] == (ps + qs)[i]; }
  }

  lemma PlacedNext(slots: seq<Option<Slot>>, args: seq<Arg>, n: nat)
    requires (forall i :: 0 <= i < |args| ==> WellTyped(args[i])) && n < |args| == |slots| && PlacedUpTo(slots, args, n)
    ensures PlacedUpTo(slots[n := if Empty(args[n]) then None else Some(Seen(args[n]))], args, n + 1)
  {
  }

  /** The arguments up to `n` are in their slots, and no others. */
  predicate InPlace(args: seq<Arg>, n: nat)
    requires (forall i :: 0 <= i < |args| ==> WellTyped(args[i])) && n <= |args| && AllInRange(Flatten(args, n), |args|)
  {
    var r := PlaceAll(Flatten(args, n), |args|); r.Some? && PlacedUpTo(r.value, args, n)
  }

  lemma PlaceNextArg(args: seq<Arg>, n: nat)
    requires (forall i :: 0 <= i < |args| ==> WellTyped(args[i])) && n < |args|
    requires AllInRange(Flatten(args, n), |args|) && AllInRange(Flatten(args, n) + PairsOf(args[n], n + 1), |args|)
    requires InPlace(args, n)
    ensures Flatten(args, n + 1) == Flatten(args, n) + PairsOf(args[n], n + 1) && InPlace(args, n + 1)
  {
    var done := PlaceAll(Flatten(args, n), |args|).value;
    PlaceWhole(Flatten(args, n), args[n], n, |args|, done);
    PlacedNext(done, args, n);
  }

  lemma NothingPlaced(args: seq<Arg>)
    requires forall i :: 0 <= i < |args| ==> WellTyped(args[i])
    ensures AllInRange(Flatten(args, 0), |args|) && InPlace(args, 0)
  {
    assert Flatten(args, 0) == [];
  }

  lemma RangeBefore(args: seq<Arg>, n: nat)
    requires (forall i :: 0 <= i < |args| ==> WellTyped(args[i])) && n < |args| && AllInRange(Flatten(args, n + 1), |args|)
    ensures AllInRange(Flatten(args, n), |args|) && AllInRange(Flatten(args, n) + PairsOf(args[n], n + 1), |args|)
  {
    assert Flatten(args, n + 1) == Flatten(args, n) + PairsOf(args[n], n + 1);
    RangePrefix(Flatten(args, n), PairsOf(args[n], n + 1), |args|);
  }

  lemma {:induction false} PlaceArgs(args: seq<Arg>, n: nat)
    requires (forall i :: 0 <= i < |args| ==> WellTyped(args[i])) && n <= |args| && AllInRange(Flatten(args, n), |args|)
    ensures InPlace(args, n)
  {
    if n == 0 {
      NothingPlaced(args);
    } else {
      RangeBefore(args, n - 1);
      PlaceArgs(args, n - 1);
      PlaceNextArg(args, n - 1);
    }
  }

  /** Whatever the arguments -- single cowns and groups, empty ones too -- if they
      are accepted, the body gets them back in order, followed by the captures. */
  lemma RoundTrip(args: seq<Arg>, captures: seq<Value>)
    requires forall i :: 0 <= i < |args| ==> WellTyped(args[i])
    requires Accepts(Flatten(args, |args|), |args|, |captures|)
    ensures var r := Regroup(Flatten(args, |args|), |args|, captures);
      && r.Some? && |r.value| == |args| + |captures|
      && (forall i :: 0 <= i < |args| ==> r.value[i] == Seen(args[i]))
      && (forall i :: 0 <= i < |captures| ==> r.value[|args| + i] == Capture(captures[i]))
  {
    PlaceArgs(args, |args|);
  }
}
