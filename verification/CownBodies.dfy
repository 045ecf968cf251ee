/** What a body can rely on: it runs with every cown it uses acquired, by its own
    interpreter, and nobody else's body has any of them. */
module CownBodies {
  import opened Wrappers
  import opened RequestQueue
  import opened CownProtocol
  import opened CownInvariant
  import opened CownSteps
  import opened CownRelease
  import opened CownTheorems
  import opened CownValues

  /** `c` is `b`'s to use: acquired for it by the interpreter that runs it, or pinned
      on the main one, which is where it runs. */
  predicate Has(v: Values, b: Bid, c: Cown)
    requires Sized(v) && b < |v.s.beh|
  {
    if c in v.pinned then v.on[b] == MAIN
    else c in v.owner && v.owner[c] == v.on[b] && c in v.holder && v.holder[c] == b
  }

  /** What the loop of acquires has reached, or the loop of releases has still to come to. */
  predicate Reached(v: Values, b: Bid, c: Cown)
    requires Sized(v) && b < |v.s.beh|
  {
    match v.exec[b]
    case Acquiring(at) => at <= |v.uses[b]| && c in v.uses[b][..at]
    case Dropping(at) => at <= |v.uses[b]| && c in v.uses[b] && c !in v.uses[b][..at]
    case _ => false
  }

  ghost predicate Acquired(v: Values) {
    Sized(v) && forall b: Bid, c: Cown {:trigger Reached(v, b, c)} :: b < |v.s.beh| && Reached(v, b, c) ==> Has(v, b, c)
  }

  // ------------------------------------------------------------- preservation

  /** One more cown is acquired. */
  lemma AcquireTakes(v: Values, b: Bid)
    requires ValuesOK(v) && CanMove(v, AcquireOne(b))
    ensures Has(Make(v, AcquireOne(b)), b, v.uses[b][v.exec[b].at])
  {
    AcquireSucceeds(v, b);
    var c := v.uses[b][v.exec[b].at];
    if c in v.pinned { assert c in v.uses[b] && v.flag[b]; }
    if c in v.owner { assert OwnerOK(v, c); }
  }

  /** What the others have stays theirs. */
  lemma OthersHave(v: Values, m: Move, a: Bid, d: Cown)
    requires ValuesOK(v) && CanMove(v, m) && (m.AcquireOne? || m.DropOne?) && a < |v.s.beh| && a != m.b
    requires Reached(v, a, d) && Has(v, a, d)
    ensures Has(Make(v, m), a, d)
  {
    var c := v.uses[m.b][v.exec[m.b].at];
    assert d in v.uses[a];
    if c == d { UsesDisjoint(v, a, m.b, c); }
  }

  lemma AcquireKeepsAll(v: Values, b: Bid)
    requires ValuesOK(v) && Acquired(v) && CanMove(v, AcquireOne(b))
    ensures Acquired(Make(v, AcquireOne(b)))
  {
    var v', i := Make(v, AcquireOne(b)), v.exec[b].at;
    assert v.uses[b][..i+1] == v.uses[b][..i] + [v.uses[b][i]];
    forall a: Bid, d: Cown {:trigger Reached(v', a, d)} | a < |v'.s.beh| && Reached(v', a, d) ensures Has(v', a, d) {
      if a != b { assert Reached(v, a, d); OthersHave(v, AcquireOne(b), a, d); }
      else if d == v.uses[b][i] { AcquireTakes(v, b); }
      else { assert Reached(v, b, d); }
    }
  }

  lemma DropKeepsAll(v: Values, b: Bid)
    requires ValuesOK(v) && Acquired(v) && CanMove(v, DropOne(b))
    ensures Acquired(Make(v, DropOne(b)))
  {
    var v', i := Make(v, DropOne(b)), v.exec[b].at;
    assert v.uses[b][..i+1] == v.uses[b][..i] + [v.uses[b][i]];
    ReleaseSucceeds(v, b);
    forall a: Bid, d: Cown {:trigger Reached(v', a, d)} | a < |v'.s.beh| && Reached(v', a, d) ensures Has(v', a, d) {
      assert Reached(v, a, d);
      if a != b { OthersHave(v, DropOne(b), a, d); }
    }
  }

  /** A move that acquires and releases nothing, and starts or ends at most one behavior. */
  lemma QuietKeepsAll(v: Values, m: Move)
    requires ValuesOK(v) && Acquired(v) && CanMove(v, m) && !m.AcquireOne? && !m.DropOne? && ValuesOK(Make(v, m))
    ensures Acquired(Make(v, m))
  {
    var v' := Make(v, m);
    forall a: Bid, d: Cown {:trigger Reached(v', a, d)} | a < |v'.s.beh| && Reached(v', a, d) ensures Has(v', a, d) {
      Before(v, m, a, d);
    }
  }

  lemma Before(v: Values, m: Move, a: Bid, d: Cown)
    requires Sized(v) && Acquired(v) && CanMove(v, m) && !m.AcquireOne? && !m.DropOne? && Sized(Make(v, m))
    requires forall b :: 0 <= b < |v.s.beh| ==> (v.s.beh[b].run.Running? <==> v.exec[b].Acquiring? || v.exec[b].Dropping?)
    requires a < |Make(v, m).s.beh| && Reached(Make(v, m), a, d)
    ensures a < |v.s.beh| && Reached(v, a, d) && Has(Make(v, m), a, d)
  {
    if m.Body? { assert v.uses[m.b][..|v.uses[m.b]|] == v.uses[m.b]; }
    assert Reached(v, a, d);
  }

  lemma MoveKeepsAll(v: Values, m: Move)
    requires ValuesOK(v) && Acquired(v) && CanMove(v, m)
    ensures Acquired(Make(v, m))
  {
    if m.AcquireOne? { AcquireKeepsAll(v, m.b); }
    else if m.DropOne? { DropKeepsAll(v, m.b); }
    else { MoveKeeps(v, m); QuietKeepsAll(v, m); }
  }

  lemma {:induction false} RunsAcquired(vs: seq<Values>, ms: seq<Move>, i: nat)
    requires IsValueRun(vs, ms) && i < |vs|
    ensures ValuesOK(vs[i]) && Acquired(vs[i])
  {
    if i == 0 {
      StartOK(vs[0].pinned);
    } else {
      RunsAcquired(vs, ms, i - 1);
      MoveKeepsAll(vs[i-1], ms[i-1]);
      RunsKeepValues(vs, ms, i);
    }
  }

  // ------------------------------------------------------------------ the body

  /** In every run, when a body is about to run every cown it uses is its own: acquired
      for it by its interpreter, or pinned, and then it is on the main one. */
  lemma BodyHasAll(vs: seq<Values>, ms: seq<Move>, i: nat, c: Cown)
    requires IsValueRun(vs, ms) && i < |ms| && ms[i].Body?
    ensures Sized(vs[i]) && CanMove(vs[i], ms[i])
    ensures c in vs[i].uses[ms[i].b] ==> Has(vs[i], ms[i].b, c)
  {
    RunsAcquired(vs, ms, i);
    var v, b := vs[i], ms[i].b;
    if c in v.uses[b] {
      assert v.uses[b][..|v.uses[b]|] == v.uses[b];
      assert Reached(v, b, c);
    }
  }

  /** In its body, or between its acquires and its releases. */
  predicate InBody(v: Values, b: Bid)
    requires Sized(v)
  {
    b < |v.s.beh| && ((v.exec[b].Acquiring? && v.exec[b].at == |v.uses[b]|) || (v.exec[b].Dropping? && v.exec[b].at == 0))
  }

  /** Two bodies that are at it at once use no cown in common, and each has all of its own. */
  lemma BodiesApart(vs: seq<Values>, ms: seq<Move>, i: nat, a: Bid, b: Bid, c: Cown)
    requires IsValueRun(vs, ms) && i < |vs| && Sized(vs[i]) && InBody(vs[i], a) && InBody(vs[i], b)
    ensures c in vs[i].uses[a] ==> Has(vs[i], a, c)
    ensures a != b ==> !(c in vs[i].uses[a] && c in vs[i].uses[b])
  {
    RunsAcquired(vs, ms, i);
    var v := vs[i];
    if c in v.uses[a] {
      assert v.uses[a][..|v.uses[a]|] == v.uses[a];
      assert Reached(v, a, c);
      if c in v.uses[b] { UsesDisjoint(v, a, b, c); }
    }
  }

  // -------------------------------------------------------- from pop to last release

  /** What a list of moves, made one after the other, leads to. */
  predicate Makes(v: Values, ms: seq<Move>, z: Values)
    decreases |ms|
  {
    if ms == [] then z == v else Sized(v) && CanMove(v, ms[0]) && Makes(Make(v, ms[0]), ms[1..], z)
  }

  /** Everyone else has what they had. */
  predicate SameElse(v: Values, z: Values, b: Bid) {
    && (forall c :: c in v.owner && c in v.holder && v.holder[c] != b ==>
          c in z.owner && c in z.holder && z.owner[c] == v.owner[c] && z.holder[c] == v.holder[c])
    && (forall c :: c in z.owner && c in z.holder && z.holder[c] != b ==>
          c in v.owner && c in v.holder && z.owner[c] == v.owner[c] && z.holder[c] == v.holder[c])
  }

  /** Only `b` moved on, to `e`. */
  predicate OnlyRan(v: Values, z: Values, b: Bid, e: Exec) {
    && b < |v.exec| && z.s == v.s && z.uses == v.uses && z.flag == v.flag && z.on == v.on && z.pinned == v.pinned
    && z.exec == v.exec[b := e] && SameElse(v, z, b)
  }

  lemma RanOn(v: Values, y: Values, z: Values, b: Bid, e: Exec, f: Exec)
    requires OnlyRan(v, y, b, e) && OnlyRan(y, z, b, f)
    ensures OnlyRan(v, z, b, f)
  {
  }

  lemma AcquireRuns(v: Values, b: Bid)
    requires ValuesOK(v) && CanMove(v, AcquireOne(b))
    ensures ValuesOK(Make(v, AcquireOne(b))) && OnlyRan(v, Make(v, AcquireOne(b)), b, Acquiring(v.exec[b].at + 1))
  {
    MoveKeeps(v, AcquireOne(b));
    AcquireSucceeds(v, b);
  }

  lemma DropRuns(v: Values, b: Bid)
    requires ValuesOK(v) && CanMove(v, DropOne(b))
    ensures ValuesOK(Make(v, DropOne(b))) && OnlyRan(v, Make(v, DropOne(b)), b, Dropping(v.exec[b].at + 1))
  {
    MoveKeeps(v, DropOne(b));
    ReleaseSucceeds(v, b);
  }

  lemma BodyRuns(v: Values, b: Bid)
    requires ValuesOK(v) && CanMove(v, Body(b))
    ensures ValuesOK(Make(v, Body(b))) && OnlyRan(v, Make(v, Body(b)), b, Dropping(0))
  {
    MoveKeeps(v, Body(b));
  }

  lemma MakesFirst(v: Values, m: Move, ms: seq<Move>, z: Values)
    requires Sized(v) && CanMove(v, m) && Makes(Make(v, m), ms, z)
    ensures Makes(v, [m] + ms, z)
  {
    assert ([m] + ms)[1..] == ms;
  }

  /** The releases that are left. */
  lemma {:induction false} DropsOn(v: Values, b: Bid) returns (ms: seq<Move>, z: Values)
    requires ValuesOK(v) && b < |v.exec| && v.exec[b].Dropping?
    ensures Makes(v, ms, z) && ValuesOK(z) && OnlyRan(v, z, b, Dropping(|v.uses[b]|))
    decreases |v.uses[b]| - v.exec[b].at
  {
    if v.exec[b].at == |v.uses[b]| {
      ms, z := [], v;
    } else {
      var y := Make(v, DropOne(b));
      DropRuns(v, b);
      ms, z := DropsOn(y, b);
      RanOn(v, y, z, b, y.exec[b], Dropping(|v.uses[b]|));
      MakesFirst(v, DropOne(b), ms, z);
      ms := [DropOne(b)] + ms;
    }
  }

  /** The acquires that are left, the body and the releases. */
  lemma {:induction false} RunsOn(v: Values, b: Bid) returns (ms: seq<Move>, z: Values)
    requires ValuesOK(v) && b < |v.exec| && v.exec[b].Acquiring?
    ensures Makes(v, ms, z) && ValuesOK(z) && Body(b) in ms && OnlyRan(v, z, b, Dropping(|v.uses[b]|))
    decreases |v.uses[b]| - v.exec[b].at
  {
    if v.exec[b].at == |v.uses[b]| {
      BodyRuns(v, b);
      ms, z := DropsOn(Make(v, Body(b)), b);
      RanOn(v, Make(v, Body(b)), z, b, Dropping(0), Dropping(|v.uses[b]|));
      MakesFirst(v, Body(b), ms, z);
      ms := [Body(b)] + ms;
    } else {
      var y := Make(v, AcquireOne(b));
      AcquireRuns(v, b);
      ms, z := RunsOn(y, b);
      RanOn(v, y, z, b, y.exec[b], Dropping(|v.uses[b]|));
      MakesFirst(v, AcquireOne(b), ms, z);
      ms := [AcquireOne(b)] + ms;
    }
  }

  /** Whatever the others hold, a queued behavior that is popped where it may be can
      acquire all it uses, run its body and release everything, on its own; and that
      leaves the owners as they were.  It can then end as soon as every `whencall` made
      from its body has returned. */
  lemma Executes(v: Values, b: Bid, who: Interp) returns (ms: seq<Move>, z: Values)
    requires ValuesOK(v) && b < |v.s.beh| && v.s.beh[b].run.Queued? && (v.flag[b] ==> who == MAIN)
    ensures Makes(v, ms, z) && ValuesOK(z) && Body(b) in ms && z.exec == v.exec[b := Dropping(|v.uses[b]|)] && z.owner == v.owner
    ensures CanMove(z, BodyEnd(b)) <==> BodyIdle(z.s, b)
  {
    PopRuns(v, b, who);
    ms, z := RunsOn(Make(v, Pop(b, who)), b);
    MakesFirst(v, Pop(b, who), ms, z);
    ms := [Pop(b, who)] + ms;
    NoneLeft(v, z, b);
    EndsIff(z, b);
  }

  lemma PopRuns(v: Values, b: Bid, who: Interp)
    requires ValuesOK(v) && b < |v.s.beh| && v.s.beh[b].run.Queued? && (v.flag[b] ==> who == MAIN)
    ensures !v.exec[b].Acquiring? && !v.exec[b].Dropping? && CanMove(v, Pop(b, who))
    ensures var y := Make(v, Pop(b, who));
      && ValuesOK(y) && y.uses == v.uses && y.exec == v.exec[b := Acquiring(0)] && y.owner == v.owner && y.holder == v.holder
  {
    MoveKeeps(v, Pop(b, who));
  }

  lemma EndsIff(z: Values, b: Bid)
    requires ValuesOK(z) && b < |z.exec| && z.exec[b] == Dropping(|z.uses[b]|)
    ensures CanMove(z, BodyEnd(b)) <==> BodyIdle(z.s, b)
  {
    assert z.s.beh[b].run.Running?;
  }

  lemma NoneLeft(v: Values, z: Values, b: Bid)
    requires ValuesOK(v) && ValuesOK(z) && SameElse(v, z, b) && b < |v.exec| && b < |z.exec|
    requires !v.exec[b].Acquiring? && !v.exec[b].Dropping? && z.exec[b] == Dropping(|z.uses[b]|)
    ensures z.owner == v.owner
  {
    forall c | c in v.owner ensures v.holder[c] != b { assert OwnerOK(v, c); }
    forall c | c in z.owner ensures z.holder[c] != b {
      assert OwnerOK(z, c) && z.uses[b][..|z.uses[b]|] == z.uses[b];
    }
  }
}
