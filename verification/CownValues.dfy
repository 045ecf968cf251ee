/** The values inside the cowns: acquired by the interpreter that runs a
    behavior before its body, released after it, and before the queues move on. */
module CownValues {
  import opened Wrappers
  import opened RequestQueue
  import opened CownProtocol
  import opened CownInvariant
  import opened CownSteps
  import opened CownRelease
  import opened CownTheorems
  import opened CownShape
  import opened CownTermination

  type Interp = nat
  const MAIN: Interp := 0

  datatype Exec = Before | Acquiring(at: nat) | Dropping(at: nat) | After

  /** `uses` lists the cowns a behavior acquires, in order and with repeats: its
      result, its arguments, its captures.  `flag` is the pinned flag in its header,
      `on` the interpreter running it.  `pinned` holds the pinned cowns.  `holder` is
      history: the behavior that acquired a cown. */
  datatype Values = Values(s: State, uses: seq<seq<Cown>>, flag: seq<bool>, exec: seq<Exec>, on: seq<Interp>,
                           owner: map<Cown, Interp>, pinned: set<Cown>, holder: map<Cown, Bid>)

  /** What BehaviorCapsule_init puts into the header. */
  predicate Flagged(args: seq<Cown>, pinned: set<Cown>) { exists c :: c in args && c in pinned }

  /** The flag, gathered argument by argument. */
  method PinnedFlag(args: seq<Cown>, pinned: set<Cown>) returns (flag: bool)
    ensures flag == Flagged(args, pinned) && (flag <==> exists c :: c in args && c in pinned)
  {
    flag := false;
    for i := 0 to |args|
      invariant flag <==> exists c :: c in args[..i] && c in pinned
    {
      assert args[..i+1] == args[..i] + [args[i]];
      flag := flag || args[i] in pinned;
    }
    assert args[..|args|] == args;
  }

  datatype Outcome = Ok(owner: map<Cown, Interp>) | PinnedElsewhere | OwnedBy(who: Interp)

  /** cown_acquire */
  function Acquire(v: Values, c: Cown, who: Interp): (r: Outcome) {
    if c in v.pinned then (if who == MAIN then Ok(v.owner) else PinnedElsewhere)
    else if c !in v.owner then Ok(v.owner[c := who])
    else if v.owner[c] == who then Ok(v.owner)
    else OwnedBy(v.owner[c])
  }

  /** cown_release */
  function Drop(v: Values, c: Cown, who: Interp): (r: Outcome) {
    if c in v.pinned then (if who == MAIN then Ok(v.owner) else PinnedElsewhere)
    else if c !in v.owner then Ok(v.owner)
    else if v.owner[c] == who then Ok(v.owner - {c})
    else OwnedBy(v.owner[c])
  }

  /** Once one interpreter has a cown, everyone else's acquire and release is refused,
      and says why; its own release gives the cown back. */
  lemma OthersRefused(v: Values, c: Cown, a: Interp, b: Interp)
    requires Acquire(v, c, a).Ok? && b != a
    ensures var v' := v.(owner := Acquire(v, c, a).owner);
      && Acquire(v', c, a) == Ok(v'.owner)
      && if c in v.pinned then
           a == MAIN && v' == v && Acquire(v', c, b) == Drop(v', c, b) == PinnedElsewhere && Drop(v', c, a) == Ok(v'.owner)
         else
           && Acquire(v', c, b) == Drop(v', c, b) == OwnedBy(a) && Drop(v', c, a) == Ok(v'.owner - {c})
           && (forall d :: d != c ==> (d in v'.owner <==> d in v.owner) && (d in v.owner ==> v'.owner[d] == v.owner[d]))
  {
  }

  datatype Move =
    | Schedule(b: Bid)                // any step of a scheduling thread
    | WhenCall(order: seq<Cown>, caller: Option<Bid>, args: seq<Cown>, uses: seq<Cown>)
    | Pop(b: Bid, who: Interp)        // a worker, or the main pump, takes b
    | AcquireOne(b: Bid)
    | Body(b: Bid)
    | DropOne(b: Bid)
    | BodyEnd(b: Bid)
    | Unlink(b: Bid)                  // any later step of the running thread

  /** A use of `c` that goes through no queue: a capture, fresh with its behavior. */
  predicate Private(v: Values, b: Bid, c: Cown)
    requires b < |v.s.beh| && |v.uses| == |v.s.beh|
  {
    forall x :: 0 <= x < |v.s.beh| && x != b ==> c !in v.uses[x]
  }

  predicate CanMove(v: Values, m: Move)
    requires |v.uses| == |v.flag| == |v.exec| == |v.on| == |v.s.beh|
  {
    match m
    case Schedule(b) => CanSchedule(v.s, b)
    case WhenCall(order, caller, args, uses) =>
      && CanSpawn(v.s, order, caller)
      // the result and the captures are fresh cowns, which nobody has pinned
      && (forall c :: c in uses && c in v.pinned ==> c in args)
      && (forall c :: c in uses && c !in KeySet(order) ==> forall x :: 0 <= x < |v.uses| ==> c !in v.uses[x])
      && (forall c, x :: 0 <= x < |v.uses| && c in v.uses[x] && c !in v.s.beh[x].keys ==> c !in uses)
    case Pop(b, who) =>
      // PinnedDispatch shows that no other interpreter gets hold of a flagged behavior
      b < |v.s.beh| && v.s.beh[b].run.Queued? && (v.flag[b] ==> who == MAIN)
    case AcquireOne(b) => b < |v.s.beh| && v.exec[b].Acquiring? && v.exec[b].at < |v.uses[b]|
    case Body(b) => b < |v.s.beh| && v.exec[b].Acquiring? && v.exec[b].at == |v.uses[b]|
    case DropOne(b) => b < |v.s.beh| && v.exec[b].Dropping? && v.exec[b].at < |v.uses[b]|
    case BodyEnd(b) =>
      b < |v.s.beh| && v.exec[b].Dropping? && v.exec[b].at == |v.uses[b]| && CanRun(v.s, b) && v.s.beh[b].run.Running?
    case Unlink(b) => CanRun(v.s, b) && !v.s.beh[b].run.Queued? && !v.s.beh[b].run.Running?
  }

  predicate Sized(v: Values) { |v.uses| == |v.flag| == |v.exec| == |v.on| == |v.s.beh| }

  ghost predicate OwnerOK(v: Values, c: Cown)
    requires Sized(v) && c in v.owner && c in v.holder
  {
    var b := v.holder[c];
    && b < |v.s.beh| && v.owner[c] == v.on[b] && c in v.uses[b] && c !in v.pinned
    && (v.exec[b].Acquiring? || v.exec[b].Dropping?)
    && (v.exec[b].Dropping? ==> v.exec[b].at <= |v.uses[b]| && c !in v.uses[b][..v.exec[b].at])
  }

  ghost predicate ValuesOK(v: Values) {
    && Sized(v) && Inv(v.s) && v.owner.Keys == v.holder.Keys
    && (forall b :: 0 <= b < |v.s.beh| ==> (v.s.beh[b].run.Running? <==> v.exec[b].Acquiring? || v.exec[b].Dropping?))
    && (forall b, c :: 0 <= b < |v.s.beh| && c in v.uses[b] && c !in v.s.beh[b].keys ==> Private(v, b, c))
    && (forall b, c :: 0 <= b < |v.s.beh| && c in v.uses[b] && c in v.pinned ==> v.flag[b])
    && (forall b :: 0 <= b < |v.s.beh| && v.flag[b] && v.s.beh[b].run.Running? ==> v.on[b] == MAIN)
    && (forall b :: 0 <= b < |v.s.beh| && v.exec[b].Acquiring? ==> v.exec[b].at <= |v.uses[b]|)
    && (forall b :: 0 <= b < |v.s.beh| && v.exec[b].Dropping? ==> v.exec[b].at <= |v.uses[b]|)
    && (forall c {:trigger OwnerOK(v, c)} :: c in v.owner ==> OwnerOK(v, c))
  }

  /** What a move leaves in the owners; a failed acquire or release leaves the owners alone. */
  function NewOwner(v: Values, r: Outcome): (o: map<Cown, Interp>) { if r.Ok? then r.owner else v.owner }

  function Make(v: Values, m: Move): (v': Values)
    requires Sized(v) && CanMove(v, m)
  {
    match m
    case Schedule(b) => v.(s := ScheduleStep(v.s, b))
    case WhenCall(order, caller, args, uses) =>
      v.(s := Spawn(v.s, order, caller), uses := v.uses + [uses], flag := v.flag + [Flagged(args, v.pinned)], exec := v.exec + [Before], on := v.on + [MAIN])
    case Pop(b, who) => v.(s := RunStep(v.s, b), exec := v.exec[b := Acquiring(0)], on := v.on[b := who])
    case AcquireOne(b) =>
      var i := v.exec[b].at;
      var o := NewOwner(v, Acquire(v, v.uses[b][i], v.on[b]));
      v.(owner := o, exec := v.exec[b := Acquiring(i + 1)],
         holder := if v.uses[b][i] in o then v.holder[v.uses[b][i] := b] else v.holder)
    case Body(b) => v.(exec := v.exec[b := Dropping(0)])
    case DropOne(b) =>
      var i := v.exec[b].at;
      v.(owner := NewOwner(v, Drop(v, v.uses[b][i], v.on[b])), exec := v.exec[b := Dropping(i + 1)],
         holder := v.holder - {v.uses[b][i]})
    case BodyEnd(b) => v.(s := RunStep(v.s, b), exec := v.exec[b := After])
    case Unlink(b) => v.(s := RunStep(v.s, b))
  }

  /** Two running behaviors never use the same cown. */
  lemma UsesDisjoint(v: Values, a: Bid, b: Bid, c: Cown)
    requires ValuesOK(v) && a < |v.s.beh| && b < |v.s.beh| && c in v.uses[a] && c in v.uses[b]
    requires v.s.beh[a].run.Running? && v.s.beh[b].run.Running?
    ensures a == b
  {
    if a != b {
      if c in v.s.beh[a].keys && c in v.s.beh[b].keys {
        DispatchedHeadsAll(v.s, a, c);
        DispatchedHeadsAll(v.s, b, c);
        MutualExclusion(v.s, a, b, c);
      }
    }
  }

  /** Value exclusivity: an acquire by a dispatched behavior always succeeds. It
      finds the cown unowned, or owned already by this very behavior. */
  lemma AcquireSucceeds(v: Values, b: Bid)
    requires ValuesOK(v) && CanMove(v, AcquireOne(b))
    ensures var c := v.uses[b][v.exec[b].at];
      && Acquire(v, c, v.on[b]).Ok?
      && (c in v.owner ==> v.holder[c] == b)
  {
    var c := v.uses[b][v.exec[b].at];
    if c in v.owner {
      assert OwnerOK(v, c);
      UsesDisjoint(v, b, v.holder[c], c);
    }
  }

  lemma ReleaseSucceeds(v: Values, b: Bid)
    requires ValuesOK(v) && CanMove(v, DropOne(b))
    ensures var c := v.uses[b][v.exec[b].at];
      && Drop(v, c, v.on[b]).Ok?
      && (c in v.owner ==> v.holder[c] == b)
  {
    var c := v.uses[b][v.exec[b].at];
    if c in v.owner {
      assert OwnerOK(v, c);
      UsesDisjoint(v, b, v.holder[c], c);
    }
  }

  /** By the time a behavior starts handing its cowns on, nobody owns them: the
      next holder of each finds it released. */
  lemma ReleasedBeforeHandoff(v: Values, b: Bid, c: Cown)
    requires ValuesOK(v) && CanMove(v, BodyEnd(b)) && c in v.uses[b]
    ensures c !in v.owner
  {
    if c in v.owner {
      assert v.uses[b][..|v.uses[b]|] == v.uses[b];
      assert OwnerOK(v, c);
      UsesDisjoint(v, b, v.holder[c], c);
    }
  }

  // -------------------------------------------------------------- preservation

  /** A protocol step that starts and ends no body. */
  ghost predicate SameBodies(s: State, s': State) {
    && |s'.beh| == |s.beh|
    && forall x {:trigger s'.beh[x]} :: 0 <= x < |s.beh| ==>
         s'.beh[x].keys == s.beh[x].keys && (s'.beh[x].run.Running? <==> s.beh[x].run.Running?)
  }

  lemma ScheduleAlone(s: State, b: Bid)
    requires CanSchedule(s, b)
    requires s.beh[b].sched.Finalize? || s.beh[b].sched.AnnounceSelf? || s.beh[b].sched.EnqueueSelf? ==> !s.beh[b].run.Running?
    ensures var s' := ScheduleStep(s, b);
      && |s'.beh| == |s.beh| && s'.beh == s.beh[b := s'.beh[b]] && s'.beh[b].keys == s.beh[b].keys
      && (s'.beh[b].run.Running? <==> s.beh[b].run.Running?)
  {
  }

  lemma ScheduleBodies(s: State, b: Bid)
    requires Inv(s) && CanSchedule(s, b)
    ensures SameBodies(s, ScheduleStep(s, b))
  {
    assert BehaviorOK(s, b);
    ScheduleAlone(s, b);
  }

  lemma UnlinkBodies(s: State, b: Bid)
    requires Inv(s) && CanRun(s, b) && !s.beh[b].run.Queued? && !s.beh[b].run.Running?
    ensures SameBodies(s, RunStep(s, b))
  {
    if s.beh[b].run.Releasing? {
      var k := s.beh[b].run.at;
      ReleaseSite(s, b, k);
      var x := ReleaseShape(s, b, k);
      if x != b { SuccessorEarly(s, b, k, x); }
      ReleaseKeys(s, b, k, x);
    }
  }

  lemma ReleaseKeys(s: State, b: Bid, k: nat, x: Bid)
    requires CanRelease(s, b, k) && x < |s.beh| == |ReleaseStep(s, b, k).beh|
    ensures ReleaseStep(s, b, k).beh[x].keys == s.beh[x].keys
    ensures x == b && s.beh[b].run.Releasing? ==> !ReleaseStep(s, b, k).beh[x].run.Running?
  {
  }

  lemma KeepValues(v: Values, s': State)
    requires ValuesOK(v) && Inv(s') && SameBodies(v.s, s')
    ensures ValuesOK(v.(s := s'))
  {
    var v' := v.(s := s');
    forall b, c | 0 <= b < |s'.beh| && c in v'.uses[b] && c !in s'.beh[b].keys ensures Private(v', b, c) {
      assert s'.beh[b].keys == v.s.beh[b].keys;
      assert Private(v, b, c);
    }
    forall c {:trigger OwnerOK(v', c)} | c in v'.owner ensures OwnerOK(v', c) {
      assert OwnerOK(v, c);
    }
    forall b | 0 <= b < |s'.beh|
      ensures s'.beh[b].run.Running? <==> v'.exec[b].Acquiring? || v'.exec[b].Dropping?
    {
      assert s'.beh[b].run.Running? <==> v.s.beh[b].run.Running?;
    }
    forall b | 0 <= b < |s'.beh| && v'.flag[b] && s'.beh[b].run.Running? ensures v'.on[b] == MAIN {
      assert v.s.beh[b].run.Running?;
    }
  }

  lemma WhenCallKeeps(v: Values, order: seq<Cown>, caller: Option<Bid>, args: seq<Cown>, uses: seq<Cown>)
    requires ValuesOK(v) && CanMove(v, WhenCall(order, caller, args, uses))
    ensures ValuesOK(Make(v, WhenCall(order, caller, args, uses)))
  {
    var v' := Make(v, WhenCall(order, caller, args, uses));
    SpawnInv(v.s, order, caller);
    assert v'.s.beh[..|v.s.beh|] == v.s.beh;
    forall b, c | 0 <= b < |v'.s.beh| && c in v'.uses[b] && c !in v'.s.beh[b].keys ensures Private(v', b, c) {
      WhenCallPrivate(v, order, caller, args, uses, b, c);
    }
    forall c {:trigger OwnerOK(v', c)} | c in v'.owner ensures OwnerOK(v', c) {
      assert OwnerOK(v, c);
      WhenCallOwner(v, order, caller, args, uses, c);
    }
  }

  lemma WhenCallPrivate(v: Values, order: seq<Cown>, caller: Option<Bid>, args: seq<Cown>, uses: seq<Cown>, b: Bid, c: Cown)
    requires Sized(v) && CanMove(v, WhenCall(order, caller, args, uses)) && b <= |v.s.beh|
    requires forall b, c :: 0 <= b < |v.s.beh| && c in v.uses[b] && c !in v.s.beh[b].keys ==> Private(v, b, c)
    requires var v' := Make(v, WhenCall(order, caller, args, uses)); c in v'.uses[b] && c !in v'.s.beh[b].keys
    ensures Sized(Make(v, WhenCall(order, caller, args, uses))) && Private(Make(v, WhenCall(order, caller, args, uses)), b, c)
  {
    if b < |v.s.beh| { assert Private(v, b, c); }
  }

  lemma WhenCallOwner(v: Values, order: seq<Cown>, caller: Option<Bid>, args: seq<Cown>, uses: seq<Cown>, c: Cown)
    requires Sized(v) && CanMove(v, WhenCall(order, caller, args, uses)) && v.owner.Keys == v.holder.Keys
    requires c in v.owner && OwnerOK(v, c)
    ensures c in Make(v, WhenCall(order, caller, args, uses)).owner && c in Make(v, WhenCall(order, caller, args, uses)).holder
    ensures Sized(Make(v, WhenCall(order, caller, args, uses))) && OwnerOK(Make(v, WhenCall(order, caller, args, uses)), c)
  {
  }

  lemma PopKeeps(v: Values, b: Bid, who: Interp)
    requires ValuesOK(v) && CanMove(v, Pop(b, who))
    ensures ValuesOK(Make(v, Pop(b, who)))
  {
    var v' := Make(v, Pop(b, who));
    RunInv(v.s, b);
    forall a, c | 0 <= a < |v'.s.beh| && c in v'.uses[a] && c !in v'.s.beh[a].keys ensures Private(v', a, c) {
      assert Private(v, a, c);
    }
    forall c {:trigger OwnerOK(v', c)} | c in v'.owner ensures OwnerOK(v', c) {
      assert OwnerOK(v, c);
    }
  }

  lemma AcquireKeeps(v: Values, b: Bid)
    requires ValuesOK(v) && CanMove(v, AcquireOne(b))
    ensures ValuesOK(Make(v, AcquireOne(b)))
  {
    var v' := Make(v, AcquireOne(b));
    var c := v.uses[b][v.exec[b].at];
    AcquireSucceeds(v, b);
    if c in v.owner { assert OwnerOK(v, c); }
    KeepRest(v, v', c, b);
  }

  lemma DropKeeps(v: Values, b: Bid)
    requires ValuesOK(v) && CanMove(v, DropOne(b))
    ensures ValuesOK(Make(v, DropOne(b)))
  {
    var v' := Make(v, DropOne(b));
    var i := v.exec[b].at;
    var c := v.uses[b][i];
    ReleaseSucceeds(v, b);
    assert v.uses[b][..i+1] == v.uses[b][..i] + [c];
    if c in v.owner { assert OwnerOK(v, c); }
    KeepRest(v, v', c, b);
  }

  lemma KeepRest(v: Values, v': Values, c: Cown, b: Bid)
    requires ValuesOK(v) && b < |v.s.beh| && v'.s == v.s && v'.uses == v.uses && v'.flag == v.flag && v'.on == v.on && v'.pinned == v.pinned
    requires |v'.exec| == |v.exec| && v'.exec == v.exec[b := v'.exec[b]] && v'.owner.Keys == v'.holder.Keys
    requires (v.exec[b].Acquiring? && v'.exec[b].Acquiring?) || (v.exec[b].Dropping? && v'.exec[b].Dropping?)
    requires v'.exec[b].at <= |v.uses[b]|
    requires v'.exec[b].Dropping? ==> v'.exec[b].at > 0 && v.exec[b].at == v'.exec[b].at - 1 && v.uses[b][v.exec[b].at] == c
    requires forall d :: d != c ==> (d in v'.owner <==> d in v.owner)
    requires forall d :: d != c && d in v.owner ==> v'.owner[d] == v.owner[d] && v'.holder[d] == v.holder[d]
    requires c in v'.owner ==> OwnerOK(v', c)
    ensures ValuesOK(v')
  {
    forall a, d | 0 <= a < |v'.s.beh| && d in v'.uses[a] && d !in v'.s.beh[a].keys ensures Private(v', a, d) {
      assert Private(v, a, d);
    }
    forall d {:trigger OwnerOK(v', d)} | d in v'.owner ensures OwnerOK(v', d) {
      if d != c {
        assert OwnerOK(v, d);
        if v.holder[d] == b && v'.exec[b].Dropping? {
          assert v.uses[b][..v'.exec[b].at] == v.uses[b][..v.exec[b].at] + [c];
        }
      }
    }
  }

  lemma TurnKeeps(v: Values, b: Bid)
    requires ValuesOK(v) && CanMove(v, Body(b))
    ensures ValuesOK(Make(v, Body(b)))
  {
    var v' := Make(v, Body(b));
    forall a, d | 0 <= a < |v'.s.beh| && d in v'.uses[a] && d !in v'.s.beh[a].keys ensures Private(v', a, d) {
      assert Private(v, a, d);
    }
    forall d {:trigger OwnerOK(v', d)} | d in v'.owner ensures OwnerOK(v', d) {
      assert OwnerOK(v, d);
    }
  }

  lemma EndKeeps(v: Values, b: Bid)
    requires ValuesOK(v) && CanMove(v, BodyEnd(b))
    ensures ValuesOK(Make(v, BodyEnd(b)))
  {
    var v' := Make(v, BodyEnd(b));
    RunInv(v.s, b);
    forall a, d | 0 <= a < |v'.s.beh| && d in v'.uses[a] && d !in v'.s.beh[a].keys ensures Private(v', a, d) {
      assert Private(v, a, d);
    }
    forall d {:trigger OwnerOK(v', d)} | d in v'.owner ensures OwnerOK(v', d) {
      assert OwnerOK(v, d);
      if v.holder[d] == b { ReleasedBeforeHandoff(v, b, d); }
    }
  }

  /** Value exclusivity is kept by whatever the threads do. */
  lemma MoveKeeps(v: Values, m: Move)
    requires ValuesOK(v) && CanMove(v, m)
    ensures ValuesOK(Make(v, m))
  {
    match m
    case Schedule(b) => ScheduleInv(v.s, b); ScheduleBodies(v.s, b); KeepValues(v, ScheduleStep(v.s, b));
    case WhenCall(order, caller, args, uses) => WhenCallKeeps(v, order, caller, args, uses);
    case Pop(b, who) => PopKeeps(v, b, who);
    case AcquireOne(b) => AcquireKeeps(v, b);
    case Body(b) => TurnKeeps(v, b);
    case DropOne(b) => DropKeeps(v, b);
    case BodyEnd(b) => EndKeeps(v, b);
    case Unlink(b) => RunInv(v.s, b); UnlinkBodies(v.s, b); KeepValues(v, RunStep(v.s, b));
  }

  // ---------------------------------------------------------------------- runs

  /** No behavior yet, and no cown acquired; any cowns may be pinned. */
  function Start(pinned: set<Cown>): (v: Values) { Values(Init, [], [], [], [], map[], pinned, map[]) }

  ghost predicate IsValueRun(vs: seq<Values>, ms: seq<Move>) {
    && |vs| == |ms| + 1 && vs[0] == Start(vs[0].pinned)
    && forall i {:trigger ms[i]} :: 0 <= i < |ms| ==> Sized(vs[i]) && CanMove(vs[i], ms[i]) && vs[i+1] == Make(vs[i], ms[i])
  }

  /** Value exclusivity holds in every state of every run. */
  lemma {:induction false} RunsKeepValues(vs: seq<Values>, ms: seq<Move>, i: nat)
    requires IsValueRun(vs, ms) && i < |vs|
    ensures ValuesOK(vs[i])
  {
    if i == 0 {
      StartOK(vs[0].pinned);
    } else {
      RunsKeepValues(vs, ms, i - 1);
      MoveKeeps(vs[i-1], ms[i-1]);
    }
  }

  lemma StartOK(pinned: set<Cown>)
    ensures ValuesOK(Start(pinned))
  {
    RunsKeepInv([Init], [], 0);
  }

  /** Whatever the interleaving, an acquire by a dispatched behavior never fails, nor
      does a release. */
  lemma RunsNeverFail(vs: seq<Values>, ms: seq<Move>, i: nat)
    requires IsValueRun(vs, ms) && i < |ms|
    ensures Sized(vs[i]) && CanMove(vs[i], ms[i])
    ensures var v := vs[i];
      && (ms[i].AcquireOne? ==> Acquire(v, v.uses[ms[i].b][v.exec[ms[i].b].at], v.on[ms[i].b]).Ok?)
      && (ms[i].DropOne? ==> Drop(v, v.uses[ms[i].b][v.exec[ms[i].b].at], v.on[ms[i].b]).Ok?)
  {
    RunsKeepValues(vs, ms, i);
    if ms[i].AcquireOne? { AcquireSucceeds(vs[i], ms[i].b); }
    if ms[i].DropOne? { ReleaseSucceeds(vs[i], ms[i].b); }
  }
}
