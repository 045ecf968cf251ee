/** Steps between the queue operations, and the invariant over whole runs. */
module QueueLocals {
  import opened Wrappers
  import opened BehaviorQueue
  import opened QueueHistory
  import opened QueueFrame
  import opened QueueSteps
  import opened QueueFronts
  import opened QueueMoves

  // ------------------------------------------------ handing a whole place over

  /** An idle thread renames what it holds; no cell and no queue changes. */
  ghost predicate ShiftTo(s: State, s': State, t: Tid, from: Place, to: Place) {
    && Th(s.m, t).op.Idle? && !Th(s'.m, t).op.SwapBack?
    && from != to && Mine(t, 0, from) && Mine(t, 0, to) && !from.Sub? && !to.Sub? && !from.Runner? && !from.Flight? && !to.Held?
    && (to == Runner || Items(s.h, to) == [])
    && (to == Runner || to.Flight? || |Items(s.h, from)| <= 1)
    && (to == Runner ==> |Items(s.h, from)| <= 1)
    && s'.m.cell == s.m.cell && s'.m.back == s.m.back && s'.m.token == s.m.token
    && s'.m.threads == s.m.threads[t := Th(s'.m, t)]
    && s'.h == MoveAll(s.h, from, to)
  }

  lemma ShiftItems(s: State, s': State, t: Tid, from: Place, to: Place)
    requires ShiftTo(s, s', t, from, to)
    ensures Items(s'.h, from) == [] && Items(s'.h, to) == Items(s.h, to) + Items(s.h, from)
    ensures forall p {:trigger Items(s'.h, p)} :: p != from && p != to ==> Items(s'.h, p) == Items(s.h, p)
    ensures forall r {:trigger SameCell(s, s', r)} :: SameCell(s, s', r)
  {
  }

  lemma ShiftPlaces(s: State, s': State, t: Tid, from: Place, to: Place)
    requires ShiftTo(s, s', t, from, to) && PlaceOK(s, from) && PlaceOK(s, to) && PlaceOK(s, Flight(t))
    ensures PlaceOK(s', from) && PlaceOK(s', to) && PlaceOK(s', Flight(t))
  {
    ShiftItems(s, s', t, from, to);
    var xs, zs := Items(s.h, from), Items(s'.h, to);
    forall i | 0 <= i < |zs| ensures SameCell(s, s', NextOf(zs[i])) { }
    if to == Runner {
      assert forall i :: 0 <= i < |xs| ==> xs[i] == Last(xs);
    } else {
      assert zs == xs;
    }
    if to != Flight(t) { SamePlace(s, s', Flight(t)); }
  }

  lemma ShiftLocal(s: State, s': State, t: Tid, from: Place, to: Place)
    requires ShiftTo(s, s', t, from, to)
    ensures Local(s, s', t, 0, {from, to})
  {
    ShiftItems(s, s', t, from, to);
    assert Items(s'.h, Sub(0)) == Items(s.h, Sub(0));
    if Items(s.h, Sub(0)) != [] { assert SameCell(s, s', NextOf(Items(s.h, Sub(0))[0])); }
    TouchesLocal(s, s', t, 0, Front(0), {from, to});
  }

  lemma ShiftQueue(s: State, s': State, t: Tid, from: Place, to: Place)
    requires ShiftTo(s, s', t, from, to) && QueueOK(s, 0)
    ensures QueueOK(s', 0)
  {
    ShiftItems(s, s', t, from, to);
    assert SameCell(s, s', Front(0)) && Items(s'.h, Sub(0)) == Items(s.h, Sub(0));
  }

  lemma ShiftGood(s: State, s': State, t: Tid, from: Place, to: Place)
    requires ShiftTo(s, s', t, from, to) && View(s, t, 0) && PlaceOK(s, from) && PlaceOK(s, to)
    requires ThreadOK(s', t) && TokensOK(s')
    ensures Good(s, s', t, 0, {from, to})
  {
    MoveAllHomes(s.h, from, to);
    ShiftLocal(s, s', t, from, to);
    ShiftPlaces(s, s', t, from, to);
    ShiftQueue(s, s', t, from, to);
    ShiftWriters(s, s', t, from, to);
  }

  lemma ShiftStep(s: State, a: Step)
    requires Enabled(s, a) && Shifts(a) && View(s, a.t, 0) && PlaceOK(s, Source(a)) && PlaceOK(s, Target(a))
    requires HomeOK(s.h, Held(a.t)) && HomeOK(s.h, Hand(a.t)) && HomeOK(s.h, Target(a))
    ensures Good(s, After(s, a), a.t, 0, {Source(a), Target(a)})
  {
    ShiftShape(s, a);
    ShiftLocals(s, a);
    ShiftTokens(s, a);
    ShiftGood(s, After(s, a), a.t, Source(a), Target(a));
  }

  lemma ShiftKeeps(s: State, a: Step)
    requires Inv(s) && Enabled(s, a) && Shifts(a)
    ensures Inv(After(s, a))
  {
    ShiftViews(s, a);
    ShiftStep(s, a);
    Conclude(s, After(s, a), a.t, 0, {Source(a), Target(a)});
  }

  lemma KnownPlace(s: State, p: Place)
    requires Inv(s)
    ensures HomeOK(s.h, p) && PlaceOK(s, p)
  {
    assert ChainOK(s, p) && EndOK(s, p);
  }

  lemma ShiftViews(s: State, a: Step)
    requires Inv(s)
    ensures View(s, a.t, 0) && PlaceOK(s, Source(a)) && PlaceOK(s, Target(a))
    ensures HomeOK(s.h, Held(a.t)) && HomeOK(s.h, Hand(a.t)) && HomeOK(s.h, Target(a))
  {
    Known(s, a.t, 0);
    KnownPlace(s, Held(a.t));
    KnownPlace(s, Hand(a.t));
    KnownPlace(s, Source(a));
    KnownPlace(s, Target(a));
  }

  lemma ShiftWriters(s: State, s': State, t: Tid, from: Place, to: Place)
    requires ShiftTo(s, s', t, from, to) && WritersOK(s)
    ensures WritersOK(s')
  {
    forall r {:trigger WriterOK(s', r)} | r in s'.h.writer ensures WriterOK(s', r) { assert WriterOK(s, r); }
  }

  /** Where such a step moves nodes from and to. */
  function Source(a: Step): (p: Place) {
    match a
    case EnqueuePending(t, _) => Pending(t)
    case EnqueueSegment(t, _) => Held(t)
    case TakeLast(t) => Held(t)
    case Unstash(t) => Pending(t)
    case Reload(t) => Saved(t)
    case Rearm(t, _) => Armed(t)
    case _ => Hand(a.t)
  }

  function Target(a: Step): (p: Place) {
    match a
    case TakeLast(t) => Hand(t)
    case Unstash(t) => Hand(t)
    case Stash(t) => Pending(t)
    case Save(t) => Saved(t)
    case Reload(t) => Hand(t)
    case Deliver(_) => Runner
    case Arm(_, w) => Armed(w)
    case _ => Flight(a.t)
  }

  predicate Shifts(a: Step) {
    !a.Run? && !a.Produce? && !a.Dequeue? && !a.DequeueAll? && !a.TakeOne?
  }

  lemma OneHome(h: History, n: Node, p: Place, p': Place)
    requires HomeOK(h, p) && HomeOK(h, p') && n in Items(h, p) && p != p'
    ensures n !in Items(h, p')
  {
  }

  /** A worker's flag is not set while its token is out of its slot. */
  lemma ArmFresh(s: State, t: Tid, w: Tid)
    requires Enabled(s, Arm(t, w)) && LocalsOK(s, t) && TokensOK(s) && HomeOK(s.h, Hand(t)) && HomeOK(s.h, Armed(w))
    ensures w !in s.m.armed && Items(s.h, Armed(w)) == []
  {
    OneHome(s.h, s.m.token[w], Hand(t), Armed(w));
  }

  lemma ShiftShape(s: State, a: Step)
    requires Enabled(s, a) && Shifts(a) && LocalsOK(s, a.t) && TokensOK(s) && HomeOK(s.h, Held(a.t)) && HomeOK(s.h, Hand(a.t))
    requires HomeOK(s.h, Target(a))
    ensures ShiftTo(s, After(s, a), a.t, Source(a), Target(a))
  {
    if a.Rearm? { RearmShape(s, a); } else { OtherShape(s, a); }
  }

  lemma RearmShape(s: State, a: Step)
    requires Enabled(s, a) && a.Rearm? && LocalsOK(s, a.t) && TokensOK(s)
    requires HomeOK(s.h, Target(a))
    ensures ShiftTo(s, After(s, a), a.t, Source(a), Target(a))
  {
    assert Items(s.h, Armed(a.t)) == if a.t in s.m.armed && a.t in s.m.token then [s.m.token[a.t]] else [];
  }

  lemma OtherShape(s: State, a: Step)
    requires Enabled(s, a) && Shifts(a) && !a.Rearm? && LocalsOK(s, a.t) && TokensOK(s)
    requires HomeOK(s.h, Held(a.t)) && HomeOK(s.h, Hand(a.t)) && HomeOK(s.h, Target(a))
    ensures ShiftTo(s, After(s, a), a.t, Source(a), Target(a))
  {
    if a.TakeLast? { assert Last(Items(s.h, Held(a.t))) == Items(s.h, Held(a.t))[0]; }
    if a.Arm? { ArmFresh(s, a.t, a.w); }
  }

  predicate Sends(a: Step) { a.Enqueue? || a.EnqueuePending? || a.EnqueueFront? || a.EnqueueSegment? || a.Rearm? }

  /** Calls of an enqueue function: the argument is in flight. */
  lemma SendLocals(s: State, a: Step)
    requires Enabled(s, a) && Sends(a) && LocalsOK(s, a.t) && TokensOK(s)
    requires ShiftTo(s, After(s, a), a.t, Source(a), Target(a))
    ensures LocalsOK(After(s, a), a.t)
  {
    ShiftItems(s, After(s, a), a.t, Source(a), Target(a));
    if a.Rearm? {
      assert Items(s.h, Armed(a.t)) == if a.t in s.m.armed && a.t in s.m.token then [s.m.token[a.t]] else [];
    }
  }

  lemma KeepLocals(s: State, a: Step)
    requires Enabled(s, a) && Shifts(a) && !Sends(a) && LocalsOK(s, a.t)
    requires ShiftTo(s, After(s, a), a.t, Source(a), Target(a))
    ensures LocalsOK(After(s, a), a.t)
  {
    ShiftItems(s, After(s, a), a.t, Source(a), Target(a));
  }

  lemma ShiftLocals(s: State, a: Step)
    requires Enabled(s, a) && Shifts(a) && LocalsOK(s, a.t) && TokensOK(s)
    requires ShiftTo(s, After(s, a), a.t, Source(a), Target(a))
    ensures ThreadOK(After(s, a), a.t)
  {
    if Sends(a) { SendLocals(s, a); } else { KeepLocals(s, a); }
  }

  lemma ShiftTokens(s: State, a: Step)
    requires Enabled(s, a) && Shifts(a) && LocalsOK(s, a.t) && TokensOK(s) && HomesOK(s.h)
    requires ShiftTo(s, After(s, a), a.t, Source(a), Target(a))
    ensures TokensOK(After(s, a))
  {
    var s' := After(s, a);
    ShiftItems(s, s', a.t, Source(a), Target(a));
    forall w {:trigger Items(s'.h, Armed(w))}
      ensures Items(s'.h, Armed(w)) == if w in s'.m.armed && w in s'.m.token then [s'.m.token[w]] else []
    {
      assert Items(s.h, Armed(w)) == if w in s.m.armed && w in s.m.token then [s.m.token[w]] else [];
    }
    if a.Deliver? { DeliverTokens(s, a.t); }
  }

  lemma DeliverTokens(s: State, t: Tid)
    requires Enabled(s, Deliver(t)) && LocalsOK(s, t) && TokensOK(s) && HomesOK(s.h)
    ensures forall w :: w in s.m.token ==> Record(s.m, s.h, Deliver(t)).home[s.m.token[w]] != Runner
  {
    forall w | w in s.m.token ensures s.h.home[s.m.token[w]] != Hand(t) {
      assert s.m.token[w] in Items(s.h, s.h.home[s.m.token[w]]);
    }
  }
}
