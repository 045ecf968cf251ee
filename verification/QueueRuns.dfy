/** The invariant of the run queues over every run. */
module QueueRuns {
  import opened Wrappers
  import opened BehaviorQueue
  import opened QueueHistory
  import opened QueueFrame
  import opened QueueSteps
  import opened QueueFronts
  import opened QueueMoves
  import opened QueueLocals

  ghost predicate AtRun(s: State, t: Tid) { Inv(s) && Enabled(s, Run(t)) }

  function Ran(s: State, t: Tid): (s': State)
    requires Enabled(s, Run(t))
  {
    After(s, Run(t))
  }

  // ----------------------------------------------------------------- take_one

  predicate PeelTo(s: State, s': State, t: Tid) {
    && Enabled(s, TakeOne(t)) && Items(s.h, Held(t)) != []
    && At(s.m, NextOf(Th(s.m, t).seg.value.start)).Some?
    && s' == After(s, TakeOne(t))
  }

  lemma PeelItems(s: State, s': State, t: Tid)
    requires PeelTo(s, s', t) && LocalsOK(s, t)
    ensures Items(s'.h, Held(t)) == Items(s.h, Held(t))[1..] && Items(s'.h, Hand(t)) == [Items(s.h, Held(t))[0]]
    ensures forall p {:trigger Items(s'.h, p)} :: p != Held(t) && p != Hand(t) ==> Items(s'.h, p) == Items(s.h, p)
    ensures forall r {:trigger SameCell(s, s', r)} :: SameCell(s, s', r)
    ensures s'.h == MoveHead(s.h, Held(t), Hand(t)) && s'.m.threads == s.m.threads[t := Th(s'.m, t)]
    ensures s'.m.back == s.m.back && s'.m.token == s.m.token && s'.m.armed == s.m.armed
  {
  }

  /** A link that take_one reads is a link of the segment, and is there to stay. */
  lemma PeelLinked(s: State, s': State, t: Tid)
    requires PeelTo(s, s', t) && LocalsOK(s, t) && PlaceOK(s, Held(t)) && WritersOK(s)
    ensures |Items(s.h, Held(t))| > 1 && Th(s'.m, t).seg.value.start == Items(s.h, Held(t))[1]
    ensures NextOf(Items(s.h, Held(t))[0]) !in s.h.writer
  {
    var xs := Items(s.h, Held(t));
    assert NextOf(xs[0]) in s.h.writer ==> WriterOK(s, NextOf(xs[0]));
  }

  lemma PeelPlaces(s: State, s': State, t: Tid)
    requires PeelTo(s, s', t) && LocalsOK(s, t) && PlaceOK(s, Held(t)) && PlaceOK(s, Flight(t)) && WritersOK(s)
    ensures PlaceOK(s', Held(t)) && PlaceOK(s', Hand(t)) && PlaceOK(s', Flight(t))
  {
    PeelItems(s, s', t);
    PeelLinked(s, s', t);
    var xs, zs := Items(s.h, Held(t)), Items(s'.h, Held(t));
    forall i {:trigger zs[i]} | 0 <= i < |zs| - 1 ensures Due(s', NextOf(zs[i])) == Some(zs[i+1]) {
      assert zs[i] == xs[i+1];
      assert SameCell(s, s', NextOf(xs[i+1]));
    }
    assert Last(zs) == Last(xs);
    assert SameCell(s, s', NextOf(Last(xs))) && SameCell(s, s', NextOf(xs[0]));
    SamePlace(s, s', Flight(t));
  }

  lemma PeelThread(s: State, s': State, t: Tid)
    requires PeelTo(s, s', t) && ThreadOK(s, t) && PlaceOK(s, Held(t)) && WritersOK(s)
    ensures ThreadOK(s', t)
  {
    PeelItems(s, s', t);
    PeelLinked(s, s', t);
    assert Last(Items(s.h, Held(t))[1..]) == Last(Items(s.h, Held(t)));
  }

  lemma PeelGood(s: State, s': State, t: Tid)
    requires PeelTo(s, s', t) && View(s, t, 0) && PlaceOK(s, Held(t))
    ensures Good(s, s', t, 0, {Held(t), Hand(t)})
  {
    PeelLocal(s, s', t);
    PeelPlaces(s, s', t);
    PeelThread(s, s', t);
    PeelHistory(s, s', t);
  }

  lemma PeelLocal(s: State, s': State, t: Tid)
    requires PeelTo(s, s', t) && LocalsOK(s, t) && QueueOK(s, 0)
    ensures Local(s, s', t, 0, {Held(t), Hand(t)}) && QueueOK(s', 0)
  {
    PeelItems(s, s', t);
    assert Items(s'.h, Sub(0)) == Items(s.h, Sub(0)) && SameCell(s, s', Front(0));
    if Items(s.h, Sub(0)) != [] { assert SameCell(s, s', NextOf(Items(s.h, Sub(0))[0])); }
    TouchesLocal(s, s', t, 0, Front(0), {Held(t), Hand(t)});
  }

  lemma PeelHistory(s: State, s': State, t: Tid)
    requires PeelTo(s, s', t) && LocalsOK(s, t) && HomesOK(s.h) && TokensOK(s) && WritersOK(s)
    ensures HomesOK(s'.h) && TokensOK(s') && WritersOK(s')
  {
    PeelItems(s, s', t);
    MoveHeadHomes(s.h, Held(t), Hand(t));
    TokensKept(s, s');
    forall r {:trigger WriterOK(s', r)} | r in s'.h.writer ensures WriterOK(s', r) { assert WriterOK(s, r); }
  }

  lemma TakeOneKeeps(s: State, t: Tid)
    requires Inv(s) && Enabled(s, TakeOne(t))
    ensures Inv(After(s, TakeOne(t)))
  {
    var s' := After(s, TakeOne(t));
    Known(s, t, 0);
    assert ChainOK(s, Held(t)) && EndOK(s, Held(t));
    if At(s.m, NextOf(Th(s.m, t).seg.value.start)).Some? {
      PeelGood(s, s', t);
      Conclude(s, s', t, 0, {Held(t), Hand(t)});
    }
  }

  // ------------------------------------------------------------------ arrivals

  predicate ProduceTo(s: State, s': State, t: Tid, n: Node, junk: Option<Node>) {
    Enabled(s, Produce(t, n, junk)) && s' == After(s, Produce(t, n, junk))
  }

  lemma ProduceItems(s: State, s': State, t: Tid, n: Node, junk: Option<Node>)
    requires ProduceTo(s, s', t, n, junk)
    ensures Items(s'.h, Hand(t)) == [n]
    ensures forall p {:trigger Items(s'.h, p)} :: p != Hand(t) ==> Items(s'.h, p) == Items(s.h, p)
    ensures forall r {:trigger SameCell(s, s', r)} :: r != NextOf(n) ==> SameCell(s, s', r)
  {
  }

  lemma ProducePlaces(s: State, s': State, t: Tid, n: Node, junk: Option<Node>)
    requires ProduceTo(s, s', t, n, junk) && HomeOK(s.h, Flight(t)) && PlaceOK(s, Flight(t)) && WritersOK(s)
    ensures PlaceOK(s', Hand(t)) && PlaceOK(s', Flight(t))
  {
    ProduceItems(s, s', t, n, junk);
    assert NextOf(n) in s.h.writer ==> WriterOK(s, NextOf(n));
    SamePlace(s, s', Flight(t));
  }

  lemma ProduceHistory(s: State, s': State, t: Tid, n: Node, junk: Option<Node>)
    requires ProduceTo(s, s', t, n, junk) && LocalsOK(s, t) && HomesOK(s.h) && TokensOK(s) && WritersOK(s)
    ensures HomesOK(s'.h) && TokensOK(s') && WritersOK(s')
  {
    ProduceItems(s, s', t, n, junk);
    ArrivalHomes(s.h, n, Hand(t));
    TokensKept(s, s');
    forall r {:trigger WriterOK(s', r)} | r in s'.h.writer ensures WriterOK(s', r) { assert WriterOK(s, r); }
  }

  lemma ProduceLocal(s: State, s': State, t: Tid, n: Node, junk: Option<Node>)
    requires ProduceTo(s, s', t, n, junk) && QueueOK(s, 0) && HomeOK(s.h, Sub(0))
    ensures Local(s, s', t, 0, {Hand(t)}) && QueueOK(s', 0)
  {
    ProduceItems(s, s', t, n, junk);
    assert Items(s'.h, Sub(0)) == Items(s.h, Sub(0)) && SameCell(s, s', Front(0));
    if Items(s.h, Sub(0)) != [] { assert SameCell(s, s', NextOf(Items(s.h, Sub(0))[0])); }
    TouchesLocal(s, s', t, 0, NextOf(n), {Hand(t)});
  }

  lemma ProduceKeeps(s: State, t: Tid, n: Node, junk: Option<Node>)
    requires Inv(s) && Enabled(s, Produce(t, n, junk))
    ensures Inv(After(s, Produce(t, n, junk)))
  {
    var s' := After(s, Produce(t, n, junk));
    Known(s, t, 0);
    ProduceGood(s, s', t, n, junk);
    Conclude(s, s', t, 0, {Hand(t)});
  }

  lemma ProduceThread(s: State, s': State, t: Tid, n: Node, junk: Option<Node>)
    requires ProduceTo(s, s', t, n, junk) && ThreadOK(s, t)
    ensures ThreadOK(s', t)
  {
    ProduceItems(s, s', t, n, junk);
  }

  lemma ProduceGood(s: State, s': State, t: Tid, n: Node, junk: Option<Node>)
    requires ProduceTo(s, s', t, n, junk) && View(s, t, 0)
    ensures Good(s, s', t, 0, {Hand(t)})
  {
    ProduceLocal(s, s', t, n, junk);
    ProducePlaces(s, s', t, n, junk);
    ProduceThread(s, s', t, n, junk);
    ProduceHistory(s, s', t, n, junk);
  }

  // --------------------------------------------------------------- every step

  /** The history never stands in the way of the code: whenever a thread can
      take a step, the nodes it moves are where the pointers say. */
  lemma OtherThread(s: State, a: Step, u: Tid)
    requires Enabled(s, a) && u != a.t
    ensures Th(After(s, a).m, u) == Th(s.m, u)
  {
    if a.Run? { OtherRun(s.m, a.t, u); } else { OtherCall(s.m, a, s.h.home.Keys, u); }
  }

  lemma OtherRun(m: Mem, t: Tid, u: Tid)
    requires u != t
    ensures Th(RunStep(m, t), u) == Th(m, u)
  {
  }

  lemma OtherCall(m: Mem, a: Step, known: set<Node>, u: Tid)
    requires CanStep(m, known, a) && !a.Run? && u != a.t
    ensures Th(Next(m, a, known), u) == Th(m, u)
  {
  }

  lemma HistoryFollows(s: State, a: Step)
    requires Inv(s) && CanStep(s.m, s.h.home.Keys, a)
    ensures Enabled(s, a)
  {
    assert ThreadOK(s, a.t);
  }

  lemma CallStarts(s: State, a: Step)
    requires Inv(s) && Enabled(s, a) && (a.Dequeue? || a.DequeueAll?)
    ensures Inv(After(s, a))
  {
    var s' := After(s, a);
    Known(s, a.t, a.q);
    CallThread(s, a);
    StillGood(s, s', a.t, a.q);
    Conclude(s, s', a.t, a.q, {});
  }

  lemma CallThread(s: State, a: Step)
    requires Enabled(s, a) && (a.Dequeue? || a.DequeueAll?) && ThreadOK(s, a.t) && QueueOK(s, a.q)
    ensures ThreadOK(After(s, a), a.t) && QueueOK(After(s, a), a.q) && StillTo(s, After(s, a), a.t, a.q)
    ensures KeepsOwner(s, After(s, a), a.t, a.q)
  {
  }

  lemma FrontKeeps(s: State, t: Tid)
    requires AtRun(s, t) && !Th(s.m, t).op.StoreLink? && !Th(s.m, t).op.ClearEnd? && !Th(s.m, t).op.SwapBack?
    ensures Inv(Ran(s, t))
  {
    var s', op := Ran(s, t), Th(s.m, t).op;
    var q := op.q;
    Known(s, t, q);
    match op {
      case Probe(_, _) => ProbeGood(s, s', t, q); Conclude(s, s', t, q, {});
      case Claim(_, _) => ClaimGood(s, s', t, q); Conclude(s, s', t, q, {});
      case LoadNext(_, _) => LoadGood(s, s', t, q); Conclude(s, s', t, q, {});
      case StoreFront(_, _, _) => TakenGood(s, s', t, q); Conclude(s, s', t, q, {Sub(q), Hand(t)});
      case CasBack(_, top) =>
        if Back(s.m, q) == NextOf(top) {
          TakenGood(s, s', t, q); Conclude(s, s', t, q, {Sub(q), Hand(t)});
        } else {
          CasLostGood(s, s', t, q); Conclude(s, s', t, q, {});
        }
      case Restore(_, _) => RestoreGood(s, s', t, q); Conclude(s, s', t, q, {});
      case SwapAll(_, _) => AllGood(s, s', t, q); Conclude(s, s', t, q, {Sub(q), Held(t)});
      case LinkOver(_, _, _) => LinkOverGood(s, s', t, q); Conclude(s, s', t, q, {Flight(t)});
      case StoreOver(_, _, _) => OverGood(s, s', t, q); Conclude(s, s', t, q, {Sub(q), Flight(t)});
    }
  }

  lemma RunKeeps(s: State, t: Tid)
    requires AtRun(s, t)
    ensures Inv(Ran(s, t))
  {
    var s', op := Ran(s, t), Th(s.m, t).op;
    if op.StoreLink? {
      LinkKeeps(s, s', t);
    } else if op.ClearEnd? {
      Known(s, t, op.q);
      ClearGood(s, s', t, op.q);
      Conclude(s, s', t, op.q, {Flight(t)});
    } else if op.SwapBack? {
      Known(s, t, op.q);
      SwapGood(s, s', t, op.q);
      Conclude(s, s', t, op.q, {Flight(t), Sub(op.q)});
    } else {
      FrontKeeps(s, t);
    }
  }

  /** Every atomic step of every thread keeps the invariant. */
  lemma StepKeeps(s: State, a: Step)
    requires Inv(s) && Enabled(s, a)
    ensures Inv(After(s, a))
  {
    match a
    case Run(t) => RunKeeps(s, t);
    case Produce(t, n, junk) => ProduceKeeps(s, t, n, junk);
    case TakeOne(t) => TakeOneKeeps(s, t);
    case Dequeue(_, _) => CallStarts(s, a);
    case DequeueAll(_, _) => CallStarts(s, a);
    case _ => ShiftKeeps(s, a);
  }

  // ---------------------------------------------------------------------- runs

  /** Empty queues and idle threads; each worker's token waits for it, with its
      flag set, and there are no other nodes yet. */
  ghost predicate Fresh(s: State) {
    && s.m.cell == map[] && s.m.back == map[] && s.m.threads == map[] && s.h.writer == map[] && s.h.owner == map[]
    && s.m.armed == s.m.token.Keys
    && (forall p {:trigger Items(s.h, p)} ::
          Items(s.h, p) == if p.Armed? && p.t in s.m.token then [s.m.token[p.t]] else [])
    && (forall w {:trigger s.m.token[w]} :: w in s.m.token ==> s.m.token[w] in s.h.home && s.h.home[s.m.token[w]] == Armed(w))
    && (forall n {:trigger s.h.home[n]} :: n in s.h.home ==>
          s.h.home[n].Armed? && s.h.home[n].t in s.m.token && s.m.token[s.h.home[n].t] == n)
  }

  lemma FreshTokens(s: State)
    requires Fresh(s)
    ensures TokensOK(s)
  {
    forall v, w | v in s.m.token && w in s.m.token && s.m.token[v] == s.m.token[w] ensures v == w {
      assert s.h.home[s.m.token[v]] == Armed(v);
    }
  }

  lemma FreshInv(s: State)
    requires Fresh(s)
    ensures Inv(s)
  {
    forall p {:trigger HomeOK(s.h, p)} ensures HomeOK(s.h, p) { assert Items(s.h, p) == Items(s.h, p); }
    FreshTokens(s);
    forall t ensures ThreadOK(s, t) { assert Items(s.h, Hand(t)) == []; }
  }

  /** Any interleaving of any threads' steps, from a fresh runtime. */
  ghost predicate IsRun(ss: seq<State>, run: seq<Step>) {
    && |ss| == |run| + 1 && Fresh(ss[0])
    && forall i {:trigger run[i]} :: 0 <= i < |run| ==> Enabled(ss[i], run[i]) && ss[i+1] == After(ss[i], run[i])
  }

  lemma {:induction false} RunsKeepInv(ss: seq<State>, run: seq<Step>, i: nat)
    requires IsRun(ss, run) && i < |ss|
    ensures Inv(ss[i])
  {
    if i == 0 {
      FreshInv(ss[0]);
    } else {
      RunsKeepInv(ss, run, i - 1);
      StepKeeps(ss[i-1], run[i-1]);
    }
  }
}
