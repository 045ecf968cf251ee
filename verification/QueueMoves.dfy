/** Steps that move nodes out of a queue, or between a thread's own variables. */
module QueueMoves {
  import opened Wrappers
  import opened BehaviorQueue
  import opened QueueHistory
  import opened QueueFrame
  import opened QueueSteps

  // ------------------------------------------------- dequeue returns the front

  predicate TakenTo(s: State, s': State, t: Tid, q: Qid) {
    var op := Th(s.m, t).op;
    && (op.StoreFront? || (op.CasBack? && Back(s.m, q) == NextOf(op.top))) && op.q == q
    && Items(s.h, Sub(q)) != []
    && s' == State(RunStep(s.m, t), Disown(MoveHead(s.h, Sub(q), Hand(t)), q))
  }

  lemma TakenItems(s: State, s': State, t: Tid, q: Qid)
    requires TakenTo(s, s', t, q) && Items(s.h, Hand(t)) == []
    ensures Items(s'.h, Sub(q)) == Items(s.h, Sub(q))[1..] && Items(s'.h, Hand(t)) == [Items(s.h, Sub(q))[0]]
    ensures forall p {:trigger Items(s'.h, p)} :: p != Sub(q) && p != Hand(t) ==> Items(s'.h, p) == Items(s.h, p)
    ensures forall r {:trigger SameCell(s, s', r)} :: r != Front(q) ==> SameCell(s, s', r)
  {
  }

  /** The CAS on `back` succeeds only if the node in front is the only one. */
  lemma CasWonAlone(s: State, t: Tid, q: Qid)
    requires Th(s.m, t).op.CasBack? && Th(s.m, t).op.q == q && Back(s.m, q) == NextOf(Th(s.m, t).op.top)
    requires ThreadOK(s, t) && QueueOK(s, q) && HomeOK(s.h, Sub(q))
    ensures Items(s.h, Sub(q)) == [Th(s.m, t).op.top]
  {
    var xs := Items(s.h, Sub(q));
    assert xs[0] == Last(xs);
  }

  /** Once a dequeued node leaves the queue no enqueuer is about to write to it. */
  lemma TakenUnwritten(s: State, s': State, t: Tid, q: Qid)
    requires TakenTo(s, s', t, q) && ThreadOK(s, t) && QueueOK(s, q) && HomeOK(s.h, Sub(q)) && PlaceOK(s, Sub(q))
    ensures NextOf(Items(s.h, Sub(q))[0]) !in s.h.writer
  {
    if Th(s.m, t).op.CasBack? { CasWonAlone(s, t, q); }
  }

  lemma TakenPlaces(s: State, s': State, t: Tid, q: Qid)
    requires TakenTo(s, s', t, q) && ThreadOK(s, t) && QueueOK(s, q)
    requires HomeOK(s.h, Sub(q)) && PlaceOK(s, Sub(q)) && PlaceOK(s, Flight(t))
    ensures PlaceOK(s', Sub(q)) && PlaceOK(s', Hand(t)) && PlaceOK(s', Flight(t))
  {
    TakenItems(s, s', t, q);
    TakenUnwritten(s, s', t, q);
    var xs, zs := Items(s.h, Sub(q)), Items(s'.h, Sub(q));
    forall i {:trigger zs[i]} | 0 <= i < |zs| - 1 ensures Due(s', NextOf(zs[i])) == Some(zs[i+1]) {
      assert zs[i] == xs[i+1];
      assert SameCell(s, s', NextOf(xs[i+1]));
    }
    if zs != [] {
      assert Last(zs) == Last(xs);
      assert SameCell(s, s', NextOf(Last(xs)));
    }
    assert SameCell(s, s', NextOf(xs[0]));
    SamePlace(s, s', Flight(t));
  }

  lemma TakenQueue(s: State, s': State, t: Tid, q: Qid)
    requires TakenTo(s, s', t, q) && ThreadOK(s, t) && QueueOK(s, q) && HomeOK(s.h, Sub(q))
    ensures QueueOK(s', q)
  {
    TakenItems(s, s', t, q);
    if Th(s.m, t).op.CasBack? {
      CasWonAlone(s, t, q);
      assert SameCell(s, s', Front(q)) by { assert s'.m.cell == s.m.cell; }
    }
  }

  lemma TakenThread(s: State, s': State, t: Tid, q: Qid)
    requires TakenTo(s, s', t, q) && ThreadOK(s, t)
    ensures ThreadOK(s', t)
  {
    TakenItems(s, s', t, q);
    TakenLocals(s, s', t, q);
  }

  lemma TakenLocals(s: State, s': State, t: Tid, q: Qid)
    requires TakenTo(s, s', t, q) && OpOK(s, t) && LocalsOK(s, t)
    requires Items(s'.h, Hand(t)) == [Items(s.h, Sub(q))[0]]
    requires forall p {:trigger Items(s'.h, p)} :: p != Sub(q) && p != Hand(t) ==> Items(s'.h, p) == Items(s.h, p)
    ensures LocalsOK(s', t)
  {
  }

  lemma TakenLocal(s: State, s': State, t: Tid, q: Qid)
    requires TakenTo(s, s', t, q) && ThreadOK(s, t)
    ensures Local(s, s', t, q, {Sub(q), Hand(t)})
  {
    TakenItems(s, s', t, q);
    TouchesLocal(s, s', t, q, Front(q), {Sub(q), Hand(t)});
  }

  lemma TakenHistory(s: State, s': State, t: Tid, q: Qid)
    requires TakenTo(s, s', t, q) && ThreadOK(s, t) && QueueOK(s, q) && HomesOK(s.h) && TokensOK(s) && WritersOK(s)
    ensures HomesOK(s'.h) && TokensOK(s') && WritersOK(s')
  {
    TakenItems(s, s', t, q);
    MoveHeadHomes(s.h, Sub(q), Hand(t));
    SameHomes(MoveHead(s.h, Sub(q), Hand(t)), s'.h);
    TokensKept(s, s');
    forall r {:trigger WriterOK(s', r)} | r in s'.h.writer ensures WriterOK(s', r) { assert WriterOK(s, r); }
  }

  lemma TakenGood(s: State, s': State, t: Tid, q: Qid)
    requires TakenTo(s, s', t, q) && View(s, t, q)
    ensures Good(s, s', t, q, {Sub(q), Hand(t)})
  {
    TakenLocal(s, s', t, q);
    TakenPlaces(s, s', t, q);
    TakenQueue(s, s', t, q);
    TakenThread(s, s', t, q);
    TakenHistory(s, s', t, q);
  }

  // -------------------------------------------------------- dequeue_all returns

  predicate AllTo(s: State, s': State, t: Tid, q: Qid) {
    && Th(s.m, t).op.SwapAll? && Th(s.m, t).op.q == q
    && s' == State(RunStep(s.m, t), Disown(MoveAll(s.h, Sub(q), Held(t)), q))
  }

  lemma AllItems(s: State, s': State, t: Tid, q: Qid)
    requires AllTo(s, s', t, q) && Items(s.h, Held(t)) == []
    ensures Items(s'.h, Sub(q)) == [] && Items(s'.h, Held(t)) == Items(s.h, Sub(q))
    ensures forall p {:trigger Items(s'.h, p)} :: p != Sub(q) && p != Held(t) ==> Items(s'.h, p) == Items(s.h, p)
    ensures forall r {:trigger SameCell(s, s', r)} :: SameCell(s, s', r)
  {
  }

  lemma AllPlaces(s: State, s': State, t: Tid, q: Qid)
    requires AllTo(s, s', t, q) && ThreadOK(s, t) && PlaceOK(s, Sub(q)) && PlaceOK(s, Flight(t))
    ensures PlaceOK(s', Sub(q)) && PlaceOK(s', Held(t)) && PlaceOK(s', Flight(t))
  {
    AllItems(s, s', t, q);
    var xs := Items(s.h, Sub(q));
    forall i | 0 <= i < |xs| ensures SameCell(s, s', NextOf(xs[i])) { }
    SamePlace(s, s', Flight(t));
  }

  lemma AllThread(s: State, s': State, t: Tid, q: Qid)
    requires AllTo(s, s', t, q) && ThreadOK(s, t) && QueueOK(s, q)
    ensures QueueOK(s', q) && ThreadOK(s', t)
  {
    AllItems(s, s', t, q);
    assert SameCell(s, s', Front(q));
  }

  lemma AllHistory(s: State, s': State, t: Tid, q: Qid)
    requires AllTo(s, s', t, q) && ThreadOK(s, t) && HomesOK(s.h) && TokensOK(s) && WritersOK(s)
    ensures HomesOK(s'.h) && TokensOK(s') && WritersOK(s')
  {
    AllItems(s, s', t, q);
    MoveAllHomes(s.h, Sub(q), Held(t));
    SameHomes(MoveAll(s.h, Sub(q), Held(t)), s'.h);
    TokensKept(s, s');
    forall r {:trigger WriterOK(s', r)} | r in s'.h.writer ensures WriterOK(s', r) { assert WriterOK(s, r); }
  }

  lemma AllLocal(s: State, s': State, t: Tid, q: Qid)
    requires AllTo(s, s', t, q) && ThreadOK(s, t) && QueueOK(s, q)
    ensures Local(s, s', t, q, {Sub(q), Held(t)})
  {
    AllItems(s, s', t, q);
    TouchesLocal(s, s', t, q, Front(q), {Sub(q), Held(t)});
  }

  lemma AllGood(s: State, s': State, t: Tid, q: Qid)
    requires AllTo(s, s', t, q) && View(s, t, q)
    ensures Good(s, s', t, q, {Sub(q), Held(t)})
  {
    AllLocal(s, s', t, q);
    AllPlaces(s, s', t, q);
    AllThread(s, s', t, q);
    AllHistory(s, s', t, q);
  }

  // ------------------------------------------------------ enqueue_front returns

  predicate OverTo(s: State, s': State, t: Tid, q: Qid) {
    && Th(s.m, t).op.StoreOver? && Th(s.m, t).op.q == q
    && s' == State(RunStep(s.m, t), Disown(MoveOver(s.h, Flight(t), Sub(q)), q))
  }

  lemma OverItems(s: State, s': State, t: Tid, q: Qid)
    requires OverTo(s, s', t, q)
    ensures Items(s'.h, Sub(q)) == Items(s.h, Flight(t)) + Items(s.h, Sub(q)) && Items(s'.h, Flight(t)) == []
    ensures forall p {:trigger Items(s'.h, p)} :: p != Sub(q) && p != Flight(t) ==> Items(s'.h, p) == Items(s.h, p)
    ensures forall r {:trigger SameCell(s, s', r)} :: r != Front(q) ==> SameCell(s, s', r)
  {
  }

  lemma OverPlaces(s: State, s': State, t: Tid, q: Qid)
    requires OverTo(s, s', t, q) && ThreadOK(s, t) && PlaceOK(s, Sub(q))
    ensures PlaceOK(s', Sub(q)) && PlaceOK(s', Flight(t))
  {
    OverItems(s, s', t, q);
    var n, xs := Th(s.m, t).op.n, Items(s.h, Sub(q));
    var zs := Items(s'.h, Sub(q));
    assert zs == [n] + xs;
    forall i {:trigger zs[i]} | 0 <= i < |zs| - 1 ensures Due(s', NextOf(zs[i])) == Some(zs[i+1]) {
      assert SameCell(s, s', NextOf(zs[i]));
      if i > 0 { assert zs[i] == xs[i-1] && zs[i+1] == xs[i]; }
    }
    assert Last(zs) == Last(xs);
    assert SameCell(s, s', NextOf(Last(xs)));
  }

  lemma OverThread(s: State, s': State, t: Tid, q: Qid)
    requires OverTo(s, s', t, q) && ThreadOK(s, t) && QueueOK(s, q)
    ensures QueueOK(s', q) && ThreadOK(s', t)
  {
    OverItems(s, s', t, q);
    var n, xs := Th(s.m, t).op.n, Items(s.h, Sub(q));
    assert Last([n] + xs) == Last(xs);
  }

  lemma OverHistory(s: State, s': State, t: Tid, q: Qid)
    requires OverTo(s, s', t, q) && ThreadOK(s, t) && HomesOK(s.h) && TokensOK(s) && WritersOK(s)
    requires Front(q) !in s.h.writer
    ensures HomesOK(s'.h) && TokensOK(s') && WritersOK(s')
  {
    OverItems(s, s', t, q);
    MoveOverHomes(s.h, Flight(t), Sub(q));
    SameHomes(MoveOver(s.h, Flight(t), Sub(q)), s'.h);
    TokensKept(s, s');
    forall r {:trigger WriterOK(s', r)} | r in s'.h.writer ensures WriterOK(s', r) { assert WriterOK(s, r); }
  }

  lemma OverGood(s: State, s': State, t: Tid, q: Qid)
    requires OverTo(s, s', t, q) && View(s, t, q)
    ensures Good(s, s', t, q, {Sub(q), Flight(t)})
  {
    OverItems(s, s', t, q);
    TouchesLocal(s, s', t, q, Front(q), {Sub(q), Flight(t)});
    OverPlaces(s, s', t, q);
    OverThread(s, s', t, q);
    OverHistory(s, s', t, q);
  }
}
