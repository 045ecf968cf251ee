/** Every atomic operation of the queue functions keeps the invariant. */
module QueueSteps {
  import opened Wrappers
  import opened BehaviorQueue
  import opened QueueHistory
  import opened QueueFrame

  ghost predicate WritersOK(s: State) { forall r {:trigger WriterOK(s, r)} :: r in s.h.writer ==> WriterOK(s, r) }

  ghost predicate PlaceOK(s: State, p: Place) { ChainOK(s, p) && EndOK(s, p) }

  /** What the step lemmas look at. */
  ghost predicate View(s: State, t: Tid, q: Qid) {
    && ThreadOK(s, t) && QueueOK(s, q)
    && HomeOK(s.h, Sub(q)) && PlaceOK(s, Sub(q))
    && HomeOK(s.h, Flight(t)) && PlaceOK(s, Flight(t))
    && HomesOK(s.h) && TokensOK(s) && WritersOK(s)
  }

  /** What they show; Assemble does the rest. */
  ghost predicate Good(s: State, s': State, t: Tid, q: Qid, ps: set<Place>) {
    && Local(s, s', t, q, ps) && HomesOK(s'.h) && TokensOK(s') && WritersOK(s')
    && (forall p :: p in ps || p == Flight(t) ==> PlaceOK(s', p))
    && QueueOK(s', q) && ThreadOK(s', t)
  }

  lemma Known(s: State, t: Tid, q: Qid)
    requires Inv(s)
    ensures View(s, t, q)
  {
  }

  lemma Conclude(s: State, s': State, t: Tid, q: Qid, ps: set<Place>)
    requires Inv(s) && Good(s, s', t, q, ps)
    requires OwnsFront(Th(s.m, t).op) ==> Th(s.m, t).op.q == q
    ensures Inv(s')
  {
    forall r | r != q && r in s.h.owner ensures s.h.owner[r] != t { assert QueueOK(s, r); }
    Assemble(s, s', t, q, ps);
  }

  lemma SameHomes(h: History, h': History)
    requires HomesOK(h) && h'.items == h.items && h'.home == h.home
    ensures HomesOK(h')
  {
    forall p {:trigger HomeOK(h', p)} ensures HomeOK(h', p) {
      assert HomeOK(h, p) && Items(h', p) == Items(h, p);
    }
    forall n {:trigger h'.home[n]} | n in h'.home ensures n in Items(h', h'.home[n]) {
      assert Items(h', h'.home[n]) == Items(h, h.home[n]);
    }
  }

  /** Tokens stay where they were, or at least are not handed out. */
  lemma TokensKept(s: State, s': State)
    requires TokensOK(s) && s'.m.token == s.m.token && s'.m.armed == s.m.armed
    requires forall w {:trigger Items(s'.h, Armed(w))} :: Items(s'.h, Armed(w)) == Items(s.h, Armed(w))
    requires forall n {:trigger s'.h.home[n]} :: n in s.h.home ==> n in s'.h.home && (s'.h.home[n] == Runner ==> s.h.home[n] == Runner)
    ensures TokensOK(s')
  {
  }

  /** A place none of whose cells changed. */
  lemma SamePlace(s: State, s': State, p: Place)
    requires PlaceOK(s, p) && Items(s'.h, p) == Items(s.h, p)
    requires forall i :: 0 <= i < |Items(s.h, p)| ==> SameCell(s, s', NextOf(Items(s.h, p)[i]))
    requires p.Flight? && Th(s'.m, p.t).op.SwapBack? ==> Th(s.m, p.t).op.SwapBack?
    ensures PlaceOK(s', p)
  {
  }

  // ------------------------------------------------------------ enqueue_segment

  predicate ClearTo(s: State, s': State, t: Tid, q: Qid) {
    var op := Th(s.m, t).op;
    op.ClearEnd? && op.q == q && s' == State(SetOp(Write(s.m, op.s.end, None), t, SwapBack(q, op.s)), s.h)
  }

  lemma ClearPlace(s: State, s': State, t: Tid, q: Qid)
    requires ClearTo(s, s', t, q) && ThreadOK(s, t) && HomeOK(s.h, Flight(t)) && PlaceOK(s, Flight(t))
    ensures PlaceOK(s', Flight(t))
  {
    var xs := Items(s.h, Flight(t));
    forall i {:trigger xs[i]} | 0 <= i < |xs| - 1 ensures Due(s', NextOf(xs[i])) == Some(xs[i+1]) {
      assert xs[i] != Last(xs);
    }
  }

  lemma ClearThread(s: State, s': State, t: Tid, q: Qid)
    requires ClearTo(s, s', t, q) && ThreadOK(s, t) && QueueOK(s, q)
    ensures QueueOK(s', q) && ThreadOK(s', t)
  {
  }

  lemma ClearLocal(s: State, s': State, t: Tid, q: Qid)
    requires ClearTo(s, s', t, q) && ThreadOK(s, t) && HomeOK(s.h, Flight(t)) && HomeOK(s.h, Sub(q))
    ensures Local(s, s', t, q, {Flight(t)})
  {
    var xs, end := Items(s.h, Flight(t)), Th(s.m, t).op.s.end;
    assert end == NextOf(Last(xs)) && xs[|xs|-1] in s.h.home;
    if |Items(s.h, Sub(q))| > 1 { assert SameCell(s, s', NextOf(Items(s.h, Sub(q))[0])); }
    TouchesLocal(s, s', t, q, end, {Flight(t)});
  }

  lemma ClearGood(s: State, s': State, t: Tid, q: Qid)
    requires ClearTo(s, s', t, q) && View(s, t, q)
    ensures Good(s, s', t, q, {Flight(t)})
  {
    ClearLocal(s, s', t, q);
    ClearPlace(s, s', t, q);
    ClearThread(s, s', t, q);
    forall r {:trigger WriterOK(s', r)} | r in s'.h.writer ensures WriterOK(s', r) { assert WriterOK(s, r); }
  }

  predicate SwapTo(s: State, s': State, t: Tid, q: Qid) {
    var op, b := Th(s.m, t).op, Back(s.m, q);
    && op.SwapBack? && op.q == q
    && s'.m == SetOp(SetBack(s.m, q, op.s.end), t, StoreLink(b, op.s.start))
    && s'.h == MoveAll(s.h.(writer := s.h.writer[b := (t, op.s.start)]), Flight(t), Sub(q))
  }

  lemma SwapItems(s: State, s': State, t: Tid, q: Qid)
    requires SwapTo(s, s', t, q)
    ensures Items(s'.h, Sub(q)) == Items(s.h, Sub(q)) + Items(s.h, Flight(t)) && Items(s'.h, Flight(t)) == []
    ensures forall p {:trigger Items(s'.h, p)} :: p != Sub(q) && p != Flight(t) ==> Items(s'.h, p) == Items(s.h, p)
    ensures forall r {:trigger SameCell(s, s', r)} :: r != Back(s.m, q) ==> SameCell(s, s', r)
  {
  }

  lemma SwapChain(s: State, s': State, t: Tid, q: Qid, i: nat)
    requires SwapTo(s, s', t, q) && ThreadOK(s, t) && QueueOK(s, q)
    requires HomeOK(s.h, Sub(q)) && ChainOK(s, Sub(q)) && HomeOK(s.h, Flight(t)) && ChainOK(s, Flight(t))
    requires i < |Items(s'.h, Sub(q))| - 1
    ensures Due(s', NextOf(Items(s'.h, Sub(q))[i])) == Some(Items(s'.h, Sub(q))[i+1])
  {
    SwapItems(s, s', t, q);
    var xs, ys := Items(s.h, Sub(q)), Items(s.h, Flight(t));
    if i < |xs| - 1 {
      assert xs[i] != Last(xs);
      assert SameCell(s, s', NextOf(xs[i]));
    } else if i == |xs| - 1 {
      assert Due(s', NextOf(Last(xs))) == Some(ys[0]);
    } else {
      var j := i - |xs|;
      assert xs == [] || ys[j] != Last(xs);
      assert SameCell(s, s', NextOf(ys[j]));
    }
  }

  lemma SwapPlaces(s: State, s': State, t: Tid, q: Qid)
    requires SwapTo(s, s', t, q) && ThreadOK(s, t) && QueueOK(s, q)
    requires HomeOK(s.h, Sub(q)) && PlaceOK(s, Sub(q)) && HomeOK(s.h, Flight(t)) && PlaceOK(s, Flight(t))
    ensures PlaceOK(s', Sub(q)) && PlaceOK(s', Flight(t))
  {
    SwapItems(s, s', t, q);
    var xs, ys := Items(s.h, Sub(q)), Items(s.h, Flight(t));
    var zs := Items(s'.h, Sub(q));
    forall i {:trigger zs[i]} | 0 <= i < |zs| - 1 ensures Due(s', NextOf(zs[i])) == Some(zs[i+1]) {
      SwapChain(s, s', t, q, i);
    }
    assert Last(zs) == Last(ys) && (xs == [] || Last(ys) != Last(xs));
    assert SameCell(s, s', NextOf(Last(ys)));
  }

  lemma SwapQueue(s: State, s': State, t: Tid, q: Qid)
    requires SwapTo(s, s', t, q) && ThreadOK(s, t) && QueueOK(s, q)
    ensures QueueOK(s', q)
  {
    SwapItems(s, s', t, q);
    var xs, ys := Items(s.h, Sub(q)), Items(s.h, Flight(t));
    assert Last(xs + ys) == Last(ys);
    if xs == [] { assert xs + ys == ys; } else { assert SameCell(s, s', Front(q)); }
  }

  lemma SwapThread(s: State, s': State, t: Tid, q: Qid)
    requires SwapTo(s, s', t, q) && ThreadOK(s, t)
    ensures ThreadOK(s', t)
  {
    SwapItems(s, s', t, q);
  }

  lemma SwapLocal(s: State, s': State, t: Tid, q: Qid)
    requires SwapTo(s, s', t, q) && QueueOK(s, q) && HomeOK(s.h, Sub(q)) && Back(s.m, q) !in s.h.writer
    ensures Local(s, s', t, q, {Flight(t), Sub(q)})
  {
    SwapItems(s, s', t, q);
    var xs := Items(s.h, Sub(q));
    assert xs != [] ==> xs[|xs|-1] in s.h.home;
    if |xs| > 1 { assert SameCell(s, s', NextOf(xs[0])); }
    TouchesLocal(s, s', t, q, Back(s.m, q), {Flight(t), Sub(q)});
  }

  /** The assertion in boc_bq_enqueue_segment: the cell got from the exchange is
      NULL, and nobody else is about to store into it. */
  lemma BackUnwritten(s: State, q: Qid)
    requires QueueOK(s, q) && PlaceOK(s, Sub(q))
    ensures Back(s.m, q) !in s.h.writer && At(s.m, Back(s.m, q)).None?
  {
    assert Due(s, Back(s.m, q)).None?;
  }

  lemma SwapHistory(s: State, s': State, t: Tid, q: Qid)
    requires SwapTo(s, s', t, q) && HomesOK(s.h) && TokensOK(s) && WritersOK(s) && At(s.m, Back(s.m, q)).None?
    requires QueueOK(s, q)
    ensures HomesOK(s'.h) && TokensOK(s') && WritersOK(s')
  {
    assert HomeOK(s.h, Sub(q));
    SwapItems(s, s', t, q);
    MoveAllHomes(s.h, Flight(t), Sub(q));
    SameHomes(MoveAll(s.h, Flight(t), Sub(q)), s'.h);
    TokensKept(s, s');
    SwapWriters(s, s', t, q);
  }

  lemma SwapWriters(s: State, s': State, t: Tid, q: Qid)
    requires SwapTo(s, s', t, q) && HomeOK(s.h, Sub(q)) && WritersOK(s) && At(s.m, Back(s.m, q)).None? && QueueOK(s, q)
    ensures WritersOK(s')
  {
    assert Items(s.h, Sub(q)) != [] ==> Items(s.h, Sub(q))[|Items(s.h, Sub(q))|-1] in s.h.home;
    forall r {:trigger WriterOK(s', r)} | r in s'.h.writer ensures WriterOK(s', r) {
      if r != Back(s.m, q) { assert WriterOK(s, r); }
    }
  }

  lemma SwapGood(s: State, s': State, t: Tid, q: Qid)
    requires SwapTo(s, s', t, q) && View(s, t, q)
    ensures Good(s, s', t, q, {Flight(t), Sub(q)})
  {
    BackUnwritten(s, q);
    SwapLocal(s, s', t, q);
    SwapPlaces(s, s', t, q);
    SwapQueue(s, s', t, q);
    SwapThread(s, s', t, q);
    SwapHistory(s, s', t, q);
  }

  /** The pending store lands: no cell's due value changes, anywhere. */
  ghost predicate LinkTo(s: State, s': State, t: Tid) {
    var op := Th(s.m, t).op;
    && op.StoreLink?
    && s' == State(SetOp(Write(s.m, op.b, Some(op.start)), t, Idle), s.h.(writer := s.h.writer - {op.b}))
  }

  lemma LinkDue(s: State, s': State, t: Tid, r: Ref)
    requires LinkTo(s, s', t) && ThreadOK(s, t)
    ensures Due(s', r) == Due(s, r) && (r in s'.h.writer ==> r in s.h.writer)
  {
  }

  lemma LinkPlace(s: State, s': State, t: Tid, p: Place)
    requires LinkTo(s, s', t) && ThreadOK(s, t) && PlaceOK(s, p)
    ensures PlaceOK(s', p)
  {
    var xs := Items(s.h, p);
    assert Items(s'.h, p) == xs;
    forall i | 0 <= i < |xs| ensures Due(s', NextOf(xs[i])) == Due(s, NextOf(xs[i])) { LinkDue(s, s', t, NextOf(xs[i])); }
  }

  lemma LinkThread(s: State, s': State, t: Tid, u: Tid)
    requires LinkTo(s, s', t) && ThreadOK(s, t) && ThreadOK(s, u)
    ensures ThreadOK(s', u)
  {
    var op := Th(s.m, u).op;
    if op.StoreOver? { LinkDue(s, s', t, NextOf(op.n)); }
  }

  lemma LinkQueue(s: State, s': State, t: Tid, q: Qid)
    requires LinkTo(s, s', t) && ThreadOK(s, t) && QueueOK(s, q)
    ensures QueueOK(s', q)
  {
    LinkDue(s, s', t, Front(q));
  }

  lemma LinkKeeps(s: State, s': State, t: Tid)
    requires LinkTo(s, s', t) && Inv(s)
    ensures Inv(s')
  {
    assert ThreadOK(s, t);
    SameHomes(s.h, s'.h);
    TokensKept(s, s');
    forall r {:trigger WriterOK(s', r)} | r in s'.h.writer ensures WriterOK(s', r) { assert WriterOK(s, r); }
    forall p ensures ChainOK(s', p) && EndOK(s', p) { assert ChainOK(s, p) && EndOK(s, p); LinkPlace(s, s', t, p); }
    forall q ensures QueueOK(s', q) { assert QueueOK(s, q); LinkQueue(s, s', t, q); }
    forall u ensures ThreadOK(s', u) { assert ThreadOK(s, u); LinkThread(s, s', t, u); }
  }
}
