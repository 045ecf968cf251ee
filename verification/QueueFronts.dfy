/** The consumers' side: acquire_front, dequeue, dequeue_all, enqueue_front. */
module QueueFronts {
  import opened Wrappers
  import opened BehaviorQueue
  import opened QueueHistory
  import opened QueueFrame
  import opened QueueSteps

  // --------------------------------------------------- steps that move no node

  /** Thread `t` moved on; besides, at most the front of `q` and its owner changed. */
  ghost predicate StillTo(s: State, s': State, t: Tid, q: Qid) {
    && s'.h.items == s.h.items && s'.h.home == s.h.home && s'.h.writer == s.h.writer
    && (s'.h.owner == s.h.owner || s'.h.owner == s.h.owner[q := t] || s'.h.owner == s.h.owner - {q})
    && s'.m.threads == s.m.threads[t := Th(s'.m, t)] && s'.m.token == s.m.token && s'.m.armed == s.m.armed
    && s'.m.back == s.m.back && (s'.m.cell == s.m.cell || s'.m.cell == s.m.cell[Front(q) := At(s'.m, Front(q))])
    && !Th(s'.m, t).op.SwapBack? && !Th(s.m, t).op.StoreLink?
  }

  lemma StillGood(s: State, s': State, t: Tid, q: Qid)
    requires StillTo(s, s', t, q) && View(s, t, q) && KeepsOwner(s, s', t, q)
    requires QueueOK(s', q) && ThreadOK(s', t)
    requires s'.m.cell == s.m.cell || (Front(q) in s.h.writer ==> At(s'.m, Front(q)).None?)
    ensures Good(s, s', t, q, {})
  {
    assert forall p :: Items(s'.h, p) == Items(s.h, p);
    forall r {:trigger SameCell(s, s', r)} | r != Front(q) ensures SameCell(s, s', r) { }
    TouchesLocal(s, s', t, q, Front(q), {});
    SameHomes(s.h, s'.h);
    TokensKept(s, s');
    SamePlace(s, s', Flight(t));
    forall r {:trigger WriterOK(s', r)} | r in s'.h.writer ensures WriterOK(s', r) { assert WriterOK(s, r); }
  }

  predicate ProbeTo(s: State, s': State, t: Tid, q: Qid) {
    Th(s.m, t).op.Probe? && Th(s.m, t).op.q == q && s' == State(RunStep(s.m, t), s.h)
  }

  lemma ProbeGood(s: State, s': State, t: Tid, q: Qid)
    requires ProbeTo(s, s', t, q) && View(s, t, q)
    ensures Good(s, s', t, q, {})
  {
    ProbeThread(s, s', t, q);
    StillGood(s, s', t, q);
  }

  lemma ProbeThread(s: State, s': State, t: Tid, q: Qid)
    requires ProbeTo(s, s', t, q) && ThreadOK(s, t) && QueueOK(s, q)
    ensures QueueOK(s', q) && ThreadOK(s', t)
  {
  }

  predicate ClaimTo(s: State, s': State, t: Tid, q: Qid) {
    && Th(s.m, t).op.Claim? && Th(s.m, t).op.q == q
    && s' == State(RunStep(s.m, t), if At(s.m, Front(q)).None? then s.h else Own(s.h, q, t))
  }

  lemma ClaimThread(s: State, s': State, t: Tid, q: Qid)
    requires ClaimTo(s, s', t, q) && ThreadOK(s, t) && QueueOK(s, q) && WritersOK(s)
    ensures QueueOK(s', q) && ThreadOK(s', t) && KeepsOwner(s, s', t, q)
  {
    assert Front(q) in s.h.writer ==> WriterOK(s, Front(q));
  }

  lemma ClaimGood(s: State, s': State, t: Tid, q: Qid)
    requires ClaimTo(s, s', t, q) && View(s, t, q)
    ensures Good(s, s', t, q, {})
  {
    ClaimThread(s, s', t, q);
    StillGood(s, s', t, q);
  }

  predicate LoadTo(s: State, s': State, t: Tid, q: Qid) {
    Th(s.m, t).op.LoadNext? && Th(s.m, t).op.q == q && s' == State(RunStep(s.m, t), s.h)
  }

  lemma LoadThread(s: State, s': State, t: Tid, q: Qid)
    requires LoadTo(s, s', t, q) && ThreadOK(s, t) && QueueOK(s, q) && PlaceOK(s, Sub(q)) && WritersOK(s)
    ensures QueueOK(s', q) && ThreadOK(s', t)
  {
    var xs := Items(s.h, Sub(q));
    assert NextOf(xs[0]) in s.h.writer ==> WriterOK(s, NextOf(xs[0]));
  }

  lemma LoadGood(s: State, s': State, t: Tid, q: Qid)
    requires LoadTo(s, s', t, q) && View(s, t, q)
    ensures Good(s, s', t, q, {})
  {
    LoadThread(s, s', t, q);
    StillGood(s, s', t, q);
  }

  /** The CAS failed: an enqueuer has already taken the cell behind our node. */
  predicate CasLostTo(s: State, s': State, t: Tid, q: Qid) {
    && Th(s.m, t).op.CasBack? && Th(s.m, t).op.q == q && Back(s.m, q) != NextOf(Th(s.m, t).op.top)
    && s' == State(RunStep(s.m, t), s.h)
  }

  lemma CasLostGood(s: State, s': State, t: Tid, q: Qid)
    requires CasLostTo(s, s', t, q) && View(s, t, q)
    ensures Good(s, s', t, q, {})
  {
    CasLostThread(s, s', t, q);
    StillGood(s, s', t, q);
  }

  lemma CasLostThread(s: State, s': State, t: Tid, q: Qid)
    requires CasLostTo(s, s', t, q) && ThreadOK(s, t) && QueueOK(s, q)
    ensures QueueOK(s', q) && ThreadOK(s', t)
  {
  }

  predicate RestoreTo(s: State, s': State, t: Tid, q: Qid) {
    Th(s.m, t).op.Restore? && Th(s.m, t).op.q == q && s' == State(RunStep(s.m, t), Disown(s.h, q))
  }

  lemma RestoreThread(s: State, s': State, t: Tid, q: Qid)
    requires RestoreTo(s, s', t, q) && ThreadOK(s, t) && QueueOK(s, q)
    ensures QueueOK(s', q) && ThreadOK(s', t) && Front(q) !in s.h.writer
  {
  }

  lemma RestoreGood(s: State, s': State, t: Tid, q: Qid)
    requires RestoreTo(s, s', t, q) && View(s, t, q)
    ensures Good(s, s', t, q, {})
  {
    RestoreThread(s, s', t, q);
    StillGood(s, s', t, q);
  }

  predicate LinkOverTo(s: State, s': State, t: Tid, q: Qid) {
    Th(s.m, t).op.LinkOver? && Th(s.m, t).op.q == q && s' == State(RunStep(s.m, t), s.h)
  }

  lemma LinkOverThread(s: State, s': State, t: Tid, q: Qid)
    requires LinkOverTo(s, s', t, q) && ThreadOK(s, t) && QueueOK(s, q) && EndOK(s, Flight(t))
    ensures QueueOK(s', q) && ThreadOK(s', t)
  {
  }

  lemma LinkOverGood(s: State, s': State, t: Tid, q: Qid)
    requires LinkOverTo(s, s', t, q) && View(s, t, q)
    ensures Good(s, s', t, q, {Flight(t)})
  {
    var n := Th(s.m, t).op.n;
    assert Items(s.h, Flight(t))[0] == n;
    assert n in s.h.home && s.h.home[n] == Flight(t);
    TouchesLocal(s, s', t, q, NextOf(n), {Flight(t)});
    LinkOverThread(s, s', t, q);
    forall r {:trigger WriterOK(s', r)} | r in s'.h.writer ensures WriterOK(s', r) { assert WriterOK(s, r); }
  }
}
