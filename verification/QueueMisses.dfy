/** When a dequeue may come back with nothing, and what it brings when nobody disturbs it. */
module QueueMisses {
  import opened Wrappers
  import opened BehaviorQueue
  import opened QueueHistory
  import opened QueueRuns
  import opened QueueTheorems

  /** Thread `t` may find nothing to take from `q`: the queue is empty, another thread
      has its front, or an enqueuer is between its exchange on `back` and its link. */
  predicate Missing(s: State, q: Qid, t: Tid) {
    || Items(s.h, Sub(q)) == []
    || (q in s.h.owner && s.h.owner[q] != t)
    || Front(q) in s.h.writer
    || NextOf(Items(s.h, Sub(q))[0]) in s.h.writer
  }

  /** What a front that is NULL means. */
  lemma FrontUnset(s: State, q: Qid, t: Tid)
    requires QueueOK(s, q) && At(s.m, Front(q)).None? && !OwnsFront(Th(s.m, t).op)
    ensures Missing(s, q, t)
  {
  }

  /** A miss is recorded for one of two reasons: the front is NULL; or the CAS on
      `back` finds that an enqueuer has come in since the link was found unset. */
  predicate Denied(s: State, t: Tid, q: Qid) {
    var op := Th(s.m, t).op;
    || ((op.Probe? || op.Claim?) && op.q == q && Missing(s, q, t))
    || (op.CasBack? && op.q == q && |Items(s.h, Sub(q))| > 1 && Items(s.h, Sub(q))[0] == op.top)
  }

  lemma MissTells(s: State, t: Tid, q: Qid)
    requires Inv(s) && EffectOf(s, Run(t)) == Miss(q)
    ensures Denied(s, t, q)
  {
    assert ThreadOK(s, t) && QueueOK(s, q);
    if Th(s.m, t).op.CasBack? { OthersBehind(s, t, q); } else { FrontUnset(s, q, t); }
  }

  lemma OthersBehind(s: State, t: Tid, q: Qid)
    requires QueueOK(s, q) && OpOK(s, t) && Th(s.m, t).op.CasBack? && Th(s.m, t).op.q == q
    requires Back(s.m, q) != NextOf(Th(s.m, t).op.top)
    ensures |Items(s.h, Sub(q))| > 1 && Items(s.h, Sub(q))[0] == Th(s.m, t).op.top
  {
  }

  // ------------------------------------------------------------- a whole call

  /** Inside a call that takes from `q`, and so far nothing stands in its way. */
  predicate OnCourse(s: State, t: Tid, q: Qid, w: Want) {
    var op := Th(s.m, t).op;
    || op == Probe(q, w) || op == Claim(q, w)
    || (w.All? && op.SwapAll? && op.q == q)
    || (w.One? && (op.LoadNext? || op.StoreFront? || (op.CasBack? && Back(s.m, q) == NextOf(op.top))) && op.q == q)
  }

  /** It has come back, and not with nothing. */
  predicate Took(s: State, t: Tid, w: Want) {
    Th(s.m, t).op.Idle? && if w.One? then Th(s.m, t).hand.Some? else Th(s.m, t).seg.Some?
  }

  /** Its own step: on course, unless there may be nothing to take. */
  lemma OwnStep(s: State, t: Tid, q: Qid, w: Want)
    requires Inv(s) && Enabled(s, Run(t)) && OnCourse(s, t, q, w) && !w.Over? && !Missing(s, q, t)
    ensures OnCourse(After(s, Run(t)), t, q, w) || Took(After(s, Run(t)), t, w)
  {
    assert ThreadOK(s, t) && QueueOK(s, q) && ChainOK(s, Sub(q));
    if Th(s.m, t).op.Probe? || Th(s.m, t).op.Claim? { AcquireStep(s, t, q, w); } else { TakeStep(s, t, q, w); }
  }

  lemma AcquireStep(s: State, t: Tid, q: Qid, w: Want)
    requires QueueOK(s, q) && (Th(s.m, t).op == Probe(q, w) || Th(s.m, t).op == Claim(q, w)) && !w.Over? && !Missing(s, q, t)
    ensures OnCourse(State(RunStep(s.m, t), s.h), t, q, w)
  {
  }

  lemma TakeStep(s: State, t: Tid, q: Qid, w: Want)
    requires QueueOK(s, q) && OpOK(s, t) && ChainOK(s, Sub(q)) && OnCourse(s, t, q, w) && !w.Over? && !Missing(s, q, t)
    requires !Th(s.m, t).op.Probe? && !Th(s.m, t).op.Claim?
    ensures OnCourse(State(RunStep(s.m, t), s.h), t, q, w) || Took(State(RunStep(s.m, t), s.h), t, w)
  {
    if Th(s.m, t).op.LoadNext? && At(s.m, NextOf(Th(s.m, t).op.top)).None? { Alone(s, q); }
  }

  /** A first node without a successor, linked or about to be, is the last. */
  lemma Alone(s: State, q: Qid)
    requires ChainOK(s, Sub(q)) && Items(s.h, Sub(q)) != []
    requires var r := NextOf(Items(s.h, Sub(q))[0]); r !in s.h.writer && At(s.m, r).None?
    ensures |Items(s.h, Sub(q))| == 1
  {
    var x := Items(s.h, Sub(q))[0];
  }

  /** Another thread's step: only an enqueuer's exchange can come in the way, and then
      it stands before its link. */
  lemma OtherStep(s: State, a: Step, t: Tid, q: Qid, w: Want)
    requires Inv(s) && Enabled(s, a) && a.t != t && OnCourse(s, t, q, w) && Inv(After(s, a))
    ensures OnCourse(After(s, a), t, q, w) || Missing(After(s, a), q, t)
  {
    OtherThread(s, a, t);
    if Th(s.m, t).op.CasBack? {
      assert ThreadOK(s, t) && ThreadOK(s, a.t) && ThreadOK(After(s, a), t);
      if a.Run? { BackMoves(s, a.t, t, q); } else { BackStays(s, a); }
    }
  }

  lemma BackStays(s: State, a: Step)
    requires Enabled(s, a) && !a.Run?
    ensures After(s, a).m.back == s.m.back
  {
  }

  /** `back` moves on while `t` has the front only by an exchange on the cell `t` read. */
  lemma BackMoves(s: State, u: Tid, t: Tid, q: Qid)
    requires Enabled(s, Run(u)) && u != t && OpOK(s, t) && OpOK(s, u) && OpOK(After(s, Run(u)), t)
    requires Th(s.m, t).op.CasBack? && Th(s.m, t).op.q == q && Back(s.m, q) == NextOf(Th(s.m, t).op.top)
    requires Th(After(s, Run(u)).m, t) == Th(s.m, t)
    ensures Back(After(s, Run(u)).m, q) == Back(s.m, q) || NextOf(Items(After(s, Run(u)).h, Sub(q))[0]) in After(s, Run(u)).h.writer
  {
  }

  /** Thread `t` is inside one call from step `i`, its first, to step `j`. */
  ghost predicate OneCall(ss: seq<State>, run: seq<Step>, i: nat, j: nat, t: Tid, q: Qid, w: Want) {
    && IsRun(ss, run) && i < j < |ss| && !w.Over? && run[i] == (if w.One? then Dequeue(t, q) else DequeueAll(t, q))
    && forall m {:trigger ss[m]} :: i < m < j ==> !Th(ss[m].m, t).op.Idle?
  }

  lemma {:induction false} CallSoFar(ss: seq<State>, run: seq<Step>, i: nat, j: nat, t: Tid, q: Qid, w: Want)
    requires OneCall(ss, run, i, j, t, q, w)
    ensures (exists k {:trigger ss[k]} :: i < k <= j && Missing(ss[k], q, t)) || OnCourse(ss[j], t, q, w) || Took(ss[j], t, w)
    decreases j
  {
    if i < j - 1 {
      CallSoFar(ss, run, i, j - 1, t, q, w);
      assert !Th(ss[j-1].m, t).op.Idle?;
      if !Missing(ss[j-1], q, t) && OnCourse(ss[j-1], t, q, w) { StepInRun(ss, run, j - 1, t, q, w); }
    }
  }

  lemma StepInRun(ss: seq<State>, run: seq<Step>, m: nat, t: Tid, q: Qid, w: Want)
    requires IsRun(ss, run) && m < |run| && OnCourse(ss[m], t, q, w) && !w.Over? && !Missing(ss[m], q, t)
    ensures Missing(ss[m+1], q, t) || OnCourse(ss[m+1], t, q, w) || Took(ss[m+1], t, w)
  {
    RunsKeepInv(ss, run, m);
    RunsKeepInv(ss, run, m + 1);
    StepOn(ss[m], run[m], t, q, w);
  }

  lemma StepOn(s: State, a: Step, t: Tid, q: Qid, w: Want)
    requires Inv(s) && Enabled(s, a) && Inv(After(s, a)) && OnCourse(s, t, q, w) && !w.Over? && !Missing(s, q, t)
    ensures Missing(After(s, a), q, t) || OnCourse(After(s, a), t, q, w) || Took(After(s, a), t, w)
  {
    if a.t == t { OwnStep(s, t, q, w); } else { OtherStep(s, a, t, q, w); }
  }

  /** In every run: a dequeue, or dequeue_all, that returns NULL had cause to.  At some
      moment of the call the queue was empty, another thread had its front, or an
      enqueuer stood between its exchange on `back` and its link. */
  lemma NullHasCause(ss: seq<State>, run: seq<Step>, i: nat, j: nat, t: Tid, q: Qid, w: Want) returns (k: nat)
    requires OneCall(ss, run, i, j, t, q, w) && Th(ss[j].m, t).op.Idle?
    requires if w.One? then Th(ss[j].m, t).hand.None? else Th(ss[j].m, t).seg.None?
    ensures i < k <= j && Missing(ss[k], q, t)
  {
    CallSoFar(ss, run, i, j, t, q, w);
    k :| i < k <= j && Missing(ss[k], q, t);
  }

  // ------------------------------------------------------- a call nobody disturbs

  /** Thread `t` makes `n` steps of the queue's code, all of which it can make, to `z`. */
  predicate Runs(s: State, t: Tid, n: nat, z: State)
    decreases n
  {
    if n == 0 then s == z else Enabled(s, Run(t)) && Runs(After(s, Run(t)), t, n - 1, z)
  }

  lemma Then(s: State, t: Tid, n: nat, z: State)
    requires Enabled(s, Run(t)) && Runs(After(s, Run(t)), t, n, z)
    ensures Runs(s, t, n + 1, z)
  {
  }

  function StepsLeft(op: Op): (n: nat) {
    if op.Probe? then 4 else if op.Claim? then 3 else if op.LoadNext? then 2 else 1
  }

  /** One step of the thread's own; while it is not through, the queue is as it was. */
  lemma LoneStep(s: State, t: Tid, q: Qid, w: Want)
    requires Inv(s) && OnCourse(s, t, q, w) && !w.Over? && !Missing(s, q, t)
    ensures Enabled(s, Run(t)) && Inv(After(s, Run(t)))
    ensures Took(After(s, Run(t)), t, w)
         || (OnCourse(After(s, Run(t)), t, q, w) && !Missing(After(s, Run(t)), q, t)
             && StepsLeft(Th(After(s, Run(t)).m, t).op) < StepsLeft(Th(s.m, t).op)
             && Items(After(s, Run(t)).h, Sub(q)) == Items(s.h, Sub(q)))
  {
    HistoryFollows(s, Run(t));
    StepKeeps(s, Run(t));
    OwnStep(s, t, q, w);
    if !Took(After(s, Run(t)), t, w) { OwnQueue(s, t, q, w); }
  }

  lemma OwnQueue(s: State, t: Tid, q: Qid, w: Want)
    requires Enabled(s, Run(t)) && OnCourse(s, t, q, w) && !w.Over? && !Missing(s, q, t)
    requires OnCourse(After(s, Run(t)), t, q, w)
    ensures !Missing(After(s, Run(t)), q, t) && Items(After(s, Run(t)).h, Sub(q)) == Items(s.h, Sub(q))
  {
  }

  /** The step that takes: the first node, or everything. */
  lemma LastStep(s: State, t: Tid, q: Qid, w: Want)
    requires Inv(s) && Enabled(s, Run(t)) && Inv(After(s, Run(t))) && OnCourse(s, t, q, w) && !w.Over? && !Missing(s, q, t)
    requires Took(After(s, Run(t)), t, w)
    ensures Brings(s, After(s, Run(t)), t, q, w)
  {
    assert ThreadOK(s, t) && ThreadOK(After(s, Run(t)), t);
    RefinesFifo(s, Run(t), q);
    TakenAll(s, t, q, w);
  }

  lemma TakenAll(s: State, t: Tid, q: Qid, w: Want)
    requires Enabled(s, Run(t)) && LocalsOK(s, t) && OpOK(s, t) && LocalsOK(After(s, Run(t)), t)
    requires OnCourse(s, t, q, w) && !w.Over? && !Missing(s, q, t)
    requires Took(After(s, Run(t)), t, w)
    ensures Brings(s, After(s, Run(t)), t, q, w)
  {
    if w.One? { TakenOne(s, t, q); } else { TakenWhole(s, t, q); }
  }

  lemma TakenOne(s: State, t: Tid, q: Qid)
    requires Enabled(s, Run(t)) && OpOK(s, t) && OnCourse(s, t, q, One) && Items(s.h, Sub(q)) != []
    requires Th(s.m, t).op.StoreFront? || Th(s.m, t).op.CasBack?
    ensures Brings(s, After(s, Run(t)), t, q, One)
  {
  }

  lemma TakenWhole(s: State, t: Tid, q: Qid)
    requires Enabled(s, Run(t)) && LocalsOK(s, t) && LocalsOK(After(s, Run(t)), t) && OpOK(s, t)
    requires Th(s.m, t).op.SwapAll? && Th(s.m, t).op.q == q && Items(s.h, Sub(q)) != []
    ensures Brings(s, After(s, Run(t)), t, q, All)
  {
    assert Items(s.h, Held(t)) == [];
  }

  /** What a call from `s` has brought in `z`. */
  predicate Brings(s: State, z: State, t: Tid, q: Qid, w: Want) {
    var xs := Items(s.h, Sub(q));
    && Th(z.m, t).op.Idle?
    && if w.One? then
         if xs == [] then Th(z.m, t).hand.None? else Th(z.m, t).hand == Some(xs[0]) && Items(z.h, Sub(q)) == xs[1..]
       else
         if xs == [] then Th(z.m, t).seg.None?
         else Th(z.m, t).seg == Some(SegmentOf(xs)) && Items(z.h, Held(t)) == xs && Items(z.h, Sub(q)) == []
  }

  lemma {:induction false} LoneOn(s: State, t: Tid, q: Qid, w: Want) returns (n: nat, z: State)
    requires Inv(s) && OnCourse(s, t, q, w) && !w.Over? && !Missing(s, q, t)
    ensures n > 0 && Runs(s, t, n, z) && Brings(s, z, t, q, w)
    decreases StepsLeft(Th(s.m, t).op)
  {
    LoneStep(s, t, q, w);
    var a := After(s, Run(t));
    if Took(a, t, w) {
      LastStep(s, t, q, w);
      n, z := 0, a;
    } else {
      n, z := LoneOn(a, t, q, w);
    }
    Then(s, t, n, z);
    n := n + 1;
  }

  /** Nobody has the front, and nobody is about to link. */
  predicate Undisturbed(s: State, q: Qid) { q !in s.h.owner && s.h.writer == map[] }

  function Call(t: Tid, q: Qid, w: Want): (a: Step) { if w.One? then Dequeue(t, q) else DequeueAll(t, q) }

  /** Left alone with a queue, a dequeue brings its first node, and dequeue_all the whole
      of it, in order; and nothing if and only if the queue is empty. */
  lemma LoneTakes(s: State, t: Tid, q: Qid, w: Want) returns (n: nat, z: State)
    requires Inv(s) && !w.Over? && Enabled(s, Call(t, q, w)) && Undisturbed(s, q)
    ensures Runs(After(s, Call(t, q, w)), t, n, z) && Brings(s, z, t, q, w)
  {
    StepKeeps(s, Call(t, q, w));
    var a := After(s, Call(t, q, w));
    if Items(s.h, Sub(q)) == [] {
      assert QueueOK(s, q);
      z := LoneNone(a, t, q, w);
      n := 1;
    } else {
      n, z := LoneOn(a, t, q, w);
    }
  }

  lemma LoneNone(a: State, t: Tid, q: Qid, w: Want) returns (z: State)
    requires Th(a.m, t).op == Probe(q, w) && !w.Over? && At(a.m, Front(q)).None?
    ensures Runs(a, t, 1, z) && Th(z.m, t) == Th(a.m, t).(op := Idle)
  {
    z := After(a, Run(t));
    assert Runs(z, t, 0, z);
  }

  /** An enqueue nobody disturbs puts the node behind the others, link and all. */
  lemma LoneEnqueue(s: State, t: Tid, q: Qid) returns (z: State)
    requires Inv(s) && Enabled(s, Enqueue(t, q)) && Undisturbed(s, q)
    ensures Runs(After(s, Enqueue(t, q)), t, 3, z) && Inv(z) && Th(z.m, t) == Th(s.m, t).(hand := None)
    ensures Items(z.h, Sub(q)) == Items(s.h, Sub(q)) + [Th(s.m, t).hand.value] && Undisturbed(z, q)
  {
    assert ThreadOK(s, t);
    var a := After(s, Enqueue(t, q));
    StepKeeps(s, Enqueue(t, q));
    assert Items(a.h, Flight(t)) == [Th(s.m, t).hand.value];
    var b := LoneClear(a, t, q);
    var c := LoneSwap(b, t, q);
    z := LoneLink(c, t, q);
    Then(c, t, 0, z);
    Then(b, t, 1, z);
    Then(a, t, 2, z);
  }

  lemma LoneClear(a: State, t: Tid, q: Qid) returns (b: State)
    requires Inv(a) && Th(a.m, t).op.ClearEnd? && Th(a.m, t).op.q == q && Undisturbed(a, q)
    ensures Enabled(a, Run(t)) && b == After(a, Run(t)) && Inv(b) && Undisturbed(b, q) && b.h == a.h
    ensures Th(b.m, t) == Th(a.m, t).(op := SwapBack(q, Th(a.m, t).op.s))
  {
    StepKeeps(a, Run(t));
    b := After(a, Run(t));
  }

  lemma LoneSwap(b: State, t: Tid, q: Qid) returns (c: State)
    requires Inv(b) && Th(b.m, t).op.SwapBack? && Th(b.m, t).op.q == q && Undisturbed(b, q)
    ensures Enabled(b, Run(t)) && c == After(b, Run(t)) && Inv(c) && q !in c.h.owner
    ensures Items(c.h, Sub(q)) == Items(b.h, Sub(q)) + Items(b.h, Flight(t))
    ensures Th(c.m, t).op.StoreLink? && Th(c.m, t) == Th(b.m, t).(op := Th(c.m, t).op) && c.h.writer.Keys == {Th(c.m, t).op.b}
  {
    StepKeeps(b, Run(t));
    c := After(b, Run(t));
  }

  lemma LoneLink(c: State, t: Tid, q: Qid) returns (z: State)
    requires Inv(c) && Th(c.m, t).op.StoreLink? && c.h.writer.Keys == {Th(c.m, t).op.b} && q !in c.h.owner
    ensures Enabled(c, Run(t)) && z == After(c, Run(t)) && Inv(z) && Undisturbed(z, q)
    ensures Items(z.h, Sub(q)) == Items(c.h, Sub(q)) && Th(z.m, t) == Th(c.m, t).(op := Idle)
  {
    StepKeeps(c, Run(t));
    z := After(c, Run(t));
    assert z.h.writer.Keys == {};
  }
}
