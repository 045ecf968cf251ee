/** What the run queues guarantee, in every reachable state and over every run. */
module QueueTheorems {
  import opened Wrappers
  import opened BehaviorQueue
  import opened QueueHistory
  import opened QueueSteps
  import opened QueueRuns

  // ------------------------------------------------------------- conservation

  function Times(n: Node, xs: seq<Node>): (k: nat) {
    if xs == [] then 0 else (if xs[0] == n then 1 else 0) + Times(n, xs[1..])
  }

  lemma {:induction false} TimesNone(n: Node, xs: seq<Node>)
    requires n !in xs
    ensures Times(n, xs) == 0
  {
    if xs != [] { TimesNone(n, xs[1..]); }
  }

  lemma {:induction false} TimesOnce(n: Node, xs: seq<Node>, i: nat)
    requires i < |xs| && xs[i] == n && forall j :: 0 <= j < |xs| && j != i ==> xs[j] != n
    ensures Times(n, xs) == 1
  {
    if i == 0 { TimesNone(n, xs[1..]); } else { TimesOnce(n, xs[1..], i - 1); }
  }

  /** Every node ever given to dispatch is in exactly one place, once: a queue, a
      segment (with whatever gaps it has), a local variable, `pending`, or handed
      out. */
  lemma Conservation(s: State, n: Node, p: Place)
    requires Inv(s) && n in s.h.home
    ensures Times(n, Items(s.h, p)) == if p == s.h.home[n] then 1 else 0
  {
    var xs := Items(s.h, p);
    assert HomeOK(s.h, p);
    if p == s.h.home[n] {
      var i :| 0 <= i < |xs| && xs[i] == n;
      TimesOnce(n, xs, i);
    } else {
      TimesNone(n, xs);
    }
  }

  /** No step takes anything from those handed out. */
  lemma RunnerOnlyGrows(s: State, a: Step)
    requires Enabled(s, a)
    ensures Items(s.h, Runner) <= Items(After(s, a).h, Runner)
  {
    if a.Run? { RunsLeaveRunner(s.m, s.h, a.t); }
  }

  lemma RunsLeaveRunner(m: Mem, h: History, t: Tid)
    requires CanRecord(m, h, Run(t))
    ensures Items(RunHistory(m, h, t), Runner) == Items(h, Runner)
  {
  }

  /** A behavior handed to a runner stays handed out: never queued again, never
      handed out again. */
  lemma OnceOut(s: State, a: Step, n: Node)
    requires Inv(s) && Enabled(s, a) && n in s.h.home && s.h.home[n] == Runner
    ensures n in After(s, a).h.home && After(s, a).h.home[n] == Runner
  {
    RunnerOnlyGrows(s, a);
    StepKeeps(s, a);
    var xs, ys := Items(s.h, Runner), Items(After(s, a).h, Runner);
    assert n in xs;
    var i :| 0 <= i < |xs| && xs[i] == n;
    assert HomeOK(After(s, a).h, Runner) && ys[i] == n;
  }

  lemma {:induction false} StaysOut(ss: seq<State>, run: seq<Step>, i: nat, j: nat, n: Node)
    requires IsRun(ss, run) && i <= j < |ss| && n in ss[i].h.home && ss[i].h.home[n] == Runner
    ensures n in ss[j].h.home && ss[j].h.home[n] == Runner
    decreases j
  {
    if i < j {
      StaysOut(ss, run, i, j - 1, n);
      RunStepOut(ss, run, j - 1, n);
    }
  }

  lemma RunStepOut(ss: seq<State>, run: seq<Step>, j: nat, n: Node)
    requires IsRun(ss, run) && j < |run| && n in ss[j].h.home && ss[j].h.home[n] == Runner
    ensures n in ss[j+1].h.home && ss[j+1].h.home[n] == Runner
  {
    RunsKeepInv(ss, run, j);
    OnceOut(ss[j], run[j], n);
  }

  lemma HandedOutForGood(ss: seq<State>, run: seq<Step>, i: nat, j: nat, n: Node)
    requires IsRun(ss, run) && i <= j < |ss| && n in ss[i].h.home && ss[i].h.home[n] == Runner
    ensures n in ss[j].h.home && ss[j].h.home[n] == Runner && Times(n, Items(ss[j].h, Runner)) == 1
  {
    StaysOut(ss, run, i, j, n);
    RunsKeepInv(ss, run, j);
    Conservation(ss[j], n, Runner);
  }

  /** The cell a thread's next operation stores into, if any. */
  function Stores(op: Op): (r: Option<Ref>) {
    match op
    case ClearEnd(_, s) => Some(s.end)
    case StoreLink(b, _) => Some(b)
    case Claim(q, _) => Some(Front(q))
    case StoreFront(q, _, _) => Some(Front(q))
    case Restore(q, _) => Some(Front(q))
    case LinkOver(_, n, _) => Some(NextOf(n))
    case StoreOver(q, _, _) => Some(Front(q))
    case _ => None
  }

  /** Once a node has been returned by a queue operation, or handed out, no
      thread is about to store into it. */
  lemma NoPendingWrite(s: State, n: Node, t: Tid)
    requires Inv(s) && n in s.h.home && (s.h.home[n].Hand? || s.h.home[n].Saved? || s.h.home[n].Pending? || s.h.home[n].Runner?)
    ensures Stores(Th(s.m, t).op) != Some(NextOf(n))
  {
    var p, op := s.h.home[n], Th(s.m, t).op;
    assert ThreadOK(s, t);
    assert HomeOK(s.h, p) && EndOK(s, p) && HomeOK(s.h, Flight(t));
    assert n in Items(s.h, p);
    if p != Runner {
      assert ThreadOK(s, p.t);
      assert Last(Items(s.h, p)) == n;
    }
    assert NextOf(n) !in s.h.writer;
    var ys := Items(s.h, Flight(t));
    assert ys != [] ==> s.h.home[ys[|ys|-1]] == Flight(t);
  }

  /** The assertion in boc_bq_enqueue_segment holds whenever it is evaluated: the
      cell the exchange returned is still NULL. */
  lemma CellStillNull(s: State, t: Tid)
    requires Inv(s) && Th(s.m, t).op.StoreLink?
    ensures At(s.m, Th(s.m, t).op.b).None?
    ensures forall u :: u != t && Th(s.m, u).op.StoreLink? ==> Th(s.m, u).op.b != Th(s.m, t).op.b
  {
    assert ThreadOK(s, t);
    assert WriterOK(s, Th(s.m, t).op.b);
    forall u | u != t && Th(s.m, u).op.StoreLink? ensures Th(s.m, u).op.b != Th(s.m, t).op.b {
      assert ThreadOK(s, u);
    }
  }

  // ----------------------------------------------------------------- FIFO order

  /** What a step does to the queues, seen as sequences. */
  datatype Effect =
    | Nothing
    | Append(q: Qid, ns: seq<Node>)
    | Pop(q: Qid, n: Node)
    | PopAll(q: Qid, ns: seq<Node>)
    | PushFront(q: Qid, n: Node)
    | Miss(q: Qid)                  // somebody finds that there is nothing to take
    | Found(q: Qid)                 // somebody finds that there is
    | Gap(n: Node)                  // take_one finds that the link after `n` is not there yet

  /** Only the pointers decide what a step does; a whole segment is named by its nodes. */
  function EffectOf(s: State, a: Step): (e: Effect) {
    if !a.Run? then Nothing else
      match Th(s.m, a.t).op
      case SwapBack(q, _) => Append(q, Items(s.h, Flight(a.t)))
      case Probe(q, w) => if !w.Over? && At(s.m, Front(q)).None? then Miss(q) else Nothing
      case Claim(q, w) => if !w.Over? && At(s.m, Front(q)).None? then Miss(q) else Nothing
      case StoreFront(q, top, _) => Pop(q, top)
      case CasBack(q, top) => if Back(s.m, q) == NextOf(top) then Pop(q, top) else Miss(q)
      case SwapAll(q, _) => PopAll(q, Items(s.h, Sub(q)))
      case StoreOver(q, n, _) => PushFront(q, n)
      case _ => Nothing
  }

  /** The FIFO specification of one queue. */
  predicate Fifo(xs: seq<Node>, xs': seq<Node>, q: Qid, e: Effect) {
    match e
    case Append(r, ns) => if r == q then xs' == xs + ns && ns != [] else xs' == xs
    case Pop(r, n) => if r == q then xs == [n] + xs' else xs' == xs
    case PopAll(r, ns) => if r == q then xs == ns && ns != [] && xs' == [] else xs' == xs
    case PushFront(r, n) => if r == q then xs' == [n] + xs else xs' == xs
    case _ => xs' == xs
  }

  lemma RunFifo(s: State, t: Tid, q: Qid)
    requires ThreadOK(s, t) && CanRecord(s.m, s.h, Run(t))
    ensures Fifo(Items(s.h, Sub(q)), Items(RunHistory(s.m, s.h, t), Sub(q)), q, EffectOf(s, Run(t)))
  {
    if OwnsFront(Th(s.m, t).op) && Th(s.m, t).op.q == q {
      var xs := Items(s.h, Sub(q));
      assert xs == [xs[0]] + xs[1..];
    }
  }

  lemma LocalFifo(s: State, a: Step, q: Qid)
    requires CanRecord(s.m, s.h, a) && !a.Run?
    ensures Items(Record(s.m, s.h, a), Sub(q)) == Items(s.h, Sub(q))
  {
  }

  /** The pointer code refines a FIFO queue, ordered by the exchange on `back`. */
  lemma RefinesFifo(s: State, a: Step, q: Qid)
    requires Inv(s) && Enabled(s, a)
    ensures Fifo(Items(s.h, Sub(q)), Items(After(s, a).h, Sub(q)), q, EffectOf(s, a))
  {
    assert ThreadOK(s, a.t);
    if a.Run? { RunFifo(s, a.t, q); } else { LocalFifo(s, a, q); }
  }

  /** A dequeue returns exactly the node it popped; one that returns NULL has
      popped nothing, moved nothing and left the front as it found it. */
  lemma DequeueResult(s: State, t: Tid)
    requires Inv(s) && Enabled(s, Run(t)) && TakesOne(Th(s.m, t).op) && Th(After(s, Run(t)).m, t).op.Idle?
    ensures var s', e := After(s, Run(t)), EffectOf(s, Run(t));
      if e.Pop? then Th(s'.m, t).hand == Some(e.n)
      else Th(s'.m, t).hand.None? && s'.h.items == s.h.items && s'.m.back == s.m.back
           && (Th(s.m, t).op.Restore? ==> At(s'.m, Front(Th(s.m, t).op.q)) == Some(Th(s.m, t).op.top))
  {
    assert ThreadOK(s, t);
  }

  function WentIn(e: Effect, q: Qid): (ns: seq<Node>) { if e.Append? && e.q == q then e.ns else [] }

  function CameOut(e: Effect, q: Qid): (ns: seq<Node>) {
    if e.Pop? && e.q == q then [e.n] else if e.PopAll? && e.q == q then e.ns else []
  }

  function AppendedTo(ss: seq<State>, run: seq<Step>, q: Qid): (ns: seq<Node>)
    requires |ss| == |run| + 1
  {
    if run == [] then [] else
      var i := |run| - 1;
      AppendedTo(ss[..|run|], run[..i], q) + WentIn(EffectOf(ss[i], run[i]), q)
  }

  function PoppedFrom(ss: seq<State>, run: seq<Step>, q: Qid): (ns: seq<Node>)
    requires |ss| == |run| + 1
  {
    if run == [] then [] else
      var i := |run| - 1;
      PoppedFrom(ss[..|run|], run[..i], q) + CameOut(EffectOf(ss[i], run[i]), q)
  }

  lemma FifoStep(ins: seq<Node>, outs: seq<Node>, xs: seq<Node>, xs': seq<Node>, q: Qid, e: Effect)
    requires ins == outs + xs && Fifo(xs, xs', q, e) && !(e.PushFront? && e.q == q)
    ensures ins + WentIn(e, q) == outs + CameOut(e, q) + xs'
  {
  }

  lemma RunPrefix(ss: seq<State>, run: seq<Step>)
    requires IsRun(ss, run) && run != []
    ensures IsRun(ss[..|run|], run[..|run|-1])
  {
    var ss0, run0 := ss[..|run|], run[..|run|-1];
    forall k {:trigger run0[k]} | 0 <= k < |run0| ensures Enabled(ss0[k], run0[k]) && ss0[k+1] == After(ss0[k], run0[k]) {
      assert run0[k] == run[k] && ss0[k] == ss[k] && ss0[k+1] == ss[k+1];
    }
  }

  /** Over any run without enqueue_front on `q`, what came out of it followed by
      what is still in it is what went in, in order. */
  lemma {:induction false} FirstInFirstOut(ss: seq<State>, run: seq<Step>, q: Qid)
    requires IsRun(ss, run)
    requires forall i {:trigger run[i]} :: 0 <= i < |run| ==> !(EffectOf(ss[i], run[i]).PushFront? && EffectOf(ss[i], run[i]).q == q)
    ensures AppendedTo(ss, run, q) == PoppedFrom(ss, run, q) + Items(ss[|run|].h, Sub(q))
    decreases |run|
  {
    if run == [] {
      assert Items(ss[0].h, Sub(q)) == [];
    } else {
      var i := |run| - 1;
      var ss0, run0 := ss[..|run|], run[..i];
      RunPrefix(ss, run);
      assert forall k {:trigger run0[k]} :: 0 <= k < |run0| ==> run0[k] == run[k] && ss0[k] == ss[k];
      FirstInFirstOut(ss0, run0, q);
      LastFifo(ss, run, q);
    }
  }

  lemma RunFifoStep(ss: seq<State>, run: seq<Step>, i: nat, q: Qid)
    requires IsRun(ss, run) && i < |run|
    ensures Fifo(Items(ss[i].h, Sub(q)), Items(ss[i+1].h, Sub(q)), q, EffectOf(ss[i], run[i]))
  {
    RunsKeepInv(ss, run, i);
    RefinesFifo(ss[i], run[i], q);
  }

  /** The last step of a run. */
  lemma LastFifo(ss: seq<State>, run: seq<Step>, q: Qid)
    requires IsRun(ss, run) && run != []
    requires var i := |run| - 1;
      && !(EffectOf(ss[i], run[i]).PushFront? && EffectOf(ss[i], run[i]).q == q)
      && AppendedTo(ss[..|run|], run[..i], q) == PoppedFrom(ss[..|run|], run[..i], q) + Items(ss[i].h, Sub(q))
    ensures AppendedTo(ss, run, q) == PoppedFrom(ss, run, q) + Items(ss[|run|].h, Sub(q))
  {
    var i := |run| - 1;
    RunFifoStep(ss, run, i, q);
    FifoStep(AppendedTo(ss[..|run|], run[..i], q), PoppedFrom(ss[..|run|], run[..i], q), Items(ss[i].h, Sub(q)),
             Items(ss[i+1].h, Sub(q)), q, EffectOf(ss[i], run[i]));
  }

  // ---------------------------------------------------------------- quiescence

  /** When no thread is inside a queue operation there are no gaps: every queue is
      a complete linked list from `front` to `back`. */
  lemma QuietQueues(s: State, q: Qid)
    requires Inv(s) && forall t :: Th(s.m, t).op.Idle?
    ensures var xs := Items(s.h, Sub(q));
      && At(s.m, Front(q)) == (if xs == [] then None else Some(xs[0]))
      && Back(s.m, q) == (if xs == [] then Front(q) else NextOf(xs[|xs|-1]))
      && forall i {:trigger xs[i]} :: 0 <= i < |xs| ==> At(s.m, NextOf(xs[i])) == if i + 1 < |xs| then Some(xs[i+1]) else None
  {
    Known(s, 0, q);
    forall r ensures r !in s.h.writer {
      assert r in s.h.writer ==> WriterOK(s, r);
    }
    assert q !in s.h.owner;
    var xs := Items(s.h, Sub(q));
    forall i {:trigger xs[i]} | 0 <= i < |xs|
      ensures At(s.m, NextOf(xs[i])) == if i + 1 < |xs| then Some(xs[i+1]) else None
    {
      if i + 1 == |xs| { assert xs[i] == Last(xs); }
    }
  }
}
