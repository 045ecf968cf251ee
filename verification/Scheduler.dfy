/** The queue functions and the scheduler's own code, written as the runtime runs
    them: shared fields changed one atomic operation at a time, with any steps of
    any other threads in between. */
module Scheduler {
  import opened Wrappers
  import opened BehaviorQueue
  import opened QueueHistory
  import opened QueueSteps
  import opened QueueRuns
  import opened QueueTheorems
  import opened PinnedRouting
  import opened QueueMisses

  lemma RunKeys(s: State, t: Tid)
    requires Inv(s) && Enabled(s, Run(t))
    ensures After(s, Run(t)).h.home.Keys == s.h.home.Keys
  {
    assert forall q :: HomeOK(s.h, Sub(q));
  }

  /** What thread `t` holds, as far as anyone can tell. */
  datatype Own = Own(th: Thread, held: seq<Node>, flight: seq<Node>)

  function OwnOf(s: State, t: Tid): (o: Own) { Own(Th(s.m, t), Items(s.h, Held(t)), Items(s.h, Flight(t))) }

  /** Other threads' steps change nothing that `t` holds; they may set its flag,
      but only `t` clears it. */
  lemma OthersLeave(s: State, a: Step, t: Tid)
    requires Enabled(s, a) && a.t != t
    ensures OwnOf(After(s, a), t) == OwnOf(s, t) && (t in s.m.armed ==> t in After(s, a).m.armed)
  {
    if a.Run? { OtherRuns(s, a.t, t); } else { OtherCalls(s, a, t); }
  }

  lemma OtherCalls(s: State, a: Step, t: Tid)
    requires Enabled(s, a) && !a.Run? && a.t != t
    ensures OwnOf(After(s, a), t) == OwnOf(s, t) && (t in s.m.armed ==> t in After(s, a).m.armed)
  {
    OtherCall(s.m, a, s.h.home.Keys, t);
    OtherArmed(s.m, a, s.h.home.Keys, t);
    OtherRecord(s.m, s.h, a, t);
  }

  lemma OtherArmed(m: Mem, a: Step, known: set<Node>, t: Tid)
    requires CanStep(m, known, a) && !a.Run? && a.t != t
    ensures t in m.armed ==> t in Next(m, a, known).armed
  {
  }

  lemma OtherRecord(m: Mem, h: History, a: Step, t: Tid)
    requires CanRecord(m, h, a) && !a.Run? && a.t != t
    ensures Items(Record(m, h, a), Held(t)) == Items(h, Held(t)) && Items(Record(m, h, a), Flight(t)) == Items(h, Flight(t))
  {
  }

  lemma OtherRuns(s: State, u: Tid, t: Tid)
    requires Enabled(s, Run(u)) && u != t
    ensures OwnOf(After(s, Run(u)), t) == OwnOf(s, t) && After(s, Run(u)).m.armed == s.m.armed
  {
    OtherMemory(s.m, u, t);
    OtherHistory(s.m, s.h, u, t);
  }

  lemma RestKeep(s: State, t: Tid)
    requires Enabled(s, Run(t))
    ensures forall u {:trigger OwnOf(After(s, Run(t)), u)} :: u != t ==> OwnOf(After(s, Run(t)), u) == OwnOf(s, u)
  {
    forall u {:trigger OwnOf(After(s, Run(t)), u)} | u != t ensures OwnOf(After(s, Run(t)), u) == OwnOf(s, u) {
      OtherRuns(s, t, u);
    }
  }

  lemma OtherMemory(m: Mem, u: Tid, t: Tid)
    requires u != t
    ensures Th(RunStep(m, u), t) == Th(m, t) && RunStep(m, u).armed == m.armed
  {
    OtherRun(m, u, t);
    SameArmed(m, u);
  }

  lemma SameArmed(m: Mem, u: Tid)
    ensures RunStep(m, u).armed == m.armed
  {
  }

  lemma OtherHistory(m: Mem, h: History, u: Tid, t: Tid)
    requires u != t && CanRecord(m, h, Run(u))
    ensures Items(RunHistory(m, h, u), Held(t)) == Items(h, Held(t))
    ensures Items(RunHistory(m, h, u), Flight(t)) == Items(h, Flight(t))
  {
  }

  /** What one queue operation does to the thread that performs it. */
  ghost predicate Moves(o: Own, o': Own, e: Effect) {
    match o.th.op
    case Idle => false
    case ClearEnd(q, s) => e == Nothing && o' == o.(th := o.th.(op := SwapBack(q, s)))
    case SwapBack(q, s) =>
      e == Append(q, o.flight) && o'.th.op.StoreLink? && o' == o.(th := o.th.(op := o'.th.op), flight := [])
    case StoreLink(_, _) => e == Nothing && o' == o.(th := o.th.(op := Idle))
    case Probe(q, w) =>
      && o' == o.(th := o.th.(op := o'.th.op)) && (e == Miss(q) || e == Nothing)
      && (w.Over? || o'.th.op == if e == Miss(q) then NotAcquired(q, w) else Claim(q, w))
      && (w.Over? ==> e == Nothing && o'.th.op in {NotAcquired(q, w), Claim(q, w)})
    case Claim(q, w) =>
      && o' == o.(th := o.th.(op := o'.th.op)) && (e == Miss(q) || e == Nothing) && (w.Over? ==> e == Nothing)
      && (if e == Miss(q) then o'.th.op == NotAcquired(q, w)
          else (w.Over? && o'.th.op == NotAcquired(q, w))
               || (OwnsFront(o'.th.op) && o'.th.op == Acquired(q, w, o'.th.op.top)))
    case LoadNext(q, top) =>
      && e == Nothing && o' == o.(th := o.th.(op := o'.th.op))
      && (o'.th.op == CasBack(q, top) || (o'.th.op.StoreFront? && o'.th.op.q == q && o'.th.op.top == top))
    case StoreFront(q, top, _) => e == Pop(q, top) && o' == o.(th := o.th.(op := Idle, hand := Some(top)))
    case CasBack(q, top) =>
      || (e == Pop(q, top) && o' == o.(th := o.th.(op := Idle, hand := Some(top))))
      || (e == Miss(q) && o' == o.(th := o.th.(op := Restore(q, top))))
    case Restore(_, _) => e == Nothing && o' == o.(th := o.th.(op := Idle))
    case SwapAll(q, _) =>
      && e == PopAll(q, o'.held) && o'.held != []
      && o' == o.(th := o.th.(op := Idle, seg := Some(SegmentOf(o'.held))), held := o'.held)
    case LinkOver(q, n, top) => e == Nothing && o' == o.(th := o.th.(op := StoreOver(q, n, top)))
    case StoreOver(q, n, _) => e == PushFront(q, n) && o' == o.(th := o.th.(op := Idle), flight := [])
  }

  lemma RunMoves(s: State, t: Tid)
    requires Inv(s) && Enabled(s, Run(t))
    ensures Moves(OwnOf(s, t), OwnOf(After(s, Run(t)), t), EffectOf(s, Run(t)))
    ensures After(s, Run(t)).m.armed == s.m.armed
  {
    assert ThreadOK(s, t);
    if Th(s.m, t).op.SwapAll? { assert QueueOK(s, Th(s.m, t).op.q); }
    ThreadMoves(s, t);
    OtherMemory(s.m, t, t + 1);
  }

  lemma ThreadMoves(s: State, t: Tid)
    requires ThreadOK(s, t) && Enabled(s, Run(t)) && (Th(s.m, t).op.SwapAll? ==> QueueOK(s, Th(s.m, t).op.q))
    ensures Moves(OwnOf(s, t), OwnOf(After(s, Run(t)), t), EffectOf(s, Run(t)))
  {
  }

  lemma CallKeys(s: State, a: Step)
    requires Inv(s) && Enabled(s, a) && !a.Run?
    ensures After(s, a).h.home.Keys == s.h.home.Keys + if a.Produce? then {a.n} else {}
  {
    if a.TakeOne? { PeelOwn(s, a.t); } else { LocalKeys(s, a); }
  }

  lemma LocalKeys(s: State, a: Step)
    requires CanRecord(s.m, s.h, a) && !a.Run? && !a.TakeOne?
    ensures Record(s.m, s.h, a).home.Keys == s.h.home.Keys + if a.Produce? then {a.n} else {}
  {
  }

  lemma CallFacts(s: State, a: Step, known: set<Node>, g: Routing)
    requires Inv(s) && known == s.h.home.Keys && CanStep(s.m, known, a) && !a.Run? && Routed(s, g) && Lawful(s.m, g, a)
    ensures Enabled(s, a) && Inv(After(s, a)) && After(s, a).h.home.Keys == known + if a.Produce? then {a.n} else {}
    ensures After(s, a).m.back == s.m.back && After(s, a).m.token == s.m.token && Routed(After(s, a), Route(g, a))
    ensures Route(g, a) == g.(giving := Route(g, a).giving)
  {
    HistoryFollows(s, a);
    StepKeeps(s, a);
    CallKeys(s, a);
    CallRest(s.m, a, known);
    RouteKeeps(s, a, g);
  }

  lemma CallRest(m: Mem, a: Step, known: set<Node>)
    requires CanStep(m, known, a) && !a.Run?
    ensures Next(m, a, known).back == m.back && Next(m, a, known).token == m.token
  {
  }

  /** What a thread holds after a step that is not inside a queue function. */
  function Called(o: Own, a: Step): (o': Own)
    requires match a
             case Enqueue(_, _) => o.th.hand.Some?
             case EnqueuePending(_, _) => o.th.pending.Some?
             case EnqueueSegment(_, _) => o.th.seg.Some?
             case _ => true
  {
    match a
    case Enqueue(_, q) => Own(o.th.(op := ClearEnd(q, Single(o.th.hand.value)), hand := None), o.held, [o.th.hand.value])
    case EnqueuePending(_, q) =>
      Own(o.th.(op := ClearEnd(q, Single(o.th.pending.value)), pending := None), o.held, [o.th.pending.value])
    case EnqueueSegment(_, q) => Own(o.th.(op := ClearEnd(q, o.th.seg.value), seg := None), [], o.held)
    case Dequeue(_, q) => o.(th := o.th.(op := Probe(q, One)))
    case DequeueAll(_, q) => o.(th := o.th.(op := Probe(q, All)))
    case TakeLast(_) => Own(o.th.(hand := if o.held == [] then None else Some(o.held[0]), seg := None), [], o.flight)
    case Stash(_) => o.(th := o.th.(pending := o.th.hand, hand := None))
    case Save(_) => o.(th := o.th.(saved := o.th.hand, hand := None))
    case Reload(_) => o.(th := o.th.(hand := o.th.saved, saved := None))
    case Unstash(_) => o.(th := o.th.(hand := o.th.pending, pending := None))
    case _ => o
  }

  predicate Calls(a: Step) {
    || a.Enqueue? || a.EnqueuePending? || a.EnqueueSegment? || a.Dequeue? || a.DequeueAll?
    || a.TakeLast? || a.Stash? || a.Unstash? || a.Save? || a.Reload?
  }

  lemma CallOwn(s: State, a: Step)
    requires Inv(s) && Enabled(s, a) && Calls(a)
    ensures OwnOf(After(s, a), a.t) == Called(OwnOf(s, a.t), a) && After(s, a).h.home.Keys == s.h.home.Keys
    ensures After(s, a).m.armed == s.m.armed && (a.TakeLast? ==> |Items(s.h, Held(a.t))| == 1)
  {
    assert ThreadOK(s, a.t);
    if a.TakeLast? { LastAlone(s, a.t); }
    LocalKeys(s, a);
    ThreadCalls(s, a);
  }

  lemma ThreadCalls(s: State, a: Step)
    requires LocalsOK(s, a.t) && Enabled(s, a) && Calls(a) && (a.TakeLast? ==> |Items(s.h, Held(a.t))| == 1)
    ensures OwnOf(After(s, a), a.t) == Called(OwnOf(s, a.t), a) && After(s, a).m.armed == s.m.armed
  {
    if a.Enqueue? || a.EnqueuePending? || a.EnqueueSegment? { EnqueueCalls(s, a); }
    else if a.Dequeue? || a.DequeueAll? { DequeueCalls(s, a); }
    else { LocalCalls(s, a); }
  }

  lemma EnqueueCalls(s: State, a: Step)
    requires LocalsOK(s, a.t) && Enabled(s, a) && (a.Enqueue? || a.EnqueuePending? || a.EnqueueSegment?)
    ensures OwnOf(After(s, a), a.t) == Called(OwnOf(s, a.t), a) && After(s, a).m.armed == s.m.armed
  {
  }

  lemma DequeueCalls(s: State, a: Step)
    requires Enabled(s, a) && (a.Dequeue? || a.DequeueAll?)
    ensures OwnOf(After(s, a), a.t) == Called(OwnOf(s, a.t), a) && After(s, a).m.armed == s.m.armed
  {
  }

  lemma LocalCalls(s: State, a: Step)
    requires LocalsOK(s, a.t) && Enabled(s, a) && (a.TakeLast? ==> |Items(s.h, Held(a.t))| == 1)
    requires a.TakeLast? || a.Stash? || a.Unstash? || a.Save? || a.Reload?
    ensures OwnOf(After(s, a), a.t) == Called(OwnOf(s, a.t), a) && After(s, a).m.armed == s.m.armed
  {
  }

  lemma LastAlone(s: State, t: Tid)
    requires LocalsOK(s, t) && HomeOK(s.h, Held(t)) && Enabled(s, TakeLast(t))
    ensures Items(s.h, Held(t)) == [Th(s.m, t).seg.value.start]
  {
    var xs := Items(s.h, Held(t));
    assert xs[0] == Last(xs);
  }

  lemma RearmOwn(s: State, t: Tid, q: Qid)
    requires Inv(s) && Enabled(s, Rearm(t, q)) && Items(s.h, Flight(t)) == []
    ensures OwnOf(After(s, Rearm(t, q)), t) ==
      if t in s.m.token then Own(Th(s.m, t).(op := ClearEnd(q, Single(s.m.token[t]))), Items(s.h, Held(t)), [s.m.token[t]])
      else OwnOf(s, t)
  {
    assert Items(s.h, Armed(t)) == if t in s.m.armed && t in s.m.token then [s.m.token[t]] else [];
    RearmThread(s, t, q);
  }

  lemma RearmThread(s: State, t: Tid, q: Qid)
    requires Enabled(s, Rearm(t, q)) && Items(s.h, Flight(t)) == []
    requires Items(s.h, Armed(t)) == if t in s.m.armed && t in s.m.token then [s.m.token[t]] else []
    ensures OwnOf(After(s, Rearm(t, q)), t) ==
      if t in s.m.token then Own(Th(s.m, t).(op := ClearEnd(q, Single(s.m.token[t]))), Items(s.h, Held(t)), [s.m.token[t]])
      else OwnOf(s, t)
  {
    assert Th(s.m, t).(op := Idle) == Th(s.m, t);
  }

  /** take_one yields the first node, or nothing when its link is not there yet. */
  lemma PeelOwn(s: State, t: Tid)
    requires Inv(s) && Enabled(s, TakeOne(t))
    ensures var o, o' := OwnOf(s, t), OwnOf(After(s, TakeOne(t)), t);
      && o.held != [] && o.th.seg == Some(SegmentOf(o.held))
      && if o'.th.hand.None? then o' == o
         else |o.held| > 1
              && o' == o.(th := o.th.(hand := Some(o.held[0]), seg := Some(SegmentOf(o.held[1..]))), held := o.held[1..])
    ensures OwnOf(After(s, TakeOne(t)), t).th.hand.None? && |OwnOf(s, t).held| > 1 ==> NextOf(OwnOf(s, t).held[0]) in s.h.writer
    ensures After(s, TakeOne(t)).h.home.Keys == s.h.home.Keys && After(s, TakeOne(t)).m.armed == s.m.armed
  {
    assert ThreadOK(s, t);
    assert HomeOK(s.h, Held(t)) && ChainOK(s, Held(t)) && EndOK(s, Held(t));
    HeldSegment(s, t);
    if At(s.m, NextOf(Th(s.m, t).seg.value.start)).Some? { PeelFirst(s, t); } else { PeelNone(s, t); }
  }

  lemma HeldSegment(s: State, t: Tid)
    requires LocalsOK(s, t) && Th(s.m, t).seg.Some?
    ensures Items(s.h, Held(t)) != [] && Th(s.m, t).seg == Some(SegmentOf(Items(s.h, Held(t))))
  {
  }

  lemma PeelNone(s: State, t: Tid)
    requires LocalsOK(s, t) && ChainOK(s, Held(t))
    requires Enabled(s, TakeOne(t)) && At(s.m, NextOf(Th(s.m, t).seg.value.start)).None?
    ensures OwnOf(After(s, TakeOne(t)), t) == OwnOf(s, t) && OwnOf(s, t).th.hand.None?
    ensures |Items(s.h, Held(t))| > 1 ==> NextOf(Items(s.h, Held(t))[0]) in s.h.writer
    ensures After(s, TakeOne(t)).h.home.Keys == s.h.home.Keys && After(s, TakeOne(t)).m.armed == s.m.armed
  {
  }

  lemma PeelFirst(s: State, t: Tid)
    requires Enabled(s, TakeOne(t)) && LocalsOK(s, t) && HomeOK(s.h, Held(t)) && PlaceOK(s, Held(t)) && WritersOK(s)
    requires At(s.m, NextOf(Th(s.m, t).seg.value.start)).Some?
    ensures var o, o' := OwnOf(s, t), OwnOf(After(s, TakeOne(t)), t);
      |o.held| > 1 && o'.th.hand.Some?
      && o' == o.(th := o.th.(hand := Some(o.held[0]), seg := Some(SegmentOf(o.held[1..]))), held := o.held[1..])
    ensures After(s, TakeOne(t)).h.home.Keys == s.h.home.Keys && After(s, TakeOne(t)).m.armed == s.m.armed
  {
    PeelItems(s, After(s, TakeOne(t)), t);
    PeelLinked(s, After(s, TakeOne(t)), t);
    assert SegmentOf(Items(s.h, Held(t))[1..]).end == SegmentOf(Items(s.h, Held(t))).end;
  }

  lemma RunFacts(s: State, g: Routing, t: Tid)
    requires Inv(s) && Routed(s, g) && Enabled(s, Run(t))
    ensures Inv(After(s, Run(t))) && Routed(After(s, Run(t)), g) && After(s, Run(t)).h.home.Keys == s.h.home.Keys
  {
    StepKeeps(s, Run(t));
    RunKeys(s, t);
    RouteKeeps(s, Run(t), g);
  }

  lemma AdvanceFacts(s: State, g: Routing, t: Tid)
    requires Inv(s) && Routed(s, g) && !Th(s.m, t).op.Idle?
    ensures Enabled(s, Run(t)) && Moves(OwnOf(s, t), OwnOf(After(s, Run(t)), t), EffectOf(s, Run(t)))
    ensures Inv(After(s, Run(t))) && Routed(After(s, Run(t)), g) && After(s, Run(t)).h.home.Keys == s.h.home.Keys
    ensures EffectOf(s, Run(t)).Miss? ==> Denied(s, t, EffectOf(s, Run(t)).q)
    ensures forall u {:trigger OwnOf(After(s, Run(t)), u)} :: u != t ==> OwnOf(After(s, Run(t)), u) == OwnOf(s, u)
  {
    HistoryFollows(s, Run(t));
    RunMoves(s, t);
    RestKeep(s, t);
    if EffectOf(s, Run(t)).Miss? { MissTells(s, t, EffectOf(s, Run(t)).q); }
    RunFacts(s, g, t);
  }

  lemma FreshNodes(s: State)
    requires Fresh(s)
    ensures s.h.home.Keys == s.m.token.Values
  {
    forall n ensures n in s.h.home <==> n in s.m.token.Values {
      if n in s.h.home { assert s.m.token[s.h.home[n].t] == n; }
    }
  }

  class RunQueues {
    var cell: map<Ref, Option<Node>>
    var back: map<Qid, Ref>
    var threads: map<Tid, Thread>
    var armed: set<Tid>
    const token: map<Tid, Node>
    const pinned: set<Node>                    // the nodes whose header says so
    const main: Tid                            // the thread that runs the pump
    var known: set<Node>                       // every node there has been
    var giving: set<Tid>                       // the threads inside dispatch, with the node in hand
    ghost var h: History
    ghost var done: map<Tid, seq<Effect>>      // what each thread did to the queues

    function M(): (m: Mem)
      reads this`cell, this`back, this`threads, this`armed
    {
      Mem(cell, back, threads, armed, token)
    }

    ghost function St(): (s: State)
      reads this`cell, this`back, this`threads, this`armed, this`h
    {
      State(M(), h)
    }

    ghost predicate Valid()
      reads this`cell, this`back, this`threads, this`armed, this`known, this`giving, this`h
    {
      Inv(St()) && known == h.home.Keys && Routed(St(), Rules())
    }

    function Rules(): (g: Routing)
      reads this`giving
    {
      Routing(pinned, main, giving)
    }

    /** What a call leaves of what `t` knows: only `t` clears its flag, and it is
        dispatching if it was. */
    twostate predicate Kept(t: Tid)
      reads this`armed, this`giving
    {
      (old(t in armed) ==> t in armed) && (t in giving <==> old(t in giving))
    }

    ghost function Done(t: Tid): (es: seq<Effect>)
      reads this`done
    {
      if t in done then done[t] else []
    }

    /** boc_sched_init, and the tokens of the workers that got one. */
    constructor (tokens: map<Tid, Node>, headers: set<Node>, pump: Tid, ghost start: State)
      requires Fresh(start) && start.m.token == tokens && forall w :: w in tokens ==> tokens[w] !in headers
      ensures Valid() && St() == start && token == tokens && pinned == headers && main == pump && giving == {}
      ensures forall t :: Done(t) == []
    {
      pinned, main, giving := headers, pump, {};
      cell, back, threads, armed, token := map[], map[], map[], tokens.Keys, tokens;
      known := tokens.Values;
      h := start.h;
      done := map[];
      new;
      FreshInv(start);
      FreshNodes(start);
      FreshRouted(start, Rules());
    }

    predicate Resting(t: Tid)
      reads this`cell, this`back, this`threads, this`armed
    {
      Th(M(), t).op.Idle?
    }

    // -------------------------------------------------------- atomic operations

    method StepEnqueue(t: Tid)
      requires Valid() && (Th(M(), t).op.ClearEnd? || Th(M(), t).op.SwapBack? || Th(M(), t).op.StoreLink?)
      modifies this`cell, this`back, this`threads, this`h
      ensures St() == After(old(St()), Run(t))
    {
      HistoryFollows(St(), Run(t));
      ghost var h' := RunHistory(M(), h, t);
      var th := Th(M(), t);
      match th.op {
        case ClearEnd(q, s) =>
          cell := cell[s.end := None];
          threads := threads[t := th.(op := SwapBack(q, s))];
        case SwapBack(q, s) =>
          var b := Back(M(), q);
          back := back[q := s.end];
          threads := threads[t := th.(op := StoreLink(b, s.start))];
        case StoreLink(b, start) =>
          CellStillNull(St(), t);
          assert At(M(), b).None?;
          cell := cell[b := Some(start)];
          threads := threads[t := th.(op := Idle)];
      }
      h := h';
    }

    method StepAcquire(t: Tid)
      requires Valid() && (Th(M(), t).op.Probe? || Th(M(), t).op.Claim?)
      modifies this`cell, this`threads, this`h
      ensures St() == After(old(St()), Run(t))
    {
      HistoryFollows(St(), Run(t));
      ghost var h' := RunHistory(M(), h, t);
      var th := Th(M(), t);
      var q, w := th.op.q, th.op.w;
      var top := At(M(), Front(q));
      if th.op.Probe? {
        threads := threads[t := th.(op := if top.None? then NotAcquired(q, w) else Claim(q, w))];
      } else {
        cell := cell[Front(q) := None];
        threads := threads[t := th.(op := if top.None? then NotAcquired(q, w) else Acquired(q, w, top.value))];
      }
      h := h';
    }

    method StepDequeue(t: Tid)
      requires Valid() && Enabled(St(), Run(t))
      requires (Th(M(), t).op.LoadNext? || Th(M(), t).op.StoreFront? || Th(M(), t).op.CasBack? || Th(M(), t).op.Restore?)
      modifies this`cell, this`back, this`threads, this`h
      ensures St() == After(old(St()), Run(t))
    {
      HistoryFollows(St(), Run(t));
      ghost var h' := RunHistory(M(), h, t);
      var th := Th(M(), t);
      match th.op {
        case LoadNext(q, top) =>
          var next := At(M(), NextOf(top));
          threads := threads[t := th.(op := if next.None? then CasBack(q, top) else StoreFront(q, top, next.value))];
        case StoreFront(q, top, next) =>
          cell := cell[Front(q) := Some(next)];
          threads := threads[t := th.(op := Idle, hand := Some(top))];
        case CasBack(q, top) =>
          if Back(M(), q) == NextOf(top) {
            back := back[q := Front(q)];
            threads := threads[t := th.(op := Idle, hand := Some(top))];
          } else {
            threads := threads[t := th.(op := Restore(q, top))];
          }
        case Restore(q, top) =>
          cell := cell[Front(q) := Some(top)];
          threads := threads[t := th.(op := Idle)];
      }
      h := h';
    }

    method StepWhole(t: Tid)
      requires Valid() && (Th(M(), t).op.SwapAll? || Th(M(), t).op.LinkOver? || Th(M(), t).op.StoreOver?)
      modifies this`cell, this`back, this`threads, this`h
      ensures St() == After(old(St()), Run(t))
    {
      HistoryFollows(St(), Run(t));
      ghost var h' := RunHistory(M(), h, t);
      var th := Th(M(), t);
      match th.op {
        case SwapAll(q, top) =>
          var end := Back(M(), q);
          back := back[q := Front(q)];
          threads := threads[t := th.(op := Idle, seg := Some(Segment(top, end)))];
        case LinkOver(q, n, top) =>
          cell := cell[NextOf(n) := Some(top)];
          threads := threads[t := th.(op := StoreOver(q, n, top))];
        case StoreOver(q, n, top) =>
          cell := cell[Front(q) := Some(n)];
          threads := threads[t := th.(op := Idle)];
      }
      h := h';
    }

    method StepOne(t: Tid)
      requires Valid() && !Resting(t) && Enabled(St(), Run(t))
      modifies this`cell, this`back, this`threads, this`h
      ensures St() == After(old(St()), Run(t))
    {
      var op := Th(M(), t).op;
      if op.ClearEnd? || op.SwapBack? || op.StoreLink? {
        StepEnqueue(t);
      } else if op.Probe? || op.Claim? {
        StepAcquire(t);
      } else if op.SwapAll? || op.LinkOver? || op.StoreOver? {
        StepWhole(t);
      } else {
        StepDequeue(t);
      }
    }

    /** The next atomic operation of thread `t`. */
    method Advance(t: Tid) returns (ghost e: Effect)
      requires Valid() && !Resting(t)
      modifies this`cell, this`back, this`threads, this`h, this`done
      ensures Valid() && Moves(old(OwnOf(St(), t)), OwnOf(St(), t), e)
      ensures Done(t) == old(Done(t)) + if e == Nothing then [] else [e]
      ensures e.Miss? ==> Denied(old(St()), t, e.q)
      ensures forall u :: u != t ==> OwnOf(St(), u) == old(OwnOf(St(), u)) && Done(u) == old(Done(u))
    {
      AdvanceFacts(St(), Rules(), t);
      e := EffectOf(St(), Run(t));
      StepOne(t);
      if e != Nothing { done := done[t := Done(t) + [e]]; }
    }

    /** A step outside the queue functions: its locals change, no queue does. */
    method StepLocal(a: Step)
      requires CanStep(M(), known, a) && known == h.home.Keys && !a.Run? && CanRecord(M(), h, a)
      requires Next(M(), a, known).back == back && Next(M(), a, known).token == token
      modifies this`cell, this`threads, this`armed, this`known, this`giving, this`h
      ensures St() == After(old(St()), a) && giving == Route(old(Rules()), a).giving
      ensures known == old(known) + if a.Produce? then {a.n} else {}
    {
      ghost var h' := Record(M(), h, a);
      giving := Route(Rules(), a).giving;
      var m' := Next(M(), a, known);
      if a.Produce? { known := known + {a.n}; }
      cell, threads, armed, h := m'.cell, m'.threads, m'.armed, h';
    }

    method Call(a: Step)
      requires Valid() && CanStep(M(), known, a) && !a.Run? && Lawful(M(), Rules(), a)
      modifies this`cell, this`threads, this`armed, this`known, this`giving, this`h
      ensures Enabled(old(St()), a) && St() == After(old(St()), a) && Rules() == Route(old(Rules()), a) && Valid()
    {
      CallFacts(St(), a, known, Rules());
      StepLocal(a);
    }

    /** Such a step, as the thread that takes it sees it. */
    method CallOwned(a: Step)
      requires Valid() && CanStep(M(), known, a) && Calls(a) && Lawful(M(), Rules(), a)
      modifies this`cell, this`threads, this`armed, this`known, this`giving, this`h
      ensures Valid() && armed == old(armed) && OwnOf(St(), a.t) == Called(old(OwnOf(St(), a.t)), a)
      ensures giving == Route(old(Rules()), a).giving
      ensures a.TakeLast? ==> |old(OwnOf(St(), a.t)).held| == 1
    {
      HistoryFollows(St(), a);
      CallOwn(St(), a);
      Call(a);
    }

    /** A step of another thread. */
    method Disturb(t: Tid, a: Step)
      requires Valid() && a.t != t && CanStep(M(), known, a) && (!a.Run? ==> Lawful(M(), Rules(), a))
      modifies this`cell, this`back, this`threads, this`armed, this`known, this`giving, this`h, this`done
      ensures Valid() && OwnOf(St(), t) == old(OwnOf(St(), t)) && Done(t) == old(Done(t))
      ensures Kept(t)
    {
      HistoryFollows(St(), a);
      OthersLeave(St(), a, t);
      if a.Run? { var _ := Advance(a.t); } else { Call(a); }
    }

    /** Any number of steps of any other threads, which run this code too. */
    method Interfere(t: Tid)
      requires Valid()
      modifies this`cell, this`back, this`threads, this`armed, this`known, this`giving, this`h, this`done
      ensures Valid() && OwnOf(St(), t) == old(OwnOf(St(), t)) && Done(t) == old(Done(t))
      ensures Kept(t)
    {
      var steps: nat :| steps >= 0;
      for i := 0 to steps
        invariant Valid() && OwnOf(St(), t) == old(OwnOf(St(), t)) && Done(t) == old(Done(t))
        invariant Kept(t)
      {
        var a: Step := *;
        if a.t != t && CanStep(M(), known, a) && (a.Run? || Lawful(M(), Rules(), a)) { Disturb(t, a); }
      }
    }

    // ------------------------------------------------------- the queue functions

    /** The next operation of `t`, after whatever the others do first. */
    method Turn(t: Tid) returns (ghost e: Effect)
      requires Valid() && !Resting(t)
      modifies this`cell, this`back, this`threads, this`armed, this`known, this`giving, this`h, this`done
      ensures Valid() && Moves(old(OwnOf(St(), t)), OwnOf(St(), t), e) && Kept(t)
      ensures Done(t) == old(Done(t)) + if e == Nothing then [] else [e]
    {
      Interfere(t);
      e := Advance(t);
    }

    /** boc_bq_acquire_front */
    method AcquireFront(t: Tid)
      requires Valid() && Th(M(), t).op.Probe? && !Th(M(), t).op.w.Over?
      modifies this`cell, this`back, this`threads, this`armed, this`known, this`giving, this`h, this`done
      ensures Valid() && Kept(t)
      ensures OwnOf(St(), t) == old(OwnOf(St(), t)).(th := old(Th(M(), t)).(op := Th(M(), t).op))
      ensures var op, op' := old(Th(M(), t)).op, Th(M(), t).op;
        && (op'.Idle? || (OwnsFront(op') && op' == Acquired(op.q, op.w, op'.top)))
        && Done(t) == old(Done(t)) + if op'.Idle? then [Miss(op.q)] else []
    {
      var _ := Turn(t);
      if !Resting(t) { var _ := Turn(t); }
    }

    /** The rest of boc_bq_dequeue, with the front in hand: load next, then store
        front or CAS back. */
    method PopFront(t: Tid)
      requires Valid() && Th(M(), t).op.LoadNext? && Th(M(), t).hand.None?
      modifies this`cell, this`back, this`threads, this`armed, this`known, this`giving, this`h, this`done
      ensures Valid() && Kept(t)
      ensures var n, op := Th(M(), t).hand, Th(M(), t).op;
        && OwnOf(St(), t) == old(OwnOf(St(), t)).(th := old(Th(M(), t)).(op := op, hand := n))
        && (if n.None? then op.Restore? else op.Idle?)
        && Done(t) == old(Done(t)) + [if n.None? then Miss(old(Th(M(), t)).op.q) else Pop(old(Th(M(), t)).op.q, n.value)]
    {
      var _ := Turn(t);
      FinishPop(t);
    }

    /** ... of which the second operation takes the node, unless the CAS fails. */
    method FinishPop(t: Tid)
      requires Valid() && (Th(M(), t).op.StoreFront? || Th(M(), t).op.CasBack?) && Th(M(), t).hand.None?
      modifies this`cell, this`back, this`threads, this`armed, this`known, this`giving, this`h, this`done
      ensures Valid() && Kept(t)
      ensures var n, op := Th(M(), t).hand, Th(M(), t).op;
        && OwnOf(St(), t) == old(OwnOf(St(), t)).(th := old(Th(M(), t)).(op := op, hand := n))
        && (if n.None? then op.Restore? else op.Idle?)
        && Done(t) == old(Done(t)) + [if n.None? then Miss(old(Th(M(), t)).op.q) else Pop(old(Th(M(), t)).op.q, n.value)]
    {
      var _ := Turn(t);
    }

    /** ... and if that CAS fails, put front back. */
    method TakeFront(t: Tid)
      requires Valid() && Th(M(), t).op.LoadNext? && Th(M(), t).hand.None?
      modifies this`cell, this`back, this`threads, this`armed, this`known, this`giving, this`h, this`done
      ensures Valid() && Kept(t)
      ensures var n := Th(M(), t).hand;
        && OwnOf(St(), t) == old(OwnOf(St(), t)).(th := old(Th(M(), t)).(op := Idle, hand := n))
        && Done(t) == old(Done(t)) + [if n.None? then Miss(old(Th(M(), t)).op.q) else Pop(old(Th(M(), t)).op.q, n.value)]
    {
      PopFront(t);
      if !Resting(t) { var _ := Turn(t); }
    }

    /** Up to the exchange on `back`, which is where the segment is appended. */
    method ClearAndSwap(t: Tid)
      requires Valid() && Th(M(), t).op.ClearEnd?
      modifies this`cell, this`back, this`threads, this`armed, this`known, this`giving, this`h, this`done
      ensures Kept(t)
      ensures Valid() && Th(M(), t).op.StoreLink?
      ensures OwnOf(St(), t) == old(OwnOf(St(), t)).(th := old(Th(M(), t)).(op := Th(M(), t).op), flight := [])
      ensures Done(t) == old(Done(t)) + [Append(old(Th(M(), t).op.q), old(OwnOf(St(), t)).flight)]
    {
      var _ := Turn(t);
      var _ := Turn(t);
    }

    /** boc_bq_enqueue_segment, once its arguments are in place. */
    method FinishEnqueue(t: Tid)
      requires Valid() && Th(M(), t).op.ClearEnd?
      modifies this`cell, this`back, this`threads, this`armed, this`known, this`giving, this`h, this`done
      ensures Kept(t)
      ensures Valid() && OwnOf(St(), t) == old(OwnOf(St(), t)).(th := old(Th(M(), t)).(op := Idle), flight := [])
      ensures Done(t) == old(Done(t)) + [Append(old(Th(M(), t).op.q), old(OwnOf(St(), t)).flight)]
    {
      ClearAndSwap(t);
      var _ := Turn(t);
    }

    /** A behavior with all its grants is given to boc_sched_dispatch. */
    method Give(t: Tid, n: Node, junk: Option<Node>)
      requires Valid() && Resting(t) && Th(M(), t).hand.None? && n !in known
      modifies this`cell, this`threads, this`armed, this`known, this`giving, this`h
      ensures Valid() && t in giving && OwnOf(St(), t) == old(OwnOf(St(), t)).(th := old(Th(M(), t)).(hand := Some(n)))
    {
      Call(Produce(t, n, junk));
    }

    /** boc_bq_enqueue of the node in hand: it is appended to `q`, once, at some
        moment between the call and the return. */
    method BqEnqueue(t: Tid, q: Qid)
      requires Valid() && Resting(t) && Th(M(), t).hand.Some? && Items(h, Flight(t)) == []
      requires LawfulEnqueue(M(), Rules(), t, q)
      modifies this`cell, this`back, this`threads, this`armed, this`known, this`giving, this`h, this`done
      ensures (old(t in armed) ==> t in armed) && t !in giving
      ensures Valid() && OwnOf(St(), t) == old(OwnOf(St(), t)).(th := old(Th(M(), t)).(hand := None))
      ensures Done(t) == old(Done(t)) + [Append(q, [old(Th(M(), t)).hand.value])]
    {
      CallOwned(Enqueue(t, q));
      FinishEnqueue(t);
    }

    method BqEnqueuePending(t: Tid, q: Qid)
      requires Valid() && q != PINNED && Resting(t) && Th(M(), t).pending.Some? && Items(h, Flight(t)) == []
      modifies this`cell, this`back, this`threads, this`armed, this`known, this`giving, this`h, this`done
      ensures Kept(t)
      ensures Valid() && OwnOf(St(), t) == old(OwnOf(St(), t)).(th := old(Th(M(), t)).(pending := None))
      ensures Done(t) == old(Done(t)) + [Append(q, [old(Th(M(), t)).pending.value])]
    {
      CallOwned(EnqueuePending(t, q));
      FinishEnqueue(t);
    }

    /** boc_bq_enqueue_segment of the segment variable, gaps and all. */
    method BqEnqueueSegment(t: Tid, q: Qid)
      requires Valid() && q != PINNED && Resting(t) && Th(M(), t).seg.Some? && Items(h, Flight(t)) == []
      modifies this`cell, this`back, this`threads, this`armed, this`known, this`giving, this`h, this`done
      ensures Kept(t)
      ensures Valid() && OwnOf(St(), t) == old(OwnOf(St(), t)).(th := old(Th(M(), t)).(seg := None), held := [])
      ensures Done(t) == old(Done(t)) + [Append(q, old(Items(h, Held(t))))]
    {
      CallOwned(EnqueueSegment(t, q));
      FinishEnqueue(t);
    }

    /** boc_bq_dequeue: the node it popped; or NULL, with nothing popped, because there was
        nothing it could take. */
    method BqDequeue(t: Tid, q: Qid) returns (n: Option<Node>)
      requires Valid() && Resting(t) && Th(M(), t).hand.None? && (q == PINNED <==> t == main)
      modifies this`cell, this`back, this`threads, this`armed, this`known, this`giving, this`h, this`done
      ensures Kept(t)
      ensures Valid() && OwnOf(St(), t) == old(OwnOf(St(), t)).(th := old(Th(M(), t)).(hand := n))
      ensures Done(t) == old(Done(t)) + [if n.None? then Miss(q) else Pop(q, n.value)]
    {
      CallOwned(Dequeue(t, q));
      FinishDequeue(t);
      n := Th(M(), t).hand;
    }

    /** ... from its first operation on. */
    method FinishDequeue(t: Tid)
      requires Valid() && Th(M(), t).op.Probe? && Th(M(), t).op.w.One? && Th(M(), t).hand.None?
      modifies this`cell, this`back, this`threads, this`armed, this`known, this`giving, this`h, this`done
      ensures Valid() && Kept(t)
      ensures var n := Th(M(), t).hand;
        && OwnOf(St(), t) == old(OwnOf(St(), t)).(th := old(Th(M(), t)).(op := Idle, hand := n))
        && Done(t) == old(Done(t)) + [if n.None? then Miss(old(Th(M(), t)).op.q) else Pop(old(Th(M(), t)).op.q, n.value)]
    {
      AcquireFront(t);
      if !Resting(t) { TakeFront(t); }
    }

    /** boc_bq_dequeue_all: everything that was in `q` at one moment, in order; or NULL,
        because there was nothing it could take. */
    method BqDequeueAll(t: Tid, q: Qid)
      requires Valid() && q != PINNED && Resting(t) && Th(M(), t).seg.None? && Items(h, Held(t)) == []
      modifies this`cell, this`back, this`threads, this`armed, this`known, this`giving, this`h, this`done
      ensures Kept(t)
      ensures Valid()
      ensures if Th(M(), t).seg.None? then OwnOf(St(), t) == old(OwnOf(St(), t)) && Done(t) == old(Done(t)) + [Miss(q)]
              else Items(h, Held(t)) != []
                   && OwnOf(St(), t) == old(OwnOf(St(), t)).(th := old(Th(M(), t)).(seg := Some(SegmentOf(Items(h, Held(t))))),
                                                             held := Items(h, Held(t)))
                   && Done(t) == old(Done(t)) + [PopAll(q, Items(h, Held(t)))]
    {
      CallOwned(DequeueAll(t, q));
      FinishDequeueAll(t);
    }

    /** ... from its first operation on. */
    method FinishDequeueAll(t: Tid)
      requires Valid() && Th(M(), t).op.Probe? && Th(M(), t).op.w.All? && Th(M(), t).seg.None? && Items(h, Held(t)) == []
      modifies this`cell, this`back, this`threads, this`armed, this`known, this`giving, this`h, this`done
      ensures Valid() && Kept(t)
      ensures var o, q, th := old(OwnOf(St(), t)), old(Th(M(), t)).op.q, old(Th(M(), t)).(op := Idle);
        if Th(M(), t).seg.None? then OwnOf(St(), t) == o.(th := th) && Done(t) == old(Done(t)) + [Miss(q)]
        else Items(h, Held(t)) != []
             && OwnOf(St(), t) == o.(th := th.(seg := Some(SegmentOf(Items(h, Held(t))))), held := Items(h, Held(t)))
             && Done(t) == old(Done(t)) + [PopAll(q, Items(h, Held(t)))]
    {
      AcquireFront(t);
      if !Resting(t) { var _ := Turn(t); }
    }

    /** boc_wsq_enqueue of the thread's own token, which it gets from token_work
        after clearing its flag.  The flag was seen set, and nobody else clears it:
        so the token is in no queue. */
    method ReturnToken(t: Tid, q: Qid)
      requires Valid() && q != PINNED && Resting(t) && t in armed && OwnOf(St(), t).flight == []
      modifies this`cell, this`back, this`threads, this`armed, this`known, this`giving, this`h, this`done
      ensures Valid() && OwnOf(St(), t) == old(OwnOf(St(), t))
      ensures Done(t) == old(Done(t)) + if t in token then [Append(q, [token[t]])] else []
      ensures t in giving <==> old(t in giving)
    {
      HistoryFollows(St(), Rearm(t, q));
      RearmOwn(St(), t, q);
      Call(Rearm(t, q));
      if t in token { FinishEnqueue(t); }
    }

    /** boc_bq_segment_take_one: the first node of the segment; or NULL, because it is the
        only one or the link after it is not there yet. */
    method SegmentTakeOne(t: Tid) returns (n: Option<Node>)
      requires Valid() && t != main && Resting(t) && Th(M(), t).hand.None? && Th(M(), t).seg.Some?
      modifies this`cell, this`back, this`threads, this`armed, this`known, this`giving, this`h, this`done
      ensures Kept(t)
      ensures Valid()
      ensures var xs := old(Items(h, Held(t)));
        && Done(t) == old(Done(t)) + (if n.None? && |xs| > 1 then [Gap(xs[0])] else [])
        && (n.None? && |xs| > 1 ==> NextOf(xs[0]) in h.writer)
      ensures old(Items(h, Held(t))) != [] && old(Th(M(), t)).seg == Some(SegmentOf(old(Items(h, Held(t)))))
      ensures if n.None? then OwnOf(St(), t) == old(OwnOf(St(), t))
              else var xs := old(Items(h, Held(t)));
                |xs| > 1 && n.value == xs[0]
                && OwnOf(St(), t) == old(OwnOf(St(), t)).(th := old(Th(M(), t)).(hand := n, seg := Some(SegmentOf(xs[1..]))),
                                                          held := xs[1..])
    {
      Interfere(t);
      n := Peel(t);
    }

    /** ... at the moment it looks. */
    method Peel(t: Tid) returns (n: Option<Node>)
      requires Valid() && t != main && Resting(t) && Th(M(), t).hand.None? && Th(M(), t).seg.Some?
      modifies this`cell, this`threads, this`armed, this`known, this`giving, this`h, this`done
      ensures Kept(t) && Valid()
      ensures var xs := old(Items(h, Held(t)));
        && Done(t) == old(Done(t)) + (if n.None? && |xs| > 1 then [Gap(xs[0])] else [])
        && (n.None? && |xs| > 1 ==> NextOf(xs[0]) in h.writer)
        && xs != [] && old(Th(M(), t)).seg == Some(SegmentOf(xs))
      ensures var xs := old(Items(h, Held(t)));
        if n.None? then OwnOf(St(), t) == old(OwnOf(St(), t))
        else |xs| > 1 && n.value == xs[0]
             && OwnOf(St(), t) == old(OwnOf(St(), t)).(th := old(Th(M(), t)).(hand := n, seg := Some(SegmentOf(xs[1..]))),
                                                       held := xs[1..])
    {
      HistoryFollows(St(), TakeOne(t));
      PeelOwn(St(), t);
      ghost var xs := Items(h, Held(t));
      Call(TakeOne(t));
      n := Th(M(), t).hand;
      if n.None? && |xs| > 1 { done := done[t := Done(t) + [Gap(xs[0])]]; }
    }

    /** boc_bq_is_empty: what it finds was so when it looked. */
    method BqIsEmpty(t: Tid, q: Qid) returns (empty: bool)
      requires Valid()
      modifies this`cell, this`back, this`threads, this`armed, this`known, this`giving, this`h, this`done
      ensures Valid() && OwnOf(St(), t) == old(OwnOf(St(), t)) && Kept(t)
      ensures (empty <==> Items(h, Sub(q)) == []) && Done(t) == old(Done(t)) + [if empty then Miss(q) else Found(q)]
    {
      Interfere(t);
      assert QueueOK(St(), q);
      empty := Back(M(), q) == Front(q);
      done := done[t := Done(t) + [if empty then Miss(q) else Found(q)]];
    }
  }
}
