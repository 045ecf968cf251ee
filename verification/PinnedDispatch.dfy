/** The scheduling protocol and the run queues together: who can get hold of a
    behavior whose header says that one of its cowns is pinned. */
module PinnedDispatch {
  import opened Wrappers
  import RQ = RequestQueue
  import CP = CownProtocol
  import CI = CownInvariant
  import CS = CownSteps
  import CR = CownRelease
  import CT = CownTheorems
  import SH = CownShape
  import RF = CownRefinement
  import SP = CownSpec
  import V = CownValues
  import BQ = BehaviorQueue
  import H = QueueHistory
  import R = QueueRuns
  import P = PinnedRouting
  import SC = Scheduler

  /** Behavior `b`'s node is 2 * b; the workers' tokens have odd numbers. */
  function NodeOf(b: RQ.Bid): (n: BQ.Node) { 2 * b }

  /** The interpreter of a thread: the pump's is the main one. */
  function InterpOf(g: P.Routing, t: BQ.Tid): (who: V.Interp) { if t == g.main then V.MAIN else t + 1 }

  datatype State = State(v: V.Values, q: H.State, g: P.Routing)

  datatype Act =
    | Move(m: V.Move)                                            // no behavior is queued or popped
    | Give(m: V.Move, t: BQ.Tid, junk: Option<BQ.Node>)          // thread t dispatches one
    | Inside(a: BQ.Step)                                         // a step of the queues' code
    | HandOut(t: BQ.Tid)                                         // a worker, or the pump, runs what it popped

  /** The step of the protocol that a move is. */
  function StepOf(m: V.Move): (t: Option<CP.Step>) {
    match m
    case Schedule(b) => Some(CP.DoSchedule(b))
    case WhenCall(order, caller, _, _) => Some(CP.DoSpawn(order, caller))
    case BodyEnd(b) => Some(CP.DoRun(b))
    case Unlink(b) => Some(CP.DoRun(b))
    case _ => None
  }

  /** The behavior that a move puts on a run queue. */
  function Queues(v: V.Values, m: V.Move): (b: Option<RQ.Bid>)
    requires V.Sized(v) && V.CanMove(v, m)
  {
    var t := StepOf(m);
    if t.None? then None
    else
      var e := RF.EventOf(v.s, t.value);
      if e.Start? then Some(e.b) else None
  }

  predicate Can(c: State, x: Act)
    requires V.Sized(c.v)
  {
    match x
    case Move(m) => !m.Pop? && V.CanMove(c.v, m) && Queues(c.v, m).None?
    case Give(m, t, junk) =>
      && !m.Pop? && V.CanMove(c.v, m) && Queues(c.v, m).Some?
      && H.Enabled(c.q, BQ.Produce(t, NodeOf(Queues(c.v, m).value), junk))
    case Inside(a) => !a.Produce? && !a.Deliver? && H.Enabled(c.q, a) && P.Lawful(c.q.m, c.g, a)
    // what a thread hands out is what it has in hand, outside boc_sched_dispatch
    case HandOut(t) => HandsOut(c, t)
  }

  /** The pop that a hand-out is, for the protocol. */
  function PopOf(c: State, t: BQ.Tid): (m: V.Move)
    requires H.Enabled(c.q, BQ.Deliver(t))
  {
    V.Pop(BQ.Th(c.q.m, t).hand.value / 2, InterpOf(c.g, t))
  }

  function Flags(v: V.Values): (ns: set<BQ.Node>) { set b | 0 <= b < |v.flag| && v.flag[b] :: NodeOf(b) }

  function Next(c: State, x: Act): (c': State)
    requires V.Sized(c.v) && Can(c, x) && (x.HandOut? ==> V.CanMove(c.v, PopOf(c, x.t)))
  {
    match x
    case Move(m) =>
      var v' := V.Make(c.v, m);
      State(v', c.q, c.g.(pinned := Flags(v')))
    case Give(m, t, junk) =>
      var a := BQ.Produce(t, NodeOf(Queues(c.v, m).value), junk);
      State(V.Make(c.v, m), H.After(c.q, a), P.Route(c.g, a))
    case Inside(a) => State(c.v, H.After(c.q, a), P.Route(c.g, a))
    case HandOut(t) => State(V.Make(c.v, PopOf(c, t)), H.After(c.q, BQ.Deliver(t)), c.g)
  }

  // ---------------------------------------------------------------- invariant

  predicate Early(r: CP.Run) { r.Waiting? || r.Claimed? || r.Counted? }

  /** A node is there from its dispatch on, and with a runner once it was popped. */
  predicate NodeAt(v: V.Values, h: H.History, b: RQ.Bid)
    requires b < |v.s.beh|
  {
    if NodeOf(b) in h.home then
      && !Early(v.s.beh[b].run) && (v.s.beh[b].run.Queued? <==> h.home[NodeOf(b)] != H.Runner)
    else Early(v.s.beh[b].run)
  }

  ghost predicate NodesOK(v: V.Values, q: H.State) {
    && (forall n {:trigger n in q.h.home} :: n in q.h.home && n % 2 == 0 ==> n / 2 < |v.s.beh|)
    && (forall n {:trigger n in q.h.home} :: n in q.h.home && n % 2 == 1 ==> n in q.m.token.Values)
    && (forall w {:trigger q.m.token[w]} :: w in q.m.token ==> q.m.token[w] % 2 == 1)
    && (forall b {:trigger NodeAt(v, q.h, b)} :: 0 <= b < |v.s.beh| ==> NodeAt(v, q.h, b))
  }

  ghost predicate Inv(c: State) {
    V.ValuesOK(c.v) && H.Inv(c.q) && P.Routed(c.q, c.g) && c.g.pinned == Flags(c.v) && NodesOK(c.v, c.q)
  }

  // ---------------------------------------------------------------- the pop's guard

  /** Whoever hands a behavior out may: it is queued, and if it is flagged the thread
      is the main one.  This is what CownValues asks of a pop. */
  lemma PopAllowed(c: State, t: BQ.Tid)
    requires V.Sized(c.v) && HandsOut(c, t) && Inv(c)
    ensures V.CanMove(c.v, PopOf(c, t)) && BQ.Th(c.q.m, t).hand.value == NodeOf(PopOf(c, t).b)
  {
    InHand(c.q, t);
    EvenHand(c.v, c.q, t);
    assert NodeAt(c.v, c.q.h, PopOf(c, t).b);
    FlaggedMain(c, t);
  }

  lemma EvenHand(v: V.Values, q: H.State, t: BQ.Tid)
    requires NodesOK(v, q) && H.Enabled(q, BQ.Deliver(t)) && BQ.Th(q.m, t).hand.value in q.h.home
    ensures var n := BQ.Th(q.m, t).hand.value; n == NodeOf(n / 2) && n / 2 < |v.s.beh|
  {
    assert BQ.Th(q.m, t).hand.value % 2 == 0;
  }

  lemma FlaggedMain(c: State, t: BQ.Tid)
    requires H.Inv(c.q) && P.Routed(c.q, c.g) && c.g.pinned == Flags(c.v) && HandsOut(c, t)
    ensures var b := PopOf(c, t).b; BQ.Th(c.q.m, t).hand.value == NodeOf(b) && b < |c.v.flag| && c.v.flag[b] ==> t == c.g.main
  {
    var n := BQ.Th(c.q.m, t).hand.value;
    if n / 2 < |c.v.flag| && n == NodeOf(n / 2) && c.v.flag[n / 2] {
      FlagsOf(c.v, n);
      P.PinnedToMain(c.q, c.g, t);
    }
  }

  predicate HandsOut(c: State, t: BQ.Tid) { H.Enabled(c.q, BQ.Deliver(t)) && P.Lawful(c.q.m, c.g, BQ.Deliver(t)) }

  lemma InHand(q: H.State, t: BQ.Tid)
    requires H.Inv(q) && BQ.Th(q.m, t).hand.Some?
    ensures var n := BQ.Th(q.m, t).hand.value; n in q.h.home && q.h.home[n] == H.Hand(t)
  {
    assert H.ThreadOK(q, t) && H.HomeOK(q.h, H.Hand(t));
    assert H.Items(q.h, H.Hand(t))[0] == BQ.Th(q.m, t).hand.value;
  }

  // ------------------------------------------------------------- the protocol's side

  predicate SameClass(r: CP.Run, r': CP.Run) { (Early(r) <==> Early(r')) && (r.Queued? <==> r'.Queued?) }

  /** A scheduling step takes a behavior forward among the early states, unless it
      dispatches it. */
  lemma ScheduleClass(s: CP.State, b: RQ.Bid, x: RQ.Bid)
    requires CI.Inv(s) && CP.CanSchedule(s, b) && x < |s.beh|
    ensures x < |CP.ScheduleStep(s, b).beh|
    ensures if s.beh[b].sched.EnqueueSelf? && x == b then s.beh[x].run.Counted? && CP.ScheduleStep(s, b).beh[x].run.Queued?
            else SameClass(s.beh[x].run, CP.ScheduleStep(s, b).beh[x].run)
  {
    assert CI.BehaviorOK(s, b);
    V.ScheduleAlone(s, b);
    if x == b { OwnScheduleClass(s, b); }
  }

  lemma OwnScheduleClass(s: CP.State, b: RQ.Bid)
    requires CP.CanSchedule(s, b) && CI.ScalarsOK(s.beh[b])
    ensures b < |CP.ScheduleStep(s, b).beh|
    ensures if s.beh[b].sched.EnqueueSelf? then s.beh[b].run.Counted? && CP.ScheduleStep(s, b).beh[b].run.Queued?
            else SameClass(s.beh[b].run, CP.ScheduleStep(s, b).beh[b].run)
  {
  }

  /** So does a releasing step for the successor. */
  lemma ReleaseClass(s: CP.State, b: RQ.Bid, x: RQ.Bid)
    requires CI.Inv(s) && CP.CanRun(s, b) && s.beh[b].run.Releasing? && x < |s.beh|
    ensures x < |CP.RunStep(s, b).beh|
    ensures if RF.EventOf(s, CP.DoRun(b)) == SP.Start(x) then s.beh[x].run.Counted? && CP.RunStep(s, b).beh[x].run.Queued?
            else SameClass(s.beh[x].run, CP.RunStep(s, b).beh[x].run)
  {
    var k := s.beh[b].run.at;
    assert CI.BehaviorOK(s, b);
    CR.ReleaseSite(s, b, k);
    var y := SH.ReleaseShape(s, b, k);
    ReleasePartner(s, b, k);
    if x == y { TouchedClass(s, b, k, x); }
  }

  /** The successor a releasing thread is working on is where it should be. */
  lemma ReleasePartner(s: CP.State, b: RQ.Bid, k: nat)
    requires CR.ReleasingAt(s, b, k)
    ensures var rel := CR.ReqOf(s, b, k).rel;
      && (rel.HandOver? && rel.to < |s.beh| && s.beh[rel.to].count == 1 ==> s.beh[rel.to].run.Waiting?)
      && (rel.Announce? && rel.to < |s.beh| ==> s.beh[rel.to].run.Claimed?)
      && (rel.Enqueue? && rel.to < |s.beh| ==> s.beh[rel.to].run.Counted?)
  {
    CR.ReleaseSite(s, b, k);
    if CR.ReqOf(s, b, k).next.Some? { CR.NextSite(s, b, k); }
  }

  lemma TouchedClass(s: CP.State, b: RQ.Bid, k: nat, x: RQ.Bid)
    requires CP.CanRelease(s, b, k) && s.beh[b].run == CP.Releasing(k) && CP.CanRun(s, b) && x < |s.beh|
    requires x < |CP.ReleaseStep(s, b, k).beh|
    requires var rel := CR.ReqOf(s, b, k).rel;
      && (rel.HandOver? && rel.to == x ==> s.beh[x].count == 1 ==> s.beh[x].run.Waiting?)
      && (rel.Announce? && rel.to == x ==> s.beh[x].run.Claimed?)
      && (rel.Enqueue? && rel.to == x ==> s.beh[x].run.Counted?)
    ensures if RF.EventOf(s, CP.DoRun(b)) == SP.Start(x) then s.beh[x].run.Counted? && CP.ReleaseStep(s, b, k).beh[x].run.Queued?
            else SameClass(s.beh[x].run, CP.ReleaseStep(s, b, k).beh[x].run)
  {
  }

  /** What a move does to the behaviors there were. */
  lemma MoveClass(v: V.Values, m: V.Move, x: RQ.Bid)
    requires V.ValuesOK(v) && V.CanMove(v, m) && !m.Pop? && x < |v.s.beh|
    ensures |v.s.beh| <= |V.Make(v, m).s.beh|
    ensures if Queues(v, m) == Some(x) then v.s.beh[x].run.Counted? && V.Make(v, m).s.beh[x].run.Queued?
            else SameClass(v.s.beh[x].run, V.Make(v, m).s.beh[x].run)
  {
    if m.Schedule? { ScheduleMove(v, m, x); }
    else if m.Unlink? && v.s.beh[m.b].run.Releasing? { ReleaseMove(v, m, x); }
    else if m.Unlink? { EndClass(v, m, x); }
    else { OtherClass(v, m, x); }
  }

  lemma ScheduleMove(v: V.Values, m: V.Move, x: RQ.Bid)
    requires CI.Inv(v.s) && V.Sized(v) && V.CanMove(v, m) && m.Schedule? && x < |v.s.beh|
    ensures |v.s.beh| <= |V.Make(v, m).s.beh|
    ensures if Queues(v, m) == Some(x) then v.s.beh[x].run.Counted? && V.Make(v, m).s.beh[x].run.Queued?
            else SameClass(v.s.beh[x].run, V.Make(v, m).s.beh[x].run)
  {
    ScheduleClass(v.s, m.b, x);
    ScheduleStarts(v.s, m.b, x);
    V.ScheduleBodies(v.s, m.b);
  }

  lemma ReleaseMove(v: V.Values, m: V.Move, x: RQ.Bid)
    requires CI.Inv(v.s) && V.Sized(v) && V.CanMove(v, m) && m.Unlink? && v.s.beh[m.b].run.Releasing? && x < |v.s.beh|
    ensures |v.s.beh| <= |V.Make(v, m).s.beh|
    ensures if Queues(v, m) == Some(x) then v.s.beh[x].run.Counted? && V.Make(v, m).s.beh[x].run.Queued?
            else SameClass(v.s.beh[x].run, V.Make(v, m).s.beh[x].run)
  {
    ReleaseClass(v.s, m.b, x);
    V.UnlinkBodies(v.s, m.b);
  }

  lemma EndClass(v: V.Values, m: V.Move, x: RQ.Bid)
    requires V.Sized(v) && V.CanMove(v, m) && m.Unlink? && x < |v.s.beh| && !v.s.beh[m.b].run.Releasing?
    ensures |v.s.beh| == |V.Make(v, m).s.beh| && Queues(v, m).None?
    ensures SameClass(v.s.beh[x].run, V.Make(v, m).s.beh[x].run)
  {
  }

  lemma OtherClass(v: V.Values, m: V.Move, x: RQ.Bid)
    requires V.Sized(v) && V.CanMove(v, m) && !m.Pop? && !m.Schedule? && !m.Unlink? && x < |v.s.beh|
    ensures |v.s.beh| <= |V.Make(v, m).s.beh| && Queues(v, m).None?
    ensures SameClass(v.s.beh[x].run, V.Make(v, m).s.beh[x].run)
  {
  }

  lemma ScheduleStarts(s: CP.State, b: RQ.Bid, x: RQ.Bid)
    requires CP.CanSchedule(s, b)
    ensures RF.EventOf(s, CP.DoSchedule(b)) == SP.Start(x) <==> s.beh[b].sched.EnqueueSelf? && x == b
  {
  }

  /** Only whencall adds a behavior; it has the flag of its arguments. */
  lemma MoveFlags(v: V.Values, m: V.Move)
    requires V.ValuesOK(v) && V.CanMove(v, m)
    ensures var v' := V.Make(v, m);
      && |v'.flag| == |v'.s.beh| && v.flag <= v'.flag && |v.flag| <= |v'.flag|
      && (!m.WhenCall? ==> v'.flag == v.flag)
      && (m.WhenCall? ==> |v'.flag| == |v.flag| + 1 && v'.s.beh[|v.flag|].run.Waiting? && Queues(v, m).None?)
  {
    V.MoveKeeps(v, m);
  }

  // ------------------------------------------------------------- preservation

  /** A new header changes nothing for the nodes that are there. */
  lemma MoreFlags(q: H.State, g: P.Routing, g': P.Routing)
    requires H.Inv(q) && P.Routed(q, g) && g' == g.(pinned := g'.pinned) && P.TokensFree(q.m, g')
    requires forall n :: n in q.h.home ==> (n in g'.pinned <==> n in g.pinned)
    ensures P.Routed(q, g')
  {
    forall n {:trigger q.h.home[n]} | n in q.h.home ensures P.Fits(q.m, g', n, q.h.home[n]) {
      assert P.Fits(q.m, g, n, q.h.home[n]);
    }
    forall t {:trigger P.RouteOK(q.m, g', t)} ensures P.RouteOK(q.m, g', t) { assert P.RouteOK(q.m, g, t); }
  }

  lemma FlagsOf(v: V.Values, n: BQ.Node)
    ensures n in Flags(v) <==> n % 2 == 0 && n / 2 < |v.flag| && v.flag[n / 2]
  {
    if n % 2 == 0 && n / 2 < |v.flag| && v.flag[n / 2] { assert NodeOf(n / 2) == n; }
  }

  lemma OddTokens(v: V.Values, q: H.State, g: P.Routing)
    requires NodesOK(v, q) && g.pinned == Flags(v)
    ensures P.TokensFree(q.m, g)
  {
    forall w | w in q.m.token ensures q.m.token[w] !in g.pinned {
      assert q.m.token[w] % 2 == 1;
      FlagsOf(v, q.m.token[w]);
    }
  }

  lemma HasBehavior(v: V.Values, q: H.State, b: RQ.Bid)
    requires NodesOK(v, q) && NodeOf(b) in q.h.home
    ensures b < |v.s.beh|
  {
    var n := NodeOf(b);
    assert n % 2 == 0 && n / 2 == b;
  }

  /** What holds of the nodes, when behaviors change only within their class. */
  lemma SameNodes(v: V.Values, v': V.Values, q: H.State)
    requires NodesOK(v, q) && |v.s.beh| <= |v'.s.beh|
    requires forall b :: 0 <= b < |v.s.beh| ==> SameClass(v.s.beh[b].run, v'.s.beh[b].run)
    requires forall b :: |v.s.beh| <= b < |v'.s.beh| ==> Early(v'.s.beh[b].run)
    ensures NodesOK(v', q)
  {
    forall b {:trigger NodeAt(v', q.h, b)} | 0 <= b < |v'.s.beh| ensures NodeAt(v', q.h, b) {
      if NodeOf(b) in q.h.home { HasBehavior(v, q, b); }
      if b < |v.s.beh| { assert NodeAt(v, q.h, b); }
    }
  }

  lemma MoveNodes(c: State, m: V.Move)
    requires Inv(c) && Can(c, Move(m))
    ensures NodesOK(V.Make(c.v, m), c.q)
  {
    MoveFlags(c.v, m);
    forall b | 0 <= b < |c.v.s.beh| ensures b < |V.Make(c.v, m).s.beh| && SameClass(c.v.s.beh[b].run, V.Make(c.v, m).s.beh[b].run) {
      MoveClass(c.v, m, b);
    }
    SameNodes(c.v, V.Make(c.v, m), c.q);
  }

  lemma MoveKept(c: State, m: V.Move)
    requires Inv(c) && Can(c, Move(m))
    ensures Inv(Next(c, Move(m)))
  {
    var c' := Next(c, Move(m));
    V.MoveKeeps(c.v, m);
    MoveFlags(c.v, m);
    MoveNodes(c, m);
    OddTokens(c'.v, c.q, c'.g);
    forall n | n in c.q.h.home ensures n in c'.g.pinned <==> n in c.g.pinned { SameFlag(c.v, c'.v, c.q, n); }
    MoreFlags(c.q, c.g, c'.g);
  }

  lemma SameFlag(v: V.Values, v': V.Values, q: H.State, n: BQ.Node)
    requires NodesOK(v, q) && n in q.h.home && |v.flag| == |v.s.beh| && v.flag <= v'.flag
    ensures n in Flags(v') <==> n in Flags(v)
  {
    FlagsOf(v, n);
    FlagsOf(v', n);
  }

  /** Behavior `x` is dispatched, and its node is a new one in some hand. */
  lemma NewNodes(v: V.Values, v': V.Values, q: H.State, q': H.State, x: RQ.Bid, t: BQ.Tid)
    requires NodesOK(v, q) && x < |v.s.beh| == |v'.s.beh|
    requires q'.h.home == q.h.home[NodeOf(x) := H.Hand(t)] && q'.m.token == q.m.token
    requires v'.s.beh[x].run.Queued?
    requires forall b :: 0 <= b < |v.s.beh| && b != x ==> SameClass(v.s.beh[b].run, v'.s.beh[b].run)
    ensures NodesOK(v', q')
  {
    forall b {:trigger NodeAt(v', q'.h, b)} | 0 <= b < |v'.s.beh| ensures NodeAt(v', q'.h, b) {
      assert NodeAt(v, q.h, b);
    }
    forall n {:trigger n in q'.h.home} | n in q'.h.home
      ensures (n % 2 == 0 ==> n / 2 < |v'.s.beh|) && (n % 2 == 1 ==> n in q'.m.token.Values)
    {
    }
  }

  lemma GiveNodes(c: State, m: V.Move, t: BQ.Tid, junk: Option<BQ.Node>)
    requires Inv(c) && Can(c, Give(m, t, junk))
    ensures NodesOK(V.Make(c.v, m), H.After(c.q, BQ.Produce(t, NodeOf(Queues(c.v, m).value), junk)))
  {
    var x, v' := Queues(c.v, m).value, V.Make(c.v, m);
    MoveFlags(c.v, m);
    StartsKnown(c.v, m);
    forall b | 0 <= b < |c.v.s.beh|
      ensures if b == x then v'.s.beh[b].run.Queued? else SameClass(c.v.s.beh[b].run, v'.s.beh[b].run)
    {
      MoveClass(c.v, m, b);
    }
    NewNodes(c.v, v', c.q, H.After(c.q, BQ.Produce(t, NodeOf(x), junk)), x, t);
  }

  lemma StartsKnown(v: V.Values, m: V.Move)
    requires V.ValuesOK(v) && V.CanMove(v, m) && Queues(v, m).Some?
    ensures Queues(v, m).value < |v.s.beh| && !m.WhenCall?
  {
    if m.Unlink? {
      var b := m.b;
      if v.s.beh[b].run.Releasing? {
        CR.ReleaseSite(v.s, b, v.s.beh[b].run.at);
        if CR.ReqOf(v.s, b, v.s.beh[b].run.at).next.Some? { CR.NextSite(v.s, b, v.s.beh[b].run.at); }
      }
    }
  }

  /** Whenever the protocol dispatches a behavior its node is free: it is nowhere in the
      run queues, so any thread that holds nothing can give it to boc_sched_dispatch. */
  lemma GiveAllowed(c: State, m: V.Move, t: BQ.Tid, junk: Option<BQ.Node>)
    requires Inv(c) && V.CanMove(c.v, m) && !m.Pop? && Queues(c.v, m).Some?
    ensures NodeOf(Queues(c.v, m).value) !in c.q.h.home
    ensures Can(c, Give(m, t, junk)) <==> BQ.Th(c.q.m, t).op.Idle? && BQ.Th(c.q.m, t).hand.None?
  {
    NodeFree(c.v, c.q, m);
    GiveIff(c, m, t, junk);
  }

  lemma NodeFree(v: V.Values, q: H.State, m: V.Move)
    requires V.ValuesOK(v) && NodesOK(v, q) && V.CanMove(v, m) && !m.Pop? && Queues(v, m).Some?
    ensures NodeOf(Queues(v, m).value) !in q.h.home
  {
    StartsKnown(v, m);
    MoveClass(v, m, Queues(v, m).value);
    assert NodeAt(v, q.h, Queues(v, m).value);
  }

  lemma GiveIff(c: State, m: V.Move, t: BQ.Tid, junk: Option<BQ.Node>)
    requires V.Sized(c.v) && V.CanMove(c.v, m) && !m.Pop? && Queues(c.v, m).Some?
    requires NodeOf(Queues(c.v, m).value) !in c.q.h.home
    ensures Can(c, Give(m, t, junk)) <==> BQ.Th(c.q.m, t).op.Idle? && BQ.Th(c.q.m, t).hand.None?
  {
  }

  lemma GiveKept(c: State, m: V.Move, t: BQ.Tid, junk: Option<BQ.Node>)
    requires Inv(c) && Can(c, Give(m, t, junk))
    ensures Inv(Next(c, Give(m, t, junk)))
  {
    var a := BQ.Produce(t, NodeOf(Queues(c.v, m).value), junk);
    V.MoveKeeps(c.v, m);
    MoveFlags(c.v, m);
    StartsKnown(c.v, m);
    R.StepKeeps(c.q, a);
    P.RouteKeeps(c.q, a, c.g);
    GiveNodes(c, m, t, junk);
  }

  /** Nothing but a hand-out brings a node to a runner, and nothing loses one. */
  lemma InsideHomes(q: H.State, a: BQ.Step)
    requires H.Inv(q) && H.Enabled(q, a) && !a.Produce? && !a.Deliver?
    ensures H.After(q, a).h.home.Keys == q.h.home.Keys && H.After(q, a).m.token == q.m.token
    ensures forall n :: n in q.h.home ==> (H.After(q, a).h.home[n] == H.Runner <==> q.h.home[n] == H.Runner)
  {
    var q' := H.After(q, a);
    if a.Run? { SC.RunKeys(q, a.t); } else { SC.CallKeys(q, a); }
    P.SameTokens(q.m, a, q.h.home.Keys);
    assert H.ThreadOK(q, a.t);
    forall n | n in q.h.home ensures q'.h.home[n] == H.Runner <==> q.h.home[n] == H.Runner {
      assert n in q'.h.home.Keys;
      if q'.h.home[n] != q.h.home[n] {
        P.Listed(q.h, n);
        if a.Run? { P.Moved(q, a.t, n); } else { P.CallMoved(q, a, n); }
      }
    }
  }

  lemma InsideKept(c: State, a: BQ.Step)
    requires Inv(c) && Can(c, Inside(a))
    ensures Inv(Next(c, Inside(a)))
  {
    var q' := H.After(c.q, a);
    R.StepKeeps(c.q, a);
    P.RouteKeeps(c.q, a, c.g);
    InsideHomes(c.q, a);
    forall b {:trigger NodeAt(c.v, q'.h, b)} | 0 <= b < |c.v.s.beh| ensures NodeAt(c.v, q'.h, b) {
      assert NodeAt(c.v, c.q.h, b);
      assert NodeOf(b) in q'.h.home.Keys <==> NodeOf(b) in c.q.h.home.Keys;
    }
    forall n {:trigger n in q'.h.home} | n in q'.h.home
      ensures (n % 2 == 0 ==> n / 2 < |c.v.s.beh|) && (n % 2 == 1 ==> n in q'.m.token.Values)
    {
      assert n in q'.h.home.Keys;
    }
  }

  lemma HandOutHomes(q: H.State, t: BQ.Tid)
    requires H.Inv(q) && H.Enabled(q, BQ.Deliver(t))
    ensures var q', n := H.After(q, BQ.Deliver(t)), BQ.Th(q.m, t).hand.value;
      n in q.h.home && q'.h.home == q.h.home[n := H.Runner] && q'.m.token == q.m.token
  {
    var q', n := H.After(q, BQ.Deliver(t)), BQ.Th(q.m, t).hand.value;
    InHand(q, t);
    assert H.ThreadOK(q, t);
    forall x | x in q.h.home && q.h.home[x] == H.Hand(t) ensures x == n { P.Listed(q.h, x); }
  }

  lemma HandOutKept(c: State, t: BQ.Tid)
    requires Inv(c) && Can(c, HandOut(t))
    ensures V.CanMove(c.v, PopOf(c, t)) && Inv(Next(c, HandOut(t)))
  {
    PopAllowed(c, t);
    V.MoveKeeps(c.v, PopOf(c, t));
    R.StepKeeps(c.q, BQ.Deliver(t));
    P.RouteKeeps(c.q, BQ.Deliver(t), c.g);
    HandOutHomes(c.q, t);
    PopBodies(c.v, PopOf(c, t));
    RunnerNodes(c.v, V.Make(c.v, PopOf(c, t)), c.q, H.After(c.q, BQ.Deliver(t)), PopOf(c, t).b);
  }

  lemma PopBodies(v: V.Values, m: V.Move)
    requires V.Sized(v) && V.CanMove(v, m) && m.Pop?
    ensures var v' := V.Make(v, m);
      && v'.flag == v.flag && |v'.s.beh| == |v.s.beh| && v'.s.beh[m.b].run.Running?
      && forall b :: 0 <= b < |v.s.beh| && b != m.b ==> v'.s.beh[b].run == v.s.beh[b].run
  {
  }

  /** Behavior `x` is popped, and its node is with a runner. */
  lemma RunnerNodes(v: V.Values, v': V.Values, q: H.State, q': H.State, x: RQ.Bid)
    requires NodesOK(v, q) && x < |v.s.beh| == |v'.s.beh| && NodeOf(x) in q.h.home
    requires q'.h.home == q.h.home[NodeOf(x) := H.Runner] && q'.m.token == q.m.token
    requires v'.s.beh[x].run.Running?
    requires forall b :: 0 <= b < |v.s.beh| && b != x ==> v'.s.beh[b].run == v.s.beh[b].run
    ensures NodesOK(v', q')
  {
    forall b {:trigger NodeAt(v', q'.h, b)} | 0 <= b < |v'.s.beh| ensures NodeAt(v', q'.h, b) {
      assert NodeAt(v, q.h, b);
    }
    forall n {:trigger n in q'.h.home} | n in q'.h.home
      ensures (n % 2 == 0 ==> n / 2 < |v'.s.beh|) && (n % 2 == 1 ==> n in q'.m.token.Values)
    {
    }
  }

  // ---------------------------------------------------------------------- runs

  /** The protocol allows the pop, if the step is one.  A run does not assume it. */
  predicate Popable(c: State, x: Act)
    requires V.Sized(c.v) && Can(c, x)
  {
    x.HandOut? ==> V.CanMove(c.v, PopOf(c, x.t))
  }

  predicate Follows(c: State, x: Act, c': State) {
    V.Sized(c.v) && Can(c, x) && (Popable(c, x) ==> c' == Next(c, x))
  }

  ghost predicate IsRun(cs: seq<State>, xs: seq<Act>) {
    |cs| == |xs| + 1 && Starts(cs[0]) && forall i {:trigger xs[i]} :: 0 <= i < |xs| ==> Follows(cs[i], xs[i], cs[i+1])
  }

  /** No behavior yet, and empty run queues with the workers' tokens. */
  ghost predicate Starts(c: State) {
    && c.v == V.Start(c.v.pinned) && R.Fresh(c.q) && c.g.giving == {} && c.g.pinned == {}
    && forall w {:trigger c.q.m.token[w]} :: w in c.q.m.token ==> c.q.m.token[w] % 2 == 1
  }

  lemma StartOK(c: State)
    requires Starts(c)
    ensures Inv(c)
  {
    V.StartOK(c.v.pinned);
    R.FreshInv(c.q);
    P.FreshRouted(c.q, c.g);
    forall n {:trigger n in c.q.h.home} | n in c.q.h.home ensures n % 2 == 1 && n in c.q.m.token.Values {
      assert c.q.m.token[c.q.h.home[n].t] == n;
    }
  }

  lemma {:induction false} RunsKeepInv(cs: seq<State>, xs: seq<Act>, i: nat)
    requires IsRun(cs, xs) && i < |cs|
    ensures Inv(cs[i])
  {
    if i == 0 {
      StartOK(cs[0]);
    } else {
      RunsKeepInv(cs, xs, i - 1);
      Kept(cs[i-1], xs[i-1], cs[i]);
    }
  }

  /** In every run every hand-out is a pop the protocol allows: no worker ever gets a
      behavior with a pinned argument. */
  lemma RunsAllowed(cs: seq<State>, xs: seq<Act>, i: nat)
    requires IsRun(cs, xs) && i < |xs| && xs[i].HandOut?
    ensures HandsOut(cs[i], xs[i].t) && V.Sized(cs[i].v) && V.CanMove(cs[i].v, PopOf(cs[i], xs[i].t))
  {
    RunsKeepInv(cs, xs, i);
    Kept(cs[i], xs[i], cs[i+1]);
  }

  lemma Kept(c: State, x: Act, c': State)
    requires Inv(c) && Follows(c, x, c')
    ensures Popable(c, x) && Inv(c')
  {
    ActKept(c, x);
  }

  lemma ActKept(c: State, x: Act)
    requires Inv(c) && Can(c, x)
    ensures Popable(c, x) && Inv(Next(c, x))
  {
    match x {
      case Move(m) => MoveKept(c, m);
      case Give(m, t, junk) => GiveKept(c, m, t, junk);
      case Inside(a) => InsideKept(c, a);
      case HandOut(t) => HandOutKept(c, t);
    }
  }
}
