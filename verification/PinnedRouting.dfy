/** Where a behavior with a pinned cown can be: on the way to the main thread's own
    queue, in it, or with the main thread.  No worker ever pops one. */
module PinnedRouting {
  import opened Wrappers
  import opened BehaviorQueue
  import opened QueueHistory
  import opened QueueRuns

  const PINNED: Qid := 0         // MAIN_PINNED_QUEUE

  /** `pinned` holds the nodes whose header says so, which was written when their
      capsule was built; `main` is the thread that runs the pump; `giving` holds the
      threads inside boc_sched_dispatch with the node in hand. */
  datatype Routing = Routing(pinned: set<Node>, main: Tid, giving: set<Tid>)

  function Route(g: Routing, a: Step): (g': Routing) {
    match a
    case Produce(t, _, _) => g.(giving := g.giving + {t})
    case Enqueue(t, _) => g.(giving := g.giving - {t})
    case EnqueueFront(t, _) => g.(giving := g.giving - {t})
    case Stash(t) => g.(giving := g.giving - {t})
    case _ => g
  }

  /** Dispatch tests the header; a thief puts what it peels off a segment on its own
      queues. */
  predicate LawfulEnqueue(m: Mem, g: Routing, t: Tid, q: Qid) {
    if t in g.giving then Th(m, t).hand.Some? ==> (Th(m, t).hand.value in g.pinned <==> q == PINNED)
    else t != g.main && q != PINNED
  }

  /** What the code does: only the main thread dequeues from the pinned queue, from
      nowhere else, and it hands out whatever it gets. */
  predicate Lawful(m: Mem, g: Routing, a: Step) {
    match a
    case Run(_) => true
    case Produce(_, _, _) => true
    case Enqueue(t, q) => LawfulEnqueue(m, g, t, q)
    case EnqueueFront(t, q) => LawfulEnqueue(m, g, t, q)
    case EnqueuePending(_, q) => q != PINNED
    case EnqueueSegment(_, q) => q != PINNED
    case Dequeue(t, q) => q == PINNED <==> t == g.main
    case DequeueAll(_, q) => q != PINNED
    case Stash(t) => t in g.giving && (Th(m, t).hand.Some? ==> Th(m, t).hand.value !in g.pinned)
    case Deliver(t) => t !in g.giving
    case Arm(t, _) => t !in g.giving
    case Rearm(_, q) => q != PINNED
    case Save(t) => t !in g.giving && t != g.main
    case _ => a.t != g.main
  }

  /** The places where a pinned node can be. */
  predicate MayHold(m: Mem, g: Routing, p: Place) {
    match p
    case Sub(q) => q == PINNED
    case Flight(t) => InFlight(Th(m, t).op) && Th(m, t).op.q == PINNED
    case Hand(t) => t in g.giving || t == g.main
    case Runner => true
    case _ => false
  }

  /** Those where no other can. */
  predicate Reserved(m: Mem, g: Routing, p: Place) {
    match p
    case Sub(q) => q == PINNED
    case Flight(t) => InFlight(Th(m, t).op) && Th(m, t).op.q == PINNED
    case Hand(t) => t !in g.giving && t == g.main
    case _ => false
  }

  predicate Fits(m: Mem, g: Routing, n: Node, p: Place) {
    (n in g.pinned ==> MayHold(m, g, p)) && (Reserved(m, g, p) ==> n in g.pinned)
  }

  predicate RouteOK(m: Mem, g: Routing, t: Tid) {
    var th := Th(m, t);
    && (t in g.giving ==> th.hand.Some?)
    && (TakesAll(th.op) ==> th.op.q != PINNED)
    && (TakesOne(th.op) ==> (th.op.q == PINNED <==> t == g.main))
  }

  ghost predicate PlacesOK(s: State, g: Routing) {
    forall n {:trigger s.h.home[n]} :: n in s.h.home ==> Fits(s.m, g, n, s.h.home[n])
  }

  /** A token behavior takes no cowns. */
  predicate TokensFree(m: Mem, g: Routing) { forall w :: w in m.token ==> m.token[w] !in g.pinned }

  ghost predicate Routed(s: State, g: Routing) {
    PlacesOK(s, g) && TokensFree(s.m, g) && forall t {:trigger RouteOK(s.m, g, t)} :: RouteOK(s.m, g, t)
  }

  // ---------------------------------------------------------------- preservation

  lemma RouteThread(s: State, a: Step, g: Routing, u: Tid)
    requires Inv(s) && Enabled(s, a) && Lawful(s.m, g, a) && RouteOK(s.m, g, a.t) && RouteOK(s.m, g, u)
    ensures RouteOK(After(s, a).m, Route(g, a), u)
  {
    assert ThreadOK(s, a.t);
    if u != a.t { OtherThread(s, a, u); }
    else if a.Run? { RunRoute(s, a.t, g); }
    else { CallRoute(s, a, g); }
  }

  lemma SameTokens(m: Mem, a: Step, known: set<Node>)
    requires CanStep(m, known, a)
    ensures Next(m, a, known).token == m.token
  {
  }

  lemma RunRoute(s: State, t: Tid, g: Routing)
    requires OpOK(s, t) && RouteOK(s.m, g, t)
    ensures RouteOK(RunStep(s.m, t), g, t)
  {
    var op := Th(s.m, t).op;
    if op.ClearEnd? || op.SwapBack? || op.StoreLink? || op.Idle? { PutRoute(s, t, g); }
    else if op.Probe? || op.Claim? { AcquireRoute(s, t, g); }
    else { TakeRoute(s, t, g); }
  }

  lemma PutRoute(s: State, t: Tid, g: Routing)
    requires RouteOK(s.m, g, t)
    requires var op := Th(s.m, t).op; op.ClearEnd? || op.SwapBack? || op.StoreLink? || op.Idle?
    ensures RouteOK(RunStep(s.m, t), g, t)
  {
  }

  lemma AcquireRoute(s: State, t: Tid, g: Routing)
    requires OpOK(s, t) && RouteOK(s.m, g, t) && (Th(s.m, t).op.Probe? || Th(s.m, t).op.Claim?)
    ensures RouteOK(RunStep(s.m, t), g, t)
  {
  }

  lemma TakeRoute(s: State, t: Tid, g: Routing)
    requires OpOK(s, t) && RouteOK(s.m, g, t)
    requires var op := Th(s.m, t).op; !(op.ClearEnd? || op.SwapBack? || op.StoreLink? || op.Idle? || op.Probe? || op.Claim?)
    ensures RouteOK(RunStep(s.m, t), g, t)
  {
  }

  lemma CallRoute(s: State, a: Step, g: Routing)
    requires OpOK(s, a.t) && Enabled(s, a) && !a.Run? && Lawful(s.m, g, a) && RouteOK(s.m, g, a.t)
    ensures RouteOK(After(s, a).m, Route(g, a), a.t)
  {
  }

  /** Whatever is said to be at a place is there. */
  lemma Listed(h: History, n: Node)
    requires HomesOK(h) && n in h.home
    ensures n in Items(h, h.home[n])
  {
  }

  /** A place keeps its answer while its thread's operation does. */
  lemma SameAnswer(s: State, a: Step, g: Routing, n: Node, p: Place)
    requires Enabled(s, a) && Fits(s.m, g, n, p)
    requires p == Flight(a.t) ==> InFlight(Th(s.m, a.t).op)
    requires p == Flight(a.t) ==> InFlight(Th(After(s, a).m, a.t).op) && Th(After(s, a).m, a.t).op.q == Th(s.m, a.t).op.q
    requires p == Hand(a.t) ==> (a.t in Route(g, a).giving <==> a.t in g.giving)
    ensures Fits(After(s, a).m, Route(g, a), n, p)
  {
    if p.Flight? && p.t != a.t { OtherThread(s, a, p.t); }
  }

  /** Inside a queue function a node that is being enqueued stays where it is until
      it lands in the queue the thread is at. */
  lemma RunPlace(s: State, t: Tid, g: Routing, n: Node)
    requires Inv(s) && Enabled(s, Run(t)) && ThreadOK(s, t) && RouteOK(s.m, g, t) && n in After(s, Run(t)).h.home
    requires n in s.h.home ==> Fits(s.m, g, n, s.h.home[n])
    ensures Fits(After(s, Run(t)).m, g, n, After(s, Run(t)).h.home[n])
  {
    RunSameNodes(s, t);
    assert n in After(s, Run(t)).h.home.Keys;
    var p, p' := s.h.home[n], After(s, Run(t)).h.home[n];
    if p' == p {
      if p == Flight(t) {
        Listed(s.h, n);
        StaysInFlight(s, t, n);
      }
      SameAnswer(s, Run(t), g, n, p);
    } else {
      Moved(s, t, n);
    }
  }

  lemma RunSameNodes(s: State, t: Tid)
    requires Inv(s) && Enabled(s, Run(t))
    ensures After(s, Run(t)).h.home.Keys == s.h.home.Keys
  {
    assert forall q :: HomeOK(s.h, Sub(q));
  }

  lemma StaysInFlight(s: State, t: Tid, n: Node)
    requires Enabled(s, Run(t)) && ThreadOK(s, t) && InFlight(Th(s.m, t).op)
    requires n in s.h.home && n in After(s, Run(t)).h.home && s.h.home[n] == After(s, Run(t)).h.home[n] == Flight(t)
    ensures InFlight(Th(After(s, Run(t)).m, t).op) && Th(After(s, Run(t)).m, t).op.q == Th(s.m, t).op.q
  {
  }

  /** Out of a queue only into the hand of the thread that dequeues, or its segment. */
  lemma Moved(s: State, t: Tid, n: Node)
    requires Inv(s) && Enabled(s, Run(t)) && ThreadOK(s, t) && n in s.h.home && n in After(s, Run(t)).h.home
    requires After(s, Run(t)).h.home[n] != s.h.home[n]
    ensures var op, p, p' := Th(s.m, t).op, s.h.home[n], After(s, Run(t)).h.home[n];
      || (InFlight(op) && p == Flight(t) && p' == Sub(op.q))
      || (TakesOne(op) && p == Sub(op.q) && p' == Hand(t))
      || (TakesAll(op) && p == Sub(op.q) && p' == Held(t))
  {
    if OwnsFront(Th(s.m, t).op) {
      var q := Th(s.m, t).op.q;
      assert HomeOK(s.h, Sub(q));
      MovedOut(s, t, n);
    }
  }

  lemma MovedOut(s: State, t: Tid, n: Node)
    requires Enabled(s, Run(t)) && OpOK(s, t) && n in s.h.home && n in After(s, Run(t)).h.home
    requires OwnsFront(Th(s.m, t).op) && HomeOK(s.h, Sub(Th(s.m, t).op.q)) && After(s, Run(t)).h.home[n] != s.h.home[n]
    ensures var op, p, p' := Th(s.m, t).op, s.h.home[n], After(s, Run(t)).h.home[n];
      || (InFlight(op) && p == Flight(t) && p' == Sub(op.q))
      || (TakesOne(op) && p == Sub(op.q) && p' == Hand(t))
      || (TakesAll(op) && p == Sub(op.q) && p' == Held(t))
  {
    assert s.h.home[Items(s.h, Sub(Th(s.m, t).op.q))[0]] == Sub(Th(s.m, t).op.q);
  }

  /** Outside the queue functions. */
  lemma CallPlace(s: State, a: Step, g: Routing, n: Node)
    requires Inv(s) && Enabled(s, a) && !a.Run? && Routed(s, g) && Lawful(s.m, g, a) && n in After(s, a).h.home
    ensures Fits(After(s, a).m, Route(g, a), n, After(s, a).h.home[n])
  {
    if n in s.h.home {
      assert ThreadOK(s, a.t) && RouteOK(s.m, g, a.t);
      Listed(s.h, n);
      if After(s, a).h.home[n] == s.h.home[n] {
        CallStays(s, a, n);
        SameAnswer(s, a, g, n, s.h.home[n]);
      } else {
        CallMoved(s, a, n);
        if s.h.home[n] == Hand(a.t) { CallLands(s, a, g, n); } else { OthersLand(s, a, g, n); }
      }
    } else {
      NewNode(s, a, n);
    }
  }

  lemma CallLands(s: State, a: Step, g: Routing, n: Node)
    requires ThreadOK(s, a.t) && CanStep(s.m, s.h.home.Keys, a) && Enabled(s, a) && !a.Run? && n in Items(s.h, Hand(a.t))
    requires Lawful(s.m, g, a) && TokensFree(s.m, g) && Fits(s.m, g, n, Hand(a.t))
    requires n in After(s, a).h.home && LandsFrom(s, a, After(s, a).h.home[n])
    ensures Fits(After(s, a).m, Route(g, a), n, After(s, a).h.home[n])
  {
    assert n == Th(s.m, a.t).hand.value;
  }

  /** Where what was in the hand is after the step. */
  predicate LandsFrom(s: State, a: Step, p: Place)
    requires Enabled(s, a)
  {
    || ((a.Enqueue? || a.EnqueueFront?) && Departs(s, a, p))
    || (a.Stash? && p == Pending(a.t)) || (a.Save? && p == Saved(a.t)) || (a.Deliver? && p == Runner)
    || (a.Arm? && p == Armed(a.w))
  }

  /** It is the argument of the enqueue that thread begins. */
  predicate Departs(s: State, a: Step, p: Place)
    requires Enabled(s, a) && (a.Enqueue? || a.EnqueueFront? || a.EnqueuePending? || a.EnqueueSegment? || a.Rearm?)
  {
    p == Flight(a.t) && InFlight(Th(After(s, a).m, a.t).op) && Th(After(s, a).m, a.t).op.q == a.q
  }

  /** Where what was elsewhere is after it. */
  predicate OthersFrom(s: State, a: Step, p: Place, p': Place)
    requires Enabled(s, a)
  {
    || (p.Held? && ((a.TakeOne? || a.TakeLast?) && p' == Hand(a.t)))
    || (p.Held? && a.EnqueueSegment? && Departs(s, a, p'))
    || (p.Pending? && a.Unstash? && p' == Hand(a.t)) || (p.Pending? && a.EnqueuePending? && Departs(s, a, p'))
    || (p.Saved? && a.Reload? && p' == Hand(a.t)) || (p.Armed? && a.Rearm? && Departs(s, a, p'))
  }

  lemma OthersLand(s: State, a: Step, g: Routing, n: Node)
    requires Enabled(s, a) && !a.Run? && Lawful(s.m, g, a) && n in s.h.home && n in After(s, a).h.home
    requires Fits(s.m, g, n, s.h.home[n]) && OthersFrom(s, a, s.h.home[n], After(s, a).h.home[n])
    ensures Fits(After(s, a).m, Route(g, a), n, After(s, a).h.home[n])
  {
  }

  lemma NewNode(s: State, a: Step, n: Node)
    requires Inv(s) && Enabled(s, a) && !a.Run? && n !in s.h.home && n in After(s, a).h.home
    ensures a.Produce? && After(s, a).h.home[n] == Hand(a.t)
  {
    assert HomeOK(s.h, Held(a.t));
    if a.TakeOne? { TakesListed(s, a.t); }
  }

  lemma TakesListed(s: State, t: Tid)
    requires Inv(s) && Enabled(s, TakeOne(t))
    ensures After(s, TakeOne(t)).h.home.Keys == s.h.home.Keys
  {
    assert HomeOK(s.h, Held(t)) && ThreadOK(s, t);
  }

  /** A node that stays put: the thread starts no enqueue, and it is not in its hand
      when that is emptied. */
  lemma CallStays(s: State, a: Step, n: Node)
    requires Inv(s) && Enabled(s, a) && !a.Run? && ThreadOK(s, a.t) && n in s.h.home && n in Items(s.h, s.h.home[n])
    requires n in After(s, a).h.home && After(s, a).h.home[n] == s.h.home[n]
    ensures s.h.home[n] != Flight(a.t)
    ensures s.h.home[n] == Hand(a.t) ==> !a.Enqueue? && !a.EnqueueFront? && !a.Stash?
  {
    assert Items(s.h, Flight(a.t)) == [];
    if s.h.home[n] == Hand(a.t) { HandLeaves(s, a, n); }
  }

  lemma HandLeaves(s: State, a: Step, n: Node)
    requires Enabled(s, a) && n in s.h.home && s.h.home[n] == Hand(a.t) && n in After(s, a).h.home
    ensures a.Enqueue? || a.EnqueueFront? || a.Stash? ==> After(s, a).h.home[n] != Hand(a.t)
  {
  }

  lemma CallMoved(s: State, a: Step, n: Node)
    requires Inv(s) && Enabled(s, a) && !a.Run? && ThreadOK(s, a.t) && n in s.h.home && n in After(s, a).h.home
    requires After(s, a).h.home[n] != s.h.home[n] && n in Items(s.h, s.h.home[n])
    ensures if s.h.home[n] == Hand(a.t) then LandsFrom(s, a, After(s, a).h.home[n])
            else OthersFrom(s, a, s.h.home[n], After(s, a).h.home[n])
  {
    if a.TakeOne? { PeeledFrom(s, a.t, n); } else { ShiftedFrom(s, a, n); }
  }

  lemma PeeledFrom(s: State, t: Tid, n: Node)
    requires Inv(s) && Enabled(s, TakeOne(t)) && n in s.h.home && n in After(s, TakeOne(t)).h.home
    requires After(s, TakeOne(t)).h.home[n] != s.h.home[n]
    ensures s.h.home[n] == Held(t) && After(s, TakeOne(t)).h.home[n] == Hand(t)
  {
    assert HomeOK(s.h, Held(t));
  }

  lemma ShiftedFrom(s: State, a: Step, n: Node)
    requires Enabled(s, a) && !a.Run? && !a.TakeOne? && LocalsOK(s, a.t) && n in s.h.home && n in After(s, a).h.home
    requires TokensOK(s) && n in Items(s.h, s.h.home[n])
    requires After(s, a).h.home[n] != s.h.home[n] && (a.Produce? ==> n != a.n)
    ensures if s.h.home[n] == Hand(a.t) then LandsFrom(s, a, After(s, a).h.home[n])
            else OthersFrom(s, a, s.h.home[n], After(s, a).h.home[n])
  {
    if a.Rearm? { assert Items(s.h, Armed(a.t)) == if a.t in s.m.armed && a.t in s.m.token then [s.m.token[a.t]] else []; }
  }

  /** Every step of code that keeps to those rules keeps the pinned nodes where they
      may be, whatever the other threads are in the middle of. */
  lemma RouteKeeps(s: State, a: Step, g: Routing)
    requires Inv(s) && Enabled(s, a) && Routed(s, g) && Lawful(s.m, g, a)
    ensures Routed(After(s, a), Route(g, a))
  {
    var s', g' := After(s, a), Route(g, a);
    assert ThreadOK(s, a.t) && RouteOK(s.m, g, a.t);
    forall n {:trigger s'.h.home[n]} | n in s'.h.home ensures Fits(s'.m, g', n, s'.h.home[n]) {
      if a.Run? { RunPlace(s, a.t, g, n); } else { CallPlace(s, a, g, n); }
    }
    SameTokens(s.m, a, s.h.home.Keys);
    forall t {:trigger RouteOK(s'.m, g', t)} ensures RouteOK(s'.m, g', t) {
      assert RouteOK(s.m, g, t);
      RouteThread(s, a, g, t);
    }
  }

  // -------------------------------------------------------------------- what follows

  /** What a thread hands out while it is not dispatching, it hands out pinned only as
      the main thread. */
  lemma PinnedToMain(s: State, g: Routing, t: Tid)
    requires Inv(s) && Routed(s, g) && Enabled(s, Deliver(t)) && Lawful(s.m, g, Deliver(t)) && Th(s.m, t).hand.value in g.pinned
    ensures t == g.main
  {
    var n := Th(s.m, t).hand.value;
    assert ThreadOK(s, t) && HomeOK(s.h, Hand(t));
    assert n == Items(s.h, Hand(t))[0] && s.h.home[n] == Hand(t);
  }

  /** No dequeue but one from the pinned queue yields a pinned node ... */
  lemma DequeuedFree(s: State, g: Routing, q: Qid, n: Node)
    requires Inv(s) && Routed(s, g) && q != PINNED && n in Items(s.h, Sub(q))
    ensures n !in g.pinned
  {
    assert HomeOK(s.h, Sub(q));
    assert n in s.h.home && s.h.home[n] == Sub(q);
  }

  /** The pinned queue yields only pinned nodes, so no token, ... */
  lemma PumpedPinned(s: State, g: Routing, t: Tid)
    requires Inv(s) && Routed(s, g) && t == g.main && t !in g.giving && Th(s.m, t).hand.Some?
    ensures Th(s.m, t).hand.value in g.pinned && forall w :: w in s.m.token ==> s.m.token[w] != Th(s.m, t).hand.value
  {
    assert ThreadOK(s, t) && HomeOK(s.h, Hand(t));
    assert s.h.home[Items(s.h, Hand(t))[0]] == Hand(t);
  }

  /** ... and none is in a segment or a pending slot. */
  lemma KeptFree(s: State, g: Routing, t: Tid)
    requires Inv(s) && Routed(s, g)
    ensures forall n :: n in Items(s.h, Held(t)) ==> n !in g.pinned
    ensures Th(s.m, t).pending.Some? ==> Th(s.m, t).pending.value !in g.pinned
  {
    assert HomeOK(s.h, Held(t)) && HomeOK(s.h, Pending(t)) && ThreadOK(s, t);
    forall n | n in Items(s.h, Held(t)) ensures n !in g.pinned { assert s.h.home[n] == Held(t); }
    if Th(s.m, t).pending.Some? {
      assert s.h.home[Items(s.h, Pending(t))[0]] == Pending(t);
    }
  }

  /** Runs of code that keeps to the rules. */
  ghost predicate IsLawful(ss: seq<State>, run: seq<Step>, gs: seq<Routing>) {
    && IsRun(ss, run) && |gs| == |ss| && gs[0].giving == {} && TokensFree(ss[0].m, gs[0])
    && forall i {:trigger run[i]} :: 0 <= i < |run| ==> Lawful(ss[i].m, gs[i], run[i]) && gs[i+1] == Route(gs[i], run[i])
  }

  lemma FreshRouted(s: State, g: Routing)
    requires Fresh(s) && g.giving == {} && TokensFree(s.m, g)
    ensures Routed(s, g)
  {
    forall n | n in s.h.home ensures n !in g.pinned { assert s.m.token[s.h.home[n].t] == n; }
  }

  /** In every such run, pinned nodes are only where they may be. */
  lemma {:induction false} RunsRouted(ss: seq<State>, run: seq<Step>, gs: seq<Routing>, i: nat)
    requires IsLawful(ss, run, gs) && i < |ss|
    ensures Routed(ss[i], gs[i])
  {
    if i == 0 {
      FreshRouted(ss[0], gs[0]);
    } else {
      RunsRouted(ss, run, gs, i - 1);
      RunsKeepInv(ss, run, i - 1);
      assert Enabled(ss[i-1], run[i-1]);
      RouteKeeps(ss[i-1], run[i-1], gs[i-1]);
    }
  }
}
