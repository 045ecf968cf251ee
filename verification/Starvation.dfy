/** One worker on its own, its queue operations taken as atomic: how long a queued
    node can be kept waiting by nodes that go through `pending`. */
module Starvation {
  import opened Wrappers

  type Node = nat

  const WSQ_N: nat := 4          // BOC_WSQ_N
  const BATCH_SIZE: nat := 100   // BOC_BQ_BATCH_SIZE

  function PreInc(i: nat): (j: nat) { (i + 1) % WSQ_N }

  /** `cursor` is dequeue_index, `flag` should_steal_for_fairness, `token` token_work. */
  datatype State = State(pending: Option<Node>, batch: nat, q: seq<seq<Node>>, cursor: nat, flag: bool, token: Option<Node>)

  predicate Valid(s: State) {
    |s.q| == WSQ_N && s.cursor < WSQ_N && s.batch <= BATCH_SIZE && (s.pending.Some? ==> s.pending != s.token)
  }

  function Start(token: Option<Node>): (s: State)
    ensures Valid(s)
  {
    State(None, BATCH_SIZE, [[], [], [], []], 0, true, token)
  }

  predicate Busy(s: State) { exists j :: 0 <= j < |s.q| && s.q[j] != [] }

  // -------------------------------------------------------------------- the steps

  /** What a pop leaves and returns; `local` when it came from `pending`, else from
      sub-queue `k`. */
  datatype Popped = Popped(s: State, r: Option<Node>, local: bool, k: nat)

  /** A dispatch, local or from elsewhere, puts a node behind the others. */
  function Feed(s: State, j: nat, n: Node): (s': State)
    requires j < |s.q|
  {
    s.(q := s.q[j := s.q[j] + [n]])
  }

  /** boc_sched_dispatch by the worker itself */
  function Dispatch(s: State, n: Node, j: nat): (s': State)
    requires j < |s.q|
  {
    (if s.pending.Some? then Feed(s, j, s.pending.value) else s).(pending := Some(n))
  }

  /** The sub-queue `i` places further on from the one after the cursor. */
  function SubQueue(cursor: nat, i: nat): (j: nat)
    ensures j < WSQ_N
  {
    (cursor + 1 + i) % WSQ_N
  }

  /** The first sub-queue that is not empty, from that place on. */
  function Look(s: State, i: nat): (k: Option<nat>)
    requires Valid(s) && i <= WSQ_N
    ensures k.Some? ==> k.value < WSQ_N && s.q[k.value] != []
    decreases WSQ_N - i
  {
    if i == WSQ_N then None
    else if s.q[SubQueue(s.cursor, i)] != [] then Some(SubQueue(s.cursor, i))
    else Look(s, i + 1)
  }

  /** boc_wsq_dequeue, with what a pop from the queues does to the batch and, when
      it is the token, to the flag */
  function TakeQueued(s: State): (p: Popped)
    requires Valid(s)
  {
    match Look(s, 0)
    case None => Popped(s, None, false, 0)
    case Some(k) =>
      var n := s.q[k][0];
      Popped(s.(q := s.q[k := s.q[k][1..]], cursor := k, batch := BATCH_SIZE, flag := s.flag || s.token == Some(n)),
             Some(n), false, k)
  }

  /** boc_sched_worker_pop_fast: no node means go on to pop_slow. */
  function PopFast(s: State): (p: Popped)
    requires Valid(s)
  {
    if s.pending.Some? && s.batch > 0 then Popped(s.(pending := None, batch := s.batch - 1), s.pending, true, 0)
    else if s.flag && Busy(s) then Popped(s, None, false, 0)
    else
      var p := TakeQueued(s);
      if p.r.None? && s.pending.Some? then Popped(s.(pending := None, batch := BATCH_SIZE), s.pending, true, 0) else p
  }

  /** The fairness arm, with nobody to steal from; the token goes to sub-queue `j`. */
  function FairnessArm(s: State, j: nat): (s': State)
    requires j < |s.q|
  {
    var s1 := s.(flag := false);
    if s.token.Some? then Feed(s1, j, s.token.value) else s1
  }

  /** boc_sched_worker_pop_slow, up to where the worker would park */
  function PopSlow(s: State, j: nat): (p: Popped)
    requires Valid(s) && j < WSQ_N
  {
    var s1 := if s.flag && Busy(s) then FairnessArm(s, j) else s;
    if s1.pending.Some? then Popped(s1.(pending := None, batch := BATCH_SIZE), s1.pending, true, 0) else TakeQueued(s1)
  }

  function Pop(s: State, j: nat): (p: Popped)
    requires Valid(s) && j < WSQ_N
  {
    var p := PopFast(s);
    if p.r.Some? then p else PopSlow(p.s, j)
  }

  datatype Event = Arrive(j: nat, n: Node) | Local(n: Node, j: nat) | Serve(j: nat)

  predicate Can(s: State, e: Event) { e.j < WSQ_N && (e.Local? ==> Some(e.n) != s.token) }

  function Next(s: State, e: Event): (s': State)
    requires Valid(s) && Can(s, e)
  {
    match e
    case Arrive(j, n) => Feed(s, j, n)
    case Local(n, j) => Dispatch(s, n, j)
    case Serve(j) => Pop(s, j).s
  }

  /** A stretch of a run, from any state. */
  ghost predicate IsRun(ss: seq<State>, es: seq<Event>) {
    |ss| == |es| + 1 && Valid(ss[0]) && forall i {:trigger Follows(ss, es, i)} :: 0 <= i < |es| ==> Follows(ss, es, i)
  }

  predicate Follows(ss: seq<State>, es: seq<Event>, i: nat)
    requires i < |es| == |ss| - 1
  {
    Valid(ss[i]) && Can(ss[i], es[i]) && ss[i+1] == Next(ss[i], es[i])
  }

  /** How many pops there are among the events. */
  function Pops(es: seq<Event>): (n: nat) {
    if es == [] then 0 else (if es[0].Serve? then 1 else 0) + Pops(es[1..])
  }

  // ------------------------------------------------------------------- the measures

  /** How many sub-queues the cursor passes before it looks at `j`. */
  function Ahead(cursor: nat, j: nat): (d: nat)
    requires cursor < WSQ_N && j < WSQ_N
    ensures d < WSQ_N && SubQueue(cursor, d) == j
  {
    (j + WSQ_N - 1 - cursor) % WSQ_N
  }

  /** How many pops in a row `pending` may still win while the queues hold work. */
  function Credit(s: State): (n: nat) { s.batch + if s.flag then 1 + BATCH_SIZE else 0 }

  /** How many pops, of either kind, until the node at depth `p` of sub-queue `j`. */
  function Wait(s: State, j: nat, p: nat): (n: nat)
    requires Valid(s) && j < WSQ_N
  {
    (p * WSQ_N + Ahead(s.cursor, j)) * (2 * BATCH_SIZE + 2) + Credit(s) + 1
  }

  predicate At(s: State, j: nat, p: nat, n: Node) { j < |s.q| && p < |s.q[j]| && s.q[j][p] == n }

  lemma WaitBound(s: State, j: nat, p: nat)
    requires Valid(s) && j < WSQ_N
    ensures Wait(s, j, p) <= WSQ_N * (p + 1) * (2 * BATCH_SIZE + 2)
  {
  }

  // --------------------------------------------------------------- what a pop does

  /** The scan finds the nearest sub-queue that holds something. */
  lemma {:induction false} LookNearest(s: State, i: nat, j: nat)
    requires Valid(s) && i <= WSQ_N && j < WSQ_N && s.q[j] != [] && Ahead(s.cursor, j) >= i
    ensures Look(s, i).Some? && i <= Ahead(s.cursor, Look(s, i).value) <= Ahead(s.cursor, j)
    decreases WSQ_N - i
  {
    if s.q[SubQueue(s.cursor, i)] == [] { LookNearest(s, i + 1, j); }
  }

  lemma BusyLook(s: State)
    requires Valid(s) && Busy(s)
    ensures Look(s, 0).Some?
  {
    var j :| 0 <= j < |s.q| && s.q[j] != [];
    LookNearest(s, 0, j);
  }

  /** Everyone in the queues stays, with less to wait for, except that whoever is in
      sub-queue `k` moves up, and its front comes out. */
  ghost predicate Nearer(s: State, s': State, k: nat, j: nat, p: nat, n: Node)
    requires Valid(s) && Valid(s') && j < WSQ_N
  {
    (j == k ==> p > 0) && var p' := if j == k then p - 1 else p; At(s', j, p', n) && Wait(s', j, p') < Wait(s, j, p)
  }

  /** Popping from a sub-queue no farther than `j` brings the cursor nearer to `j`. */
  lemma Closer(cursor: nat, j: nat, k: nat)
    requires cursor < WSQ_N && j < WSQ_N && k < WSQ_N && Ahead(cursor, k) <= Ahead(cursor, j)
    ensures if j == k then Ahead(k, j) == WSQ_N - 1 else Ahead(k, j) < Ahead(cursor, j)
  {
  }

  lemma Less(d: nat, d': nat, p: nat, credit: nat, same: bool)
    requires d < WSQ_N && credit <= 2 * BATCH_SIZE + 1
    requires if same then p > 0 && d' == WSQ_N - 1 else d' < d
    ensures ((if same then p - 1 else p) * WSQ_N + d') * (2 * BATCH_SIZE + 2) + credit + 1 <= (p * WSQ_N + d) * (2 * BATCH_SIZE + 2)
  {
  }

  lemma TakeNearer(s: State, j: nat, p: nat, n: Node)
    requires Valid(s) && At(s, j, p, n)
    ensures var t := TakeQueued(s);
      && t.r.Some? && Valid(t.s) && t.k < WSQ_N && t.r == Some(s.q[t.k][0])
      && (!(j == t.k && p == 0) ==> Nearer(s, t.s, t.k, j, p, n))
  {
    LookNearest(s, 0, j);
    var t := TakeQueued(s);
    Closer(s.cursor, j, t.k);
    if !(j == t.k && p == 0) { Less(Ahead(s.cursor, j), Ahead(t.k, j), p, Credit(t.s), j == t.k); }
  }

  /** A pop from `pending` while the queues hold work costs credit, and moves nobody. */
  lemma PopLocal(s: State, e: nat)
    requires Valid(s) && e < WSQ_N && Busy(s) && Pop(s, e).local
    ensures Pop(s, e).r == s.pending && s.pending.Some? && Credit(Pop(s, e).s) < Credit(s) && Pop(s, e).s.cursor == s.cursor
    ensures Pop(s, e).s.pending.None?
    ensures forall j, p, n :: At(s, j, p, n) ==> At(Pop(s, e).s, j, p, n)
  {
    BusyLook(s);
  }

  /** A pop straight from `pending` uses up the batch; any other starts it again. */
  lemma PopBatch(s: State, e: nat)
    requires Valid(s) && e < WSQ_N
    ensures var t := Pop(s, e);
      && (s.pending.Some? && s.batch > 0 ==> t.r == s.pending && t.s.batch == s.batch - 1 && t.s.q == s.q)
      && (!(s.pending.Some? && s.batch > 0) ==> t.s.batch == if t.r.Some? then BATCH_SIZE else s.batch)
  {
  }

  /** A pop from the queues takes a front, and brings everyone else nearer. */
  lemma PopQueued(s: State, e: nat, j: nat, p: nat, n: Node)
    requires Valid(s) && e < WSQ_N && At(s, j, p, n) && !Pop(s, e).local
    ensures var t := Pop(s, e);
      && t.r.Some? && Valid(t.s) && t.k < WSQ_N && (s.q[t.k] != [] ==> t.r == Some(s.q[t.k][0]))
      && (!(j == t.k && p == 0) ==> Nearer(s, t.s, t.k, j, p, n))
  {
    assert Busy(s);
    BusyLook(s);
    if PopFast(s).r.Some? {
      TakeNearer(s, j, p, n);
    } else {
      TakeNearer(FairnessArm(s, e), j, p, n);
    }
  }

  // -------------------------------------------------------------------- conservation

  function Few(o: Option<Node>): (ns: multiset<Node>) { if o.Some? then multiset{o.value} else multiset{} }

  /** Everything there is, in `pending` and in the queues. */
  function All(s: State): (ns: multiset<Node>)
    requires Valid(s)
  {
    Few(s.pending) + multiset(s.q[0]) + multiset(s.q[1]) + multiset(s.q[2]) + multiset(s.q[3])
  }

  /** The pop goes through the fairness arm. */
  predicate Arms(s: State) { !(s.pending.Some? && s.batch > 0) && s.flag && Busy(s) }

  lemma SwapOne(s: State, k: nat, xs: seq<Node>)
    requires Valid(s) && k < WSQ_N
    ensures All(s.(q := s.q[k := xs])) + multiset(s.q[k]) == All(s) + multiset(xs)
  {
  }

  lemma FeedAll(s: State, j: nat, n: Node)
    requires Valid(s) && j < WSQ_N
    ensures All(Feed(s, j, n)) == All(s) + multiset{n}
  {
    SwapOne(s, j, s.q[j] + [n]);
    assert multiset(s.q[j] + [n]) == multiset(s.q[j]) + multiset{n};
  }

  lemma FrontOff(s: State, k: nat)
    requires Valid(s) && k < WSQ_N && s.q[k] != []
    ensures All(s.(q := s.q[k := s.q[k][1..]])) + multiset{s.q[k][0]} == All(s)
  {
    var xs := s.q[k];
    SwapOne(s, k, xs[1..]);
    assert xs == [xs[0]] + xs[1..];
    assert multiset(xs) == multiset{xs[0]} + multiset(xs[1..]);
  }

  lemma TakeAll(s: State)
    requires Valid(s)
    ensures Valid(TakeQueued(s).s) && All(TakeQueued(s).s) + Few(TakeQueued(s).r) == All(s)
    ensures TakeQueued(s).s.flag == (s.flag || (TakeQueued(s).r.Some? && TakeQueued(s).r == s.token))
  {
    if Look(s, 0).Some? {
      FrontOff(s, Look(s, 0).value);
      SameNodes(s.(q := TakeQueued(s).s.q), TakeQueued(s).s);
    }
  }

  lemma SameNodes(s: State, s': State)
    requires Valid(s) && Valid(s') && s'.q == s.q && s'.pending == s.pending
    ensures All(s') == All(s)
  {
  }

  lemma LocalAll(s: State, batch: nat)
    requires Valid(s) && batch <= BATCH_SIZE
    ensures All(s.(pending := None, batch := batch)) + Few(s.pending) == All(s)
  {
  }

  /** What a pop returns has left, and nothing else has; the token has come back if the
      fairness arm was gone through.  The flag goes down there, and comes up when the
      token is popped from a queue. */
  lemma PopConserves(s: State, e: nat)
    requires Valid(s) && e < WSQ_N
    ensures Conserves(s, Pop(s, e), if Arms(s) then Few(s.token) else multiset{})
    ensures var t := Pop(s, e);
      t.s.flag <==> (s.flag && !Arms(s)) || (!t.local && t.r.Some? && t.r == s.token)
  {
    if s.pending.Some? && s.batch > 0 { StraightPop(s, e); }
    else if Arms(s) { ArmAll(s, e); }
    else { QuietPop(s, e); }
  }

  lemma StraightPop(s: State, e: nat)
    requires Valid(s) && e < WSQ_N && s.pending.Some? && s.batch > 0
    ensures Conserves(s, Pop(s, e), multiset{}) && Pop(s, e).local && Pop(s, e).s.flag == s.flag
  {
    LocalAll(s, s.batch - 1);
  }

  predicate Conserves(s: State, t: Popped, extra: multiset<Node>)
    requires Valid(s)
  {
    Valid(t.s) && All(t.s) + Few(t.r) == All(s) + extra
  }

  /** Neither straight from `pending` nor through the arm. */
  lemma QuietPop(s: State, e: nat)
    requires Valid(s) && e < WSQ_N && !(s.pending.Some? && s.batch > 0) && !(s.flag && Busy(s))
    ensures Conserves(s, Pop(s, e), multiset{})
    ensures var t := Pop(s, e); t.s.flag <==> s.flag || (!t.local && t.r.Some? && t.r == s.token)
  {
    TakeAll(s);
    LocalAll(s, BATCH_SIZE);
  }

  lemma ArmAll(s: State, e: nat)
    requires Valid(s) && e < WSQ_N && Arms(s)
    ensures Conserves(s, Pop(s, e), Few(s.token))
    ensures var t := Pop(s, e); t.s.flag <==> !t.local && t.r.Some? && t.r == s.token
  {
    var a := FairnessArm(s, e);
    SameNodes(s, s.(flag := false));
    if s.token.Some? { FeedAll(s.(flag := false), e, s.token.value); }
    if s.pending.Some? { LocalAll(a, BATCH_SIZE); } else { TakeAll(a); }
  }

  lemma DispatchAll(s: State, n: Node, j: nat)
    requires Valid(s) && j < WSQ_N && Some(n) != s.token
    ensures All(Dispatch(s, n, j)) == All(s) + multiset{n}
  {
    if s.pending.Some? { FeedAll(s, j, s.pending.value); }
  }

  /** What an event brings in, a token that goes back among it, and what it takes out. */
  function In(s: State, e: Event): (ns: multiset<Node>) {
    match e
    case Arrive(_, n) => multiset{n}
    case Local(n, _) => multiset{n}
    case Serve(_) => if Arms(s) then Few(s.token) else multiset{}
  }

  function Out(s: State, e: Event): (ns: multiset<Node>)
    requires Valid(s) && Can(s, e)
  {
    if e.Serve? then Few(Pop(s, e.j).r) else multiset{}
  }

  function Ins(ss: seq<State>, es: seq<Event>): (ns: multiset<Node>)
    requires |ss| == |es| + 1
  {
    if es == [] then multiset{} else In(ss[0], es[0]) + Ins(ss[1..], es[1..])
  }

  ghost function Outs(ss: seq<State>, es: seq<Event>): (ns: multiset<Node>)
    requires IsRun(ss, es)
  {
    if es == [] then multiset{}
    else
      RunTail(ss, es);
      Out(ss[0], es[0]) + Outs(ss[1..], es[1..])
  }

  /** Over any run: what was popped, with what is left, is what there was, with what came
      in.  Nothing is lost, and nothing is served twice. */
  lemma {:induction false} RunConserves(ss: seq<State>, es: seq<Event>)
    requires IsRun(ss, es)
    ensures Valid(ss[|es|]) && Outs(ss, es) + All(ss[|es|]) == All(ss[0]) + Ins(ss, es)
    decreases |es|
  {
    if es != [] {
      RunTail(ss, es);
      RunConserves(ss[1..], es[1..]);
      NextConserves(ss[0], es[0]);
      assert ss[1..][|es|-1] == ss[|es|] && ss[1..][0] == ss[1];
      Sums(Out(ss[0], es[0]), Outs(ss[1..], es[1..]), All(ss[0]), All(ss[1]), All(ss[|es|]), In(ss[0], es[0]), Ins(ss[1..], es[1..]));
    } else {
      assert Outs(ss, es) == multiset{} && Ins(ss, es) == multiset{};
    }
  }

  lemma Sums(o: multiset<Node>, os: multiset<Node>, a: multiset<Node>, b: multiset<Node>, z: multiset<Node>,
             i: multiset<Node>, js: multiset<Node>)
    requires b + o == a + i && os + z == b + js
    ensures (o + os) + z == a + (i + js)
  {
    assert (o + os) + z == o + (os + z);
    assert o + (b + js) == (b + o) + js;
    assert (a + i) + js == a + (i + js);
  }

  lemma NextConserves(s: State, e: Event)
    requires Valid(s) && Can(s, e)
    ensures Valid(Next(s, e)) && All(Next(s, e)) + Out(s, e) == All(s) + In(s, e)
  {
    match e {
      case Arrive(j, n) => FeedAll(s, j, n);
      case Local(n, j) => DispatchAll(s, n, j);
      case Serve(j) => PopConserves(s, j);
    }
  }

  // ---------------------------------------------------------------------- the bounds

  lemma NextValid(s: State, e: Event)
    requires Valid(s) && Can(s, e)
    ensures Valid(Next(s, e))
  {
  }

  /** Between pops a queued node stays where it is, and waits for no more. */
  lemma ArriveKeeps(s: State, e: Event, j: nat, p: nat, n: Node)
    requires Valid(s) && Can(s, e) && !e.Serve? && At(s, j, p, n)
    ensures At(Next(s, e), j, p, n) && Valid(Next(s, e)) && Wait(Next(s, e), j, p) == Wait(s, j, p)
  {
  }

  lemma RunTail(ss: seq<State>, es: seq<Event>)
    requires IsRun(ss, es) && es != []
    ensures Follows(ss, es, 0) && Valid(ss[1]) && IsRun(ss[1..], es[1..])
  {
    assert Follows(ss, es, 0);
    NextValid(ss[0], es[0]);
    forall i {:trigger Follows(ss[1..], es[1..], i)} | 0 <= i < |es| - 1 ensures Follows(ss[1..], es[1..], i) {
      assert Follows(ss, es, i + 1);
    }
  }

  /** Event `i` is a pop that takes `n` out of sub-queue `j`. */
  ghost predicate TakesOut(ss: seq<State>, es: seq<Event>, i: nat, j: nat, n: Node) {
    && i < |es| == |ss| - 1 && es[i].Serve? && Valid(ss[i]) && es[i].j < WSQ_N
    && var p := Pop(ss[i], es[i].j); p.r == Some(n) && !p.local && p.k == j
  }

  /** One event, for a node that it does not take out. */
  lemma Waits(s: State, e: Event, j: nat, p: nat, n: Node) returns (p': nat)
    requires Valid(s) && Can(s, e) && At(s, j, p, n) && Valid(Next(s, e))
    requires e.Serve? ==> var t := Pop(s, e.j); t.local || !(t.k == j && p == 0)
    ensures At(Next(s, e), j, p', n) && Wait(Next(s, e), j, p') + (if e.Serve? then 1 else 0) <= Wait(s, j, p)
  {
    p' := p;
    if !e.Serve? {
      ArriveKeeps(s, e, j, p, n);
    } else if Pop(s, e.j).local {
      assert Busy(s);
      PopLocal(s, e.j);
    } else {
      PopQueued(s, e.j, j, p, n);
      if j == Pop(s, e.j).k { p' := p - 1; }
    }
  }

  lemma PopsHead(es: seq<Event>, i: nat)
    requires i < |es|
    ensures Pops(es[..i+1]) == (if es[0].Serve? then 1 else 0) + Pops(es[1..][..i])
  {
    assert es[..i+1][0] == es[0] && es[..i+1][1..] == es[1..][..i];
  }

  lemma ServedNow(ss: seq<State>, es: seq<Event>, j: nat, n: Node)
    requires |ss| == |es| + 1 && es != [] && Follows(ss, es, 0) && es[0].Serve? && At(ss[0], j, 0, n)
    requires var t := Pop(ss[0], es[0].j); !t.local && t.k == j
    ensures TakesOut(ss, es, 0, j, n) && Pops(es[..1]) == 1
  {
    PopQueued(ss[0], es[0].j, j, 0, n);
    PopsHead(es, 0);
    assert es[1..][..0] == [];
  }

  /** Once a run has enough pops, one of the first of them takes the node out. */
  lemma {:induction false} Served(ss: seq<State>, es: seq<Event>, j: nat, p: nat, n: Node) returns (i: nat)
    requires IsRun(ss, es) && At(ss[0], j, p, n) && Pops(es) >= Wait(ss[0], j, p)
    ensures TakesOut(ss, es, i, j, n) && Pops(es[..i+1]) <= Wait(ss[0], j, p)
    decreases |es|
  {
    RunTail(ss, es);
    if es[0].Serve? && !Pop(ss[0], es[0].j).local && Pop(ss[0], es[0].j).k == j && p == 0 {
      i := 0;
      ServedNow(ss, es, j, n);
    } else {
      var p' := Waits(ss[0], es[0], j, p, n);
      var k := Served(ss[1..], es[1..], j, p', n);
      i := k + 1;
      PopsHead(es, i);
      assert ss[1..][k] == ss[i] && es[1..][k] == es[i] && es[1..][..i] == es[1..][..k+1];
    }
  }

  /** However much is dispatched meanwhile, the node at depth `p` of sub-queue `j`
      comes out of it within N * (p + 1) * (2 * BATCH + 2) pops. */
  lemma ServedWithin(ss: seq<State>, es: seq<Event>, j: nat, p: nat, n: Node) returns (i: nat)
    requires IsRun(ss, es) && At(ss[0], j, p, n) && Pops(es) >= WSQ_N * (p + 1) * (2 * BATCH_SIZE + 2)
    ensures TakesOut(ss, es, i, j, n) && Pops(es[..i+1]) <= WSQ_N * (p + 1) * (2 * BATCH_SIZE + 2)
  {
    WaitBound(ss[0], j, p);
    i := Served(ss, es, j, p, n);
  }

  /** Every pop of a stretch came from `pending`, with work in the queues. */
  ghost predicate AllLocal(ss: seq<State>, es: seq<Event>) {
    |ss| == |es| + 1 && forall i {:trigger es[i]} :: 0 <= i < |es| && es[i].Serve? ==>
      Valid(ss[i]) && es[i].j < WSQ_N && Busy(ss[i]) && Pop(ss[i], es[i].j).local
  }

  lemma LocalTail(ss: seq<State>, es: seq<Event>)
    requires AllLocal(ss, es) && es != []
    ensures AllLocal(ss[1..], es[1..])
  {
    forall i {:trigger es[1..][i]} | 0 <= i < |es| - 1 && es[1..][i].Serve?
      ensures Valid(ss[1..][i]) && es[1..][i].j < WSQ_N && Busy(ss[1..][i]) && Pop(ss[1..][i], es[1..][i].j).local
    {
      assert es[1..][i] == es[i+1] && ss[1..][i] == ss[i+1];
    }
  }

  lemma {:induction false} StreakCredit(ss: seq<State>, es: seq<Event>)
    requires IsRun(ss, es) && AllLocal(ss, es)
    ensures Pops(es) <= Credit(ss[0])
    decreases |es|
  {
    if es != [] {
      RunTail(ss, es);
      LocalTail(ss, es);
      if es[0].Serve? { PopLocal(ss[0], es[0].j); }
      StreakCredit(ss[1..], es[1..]);
    }
  }

  /** While the queues hold work, no more than 2 * BATCH + 1 pops in a row come from
      `pending`, whatever is dispatched meanwhile. */
  lemma PendingStreak(ss: seq<State>, es: seq<Event>)
    requires IsRun(ss, es) && AllLocal(ss, es)
    ensures Pops(es) <= 2 * BATCH_SIZE + 1
  {
    StreakCredit(ss, es);
  }

  /** A pop, with nothing in the queues or in `pending`, and only then, finds nothing. */
  lemma PopNone(s: State, j: nat)
    requires Valid(s) && j < WSQ_N
    ensures Pop(s, j).r.None? <==> !Busy(s) && s.pending.None?
  {
    if Busy(s) { BusyLook(s); }
  }

  // ------------------------------------------------------------------------ the code

  class LoneWorker {
    var pending: Option<Node>
    var batch: nat
    var q: seq<seq<Node>>
    var cursor: nat
    var flag: bool
    const token: Option<Node>

    function St(): (s: State)
      reads this
    {
      State(pending, batch, q, cursor, flag, token)
    }

    constructor (t: Option<Node>)
      ensures St() == Start(t)
    {
      pending, batch, q, cursor, flag, token := None, BATCH_SIZE, [[], [], [], []], 0, true, t;
    }

    /** boc_wsq_enqueue onto sub-queue `j` */
    method WsqEnqueue(n: Node, j: nat)
      requires Valid(St()) && j < WSQ_N
      modifies this`q
      ensures St() == Feed(old(St()), j, n)
    {
      q := q[j := q[j] + [n]];
    }

    /** boc_sched_dispatch */
    method DispatchLocal(n: Node, j: nat)
      requires Valid(St()) && j < WSQ_N
      modifies this`q, this`pending
      ensures St() == Dispatch(old(St()), n, j)
    {
      if pending.Some? { WsqEnqueue(pending.value, j); }
      pending := Some(n);
    }

    /** boc_wsq_dequeue, and what its callers do with the batch and the token */
    method WsqDequeue() returns (r: Option<Node>, k: nat)
      requires Valid(St())
      modifies this`q, this`cursor, this`batch, this`flag
      ensures Popped(St(), r, false, k) == TakeQueued(old(St()))
    {
      k := 0;
      for i := 0 to WSQ_N
        invariant St() == old(St()).(cursor := cursor) && cursor == (old(cursor) + i) % WSQ_N
        invariant Look(old(St()), 0) == Look(old(St()), i)
      {
        CursorStep(old(cursor), i);
        cursor := PreInc(cursor);
        if q[cursor] != [] {
          k := cursor;
          r := Some(q[k][0]);
          q := q[k := q[k][1..]];
          batch := BATCH_SIZE;
          if r == token { flag := true; }
          return;
        }
      }
      r := None;
    }

    /** boc_sched_worker_pop_fast */
    method PopQuick() returns (r: Option<Node>, local: bool, k: nat)
      requires Valid(St())
      modifies this`pending, this`batch, this`q, this`cursor, this`flag
      ensures Popped(St(), r, local, k) == PopFast(old(St()))
    {
      if pending.Some? && batch > 0 {
        r, local, k := pending, true, 0;
        pending, batch := None, batch - 1;
        return;
      }
      r, local, k := None, false, 0;
      if flag && Busy(St()) { return; }
      r, k := WsqDequeue();
      if r.None? && pending.Some? {
        r, local := pending, true;
        pending, batch := None, BATCH_SIZE;
      }
    }

    /** boc_sched_worker_pop_slow; the token goes to sub-queue `j` */
    method PopBlocking(j: nat) returns (r: Option<Node>, local: bool, k: nat)
      requires Valid(St()) && j < WSQ_N
      modifies this`pending, this`batch, this`q, this`cursor, this`flag
      ensures Popped(St(), r, local, k) == PopSlow(old(St()), j)
    {
      if flag && Busy(St()) {
        flag := false;
        if token.Some? { WsqEnqueue(token.value, j); }
      }
      if pending.Some? {
        r, local, k := pending, true, 0;
        pending, batch := None, BATCH_SIZE;
      } else {
        local := false;
        r, k := WsqDequeue();
      }
    }

    method PopNext(j: nat) returns (r: Option<Node>, local: bool, k: nat)
      requires Valid(St()) && j < WSQ_N
      modifies this`pending, this`batch, this`q, this`cursor, this`flag
      ensures Popped(St(), r, local, k) == Pop(old(St()), j)
    {
      FastValid(St());
      r, local, k := PopQuick();
      if r.None? { r, local, k := PopBlocking(j); }
    }
  }

  lemma CursorStep(cursor: nat, i: nat)
    requires cursor < WSQ_N
    ensures PreInc((cursor + i) % WSQ_N) == SubQueue(cursor, i) == (cursor + (i + 1)) % WSQ_N
    ensures (cursor + WSQ_N) % WSQ_N == cursor
  {
  }

  lemma FastValid(s: State)
    requires Valid(s)
    ensures Valid(PopFast(s).s)
  {
  }
}
