/** Where every node is, and the invariant that ties it to the pointers. */
module QueueHistory {
  import opened Wrappers
  import opened BehaviorQueue

  /** Sub(q): in queue q, by order of the back exchange.  Held(t): in the segment
      variable of t.  Flight(t): the argument of the enqueue t is inside.
      Runner: handed out.  Armed(w): w's token, waiting to be re-enqueued. */
  datatype Place = Sub(q: Qid) | Held(t: Tid) | Flight(t: Tid) | Hand(t: Tid) | Saved(t: Tid) | Pending(t: Tid) | Armed(t: Tid) | Runner

  /** `writer`: who is about to store into a cell, and what.  `owner`: who took
      a queue's front. */
  datatype History = History(items: map<Place, seq<Node>>, home: map<Node, Place>,
                             writer: map<Ref, (Tid, Node)>, owner: map<Qid, Tid>)

  datatype State = State(m: Mem, h: History)

  function Items(h: History, p: Place): (xs: seq<Node>) { if p in h.items then h.items[p] else [] }

  function Rehome(home: map<Node, Place>, from: Place, to: Place): (r: map<Node, Place>) {
    map n | n in home :: if home[n] == from then to else home[n]
  }

  /** Everything in `from` goes behind what is in `to`. */
  function MoveAll(h: History, from: Place, to: Place): (h': History) {
    h.(items := h.items[to := Items(h, to) + Items(h, from)][from := []], home := Rehome(h.home, from, to))
  }

  /** The first node of `from` goes behind what is in `to`. */
  function MoveHead(h: History, from: Place, to: Place): (h': History)
    requires Items(h, from) != []
  {
    var x := Items(h, from)[0];
    h.(items := h.items[to := Items(h, to) + [x]][from := Items(h, from)[1..]], home := h.home[x := to])
  }

  /** Everything in `from` goes before what is in `to`. */
  function MoveOver(h: History, from: Place, to: Place): (h': History) {
    h.(items := h.items[to := Items(h, from) + Items(h, to)][from := []], home := Rehome(h.home, from, to))
  }

  function Own(h: History, q: Qid, t: Tid): (h': History) { h.(owner := h.owner[q := t]) }

  function Disown(h: History, q: Qid): (h': History) { h.(owner := h.owner - {q}) }

  predicate HeadKnown(h: History, p: Place) { Items(h, p) != [] }

  /** How a queue operation of thread `t` moves nodes. */
  function RunHistory(m: Mem, h: History, t: Tid): (h': History)
    requires match Th(m, t).op
             case StoreFront(q, _, _) => HeadKnown(h, Sub(q))
             case CasBack(q, _) => HeadKnown(h, Sub(q))
             case _ => true
  {
    match Th(m, t).op
    case SwapBack(q, s) => MoveAll(h.(writer := h.writer[Back(m, q) := (t, s.start)]), Flight(t), Sub(q))
    case StoreLink(b, _) => h.(writer := h.writer - {b})
    case Claim(q, w) => if At(m, Front(q)).None? then h else Own(h, q, t)
    case StoreFront(q, _, _) => Disown(MoveHead(h, Sub(q), Hand(t)), q)
    case CasBack(q, top) => if Back(m, q) == NextOf(top) then Disown(MoveHead(h, Sub(q), Hand(t)), q) else h
    case Restore(q, _) => Disown(h, q)
    case SwapAll(q, _) => Disown(MoveAll(h, Sub(q), Held(t)), q)
    case StoreOver(q, _, _) => Disown(MoveOver(h, Flight(t), Sub(q)), q)
    case _ => h
  }

  predicate CanRecord(m: Mem, h: History, a: Step) {
    match a
    case Run(t) =>
      (match Th(m, t).op
       case StoreFront(q, _, _) => HeadKnown(h, Sub(q))
       case CasBack(q, _) => HeadKnown(h, Sub(q))
       case _ => true)
    case TakeOne(t) => Th(m, t).seg.Some? && (At(m, NextOf(Th(m, t).seg.value.start)).Some? ==> HeadKnown(h, Held(t)))
    case _ => true
  }

  function Record(m: Mem, h: History, a: Step): (h': History)
    requires CanRecord(m, h, a)
  {
    match a
    case Run(t) => RunHistory(m, h, t)
    case Produce(t, n, _) => h.(items := h.items[Hand(t) := [n]], home := h.home[n := Hand(t)])
    case Enqueue(t, _) => MoveAll(h, Hand(t), Flight(t))
    case EnqueuePending(t, _) => MoveAll(h, Pending(t), Flight(t))
    case EnqueueFront(t, _) => MoveAll(h, Hand(t), Flight(t))
    case EnqueueSegment(t, _) => MoveAll(h, Held(t), Flight(t))
    case Dequeue(_, _) => h
    case DequeueAll(_, _) => h
    case TakeOne(t) => if At(m, NextOf(Th(m, t).seg.value.start)).None? then h else MoveHead(h, Held(t), Hand(t))
    case TakeLast(t) => MoveAll(h, Held(t), Hand(t))
    case Stash(t) => MoveAll(h, Hand(t), Pending(t))
    case Unstash(t) => MoveAll(h, Pending(t), Hand(t))
    case Save(t) => MoveAll(h, Hand(t), Saved(t))
    case Reload(t) => MoveAll(h, Saved(t), Hand(t))
    case Deliver(t) => MoveAll(h, Hand(t), Runner)
    case Arm(t, w) => MoveAll(h, Hand(t), Armed(w))
    case Rearm(t, _) => MoveAll(h, Armed(t), Flight(t))
  }

  predicate Enabled(s: State, a: Step) { CanStep(s.m, s.h.home.Keys, a) && CanRecord(s.m, s.h, a) }

  function After(s: State, a: Step): (s': State)
    requires Enabled(s, a)
  {
    State(Next(s.m, a, s.h.home.Keys), Record(s.m, s.h, a))
  }

  // ---------------------------------------------------------------- invariant

  /** What a cell holds once the store on its way has landed. */
  function Due(s: State, r: Ref): (v: Option<Node>) {
    if r in s.h.writer then Some(s.h.writer[r].1) else At(s.m, r)
  }

  function Last(xs: seq<Node>): (n: Node)
    requires xs != []
  {
    xs[|xs|-1]
  }

  function SegmentOf(xs: seq<Node>): (s: Segment)
    requires xs != []
  {
    Segment(xs[0], NextOf(Last(xs)))
  }

  function Few(o: Option<Node>): (xs: seq<Node>) { if o.None? then [] else [o.value] }

  ghost predicate HomeOK(h: History, p: Place) {
    var xs := Items(h, p);
    && (forall i :: 0 <= i < |xs| ==> xs[i] in h.home && h.home[xs[i]] == p)
    && (forall i, j :: 0 <= i < j < |xs| ==> xs[i] != xs[j])
  }

  ghost predicate HomesOK(h: History) {
    && (forall p {:trigger HomeOK(h, p)} :: HomeOK(h, p))
    && (forall n {:trigger h.home[n]} :: n in h.home ==> n in Items(h, h.home[n]))
  }

  predicate WriterOK(s: State, r: Ref)
    requires r in s.h.writer
  {
    && At(s.m, r).None? && Th(s.m, s.h.writer[r].0).op == StoreLink(r, s.h.writer[r].1)
    && (r.NextOf? ==> r.n in s.h.home)
  }

  ghost predicate ChainOK(s: State, p: Place) {
    var xs := Items(s.h, p);
    p != Runner ==> forall i {:trigger xs[i]} :: 0 <= i < |xs| - 1 ==> Due(s, NextOf(xs[i])) == Some(xs[i+1])
  }

  /** Nothing is about to be stored into the last node of a place, and in a
      queue or a segment its next is NULL. */
  ghost predicate EndOK(s: State, p: Place) {
    var xs := Items(s.h, p);
    && (p == Runner ==> forall i :: 0 <= i < |xs| ==> NextOf(xs[i]) !in s.h.writer)
    && (xs != [] ==>
          && NextOf(Last(xs)) !in s.h.writer
          && (p.Sub? || p.Held? || (p.Flight? && Th(s.m, p.t).op.SwapBack?) ==> Due(s, NextOf(Last(xs))).None?))
  }

  predicate QueueOK(s: State, q: Qid) {
    var xs := Items(s.h, Sub(q));
    && Back(s.m, q) == (if xs == [] then Front(q) else NextOf(Last(xs)))
    && Due(s, Front(q)) == (if xs == [] || q in s.h.owner then None else Some(xs[0]))
    && (q in s.h.owner ==> xs != [] && OwnsFront(Th(s.m, s.h.owner[q]).op) && Th(s.m, s.h.owner[q]).op.q == q)
  }

  predicate OwnsFront(op: Op) {
    op.LoadNext? || op.StoreFront? || op.CasBack? || op.Restore? || op.SwapAll? || op.LinkOver? || op.StoreOver?
  }

  predicate InFlight(op: Op) {
    op.ClearEnd? || op.SwapBack? || op.LinkOver? || op.StoreOver? || ((op.Probe? || op.Claim?) && op.w.Over?)
  }

  predicate FlightOK(op: Op, xs: seq<Node>) {
    if !InFlight(op) then xs == []
    else if op.ClearEnd? || op.SwapBack? then xs != [] && op.s == SegmentOf(xs)
    else if op.Probe? || op.Claim? then xs == [op.w.n]
    else xs == [op.n]
  }

  predicate OpOK(s: State, t: Tid) {
    var op := Th(s.m, t).op;
    && (op.StoreLink? ==> op.b in s.h.writer && s.h.writer[op.b] == (t, op.start))
    && (OwnsFront(op) ==>
          && op.q in s.h.owner && s.h.owner[op.q] == t
          && Items(s.h, Sub(op.q)) != [] && op.top == Items(s.h, Sub(op.q))[0])
    && (op.StoreFront? ==>
          |Items(s.h, Sub(op.q))| > 1 && op.next == Items(s.h, Sub(op.q))[1] && NextOf(op.top) !in s.h.writer)
    && (op.StoreOver? ==> Due(s, NextOf(op.n)) == Some(op.top))
    && (op.Probe? || op.Claim? || OwnsFront(op) ==>
          && (TakesOne(op) ==> Th(s.m, t).hand.None?)
          && (TakesAll(op) ==> Th(s.m, t).seg.None?))
  }

  predicate TakesOne(op: Op) {
    op.LoadNext? || op.StoreFront? || op.CasBack? || op.Restore? || ((op.Probe? || op.Claim?) && op.w.One?)
  }

  predicate TakesAll(op: Op) { op.SwapAll? || ((op.Probe? || op.Claim?) && op.w.All?) }

  predicate LocalsOK(s: State, t: Tid) {
    var th := Th(s.m, t);
    && Items(s.h, Hand(t)) == Few(th.hand)
    && Items(s.h, Saved(t)) == Few(th.saved)
    && Items(s.h, Pending(t)) == Few(th.pending)
    && th.seg == (if Items(s.h, Held(t)) == [] then None else Some(SegmentOf(Items(s.h, Held(t)))))
    && FlightOK(th.op, Items(s.h, Flight(t)))
  }

  ghost predicate ThreadOK(s: State, t: Tid) { OpOK(s, t) && LocalsOK(s, t) }

  /** A worker's token is none but its own, never counts as handed out, and
      waits for its worker exactly while that worker's flag is set. */
  ghost predicate TokensOK(s: State) {
    && (forall v, w :: v in s.m.token && w in s.m.token && s.m.token[v] == s.m.token[w] ==> v == w)
    && (forall w :: w in s.m.token ==> s.m.token[w] in s.h.home && s.h.home[s.m.token[w]] != Runner)
    && (forall w {:trigger Items(s.h, Armed(w))} ::
          Items(s.h, Armed(w)) == if w in s.m.armed && w in s.m.token then [s.m.token[w]] else [])
  }

  ghost predicate Inv(s: State) {
    && HomesOK(s.h)
    && (forall r {:trigger WriterOK(s, r)} :: r in s.h.writer ==> WriterOK(s, r))
    && (forall p {:trigger ChainOK(s, p)} :: ChainOK(s, p))
    && (forall p {:trigger EndOK(s, p)} :: EndOK(s, p))
    && (forall q {:trigger QueueOK(s, q)} :: QueueOK(s, q))
    && (forall t {:trigger ThreadOK(s, t)} :: ThreadOK(s, t))
    && TokensOK(s)
  }
}
