/** The lock-free run queues, one atomic operation at a time.

    Memory is a set of pointer cells: a queue's `front` and a node's
    `next_in_queue`.  `back` points at the cell the next enqueuer writes.
    Any number of threads work on any number of queues; each has a program
    counter inside one `boc_bq_*` function, and the local variables that carry
    nodes between those functions: the node at hand, a result kept for later, a
    segment, and the worker's `pending` slot. */
module BehaviorQueue {
  import opened Wrappers

  type Node = nat
  type Qid = nat    // a worker's sub-queue, or the main pinned queue
  type Tid = nat

  /** The address of a pointer cell. */
  datatype Ref = Front(q: Qid) | NextOf(n: Node)

  datatype Segment = Segment(start: Node, end: Ref)

  /** Why a thread is inside boc_bq_acquire_front. */
  datatype Want = One | All | Over(n: Node)

  datatype Op =
    | Idle
    | ClearEnd(q: Qid, s: Segment)          // enqueue_segment: *s.end = NULL
    | SwapBack(q: Qid, s: Segment)          // b = exchange(back, s.end)
    | StoreLink(b: Ref, start: Node)        // *b = s.start
    | Probe(q: Qid, w: Want)                // acquire_front: load front
    | Claim(q: Qid, w: Want)                // exchange(front, NULL)
    | LoadNext(q: Qid, top: Node)           // dequeue: load front->next
    | StoreFront(q: Qid, top: Node, next: Node)   // front = new
    | CasBack(q: Qid, top: Node)            // CAS(back, &front->next, &front)
    | Restore(q: Qid, top: Node)            // front = top
    | SwapAll(q: Qid, top: Node)            // dequeue_all: exchange(back, &front)
    | LinkOver(q: Qid, n: Node, top: Node)  // enqueue_front: n->next = top
    | StoreOver(q: Qid, n: Node, top: Node) // front = n

  datatype Thread = Thread(op: Op, hand: Option<Node>, saved: Option<Node>, seg: Option<Segment>, pending: Option<Node>)

  /** `armed` holds the workers whose should_steal_for_fairness is set; `token`
      is each worker's token_work. */
  datatype Mem = Mem(cell: map<Ref, Option<Node>>, back: map<Qid, Ref>, threads: map<Tid, Thread>,
                     armed: set<Tid>, token: map<Tid, Node>)

  function At(m: Mem, r: Ref): (v: Option<Node>) { if r in m.cell then m.cell[r] else None }

  function Back(m: Mem, q: Qid): (b: Ref) { if q in m.back then m.back[q] else Front(q) }

  function Th(m: Mem, t: Tid): (th: Thread) {
    if t in m.threads then m.threads[t] else Thread(Idle, None, None, None, None)
  }

  function Write(m: Mem, r: Ref, v: Option<Node>): (m': Mem) { m.(cell := m.cell[r := v]) }

  function SetBack(m: Mem, q: Qid, b: Ref): (m': Mem) { m.(back := m.back[q := b]) }

  function SetTh(m: Mem, t: Tid, th: Thread): (m': Mem) { m.(threads := m.threads[t := th]) }

  function SetOp(m: Mem, t: Tid, op: Op): (m': Mem) { SetTh(m, t, Th(m, t).(op := op)) }

  /** Where boc_bq_acquire_front returns to with a front chain in hand. */
  function Acquired(q: Qid, w: Want, top: Node): (op: Op) {
    match w
    case One => LoadNext(q, top)
    case All => SwapAll(q, top)
    case Over(n) => LinkOver(q, n, top)
  }

  /** Where it returns to with NULL. */
  function NotAcquired(q: Qid, w: Want): (op: Op) {
    match w
    case One => Idle
    case All => Idle
    case Over(n) => ClearEnd(q, Segment(n, NextOf(n)))
  }

  /** The next atomic operation of thread `t`. */
  function RunStep(m: Mem, t: Tid): (m': Mem) {
    var th := Th(m, t);
    match th.op
    case Idle => m
    case ClearEnd(q, s) => SetOp(Write(m, s.end, None), t, SwapBack(q, s))
    case SwapBack(q, s) => SetOp(SetBack(m, q, s.end), t, StoreLink(Back(m, q), s.start))
    case StoreLink(b, start) => SetOp(Write(m, b, Some(start)), t, Idle)
    case Probe(q, w) => SetOp(m, t, if At(m, Front(q)).None? then NotAcquired(q, w) else Claim(q, w))
    case Claim(q, w) =>
      var top := At(m, Front(q));
      SetOp(Write(m, Front(q), None), t, if top.None? then NotAcquired(q, w) else Acquired(q, w, top.value))
    case LoadNext(q, top) =>
      SetOp(m, t, if At(m, NextOf(top)).None? then CasBack(q, top) else StoreFront(q, top, At(m, NextOf(top)).value))
    case StoreFront(q, top, next) =>
      SetTh(Write(m, Front(q), Some(next)), t, th.(op := Idle, hand := Some(top)))
    case CasBack(q, top) =>
      if Back(m, q) == NextOf(top) then SetTh(SetBack(m, q, Front(q)), t, th.(op := Idle, hand := Some(top)))
      else SetOp(m, t, Restore(q, top))
    case Restore(q, top) => SetOp(Write(m, Front(q), Some(top)), t, Idle)
    case SwapAll(q, top) =>
      SetTh(SetBack(m, q, Front(q)), t, th.(op := Idle, seg := Some(Segment(top, Back(m, q)))))
    case LinkOver(q, n, top) => SetOp(Write(m, NextOf(n), Some(top)), t, StoreOver(q, n, top))
    case StoreOver(q, n, top) => SetOp(Write(m, Front(q), Some(n)), t, Idle)
  }

  datatype Step =
    | Run(t: Tid)                        // the next operation of a queue function
    | Produce(t: Tid, n: Node, junk: Option<Node>)  // a behavior is given to dispatch
    | Enqueue(t: Tid, q: Qid)            // call boc_bq_enqueue on the node in hand
    | EnqueuePending(t: Tid, q: Qid)     // ... on the node in `pending`
    | EnqueueFront(t: Tid, q: Qid)       // call boc_bq_enqueue_front
    | EnqueueSegment(t: Tid, q: Qid)     // call boc_bq_enqueue_segment
    | Dequeue(t: Tid, q: Qid)            // call boc_bq_dequeue
    | DequeueAll(t: Tid, q: Qid)         // call boc_bq_dequeue_all
    | TakeOne(t: Tid)                    // boc_bq_segment_take_one
    | TakeLast(t: Tid)                   // the one-node segment is itself returned
    | Stash(t: Tid)                      // pending = n
    | Unstash(t: Tid)                    // n = pending; pending = NULL
    | Save(t: Tid)                       // keep a result while spreading the rest
    | Reload(t: Tid)
    | Deliver(t: Tid)                    // the node in hand is handed to a runner
    | Arm(t: Tid, w: Tid)                // the node in hand was worker w's token
    | Rearm(t: Tid, q: Qid)              // t clears its flag and re-enqueues its token

  /** What the code is at, and has in its local variables, when it takes a step.
      Only the choice of fresh node names refers to `known`. */
  predicate CanStep(m: Mem, known: set<Node>, a: Step) {
    var th := Th(m, a.t);
    match a
    case Run(_) => !th.op.Idle?
    case _ => th.op.Idle? && match a
      case Produce(_, n, _) => th.hand.None? && n !in known
      case Enqueue(_, _) => th.hand.Some?
      case EnqueuePending(_, _) => th.pending.Some?
      case EnqueueFront(_, _) => th.hand.Some?
      case EnqueueSegment(_, _) => th.seg.Some?
      case Dequeue(_, _) => th.hand.None?
      case DequeueAll(_, _) => th.seg.None?
      case TakeOne(_) => th.hand.None? && th.seg.Some?
      case TakeLast(_) => th.hand.None? && th.seg.Some? && th.seg.value.end == NextOf(th.seg.value.start)
      case Stash(_) => th.hand.Some? && th.pending.None?
      case Unstash(_) => th.hand.None? && th.pending.Some?
      case Save(_) => th.hand.Some? && th.saved.None?
      case Reload(_) => th.hand.None? && th.saved.Some?
      case Deliver(_) => th.hand.Some? && forall w :: w in m.token ==> m.token[w] != th.hand.value
      case Arm(_, w) => th.hand.Some? && w in m.token && m.token[w] == th.hand.value
      case Rearm(_, _) => a.t in m.armed
  }

  function Single(n: Node): (s: Segment) { Segment(n, NextOf(n)) }

  function Next(m: Mem, a: Step, known: set<Node>): (m': Mem)
    requires CanStep(m, known, a)
  {
    var t, th := a.t, Th(m, a.t);
    match a
    case Run(_) => RunStep(m, t)
    case Produce(_, n, junk) => SetTh(Write(m, NextOf(n), junk), t, th.(hand := Some(n)))
    case Enqueue(_, q) => SetTh(m, t, th.(op := ClearEnd(q, Single(th.hand.value)), hand := None))
    case EnqueuePending(_, q) => SetTh(m, t, th.(op := ClearEnd(q, Single(th.pending.value)), pending := None))
    case EnqueueFront(_, q) => SetTh(m, t, th.(op := Probe(q, Over(th.hand.value)), hand := None))
    case EnqueueSegment(_, q) => SetTh(m, t, th.(op := ClearEnd(q, th.seg.value), seg := None))
    case Dequeue(_, q) => SetOp(m, t, Probe(q, One))
    case DequeueAll(_, q) => SetOp(m, t, Probe(q, All))
    case TakeOne(_) =>
      var s := th.seg.value;
      var next := At(m, NextOf(s.start));
      if next.None? then m else SetTh(m, t, th.(hand := Some(s.start), seg := Some(s.(start := next.value))))
    case TakeLast(_) => SetTh(m, t, th.(hand := Some(th.seg.value.start), seg := None))
    case Stash(_) => SetTh(m, t, th.(pending := th.hand, hand := None))
    case Unstash(_) => SetTh(m, t, th.(hand := th.pending, pending := None))
    case Save(_) => SetTh(m, t, th.(saved := th.hand, hand := None))
    case Reload(_) => SetTh(m, t, th.(hand := th.saved, saved := None))
    case Deliver(_) => SetTh(m, t, th.(hand := None))
    case Arm(_, w) => SetTh(m, t, th.(hand := None)).(armed := m.armed + {w})
    case Rearm(_, q) =>
      var m' := m.(armed := m.armed - {t});
      SetOp(m', t, if t in m.token then ClearEnd(q, Single(m.token[t])) else Idle)
  }
}
