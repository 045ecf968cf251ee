/** Two-phase scheduling of behaviors over cowns, one atomic step at a time.

    Every behavior is worked on by at most two threads: the one inside
    `whencall` that links its requests, and the one that runs it and releases
    them.  `sched` and `run` are their program counters; the position inside
    one request is kept with that request (see RequestQueue).  `keys` is
    the set of cowns in `order`; `slot`, `waiting`, `refs`, `commit` and `log`
    are history. */
module CownProtocol {
  import opened Wrappers
  import opened RequestQueue

  type Cown = nat   // a cown's address; requests are sorted by it

  datatype Sched =
    | Linking(at: nat)     // phase 1, working on request `at`
    | Finishing(at: nat)   // phase 2, about to set `scheduled` of request `at`
    | Finalize             // about to drop the last count
    | AnnounceSelf         // count hit 0 here: about to BEHAVIOR_INCREF
    | EnqueueSelf          // about to put the behavior on a run queue
    | DropCapsule          // about to drop the scheduling capsule's reference
    | Returned

  datatype Run =
    | Waiting
    | Claimed(via: Option<Cown>)   // count hit 0; None: in its own scheduler
    | Counted(via: Option<Cown>)   // and the run queue's reference is taken
    | Queued
    | Running
    | Releasing(at: nat)
    | DropHold             // about to drop the terminator hold
    | DropRun              // about to drop the run queue's reference
    | Finished

  datatype Behavior = Behavior(
    order: seq<Cown>, keys: set<Cown>, caller: Option<Bid>, sched: Sched, run: Run,
    count: int, rc: int, frees: nat, dispatches: nat,
    slot: map<Cown, nat>, waiting: set<Cown>, refs: set<Cown>, commit: Option<nat>)

  datatype State = State(beh: seq<Behavior>, cown: map<Cown, Queue>, log: seq<Bid>, terminator: int)

  function QueueOf(s: State, c: Cown): (q: Queue) {
    if c in s.cown then s.cown[c] else Empty
  }

  // ------------------------------------------------------------------- steps

  predicate Sorted(order: seq<Cown>) {
    forall i, j :: 0 <= i < j < |order| ==> order[i] < order[j]
  }

  predicate CanSpawn(s: State, order: seq<Cown>, caller: Option<Bid>) {
    && Sorted(order) && order != []
    && (caller.Some? ==> caller.value < |s.beh| && s.beh[caller.value].run.Running?)
  }

  function KeySet(order: seq<Cown>): (keys: set<Cown>) { set c | c in order }

  /** A fresh capsule with its sorted requests, and its terminator hold. */
  function Spawn(s: State, order: seq<Cown>, caller: Option<Bid>): (s': State) {
    var b := Behavior(order, KeySet(order), caller, Linking(0), Waiting, |order| + 1, 1, 0, 0, map[], KeySet(order), {}, None);
    s.(beh := s.beh + [b], terminator := s.terminator + 1)
  }

  function Put(s: State, b: Bid, B: Behavior): (s': State)
    requires b < |s.beh|
  {
    s.(beh := s.beh[b := B])
  }

  function PutQ(s: State, c: Cown, q: Queue): (s': State) {
    s.(cown := s.cown[c := q])
  }

  /** The index of `b`'s request on its `k`-th cown. */
  predicate HasSlot(s: State, b: Bid, k: nat) {
    && b < |s.beh| && k < |s.beh[b].order|
    && s.beh[b].order[k] in s.beh[b].slot
    && s.beh[b].slot[s.beh[b].order[k]] < |QueueOf(s, s.beh[b].order[k]).reqs|
  }

  function NextLink(s: State, b: Bid, k: nat): (s': State)
    requires b < |s.beh|
  {
    var B := s.beh[b];
    if k + 1 < |B.order| then Put(s, b, B.(sched := Linking(k + 1)))
    else Put(s, b, B.(sched := Finishing(0), commit := Some(|s.log|))).(log := s.log + [b])
  }

  predicate CanLink(s: State, b: Bid, k: nat) {
    && b < |s.beh| && k < |s.beh[b].order|
    && (s.beh[b].order[k] in s.beh[b].slot ==>
          && HasSlot(s, b, k)
          && var q := QueueOf(s, s.beh[b].order[k]);
             var i := s.beh[b].slot[s.beh[b].order[k]];
             && (q.reqs[i].link.ResolveSelf? || q.reqs[i].link.CountSelf? || q.reqs[i].link.Linked? || HasPrev(q, i))
             && (q.reqs[i].link.AwaitPrev? ==> q.reqs[q.reqs[i].prev.value].scheduled))
  }

  /** One atomic step of request_start_enqueue_inner, or of the loop around it. */
  function LinkStep(s: State, b: Bid, k: nat): (s': State)
    requires CanLink(s, b, k)
  {
    var B := s.beh[b];
    var c := B.order[k];
    var q := QueueOf(s, c);
    if c !in B.slot then
      Put(PutQ(s, c, Exchange(q, b)), b, B.(slot := B.slot[c := |q.reqs|]))
    else
      var i := B.slot[c];
      match q.reqs[i].link
      case ResolveSelf =>
        Put(PutQ(s, c, Move(q, i, Linked)), b, B.(count := B.count - 1, waiting := B.waiting - {c}))
      case HoldPrev => PutQ(s, c, HoldPrevRef(q, i))
      case PublishNext => PutQ(s, c, StoreNext(q, i))
      case CountSelf =>
        Put(PutQ(s, c, Move(q, i, AwaitPrev)), b, B.(rc := B.rc + 1, refs := B.refs + {c}))
      case AwaitPrev => PutQ(s, c, Move(q, i, DropPrev))
      case DropPrev => PutQ(s, c, DropPrevRef(q, i))
      case ReapPrev => Put(PutQ(s, c, FreePrev(q, i)), b, Unref(B, c))
      case Linked => NextLink(s, b, k)
  }

  /** Drop the reference the predecessor on `c` held through its `next`. */
  function Unref(B: Behavior, c: Cown): (B': Behavior) {
    Drop(B.(refs := B.refs - {c}))
  }

  /** BEHAVIOR_DECREF, freeing the behavior on the last reference. */
  function Drop(B: Behavior): (B': Behavior) {
    B.(rc := B.rc - 1, frees := if B.rc == 1 then B.frees + 1 else B.frees)
  }

  /** behavior_resolve_one as seen by the behavior that is handed cown `c`. */
  function Granted(N: Behavior, c: Cown): (N': Behavior) {
    N.(count := N.count - 1, waiting := N.waiting - {c}, run := if N.count == 1 then Claimed(Some(c)) else N.run)
  }

  predicate CanSchedule(s: State, b: Bid) {
    && b < |s.beh|
    && match s.beh[b].sched
       case Linking(k) => CanLink(s, b, k)
       case Finishing(k) => HasSlot(s, b, k)
       case Returned => false
       case _ => true
  }

  /** One atomic step of the thread scheduling `b`. */
  function ScheduleStep(s: State, b: Bid): (s': State)
    requires CanSchedule(s, b)
  {
    var B := s.beh[b];
    match B.sched
    case Linking(k) => LinkStep(s, b, k)
    case Finishing(k) =>
      var c := B.order[k];
      Put(PutQ(s, c, SetScheduled(QueueOf(s, c), B.slot[c])), b,
          B.(sched := if k + 1 < |B.order| then Finishing(k + 1) else Finalize))
    case Finalize =>
      Put(s, b, if B.count == 1 then B.(count := 0, sched := AnnounceSelf, run := Claimed(None))
                else B.(count := B.count - 1, sched := DropCapsule))
    case AnnounceSelf => Put(s, b, B.(rc := B.rc + 1, sched := EnqueueSelf, run := Counted(None)))
    case EnqueueSelf => Put(s, b, B.(dispatches := B.dispatches + 1, sched := DropCapsule, run := Queued))
    case DropCapsule => Put(s, b, Drop(B).(sched := Returned))
    case Returned => s
  }

  function NextRelease(s: State, b: Bid, k: nat): (s': State)
    requires b < |s.beh|
  {
    var B := s.beh[b];
    Put(s, b, B.(run := if k + 1 < |B.order| then Releasing(k + 1) else DropHold))
  }

  predicate CanRelease(s: State, b: Bid, k: nat) {
    && HasSlot(s, b, k)
    && var q := QueueOf(s, s.beh[b].order[k]);
       var i := s.beh[b].slot[s.beh[b].order[k]];
       var r := q.reqs[i];
       && (r.rel.AwaitNext? ==> r.next.Some?)
       && (r.rel.HandOver? || r.rel.Announce? || r.rel.Enqueue? ==> r.rel.to < |s.beh| && r.rel.to != b)
       && (r.rel.ReapOwn? && r.next.Some? ==> r.next.value < |s.beh| && r.next.value != b)
  }

  /** One atomic step of request_release_inner, of the request_decref after it,
      or of the loop around both. */
  function ReleaseStep(s: State, b: Bid, k: nat): (s': State)
    requires CanRelease(s, b, k)
  {
    var c := s.beh[b].order[k];
    var q := QueueOf(s, c);
    var i := s.beh[b].slot[c];
    var r := q.reqs[i];
    match r.rel
    case Held => PutQ(s, c, FirstLoad(q, i))
    case CasLast => PutQ(s, c, CasRelease(q, i))
    case AwaitNext => PutQ(s, c, Turn(q, i, HandOver(r.next.value)))
    case HandOver(n) =>
      Put(PutQ(s, c, PassOn(q, i, s.beh[n].count == 1)), n, Granted(s.beh[n], c))
    case Announce(n) =>
      var N := s.beh[n];
      Put(PutQ(s, c, Turn(q, i, Enqueue(n))), n, N.(rc := N.rc + 1, run := Counted(Some(c))))
    case Enqueue(n) =>
      var N := s.beh[n];
      Put(PutQ(s, c, Turn(q, i, DropOwn)), n, N.(dispatches := N.dispatches + 1, run := Queued))
    case DropOwn => PutQ(s, c, DropOwnRef(q, i))
    case ReapOwn =>
      var s' := PutQ(s, c, FreeOwn(q, i));
      if r.next.None? then s' else Put(s', r.next.value, Unref(s.beh[r.next.value], c))
    case Gone => NextRelease(s, b, k)
  }

  /** Nobody is still inside a `whencall` made from the body of `b`. */
  predicate BodyIdle(s: State, b: Bid) {
    forall x :: 0 <= x < |s.beh| && s.beh[x].caller == Some(b) ==> s.beh[x].sched.Returned?
  }

  predicate CanRun(s: State, b: Bid) {
    && b < |s.beh|
    && match s.beh[b].run
       case Queued => true
       case Running => BodyIdle(s, b)
       case Releasing(k) => CanRelease(s, b, k)
       case DropHold => true
       case DropRun => true
       case _ => false
  }

  /** One atomic step of the thread running `b`. */
  function RunStep(s: State, b: Bid): (s': State)
    requires CanRun(s, b)
  {
    var B := s.beh[b];
    match B.run
    case Queued => Put(s, b, B.(run := Running))
    case Running => Put(s, b, B.(run := Releasing(0)))
    case Releasing(k) => ReleaseStep(s, b, k)
    case DropHold => Put(s, b, B.(run := DropRun)).(terminator := s.terminator - 1)
    case DropRun => Put(s, b, Drop(B).(run := Finished))
    case _ => s
  }

  datatype Step = DoSpawn(order: seq<Cown>, caller: Option<Bid>) | DoSchedule(b: Bid) | DoRun(b: Bid)

  predicate Enabled(s: State, t: Step) {
    match t
    case DoSpawn(order, caller) => CanSpawn(s, order, caller)
    case DoSchedule(b) => CanSchedule(s, b)
    case DoRun(b) => CanRun(s, b)
  }

  function Next(s: State, t: Step): (s': State)
    requires Enabled(s, t)
  {
    match t
    case DoSpawn(order, caller) => Spawn(s, order, caller)
    case DoSchedule(b) => ScheduleStep(s, b)
    case DoRun(b) => RunStep(s, b)
  }

  const Init := State([], map[], [], 0)
}
