/** What the pointers implement: every cown is a FIFO queue of behaviors. */
module CownSpec {
  import opened RequestQueue
  import opened CownProtocol

  datatype Job = Job(order: seq<Cown>, joined: nat, closed: bool, started: bool)

  datatype Spec = Spec(fifo: imap<Cown, seq<Bid>>, jobs: seq<Job>)

  datatype Event =
    | Quiet
    | Arrive(order: seq<Cown>)
    | Join(b: Bid)              // b enters the queue of its next cown
    | Close(b: Bid)             // b has entered them all
    | Start(b: Bid)             // b is dispatched
    | Leave(b: Bid, c: Cown)    // b gives c up

  ghost predicate Total(p: Spec) { forall c: Cown :: c in p.fifo }

  /** A behavior may be dispatched once, when it has entered all its queues and
      heads every one of them; a cown is given up only by the behavior that holds it. */
  ghost predicate Can(p: Spec, e: Event)
    requires Total(p)
  {
    match e
    case Quiet => true
    case Arrive(order) => Sorted(order)
    case Join(b) => b < |p.jobs| && p.jobs[b].joined < |p.jobs[b].order| && !p.jobs[b].closed
    case Close(b) => b < |p.jobs| && p.jobs[b].joined == |p.jobs[b].order| && !p.jobs[b].closed
    case Start(b) =>
      && b < |p.jobs| && p.jobs[b].closed && !p.jobs[b].started
      && forall c :: c in p.jobs[b].order ==> p.fifo[c] != [] && p.fifo[c][0] == b
    case Leave(b, c) => b < |p.jobs| && p.jobs[b].started && p.fifo[c] != [] && p.fifo[c][0] == b
  }

  ghost function Do(p: Spec, e: Event): (p': Spec)
    requires Total(p) && Can(p, e)
  {
    match e
    case Quiet => p
    case Arrive(order) => p.(jobs := p.jobs + [Job(order, 0, false, false)])
    case Join(b) =>
      var J := p.jobs[b];
      var c := J.order[J.joined];
      p.(fifo := p.fifo[c := p.fifo[c] + [b]], jobs := p.jobs[b := J.(joined := J.joined + 1)])
    case Close(b) => p.(jobs := p.jobs[b := p.jobs[b].(closed := true)])
    case Start(b) => p.(jobs := p.jobs[b := p.jobs[b].(started := true)])
    case Leave(b, c) => p.(fifo := p.fifo[c := p.fifo[c][1..]])
  }
}

/** The pointer protocol refines the FIFO queues, step by step. */
module CownRefinement {
  import opened Wrappers
  import opened RequestQueue
  import opened CownProtocol
  import opened CownInvariant
  import opened CownSteps
  import opened CownRelease
  import opened CownTheorems
  import opened CownShape
  import opened CownSpec

  function Owners(q: Queue): (bs: seq<Bid>)
    requires q.head <= |q.reqs|
  {
    seq<Bid>(|q.reqs| - q.head, i requires 0 <= i < |q.reqs| - q.head => q.reqs[q.head + i].owner)
  }

  function Joined(B: Behavior): (n: nat) {
    if B.sched.Linking? && B.sched.at < |B.order| then
      B.sched.at + (if B.order[B.sched.at] in B.slot then 1 else 0)
    else |B.order|
  }

  function JobOf(B: Behavior): (j: Job) {
    Job(B.order, Joined(B), !Pending(B.sched), B.dispatches > 0)
  }

  ghost function Abs(s: State): (p: Spec)
    requires QueuesOK(s)
    ensures Total(p)
  {
    Spec(imap c: Cown | true :: (assert QueueOK(QueueOf(s, c)); Owners(QueueOf(s, c))),
         seq(|s.beh|, i requires 0 <= i < |s.beh| => JobOf(s.beh[i])))
  }

  /** The event an atomic step stands for. */
  function EventOf(s: State, t: Step): (e: Event)
    requires Enabled(s, t)
  {
    match t
    case DoSpawn(order, _) => Arrive(order)
    case DoSchedule(b) =>
      var B := s.beh[b];
      if B.sched.Linking? then (if B.order[B.sched.at] in B.slot then Quiet else Join(b))
      else if B.sched.Finalize? then Close(b)
      else if B.sched.EnqueueSelf? then Start(b)
      else Quiet
    case DoRun(b) =>
      var B := s.beh[b];
      if B.run.Releasing? then
        var c := B.order[B.run.at];
        var r := ReqOf(s, b, B.run.at);
        if r.rel.HandOver? || (r.rel.CasLast? && QueueOf(s, c).last == Some(B.slot[c])) then Leave(b, c)
        else if r.rel.Enqueue? then Start(r.rel.to)
        else Quiet
      else Quiet
  }

  lemma SameFifo(s: State, s': State, c: Cown)
    requires QueuesOK(s) && QueuesOK(s')
    requires forall d :: d != c ==> QueueOf(s', d) == QueueOf(s, d)
    requires var q, q' := QueueOf(s, c), QueueOf(s', c);
      |q'.reqs| == |q.reqs| && q'.head == q.head && forall j :: 0 <= j < |q.reqs| ==> q'.reqs[j].owner == q.reqs[j].owner
    ensures Abs(s').fifo == Abs(s).fifo
  {
    assert QueueOK(QueueOf(s, c)) && QueueOK(QueueOf(s', c));
    assert Owners(QueueOf(s', c)) == Owners(QueueOf(s, c));
  }

  lemma FifoUpdate(s: State, s': State, c: Cown)
    requires QueuesOK(s) && QueuesOK(s')
    requires forall d :: d != c ==> QueueOf(s', d) == QueueOf(s, d)
    ensures QueueOf(s', c).head <= |QueueOf(s', c).reqs|
    ensures Abs(s').fifo == Abs(s).fifo[c := Owners(QueueOf(s', c))]
  {
    assert QueueOK(QueueOf(s', c));
  }

  lemma JobsUpdate(s: State, s': State, b: Bid)
    requires QueuesOK(s) && QueuesOK(s') && b < |s.beh| == |s'.beh| && s'.beh == s.beh[b := s'.beh[b]]
    ensures Abs(s').jobs == Abs(s).jobs[b := JobOf(s'.beh[b])]
  {
  }

  lemma OwnersExchange(q: Queue, b: Bid)
    requires QueueOK(q)
    ensures QueueOK(Exchange(q, b)) && Owners(Exchange(q, b)) == Owners(q) + [b]
  {
    ExchangeOK(q, b);
  }

  lemma SameJobs(s: State, s': State, b: Bid)
    requires QueuesOK(s) && QueuesOK(s') && b < |s.beh| == |s'.beh| && s'.beh == s.beh[b := s'.beh[b]]
    requires JobOf(s'.beh[b]) == JobOf(s.beh[b])
    ensures Abs(s').jobs == Abs(s).jobs
  {
  }

  ghost predicate Refines(s: State, t: Step)
    requires Inv(s) && Enabled(s, t)
  {
    NextInv(s, t);
    Can(Abs(s), EventOf(s, t)) && Abs(Next(s, t)) == Do(Abs(s), EventOf(s, t))
  }

  lemma RefineSpawn(s: State, order: seq<Cown>, caller: Option<Bid>)
    requires Inv(s) && CanSpawn(s, order, caller)
    ensures Refines(s, DoSpawn(order, caller))
  {
    var s' := Spawn(s, order, caller);
    NextInv(s, DoSpawn(order, caller));
    assert forall c :: QueueOf(s', c) == QueueOf(s, c);
    assert Abs(s').fifo == Abs(s).fifo;
  }

  /** A step inside a request that changes no owner, no head and no job. */
  lemma RefineQuiet(s: State, t: Step, b: Bid, c: Cown)
    requires Inv(s) && Enabled(s, t) && EventOf(s, t) == Quiet && b < |s.beh|
    requires var s' := Next(s, t);
      && |s'.beh| == |s.beh| && s'.beh == s.beh[b := s'.beh[b]] && JobOf(s'.beh[b]) == JobOf(s.beh[b])
      && (forall d :: d != c ==> QueueOf(s', d) == QueueOf(s, d))
      && var q, q' := QueueOf(s, c), QueueOf(s', c);
         |q'.reqs| == |q.reqs| && q'.head == q.head && forall j :: 0 <= j < |q.reqs| ==> q'.reqs[j].owner == q.reqs[j].owner
    ensures Refines(s, t)
  {
    NextInv(s, t);
    SameFifo(s, Next(s, t), c);
    SameJobs(s, Next(s, t), b);
  }

  lemma JoinAbs(s: State, s': State, b: Bid, c: Cown)
    requires QueuesOK(s) && QueuesOK(s') && b < |s.beh| == |s'.beh| && s'.beh == s.beh[b := s'.beh[b]]
    requires (forall d :: d != c ==> QueueOf(s', d) == QueueOf(s, d)) && QueueOf(s', c) == Exchange(QueueOf(s, c), b)
    requires Joined(s.beh[b]) < |s.beh[b].order| && s.beh[b].order[Joined(s.beh[b])] == c
    requires Pending(s.beh[b].sched)
    requires JobOf(s'.beh[b]) == JobOf(s.beh[b]).(joined := Joined(s.beh[b]) + 1)
    ensures Can(Abs(s), Join(b)) && Abs(s') == Do(Abs(s), Join(b))
  {
    assert QueueOK(QueueOf(s, c));
    OwnersExchange(QueueOf(s, c), b);
    FifoUpdate(s, s', c);
    assert Abs(s').fifo == Abs(s).fifo[c := Abs(s).fifo[c] + [b]];
    JobsUpdate(s, s', b);
    assert Abs(s').jobs == Abs(s).jobs[b := Abs(s).jobs[b].(joined := Joined(s.beh[b]) + 1)];
  }

  lemma RefineJoin(s: State, b: Bid)
    requires Inv(s) && CanSchedule(s, b) && s.beh[b].sched.Linking?
    requires s.beh[b].order[s.beh[b].sched.at] !in s.beh[b].slot
    ensures Refines(s, DoSchedule(b))
  {
    var s', c := ScheduleStep(s, b), s.beh[b].order[s.beh[b].sched.at];
    NextInv(s, DoSchedule(b));
    BothReads(s, b, s'.beh[b], c, Exchange(QueueOf(s, c), b));
    JoinAbs(s, s', b, c);
  }

  lemma LinkJob(s: State, b: Bid)
    requires Inv(s) && CanSchedule(s, b) && s.beh[b].sched.Linking?
    requires s.beh[b].order[s.beh[b].sched.at] in s.beh[b].slot
    ensures JobOf(LinkStep(s, b, s.beh[b].sched.at).beh[b]) == JobOf(s.beh[b])
  {
    var B := s.beh[b];
    var k := B.sched.at;
    if k + 1 < |B.order| {
      assert BehaviorOK(s, b);
      assert B.order[k+1] in B.order && CownOK(s, b, B.order[k+1]);
    }
  }

  lemma RefineLink(s: State, b: Bid)
    requires Inv(s) && CanSchedule(s, b) && s.beh[b].sched.Linking?
    requires s.beh[b].order[s.beh[b].sched.at] in s.beh[b].slot
    ensures Refines(s, DoSchedule(b))
  {
    var k := s.beh[b].sched.at;
    Site(s, b, k);
    QueueShape(s, b, k);
    LinkJob(s, b);
    RefineQuiet(s, DoSchedule(b), b, s.beh[b].order[k]);
  }

  lemma RefineTail(s: State, b: Bid)
    requires Inv(s) && CanSchedule(s, b) && !s.beh[b].sched.Linking?
    ensures Refines(s, DoSchedule(b))
  {
    var B := s.beh[b];
    assert BehaviorOK(s, b);
    if B.sched.Finishing? {
      RefineQuiet(s, DoSchedule(b), b, B.order[B.sched.at]);
    } else if B.sched.Finalize? {
      RefineClose(s, b);
    } else if B.sched.EnqueueSelf? {
      RefineStart(s, DoSchedule(b), b, 0);
    } else {
      RefineQuiet(s, DoSchedule(b), b, 0);
    }
  }

  lemma RefineClose(s: State, b: Bid)
    requires Inv(s) && CanSchedule(s, b) && s.beh[b].sched.Finalize?
    ensures Refines(s, DoSchedule(b))
  {
    var s' := ScheduleStep(s, b);
    NextInv(s, DoSchedule(b));
    assert BehaviorOK(s, b);
    assert forall c :: QueueOf(s', c) == QueueOf(s, c);
    assert Abs(s').fifo == Abs(s).fifo;
  }

  lemma StartAbs(s: State, s': State, n: Bid, c: Cown)
    requires QueuesOK(s) && QueuesOK(s') && n < |s.beh| == |s'.beh| && s'.beh == s.beh[n := s'.beh[n]]
    requires (forall d :: d != c ==> QueueOf(s', d) == QueueOf(s, d)) && SameOwners(QueueOf(s, c), QueueOf(s', c), 0)
    requires JobOf(s'.beh[n]) == JobOf(s.beh[n]).(started := true) && !JobOf(s.beh[n]).started && JobOf(s.beh[n]).closed
    requires forall d :: d in s.beh[n].order ==>
      var q := QueueOf(s, d); q.head < |q.reqs| && q.reqs[q.head].owner == n
    ensures Can(Abs(s), Start(n)) && Abs(s') == Do(Abs(s), Start(n))
  {
    SameFifo(s, s', c);
    assert Abs(s').jobs == Abs(s).jobs[n := Abs(s).jobs[n].(started := true)];
  }

  ghost predicate SameOwners(q: Queue, q': Queue, gone: nat) {
    && |q'.reqs| == |q.reqs| && q'.head == q.head + gone
    && forall j :: 0 <= j < |q.reqs| ==> q'.reqs[j].owner == q.reqs[j].owner
  }

  lemma Heads(s: State, n: Bid)
    requires Inv(s) && n < |s.beh| && s.beh[n].run.Counted?
    ensures forall d :: d in s.beh[n].order ==>
      var q := QueueOf(s, d); q.head < |q.reqs| && q.reqs[q.head].owner == n
    ensures s.beh[n].dispatches == 0 && !Pending(s.beh[n].sched)
  {
    assert BehaviorOK(s, n);
    forall d | d in s.beh[n].order
      ensures var q := QueueOf(s, d); q.head < |q.reqs| && q.reqs[q.head].owner == n
    {
      DispatchedHeadsAll(s, n, d);
    }
  }

  /** Dispatch happens exactly when the specification allows it. */
  lemma RefineStart(s: State, t: Step, n: Bid, c: Cown)
    requires Inv(s) && Enabled(s, t) && EventOf(s, t) == Start(n) && n < |s.beh| && s.beh[n].run.Counted?
    requires var s' := Next(s, t);
      && |s'.beh| == |s.beh| && s'.beh == s.beh[n := s'.beh[n]]
      && JobOf(s'.beh[n]) == JobOf(s.beh[n]).(started := true)
      && (forall d :: d != c ==> QueueOf(s', d) == QueueOf(s, d)) && SameOwners(QueueOf(s, c), QueueOf(s', c), 0)
    ensures Refines(s, t)
  {
    NextInv(s, t);
    Heads(s, n);
    StartAbs(s, Next(s, t), n, c);
  }

  lemma OwnersLeave(q: Queue, q': Queue)
    requires q.head < |q.reqs| && SameOwners(q, q', 1)
    ensures Owners(q) != [] && Owners(q)[0] == q.reqs[q.head].owner && Owners(q') == Owners(q)[1..]
  {
  }

  lemma LeaveAbs(s: State, s': State, b: Bid, n: Bid, c: Cown)
    requires QueuesOK(s) && QueuesOK(s') && n < |s.beh| == |s'.beh| && s'.beh == s.beh[n := s'.beh[n]]
    requires b < |s.beh| && JobOf(s.beh[b]).started && JobOf(s'.beh[n]) == JobOf(s.beh[n])
    requires (forall d :: d != c ==> QueueOf(s', d) == QueueOf(s, d)) && SameOwners(QueueOf(s, c), QueueOf(s', c), 1)
    requires var q := QueueOf(s, c); q.head < |q.reqs| && q.reqs[q.head].owner == b
    ensures Can(Abs(s), Leave(b, c)) && Abs(s') == Do(Abs(s), Leave(b, c))
  {
    var q := QueueOf(s, c);
    FifoUpdate(s, s', c);
    OwnersLeave(q, QueueOf(s', c));
    SameJobs(s, s', n);
  }

  lemma RefineLeave(s: State, b: Bid)
    requires Inv(s) && CanRun(s, b) && s.beh[b].run.Releasing? && EventOf(s, DoRun(b)).Leave?
    ensures Refines(s, DoRun(b))
  {
    var k := s.beh[b].run.at;
    var s', c := ReleaseStep(s, b, k), s.beh[b].order[k];
    NextInv(s, DoRun(b));
    ReleaseSite(s, b, k);
    assert BehaviorOK(s, b);
    var r := ReqOf(s, b, k);
    if r.rel.HandOver? {
      LeaveAbs(s, s', b, r.rel.to, c);
    } else {
      LeaveAbs(s, s', b, b, c);
    }
  }

  lemma ReleaseJob(s: State, b: Bid, x: Bid)
    requires b < |s.beh| && s.beh[b].run.Releasing? && CanRelease(s, b, s.beh[b].run.at)
    requires x < |s.beh| == |ReleaseStep(s, b, s.beh[b].run.at).beh|
    requires !ReqOf(s, b, s.beh[b].run.at).rel.Enqueue?
    ensures JobOf(ReleaseStep(s, b, s.beh[b].run.at).beh[x]) == JobOf(s.beh[x])
  {
  }

  lemma RefineRelease(s: State, b: Bid)
    requires Inv(s) && CanRun(s, b) && s.beh[b].run.Releasing? && !EventOf(s, DoRun(b)).Leave?
    ensures Refines(s, DoRun(b))
  {
    var k := s.beh[b].run.at;
    var c := s.beh[b].order[k];
    ReleaseSite(s, b, k);
    var x := ReleaseShape(s, b, k);
    if ReqOf(s, b, k).rel.Enqueue? {
      NextSite(s, b, k);
      RefineStart(s, DoRun(b), ReqOf(s, b, k).rel.to, c);
    } else {
      ReleaseJob(s, b, x);
      RefineQuiet(s, DoRun(b), x, c);
    }
  }

  /** Every atomic step of every thread is a step of the FIFO specification, or
      changes nothing it can see. */
  lemma StepRefines(s: State, t: Step)
    requires Inv(s) && Enabled(s, t)
    ensures Refines(s, t)
  {
    match t
    case DoSpawn(order, caller) => RefineSpawn(s, order, caller);
    case DoSchedule(b) =>
      if !s.beh[b].sched.Linking? { RefineTail(s, b); }
      else if s.beh[b].order[s.beh[b].sched.at] in s.beh[b].slot { RefineLink(s, b); }
      else { RefineJoin(s, b); }
    case DoRun(b) =>
      if !s.beh[b].run.Releasing? { RefineQuiet(s, t, b, 0); }
      else if EventOf(s, t).Leave? { RefineLeave(s, b); }
      else { RefineRelease(s, b); }
  }

  /** At the start every queue of the specification is empty. */
  lemma StartsEmpty()
    ensures QueuesOK(Init) && Abs(Init).jobs == [] && forall c: Cown :: Abs(Init).fifo[c] == []
  {
    forall c: Cown ensures Abs(Init).fifo[c] == [] { assert Owners(QueueOf(Init, c)) == []; }
  }

  /** ... so every run of the threads is a run of the queues. */
  lemma RunRefines(ss: seq<State>, ts: seq<Step>, i: nat)
    requires IsRun(ss, ts) && i < |ts|
    ensures Inv(ss[i]) && Enabled(ss[i], ts[i]) && ss[i+1] == Next(ss[i], ts[i])
    ensures Refines(ss[i], ts[i])
  {
    RunsKeepInv(ss, ts, i);
    StepRefines(ss[i], ts[i]);
  }
}
