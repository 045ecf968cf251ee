/** Deadlock freedom: while some behavior is unfinished, some thread that is not
    stuck in a spin can take a step. */
module CownLiveness {
  import opened Wrappers
  import opened RequestQueue
  import opened CownProtocol
  import opened CownInvariant
  import opened CownSteps
  import opened CownRelease
  import opened CownTheorems

  /** The thread scheduling `b` spins on the flag of its predecessor on `c`. */
  predicate Spins(s: State, b: Bid, c: Cown) {
    && b < |s.beh| && s.beh[b].sched.Linking? && s.beh[b].sched.at < |s.beh[b].order|
    && c == s.beh[b].order[s.beh[b].sched.at]
    && c in s.beh[b].slot && 0 < s.beh[b].slot[c] < |QueueOf(s, c).reqs|
    && QueueOf(s, c).reqs[s.beh[b].slot[c]].link.AwaitPrev?
    && !QueueOf(s, c).reqs[s.beh[b].slot[c] - 1].scheduled
  }

  function Awaited(s: State, b: Bid, c: Cown): (p: Bid)
    requires Spins(s, b, c)
  {
    QueueOf(s, c).reqs[s.beh[b].slot[c] - 1].owner
  }

  /** A scheduling thread is enabled unless it spins. */
  lemma ScheduleEnabled(s: State, b: Bid)
    requires Inv(s) && b < |s.beh| && !s.beh[b].sched.Returned?
    requires s.beh[b].sched.Linking? && s.beh[b].sched.at < |s.beh[b].order| ==>
               !Spins(s, b, s.beh[b].order[s.beh[b].sched.at])
    ensures CanSchedule(s, b)
  {
    var B := s.beh[b];
    assert BehaviorOK(s, b);
    match B.sched
    case Linking(k) =>
      assert B.order[0] in B.order && CownOK(s, b, B.order[0]);
      if B.order[k] in B.slot { Site(s, b, k); }
    case Finishing(k) =>
      assert B.order[0] in B.order && CownOK(s, b, B.order[0]);
      assert B.order[k] in B.order && CownOK(s, b, B.order[k]);
    case _ =>
  }

  /** Whoever is spun upon is itself still scheduling; and if it spins too, it does
      so on a cown that is no lower -- on a higher one exactly when it has finished
      linking its request on this one -- and it is further ahead in this queue. */
  lemma SpinClimbs(s: State, b: Bid, c: Cown)
    requires Inv(s) && Spins(s, b, c)
    ensures var p := Awaited(s, b, c);
      && p < |s.beh| && (s.beh[p].sched.Linking? || s.beh[p].sched.Finishing?)
      && c in s.beh[p].slot && s.beh[p].slot[c] == s.beh[b].slot[c] - 1
      && forall d :: Spins(s, p, d) ==>
           c <= d && c in s.beh[p].keys && (c < d <==> QueueOf(s, c).reqs[s.beh[p].slot[c]].link.Linked?)
  {
    var i := s.beh[b].slot[c];
    assert OwnedOK(s, c, i - 1);
    var p := Awaited(s, b, c);
    KnownView(s, p, c);
  }

  function Highest(bs: seq<Behavior>): (m: nat)
    ensures forall i :: 0 <= i < |bs| && bs[i].order != [] ==> bs[i].order[|bs[i].order|-1] <= m
  {
    if bs == [] then 0
    else
      var b := bs[|bs|-1];
      var m := Highest(bs[..|bs|-1]);
      if b.order != [] && b.order[|b.order|-1] > m then b.order[|b.order|-1] else m
  }

  /** Following the spins always leads to a scheduling thread that can move. */
  lemma {:induction false} SpinEnds(s: State, b: Bid) returns (x: Bid)
    requires Inv(s) && b < |s.beh| && !s.beh[b].sched.Returned?
    ensures CanSchedule(s, x)
    decreases Highest(s.beh) - Current(s.beh[b]),
              if Current(s.beh[b]) in s.beh[b].slot then s.beh[b].slot[Current(s.beh[b])] else 0
  {
    var B, c := s.beh[b], Current(s.beh[b]);
    if Spins(s, b, c) {
      SpinClimbs(s, b, c);
      var p := Awaited(s, b, c);
      assert BehaviorOK(s, b) && BehaviorOK(s, p);
      if s.beh[p].sched.Finishing? {
        ScheduleEnabled(s, p);
        x := p;
      } else {
        KnownView(s, p, c);
        assert Current(s.beh[p]) <= Highest(s.beh);
        x := SpinEnds(s, p);
      }
    } else {
      ScheduleEnabled(s, b);
      x := b;
    }
  }

  predicate NobodySchedules(s: State) {
    forall b :: 0 <= b < |s.beh| ==> s.beh[b].sched.Returned?
  }

  /** The spin of a releasing thread on `next` waits for a publisher: once no
      thread is scheduling, every releasing thread can move. */
  lemma ReleaseEnabled(s: State, b: Bid)
    requires Inv(s) && NobodySchedules(s) && b < |s.beh| && s.beh[b].run.Releasing?
    ensures CanRun(s, b)
  {
    var B := s.beh[b];
    var k := B.run.at;
    assert BehaviorOK(s, b);
    assert B.order[0] in B.order && CownOK(s, b, B.order[0]);
    assert B.order[k] in B.order && CownOK(s, b, B.order[k]);
    ReleaseSite(s, b, k);
    var c := B.order[k];
    var q, i := QueueOf(s, c), B.slot[c];
    if Chained(q, i) {
      assert OwnedOK(s, c, i + 1);
      KnownView(s, q.reqs[i+1].owner, c);
    }
    if q.reqs[i].next.Some? { NextSite(s, b, k); }
  }

  /** The spin of a releasing thread on `next` always faces a publisher that is
      not itself spinning. */
  lemma ReleaseSpinHasPublisher(s: State, b: Bid, k: nat) returns (x: Bid)
    requires ReleasingAt(s, b, k) && ReqOf(s, b, k).rel.AwaitNext? && ReqOf(s, b, k).next.None?
    ensures CanSchedule(s, x) && s.beh[x].sched.Linking?
    ensures var c := s.beh[b].order[k]; var q, i := QueueOf(s, c), s.beh[b].slot[c];
      && i + 1 < |q.reqs| && q.reqs[i+1].owner == x && q.reqs[i+1].prev == Some(i)
      && (q.reqs[i+1].link.HoldPrev? || q.reqs[i+1].link.PublishNext?)
  {
    var c := s.beh[b].order[k];
    var q, i := QueueOf(s, c), s.beh[b].slot[c];
    ReleaseSite(s, b, k);
    PrevIsBefore(q, i + 1);
    x := q.reqs[i+1].owner;
    assert OwnedOK(s, c, i + 1);
    KnownView(s, x, c);
    ScheduleEnabled(s, x);
  }

  /** Once nobody is scheduling, following the heads of the queues a behavior
      waits in leads, ever earlier in the serial order, to one that was dispatched. */
  lemma {:induction false} WaitEnds(s: State, b: Bid) returns (x: Bid)
    requires Inv(s) && NobodySchedules(s) && b < |s.beh| && s.beh[b].run.Waiting?
    ensures x < |s.beh| && !s.beh[x].run.Waiting? && !s.beh[x].run.Finished?
    decreases if s.beh[b].commit.Some? then s.beh[b].commit.value else 0
  {
    assert BehaviorOK(s, b);
    assert s.beh[b].waiting != {};
    var c :| c in s.beh[b].waiting;
    assert CownOK(s, b, c);
    var q := QueueOf(s, c);
    assert OwnedOK(s, c, q.head) && NodeOK(q, q.head);
    x := q.reqs[q.head].owner;
    KnownView(s, x, c);
    assert BehaviorOK(s, x);
    if s.beh[x].run.Waiting? {
      ChainOrder(s, c, q.head, s.beh[b].slot[c]);
      x := WaitEnds(s, x);
    }
  }

  /** A behavior caught between its last count and its run queue has a thread
      that is about to put it there. */
  lemma ClaimedHasThread(s: State, b: Bid) returns (x: Bid)
    requires Inv(s) && NobodySchedules(s) && b < |s.beh| && (s.beh[b].run.Claimed? || s.beh[b].run.Counted?)
    ensures CanRun(s, x)
  {
    assert BehaviorOK(s, b);
    var c := s.beh[b].run.via.value;
    assert CownOK(s, b, c);
    var i := s.beh[b].slot[c];
    assert OwnedOK(s, c, i - 1);
    x := QueueOf(s, c).reqs[i-1].owner;
    KnownView(s, x, c);
    ReleaseEnabled(s, x);
  }

  lemma RunEnabled(s: State, b: Bid) returns (t: Step)
    requires Inv(s) && NobodySchedules(s) && b < |s.beh| && !s.beh[b].run.Waiting? && !s.beh[b].run.Finished?
    ensures t.DoRun? && Enabled(s, t)
  {
    if s.beh[b].run.Claimed? || s.beh[b].run.Counted? {
      var y := ClaimedHasThread(s, b);
      t := DoRun(y);
    } else {
      if s.beh[b].run.Releasing? { ReleaseEnabled(s, b); }
      t := DoRun(b);
    }
  }

  /** Deadlock freedom: whatever behavior is unfinished, some thread can move. */
  lemma Progress(s: State, b: Bid) returns (t: Step)
    requires Inv(s) && b < |s.beh| && !(s.beh[b].sched.Returned? && s.beh[b].run.Finished?)
    ensures !t.DoSpawn? && Enabled(s, t)
  {
    if x :| 0 <= x < |s.beh| && !s.beh[x].sched.Returned? {
      var y := SpinEnds(s, x);
      t := DoSchedule(y);
    } else {
      var x := b;
      if s.beh[b].run.Waiting? { x := WaitEnds(s, b); }
      t := RunEnabled(s, x);
    }
  }
}
