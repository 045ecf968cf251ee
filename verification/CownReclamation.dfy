/** Memory safety of requests and behaviors, and what a zero terminator means. */
module CownReclamation {
  import opened Wrappers
  import opened RequestQueue
  import opened CownProtocol
  import opened CownInvariant
  import opened CownSteps
  import opened CownRelease
  import opened CownTheorems

  /** Request `i` of queue `c` is allocated. */
  predicate LiveRequest(s: State, c: Cown, i: nat) {
    i < |QueueOf(s, c).reqs| && QueueOf(s, c).reqs[i].frees == 0
  }

  predicate LiveBehavior(s: State, b: Bid) { b < |s.beh| && s.beh[b].frees == 0 }

  /** The requests a step dereferences, as (cown, index) pairs. */
  function TouchedRequests(s: State, t: Step): (r: set<(Cown, nat)>)
    requires Enabled(s, t)
  {
    match t
    case DoSpawn(_, _) => {}
    case DoSchedule(b) =>
      var B := s.beh[b];
      if B.sched.Finishing? then {(B.order[B.sched.at], B.slot[B.order[B.sched.at]])}
      else if B.sched.Linking? && B.order[B.sched.at] in B.slot then
        var c := B.order[B.sched.at];
        var q, i := QueueOf(s, c), B.slot[c];
        if q.reqs[i].link.Linked? || q.reqs[i].link.ResolveSelf? || q.reqs[i].link.CountSelf? then {(c, i)}
        else {(c, i), (c, q.reqs[i].prev.value)}
      else {}
    case DoRun(b) =>
      var B := s.beh[b];
      if B.run.Releasing? then
        var c := B.order[B.run.at];
        if QueueOf(s, c).reqs[B.slot[c]].rel.Gone? then {} else {(c, B.slot[c])}
      else {}
  }

  /** The behaviors a step dereferences. */
  function TouchedBehaviors(s: State, t: Step): (r: set<Bid>)
    requires Enabled(s, t)
  {
    match t
    case DoSpawn(_, _) => {}
    case DoSchedule(b) => {b}
    case DoRun(b) =>
      if s.beh[b].run.Releasing? then
        var r := ReqOf(s, b, s.beh[b].run.at);
        {b} + (if r.rel.HandOver? || r.rel.Announce? || r.rel.Enqueue? then {r.rel.to} else {})
            + (if r.rel.ReapOwn? && r.next.Some? then {r.next.value} else {})
      else {b}
  }

  lemma LinkTouchesLive(q: Queue, i: nat)
    requires QueueOK(q) && i < |q.reqs| && !q.reqs[i].rel.Gone?
    ensures q.reqs[i].frees == 0
    ensures q.reqs[i].prev.Some? && !q.reqs[i].link.Linked? ==> i > 0 && q.reqs[i-1].frees == 0
  {
    assert NodeOK(q, i);
    if q.reqs[i].prev.Some? { PrevIsBefore(q, i); }
  }

  lemma RequestsTouchedLive(s: State, t: Step, c: Cown, i: nat)
    requires Inv(s) && Enabled(s, t) && (c, i) in TouchedRequests(s, t)
    ensures LiveRequest(s, c, i)
  {
    var b := t.b;
    var k := if t.DoSchedule? then s.beh[b].sched.at else s.beh[b].run.at;
    assert BehaviorOK(s, b) && c == s.beh[b].order[k] && c in s.beh[b].order;
    KnownView(s, b, c);
    Site(s, b, k);
    LinkTouchesLive(QueueOf(s, c), s.beh[b].slot[c]);
  }

  lemma SuccessorLive(s: State, b: Bid, k: nat)
    requires ReleasingAt(s, b, k) && ReqOf(s, b, k).next.Some? && !ReqOf(s, b, k).rel.Gone?
    ensures LiveBehavior(s, ReqOf(s, b, k).next.value)
  {
    var c := s.beh[b].order[k];
    ReleaseSite(s, b, k);
    NextSite(s, b, k);
    LinkTouchesLive(QueueOf(s, c), s.beh[b].slot[c]);
    SuccessorCounted(s, ReqOf(s, b, k).next.value, c);
  }

  lemma BehaviorsTouchedLive(s: State, t: Step, n: Bid)
    requires Inv(s) && Enabled(s, t) && n in TouchedBehaviors(s, t)
    ensures LiveBehavior(s, n)
  {
    var b := t.b;
    assert BehaviorOK(s, b);
    if n != b {
      var k := s.beh[b].run.at;
      ReleaseSite(s, b, k);
      SuccessorLive(s, b, k);
    }
  }

  /** The reference a request holds through `next` is taken before anybody can
      need it: once the successor's own scheduler has let go, it is counted. */
  lemma SuccessorCounted(s: State, n: Bid, c: Cown)
    requires Inv(s) && n < |s.beh| && c in s.beh[n].slot && 0 < s.beh[n].slot[c] < |QueueOf(s, c).reqs|
    requires QueueOf(s, c).reqs[s.beh[n].slot[c]].prev.Some?
    requires QueueOf(s, c).reqs[s.beh[n].slot[c] - 1].frees == 0
    ensures s.beh[n].sched.Returned? ==> c in s.beh[n].refs
    ensures s.beh[n].rc > 0
  {
    KnownView(s, n, c);
    if c in s.beh[n].refs { assert |s.beh[n].refs| > 0; }
  }

  /** Safe reclamation: no step of any thread touches a freed request or a freed
      behavior, in any reachable state. */
  lemma SafeReclamation(s: State, t: Step)
    requires Inv(s) && Enabled(s, t)
    ensures forall c, i :: (c, i) in TouchedRequests(s, t) ==> LiveRequest(s, c, i)
    ensures forall n :: n in TouchedBehaviors(s, t) ==> LiveBehavior(s, n)
  {
    forall c, i | (c, i) in TouchedRequests(s, t) ensures LiveRequest(s, c, i) {
      RequestsTouchedLive(s, t, c, i);
    }
    forall n | n in TouchedBehaviors(s, t) ensures LiveBehavior(s, n) {
      BehaviorsTouchedLive(s, t, n);
    }
  }

  /** Nor does a thread that cannot move: each spin polls a live request, that of
      the predecessor or its own. */
  lemma SpinsOnLive(s: State, b: Bid, k: nat)
    requires Inv(s) && HasSlot(s, b, k)
    ensures var c := s.beh[b].order[k]; var i := s.beh[b].slot[c];
      && (ReqOf(s, b, k).link.AwaitPrev? ==> i > 0 && ReqOf(s, b, k).prev == Some(i - 1) && LiveRequest(s, c, i - 1))
      && (ReqOf(s, b, k).rel.AwaitNext? ==> LiveRequest(s, c, i))
  {
    var c := s.beh[b].order[k];
    var q, i := QueueOf(s, c), s.beh[b].slot[c];
    assert NodeOK(q, i);
    if q.reqs[i].link.AwaitPrev? { PrevIsBefore(q, i); }
  }

  /** Nothing is freed twice, and a freed thing has no reference left. */
  lemma FreedOnce(s: State, c: Cown, i: nat, b: Bid)
    requires Inv(s) && i < |QueueOf(s, c).reqs| && b < |s.beh|
    ensures QueueOf(s, c).reqs[i].frees <= 1 && s.beh[b].frees <= 1
    ensures QueueOf(s, c).reqs[i].frees == 1 ==> QueueOf(s, c).reqs[i].rc == 0
    ensures s.beh[b].frees == 1 <==> s.beh[b].rc == 0
  {
    assert NodeOK(QueueOf(s, c), i);
    assert BehaviorOK(s, b);
  }

  predicate AllDone(s: State) {
    forall b :: 0 <= b < |s.beh| ==> s.beh[b].sched.Returned? && s.beh[b].run.Finished?
  }

  /** Nothing leaks: when all threads are done, every request and every behavior
      has been freed, exactly once. */
  lemma AllFreed(s: State, c: Cown, i: nat)
    requires Inv(s) && AllDone(s) && i < |QueueOf(s, c).reqs|
    ensures QueueOf(s, c).reqs[i].frees == 1
    ensures var b := QueueOf(s, c).reqs[i].owner; b < |s.beh| && s.beh[b].frees == 1
  {
    var q := QueueOf(s, c);
    RequestFreed(s, c, i);
    var b := q.reqs[i].owner;
    assert OwnedOK(s, c, i);
    assert BehaviorOK(s, b);
    forall d ensures d !in s.beh[b].refs {
      if d in s.beh[b].refs {
        assert CownOK(s, b, d);
        RequestFreed(s, d, s.beh[b].slot[d] - 1);
      }
    }
    assert s.beh[b].refs == {};
  }

  lemma RequestFreed(s: State, c: Cown, i: nat)
    requires Inv(s) && AllDone(s) && i < |QueueOf(s, c).reqs|
    ensures QueueOf(s, c).reqs[i].frees == 1
  {
    var q := QueueOf(s, c);
    assert OwnedOK(s, c, i);
    KnownView(s, q.reqs[i].owner, c);
    assert NodeOK(q, i);
    if i + 1 < |q.reqs| {
      assert OwnedOK(s, c, i + 1);
      KnownView(s, q.reqs[i+1].owner, c);
    }
  }

  /** The debug assertion in request_start_enqueue_inner always holds: nobody
      else ever stored into the predecessor's `next`. */
  lemma NextUnsetAtPublish(s: State, b: Bid, k: nat)
    requires Inv(s) && HasSlot(s, b, k) && ReqOf(s, b, k).link.PublishNext?
    ensures HasPrev(QueueOf(s, s.beh[b].order[k]), s.beh[b].slot[s.beh[b].order[k]])
    ensures QueueOf(s, s.beh[b].order[k]).reqs[ReqOf(s, b, k).prev.value].next.None?
  {
    Site(s, b, k);
    PrevIsBefore(QueueOf(s, s.beh[b].order[k]), s.beh[b].slot[s.beh[b].order[k]]);
  }

  // -------------------------------------------------------------- quiescence

  lemma {:induction false} HoldsZero(bs: seq<Behavior>, b: nat)
    requires Holds(bs) == 0 && b < |bs|
    ensures Quit(bs[b].run)
  {
    if b < |bs| - 1 {
      HoldsZero(bs[..|bs|-1], b);
    }
  }

  /** When the terminator reads 0, no behavior is linked, queued, pending or
      running anywhere, and every cown's `last` is NULL. */
  lemma QuiescenceIsReal(s: State)
    requires Inv(s) && s.terminator == 0
    ensures forall b :: 0 <= b < |s.beh| ==> Quit(s.beh[b].run) && s.beh[b].count == 0
    ensures forall c :: QueueOf(s, c).last.None? && QueueOf(s, c).head == |QueueOf(s, c).reqs|
  {
    forall b | 0 <= b < |s.beh| ensures Quit(s.beh[b].run) && s.beh[b].count == 0 {
      HoldsZero(s.beh, b);
      assert BehaviorOK(s, b);
    }
    forall c ensures QueueOf(s, c).last.None? && QueueOf(s, c).head == |QueueOf(s, c).reqs| {
      var q := QueueOf(s, c);
      if q.head < |q.reqs| {
        assert OwnedOK(s, c, q.head) && NodeOK(q, q.head);
        KnownView(s, q.reqs[q.head].owner, c);
      }
    }
  }

  lemma {:induction false} HoldsSome(bs: seq<Behavior>, b: nat)
    requires b < |bs| && !Quit(bs[b].run)
    ensures Holds(bs) > 0
  {
    if b < |bs| - 1 {
      HoldsSome(bs[..|bs|-1], b);
    }
  }

  /** As long as a behavior is scheduled and unfinished the terminator is
      positive; a body that schedules a child therefore hands it a hold before
      its own can go. */
  lemma HeldWhileUnfinished(s: State, b: Bid)
    requires Inv(s) && b < |s.beh| && !Quit(s.beh[b].run)
    ensures s.terminator > 0
  {
    HoldsSome(s.beh, b);
  }
}
