/** No livelock: apart from spinning, scheduling and running a given set of
    behaviors takes a bounded number of steps, so every behavior finishes. */
module CownTermination {
  import opened Wrappers
  import opened RequestQueue
  import opened CownProtocol
  import opened CownInvariant
  import opened CownSteps
  import opened CownRelease
  import opened CownTheorems
  import opened CownReclamation
  import opened CownLiveness
  import opened CownShape

  function LinkLeft(l: Link): (n: nat) {
    match l
    case HoldPrev => 7
    case PublishNext => 6
    case CountSelf => 5
    case AwaitPrev => 4
    case DropPrev => 3
    case ReapPrev => 2
    case ResolveSelf => 2
    case Linked => 1
  }

  function RelLeft(r: Rel): (n: nat) {
    match r
    case Held => 9
    case CasLast => 8
    case AwaitNext => 7
    case HandOver(_) => 6
    case Announce(_) => 5
    case Enqueue(_) => 4
    case DropOwn => 3
    case ReapOwn => 2
    case Gone => 1
  }

  /** The stage of `b` on its `k`-th cown, if it has joined that queue. */
  function StageOf(s: State, b: Bid, k: nat): (r: Option<Request>)
    requires b < |s.beh|
  {
    if HasSlot(s, b, k) then Some(ReqOf(s, b, k)) else None
  }

  /** How many steps the thread scheduling `b` has left, at most. */
  function SchedLeft(s: State, b: Bid): (n: nat)
    requires b < |s.beh|
  {
    var n := |s.beh[b].order|;
    match s.beh[b].sched
    case Linking(k) =>
      var r := StageOf(s, b, k);
      (if k < n then 10 * (n - k) else 0) + n + 6 + (if r.Some? then LinkLeft(r.value.link) else 8)
    case Finishing(k) => (if k < n then n - k else 0) + 6
    case Finalize => 5
    case AnnounceSelf => 4
    case EnqueueSelf => 3
    case DropCapsule => 2
    case Returned => 0
  }

  /** How many steps the thread running `b` has left, at most. */
  function RunLeft(s: State, b: Bid): (n: nat)
    requires b < |s.beh|
  {
    var n := |s.beh[b].order|;
    match s.beh[b].run
    case Running => 12 * n + 16
    case Releasing(k) =>
      var r := StageOf(s, b, k);
      (if k < n then 12 * (n - k) else 0) + 4 + (if r.Some? then RelLeft(r.value.rel) else 9)
    case DropHold => 4
    case DropRun => 3
    case Finished => 0
    case _ => 12 * n + 20
  }

  function Left(s: State, b: Bid): (n: nat)
    requires b < |s.beh|
  {
    SchedLeft(s, b) + RunLeft(s, b)
  }

  function Total(s: State, upTo: nat): (n: nat)
    requires upTo <= |s.beh|
  {
    if upTo == 0 then 0 else Total(s, upTo - 1) + Left(s, upTo - 1)
  }

  /** Everybody else is as far from the end as before. */
  lemma {:induction false} TotalDrops(s: State, s': State, b: Bid, upTo: nat)
    requires |s'.beh| == |s.beh| && upTo <= |s.beh| && b < |s.beh|
    requires forall x {:trigger Left(s', x)} :: 0 <= x < |s.beh| && x != b ==> Left(s', x) == Left(s, x)
    requires Left(s', b) < Left(s, b)
    ensures Total(s', upTo) <= Total(s, upTo)
    ensures b < upTo ==> Total(s', upTo) < Total(s, upTo)
  {
    if upTo > 0 { TotalDrops(s, s', b, upTo - 1); }
  }

  predicate Early(r: Run) { r.Waiting? || r.Claimed? || r.Counted? || r.Queued? }

  /** A bystander keeps its program counters, or moves towards dispatch. */
  lemma BystanderLeft(s: State, s': State, c: Cown, i: nat, x: Bid)
    requires Inv(s) && x < |s.beh| == |s'.beh| && i < |QueueOf(s, c).reqs| && QueueOf(s, c).reqs[i].owner != x
    requires var X, X' := s.beh[x], s'.beh[x];
      && X'.order == X.order && X'.slot == X.slot && X'.sched == X.sched
      && (X'.run == X.run || (Early(X.run) && Early(X'.run)))
    requires (forall d :: d != c ==> QueueOf(s', d) == QueueOf(s, d)) && KeepsOthers(QueueOf(s, c), QueueOf(s', c), i)
    ensures Left(s', x) == Left(s, x)
  {
    forall k: nat ensures StageOf(s', x, k).Some? == StageOf(s, x, k).Some?
    ensures StageOf(s, x, k).Some? ==> var r, r' := StageOf(s, x, k).value, StageOf(s', x, k).value; r'.link == r.link && r'.rel == r.rel
    {
      if HasSlot(s, x, k) {
        KnownView(s, x, s.beh[x].order[k]);
      }
    }
  }

  /** The loop of phase 1 moves on. */
  lemma NextLinkLess(s: State, b: Bid)
    requires Inv(s) && b < |s.beh| && s.beh[b].sched.Linking? && HasSlot(s, b, s.beh[b].sched.at)
    requires ReqOf(s, b, s.beh[b].sched.at).link.Linked?
    ensures Left(NextLink(s, b, s.beh[b].sched.at), b) < Left(s, b)
  {
    var B, k := s.beh[b], s.beh[b].sched.at;
    var s' := NextLink(s, b, k);
    assert BehaviorOK(s, b);
    if k + 1 < |B.order| {
      assert B.order[k+1] in B.order && CownOK(s, b, B.order[k+1]);
      assert StageOf(s', b, k + 1).None?;
    }
    assert RunLeft(s', b) == RunLeft(s, b);
  }

  lemma InsideLinkLess(s: State, b: Bid)
    requires CanSchedule(s, b) && s.beh[b].sched.Linking? && HasSlot(s, b, s.beh[b].sched.at)
    requires !ReqOf(s, b, s.beh[b].sched.at).link.Linked?
    requires s.beh[b].run.Waiting?
    ensures Left(ScheduleStep(s, b), b) < Left(s, b)
  {
    var s' := ScheduleStep(s, b);
    assert s'.beh[b].sched == s.beh[b].sched && s'.beh[b].run == s.beh[b].run;
    assert LinkLeft(ReqOf(s', b, s.beh[b].sched.at).link) < LinkLeft(ReqOf(s, b, s.beh[b].sched.at).link);
  }

  lemma JoinLess(s: State, b: Bid)
    requires Inv(s) && CanSchedule(s, b) && s.beh[b].sched.Linking?
    requires s.beh[b].order[s.beh[b].sched.at] !in s.beh[b].slot
    ensures Left(ScheduleStep(s, b), b) < Left(s, b)
  {
    var k := s.beh[b].sched.at;
    var s' := ScheduleStep(s, b);
    assert BehaviorOK(s, b);
    assert StageOf(s, b, k).None? && StageOf(s', b, k).Some?;
    assert s'.beh[b].run.Waiting?;
  }

  lemma TailLess(s: State, b: Bid)
    requires Inv(s) && CanSchedule(s, b) && !s.beh[b].sched.Linking?
    ensures Left(ScheduleStep(s, b), b) < Left(s, b)
  {
    var s' := ScheduleStep(s, b);
    assert BehaviorOK(s, b);
    assert forall k: nat :: StageOf(s', b, k).Some? <==> StageOf(s, b, k).Some?;
    assert RunLeft(s', b) == RunLeft(s, b) by {
      if s.beh[b].run.Releasing? {
        var k := s.beh[b].run.at;
        assert s'.beh[b].run == s.beh[b].run;
      }
    }
  }

  lemma ScheduleLess(s: State, b: Bid)
    requires Inv(s) && CanSchedule(s, b)
    ensures Left(ScheduleStep(s, b), b) < Left(s, b)
  {
    if !s.beh[b].sched.Linking? { TailLess(s, b); return; }
    assert BehaviorOK(s, b);
    if !HasSlot(s, b, s.beh[b].sched.at) { JoinLess(s, b); }
    else if ReqOf(s, b, s.beh[b].sched.at).link.Linked? { NextLinkLess(s, b); }
    else { InsideLinkLess(s, b); }
  }

  lemma NextReleaseLess(s: State, b: Bid)
    requires Inv(s) && b < |s.beh| && s.beh[b].run.Releasing? && HasSlot(s, b, s.beh[b].run.at)
    requires ReqOf(s, b, s.beh[b].run.at).rel.Gone?
    ensures Left(NextRelease(s, b, s.beh[b].run.at), b) < Left(s, b)
  {
    var s' := NextRelease(s, b, s.beh[b].run.at);
    assert BehaviorOK(s, b);
    assert !s.beh[b].sched.Linking?;
    assert SchedLeft(s', b) == SchedLeft(s, b);
  }

  lemma RelStepLess(s: State, b: Bid, k: nat)
    requires CanRelease(s, b, k) && !ReqOf(s, b, k).rel.Gone?
    ensures var s' := ReleaseStep(s, b, k);
      && |s'.beh| == |s.beh| && s'.beh[b] == s.beh[b] && HasSlot(s', b, k)
      && RelLeft(ReqOf(s', b, k).rel) < RelLeft(ReqOf(s, b, k).rel)
  {
  }

  lemma InsideReleaseLess(s: State, b: Bid)
    requires Inv(s) && CanRun(s, b) && s.beh[b].run.Releasing?
    requires !ReqOf(s, b, s.beh[b].run.at).rel.Gone?
    ensures Left(RunStep(s, b), b) < Left(s, b)
  {
    var k := s.beh[b].run.at;
    assert BehaviorOK(s, b);
    RelStepLess(s, b, k);
  }

  lemma RunLess(s: State, b: Bid)
    requires Inv(s) && CanRun(s, b)
    ensures Left(RunStep(s, b), b) < Left(s, b)
  {
    if s.beh[b].run.Releasing? {
      if ReqOf(s, b, s.beh[b].run.at).rel.Gone? { NextReleaseLess(s, b); } else { InsideReleaseLess(s, b); }
    } else {
      var s' := RunStep(s, b);
      assert BehaviorOK(s, b);
      assert !s.beh[b].sched.Linking?;
      assert SchedLeft(s', b) == SchedLeft(s, b);
      assert RunLeft(s', b) < RunLeft(s, b);
    }
  }

  // ------------------------------------------------------------- the whole state

  /** Steps that touch no queue leave every other behavior as it is. */
  lemma AloneOthers(s: State, s': State, b: Bid, x: Bid)
    requires x < |s.beh| == |s'.beh| && b < |s.beh| && x != b
    requires s'.cown == s.cown && s'.beh == s.beh[b := s'.beh[b]]
    ensures Left(s', x) == Left(s, x)
  {
    assert forall k: nat :: StageOf(s', x, k) == StageOf(s, x, k);
  }

  lemma JoinOthers(s: State, b: Bid, x: Bid)
    requires Inv(s) && CanSchedule(s, b) && s.beh[b].sched.Linking? && x < |s.beh| && x != b
    requires s.beh[b].order[s.beh[b].sched.at] !in s.beh[b].slot
    ensures Left(ScheduleStep(s, b), x) == Left(s, x)
  {
    var s' := ScheduleStep(s, b);
    forall k: nat ensures StageOf(s', x, k) == StageOf(s, x, k) {
      if k < |s.beh[x].order| && s.beh[x].order[k] in s.beh[x].slot { KnownView(s, x, s.beh[x].order[k]); }
    }
  }

  lemma ScheduleOthers(s: State, b: Bid, x: Bid)
    requires Inv(s) && CanSchedule(s, b) && x < |s.beh| && x != b
    ensures |ScheduleStep(s, b).beh| == |s.beh| && Left(ScheduleStep(s, b), x) == Left(s, x)
  {
    var s', B := ScheduleStep(s, b), s.beh[b];
    assert BehaviorOK(s, b);
    if B.sched.Finishing? || (B.sched.Linking? && B.order[B.sched.at] in B.slot) {
      var k := B.sched.at;
      var c := B.order[k];
      assert c in B.order && CownOK(s, b, c);
      Site(s, b, k);
      if B.sched.Linking? { QueueShape(s, b, k); }
      BystanderLeft(s, s', c, B.slot[c], x);
    } else if B.sched.Linking? {
      JoinOthers(s, b, x);
    } else {
      AloneOthers(s, s', b, x);
    }
  }

  lemma ReleaseOthers(s: State, b: Bid, x: Bid)
    requires Inv(s) && CanRun(s, b) && s.beh[b].run.Releasing? && x < |s.beh| && x != b
    ensures |RunStep(s, b).beh| == |s.beh| && Left(RunStep(s, b), x) == Left(s, x)
  {
    var k := s.beh[b].run.at;
    var s', c := RunStep(s, b), s.beh[b].order[k];
    ReleaseSite(s, b, k);
    var y := ReleaseShape(s, b, k);
    if x == y { SuccessorEarly(s, b, k, x); }
    BystanderLeft(s, s', c, s.beh[b].slot[c], x);
  }

  lemma SuccessorEarly(s: State, b: Bid, k: nat, x: Bid)
    requires ReleasingAt(s, b, k) && CanRelease(s, b, k) && x < |s.beh| == |ReleaseStep(s, b, k).beh| && x != b
    ensures var X, X' := s.beh[x], ReleaseStep(s, b, k).beh[x];
      X'.run == X.run || (Early(X.run) && Early(X'.run))
  {
    ReleaseSite(s, b, k);
    if ReqOf(s, b, k).next.Some? {
      NextSite(s, b, k);
      assert BehaviorOK(s, ReqOf(s, b, k).next.value);
    }
  }

  lemma RunOthers(s: State, b: Bid, x: Bid)
    requires Inv(s) && CanRun(s, b) && x < |s.beh| && x != b
    ensures |RunStep(s, b).beh| == |s.beh| && Left(RunStep(s, b), x) == Left(s, x)
  {
    if s.beh[b].run.Releasing? { ReleaseOthers(s, b, x); } else { AloneOthers(s, RunStep(s, b), b, x); }
  }

  /** Every step other than scheduling something new brings the end closer. */
  lemma StepDrops(s: State, t: Step)
    requires Inv(s) && Enabled(s, t) && !t.DoSpawn?
    ensures Total(Next(s, t), |Next(s, t).beh|) < Total(s, |s.beh|)
  {
    var s', b := Next(s, t), t.b;
    if t.DoSchedule? { ScheduleLess(s, b); } else { RunLess(s, b); }
    SameCount(s, t);
    forall x {:trigger Left(s', x)} | 0 <= x < |s.beh| && x != b ensures Left(s', x) == Left(s, x) {
      if t.DoSchedule? { ScheduleOthers(s, b, x); } else { RunOthers(s, b, x); }
    }
    TotalDrops(s, s', b, |s.beh|);
  }

  lemma SameCount(s: State, t: Step)
    requires Inv(s) && Enabled(s, t) && !t.DoSpawn?
    ensures |Next(s, t).beh| == |s.beh|
  {
  }

  /** A piece of a run, from any state, in which nothing new is scheduled. */
  ghost predicate IsTail(ss: seq<State>, ts: seq<Step>) {
    && |ss| == |ts| + 1
    && forall i :: 0 <= i < |ts| ==> !ts[i].DoSpawn? && Enabled(ss[i], ts[i]) && ss[i+1] == Next(ss[i], ts[i])
  }

  lemma {:induction false} TailBound(ss: seq<State>, ts: seq<Step>, i: nat)
    requires IsTail(ss, ts) && Inv(ss[0]) && i < |ss|
    ensures Inv(ss[i]) && i + Total(ss[i], |ss[i].beh|) <= Total(ss[0], |ss[0].beh|)
  {
    if i > 0 {
      TailBound(ss, ts, i - 1);
      NextInv(ss[i-1], ts[i-1]);
      StepDrops(ss[i-1], ts[i-1]);
    }
  }

  /** No thread can move. */
  ghost predicate Idle(s: State) {
    forall t: Step :: !t.DoSpawn? ==> !Enabled(s, t)
  }

  /** Everything finishes: once nothing new is scheduled there is a bound on the
      number of steps, and where no thread can move all behaviors have run, all
      cowns are free and every request and behavior has been freed. */
  lemma EverythingFinishes(ss: seq<State>, ts: seq<Step>)
    requires IsTail(ss, ts) && Inv(ss[0])
    ensures |ts| <= Total(ss[0], |ss[0].beh|)
    ensures var z := ss[|ts|];
      Idle(z) ==>
        && AllDone(z) && z.terminator == 0
        && forall b :: 0 <= b < |z.beh| ==> z.beh[b].dispatches == 1 && z.beh[b].frees == 1
  {
    TailBound(ss, ts, |ts|);
    var z := ss[|ts|];
    if Idle(z) {
      forall b | 0 <= b < |z.beh| ensures z.beh[b].sched.Returned? && z.beh[b].run.Finished? {
        if !(z.beh[b].sched.Returned? && z.beh[b].run.Finished?) { var t := Progress(z, b); }
      }
      forall b | 0 <= b < |z.beh| ensures z.beh[b].dispatches == 1 && z.beh[b].frees == 1 {
        BehaviorFreed(z, b);
      }
      NoHolds(z.beh);
    }
  }

  lemma BehaviorFreed(s: State, b: Bid)
    requires Inv(s) && AllDone(s) && b < |s.beh|
    ensures s.beh[b].dispatches == 1 && s.beh[b].frees == 1
  {
    assert BehaviorOK(s, b);
    var c := s.beh[b].order[0];
    assert c in s.beh[b].order && CownOK(s, b, c);
    AllFreed(s, c, s.beh[b].slot[c]);
  }

  lemma {:induction false} NoHolds(bs: seq<Behavior>)
    requires forall b :: 0 <= b < |bs| ==> bs[b].run.Finished?
    ensures Holds(bs) == 0
  {
    if bs != [] { NoHolds(bs[..|bs|-1]); }
  }
}
