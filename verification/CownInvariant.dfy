/** The inductive invariant of the scheduling protocol. */
module CownInvariant {
  import opened Wrappers
  import opened RequestQueue
  import opened CownProtocol

  /** What a behavior's own bookkeeping depends on in one of its queues. */
  datatype View = Unlinked | View(link: Link, rel: Rel, scheduled: bool, ahead: bool, ref: bool, ann: bool, enq: bool)

  predicate RefTaken(l: Link) { l.AwaitPrev? || l.DropPrev? || l.ReapPrev? || l.Linked? }

  function ViewAt(q: Queue, i: nat): (v: View)
    requires i < |q.reqs|
    ensures v.View?
  {
    var r := q.reqs[i];
    View(r.link, r.rel, r.scheduled, i > q.head,
         i > 0 && r.prev.Some? && RefTaken(r.link) && q.reqs[i-1].frees == 0,
         i > 0 && q.reqs[i-1].rel == Announce(r.owner),
         i > 0 && q.reqs[i-1].rel == Enqueue(r.owner))
  }

  function ViewOf(s: State, b: Bid, c: Cown): (v: View)
    requires b < |s.beh|
  {
    var B := s.beh[b];
    if c in B.slot && B.slot[c] < |QueueOf(s, c).reqs| then ViewAt(QueueOf(s, c), B.slot[c]) else Unlinked
  }

  /** The grant of this request has not been counted yet. */
  predicate Waits(v: View) { v.Unlinked? || v.ahead || v.link.ResolveSelf? }

  predicate Pending(p: Sched) { p.Linking? || p.Finishing? || p.Finalize? }

  predicate RunHolds(r: Run) { r.Counted? || r.Queued? || r.Running? || r.Releasing? || r.DropHold? || r.DropRun? }

  predicate Done(r: Run) { r.DropHold? || r.DropRun? || r.Finished? }

  predicate SchedView(B: Behavior, c: Cown, v: View) {
    match B.sched
    case Linking(k) =>
      k < |B.order| && (if c < B.order[k] then v.View? && v.link.Linked? && !v.scheduled
                        else if c == B.order[k] then v.View? ==> !v.scheduled
                        else v.Unlinked?)
    case Finishing(k) => k < |B.order| && v.View? && v.link.Linked? && (v.scheduled <==> c < B.order[k])
    case _ => v.View? && v.link.Linked? && v.scheduled
  }

  predicate RunView(B: Behavior, c: Cown, v: View) {
    if B.run.Releasing? then
      && B.run.at < |B.order| && v.View?
      && (c < B.order[B.run.at] ==> v.rel.Gone?) && (c > B.order[B.run.at] ==> v.rel.Held?)
    else if Done(B.run) then v.View? && v.rel.Gone?
    else v.View? ==> v.rel.Held?
  }

  predicate ClaimView(B: Behavior, c: Cown, v: View) {
    && (v.View? && v.ann <==> B.run == Claimed(Some(c)))
    && (v.View? && v.enq <==> B.run == Counted(Some(c)))
  }

  /** What `B` records about its cown `c` agrees with the queue of `c`. */
  predicate ViewOK(B: Behavior, c: Cown, v: View) {
    && SchedView(B, c, v) && RunView(B, c, v) && ClaimView(B, c, v)
    && (c in B.waiting <==> Waits(v))
    && (c in B.refs <==> v.View? && v.ref)
  }

  predicate SlotOK(s: State, b: Bid, c: Cown)
    requires b < |s.beh|
  {
    c in s.beh[b].slot ==>
      var i := s.beh[b].slot[c]; i < |QueueOf(s, c).reqs| && QueueOf(s, c).reqs[i].owner == b
  }

  predicate CownOK(s: State, b: Bid, c: Cown)
    requires b < |s.beh|
  {
    SlotOK(s, b, c) && ViewOK(s.beh[b], c, ViewOf(s, b, c))
  }

  ghost predicate KeysOK(B: Behavior) {
    && Sorted(B.order) && B.order != []
    && (forall c {:trigger c in B.order} :: c in B.keys <==> c in B.order)
    && B.slot.Keys <= B.keys && B.waiting <= B.keys && B.refs <= B.keys
  }

  predicate ScalarsOK(B: Behavior) {
    && B.count == |B.waiting| + (if Pending(B.sched) then 1 else 0)
    && (B.run.Waiting? <==> B.count != 0)
    && (B.sched.AnnounceSelf? <==> B.run == Claimed(None))
    && (B.sched.EnqueueSelf? <==> B.run == Counted(None))
    && ((B.run.Claimed? || B.run.Counted?) && B.run.via.Some? ==> B.run.via.value in B.keys)
    && B.rc == (if B.sched.Returned? then 0 else 1) + (if RunHolds(B.run) then 1 else 0) + |B.refs|
    && B.frees == (if B.rc == 0 then 1 else 0)
    && B.dispatches == (if B.run.Waiting? || B.run.Claimed? || B.run.Counted? then 0 else 1)
    && (B.commit.Some? <==> !B.sched.Linking?)
  }

  predicate CommitOK(B: Behavior, log: seq<Bid>, b: Bid) {
    B.commit.Some? ==> B.commit.value < |log| && log[B.commit.value] == b
  }

  ghost predicate BehaviorOK(s: State, b: Bid)
    requires b < |s.beh|
  {
    var B := s.beh[b];
    && KeysOK(B) && ScalarsOK(B) && CommitOK(B, s.log, b)
    && forall c {:trigger CownOK(s, b, c)} :: c in B.keys ==> CownOK(s, b, c)
  }

  /** Request `i` belongs to a behavior that knows where it is. */
  ghost predicate OwnedOK(s: State, c: Cown, i: nat)
    requires i < |QueueOf(s, c).reqs|
  {
    var o := QueueOf(s, c).reqs[i].owner;
    o < |s.beh| && c in s.beh[o].slot && s.beh[o].slot[c] == i
  }

  predicate Passed(l: Link) { l.ResolveSelf? || l.DropPrev? || l.ReapPrev? || l.Linked? }

  /** Whoever got past its predecessor finds it committed earlier. */
  ghost predicate OrderOK(s: State, c: Cown, i: nat)
    requires 0 < i < |QueueOf(s, c).reqs|
  {
    var q := QueueOf(s, c);
    var o, p := q.reqs[i].owner, q.reqs[i-1].owner;
    && o < |s.beh| && p < |s.beh|
    && (Passed(q.reqs[i].link) ==> s.beh[p].commit.Some?)
    && (s.beh[o].commit.Some? ==> s.beh[p].commit.Some? && s.beh[p].commit.value < s.beh[o].commit.value)
  }

  ghost predicate QueuesOK(s: State) {
    forall c :: c in s.cown ==> QueueOK(s.cown[c])
  }

  ghost predicate NodesOK(s: State) {
    && (forall c, i :: 0 <= i < |QueueOf(s, c).reqs| ==> OwnedOK(s, c, i))
    && (forall c, i :: 0 < i < |QueueOf(s, c).reqs| ==> OrderOK(s, c, i))
  }

  ghost predicate LogOK(s: State) {
    forall i :: 0 <= i < |s.log| ==> s.log[i] < |s.beh| && s.beh[s.log[i]].commit == Some(i)
  }

  function Holds(bs: seq<Behavior>): (n: nat) {
    if bs == [] then 0
    else Holds(bs[..|bs|-1]) + (if bs[|bs|-1].run.DropRun? || bs[|bs|-1].run.Finished? then 0 else 1)
  }

  ghost predicate Inv(s: State) {
    && QueuesOK(s) && NodesOK(s) && LogOK(s)
    && (forall b :: 0 <= b < |s.beh| ==> BehaviorOK(s, b))
    && s.terminator == Holds(s.beh)
  }

  lemma {:induction false} HoldsUpdate(bs: seq<Behavior>, b: nat, B: Behavior)
    requires b < |bs|
    ensures Holds(bs[b := B]) == Holds(bs)
              - (if bs[b].run.DropRun? || bs[b].run.Finished? then 0 else 1)
              + (if B.run.DropRun? || B.run.Finished? then 0 else 1)
  {
    var n := |bs| - 1;
    if b == n {
      assert bs[b := B][..n] == bs[..n];
    } else {
      assert bs[b := B][..n] == bs[..n][b := B];
      HoldsUpdate(bs[..n], b, B);
    }
  }

  // ------------------------------------------------------------------ framing

  /** Behaviors outside `acting` see nothing of a change to queue `c`. */
  ghost predicate Quiet(s: State, s': State, c: Cown, acting: set<Bid>) {
    var q, q' := QueueOf(s, c), QueueOf(s', c);
    && |s.beh| <= |s'.beh|
    && (forall x :: 0 <= x < |s.beh| && x !in acting ==> s'.beh[x] == s.beh[x])
    && (forall d :: d != c ==> QueueOf(s', d) == QueueOf(s, d))
    && |q.reqs| <= |q'.reqs|
    && (forall j :: 0 <= j < |q.reqs| ==> q'.reqs[j].owner == q.reqs[j].owner)
    && (forall j {:trigger ViewAt(q', j)} :: 0 <= j < |q.reqs| && q.reqs[j].owner !in acting ==> ViewAt(q', j) == ViewAt(q, j))
    && |s.log| <= |s'.log| && s'.log[..|s.log|] == s.log
  }

  lemma FrameBehavior(s: State, s': State, c: Cown, acting: set<Bid>, x: Bid)
    requires Quiet(s, s', c, acting)
    requires x < |s.beh| && x !in acting && BehaviorOK(s, x)
    ensures BehaviorOK(s', x)
  {
    var B := s.beh[x];
    forall d | d in B.keys ensures CownOK(s', x, d) {
      assert CownOK(s, x, d);
    }
    if B.commit.Some? { assert s'.log[..|s.log|][B.commit.value] == s'.log[B.commit.value]; }
  }

  lemma FrameOthers(s: State, s': State, c: Cown, acting: set<Bid>)
    requires Inv(s) && Quiet(s, s', c, acting)
    requires forall x :: 0 <= x < |s'.beh| && (x in acting || x >= |s.beh|) ==> BehaviorOK(s', x)
    ensures forall x :: 0 <= x < |s'.beh| ==> BehaviorOK(s', x)
  {
    forall x | 0 <= x < |s'.beh| ensures BehaviorOK(s', x) {
      if x < |s.beh| && x !in acting { FrameBehavior(s, s', c, acting, x); }
    }
  }

  /** Only request `i` of the queue may get past its predecessor. */
  ghost predicate LinksKept(q: Queue, q': Queue, i: nat) {
    && |q'.reqs| == |q.reqs|
    && (forall j {:trigger q'.reqs[j]} :: 0 <= j < |q.reqs| ==> q'.reqs[j].owner == q.reqs[j].owner)
    && (forall j {:trigger q'.reqs[j]} :: 0 <= j < |q.reqs| && j != i ==> q'.reqs[j].link == q.reqs[j].link)
  }

  ghost predicate SlotsKept(s: State, s': State) {
    && |s'.beh| == |s.beh|
    && forall x {:trigger s'.beh[x]} :: 0 <= x < |s.beh| ==>
         s'.beh[x].slot == s.beh[x].slot && s'.beh[x].commit == s.beh[x].commit
  }

  lemma KeepNodes(s: State, s': State, c: Cown, i: nat)
    requires NodesOK(s) && SlotsKept(s, s')
    requires forall d :: d != c ==> QueueOf(s', d) == QueueOf(s, d)
    requires LinksKept(QueueOf(s, c), QueueOf(s', c), i)
    requires 0 < i < |QueueOf(s, c).reqs| && Passed(QueueOf(s', c).reqs[i].link) ==>
      var p := QueueOf(s, c).reqs[i-1].owner; p < |s.beh| && s.beh[p].commit.Some?
    ensures NodesOK(s')
  {
    forall d, j | 0 <= j < |QueueOf(s', d).reqs| ensures OwnedOK(s', d, j) {
      assert OwnedOK(s, d, j);
    }
    forall d, j | 0 < j < |QueueOf(s', d).reqs| ensures OrderOK(s', d, j) {
      assert OrderOK(s, d, j);
    }
  }

  /** A step that leaves slots, commits and the length of its queue alone. */
  lemma Assemble(s: State, s': State, c: Cown, acting: set<Bid>, i: nat)
    requires Inv(s) && Quiet(s, s', c, acting) && s'.log == s.log && SlotsKept(s, s')
    requires forall d :: d in s'.cown ==> d == c || d in s.cown
    requires QueueOK(QueueOf(s', c)) && LinksKept(QueueOf(s, c), QueueOf(s', c), i)
    requires forall x :: x in acting ==> x < |s.beh| && BehaviorOK(s', x)
    requires 0 < i < |QueueOf(s, c).reqs| && Passed(QueueOf(s', c).reqs[i].link) ==>
      var p := QueueOf(s, c).reqs[i-1].owner; p < |s.beh| && s.beh[p].commit.Some?
    requires s'.terminator == Holds(s'.beh)
    ensures Inv(s')
  {
    FrameOthers(s, s', c, acting);
    forall d | d in s'.cown ensures QueueOK(s'.cown[d]) {
      if d != c { assert QueueOf(s', d) == s.cown[d]; }
    }
    KeepNodes(s, s', c, i);
  }
}
