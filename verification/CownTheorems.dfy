/** What the scheduling protocol guarantees, in every reachable state. */
module CownTheorems {
  import opened Wrappers
  import opened RequestQueue
  import opened CownProtocol
  import opened CownInvariant
  import opened CownSteps
  import opened CownRelease

  // ---------------------------------------------------------------------- runs

  lemma {:induction false} KeyCount(order: seq<Cown>)
    requires Sorted(order)
    ensures |KeySet(order)| == |order|
  {
    if order == [] {
      assert KeySet(order) == {};
    } else {
      var n := |order| - 1;
      KeyCount(order[..n]);
      assert order == order[..n] + [order[n]];
      assert KeySet(order) == KeySet(order[..n]) + {order[n]};
    }
  }

  lemma FreshBehavior(s: State, order: seq<Cown>, caller: Option<Bid>)
    requires CanSpawn(s, order, caller)
    ensures BehaviorOK(Spawn(s, order, caller), |s.beh|)
  {
    var s' := Spawn(s, order, caller);
    var B := s'.beh[|s.beh|];
    KeyCount(order);
    assert |B.refs| == 0;
    forall c | c in B.keys ensures CownOK(s', |s.beh|, c) {
      assert c in B.order;
      var j :| 0 <= j < |order| && order[j] == c;
      assert c >= order[0];
    }
  }

  lemma SpawnInv(s: State, order: seq<Cown>, caller: Option<Bid>)
    requires Inv(s) && CanSpawn(s, order, caller)
    ensures Inv(Spawn(s, order, caller))
  {
    var s' := Spawn(s, order, caller);
    FreshBehavior(s, order, caller);
    assert forall d :: QueueOf(s', d) == QueueOf(s, d);
    FrameOthers(s, s', 0, {});
    assert s'.beh[..|s'.beh|-1] == s.beh;
    forall d, j | 0 <= j < |QueueOf(s', d).reqs| ensures OwnedOK(s', d, j) {
      assert OwnedOK(s, d, j);
    }
    forall d, j | 0 < j < |QueueOf(s', d).reqs| ensures OrderOK(s', d, j) {
      assert OrderOK(s, d, j);
    }
  }

  /** A run: consecutive states, each reached by an enabled atomic step. */
  ghost predicate IsRun(ss: seq<State>, ts: seq<Step>) {
    && |ss| == |ts| + 1 && ss[0] == Init
    && forall i :: 0 <= i < |ts| ==> Enabled(ss[i], ts[i]) && ss[i+1] == Next(ss[i], ts[i])
  }

  lemma NextInv(s: State, t: Step)
    requires Inv(s) && Enabled(s, t)
    ensures Inv(Next(s, t))
  {
    match t
    case DoSpawn(order, caller) => SpawnInv(s, order, caller);
    case DoSchedule(b) => ScheduleInv(s, b);
    case DoRun(b) => RunInv(s, b);
  }

  /** The invariant holds in every state of every run, whatever the interleaving. */
  lemma {:induction false} RunsKeepInv(ss: seq<State>, ts: seq<Step>, i: nat)
    requires IsRun(ss, ts) && i < |ss|
    ensures Inv(ss[i])
  {
    if i > 0 {
      RunsKeepInv(ss, ts, i - 1);
      NextInv(ss[i-1], ts[i-1]);
    }
  }

  // ---------------------------------------------------------- mutual exclusion

  /** `b` has been dispatched, or is about to be, and has not given `c` up. */
  predicate Owns(s: State, b: Bid, c: Cown) {
    && b < |s.beh| && c in s.beh[b].keys && !s.beh[b].run.Waiting?
    && c in s.beh[b].slot && s.beh[b].slot[c] < |QueueOf(s, c).reqs|
    && !Released(QueueOf(s, c).reqs[s.beh[b].slot[c]])
  }

  /** A behavior whose count reached zero has finished both phases and heads
      every one of its queues; until it starts releasing it owns all its cowns. */
  lemma DispatchedHeadsAll(s: State, b: Bid, c: Cown)
    requires Inv(s) && b < |s.beh| && !s.beh[b].run.Waiting? && c in s.beh[b].keys
    ensures c in s.beh[b].slot && s.beh[b].slot[c] < |QueueOf(s, c).reqs|
    ensures var q, i := QueueOf(s, c), s.beh[b].slot[c];
      && q.reqs[i].owner == b && q.reqs[i].link.Linked? && q.reqs[i].scheduled
      && (Owns(s, b, c) <==> i == q.head) && i <= q.head
    ensures !s.beh[b].run.Releasing? && !Done(s.beh[b].run) ==> Owns(s, b, c)
  {
    assert BehaviorOK(s, b) && CownOK(s, b, c);
    assert s.beh[b].waiting == {};
    var q, i := QueueOf(s, c), s.beh[b].slot[c];
    assert NodeOK(q, i);
  }

  /** No two behaviors own a cown at once. */
  lemma MutualExclusion(s: State, a: Bid, b: Bid, c: Cown)
    requires Inv(s) && Owns(s, a, c) && Owns(s, b, c)
    ensures a == b
  {
    DispatchedHeadsAll(s, a, c);
    DispatchedHeadsAll(s, b, c);
  }

  /** A behavior is put on a run queue at most once, and by the time it has
      finished, exactly once. */
  lemma ExactlyOnce(s: State, b: Bid)
    requires Inv(s) && b < |s.beh|
    ensures s.beh[b].dispatches <= 1
    ensures s.beh[b].run.Running? || Done(s.beh[b].run) ==> s.beh[b].dispatches == 1
    ensures s.beh[b].dispatches == 1 ==> s.beh[b].waiting == {} && s.beh[b].count == 0 && s.beh[b].commit.Some?
  {
    assert BehaviorOK(s, b);
  }

  // ------------------------------------------------------------ serial order

  /** `a` was linked before `b` on cown `c`. */
  predicate Before(s: State, a: Bid, b: Bid, c: Cown) {
    && a < |s.beh| && b < |s.beh| && c in s.beh[a].slot && c in s.beh[b].slot
    && s.beh[a].slot[c] < s.beh[b].slot[c]
  }

  /** The cown whose queue a behavior still in phase 1 is joining. */
  function Current(B: Behavior): (c: Cown) {
    if B.sched.Linking? && B.sched.at < |B.order| then B.order[B.sched.at] else 0
  }

  /** The order behaviors are serialized in: first those that have finished
      phase 1, by the time they did; then the others, the further along the
      earlier, and by queue position on a shared current cown. */
  predicate Earlier(s: State, a: Bid, b: Bid) {
    && a < |s.beh| && b < |s.beh|
    && var A, B := s.beh[a], s.beh[b];
       if A.commit.Some? then B.commit.Some? ==> A.commit.value < B.commit.value
       else
         && B.commit.None?
         && (Current(A) > Current(B) ||
              (Current(A) == Current(B) && Current(A) in A.slot && Current(B) in B.slot
                && A.slot[Current(A)] < B.slot[Current(B)]))
  }

  lemma {:induction false} ChainOrder(s: State, c: Cown, i: nat, j: nat)
    requires Inv(s) && i < j < |QueueOf(s, c).reqs|
    ensures var a, b := QueueOf(s, c).reqs[i].owner, QueueOf(s, c).reqs[j].owner;
      && a < |s.beh| && b < |s.beh|
      && (Passed(QueueOf(s, c).reqs[j].link) || s.beh[b].commit.Some? ==> s.beh[a].commit.Some?)
      && (s.beh[b].commit.Some? ==> s.beh[a].commit.value < s.beh[b].commit.value)
    decreases j
  {
    assert OrderOK(s, c, j);
    if i < j - 1 { ChainOrder(s, c, i, j - 1); }
  }

  lemma AtCurrent(s: State, b: Bid, c: Cown)
    requires Inv(s) && b < |s.beh| && s.beh[b].commit.None? && c in s.beh[b].slot
    ensures c <= Current(s.beh[b])
    ensures s.beh[b].slot[c] < |QueueOf(s, c).reqs| && QueueOf(s, c).reqs[s.beh[b].slot[c]].owner == b
    ensures c < Current(s.beh[b]) ==> QueueOf(s, c).reqs[s.beh[b].slot[c]].link.Linked?
  {
    KnownView(s, b, c);
  }

  /** Every per-cown queue order agrees with the one serial order. */
  lemma Serializable(s: State, a: Bid, b: Bid, c: Cown)
    requires Inv(s) && Before(s, a, b, c)
    ensures Earlier(s, a, b)
  {
    KnownView(s, a, c);
    KnownView(s, b, c);
    ChainOrder(s, c, s.beh[a].slot[c], s.beh[b].slot[c]);
    if s.beh[a].commit.None? {
      AtCurrent(s, a, c);
      AtCurrent(s, b, c);
    }
  }

  lemma EarlierTransitive(s: State, a: Bid, b: Bid, d: Bid)
    requires Earlier(s, a, b) && Earlier(s, b, d)
    ensures Earlier(s, a, d)
  {
  }

  /** A path through the per-cown orders; `on[i]` is the cown of its i-th edge. */
  ghost predicate IsPath(s: State, p: seq<Bid>, on: seq<Cown>) {
    |p| == |on| + 1 && forall i :: 0 <= i < |on| ==> Before(s, p[i], p[i+1], on[i])
  }

  lemma {:induction false} PathEarlier(s: State, p: seq<Bid>, on: seq<Cown>)
    requires Inv(s) && IsPath(s, p, on) && on != []
    ensures Earlier(s, p[0], p[|p|-1])
  {
    var n := |on|;
    Serializable(s, p[n-1], p[n], on[n-1]);
    if n > 1 {
      PathEarlier(s, p[..n], on[..n-1]);
      EarlierTransitive(s, p[0], p[n-1], p[n]);
    }
  }

  /** The union of the orders of all cowns has no cycle, of any length. */
  lemma Acyclic(s: State, p: seq<Bid>, on: seq<Cown>)
    requires Inv(s) && IsPath(s, p, on) && on != []
    ensures p[0] != p[|p|-1]
  {
    PathEarlier(s, p, on);
  }

  /** Two behaviors stand in the same order on every cown they share, even while
      both are still linking one exchange at a time. */
  lemma SameOrder(s: State, a: Bid, b: Bid, c: Cown, d: Cown)
    requires Inv(s) && Before(s, a, b, c)
    requires d in s.beh[a].slot && d in s.beh[b].slot
    ensures Before(s, a, b, d)
  {
    KnownView(s, a, d);
    KnownView(s, b, d);
    if s.beh[b].slot[d] < s.beh[a].slot[d] {
      Acyclic(s, [a, b, a], [c, d]);
    }
  }
}
