/** Once every `whencall` has returned and no behavior runs, what is left of the
    protocol is a schedule: a behavior is on a run queue exactly when no unfinished
    behavior it shares a cown with comes before it in the serial order. */
module CownDrain {
  import opened Wrappers
  import opened RequestQueue
  import opened CownProtocol
  import opened CownInvariant
  import opened CownSteps
  import opened CownRelease
  import opened CownTheorems
  import opened CownLiveness
  import opened CownShape
  import opened CownTermination
  import SD = ShutdownDrain

  /** No thread is inside a scheduling or releasing operation. */
  ghost predicate Settled(s: State) {
    forall x {:trigger s.beh[x]} :: 0 <= x < |s.beh| ==>
      s.beh[x].sched.Returned? && (s.beh[x].run.Waiting? || s.beh[x].run.Queued? || s.beh[x].run.Finished?)
  }

  /** `a` is unfinished, shares `c` with `b`, and was committed before it. */
  predicate Precedes(s: State, a: Bid, b: Bid, c: Cown) {
    && a < |s.beh| && b < |s.beh| && !s.beh[a].run.Finished? && c in s.beh[a].keys && c in s.beh[b].keys
    && s.beh[a].commit.Some? && s.beh[b].commit.Some? && s.beh[a].commit.value < s.beh[b].commit.value
  }

  lemma SettledView(s: State, b: Bid, c: Cown)
    requires Inv(s) && Settled(s) && b < |s.beh| && c in s.beh[b].keys
    ensures c in s.beh[b].slot && s.beh[b].slot[c] < |QueueOf(s, c).reqs| && s.beh[b].commit.Some?
    ensures var r := QueueOf(s, c).reqs[s.beh[b].slot[c]];
      && r.owner == b && r.link.Linked? && (if s.beh[b].run.Finished? then r.rel.Gone? else r.rel.Held?)
      && (c in s.beh[b].waiting <==> s.beh[b].slot[c] > QueueOf(s, c).head)
      && (Released(r) <==> s.beh[b].slot[c] < QueueOf(s, c).head)
  {
    assert BehaviorOK(s, b) && CownOK(s, b, c);
    assert NodeOK(QueueOf(s, c), s.beh[b].slot[c]);
  }

  /** A queued behavior has nobody unfinished before it. */
  lemma QueuedIsFirst(s: State, a: Bid, b: Bid, c: Cown)
    requires Inv(s) && Settled(s) && b < |s.beh| && s.beh[b].run.Queued?
    ensures !Precedes(s, a, b, c)
  {
    if Precedes(s, a, b, c) {
      SettledView(s, a, c);
      SettledView(s, b, c);
      DispatchedHeadsAll(s, b, c);
      var i, j := s.beh[a].slot[c], s.beh[b].slot[c];
      if i > j { ChainOrder(s, c, j, i); }
    }
  }

  /** One that waits has somebody: whoever holds a cown it waits for. */
  lemma WaiterHasBefore(s: State, b: Bid) returns (a: Bid, c: Cown)
    requires Inv(s) && Settled(s) && b < |s.beh| && s.beh[b].run.Waiting?
    ensures Precedes(s, a, b, c)
  {
    assert BehaviorOK(s, b);
    assert s.beh[b].waiting != {};
    c :| c in s.beh[b].waiting;
    SettledView(s, b, c);
    var h := QueueOf(s, c).head;
    assert OwnedOK(s, c, h) && NodeOK(QueueOf(s, c), h);
    a := QueueOf(s, c).reqs[h].owner;
    assert BehaviorOK(s, a);
    SettledView(s, a, c);
    ChainOrder(s, c, h, s.beh[b].slot[c]);
  }

  lemma QueuedIff(s: State, b: Bid)
    requires Inv(s) && Settled(s) && b < |s.beh| && !s.beh[b].run.Finished?
    ensures s.beh[b].run.Queued? <==> forall a, c :: !Precedes(s, a, b, c)
  {
    if s.beh[b].run.Queued? {
      forall a, c ensures !Precedes(s, a, b, c) { QueuedIsFirst(s, a, b, c); }
    } else {
      var a, c := WaiterHasBefore(s, b);
    }
  }

  // ------------------------------------------------ what the shutdown drain starts from

  /** The schedule the drain works on: behaviors numbered by their commit. */
  function ScheduleOf(s: State, pinned: set<Cown>): (d: SD.Schedule)
    requires forall i :: 0 <= i < |s.log| ==> s.log[i] < |s.beh|
  {
    SD.Schedule(seq(|s.log|, i requires 0 <= i < |s.log| => s.beh[s.log[i]].keys),
                set i | 0 <= i < |s.log| && s.beh[s.log[i]].keys * pinned != {})
  }

  function LeftOf(s: State): (left: set<nat>)
    requires forall i :: 0 <= i < |s.log| ==> s.log[i] < |s.beh|
  {
    set i | 0 <= i < |s.log| && !s.beh[s.log[i]].run.Finished?
  }

  /** Every behavior has a number. */
  lemma Numbered(s: State, b: Bid)
    requires Inv(s) && Settled(s) && b < |s.beh|
    ensures s.beh[b].commit.Some? && s.beh[b].commit.value < |s.log| && s.log[s.beh[b].commit.value] == b
  {
    assert BehaviorOK(s, b);
  }

  lemma QueuedReady(s: State, pinned: set<Cown>, i: nat, j: nat)
    requires Inv(s) && Settled(s) && i < |s.log| && s.beh[s.log[i]].run.Queued? && j in LeftOf(s) && j < i
    ensures !SD.Conflict(ScheduleOf(s, pinned), j, i)
  {
    if c :| c in s.beh[s.log[j]].keys * s.beh[s.log[i]].keys {
      QueuedIsFirst(s, s.log[j], s.log[i], c);
    }
  }

  lemma WaitingNotReady(s: State, pinned: set<Cown>, i: nat)
    requires Inv(s) && Settled(s) && i < |s.log| && s.beh[s.log[i]].run.Waiting?
    ensures !SD.Ready(ScheduleOf(s, pinned), LeftOf(s), i)
  {
    var a, c := WaiterHasBefore(s, s.log[i]);
    Numbered(s, a);
    var j := s.beh[a].commit.value;
    assert j in LeftOf(s) && j < i;
    assert c in s.beh[s.log[j]].keys * s.beh[s.log[i]].keys;
    assert SD.Conflict(ScheduleOf(s, pinned), j, i);
  }

  /** The queued behaviors are the ones the drain finds ready. */
  lemma ReadyIff(s: State, pinned: set<Cown>, i: nat)
    requires Inv(s) && Settled(s) && i < |s.log|
    ensures SD.Ready(ScheduleOf(s, pinned), LeftOf(s), i) <==> s.beh[s.log[i]].run.Queued?
  {
    assert s.log[i] < |s.beh|;
    if s.beh[s.log[i]].run.Queued? {
      forall j | j in LeftOf(s) && j < i ensures !SD.Conflict(ScheduleOf(s, pinned), j, i) { QueuedReady(s, pinned, i, j); }
    } else if s.beh[s.log[i]].run.Waiting? {
      WaitingNotReady(s, pinned, i);
    }
  }

  function Unfinished(bs: seq<Behavior>, n: nat): (r: set<Bid>)
    requires n <= |bs|
  {
    set b | 0 <= b < n && !bs[b].run.Finished?
  }

  lemma {:induction false} HoldsUnfinished(bs: seq<Behavior>, n: nat)
    requires n <= |bs| && forall b :: 0 <= b < n ==> !bs[b].run.DropRun?
    ensures Holds(bs[..n]) == |Unfinished(bs, n)|
  {
    if n == 0 {
      assert Unfinished(bs, 0) == {};
    } else {
      HoldsUnfinished(bs, n - 1);
      assert bs[..n][..n-1] == bs[..n-1];
      assert Unfinished(bs, n) == Unfinished(bs, n - 1) + if bs[n-1].run.Finished? then {} else {n - 1};
    }
  }

  function Image(log: seq<Bid>, xs: set<nat>): (bs: set<Bid>) { set i | i in xs && i < |log| :: log[i] }

  lemma {:induction false} ImageSize(log: seq<Bid>, xs: set<nat>)
    requires forall i :: i in xs ==> i < |log|
    requires forall i, j :: i in xs && j in xs && log[i] == log[j] ==> i == j
    ensures |Image(log, xs)| == |xs|
  {
    if xs == {} {
      assert Image(log, xs) == {};
    } else {
      var x :| x in xs;
      ImageSize(log, xs - {x});
      assert Image(log, xs) == Image(log, xs - {x}) + {log[x]};
    }
  }

  /** One terminator hold is out for each behavior that is left to drain. */
  lemma HoldsLeft(s: State)
    requires Inv(s) && Settled(s)
    ensures s.terminator == |LeftOf(s)|
  {
    HoldsUnfinished(s.beh, |s.beh|);
    assert s.beh[..|s.beh|] == s.beh;
    ImageSize(s.log, LeftOf(s));
    forall b ensures b in Unfinished(s.beh, |s.beh|) <==> b in Image(s.log, LeftOf(s)) {
      if b in Unfinished(s.beh, |s.beh|) {
        Numbered(s, b);
        assert s.beh[b].commit.value in LeftOf(s);
      }
    }
    assert Unfinished(s.beh, |s.beh|) == Image(s.log, LeftOf(s));
  }

  // ------------------------------------------------------- a drained behavior's own steps

  /** Only the thread that drains `b` is at work. */
  ghost predicate Draining(s: State, b: Bid) {
    && Inv(s) && b < |s.beh| && s.beh[b].sched.Returned? && !Undispatched(s.beh[b].run)
    && forall x {:trigger s.beh[x]} :: 0 <= x < |s.beh| && x != b ==>
         s.beh[x].sched.Returned? && (Undispatched(s.beh[x].run) || s.beh[x].run.Queued? || s.beh[x].run.Finished?)
  }

  predicate Undispatched(r: Run) { r.Waiting? || r.Claimed? || r.Counted? }

  /** It is never stuck. */
  lemma DrainEnabled(s: State, b: Bid)
    requires Draining(s, b) && !s.beh[b].run.Finished?
    ensures CanRun(s, b)
  {
    if s.beh[b].run.Releasing? { ReleaseEnabled(s, b); }
  }

  /** What a step of the drain leaves as it is. */
  ghost predicate SameWork(s: State, s': State, b: Bid) {
    && |s'.beh| == |s.beh| && s'.log == s.log
    && (forall x {:trigger s'.beh[x]} :: 0 <= x < |s.beh| ==> s'.beh[x].keys == s.beh[x].keys)
    && (forall x {:trigger s'.beh[x]} :: 0 <= x < |s.beh| && x != b ==>
          (s'.beh[x].run.Finished? <==> s.beh[x].run.Finished?))
  }

  lemma DrainStep(s: State, b: Bid)
    requires Draining(s, b) && CanRun(s, b)
    ensures Draining(RunStep(s, b), b) && SameWork(s, RunStep(s, b), b)
    ensures Left(RunStep(s, b), b) < Left(s, b)
  {
    NextInv(s, DoRun(b));
    RunLess(s, b);
    if s.beh[b].run.Releasing? { DrainRelease(s, b); }
  }

  /** A releasing step takes at most its successor on, among the early stages. */
  lemma DrainRelease(s: State, b: Bid)
    requires Draining(s, b) && CanRun(s, b) && s.beh[b].run.Releasing?
    ensures SameWork(s, RunStep(s, b), b) && b < |RunStep(s, b).beh|
    ensures !Undispatched(RunStep(s, b).beh[b].run) && RunStep(s, b).beh[b].sched.Returned?
    ensures forall x {:trigger RunStep(s, b).beh[x]} :: 0 <= x < |s.beh| && x != b ==>
         RunStep(s, b).beh[x].sched.Returned? && Onward(s.beh[x].run, RunStep(s, b).beh[x].run)
  {
    var s', k := RunStep(s, b), s.beh[b].run.at;
    assert BehaviorOK(s, b);
    ReleaseSite(s, b, k);
    var y := ReleaseShape(s, b, k);
    forall x {:trigger s'.beh[x]} | 0 <= x < |s.beh|
      ensures s'.beh[x].sched.Returned? && s'.beh[x].keys == s.beh[x].keys
      ensures if x == b then !Undispatched(s'.beh[x].run) else Onward(s.beh[x].run, s'.beh[x].run)
    {
      if x == y { DrainTouched(s, b, k, x); }
    }
  }

  /** Not dispatched yet and closer to it, or unchanged. */
  predicate Onward(r: Run, r': Run) { r' == r || (Undispatched(r) && (Undispatched(r') || r'.Queued?)) }

  lemma DrainTouched(s: State, b: Bid, k: nat, x: Bid)
    requires ReleasingAt(s, b, k) && CanRelease(s, b, k)
    requires s.beh[b].run == Releasing(k) && x < |s.beh| && s.beh[x].sched.Returned?
    ensures var s' := ReleaseStep(s, b, k);
      && x < |s'.beh| && s'.beh[x].keys == s.beh[x].keys && s'.beh[x].sched.Returned?
      && (if x == b then !Undispatched(s'.beh[x].run) else Onward(s.beh[x].run, s'.beh[x].run))
  {
    DrainPartner(s, b, k);
  }

  lemma DrainPartner(s: State, b: Bid, k: nat)
    requires ReleasingAt(s, b, k)
    ensures var rel := ReqOf(s, b, k).rel;
      && (rel.HandOver? && rel.to < |s.beh| && s.beh[rel.to].count == 1 ==> s.beh[rel.to].run.Waiting?)
      && (rel.Announce? && rel.to < |s.beh| ==> s.beh[rel.to].run.Claimed?)
      && (rel.Enqueue? && rel.to < |s.beh| ==> s.beh[rel.to].run.Counted?)
  {
    ReleaseSite(s, b, k);
    if ReqOf(s, b, k).next.Some? { NextSite(s, b, k); }
  }

  /** The steps of the thread that drains `b`, to its end. */
  ghost function Drained(s: State, b: Bid): (s': State)
    requires Draining(s, b)
    decreases Left(s, b)
  {
    if s.beh[b].run.Finished? then s
    else
      DrainEnabled(s, b);
      DrainStep(s, b);
      Drained(RunStep(s, b), b)
  }

  lemma {:induction false} DrainedWork(s: State, b: Bid)
    requires Draining(s, b)
    ensures Draining(Drained(s, b), b) && SameWork(s, Drained(s, b), b) && Drained(s, b).beh[b].run.Finished?
    decreases Left(s, b)
  {
    if !s.beh[b].run.Finished? {
      DrainEnabled(s, b);
      DrainStep(s, b);
      DrainedWork(RunStep(s, b), b);
    }
  }

  /** A behavior between its last count and its queue has somebody putting it there. */
  lemma Putter(s: State, x: Bid) returns (y: Bid)
    requires Inv(s) && x < |s.beh| && (s.beh[x].run.Claimed? || s.beh[x].run.Counted?) && s.beh[x].sched.Returned?
    ensures y < |s.beh| && s.beh[y].run.Releasing?
  {
    assert BehaviorOK(s, x);
    var c := s.beh[x].run.via.value;
    assert CownOK(s, x, c);
    var i := s.beh[x].slot[c];
    assert OwnedOK(s, c, i - 1);
    y := QueueOf(s, c).reqs[i-1].owner;
    KnownView(s, y, c);
  }

  lemma DrainSettles(s: State, b: Bid)
    requires Draining(s, b) && s.beh[b].run.Finished?
    ensures Settled(s)
  {
    forall x {:trigger s.beh[x]} | 0 <= x < |s.beh|
      ensures s.beh[x].sched.Returned? && (s.beh[x].run.Waiting? || s.beh[x].run.Queued? || s.beh[x].run.Finished?)
    {
      if s.beh[x].run.Claimed? || s.beh[x].run.Counted? { var y := Putter(s, x); }
    }
  }

  /** What is left when one behavior has finished and nothing else changed. */
  lemma WorkLeft(s: State, s': State, pinned: set<Cown>, i: nat)
    requires LogOK(s) && i < |s.log| && SameWork(s, s', s.log[i]) && s'.beh[s.log[i]].run.Finished?
    ensures LogOK(s') ==> ScheduleOf(s', pinned) == ScheduleOf(s, pinned) && LeftOf(s') == LeftOf(s) - {i}
  {
    forall j | 0 <= j < |s.log| && j != i ensures s.log[j] != s.log[i] { assert s.beh[s.log[j]].commit == Some(j); }
  }

  /** Draining one queued behavior is one step of the schedule: the protocol settles
      again, with that behavior gone, its hold dropped and everything else unchanged. */
  lemma DrainOne(s: State, pinned: set<Cown>, i: nat)
    requires Inv(s) && Settled(s) && SD.Ready(ScheduleOf(s, pinned), LeftOf(s), i)
    ensures i < |s.log| && Draining(s, s.log[i])
    ensures var s' := Drained(s, s.log[i]);
      && Inv(s') && Settled(s') && ScheduleOf(s', pinned) == ScheduleOf(s, pinned)
      && LeftOf(s') == LeftOf(s) - {i} && s'.terminator == s.terminator - 1
  {
    ReadyDrains(s, pinned, i);
    var s' := Drained(s, s.log[i]);
    DrainedWork(s, s.log[i]);
    DrainSettles(s', s.log[i]);
    WorkLeft(s, s', pinned, i);
    DrainedHolds(s, s', i);
  }

  lemma ReadyDrains(s: State, pinned: set<Cown>, i: nat)
    requires Inv(s) && Settled(s) && SD.Ready(ScheduleOf(s, pinned), LeftOf(s), i)
    ensures i < |s.log| && Draining(s, s.log[i])
  {
    ReadyIff(s, pinned, i);
  }

  lemma DrainedHolds(s: State, s': State, i: nat)
    requires Inv(s) && Settled(s) && Inv(s') && Settled(s') && i in LeftOf(s) && LeftOf(s') == LeftOf(s) - {i}
    ensures s'.terminator == s.terminator - 1
  {
    HoldsLeft(s);
    HoldsLeft(s');
  }

  /** The states that drain after drain leads through. */
  ghost predicate Drains(ss: seq<State>, turns: seq<nat>) {
    && |ss| == |turns| + 1
    && forall k {:trigger ss[k]} :: 0 <= k < |turns| ==> Drain(ss[k], turns[k], ss[k+1])
  }

  ghost predicate Drain(s: State, i: nat, s': State) {
    i < |s.log| && Draining(s, s.log[i]) && s' == Drained(s, s.log[i])
  }

  lemma DrainsThen(s: State, i: nat, ss: seq<State>, turns: seq<nat>)
    requires Drains(ss, turns) && Drain(s, i, ss[0])
    ensures Drains([s] + ss, [i] + turns)
  {
    var ss', turns' := [s] + ss, [i] + turns;
    forall k {:trigger ss'[k]} | 0 <= k < |turns'| ensures Drain(ss'[k], turns'[k], ss'[k+1]) {
      if k > 0 { assert Drain(ss[k-1], turns[k-1], ss[k]); }
    }
  }

  /** The protocol has settled with `left` of the schedule `d` still to do, one hold for each. */
  ghost predicate LeftWith(z: State, pinned: set<Cown>, d: SD.Schedule, left: set<nat>) {
    Inv(z) && Settled(z) && ScheduleOf(z, pinned) == d && LeftOf(z) == left && z.terminator == |left|
  }

  /** Whatever the drain does on the schedule, the protocol does on its requests. */
  lemma DrainRun(s: State, pinned: set<Cown>, turns: seq<nat>) returns (ss: seq<State>)
    requires Inv(s) && Settled(s) && SD.DrainOrder(ScheduleOf(s, pinned), LeftOf(s), turns)
    ensures Drains(ss, turns) && ss[0] == s
    ensures LeftWith(ss[|turns|], pinned, ScheduleOf(s, pinned), LeftOf(s) - SD.Taken(turns))
  {
    HoldsLeft(s);
    ss := DrainOn(s, pinned, ScheduleOf(s, pinned), LeftOf(s), turns);
  }

  lemma {:induction false} DrainOn(s: State, pinned: set<Cown>, d: SD.Schedule, left: set<nat>, turns: seq<nat>)
    returns (ss: seq<State>)
    requires LeftWith(s, pinned, d, left) && SD.DrainOrder(d, left, turns)
    ensures Drains(ss, turns) && ss[0] == s && LeftWith(ss[|turns|], pinned, d, left - SD.Taken(turns))
    decreases |turns|
  {
    if turns == [] {
      ss := [s];
      assert left - SD.Taken(turns) == left;
    } else {
      DrainNext(s, pinned, d, left, turns[0]);
      var rest := DrainOn(Drained(s, s.log[turns[0]]), pinned, d, left - {turns[0]}, turns[1..]);
      ss := DrainFirst(s, turns, rest);
      assert left - {turns[0]} - SD.Taken(turns[1..]) == left - SD.Taken(turns);
    }
  }

  lemma DrainNext(s: State, pinned: set<Cown>, d: SD.Schedule, left: set<nat>, i: nat)
    requires LeftWith(s, pinned, d, left) && SD.Ready(d, left, i)
    ensures i < |s.log| && Draining(s, s.log[i]) && LeftWith(Drained(s, s.log[i]), pinned, d, left - {i})
  {
    DrainOne(s, pinned, i);
  }

  lemma DrainFirst(s: State, turns: seq<nat>, rest: seq<State>) returns (ss: seq<State>)
    requires turns != [] && Drains(rest, turns[1..]) && Drain(s, turns[0], rest[0])
    ensures Drains(ss, turns) && ss[0] == s && ss[|turns|] == rest[|turns| - 1]
    ensures SD.Taken(turns) == {turns[0]} + SD.Taken(turns[1..])
  {
    DrainsThen(s, turns[0], rest, turns[1..]);
    assert [turns[0]] + turns[1..] == turns;
    ss := [s] + rest;
  }

  /** stop_workers on a settled state, whatever the order of its run queues: the drain's
      loop on the schedule, and the steps of the protocol that it stands for.  If the
      loop converges every behavior has finished; else those left are those of a
      level that the cap does not reach. */
  method StopProtocol(ghost s: State, ghost pinned: set<Cown>, d: SD.Schedule, linked: set<nat>,
                      queued: seq<nat>, queuedPinned: seq<nat>)
    returns (rounds: nat, converged: bool, ghost ss: seq<State>, ghost turns: seq<nat>)
    requires Inv(s) && Settled(s) && d == ScheduleOf(s, pinned) && linked == LeftOf(s)
    requires forall i :: i in queued <==> OnQueue(s, i) && i !in d.pinned
    requires forall i :: i in queuedPinned <==> OnQueue(s, i) && i in d.pinned
    requires SD.Once(queued) && SD.Once(queuedPinned)
    ensures Drains(ss, turns) && ss[0] == s && Inv(ss[|turns|]) && Settled(ss[|turns|])
    ensures LeftOf(ss[|turns|]) == set i | i in linked && SD.Level(d, linked, i) >= rounds
    ensures ss[|turns|].terminator == |LeftOf(ss[|turns|])|
    ensures converged <==> forall i :: i in linked ==> SD.Level(d, linked, i) + 2 <= SD.MAX_ROUNDS
    ensures !converged ==> rounds == SD.MAX_ROUNDS
    ensures converged ==> AllFinished(ss[|turns|]) && ss[|turns|].terminator == 0
  {
    forall i: nat ensures SD.Ready(d, linked, i) <==> OnQueue(s, i) {
      if i < |s.log| { ReadyIff(s, pinned, i); }
    }
    var rt := new SD.Runtime(d, linked, queued, queuedPinned);
    rounds, converged := rt.StopDrain();
    turns := rt.order;
    ss := DrainRun(s, pinned, turns);
    if converged { NoneLeft(ss[|turns|]); }
  }

  predicate OnQueue(s: State, i: nat) { i < |s.log| && s.log[i] < |s.beh| && s.beh[s.log[i]].run.Queued? }

  ghost predicate AllFinished(s: State) { forall b {:trigger s.beh[b]} :: 0 <= b < |s.beh| ==> s.beh[b].run.Finished? }

  lemma NoneLeft(s: State)
    requires Inv(s) && Settled(s) && LeftOf(s) == {}
    ensures AllFinished(s) && s.terminator == 0
  {
    HoldsLeft(s);
    forall b {:trigger s.beh[b]} | 0 <= b < |s.beh| ensures s.beh[b].run.Finished? {
      Numbered(s, b);
      assert s.beh[b].commit.value !in LeftOf(s);
    }
  }
}
