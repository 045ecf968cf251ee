/** Behaviors scheduled one after the other, each `whencall` to its end, with no worker
    at work: whatever cowns they are given, that is the schedule the drain then finds. */
module CownSchedules {
  import opened Wrappers
  import opened RequestQueue
  import opened CownProtocol
  import opened CownInvariant
  import opened CownSteps
  import opened CownTheorems
  import opened CownLiveness
  import opened CownTermination
  import opened CownDrain
  import SD = ShutdownDrain

  /** Only the thread scheduling the last behavior is at work; `log` was there before. */
  ghost predicate Scheduling(s: State, orders: seq<seq<Cown>>, log: seq<Bid>) {
    Inv(s) && OnlyLast(s, orders, log)
  }

  predicate OnlyLast(s: State, orders: seq<seq<Cown>>, log: seq<Bid>) {
    && 0 < |orders| == |s.beh|
    && (forall x {:trigger s.beh[x]} :: 0 <= x < |s.beh| ==> s.beh[x].order == orders[x] && Unstarted(s.beh[x].run))
    && (forall x {:trigger s.beh[x]} :: 0 <= x < |s.beh| - 1 ==>
          s.beh[x].sched.Returned? && !s.beh[x].run.Claimed? && !s.beh[x].run.Counted?)
    && s.log == if s.beh[|s.beh|-1].commit.Some? then log + [|s.beh|-1] else log
  }

  predicate Unstarted(r: Run) { r.Waiting? || r.Claimed? || r.Counted? || r.Queued? }

  /** A scheduling step changes one behavior, and starts none. */
  lemma OneScheduled(s: State, b: Bid)
    requires CanSchedule(s, b) && ScalarsOK(s.beh[b]) && Unstarted(s.beh[b].run)
    ensures var s' := ScheduleStep(s, b);
      && |s'.beh| == |s.beh| && s'.beh == s.beh[b := s'.beh[b]] && s'.beh[b].order == s.beh[b].order
      && Unstarted(s'.beh[b].run)
      && (if s.beh[b].commit.None? && s'.beh[b].commit.Some? then s'.log == s.log + [b]
          else s'.log == s.log && (s'.beh[b].commit.Some? <==> s.beh[b].commit.Some?))
  {
  }

  lemma OnlyLastOn(s: State, orders: seq<seq<Cown>>, log: seq<Bid>)
    requires OnlyLast(s, orders, log) && CanSchedule(s, |s.beh|-1) && ScalarsOK(s.beh[|s.beh|-1])
    ensures OnlyLast(ScheduleStep(s, |s.beh|-1), orders, log)
  {
    OneScheduled(s, |s.beh|-1);
  }

  lemma ScheduleOn(s: State, orders: seq<seq<Cown>>, log: seq<Bid>)
    requires Scheduling(s, orders, log) && !s.beh[|s.beh|-1].sched.Returned?
    ensures CanSchedule(s, |s.beh|-1)
    ensures Scheduling(ScheduleStep(s, |s.beh|-1), orders, log)
    ensures |ScheduleStep(s, |s.beh|-1).beh| == |s.beh| && Left(ScheduleStep(s, |s.beh|-1), |s.beh|-1) < Left(s, |s.beh|-1)
  {
    var b := |s.beh| - 1;
    Unhindered(s, b);
    assert OnlyLast(ScheduleStep(s, b), orders, log) by {
      assert BehaviorOK(s, b);
      OnlyLastOn(s, orders, log);
    }
    ScheduleInv(s, b);
    ScheduleLess(s, b);
  }

  /** Nobody it could wait for is still scheduling. */
  lemma Unhindered(s: State, b: Bid)
    requires Inv(s) && b < |s.beh| && !s.beh[b].sched.Returned?
    requires forall x {:trigger s.beh[x]} :: 0 <= x < |s.beh| && x != b ==> s.beh[x].sched.Returned?
    ensures CanSchedule(s, b)
  {
    assert BehaviorOK(s, b);
    var c := Current(s.beh[b]);
    if Spins(s, b, c) { SpinClimbs(s, b, c); }
    ScheduleEnabled(s, b);
  }

  lemma Extend(ss: seq<State>, ts: seq<Step>, t: Step) returns (ss': seq<State>, ts': seq<Step>)
    requires IsRun(ss, ts) && Enabled(ss[|ts|], t)
    ensures IsRun(ss', ts') && ss'[|ts'|] == Next(ss[|ts|], t)
  {
    ss', ts' := ss + [Next(ss[|ts|], t)], ts + [t];
    forall i | 0 <= i < |ts'| ensures Enabled(ss'[i], ts'[i]) && ss'[i+1] == Next(ss'[i], ts'[i]) {
      if i < |ts| { assert ts'[i] == ts[i] && ss'[i] == ss[i] && ss'[i+1] == ss[i+1]; }
    }
  }

  /** A `whencall` that nobody disturbs comes to its end. */
  lemma {:induction false} WhenCallReturns(ss: seq<State>, ts: seq<Step>, orders: seq<seq<Cown>>, log: seq<Bid>)
    returns (ss': seq<State>, ts': seq<Step>)
    requires IsRun(ss, ts) && Scheduling(ss[|ts|], orders, log)
    ensures IsRun(ss', ts') && Scheduling(ss'[|ts'|], orders, log) && ss'[|ts'|].beh[|orders|-1].sched.Returned?
    decreases Left(ss[|ts|], |orders| - 1)
  {
    ss', ts' := ss, ts;
    if !ss[|ts|].beh[|orders|-1].sched.Returned? {
      ScheduleOn(ss[|ts|], orders, log);
      ss', ts' := Extend(ss, ts, DoSchedule(|orders|-1));
      ss', ts' := WhenCallReturns(ss', ts', orders, log);
    }
  }

  /** Behaviors scheduled with the cowns of `orders`, one after the other. */
  ghost predicate Listed(s: State, orders: seq<seq<Cown>>) {
    && Inv(s) && Settled(s) && |s.beh| == |orders| && s.log == Upto(|orders|)
    && forall x {:trigger s.beh[x]} :: 0 <= x < |s.beh| ==> s.beh[x].order == orders[x] && !s.beh[x].run.Finished?
  }

  function Upto(n: nat): (p: seq<nat>) { seq(n, i => i) }

  lemma SpawnScheduling(s: State, orders: seq<seq<Cown>>, order: seq<Cown>)
    requires Listed(s, orders) && CanSpawn(s, order, None)
    ensures Scheduling(Spawn(s, order, None), orders + [order], Upto(|orders|))
  {
    SpawnInv(s, order, None);
  }

  lemma SchedulingListed(s: State, orders: seq<seq<Cown>>)
    requires orders != [] && Scheduling(s, orders, Upto(|orders| - 1)) && s.beh[|orders|-1].sched.Returned?
    ensures Listed(s, orders)
  {
    var b := |orders| - 1;
    assert BehaviorOK(s, b);
    if s.beh[b].run.Claimed? || s.beh[b].run.Counted? { var y := Putter(s, b); }
  }

  lemma OneMore(ss: seq<State>, ts: seq<Step>, orders: seq<seq<Cown>>, order: seq<Cown>)
    returns (ss': seq<State>, ts': seq<Step>)
    requires IsRun(ss, ts) && Listed(ss[|ts|], orders) && Sorted(order) && order != []
    ensures IsRun(ss', ts') && Listed(ss'[|ts'|], orders + [order])
  {
    SpawnScheduling(ss[|ts|], orders, order);
    ss', ts' := Extend(ss, ts, DoSpawn(order, None));
    ss', ts' := WhenCallReturns(ss', ts', orders + [order], Upto(|orders|));
    SchedulingListed(ss'[|ts'|], orders + [order]);
  }

  /** Any list of sorted cowns can be scheduled from the start, and nothing has run yet. */
  lemma {:induction false} AnyList(orders: seq<seq<Cown>>) returns (ss: seq<State>, ts: seq<Step>)
    requires forall x :: 0 <= x < |orders| ==> Sorted(orders[x]) && orders[x] != []
    ensures IsRun(ss, ts) && Listed(ss[|ts|], orders)
    decreases |orders|
  {
    if orders == [] {
      ss, ts := [Init], [];
    } else {
      var n := |orders| - 1;
      ss, ts := AnyList(orders[..n]);
      ss, ts := OneMore(ss, ts, orders[..n], orders[n]);
      assert orders[..n] + [orders[n]] == orders;
    }
  }

  /** What the drain finds there: these cowns, the flags that go with them, all left. */
  lemma ListedSchedule(s: State, orders: seq<seq<Cown>>, pinned: set<Cown>)
    requires Listed(s, orders)
    ensures |ScheduleOf(s, pinned).keys| == |orders| && LeftOf(s) == SD.Below(|orders|)
    ensures forall i :: 0 <= i < |orders| ==> ScheduleOf(s, pinned).keys[i] == KeySet(orders[i])
    ensures forall i: nat :: i in ScheduleOf(s, pinned).pinned <==> i < |orders| && KeySet(orders[i]) * pinned != {}
  {
    forall i | 0 <= i < |orders| ensures s.beh[i].keys == KeySet(orders[i]) { assert BehaviorOK(s, i); }
  }

  /** The schedule the drain leaves undone is one of them: the drain's loop gives up
      on a state that a run from the start leads to. */
  lemma AlternatingReached(n: nat) returns (ss: seq<State>, ts: seq<Step>)
    ensures IsRun(ss, ts) && Inv(ss[|ts|]) && Settled(ss[|ts|])
    ensures ScheduleOf(ss[|ts|], {SD.PINNED}) == SD.Alternating(n) && LeftOf(ss[|ts|]) == SD.Below(n)
  {
    ss, ts := AnyList(AlternatingOrders(n));
    ListedSchedule(ss[|ts|], AlternatingOrders(n), {SD.PINNED});
    SameSchedule(n, ScheduleOf(ss[|ts|], {SD.PINNED}));
  }

  function AlternatingOrders(n: nat): (orders: seq<seq<Cown>>)
    ensures |orders| == n && forall x :: 0 <= x < n ==> Sorted(orders[x]) && orders[x] != []
  {
    seq(n, i requires 0 <= i => AlternatingOrder(i))
  }

  function AlternatingOrder(i: nat): (order: seq<Cown>) { if i % 2 == 1 then [0, SD.PINNED] else [0] }

  lemma SameSchedule(n: nat, d: SD.Schedule)
    requires |d.keys| == n && forall i :: 0 <= i < n ==> d.keys[i] == KeySet(AlternatingOrder(i))
    requires forall i: nat :: i in d.pinned <==> i < n && KeySet(AlternatingOrder(i)) * {SD.PINNED} != {}
    ensures d == SD.Alternating(n)
  {
    forall i: nat ensures i < n ==> d.keys[i] == SD.Alternating(n).keys[i]
      ensures i in d.pinned <==> i in SD.Alternating(n).pinned
    {
      if i < n {
        SD.AlternatingFlags(n, i);
        AlternatingKeys(i);
      }
    }
    assert d.keys == SD.Alternating(n).keys && d.pinned == SD.Alternating(n).pinned;
  }

  lemma AlternatingKeys(i: nat)
    ensures KeySet(AlternatingOrder(i)) == if i % 2 == 1 then {0, SD.PINNED} else {0}
  {
  }

  /** A behavior whose level the cap does not reach is left, and its hold is out. */
  method StopsShort(ghost s: State, ghost pinned: set<Cown>, d: SD.Schedule, linked: set<nat>,
                    queued: seq<nat>, ghost i: nat)
    returns (rounds: nat, converged: bool, ghost zs: seq<State>, ghost turns: seq<nat>)
    requires Inv(s) && Settled(s) && d == ScheduleOf(s, pinned) && linked == LeftOf(s)
    requires forall j :: j in queued <==> OnQueue(s, j)
    requires forall j :: j in queued ==> j !in d.pinned
    requires SD.Once(queued) && i in linked && SD.Level(d, linked, i) >= SD.MAX_ROUNDS
    ensures Drains(zs, turns) && zs[0] == s && Inv(zs[|turns|])
    ensures rounds == SD.MAX_ROUNDS && !converged && i in LeftOf(zs[|turns|]) && zs[|turns|].terminator > 0
  {
    rounds, converged, zs, turns := StopProtocol(s, pinned, d, linked, queued, []);
    HoldsSomeLeft(zs[|turns|], i);
  }

  /** From such a state, with 128 of them or more, stop_workers gives up with the last
      one left and its hold out. */
  method StopLeavesWork(n: nat)
    returns (rounds: nat, converged: bool, ghost ss: seq<State>, ghost ts: seq<Step>, ghost zs: seq<State>, ghost turns: seq<nat>)
    requires n >= 128
    ensures IsRun(ss, ts) && Drains(zs, turns) && zs[0] == ss[|ts|] && Inv(zs[|turns|])
    ensures rounds == SD.MAX_ROUNDS && !converged && n - 1 in LeftOf(zs[|turns|]) && zs[|turns|].terminator > 0
  {
    ss, ts := AlternatingReached(n);
    FirstQueued(ss[|ts|], n);
    SD.AlternatingLevel(n);
    rounds, converged, zs, turns := StopsShort(ss[|ts|], {SD.PINNED}, SD.Alternating(n), SD.Below(n), [0], n - 1);
  }

  lemma HoldsSomeLeft(s: State, i: nat)
    requires LogOK(s) && i in LeftOf(s) && s.terminator == |LeftOf(s)|
    ensures s.terminator > 0
  {
  }

  lemma FirstQueued(s: State, n: nat)
    requires Inv(s) && Settled(s) && ScheduleOf(s, {SD.PINNED}) == SD.Alternating(n) && LeftOf(s) == SD.Below(n) && n > 0
    ensures forall i: nat :: OnQueue(s, i) <==> i == 0
    ensures 0 !in SD.Alternating(n).pinned
  {
    assert |ScheduleOf(s, {SD.PINNED}).keys| == n;
    SD.AlternatingReady(n);
    forall i: nat ensures OnQueue(s, i) <==> i == 0 {
      if i < |s.log| {
        ReadyIff(s, {SD.PINNED}, i);
        assert SD.Ready(SD.Alternating(n), SD.Below(n), i) <==> i == 0;
      }
    }
  }
}
