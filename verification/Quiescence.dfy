/** The scheduling protocol and the rundown counter together: what TERMINATOR_COUNT says
    about the behaviors.  The protocol counts its holds; here each of them is granted
    and dropped by the counter's own code, one atomic operation at a time. */
module Quiescence {
  import opened Wrappers
  import RQ = RequestQueue
  import CP = CownProtocol
  import CI = CownInvariant
  import CS = CownSteps
  import CT = CownTheorems
  import CR = CownReclamation
  import T = Terminator
  import TC = TerminatorCalls

  datatype State = State(p: CP.State, k: T.State)

  datatype Act =
    | Work(w: CP.Step)                                                    // of the protocol, apart from its holds
    | Count(a: T.Step)                                                    // of the counter, likewise
    | Grant(t: T.Tid, order: seq<CP.Cown>, caller: Option<RQ.Bid>)        // terminator_inc succeeds; whencall goes on
    | Drop(t: T.Tid, b: RQ.Bid)                                           // the subtraction of terminator_dec

  predicate Grants(k: T.State, a: T.Step) { a.Turn? && T.At(k, a.t).IncRecheck? && !k.closed }

  predicate Drops(k: T.State, a: T.Step) { a.Turn? && T.At(k, a.t).DecSub? }

  predicate DropsHold(p: CP.State, w: CP.Step) { w.DoRun? && w.b < |p.beh| && p.beh[w.b].run.DropHold? }

  predicate Can(c: State, x: Act) {
    match x
    case Work(w) => CP.Enabled(c.p, w) && !w.DoSpawn? && !DropsHold(c.p, w)
    case Count(a) => T.CanStep(c.k, a) && !Grants(c.k, a) && !Drops(c.k, a)
    case Grant(t, order, caller) => T.CanStep(c.k, T.Turn(t)) && Grants(c.k, T.Turn(t)) && CP.CanSpawn(c.p, order, caller)
    case Drop(t, b) => T.CanStep(c.k, T.Turn(t)) && Drops(c.k, T.Turn(t)) && DropsHold(c.p, CP.DoRun(b))
  }

  /** What the protocol does, and the counter. */
  function WorkOf(x: Act): (w: Option<CP.Step>) {
    match x
    case Work(w) => Some(w)
    case Count(_) => None
    case Grant(_, order, caller) => Some(CP.DoSpawn(order, caller))
    case Drop(_, b) => Some(CP.DoRun(b))
  }

  function CountOf(x: Act): (a: Option<T.Step>) {
    match x
    case Work(_) => None
    case Count(a) => Some(a)
    case Grant(t, _, _) => Some(T.Turn(t))
    case Drop(t, _) => Some(T.Turn(t))
  }

  function Next(c: State, x: Act): (c': State)
    requires Can(c, x)
  {
    State(if WorkOf(x).Some? then CP.Next(c.p, WorkOf(x).value) else c.p,
          if CountOf(x).Some? then T.Next(c.k, CountOf(x).value) else c.k)
  }

  ghost predicate Inv(c: State) { CI.Inv(c.p) && T.Inv(c.k) && c.k.holds == c.p.terminator }

  // ---------------------------------------------------------------- preservation

  /** What a step of the protocol does to the number of holds ... */
  function HoldsMade(p: CP.State, w: CP.Step): (n: int) { if w.DoSpawn? then 1 else if DropsHold(p, w) then -1 else 0 }

  lemma WorkHolds(p: CP.State, w: CP.Step)
    requires CP.Enabled(p, w)
    ensures CP.Next(p, w).terminator == p.terminator + HoldsMade(p, w)
  {
    match w {
      case DoSpawn(_, _) =>
      case DoSchedule(b) => ScheduleHolds(p, b);
      case DoRun(b) => RunHolds(p, b);
    }
  }

  lemma ScheduleHolds(p: CP.State, b: RQ.Bid)
    requires CP.CanSchedule(p, b)
    ensures CP.ScheduleStep(p, b).terminator == p.terminator
  {
  }

  lemma RunHolds(p: CP.State, b: RQ.Bid)
    requires CP.CanRun(p, b)
    ensures CP.RunStep(p, b).terminator == p.terminator + HoldsMade(p, CP.DoRun(b))
  {
  }

  /** ... and a step of the counter. */
  lemma CountHolds(k: T.State, a: T.Step)
    requires T.CanStep(k, a)
    ensures T.Next(k, a).holds == k.holds + if Grants(k, a) then 1 else if Drops(k, a) then -1 else 0
  {
    if a.Turn? {
      if T.Holding(T.At(k, a.t)) { HoldingHolds(k, a.t); } else { OtherHolds(k, a.t); }
    }
  }

  lemma HoldingHolds(k: T.State, t: T.Tid)
    requires T.Holding(T.At(k, t))
    ensures T.HoldTurn(k, t).holds == k.holds + if Grants(k, T.Turn(t)) then 1 else if Drops(k, T.Turn(t)) then -1 else 0
  {
  }

  lemma OtherHolds(k: T.State, t: T.Tid)
    ensures T.SeedTurn(k, t).holds == k.holds && T.WakeTurn(k, t).holds == k.holds
    ensures T.WaitTurn(k, t).holds == k.holds && T.ResetTurn(k, t).holds == k.holds
  {
  }

  lemma ActKeeps(c: State, x: Act)
    requires Inv(c) && Can(c, x)
    ensures Inv(Next(c, x))
  {
    if WorkOf(x).Some? {
      WorkHolds(c.p, WorkOf(x).value);
      CT.NextInv(c.p, WorkOf(x).value);
    }
    if CountOf(x).Some? {
      CountHolds(c.k, CountOf(x).value);
      T.StepKeeps(c.k, CountOf(x).value);
    }
  }

  const Start := State(CP.Init, T.Init)

  ghost predicate IsRun(cs: seq<State>, xs: seq<Act>) {
    && |cs| == |xs| + 1 && cs[0] == Start
    && forall i {:trigger xs[i]} :: 0 <= i < |xs| ==> Follows(cs[i], xs[i], cs[i+1])
  }

  ghost predicate Follows(c: State, x: Act, c': State) { Can(c, x) && c' == Next(c, x) }

  /** The holds of the counter are the holds of the behaviors, in every run. */
  lemma {:induction false} RunsKeepInv(cs: seq<State>, xs: seq<Act>, i: nat)
    requires IsRun(cs, xs) && i < |cs|
    ensures Inv(cs[i])
  {
    if i == 0 {
      assert forall t :: T.ThreadOK(T.Init, t);
    } else {
      RunsKeepInv(cs, xs, i - 1);
      assert Follows(cs[i-1], xs[i-1], cs[i]);
      ActKeeps(cs[i-1], xs[i-1]);
    }
  }

  // ---------------------------------------------------------------- what a zero means

  /** No behavior is linked, queued, pending or running, and every `last` is NULL. */
  ghost predicate Quiet(p: CP.State) {
    && (forall b {:trigger p.beh[b]} :: 0 <= b < |p.beh| ==> CS.Quit(p.beh[b].run) && p.beh[b].count == 0)
    && forall c {:trigger CP.QueueOf(p, c)} :: CP.QueueOf(p, c).last.None?
  }

  ghost predicate Unfinished(p: CP.State) { exists b {:trigger p.beh[b]} :: 0 <= b < |p.beh| && !CS.Quit(p.beh[b].run) }

  lemma QuietIff(p: CP.State)
    requires CI.Inv(p)
    ensures p.terminator >= 0 && (Quiet(p) <==> p.terminator == 0) && (Unfinished(p) <==> p.terminator > 0)
  {
    if p.terminator == 0 { CR.QuiescenceIsReal(p); }
    if b: nat :| b < |p.beh| && !CS.Quit(p.beh[b].run) { CR.HeldWhileUnfinished(p, b); }
    if p.terminator > 0 { var b := Holder(p.beh); }
  }

  lemma {:induction false} Holder(bs: seq<CP.Behavior>) returns (b: nat)
    requires CI.Holds(bs) > 0
    ensures b < |bs| && !CS.Quit(bs[b].run)
  {
    var n := |bs| - 1;
    if CS.Quit(bs[n].run) { b := Holder(bs[..n]); } else { b := n; }
  }

  /** In any state the counter and the behaviors are in together: something is
      unfinished if and only if the count, and the seeds half put in, exceed the
      seed and what else is halfway. */
  lemma UnfinishedIff(c: State)
    requires Inv(c)
    ensures Unfinished(c.p) <==>
      |c.k.seeding| + c.k.count + c.k.lost > T.Seed(c.k) + |c.k.adding| + |c.k.unseeding|
  {
    QuietIff(c.p);
    T.TooEarlyIff(c.k);
  }

  /** Seed operations and resets do not overlap. */
  predicate Serial(c: State, x: Act) { CountOf(x).Some? ==> T.Serial(c.k, CountOf(x).value) }

  lemma {:induction false} SerialExact(cs: seq<State>, xs: seq<Act>, i: nat)
    requires IsRun(cs, xs) && i < |cs|
    requires forall k {:trigger xs[k]} :: 0 <= k < i ==> Serial(cs[k], xs[k])
    ensures T.Exact(cs[i].k)
  {
    if i > 0 {
      SerialExact(cs, xs, i - 1);
      RunsKeepInv(cs, xs, i - 1);
      assert Follows(cs[i-1], xs[i-1], cs[i]) && Serial(cs[i-1], xs[i-1]);
      if CountOf(xs[i-1]).Some? { T.SerialExact(cs[i-1].k, CountOf(xs[i-1]).value); }
    }
  }

  /** Then a count of 0 means that the runtime is quiet, and while anything is
      unfinished the count is positive. */
  lemma ZeroIsQuiet(cs: seq<State>, xs: seq<Act>, i: nat)
    requires IsRun(cs, xs) && i < |cs|
    requires forall k {:trigger xs[k]} :: 0 <= k < i ==> Serial(cs[k], xs[k])
    ensures cs[i].k.count >= 0 && (cs[i].k.count == 0 ==> Quiet(cs[i].p))
    ensures Unfinished(cs[i].p) ==> cs[i].k.count > 0
  {
    RunsKeepInv(cs, xs, i);
    SerialExact(cs, xs, i);
    T.ExactNonNegative(cs[i].k);
    QuietIff(cs[i].p);
  }

  /** Without a reset it is enough that no seed_dec takes the seed of a seed_inc that is
      halfway: by OverlapIff that is the one step that can do harm. */
  predicate Apart(c: State, x: Act) {
    CountOf(x).Some? ==>
      !T.Overlaps(c.k, CountOf(x).value) && !(CountOf(x).value.Turn? && T.At(c.k, CountOf(x).value.t).ResetCount?)
      && !(CountOf(x).value.Turn? && T.At(c.k, CountOf(x).value.t).ResetSeed?)
  }

  lemma KeepsLost(k: T.State, a: T.Step)
    requires T.CanStep(k, a) && !(a.Turn? && (T.At(k, a.t).ResetCount? || T.At(k, a.t).ResetSeed?))
    ensures T.Next(k, a).lost == k.lost
  {
  }

  lemma {:induction false} ApartRuns(cs: seq<State>, xs: seq<Act>, i: nat)
    requires IsRun(cs, xs) && i < |cs|
    requires forall k {:trigger xs[k]} :: 0 <= k < i ==> Apart(cs[k], xs[k])
    ensures cs[i].k.lost == 0 && |cs[i].k.seeding| <= T.Seed(cs[i].k)
  {
    if i > 0 {
      ApartRuns(cs, xs, i - 1);
      RunsKeepInv(cs, xs, i - 1);
      assert Follows(cs[i-1], xs[i-1], cs[i]) && Apart(cs[i-1], xs[i-1]);
      if CountOf(xs[i-1]).Some? {
        KeepsLost(cs[i-1].k, CountOf(xs[i-1]).value);
        T.OverlapIff(cs[i-1].k, CountOf(xs[i-1]).value);
      }
    }
  }

  lemma ApartZeroIsQuiet(cs: seq<State>, xs: seq<Act>, i: nat)
    requires IsRun(cs, xs) && i < |cs|
    requires forall k {:trigger xs[k]} :: 0 <= k < i ==> Apart(cs[k], xs[k])
    ensures cs[i].k.count <= 0 ==> Quiet(cs[i].p)
  {
    ApartRuns(cs, xs, i);
    RunsKeepInv(cs, xs, i);
    UnfinishedIff(cs[i]);
    QuietIff(cs[i].p);
  }

  /** What a wait that reports quiescence has looked at: step `k` of its own call. */
  ghost predicate Looked(cs: seq<State>, xs: seq<Act>, k: nat, t: T.Tid) {
    && k < |xs| < |cs| && xs[k] == Count(T.Turn(t)) && T.At(cs[k].k, t).WaitCount? && cs[k].k.count == 0
  }

  /** A wait about to report quiescence looked at a count of 0, and has done nothing since. */
  lemma {:induction false} ReportSaw(cs: seq<State>, xs: seq<Act>, i: nat, t: T.Tid) returns (k: nat)
    requires IsRun(cs, xs) && i < |cs| && T.At(cs[i].k, t) == T.WaitUnlock(T.Terminated)
    ensures k < i && Looked(cs, xs, k, t) && forall j :: k < j <= i ==> T.At(cs[j].k, t) == T.WaitUnlock(T.Terminated)
  {
    assert Follows(cs[i-1], xs[i-1], cs[i]);
    if T.At(cs[i-1].k, t) == T.WaitUnlock(T.Terminated) {
      k := ReportSaw(cs, xs, i - 1, t);
    } else {
      TC.DecidesIff(cs[i-1].k, CountOf(xs[i-1]).value, t, T.Terminated);
      k := i - 1;
    }
  }

  /** In serial runs a wait that reports quiescence looked, during its call, at a state
      in which no behavior was linked, queued, pending or running. */
  lemma ReportIsQuiet(cs: seq<State>, xs: seq<Act>, i: nat, t: T.Tid) returns (k: nat)
    requires IsRun(cs, xs) && i < |cs| && T.At(cs[i].k, t) == T.WaitUnlock(T.Terminated)
    requires forall j {:trigger xs[j]} :: 0 <= j < i ==> Serial(cs[j], xs[j])
    ensures k < i && Looked(cs, xs, k, t) && Quiet(cs[k].p)
    ensures forall j :: k < j <= i ==> T.At(cs[j].k, t) == T.WaitUnlock(T.Terminated)
  {
    k := ReportSaw(cs, xs, i, t);
    ZeroIsQuiet(cs, xs, k);
  }

  /** While anything is unfinished a wait that looks does not report quiescence. */
  lemma UnfinishedWaits(cs: seq<State>, xs: seq<Act>, i: nat)
    requires IsRun(cs, xs) && i < |xs| && xs[i].Count? && xs[i].a.Turn? && T.At(cs[i].k, xs[i].a.t).WaitCount?
    requires forall j {:trigger xs[j]} :: 0 <= j < i ==> Serial(cs[j], xs[j])
    ensures Unfinished(cs[i].p) ==> !T.At(cs[i+1].k, xs[i].a.t).WaitUnlock?
  {
    assert Follows(cs[i], xs[i], cs[i+1]);
    ZeroIsQuiet(cs, xs, i);
    TC.SleepsIff(cs[i].k, xs[i].a.t);
  }

  // ------------------------------------------------------------- quiescent too early

  lemma Extend(cs: seq<State>, xs: seq<Act>, x: Act, c': State) returns (cs': seq<State>, xs': seq<Act>)
    requires IsRun(cs, xs) && Follows(cs[|xs|], x, c')
    ensures IsRun(cs', xs') && cs'[|xs'|] == c'
  {
    cs', xs' := cs + [c'], xs + [x];
    forall i {:trigger xs'[i]} | 0 <= i < |xs'| ensures Follows(cs'[i], xs'[i], cs'[i+1]) {
      if i < |xs| { assert xs'[i] == xs[i] && Follows(cs[i], xs[i], cs[i+1]); }
    }
  }

  /** One behavior, on cown 0, just scheduled. */
  const One: CP.State := CP.Spawn(CP.Init, [0], None)

  lemma Turns(cs: seq<State>, xs: seq<Act>, a: T.Step, k': T.State) returns (cs': seq<State>, xs': seq<Act>)
    requires IsRun(cs, xs) && Can(cs[|xs|], Count(a)) && k' == T.Next(cs[|xs|].k, a)
    ensures IsRun(cs', xs') && cs'[|xs'|] == State(cs[|xs|].p, k')
  {
    cs', xs' := Extend(cs, xs, Count(a), State(cs[|xs|].p, k'));
  }

  /** Thread 1 schedules a behavior.  Thread 2 puts the seed in, but before it adds to the
      count thread 3 takes the seed out: the count goes to 0.  Thread 4, in
      terminator_wait, looks at it then and returns that all is quiet. */
  lemma QuietTooEarly() returns (cs: seq<State>, xs: seq<Act>)
    ensures IsRun(cs, xs)
    ensures var c := cs[|xs|];
      && c.k.count == 0 && c.k.holds == 1 && c.k.lost == 0 && T.At(c.k, 4) == T.WaitUnlock(T.Terminated)
      && |c.p.beh| == 1 && c.p.beh[0].run.Waiting? && Unfinished(c.p)
  {
    var k;
    cs, xs, k := Looking();
    k := k.(pc := map[1 := T.Out, 2 := T.AddSeed, 3 := T.WakeLock, 4 := T.WaitUnlock(T.Terminated)]);
    cs, xs := Turns(cs, xs, T.Turn(4), k);
    assert !CS.Quit(cs[|xs|].p.beh[0].run);
  }

  lemma Looking() returns (cs: seq<State>, xs: seq<Act>, k: T.State)
    ensures IsRun(cs, xs) && cs[|xs|] == State(One, k)
    ensures k == T.Init.(pc := map[1 := T.Out, 2 := T.AddSeed, 3 := T.WakeLock, 4 := T.WaitCount(false)],
                         mutex := Some(4), holds := 1, seeding := {2}, wakers := {3})
  {
    cs, xs, k := SeedTaken();
    k := k.(pc := map[1 := T.Out, 2 := T.AddSeed, 3 := T.WakeLock, 4 := T.WaitLock(false)]);
    cs, xs := Turns(cs, xs, T.Begin(4, T.WaitLock(false)), k);
    k := k.(pc := map[1 := T.Out, 2 := T.AddSeed, 3 := T.WakeLock, 4 := T.WaitCount(false)], mutex := Some(4));
    cs, xs := Turns(cs, xs, T.Turn(4), k);
  }

  lemma SeedTaken() returns (cs: seq<State>, xs: seq<Act>, k: T.State)
    ensures IsRun(cs, xs) && cs[|xs|] == State(One, k)
    ensures k == T.Init.(pc := map[1 := T.Out, 2 := T.AddSeed, 3 := T.WakeLock], holds := 1, seeding := {2}, wakers := {3})
  {
    cs, xs, k := SeedPut();
    k := k.(pc := map[1 := T.Out, 2 := T.AddSeed, 3 := T.DropSeed]);
    cs, xs := Turns(cs, xs, T.Begin(3, T.DropSeed), k);
    k := k.(pc := map[1 := T.Out, 2 := T.AddSeed, 3 := T.DropCount], seeded := false, unseeding := {3});
    cs, xs := Turns(cs, xs, T.Turn(3), k);
    k := k.(pc := map[1 := T.Out, 2 := T.AddSeed, 3 := T.WakeLock], count := 0, unseeding := {}, wakers := {3});
    cs, xs := Turns(cs, xs, T.Turn(3), k);
  }

  lemma SeedPut() returns (cs: seq<State>, xs: seq<Act>, k: T.State)
    ensures IsRun(cs, xs) && cs[|xs|] == State(One, k)
    ensures k == T.Init.(pc := map[1 := T.Out, 2 := T.AddSeed], count := 1, holds := 1, seeded := true, seeding := {2})
  {
    cs, xs, k := Held();
    k := k.(pc := map[1 := T.Out, 2 := T.SetSeed]);
    cs, xs := Turns(cs, xs, T.Begin(2, T.SetSeed), k);
    k := k.(pc := map[1 := T.Out, 2 := T.AddSeed], seeded := true, seeding := {2});
    cs, xs := Turns(cs, xs, T.Turn(2), k);
  }

  lemma Held() returns (cs: seq<State>, xs: seq<Act>, k: T.State)
    ensures IsRun(cs, xs) && cs[|xs|] == State(One, k)
    ensures k == T.Init.(pc := map[1 := T.Out], count := 1, holds := 1)
  {
    cs, xs, k := Adding();
    k := k.(pc := map[1 := T.Out], holds := 1, adding := {});
    cs, xs := Extend(cs, xs, Grant(1, [0], None), State(One, k));
  }

  lemma Adding() returns (cs: seq<State>, xs: seq<Act>, k: T.State)
    ensures IsRun(cs, xs) && cs[|xs|] == State(CP.Init, k)
    ensures k == T.Init.(pc := map[1 := T.IncRecheck], count := 1, adding := {1})
  {
    cs, xs, k := [Start], [], T.Init;
    k := k.(pc := map[1 := T.IncCheck]);
    cs, xs := Turns(cs, xs, T.Begin(1, T.IncCheck), k);
    k := k.(pc := map[1 := T.IncAdd]);
    cs, xs := Turns(cs, xs, T.Turn(1), k);
    k := k.(pc := map[1 := T.IncRecheck], count := 1, adding := {1});
    cs, xs := Turns(cs, xs, T.Turn(1), k);
  }
}
