/** Why a worker does not sleep over its own work: the two epochs, as long as no CAS
    on the one takes it back; and what happens when one does. */
module ParkingEpochs {
  import opened Wrappers
  import opened Parking

  /** The step is not a CAS that succeeds with a PAUSE_EPOCH that was loaded too long
      ago: one less than the UNPAUSE_EPOCH it replaces. */
  predicate Untorn(s: State, a: Step) {
    a.Turn? && At(s, a.t).Cas? && s.unpause == At(s, a.t).ue ==> At(s, a.t).ue <= At(s, a.t).pe
  }

  predicate EpochOK(s: State, t: Tid) {
    match At(s, t)
    case LoadUnpause(_, _, pe) => pe <= s.pause
    case Cas(_, _, pe, ue) => ue <= s.unpause && pe <= s.pause
    case Bump(snap) => snap <= s.unpause
    case Scan(snap, mark, _, _) => snap < mark <= s.pause && snap <= s.unpause
    case Lock(snap, mark) => snap < mark <= s.pause && snap <= s.unpause
    case StopTest(snap, mark) => snap < mark <= s.pause && snap <= s.unpause
    case EpochTest(snap, mark) => snap < mark <= s.pause && snap <= s.unpause
    case _ => true
  }

  /** An off-pool dispatch to `w` after whose CAS, won or lost, UNPAUSE_EPOCH will have
      passed `snap`: it loaded PAUSE_EPOCH after `w` brought that to `mark`. */
  predicate Coming(p: Pc, w: Tid, snap: nat, mark: nat) {
    match p
    case LoadPause(to, off) => to == w && off
    case LoadUnpause(to, off, pe) => to == w && off && pe >= mark
    case Cas(to, off, pe, ue) => to == w && off && pe >= mark && ue >= snap
    case _ => false
  }

  /** An off-pool dispatch to `w` that has still to signal it. */
  predicate WillSignal(p: Pc, w: Tid) {
    match p
    case LoadPause(to, off) => to == w && off
    case LoadUnpause(to, off, _) => to == w && off
    case Cas(to, off, _, _) => to == w && off
    case AnyParked(to, off) => to == w && off
    case Ring(to, off, _) => to == w && off
    case RingLock(to, off, _, _) => to == w && off
    case RingSignal(to, off, _, _) => to == w && off
    case RingUnlock(to, off, _, _) => to == w && off
    case SignalLock(to) => to == w
    case SignalTo(to) => to == w
    case _ => false
  }

  ghost predicate Covered(s: State, w: Tid, snap: nat, mark: nat) {
    s.unpause > snap || exists d :: Coming(At(s, d), w, snap, mark)
  }

  /** Sub-queue `i` of `w` has been looked at by `w`'s scan. */
  predicate Seen(p: Pc, w: Tid, i: nat) { p.Scan? ==> p.v > w || (p.v == w && p.i > i) }

  /** Work that `w` has not seen: on its way past the epoch test, or signalled. */
  ghost predicate WorkOK(s: State, w: Tid, i: nat) {
    (w, i) in s.work ==>
      match At(s, w)
      case Scan(snap, mark, _, _) => Seen(At(s, w), w, i) ==> Covered(s, w, snap, mark)
      case Lock(snap, mark) => Covered(s, w, snap, mark)
      case StopTest(snap, mark) => Covered(s, w, snap, mark)
      case EpochTest(snap, mark) => Covered(s, w, snap, mark)
      case MarkParked => exists d :: WillSignal(At(s, d), w)
      case CountParked => exists d :: WillSignal(At(s, d), w)
      case Sleep => exists d :: WillSignal(At(s, d), w)
      case Asleep => exists d :: WillSignal(At(s, d), w)
      case _ => true
  }

  /** A worker dispatches to itself; a thread off the pool, to any worker. */
  predicate PutOK(s: State, t: Tid) {
    match At(s, t)
    case Put(i, to, off) => to < s.n && i < s.subs && (!off ==> to == t)
    case LoadPause(to, off) => !off ==> to == t
    case _ => true
  }

  ghost predicate EpochsOK(s: State) {
    && s.unpause <= s.pause
    && (forall t {:trigger EpochOK(s, t)} :: EpochOK(s, t))
    && (forall t {:trigger PutOK(s, t)} :: PutOK(s, t))
    && (forall w: Tid, i: nat {:trigger WorkOK(s, w, i)} :: w < s.n && i < s.subs ==> WorkOK(s, w, i))
    && (forall q {:trigger q in s.work} :: q in s.work ==> q.0 < s.n && q.1 < s.subs)
  }

  // ------------------------------------------------------------------ the epochs

  /** UNPAUSE_EPOCH falls by a torn CAS, and by nothing else. */
  lemma LowersIff(s: State, a: Step)
    requires CanStep(s, a)
    ensures Next(s, a).unpause < s.unpause <==> !Untorn(s, a)
  {
  }

  /** Without one it never falls, and never passes PAUSE_EPOCH. */
  lemma UnpauseRises(s: State, a: Step)
    requires CanStep(s, a) && Untorn(s, a) && s.unpause <= s.pause && (a.Turn? ==> EpochOK(s, a.t))
    ensures s.unpause <= Next(s, a).unpause <= Next(s, a).pause && s.pause <= Next(s, a).pause
  {
  }

  lemma EpochStep(s: State, a: Step, t: Tid)
    requires CanStep(s, a) && Untorn(s, a) && s.unpause <= s.pause && EpochOK(s, t) && (a.Turn? ==> EpochOK(s, a.t))
    ensures EpochOK(Next(s, a), t)
  {
    UnpauseRises(s, a);
    if a.Turn? && a.t == t { EpochTurned(s, t); } else { EpochOther(s, a, t); }
  }

  lemma EpochTurned(s: State, t: Tid)
    requires s.unpause <= s.pause && EpochOK(s, t) && s.unpause <= TurnOf(s, t).unpause
    ensures EpochOK(TurnOf(s, t), t)
  {
    if Parks(At(s, t)) { ParkTurned(s, t); } else if Epochs(At(s, t)) { DispatchTurned(s, t); }
  }

  lemma ParkTurned(s: State, t: Tid)
    requires s.unpause <= s.pause && EpochOK(s, t) && Parks(At(s, t))
    ensures EpochOK(ParkTurn(s, t), t)
  {
  }

  lemma DispatchTurned(s: State, t: Tid)
    requires EpochOK(s, t) && Epochs(At(s, t))
    ensures EpochOK(EpochTurn(s, t), t)
  {
  }

  /** Any other thread's counters are where they were, or it was woken or begins. */
  lemma EpochOther(s: State, a: Step, t: Tid)
    requires CanStep(s, a) && EpochOK(s, t) && !(a.Turn? && a.t == t)
    requires s.unpause <= Next(s, a).unpause && s.pause <= Next(s, a).pause
    ensures EpochOK(Next(s, a), t)
  {
    StaysPut(s, a, t);
  }

  lemma StaysPut(s: State, a: Step, t: Tid)
    requires CanStep(s, a) && !(a.Turn? && a.t == t)
    ensures At(Next(s, a), t) == At(s, t) || At(Next(s, a), t).Relock? || (a.Begin? && At(Next(s, a), t) == a.op)
  {
  }

  // --------------------------------------------------------------- the coverage

  /** A dispatcher stays Coming until UNPAUSE_EPOCH has passed `snap`. */
  lemma ComingStays(s: State, a: Step, d: Tid, w: Tid, snap: nat, mark: nat)
    requires CanStep(s, a) && Coming(At(s, d), w, snap, mark) && EpochOK(s, d)
    requires snap < mark <= s.pause && snap <= s.unpause <= Next(s, a).unpause
    ensures Coming(At(Next(s, a), d), w, snap, mark) || Next(s, a).unpause > snap
  {
    if a.Turn? && a.t == d { ComingTurns(s, d, w, snap, mark); } else { StaysPut(s, a, d); ComingMoves(s, a, d, w, snap, mark); }
  }

  lemma ComingTurns(s: State, d: Tid, w: Tid, snap: nat, mark: nat)
    requires Coming(At(s, d), w, snap, mark) && EpochOK(s, d) && snap < mark <= s.pause && snap <= s.unpause
    ensures Coming(At(EpochTurn(s, d), d), w, snap, mark) || EpochTurn(s, d).unpause > snap
  {
  }

  /** Nothing but its own turn moves a dispatcher. */
  lemma ComingMoves(s: State, a: Step, d: Tid, w: Tid, snap: nat, mark: nat)
    requires CanStep(s, a) && Coming(At(s, d), w, snap, mark) && !(a.Turn? && a.t == d)
    ensures At(Next(s, a), d) == At(s, d)
  {
  }

  lemma CoveredStays(s: State, a: Step, w: Tid, snap: nat, mark: nat)
    requires CanStep(s, a) && EpochsOK(s) && Untorn(s, a) && Covered(s, w, snap, mark)
    requires snap < mark <= s.pause && snap <= s.unpause
    ensures Covered(Next(s, a), w, snap, mark)
  {
    if a.Turn? { assert EpochOK(s, a.t); }
    UnpauseRises(s, a);
    if s.unpause <= snap {
      var d :| Coming(At(s, d), w, snap, mark);
      assert EpochOK(s, d);
      ComingStays(s, a, d, w, snap, mark);
    }
  }

  /** A dispatcher stays about to signal `w` until it has. */
  lemma SignalStays(s: State, a: Step, d: Tid, w: Tid)
    requires CanStep(s, a) && WillSignal(At(s, d), w) && EpochOK(s, d)
    ensures WillSignal(At(Next(s, a), d), w) || (a == Turn(d) && At(s, d) == SignalTo(w))
  {
  }

  /** Past the epoch test, so only a signal can help. */
  predicate PastEpoch(p: Pc) { p.MarkParked? || p.CountParked? || p.Sleep? || p.Asleep? }

  /** The step leaves `w` where it was, or wakes it. */
  lemma OthersLeave(s: State, a: Step, w: Tid)
    requires CanStep(s, a) && a != Turn(w) && !(a.Begin? && a.t == w)
    ensures At(Next(s, a), w) == At(s, w) || At(Next(s, a), w).Relock?
  {
  }

  /** Work appears in `w`'s queues by an off-pool Put, or by `w` itself while it runs. */
  lemma WorkArrives(s: State, a: Step, w: Tid, i: nat)
    requires CanStep(s, a) && (w, i) in Next(s, a).work && (w, i) !in s.work
    requires a.Turn? ==> PutOK(s, a.t)
    ensures At(Next(s, a), w).Idle? || At(Next(s, a), w).LoadPause? || (a.Turn? && At(Next(s, a), a.t) == LoadPause(w, true))
  {
  }

  lemma SignalKept(s: State, a: Step, w: Tid)
    requires Inv(s) && EpochsOK(s) && CanStep(s, a) && (exists d :: WillSignal(At(s, d), w)) && PastEpoch(At(Next(s, a), w))
    requires PastEpoch(At(s, w))
    ensures exists d :: WillSignal(At(Next(s, a), d), w)
  {
    var d :| WillSignal(At(s, d), w);
    assert EpochOK(s, d) && ThreadOK(s, d) && ThreadOK(s, w);
    SignalStays(s, a, d, w);
    if !WillSignal(At(Next(s, a), d), w) { SignalFinds(s, d, w); }
  }

  /** The signal of the dispatch finds `w` asleep: on its way to sleep it holds its mutex. */
  lemma SignalFinds(s: State, d: Tid, w: Tid)
    requires CanStep(s, Turn(d)) && At(s, d) == SignalTo(w) && ThreadOK(s, d) && ThreadOK(s, w)
    ensures !PastEpoch(At(Next(s, Turn(d)), w))
  {
  }

  /** A dispatch on its way to the epochs is also on its way to the signal. */
  lemma ComingSignals(s: State, w: Tid, snap: nat, mark: nat)
    requires Covered(s, w, snap, mark) && s.unpause <= snap
    ensures exists d :: WillSignal(At(s, d), w)
  {
    var d :| Coming(At(s, d), w, snap, mark);
    assert WillSignal(At(s, d), w);
  }

  lemma WorkOthers(s: State, a: Step, w: Tid, i: nat)
    requires Inv(s) && EpochsOK(s) && CanStep(s, a) && Untorn(s, a) && w < s.n && i < s.subs
    requires a != Turn(w) && !(a.Begin? && a.t == w)
    ensures WorkOK(Next(s, a), w, i)
  {
    var s' := Next(s, a);
    OthersLeave(s, a, w);
    if (w, i) in s'.work && !At(s', w).Relock? {
      assert At(s', w) == At(s, w) && EpochOK(s, w);
      if (w, i) in s.work {
        assert WorkOK(s, w, i);
        if PastEpoch(At(s, w)) { SignalKept(s, a, w); }
        else if Marked(At(s, w)) && Seen(At(s, w), w, i) { CoveredStays(s, a, w, At(s, w).snap, At(s, w).mark); }
      } else {
        if a.Turn? { assert PutOK(s, a.t); }
        WorkArrives(s, a, w, i);
        if a.Turn? && At(s', a.t) == LoadPause(w, true) {
          assert WillSignal(At(s', a.t), w);
          if Marked(At(s', w)) { assert Coming(At(s', a.t), w, At(s', w).snap, At(s', w).mark); }
        }
      }
    }
  }

  predicate Marked(p: Pc) { p.Scan? || p.Lock? || p.StopTest? || p.EpochTest? }

  lemma WorkSelf(s: State, w: Tid, i: nat)
    requires Inv(s) && EpochsOK(s) && CanStep(s, Turn(w)) && Untorn(s, Turn(w)) && w < s.n && i < s.subs && Parks(At(s, w))
    ensures WorkOK(ParkTurn(s, w), w, i)
  {
    var s', p := ParkTurn(s, w), At(s, w);
    assert WorkOK(s, w, i) && EpochOK(s, w);
    assert s'.work == s.work;
    if (w, i) in s.work {
      if Marked(p) && Seen(p, w, i) {
        CoveredStays(s, Turn(w), w, p.snap, p.mark);
        if p.EpochTest? && s.unpause <= p.snap { ComingSignals(s', w, p.snap, p.mark); }
      } else if PastEpoch(p) && PastEpoch(At(s', w)) {
        SignalKept(s, Turn(w), w);
      }
    }
  }

  lemma WorkKeeps(s: State, a: Step, w: Tid, i: nat)
    requires Inv(s) && EpochsOK(s) && CanStep(s, a) && Untorn(s, a) && w < s.n && i < s.subs
    ensures WorkOK(Next(s, a), w, i)
  {
    if a == Turn(w) {
      if Parks(At(s, w)) { WorkSelf(s, w, i); } else { assert !Marked(At(Next(s, a), w)) && !PastEpoch(At(Next(s, a), w)); }
    } else if !(a.Begin? && a.t == w) {
      WorkOthers(s, a, w, i);
    }
  }

  lemma PutKeeps(s: State, a: Step, t: Tid)
    requires CanStep(s, a) && PutOK(s, t)
    ensures PutOK(Next(s, a), t)
  {
    if a.Turn? && a.t == t { PutTurn(s, t); } else { PutOther(s, a, t); }
  }

  lemma PutTurn(s: State, t: Tid)
    requires PutOK(s, t)
    ensures PutOK(TurnOf(s, t), t)
  {
  }

  lemma PutOther(s: State, a: Step, t: Tid)
    requires CanStep(s, a) && PutOK(s, t) && !(a.Turn? && a.t == t)
    ensures PutOK(Next(s, a), t)
  {
  }

  lemma WorkPlaced(s: State, a: Step, q: (Tid, nat))
    requires CanStep(s, a) && (a.Turn? ==> PutOK(s, a.t)) && q in Next(s, a).work && (q in s.work ==> q.0 < s.n && q.1 < s.subs)
    ensures q.0 < s.n && q.1 < s.subs
  {
  }

  lemma EpochsKeep(s: State, a: Step)
    requires Inv(s) && EpochsOK(s) && CanStep(s, a) && Untorn(s, a)
    ensures EpochsOK(Next(s, a))
  {
    var s' := Next(s, a);
    if a.Turn? { assert EpochOK(s, a.t) && PutOK(s, a.t); }
    UnpauseRises(s, a);
    forall t ensures EpochOK(s', t) && PutOK(s', t) {
      assert EpochOK(s, t) && PutOK(s, t);
      EpochStep(s, a, t);
      PutKeeps(s, a, t);
    }
    forall w: Tid, i: nat {:trigger WorkOK(s', w, i)} | w < s'.n && i < s'.subs ensures WorkOK(s', w, i) { WorkKeeps(s, a, w, i); }
    forall q {:trigger q in s'.work} | q in s'.work ensures q.0 < s'.n && q.1 < s'.subs { WorkPlaced(s, a, q); }
  }

  // ---------------------------------------------------------------------- runs

  ghost predicate IsRun(ss: seq<State>, run: seq<Step>) {
    && |ss| == |run| + 1 && ss[0] == Start(ss[0].n, ss[0].subs)
    && forall i {:trigger run[i]} :: 0 <= i < |run| ==> CanStep(ss[i], run[i]) && ss[i+1] == Next(ss[i], run[i])
  }

  lemma StartOK(s: State)
    requires s == Start(s.n, s.subs)
    ensures Inv(s) && EpochsOK(s)
  {
    assert forall t :: At(s, t) == Idle;
  }

  lemma {:induction false} RunsKeepInv(ss: seq<State>, run: seq<Step>, i: nat)
    requires IsRun(ss, run) && i < |ss|
    ensures Inv(ss[i])
  {
    if i == 0 {
      StartOK(ss[0]);
    } else {
      RunsKeepInv(ss, run, i - 1);
      StepKeeps(ss[i-1], run[i-1]);
    }
  }

  lemma {:induction false} UntornRuns(ss: seq<State>, run: seq<Step>, i: nat)
    requires IsRun(ss, run) && i < |ss|
    requires forall k {:trigger run[k]} :: 0 <= k < |run| ==> Untorn(ss[k], run[k])
    ensures EpochsOK(ss[i])
  {
    if i == 0 {
      StartOK(ss[0]);
    } else {
      UntornRuns(ss, run, i - 1);
      RunsKeepInv(ss, run, i - 1);
      EpochsKeep(ss[i-1], run[i-1]);
    }
  }

  /** No worker sleeps over work in its own queues, unless the off-pool dispatcher
      has still to signal it; and UNPAUSE_EPOCH never passes PAUSE_EPOCH. */
  lemma NoSleepOverWork(ss: seq<State>, run: seq<Step>, i: nat, w: Tid, k: nat)
    requires IsRun(ss, run) && i < |ss|
    requires forall j {:trigger run[j]} :: 0 <= j < |run| ==> Untorn(ss[j], run[j])
    ensures ss[i].unpause <= ss[i].pause
    ensures At(ss[i], w).Asleep? && (w, k) in ss[i].work ==> exists d :: WillSignal(At(ss[i], d), w)
  {
    UntornRuns(ss, run, i);
    RunsKeepInv(ss, run, i);
    if At(ss[i], w).Asleep? && (w, k) in ss[i].work {
      assert WorkOK(ss[i], w, k);
    }
  }

  /** Once request_stop_all has returned, no worker is asleep, torn loads or not. */
  lemma {:induction false} NoneAsleepAfterStop(ss: seq<State>, run: seq<Step>, i: nat, j: nat, t: Tid, w: Tid)
    requires IsRun(ss, run) && i < j < |ss| && w < ss[j].n
    requires run[i] == Turn(t) && Stopping(At(ss[i], t)) && At(ss[i+1], t).Idle?
    ensures ss[j].n == ss[i].n && AllStopped(ss[j]) && !At(ss[j], w).Asleep?
    decreases j
  {
    if j == i + 1 {
      RunsKeepInv(ss, run, i);
      StopReturns(ss[i], t);
    } else {
      assert CanStep(ss[j-1], run[j-1]) && ss[j] == Next(ss[j-1], run[j-1]);
      NoneAsleepAfterStop(ss, run, i, j - 1, t, w);
      StopLasts(ss[j-1], run[j-1]);
    }
    assert Stopped(ss[j], w);
  }

  // ------------------------------------------------------- two torn loads

  lemma Extend(ss: seq<State>, run: seq<Step>, a: Step) returns (ss': seq<State>, run': seq<Step>)
    requires IsRun(ss, run) && CanStep(ss[|run|], a)
    ensures IsRun(ss', run') && ss'[|run'|] == Next(ss[|run|], a)
  {
    ss', run' := ss + [Next(ss[|run|], a)], run + [a];
    forall i {:trigger run'[i]} | 0 <= i < |run'| ensures CanStep(ss'[i], run'[i]) && ss'[i+1] == Next(ss'[i], run'[i]) {
      if i < |run| { assert run'[i] == run[i]; }
    }
  }

  /** One worker, thread 0, not marked as parked; two dispatchers off the pool. */
  ghost predicate Scene(s: State, pause: nat, unpause: nat, busy: bool, w: Pc, a: Pc, b: Pc) {
    && s.n == 1 && s.subs == 4 && s.pause == pause && s.unpause == unpause && s.parkedCount == 0 && s.stop == {}
    && 0 !in s.mutex && ((0, 0) in s.work <==> busy) && (forall q {:trigger q in s.work} :: q in s.work ==> q == (0, 0))
    && At(s, 0) == w && At(s, 1) == a && At(s, 2) == b && forall t {:trigger t in s.pc} :: t in s.pc ==> t <= 2
  }

  lemma SignalsOut(ss: seq<State>, run: seq<Step>, t: Tid) returns (ss': seq<State>, run': seq<Step>)
    requires IsRun(ss, run) && t != 0 && 0 !in ss[|run|].mutex && At(ss[|run|], t) == SignalLock(0) && !At(ss[|run|], 0).Asleep?
    ensures IsRun(ss', run') && ss'[|run'|] == Hold(Go(ss[|run|], t, SignalUnlock(0)), 0, t)
  {
    var s := ss[|run|];
    ss', run' := Extend(ss, run, Turn(t));
    assert ss'[|run'|] == Hold(Go(s, t, SignalTo(0)), 0, t);
    ss', run' := Extend(ss', run', Turn(t));
    assert s.pc[t := SignalTo(0)][t := SignalUnlock(0)] == s.pc[t := SignalUnlock(0)];
  }

  /** signal_one on a worker that is not asleep does nothing. */
  lemma SignalsInVain(ss: seq<State>, run: seq<Step>, t: Tid) returns (ss': seq<State>, run': seq<Step>)
    requires IsRun(ss, run) && t != 0 && 0 !in ss[|run|].mutex && At(ss[|run|], t) == SignalLock(0) && !At(ss[|run|], 0).Asleep?
    ensures IsRun(ss', run') && 0 !in ss'[|run'|].mutex
    ensures ss'[|run'|] == ss[|run|].(pc := ss[|run|].pc[t := Idle], mutex := ss'[|run'|].mutex)
  {
    ss', run' := SignalsOut(ss, run, t);
    ss', run' := Extend(ss', run', Turn(t));
    assert ss[|run|].pc[t := SignalUnlock(0)][t := Idle] == ss[|run|].pc[t := Idle];
  }

  /** A whole dispatch by thread 2, with no worker parked: UNPAUSE_EPOCH catches up. */
  lemma Dispatches(ss: seq<State>, run: seq<Step>, p: nat, u: nat, w: Pc, x: Pc)
    returns (ss': seq<State>, run': seq<Step>)
    requires IsRun(ss, run) && !w.Asleep? && u != p && Scene(ss[|run|], p, u, false, w, x, Idle)
    ensures IsRun(ss', run') && Scene(ss'[|run'|], p, p, true, w, x, Idle)
  {
    ss', run' := Extend(ss, run, Begin(2, Put(0, 0, true)));
    ss', run' := Extend(ss', run', Turn(2));
    ss', run' := Extend(ss', run', Turn(2));
    ss', run' := Extend(ss', run', Turn(2));
    ss', run' := CasAndSignal(ss', run', p, u, w, x);
  }

  lemma CasAndSignal(ss: seq<State>, run: seq<Step>, p: nat, u: nat, w: Pc, x: Pc)
    returns (ss': seq<State>, run': seq<Step>)
    requires IsRun(ss, run) && !w.Asleep? && Scene(ss[|run|], p, u, true, w, x, Cas(0, true, p, u))
    ensures IsRun(ss', run') && Scene(ss'[|run'|], p, p, true, w, x, Idle)
  {
    ss', run' := Extend(ss, run, Turn(2));
    ss', run' := Extend(ss', run', Turn(2));
    ss', run' := SignalsInVain(ss', run', 2);
  }

  /** The scan of the one worker, with nothing to be seen. */
  lemma {:induction false} Scans(ss: seq<State>, run: seq<Step>, p: nat, u: nat, snap: nat, mark: nat, i: nat, x: Pc)
    returns (ss': seq<State>, run': seq<Step>)
    requires IsRun(ss, run) && i <= 4 && Scene(ss[|run|], p, u, false, Scan(snap, mark, 0, i), x, Idle)
    ensures IsRun(ss', run') && Scene(ss'[|run'|], p, u, false, Lock(snap, mark), x, Idle)
    decreases 4 - i
  {
    ss', run' := Extend(ss, run, Turn(0));
    if i < 4 {
      ss', run' := Scans(ss', run', p, u, snap, mark, i + 1, x);
    } else {
      ss', run' := Extend(ss', run', Turn(0));
    }
  }

  /** Dispatcher 1 has loaded PAUSE_EPOCH as 1; its node has been taken already. */
  lemma TornLoad() returns (ss: seq<State>, run: seq<Step>)
    ensures IsRun(ss, run) && Scene(ss[|run|], 1, 0, false, Idle, LoadUnpause(0, true, 1), Idle)
  {
    ss, run := TornLook();
    ss, run := Extend(ss, run, Turn(0));
    ss, run := Extend(ss, run, Take(0, 0));
  }

  lemma TornLook() returns (ss: seq<State>, run: seq<Step>)
    ensures IsRun(ss, run) && Scene(ss[|run|], 1, 0, true, Scan(0, 1, 0, 0), LoadUnpause(0, true, 1), Idle)
  {
    ss, run := TornBump();
    ss, run := Extend(ss, run, Turn(1));
  }

  lemma TornBump() returns (ss: seq<State>, run: seq<Step>)
    ensures IsRun(ss, run) && Scene(ss[|run|], 1, 0, true, Scan(0, 1, 0, 0), LoadPause(0, true), Idle)
  {
    ss, run := TornPut();
    ss, run := Extend(ss, run, Turn(0));
  }

  lemma TornPut() returns (ss: seq<State>, run: seq<Step>)
    ensures IsRun(ss, run) && Scene(ss[|run|], 0, 0, true, Bump(0), LoadPause(0, true), Idle)
  {
    ss, run := TornSnap();
    ss, run := Extend(ss, run, Begin(1, Put(0, 0, true)));
    ss, run := Extend(ss, run, Turn(1));
  }

  lemma TornSnap() returns (ss: seq<State>, run: seq<Step>)
    ensures IsRun(ss, run) && Scene(ss[|run|], 0, 0, false, Bump(0), Idle, Idle)
  {
    ss, run := [Start(1, 4)], [];
    ss, run := Extend(ss, run, Begin(0, Snap));
    ss, run := Extend(ss, run, Turn(0));
  }

  /** Another dispatch comes and goes; the worker then notes 1, bumps the epoch to
      2, and finds its queues empty. */
  lemma TornNote() returns (ss: seq<State>, run: seq<Step>)
    ensures IsRun(ss, run) && Scene(ss[|run|], 2, 1, false, Lock(1, 2), LoadUnpause(0, true, 1), Idle)
  {
    ss, run := TornLoad();
    ss, run := Dispatches(ss, run, 1, 0, Idle, LoadUnpause(0, true, 1));
    ss, run := Extend(ss, run, Take(0, 0));
    ss, run := Extend(ss, run, Begin(0, Snap));
    ss, run := Extend(ss, run, Turn(0));
    ss, run := Extend(ss, run, Turn(0));
    ss, run := Scans(ss, run, 2, 1, 1, 2, 0, LoadUnpause(0, true, 1));
  }

  /** A third dispatch raises UNPAUSE_EPOCH to 2 and signals; only then does
      dispatcher 1 load it, and its CAS takes it back to 1. */
  lemma TornBack() returns (ss: seq<State>, run: seq<Step>)
    ensures IsRun(ss, run) && Scene(ss[|run|], 2, 1, true, Lock(1, 2), Idle, Idle)
  {
    ss, run := TornCas();
    ss, run := Extend(ss, run, Turn(1));
    assert ss[|run|].unpause == 1;
    ss, run := Extend(ss, run, Turn(1));
    ss, run := SignalsInVain(ss, run, 1);
  }

  lemma TornCas() returns (ss: seq<State>, run: seq<Step>)
    ensures IsRun(ss, run) && Scene(ss[|run|], 2, 2, true, Lock(1, 2), Cas(0, true, 1, 2), Idle)
  {
    ss, run := TornNote();
    ss, run := Dispatches(ss, run, 2, 1, Lock(1, 2), LoadUnpause(0, true, 1));
    ss, run := Extend(ss, run, Turn(1));
  }

  /** Without the hypothesis a worker can sleep over its own work with nobody left to
      wake it: the epoch it tests is back at the value it noted. */
  lemma TornLoadsStrand() returns (ss: seq<State>, run: seq<Step>)
    ensures IsRun(ss, run)
    ensures At(ss[|run|], 0).Asleep? && (0, 0) in ss[|run|].work && forall t :: t != 0 ==> At(ss[|run|], t).Idle?
  {
    ss, run := TornTest();
    ss, run := Extend(ss, run, Turn(0));
    ss, run := Extend(ss, run, Turn(0));
    ss, run := Extend(ss, run, Turn(0));
  }

  lemma TornTest() returns (ss: seq<State>, run: seq<Step>)
    ensures IsRun(ss, run)
    ensures var s := ss[|run|];
      && At(s, 0).MarkParked? && (0, 0) in s.work && At(s, 1).Idle? && At(s, 2).Idle?
      && forall t {:trigger t in s.pc} :: t in s.pc ==> t <= 2
  {
    ss, run := TornBack();
    ss, run := Extend(ss, run, Turn(0));
    ss, run := Extend(ss, run, Turn(0));
    ss, run := Extend(ss, run, Turn(0));
  }
}
