/** Parking and waking the workers: the pause and unpause epochs, the parked flags,
    each worker's condvar, and the stop request.  One load, store, fetch-add, CAS
    or mutex operation per step. */
module Parking {
  import opened Wrappers

  type Tid = nat

  datatype Pc =
    | Idle
    // pop_slow from its last failed pop to the wait; `snap` is ue_snap, `mark` the
    // value PAUSE_EPOCH got from the bump; sub-queue `i` of worker `v` is looked at next
    | Snap | Bump(snap: nat) | Scan(snap: nat, mark: nat, v: nat, i: nat)
    | Lock(snap: nat, mark: nat) | StopTest(snap: nat, mark: nat) | EpochTest(snap: nat, mark: nat)
    | MarkParked | CountParked | Sleep | Asleep | Relock | UncountParked | UnmarkParked | Unlock
    // boc_sched_dispatch of a node to `to`; `off`: from off the pool
    | Put(i: nat, to: Tid, off: bool) | LoadPause(to: Tid, off: bool) | LoadUnpause(to: Tid, off: bool, pe: nat)
    | Cas(to: Tid, off: bool, pe: nat, ue: nat)
    | AnyParked(to: Tid, off: bool) | Ring(to: Tid, off: bool, i: nat)
    | RingLock(to: Tid, off: bool, i: nat, w: Tid) | RingSignal(to: Tid, off: bool, i: nat, w: Tid)
    | RingUnlock(to: Tid, off: bool, i: nat, w: Tid)
    | SignalLock(to: Tid) | SignalTo(to: Tid) | SignalUnlock(to: Tid)
    // boc_sched_worker_request_stop_all
    | StopSet(i: nat) | StopLock(i: nat) | StopSignal(i: nat) | StopUnlock(i: nat)

  /** Workers are threads 0 to n - 1, each with `subs` sub-queues; `work` holds the
      sub-queues that are not empty, as (worker, index). */
  datatype State = State(n: nat, subs: nat, pause: nat, unpause: nat, parkedCount: int, parked: set<Tid>, stop: set<Tid>,
                         mutex: map<Tid, Tid>, work: set<(Tid, nat)>, pc: map<Tid, Pc>)

  function Start(n: nat, subs: nat): (s: State) { State(n, subs, 0, 0, 0, {}, {}, map[], {}, map[]) }

  function At(s: State, t: Tid): (p: Pc) { if t in s.pc then s.pc[t] else Idle }

  function Go(s: State, t: Tid, p: Pc): (s': State) { s.(pc := s.pc[t := p]) }

  datatype Step =
    | Begin(t: Tid, op: Pc)
    | Turn(t: Tid)
    | Rouse(w: Tid)              // a spurious wakeup
    | Take(w: Tid, i: nat)       // a pop or a steal empties a sub-queue
    | Feed(w: Tid, i: nat)       // a running worker adds to its own queues

  predicate CanBegin(s: State, t: Tid, op: Pc) {
    match op
    case Snap => t < s.n
    case Put(i, to, off) => to < s.n && i < s.subs && (off <==> t >= s.n) && (!off ==> to == t)
    // a worker whose `pending` was free enqueues nothing
    case LoadPause(to, off) => to == t && t < s.n && !off
    case StopSet(i) => i == 0 && t >= s.n
    case _ => false
  }

  /** The mutex a thread is about to lock. */
  function Wants(s: State, t: Tid): (w: Option<Tid>) {
    match At(s, t)
    case Lock(_, _) => Some(t)
    case Relock => Some(t)
    case RingLock(_, _, _, w) => Some(w)
    case SignalLock(to) => Some(to)
    case StopLock(i) => Some(i)
    case _ => None
  }

  predicate CanStep(s: State, a: Step) {
    match a
    case Begin(t, op) => At(s, t).Idle? && CanBegin(s, t, op)
    case Turn(t) =>
      !At(s, t).Idle? && !At(s, t).Asleep? && (Wants(s, t).Some? ==> Wants(s, t).value !in s.mutex)
    case Rouse(w) => At(s, w).Asleep?
    case Take(w, i) => true
    case Feed(w, i) => w < s.n && i < s.subs && At(s, w).Idle?
  }

  function Hold(s: State, w: Tid, t: Tid): (s': State) { s.(mutex := s.mutex[w := t]) }

  function Free(s: State, w: Tid): (s': State) { s.(mutex := s.mutex - {w}) }

  /** cnd_signal: a sleeping worker goes for its mutex. */
  function Signal(s: State, w: Tid): (s': State) { if At(s, w).Asleep? then Go(s, w, Relock) else s }

  /** Where a dispatcher goes once it is done with the epochs. */
  function Rest(to: Tid, off: bool): (p: Pc) { if off then SignalLock(to) else Idle }

  /** The i-th worker of the ring that starts after `to`. */
  function RingAt(n: nat, to: Tid, i: nat): (w: Tid) { if n == 0 then 0 else (to + 1 + i) % n }

  function NextRing(s: State, to: Tid, off: bool, i: nat): (p: Pc) { if i < s.n then Ring(to, off, i) else Rest(to, off) }

  function ParkTurn(s: State, t: Tid): (s': State) {
    match At(s, t)
    case Snap => Go(s, t, Bump(s.unpause))
    case Bump(snap) => Go(s, t, Scan(snap, s.pause + 1, 0, 0)).(pause := s.pause + 1)
    case Scan(snap, mark, v, i) =>
      Go(s, t, if v >= s.n then Lock(snap, mark)
               else if i >= s.subs then Scan(snap, mark, v + 1, 0)
               else if (v, i) in s.work then Idle
               else Scan(snap, mark, v, i + 1))
    case Lock(snap, mark) => Hold(Go(s, t, StopTest(snap, mark)), t, t)
    case StopTest(snap, mark) => Go(s, t, if t in s.stop then Unlock else EpochTest(snap, mark))
    case EpochTest(snap, mark) => Go(s, t, if s.unpause != snap then Unlock else MarkParked)
    case MarkParked => Go(s, t, CountParked).(parked := s.parked + {t})
    case CountParked => Go(s, t, Sleep).(parkedCount := s.parkedCount + 1)
    case Sleep => Free(Go(s, t, Asleep), t)
    case Relock => Hold(Go(s, t, UncountParked), t, t)
    case UncountParked => Go(s, t, UnmarkParked).(parkedCount := s.parkedCount - 1)
    case UnmarkParked => Go(s, t, Unlock).(parked := s.parked - {t})
    case Unlock => Free(Go(s, t, Idle), t)
    case _ => s
  }

  function EpochTurn(s: State, t: Tid): (s': State) {
    match At(s, t)
    case Put(i, to, off) => Go(s, t, LoadPause(to, off)).(work := s.work + {(to, i)})
    case LoadPause(to, off) => Go(s, t, LoadUnpause(to, off, s.pause))
    case LoadUnpause(to, off, pe) => Go(s, t, if pe == s.unpause then Rest(to, off) else Cas(to, off, pe, s.unpause))
    case Cas(to, off, pe, ue) =>
      if s.unpause == ue then Go(s, t, AnyParked(to, off)).(unpause := pe) else Go(s, t, Rest(to, off))
    case AnyParked(to, off) => Go(s, t, if s.parkedCount == 0 then Rest(to, off) else NextRing(s, to, off, 0))
    case _ => s
  }

  /** unpause_all */
  function RingTurn(s: State, t: Tid): (s': State) {
    match At(s, t)
    case Ring(to, off, i) =>
      var w := RingAt(s.n, to, i);
      Go(s, t, if w in s.parked then RingLock(to, off, i, w) else NextRing(s, to, off, i + 1))
    case RingLock(to, off, i, w) => Hold(Go(s, t, RingSignal(to, off, i, w)), w, t)
    case RingSignal(to, off, i, w) => Go(Signal(s, w), t, RingUnlock(to, off, i, w))
    case RingUnlock(to, off, i, w) => Free(Go(s, t, NextRing(s, to, off, i + 1)), w)
    case _ => s
  }

  /** signal_one, of the target of an off-worker dispatch */
  function SendTurn(s: State, t: Tid): (s': State) {
    match At(s, t)
    case SignalLock(to) => Hold(Go(s, t, SignalTo(to)), to, t)
    case SignalTo(to) => Go(Signal(s, to), t, SignalUnlock(to))
    case SignalUnlock(to) => Free(Go(s, t, Idle), to)
    case _ => s
  }

  function StopTurn(s: State, t: Tid): (s': State) {
    match At(s, t)
    case StopSet(i) =>
      if i < s.n then Go(s, t, StopSet(i + 1)).(stop := s.stop + {i}) else Go(s, t, if s.n > 0 then StopLock(0) else Idle)
    case StopLock(i) => Hold(Go(s, t, StopSignal(i)), i, t)
    case StopSignal(i) => Go(Signal(s, i), t, StopUnlock(i))
    case StopUnlock(i) => Free(Go(s, t, if i + 1 < s.n then StopLock(i + 1) else Idle), i)
    case _ => s
  }

  predicate Parks(p: Pc) {
    || p.Snap? || p.Bump? || p.Scan? || p.Lock? || p.StopTest? || p.EpochTest? || p.MarkParked? || p.CountParked?
    || p.Sleep? || p.Relock? || p.UncountParked? || p.UnmarkParked? || p.Unlock?
  }

  predicate Epochs(p: Pc) { p.Put? || p.LoadPause? || p.LoadUnpause? || p.Cas? || p.AnyParked? }

  predicate Rings(p: Pc) { p.Ring? || p.RingLock? || p.RingSignal? || p.RingUnlock? }

  predicate Stopping(p: Pc) { p.StopSet? || p.StopLock? || p.StopSignal? || p.StopUnlock? }

  function TurnOf(s: State, t: Tid): (s': State) {
    var p := At(s, t);
    if Parks(p) then ParkTurn(s, t)
    else if Epochs(p) then EpochTurn(s, t)
    else if Rings(p) then RingTurn(s, t)
    else if Stopping(p) then StopTurn(s, t)
    else SendTurn(s, t)
  }

  function Next(s: State, a: Step): (s': State)
    requires CanStep(s, a)
  {
    match a
    case Begin(t, op) => Go(s, t, op)
    case Turn(t) => TurnOf(s, t)
    case Rouse(w) => Go(s, w, Relock)
    case Take(w, i) => s.(work := s.work - {(w, i)})
    case Feed(w, i) => s.(work := s.work + {(w, i)})
  }

  // --------------------------------------------------------- the mutexes, always

  /** The mutex a thread holds. */
  function Holds(t: Tid, p: Pc): (w: Option<Tid>) {
    match p
    case StopTest(_, _) => Some(t)
    case EpochTest(_, _) => Some(t)
    case MarkParked => Some(t)
    case CountParked => Some(t)
    case Sleep => Some(t)
    case UncountParked => Some(t)
    case UnmarkParked => Some(t)
    case Unlock => Some(t)
    case RingSignal(_, _, _, w) => Some(w)
    case RingUnlock(_, _, _, w) => Some(w)
    case SignalTo(to) => Some(to)
    case SignalUnlock(to) => Some(to)
    case StopSignal(i) => Some(i)
    case StopUnlock(i) => Some(i)
    case _ => None
  }

  /** A thread holds what it should, and parks only as a worker. */
  ghost predicate ThreadOK(s: State, t: Tid) {
    var p := At(s, t);
    && (Holds(t, p).Some? ==> Holds(t, p).value in s.mutex && s.mutex[Holds(t, p).value] == t)
    && (Parks(p) || p.Asleep? ==> t < s.n)
  }

  ghost predicate MutexOK(s: State, w: Tid) { w in s.mutex ==> Holds(s.mutex[w], At(s, s.mutex[w])) == Some(w) }

  // ------------------------------------------------------------ the stop request

  /** Past the point where it looked for a stop request. */
  predicate PastStop(p: Pc) { p.EpochTest? || p.MarkParked? || p.CountParked? || p.Sleep? || p.Asleep? }

  /** Told to stop, and not on its way to sleep. */
  predicate Stopped(s: State, w: Tid) { w in s.stop && !PastStop(At(s, w)) }

  /** What stop request `t` has achieved so far for worker `w`. */
  predicate Reached(s: State, t: Tid, w: Tid) {
    match At(s, t)
    case StopSet(i) => w < i ==> w in s.stop
    case StopLock(i) => w in s.stop && (w < i ==> Stopped(s, w))
    case StopSignal(i) => w in s.stop && (w < i ==> Stopped(s, w))
    case StopUnlock(i) => w in s.stop && (w <= i ==> Stopped(s, w))
    case _ => true
  }

  ghost predicate Inv(s: State) {
    && (forall t {:trigger ThreadOK(s, t)} :: ThreadOK(s, t))
    && (forall w {:trigger MutexOK(s, w)} :: MutexOK(s, w))
    && (forall t: Tid, w: Tid {:trigger Reached(s, t, w)} :: w < s.n ==> Reached(s, t, w))
  }

  lemma ParkKeeps(s: State, t: Tid, u: Tid)
    requires CanStep(s, Turn(t)) && Parks(At(s, t)) && ThreadOK(s, t) && ThreadOK(s, u) && MutexOK(s, u)
    requires MutexOK(s, t)
    ensures ThreadOK(ParkTurn(s, t), u) && MutexOK(ParkTurn(s, t), u)
  {
  }

  lemma EpochKeeps(s: State, t: Tid, u: Tid)
    requires CanStep(s, Turn(t)) && Epochs(At(s, t)) && ThreadOK(s, u) && MutexOK(s, u)
    ensures ThreadOK(EpochTurn(s, t), u) && MutexOK(EpochTurn(s, t), u)
  {
  }

  lemma RingKeeps(s: State, t: Tid, u: Tid)
    requires CanStep(s, Turn(t)) && Rings(At(s, t)) && ThreadOK(s, t) && ThreadOK(s, u) && MutexOK(s, u)
    ensures ThreadOK(RingTurn(s, t), u) && MutexOK(RingTurn(s, t), u)
  {
  }

  lemma SendKeeps(s: State, t: Tid, u: Tid)
    requires CanStep(s, Turn(t)) && ThreadOK(s, t) && ThreadOK(s, u) && MutexOK(s, u)
    ensures ThreadOK(SendTurn(s, t), u) && MutexOK(SendTurn(s, t), u)
  {
  }

  lemma StopTurnKeeps(s: State, t: Tid, u: Tid)
    requires CanStep(s, Turn(t)) && Stopping(At(s, t)) && ThreadOK(s, t) && ThreadOK(s, u) && MutexOK(s, u)
    ensures ThreadOK(StopTurn(s, t), u) && MutexOK(StopTurn(s, t), u)
  {
  }

  /** A worker that has been told to stop does not go back to sleep. */
  lemma StaysStopped(s: State, a: Step, w: Tid)
    requires CanStep(s, a) && w in s.stop
    ensures w in Next(s, a).stop && (PastStop(At(Next(s, a), w)) ==> PastStop(At(s, w)))
  {
    FlagsStay(s, a);
    if PastStop(At(Next(s, a), w)) { NotBack(s, a, w); }
  }

  lemma FlagsStay(s: State, a: Step)
    requires CanStep(s, a)
    ensures s.stop <= Next(s, a).stop
  {
  }

  lemma NotBack(s: State, a: Step, w: Tid)
    requires CanStep(s, a) && w in s.stop && PastStop(At(Next(s, a), w))
    ensures PastStop(At(s, w))
  {
    if a.Turn? {
      if Parks(At(s, a.t)) { ParkNotBack(s, a.t, w); } else { OtherNotBack(s, a.t, w); }
    }
  }

  lemma ParkNotBack(s: State, t: Tid, w: Tid)
    requires Parks(At(s, t)) && w in s.stop && PastStop(At(ParkTurn(s, t), w))
    ensures PastStop(At(s, w))
  {
  }

  lemma OtherNotBack(s: State, t: Tid, w: Tid)
    requires !Parks(At(s, t)) && PastStop(At(TurnOf(s, t), w))
    ensures PastStop(At(s, w))
  {
  }

  /** The signal finds the worker asleep, or before its test: between the test and
      the wait it holds the mutex. */
  lemma SignalStops(s: State, t: Tid)
    requires CanStep(s, Turn(t)) && At(s, t).StopSignal? && ThreadOK(s, t) && ThreadOK(s, At(s, t).i)
    ensures !PastStop(At(StopTurn(s, t), At(s, t).i))
  {
  }

  lemma RequestTurn(s: State, t: Tid, w: Tid)
    requires CanStep(s, Turn(t)) && Stopping(At(s, t)) && Reached(s, t, w) && ThreadOK(s, t) && w < s.n
    requires At(s, t).StopSignal? ==> ThreadOK(s, At(s, t).i)
    requires w in s.stop && Stopped(s, w) ==> Stopped(StopTurn(s, t), w)
    ensures Reached(StopTurn(s, t), t, w)
  {
    if At(s, t).StopSignal? { SignalStops(s, t); }
  }

  lemma RequestKeeps(s: State, a: Step, t: Tid, w: Tid)
    requires Inv(s) && CanStep(s, a) && w < s.n
    ensures Reached(Next(s, a), t, w)
  {
    assert Reached(s, t, w);
    if w in s.stop { StaysStopped(s, a, w); }
    if a == Turn(t) && Stopping(At(s, t)) {
      assert ThreadOK(s, t);
      if At(s, t).StopSignal? { assert ThreadOK(s, At(s, t).i); }
      RequestTurn(s, t, w);
    } else {
      Elsewhere(s, a, t);
    }
  }

  lemma Elsewhere(s: State, a: Step, t: Tid)
    requires CanStep(s, a) && !(a == Turn(t) && Stopping(At(s, t)))
    ensures Stopping(At(Next(s, a), t)) ==> At(Next(s, a), t) == At(s, t) || At(Next(s, a), t) == StopSet(0)
  {
  }

  /** The mutexes and the stop request are sound in every run, torn loads or not. */
  lemma StepKeeps(s: State, a: Step)
    requires Inv(s) && CanStep(s, a)
    ensures Inv(Next(s, a))
  {
    var s' := Next(s, a);
    forall u ensures ThreadOK(s', u) && MutexOK(s', u) {
      assert ThreadOK(s, u) && MutexOK(s, u);
      if a.Turn? {
        assert ThreadOK(s, a.t) && MutexOK(s, a.t);
        if Parks(At(s, a.t)) { ParkKeeps(s, a.t, u); }
        else if Epochs(At(s, a.t)) { EpochKeeps(s, a.t, u); }
        else if Rings(At(s, a.t)) { RingKeeps(s, a.t, u); }
        else if Stopping(At(s, a.t)) { StopTurnKeeps(s, a.t, u); }
        else { SendKeeps(s, a.t, u); }
      }
    }
    forall t: Tid, w: Tid {:trigger Reached(s', t, w)} | w < s'.n ensures Reached(s', t, w) { RequestKeeps(s, a, t, w); }
  }

  ghost predicate AllStopped(s: State) { forall w {:trigger Stopped(s, w)} :: 0 <= w < s.n ==> Stopped(s, w) }

  /** When request_stop_all returns, every worker has been told and none is asleep,
      or will sleep. */
  lemma StopReturns(s: State, t: Tid)
    requires Inv(s) && CanStep(s, Turn(t)) && Stopping(At(s, t)) && At(Next(s, Turn(t)), t).Idle?
    ensures AllStopped(Next(s, Turn(t)))
  {
    var s' := Next(s, Turn(t));
    forall w {:trigger Stopped(s', w)} | 0 <= w < s.n ensures Stopped(s', w) {
      assert Reached(s, t, w);
      StaysStopped(s, Turn(t), w);
    }
  }

  lemma StopLasts(s: State, a: Step)
    requires CanStep(s, a) && AllStopped(s)
    ensures AllStopped(Next(s, a))
  {
    var s' := Next(s, a);
    forall w {:trigger Stopped(s', w)} | 0 <= w < s.n ensures Stopped(s', w) {
      assert Stopped(s, w);
      StaysStopped(s, a, w);
    }
  }
}
