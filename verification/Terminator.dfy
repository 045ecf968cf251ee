/** The rundown counter: TERMINATOR_COUNT, its seed and close bit, and the condvar
    its waiters sleep on.  Every load, store, exchange, CAS, fetch-add and every
    mutex or condvar operation is one step. */
module Terminator {
  import opened Wrappers

  type Tid = nat

  /** Why a wait returns: for terminator_wait true or false, for the pumpable one its reason. */
  datatype Reason = Terminated | PumpReady | TimedOut

  /** Where a thread stands.  `pump` marks terminator_wait_pumpable. */
  datatype Pc =
    | Out
    | IncCheck | IncAdd | IncRecheck | IncUndo            // terminator_inc
    | DecSub                                              // terminator_dec
    | DropSeed | DropCount                                // terminator_seed_dec
    | SetSeed | AddSeed                                   // terminator_seed_inc
    | Close                                               // terminator_close
    | PinDepth                                            // boc_main_pinned_enqueue
    | WakeLock | WakeAll | WakeUnlock                     // lock, broadcast, unlock
    | WaitLock(pump: bool) | WaitCount(pump: bool) | WaitDepth | WaitSleep(pump: bool)
    | Asleep(pump: bool) | WaitRelock(pump: bool) | WaitUnlock(why: Reason)
    | ResetClose | ResetLock | ResetCount | ResetSeed | ResetOpen | ResetWake | ResetUnlock

  /** `depth` is MAIN_PINNED_DEPTH.  The rest is history: the holds granted and not
      yet dropped; the threads between the two halves of an operation; and `lost`,
      what terminator_reset forgot. */
  datatype State = State(count: int, closed: bool, seeded: bool, mutex: Option<Tid>, depth: nat, pc: map<Tid, Pc>,
                         holds: int, dropping: set<Tid>, adding: set<Tid>, unseeding: set<Tid>, seeding: set<Tid>,
                         wakers: set<Tid>, lost: int)

  const Init := State(0, false, false, None, 0, map[], 0, {}, {}, {}, {}, {}, 0)

  function At(s: State, t: Tid): (p: Pc) { if t in s.pc then s.pc[t] else Out }

  function Go(s: State, t: Tid, p: Pc): (s': State) { s.(pc := s.pc[t := p]) }

  function Seed(s: State): (n: int) { if s.seeded then 1 else 0 }

  /** What the count should be. */
  function Due(s: State): (n: int) {
    Seed(s) + s.holds + |s.adding| + |s.unseeding| - |s.seeding|
  }

  datatype Step = Begin(t: Tid, op: Pc) | Turn(t: Tid) | GiveUp(t: Tid) | Rouse(t: Tid) | Pump

  predicate Entry(p: Pc) {
    || p.IncCheck? || p.DecSub? || p.DropSeed? || p.SetSeed? || p.Close? || p.PinDepth? || p.WaitLock? || p.ResetClose?
    || p.WakeLock?
  }

  predicate CanStep(s: State, a: Step) {
    match a
    case Begin(t, op) => At(s, t).Out? && Entry(op) && (op.DecSub? ==> |s.dropping| < s.holds)   // the caller owns a hold
    case Turn(t) =>
      && !At(s, t).Out? && !At(s, t).Asleep?
      && (At(s, t).WakeLock? || At(s, t).WaitLock? || At(s, t).WaitRelock? || At(s, t).ResetLock? ==> s.mutex.None?)
    case GiveUp(t) => At(s, t).WaitSleep?            // the deadline has passed
    case Rouse(t) => At(s, t).Asleep?                // a timeout, or a spurious wakeup
    case Pump => s.depth > 0
  }

  /** After a fetch-add of -1: the thread that brought the count to 0 broadcasts. */
  function Subtract(s: State, t: Tid): (s': State) {
    var s1 := s.(count := s.count - 1);
    if s1.count == 0 then Go(s1, t, WakeLock).(wakers := s.wakers + {t}) else Go(s1, t, Out)
  }

  /** cnd_broadcast: every sleeper goes for the mutex. */
  function Broadcast(s: State): (s': State) {
    s.(pc := map t | t in s.pc :: if s.pc[t].Asleep? then WaitRelock(s.pc[t].pump) else s.pc[t])
  }

  /** terminator_inc and terminator_dec */
  function HoldTurn(s: State, t: Tid): (s': State) {
    match At(s, t)
    case IncCheck => Go(s, t, if s.closed then Out else IncAdd)
    case IncAdd => Go(s, t, IncRecheck).(count := s.count + 1, adding := s.adding + {t})
    case IncRecheck =>
      if s.closed then Go(s, t, IncUndo) else Go(s, t, Out).(holds := s.holds + 1, adding := s.adding - {t})
    case IncUndo => Subtract(s.(adding := s.adding - {t}), t)
    case DecSub => Subtract(s.(dropping := s.dropping - {t}, holds := s.holds - 1), t)
    case _ => s
  }

  /** terminator_seed_dec and terminator_seed_inc */
  function SeedTurn(s: State, t: Tid): (s': State) {
    match At(s, t)
    case DropSeed =>
      if s.seeded then Go(s, t, DropCount).(seeded := false, unseeding := s.unseeding + {t}) else Go(s, t, Out)
    case DropCount => Subtract(s.(unseeding := s.unseeding - {t}), t)
    case SetSeed =>
      if s.seeded then Go(s, t, Out) else Go(s, t, AddSeed).(seeded := true, seeding := s.seeding + {t})
    case AddSeed => Go(s, t, Out).(count := s.count + 1, seeding := s.seeding - {t})
    case _ => s
  }

  /** terminator_close, the pinned enqueue, and terminator_wake_all */
  function WakeTurn(s: State, t: Tid): (s': State) {
    match At(s, t)
    case Close => Go(s, t, Out).(closed := true)
    case PinDepth => Go(s, t, WakeLock).(depth := s.depth + 1, wakers := s.wakers + {t})
    case WakeLock => Go(s, t, WakeAll).(mutex := Some(t))
    case WakeAll => Go(Broadcast(s), t, WakeUnlock).(wakers := s.wakers - {t})
    case WakeUnlock => Go(s, t, Out).(mutex := None)
    case _ => s
  }

  /** terminator_wait and terminator_wait_pumpable */
  function WaitTurn(s: State, t: Tid): (s': State) {
    match At(s, t)
    case WaitLock(p) => Go(s, t, WaitCount(p)).(mutex := Some(t))
    case WaitCount(p) => Go(s, t, if s.count == 0 then WaitUnlock(Terminated) else if p then WaitDepth else WaitSleep(false))
    case WaitDepth => Go(s, t, if s.depth > 0 then WaitUnlock(PumpReady) else WaitSleep(true))
    case WaitSleep(p) => Go(s, t, Asleep(p)).(mutex := None)
    case WaitRelock(p) => Go(s, t, WaitCount(p)).(mutex := Some(t))
    case WaitUnlock(_) => Go(s, t, Out).(mutex := None)
    case _ => s
  }

  /** terminator_reset */
  function ResetTurn(s: State, t: Tid): (s': State) {
    match At(s, t)
    case ResetClose => Go(s, t, ResetLock).(closed := true)
    case ResetLock => Go(s, t, ResetCount).(mutex := Some(t))
    case ResetCount => Go(s, t, ResetSeed).(count := 1, lost := Due(s) - 1)
    case ResetSeed => Go(s, t, ResetOpen).(seeded := true, lost := Due(s.(seeded := true)) - s.count)
    case ResetOpen => Go(s, t, ResetWake).(closed := false)
    case ResetWake => Go(Broadcast(s), t, ResetUnlock)
    case ResetUnlock => Go(s, t, Out).(mutex := None)
    case _ => s
  }

  predicate Holding(p: Pc) { p.IncCheck? || p.IncAdd? || p.IncRecheck? || p.IncUndo? || p.DecSub? }

  predicate Seeding(p: Pc) { p.DropSeed? || p.DropCount? || p.SetSeed? || p.AddSeed? }

  predicate Waking(p: Pc) { p.Close? || p.PinDepth? || p.WakeLock? || p.WakeAll? || p.WakeUnlock? }

  predicate Waiting(p: Pc) {
    p.WaitLock? || p.WaitCount? || p.WaitDepth? || p.WaitSleep? || p.WaitRelock? || p.WaitUnlock?
  }

  function TurnOf(s: State, t: Tid): (s': State) {
    var p := At(s, t);
    if Holding(p) then HoldTurn(s, t)
    else if Seeding(p) then SeedTurn(s, t)
    else if Waking(p) then WakeTurn(s, t)
    else if Waiting(p) then WaitTurn(s, t)
    else ResetTurn(s, t)
  }

  function Next(s: State, a: Step): (s': State)
    requires CanStep(s, a)
  {
    match a
    case Begin(t, op) =>
      Go(s, t, op).(dropping := if op.DecSub? then s.dropping + {t} else s.dropping,
                    wakers := if op.WakeLock? then s.wakers + {t} else s.wakers)
    case GiveUp(t) => Go(s, t, WaitUnlock(TimedOut))
    case Rouse(t) => Go(s, t, WaitRelock(At(s, t).pump))
    case Pump => s.(depth := s.depth - 1)
    case Turn(t) => TurnOf(s, t)
  }

  // ---------------------------------------------------------------- invariant

  predicate Locked(p: Pc) {
    || p.WakeAll? || p.WakeUnlock? || p.WaitCount? || p.WaitDepth? || p.WaitSleep? || p.WaitUnlock?
    || p.ResetCount? || p.ResetSeed? || p.ResetOpen? || p.ResetWake? || p.ResetUnlock?
  }

  ghost predicate ThreadOK(s: State, t: Tid) {
    var p := At(s, t);
    && (s.mutex == Some(t) <==> Locked(p))
    && (t in s.dropping <==> p.DecSub?)
    && (t in s.adding <==> p.IncRecheck? || p.IncUndo?)
    && (t in s.unseeding <==> p.DropCount?)
    && (t in s.seeding <==> p.AddSeed?)
    && (t in s.wakers <==> p.WakeLock? || p.WakeAll?)
  }

  ghost predicate Inv(s: State) {
    && Counted(s)
    && forall t {:trigger ThreadOK(s, t)} :: ThreadOK(s, t)
  }

  lemma BroadcastAt(s: State, t: Tid)
    ensures At(Broadcast(s), t) == if At(s, t).Asleep? then WaitRelock(At(s, t).pump) else At(s, t)
  {
  }

  ghost predicate Counted(s: State) { s.count + s.lost == Due(s) && |s.dropping| <= s.holds }

  /** The parts of the state that the count is made of. */
  predicate Balance(s: State, d: int) {
    s.count + s.lost == Seed(s) + s.holds + |s.adding| + |s.unseeding| - |s.seeding| + d && |s.dropping| <= s.holds
  }

  lemma SizeOf(xs: set<Tid>, t: Tid)
    ensures t in xs ==> |xs - {t}| == |xs| - 1 && |xs + {t}| == |xs|
    ensures t !in xs ==> |xs + {t}| == |xs| + 1 && |xs - {t}| == |xs|
  {
    if t in xs { assert xs + {t} == xs; } else { assert xs - {t} == xs; }
  }

  lemma Subtracts(s: State, t: Tid)
    requires Balance(s, 1)
    ensures Counted(Subtract(s, t))
  {
  }

  lemma HoldCount(s: State, t: Tid)
    requires Counted(s) && ThreadOK(s, t) && Holding(At(s, t))
    ensures Counted(HoldTurn(s, t))
  {
    if At(s, t).IncUndo? || At(s, t).DecSub? { DropHoldCount(s, t); } else { TakeHoldCount(s, t); }
  }

  lemma TakeHoldCount(s: State, t: Tid)
    requires Counted(s) && ThreadOK(s, t) && (At(s, t).IncCheck? || At(s, t).IncAdd? || At(s, t).IncRecheck?)
    ensures Counted(HoldTurn(s, t))
  {
    SizeOf(s.adding, t);
  }

  lemma DropHoldCount(s: State, t: Tid)
    requires Counted(s) && ThreadOK(s, t) && (At(s, t).IncUndo? || At(s, t).DecSub?)
    ensures Counted(HoldTurn(s, t))
  {
    if At(s, t).IncUndo? { UndoCount(s, t); } else { DecCount(s, t); }
  }

  lemma UndoCount(s: State, t: Tid)
    requires Counted(s) && t in s.adding && At(s, t).IncUndo?
    ensures Counted(HoldTurn(s, t))
  {
    var s1 := s.(adding := s.adding - {t});
    SizeOf(s.adding, t);
    assert Balance(s1, 1);
    Subtracts(s1, t);
    assert HoldTurn(s, t) == Subtract(s1, t);
  }

  lemma DecCount(s: State, t: Tid)
    requires Counted(s) && t in s.dropping && At(s, t).DecSub?
    ensures Counted(HoldTurn(s, t))
  {
    var s1 := s.(dropping := s.dropping - {t}, holds := s.holds - 1);
    SizeOf(s.dropping, t);
    assert Balance(s1, 1);
    Subtracts(s1, t);
    assert HoldTurn(s, t) == Subtract(s1, t);
  }

  lemma SeedCount(s: State, t: Tid)
    requires Counted(s) && ThreadOK(s, t) && Seeding(At(s, t))
    ensures Counted(SeedTurn(s, t))
  {
    SizeOf(s.unseeding, t);
    SizeOf(s.seeding, t);
    if At(s, t).DropCount? { Subtracts(s.(unseeding := s.unseeding - {t}), t); }
  }

  /** Whatever touches none of those parts keeps it. */
  predicate SameParts(s: State, s': State) {
    && s'.count == s.count && s'.lost == s.lost && s'.seeded == s.seeded && s'.holds == s.holds && s'.adding == s.adding
    && s'.unseeding == s.unseeding && s'.seeding == s.seeding && s'.dropping == s.dropping
  }

  lemma WakeParts(s: State, t: Tid)
    ensures SameParts(s, WakeTurn(s, t))
  {
  }

  lemma WaitParts(s: State, t: Tid)
    ensures SameParts(s, WaitTurn(s, t))
  {
  }

  lemma ResetParts(s: State, t: Tid)
    requires !At(s, t).ResetCount? && !At(s, t).ResetSeed?
    ensures SameParts(s, ResetTurn(s, t))
  {
  }

  lemma ResetStores(s: State, t: Tid)
    requires |s.dropping| <= s.holds && (At(s, t).ResetCount? || At(s, t).ResetSeed?)
    ensures Counted(ResetTurn(s, t))
  {
  }

  lemma ResetCounted(s: State, t: Tid)
    requires Counted(s)
    ensures Counted(ResetTurn(s, t))
  {
    if At(s, t).ResetCount? || At(s, t).ResetSeed? { ResetStores(s, t); } else { ResetParts(s, t); }
  }

  lemma OtherCount(s: State, t: Tid)
    requires Counted(s)
    ensures Counted(WakeTurn(s, t)) && Counted(WaitTurn(s, t)) && Counted(ResetTurn(s, t))
  {
    WakeParts(s, t);
    WaitParts(s, t);
    ResetCounted(s, t);
  }

  lemma HoldThread(s: State, t: Tid, u: Tid)
    requires ThreadOK(s, t) && ThreadOK(s, u) && Holding(At(s, t))
    ensures ThreadOK(HoldTurn(s, t), u)
  {
    if At(s, t).IncUndo? || At(s, t).DecSub? { DropHoldThread(s, t, u); } else { TakeHoldThread(s, t, u); }
  }

  lemma TakeHoldThread(s: State, t: Tid, u: Tid)
    requires ThreadOK(s, t) && ThreadOK(s, u) && (At(s, t).IncCheck? || At(s, t).IncAdd? || At(s, t).IncRecheck?)
    ensures ThreadOK(HoldTurn(s, t), u)
  {
  }

  lemma DropHoldThread(s: State, t: Tid, u: Tid)
    requires ThreadOK(s, t) && ThreadOK(s, u) && (At(s, t).IncUndo? || At(s, t).DecSub?)
    ensures ThreadOK(HoldTurn(s, t), u)
  {
  }

  lemma SeedThread(s: State, t: Tid, u: Tid)
    requires ThreadOK(s, t) && ThreadOK(s, u) && Seeding(At(s, t))
    ensures ThreadOK(SeedTurn(s, t), u)
  {
  }

  lemma WakeThread(s: State, t: Tid, u: Tid)
    requires ThreadOK(s, t) && ThreadOK(s, u) && Waking(At(s, t)) && (At(s, t).WakeLock? ==> s.mutex.None?)
    ensures ThreadOK(WakeTurn(s, t), u)
  {
    if At(s, t).WakeAll? { BroadcastAt(s, u); }
  }

  lemma WaitThread(s: State, t: Tid, u: Tid)
    requires ThreadOK(s, t) && ThreadOK(s, u) && Waiting(At(s, t))
    requires At(s, t).WaitLock? || At(s, t).WaitRelock? ==> s.mutex.None?
    ensures ThreadOK(WaitTurn(s, t), u)
  {
  }

  lemma ResetThread(s: State, t: Tid, u: Tid)
    requires ThreadOK(s, t) && ThreadOK(s, u) && (At(s, t).ResetLock? ==> s.mutex.None?)
    ensures ThreadOK(ResetTurn(s, t), u)
  {
    if At(s, t).ResetWake? { ResetWakes(s, t, u); }
    else if At(s, t).ResetClose? || At(s, t).ResetLock? || At(s, t).ResetCount? { ResetBegins(s, t, u); }
    else { ResetMoves(s, t, u); }
  }

  lemma ResetWakes(s: State, t: Tid, u: Tid)
    requires ThreadOK(s, t) && ThreadOK(s, u) && At(s, t).ResetWake?
    ensures ThreadOK(ResetTurn(s, t), u)
  {
    BroadcastAt(s, u);
  }

  lemma ResetBegins(s: State, t: Tid, u: Tid)
    requires ThreadOK(s, t) && ThreadOK(s, u) && (At(s, t).ResetClose? || At(s, t).ResetLock? || At(s, t).ResetCount?)
    requires At(s, t).ResetLock? ==> s.mutex.None?
    ensures ThreadOK(ResetTurn(s, t), u)
  {
  }

  lemma ResetMoves(s: State, t: Tid, u: Tid)
    requires ThreadOK(s, t) && ThreadOK(s, u)
    requires !At(s, t).ResetWake? && !At(s, t).ResetClose? && !At(s, t).ResetLock? && !At(s, t).ResetCount?
    ensures ThreadOK(ResetTurn(s, t), u)
  {
  }

  lemma TurnKeeps(s: State, t: Tid)
    requires Inv(s) && CanStep(s, Turn(t))
    ensures Inv(TurnOf(s, t))
  {
    var p := At(s, t);
    assert ThreadOK(s, t);
    if Holding(p) { HoldCount(s, t); } else if Seeding(p) { SeedCount(s, t); } else { OtherCount(s, t); }
    forall u ensures ThreadOK(TurnOf(s, t), u) {
      assert ThreadOK(s, u);
      if Holding(p) { HoldThread(s, t, u); }
      else if Seeding(p) { SeedThread(s, t, u); }
      else if Waking(p) { WakeThread(s, t, u); }
      else if Waiting(p) { WaitThread(s, t, u); }
      else { ResetThread(s, t, u); }
    }
  }

  /** The count is always the seed, plus the holds granted, plus or minus one for
      each thread halfway through an operation, less what resets forgot. */
  lemma StepKeeps(s: State, a: Step)
    requires Inv(s) && CanStep(s, a)
    ensures Inv(Next(s, a))
  {
    if a.Turn? { TurnKeeps(s, a.t); } else { OtherStepKeeps(s, a); }
  }

  lemma OtherStepKeeps(s: State, a: Step)
    requires Inv(s) && CanStep(s, a) && !a.Turn?
    ensures Inv(Next(s, a))
  {
    if !a.Pump? { assert ThreadOK(s, a.t); }
    if a.Begin? { SizeOf(s.dropping, a.t); }
    forall u ensures ThreadOK(Next(s, a), u) {
      assert ThreadOK(s, u);
      OtherStepThread(s, a, u);
    }
  }

  lemma OtherStepThread(s: State, a: Step, u: Tid)
    requires ThreadOK(s, u) && CanStep(s, a) && !a.Turn? && (!a.Pump? ==> ThreadOK(s, a.t))
    ensures ThreadOK(Next(s, a), u)
  {
  }

  // ------------------------------------------------------------------- closing

  /** Once closed, and until a reset opens it again, no hold is granted. */
  lemma CloseHolds(s: State, a: Step)
    requires CanStep(s, a) && s.closed && !(a.Turn? && At(s, a.t).ResetOpen?)
    ensures Next(s, a).closed && Next(s, a).holds <= s.holds
  {
  }

  ghost predicate IsRun(ss: seq<State>, run: seq<Step>) {
    && |ss| == |run| + 1 && ss[0] == Init
    && forall i {:trigger run[i]} :: 0 <= i < |run| ==> CanStep(ss[i], run[i]) && ss[i+1] == Next(ss[i], run[i])
  }

  lemma {:induction false} RunsKeepInv(ss: seq<State>, run: seq<Step>, i: nat)
    requires IsRun(ss, run) && i < |ss|
    ensures Inv(ss[i])
  {
    if i == 0 {
      assert forall t :: ThreadOK(ss[0], t);
    } else {
      RunsKeepInv(ss, run, i - 1);
      StepKeeps(ss[i-1], run[i-1]);
    }
  }

  lemma {:induction false} NoHoldAfterClose(ss: seq<State>, run: seq<Step>, i: nat, j: nat)
    requires IsRun(ss, run) && i <= j < |ss| && ss[i].closed
    requires forall k {:trigger run[k]} :: i <= k < j ==> !(run[k].Turn? && At(ss[k], run[k].t).ResetOpen?)
    ensures ss[j].closed && ss[j].holds <= ss[i].holds
    decreases j
  {
    if i < j {
      NoHoldAfterClose(ss, run, i, j - 1);
      CloseHolds(ss[j-1], run[j-1]);
    }
  }

  // ------------------------------------------------------------------- wakeups

  /** `t` has looked at the count, found it nonzero, and sleeps or is about to. */
  predicate SawCount(p: Pc) { p.WaitDepth? || p.WaitSleep? || p.Asleep? }

  /** ... and has found the pinned queue empty too. */
  predicate SawDepth(p: Pc) { (p.WaitSleep? || p.Asleep?) && p.pump }

  /** What `t` waits for has come about. */
  predicate Satisfied(s: State, t: Tid) {
    (SawCount(At(s, t)) && s.count == 0) || (SawDepth(At(s, t)) && s.depth > 0)
  }

  /** Whoever has what it waits for has a broadcast still to come. */
  ghost predicate Wakeful(s: State) {
    (exists t :: Satisfied(s, t)) ==> s.wakers != {}
  }

  /** The one step that can strand a sleeper: raising the count to 0. */
  ghost predicate Strands(s: State, a: Step) {
    && a.Turn? && (At(s, a.t).IncAdd? || At(s, a.t).AddSeed?) && s.count == -1
    && s.wakers == {} && exists u :: SawCount(At(s, u))
  }

  lemma BroadcastWakes(s: State, t: Tid, u: Tid)
    requires Inv(s) && CanStep(s, Turn(t)) && (At(s, t).WakeAll? || At(s, t).ResetWake?)
    ensures !SawCount(At(TurnOf(s, t), u))
  {
    assert ThreadOK(s, t) && ThreadOK(s, u);
    BroadcastAt(s, u);
  }

  /** What one turn may do to what thread `u` waits for. */
  ghost predicate KeepsSatisfied(s: State, s': State, t: Tid, u: Tid) {
    Satisfied(s', u) ==> Satisfied(s, u) || s'.wakers != {} || Strands(s, Turn(t))
  }

  lemma HoldSatisfied(s: State, t: Tid, u: Tid)
    requires Holding(At(s, t))
    ensures KeepsSatisfied(s, HoldTurn(s, t), t, u)
  {
  }

  lemma SeedSatisfied(s: State, t: Tid, u: Tid)
    requires Seeding(At(s, t))
    ensures KeepsSatisfied(s, SeedTurn(s, t), t, u)
  {
  }

  lemma WaitSatisfied(s: State, t: Tid, u: Tid)
    requires Waiting(At(s, t))
    ensures KeepsSatisfied(s, WaitTurn(s, t), t, u)
  {
  }

  lemma WakeSatisfied(s: State, t: Tid, u: Tid)
    requires Waking(At(s, t)) && !At(s, t).WakeAll?
    ensures KeepsSatisfied(s, WakeTurn(s, t), t, u)
  {
  }

  lemma ResetSatisfied(s: State, t: Tid, u: Tid)
    requires !At(s, t).ResetWake? && !At(s, t).Asleep?
    ensures KeepsSatisfied(s, ResetTurn(s, t), t, u)
  {
  }

  lemma KeepsDue(s: State, a: Step, u: Tid)
    requires CanStep(s, a) && Satisfied(Next(s, a), u)
    requires !(a.Turn? && (At(s, a.t).WakeAll? || At(s, a.t).ResetWake?))
    ensures Satisfied(s, u) || Next(s, a).wakers != {} || Strands(s, a)
  {
    if a.Turn? {
      var p := At(s, a.t);
      if Holding(p) { HoldSatisfied(s, a.t, u); }
      else if Seeding(p) { SeedSatisfied(s, a.t, u); }
      else if Waking(p) { WakeSatisfied(s, a.t, u); }
      else if Waiting(p) { WaitSatisfied(s, a.t, u); }
      else { ResetSatisfied(s, a.t, u); }
    }
  }

  lemma KeepsWakers(s: State, a: Step)
    requires CanStep(s, a) && !(a.Turn? && At(s, a.t).WakeAll?)
    ensures s.wakers <= Next(s, a).wakers
  {
    if a.Turn? { TurnWakers(s, a.t); }
  }

  lemma TurnWakers(s: State, t: Tid)
    requires !At(s, t).WakeAll?
    ensures s.wakers <= HoldTurn(s, t).wakers && s.wakers <= SeedTurn(s, t).wakers && s.wakers <= WakeTurn(s, t).wakers
    ensures s.wakers <= WaitTurn(s, t).wakers && s.wakers <= ResetTurn(s, t).wakers
  {
  }

  lemma StrandsOne(s: State, a: Step)
    requires CanStep(s, a) && Strands(s, a)
    ensures !Wakeful(Next(s, a))
  {
    var u :| SawCount(At(s, u));
    assert u != a.t && At(Next(s, a), u) == At(s, u) && Satisfied(Next(s, a), u);
  }

  lemma OthersWakeful(s: State, a: Step)
    requires Wakeful(s) && CanStep(s, a) && !Strands(s, a)
    requires !(a.Turn? && (At(s, a.t).WakeAll? || At(s, a.t).ResetWake?))
    ensures Wakeful(Next(s, a))
  {
    KeepsWakers(s, a);
    if u :| Satisfied(Next(s, a), u) { KeepsDue(s, a, u); }
  }

  /** No wakeup is lost, by any step but that one; and by that one it is. */
  lemma WakeupLostIff(s: State, a: Step)
    requires Inv(s) && Wakeful(s) && CanStep(s, a)
    ensures Wakeful(Next(s, a)) <==> !Strands(s, a)
  {
    if Strands(s, a) {
      StrandsOne(s, a);
    } else if a.Turn? && (At(s, a.t).WakeAll? || At(s, a.t).ResetWake?) {
      forall u ensures !Satisfied(Next(s, a), u) { BroadcastWakes(s, a.t, u); }
    } else {
      OthersWakeful(s, a);
    }
  }

  /** Seed operations and resets follow one another: a seed is not dropped while it
      is being put in, nor changed between the stores of a reset; and a reset is
      only made when no hold is out and nobody is halfway. */
  predicate Serial(s: State, a: Step) {
    a.Turn? ==>
      && (At(s, a.t).DropSeed? ==> s.seeding == {} && !Resetting(s))
      && (At(s, a.t).SetSeed? ==> !Resetting(s))
      && (At(s, a.t).ResetCount? ==> s.holds == 0 && s.adding == {} && s.unseeding == {} && s.seeding == {})
  }

  /** Between the store to the count and the store to the seed. */
  predicate Resetting(s: State) { s.mutex.Some? && At(s, s.mutex.value).ResetSeed? }

  ghost predicate Exact(s: State) {
    && s.lost == (if Resetting(s) then Seed(s) - 1 else 0)
    && |s.seeding| <= Seed(s)
  }

  lemma SerialExact(s: State, a: Step)
    requires Inv(s) && Exact(s) && CanStep(s, a) && Serial(s, a)
    ensures Exact(Next(s, a))
  {
    if !a.Pump? { assert ThreadOK(s, a.t); }
    if s.mutex.Some? { assert ThreadOK(s, s.mutex.value); }
    if a.Turn? { SerialTurn(s, a.t); }
  }

  lemma SerialTurn(s: State, t: Tid)
    requires Inv(s) && Exact(s) && CanStep(s, Turn(t)) && Serial(s, Turn(t)) && ThreadOK(s, t)
    requires s.mutex.Some? ==> ThreadOK(s, s.mutex.value)
    ensures Exact(TurnOf(s, t))
  {
    var p := At(s, t);
    if p.WakeAll? || p.ResetWake? { BroadcastAt(s, t); }
    else if Seeding(p) { SerialSeed(s, t); }
    else if Holding(p) { SerialHold(s, t); }
    else if Waiting(p) || Waking(p) { SerialOther(s, t); }
    else { SerialReset(s, t); }
  }

  lemma SerialSeed(s: State, t: Tid)
    requires Exact(s) && Seeding(At(s, t)) && Serial(s, Turn(t)) && ThreadOK(s, t)
    ensures Exact(SeedTurn(s, t))
  {
  }

  lemma SerialHold(s: State, t: Tid)
    requires Exact(s) && Holding(At(s, t)) && ThreadOK(s, t)
    ensures Exact(HoldTurn(s, t))
  {
  }

  lemma SerialOther(s: State, t: Tid)
    requires Exact(s) && CanStep(s, Turn(t)) && ThreadOK(s, t) && !At(s, t).WakeAll?
    requires s.mutex.Some? ==> ThreadOK(s, s.mutex.value)
    ensures Waiting(At(s, t)) ==> Exact(WaitTurn(s, t))
    ensures Waking(At(s, t)) ==> Exact(WakeTurn(s, t))
  {
  }

  lemma SerialReset(s: State, t: Tid)
    requires Counted(s) && Exact(s) && CanStep(s, Turn(t)) && Serial(s, Turn(t)) && ThreadOK(s, t) && !At(s, t).ResetWake?
    requires s.mutex.Some? ==> ThreadOK(s, s.mutex.value)
    ensures Exact(ResetTurn(s, t))
  {
  }

  /** The count never goes below zero, so nobody can be stranded. */
  lemma ExactNonNegative(s: State)
    requires Inv(s) && Exact(s)
    ensures s.count >= 0 && forall a :: !Strands(s, a)
    ensures s.count == 0 ==> s.holds == 0 && s.adding == {} && s.unseeding == {} && s.dropping == {}
  {
  }

  lemma SerialStep(s: State, a: Step)
    requires Inv(s) && Exact(s) && Wakeful(s) && CanStep(s, a) && Serial(s, a)
    ensures Exact(Next(s, a)) && Wakeful(Next(s, a))
  {
    SerialExact(s, a);
    ExactNonNegative(s);
    WakeupLostIff(s, a);
  }

  /** In every run whose seed operations and resets are serial, no wakeup is lost. */
  lemma {:induction false} SerialRunsWakeful(ss: seq<State>, run: seq<Step>, i: nat)
    requires IsRun(ss, run) && i < |ss|
    requires forall k {:trigger run[k]} :: 0 <= k < |run| ==> Serial(ss[k], run[k])
    ensures Wakeful(ss[i]) && Exact(ss[i])
  {
    if i == 0 {
      assert forall t :: At(ss[0], t) == Out;
    } else {
      RunsKeepInv(ss, run, i - 1);
      SerialRunsWakeful(ss, run, i - 1);
      SerialStep(ss[i-1], run[i-1]);
    }
  }

  // ------------------------------------------------------------ a zero that comes too early

  /** Whoever looks at the count now takes the runtime for quiescent, with a hold out. */
  predicate TooEarly(s: State) { s.count <= 0 && s.holds > 0 }

  /** A hold is out if and only if so many seed_inc are between their two halves that
      the count has to be made up from them. */
  lemma TooEarlyIff(s: State)
    requires Inv(s)
    ensures s.holds > 0 <==> |s.seeding| + s.count + s.lost > Seed(s) + |s.adding| + |s.unseeding|
    ensures TooEarly(s) <==> s.count <= 0 && |s.seeding| + s.count + s.lost > Seed(s) + |s.adding| + |s.unseeding|
  {
  }

  /** A seed_dec that takes the seed of a seed_inc that has not added to the count yet. */
  predicate Overlaps(s: State, a: Step) { a.Turn? && At(s, a.t).DropSeed? && s.seeded && s.seeding != {} }

  /** Only such a step lets a seed_inc be halfway with no seed there. */
  lemma OverlapIff(s: State, a: Step)
    requires Inv(s) && CanStep(s, a) && |s.seeding| <= Seed(s)
    ensures |Next(s, a).seeding| <= Seed(Next(s, a)) <==> !Overlaps(s, a)
  {
    if a.Turn? {
      assert ThreadOK(s, a.t);
      if Seeding(At(s, a.t)) { OverlapSeed(s, a.t); } else { OverlapOther(s, a.t); }
    }
  }

  lemma OverlapSeed(s: State, t: Tid)
    requires ThreadOK(s, t) && |s.seeding| <= Seed(s) && Seeding(At(s, t))
    ensures |SeedTurn(s, t).seeding| <= Seed(SeedTurn(s, t)) <==> !Overlaps(s, Turn(t))
  {
    SizeOf(s.seeding, t);
  }

  lemma OverlapOther(s: State, t: Tid)
    requires |s.seeding| <= Seed(s) && !Seeding(At(s, t))
    ensures |TurnOf(s, t).seeding| <= Seed(TurnOf(s, t))
  {
  }

  // ------------------------------------------------ an overlapping seed_inc and seed_dec

  lemma Extend(ss: seq<State>, run: seq<Step>, a: Step, s': State) returns (ss': seq<State>, run': seq<Step>)
    requires IsRun(ss, run) && CanStep(ss[|run|], a) && s' == Next(ss[|run|], a)
    ensures IsRun(ss', run') && ss'[|run'|] == s'
  {
    ss', run' := ss + [s'], run + [a];
    forall i {:trigger run'[i]} | 0 <= i < |run'| ensures CanStep(ss'[i], run'[i]) && ss'[i+1] == Next(ss'[i], run'[i]) {
      if i < |run| { assert run'[i] == run[i]; }
    }
  }

  /** Thread 1 puts the seed in while thread 2 takes it out; thread 3 looks at the
      count in between, when it is -1, and sleeps.  The count ends at 0, everyone
      else is done, and nobody will ever wake thread 3. */
  lemma OverlapStrands() returns (ss: seq<State>, run: seq<Step>)
    ensures IsRun(ss, run) && !Wakeful(ss[|run|])
    ensures var s := ss[|run|];
      s.count == 0 && At(s, 3).Asleep? && s.wakers == {} && forall t :: t != 3 ==> At(s, t).Out?
  {
    var s: State;
    ss, run, s := OverlapSleeps();
    var s' := s.(pc := map[1 := Out, 2 := Out, 3 := Asleep(false)], count := 0, seeding := {});
    ss, run := Extend(ss, run, Turn(1), s');
    assert Satisfied(s', 3);
  }

  lemma OverlapSleeps() returns (ss: seq<State>, run: seq<Step>, s: State)
    ensures IsRun(ss, run) && ss[|run|] == s
    ensures s == Init.(pc := map[1 := AddSeed, 2 := Out, 3 := Asleep(false)], count := -1, seeding := {1})
  {
    ss, run, s := OverlapLooks();
    s := s.(pc := map[1 := AddSeed, 2 := Out, 3 := WaitSleep(false)]);
    ss, run := Extend(ss, run, Turn(3), s);
    s := s.(pc := map[1 := AddSeed, 2 := Out, 3 := Asleep(false)], mutex := None);
    ss, run := Extend(ss, run, Turn(3), s);
  }

  lemma OverlapLooks() returns (ss: seq<State>, run: seq<Step>, s: State)
    ensures IsRun(ss, run) && ss[|run|] == s
    ensures s == Init.(pc := map[1 := AddSeed, 2 := Out, 3 := WaitCount(false)], mutex := Some(3), count := -1, seeding := {1})
  {
    ss, run, s := OverlapMid();
    s := s.(pc := map[1 := AddSeed, 2 := Out, 3 := WaitLock(false)]);
    ss, run := Extend(ss, run, Begin(3, WaitLock(false)), s);
    s := s.(pc := map[1 := AddSeed, 2 := Out, 3 := WaitCount(false)], mutex := Some(3));
    ss, run := Extend(ss, run, Turn(3), s);
  }

  /** The first half: the count is -1, and thread 1 has still to add one. */
  lemma OverlapMid() returns (ss: seq<State>, run: seq<Step>, s: State)
    ensures IsRun(ss, run) && ss[|run|] == s
    ensures s == Init.(pc := map[1 := AddSeed, 2 := Out], count := -1, seeding := {1})
  {
    ss, run, s := OverlapStart();
    s := s.(pc := map[1 := AddSeed, 2 := DropSeed]);
    ss, run := Extend(ss, run, Begin(2, DropSeed), s);
    s := s.(pc := map[1 := AddSeed, 2 := DropCount], seeded := false, unseeding := {2});
    ss, run := Extend(ss, run, Turn(2), s);
    s := s.(pc := map[1 := AddSeed, 2 := Out], count := -1, unseeding := {});
    ss, run := Extend(ss, run, Turn(2), s);
  }

  lemma OverlapStart() returns (ss: seq<State>, run: seq<Step>, s: State)
    ensures IsRun(ss, run) && ss[|run|] == s
    ensures s == Init.(pc := map[1 := AddSeed], seeded := true, seeding := {1})
  {
    ss, run, s := [Init], [], Init;
    s := s.(pc := map[1 := SetSeed]);
    ss, run := Extend(ss, run, Begin(1, SetSeed), s);
    s := s.(pc := map[1 := AddSeed], seeded := true, seeding := {1});
    ss, run := Extend(ss, run, Turn(1), s);
  }
}
