/** The terminator's static variables, changed by one atomic operation at a time. */
module Rundown {
  import opened Wrappers
  import opened Terminator

  class Counter {
    var count: int
    var closed: bool
    var seeded: bool
    var mutex: Option<Tid>
    var depth: nat
    var pc: map<Tid, Pc>
    ghost var holds: int
    ghost var dropping: set<Tid>
    ghost var adding: set<Tid>
    ghost var unseeding: set<Tid>
    ghost var seeding: set<Tid>
    ghost var wakers: set<Tid>
    ghost var lost: int

    ghost function St(): (s: State)
      reads this
    {
      State(count, closed, seeded, mutex, depth, pc, holds, dropping, adding, unseeding, seeding, wakers, lost)
    }

    ghost predicate Valid()
      reads this
    {
      Inv(St())
    }

    function Pc(t: Tid): (p: Pc)
      reads this
    {
      if t in pc then pc[t] else Out
    }

    constructor ()
      ensures St() == Init && Valid()
    {
      count, closed, seeded, mutex, depth, pc := 0, false, false, None, 0, map[];
      holds, dropping, adding, unseeding, seeding, wakers, lost := 0, {}, {}, {}, {}, {}, 0;
    }

    /** The tail of every decrement: the thread that reaches 0 goes on to broadcast. */
    method Subtracted(t: Tid)
      modifies this`pc, this`wakers
      ensures pc == old(pc)[t := if count == 0 then WakeLock else Out]
      ensures wakers == if count == 0 then old(wakers) + {t} else old(wakers)
    {
      if count == 0 {
        wakers := wakers + {t};
        pc := pc[t := WakeLock];
      } else {
        pc := pc[t := Out];
      }
    }

    /** terminator_inc, as far as its second look at the close bit */
    method IncOp(t: Tid)
      requires CanStep(St(), Turn(t)) && (Pc(t).IncCheck? || Pc(t).IncAdd? || Pc(t).IncRecheck?)
      modifies this
      ensures St() == Next(old(St()), Turn(t))
    {
      match Pc(t) {
        case IncCheck => pc := pc[t := if closed then Out else IncAdd];
        case IncAdd =>
          count := count + 1;
          adding, pc := adding + {t}, pc[t := IncRecheck];
        case IncRecheck =>
          if closed {
            pc := pc[t := IncUndo];
          } else {
            holds, adding, pc := holds + 1, adding - {t}, pc[t := Out];
          }
      }
    }

    /** The undoing of an increment that lost to a close */
    method UndoOp(t: Tid)
      requires CanStep(St(), Turn(t)) && Pc(t).IncUndo?
      modifies this
      ensures St() == Next(old(St()), Turn(t))
    {
      count := count - 1;
      adding := adding - {t};
      Subtracted(t);
    }

    /** terminator_dec */
    method DecOp(t: Tid)
      requires CanStep(St(), Turn(t)) && Pc(t).DecSub?
      modifies this
      ensures St() == Next(old(St()), Turn(t))
    {
      count := count - 1;
      holds, dropping := holds - 1, dropping - {t};
      Subtracted(t);
    }

    /** terminator_seed_dec */
    method SeedDecOp(t: Tid)
      requires CanStep(St(), Turn(t)) && (Pc(t).DropSeed? || Pc(t).DropCount?)
      modifies this
      ensures St() == Next(old(St()), Turn(t))
    {
      if Pc(t).DropSeed? {
        var prev := seeded;
        if prev {
          seeded := false;
          unseeding, pc := unseeding + {t}, pc[t := DropCount];
        } else {
          pc := pc[t := Out];
        }
      } else {
        count := count - 1;
        unseeding := unseeding - {t};
        Subtracted(t);
      }
    }

    /** terminator_seed_inc */
    method SeedIncOp(t: Tid)
      requires CanStep(St(), Turn(t)) && (Pc(t).SetSeed? || Pc(t).AddSeed?)
      modifies this
      ensures St() == Next(old(St()), Turn(t))
    {
      if Pc(t).SetSeed? {
        if seeded {
          pc := pc[t := Out];
        } else {
          seeded := true;
          seeding, pc := seeding + {t}, pc[t := AddSeed];
        }
      } else {
        count := count + 1;
        seeding, pc := seeding - {t}, pc[t := Out];
      }
    }

    /** terminator_close, boc_main_pinned_enqueue, terminator_wake_all */
    method WakeOp(t: Tid)
      requires CanStep(St(), Turn(t)) && Waking(Pc(t))
      modifies this
      ensures St() == Next(old(St()), Turn(t))
    {
      match Pc(t) {
        case Close =>
          closed, pc := true, pc[t := Out];
        case PinDepth =>
          depth := depth + 1;
          wakers, pc := wakers + {t}, pc[t := WakeLock];
        case WakeLock =>
          mutex, pc := Some(t), pc[t := WakeAll];
        case WakeAll =>
          pc := map u | u in pc :: if pc[u].Asleep? then WaitRelock(pc[u].pump) else pc[u];
          wakers, pc := wakers - {t}, pc[t := WakeUnlock];
        case WakeUnlock =>
          mutex, pc := None, pc[t := Out];
      }
    }

    /** The two turns of a waiter that look: at the count, and at the pinned depth. */
    method LookOp(t: Tid)
      requires Pc(t).WaitCount? || Pc(t).WaitDepth?
      modifies this`pc
      ensures St() == WaitTurn(old(St()), t)
    {
      match Pc(t) {
        case WaitCount(pump) =>
          pc := pc[t := if count == 0 then WaitUnlock(Terminated) else if pump then WaitDepth else WaitSleep(false)];
        case WaitDepth => pc := pc[t := if depth > 0 then WaitUnlock(PumpReady) else WaitSleep(true)];
      }
    }

    /** terminator_wait and terminator_wait_pumpable */
    method WaitOp(t: Tid)
      requires CanStep(St(), Turn(t)) && Waiting(Pc(t))
      modifies this
      ensures St() == Next(old(St()), Turn(t))
    {
      match Pc(t) {
        case WaitLock(pump) => mutex, pc := Some(t), pc[t := WaitCount(pump)];
        case WaitCount(_) => LookOp(t);
        case WaitDepth => LookOp(t);
        case WaitSleep(pump) => mutex, pc := None, pc[t := Asleep(pump)];
        case WaitRelock(pump) => mutex, pc := Some(t), pc[t := WaitCount(pump)];
        case WaitUnlock(_) => mutex, pc := None, pc[t := Out];
      }
    }

    /** terminator_reset */
    method ResetOp(t: Tid)
      requires CanStep(St(), Turn(t))
      requires !Holding(Pc(t)) && !Seeding(Pc(t)) && !Waking(Pc(t)) && !Waiting(Pc(t))
      modifies this
      ensures St() == Next(old(St()), Turn(t))
    {
      match Pc(t) {
        case ResetClose => closed, pc := true, pc[t := ResetLock];
        case ResetLock => mutex, pc := Some(t), pc[t := ResetCount];
        case ResetCount =>
          lost := Due(St()) - 1;
          count, pc := 1, pc[t := ResetSeed];
        case ResetSeed =>
          seeded := true;
          lost := Due(St()) - count;
          pc := pc[t := ResetOpen];
        case ResetOpen => closed, pc := false, pc[t := ResetWake];
        case ResetWake =>
          pc := map u | u in pc :: if pc[u].Asleep? then WaitRelock(pc[u].pump) else pc[u];
          pc := pc[t := ResetUnlock];
        case ResetUnlock => mutex, pc := None, pc[t := Out];
      }
    }

    /** The next operation of thread `t`. */
    method Advance(t: Tid)
      requires Valid() && CanStep(St(), Turn(t))
      modifies this
      ensures St() == Next(old(St()), Turn(t)) && Valid()
    {
      StepKeeps(St(), Turn(t));
      var p := Pc(t);
      if p.IncUndo? { UndoOp(t); }
      else if p.DecSub? { DecOp(t); }
      else if Holding(p) { IncOp(t); }
      else if p.DropSeed? || p.DropCount? { SeedDecOp(t); }
      else if Seeding(p) { SeedIncOp(t); }
      else if Waking(p) { WakeOp(t); }
      else if Waiting(p) { WaitOp(t); }
      else { ResetOp(t); }
    }

    /** Calls, timeouts, spurious wakeups, and the pump taking a pinned behavior. */
    method Other(a: Step)
      requires Valid() && CanStep(St(), a) && !a.Turn?
      modifies this
      ensures St() == Next(old(St()), a) && Valid()
    {
      StepKeeps(St(), a);
      match a {
        case Begin(t, op) =>
          if op.DecSub? { dropping := dropping + {t}; }
          if op.WakeLock? { wakers := wakers + {t}; }
          pc := pc[t := op];
        case GiveUp(t) => pc := pc[t := WaitUnlock(TimedOut)];
        case Rouse(t) => pc := pc[t := WaitRelock(Pc(t).pump)];
        case Pump => depth := depth - 1;
      }
    }
  }
}
