/** What each operation on the rundown counter comes to: what a wait has seen when it
    returns, in any run, and what every call does that nobody disturbs. */
module TerminatorCalls {
  import opened Wrappers
  import opened Terminator

  // --------------------------------------------------------------------- waits

  /** What a thread about to return for reason `why` looks at to come there. */
  predicate Looks(s: State, a: Step, t: Tid, why: Reason) {
    match why
    case Terminated => a == Turn(t) && At(s, t).WaitCount? && s.count == 0
    case PumpReady => a == Turn(t) && At(s, t).WaitDepth? && s.depth > 0
    case TimedOut => a == GiveUp(t) && At(s, t).WaitSleep?
  }

  /** A waiter makes up its mind to return by such a step, and by no other. */
  lemma DecidesIff(s: State, a: Step, t: Tid, why: Reason)
    requires CanStep(s, a) && At(s, t) != WaitUnlock(why)
    ensures At(Next(s, a), t) == WaitUnlock(why) <==> Looks(s, a, t, why)
  {
    if a.Turn? {
      var p := At(s, a.t);
      if Holding(p) { HoldStays(s, a.t, t); }
      else if Seeding(p) { SeedStays(s, a.t, t); }
      else if Waking(p) { WakeStays(s, a.t, t); }
      else if Waiting(p) { WaitDecides(s, a.t, t, why); }
      else { ResetStays(s, a.t, t); }
    }
  }

  lemma HoldStays(s: State, u: Tid, t: Tid)
    requires Holding(At(s, u))
    ensures At(HoldTurn(s, u), t).WaitUnlock? ==> At(HoldTurn(s, u), t) == At(s, t)
  {
  }

  lemma SeedStays(s: State, u: Tid, t: Tid)
    requires Seeding(At(s, u))
    ensures At(SeedTurn(s, u), t).WaitUnlock? ==> At(SeedTurn(s, u), t) == At(s, t)
  {
  }

  lemma WakeStays(s: State, u: Tid, t: Tid)
    requires Waking(At(s, u))
    ensures At(WakeTurn(s, u), t).WaitUnlock? ==> At(WakeTurn(s, u), t) == At(s, t)
  {
    if At(s, u).WakeAll? { BroadcastAt(s, t); }
  }

  lemma ResetStays(s: State, u: Tid, t: Tid)
    ensures At(ResetTurn(s, u), t).WaitUnlock? ==> At(ResetTurn(s, u), t) == At(s, t)
  {
    if At(s, u).ResetWake? { BroadcastAt(s, t); }
  }

  lemma WaitDecides(s: State, u: Tid, t: Tid, why: Reason)
    requires Waiting(At(s, u)) && At(s, t) != WaitUnlock(why)
    ensures At(WaitTurn(s, u), t) == WaitUnlock(why) <==> Looks(s, Turn(u), t, why)
  {
  }

  /** In every run a wait that is about to return for reason `why` has looked, at step
      `k` of this very call, and has done nothing since. */
  lemma {:induction false} ReturnSaw(ss: seq<State>, run: seq<Step>, i: nat, t: Tid, why: Reason) returns (k: nat)
    requires IsRun(ss, run) && i < |ss| && At(ss[i], t) == WaitUnlock(why)
    ensures k < i && Looks(ss[k], run[k], t, why) && forall j :: k < j <= i ==> At(ss[j], t) == WaitUnlock(why)
  {
    if At(ss[i-1], t) == WaitUnlock(why) {
      k := ReturnSaw(ss, run, i - 1, t, why);
    } else {
      DecidesIff(ss[i-1], run[i-1], t, why);
      k := i - 1;
    }
  }

  /** A waiter that finds the count nonzero, and for the pumpable wait nothing to pump,
      goes to sleep; what it saw was so when it looked. */
  lemma SleepsIff(s: State, t: Tid)
    requires CanStep(s, Turn(t)) && (At(s, t).WaitCount? || At(s, t).WaitDepth?)
    ensures At(s, t).WaitCount? ==> (At(Next(s, Turn(t)), t) == WaitSleep(false) <==> s.count != 0 && !At(s, t).pump)
    ensures At(s, t).WaitCount? ==> (At(Next(s, Turn(t)), t) == WaitDepth <==> s.count != 0 && At(s, t).pump)
    ensures At(s, t).WaitDepth? ==> (At(Next(s, Turn(t)), t) == WaitSleep(true) <==> s.depth == 0)
  {
  }

  // ------------------------------------------------------- calls nobody disturbs

  /** Thread `t` takes `n` turns, all of which it can take, and that leads to `z`. */
  predicate Takes(s: State, t: Tid, n: nat, z: State)
    decreases n
  {
    if n == 0 then s == z else CanStep(s, Turn(t)) && Takes(Next(s, Turn(t)), t, n - 1, z)
  }

  /** A call of `op` from `s` leads to `z`, where the thread is out again, or asleep. */
  predicate Calls(s: State, t: Tid, op: Pc, n: nat, z: State) {
    && CanStep(s, Begin(t, op)) && Takes(Next(s, Begin(t, op)), t, n, z)
    && (At(z, t).Out? || At(z, t).Asleep?)
  }

  predicate Same(s: State, z: State) {
    z.count == s.count && z.closed == s.closed && z.seeded == s.seeded && z.depth == s.depth && z.holds == s.holds && z.mutex == s.mutex
  }

  predicate NobodyAsleep(s: State) { forall t :: t in s.pc ==> !s.pc[t].Asleep? }

  /** Whoever sleeps is woken if and only if the call ended with a broadcast. */
  ghost predicate Woken(s: State, z: State, t: Tid, woken: bool) {
    if woken then NobodyAsleep(z) else forall u :: u != t ==> At(z, u) == At(s, u)
  }

  /** terminator_inc: a hold, unless the terminator is closed. */
  lemma IncDoes(s: State, t: Tid) returns (n: nat, z: State)
    requires At(s, t).Out?
    ensures Calls(s, t, IncCheck, n, z) && At(z, t).Out? && Woken(s, z, t, false)
    ensures if s.closed then Same(s, z) else Same(s.(count := s.count + 1, holds := s.holds + 1), z)
  {
    var a := Next(s, Begin(t, IncCheck));
    var b := TurnOf(a, t);
    if s.closed {
      n, z := 1, b;
      assert Takes(b, t, 0, z);
    } else {
      var c := TurnOf(b, t);
      n, z := 3, TurnOf(c, t);
      assert Takes(z, t, 0, z) && Takes(c, t, 1, z) && Takes(b, t, 2, z);
    }
  }

  /** lock, broadcast, unlock */
  lemma WakesAll(s: State, t: Tid) returns (z: State)
    requires At(s, t).WakeLock? && s.mutex.None?
    ensures Takes(s, t, 3, z) && At(z, t).Out? && NobodyAsleep(z) && Same(s, z)
  {
    var a := TurnOf(s, t);
    var b := TurnOf(a, t);
    z := TurnOf(b, t);
    assert Takes(z, t, 0, z) && Takes(b, t, 1, z) && Takes(a, t, 2, z);
  }

  /** ... after a subtraction, if it came to 0. */
  lemma MayWake(s: State, t: Tid, m: State) returns (n: nat, z: State)
    requires m == Subtract(s, t) && s.mutex.None?
    ensures Takes(m, t, n, z) && At(z, t).Out? && Same(s.(count := s.count - 1), z)
    ensures Woken(s, z, t, s.count == 1)
  {
    if s.count == 1 {
      n := 3;
      z := WakesAll(m, t);
    } else {
      n, z := 0, m;
    }
  }

  lemma Then(s: State, t: Tid, n: nat, z: State)
    requires CanStep(s, Turn(t)) && Takes(Next(s, Turn(t)), t, n, z)
    ensures Takes(s, t, n + 1, z)
  {
  }

  lemma TwoThen(s: State, t: Tid, m: State, n: nat, z: State)
    requires Takes(s, t, 2, m) && Takes(m, t, n, z)
    ensures Takes(s, t, n + 2, z)
  {
    var a := Next(s, Turn(t));
    assert Takes(a, t, 1, m);
    assert Takes(Next(a, Turn(t)), t, 0, m);
    Then(a, t, n, z);
    Then(s, t, n + 1, z);
  }

  /** terminator_dec: one hold fewer, and everyone woken at 0. */
  lemma DecDoes(s: State, t: Tid) returns (n: nat, z: State)
    requires At(s, t).Out? && s.mutex.None? && |s.dropping| < s.holds
    ensures Calls(s, t, DecSub, n, z) && At(z, t).Out?
    ensures Same(s.(count := s.count - 1, holds := s.holds - 1), z) && Woken(s, z, t, s.count == 1)
  {
    var a := Next(s, Begin(t, DecSub));
    n, z := MayWake(a.(dropping := a.dropping - {t}, holds := a.holds - 1), t, TurnOf(a, t));
    Then(a, t, n, z);
    n := n + 1;
  }

  /** terminator_seed_dec: the seed and its share of the count go, if it is there. */
  lemma SeedDecDoes(s: State, t: Tid) returns (n: nat, z: State)
    requires At(s, t).Out? && s.mutex.None?
    ensures Calls(s, t, DropSeed, n, z) && At(z, t).Out?
    ensures Same(s.(seeded := false, count := s.count - Seed(s)), z) && Woken(s, z, t, s.seeded && s.count == 1)
  {
    var a := Next(s, Begin(t, DropSeed));
    var b := TurnOf(a, t);
    if s.seeded {
      n, z := MayWake(b.(unseeding := b.unseeding - {t}), t, TurnOf(b, t));
      Then(b, t, n, z);
      Then(a, t, n + 1, z);
      n := n + 2;
    } else {
      n, z := 1, b;
      assert Takes(b, t, 0, z);
    }
  }

  /** terminator_seed_inc: a seed and its share of the count, if there was none. */
  lemma SeedIncDoes(s: State, t: Tid) returns (n: nat, z: State)
    requires At(s, t).Out?
    ensures Calls(s, t, SetSeed, n, z) && At(z, t).Out? && Woken(s, z, t, false)
    ensures Same(s.(seeded := true, count := s.count + 1 - Seed(s)), z)
  {
    var a := Next(s, Begin(t, SetSeed));
    var b := TurnOf(a, t);
    if s.seeded {
      n, z := 1, b;
      assert Takes(b, t, 0, z);
    } else {
      n, z := 2, TurnOf(b, t);
      assert Takes(z, t, 0, z) && Takes(b, t, 1, z);
    }
  }

  /** terminator_close: closed, and nothing else. */
  lemma CloseDoes(s: State, t: Tid) returns (n: nat, z: State)
    requires At(s, t).Out?
    ensures Calls(s, t, Close, n, z) && At(z, t).Out? && Woken(s, z, t, false) && Same(s.(closed := true), z)
  {
    n, z := 1, TurnOf(Next(s, Begin(t, Close)), t);
    assert Takes(z, t, 0, z);
  }

  /** The pinned enqueue: one more to pump, and everyone woken. */
  lemma PinDoes(s: State, t: Tid) returns (n: nat, z: State)
    requires At(s, t).Out? && s.mutex.None?
    ensures Calls(s, t, PinDepth, n, z) && At(z, t).Out? && Same(s.(depth := s.depth + 1), z) && NobodyAsleep(z)
  {
    var a := Next(s, Begin(t, PinDepth));
    z := WakesAll(TurnOf(a, t), t);
    n := 4;
    Then(a, t, 3, z);
  }

  /** terminator_reset: the seed alone, open, and everyone woken. */
  lemma ResetDoes(s: State, t: Tid) returns (n: nat, z: State)
    requires At(s, t).Out? && s.mutex.None?
    ensures Calls(s, t, ResetClose, n, z) && At(z, t).Out? && NobodyAsleep(z)
    ensures Same(s.(count := 1, seeded := true, closed := false), z)
  {
    var a := Next(s, Begin(t, ResetClose));
    var b := ResetStarts(a, t);
    var c := ResetStores(b, t);
    z := ResetEnds(c, t);
    n := 7;
    TwoThen(b, t, c, 3, z);
    TwoThen(a, t, b, 5, z);
  }

  /** close, lock */
  lemma ResetStarts(a: State, t: Tid) returns (b: State)
    requires At(a, t).ResetClose? && a.mutex.None?
    ensures Takes(a, t, 2, b) && At(b, t).ResetCount? && Same(a.(closed := true, mutex := Some(t)), b)
  {
    var c := TurnOf(a, t);
    b := TurnOf(c, t);
    assert Takes(b, t, 0, b) && Takes(c, t, 1, b);
  }

  /** count, seed */
  lemma ResetStores(a: State, t: Tid) returns (b: State)
    requires At(a, t).ResetCount? && a.mutex == Some(t)
    ensures Takes(a, t, 2, b) && At(b, t).ResetOpen? && Same(a.(count := 1, seeded := true), b)
  {
    var c := TurnOf(a, t);
    b := TurnOf(c, t);
    assert Takes(b, t, 0, b) && Takes(c, t, 1, b);
  }

  /** open, broadcast, unlock */
  lemma ResetEnds(b: State, t: Tid) returns (z: State)
    requires At(b, t).ResetOpen? && b.mutex == Some(t)
    ensures Takes(b, t, 3, z) && At(z, t).Out? && NobodyAsleep(z) && Same(b.(closed := false, mutex := None), z)
  {
    var c := TurnOf(b, t);
    z := ResetWakesAll(c, t);
    Then(b, t, 2, z);
  }

  lemma ResetWakesAll(c: State, t: Tid) returns (z: State)
    requires At(c, t).ResetWake? && c.mutex == Some(t)
    ensures Takes(c, t, 2, z) && At(z, t).Out? && NobodyAsleep(z) && Same(c.(mutex := None), z)
  {
    var d := TurnOf(c, t);
    z := TurnOf(d, t);
    assert Takes(z, t, 0, z) && Takes(d, t, 1, z);
  }

  /** terminator_wait and terminator_wait_pumpable: at a count of 0 they return, having
      looked; with something to pump the pumpable one does; else the thread falls asleep. */
  lemma WaitDoes(s: State, t: Tid, pump: bool) returns (n: nat, z: State)
    requires At(s, t).Out? && s.mutex.None?
    ensures Calls(s, t, WaitLock(pump), n, z) && Woken(s, z, t, false) && Same(s, z)
    ensures At(z, t).Out? <==> s.count == 0 || (pump && s.depth > 0)
    ensures At(z, t) == Asleep(pump) <==> s.count != 0 && (pump ==> s.depth == 0)
  {
    var a := Next(s, Begin(t, WaitLock(pump)));
    n, z := LookDoes(TurnOf(a, t), t);
    Then(a, t, n, z);
    n := n + 1;
  }

  /** ... with the mutex in hand, at the look at the count. */
  lemma LookDoes(s: State, t: Tid) returns (n: nat, z: State)
    requires At(s, t).WaitCount? && s.mutex == Some(t)
    ensures Takes(s, t, n, z) && Woken(s, z, t, false) && Same(s.(mutex := None), z)
    ensures At(z, t) == if s.count == 0 || (At(s, t).pump && s.depth > 0) then Out else Asleep(At(s, t).pump)
  {
    var a := TurnOf(s, t);
    if s.count != 0 && At(s, t).pump {
      z := EndDoes(TurnOf(a, t), t);
      Then(a, t, 1, z);
      Then(s, t, 2, z);
      n := 3;
    } else {
      z := EndDoes(a, t);
      n := 2;
      Then(s, t, 1, z);
    }
  }

  /** unlock, or wait */
  lemma EndDoes(s: State, t: Tid) returns (z: State)
    requires (At(s, t).WaitUnlock? || At(s, t).WaitSleep?) && s.mutex == Some(t)
    ensures Takes(s, t, 1, z) && Woken(s, z, t, false) && Same(s.(mutex := None), z)
    ensures At(z, t) == if At(s, t).WaitUnlock? then Out else Asleep(At(s, t).pump)
  {
    z := TurnOf(s, t);
    assert Takes(z, t, 0, z);
  }

  // ------------------------------------------------------------------- closing

  /** From the close step on, until a reset opens it again, no hold is granted. */
  lemma ClosedFrom(ss: seq<State>, run: seq<Step>, i: nat, j: nat)
    requires IsRun(ss, run) && i < j < |ss| && run[i].Turn? && At(ss[i], run[i].t).Close?
    requires forall k {:trigger run[k]} :: i < k < j ==> !(run[k].Turn? && At(ss[k], run[k].t).ResetOpen?)
    ensures ss[j].closed && ss[j].holds <= ss[i].holds
  {
    assert ss[i+1] == Next(ss[i], run[i]);
    NoHoldAfterClose(ss, run, i + 1, j);
  }

  /** terminator_inc, whatever the others do: it is refused only if it finds the
      terminator closed, at its first look or at its second. */
  lemma IncRefusedIff(s: State, t: Tid)
    requires CanStep(s, Turn(t)) && (At(s, t).IncCheck? || At(s, t).IncRecheck?)
    ensures At(s, t).IncCheck? ==> (At(Next(s, Turn(t)), t).IncAdd? <==> !s.closed)
    ensures At(s, t).IncRecheck? ==> (Next(s, Turn(t)).holds == s.holds + 1 <==> !s.closed)
    ensures At(s, t).IncRecheck? ==> (At(Next(s, Turn(t)), t).IncUndo? <==> s.closed)
  {
  }
}
