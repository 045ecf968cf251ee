/** Whom a dispatcher wakes: the winner of the CAS goes round the whole ring, and by the
    time it is through, whoever slept when it won has been woken; an off-pool
    dispatcher's signal does the same for its target. */
module ParkingRing {
  import opened Wrappers
  import opened Parking
  import opened ParkingEpochs

  // --------------------------------------------------------------- the ring

  /** The place of `w` in the ring that starts after `to`. */
  function Place(n: nat, to: Tid, w: Tid): (i: nat)
    requires to < n && w < n
    ensures i < n
  {
    if w > to then w - to - 1 else w + n - to - 1
  }

  lemma ModOnce(x: nat, n: nat)
    requires n > 0 && x < 2 * n
    ensures x % n == if x < n then x else x - n
  {
  }

  /** The ring has every worker once. */
  lemma RingIff(n: nat, to: Tid, w: Tid, i: nat)
    requires to < n && w < n && i < n
    ensures RingAt(n, to, i) == w <==> i == Place(n, to, w)
  {
    ModOnce(to + 1 + i, n);
  }

  // --------------------------------------------------------------- invariants

  /** From setting its flag to clearing it. */
  predicate Flagged(p: Pc) {
    p.CountParked? || p.Sleep? || p.Asleep? || p.Relock? || p.UncountParked? || p.UnmarkParked?
  }

  /** From its increment of PARKED_COUNT to its decrement. */
  predicate Counts(p: Pc) { p.Sleep? || p.Asleep? || p.Relock? || p.UncountParked? }

  function Counters(s: State): (ws: set<Tid>) { set t | t in s.pc && Counts(s.pc[t]) }

  predicate FlagOK(s: State, w: Tid) { w in s.parked <==> Flagged(At(s, w)) }

  /** A dispatcher's target is a worker, what it rings is the ring's next, and only
      from off the pool does it signal its target. */
  predicate TargetOK(s: State, t: Tid) {
    match At(s, t)
    case Put(_, to, off) => Targets(s, t, to, off)
    case LoadPause(to, off) => Targets(s, t, to, off)
    case LoadUnpause(to, off, _) => Targets(s, t, to, off)
    case Cas(to, off, _, _) => Targets(s, t, to, off)
    case AnyParked(to, off) => Targets(s, t, to, off)
    case Ring(to, off, i) => Targets(s, t, to, off) && i < s.n
    case RingLock(to, off, i, w) => Targets(s, t, to, off) && i < s.n && w == RingAt(s.n, to, i)
    case RingSignal(to, off, i, w) => Targets(s, t, to, off) && i < s.n && w == RingAt(s.n, to, i)
    case RingUnlock(to, off, i, w) => Targets(s, t, to, off) && i < s.n && w == RingAt(s.n, to, i)
    case SignalLock(to) => Targets(s, t, to, true)
    case SignalTo(to) => Targets(s, t, to, true)
    case SignalUnlock(to) => Targets(s, t, to, true)
    case _ => true
  }

  predicate Targets(s: State, t: Tid, to: Tid, off: bool) { to < s.n && (off <==> t >= s.n) && (!off ==> to == t) }

  ghost predicate ParkedOK(s: State) {
    && (forall w {:trigger FlagOK(s, w)} :: FlagOK(s, w)) && s.parkedCount == |Counters(s)|
    && (forall t {:trigger TargetOK(s, t)} :: TargetOK(s, t))
  }

  lemma ParkFlags(s: State, t: Tid, w: Tid)
    requires Parks(At(s, t)) && FlagOK(s, w) && FlagOK(s, t)
    ensures FlagOK(ParkTurn(s, t), w)
    ensures w != t ==> At(ParkTurn(s, t), w) == At(s, w)
    ensures Counts(At(ParkTurn(s, t), t)) <==> (Counts(At(s, t)) && !At(s, t).UncountParked?) || At(s, t).CountParked?
    ensures ParkTurn(s, t).parkedCount ==
              s.parkedCount + if At(s, t).CountParked? then 1 else if At(s, t).UncountParked? then -1 else 0
  {
  }

  /** Nobody else's turn changes a flag, or who counts. */
  lemma OtherFlags(s: State, t: Tid, w: Tid)
    requires !Parks(At(s, t)) && FlagOK(s, w)
    ensures FlagOK(TurnOf(s, t), w) && (Counts(At(TurnOf(s, t), w)) <==> Counts(At(s, w)))
    ensures TurnOf(s, t).parkedCount == s.parkedCount
  {
    if Epochs(At(s, t)) { EpochFlags(s, t, w); } else if Rings(At(s, t)) { RingFlags(s, t, w); } else { SendFlags(s, t, w); }
  }

  lemma EpochFlags(s: State, t: Tid, w: Tid)
    requires Epochs(At(s, t)) && FlagOK(s, w)
    ensures FlagOK(EpochTurn(s, t), w) && (Counts(At(EpochTurn(s, t), w)) <==> Counts(At(s, w)))
    ensures EpochTurn(s, t).parkedCount == s.parkedCount
  {
  }

  lemma RingFlags(s: State, t: Tid, w: Tid)
    requires Rings(At(s, t)) && FlagOK(s, w)
    ensures FlagOK(RingTurn(s, t), w) && (Counts(At(RingTurn(s, t), w)) <==> Counts(At(s, w)))
    ensures RingTurn(s, t).parkedCount == s.parkedCount
  {
  }

  lemma SendFlags(s: State, t: Tid, w: Tid)
    requires FlagOK(s, w)
    ensures FlagOK(SendTurn(s, t), w) && (Counts(At(SendTurn(s, t), w)) <==> Counts(At(s, w)))
    ensures FlagOK(StopTurn(s, t), w) && (Counts(At(StopTurn(s, t), w)) <==> Counts(At(s, w)))
    ensures SendTurn(s, t).parkedCount == s.parkedCount && StopTurn(s, t).parkedCount == s.parkedCount
  {
  }

  lemma BeginFlags(s: State, a: Step, w: Tid)
    requires CanStep(s, a) && !a.Turn? && FlagOK(s, w)
    ensures FlagOK(Next(s, a), w) && (Counts(At(Next(s, a), w)) <==> Counts(At(s, w))) && Next(s, a).parkedCount == s.parkedCount
  {
  }

  lemma CountersMove(s: State, s': State, t: Tid)
    requires forall w: Tid :: w != t ==> (Counts(At(s', w)) <==> Counts(At(s, w)))
    ensures |Counters(s')| == |Counters(s)| + (if Counts(At(s', t)) then 1 else 0) - if Counts(At(s, t)) then 1 else 0
  {
    forall w ensures w in Counters(s') <==> w in (if Counts(At(s', t)) then Counters(s) + {t} else Counters(s) - {t}) {
      InCounters(s, w);
      InCounters(s', w);
    }
    InCounters(s, t);
    SizeWith(Counters(s), Counters(s'), t, Counts(At(s', t)));
  }

  lemma InCounters(s: State, w: Tid)
    ensures w in Counters(s) <==> Counts(At(s, w))
  {
  }

  lemma SizeWith(xs: set<Tid>, ys: set<Tid>, t: Tid, there: bool)
    requires forall w :: w in ys <==> w in (if there then xs + {t} else xs - {t})
    ensures |ys| == |xs| + (if there then 1 else 0) - if t in xs then 1 else 0
  {
    assert ys == if there then xs + {t} else xs - {t};
    if t in xs { assert xs + {t} == xs; } else { assert xs - {t} == xs; }
  }

  lemma FlagsKeep(s: State, a: Step)
    requires ParkedOK(s) && CanStep(s, a)
    ensures forall w {:trigger FlagOK(Next(s, a), w)} :: FlagOK(Next(s, a), w)
    ensures Next(s, a).parkedCount == |Counters(Next(s, a))|
  {
    var s' := Next(s, a);
    var t: Tid := match a case Begin(t, _) => t case Turn(t) => t case Rouse(w) => w case Take(w, _) => w case Feed(w, _) => w;
    forall w ensures FlagOK(s', w) && (w != t ==> (Counts(At(s', w)) <==> Counts(At(s, w)))) {
      assert FlagOK(s, w) && FlagOK(s, t);
      WhoCounts(s, a, t, w);
    }
    CountersMove(s, s', t);
    assert FlagOK(s, t);
    WhoCounts(s, a, t, t);
  }

  lemma WhoCounts(s: State, a: Step, t: Tid, w: Tid)
    requires CanStep(s, a) && FlagOK(s, w) && FlagOK(s, t)
    requires t == match a case Begin(t, _) => t case Turn(t) => t case Rouse(w) => w case Take(w, _) => w case Feed(w, _) => w
    ensures FlagOK(Next(s, a), w) && (w != t ==> (Counts(At(Next(s, a), w)) <==> Counts(At(s, w))))
    ensures Next(s, a).parkedCount == s.parkedCount + (if Counts(At(Next(s, a), t)) then 1 else 0) - if Counts(At(s, t)) then 1 else 0
  {
    if !a.Turn? { BeginFlags(s, a, w); BeginFlags(s, a, t); }
    else if Parks(At(s, t)) { ParkFlags(s, t, w); }
    else { OtherFlags(s, t, w); OtherFlags(s, t, t); }
  }

  lemma TargetKeeps(s: State, a: Step, u: Tid)
    requires CanStep(s, a) && TargetOK(s, u) && (a.Turn? ==> TargetOK(s, a.t))
    ensures TargetOK(Next(s, a), u)
  {
    if a.Turn? {
      if Parks(At(s, a.t)) { ParkTargets(s, a.t, u); }
      else if Epochs(At(s, a.t)) { EpochTargets(s, a.t, u); }
      else if Rings(At(s, a.t)) { RingTargets(s, a.t, u); }
      else if Stopping(At(s, a.t)) { StopTargets(s, a.t, u); }
      else { SendTargets(s, a.t, u); }
    }
  }

  lemma ParkTargets(s: State, t: Tid, u: Tid)
    requires Parks(At(s, t)) && TargetOK(s, u)
    ensures TargetOK(ParkTurn(s, t), u)
  {
  }

  lemma EpochTargets(s: State, t: Tid, u: Tid)
    requires Epochs(At(s, t)) && TargetOK(s, u) && TargetOK(s, t)
    ensures TargetOK(EpochTurn(s, t), u)
  {
  }

  lemma RingTargets(s: State, t: Tid, u: Tid)
    requires Rings(At(s, t)) && TargetOK(s, u) && TargetOK(s, t)
    ensures TargetOK(RingTurn(s, t), u)
  {
  }

  lemma SendTargets(s: State, t: Tid, u: Tid)
    requires TargetOK(s, u) && TargetOK(s, t)
    ensures TargetOK(SendTurn(s, t), u)
  {
  }

  lemma StopTargets(s: State, t: Tid, u: Tid)
    requires TargetOK(s, u)
    ensures TargetOK(StopTurn(s, t), u)
  {
  }

  lemma ParkedKeeps(s: State, a: Step)
    requires ParkedOK(s) && CanStep(s, a)
    ensures ParkedOK(Next(s, a))
  {
    FlagsKeep(s, a);
    forall u ensures TargetOK(Next(s, a), u) {
      assert TargetOK(s, u);
      if a.Turn? { assert TargetOK(s, a.t); }
      TargetKeeps(s, a, u);
    }
  }

  lemma {:induction false} RunsParkedOK(ss: seq<State>, run: seq<Step>, i: nat)
    requires IsRun(ss, run) && i < |ss|
    ensures ParkedOK(ss[i])
  {
    if i == 0 {
      assert Counters(ss[0]) == {};
    } else {
      RunsParkedOK(ss, run, i - 1);
      ParkedKeeps(ss[i-1], run[i-1]);
    }
  }

  // --------------------------------------------------------------- the round

  /** Between its CAS and the end of its round. */
  predicate Rounding(p: Pc) { p.AnyParked? || Rings(p) }

  /** The round has still to come to place `k`, or is signalling there. */
  predicate ToCome(p: Pc, n: nat, w: Tid) {
    match p
    case AnyParked(to, _) => to < n && w < n
    case Ring(to, _, i) => to < n && w < n && i <= Place(n, to, w)
    case RingLock(to, _, i, _) => to < n && w < n && i <= Place(n, to, w)
    case RingSignal(to, _, i, _) => to < n && w < n && i <= Place(n, to, w)
    case RingUnlock(to, _, i, _) => to < n && w < n && i < Place(n, to, w)
    case _ => false
  }

  /** The round passes nobody who sleeps. */
  lemma RoundKeeps(s: State, t: Tid, w: Tid)
    requires ParkedOK(s) && CanStep(s, Turn(t)) && Rounding(At(s, t)) && ToCome(At(s, t), s.n, w) && At(s, w).Asleep?
    ensures At(Next(s, Turn(t)), w).Asleep? ==> ToCome(At(Next(s, Turn(t)), t), s.n, w)
  {
    assert FlagOK(s, w) && TargetOK(s, t);
    if At(s, t).AnyParked? {
      assert w in Counters(s);
    } else {
      RingIff(s.n, At(s, t).to, w, At(s, t).i);
      RingPasses(s, t, w);
    }
  }

  lemma RingPasses(s: State, t: Tid, w: Tid)
    requires Rings(At(s, t)) && ToCome(At(s, t), s.n, w) && At(s, w).Asleep? && FlagOK(s, w) && TargetOK(s, t)
    requires RingAt(s.n, At(s, t).to, At(s, t).i) == w <==> At(s, t).i == Place(s.n, At(s, t).to, w)
    ensures At(RingTurn(s, t), w).Asleep? ==> ToCome(At(RingTurn(s, t), t), s.n, w)
  {
  }

  /** Somebody else's step leaves the round where it is. */
  lemma RoundWaits(s: State, a: Step, t: Tid)
    requires CanStep(s, a) && a != Turn(t) && Rounding(At(s, t))
    ensures At(Next(s, a), t) == At(s, t)
  {
    if a.Turn? {
      if Rings(At(s, a.t)) { RingLeaves(s, a.t, t); } else { TurnLeaves(s, a.t, t); }
    }
  }

  lemma RingLeaves(s: State, u: Tid, t: Tid)
    requires u != t && !At(s, t).Asleep?
    ensures At(RingTurn(s, u), t) == At(s, t)
  {
  }

  lemma TurnLeaves(s: State, u: Tid, t: Tid)
    requires u != t && !At(s, t).Asleep? && !Rings(At(s, u))
    ensures At(TurnOf(s, u), t) == At(s, t)
  {
  }

  lemma RoundOn(s: State, a: Step, t: Tid, w: Tid)
    requires ParkedOK(s) && CanStep(s, a) && Rounding(At(s, t)) && ToCome(At(s, t), s.n, w) && At(s, w).Asleep?
    ensures At(Next(s, a), w).Asleep? ==> ToCome(At(Next(s, a), t), s.n, w)
  {
    if a == Turn(t) { RoundKeeps(s, t, w); } else { RoundWaits(s, a, t); }
  }

  lemma RoundBegins(s: State, t: Tid, w: Tid)
    requires CasWon(s, Turn(t), t) && TargetOK(s, t) && ThreadOK(s, w) && At(s, w).Asleep?
    ensures ToCome(At(Next(s, Turn(t)), t), s.n, w)
  {
  }

  lemma {:induction false} RoundReaches(ss: seq<State>, run: seq<Step>, i: nat, j: nat, t: Tid, w: Tid)
    requires IsRun(ss, run) && i < j < |ss| && CasWon(ss[i], run[i], t) && At(ss[i], w).Asleep?
    requires forall m :: i < m < j ==> Rounding(At(ss[m], t))
    ensures (exists k :: i < k <= j && !At(ss[k], w).Asleep?) || ToCome(At(ss[j], t), ss[j].n, w)
    decreases j
  {
    RunsParkedOK(ss, run, j - 1);
    SameWorkers(ss[j-1], run[j-1]);
    if i == j - 1 {
      RunsKeepInv(ss, run, i);
      assert TargetOK(ss[i], t) && ThreadOK(ss[i], w);
      RoundBegins(ss[i], t, w);
    } else {
      RoundReaches(ss, run, i, j - 1, t, w);
      if ToCome(At(ss[j-1], t), ss[j-1].n, w) && At(ss[j-1], w).Asleep? { RoundOn(ss[j-1], run[j-1], t, w); }
    }
  }

  lemma SameWorkers(s: State, a: Step)
    requires CanStep(s, a)
    ensures Next(s, a).n == s.n
  {
  }

  /** The dispatcher's CAS, and it succeeds. */
  predicate CasWon(s: State, a: Step, t: Tid) { a == Turn(t) && At(s, t).Cas? && s.unpause == At(s, t).ue }

  /** In every run, torn loads or not: whoever sleeps when a dispatcher wins the CAS has
      left its sleep by the time that dispatcher's round is over. */
  lemma RoundWakesAll(ss: seq<State>, run: seq<Step>, i: nat, j: nat, t: Tid, w: Tid) returns (k: nat)
    requires IsRun(ss, run) && i < j < |ss| && CasWon(ss[i], run[i], t) && At(ss[i], w).Asleep?
    requires (forall m :: i < m < j ==> Rounding(At(ss[m], t))) && !Rounding(At(ss[j], t))
    ensures i < k <= j && !At(ss[k], w).Asleep?
  {
    RoundReaches(ss, run, i, j, t, w);
    k :| i < k <= j && !At(ss[k], w).Asleep?;
  }

  /** A dispatcher that wins the CAS goes on its round, and one that loses does not. */
  lemma RoundIff(s: State, t: Tid)
    requires CanStep(s, Turn(t)) && At(s, t).Cas?
    ensures Rounding(At(Next(s, Turn(t)), t)) <==> CasWon(s, Turn(t), t)
  {
  }

  // ------------------------------------------------------- the off-pool signal

  /** Off the pool, a dispatch signals its target last; by then, won or lost, the
      target is awake. */
  lemma SignalWakes(s: State, t: Tid)
    requires CanStep(s, Turn(t)) && At(s, t).SignalTo?
    ensures !At(Next(s, Turn(t)), At(s, t).to).Asleep?
  {
  }

  /** Where a dispatch is up to, for its target. */
  predicate SignalDue(p: Pc, to: Tid) {
    match p
    case Put(_, w, off) => w == to && off
    case _ => WillSignal(p, to)
  }

  /** ... and no other step takes it there: it stays due until it is made. */
  lemma SignalDueStays(s: State, a: Step, t: Tid, to: Tid)
    requires CanStep(s, a) && SignalDue(At(s, t), to)
    ensures SignalDue(At(Next(s, a), t), to) || (a == Turn(t) && At(s, t).SignalTo?)
  {
    if a == Turn(t) {
      if Epochs(At(s, t)) { EpochDue(s, t, to); } else if Rings(At(s, t)) { RingDue(s, t, to); } else { SendDue(s, t, to); }
    }
  }

  lemma EpochDue(s: State, t: Tid, to: Tid)
    requires Epochs(At(s, t)) && SignalDue(At(s, t), to)
    ensures SignalDue(At(EpochTurn(s, t), t), to)
  {
  }

  lemma RingDue(s: State, t: Tid, to: Tid)
    requires Rings(At(s, t)) && SignalDue(At(s, t), to)
    ensures SignalDue(At(RingTurn(s, t), t), to)
  {
  }

  lemma SendDue(s: State, t: Tid, to: Tid)
    requires !Epochs(At(s, t)) && !Rings(At(s, t)) && !Parks(At(s, t)) && !Stopping(At(s, t)) && SignalDue(At(s, t), to)
    ensures SignalDue(At(SendTurn(s, t), t), to) || At(s, t).SignalTo?
  {
  }

  /** In every run, an off-pool dispatch that is over has woken its target, if that was
      asleep when the node went onto its queue. */
  lemma {:induction false} DispatchWakes(ss: seq<State>, run: seq<Step>, i: nat, j: nat, t: Tid, to: Tid) returns (k: nat)
    requires IsRun(ss, run) && i < j < |ss| && SignalDue(At(ss[i], t), to) && !SignalDue(At(ss[j], t), to)
    ensures i < k <= j && !At(ss[k], to).Asleep?
    decreases j
  {
    if SignalDue(At(ss[j-1], t), to) {
      SignalDueStays(ss[j-1], run[j-1], t, to);
      SignalWakes(ss[j-1], t);
      k := j;
    } else {
      k := DispatchWakes(ss, run, i, j - 1, t, to);
    }
  }

  // ---------------------------------------------------------- a worker with nothing to do

  /** Thread `t` takes `k` turns, all of which it can take, and that leads to `z`. */
  predicate Takes(s: State, t: Tid, k: nat, z: State)
    decreases k
  {
    if k == 0 then s == z else CanStep(s, Turn(t)) && Takes(Next(s, Turn(t)), t, k - 1, z)
  }

  lemma Then(s: State, t: Tid, k: nat, z: State)
    requires CanStep(s, Turn(t)) && Takes(Next(s, Turn(t)), t, k, z)
    ensures Takes(s, t, k + 1, z)
  {
  }

  /** A worker that finds no work and is not told to stop does not go on looking: left
      alone, it falls asleep. */
  lemma LoneParks(s: State, w: Tid) returns (k: nat, z: State)
    requires At(s, w).Idle? && w < s.n && s.work == {} && w !in s.stop && w !in s.mutex
    ensures CanStep(s, Begin(w, Snap)) && Takes(Next(s, Begin(w, Snap)), w, k, z) && At(z, w).Asleep?
    ensures z.parkedCount == s.parkedCount + 1 && w in z.parked && z.mutex == s.mutex
  {
    var a := Next(s, Begin(w, Snap));
    var b := TurnOf(a, w);
    var c := TurnOf(b, w);
    k, z := ScansOn(c, w);
    Then(b, w, k, z);
    Then(a, w, k + 1, z);
    k := k + 2;
  }

  /** The scan, from where it is. */
  lemma {:induction false} ScansOn(s: State, w: Tid) returns (k: nat, z: State)
    requires At(s, w).Scan? && At(s, w).snap == s.unpause && s.work == {} && w !in s.stop && w !in s.mutex
    ensures Takes(s, w, k, z) && At(z, w).Asleep?
    ensures z.parkedCount == s.parkedCount + 1 && w in z.parked && z.mutex == s.mutex
    decreases if At(s, w).v < s.n then s.n - At(s, w).v else 0, if At(s, w).i < s.subs then s.subs - At(s, w).i else 0
  {
    var a := TurnOf(s, w);
    if At(s, w).v >= s.n {
      var b := Locks(a, w);
      z := Marks(b, w);
      k := 6;
      Then(a, w, 5, z);
    } else {
      k, z := ScansOn(a, w);
    }
    Then(s, w, k, z);
    k := k + 1;
  }

  lemma Locks(a: State, w: Tid) returns (b: State)
    requires At(a, w).Lock? && At(a, w).snap == a.unpause && w !in a.stop && w !in a.mutex
    ensures CanStep(a, Turn(w)) && b == Next(a, Turn(w)) && At(b, w).StopTest? && At(b, w).snap == b.unpause
    ensures b.stop == a.stop && b.mutex == a.mutex[w := w] && b.parkedCount == a.parkedCount && b.parked == a.parked
  {
    b := TurnOf(a, w);
  }

  /** test, test, mark, count, wait */
  lemma Marks(b: State, w: Tid) returns (z: State)
    requires At(b, w).StopTest? && At(b, w).snap == b.unpause && w !in b.stop
    ensures Takes(b, w, 5, z) && At(z, w).Asleep?
    ensures z.parkedCount == b.parkedCount + 1 && w in z.parked && z.mutex == b.mutex - {w}
  {
    var c := TurnOf(b, w);
    var d := TurnOf(c, w);
    z := Sleeps(d, w);
    Then(c, w, 3, z);
    Then(b, w, 4, z);
  }

  lemma Sleeps(d: State, w: Tid) returns (z: State)
    requires At(d, w).MarkParked?
    ensures Takes(d, w, 3, z) && At(z, w).Asleep?
    ensures z.parkedCount == d.parkedCount + 1 && w in z.parked && z.mutex == d.mutex - {w}
  {
    var e := TurnOf(d, w);
    var f := TurnOf(e, w);
    z := TurnOf(f, w);
    assert Takes(z, w, 0, z) && Takes(f, w, 1, z) && Takes(e, w, 2, z);
  }
}
