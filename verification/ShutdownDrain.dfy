/** Shutdown: with the workers joined and the terminator closed, stop_workers drains
    the pinned queue and the workers' queues in turn until both are empty.  What is
    left of the schedule is a sequence of behaviors in their one serial order; a
    behavior waits for the earlier ones it shares a cown with. */
module ShutdownDrain {
  import opened Wrappers

  type Bid = nat
  type Cown = nat

  const MAX_ROUNDS: nat := 64   // _MAX_STOP_DRAIN_ROUNDS

  /** What is known of each behavior: its cowns, and whether one of them is pinned. */
  datatype Schedule = Schedule(keys: seq<set<Cown>>, pinned: set<Bid>)

  predicate Conflict(s: Schedule, a: Bid, b: Bid) {
    a < |s.keys| && b < |s.keys| && s.keys[a] * s.keys[b] != {}
  }

  /** `left` in serial order: bids are numbered by it. */
  predicate Ready(s: Schedule, left: set<Bid>, b: Bid) {
    b in left && forall a :: a in left && a < b ==> !Conflict(s, a, b)
  }

  /** How often a path of waiting behaviors among `live` that ends in `b` goes from an
      unpinned one to a pinned one, at most. */
  function Level(s: Schedule, live: set<Bid>, b: Bid): (n: nat)
    decreases b, 1
  {
    LevelOver(s, live, b, b)
  }

  function LevelOver(s: Schedule, live: set<Bid>, b: Bid, n: nat): (r: nat)
    requires n <= b
    decreases b, 0, n
  {
    if n == 0 then 0 else
      var rest := LevelOver(s, live, b, n - 1);
      if n - 1 !in live || !Conflict(s, n - 1, b) then rest else
        var via := Level(s, live, n - 1) + Switch(s, n - 1, b);
        if via > rest then via else rest
  }

  function Switch(s: Schedule, a: Bid, b: Bid): (n: nat) { if a !in s.pinned && b in s.pinned then 1 else 0 }

  lemma {:induction false} LevelOverAt(s: Schedule, live: set<Bid>, b: Bid, n: nat, a: Bid)
    requires a < n <= b && a in live && Conflict(s, a, b)
    ensures Level(s, live, a) + Switch(s, a, b) <= LevelOver(s, live, b, n)
    decreases n
  {
    if a < n - 1 { LevelOverAt(s, live, b, n - 1, a); }
  }

  lemma LevelRises(s: Schedule, live: set<Bid>, a: Bid, b: Bid)
    requires a < b && a in live && Conflict(s, a, b)
    ensures Level(s, live, a) + Switch(s, a, b) <= Level(s, live, b)
  {
    LevelOverAt(s, live, b, b, a);
  }

  /** A waiting path: unfinished behaviors, each waiting for the one before it. */
  ghost predicate IsPath(s: Schedule, live: set<Bid>, p: seq<Bid>) {
    && p != [] && (forall i :: 0 <= i < |p| ==> p[i] in live)
    && forall i :: 0 <= i < |p| - 1 ==> p[i] < p[i+1] && Conflict(s, p[i], p[i+1])
  }

  function Switches(s: Schedule, p: seq<Bid>): (n: nat) {
    if |p| < 2 then 0 else Switches(s, p[..|p|-1]) + Switch(s, p[|p|-2], p[|p|-1])
  }

  /** The level of a behavior is no less than the switches of any path to it ... */
  lemma {:induction false} PathLevel(s: Schedule, live: set<Bid>, p: seq<Bid>)
    requires IsPath(s, live, p)
    ensures Switches(s, p) <= Level(s, live, p[|p|-1])
  {
    if |p| > 1 {
      var n := |p| - 1;
      PathLevel(s, live, p[..n]);
      LevelRises(s, live, p[n-1], p[n]);
    }
  }

  /** ... and is that of some path. */
  lemma {:induction false} LevelPath(s: Schedule, live: set<Bid>, b: Bid) returns (p: seq<Bid>)
    requires b in live
    ensures IsPath(s, live, p) && p[|p|-1] == b && Switches(s, p) == Level(s, live, b)
    decreases b
  {
    if Level(s, live, b) == 0 {
      p := [b];
    } else {
      var a := LevelVia(s, live, b, b);
      var q := LevelPath(s, live, a);
      p := q + [b];
      assert p[..|p|-1] == q;
    }
  }

  lemma {:induction false} LevelVia(s: Schedule, live: set<Bid>, b: Bid, n: nat) returns (a: Bid)
    requires n <= b && LevelOver(s, live, b, n) > 0
    ensures a < n && a in live && Conflict(s, a, b) && Level(s, live, a) + Switch(s, a, b) == LevelOver(s, live, b, n)
    decreases n
  {
    if n - 1 in live && Conflict(s, n - 1, b)
       && Level(s, live, n - 1) + Switch(s, n - 1, b) == LevelOver(s, live, b, n) {
      a := n - 1;
    } else {
      a := LevelVia(s, live, b, n - 1);
    }
  }

  /** What is left when `r` rounds have been made ... */
  predicate Later(s: Schedule, live: set<Bid>, r: nat, b: Bid) { b in live && Level(s, live, b) >= r }

  /** ... and when the pump has then drained the pinned queue once more. */
  predicate Pumped(s: Schedule, live: set<Bid>, r: nat, b: Bid) {
    Later(s, live, r, b) && (b in s.pinned ==> Level(s, live, b) > r)
  }

  /** Whatever is to survive the pump waits for something that is. */
  lemma PumpSpares(s: Schedule, live: set<Bid>, r: nat, left: set<Bid>, b: Bid)
    requires b in s.pinned && Level(s, live, b) > r && forall x :: Pumped(s, live, r, x) ==> x in left
    ensures !Ready(s, left, b)
  {
    var a := LevelVia(s, live, b, b);
  }

  lemma OrphansSpare(s: Schedule, live: set<Bid>, r: nat, left: set<Bid>, b: Bid)
    requires b !in s.pinned && Level(s, live, b) > r && forall x :: Later(s, live, r + 1, x) ==> x in left
    ensures !Ready(s, left, b)
  {
    var a := LevelVia(s, live, b, b);
  }

  /** The order `turns` takes only what is ready at its turn. */
  predicate DrainOrder(s: Schedule, left: set<Bid>, turns: seq<Bid>)
    decreases |turns|
  {
    turns != [] ==> Ready(s, left, turns[0]) && DrainOrder(s, left - {turns[0]}, turns[1..])
  }

  function Taken(turns: seq<Bid>): (r: set<Bid>) { set b | b in turns }

  lemma {:induction false} OrderThen(s: Schedule, left: set<Bid>, turns: seq<Bid>, b: Bid)
    requires DrainOrder(s, left, turns) && Ready(s, left - Taken(turns), b)
    ensures DrainOrder(s, left, turns + [b]) && left - Taken(turns + [b]) == left - Taken(turns) - {b}
    decreases |turns|
  {
    if turns == [] {
      assert left - Taken(turns) == left && (turns + [b])[1..] == [];
    } else {
      assert left - {turns[0]} - Taken(turns[1..]) == left - Taken(turns);
      OrderThen(s, left - {turns[0]}, turns[1..], b);
      assert (turns + [b])[1..] == turns[1..] + [b];
    }
  }

  // -------------------------------------------------------------------- the drain

  class Runtime {
    const s: Schedule
    ghost const start: set<Bid>
    ghost var order: seq<Bid>   // what was drained, one after the other
    var left: set<Bid>          // still linked
    var wsq: seq<Bid>           // on the workers' queues
    var pinnedQueue: seq<Bid>
    var holds: int              // terminator_count

    /** Exactly the behaviors that wait for nobody are queued, once, where they belong. */
    ghost predicate Valid()
      reads this
    {
      && (forall b :: b in wsq <==> Ready(s, left, b) && b !in s.pinned)
      && (forall b :: b in pinnedQueue <==> Ready(s, left, b) && b in s.pinned)
      && Once(wsq) && Once(pinnedQueue) && holds == |left| && InOrder()
    }

    /** What was drained so far was drained in an order that is allowed. */
    ghost predicate InOrder()
      reads this
    {
      DrainOrder(s, start, order) && left == start - Taken(order)
    }

    constructor (schedule: Schedule, linked: set<Bid>, queued: seq<Bid>, queuedPinned: seq<Bid>)
      requires forall b :: b in queued <==> Ready(schedule, linked, b) && b !in schedule.pinned
      requires forall b :: b in queuedPinned <==> Ready(schedule, linked, b) && b in schedule.pinned
      requires Once(queued) && Once(queuedPinned)
      ensures Valid() && s == schedule && left == start == linked
    {
      start, order := linked, [];
      s, left, wsq, pinnedQueue, holds := schedule, linked, queued, queuedPinned, |linked|;
    }

    /** behavior_release_all of a behavior taken off its queue, and terminator_dec:
        every behavior that now waits for nobody is dispatched, in some order. */
    method ReleaseAll(b: Bid, ghost rest: seq<Bid>, ghost restPinned: seq<Bid>)
      requires b in left && Ready(s, left, b) && Once(wsq) && Once(pinnedQueue) && holds == |left|
      requires forall x :: x in wsq <==> Ready(s, left, x) && x !in s.pinned && x != b && x !in rest
      requires forall x :: x in pinnedQueue <==> Ready(s, left, x) && x in s.pinned && x != b && x !in restPinned
      requires forall x :: x in rest ==> Ready(s, left, x) && x !in s.pinned && x != b
      requires restPinned == [] && InOrder()
      modifies this
      ensures InOrder() && left == old(left) - {b} && holds == old(holds) - 1 && holds == |left|
      ensures Once(wsq) && Once(pinnedQueue)
      ensures forall x :: x in wsq <==> Ready(s, left, x) && x !in s.pinned && x !in rest
      ensures forall x :: x in pinnedQueue <==> Ready(s, left, x) && x in s.pinned
      ensures forall x :: x in rest ==> Ready(s, left, x)
    {
      ghost var before := left;
      OrderThen(s, start, order, b);
      order := order + [b];
      left := left - {b};
      holds := holds - 1;
      StillReady(s, before, b);
      DispatchReady(b, before, rest);
    }

    /** behavior_resolve_one, for each of those that waited for `b` and now for nobody. */
    method DispatchReady(b: Bid, ghost before: set<Bid>, ghost rest: seq<Bid>)
      requires Once(wsq) && Once(pinnedQueue)
      requires forall x :: Ready(s, left, x) && !Ready(s, before, x) ==> Conflict(s, b, x)
      requires forall x :: x in wsq <==> Ready(s, before, x) && Ready(s, left, x) && x !in s.pinned && x !in rest
      requires forall x :: x in pinnedQueue <==> Ready(s, before, x) && Ready(s, left, x) && x in s.pinned
      requires forall x :: Ready(s, before, x) && x in left ==> Ready(s, left, x)
      requires forall x :: x in rest ==> Ready(s, before, x)
      requires b !in left && Ready(s, before, b)
      modifies this`wsq, this`pinnedQueue
      ensures Once(wsq) && Once(pinnedQueue)
      ensures forall x :: x in wsq <==> Ready(s, left, x) && x !in s.pinned && x !in rest
      ensures forall x :: x in pinnedQueue <==> Ready(s, left, x) && x in s.pinned
    {
      var next := set x | x in left && Conflict(s, b, x) && Ready(s, left, x);
      while next != {}
        invariant Once(wsq) && Once(pinnedQueue)
        invariant forall x :: x in next ==> Ready(s, left, x) && !Ready(s, before, x)
        invariant forall x :: x in wsq <==> Ready(s, left, x) && x !in s.pinned && x !in rest && x !in next
        invariant forall x :: x in pinnedQueue <==> Ready(s, left, x) && x in s.pinned && x !in next
        decreases |next|
      {
        var x :| x in next;
        if x in s.pinned {
          OnceMore(pinnedQueue, x);
          pinnedQueue := pinnedQueue + [x];
        } else {
          OnceMore(wsq, x);
          wsq := wsq + [x];
        }
        next := next - {x};
      }
    }

    /** main_pump_drain_all: in round `r` it drains the pinned behaviors of level `r`. */
    method PumpDrain(ghost live: set<Bid>, ghost r: nat) returns (drained: nat)
      requires Valid() && forall b :: b in left <==> Later(s, live, r, b)
      modifies this
      ensures Valid() && pinnedQueue == [] && left <= old(left) && drained == |old(left)| - |left|
      ensures forall b :: b in left <==> Pumped(s, live, r, b)
    {
      drained := 0;
      while pinnedQueue != []
        invariant Valid() && left <= old(left) && drained == |old(left)| - |left|
        invariant forall b :: Pumped(s, live, r, b) ==> b in left
        decreases |left|
      {
        var b := pinnedQueue[0];
        assert b in pinnedQueue && pinnedQueue == [b] + pinnedQueue[1..];
        if Level(s, live, b) > r { PumpSpares(s, live, r, left, b); }
        pinnedQueue := pinnedQueue[1..];
        ReleaseAll(b, [], []);
        drained := drained + 1;
      }
      forall b | b in left ensures Pumped(s, live, r, b) {
        if b in s.pinned { PinnedGone(s, live, left, r, b); }
      }
    }

    /** _drain_orphan_behaviors: everything on the workers' queues, again and again,
        until there is nothing. */
    method OrphanDrain(ghost live: set<Bid>, ghost r: nat) returns (drained: nat)
      requires Valid() && forall b :: b in left <==> Pumped(s, live, r, b)
      modifies this
      ensures Valid() && wsq == [] && left <= old(left) && drained == |old(left)| - |left|
      ensures forall b :: b in left <==> Later(s, live, r + 1, b)
    {
      drained := 0;
      while wsq != []
        invariant Valid() && left <= old(left) && drained == |old(left)| - |left|
        invariant forall b :: Later(s, live, r + 1, b) ==> b in left
        decreases |left|
      {
        var n := DrainOnce(live, r);
        drained := drained + n;
      }
      forall b | b in left ensures Later(s, live, r + 1, b) { UnpinnedGone(s, live, left, r, b); }
    }

    /** One scheduler_drain_all_queues and the releases it leads to. */
    method DrainOnce(ghost live: set<Bid>, ghost r: nat) returns (drained: nat)
      requires Valid() && wsq != [] && forall b :: Later(s, live, r + 1, b) ==> b in left
      modifies this
      ensures Valid() && left <= old(left) && drained == |old(left)| - |left| && drained > 0
      ensures forall b :: Later(s, live, r + 1, b) ==> b in left
    {
      var capsules := wsq;
      wsq := [];
      for i := 0 to |capsules|
        invariant left <= old(left) && i == |old(left)| - |left| && holds == |left| && InOrder()
        invariant Once(wsq) && Once(pinnedQueue)
        invariant forall x :: x in wsq <==> Ready(s, left, x) && x !in s.pinned && x !in capsules[i..]
        invariant forall x :: x in pinnedQueue <==> Ready(s, left, x) && x in s.pinned
        invariant forall x :: x in capsules[i..] ==> Ready(s, left, x) && x !in s.pinned
        invariant forall b :: Later(s, live, r + 1, b) ==> b in left
      {
        var b := capsules[i];
        assert capsules[i..] == [b] + capsules[i+1..];
        assert b in capsules[i..] && b !in capsules[i+1..];
        if Level(s, live, b) > r { OrphansSpare(s, live, r, left, b); }
        ReleaseAll(b, capsules[i+1..], []);
      }
      drained := |capsules|;
    }

    /** The alternating loop of stop_workers.  After k rounds exactly the behaviors of
        level k and more are left; so the loop ends by itself, with every chain empty
        and every hold dropped, if and only if the cap leaves it two rounds more than
        the highest level. */
    method StopDrain() returns (rounds: nat, converged: bool)
      requires Valid()
      modifies this
      ensures Valid() && holds == |left| && rounds <= MAX_ROUNDS
      ensures forall b :: b in left <==> Later(s, old(left), rounds, b)
      ensures converged <==> forall b :: b in old(left) ==> Level(s, old(left), b) + 2 <= MAX_ROUNDS
      ensures converged ==> left == {} && holds == 0
      ensures converged ==> forall b :: b in old(left) ==> Level(s, old(left), b) + 2 <= rounds
      ensures converged && rounds > 1 ==> exists b :: b in old(left) && Level(s, old(left), b) + 2 == rounds
      ensures !converged ==> rounds == MAX_ROUNDS
    {
      ghost var live := left;
      rounds, converged := 0, false;
      while rounds < MAX_ROUNDS && !converged
        invariant Valid() && rounds <= MAX_ROUNDS
        invariant forall b :: b in left <==> Later(s, live, rounds, b)
        invariant converged ==> rounds > 0 && left == {} && forall b :: b in live ==> Level(s, live, b) + 2 <= rounds
        invariant rounds > 0 && !converged ==> exists b :: b in live && Level(s, live, b) + 1 == rounds
        invariant converged && rounds > 1 ==> exists b :: b in live && Level(s, live, b) + 2 == rounds
        decreases MAX_ROUNDS - rounds, !converged
      {
        ghost var was := left;
        var pumped := PumpDrain(live, rounds);
        ghost var mid := left;
        assert forall b :: Ready(s, mid, b) ==> b !in s.pinned;
        var orphans := OrphanDrain(live, rounds);
        if pumped == 0 && orphans == 0 {
          Smaller(left, mid);
          NobodyReady(s, left);
          converged := true;
        } else {
          SomeDrained(s, live, was, left, rounds);
        }
        rounds := rounds + 1;
      }
    }
  }

  /** A round that drains something drains something of its own level. */
  lemma SomeDrained(s: Schedule, live: set<Bid>, was: set<Bid>, left: set<Bid>, r: nat)
    requires forall b :: b in was <==> Later(s, live, r, b)
    requires (forall b :: b in left <==> Later(s, live, r + 1, b)) && |left| < |was|
    ensures exists b :: b in live && Level(s, live, b) == r
  {
    if forall b :: b in was ==> b in left {
      SubsetSize(was, left);
    } else {
      var b :| b in was && b !in left;
    }
  }

  lemma Smaller(a: set<Bid>, b: set<Bid>)
    requires a <= b && |a| == |b|
    ensures a == b
  {
    if exists x :: x in b && x !in a {
      var x :| x in b && x !in a;
      assert a <= b - {x};
      SubsetSize(a, b - {x});
    }
  }

  lemma {:induction false} SubsetSize(a: set<Bid>, b: set<Bid>)
    requires a <= b
    ensures |a| <= |b|
  {
    if a != {} {
      var x :| x in a;
      SubsetSize(a - {x}, b - {x});
    }
  }

  /** The earliest behavior left waits for nobody. */
  lemma FirstReady(s: Schedule, left: set<Bid>) returns (b: Bid)
    requires left != {}
    ensures Ready(s, left, b)
  {
    b := Least(left);
  }

  lemma NobodyReady(s: Schedule, left: set<Bid>)
    requires forall b :: !Ready(s, left, b)
    ensures left == {}
  {
    if left != {} { var b := FirstReady(s, left); }
  }

  lemma {:induction false} Least(xs: set<Bid>) returns (m: Bid)
    requires xs != {}
    ensures m in xs && forall x :: x in xs ==> m <= x
  {
    var x :| x in xs;
    if xs == {x} {
      m := x;
    } else {
      var rest := xs - {x};
      assert xs == rest + {x};
      assert rest != {} by { assert xs != {x}; }
      m := Least(rest);
      if x < m { m := x; }
    }
  }

  /** Nothing pinned of level `r` can wait once the pinned queue is empty. */
  lemma PinnedGone(s: Schedule, live: set<Bid>, left: set<Bid>, r: nat, b: Bid)
    requires (forall x :: x in left ==> Later(s, live, r, x)) && (forall x :: Ready(s, left, x) ==> x !in s.pinned)
    requires b in left && b in s.pinned
    ensures Level(s, live, b) > r
    decreases b
  {
    var a :| a in left && a < b && Conflict(s, a, b);
    assert Later(s, live, r, a);
    LevelRises(s, live, a, b);
    if a in s.pinned { PinnedGone(s, live, left, r, a); }
  }

  lemma UnpinnedGone(s: Schedule, live: set<Bid>, left: set<Bid>, r: nat, b: Bid)
    requires forall x :: x in left ==> Pumped(s, live, r, x)
    requires (forall x :: Ready(s, left, x) ==> x in s.pinned) && b in left
    ensures Later(s, live, r + 1, b)
    decreases b
  {
    assert Pumped(s, live, r, b);
    if b !in s.pinned {
      var a :| a in left && a < b && Conflict(s, a, b);
      UnpinnedGone(s, live, left, r, a);
      LevelRises(s, live, a, b);
    }
  }

  predicate Once(xs: seq<Bid>) { forall i, j :: 0 <= i < j < |xs| ==> xs[i] != xs[j] }

  lemma OnceMore(xs: seq<Bid>, x: Bid)
    requires Once(xs) && x !in xs
    ensures Once(xs + [x])
  {
  }

  /** Removing a ready behavior leaves the others ready that were, and makes ready only
      some that conflict with it. */
  lemma StillReady(s: Schedule, left: set<Bid>, b: Bid)
    requires Ready(s, left, b)
    ensures forall x :: x != b && Ready(s, left, x) ==> Ready(s, left - {b}, x)
    ensures forall x :: Ready(s, left - {b}, x) && !Ready(s, left, x) ==> Conflict(s, b, x)
  {
  }

  // ------------------------------------------------------------- beyond the cap

  /** `n` behaviors that share cown 0; every other one also has cown 1, which is pinned. */
  function Alternating(n: nat): (s: Schedule) {
    Schedule(seq(n, i => if i % 2 == 1 then {0, PINNED} else {0}), set b | b in Below(n) && b % 2 == 1)
  }

  const PINNED: Cown := 1

  /** The flags are those of the arguments. */
  lemma AlternatingFlags(n: nat, b: Bid)
    requires b < n
    ensures b in Alternating(n).pinned <==> Alternating(n).keys[b] * {PINNED} != {}
  {
    assert PINNED in Alternating(n).keys[b] <==> PINNED in Alternating(n).keys[b] * {PINNED};
  }

  /** The first `n` behaviors. */
  function Below(n: nat): (bs: set<Bid>)
    ensures forall b: Bid :: b in bs <==> b < n
  {
    if n == 0 then {} else Below(n - 1) + {n - 1}
  }

  function Upto(n: nat): (p: seq<Bid>) { seq(n, i => i) }

  lemma AllConflict(n: nat, a: Bid, b: Bid)
    requires a < n && b < n
    ensures Conflict(Alternating(n), a, b)
  {
    assert 0 in Alternating(n).keys[a] * Alternating(n).keys[b];
  }

  lemma {:induction false} AlternatingSwitches(n: nat, m: nat)
    requires m <= n
    ensures 2 * Switches(Alternating(n), Upto(m)) == m - m % 2
  {
    if m >= 2 {
      AlternatingSwitches(n, m - 1);
      assert Upto(m)[..m-1] == Upto(m - 1);
      assert Upto(m)[m-2] == m - 2 && Upto(m)[m-1] == m - 1;
      assert m - 1 in Alternating(n).pinned <==> (m - 1) % 2 == 1;
      assert m - 2 in Alternating(n).pinned <==> (m - 2) % 2 == 1;
    }
  }

  /** The last of them has a level of half their number. */
  lemma AlternatingLevel(n: nat)
    requires n > 0
    ensures 2 * Level(Alternating(n), Below(n), n - 1) >= n - n % 2
  {
    var p := Upto(n);
    forall i | 0 <= i < |p| - 1 ensures p[i] < p[i+1] && Conflict(Alternating(n), p[i], p[i+1]) { AllConflict(n, i, i + 1); }
    AlternatingSwitches(n, n);
    PathLevel(Alternating(n), Below(n), p);
  }

  /** Only the first is queued. */
  lemma AlternatingReady(n: nat)
    requires n > 0
    ensures forall b: Bid {:trigger Ready(Alternating(n), Below(n), b)} :: Ready(Alternating(n), Below(n), b) <==> b == 0
  {
    forall b: Bid ensures Ready(Alternating(n), Below(n), b) <==> b == 0 {
      if 0 < b < n {
        AllConflict(n, 0, b);
        assert 0 in Below(n) && Conflict(Alternating(n), 0, b);
      }
    }
  }

  /** With 128 of them waiting, all flagged as their arguments say, the drain stops at its cap with work left. */
  method LeavesWork() returns (rt: Runtime, rounds: nat, converged: bool)
    ensures fresh(rt) && rt.Valid() && rounds == MAX_ROUNDS && !converged && 127 in rt.left && rt.holds > 0
    ensures |rt.s.keys| == 128
    ensures forall b {:trigger b in rt.s.pinned} :: 0 <= b < 128 ==> (b in rt.s.pinned <==> rt.s.keys[b] * {PINNED} != {})
  {
    AlternatingReady(128);
    forall b | 0 <= b < 128 ensures b in Alternating(128).pinned <==> Alternating(128).keys[b] * {PINNED} != {} {
      AlternatingFlags(128, b);
    }
    rt := new Runtime(Alternating(128), Below(128), [0], []);
    AlternatingLevel(128);
    rounds, converged := rt.StopDrain();
    assert Later(Alternating(128), Below(128), 64, 127);
    assert 127 in rt.left;
  }
}
