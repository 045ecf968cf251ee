/** Three behaviors on one cown: the second and the third spin on the same cown, so
    along a chain of spinning schedulers the cown waited at need not rise. */
module CownSpinning {
  import opened Wrappers
  import opened RequestQueue
  import opened CownProtocol
  import opened CownTheorems
  import opened CownLiveness

  lemma Extend(ss: seq<State>, ts: seq<Step>, t: Step) returns (ss': seq<State>, ts': seq<Step>)
    requires IsRun(ss, ts) && Enabled(ss[|ts|], t)
    ensures IsRun(ss', ts') && ss'[|ts'|] == Next(ss[|ts|], t)
  {
    ss', ts' := ss + [Next(ss[|ts|], t)], ts + [t];
    forall i | 0 <= i < |ts'| ensures Enabled(ss'[i], ts'[i]) && ss'[i+1] == Next(ss'[i], ts'[i]) {
      if i < |ts| { assert ts'[i] == ts[i] && ss'[i] == ss[i] && ss'[i+1] == ss[i+1]; }
    }
  }

  /** A behavior that needs only cown 0, in phase 1; it has exchanged its request
      into place `at`, if at all. */
  predicate Joining(b: Behavior, at: Option<nat>) {
    && b.order == [0] && b.sched == Linking(0)
    && b.slot == if at.Some? then map[0 := at.value] else map[]
  }

  /** Three of them; those of `links` have joined the queue, and stand where it says. */
  predicate Scene(s: State, links: seq<Link>) {
    && |s.beh| == 3 && |links| <= 3 && (forall b :: 0 <= b < 3 ==> Joining(s.beh[b], if b < |links| then Some(b) else None))
    && var q := QueueOf(s, 0);
       && |q.reqs| == |links| && q.last == (if links == [] then None else Some(|links| - 1))
       && forall i :: 0 <= i < |links| ==> Placed(q.reqs[i], i, links[i])
  }

  predicate Placed(r: Request, i: nat, link: Link) {
    r.owner == i && r.link == link && r.prev == (if i == 0 then None else Some(i - 1)) && !r.scheduled
  }

  lemma Spawned() returns (ss: seq<State>, ts: seq<Step>)
    ensures IsRun(ss, ts) && Scene(ss[|ts|], [])
  {
    ss, ts := [Init], [];
    for i := 0 to 3
      invariant IsRun(ss, ts) && |ss[|ts|].beh| == i && QueueOf(ss[|ts|], 0) == Empty
      invariant forall b :: 0 <= b < i ==> Joining(ss[|ts|].beh[b], None)
    {
      ss, ts := Extend(ss, ts, DoSpawn([0], None));
    }
  }

  /** The exchange of behavior `b`, which comes next. */
  lemma Exchanges(s: State, links: seq<Link>)
    requires Scene(s, links) && |links| < 3
    ensures CanSchedule(s, |links|)
    ensures Scene(ScheduleStep(s, |links|), links + [if links == [] then ResolveSelf else HoldPrev])
  {
  }

  /** The step of behavior `b` that takes it from `links[b]` to `to`. */
  predicate Moves(from: Link, to: Link) {
    (from.HoldPrev? && to.PublishNext?) || (from.PublishNext? && to.CountSelf?) || (from.CountSelf? && to.AwaitPrev?)
  }

  lemma Links(s: State, links: seq<Link>, b: nat, to: Link)
    requires Scene(s, links) && 0 < b < |links| && Moves(links[b], to)
    ensures CanSchedule(s, b) && Scene(ScheduleStep(s, b), links[b := to])
  {
  }

  /** All three have exchanged themselves into `last`; the first has still to count its grant. */
  lemma Exchanged() returns (ss: seq<State>, ts: seq<Step>)
    ensures IsRun(ss, ts) && Scene(ss[|ts|], [ResolveSelf, HoldPrev, HoldPrev])
  {
    ss, ts := Spawned();
    Exchanges(ss[|ts|], []);
    ss, ts := Extend(ss, ts, DoSchedule(0));
    assert [] + [ResolveSelf] == [ResolveSelf];
    Exchanges(ss[|ts|], [ResolveSelf]);
    ss, ts := Extend(ss, ts, DoSchedule(1));
    assert [ResolveSelf] + [HoldPrev] == [ResolveSelf, HoldPrev];
    Exchanges(ss[|ts|], [ResolveSelf, HoldPrev]);
    ss, ts := Extend(ss, ts, DoSchedule(2));
    assert [ResolveSelf, HoldPrev] + [HoldPrev] == [ResolveSelf, HoldPrev, HoldPrev];
  }

  /** A behavior links itself to the one before, and spins. */
  lemma LinksUp(ss: seq<State>, ts: seq<Step>, links: seq<Link>, b: nat) returns (ss': seq<State>, ts': seq<Step>)
    requires IsRun(ss, ts) && Scene(ss[|ts|], links) && 0 < b < |links| && links[b].HoldPrev?
    ensures IsRun(ss', ts') && Scene(ss'[|ts'|], links[b := AwaitPrev])
  {
    Links(ss[|ts|], links, b, PublishNext);
    ss', ts' := Extend(ss, ts, DoSchedule(b));
    Links(ss'[|ts'|], links[b := PublishNext], b, CountSelf);
    ss', ts' := Extend(ss', ts', DoSchedule(b));
    Links(ss'[|ts'|], links[b := PublishNext][b := CountSelf], b, AwaitPrev);
    ss', ts' := Extend(ss', ts', DoSchedule(b));
    assert links[b := PublishNext][b := CountSelf][b := AwaitPrev] == links[b := AwaitPrev];
  }

  /** The second spins on the first, and the third on the second, on the same cown. */
  lemma SameCownSpins() returns (ss: seq<State>, ts: seq<Step>)
    ensures IsRun(ss, ts)
    ensures var s := ss[|ts|]; Spins(s, 2, 0) && Awaited(s, 2, 0) == 1 && Spins(s, 1, 0)
  {
    ss, ts := Exchanged();
    ss, ts := LinksUp(ss, ts, [ResolveSelf, HoldPrev, HoldPrev], 1);
    ss, ts := LinksUp(ss, ts, [ResolveSelf, HoldPrev, HoldPrev][1 := AwaitPrev], 2);
  }
}
