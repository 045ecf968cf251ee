/** The scheduler as the runtime runs it: shared mutable state, changed one
    atomic operation at a time by threads in any order. */
module CownRuntime {
  import opened Wrappers
  import opened RequestQueue
  import opened CownProtocol
  import opened CownInvariant
  import opened CownSteps
  import opened CownRelease
  import opened CownTheorems
  import opened CownReclamation

  /** The handoff, written out. */
  lemma HandsOver(s: State, b: Bid)
    requires CanRun(s, b) && s.beh[b].run.Releasing? && ReqOf(s, b, s.beh[b].run.at).rel.HandOver?
    ensures var c := s.beh[b].order[s.beh[b].run.at]; var q, i := QueueOf(s, c), s.beh[b].slot[c];
      var n := q.reqs[i].rel.to; var last := s.beh[n].count == 1;
      RunStep(s, b) == s.(
        beh := s.beh[n := s.beh[n].(count := s.beh[n].count - 1, waiting := s.beh[n].waiting - {c},
                                    run := if last then Claimed(Some(c)) else s.beh[n].run)],
        cown := s.cown[c := q.(reqs := q.reqs[i := q.reqs[i].(rel := if last then Announce(n) else DropOwn)], head := q.head + 1)])
  {
  }

  class Runtime {
    var beh: seq<Behavior>
    var cown: map<Cown, Queue>
    var log: seq<Bid>
    var terminator: int

    function St(): (s: State)
      reads this
    {
      State(beh, cown, log, terminator)
    }

    ghost predicate Valid()
      reads this
    {
      Inv(St())
    }

    constructor ()
      ensures Valid() && St() == Init
    {
      beh, cown, log, terminator := [], map[], [], 0;
    }

    /** whencall: build the capsule and take a terminator hold. */
    method WhenCall(order: seq<Cown>, caller: Option<Bid>) returns (b: Bid)
      requires Valid() && CanSpawn(St(), order, caller)
      modifies this
      ensures b == old(|beh|) && St() == Next(old(St()), DoSpawn(order, caller)) && Valid()
    {
      SpawnInv(St(), order, caller);
      b := |beh|;
      var keys := set c | c in order;
      terminator := terminator + 1;
      beh := beh + [Behavior(order, keys, caller, Linking(0), Waiting, |order| + 1, 1, 0, 0, map[], keys, {}, None)];
    }

    /** The thread scheduling `b` stands at `l` inside request_start_enqueue_inner. */
    predicate LinkingAt(b: Bid, l: Link)
      reads this
    {
      && CanSchedule(St(), b) && beh[b].sched.Linking?
      && beh[b].order[beh[b].sched.at] in beh[b].slot
      && ReqOf(St(), b, beh[b].sched.at).link == l
    }

    /** The request that thread works on: its cown and its place in the queue. */
    function Here(b: Bid): (r: (Cown, nat))
      requires b < |beh| && beh[b].sched.Linking? && HasSlot(St(), b, beh[b].sched.at)
      reads this
    {
      var c := beh[b].order[beh[b].sched.at]; (c, beh[b].slot[c])
    }

    /** prev = atomic_exchange(&request->target->last, request) */
    method ExchangeLast(b: Bid)
      requires Valid() && CanSchedule(St(), b) && beh[b].sched.Linking?
      requires beh[b].order[beh[b].sched.at] !in beh[b].slot
      modifies this
      ensures St() == Next(old(St()), DoSchedule(b))
    {
      var c := beh[b].order[beh[b].sched.at];
      var q := if c in cown then cown[c] else Empty;
      var prev, at := q.last, |q.reqs|;
      var r := Request(b, if prev == None then ResolveSelf else HoldPrev, Held, prev, None, false, 1, 0);
      cown := cown[c := Queue(q.reqs + [r], Some(at), q.head)];
      beh := beh[b := beh[b].(slot := beh[b].slot[c := at])];
    }

    /** prev was NULL: behavior_resolve_one on ourselves */
    method ResolveFirst(b: Bid)
      requires Valid() && LinkingAt(b, ResolveSelf)
      modifies this
      ensures St() == Next(old(St()), DoSchedule(b))
    {
      Site(St(), b, beh[b].sched.at);
      var (c, i) := Here(b);
      var q := cown[c];
      var reqs := q.reqs;
      var B := beh[b];
      beh := beh[b := B.(count := B.count - 1, waiting := B.waiting - {c})];
      reqs := reqs[i := reqs[i].(link := Linked)];
      cown := cown[c := q.(reqs := reqs)];
    }

    /** atomic_fetch_add(&prev->rc, 1) */
    method TakePrev(b: Bid)
      requires Valid() && LinkingAt(b, HoldPrev)
      modifies this`cown
      ensures St() == Next(old(St()), DoSchedule(b))
    {
      Site(St(), b, beh[b].sched.at);
      var (c, i) := Here(b);
      var q := cown[c];
      var reqs := q.reqs;
      var p := reqs[i].prev.value;
      reqs := reqs[p := reqs[p].(rc := reqs[p].rc + 1)];
      reqs := reqs[i := reqs[i].(link := PublishNext)];
      cown := cown[c := q.(reqs := reqs)];
    }

    /** atomic_store(&prev->next, behavior); nothing was stored there before */
    method Publish(b: Bid)
      requires Valid() && LinkingAt(b, PublishNext)
      modifies this`cown
      ensures St() == Next(old(St()), DoSchedule(b))
    {
      Site(St(), b, beh[b].sched.at);
      var (c, i) := Here(b);
      var q := cown[c];
      var reqs := q.reqs;
      var p := reqs[i].prev.value;
      NextUnsetAtPublish(St(), b, beh[b].sched.at);
      assert reqs[p].next == None;
      reqs := reqs[p := reqs[p].(next := Some(b))];
      reqs := reqs[i := reqs[i].(link := CountSelf)];
      cown := cown[c := q.(reqs := reqs)];
    }

    /** BEHAVIOR_INCREF(behavior) */
    method CountLink(b: Bid)
      requires Valid() && LinkingAt(b, CountSelf)
      modifies this
      ensures St() == Next(old(St()), DoSchedule(b))
    {
      Site(St(), b, beh[b].sched.at);
      var (c, i) := Here(b);
      var q := cown[c];
      var reqs := q.reqs;
      var B := beh[b];
      beh := beh[b := B.(rc := B.rc + 1, refs := B.refs + {c})];
      reqs := reqs[i := reqs[i].(link := AwaitPrev)];
      cown := cown[c := q.(reqs := reqs)];
    }

    /** the spin on prev->scheduled ends */
    method SpinOut(b: Bid)
      requires Valid() && LinkingAt(b, AwaitPrev)
      modifies this`cown
      ensures St() == Next(old(St()), DoSchedule(b))
    {
      Site(St(), b, beh[b].sched.at);
      var (c, i) := Here(b);
      var q := cown[c];
      var reqs := q.reqs;
      reqs := reqs[i := reqs[i].(link := DropPrev)];
      cown := cown[c := q.(reqs := reqs)];
    }

    /** request_decref(prev) */
    method LeavePrev(b: Bid)
      requires Valid() && LinkingAt(b, DropPrev)
      modifies this`cown
      ensures St() == Next(old(St()), DoSchedule(b))
    {
      Site(St(), b, beh[b].sched.at);
      var (c, i) := Here(b);
      var q := cown[c];
      var reqs := q.reqs;
      var p := reqs[i].prev.value;
      var left := reqs[p].rc - 1;
      reqs := reqs[p := reqs[p].(rc := left)];
      reqs := reqs[i := reqs[i].(link := if left == 0 then ReapPrev else Linked)];
      cown := cown[c := q.(reqs := reqs)];
    }

    /** request_free_inner(prev), whose next is us */
    method FreeDropped(b: Bid)
      requires Valid() && LinkingAt(b, ReapPrev)
      modifies this
      ensures St() == Next(old(St()), DoSchedule(b))
    {
      Site(St(), b, beh[b].sched.at);
      var (c, i) := Here(b);
      var q := cown[c];
      var reqs := q.reqs;
      var p := reqs[i].prev.value;
      beh := beh[b := Unref(beh[b], c)];
      reqs := reqs[p := reqs[p].(frees := reqs[p].frees + 1)];
      reqs := reqs[i := reqs[i].(link := Linked)];
      cown := cown[c := q.(reqs := reqs)];
    }

    /** The next turn of the phase 1 loop, or its end. */
    method NextRequest(b: Bid)
      requires Valid() && LinkingAt(b, Linked)
      modifies this
      ensures St() == Next(old(St()), DoSchedule(b))
    {
      var B := beh[b];
      if B.sched.at + 1 < |B.order| {
        beh := beh[b := B.(sched := Linking(B.sched.at + 1))];
      } else {
        beh := beh[b := B.(sched := Finishing(0), commit := Some(|log|))];
        log := log + [b];
      }
    }

    /** atomic_exchange(&request->scheduled, true) */
    method FinishEnqueue(b: Bid)
      requires Valid() && CanSchedule(St(), b) && beh[b].sched.Finishing?
      modifies this
      ensures St() == Next(old(St()), DoSchedule(b))
    {
      var B := beh[b];
      var k := B.sched.at;
      Site(St(), b, k);
      var c := B.order[k];
      var q, i := cown[c], B.slot[c];
      cown := cown[c := q.(reqs := q.reqs[i := q.reqs[i].(scheduled := true)])];
      beh := beh[b := B.(sched := if k + 1 < |B.order| then Finishing(k + 1) else Finalize)];
    }

    /** The tail of BehaviorCapsule_schedule and of the whencall around it. */
    method EndSchedule(b: Bid)
      requires Valid() && CanSchedule(St(), b) && !beh[b].sched.Linking? && !beh[b].sched.Finishing?
      modifies this
      ensures St() == Next(old(St()), DoSchedule(b))
    {
      var B := beh[b];
      match B.sched {
        case Finalize =>
          var count := B.count - 1;
          B := B.(count := count, sched := DropCapsule);
          if count == 0 { B := B.(sched := AnnounceSelf, run := Claimed(None)); }
        case AnnounceSelf =>
          B := B.(rc := B.rc + 1, sched := EnqueueSelf, run := Counted(None));
        case EnqueueSelf =>
          B := B.(dispatches := B.dispatches + 1, sched := DropCapsule, run := Queued);
        case DropCapsule =>
          B := Drop(B).(sched := Returned);
      }
      beh := beh[b := B];
    }

    /** The thread running `b` stands inside the release of a request. */
    predicate ReleasingHere(b: Bid)
      reads this
    {
      CanRun(St(), b) && beh[b].run.Releasing?
    }

    function RelOf(b: Bid): (r: Rel)
      requires ReleasingHere(b)
      reads this
    {
      ReqOf(St(), b, beh[b].run.at).rel
    }

    function There(b: Bid): (r: (Cown, nat))
      requires ReleasingHere(b)
      reads this
    {
      var c := beh[b].order[beh[b].run.at]; (c, beh[b].slot[c])
    }

    /** next = atomic_load(&request->next) */
    method LoadNext(b: Bid)
      requires Valid() && ReleasingHere(b) && RelOf(b).Held?
      modifies this`cown
      ensures St() == Next(old(St()), DoRun(b))
    {
      Site(St(), b, beh[b].run.at);
      var (c, i) := There(b);
      var q := cown[c];
      var reqs := q.reqs;
      reqs := reqs[i := reqs[i].(rel := if reqs[i].next == None then CasLast else AwaitNext)];
      cown := cown[c := q.(reqs := reqs)];
    }

    /** atomic_compare_exchange(&request->target->last, request, NULL) */
    method CasLastToNull(b: Bid)
      requires Valid() && ReleasingHere(b) && RelOf(b).CasLast?
      modifies this`cown
      ensures St() == Next(old(St()), DoRun(b))
    {
      Site(St(), b, beh[b].run.at);
      var (c, i) := There(b);
      var q := cown[c];
      var reqs := q.reqs;
      if q.last == Some(i) {
        reqs := reqs[i := reqs[i].(rel := DropOwn)];
        cown := cown[c := Queue(reqs, None, q.head + 1)];
      } else {
        reqs := reqs[i := reqs[i].(rel := AwaitNext)];
        cown := cown[c := q.(reqs := reqs)];
      }
    }

    /** the spin on next ends */
    method LoadedNext(b: Bid)
      requires Valid() && ReleasingHere(b) && RelOf(b).AwaitNext?
      modifies this`cown
      ensures St() == Next(old(St()), DoRun(b))
    {
      Site(St(), b, beh[b].run.at);
      var (c, i) := There(b);
      var q := cown[c];
      var reqs := q.reqs;
      reqs := reqs[i := reqs[i].(rel := HandOver(reqs[i].next.value))];
      cown := cown[c := q.(reqs := reqs)];
    }

    /** behavior_resolve_one(next): the count */
    method ResolveNext(b: Bid)
      requires Valid() && ReleasingHere(b) && RelOf(b).HandOver?
      modifies this
      ensures St() == Next(old(St()), DoRun(b))
    {
      Site(St(), b, beh[b].run.at);
      HandsOver(St(), b);
      var (c, i) := There(b);
      var q := cown[c];
      var reqs := q.reqs;
      var n := reqs[i].rel.to;
      var N := beh[n];
      var count := N.count - 1;
      N := N.(count := count, waiting := N.waiting - {c});
      if count == 0 { N := N.(run := Claimed(Some(c))); }
      reqs := reqs[i := reqs[i].(rel := if count == 0 then Announce(n) else DropOwn)];
      beh := beh[n := N];
      cown := cown[c := q.(reqs := reqs, head := q.head + 1)];
    }

    /** behavior_resolve_one(next): BEHAVIOR_INCREF */
    method CountNext(b: Bid)
      requires Valid() && ReleasingHere(b) && RelOf(b).Announce?
      modifies this
      ensures St() == Next(old(St()), DoRun(b))
    {
      Site(St(), b, beh[b].run.at);
      var (c, i) := There(b);
      var q := cown[c];
      var reqs := q.reqs;
      var n := reqs[i].rel.to;
      beh := beh[n := beh[n].(rc := beh[n].rc + 1, run := Counted(Some(c)))];
      reqs := reqs[i := reqs[i].(rel := Enqueue(n))];
      cown := cown[c := q.(reqs := reqs)];
    }

    /** behavior_resolve_one(next): boc_sched_dispatch */
    method DispatchNext(b: Bid)
      requires Valid() && ReleasingHere(b) && RelOf(b).Enqueue?
      modifies this
      ensures St() == Next(old(St()), DoRun(b))
    {
      Site(St(), b, beh[b].run.at);
      var (c, i) := There(b);
      var q := cown[c];
      var reqs := q.reqs;
      var n := reqs[i].rel.to;
      beh := beh[n := beh[n].(dispatches := beh[n].dispatches + 1, run := Queued)];
      reqs := reqs[i := reqs[i].(rel := DropOwn)];
      cown := cown[c := q.(reqs := reqs)];
    }

    /** request_decref(requests[i]) */
    method LeaveOwn(b: Bid)
      requires Valid() && ReleasingHere(b) && RelOf(b).DropOwn?
      modifies this`cown
      ensures St() == Next(old(St()), DoRun(b))
    {
      Site(St(), b, beh[b].run.at);
      var (c, i) := There(b);
      var q := cown[c];
      var reqs := q.reqs;
      var left := reqs[i].rc - 1;
      reqs := reqs[i := reqs[i].(rc := left, rel := if left == 0 then ReapOwn else Gone)];
      cown := cown[c := q.(reqs := reqs)];
    }

    /** request_free_inner(requests[i]) and the BEHAVIOR_DECREF of its next */
    method FreeOwnRequest(b: Bid)
      requires Valid() && ReleasingHere(b) && RelOf(b).ReapOwn?
      modifies this
      ensures St() == Next(old(St()), DoRun(b))
    {
      Site(St(), b, beh[b].run.at);
      var (c, i) := There(b);
      var q := cown[c];
      var reqs := q.reqs;
      if reqs[i].next != None {
        var n := reqs[i].next.value;
        beh := beh[n := Drop(beh[n].(refs := beh[n].refs - {c}))];
      }
      reqs := reqs[i := reqs[i].(frees := reqs[i].frees + 1, rel := Gone)];
      cown := cown[c := q.(reqs := reqs)];
    }

    /** The next turn of the release loop, or its end. */
    method NextOwned(b: Bid)
      requires Valid() && ReleasingHere(b) && RelOf(b).Gone?
      modifies this
      ensures St() == Next(old(St()), DoRun(b))
    {
      var B := beh[b];
      beh := beh[b := B.(run := if B.run.at + 1 < |B.order| then Releasing(B.run.at + 1) else DropHold)];
    }

    /** The other steps of run_behavior: pop, body, terminator_dec, capsule dealloc. */
    method Advance(b: Bid)
      requires Valid() && CanRun(St(), b) && !beh[b].run.Releasing?
      modifies this
      ensures St() == Next(old(St()), DoRun(b))
    {
      var B := beh[b];
      match B.run {
        case Queued => beh := beh[b := B.(run := Running)];
        case Running => beh := beh[b := B.(run := Releasing(0))];
        case DropHold =>
          terminator := terminator - 1;
          beh := beh[b := B.(run := DropRun)];
        case DropRun =>
          beh := beh[b := Drop(B).(run := Finished)];
      }
    }

    /** The next operation of the thread scheduling `b`. */
    method Schedule(b: Bid)
      requires Valid() && CanSchedule(St(), b)
      modifies this
      ensures St() == Next(old(St()), DoSchedule(b)) && Valid()
    {
      ScheduleInv(St(), b);
      if beh[b].sched.Finishing? {
        FinishEnqueue(b);
      } else if !beh[b].sched.Linking? {
        EndSchedule(b);
      } else if beh[b].order[beh[b].sched.at] !in beh[b].slot {
        ExchangeLast(b);
      } else {
        match ReqOf(St(), b, beh[b].sched.at).link {
          case ResolveSelf => ResolveFirst(b);
          case HoldPrev => TakePrev(b);
          case PublishNext => Publish(b);
          case CountSelf => CountLink(b);
          case AwaitPrev => SpinOut(b);
          case DropPrev => LeavePrev(b);
          case ReapPrev => FreeDropped(b);
          case Linked => NextRequest(b);
        }
      }
    }

    /** The next operation of the thread running `b`. */
    method Run(b: Bid)
      requires Valid() && CanRun(St(), b)
      modifies this
      ensures St() == Next(old(St()), DoRun(b)) && Valid()
    {
      RunInv(St(), b);
      if !beh[b].run.Releasing? {
        Advance(b);
      } else {
        match RelOf(b) {
          case Held => LoadNext(b);
          case CasLast => CasLastToNull(b);
          case AwaitNext => LoadedNext(b);
          case HandOver(_) => ResolveNext(b);
          case Announce(_) => CountNext(b);
          case Enqueue(_) => DispatchNext(b);
          case DropOwn => LeaveOwn(b);
          case ReapOwn => FreeOwnRequest(b);
          case Gone => NextOwned(b);
        }
      }
    }

    /** Any interleaving: at each turn the next step of `schedule` is taken if
        its thread can move. */
    method Interleave(schedule: seq<Step>)
      requires Valid()
      modifies this
      ensures Valid()
    {
      for n := 0 to |schedule|
        invariant Valid()
      {
        var t := schedule[n];
        if Enabled(St(), t) {
          match t {
            case DoSpawn(order, caller) => var _ := WhenCall(order, caller);
            case DoSchedule(b) => Schedule(b);
            case DoRun(b) => Run(b);
          }
        }
      }
    }
  }
}
