/** Every atomic step of the scheduling protocol keeps its invariant. */
module CownSteps {
  import opened Wrappers
  import opened RequestQueue
  import opened CownProtocol
  import opened CownInvariant

  /** What is known of the request `b` works on at position `k`. */
  lemma Site(s: State, b: Bid, k: nat)
    requires Inv(s) && b < |s.beh| && k < |s.beh[b].order| && s.beh[b].order[k] in s.beh[b].slot
    ensures HasSlot(s, b, k)
    ensures var c := s.beh[b].order[k]; var q := QueueOf(s, c); var i := s.beh[b].slot[c];
      && c in s.cown && QueueOK(q) && NodeOK(q, i) && q.reqs[i].owner == b
      && (q.reqs[i].prev.Some? ==> HasPrev(q, i) && i > 0 && q.reqs[i].prev == Some(i - 1))
  {
    var c := s.beh[b].order[k];
    var q := QueueOf(s, c);
    assert BehaviorOK(s, b) && c in s.beh[b].order && CownOK(s, b, c);
    if q.reqs[s.beh[b].slot[c]].prev.Some? { PrevIsBefore(q, s.beh[b].slot[c]); }
  }

  /** A behavior's bookkeeping after its view of one cown changed. */
  ghost predicate Adapts(B: Behavior, B': Behavior, c: Cown, v: View) {
    && B' == B.(run := B'.run, count := B'.count, rc := B'.rc, frees := B'.frees, dispatches := B'.dispatches,
                waiting := if Waits(v) then B.waiting + {c} else B.waiting - {c},
                refs := if v.View? && v.ref then B.refs + {c} else B.refs - {c})
    && (B'.run == B.run || (Starts(B.run, c) && Starts(B'.run, c)))
  }

  /** The states a grant on `c` leads through. */
  predicate Starts(r: Run, c: Cown) {
    match r
    case Waiting => true
    case Claimed(d) => d == Some(c)
    case Counted(d) => d == Some(c)
    case Queued => true
    case _ => false
  }

  lemma AdaptOther(B: Behavior, B': Behavior, c: Cown, v: View, d: Cown, w: View)
    requires Adapts(B, B', c, v) && d != c && ViewOK(B, d, w)
    ensures ViewOK(B', d, w)
  {
  }

  lemma Adapt(s: State, s': State, b: Bid, c: Cown)
    requires b < |s.beh| && b < |s'.beh| && BehaviorOK(s, b) && c in s.beh[b].keys
    requires forall d :: d != c ==> QueueOf(s', d) == QueueOf(s, d)
    requires Adapts(s.beh[b], s'.beh[b], c, ViewOf(s', b, c))
    requires SlotOK(s', b, c) && ViewOK(s'.beh[b], c, ViewOf(s', b, c))
    requires ScalarsOK(s'.beh[b]) && CommitOK(s'.beh[b], s'.log, b)
    ensures BehaviorOK(s', b)
  {
    var B, B' := s.beh[b], s'.beh[b];
    forall d | d in B'.keys ensures CownOK(s', b, d) {
      assert CownOK(s, b, d);
      if d != c { AdaptOther(B, B', c, ViewOf(s', b, c), d, ViewOf(s, b, d)); }
    }
  }

  /** The fields other behaviors look at, in requests other than `i`. */
  ghost predicate KeepsOthers(q: Queue, q': Queue, i: nat) {
    && |q'.reqs| == |q.reqs| && i < |q.reqs|
    && (forall j :: 0 <= j < |q.reqs| ==>
          var r, r' := q.reqs[j], q'.reqs[j];
          && r'.owner == r.owner && r'.prev == r.prev
          && (j != i ==> r'.link == r.link && r'.rel == r.rel && r'.scheduled == r.scheduled)
          && (j + 1 != i && j != i ==> r'.frees == r.frees))
  }

  function Both(s: State, b: Bid, B: Behavior, c: Cown, q: Queue): (s': State)
    requires b < |s.beh|
  {
    Put(PutQ(s, c, q), b, B)
  }

  predicate Quit(r: Run) { r.DropRun? || r.Finished? }

  lemma BothReads(s: State, b: Bid, B: Behavior, c: Cown, q: Queue)
    requires b < |s.beh|
    ensures var s' := Both(s, b, B, c, q);
      && QueueOf(s', c) == q && (forall d :: d != c ==> QueueOf(s', d) == QueueOf(s, d))
      && s'.beh == s.beh[b := B] && s'.log == s.log && s'.terminator == s.terminator
      && (forall d :: d in s'.cown ==> d == c || d in s.cown)
  {
  }

  predicate SameGrant(a: Rel, b: Rel) {
    a == b || (!a.Announce? && !a.Enqueue? && !b.Announce? && !b.Enqueue?)
  }

  /** Nobody but the owner of request `i` can tell `q` and `q'` apart. */
  ghost predicate Private(q: Queue, q': Queue, i: nat) {
    && KeepsOthers(q, q', i)
    && (q'.head == q.head || q.head + 1 == q'.head == |q.reqs|)
    && SameGrant(q.reqs[i].rel, q'.reqs[i].rel)
    && (q'.reqs[i].frees == q.reqs[i].frees || !Chained(q, i))
  }

  lemma KeepsViews(q: Queue, q': Queue, i: nat, j: nat)
    requires Private(q, q', i) && j < |q.reqs| && j != i
    ensures ViewAt(q', j) == ViewAt(q, j)
  {
  }

  lemma QuietOwn(s: State, s': State, b: Bid, c: Cown, i: nat)
    requires b < |s.beh| && i < |QueueOf(s, c).reqs| && QueueOf(s, c).reqs[i].owner == b
    requires b < |s'.beh| && s'.beh == s.beh[b := s'.beh[b]] && s'.log == s.log
    requires forall d :: d != c ==> QueueOf(s', d) == QueueOf(s, d)
    requires Private(QueueOf(s, c), QueueOf(s', c), i)
    ensures Quiet(s, s', c, {b})
  {
    var q, q' := QueueOf(s, c), QueueOf(s', c);
    forall j | 0 <= j < |q.reqs| && q.reqs[j].owner !in {b} ensures ViewAt(q', j) == ViewAt(q, j) {
      KeepsViews(q, q', i, j);
    }
  }

  lemma AdaptOwn(s: State, s': State, b: Bid, c: Cown)
    requires b < |s.beh| && b < |s'.beh| && BehaviorOK(s, b) && c in s.beh[b].slot
    requires s.beh[b].slot[c] < |QueueOf(s', c).reqs| && QueueOf(s', c).reqs[s.beh[b].slot[c]].owner == b
    requires forall d :: d != c ==> QueueOf(s', d) == QueueOf(s, d)
    requires var v := ViewAt(QueueOf(s', c), s.beh[b].slot[c]);
      Adapts(s.beh[b], s'.beh[b], c, v) && ViewOK(s'.beh[b], c, v)
    requires ScalarsOK(s'.beh[b]) && s'.log == s.log
    ensures BehaviorOK(s', b)
  {
    Adapt(s, s', b, c);
  }

  /** A step inside the request of `b` on cown `c` that no one else can see. */
  lemma OwnStep(s: State, b: Bid, c: Cown, i: nat, q': Queue, B': Behavior)
    requires Inv(s) && b < |s.beh| && i < |QueueOf(s, c).reqs| && QueueOf(s, c).reqs[i].owner == b
    requires QueueOK(q')
    requires var q := QueueOf(s, c);
      && Private(q, q', i)
      && (i > 0 && Passed(q'.reqs[i].link) ==>
            q.reqs[i-1].owner < |s.beh| && s.beh[q.reqs[i-1].owner].commit.Some?)
    requires B'.slot == s.beh[b].slot && B'.commit == s.beh[b].commit
    requires BehaviorOK(Both(s, b, B', c, q'), b) && (Quit(B'.run) <==> Quit(s.beh[b].run))
    ensures Inv(Both(s, b, B', c, q'))
  {
    var s' := Both(s, b, B', c, q');
    BothReads(s, b, B', c, q');
    HoldsUpdate(s.beh, b, B');
    QuietOwn(s, s', b, c, i);
    Assemble(s, s', c, {b}, i);
  }

  lemma LinkView(B: Behavior, c: Cown, v: View, v': View)
    requires ViewOK(B, c, v) && v.View? && v'.View? && v' == v.(link := v'.link) && Waits(v) == Waits(v')
    requires B.sched.Linking? && B.sched.at < |B.order| && c == B.order[B.sched.at]
    ensures ViewOK(B, c, v') && Adapts(B, B, c, v')
  {
    assert B.waiting == if Waits(v') then B.waiting + {c} else B.waiting - {c};
    assert B.refs == if v'.ref then B.refs + {c} else B.refs - {c};
  }

  lemma KnownView(s: State, b: Bid, c: Cown)
    requires Inv(s) && b < |s.beh| && c in s.beh[b].slot
    ensures BehaviorOK(s, b) && c in s.beh[b].keys && ScalarsOK(s.beh[b])
    ensures s.beh[b].slot[c] < |QueueOf(s, c).reqs| && QueueOf(s, c).reqs[s.beh[b].slot[c]].owner == b
    ensures ViewOK(s.beh[b], c, ViewAt(QueueOf(s, c), s.beh[b].slot[c]))
  {
    assert BehaviorOK(s, b);
    assert c in s.beh[b].keys;
    assert CownOK(s, b, c);
  }

  /** A step that only moves the link position of `b` on cown `c`, seen from `b`. */
  lemma MoveStep(s: State, b: Bid, k: nat, q': Queue)
    requires Inv(s) && HasSlot(s, b, k) && s.beh[b].sched == Linking(k)
    requires var c := s.beh[b].order[k]; var q, i := QueueOf(s, c), s.beh[b].slot[c];
      && QueueOK(q') && Private(q, q', i)
      && (i > 0 && Passed(q'.reqs[i].link) ==>
            q.reqs[i-1].owner < |s.beh| && s.beh[q.reqs[i-1].owner].commit.Some?)
      && var v, v' := ViewAt(q, i), ViewAt(q', i);
         v' == v.(link := v'.link) && Waits(v) == Waits(v')
    ensures Inv(PutQ(s, s.beh[b].order[k], q'))
  {
    var B, c := s.beh[b], s.beh[b].order[k];
    var i := B.slot[c];
    var s' := Both(s, b, B, c, q');
    assert s' == PutQ(s, c, q');
    BothReads(s, b, B, c, q');
    KnownView(s, b, c);
    LinkView(B, c, ViewAt(QueueOf(s, c), i), ViewAt(q', i));
    AdaptOwn(s, s', b, c);
    OwnStep(s, b, c, i, q', B);
  }

  lemma PredCommitted(s: State, c: Cown, i: nat)
    requires Inv(s) && i < |QueueOf(s, c).reqs| && Passed(QueueOf(s, c).reqs[i].link)
    ensures i > 0 ==> var p := QueueOf(s, c).reqs[i-1].owner; p < |s.beh| && s.beh[p].commit.Some?
  {
    if i > 0 { assert OrderOK(s, c, i); }
  }

  lemma HoldPrevStep(s: State, b: Bid, k: nat)
    requires Inv(s) && HasSlot(s, b, k) && s.beh[b].sched == Linking(k)
    requires QueueOf(s, s.beh[b].order[k]).reqs[s.beh[b].slot[s.beh[b].order[k]]].link.HoldPrev?
    ensures HasPrev(QueueOf(s, s.beh[b].order[k]), s.beh[b].slot[s.beh[b].order[k]])
    ensures Inv(PutQ(s, s.beh[b].order[k], HoldPrevRef(QueueOf(s, s.beh[b].order[k]), s.beh[b].slot[s.beh[b].order[k]])))
  {
    var c := s.beh[b].order[k];
    Site(s, b, k);
    HoldPrevRefOK(QueueOf(s, c), s.beh[b].slot[c]);
    MoveStep(s, b, k, HoldPrevRef(QueueOf(s, c), s.beh[b].slot[c]));
  }

  lemma PublishNextStep(s: State, b: Bid, k: nat)
    requires Inv(s) && HasSlot(s, b, k) && s.beh[b].sched == Linking(k)
    requires QueueOf(s, s.beh[b].order[k]).reqs[s.beh[b].slot[s.beh[b].order[k]]].link.PublishNext?
    ensures HasPrev(QueueOf(s, s.beh[b].order[k]), s.beh[b].slot[s.beh[b].order[k]])
    ensures Inv(PutQ(s, s.beh[b].order[k], StoreNext(QueueOf(s, s.beh[b].order[k]), s.beh[b].slot[s.beh[b].order[k]])))
  {
    var c := s.beh[b].order[k];
    Site(s, b, k);
    StoreNextOK(QueueOf(s, c), s.beh[b].slot[c]);
    MoveStep(s, b, k, StoreNext(QueueOf(s, c), s.beh[b].slot[c]));
  }

  lemma DropPrevStep(s: State, b: Bid, k: nat)
    requires Inv(s) && HasSlot(s, b, k) && s.beh[b].sched == Linking(k)
    requires QueueOf(s, s.beh[b].order[k]).reqs[s.beh[b].slot[s.beh[b].order[k]]].link.DropPrev?
    ensures HasPrev(QueueOf(s, s.beh[b].order[k]), s.beh[b].slot[s.beh[b].order[k]])
    ensures Inv(PutQ(s, s.beh[b].order[k], DropPrevRef(QueueOf(s, s.beh[b].order[k]), s.beh[b].slot[s.beh[b].order[k]])))
  {
    var c := s.beh[b].order[k];
    Site(s, b, k);
    DropPrevRefOK(QueueOf(s, c), s.beh[b].slot[c]);
    PredCommitted(s, c, s.beh[b].slot[c]);
    MoveStep(s, b, k, DropPrevRef(QueueOf(s, c), s.beh[b].slot[c]));
  }

  lemma ScheduledCommitted(s: State, c: Cown, i: nat)
    requires Inv(s) && i < |QueueOf(s, c).reqs| && QueueOf(s, c).reqs[i].scheduled
    ensures var p := QueueOf(s, c).reqs[i].owner; p < |s.beh| && s.beh[p].commit.Some?
  {
    assert OwnedOK(s, c, i);
    KnownView(s, QueueOf(s, c).reqs[i].owner, c);
  }

  lemma AwaitPrevStep(s: State, b: Bid, k: nat)
    requires Inv(s) && HasSlot(s, b, k) && s.beh[b].sched == Linking(k)
    requires var q, i := QueueOf(s, s.beh[b].order[k]), s.beh[b].slot[s.beh[b].order[k]];
      q.reqs[i].link.AwaitPrev? && HasPrev(q, i) && q.reqs[q.reqs[i].prev.value].scheduled
    ensures Inv(PutQ(s, s.beh[b].order[k], Move(QueueOf(s, s.beh[b].order[k]), s.beh[b].slot[s.beh[b].order[k]], DropPrev)))
  {
    var c := s.beh[b].order[k];
    var q, i := QueueOf(s, c), s.beh[b].slot[c];
    Site(s, b, k);
    AwaitPrevOK(q, i);
    ScheduledCommitted(s, c, i - 1);
    MoveStep(s, b, k, Move(q, i, DropPrev));
  }

  /** A step of `b` inside its request on cown `c` that also counts something. */
  lemma CountStep(s: State, b: Bid, k: nat, q': Queue, B': Behavior)
    requires Inv(s) && HasSlot(s, b, k)
    requires var c := s.beh[b].order[k]; var q, i := QueueOf(s, c), s.beh[b].slot[c];
      && QueueOK(q') && Private(q, q', i)
      && (i > 0 && Passed(q'.reqs[i].link) ==>
            q.reqs[i-1].owner < |s.beh| && s.beh[q.reqs[i-1].owner].commit.Some?)
      && Adapts(s.beh[b], B', c, ViewAt(q', i)) && ViewOK(B', c, ViewAt(q', i))
    requires ScalarsOK(B') && (Quit(B'.run) <==> Quit(s.beh[b].run))
    ensures Inv(Put(PutQ(s, s.beh[b].order[k], q'), b, B'))
  {
    var c := s.beh[b].order[k];
    BothReads(s, b, B', c, q');
    Site(s, b, k);
    KnownView(s, b, c);
    AdaptOwn(s, Both(s, b, B', c, q'), b, c);
    OwnStep(s, b, c, s.beh[b].slot[c], q', B');
  }

  lemma ResolveSelfView(B: Behavior, c: Cown, v: View, v': View)
    requires ScalarsOK(B) && ViewOK(B, c, v) && v.View? && v.link.ResolveSelf? && !v.ahead
    requires v' == v.(link := Linked) && !v'.ref
    requires B.sched.Linking? && B.sched.at < |B.order| && c == B.order[B.sched.at]
    ensures var B' := B.(count := B.count - 1, waiting := B.waiting - {c});
      ScalarsOK(B') && ViewOK(B', c, v') && Adapts(B, B', c, v')
  {
    assert B.refs - {c} == B.refs;
  }

  lemma ResolveSelfStep(s: State, b: Bid, k: nat)
    requires Inv(s) && HasSlot(s, b, k) && s.beh[b].sched == Linking(k)
    requires QueueOf(s, s.beh[b].order[k]).reqs[s.beh[b].slot[s.beh[b].order[k]]].link.ResolveSelf?
    ensures var B, c := s.beh[b], s.beh[b].order[k];
      Inv(Put(PutQ(s, c, Move(QueueOf(s, c), B.slot[c], Linked)), b, B.(count := B.count - 1, waiting := B.waiting - {c})))
  {
    var B, c := s.beh[b], s.beh[b].order[k];
    var q, i := QueueOf(s, c), B.slot[c];
    Site(s, b, k);
    ResolveSelfOK(q, i);
    PredCommitted(s, c, i);
    KnownView(s, b, c);
    var q' := Move(q, i, Linked);
    ResolveSelfView(B, c, ViewAt(q, i), ViewAt(q', i));
    CountStep(s, b, k, q', B.(count := B.count - 1, waiting := B.waiting - {c}));
  }

  lemma CountSelfView(B: Behavior, c: Cown, v: View, v': View)
    requires ScalarsOK(B) && ViewOK(B, c, v) && v.View? && v.link.CountSelf? && !v.ref
    requires v' == v.(link := AwaitPrev, ref := true)
    requires B.sched.Linking? && B.sched.at < |B.order| && c == B.order[B.sched.at]
    ensures var B' := B.(rc := B.rc + 1, refs := B.refs + {c});
      ScalarsOK(B') && ViewOK(B', c, v') && Adapts(B, B', c, v')
  {
    assert B.waiting == if Waits(v') then B.waiting + {c} else B.waiting - {c};
  }

  lemma CountSelfViews(q: Queue, i: nat)
    requires QueueOK(q) && i < |q.reqs| && q.reqs[i].prev.Some? && q.reqs[i].link.CountSelf?
    ensures var v, v' := ViewAt(q, i), ViewAt(Move(q, i, AwaitPrev), i);
      v.View? && v'.View? && v' == v.(link := AwaitPrev, ref := true) && !v.ref
  {
    PrevIsBefore(q, i);
    assert SuccessorRef(q, i - 1);
  }

  lemma CountSelfStep(s: State, b: Bid, k: nat)
    requires Inv(s) && HasSlot(s, b, k) && s.beh[b].sched == Linking(k)
    requires QueueOf(s, s.beh[b].order[k]).reqs[s.beh[b].slot[s.beh[b].order[k]]].link.CountSelf?
    ensures var B, c := s.beh[b], s.beh[b].order[k];
      Inv(Put(PutQ(s, c, Move(QueueOf(s, c), B.slot[c], AwaitPrev)), b, B.(rc := B.rc + 1, refs := B.refs + {c})))
  {
    var B, c := s.beh[b], s.beh[b].order[k];
    var q, i := QueueOf(s, c), B.slot[c];
    Site(s, b, k);
    CountSelfOK(q, i);
    CountSelfViews(q, i);
    KnownView(s, b, c);
    var q' := Move(q, i, AwaitPrev);
    CountSelfView(B, c, ViewAt(q, i), ViewAt(q', i));
    CountStep(s, b, k, q', B.(rc := B.rc + 1, refs := B.refs + {c}));
  }

  lemma ReapPrevView(B: Behavior, c: Cown, v: View, v': View)
    requires ScalarsOK(B) && ViewOK(B, c, v) && v.View? && v.link.ReapPrev? && v.ref
    requires v' == v.(link := Linked, ref := false)
    requires B.sched.Linking? && B.sched.at < |B.order| && c == B.order[B.sched.at]
    ensures var B' := Unref(B, c);
      ScalarsOK(B') && ViewOK(B', c, v') && Adapts(B, B', c, v')
  {
    assert B.waiting == if Waits(v') then B.waiting + {c} else B.waiting - {c};
  }

  lemma ReapPrevStep(s: State, b: Bid, k: nat)
    requires Inv(s) && HasSlot(s, b, k) && s.beh[b].sched == Linking(k)
    requires QueueOf(s, s.beh[b].order[k]).reqs[s.beh[b].slot[s.beh[b].order[k]]].link.ReapPrev?
    ensures HasPrev(QueueOf(s, s.beh[b].order[k]), s.beh[b].slot[s.beh[b].order[k]])
    ensures var B, c := s.beh[b], s.beh[b].order[k];
      Inv(Put(PutQ(s, c, FreePrev(QueueOf(s, c), B.slot[c])), b, Unref(B, c)))
  {
    var B, c := s.beh[b], s.beh[b].order[k];
    var q, i := QueueOf(s, c), B.slot[c];
    Site(s, b, k);
    FreePrevOK(q, i);
    PrevIsBefore(q, i);
    PredCommitted(s, c, i);
    KnownView(s, b, c);
    var q' := FreePrev(q, i);
    ReapPrevView(B, c, ViewAt(q, i), ViewAt(q', i));
    CountStep(s, b, k, q', Unref(B, c));
  }

  // ------------------------------------------------- the exchange and the loop

  lemma ReleasedCommitted(s: State, c: Cown, i: nat)
    requires Inv(s) && i < |QueueOf(s, c).reqs| && !QueueOf(s, c).reqs[i].rel.Held?
    ensures var p := QueueOf(s, c).reqs[i].owner; p < |s.beh| && s.beh[p].commit.Some?
  {
    assert OwnedOK(s, c, i);
    KnownView(s, QueueOf(s, c).reqs[i].owner, c);
  }

  lemma ExchangeView(q: Queue, b: Bid)
    requires QueueOK(q)
    ensures var q' := Exchange(q, b); var v := ViewAt(q', |q.reqs|);
      && QueueOK(q') && Waits(v) && v.rel.Held? && !v.scheduled && !v.ref && !v.ann && !v.enq
      && (forall j :: 0 <= j < |q.reqs| ==> ViewAt(q', j) == ViewAt(q, j))
  {
    ExchangeOK(q, b);
    var n := |q.reqs|;
    if n > 0 { assert NodeOK(q, n - 1); }
  }

  lemma ExchangeNodes(s: State, s': State, b: Bid, c: Cown)
    requires Inv(s) && b < |s.beh| && s.beh[b].commit.None? && c !in s.beh[b].slot
    requires QueueOf(s', c) == Exchange(QueueOf(s, c), b) && QueueOK(QueueOf(s, c))
    requires forall d :: d != c ==> QueueOf(s', d) == QueueOf(s, d)
    requires s'.beh == s.beh[b := s.beh[b].(slot := s.beh[b].slot[c := |QueueOf(s, c).reqs|])]
    ensures NodesOK(s')
  {
    var q := QueueOf(s, c);
    var n := |q.reqs|;
    forall d, j | 0 <= j < |QueueOf(s', d).reqs| ensures OwnedOK(s', d, j) {
      if d != c || j < n { assert OwnedOK(s, d, j); }
    }
    forall d, j | 0 < j < |QueueOf(s', d).reqs| ensures OrderOK(s', d, j) {
      if d != c || j < n {
        assert OrderOK(s, d, j);
      } else {
        assert OwnedOK(s, c, n - 1);
        assert NodeOK(q, n - 1);
        if q.last.None? { ReleasedCommitted(s, c, n - 1); }
      }
    }
  }

  lemma ExchangeStep(s: State, b: Bid, k: nat)
    requires Inv(s) && b < |s.beh| && s.beh[b].sched == Linking(k) && k < |s.beh[b].order|
    requires s.beh[b].order[k] !in s.beh[b].slot
    ensures var B, c := s.beh[b], s.beh[b].order[k]; var q := QueueOf(s, c);
      Inv(Put(PutQ(s, c, Exchange(q, b)), b, B.(slot := B.slot[c := |q.reqs|])))
  {
    var B, c := s.beh[b], s.beh[b].order[k];
    var q := QueueOf(s, c);
    var B' := B.(slot := B.slot[c := |q.reqs|]);
    var s' := Both(s, b, B', c, Exchange(q, b));
    BothReads(s, b, B', c, Exchange(q, b));
    assert BehaviorOK(s, b);
    assert QueueOK(q);
    ExchangeView(q, b);
    ExchangeNodes(s, s', b, c);
    ExchangeBehavior(s, s', b, k);
    assert Quiet(s, s', c, {b});
    FrameOthers(s, s', c, {b});
    HoldsUpdate(s.beh, b, B');
    KeepQueues(s, s', c);
  }

  lemma KeepQueues(s: State, s': State, c: Cown)
    requires QueuesOK(s) && QueueOK(QueueOf(s', c))
    requires forall d :: d != c ==> QueueOf(s', d) == QueueOf(s, d)
    requires forall d :: d in s'.cown ==> d == c || d in s.cown
    ensures QueuesOK(s')
  {
    forall d | d in s'.cown ensures QueueOK(s'.cown[d]) {
      if d != c { assert QueueOf(s', d) == s.cown[d]; }
    }
  }

  lemma ExchangeBehavior(s: State, s': State, b: Bid, k: nat)
    requires b < |s.beh| && BehaviorOK(s, b) && s.beh[b].sched == Linking(k) && k < |s.beh[b].order|
    requires var B, c := s.beh[b], s.beh[b].order[k]; var q := QueueOf(s, c);
      && c !in B.slot && QueueOK(q) && QueueOf(s', c) == Exchange(q, b)
      && s'.beh == s.beh[b := B.(slot := B.slot[c := |q.reqs|])] && s'.log == s.log
    requires forall d :: d != s.beh[b].order[k] ==> QueueOf(s', d) == QueueOf(s, d)
    ensures BehaviorOK(s', b)
  {
    var B, B', c := s.beh[b], s'.beh[b], s.beh[b].order[k];
    ExchangeView(QueueOf(s, c), b);
    assert c in B.order && CownOK(s, b, c);
    forall d | d in B'.keys ensures CownOK(s', b, d) {
      assert CownOK(s, b, d);
    }
  }

  lemma SameQueues(s: State, s': State, b: Bid)
    requires b < |s.beh| == |s'.beh| && s'.cown == s.cown && s'.beh == s.beh[b := s'.beh[b]]
    requires s'.beh[b].slot == s.beh[b].slot && s'.beh[b].commit == s.beh[b].commit
    requires NodesOK(s)
    ensures NodesOK(s')
  {
    assert forall d :: QueueOf(s', d) == QueueOf(s, d);
    forall d, j | 0 <= j < |QueueOf(s', d).reqs| ensures OwnedOK(s', d, j) {
      assert OwnedOK(s, d, j);
    }
    forall d, j | 0 < j < |QueueOf(s', d).reqs| ensures OrderOK(s', d, j) {
      assert OrderOK(s, d, j);
    }
  }

  lemma SameSlots(s: State, s': State, b: Bid)
    requires b < |s.beh| && b < |s'.beh| && s'.cown == s.cown && s'.log == s.log && BehaviorOK(s, b)
    requires var B, B' := s.beh[b], s'.beh[b];
      B'.slot == B.slot && B'.commit == B.commit && B'.keys == B.keys && KeysOK(B') && ScalarsOK(B')
    requires forall d :: d in s'.beh[b].keys ==> ViewOK(s'.beh[b], d, ViewOf(s, b, d))
    ensures BehaviorOK(s', b)
  {
    forall d | d in s'.beh[b].keys ensures CownOK(s', b, d) {
      assert CownOK(s, b, d) && QueueOf(s', d) == QueueOf(s, d);
      assert ViewOf(s', b, d) == ViewOf(s, b, d);
    }
  }

  lemma QuietNone(s: State, s': State, b: Bid)
    requires b < |s.beh| == |s'.beh| && s'.cown == s.cown && s'.beh == s.beh[b := s'.beh[b]]
    requires |s.log| <= |s'.log| && s'.log[..|s.log|] == s.log
    ensures Quiet(s, s', 0, {b})
  {
    assert forall d :: QueueOf(s', d) == QueueOf(s, d);
  }

  lemma PutStep(s: State, s': State, b: Bid)
    requires Inv(s) && b < |s.beh| == |s'.beh|
    requires s' == s.(beh := s.beh[b := s'.beh[b]], terminator := s'.terminator)
    requires s'.beh[b].slot == s.beh[b].slot && s'.beh[b].commit == s.beh[b].commit
    requires BehaviorOK(s', b)
    requires s'.terminator == s.terminator - (if Quit(s.beh[b].run) then 0 else 1) + (if Quit(s'.beh[b].run) then 0 else 1)
    ensures Inv(s')
  {
    HoldsUpdate(s.beh, b, s'.beh[b]);
    QuietNone(s, s', b);
    FrameOthers(s, s', 0, {b});
    SameQueues(s, s', b);
  }

  /** A step that touches no queue and leaves commits alone. */
  lemma ScalarStep(s: State, b: Bid, B': Behavior, t: int)
    requires Inv(s) && b < |s.beh|
    requires var B := s.beh[b]; B'.slot == B.slot && B'.commit == B.commit && B'.keys == B.keys && KeysOK(B')
    requires ScalarsOK(B')
    requires forall d :: d in B'.keys ==> ViewOK(B', d, ViewOf(s, b, d))
    requires t == s.terminator - (if Quit(s.beh[b].run) then 0 else 1) + (if Quit(B'.run) then 0 else 1)
    ensures Inv(Put(s, b, B').(terminator := t))
  {
    var s' := Put(s, b, B').(terminator := t);
    SameSlots(s, s', b);
    PutStep(s, s', b);
  }

  lemma KeyOrder(B: Behavior, k: nat, d: Cown)
    requires KeysOK(B) && k < |B.order| && d in B.keys
    ensures k + 1 < |B.order| ==> (d < B.order[k+1] <==> d <= B.order[k])
    ensures k + 1 == |B.order| ==> d <= B.order[k]
    ensures d >= B.order[0]
  {
    assert d in B.order;
    var j :| 0 <= j < |B.order| && B.order[j] == d;
  }

  /** The loop of phase 1 moves to its next request. */
  lemma NextLinkStep(s: State, b: Bid, k: nat)
    requires Inv(s) && HasSlot(s, b, k) && s.beh[b].sched == Linking(k) && k + 1 < |s.beh[b].order|
    requires QueueOf(s, s.beh[b].order[k]).reqs[s.beh[b].slot[s.beh[b].order[k]]].link.Linked?
    ensures Inv(NextLink(s, b, k))
  {
    var B := s.beh[b];
    var B' := B.(sched := Linking(k + 1));
    assert BehaviorOK(s, b);
    forall d | d in B'.keys ensures ViewOK(B', d, ViewOf(s, b, d)) {
      KeyOrder(B, k, d);
      assert CownOK(s, b, d);
    }
    ScalarStep(s, b, B', s.terminator);
    assert NextLink(s, b, k) == Put(s, b, B').(terminator := s.terminator);
  }

  lemma CommitViews(s: State, b: Bid, B': Behavior)
    requires Inv(s) && b < |s.beh| && s.beh[b].sched.Linking?
    requires var B := s.beh[b]; var k := B.sched.at;
      && HasSlot(s, b, k) && k + 1 == |B.order|
      && QueueOf(s, B.order[k]).reqs[B.slot[B.order[k]]].link.Linked?
      && B' == B.(sched := Finishing(0), commit := Some(|s.log|))
    ensures BehaviorOK(s, b) && KeysOK(B') && ScalarsOK(B')
    ensures forall d :: d in B'.keys ==> ViewOK(B', d, ViewOf(s, b, d)) && ViewOf(s, b, d).View? && ViewOf(s, b, d).link.Linked?
  {
    var B := s.beh[b];
    assert BehaviorOK(s, b);
    forall d | d in B'.keys
      ensures ViewOK(B', d, ViewOf(s, b, d)) && ViewOf(s, b, d).View? && ViewOf(s, b, d).link.Linked?
    {
      KeyOrder(B, B.sched.at, d);
      assert CownOK(s, b, d);
    }
  }

  lemma CommitBehavior(s: State, s': State, b: Bid)
    requires b < |s.beh| == |s'.beh| && s'.cown == s.cown && BehaviorOK(s, b)
    requires var B, B' := s.beh[b], s'.beh[b];
      B' == B.(sched := Finishing(0), commit := Some(|s.log|)) && KeysOK(B') && ScalarsOK(B')
    requires s'.log == s.log + [b]
    requires forall d :: d in s'.beh[b].keys ==> ViewOK(s'.beh[b], d, ViewOf(s, b, d))
    ensures BehaviorOK(s', b)
  {
    forall d | d in s'.beh[b].keys ensures CownOK(s', b, d) {
      assert CownOK(s, b, d) && QueueOf(s', d) == QueueOf(s, d);
      assert ViewOf(s', b, d) == ViewOf(s, b, d);
    }
  }

  /** When phase 1 ends, every predecessor has already ended its own. */
  lemma CommitNodes(s: State, s': State, b: Bid)
    requires Inv(s) && b < |s.beh| && s.beh[b].commit.None?
    requires s'.cown == s.cown && s'.beh == s.beh[b := s.beh[b].(sched := Finishing(0), commit := Some(|s.log|))]
    requires forall d :: d in s.beh[b].keys ==> ViewOf(s, b, d).View? && ViewOf(s, b, d).link.Linked?
    ensures NodesOK(s')
  {
    assert forall d :: QueueOf(s', d) == QueueOf(s, d);
    forall d, j | 0 <= j < |QueueOf(s', d).reqs| ensures OwnedOK(s', d, j) {
      assert OwnedOK(s, d, j);
    }
    forall d, j | 0 < j < |QueueOf(s', d).reqs| ensures OrderOK(s', d, j) {
      var q := QueueOf(s, d);
      assert OrderOK(s, d, j) && OwnedOK(s, d, j) && OwnedOK(s, d, j - 1);
      if q.reqs[j].owner == b { KnownView(s, b, d); }
      var p := q.reqs[j-1].owner;
      if s.beh[p].commit.Some? { assert BehaviorOK(s, p); }
    }
  }

  /** Phase 1 of `b` is over: `b` takes its place in the serial order. */
  lemma CommitStep(s: State, b: Bid, k: nat)
    requires Inv(s) && HasSlot(s, b, k) && s.beh[b].sched == Linking(k) && k + 1 == |s.beh[b].order|
    requires QueueOf(s, s.beh[b].order[k]).reqs[s.beh[b].slot[s.beh[b].order[k]]].link.Linked?
    ensures Inv(NextLink(s, b, k))
  {
    var B := s.beh[b];
    var s' := NextLink(s, b, k);
    CommitViews(s, b, s'.beh[b]);
    CommitBehavior(s, s', b);
    CommitNodes(s, s', b);
    CommitLog(s, s', b);
    HoldsUpdate(s.beh, b, s'.beh[b]);
    QuietNone(s, s', b);
    FrameOthers(s, s', 0, {b});
  }

  lemma CommitLog(s: State, s': State, b: Bid)
    requires LogOK(s) && b < |s.beh| && s.beh[b].commit.None?
    requires s'.log == s.log + [b] && s'.beh == s.beh[b := s.beh[b].(sched := Finishing(0), commit := Some(|s.log|))]
    ensures LogOK(s')
  {
  }

  // ----------------------------------------------- phase 2 and the final count

  lemma FinishingView(q: Queue, i: nat)
    requires i < |q.reqs|
    ensures var q' := SetScheduled(q, i); ViewAt(q', i) == View(q.reqs[i].link, q.reqs[i].rel, true, ViewAt(q, i).ahead,
      ViewAt(q, i).ref, ViewAt(q, i).ann, ViewAt(q, i).enq)
    ensures forall j :: 0 <= j < |q.reqs| && j != i ==> ViewAt(SetScheduled(q, i), j) == ViewAt(q, j)
  {
  }

  lemma FinishingSite(s: State, b: Bid, k: nat)
    requires Inv(s) && HasSlot(s, b, k) && s.beh[b].sched == Finishing(k)
    ensures var c := s.beh[b].order[k]; var q, i := QueueOf(s, c), s.beh[b].slot[c];
      && q.reqs[i].owner == b && BehaviorOK(s, b) && QueueOK(SetScheduled(q, i))
      && (i > 0 ==> q.reqs[i-1].owner < |s.beh| && s.beh[q.reqs[i-1].owner].commit.Some?)
  {
    var c := s.beh[b].order[k];
    Site(s, b, k);
    KnownView(s, b, c);
    SetScheduledOK(QueueOf(s, c), s.beh[b].slot[c]);
    PredCommitted(s, c, s.beh[b].slot[c]);
  }

  lemma FinishingStep(s: State, b: Bid, k: nat)
    requires Inv(s) && HasSlot(s, b, k) && s.beh[b].sched == Finishing(k)
    ensures var B, c := s.beh[b], s.beh[b].order[k];
      Inv(Both(s, b, B.(sched := if k + 1 < |B.order| then Finishing(k + 1) else Finalize),
               c, SetScheduled(QueueOf(s, c), B.slot[c])))
  {
    var B, c := s.beh[b], s.beh[b].order[k];
    var q, i := QueueOf(s, c), B.slot[c];
    var B' := B.(sched := if k + 1 < |B.order| then Finishing(k + 1) else Finalize);
    var q' := SetScheduled(q, i);
    var s' := Both(s, b, B', c, q');
    FinishingView(q, i);
    FinishingSite(s, b, k);
    BothReads(s, b, B', c, q');
    FinishingBehavior(s, s', b, k);
    OwnStep(s, b, c, i, q', B');
  }

  lemma FinishingBehavior(s: State, s': State, b: Bid, k: nat)
    requires b < |s.beh| && BehaviorOK(s, b) && HasSlot(s, b, k) && s.beh[b].sched == Finishing(k)
    requires var B, c := s.beh[b], s.beh[b].order[k];
      && s'.beh == s.beh[b := B.(sched := if k + 1 < |B.order| then Finishing(k + 1) else Finalize)] && s'.log == s.log
      && QueueOf(s', c) == SetScheduled(QueueOf(s, c), B.slot[c])
    requires forall d :: d != s.beh[b].order[k] ==> QueueOf(s', d) == QueueOf(s, d)
    ensures BehaviorOK(s', b)
  {
    var B, B', c := s.beh[b], s'.beh[b], s.beh[b].order[k];
    FinishingView(QueueOf(s, c), B.slot[c]);
    forall d | d in B'.keys ensures CownOK(s', b, d) {
      assert CownOK(s, b, d);
      KeyOrder(B, k, d);
      if d != c { assert ViewOf(s', b, d) == ViewOf(s, b, d); }
    }
  }

  lemma TailViews(s: State, b: Bid, B': Behavior)
    requires Inv(s) && b < |s.beh|
    requires var B := s.beh[b];
      && !B.sched.Linking? && !B.sched.Finishing? && !B'.sched.Linking? && !B'.sched.Finishing?
      && B' == B.(sched := B'.sched, run := B'.run, count := B'.count, rc := B'.rc, frees := B'.frees, dispatches := B'.dispatches)
      && (B'.run == B.run || (StartsSelf(B.run) && StartsSelf(B'.run)))
    ensures BehaviorOK(s, b) && KeysOK(B')
    ensures forall d :: d in B'.keys ==> ViewOK(B', d, ViewOf(s, b, d))
  {
    assert BehaviorOK(s, b);
    forall d | d in B'.keys ensures ViewOK(B', d, ViewOf(s, b, d)) {
      assert CownOK(s, b, d);
    }
  }

  /** The states the scheduling thread itself takes a behavior through. */
  predicate StartsSelf(r: Run) { r.Waiting? || r == Claimed(None) || r == Counted(None) || r.Queued? }

  lemma TailStep(s: State, b: Bid)
    requires Inv(s) && b < |s.beh|
    requires var p := s.beh[b].sched; p.Finalize? || p.AnnounceSelf? || p.EnqueueSelf? || p.DropCapsule?
    ensures Inv(ScheduleStep(s, b))
  {
    var s' := ScheduleStep(s, b);
    var B' := s'.beh[b];
    assert BehaviorOK(s, b);
    TailViews(s, b, B');
    ScalarStep(s, b, B', s.terminator);
    assert s' == Put(s, b, B').(terminator := s.terminator);
  }

  lemma LinkInv(s: State, b: Bid, k: nat)
    requires Inv(s) && CanLink(s, b, k) && s.beh[b].sched == Linking(k)
    ensures Inv(LinkStep(s, b, k))
  {
    var B, c := s.beh[b], s.beh[b].order[k];
    if c !in B.slot {
      ExchangeStep(s, b, k);
    } else if QueueOf(s, c).reqs[B.slot[c]].link.Linked? {
      LoopInv(s, b, k);
    } else if AlonePart(QueueOf(s, c).reqs[B.slot[c]].link) {
      LinkAloneInv(s, b, k);
    } else {
      LinkPrevInv(s, b, k);
    }
  }

  predicate AlonePart(l: Link) { l.ResolveSelf? || l.CountSelf? }

  lemma LoopInv(s: State, b: Bid, k: nat)
    requires Inv(s) && HasSlot(s, b, k) && s.beh[b].sched == Linking(k)
    requires QueueOf(s, s.beh[b].order[k]).reqs[s.beh[b].slot[s.beh[b].order[k]]].link.Linked?
    ensures Inv(NextLink(s, b, k))
  {
    if k + 1 < |s.beh[b].order| { NextLinkStep(s, b, k); } else { CommitStep(s, b, k); }
  }

  function AloneLinked(s: State, b: Bid, k: nat): (s': State)
    requires HasSlot(s, b, k)
  {
    var B, c := s.beh[b], s.beh[b].order[k];
    var q, i := QueueOf(s, c), B.slot[c];
    if q.reqs[i].link.ResolveSelf?
    then Put(PutQ(s, c, Move(q, i, Linked)), b, B.(count := B.count - 1, waiting := B.waiting - {c}))
    else Put(PutQ(s, c, Move(q, i, AwaitPrev)), b, B.(rc := B.rc + 1, refs := B.refs + {c}))
  }

  lemma AloneLinks(s: State, b: Bid, k: nat)
    requires CanLink(s, b, k) && HasSlot(s, b, k)
    requires AlonePart(QueueOf(s, s.beh[b].order[k]).reqs[s.beh[b].slot[s.beh[b].order[k]]].link)
    ensures LinkStep(s, b, k) == AloneLinked(s, b, k)
  {
  }

  lemma LinkAloneInv(s: State, b: Bid, k: nat)
    requires Inv(s) && CanLink(s, b, k) && s.beh[b].sched == Linking(k) && HasSlot(s, b, k)
    requires AlonePart(QueueOf(s, s.beh[b].order[k]).reqs[s.beh[b].slot[s.beh[b].order[k]]].link)
    ensures Inv(LinkStep(s, b, k))
  {
    AloneLinks(s, b, k);
    if QueueOf(s, s.beh[b].order[k]).reqs[s.beh[b].slot[s.beh[b].order[k]]].link.ResolveSelf? {
      ResolveSelfStep(s, b, k);
    } else {
      CountSelfStep(s, b, k);
    }
  }

  lemma LinkPrevInv(s: State, b: Bid, k: nat)
    requires Inv(s) && CanLink(s, b, k) && s.beh[b].sched == Linking(k) && HasSlot(s, b, k)
    requires var l := QueueOf(s, s.beh[b].order[k]).reqs[s.beh[b].slot[s.beh[b].order[k]]].link; !AlonePart(l) && !l.Linked?
    ensures Inv(LinkStep(s, b, k))
  {
    match QueueOf(s, s.beh[b].order[k]).reqs[s.beh[b].slot[s.beh[b].order[k]]].link
    case HoldPrev => HoldPrevStep(s, b, k);
    case PublishNext => PublishNextStep(s, b, k);
    case AwaitPrev => AwaitPrevStep(s, b, k);
    case DropPrev => DropPrevStep(s, b, k);
    case ReapPrev => ReapPrevStep(s, b, k);
  }

  /** Every step of a scheduling thread keeps the invariant. */
  lemma ScheduleInv(s: State, b: Bid)
    requires Inv(s) && CanSchedule(s, b)
    ensures Inv(ScheduleStep(s, b))
  {
    match s.beh[b].sched
    case Linking(k) => LinkInv(s, b, k);
    case Finishing(k) => FinishingStep(s, b, k);
    case _ => TailStep(s, b);
  }
}
