/** The steps of a running behavior's thread keep the invariant too. */
module CownRelease {
  import opened Wrappers
  import opened RequestQueue
  import opened CownProtocol
  import opened CownInvariant
  import opened CownSteps

  /** `b` is releasing its `k`-th request, which stands at `r`. */
  ghost predicate ReleasingAt(s: State, b: Bid, k: nat) {
    Inv(s) && HasSlot(s, b, k) && s.beh[b].run == Releasing(k)
  }

  function ReqOf(s: State, b: Bid, k: nat): (r: Request)
    requires HasSlot(s, b, k)
  {
    QueueOf(s, s.beh[b].order[k]).reqs[s.beh[b].slot[s.beh[b].order[k]]]
  }

  lemma RelView(B: Behavior, c: Cown, v: View, v': View)
    requires ViewOK(B, c, v) && v.View? && v'.View? && v' == v.(rel := v'.rel)
    requires B.run.Releasing? && B.run.at < |B.order| && c == B.order[B.run.at]
    ensures ViewOK(B, c, v') && Adapts(B, B, c, v')
  {
    assert B.waiting == if Waits(v') then B.waiting + {c} else B.waiting - {c};
    assert B.refs == if v'.ref then B.refs + {c} else B.refs - {c};
  }

  /** A release step that nobody else can see. */
  lemma RelStep(s: State, b: Bid, k: nat, q': Queue)
    requires ReleasingAt(s, b, k)
    requires var c := s.beh[b].order[k]; var q, i := QueueOf(s, c), s.beh[b].slot[c];
      && QueueOK(q') && Private(q, q', i)
      && var v, v' := ViewAt(q, i), ViewAt(q', i); v' == v.(rel := v'.rel)
    ensures Inv(PutQ(s, s.beh[b].order[k], q'))
  {
    var B, c := s.beh[b], s.beh[b].order[k];
    var i := B.slot[c];
    var s' := Both(s, b, B, c, q');
    assert s' == PutQ(s, c, q');
    BothReads(s, b, B, c, q');
    KnownView(s, b, c);
    RelView(B, c, ViewAt(QueueOf(s, c), i), ViewAt(q', i));
    AdaptOwn(s, s', b, c);
    PredCommitted(s, c, i);
    OwnStep(s, b, c, i, q', B);
  }

  /** A releasing behavior has been through both phases and heads its queue
      until it gives the cown up. */
  lemma ReleaseSite(s: State, b: Bid, k: nat)
    requires ReleasingAt(s, b, k)
    ensures var c := s.beh[b].order[k]; var q, i := QueueOf(s, c), s.beh[b].slot[c];
      && QueueOK(q) && NodeOK(q, i) && q.reqs[i].owner == b
      && q.reqs[i].link.Linked? && q.reqs[i].scheduled && i <= q.head
  {
    var c := s.beh[b].order[k];
    Site(s, b, k);
    KnownView(s, b, c);
  }

  lemma FirstLoadStep(s: State, b: Bid, k: nat)
    requires ReleasingAt(s, b, k) && ReqOf(s, b, k).rel.Held?
    ensures var c := s.beh[b].order[k]; var q, i := QueueOf(s, c), s.beh[b].slot[c];
      Inv(PutQ(s, c, FirstLoad(q, i)))
  {
    var c := s.beh[b].order[k];
    var q, i := QueueOf(s, c), s.beh[b].slot[c];
    ReleaseSite(s, b, k);
    FirstLoadOK(q, i);
    RelStep(s, b, k, FirstLoad(q, i));
  }

  lemma CasReleaseStep(s: State, b: Bid, k: nat)
    requires ReleasingAt(s, b, k) && ReqOf(s, b, k).rel.CasLast?
    ensures var c := s.beh[b].order[k]; var q, i := QueueOf(s, c), s.beh[b].slot[c];
      Inv(PutQ(s, c, CasRelease(q, i)))
  {
    var c := s.beh[b].order[k];
    var q, i := QueueOf(s, c), s.beh[b].slot[c];
    ReleaseSite(s, b, k);
    CasReleaseOK(q, i);
    RelStep(s, b, k, CasRelease(q, i));
  }

  lemma AwaitNextStep(s: State, b: Bid, k: nat)
    requires ReleasingAt(s, b, k) && ReqOf(s, b, k).rel.AwaitNext? && ReqOf(s, b, k).next.Some?
    ensures var c := s.beh[b].order[k]; var q, i := QueueOf(s, c), s.beh[b].slot[c];
      Inv(PutQ(s, c, Turn(q, i, HandOver(q.reqs[i].next.value))))
  {
    var c := s.beh[b].order[k];
    var q, i := QueueOf(s, c), s.beh[b].slot[c];
    ReleaseSite(s, b, k);
    AwaitNextOK(q, i);
    RelStep(s, b, k, Turn(q, i, HandOver(q.reqs[i].next.value)));
  }

  lemma DropOwnRefStep(s: State, b: Bid, k: nat)
    requires ReleasingAt(s, b, k) && ReqOf(s, b, k).rel.DropOwn?
    ensures var c := s.beh[b].order[k]; var q, i := QueueOf(s, c), s.beh[b].slot[c];
      Inv(PutQ(s, c, DropOwnRef(q, i)))
  {
    var c := s.beh[b].order[k];
    var q, i := QueueOf(s, c), s.beh[b].slot[c];
    ReleaseSite(s, b, k);
    DropOwnRefOK(q, i);
    RelStep(s, b, k, DropOwnRef(q, i));
  }

  lemma FreeLastStep(s: State, b: Bid, k: nat)
    requires ReleasingAt(s, b, k) && ReqOf(s, b, k).rel.ReapOwn? && ReqOf(s, b, k).next.None?
    ensures var c := s.beh[b].order[k]; var q, i := QueueOf(s, c), s.beh[b].slot[c];
      Inv(PutQ(s, c, FreeOwn(q, i)))
  {
    var c := s.beh[b].order[k];
    var q, i := QueueOf(s, c), s.beh[b].slot[c];
    ReleaseSite(s, b, k);
    FreeOwnOK(q, i);
    RelStep(s, b, k, FreeOwn(q, i));
  }

  // --------------------------------------------------- steps that reach the successor

  lemma NextNode(q: Queue, i: nat)
    requires QueueOK(q) && i < |q.reqs| && q.reqs[i].next.Some?
    ensures i + 1 < |q.reqs| && q.reqs[i].next == Some(q.reqs[i+1].owner)
    ensures q.reqs[i+1].prev == Some(i) && Published(q.reqs[i+1].link) && NodeOK(q, i + 1)
  {
    assert NodeOK(q, i);
    PrevIsBefore(q, i + 1);
  }

  /** The behavior in `next` is the one queued right behind. */
  lemma NextSite(s: State, b: Bid, k: nat)
    requires ReleasingAt(s, b, k) && ReqOf(s, b, k).next.Some?
    ensures var c := s.beh[b].order[k]; var q, i := QueueOf(s, c), s.beh[b].slot[c]; var n := q.reqs[i].next.value;
      && i + 1 < |q.reqs| && q.reqs[i+1].owner == n && q.reqs[i+1].prev == Some(i) && Published(q.reqs[i+1].link)
      && NodeOK(q, i + 1) && n < |s.beh| && n != b
      && c in s.beh[n].keys && c in s.beh[n].slot && s.beh[n].slot[c] == i + 1
      && BehaviorOK(s, n) && ViewOK(s.beh[n], c, ViewAt(q, i + 1))
  {
    var c := s.beh[b].order[k];
    var q, i := QueueOf(s, c), s.beh[b].slot[c];
    ReleaseSite(s, b, k);
    NextNode(q, i);
    assert OwnedOK(s, c, i) && OwnedOK(s, c, i + 1);
    KnownView(s, q.reqs[i+1].owner, c);
  }

  /** Nobody but the owners of requests `i` and `i + 1` can tell `q` and `q'` apart. */
  ghost predicate PairPrivate(q: Queue, q': Queue, i: nat) {
    && KeepsOthers(q, q', i) && i + 1 < |q.reqs|
    && (q'.head == q.head || (q.head == i && q'.head == i + 1))
  }

  lemma PairViews(q: Queue, q': Queue, i: nat, j: nat)
    requires PairPrivate(q, q', i) && j < |q.reqs| && j != i && j != i + 1
    ensures ViewAt(q', j) == ViewAt(q, j)
  {
  }

  lemma PairQuiet(s: State, s': State, b: Bid, n: Bid, c: Cown, i: nat)
    requires b < |s.beh| == |s'.beh| && n < |s.beh| && s'.beh == s.beh[n := s'.beh[n]] && s'.log == s.log
    requires i + 1 < |QueueOf(s, c).reqs|
    requires QueueOf(s, c).reqs[i].owner == b && QueueOf(s, c).reqs[i+1].owner == n
    requires forall d :: d != c ==> QueueOf(s', d) == QueueOf(s, d)
    requires PairPrivate(QueueOf(s, c), QueueOf(s', c), i)
    ensures Quiet(s, s', c, {b, n})
  {
    var q, q' := QueueOf(s, c), QueueOf(s', c);
    forall j | 0 <= j < |q.reqs| && q.reqs[j].owner !in {b, n} ensures ViewAt(q', j) == ViewAt(q, j) {
      PairViews(q, q', i, j);
    }
  }

  lemma PairEnd(s: State, b: Bid, n: Bid, c: Cown, i: nat, q': Queue, N': Behavior)
    requires Inv(s) && b < |s.beh| && n < |s.beh| && i + 1 < |QueueOf(s, c).reqs|
    requires QueueOf(s, c).reqs[i].owner == b && QueueOf(s, c).reqs[i+1].owner == n
    requires QueueOK(q') && PairPrivate(QueueOf(s, c), q', i) && q'.reqs[i].link == QueueOf(s, c).reqs[i].link
    requires Passed(q'.reqs[i].link)
    requires N'.slot == s.beh[n].slot && N'.commit == s.beh[n].commit && (Quit(N'.run) <==> Quit(s.beh[n].run))
    requires BehaviorOK(Both(s, n, N', c, q'), b) && BehaviorOK(Both(s, n, N', c, q'), n)
    ensures Inv(Both(s, n, N', c, q'))
  {
    var s' := Both(s, n, N', c, q');
    BothReads(s, n, N', c, q');
    PairQuiet(s, s', b, n, c, i);
    HoldsUpdate(s.beh, n, N');
    PredCommitted(s, c, i);
    Assemble(s, s', c, {b, n}, i);
  }

  /** A release step that also changes the successor `n` into `N'`. */
  lemma PairStep(s: State, b: Bid, k: nat, n: Bid, q': Queue, N': Behavior)
    requires ReleasingAt(s, b, k) && ReqOf(s, b, k).next == Some(n) && n < |s.beh|
    requires var c := s.beh[b].order[k]; var q, i := QueueOf(s, c), s.beh[b].slot[c];
      && QueueOK(q') && PairPrivate(q, q', i) && q'.reqs[i].link == q.reqs[i].link
      && var v, v' := ViewAt(q, i), ViewAt(q', i); v' == v.(rel := v'.rel)
    requires var c := s.beh[b].order[k]; var i := s.beh[b].slot[c];
      && i + 1 < |q'.reqs| && Adapts(s.beh[n], N', c, ViewAt(q', i + 1)) && ViewOK(N', c, ViewAt(q', i + 1))
    requires ScalarsOK(N') && (Quit(N'.run) <==> Quit(s.beh[n].run))
    ensures Inv(Put(PutQ(s, s.beh[b].order[k], q'), n, N'))
  {
    var c := s.beh[b].order[k];
    var s' := Both(s, n, N', c, q');
    NextSite(s, b, k);
    BothReads(s, n, N', c, q');
    AdaptOwn(s, s', n, c);
    PairOwner(s, s', b, k);
    PairEnd(s, b, n, c, s.beh[b].slot[c], q', N');
  }

  lemma PairOwner(s: State, s': State, b: Bid, k: nat)
    requires ReleasingAt(s, b, k) && b < |s'.beh| && s'.beh[b] == s.beh[b] && s'.log == s.log
    requires var c := s.beh[b].order[k]; var q, q', i := QueueOf(s, c), QueueOf(s', c), s.beh[b].slot[c];
      && i < |q'.reqs| && q'.reqs[i].owner == q.reqs[i].owner
      && var v, v' := ViewAt(q, i), ViewAt(q', i); v' == v.(rel := v'.rel)
    requires forall d :: d != s.beh[b].order[k] ==> QueueOf(s', d) == QueueOf(s, d)
    ensures BehaviorOK(s', b)
    ensures ReqOf(s, b, k).link.Linked? && ReqOf(s, b, k).owner == b
  {
    var B, c := s.beh[b], s.beh[b].order[k];
    ReleaseSite(s, b, k);
    KnownView(s, b, c);
    RelView(B, c, ViewAt(QueueOf(s, c), B.slot[c]), ViewAt(QueueOf(s', c), B.slot[c]));
    AdaptOwn(s, s', b, c);
  }

  lemma GrantedScalars(N: Behavior, c: Cown)
    requires ScalarsOK(N) && c in N.waiting && c in N.keys
    ensures ScalarsOK(Granted(N, c)) && N.run.Waiting?
  {
    assert |N.waiting - {c}| == |N.waiting| - 1;
  }

  lemma HandOverView(N: Behavior, c: Cown, v: View, v': View)
    requires N.run.Waiting? && c in N.waiting && ViewOK(N, c, v) && v.View? && v'.View?
    requires v.ahead && !v.ann && !v.enq && !v.link.ResolveSelf?
    requires v' == v.(ahead := false, ann := N.count == 1)
    ensures ViewOK(Granted(N, c), c, v') && Adapts(N, Granted(N, c), c, v')
  {
    assert N.refs == if v'.ref then N.refs + {c} else N.refs - {c};
  }

  lemma HandOverViews(q: Queue, i: nat, hitZero: bool)
    requires QueueOK(q) && i + 1 < |q.reqs| && i == q.head && q.reqs[i].rel.HandOver? && q.reqs[i+1].prev.Some?
    requires q.reqs[i].rel.to == q.reqs[i+1].owner
    ensures var q' := PassOn(q, i, hitZero); var v, v' := ViewAt(q, i + 1), ViewAt(q', i + 1);
      && PairPrivate(q, q', i) && v.ahead && !v.ann && !v.enq && !v.link.ResolveSelf?
      && v' == v.(ahead := false, ann := hitZero)
      && ViewAt(q', i) == ViewAt(q, i).(rel := q'.reqs[i].rel)
  {
    PrevIsBefore(q, i + 1);
  }

  lemma HandOverStep(s: State, b: Bid, k: nat)
    requires ReleasingAt(s, b, k) && ReqOf(s, b, k).rel.HandOver? && ReqOf(s, b, k).rel.to < |s.beh|
    ensures var c := s.beh[b].order[k]; var q, i := QueueOf(s, c), s.beh[b].slot[c];
      var n := q.reqs[i].rel.to; var N := s.beh[n];
      Inv(Put(PutQ(s, c, PassOn(q, i, N.count == 1)), n,
          Granted(N, c)))
  {
    var c := s.beh[b].order[k];
    var q, i := QueueOf(s, c), s.beh[b].slot[c];
    var n := q.reqs[i].rel.to;
    var N := s.beh[n];
    ReleaseSite(s, b, k);
    NextSite(s, b, k);
    PassOnOK(q, i, N.count == 1);
    HandOverViews(q, i, N.count == 1);
    GrantedScalars(N, c);
    HandOverView(N, c, ViewAt(q, i + 1), ViewAt(PassOn(q, i, N.count == 1), i + 1));
    PairStep(s, b, k, n, PassOn(q, i, N.count == 1), Granted(N, c));
  }

  lemma AnnounceView(N: Behavior, c: Cown, v: View, v': View)
    requires ScalarsOK(N) && ViewOK(N, c, v) && v.View? && v'.View? && v.ann && !v.enq && v.ref
    requires v' == v.(ann := false, enq := true)
    ensures var N' := N.(rc := N.rc + 1, run := Counted(Some(c)));
      ScalarsOK(N') && ViewOK(N', c, v') && Adapts(N, N', c, v')
  {
    assert N.waiting == if Waits(v') then N.waiting + {c} else N.waiting - {c};
    assert N.refs == if v'.ref then N.refs + {c} else N.refs - {c};
    assert c in N.refs && |N.refs| > 0;
  }

  lemma AnnounceStep(s: State, b: Bid, k: nat)
    requires ReleasingAt(s, b, k) && ReqOf(s, b, k).rel.Announce? && ReqOf(s, b, k).rel.to < |s.beh|
    ensures var c := s.beh[b].order[k]; var q, i := QueueOf(s, c), s.beh[b].slot[c];
      var n := q.reqs[i].rel.to; var N := s.beh[n];
      Inv(Put(PutQ(s, c, Turn(q, i, Enqueue(n))), n, N.(rc := N.rc + 1, run := Counted(Some(c)))))
  {
    var c := s.beh[b].order[k];
    var q, i := QueueOf(s, c), s.beh[b].slot[c];
    var n := q.reqs[i].rel.to;
    var N, q' := s.beh[n], Turn(q, i, Enqueue(n));
    ReleaseSite(s, b, k);
    NextSite(s, b, k);
    AnnounceOK(q, i);
    AnnounceView(N, c, ViewAt(q, i + 1), ViewAt(q', i + 1));
    PairStep(s, b, k, n, q', N.(rc := N.rc + 1, run := Counted(Some(c))));
  }

  lemma EnqueueView(N: Behavior, c: Cown, v: View, v': View)
    requires ScalarsOK(N) && ViewOK(N, c, v) && v.View? && v'.View? && v.enq && !v.ann
    requires v' == v.(enq := false)
    ensures var N' := N.(dispatches := N.dispatches + 1, run := Queued);
      ScalarsOK(N') && ViewOK(N', c, v') && Adapts(N, N', c, v')
  {
    assert N.waiting == if Waits(v') then N.waiting + {c} else N.waiting - {c};
    assert N.refs == if v'.ref then N.refs + {c} else N.refs - {c};
  }

  lemma EnqueueStep(s: State, b: Bid, k: nat)
    requires ReleasingAt(s, b, k) && ReqOf(s, b, k).rel.Enqueue? && ReqOf(s, b, k).rel.to < |s.beh|
    ensures var c := s.beh[b].order[k]; var q, i := QueueOf(s, c), s.beh[b].slot[c];
      var n := q.reqs[i].rel.to; var N := s.beh[n];
      Inv(Put(PutQ(s, c, Turn(q, i, DropOwn)), n, N.(dispatches := N.dispatches + 1, run := Queued)))
  {
    var c := s.beh[b].order[k];
    var q, i := QueueOf(s, c), s.beh[b].slot[c];
    var n := q.reqs[i].rel.to;
    var N, q' := s.beh[n], Turn(q, i, DropOwn);
    ReleaseSite(s, b, k);
    NextSite(s, b, k);
    EnqueueOK(q, i);
    EnqueueView(N, c, ViewAt(q, i + 1), ViewAt(q', i + 1));
    PairStep(s, b, k, n, q', N.(dispatches := N.dispatches + 1, run := Queued));
  }

  lemma FreeOwnView(N: Behavior, c: Cown, v: View, v': View)
    requires ScalarsOK(N) && ViewOK(N, c, v) && v.View? && v'.View? && v.ref
    requires v' == v.(ref := false)
    ensures var N' := Unref(N, c); ScalarsOK(N') && ViewOK(N', c, v') && Adapts(N, N', c, v')
  {
    assert N.waiting == if Waits(v') then N.waiting + {c} else N.waiting - {c};
  }

  lemma FreeOwnViews(q: Queue, i: nat)
    requires QueueOK(q) && i + 1 < |q.reqs| && q.reqs[i].rel.ReapOwn? && q.reqs[i+1].prev.Some?
    ensures var q' := FreeOwn(q, i); var v, v' := ViewAt(q, i + 1), ViewAt(q', i + 1);
      && PairPrivate(q, q', i) && v.ref && v' == v.(ref := false)
      && ViewAt(q', i) == ViewAt(q, i).(rel := Gone)
  {
    PrevIsBefore(q, i + 1);
  }

  lemma FreeOwnStep(s: State, b: Bid, k: nat)
    requires ReleasingAt(s, b, k) && ReqOf(s, b, k).rel.ReapOwn?
    requires ReqOf(s, b, k).next.Some? && ReqOf(s, b, k).next.value < |s.beh|
    ensures var c := s.beh[b].order[k]; var q, i := QueueOf(s, c), s.beh[b].slot[c];
      var n := q.reqs[i].next.value;
      Inv(Put(PutQ(s, c, FreeOwn(q, i)), n, Unref(s.beh[n], c)))
  {
    var c := s.beh[b].order[k];
    var q, i := QueueOf(s, c), s.beh[b].slot[c];
    var n := q.reqs[i].next.value;
    ReleaseSite(s, b, k);
    NextSite(s, b, k);
    FreeOwnOK(q, i);
    FreeOwnViews(q, i);
    FreeOwnView(s.beh[n], c, ViewAt(q, i + 1), ViewAt(FreeOwn(q, i), i + 1));
    PairStep(s, b, k, n, FreeOwn(q, i), Unref(s.beh[n], c));
  }

  // ------------------------------------------------------------ the run itself

  lemma RunViews(s: State, b: Bid, B': Behavior)
    requires Inv(s) && b < |s.beh|
    requires var B := s.beh[b];
      && B' == B.(run := B'.run, rc := B'.rc, frees := B'.frees)
      && ((B.run.Queued? && B'.run.Running?) || (B.run.Running? && B'.run == Releasing(0))
          || (B.run.DropHold? && B'.run.DropRun?) || (B.run.DropRun? && B'.run.Finished?))
    ensures BehaviorOK(s, b) && KeysOK(B')
    ensures forall d :: d in B'.keys ==> ViewOK(B', d, ViewOf(s, b, d))
  {
    var B := s.beh[b];
    assert BehaviorOK(s, b);
    assert B.waiting == {};
    forall d | d in B'.keys ensures ViewOK(B', d, ViewOf(s, b, d)) {
      assert CownOK(s, b, d);
      KeyOrder(B, 0, d);
    }
  }

  lemma RunAloneStep(s: State, b: Bid)
    requires Inv(s) && CanRun(s, b) && !s.beh[b].run.Releasing?
    ensures Inv(RunStep(s, b))
  {
    var s' := RunStep(s, b);
    RunViews(s, b, s'.beh[b]);
    ScalarStep(s, b, s'.beh[b], s'.terminator);
    assert s' == Put(s, b, s'.beh[b]).(terminator := s'.terminator);
  }

  lemma NextReleaseStep(s: State, b: Bid, k: nat)
    requires ReleasingAt(s, b, k) && ReqOf(s, b, k).rel.Gone?
    ensures Inv(NextRelease(s, b, k))
  {
    var B := s.beh[b];
    var s' := NextRelease(s, b, k);
    assert BehaviorOK(s, b);
    forall d | d in B.keys ensures ViewOK(s'.beh[b], d, ViewOf(s, b, d)) {
      KeyOrder(B, k, d);
      assert CownOK(s, b, d);
    }
    ScalarStep(s, b, s'.beh[b], s.terminator);
    assert s' == Put(s, b, s'.beh[b]).(terminator := s.terminator);
  }

  lemma ReleaseAloneInv(s: State, b: Bid, k: nat)
    requires ReleasingAt(s, b, k) && CanRelease(s, b, k)
    requires var r := ReqOf(s, b, k); r.rel.Held? || r.rel.CasLast? || r.rel.AwaitNext? || r.rel.DropOwn?
    ensures Inv(ReleaseStep(s, b, k))
  {
    match ReqOf(s, b, k).rel
    case Held => FirstLoadStep(s, b, k);
    case CasLast => CasReleaseStep(s, b, k);
    case AwaitNext => AwaitNextStep(s, b, k);
    case DropOwn => DropOwnRefStep(s, b, k);
  }

  lemma ReapInv(s: State, b: Bid, k: nat)
    requires ReleasingAt(s, b, k) && CanRelease(s, b, k) && ReqOf(s, b, k).rel.ReapOwn?
    ensures Inv(ReleaseStep(s, b, k))
  {
    if ReqOf(s, b, k).next.None? { FreeLastStep(s, b, k); } else { FreeOwnStep(s, b, k); }
  }

  lemma GrantInv(s: State, b: Bid, k: nat)
    requires ReleasingAt(s, b, k) && CanRelease(s, b, k) && ReqOf(s, b, k).rel.HandOver?
    ensures Inv(ReleaseStep(s, b, k))
  {
    HandOverStep(s, b, k);
  }

  lemma AnnounceInv(s: State, b: Bid, k: nat)
    requires ReleasingAt(s, b, k) && CanRelease(s, b, k) && ReqOf(s, b, k).rel.Announce?
    ensures Inv(ReleaseStep(s, b, k))
  {
    AnnounceStep(s, b, k);
  }

  lemma EnqueueInv(s: State, b: Bid, k: nat)
    requires ReleasingAt(s, b, k) && CanRelease(s, b, k) && ReqOf(s, b, k).rel.Enqueue?
    ensures Inv(ReleaseStep(s, b, k))
  {
    EnqueueStep(s, b, k);
  }

  lemma ReleaseInv(s: State, b: Bid, k: nat)
    requires ReleasingAt(s, b, k) && CanRelease(s, b, k)
    ensures Inv(ReleaseStep(s, b, k))
  {
    match ReqOf(s, b, k).rel
    case ReapOwn => ReapInv(s, b, k);
    case Gone => NextReleaseStep(s, b, k);
    case HandOver(n) => GrantInv(s, b, k);
    case Announce(n) => AnnounceInv(s, b, k);
    case Enqueue(n) => EnqueueInv(s, b, k);
    case _ => ReleaseAloneInv(s, b, k);
  }

  /** Every step of a running thread keeps the invariant. */
  lemma RunInv(s: State, b: Bid)
    requires Inv(s) && CanRun(s, b)
    ensures Inv(RunStep(s, b))
  {
    if s.beh[b].run.Releasing? { ReleaseInv(s, b, s.beh[b].run.at); } else { RunAloneStep(s, b); }
  }
}
