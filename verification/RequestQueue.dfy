/** One cown's request queue: the MCS list hanging off `BOCCown.last`.

    `reqs` lists every request ever exchanged into `last`, oldest first, so a
    request's index plays the part of its address.  `head` counts the requests
    that have given the cown up.  Both are history: the protocol itself only
    reads and writes `last` and the fields of a request.  Each request carries
    the program counters of the two threads that work on it: `link` for the
    thread inside `request_start_enqueue_inner`, `rel` for the thread inside
    `request_release_inner` and the `request_decref` that follows it. */
module RequestQueue {
  import opened Wrappers

  type Bid = nat

  datatype Link =
    | ResolveSelf   // `last` was NULL: about to drop one from our own count
    | HoldPrev      // about to take a reference on the predecessor
    | PublishNext   // about to store prev->next
    | CountSelf     // about to BEHAVIOR_INCREF ourselves for prev->next
    | AwaitPrev     // spinning on prev->scheduled
    | DropPrev      // about to request_decref the predecessor
    | ReapPrev      // dropped its last reference: about to free it
    | Linked

  datatype Rel =
    | Held          // not given up; a releasing thread loads next from here
    | CasLast       // loaded NULL: about to CAS `last` from us to NULL
    | AwaitNext     // spinning on next
    | HandOver(to: Bid)   // about to drop one from the successor's count
    | Announce(to: Bid)   // that count hit 0: about to BEHAVIOR_INCREF it
    | Enqueue(to: Bid)    // about to put it on a run queue
    | DropOwn       // about to request_decref our own request
    | ReapOwn       // dropped its last reference: about to free it
    | Gone

  datatype Request = Request(owner: Bid, link: Link, rel: Rel, prev: Option<nat>,
                             next: Option<Bid>, scheduled: bool, rc: int, frees: nat)

  datatype Queue = Queue(reqs: seq<Request>, last: Option<nat>, head: nat)

  const Empty := Queue([], None, 0)

  // ---------------------------------------------------------------- invariant

  predicate Released(r: Request) {
    r.rel.Announce? || r.rel.Enqueue? || r.rel.DropOwn? || r.rel.ReapOwn? || r.rel.Gone?
  }

  predicate Published(l: Link) { !l.HoldPrev? && !l.PublishNext? }

  /** The successor of request `i` got `i` back from its exchange. */
  predicate Chained(q: Queue, i: nat)
    requires i < |q.reqs|
  {
    i + 1 < |q.reqs| && q.reqs[i+1].prev.Some?
  }

  predicate SuccessorRef(q: Queue, i: nat)
    requires i < |q.reqs|
  {
    Chained(q, i) &&
    var l := q.reqs[i+1].link; l.PublishNext? || l.CountSelf? || l.AwaitPrev? || l.DropPrev?
  }

  predicate Reaping(q: Queue, i: nat)
    requires i < |q.reqs|
  {
    q.reqs[i].rel.ReapOwn? || (Chained(q, i) && q.reqs[i+1].link.ReapPrev?)
  }

  predicate PrevOK(q: Queue, i: nat)
    requires i < |q.reqs|
  {
    var r := q.reqs[i];
    match r.prev
    case None => (r.link.ResolveSelf? || r.link.Linked?) && (i > 0 ==> Released(q.reqs[i-1]))
    case Some(p) =>
      && i > 0 && p == i - 1 && !r.link.ResolveSelf?
      && (r.link.DropPrev? || r.link.ReapPrev? || r.link.Linked? ==> q.reqs[i-1].scheduled)
      && (r.link.ReapPrev? ==> q.reqs[i-1].rel.Gone?)
  }

  predicate RelOK(q: Queue, i: nat)
    requires i < |q.reqs|
  {
    var r := q.reqs[i];
    && (Released(r) <==> i < q.head)
    && (r.link.ResolveSelf? || (!r.rel.Held? && !Released(r)) ==> i == q.head)
    && (!r.rel.Held? ==> r.link.Linked? && r.scheduled)
    && (r.rel.AwaitNext? ==> Chained(q, i))
    && (r.rel.HandOver? || r.rel.Announce? || r.rel.Enqueue? ==> r.next == Some(r.rel.to))
    && (Released(r) && Chained(q, i) ==> Published(q.reqs[i+1].link))
    && (r.rel.ReapOwn? ==> !SuccessorRef(q, i))
  }

  predicate FieldsOK(q: Queue, i: nat)
    requires i < |q.reqs|
  {
    var r := q.reqs[i];
    && r.next == (if Chained(q, i) && Published(q.reqs[i+1].link) then Some(q.reqs[i+1].owner) else None)
    && r.rc == (if r.rel.ReapOwn? || r.rel.Gone? then 0 else 1) + (if SuccessorRef(q, i) then 1 else 0)
    && r.frees == (if r.rc == 0 && !Reaping(q, i) then 1 else 0)
  }

  predicate NodeOK(q: Queue, i: nat)
    requires i < |q.reqs|
  {
    PrevOK(q, i) && RelOK(q, i) && FieldsOK(q, i)
  }

  predicate QueueOK(q: Queue) {
    && q.head <= |q.reqs|
    && q.last == (if q.head == |q.reqs| then None else Some(|q.reqs| - 1))
    && forall i :: 0 <= i < |q.reqs| ==> NodeOK(q, i)
  }

  // ---------------------------------------------------------- atomic actions

  function Set(q: Queue, i: nat, r: Request): (q': Queue)
    requires i < |q.reqs|
  {
    q.(reqs := q.reqs[i := r])
  }

  /** prev = exchange(last, request) */
  function Exchange(q: Queue, b: Bid): (q': Queue) {
    var l := if q.last.None? then ResolveSelf else HoldPrev;
    Queue(q.reqs + [Request(b, l, Held, q.last, None, false, 1, 0)], Some(|q.reqs|), q.head)
  }

  function Move(q: Queue, i: nat, l: Link): (q': Queue)
    requires i < |q.reqs|
  {
    Set(q, i, q.reqs[i].(link := l))
  }

  function Turn(q: Queue, i: nat, l: Rel): (q': Queue)
    requires i < |q.reqs|
  {
    Set(q, i, q.reqs[i].(rel := l))
  }

  predicate HasPrev(q: Queue, i: nat) {
    i < |q.reqs| && q.reqs[i].prev.Some? && q.reqs[i].prev.value < |q.reqs| && q.reqs[i].prev.value != i
  }

  /** prev->rc += 1 */
  function HoldPrevRef(q: Queue, i: nat): (q': Queue)
    requires HasPrev(q, i)
  {
    var p := q.reqs[i].prev.value;
    Move(Set(q, p, q.reqs[p].(rc := q.reqs[p].rc + 1)), i, PublishNext)
  }

  /** prev->next = behavior */
  function StoreNext(q: Queue, i: nat): (q': Queue)
    requires HasPrev(q, i)
  {
    var p := q.reqs[i].prev.value;
    Move(Set(q, p, q.reqs[p].(next := Some(q.reqs[i].owner))), i, CountSelf)
  }

  /** prev->rc -= 1, remembering whether this was the last reference */
  function DropPrevRef(q: Queue, i: nat): (q': Queue)
    requires HasPrev(q, i)
  {
    var p := q.reqs[i].prev.value;
    var left := q.reqs[p].rc - 1;
    Move(Set(q, p, q.reqs[p].(rc := left)), i, if left == 0 then ReapPrev else Linked)
  }

  /** free(prev) */
  function FreePrev(q: Queue, i: nat): (q': Queue)
    requires HasPrev(q, i)
  {
    var p := q.reqs[i].prev.value;
    Move(Set(q, p, q.reqs[p].(frees := q.reqs[p].frees + 1)), i, Linked)
  }

  /** scheduled = true */
  function SetScheduled(q: Queue, i: nat): (q': Queue)
    requires i < |q.reqs|
  {
    Set(q, i, q.reqs[i].(scheduled := true))
  }

  /** next = request->next, the first load */
  function FirstLoad(q: Queue, i: nat): (q': Queue)
    requires i < |q.reqs|
  {
    Turn(q, i, if q.reqs[i].next.None? then CasLast else AwaitNext)
  }

  /** CAS(last, request, NULL); success gives the cown up with no successor */
  function CasRelease(q: Queue, i: nat): (q': Queue)
    requires i < |q.reqs|
  {
    if q.last == Some(i) then Turn(q, i, DropOwn).(last := None, head := q.head + 1)
    else Turn(q, i, AwaitNext)
  }

  /** The handoff: `behavior_resolve_one(next)` at this queue. */
  function PassOn(q: Queue, i: nat, hitZero: bool): (q': Queue)
    requires i < |q.reqs| && q.reqs[i].rel.HandOver?
  {
    Turn(q, i, if hitZero then Announce(q.reqs[i].rel.to) else DropOwn).(head := q.head + 1)
  }

  /** request->rc -= 1 for the owner's reference */
  function DropOwnRef(q: Queue, i: nat): (q': Queue)
    requires i < |q.reqs|
  {
    var left := q.reqs[i].rc - 1;
    Set(q, i, q.reqs[i].(rc := left, rel := if left == 0 then ReapOwn else Gone))
  }

  /** free(request) by its owner */
  function FreeOwn(q: Queue, i: nat): (q': Queue)
    requires i < |q.reqs|
  {
    Set(q, i, q.reqs[i].(frees := q.reqs[i].frees + 1, rel := Gone))
  }

  // -------------------------------------------------- preservation, one queue

  lemma ExchangeOK(q: Queue, b: Bid)
    requires QueueOK(q)
    ensures QueueOK(Exchange(q, b))
  {
    var q' := Exchange(q, b);
    var n := |q.reqs|;
    forall j | 0 <= j < |q'.reqs| ensures NodeOK(q', j) {
      if j < n { assert NodeOK(q, j); }
      if n > 0 { assert NodeOK(q, n-1); }
    }
  }

  /** The predecessor of a chained request is the request just before it. */
  lemma PrevIsBefore(q: Queue, i: nat)
    requires QueueOK(q) && i < |q.reqs| && q.reqs[i].prev.Some?
    ensures HasPrev(q, i) && i > 0 && q.reqs[i].prev == Some(i - 1)
    ensures NodeOK(q, i) && NodeOK(q, i - 1)
  {
    assert NodeOK(q, i);
    assert NodeOK(q, i - 1);
  }

  lemma ResolveSelfOK(q: Queue, i: nat)
    requires QueueOK(q) && i < |q.reqs| && q.reqs[i].link.ResolveSelf?
    ensures QueueOK(Move(q, i, Linked))
  {
    var q' := Move(q, i, Linked);
    assert NodeOK(q, i);
    forall j | 0 <= j < |q'.reqs| ensures NodeOK(q', j) {
      assert NodeOK(q, j);
    }
  }

  lemma CountSelfOK(q: Queue, i: nat)
    requires QueueOK(q) && i < |q.reqs| && q.reqs[i].prev.Some? && q.reqs[i].link.CountSelf?
    ensures QueueOK(Move(q, i, AwaitPrev))
  {
    var q' := Move(q, i, AwaitPrev);
    PrevIsBefore(q, i);
    forall j | 0 <= j < |q'.reqs| ensures NodeOK(q', j) {
      assert NodeOK(q, j);
    }
  }

  lemma AwaitPrevOK(q: Queue, i: nat)
    requires QueueOK(q) && i < |q.reqs| && q.reqs[i].prev.Some? && q.reqs[i].link.AwaitPrev? && i > 0 && q.reqs[i-1].scheduled
    ensures QueueOK(Move(q, i, DropPrev))
  {
    var q' := Move(q, i, DropPrev);
    PrevIsBefore(q, i);
    forall j | 0 <= j < |q'.reqs| ensures NodeOK(q', j) {
      assert NodeOK(q, j);
    }
  }

  lemma HoldPrevRefOK(q: Queue, i: nat)
    requires QueueOK(q) && i < |q.reqs| && HasPrev(q, i) && q.reqs[i].link.HoldPrev?
    ensures QueueOK(HoldPrevRef(q, i))
  {
    var q' := HoldPrevRef(q, i);
    PrevIsBefore(q, i);
    forall j | 0 <= j < |q'.reqs| ensures NodeOK(q', j) {
      assert NodeOK(q, j);
    }
  }

  lemma StoreNextOK(q: Queue, i: nat)
    requires QueueOK(q) && i < |q.reqs| && HasPrev(q, i) && q.reqs[i].link.PublishNext?
    ensures QueueOK(StoreNext(q, i))
  {
    var q' := StoreNext(q, i);
    PrevIsBefore(q, i);
    forall j | 0 <= j < |q'.reqs| ensures NodeOK(q', j) {
      assert NodeOK(q, j);
    }
  }

  lemma DropPrevRefOK(q: Queue, i: nat)
    requires QueueOK(q) && i < |q.reqs| && HasPrev(q, i) && q.reqs[i].link.DropPrev?
    ensures QueueOK(DropPrevRef(q, i))
  {
    var q' := DropPrevRef(q, i);
    PrevIsBefore(q, i);
    forall j | 0 <= j < |q'.reqs| ensures NodeOK(q', j) {
      assert NodeOK(q, j);
    }
  }

  lemma FreePrevOK(q: Queue, i: nat)
    requires QueueOK(q) && i < |q.reqs| && HasPrev(q, i) && q.reqs[i].link.ReapPrev?
    ensures QueueOK(FreePrev(q, i))
  {
    var q' := FreePrev(q, i);
    PrevIsBefore(q, i);
    forall j | 0 <= j < |q'.reqs| ensures NodeOK(q', j) {
      assert NodeOK(q, j);
    }
  }

  lemma SetScheduledOK(q: Queue, i: nat)
    requires QueueOK(q) && i < |q.reqs| && q.reqs[i].link.Linked?
    ensures QueueOK(SetScheduled(q, i))
  {
    var q' := SetScheduled(q, i);
    assert NodeOK(q, i);
    forall j | 0 <= j < |q'.reqs| ensures NodeOK(q', j) {
      assert NodeOK(q, j);
    }
  }

  lemma FirstLoadOK(q: Queue, i: nat)
    requires QueueOK(q) && i < |q.reqs| && i == q.head
    requires q.reqs[i].rel.Held? && q.reqs[i].link.Linked? && q.reqs[i].scheduled
    ensures QueueOK(FirstLoad(q, i))
  {
    var q' := FirstLoad(q, i);
    assert NodeOK(q, i) && (i + 1 < |q.reqs| ==> NodeOK(q, i + 1));
    forall j | 0 <= j < |q'.reqs| ensures NodeOK(q', j) {
      assert NodeOK(q, j);
    }
  }

  lemma CasReleaseOK(q: Queue, i: nat)
    requires QueueOK(q) && i < |q.reqs| && q.reqs[i].rel.CasLast?
    ensures QueueOK(CasRelease(q, i))
  {
    var q' := CasRelease(q, i);
    assert NodeOK(q, i) && (i + 1 < |q.reqs| ==> NodeOK(q, i + 1));
    forall j | 0 <= j < |q'.reqs| ensures NodeOK(q', j) {
      assert NodeOK(q, j);
    }
  }

  lemma AwaitNextOK(q: Queue, i: nat)
    requires QueueOK(q) && i < |q.reqs| && q.reqs[i].rel.AwaitNext? && q.reqs[i].next.Some?
    ensures QueueOK(Turn(q, i, HandOver(q.reqs[i].next.value)))
  {
    var q' := Turn(q, i, HandOver(q.reqs[i].next.value));
    assert NodeOK(q, i);
    forall j | 0 <= j < |q'.reqs| ensures NodeOK(q', j) {
      assert NodeOK(q, j);
    }
  }

  lemma PassOnOK(q: Queue, i: nat, hitZero: bool)
    requires QueueOK(q) && i < |q.reqs| && q.reqs[i].rel.HandOver?
    ensures QueueOK(PassOn(q, i, hitZero))
  {
    var q' := PassOn(q, i, hitZero);
    assert NodeOK(q, i);
    forall j | 0 <= j < |q'.reqs| ensures NodeOK(q', j) {
      assert NodeOK(q, j);
    }
  }

  lemma AnnounceOK(q: Queue, i: nat)
    requires QueueOK(q) && i < |q.reqs| && q.reqs[i].rel.Announce?
    ensures QueueOK(Turn(q, i, Enqueue(q.reqs[i].rel.to)))
  {
    var q' := Turn(q, i, Enqueue(q.reqs[i].rel.to));
    assert NodeOK(q, i);
    forall j | 0 <= j < |q'.reqs| ensures NodeOK(q', j) {
      assert NodeOK(q, j);
    }
  }

  lemma EnqueueOK(q: Queue, i: nat)
    requires QueueOK(q) && i < |q.reqs| && q.reqs[i].rel.Enqueue?
    ensures QueueOK(Turn(q, i, DropOwn))
  {
    var q' := Turn(q, i, DropOwn);
    assert NodeOK(q, i);
    forall j | 0 <= j < |q'.reqs| ensures NodeOK(q', j) {
      assert NodeOK(q, j);
    }
  }

  lemma DropOwnRefOK(q: Queue, i: nat)
    requires QueueOK(q) && i < |q.reqs| && q.reqs[i].rel.DropOwn?
    ensures QueueOK(DropOwnRef(q, i))
  {
    var q' := DropOwnRef(q, i);
    assert NodeOK(q, i);
    forall j | 0 <= j < |q'.reqs| ensures NodeOK(q', j) {
      assert NodeOK(q, j);
    }
  }

  lemma FreeOwnOK(q: Queue, i: nat)
    requires QueueOK(q) && i < |q.reqs| && q.reqs[i].rel.ReapOwn?
    ensures QueueOK(FreeOwn(q, i))
  {
    var q' := FreeOwn(q, i);
    assert NodeOK(q, i) && (i + 1 < |q.reqs| ==> NodeOK(q, i + 1));
    forall j | 0 <= j < |q'.reqs| ensures NodeOK(q', j) {
      assert NodeOK(q, j);
    }
  }

}
