/** Which part of the state a step can change: at most one queue, in it the
    position of at most one request, and at most one behavior record. */
module CownShape {
  import opened Wrappers
  import opened RequestQueue
  import opened CownProtocol
  import opened CownInvariant
  import opened CownSteps

  /** Only queue `c` and behavior `x` differ; in the queue, only request `i` moved. */
  ghost predicate Shape(s: State, s': State, c: Cown, i: nat, x: Bid) {
    && x < |s.beh| == |s'.beh| && s'.beh == s.beh[x := s'.beh[x]]
    && s'.beh[x].order == s.beh[x].order && s'.beh[x].slot == s.beh[x].slot
    && (forall d :: d != c ==> QueueOf(s', d) == QueueOf(s, d))
    && KeepsOthers(QueueOf(s, c), QueueOf(s', c), i)
  }

  lemma QueueShape(s: State, b: Bid, k: nat)
    requires CanLink(s, b, k) && s.beh[b].order[k] in s.beh[b].slot
    requires var r := QueueOf(s, s.beh[b].order[k]).reqs[s.beh[b].slot[s.beh[b].order[k]]];
      r.prev.Some? ==> s.beh[b].slot[s.beh[b].order[k]] > 0 && r.prev.value == s.beh[b].slot[s.beh[b].order[k]] - 1
    ensures var c := s.beh[b].order[k];
      Shape(s, LinkStep(s, b, k), c, s.beh[b].slot[c], b) && QueueOf(LinkStep(s, b, k), c).head == QueueOf(s, c).head
  {
    var c := s.beh[b].order[k];
    var q, i := QueueOf(s, c), s.beh[b].slot[c];
    match q.reqs[i].link {
      case HoldPrev => assert QueueOf(LinkStep(s, b, k), c) == HoldPrevRef(q, i);
      case PublishNext => assert QueueOf(LinkStep(s, b, k), c) == StoreNext(q, i);
      case DropPrev => assert QueueOf(LinkStep(s, b, k), c) == DropPrevRef(q, i);
      case ReapPrev => assert QueueOf(LinkStep(s, b, k), c) == FreePrev(q, i);
      case Linked => assert LinkStep(s, b, k).cown == s.cown;
      case l => assert QueueOf(LinkStep(s, b, k), c) == Move(q, i, QueueOf(LinkStep(s, b, k), c).reqs[i].link);
    }
  }

  lemma ReleaseShape(s: State, b: Bid, k: nat) returns (x: Bid)
    requires CanRelease(s, b, k)
    ensures var c := s.beh[b].order[k]; Shape(s, ReleaseStep(s, b, k), c, s.beh[b].slot[c], x)
    ensures x != b ==> ReleaseStep(s, b, k).beh[x].sched == s.beh[x].sched
  {
    var c := s.beh[b].order[k];
    var r := QueueOf(s, c).reqs[s.beh[b].slot[c]];
    x := match r.rel
         case HandOver(n) => n
         case Announce(n) => n
         case Enqueue(n) => n
         case ReapOwn => if r.next.Some? then r.next.value else b
         case _ => b;
  }
}
