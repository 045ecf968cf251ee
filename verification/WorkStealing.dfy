/** A worker: its sub-queues, cursors and batch counter, and the scheduler code it
    runs, with any steps of any other threads between its atomic operations. */
module WorkStealing {
  import opened Wrappers
  import opened BehaviorQueue
  import opened QueueHistory
  import opened QueueRuns
  import opened QueueTheorems
  import opened PinnedRouting
  import opened Scheduler

  const WSQ_N: nat := 4          // BOC_WSQ_N
  const BATCH_SIZE: nat := 100   // BOC_BQ_BATCH_SIZE

  /** Sub-queue `i` of worker `w`. */
  function SubQ(w: Tid, i: nat): (q: Qid) { 1 + w * WSQ_N + i }

  predicate InWsq(q: Qid, w: Tid) { q > 0 && (q - 1) / WSQ_N == w }

  lemma SubQIn(w: Tid, i: nat)
    requires i < WSQ_N
    ensures InWsq(SubQ(w, i), w)
  {
  }

  function PreInc(i: nat): (j: nat) { (i + 1) % WSQ_N }

  // ------------------------------------------------- accounting for a call

  /** What a sequence of enqueues laid down, in order. */
  function Laid(es: seq<Effect>): (ns: seq<Node>) { if es == [] then [] else LaidBy(es[0]) + Laid(es[1..]) }

  function LaidBy(e: Effect): (ns: seq<Node>) { if e.Append? then e.ns else [] }

  predicate AppendsTo(es: seq<Effect>, w: Tid) { forall e :: e in es ==> e.Gap? || (e.Append? && InWsq(e.q, w)) }

  /** A segment is spread node by node: only what is behind a missing link stays together. */
  predicate Spread(es: seq<Effect>) {
    && es != [] && es[|es|-1].Append? && (forall i :: 0 <= i < |es| - 1 ==> es[i].Gap? || (es[i].Append? && |es[i].ns| == 1))
    && var last := es[|es|-1].ns;
       last != [] && (|last| > 1 ==> |es| > 1 && es[|es|-2] == Gap(last[0]))
  }

  lemma {:induction false} LaidAppend(es: seq<Effect>, e: Effect)
    ensures Laid(es + [e]) == Laid(es) + LaidBy(e)
  {
    if es == [] {
      assert es + [e] == [e] && [e][1..] == [];
    } else {
      LaidAppend(es[1..], e);
      assert (es + [e])[0] == es[0] && (es + [e])[1..] == es[1..] + [e];
      Regroup(LaidBy(es[0]), Laid(es[1..]), LaidBy(e));
    }
  }

  lemma HeadLaid(held: seq<Node>, n: Node, es: seq<Effect>)
    requires held != [] && n == held[0] && Laid(es) == held[1..]
    ensures Few(Some(n)) + Laid(es) == held
  {
  }

  lemma Effects(a: seq<Effect>, b: seq<Effect>, c: seq<Effect>)
    ensures (a + b) + c == a + (b + c)
  {
  }

  lemma Regroup(a: seq<Node>, b: seq<Node>, c: seq<Node>)
    ensures a + (b + c) == (a + b) + c
  {
  }

  /** How often an effect puts node `n` into a queue, less how often it takes it out. */
  function Put(e: Effect, n: Node): (k: int) {
    match e
    case Append(_, ns) => Times(n, ns)
    case PushFront(_, m) => Times(n, [m])
    case Pop(_, m) => 0 - Times(n, [m])
    case PopAll(_, ns) => 0 - Times(n, ns)
    case _ => 0
  }

  function Net(es: seq<Effect>, n: Node): (k: int) {
    if es == [] then 0 else Put(es[0], n) + Net(es[1..], n)
  }

  lemma {:induction false} NetAppend(es: seq<Effect>, fs: seq<Effect>, n: Node)
    ensures Net(es + fs, n) == Net(es, n) + Net(fs, n)
  {
    if es == [] {
      assert es + fs == fs;
    } else {
      NetAppend(es[1..], fs, n);
      assert (es + fs)[1..] == es[1..] + fs;
    }
  }

  lemma {:induction false} TimesAppend(n: Node, xs: seq<Node>, ys: seq<Node>)
    ensures Times(n, xs + ys) == Times(n, xs) + Times(n, ys)
  {
    if xs == [] {
      assert xs + ys == ys;
    } else {
      TimesAppend(n, xs[1..], ys);
      assert (xs + ys)[1..] == xs[1..] + ys;
    }
  }

  lemma {:induction false} LaidNet(es: seq<Effect>, w: Tid, n: Node)
    requires AppendsTo(es, w)
    ensures Net(es, n) == Times(n, Laid(es))
  {
    if es != [] {
      assert es[0] in es && forall e :: e in es[1..] ==> e in es;
      LaidNet(es[1..], w, n);
      TimesAppend(n, LaidBy(es[0]), Laid(es[1..]));
    }
  }

  /** One more enqueue, seen after effects `before` + `es`, of the first nodes of `held`. */
  lemma AlsoLaid(before: seq<Effect>, es: seq<Effect>, e: Effect, w: Tid, held: seq<Node>, k: nat)
    requires AppendsTo(es, w) && e.Append? && InWsq(e.q, w) && k <= |held| && e.ns == held[..k]
    ensures AppendsTo(es + [e], w) && before + es + [e] == before + (es + [e])
    ensures Laid(es + [e]) + held[k..] == Laid(es) + held
  {
    LaidAppend(es, e);
    assert held == held[..k] + held[k..];
  }

  /** The effects of a successful steal: a whole sub-queue was taken, and all of
      it but the result was laid down again, in order and spread, on the thief's own
      queues.  Its first node is the result, unless there are others behind it and the
      link to them is not there yet. */
  predicate Stolen(es: seq<Effect>, r: Option<Node>, thief: Tid) {
    && es != [] && es[0].PopAll? && es[0].q > 0 && !InWsq(es[0].q, thief)
    && AppendsTo(es[1..], thief) && Few(r) + Laid(es[1..]) == es[0].ns
    && es[0].ns != [] && Settled(es[1..], es[0].ns, r)
  }

  /** What became of a segment. */
  predicate Settled(es: seq<Effect>, held: seq<Node>, r: Option<Node>)
    requires held != []
  {
    if r.None? then |es| > 1 && es[0] == Gap(held[0]) && Spread(es[1..])
    else r == Some(held[0]) && (if |held| == 1 then es == [] else Spread(es))
  }

  /** Part of a segment has been spread; at the end a gap, or one node, is left. */
  predicate Peeled(es: seq<Effect>, held: seq<Node>, more: bool) {
    && (forall i :: 0 <= i < |es| ==> es[i].Gap? || (es[i].Append? && |es[i].ns| == 1))
    && (!more && |held| > 1 ==> es != [] && es[|es|-1] == Gap(held[0]))
  }

  /** One more turn of the peeling. */
  lemma PeelLaid(before: seq<Effect>, es: seq<Effect>, e: Effect, held: seq<Node>, more: bool, w: Tid)
    requires AppendsTo(es, w) && Peeled(es, held, true) && |held| > 1
    requires if more then e.Append? && InWsq(e.q, w) && e.ns == held[..1] else e == Gap(held[0])
    ensures AppendsTo(es + [e], w) && before + es + [e] == before + (es + [e])
    ensures var rest := if more then held[1..] else held; Laid(es + [e]) + rest == Laid(es) + held && Peeled(es + [e], rest, more)
  {
    if more { AlsoLaid(before, es, e, w, held, 1); } else { GapLaid(before, es, held[0], w); }
  }

  lemma PeeledSpread(es: seq<Effect>, e: Effect)
    requires e.Append? && e.ns != [] && Peeled(es, e.ns, false)
    ensures Spread(es + [e])
  {
  }

  lemma GapLaid(before: seq<Effect>, es: seq<Effect>, n: Node, w: Tid)
    requires AppendsTo(es, w)
    ensures AppendsTo(es + [Gap(n)], w) && before + es + [Gap(n)] == before + (es + [Gap(n)]) && Laid(es + [Gap(n)]) == Laid(es)
  {
    LaidAppend(es, Gap(n));
  }

  lemma GapFirst(n: Node, es: seq<Effect>, w: Tid)
    requires AppendsTo(es, w)
    ensures AppendsTo([Gap(n)] + es, w) && Laid([Gap(n)] + es) == Laid(es) && ([Gap(n)] + es)[1..] == es
  {
  }

  lemma StolenBy(before: seq<Effect>, q: Qid, ns: seq<Node>, es: seq<Effect>, r: Option<Node>, thief: Tid)
    requires q > 0 && !InWsq(q, thief) && AppendsTo(es, thief) && Few(r) + Laid(es) == ns && ns != [] && Settled(es, ns, r)
    ensures Stolen([PopAll(q, ns)] + es, r, thief) && before + [PopAll(q, ns)] + es == before + ([PopAll(q, ns)] + es)
  {
    assert ([PopAll(q, ns)] + es)[1..] == es;
  }

  lemma StolenNet(es: seq<Effect>, r: Option<Node>, thief: Tid, n: Node)
    requires Stolen(es, r, thief)
    ensures Net(es, n) == 0 - Times(n, Few(r))
  {
    LaidNet(es[1..], thief, n);
    TimesAppend(n, Few(r), Laid(es[1..]));
  }

  /** The queues lost exactly the node that was returned. */
  ghost predicate LostOnly(es: seq<Effect>, r: Option<Node>) {
    forall n: Node {:trigger Net(es, n)} :: Net(es, n) == 0 - Times(n, Few(r))
  }

  lemma LostSome(es: seq<Effect>, r: Option<Node>)
    requires LostOnly(es, r) && r.Some?
    ensures es != []
  {
    assert Times(r.value, [r.value]) == 1;
    assert Net(es, r.value) == -1;
  }

  lemma LostThen(es: seq<Effect>, fs: seq<Effect>, r: Option<Node>)
    requires LostOnly(es, None) && LostOnly(fs, r)
    ensures LostOnly(es + fs, r)
  {
    forall n: Node {:trigger Net(es + fs, n)} ensures Net(es + fs, n) == 0 - Times(n, Few(r)) { NetAppend(es, fs, n); }
  }

  lemma LostPop(q: Qid, n: Node)
    ensures LostOnly([Pop(q, n)], Some(n))
  {
    forall x {:trigger Net([Pop(q, n)], x)} ensures Net([Pop(q, n)], x) == 0 - Times(x, [n]) {
      assert [Pop(q, n)][1..] == [];
    }
  }

  lemma StealLoss(es: seq<Effect>, r: Option<Node>, thief: Tid)
    requires (Looks(es) && r.None?) || Stolen(es, r, thief)
    ensures LostOnly(es, r)
  {
    forall n: Node {:trigger Net(es, n)} ensures Net(es, n) == 0 - Times(n, Few(r)) {
      if Looks(es) && r.None? { LooksNet(es, n); } else { StolenNet(es, r, thief, n); }
    }
  }

  // ------------------------------------------------------- looking, in vain or not

  /** Only looks. */
  predicate Looks(es: seq<Effect>) { forall e :: e in es ==> e.Miss? || e.Found? }

  lemma {:induction false} LooksNet(es: seq<Effect>, n: Node)
    requires Looks(es)
    ensures Net(es, n) == 0
  {
    if es != [] {
      assert es[0] in es && forall e :: e in es[1..] ==> e in es;
      LooksNet(es[1..], n);
    }
  }

  /** The worker `k` places on in the ring. */
  function Onward(v: Tid, k: nat, count: nat): (w: Tid)
    requires v < count
    ensures w < count && (k < count ==> w == if v + k < count then v + k else v + k - count)
  {
    if k == 0 then v else Around(Onward(v, k - 1, count), count)
  }

  /** The next worker in the ring. */
  function Around(w: Tid, count: nat): (v: Tid)
    requires w < count
    ensures v < count && v == (w + 1) % count
  {
    if w + 1 < count then w + 1 else 0
  }

  /** The next `k` victims from `v` on. */
  function Victims(v: Tid, k: nat, count: nat): (ws: seq<Tid>)
    requires v < count
  {
    if k == 0 then [] else Victims(v, k - 1, count) + [Onward(v, k - 1, count)]
  }

  /** One attempt for each worker comes to all of them. */
  lemma {:induction false} VictimsAll(v: Tid, k: nat, count: nat, w: Tid)
    requires v < count && w < count && k <= count && (if w >= v then w - v else w + count - v) < k
    ensures w in Victims(v, k, count)
  {
    if (if w >= v then w - v else w + count - v) < k - 1 { VictimsAll(v, k - 1, count, w); }
  }

  /** One attempt to steal from `w`, at its sub-queue `i`. */
  predicate Tried(es: seq<Effect>, r: Option<Node>, w: Tid, i: nat, thief: Tid) {
    if w == thief then es == [] && r.None?
    else (es == [Miss(SubQ(w, i))] && r.None?) || (Stolen(es, r, thief) && es[0].q == SubQ(w, i))
  }

  /** `w` was turned to: there was nothing to take, or what was taken had a gap at once. */
  predicate Turned(es: seq<Effect>, w: Tid, thief: Tid) {
    w == thief || exists e :: e in es && (e.Miss? || e.PopAll?) && InWsq(e.q, w)
  }

  /** All of these were. */
  predicate TurnedTo(es: seq<Effect>, ws: seq<Tid>, thief: Tid) { forall w :: w in ws ==> Turned(es, w, thief) }

  lemma TurnedMore(es: seq<Effect>, fs: seq<Effect>, ws: seq<Tid>, thief: Tid)
    requires TurnedTo(es, ws, thief) || TurnedTo(fs, ws, thief)
    ensures TurnedTo(es + fs, ws, thief)
  {
    forall w | w in ws ensures Turned(es + fs, w, thief) {
      if TurnedTo(es, ws, thief) { TurnedStays(es, fs, w, thief); } else { TurnedStays(fs, es, w, thief); }
    }
  }

  lemma TurnedStays(es: seq<Effect>, fs: seq<Effect>, w: Tid, thief: Tid)
    requires Turned(es, w, thief)
    ensures Turned(es + fs, w, thief) && Turned(fs + es, w, thief)
  {
    if w != thief {
      var e :| e in es && (e.Miss? || e.PopAll?) && InWsq(e.q, w);
      assert e in es + fs && e in fs + es;
    }
  }

  lemma TurnedNext(es: seq<Effect>, fs: seq<Effect>, v: Tid, k: nat, count: nat, thief: Tid)
    requires v < count && TurnedTo(es, Victims(v, k, count), thief) && Turned(fs, Onward(v, k, count), thief)
    ensures TurnedTo(es + fs, Victims(v, k + 1, count), thief)
  {
    TurnedMore(es, fs, Victims(v, k, count), thief);
    TurnedStays(fs, es, Onward(v, k, count), thief);
  }

  lemma TriedLoss(es: seq<Effect>, r: Option<Node>, w: Tid, i: nat, thief: Tid)
    requires Tried(es, r, w, i, thief) && i < WSQ_N
    ensures LostOnly(es, r) && (r.None? ==> Turned(es, w, thief))
  {
    StealLoss(es, r, thief);
    SubQIn(w, i);
    if w != thief { assert es[0] in es; }
  }

  /** `k` misses in a row on worker `w`'s sub-queues, by the cursor, which was at `from`. */
  function Scan(w: Tid, from: nat, k: nat): (es: seq<Effect>) {
    seq(k, i requires 0 <= i => Miss(SubQ(w, (from + 1 + i) % WSQ_N)))
  }

  /** Every sub-queue of `w` was looked at, and there was nothing to take. */
  predicate MissedAll(es: seq<Effect>, w: Tid) { forall i :: 0 <= i < WSQ_N ==> Miss(SubQ(w, i)) in es }

  lemma ScanMisses(w: Tid, from: nat)
    ensures MissedAll(Scan(w, from, WSQ_N), w) && Looks(Scan(w, from, WSQ_N))
  {
    forall i | 0 <= i < WSQ_N ensures Miss(SubQ(w, i)) in Scan(w, from, WSQ_N) {
      var j := (i + WSQ_N - (from + 1) % WSQ_N) % WSQ_N;
      assert Scan(w, from, WSQ_N)[j] == Miss(SubQ(w, (from + 1 + j) % WSQ_N));
    }
  }

  lemma MissedMore(es: seq<Effect>, fs: seq<Effect>, w: Tid)
    ensures MissedAll(es, w) || MissedAll(fs, w) ==> MissedAll(es + fs, w)
  {
  }

  lemma LooksLoss(es: seq<Effect>)
    requires Looks(es)
    ensures LostOnly(es, None)
  {
    forall n: Node {:trigger Net(es, n)} ensures Net(es, n) == 0 - Times(n, Few(None)) { LooksNet(es, n); }
  }

  /** The effects of a dequeue from the worker's own sub-queues. */
  predicate Scanned(es: seq<Effect>, w: Tid, from: nat, r: Option<Node>) {
    if r.None? then es == Scan(w, from, WSQ_N)
    else es != [] && |es| <= WSQ_N && es == Scan(w, from, |es| - 1) + [Pop(SubQ(w, (from + |es|) % WSQ_N), r.value)]
  }

  lemma ScannedLoss(es: seq<Effect>, w: Tid, from: nat, r: Option<Node>)
    requires Scanned(es, w, from, r)
    ensures LostOnly(es, r) && (r.None? ==> MissedAll(es, w))
  {
    if r.None? {
      ScanMisses(w, from);
      LooksLoss(es);
    } else {
      LooksLoss(Scan(w, from, |es| - 1));
      LostPop(SubQ(w, (from + |es|) % WSQ_N), r.value);
      LostThen(Scan(w, from, |es| - 1), [Pop(SubQ(w, (from + |es|) % WSQ_N), r.value)], r);
    }
  }

  lemma ScanMore(w: Tid, from: nat, k: nat, e: Effect)
    requires e == Miss(SubQ(w, (from + 1 + k) % WSQ_N))
    ensures Scan(w, from, k) + [e] == Scan(w, from, k + 1)
  {
  }

  lemma ScanOn(before: seq<Effect>, es: seq<Effect>, e: Effect, w: Tid, from: nat, k: nat, n: Option<Node>)
    requires es == Scan(w, from, k) && k < WSQ_N
    requires var q := SubQ(w, (from + 1 + k) % WSQ_N); e == if n.None? then Miss(q) else Pop(q, n.value)
    ensures before + es + [e] == before + (es + [e])
    ensures if n.None? then es + [e] == Scan(w, from, k + 1) else Scanned(es + [e], w, from, n)
  {
    if n.None? { ScanMore(w, from, k, e); }
  }

  lemma CursorOn(from: nat, k: nat)
    requires from < WSQ_N && k < WSQ_N
    ensures PreInc((from + k) % WSQ_N) == (from + 1 + k) % WSQ_N
  {
  }

  /** What left `pending` and the queues is what was returned; besides, the worker's
      token went back `woken` times. */
  ghost predicate Balanced(es: seq<Effect>, was: Option<Node>, pending: Option<Node>, r: Option<Node>, token: Option<Node>, woken: nat) {
    forall n: Node {:trigger Net(es, n)} ::
      Net(es, n) + Times(n, Few(pending)) + Times(n, Few(r)) == Times(n, Few(was)) + if token == Some(n) then woken else 0
  }

  lemma BalancedThen(es: seq<Effect>, fs: seq<Effect>, p: Option<Node>, token: Option<Node>, woken: nat, r: Option<Node>)
    requires Balanced(es, p, p, None, token, woken) && LostOnly(fs, r)
    ensures Balanced(es + fs, p, p, r, token, woken)
  {
    forall n: Node {:trigger Net(es + fs, n)}
      ensures Net(es + fs, n) + Times(n, Few(p)) + Times(n, Few(r)) == Times(n, Few(p)) + if token == Some(n) then woken else 0
    {
      NetAppend(es, fs, n);
    }
  }

  lemma TokenNet(q: Qid, token: Option<Node>, n: Node)
    ensures Net(if token.Some? then [Append(q, [token.value])] else [], n) == if token == Some(n) then 1 else 0
  {
    if token.Some? {
      var fs := [Append(q, [token.value])];
      assert fs[1..] == [] && [token.value][1..] == [];
      assert Net(fs, n) == Times(n, [token.value]) + Net(fs[1..], n);
    }
  }

  /** ... and then the token is enqueued, if there is one. */
  lemma BalancedToken(es: seq<Effect>, q: Qid, p: Option<Node>, token: Option<Node>, woken: nat, r: Option<Node>)
    requires Balanced(es, p, p, r, token, woken)
    ensures var fs := if token.Some? then [Append(q, [token.value])] else [];
      Balanced(es + fs, p, p, r, token, woken + 1)
  {
    var fs := if token.Some? then [Append(q, [token.value])] else [];
    forall n: Node {:trigger Net(es + fs, n)}
      ensures Net(es + fs, n) + Times(n, Few(p)) + Times(n, Few(r)) == Times(n, Few(p)) + if token == Some(n) then woken + 1 else 0
    {
      NetAppend(es, fs, n);
      TokenNet(q, token, n);
    }
  }

  lemma StolenThenToken(stolen: seq<Effect>, q: Qid, p: Option<Node>, token: Option<Node>, r: Option<Node>)
    requires LostOnly(stolen, r)
    ensures Balanced(stolen + if token.Some? then [Append(q, [token.value])] else [], p, p, r, token, 1)
  {
    assert Balanced([], p, p, None, token, 0);
    assert [] + stolen == stolen;
    BalancedThen([], stolen, p, token, 0, r);
    BalancedToken(stolen, q, p, token, 0, r);
  }

  /** What a fast pop does: after some looks, the front of a queue, or `pending`. */
  lemma FastBalanced(looks: seq<Effect>, es: seq<Effect>, was: Option<Node>, pending: Option<Node>, r: Option<Node>,
                     token: Option<Node>, own: bool)
    requires Looks(looks) && if own then pending == was && LostOnly(es, r) else Looks(es) && r == was && pending.None?
    ensures Balanced(looks + es, was, pending, r, token, 0)
  {
    forall n: Node {:trigger Net(looks + es, n)}
      ensures Net(looks + es, n) + Times(n, Few(pending)) + Times(n, Few(r)) == Times(n, Few(was)) + if token == Some(n) then 0 else 0
    {
      NetAppend(looks, es, n);
      LooksNet(looks, n);
      if own { assert LostOnly(es, r); } else { LooksNet(es, n); }
    }
  }

  lemma AtRest(es: seq<Effect>, p: Option<Node>, token: Option<Node>)
    requires Looks(es)
    ensures Balanced(es, p, p, None, token, 0)
  {
    forall n: Node {:trigger Net(es, n)}
      ensures Net(es, n) + Times(n, Few(p)) + Times(n, Few(None)) == Times(n, Few(p)) + if token == Some(n) then 0 else 0
    {
      LooksNet(es, n);
    }
  }

  /** What left `pending` and the queues is what came out, in all; besides, the
      worker's token went back `woken` times. */
  ghost predicate Accounted(es: seq<Effect>, was: Option<Node>, pending: Option<Node>, out: seq<Node>, token: Option<Node>, woken: nat) {
    forall n: Node {:trigger Net(es, n)} ::
      Net(es, n) + Times(n, Few(pending)) + Times(n, out) == Times(n, Few(was)) + if token == Some(n) then woken else 0
  }

  /** ... and one more pop. */
  lemma AccountedThen(es: seq<Effect>, fs: seq<Effect>, was: Option<Node>, mid: Option<Node>, pending: Option<Node>,
                      out: seq<Node>, r: Option<Node>, token: Option<Node>, woken: nat, again: nat)
    requires Accounted(es, was, mid, out, token, woken) && Balanced(fs, mid, pending, r, token, again)
    ensures Accounted(es + fs, was, pending, out + Few(r), token, woken + again)
  {
    forall n: Node {:trigger Net(es + fs, n)}
      ensures Net(es + fs, n) + Times(n, Few(pending)) + Times(n, out + Few(r))
           == Times(n, Few(was)) + if token == Some(n) then woken + again else 0
    {
      NetAppend(es, fs, n);
      TimesAppend(n, out, Few(r));
    }
  }

  /** What was in `pending` comes out first while the batch lasts; and something does
      unless it has been told to stop. */
  predicate PendingFirst(p: Option<Node>, was: nat, unasked: bool, out: seq<Node>) {
    p.Some? ==> (was > 0 ==> out != [] && out[0] == p.value) && (unasked ==> out != [])
  }

  lemma FirstStays(p: Option<Node>, was: nat, unasked: bool, out: seq<Node>, more: seq<Node>)
    requires if out == [] then PendingFirst(p, was, unasked, more) else PendingFirst(p, was, unasked, out)
    ensures PendingFirst(p, was, unasked, out + more)
  {
  }

  lemma BalancedMore(es: seq<Effect>, fs: seq<Effect>, was: Option<Node>, pending: Option<Node>, token: Option<Node>,
                     woken: nat, again: nat, r: Option<Node>)
    requires Balanced(es, was, was, None, token, woken) && Balanced(fs, was, pending, r, token, again)
    ensures Balanced(es + fs, was, pending, r, token, woken + again)
  {
    forall n: Node {:trigger Net(es + fs, n)}
      ensures Net(es + fs, n) + Times(n, Few(pending)) + Times(n, Few(r))
           == Times(n, Few(was)) + if token == Some(n) then woken + again else 0
    {
      NetAppend(es, fs, n);
    }
  }

  lemma TurnAdds(before: seq<Effect>, es: seq<Effect>, fs: seq<Effect>, was: Option<Node>, pending: Option<Node>,
                 token: Option<Node>, woken: nat, again: nat, r: Option<Node>, w: Tid)
    requires Balanced(es, was, was, None, token, woken) && Balanced(fs, was, pending, r, token, again)
    ensures (before + es) + fs == before + (es + fs) && Balanced(es + fs, was, pending, r, token, woken + again)
    ensures MissedAll(fs, w) ==> MissedAll(es + fs, w)
  {
    BalancedMore(es, fs, was, pending, token, woken, again, r);
    MissedMore(es, fs, w);
  }

  lemma HandedOn(s: State, a: Step)
    requires Inv(s) && Enabled(s, a) && (a.Arm? || a.Deliver?)
    ensures var n := Th(s.m, a.t).hand.value;
      && n in After(s, a).h.home && (a.Deliver? ==> After(s, a).h.home[n] == Runner)
      && OwnOf(After(s, a), a.t) == OwnOf(s, a.t).(th := Th(s.m, a.t).(hand := None))
  {
    assert ThreadOK(s, a.t);
    assert HomeOK(s.h, Hand(a.t));
    HandEmptied(s, a);
  }

  lemma HandEmptied(s: State, a: Step)
    requires Enabled(s, a) && (a.Arm? || a.Deliver?) && Items(s.h, Hand(a.t)) == Few(Th(s.m, a.t).hand) && HomeOK(s.h, Hand(a.t))
    ensures var n := Th(s.m, a.t).hand.value;
      && n in After(s, a).h.home && (a.Deliver? ==> After(s, a).h.home[n] == Runner)
      && OwnOf(After(s, a), a.t) == OwnOf(s, a.t).(th := Th(s.m, a.t).(hand := None))
  {
    assert Items(s.h, Hand(a.t))[0] == Th(s.m, a.t).hand.value;
  }

  class Worker {
    const rq: RunQueues
    const id: Tid
    const count: nat               // WORKER_COUNT
    var dequeueIndex: nat
    var stealIndex: nat
    var victim: Option<Tid>
    var batch: nat
    var stopRequested: bool

    ghost function Mine(): (o: Own)
      reads rq`cell, rq`back, rq`threads, rq`armed, rq`h
    {
      OwnOf(rq.St(), id)
    }

    ghost function Done(): (es: seq<Effect>)
      reads rq`done
    {
      rq.Done(id)
    }

    ghost predicate Able()
      reads this, rq`cell, rq`back, rq`threads, rq`armed, rq`known, rq`giving, rq`h
    {
      && rq.Valid() && id != rq.main && Mine().th.op.Idle? && Mine().flight == []
      && id < count && dequeueIndex < WSQ_N && stealIndex < WSQ_N && (victim.Some? ==> victim.value < count)
    }

    /** ... and it is not dispatching. */
    ghost predicate Ready()
      reads this, rq`cell, rq`back, rq`threads, rq`armed, rq`known, rq`giving, rq`h
    {
      Able() && id !in rq.giving
    }

    /** boc_sched_worker_register, by a thread that holds nothing. */
    constructor (queues: RunQueues, slot: Tid, workers: nat)
      requires queues.Valid() && OwnOf(queues.St(), slot) == Own(Thread(Idle, None, None, None, None), [], []) && slot < workers
      requires slot !in queues.giving && slot != queues.main
      ensures Ready() && rq == queues && id == slot && count == workers && batch == BATCH_SIZE
    {
      rq, id, count := queues, slot, workers;
      dequeueIndex, stealIndex, victim, batch, stopRequested := 0, 0, None, BATCH_SIZE, false;
    }

    /** Loads stop_requested, which another thread may have set since. */
    method StopAsked() returns (stop: bool)
      modifies this`stopRequested
      ensures stop == stopRequested && (old(stopRequested) ==> stopRequested)
    {
      var since: bool := *;
      stop := StopLoad(since);
    }

    /** ... and has, if `since`. */
    method StopLoad(since: bool) returns (stop: bool)
      modifies this`stopRequested
      ensures stop == stopRequested == (old(stopRequested) || since)
    {
      stopRequested := stopRequested || since;
      stop := stopRequested;
    }

    function NextInRing(w: Tid): (v: Tid)
      requires w < count
    {
      Around(w, count)
    }

    /** boc_wsq_enqueue, having loaded `enqueueIndex` from a cursor that all producers
        share without a lock: it may be anything. */
    method WsqEnqueue(w: Tid, enqueueIndex: nat) returns (q: Qid)
      requires Ready() && Mine().th.hand.Some? && enqueueIndex < WSQ_N
      modifies rq`cell, rq`back, rq`threads, rq`armed, rq`known, rq`giving, rq`h, rq`done
      ensures Ready() && q == SubQ(w, PreInc(enqueueIndex)) && InWsq(q, w) && (old(id in rq.armed) ==> id in rq.armed)
      ensures Mine() == old(Mine()).(th := old(Mine()).th.(hand := None))
      ensures Done() == old(Done()) + [Append(q, [old(Mine()).th.hand.value])]
    {
      SubQIn(w, PreInc(enqueueIndex));
      q := SubQ(w, PreInc(enqueueIndex));
      rq.BqEnqueue(id, q);
    }

    /** boc_wsq_dequeue: the cursor goes on to the first sub-queue that yields a node, or
        once around. */
    method WsqDequeue() returns (n: Option<Node>, ghost es: seq<Effect>)
      requires Ready() && Mine().th.hand.None?
      modifies this`dequeueIndex, rq`cell, rq`back, rq`threads, rq`armed, rq`known, rq`giving, rq`h, rq`done
      ensures Ready() && (old(id in rq.armed) ==> id in rq.armed)
      ensures Mine() == old(Mine()).(th := old(Mine()).th.(hand := n))
      ensures Done() == old(Done()) + es && Scanned(es, id, old(dequeueIndex), n)
      ensures dequeueIndex == (old(dequeueIndex) + |es|) % WSQ_N
      ensures LostOnly(es, n) && (n.None? ==> MissedAll(es, id))
    {
      n, es := DequeueScan();
      ScannedLoss(es, id, old(dequeueIndex), n);
    }

    /** One sub-queue after the other, from the cursor on. */
    method DequeueScan() returns (n: Option<Node>, ghost es: seq<Effect>)
      requires Ready() && Mine().th.hand.None?
      modifies this`dequeueIndex, rq`cell, rq`back, rq`threads, rq`armed, rq`known, rq`giving, rq`h, rq`done
      ensures Ready() && (old(id in rq.armed) ==> id in rq.armed)
      ensures Mine() == old(Mine()).(th := old(Mine()).th.(hand := n))
      ensures Done() == old(Done()) + es && Scanned(es, id, old(dequeueIndex), n)
      ensures dequeueIndex == (old(dequeueIndex) + |es|) % WSQ_N
    {
      n, es := None, [];
      ghost var from := dequeueIndex;
      for i := 0 to WSQ_N
        invariant Ready() && (old(id in rq.armed) ==> id in rq.armed) && n.None?
        invariant Mine() == old(Mine()) && Done() == old(Done()) + es
        invariant es == Scan(id, from, i) && dequeueIndex == (from + i) % WSQ_N
      {
        ghost var e;
        CursorOn(from, i);
        n, e := DequeueNext();
        ScanOn(old(Done()), es, e, id, from, i, n);
        es := es + [e];
        if n.Some? { break; }
      }
    }

    /** One sub-queue: the cursor goes on first. */
    method DequeueNext() returns (n: Option<Node>, ghost e: Effect)
      requires Ready() && Mine().th.hand.None?
      modifies this`dequeueIndex, rq`cell, rq`back, rq`threads, rq`armed, rq`known, rq`giving, rq`h, rq`done
      ensures Ready() && (old(id in rq.armed) ==> id in rq.armed) && dequeueIndex == PreInc(old(dequeueIndex))
      ensures Mine() == old(Mine()).(th := old(Mine()).th.(hand := n)) && Done() == old(Done()) + [e]
      ensures e == if n.None? then Miss(SubQ(id, dequeueIndex)) else Pop(SubQ(id, dequeueIndex), n.value)
    {
      dequeueIndex := PreInc(dequeueIndex);
      SubQIn(id, dequeueIndex);
      n := rq.BqDequeue(id, SubQ(id, dequeueIndex));
      e := if n.None? then Miss(SubQ(id, dequeueIndex)) else Pop(SubQ(id, dequeueIndex), n.value);
    }

    /** boc_wsq_enqueue_spread: the whole segment ends up on our own sub-queues, in
        order; what cannot be peeled off, because a link is missing, goes onto one
        of them as a segment. */
    method EnqueueSpread() returns (ghost es: seq<Effect>)
      requires Ready() && Mine().th.hand.None? && Mine().th.seg.Some? && Mine().held != []
      modifies rq`cell, rq`back, rq`threads, rq`armed, rq`known, rq`giving, rq`h, rq`done
      ensures Ready() && (old(id in rq.armed) ==> id in rq.armed)
      ensures Mine() == old(Mine()).(th := old(Mine()).th.(seg := None), held := [])
      ensures Done() == old(Done()) + es && AppendsTo(es, id) && Laid(es) == old(Mine()).held && Spread(es)
    {
      es := PeelAll();
      ghost var e := EnqueueRest();
      AlsoLaid(old(Done()), es, e, id, e.ns, |e.ns|);
      PeeledSpread(es, e);
      es := es + [e];
    }

    /** Node by node, until one is left or a link is missing. */
    method PeelAll() returns (ghost es: seq<Effect>)
      requires Ready() && Mine().th.hand.None? && Mine().th.seg.Some? && Mine().held != []
      modifies rq`cell, rq`back, rq`threads, rq`armed, rq`known, rq`giving, rq`h, rq`done
      ensures Ready() && (old(id in rq.armed) ==> id in rq.armed) && Mine().held != [] && Mine().th.seg.Some?
      ensures Mine() == old(Mine()).(th := old(Mine()).th.(seg := Mine().th.seg), held := Mine().held)
      ensures Done() == old(Done()) + es && AppendsTo(es, id) && Laid(es) + Mine().held == old(Mine()).held
      ensures Peeled(es, Mine().held, false)
    {
      es := [];
      var more := true;
      while more
        invariant Ready() && (old(id in rq.armed) ==> id in rq.armed)
        invariant Mine().held != [] && Mine() == old(Mine()).(th := old(Mine()).th.(seg := Mine().th.seg), held := Mine().held)
        invariant Mine().th.seg.Some?
        invariant Done() == old(Done()) + es && AppendsTo(es, id)
        invariant Laid(es) + Mine().held == old(Mine()).held && Peeled(es, Mine().held, more)
        decreases |Mine().held|, more
      {
        ghost var held := Mine().held;
        ghost var e;
        more, e := PeelOne();
        if more || |held| > 1 {
          PeelLaid(old(Done()), es, e, held, more, id);
          es := es + [e];
        }
      }
    }

    /** boc_bq_segment_take_one of the segment variable */
    method TakeFirst() returns (n: Option<Node>)
      requires Ready() && Mine().th.hand.None? && Mine().th.seg.Some?
      modifies rq`cell, rq`back, rq`threads, rq`armed, rq`known, rq`giving, rq`h, rq`done
      ensures Ready() && (old(id in rq.armed) ==> id in rq.armed) && old(Mine()).held != []
      ensures var held := old(Mine()).held;
        if n.None? then Mine() == old(Mine()) && Done() == old(Done()) + if |held| > 1 then [Gap(held[0])] else []
        else |held| > 1 && n.value == held[0] && Done() == old(Done())
             && Mine() == old(Mine()).(th := old(Mine()).th.(hand := n, seg := Mine().th.seg), held := held[1..])
             && Mine().th.seg.Some?
    {
      n := rq.SegmentTakeOne(id);
    }

    /** One turn: a node peeled off goes onto one of our sub-queues. */
    method PeelOne() returns (more: bool, ghost e: Effect)
      requires Ready() && Mine().th.hand.None? && Mine().th.seg.Some?
      modifies rq`cell, rq`back, rq`threads, rq`armed, rq`known, rq`giving, rq`h, rq`done
      ensures Ready() && (old(id in rq.armed) ==> id in rq.armed)
      ensures if !more then
                && Mine() == old(Mine()) && Done() == old(Done()) + (if |Mine().held| > 1 then [e] else [])
                && Mine().held != [] && e == Gap(Mine().held[0])
              else |old(Mine()).held| > 1
                   && Mine() == old(Mine()).(th := old(Mine()).th.(seg := Mine().th.seg), held := old(Mine()).held[1..])
                   && Mine().th.seg.Some? && e.Append? && InWsq(e.q, id) && e.ns == old(Mine()).held[..1]
                   && Done() == old(Done()) + [e]
    {
      var n := TakeFirst();
      more := n.Some?;
      if more {
        var enqueueIndex: nat :| enqueueIndex < WSQ_N;
        var q := WsqEnqueue(id, enqueueIndex);
        e := Append(q, [n.value]);
      } else {
        e := Gap(Mine().held[0]);
      }
    }

    /** What could not be peeled off, onto one of our sub-queues. */
    method EnqueueRest() returns (ghost e: Effect)
      requires Ready() && Mine().th.seg.Some?
      modifies rq`cell, rq`back, rq`threads, rq`armed, rq`known, rq`giving, rq`h, rq`done
      ensures Ready() && (old(id in rq.armed) ==> id in rq.armed)
      ensures Mine() == old(Mine()).(th := old(Mine()).th.(seg := None), held := [])
      ensures e.Append? && InWsq(e.q, id) && e.ns == old(Mine()).held && Done() == old(Done()) + [e]
    {
      var enqueueIndex: nat :| enqueueIndex < WSQ_N;
      SubQIn(id, PreInc(enqueueIndex));
      e := Append(SubQ(id, PreInc(enqueueIndex)), Mine().held);
      rq.BqEnqueueSegment(id, SubQ(id, PreInc(enqueueIndex)));
    }

    /** Nothing in its local variables but, perhaps, `pending`. */
    ghost predicate Unladen()
      reads this, rq`cell, rq`back, rq`threads, rq`armed, rq`known, rq`giving, rq`h
    {
      Ready() && Mine().th.hand.None? && Mine().th.saved.None? && Mine().th.seg.None? && Mine().held == []
    }

    /** try_steal, with the node it took kept aside while the rest is spread. */
    method SpreadRest(n: Node) returns (ghost es: seq<Effect>)
      requires Ready() && Mine().th.hand == Some(n) && Mine().th.saved.None? && Mine().th.seg.Some? && Mine().held != []
      modifies rq`cell, rq`back, rq`threads, rq`armed, rq`known, rq`giving, rq`h, rq`done
      ensures Ready() && (old(id in rq.armed) ==> id in rq.armed)
      ensures Mine() == old(Mine()).(th := old(Mine()).th.(seg := None), held := [])
      ensures Done() == old(Done()) + es && AppendsTo(es, id) && Laid(es) == old(Mine()).held && Spread(es)
    {
      es := SpreadAside(n);
      Restore(n);
    }

    /** The node goes aside, and the rest is spread. */
    method SpreadAside(n: Node) returns (ghost es: seq<Effect>)
      requires Ready() && Mine().th.hand == Some(n) && Mine().th.saved.None? && Mine().th.seg.Some? && Mine().held != []
      modifies rq`cell, rq`back, rq`threads, rq`armed, rq`known, rq`giving, rq`h, rq`done
      ensures Ready() && (old(id in rq.armed) ==> id in rq.armed)
      ensures Mine() == old(Mine()).(th := old(Mine()).th.(hand := None, saved := Some(n), seg := None), held := [])
      ensures Done() == old(Done()) + es && AppendsTo(es, id) && Laid(es) == old(Mine()).held && Spread(es)
    {
      KeepAside(n);
      es := EnqueueSpread();
    }

    method KeepAside(n: Node)
      requires Ready() && Mine().th.hand == Some(n) && Mine().th.saved.None?
      modifies rq`cell, rq`threads, rq`armed, rq`known, rq`giving, rq`h
      ensures Ready() && (old(id in rq.armed) ==> id in rq.armed)
      ensures Mine() == old(Mine()).(th := old(Mine()).th.(hand := None, saved := Some(n)))
    {
      rq.CallOwned(Save(id));
    }

    method Restore(n: Node)
      requires Ready() && Mine().th.hand.None? && Mine().th.saved == Some(n)
      modifies rq`cell, rq`threads, rq`armed, rq`known, rq`giving, rq`h
      ensures Ready() && (old(id in rq.armed) ==> id in rq.armed)
      ensures Mine() == old(Mine()).(th := old(Mine()).th.(hand := Some(n), saved := None))
    {
      rq.CallOwned(Reload(id));
    }

    /** The node of a one-node segment is taken without reading its link. */
    method TakeWhole() returns (n: Node)
      requires Ready() && Mine().th.hand.None? && Mine().th.seg.Some? && Mine().th.seg.value.end == NextOf(Mine().th.seg.value.start)
      modifies rq`cell, rq`threads, rq`armed, rq`known, rq`giving, rq`h
      ensures Ready() && (old(id in rq.armed) ==> id in rq.armed)
      ensures old(Mine()).held == [n] && Mine() == old(Mine()).(th := old(Mine()).th.(hand := Some(n), seg := None), held := [])
    {
      rq.CallOwned(TakeLast(id));
      n := Th(rq.M(), id).hand.value;
    }

    /** The tail of try_steal: what it does with the segment it dequeued. */
    method Settle() returns (r: Option<Node>, ghost es: seq<Effect>)
      requires Ready() && Mine().th.hand.None? && Mine().th.saved.None? && Mine().th.seg.Some? && Mine().held != []
      modifies rq`cell, rq`back, rq`threads, rq`armed, rq`known, rq`giving, rq`h, rq`done
      ensures Ready() && (old(id in rq.armed) ==> id in rq.armed)
      ensures Mine() == old(Mine()).(th := old(Mine()).th.(hand := r, seg := None), held := [])
      ensures Done() == old(Done()) + es && AppendsTo(es, id) && Few(r) + Laid(es) == old(Mine()).held
      ensures Settled(es, old(Mine()).held, r)
    {
      ghost var held := Mine().held;
      r := TakeFirst();
      if r.Some? {
        es := SpreadRest(r.value);
        HeadLaid(held, r.value, es);
      } else {
        r, es := SettleNone(held, old(Done()));
      }
    }

    method SettleNone(ghost held: seq<Node>, ghost before: seq<Effect>) returns (r: Option<Node>, ghost es: seq<Effect>)
      requires Ready() && Mine().th.hand.None? && Mine().th.saved.None? && Mine().th.seg.Some? && Mine().held == held != []
      requires Done() == before + if |held| > 1 then [Gap(held[0])] else []
      modifies rq`cell, rq`back, rq`threads, rq`armed, rq`known, rq`giving, rq`h, rq`done
      ensures Ready() && (old(id in rq.armed) ==> id in rq.armed)
      ensures Mine() == old(Mine()).(th := old(Mine()).th.(hand := r, seg := None), held := [])
      ensures Done() == before + es && AppendsTo(es, id) && Few(r) + Laid(es) == held && Settled(es, held, r)
    {
      r, es := SettleRest(held[0]);
      if r.None? { Effects(before, [Gap(held[0])], es[1..]); }
    }

    /** ... when nothing could be peeled off: its only node, or all of it spread. */
    method SettleRest(ghost first: Node) returns (r: Option<Node>, ghost es: seq<Effect>)
      requires Ready() && Mine().th.hand.None? && Mine().th.saved.None? && Mine().th.seg.Some? && Mine().held != []
      modifies rq`cell, rq`back, rq`threads, rq`armed, rq`known, rq`giving, rq`h, rq`done
      ensures Ready() && (old(id in rq.armed) ==> id in rq.armed)
      ensures Mine() == old(Mine()).(th := old(Mine()).th.(hand := r, seg := None), held := [])
      ensures if |old(Mine()).held| == 1 then r == Some(old(Mine()).held[0]) && es == [] && Done() == old(Done())
              else r.None? && |es| > 1 && es[0] == Gap(first) && Done() == old(Done()) + es[1..] && AppendsTo(es, id)
                   && Laid(es) == old(Mine()).held && Spread(es[1..])
    {
      if Th(rq.M(), id).seg.value.end == NextOf(Th(rq.M(), id).seg.value.start) {
        var n := TakeWhole();
        r, es := Some(n), [];
      } else {
        SomeLeft(rq.St(), id);
        es := SpreadAll(first);
        r := None;
      }
    }

    /** Nothing could be peeled off, but there is more than one node. */
    method SpreadAll(ghost first: Node) returns (ghost es: seq<Effect>)
      requires Ready() && Mine().th.hand.None? && Mine().th.seg.Some? && Mine().held != []
      modifies rq`cell, rq`back, rq`threads, rq`armed, rq`known, rq`giving, rq`h, rq`done
      ensures Ready() && (old(id in rq.armed) ==> id in rq.armed)
      ensures Mine() == old(Mine()).(th := old(Mine()).th.(seg := None), held := [])
      ensures es != [] && Done() == old(Done()) + es[1..] && AppendsTo(es, id) && Laid(es) == old(Mine()).held
      ensures es[0] == Gap(first) && |es| > 1 && Spread(es[1..])
    {
      es := EnqueueSpread();
      GapFirst(first, es, id);
      es := [Gap(first)] + es;
    }

    /** A segment whose end is not the link of its first node has more than one. */
    lemma SomeLeft(s: State, t: Tid)
      requires Inv(s) && Th(s.m, t).seg.Some? && Th(s.m, t).seg.value.end != NextOf(Th(s.m, t).seg.value.start)
      ensures |Items(s.h, Held(t))| > 1
    {
      assert ThreadOK(s, t);
    }

    /** The worker the next attempt to steal will turn to. */
    function NextVictim(): (w: Tid)
      requires id < count
      reads this
    {
      if victim.None? then NextInRing(id) else victim.value
    }

    /** boc_sched_try_steal: the victim's sub-queue at the steal cursor is emptied, and
        what is not returned lands on our own; or there was nothing to take from it; or
        the victim would be this worker itself. */
    method TrySteal() returns (r: Option<Node>, ghost es: seq<Effect>)
      requires Unladen()
      modifies this`stealIndex, this`victim, rq`cell, rq`back, rq`threads, rq`armed, rq`known, rq`giving, rq`h, rq`done
      ensures Ready() && (old(id in rq.armed) ==> id in rq.armed)
      ensures Mine() == old(Mine()).(th := old(Mine()).th.(hand := r)) && Done() == old(Done()) + es
      ensures Tried(es, r, old(NextVictim()), old(stealIndex), id) && NextVictim() == (old(NextVictim()) + 1) % count
      ensures stealIndex == if old(NextVictim()) == id then PreInc(old(stealIndex)) else old(stealIndex)
    {
      r, es := None, [];
      if victim.None? { victim := Some(NextInRing(id)); }
      var from := victim.value;
      victim := Some(NextInRing(from));
      if from == id {
        stealIndex := PreInc(stealIndex);
      } else {
        SubQIn(from, stealIndex);
        r, es := StealFrom(SubQ(from, stealIndex));
      }
    }

    method StealFrom(q: Qid) returns (r: Option<Node>, ghost es: seq<Effect>)
      requires Unladen() && q > 0 && !InWsq(q, id)
      modifies rq`cell, rq`back, rq`threads, rq`armed, rq`known, rq`giving, rq`h, rq`done
      ensures Ready() && (old(id in rq.armed) ==> id in rq.armed)
      ensures Mine() == old(Mine()).(th := old(Mine()).th.(hand := r)) && Done() == old(Done()) + es
      ensures (es == [Miss(q)] && r.None?) || (Stolen(es, r, id) && es[0].q == q)
    {
      r, es := None, [Miss(q)];
      rq.BqDequeueAll(id, q);
      if Th(rq.M(), id).seg.Some? {
        ghost var ns, before := Mine().held, old(Done());
        r, es := Settle();
        StolenBy(before, q, ns, es, r, id);
        es := [PopAll(q, ns)] + es;
      }
    }

    /** boc_sched_steal; the clock decides how many rounds it makes.  With other workers
        there, and unless it is told to stop, it comes back with nothing only after a
        whole round that found nothing it could return. */
    method Steal() returns (r: Option<Node>, ghost es: seq<Effect>)
      requires Unladen()
      modifies this`dequeueIndex, this`stealIndex, this`victim, this`stopRequested
      modifies rq`cell, rq`back, rq`threads, rq`armed, rq`known, rq`giving, rq`h, rq`done
      ensures Ready() && (old(id in rq.armed) ==> id in rq.armed)
      ensures Mine() == old(Mine()).(th := old(Mine()).th.(hand := r)) && Done() == old(Done()) + es
      ensures LostOnly(es, r) && (r.None? && count > 1 && !stopRequested ==> MissedAll(es, id) && Rounded(es, old(NextVictim())))
    {
      r, es := None, [];
      if count <= 1 { return; }
      var rounds: nat :| rounds >= 1;
      ghost var v := NextVictim();
      for k := 0 to rounds
        invariant Unladen() && r.None? && (old(id in rq.armed) ==> id in rq.armed)
        invariant Mine() == old(Mine()) && Done() == old(Done()) + es && LostOnly(es, None)
        invariant k == 0 ==> NextVictim() == v
        invariant k > 0 ==> MissedAll(es, id) && Rounded(es, v)
      {
        var stop := StopAsked();
        if stop { return; }
        ghost var more;
        r, more := StealOnce();
        Effects(old(Done()), es, more);
        LostThen(es, more, r);
        if r.None? {
          MissedMore(es, more, id);
          TurnedMore(es, more, Victims(v, count - 1, count), id);
        }
        es := es + more;
        if r.Some? { return; }
      }
    }

    /** A round of the ring was made: as many workers were turned to as there are others. */
    ghost predicate Rounded(es: seq<Effect>, v: Tid) { v < count && TurnedTo(es, Victims(v, count - 1, count), id) }

    lemma RoundStays(es: seq<Effect>, fs: seq<Effect>, v: Tid)
      ensures MissedAll(es, id) ==> MissedAll(es + fs, id)
      ensures Rounded(es, v) ==> Rounded(es + fs, v)
      ensures Rounded(fs, v) ==> Rounded(es + fs, v)
    {
      MissedMore(es, fs, id);
      if v < count && (Rounded(es, v) || Rounded(fs, v)) { TurnedMore(es, fs, Victims(v, count - 1, count), id); }
    }

    /** One round: our own queues first, then the ring. */
    method StealOnce() returns (r: Option<Node>, ghost es: seq<Effect>)
      requires Unladen()
      modifies this`dequeueIndex, this`stealIndex, this`victim, this`stopRequested
      modifies rq`cell, rq`back, rq`threads, rq`armed, rq`known, rq`giving, rq`h, rq`done
      ensures Ready() && (old(id in rq.armed) ==> id in rq.armed) && stopRequested == old(stopRequested)
      ensures Mine() == old(Mine()).(th := old(Mine()).th.(hand := r)) && Done() == old(Done()) + es
      ensures LostOnly(es, r) && (r.None? ==> MissedAll(es, id) && Rounded(es, old(NextVictim())))
    {
      r, es := WsqDequeue();
      if r.None? {
        ghost var more;
        r, more := StealRound();
        Effects(old(Done()), es, more);
        LostThen(es, more, r);
        if r.None? {
          MissedMore(es, more, id);
          TurnedMore(es, more, Victims(old(NextVictim()), count - 1, count), id);
        }
        es := es + more;
      }
    }

    /** Once around the ring. */
    method StealRound() returns (r: Option<Node>, ghost es: seq<Effect>)
      requires Unladen()
      modifies this`stealIndex, this`victim, rq`cell, rq`back, rq`threads, rq`armed, rq`known, rq`giving, rq`h, rq`done
      ensures Ready() && (old(id in rq.armed) ==> id in rq.armed)
      ensures Mine() == old(Mine()).(th := old(Mine()).th.(hand := r)) && Done() == old(Done()) + es
      ensures LostOnly(es, r) && (r.None? ==> Rounded(es, old(NextVictim())))
    {
      r, es := None, [];
      ghost var v := NextVictim();
      for i := 0 to count - 1
        invariant Unladen() && r.None? && (old(id in rq.armed) ==> id in rq.armed)
        invariant Mine() == old(Mine()) && Done() == old(Done()) + es && LostOnly(es, None)
        invariant v < count && NextVictim() == Onward(v, i, count) && TurnedTo(es, Victims(v, i, count), id)
      {
        ghost var more;
        r, more := StealOne();
        Effects(old(Done()), es, more);
        LostThen(es, more, r);
        if r.None? { TurnedNext(es, more, v, i, count, id); }
        es := es + more;
        if r.Some? { return; }
      }
    }

    /** One victim. */
    method StealOne() returns (r: Option<Node>, ghost es: seq<Effect>)
      requires Unladen()
      modifies this`stealIndex, this`victim, rq`cell, rq`back, rq`threads, rq`armed, rq`known, rq`giving, rq`h, rq`done
      ensures Ready() && (old(id in rq.armed) ==> id in rq.armed)
      ensures Mine() == old(Mine()).(th := old(Mine()).th.(hand := r)) && Done() == old(Done()) + es
      ensures LostOnly(es, r) && NextVictim() == (old(NextVictim()) + 1) % count
      ensures r.None? ==> Turned(es, old(NextVictim()), id)
    {
      r, es := TrySteal();
      TriedLoss(es, r, old(NextVictim()), old(stealIndex), id);
    }

    /** boc_wsq_is_empty: what it found was so, of each sub-queue when it looked. */
    method WsqIsEmpty() returns (empty: bool, ghost es: seq<Effect>)
      requires Ready()
      modifies rq`cell, rq`back, rq`threads, rq`armed, rq`known, rq`giving, rq`h, rq`done
      ensures Ready() && (old(id in rq.armed) ==> id in rq.armed) && Mine() == old(Mine()) && Done() == old(Done()) + es
      ensures Looks(es) && if empty then MissedAll(es, id) else exists i :: 0 <= i < WSQ_N && Found(SubQ(id, i)) in es
    {
      es, empty := [], true;
      for i := 0 to WSQ_N
        invariant Ready() && (old(id in rq.armed) ==> id in rq.armed) && Mine() == old(Mine())
        invariant Done() == old(Done()) + es && Looks(es) && empty
        invariant forall j :: 0 <= j < i ==> Miss(SubQ(id, j)) in es
      {
        empty := rq.BqIsEmpty(id, SubQ(id, i));
        ghost var e := if empty then Miss(SubQ(id, i)) else Found(SubQ(id, i));
        Effects(old(Done()), es, [e]);
        es := es + [e];
        if !empty { return; }
      }
    }

    /** n = pending; pending = NULL */
    method TakePending() returns (r: Option<Node>)
      requires Ready() && Mine().th.hand.None? && Mine().th.pending.Some?
      modifies rq`cell, rq`threads, rq`armed, rq`known, rq`giving, rq`h
      ensures Ready() && (old(id in rq.armed) ==> id in rq.armed) && r == old(Mine()).th.pending
      ensures Mine() == old(Mine()).(th := old(Mine()).th.(hand := r, pending := None))
    {
      rq.CallOwned(Unstash(id));
      r := Th(rq.M(), id).hand;
    }

    /** boc_sched_worker_pop_fast: `pending` straight away while the batch lasts; else,
        unless the fairness flag is up and there is work, the worker's own queues; and
        `pending` as a fallback. */
    method PopFast() returns (r: Option<Node>, fair: bool, ghost es: seq<Effect>)
      requires Unladen()
      modifies this`dequeueIndex, this`batch, rq`cell, rq`back, rq`threads, rq`armed, rq`known, rq`giving, rq`h, rq`done
      ensures Ready() && Done() == old(Done()) + es && (old(id in rq.armed) ==> id in rq.armed)
      ensures Mine() == old(Mine()).(th := old(Mine()).th.(hand := r, pending := Mine().th.pending))
      ensures var p, b := old(Mine()).th.pending, old(batch);
        if p.Some? && b > 0 then r == p && es == [] && Mine().th.pending.None? && batch == b - 1 && !fair
        else if fair then r.None? && Mine().th.pending == p && batch == b && Looks(es) && SeesWork(es)
        else if OwnPop(es, r) then Mine().th.pending == p
        else MissedAll(es, id) && Looks(es) && r == p && Mine().th.pending.None?
      ensures old(id in rq.armed) && !(old(Mine()).th.pending.Some? && old(batch) > 0) ==> fair || MissedAll(es, id)
      ensures r.Some? && !(old(Mine()).th.pending.Some? && old(batch) > 0) ==> batch == BATCH_SIZE
      ensures r.None? ==> batch == old(batch)
      ensures Balanced(es, old(Mine()).th.pending, Mine().th.pending, r, MyToken(), 0)
    {
      es, fair, r := [], false, None;
      if Th(rq.M(), id).pending.Some? && batch > 0 {
        batch := batch - 1;
        r := TakePending();
        return;
      }
      r, fair, es := PopLater();
    }

    /** ... when not straight from `pending`. */
    method PopLater() returns (r: Option<Node>, fair: bool, ghost es: seq<Effect>)
      requires Unladen()
      modifies this`dequeueIndex, this`batch, rq`cell, rq`back, rq`threads, rq`armed, rq`known, rq`giving, rq`h, rq`done
      ensures Ready() && Done() == old(Done()) + es && (old(id in rq.armed) ==> id in rq.armed)
      ensures Mine() == old(Mine()).(th := old(Mine()).th.(hand := r, pending := Mine().th.pending))
      ensures if fair then r.None? && Mine().th.pending == old(Mine()).th.pending && Looks(es) && SeesWork(es)
              else if OwnPop(es, r) then Mine().th.pending == old(Mine()).th.pending
              else MissedAll(es, id) && Looks(es) && r == old(Mine()).th.pending && Mine().th.pending.None?
      ensures old(id in rq.armed) ==> fair || MissedAll(es, id)
      ensures batch == if r.Some? then BATCH_SIZE else old(batch)
      ensures Balanced(es, old(Mine()).th.pending, Mine().th.pending, r, MyToken(), 0)
    {
      r := None;
      fair, es := PopFlag();
      if fair {
        AtRest(es, Mine().th.pending, MyToken());
      } else {
        ghost var more;
        r, more := PopOwn();
        Effects(old(Done()), es, more);
        FastBalanced(es, more, old(Mine()).th.pending, Mine().th.pending, r, MyToken(), OwnPop(more, r));
        MissedMore(es, more, id);
        es := es + more;
      }
    }

    /** The fairness flag is up, and one of the worker's own queues is not empty. */
    method PopFlag() returns (fair: bool, ghost es: seq<Effect>)
      requires Unladen()
      modifies rq`cell, rq`back, rq`threads, rq`armed, rq`known, rq`giving, rq`h, rq`done
      ensures Unladen() && Mine() == old(Mine()) && Done() == old(Done()) + es && (old(id in rq.armed) ==> id in rq.armed)
      ensures Looks(es) && (fair ==> SeesWork(es) && id in rq.armed) && (old(id in rq.armed) && !fair ==> MissedAll(es, id))
    {
      es, fair := [], false;
      rq.Interfere(id);
      if id in rq.armed {
        var empty;
        empty, es := WsqIsEmpty();
        fair := !empty;
      }
    }

    /** The worker's own queues, and then `pending`. */
    method PopOwn() returns (r: Option<Node>, ghost es: seq<Effect>)
      requires Unladen()
      modifies this`dequeueIndex, this`batch, rq`cell, rq`back, rq`threads, rq`armed, rq`known, rq`giving, rq`h, rq`done
      ensures Ready() && Done() == old(Done()) + es && (old(id in rq.armed) ==> id in rq.armed)
      ensures Mine() == old(Mine()).(th := old(Mine()).th.(hand := r, pending := Mine().th.pending))
      ensures if OwnPop(es, r) then Mine().th.pending == old(Mine()).th.pending && LostOnly(es, r)
              else MissedAll(es, id) && Looks(es) && r == old(Mine()).th.pending && Mine().th.pending.None?
      ensures batch == if r.Some? then BATCH_SIZE else old(batch)
    {
      r, es := WsqDequeue();
      if r.Some? {
        batch := BATCH_SIZE;
      } else {
        ScanMisses(id, old(dequeueIndex));
        if Th(rq.M(), id).pending.Some? {
          batch := BATCH_SIZE;
          r := TakePending();
        }
      }
    }

    /** One of the worker's own sub-queues was found not to be empty. */
    ghost predicate SeesWork(es: seq<Effect>) { exists i :: 0 <= i < WSQ_N && Found(SubQ(id, i)) in es }

    /** The last thing done was to pop `r` from one of the worker's own sub-queues. */
    ghost predicate OwnPop(es: seq<Effect>, r: Option<Node>) {
      r.Some? && es != [] && exists i :: 0 <= i < WSQ_N && es[|es|-1] == Pop(SubQ(id, i), r.value)
    }

    function MyToken(): (n: Option<Node>) { if id in rq.token then Some(rq.token[id]) else None }

    /** The fairness arm of pop_slow: steal first, then put the token back.  The flag
        was seen set before the steal, and is cleared only after it. */
    method FairnessArm() returns (r: Option<Node>, ghost es: seq<Effect>)
      requires Unladen() && id in rq.armed
      modifies this`dequeueIndex, this`stealIndex, this`victim, this`stopRequested
      modifies rq`cell, rq`back, rq`threads, rq`armed, rq`known, rq`giving, rq`h, rq`done
      ensures Ready() && Mine() == old(Mine()).(th := old(Mine()).th.(hand := r)) && Done() == old(Done()) + es
      ensures Balanced(es, old(Mine()).th.pending, old(Mine()).th.pending, r, MyToken(), 1)
      ensures r.None? && count > 1 && !stopRequested ==> MissedAll(es, id) && Rounded(es, old(NextVictim()))
    {
      ghost var p, v := Mine().th.pending, NextVictim();
      ghost var stolen, back, q;
      r, stolen := Steal();
      back, q := ReturnMine();
      Effects(old(Done()), stolen, back);
      StolenThenToken(stolen, q, p, MyToken(), r);
      RoundStays(stolen, back, v);
      es := stolen + back;
    }

    /** token_work, if there is one, goes onto one of our sub-queues. */
    method ReturnMine() returns (ghost es: seq<Effect>, ghost q: Qid)
      requires Ready() && id in rq.armed
      modifies rq`cell, rq`back, rq`threads, rq`armed, rq`known, rq`giving, rq`h, rq`done
      ensures Ready() && Mine() == old(Mine()) && Done() == old(Done()) + es
      ensures es == if MyToken().Some? then [Append(q, [MyToken().value])] else []
    {
      var enqueueIndex: nat :| enqueueIndex < WSQ_N;
      q := SubQ(id, PreInc(enqueueIndex));
      rq.ReturnToken(id, SubQ(id, PreInc(enqueueIndex)));
      es := if MyToken().Some? then [Append(q, [MyToken().value])] else [];
    }

    /** `pending`, or our own queues: either way the batch starts again. */
    method PopMine() returns (r: Option<Node>, ghost es: seq<Effect>)
      requires Unladen()
      modifies this`dequeueIndex, this`batch, rq`cell, rq`back, rq`threads, rq`armed, rq`known, rq`giving, rq`h, rq`done
      ensures Ready() && Done() == old(Done()) + es && |es| <= WSQ_N && batch == if r.Some? then BATCH_SIZE else old(batch)
      ensures Mine() == old(Mine()).(th := old(Mine()).th.(hand := r, pending := None))
      ensures if old(Mine()).th.pending.Some? then r == old(Mine()).th.pending && es == []
              else LostOnly(es, r) && if r.None? then es == Scan(id, old(dequeueIndex), WSQ_N) && MissedAll(es, id) else OwnPop(es, r)
    {
      es := [];
      if Th(rq.M(), id).pending.Some? {
        batch := BATCH_SIZE;
        r := TakePending();
      } else {
        r, es := WsqDequeue();
        if r.Some? { batch := BATCH_SIZE; }
      }
    }

    /** The rest of the turn: `pending`, our own queues, other workers' queues.  The
        batch starts again unless it comes to the last. */
    method PopOrSteal() returns (r: Option<Node>, ghost es: seq<Effect>)
      requires Unladen()
      modifies this`dequeueIndex, this`stealIndex, this`victim, this`batch, this`stopRequested
      modifies rq`cell, rq`back, rq`threads, rq`armed, rq`known, rq`giving, rq`h, rq`done
      ensures Ready() && Done() == old(Done()) + es
      ensures Mine() == old(Mine()).(th := old(Mine()).th.(hand := r, pending := None))
      ensures if old(Mine()).th.pending.Some? then r == old(Mine()).th.pending && es == []
              else LostOnly(es, r) && (r.None? ==> MissedAll(es, id))
      ensures r.None? && count > 1 && !stopRequested ==> Rounded(es, old(NextVictim()))
      ensures batch == if r.Some? && |es| <= WSQ_N then BATCH_SIZE else old(batch)
      ensures Balanced(es, old(Mine()).th.pending, Mine().th.pending, r, MyToken(), 0)
    {
      r, es := PopMine();
      if r.None? {
        ghost var more;
        r, more := Steal();
        Effects(old(Done()), es, more);
        LostThen(es, more, r);
        MissedMore(es, more, id);
        RoundStays(es, more, old(NextVictim()));
        if r.Some? { LostSome(more, r); }
        es := es + more;
      }
    }

    /** The head of the turn: the fairness flag.  If it is up the token goes back once,
        unless the worker's own queues are found empty. */
    method FairnessTurn() returns (r: Option<Node>, ghost es: seq<Effect>, ghost woken: nat)
      requires Unladen()
      modifies this`dequeueIndex, this`stealIndex, this`victim, this`stopRequested
      modifies rq`cell, rq`back, rq`threads, rq`armed, rq`known, rq`giving, rq`h, rq`done
      ensures Ready() && Mine() == old(Mine()).(th := old(Mine()).th.(hand := r)) && Done() == old(Done()) + es
      ensures Balanced(es, old(Mine()).th.pending, old(Mine()).th.pending, r, MyToken(), woken) && woken <= 1
      ensures (old(id in rq.armed) ==> woken == 1 || MissedAll(es, id)) && (woken == 0 ==> r.None?)
    {
      r, woken := None, 0;
      var fair;
      fair, es := PopFlag();
      AtRest(es, Mine().th.pending, MyToken());
      if fair {
        ghost var more, p := [], Mine().th.pending;
        r, more := FairnessArm();
        Effects(old(Done()), es, more);
        BalancedMore(es, more, p, p, MyToken(), 0, 1, r);
        es := es + more;
        woken := 1;
      }
    }

    /** One turn of the loop of pop_slow, up to the point where it would park. */
    method PopSlowTurn() returns (r: Option<Node>, ghost es: seq<Effect>, ghost woken: nat)
      requires Unladen()
      modifies this`dequeueIndex, this`stealIndex, this`victim, this`batch, this`stopRequested
      modifies rq`cell, rq`back, rq`threads, rq`armed, rq`known, rq`giving, rq`h, rq`done
      ensures Ready() && Done() == old(Done()) + es && woken <= 1
      ensures Mine() == old(Mine()).(th := old(Mine()).th.(hand := r, pending := Mine().th.pending))
      ensures r.None? ==> Mine().th.pending == old(Mine()).th.pending == None && MissedAll(es, id)
      ensures old(Mine()).th.pending.Some? && woken == 0 ==> r == old(Mine()).th.pending && batch == BATCH_SIZE
      ensures batch == old(batch) || (r.Some? && batch == BATCH_SIZE)
      ensures r.None? && count > 1 && !stopRequested ==> exists v :: Rounded(es, v)
      ensures old(id in rq.armed) ==> woken == 1 || MissedAll(es, id)
      ensures Balanced(es, old(Mine()).th.pending, Mine().th.pending, r, MyToken(), woken)
    {
      ghost var p := Mine().th.pending;
      r, es, woken := FairnessTurn();
      if r.None? {
        ghost var more, v := [], NextVictim();
        r, more := PopOrSteal();
        RoundStays(es, more, v);
        Effects(old(Done()), es, more);
        BalancedMore(es, more, p, Mine().th.pending, MyToken(), woken, 0, r);
        MissedMore(es, more, id);
        es := es + more;
      }
    }

    /** ... and, with nothing to return, parked for a while. */
    method TurnOrPark() returns (r: Option<Node>, ghost es: seq<Effect>, ghost woken: nat)
      requires Unladen()
      modifies this`dequeueIndex, this`stealIndex, this`victim, this`batch, this`stopRequested
      modifies rq`cell, rq`back, rq`threads, rq`armed, rq`known, rq`giving, rq`h, rq`done
      ensures Ready() && Done() == old(Done()) + es
      ensures Mine() == old(Mine()).(th := old(Mine()).th.(hand := r, pending := Mine().th.pending))
      ensures r.None? ==> Mine().th.pending == old(Mine()).th.pending == None && MissedAll(es, id)
      ensures batch == old(batch) || (r.Some? && batch == BATCH_SIZE)
      ensures Balanced(es, old(Mine()).th.pending, Mine().th.pending, r, MyToken(), woken)
    {
      r, es, woken := PopSlowTurn();
      if r.None? { rq.Interfere(id); }
    }

    /** boc_sched_worker_pop_slow, when others ask it to stop before round `stopAt`, if
        not during an earlier one; parking moves no node.  Without a behavior it
        returns only when told to stop. */
    method PopSlow(stopAt: nat) returns (r: Option<Node>, ghost es: seq<Effect>, ghost woken: nat)
      requires Unladen()
      modifies this`dequeueIndex, this`stealIndex, this`victim, this`batch, this`stopRequested
      modifies rq`cell, rq`back, rq`threads, rq`armed, rq`known, rq`giving, rq`h, rq`done
      ensures Ready() && Done() == old(Done()) + es
      ensures Mine() == old(Mine()).(th := old(Mine()).th.(hand := r, pending := Mine().th.pending))
      ensures r.None? ==> Mine().th.pending == old(Mine()).th.pending && stopRequested
      ensures old(stopRequested) || stopAt == 0 ==> r.None? && es == []
      ensures batch == old(batch) || (r.Some? && batch == BATCH_SIZE)
      ensures !old(stopRequested) && stopAt > 0 ==> r.Some? || (old(Mine()).th.pending.None? && MissedAll(es, id))
      ensures Balanced(es, old(Mine()).th.pending, Mine().th.pending, r, MyToken(), woken)
    {
      r, es, woken := None, [], 0;
      var stop := StopLoad(stopAt == 0);
      if !stop { r, es, woken := PopUntil(stopAt); }
    }

    /** Turn after turn, until there is a behavior or it is told to stop. */
    method PopUntil(stopAt: nat) returns (r: Option<Node>, ghost es: seq<Effect>, ghost woken: nat)
      requires Unladen() && stopAt > 0 && !stopRequested
      modifies this`dequeueIndex, this`stealIndex, this`victim, this`batch, this`stopRequested
      modifies rq`cell, rq`back, rq`threads, rq`armed, rq`known, rq`giving, rq`h, rq`done
      ensures Ready() && Done() == old(Done()) + es
      ensures Mine() == old(Mine()).(th := old(Mine()).th.(hand := r, pending := Mine().th.pending))
      ensures r.None? ==> Mine().th.pending == old(Mine()).th.pending == None && stopRequested && MissedAll(es, id)
      ensures batch == old(batch) || (r.Some? && batch == BATCH_SIZE)
      ensures Balanced(es, old(Mine()).th.pending, Mine().th.pending, r, MyToken(), woken)
    {
      r, es, woken := None, [], 0;
      AtRest([], Mine().th.pending, MyToken());
      var k, stop := 0, false;
      while !stop
        invariant Unladen() && Mine() == old(Mine()) && r.None? && Done() == old(Done()) + es && k <= stopAt && batch == old(batch)
        invariant (stop ==> stopRequested && k > 0) && (k == stopAt ==> stop)
        invariant k > 0 ==> old(Mine()).th.pending.None? && MissedAll(es, id)
        invariant Balanced(es, old(Mine()).th.pending, old(Mine()).th.pending, None, MyToken(), woken)
        decreases stopAt - k
      {
        ghost var more, again;
        r, more, again := TurnOrPark();
        TurnAdds(old(Done()), es, more, old(Mine()).th.pending, Mine().th.pending, MyToken(), woken, again, r, id);
        es, woken := es + more, woken + again;
        if r.Some? { return; }
        k := k + 1;
        stop := StopLoad(k == stopAt);
      }
    }

    /** boc_sched_dispatch on a worker of the behavior in hand: its header decides. */
    method Dispatch() returns (ghost es: seq<Effect>)
      requires Able() && id in rq.giving && Mine().th.hand.Some?
      modifies rq`cell, rq`back, rq`threads, rq`armed, rq`known, rq`giving, rq`h, rq`done
      ensures Ready() && Done() == old(Done()) + es
      ensures var n, p, th := old(Mine()).th.hand, old(Mine()).th.pending, old(Mine()).th;
        if n.value in rq.pinned then es == [Append(PINNED, [n.value])] && Mine() == old(Mine()).(th := th.(hand := None))
        else
          && Mine() == old(Mine()).(th := th.(hand := None, pending := n))
          && (if p.None? then es == [] else |es| == 1 && es[0].Append? && es[0].ns == [p.value] && InWsq(es[0].q, id))
    {
      es := [];
      if Th(rq.M(), id).hand.value in rq.pinned {
        es := [Append(PINNED, [Mine().th.hand.value])];
        rq.BqEnqueue(id, PINNED);
        return;
      }
      if Th(rq.M(), id).pending.Some? { es := Displace(); }
      StashHand();
    }

    /** pending = n */
    method StashHand()
      requires Able() && id in rq.giving && Mine().th.pending.None? && Mine().th.hand.Some? && Mine().th.hand.value !in rq.pinned
      modifies rq`cell, rq`threads, rq`armed, rq`known, rq`giving, rq`h
      ensures Ready() && Mine() == old(Mine()).(th := old(Mine()).th.(hand := None, pending := old(Mine()).th.hand))
    {
      rq.CallOwned(Stash(id));
    }

    /** What was in `pending` goes onto one of our own queues. */
    method Displace() returns (ghost es: seq<Effect>)
      requires Able() && id in rq.giving && Mine().th.pending.Some?
      modifies rq`cell, rq`back, rq`threads, rq`armed, rq`known, rq`giving, rq`h, rq`done
      ensures Able() && id in rq.giving && Done() == old(Done()) + es
      ensures Mine() == old(Mine()).(th := old(Mine()).th.(pending := None))
      ensures |es| == 1 && es[0].Append? && es[0].ns == [old(Mine()).th.pending.value] && InWsq(es[0].q, id)
    {
      var enqueueIndex: nat :| enqueueIndex < WSQ_N;
      SubQIn(id, PreInc(enqueueIndex));
      es := [Append(SubQ(id, PreInc(enqueueIndex)), [Mine().th.pending.value])];
      rq.BqEnqueuePending(id, SubQ(id, PreInc(enqueueIndex)));
    }

    /** pop_fast, and pop_slow when that finds nothing. */
    method PopAny(stopAt: nat) returns (r: Option<Node>, ghost es: seq<Effect>, ghost woken: nat)
      requires Unladen()
      modifies this`dequeueIndex, this`stealIndex, this`victim, this`batch, this`stopRequested
      modifies rq`cell, rq`back, rq`threads, rq`armed, rq`known, rq`giving, rq`h, rq`done
      ensures Ready() && Mine() == old(Mine()).(th := old(Mine()).th.(hand := r, pending := Mine().th.pending))
      ensures Done() == old(Done()) + es && (r.None? ==> stopRequested)
      ensures PendingFirst(old(Mine()).th.pending, old(batch), !old(stopRequested) && stopAt > 0, Few(r))
      ensures Balanced(es, old(Mine()).th.pending, Mine().th.pending, r, MyToken(), woken)
    {
      ghost var p := Mine().th.pending;
      woken := 0;
      r, es := PopQuick();
      if r.None? {
        ghost var more;
        r, more, woken := PopSlow(stopAt);
        Effects(old(Done()), es, more);
        BalancedMore(es, more, p, Mine().th.pending, MyToken(), 0, woken, r);
        es := es + more;
      }
    }

    /** pop_fast, and what it accounts for. */
    method PopQuick() returns (r: Option<Node>, ghost es: seq<Effect>)
      requires Unladen()
      modifies this`dequeueIndex, this`batch, rq`cell, rq`back, rq`threads, rq`armed, rq`known, rq`giving, rq`h, rq`done
      ensures Ready() && Mine() == old(Mine()).(th := old(Mine()).th.(hand := r, pending := Mine().th.pending))
      ensures Done() == old(Done()) + es && (r.None? ==> Mine().th.pending == old(Mine()).th.pending)
      ensures old(Mine()).th.pending.Some? && old(batch) > 0 ==> r == old(Mine()).th.pending
      ensures Balanced(es, old(Mine()).th.pending, Mine().th.pending, r, MyToken(), 0)
    {
      var fair;
      r, fair, es := PopFast();
    }

    /** A token, and its owner's flag is set. */
    ghost predicate FlagUp(n: Node)
      reads rq`armed
    {
      exists w :: w in rq.token && rq.token[w] == n && w in rq.armed
    }

    /** A token sets its owner's flag; anything else is handed out. */
    method HandOut() returns (out: bool)
      requires Ready() && Mine().th.hand.Some?
      modifies rq`cell, rq`threads, rq`armed, rq`known, rq`giving, rq`h
      ensures Ready() && Mine() == old(Mine()).(th := old(Mine()).th.(hand := None))
      ensures out <==> forall w :: w in rq.token ==> rq.token[w] != old(Mine()).th.hand.value
      ensures out || FlagUp(old(Mine()).th.hand.value)
      ensures out ==> var n := old(Mine()).th.hand.value; n in rq.h.home && rq.h.home[n] == Runner && n !in rq.pinned
    {
      var n := Th(rq.M(), id).hand.value;
      if w :| w in rq.token && rq.token[w] == n {
        SetFlag(w);
        return false;
      }
      Deliver();
      return true;
    }

    /** boc_sched_set_steal_flag of the token's owner */
    method SetFlag(w: Tid)
      requires Ready() && Mine().th.hand.Some? && w in rq.token && rq.token[w] == Mine().th.hand.value
      modifies rq`cell, rq`threads, rq`armed, rq`known, rq`giving, rq`h
      ensures Ready() && w in rq.armed && Mine() == old(Mine()).(th := old(Mine()).th.(hand := None))
    {
      HistoryFollows(rq.St(), Arm(id, w));
      HandedOn(rq.St(), Arm(id, w));
      rq.Call(Arm(id, w));
    }

    /** A behavior is wrapped in a capsule and returned. */
    method Deliver()
      requires Ready() && Mine().th.hand.Some? && forall w :: w in rq.token ==> rq.token[w] != Mine().th.hand.value
      modifies rq`cell, rq`threads, rq`armed, rq`known, rq`giving, rq`h
      ensures Ready() && Mine() == old(Mine()).(th := old(Mine()).th.(hand := None))
      ensures var n := old(Mine()).th.hand.value; n in rq.h.home && rq.h.home[n] == Runner && n !in rq.pinned
    {
      if Th(rq.M(), id).hand.value in rq.pinned { PinnedToMain(rq.St(), rq.Rules(), id); }
      HistoryFollows(rq.St(), BehaviorQueue.Deliver(id));
      HandedOn(rq.St(), BehaviorQueue.Deliver(id));
      rq.Call(BehaviorQueue.Deliver(id));
    }

    /** A behavior is with its runner, there once; it is no token, and not pinned. */
    ghost predicate HandedOut(n: Node)
      reads rq`h
    {
      && n in rq.h.home && rq.h.home[n] == Runner && Times(n, Items(rq.h, Runner)) == 1
      && n !in rq.pinned && n !in rq.token.Values
    }

    /** One turn of the loop of _core_scheduler_worker_pop. */
    method PopOnce(stopAt: nat) returns (r: Option<Node>, given: bool, ghost es: seq<Effect>, ghost woken: nat)
      requires Unladen()
      modifies this`dequeueIndex, this`stealIndex, this`victim, this`batch, this`stopRequested
      modifies rq`cell, rq`back, rq`threads, rq`armed, rq`known, rq`giving, rq`h, rq`done
      ensures Unladen() && Done() == old(Done()) + es
      ensures PendingFirst(old(Mine()).th.pending, old(batch), !old(stopRequested) && stopAt > 0, Few(r))
      ensures Balanced(es, old(Mine()).th.pending, Mine().th.pending, r, MyToken(), woken)
      ensures if r.None? then !given && stopRequested else if given then HandedOut(r.value) else FlagUp(r.value)
    {
      r, es, woken := PopAny(stopAt);
      given := Sort();
    }

    /** ... of what was popped, if anything: a token, or a behavior. */
    method Sort() returns (given: bool)
      requires Ready() && Mine().th.saved.None? && Mine().th.seg.None? && Mine().held == []
      modifies rq`cell, rq`threads, rq`armed, rq`known, rq`giving, rq`h
      ensures Unladen() && Mine() == old(Mine()).(th := old(Mine()).th.(hand := None))
      ensures var n := old(Mine()).th.hand;
        if n.None? then !given else if given then HandedOut(n.value) else FlagUp(n.value)
    {
      given := false;
      ghost var n := Mine().th.hand;
      if Th(rq.M(), id).hand.Some? {
        given := HandOut();
        if given { Conservation(rq.St(), n.value, Runner); }
      }
    }

    /** _core_scheduler_worker_pop, up to `limit` tokens: tokens are never handed out, and
        set their owners' flags; a behavior that is handed out is so once, for good, and
        has no pinned argument.  What left `pending` and the queues is the tokens and
        the behavior. */
    method WorkerPop(stopAt: nat, limit: nat) returns (b: Option<Node>, ghost es: seq<Effect>, ghost tokens: seq<Node>, ghost woken: nat)
      requires Unladen()
      modifies this`dequeueIndex, this`stealIndex, this`victim, this`batch, this`stopRequested
      modifies rq`cell, rq`back, rq`threads, rq`armed, rq`known, rq`giving, rq`h, rq`done
      ensures Unladen() && Done() == old(Done()) + es
      ensures Accounted(es, old(Mine()).th.pending, Mine().th.pending, tokens + Few(b), MyToken(), woken)
      ensures forall n :: n in tokens ==> n in rq.token.Values
      ensures if b.None? then stopRequested || |tokens| == limit else HandedOut(b.value)
      ensures limit > 0 ==> PendingFirst(old(Mine()).th.pending, old(batch), !old(stopRequested) && stopAt > 0, tokens + Few(b))
    {
      b, es, tokens, woken := None, [], [], 0;
      ghost var p, left, unasked := Mine().th.pending, batch, !stopRequested && stopAt > 0;
      for k := 0 to limit
        invariant Unladen() && Done() == old(Done()) + es && |tokens| == k
        invariant Accounted(es, p, Mine().th.pending, tokens, MyToken(), woken)
        invariant forall n :: n in tokens ==> n in rq.token.Values
        invariant k == 0 ==> Mine().th.pending == p && batch == left && (stopAt > 0 && !stopRequested) == unasked
        invariant k > 0 ==> PendingFirst(p, left, unasked, tokens)
      {
        ghost var was, more, again := Mine().th.pending, [], 0;
        var r, given;
        r, given, more, again := PopOnce(stopAt);
        Effects(old(Done()), es, more);
        AccountedThen(es, more, p, was, Mine().th.pending, tokens, r, MyToken(), woken, again);
        FirstStays(p, left, unasked, tokens, Few(r));
        es, woken := es + more, woken + again;
        if r.None? || given { return r, es, tokens, woken; }
        tokens := tokens + Few(r);
      }
      assert tokens + Few(None) == tokens;
    }
  }

  /** A thread outside the pool: the main thread, or a foreign one. */
  class Producer {
    const rq: RunQueues
    const id: Tid
    const count: nat
    var rrNonlocal: Tid

    constructor (queues: RunQueues, thread: Tid, workers: nat)
      requires workers > 0
      ensures rq == queues && id == thread && count == workers && rrNonlocal < count
    {
      rq, id, count, rrNonlocal := queues, thread, workers, 0;
    }

    /** boc_sched_dispatch off the pool: round-robin over the workers' queues, or the
        pinned queue, as the header says. */
    method Dispatch() returns (ghost e: Effect)
      requires rq.Valid() && rq.Resting(id) && Th(rq.M(), id).hand.Some? && Items(rq.h, Flight(id)) == [] && rrNonlocal < count
      requires id in rq.giving
      modifies this`rrNonlocal, rq`cell, rq`back, rq`threads, rq`armed, rq`known, rq`giving, rq`h, rq`done
      ensures rq.Valid() && id !in rq.giving
      ensures var n := old(Th(rq.M(), id)).hand.value;
        && rrNonlocal < count && rrNonlocal == (if n in rq.pinned then old(rrNonlocal) else (old(rrNonlocal) + 1) % count)
        && OwnOf(rq.St(), id) == old(OwnOf(rq.St(), id)).(th := old(Th(rq.M(), id)).(hand := None))
        && rq.Done(id) == old(rq.Done(id)) + [e] && e.Append? && e.ns == [n]
        && if n in rq.pinned then e.q == PINNED else InWsq(e.q, old(rrNonlocal))
    {
      var q := PINNED;
      if Th(rq.M(), id).hand.value !in rq.pinned {
        var enqueueIndex: nat :| enqueueIndex < WSQ_N;
        SubQIn(rrNonlocal, PreInc(enqueueIndex));
        q := SubQ(rrNonlocal, PreInc(enqueueIndex));
        rrNonlocal := (rrNonlocal + 1) % count;
      }
      e := Append(q, [Th(rq.M(), id).hand.value]);
      rq.BqEnqueue(id, q);
    }
  }

  /** The main thread's pump: it takes behaviors off the pinned queue and runs them. */
  class Pump {
    const rq: RunQueues
    const id: Tid

    constructor (queues: RunQueues)
      ensures rq == queues && id == queues.main
    {
      rq, id := queues, queues.main;
    }

    /** One turn of _core_main_pump_bounded, up to where the behavior is run. */
    method PumpOne() returns (b: Option<Node>)
      requires rq.Valid() && id == rq.main && id !in rq.giving && rq.Resting(id) && Th(rq.M(), id).hand.None?
      modifies rq`cell, rq`back, rq`threads, rq`armed, rq`known, rq`giving, rq`h, rq`done
      ensures rq.Valid() && id !in rq.giving && OwnOf(rq.St(), id) == old(OwnOf(rq.St(), id))
      ensures rq.Done(id) == old(rq.Done(id)) + [if b.None? then Miss(PINNED) else Pop(PINNED, b.value)]
      ensures b.Some? ==> b.value in rq.h.home && rq.h.home[b.value] == Runner && b.value in rq.pinned
    {
      b := rq.BqDequeue(id, PINNED);
      if b.Some? {
        PumpedPinned(rq.St(), rq.Rules(), id);
        HandOut();
      }
    }

    method HandOut()
      requires rq.Valid() && id !in rq.giving && rq.Resting(id) && Th(rq.M(), id).hand.Some?
      requires forall w :: w in rq.token ==> rq.token[w] != Th(rq.M(), id).hand.value
      modifies rq`cell, rq`threads, rq`armed, rq`known, rq`giving, rq`h
      ensures rq.Valid() && id !in rq.giving
      ensures OwnOf(rq.St(), id) == old(OwnOf(rq.St(), id)).(th := old(Th(rq.M(), id)).(hand := None))
      ensures var n := old(Th(rq.M(), id)).hand.value; n in rq.h.home && rq.h.home[n] == Runner
    {
      HistoryFollows(rq.St(), Deliver(id));
      HandedOn(rq.St(), Deliver(id));
      rq.Call(Deliver(id));
    }
  }
}
