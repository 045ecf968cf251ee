/** What a step of one thread leaves alone. */
module QueueFrame {
  import opened Wrappers
  import opened BehaviorQueue
  import opened QueueHistory

  predicate Mine(t: Tid, q: Qid, p: Place) {
    match p case Sub(r) => r == q case Runner => true case Armed(_) => true case _ => p.t == t
  }

  /** A step of `t` on queue `q` that changes no place but those in `ps`. */
  ghost predicate Local(s: State, s': State, t: Tid, q: Qid, ps: set<Place>) {
    && (forall u {:trigger Th(s'.m, u)} :: u != t ==> Th(s'.m, u) == Th(s.m, u))
    && (forall p :: p in ps ==> Mine(t, q, p))
    && (forall p {:trigger Items(s'.h, p)} :: p !in ps ==> Items(s'.h, p) == Items(s.h, p))
    && (forall n {:trigger SameCell(s, s', NextOf(n))} :: n in s.h.home && s.h.home[n] !in ps ==> SameCell(s, s', NextOf(n)))
    && (forall r {:trigger SameQueue(s, s', r)} :: r != q ==> SameQueue(s, s', r))
    && KeepsWriters(s, s', t) && KeepsOwner(s, s', t, q)
  }

  predicate KeepsOwner(s: State, s': State, t: Tid, q: Qid) {
    q in s.h.owner && s.h.owner[q] != t ==>
      && q in s'.h.owner && s'.h.owner[q] == s.h.owner[q] && Items(s.h, Sub(q)) <= Items(s'.h, Sub(q))
      && (|Items(s.h, Sub(q))| > 1 ==> SameCell(s, s', NextOf(Items(s.h, Sub(q))[0])))
  }

  predicate SameCell(s: State, s': State, r: Ref) {
    Due(s', r) == Due(s, r) && (r in s'.h.writer <==> r in s.h.writer)
  }

  predicate SameQueue(s: State, s': State, q: Qid) {
    && Back(s'.m, q) == Back(s.m, q) && Due(s', Front(q)) == Due(s, Front(q))
    && (q in s'.h.owner <==> q in s.h.owner) && (q in s.h.owner ==> s'.h.owner[q] == s.h.owner[q])
  }

  ghost predicate KeepsWriters(s: State, s': State, t: Tid) {
    forall r :: r in s.h.writer && s.h.writer[r].0 != t ==> r in s'.h.writer && s'.h.writer[r] == s.h.writer[r]
  }

  /** The memory of `s'` differs at cell `r`, at the back of `q` and in thread `t`. */
  ghost predicate Touches(s: State, s': State, t: Tid, q: Qid, r: Ref) {
    && s'.m.threads == s.m.threads[t := Th(s'.m, t)]
    && (forall x {:trigger SameCell(s, s', x)} :: x != r ==> SameCell(s, s', x))
    && (s'.m.back == s.m.back || s'.m.back == s.m.back[q := Back(s'.m, q)])
    && (s'.h.owner == s.h.owner || s'.h.owner == s.h.owner[q := t] || s'.h.owner == s.h.owner - {q})
  }

  lemma TouchesLocal(s: State, s': State, t: Tid, q: Qid, r: Ref, ps: set<Place>)
    requires Touches(s, s', t, q, r) && KeepsWriters(s, s', t) && KeepsOwner(s, s', t, q)
    requires r == Front(q) || (r.NextOf? && (r.n !in s.h.home || s.h.home[r.n] in ps))
    requires forall p :: p in ps ==> Mine(t, q, p)
    requires forall p {:trigger Items(s'.h, p)} :: p !in ps ==> Items(s'.h, p) == Items(s.h, p)
    ensures Local(s, s', t, q, ps)
  {
    forall n {:trigger SameCell(s, s', NextOf(n))} | n in s.h.home && s.h.home[n] !in ps ensures SameCell(s, s', NextOf(n)) {
      assert NextOf(n) != r;
      assert SameCell(s, s', NextOf(n));
    }
    forall x {:trigger SameQueue(s, s', x)} | x != q ensures SameQueue(s, s', x) {
      assert SameCell(s, s', Front(x));
    }
  }

  lemma PlaceFrame(s: State, s': State, t: Tid, q: Qid, ps: set<Place>, p: Place)
    requires Inv(s) && Local(s, s', t, q, ps) && p !in ps && p != Flight(t)
    ensures ChainOK(s', p) && EndOK(s', p)
  {
    assert HomeOK(s.h, p) && ChainOK(s, p) && EndOK(s, p);
    var xs := Items(s.h, p);
    assert Items(s'.h, p) == xs;
    forall i | 0 <= i < |xs| ensures SameCell(s, s', NextOf(xs[i])) {
      assert xs[i] in s.h.home && s.h.home[xs[i]] == p;
    }
  }

  lemma ThreadFrame(s: State, s': State, t: Tid, q: Qid, ps: set<Place>, u: Tid)
    requires Inv(s) && Local(s, s', t, q, ps) && u != t
    ensures ThreadOK(s', u)
  {
    assert ThreadOK(s, u);
    var op := Th(s.m, u).op;
    assert HomeOK(s.h, Flight(u));
    assert Flight(u) !in ps && Hand(u) !in ps && Saved(u) !in ps && Held(u) !in ps && Pending(u) !in ps;
    if op.StoreOver? {
      assert Items(s.h, Flight(u))[0] == op.n;
      assert SameCell(s, s', NextOf(op.n));
    }
    if OwnsFront(op) && op.q != q {
      assert Sub(op.q) !in ps;
      assert SameQueue(s, s', op.q);
      assert HomeOK(s.h, Sub(op.q));
      assert Items(s.h, Sub(op.q))[0] == op.top;
      assert SameCell(s, s', NextOf(op.top));
    }
  }

  lemma QueueRest(s: State, s': State, t: Tid, q: Qid, ps: set<Place>, r: Qid)
    requires Inv(s) && Local(s, s', t, q, ps) && r != q && (r in s.h.owner ==> s.h.owner[r] != t)
    ensures QueueOK(s', r)
  {
    assert QueueOK(s, r) && SameQueue(s, s', r);
    assert Sub(r) !in ps;
  }

  /** It is enough to look at the stepping thread, its places and its queue. */
  lemma Assemble(s: State, s': State, t: Tid, q: Qid, ps: set<Place>)
    requires Inv(s) && Local(s, s', t, q, ps) && HomesOK(s'.h) && TokensOK(s')
    requires forall r :: r in s'.h.writer ==> WriterOK(s', r)
    requires forall p :: p in ps || p == Flight(t) ==> ChainOK(s', p) && EndOK(s', p)
    requires QueueOK(s', q) && ThreadOK(s', t)
    requires forall r :: r != q && r in s.h.owner ==> s.h.owner[r] != t
    ensures Inv(s')
  {
    forall p ensures ChainOK(s', p) && EndOK(s', p) {
      if p !in ps && p != Flight(t) { PlaceFrame(s, s', t, q, ps, p); }
    }
    forall u ensures ThreadOK(s', u) { if u != t { ThreadFrame(s, s', t, q, ps, u); } }
    forall r ensures QueueOK(s', r) { if r != q { QueueRest(s, s', t, q, ps, r); } }
  }

  // ------------------------------------------------------------------- moving

  /** The items of one place, when all of `from` went behind or before those of `to`. */
  lemma MovedHome(h: History, h': History, from: Place, to: Place, p: Place)
    requires HomeOK(h, p) && HomeOK(h, from) && HomeOK(h, to) && from != to
    requires h'.home == Rehome(h.home, from, to) && Items(h', from) == []
    requires Items(h', to) == Items(h, to) + Items(h, from) || Items(h', to) == Items(h, from) + Items(h, to)
    requires p != from && p != to ==> Items(h', p) == Items(h, p)
    ensures HomeOK(h', p)
  {
  }

  /** Every node is where the history says. */
  lemma MovedListed(h: History, h': History, from: Place, to: Place, n: Node)
    requires n in h.home && n in Items(h, h.home[n]) && h'.home == Rehome(h.home, from, to) && from != to
    requires Items(h', to) == Items(h, to) + Items(h, from) || Items(h', to) == Items(h, from) + Items(h, to)
    requires h.home[n] != from && h.home[n] != to ==> Items(h', h.home[n]) == Items(h, h.home[n])
    ensures n in Items(h', h'.home[n])
  {
  }

  lemma MovedHomes(h: History, h': History, from: Place, to: Place)
    requires HomesOK(h) && from != to && h'.home == Rehome(h.home, from, to) && Items(h', from) == []
    requires Items(h', to) == Items(h, to) + Items(h, from) || Items(h', to) == Items(h, from) + Items(h, to)
    requires forall p {:trigger Items(h', p)} :: p != from && p != to ==> Items(h', p) == Items(h, p)
    ensures HomesOK(h') && h'.home.Keys == h.home.Keys
  {
    assert HomeOK(h, from) && HomeOK(h, to);
    forall p {:trigger HomeOK(h', p)} ensures HomeOK(h', p) {
      assert HomeOK(h, p);
      MovedHome(h, h', from, to, p);
    }
    forall n {:trigger h'.home[n]} | n in h'.home ensures n in Items(h', h'.home[n]) {
      assert n in Items(h, h.home[n]);
      MovedListed(h, h', from, to, n);
    }
  }

  lemma MoveAllHomes(h: History, from: Place, to: Place)
    requires HomesOK(h) && from != to
    ensures HomesOK(MoveAll(h, from, to)) && MoveAll(h, from, to).home.Keys == h.home.Keys
  {
    MovedHomes(h, MoveAll(h, from, to), from, to);
  }

  lemma MoveOverHomes(h: History, from: Place, to: Place)
    requires HomesOK(h) && from != to
    ensures HomesOK(MoveOver(h, from, to)) && MoveOver(h, from, to).home.Keys == h.home.Keys
  {
    MovedHomes(h, MoveOver(h, from, to), from, to);
  }

  lemma HeadHome(h: History, from: Place, to: Place, p: Place)
    requires HomesOK(h) && from != to && Items(h, from) != []
    ensures HomeOK(MoveHead(h, from, to), p)
  {
    var h' := MoveHead(h, from, to);
    var xs := Items(h, from);
    assert HomeOK(h, p) && HomeOK(h, from);
    if p == from {
      var ys := Items(h', p);
      assert ys == xs[1..];
      forall i | 0 <= i < |ys| ensures ys[i] in h'.home && h'.home[ys[i]] == p { assert ys[i] == xs[i+1] && ys[i] != xs[0]; }
    } else if p == to {
      assert Items(h', p) == Items(h, p) + [xs[0]];
    } else {
      assert Items(h', p) == Items(h, p);
    }
  }

  lemma MoveHeadHomes(h: History, from: Place, to: Place)
    requires HomesOK(h) && from != to && Items(h, from) != []
    ensures HomesOK(MoveHead(h, from, to)) && MoveHead(h, from, to).home.Keys == h.home.Keys
  {
    var h' := MoveHead(h, from, to);
    var xs := Items(h, from);
    assert HomeOK(h, from);
    forall p {:trigger HomeOK(h', p)} ensures HomeOK(h', p) { HeadHome(h, from, to, p); }
    forall n {:trigger h'.home[n]} | n in h'.home ensures n in Items(h', h'.home[n]) {
      if n == xs[0] {
        assert Items(h', to) == Items(h, to) + [n];
      } else {
        assert n in Items(h, h.home[n]);
        assert xs == [xs[0]] + xs[1..];
      }
    }
  }

  lemma ArrivalHomes(h: History, n: Node, p: Place)
    requires HomesOK(h) && n !in h.home && Items(h, p) == []
    ensures HomesOK(h.(items := h.items[p := [n]], home := h.home[n := p]))
  {
    var h' := h.(items := h.items[p := [n]], home := h.home[n := p]);
    forall p' {:trigger HomeOK(h', p')} ensures HomeOK(h', p') {
      assert HomeOK(h, p');
      if p' != p { assert Items(h', p') == Items(h, p'); }
    }
    forall k {:trigger h'.home[k]} | k in h'.home ensures k in Items(h', h'.home[k]) {
      if k != n { assert k in Items(h, h.home[k]); }
    }
  }
}
