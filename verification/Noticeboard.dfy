/** The noticeboard: a fixed table under a mutex, its version counter, the
    reference counts of the cowns its values pin, and each thread's cached
    snapshot.  What happens under the mutex is one step. */
module Noticeboard {
  import opened Wrappers
  import opened NoticeboardRows

  type Tid = nat

  /** NB_SNAPSHOT_PROXY with NB_SNAPSHOT_VERSION, and NB_VERSION_CHECKED. */
  datatype Cache = NoCache | Cached(contents: map<Key, Value>, version: nat, checked: bool)

  datatype Outcome = Done | Rejected(why: KeyFault) | Full

  /** An element of the pin list handed to nb_pin_cowns. */
  datatype Item = Pointer(c: Cown) | Zero | NotAnInteger

  datatype Pinning = Pinned(pins: seq<Cown>) | BadItem | OutOfMemory

  function Pointers(items: seq<Item>): (cs: seq<Cown>) {
    if items == [] then [] else
      Pointers(items[..|items|-1]) + if items[|items|-1].Pointer? then [items[|items|-1].c] else []
  }

  lemma PointersStep(items: seq<Item>, i: nat, c: Cown)
    requires i < |items|
    ensures Times(c, Pointers(items[..i+1])) == Times(c, Pointers(items[..i])) + if items[i] == Pointer(c) then 1 else 0
  {
    var last := if items[i].Pointer? then [items[i].c] else [];
    assert items[..i+1][..i] == items[..i] && items[..i+1][i] == items[i];
    assert Pointers(items[..i+1]) == Pointers(items[..i]) + last;
    TimesAppend(c, Pointers(items[..i]), last);
    if items[i].Pointer? { assert last[..0] == []; }
  }

  class Board {
    const entries: array<Entry>
    var count: nat
    var version: nat
    var refs: map<Cown, int>
    var cache: map<Tid, Cache>
    ghost var past: seq<map<Key, Value>>     // the contents at each version
    ghost var boundary: map<Tid, nat>        // the version at a thread's last behavior boundary
    var kept: seq<Cown>                      // history: what the snapshot we follow keeps alive
    const fails: nat -> bool                 // which of its allocations and decodings fail
    var tries: nat                           // how many it has made

    function Rows(): (rows: seq<Entry>)
      requires count <= entries.Length
      reads this`count, entries
    {
      entries[..count]
    }

    function Refs(c: Cown): (n: int)
      reads this`refs
    {
      if c in refs then refs[c] else 0
    }

    /** The references on `c` that are not the table's. */
    function Outside(c: Cown): (n: int)
      requires count <= entries.Length
      reads this`refs, this`count, entries
    {
      Refs(c) - Held(c, Rows())
    }

    function CacheOf(t: Tid): (k: Cache)
      reads this`cache
    {
      if t in cache then cache[t] else NoCache
    }

    ghost function Boundary(t: Tid): (v: nat)
      reads this`boundary
    {
      if t in boundary then boundary[t] else 0
    }

    ghost predicate TableOK()
      reads this`count, this`version, this`past, entries
    {
      && entries.Length == MAX_ENTRIES && count <= MAX_ENTRIES && RowsOK(Rows())
      && |past| == version + 1 && past[version] == Contents(Rows())
    }

    /** A cached snapshot is what the board held at its version; one already
        checked was current at some moment of this behavior. */
    ghost predicate CacheOK(t: Tid)
      reads this`cache, this`past, this`boundary
    {
      CacheOf(t).Cached? ==>
        && CacheOf(t).version < |past| && CacheOf(t).contents == past[CacheOf(t).version]
        && (CacheOf(t).checked ==> Boundary(t) <= CacheOf(t).version)
    }

    ghost predicate CachesOK()
      reads this`cache, this`past, this`boundary, this`version
    {
      (forall t {:trigger CacheOK(t)} :: CacheOK(t)) && (forall t {:trigger Boundary(t)} :: Boundary(t) <= version)
    }

    ghost predicate Valid()
      reads this`count, this`version, this`cache, this`past, this`boundary, entries
    {
      TableOK() && CachesOK()
    }

    constructor (failing: nat -> bool)
      ensures Valid() && fresh(entries) && Rows() == [] && version == 0 && kept == [] && forall c :: Refs(c) == 0
      ensures fails == failing && tries == 0
    {
      fails, tries := failing, 0;
      entries := new Entry[MAX_ENTRIES](_ => Blank);
      count, version, refs, cache, past, boundary, kept := 0, 0, map[], map[], [map[]], map[], [];
    }

    // --------------------------------------------------------------- references

    /** COWN_DECREF over an array of pins. */
    method Unpin(pins: seq<Cown>)
      modifies this`refs
      ensures forall c :: Refs(c) == old(Refs(c)) - Times(c, pins)
    {
      for i := 0 to |pins|
        invariant forall c :: Refs(c) == old(Refs(c)) - Times(c, pins[..i])
      {
        assert pins[..i+1][..i] == pins[..i];
        refs := refs[pins[i] := Refs(pins[i]) - 1];
      }
      assert pins[..|pins|] == pins;
    }

    /** COWN_INCREF over an array of pins. */
    method Repin(pins: seq<Cown>)
      modifies this`refs
      ensures forall c :: Refs(c) == old(Refs(c)) + Times(c, pins)
    {
      for i := 0 to |pins|
        invariant forall c :: Refs(c) == old(Refs(c)) + Times(c, pins[..i])
      {
        assert pins[..i+1][..i] == pins[..i];
        refs := refs[pins[i] := Refs(pins[i]) + 1];
      }
      assert pins[..|pins|] == pins;
    }

    /** nb_pin_cowns: the caller owns a reference for each pointer in the list.  On
        success they pass to the array returned; a bad item releases them all; when
        memory runs out none is released, though the caller cannot release them. */
    method PinCowns(items: seq<Item>, memory: bool) returns (r: Pinning)
      modifies this`refs
      ensures r.Pinned? ==> r.pins == Pointers(items) && |r.pins| == |items|
      ensures r.Pinned? <==> items == [] || (memory && forall i :: 0 <= i < |items| ==> items[i].Pointer?)
      ensures r.OutOfMemory? <==> items != [] && !memory
      ensures forall c :: Refs(c) == old(Refs(c)) - if r.BadItem? then Times(c, Pointers(items)) else 0
    {
      if items == [] { return Pinned([]); }
      if !memory { return OutOfMemory; }
      var pins: seq<Cown> := [];
      for i := 0 to |items|
        invariant |pins| == i && pins == Pointers(items[..i]) && refs == old(refs)
        invariant forall j :: 0 <= j < i ==> items[j].Pointer?
      {
        assert items[..i+1][..i] == items[..i];
        if !items[i].Pointer? {
          Unpin(pins);
          ReleaseRest(items, i);
          return BadItem;
        }
        pins := pins + [items[i].c];
      }
      assert items[..|items|] == items;
      return Pinned(pins);
    }

    /** The rest of the list, past the item that was refused. */
    method ReleaseRest(items: seq<Item>, bad: nat)
      requires bad < |items| && !items[bad].Pointer?
      modifies this`refs
      ensures forall c :: Refs(c) == old(Refs(c)) - (Times(c, Pointers(items)) - Times(c, Pointers(items[..bad])))
    {
      forall c ensures Times(c, Pointers(items[..bad+1])) == Times(c, Pointers(items[..bad])) { PointersStep(items, bad, c); }
      for i := bad + 1 to |items|
        invariant forall c :: Refs(c) == old(Refs(c)) - (Times(c, Pointers(items[..i])) - Times(c, Pointers(items[..bad])))
      {
        forall c ensures Times(c, Pointers(items[..i+1])) == Times(c, Pointers(items[..i])) + if items[i] == Pointer(c) then 1 else 0 {
          PointersStep(items, i, c);
        }
        if items[i].Pointer? { refs := refs[items[i].c := Refs(items[i].c) - 1]; }
      }
      assert items[..|items|] == items;
    }

    // ------------------------------------------------------------- the mutator

    /** The version moves on, under the mutex. */
    method Bump()
      requires entries.Length == MAX_ENTRIES && count <= MAX_ENTRIES && RowsOK(Rows()) && |past| == version + 1 && CachesOK()
      modifies this`version, this`past
      ensures Valid() && past == old(past) + [Contents(Rows())] && version == old(version) + 1
    {
      version := version + 1;
      past := past + [Contents(Rows())];
      forall t ensures CacheOK(t) { assert old(CacheOK(t)); }
      forall t ensures Boundary(t) <= version { assert old(Boundary(t) <= version); }
    }

    /** The index of a key in the table, or count. */
    method Find(key: Key) returns (i: nat)
      requires TableOK()
      ensures i <= count && (i < count ==> entries[i].key == key)
      ensures i < count <==> HasKey(Rows(), key)
    {
      for j := 0 to count
        invariant forall k :: 0 <= k < j ==> entries[k].key != key
      {
        if entries[j].key == key {
          assert Rows()[j].key == key;
          return j;
        }
      }
      assert forall k :: 0 <= k < count ==> Rows()[k] == entries[k];
      return count;
    }

    method Store(i: nat, e: Entry) returns (oldPins: seq<Cown>)
      requires entries.Length == MAX_ENTRIES && count <= MAX_ENTRIES && Fits(Rows(), i, e)
      modifies this`count, entries
      ensures count <= MAX_ENTRIES && Rows() == Placing(old(Rows()), i, e) && oldPins == Replaced(old(Rows()), i)
    {
      if i == count {
        oldPins := [];
        entries[count] := e;
        count := count + 1;
      } else {
        oldPins := entries[i].pins;
        entries[i] := e;
      }
    }

    /** The accepted write: the new value in, the version up, the old pins released. */
    method Replace(i: nat, e: Entry)
      requires Valid() && Fits(Rows(), i, e)
      modifies this`count, this`version, this`refs, this`past, entries
      ensures Valid() && Rows() == Placing(old(Rows()), i, e)
      ensures Contents(Rows()) == Contents(old(Rows()))[e.key := e.value] && past == old(past) + [Contents(Rows())]
      ensures forall c :: Outside(c) == old(Outside(c)) - Times(c, e.pins)
    {
      PlacingContents(Rows(), i, e);
      ghost var rows := Rows();
      var oldPins := Store(i, e);
      Bump();
      Unpin(oldPins);
      forall c ensures Outside(c) == old(Outside(c)) - Times(c, e.pins) { PlacingHeld(c, rows, i, e); }
    }

    /** noticeboard_write: whatever happens, the caller's pins are used up once,
        by the table or by a release. */
    method Write(key: Key, value: Value, pickled: bool, pins: seq<Cown>) returns (r: Outcome)
      requires Valid()
      modifies this`count, this`version, this`refs, this`past, entries
      ensures Valid()
      ensures r == (if Fault(key).Some? then Rejected(Fault(key).value)
                    else if !HasKey(old(Rows()), key) && old(count) == MAX_ENTRIES then Full
                    else Done)
      ensures if r.Done? then
                && Contents(Rows()) == Contents(old(Rows()))[key := value]
                && past == old(past) + [Contents(Rows())]
                && With(old(Rows()), Entry(key, value, pickled, pins), Rows())
              else Rows() == old(Rows()) && past == old(past)
      ensures forall c :: Outside(c) == old(Outside(c)) - Times(c, pins)
    {
      if Fault(key).Some? {
        Unpin(pins);
        return Rejected(Fault(key).value);
      }
      var i := Find(key);
      if i == count && count == MAX_ENTRIES {
        Unpin(pins);
        return Full;
      }
      Replace(i, Entry(key, value, pickled, pins));
      return Done;
    }

    /** The rows behind `found` move up by one, and the last is blanked. */
    method ShiftDown(found: nat)
      requires count <= entries.Length && found < count
      modifies this`count, entries
      ensures count == old(count) - 1 && Rows() == Without(old(Rows()), found)
    {
      ghost var rows := Rows();
      for i := found to count - 1
        invariant count == |rows| && count <= entries.Length
        invariant entries[..i] == Without(rows, found)[..i]
        invariant entries[i..count] == rows[i..]
      {
        assert entries[i..count][1] == entries[i+1] && rows[i..][1] == rows[i+1];
        entries[i] := entries[i+1];
        assert entries[..i+1] == entries[..i] + [rows[i+1]];
        assert Without(rows, found)[..i+1] == Without(rows, found)[..i] + [rows[i+1]];
        assert entries[i+1..count] == rows[i..][1..];
      }
      entries[count - 1] := Blank;
      count := count - 1;
      assert Without(rows, found)[..count] == Without(rows, found);
    }

    /** noticeboard_delete */
    method Delete(key: Key) returns (r: Outcome)
      requires Valid()
      modifies this`count, this`version, this`refs, this`past, entries
      ensures Valid()
      ensures r == if Fault(key).Some? then Rejected(Fault(key).value) else Done
      ensures Contents(Rows()) == if r.Done? then Contents(old(Rows())) - {key} else Contents(old(Rows()))
      ensures if r.Done? && HasKey(old(Rows()), key) then
                past == old(past) + [Contents(Rows())] && Less(old(Rows()), key, Rows())
              else Rows() == old(Rows()) && past == old(past)
      ensures forall c :: Outside(c) == old(Outside(c))
    {
      if Fault(key).Some? { return Rejected(Fault(key).value); }
      ghost var rows := Rows();
      var found := Find(key);
      ContentsKeys(rows, key);
      if found < count {
        var deleted := entries[found].pins;
        ContentsWithout(rows, found);
        forall c ensures Held(c, Without(rows, found)) == Held(c, rows) - Times(c, deleted) { HeldWithout(c, rows, found); }
        ShiftDown(found);
        Bump();
        Unpin(deleted);
      }
      return Done;
    }

    /** Under the mutex: every row is blanked, and put aside for its pins. */
    method BlankAll() returns (toUnpin: seq<Entry>)
      requires Valid()
      modifies this`count, entries
      ensures toUnpin == old(Rows()) && count == 0
    {
      ghost var rows := Rows();
      toUnpin := [];
      for i := 0 to count
        invariant count == |rows| <= entries.Length && entries[i..count] == rows[i..] && toUnpin == rows[..i]
        modifies entries
      {
        assert entries[i] == rows[i..][0] && entries[i..count][1..] == rows[i..][1..];
        toUnpin := toUnpin + [entries[i]];
        entries[i] := Blank;
      }
      assert toUnpin == rows;
      count := 0;
    }

    /** Outside it: the pins of those rows are released. */
    method UnpinRows(rows: seq<Entry>)
      modifies this`refs
      ensures forall c :: Refs(c) == old(Refs(c)) - Held(c, rows)
    {
      for i := 0 to |rows|
        invariant forall c :: Refs(c) == old(Refs(c)) - Held(c, rows[..i])
        modifies this`refs
      {
        assert rows[..i+1][..i] == rows[..i];
        Unpin(rows[i].pins);
      }
      assert rows[..|rows|] == rows;
    }

    /** noticeboard_clear, by thread `t`, whose cached snapshot goes too. */
    method Clear(t: Tid)
      requires Valid()
      modifies this`count, this`version, this`refs, this`cache, this`past, entries
      ensures Valid() && Rows() == [] && past == old(past) + [map[]]
      ensures cache == old(cache)[t := NoCache]
      ensures forall c :: Outside(c) == old(Outside(c))
    {
      var toUnpin := BlankAll();
      Bump();
      UnpinRows(toUnpin);
      DropCache(t);
    }

    /** noticeboard_drop_local_cache */
    method DropCache(t: Tid)
      requires Valid()
      modifies this`cache
      ensures Valid() && cache == old(cache)[t := NoCache]
    {
      cache := cache[t := NoCache];
      forall u ensures CacheOK(u) { assert old(CacheOK(u)); }
    }

    /** noticeboard_cache_clear_for_behavior, at a behavior boundary. */
    method NextBehavior(t: Tid)
      requires Valid()
      modifies this`cache, this`boundary
      ensures Valid() && Boundary(t) == version && forall u :: u != t ==> Boundary(u) == old(Boundary(u))
      ensures CacheOf(t) == (if old(CacheOf(t)).Cached? then old(CacheOf(t)).(checked := false) else NoCache)
      ensures forall u :: u != t ==> CacheOf(u) == old(CacheOf(u))
    {
      if CacheOf(t).Cached? { cache := cache[t := CacheOf(t).(checked := false)]; }
      boundary := boundary[t := version];
      forall u ensures CacheOK(u) { assert old(CacheOK(u)); }
      forall u ensures Boundary(u) <= version { assert old(Boundary(u) <= version); }
    }

    // ------------------------------------------------------------- other threads

    /** Everyone but the snapshot we follow holds the references that are left. */
    ghost predicate OthersOwn()
      requires count <= entries.Length
      reads this`refs, this`count, this`kept, entries
    {
      forall c {:trigger Outside(c)} :: Outside(c) >= Times(c, kept)
    }

    /** A thread other than `t` does something: it releases only what it owns. */
    method OtherStep(t: Tid)
      requires Valid() && OthersOwn()
      modifies this`count, this`version, this`refs, this`cache, this`past, this`boundary, entries
      ensures Valid() && OthersOwn() && old(past) <= past
      ensures CacheOf(t) == old(CacheOf(t)) && Boundary(t) == old(Boundary(t))
    {
      var choice: int := *;
      if choice == 0 {
        var key: Key, value: Value, pickled: bool, pins: seq<Cown> := *, *, *, *;
        if forall c | c in pins :: Outside(c) >= Times(c, kept) + Times(c, pins) {
          WriteOwned(key, value, pickled, pins);
        }
      } else if choice == 1 {
        var key: Key := *;
        var _ := Delete(key);
      } else if choice == 2 {
        var u: Tid := *;
        if u != t { Clear(u); }
      } else if choice == 3 {
        var u: Tid := *;
        if u != t { NextBehavior(u); }
      } else {
        var c: Cown, d: int := *, *;
        if Outside(c) + d >= Times(c, kept) { Share(c, d); }
      }
    }

    /** References on cowns come and go elsewhere. */
    method Share(c: Cown, d: int)
      requires Valid() && OthersOwn() && Outside(c) + d >= Times(c, kept)
      modifies this`refs
      ensures Valid() && OthersOwn()
    {
      refs := refs[c := Refs(c) + d];
      forall x {:trigger Outside(x)} ensures Outside(x) >= Times(x, kept) {
        assert old(Outside(x)) >= Times(x, kept);
        if x != c { assert Outside(x) == old(Outside(x)); }
      }
    }

    method WriteOwned(key: Key, value: Value, pickled: bool, pins: seq<Cown>)
      requires Valid() && OthersOwn() && forall c | c in pins :: Outside(c) >= Times(c, kept) + Times(c, pins)
      modifies this`count, this`version, this`refs, this`past, entries
      ensures Valid() && OthersOwn() && old(past) <= past
    {
      ghost var before := map c | c in pins :: Outside(c);
      var _ := Write(key, value, pickled, pins);
      forall c {:trigger Outside(c)} ensures Outside(c) >= Times(c, kept) {
        if c !in pins { TimesNone(c, pins); }
      }
    }

    method Others(t: Tid)
      requires Valid() && OthersOwn()
      modifies this`count, this`version, this`refs, this`cache, this`past, this`boundary, entries
      ensures Valid() && OthersOwn() && old(past) <= past
      ensures CacheOf(t) == old(CacheOf(t)) && Boundary(t) == old(Boundary(t))
    {
      var steps: nat :| steps >= 0;
      for i := 0 to steps
        invariant Valid() && OthersOwn() && old(past) <= past
        invariant CacheOf(t) == old(CacheOf(t)) && Boundary(t) == old(Boundary(t))
      {
        OtherStep(t);
      }
    }

    // ---------------------------------------------------------------- snapshots

    /** An allocation, or a call that may fail. */
    method Attempt() returns (ok: bool)
      modifies this`tries
      ensures tries == old(tries) + 1 && ok == !fails(old(tries))
    {
      ok := !fails(tries);
      tries := tries + 1;
    }

    /** None of the attempts made since failed. */
    ghost predicate Smooth(since: nat)
      reads this`tries
    {
      forall k :: since <= k < tries ==> !fails(k)
    }

    /** Unpickling, which needs every cown the value refers to alive, and the entry in
        the dict; either may fail. */
    method Loads(e: Entry) returns (v: Option<Value>)
      requires forall c :: c in e.pins ==> Refs(c) > 0
      modifies this`tries
      ensures v == (if Smooth(old(tries)) then Some(e.value) else None) && tries >= old(tries)
    {
      v := None;
      var ok := Attempt();
      if ok { ok := Attempt(); }
      if ok { v := Some(e.value); }
    }

    /** The value and the key of a row are made, and there is room in the dict for a
        plain one, or for the keepalives of a pickled one that has any. */
    method MakeRow(e: Entry) returns (ok: bool)
      modifies this`tries
      ensures ok == Smooth(old(tries)) && tries >= old(tries)
    {
      ok := Attempt();
      if ok { ok := Attempt(); }
      if ok && (!e.pickled || e.pins != []) { ok := Attempt(); }
    }

    /** Give up the keepalives of some rows. */
    method Release(rows: seq<Entry>)
      requires Valid() && OthersOwn() && kept == Flat(rows)
      modifies this`refs, this`kept
      ensures Valid() && OthersOwn() && kept == []
    {
      for i := 0 to |rows|
        invariant OthersOwn() && kept == Flat(rows[i..])
      {
        assert rows[i..][1..] == rows[i+1..];
        ReleaseOne(rows[i], Flat(rows[i+1..]));
      }
    }

    method ReleaseOne(e: Entry, rest: seq<Cown>)
      requires Valid() && OthersOwn() && kept == e.pins + rest
      modifies this`refs, this`kept
      ensures Valid() && OthersOwn() && kept == rest
    {
      Unpin(e.pins);
      kept := rest;
      forall c {:trigger Outside(c)} ensures Outside(c) >= Times(c, kept) {
        assert old(Outside(c)) >= Times(c, e.pins + rest);
        TimesAppend(c, e.pins, rest);
      }
    }

    method KeepOne(e: Entry)
      requires Valid() && OthersOwn()
      modifies this`refs, this`kept
      ensures Valid() && OthersOwn() && kept == old(kept) + e.pins
    {
      Repin(e.pins);
      kept := kept + e.pins;
      forall c {:trigger Outside(c)} ensures Outside(c) >= Times(c, kept) {
        assert old(Outside(c)) >= old(Times(c, kept));
        TimesAppend(c, old(kept), e.pins);
      }
    }

    /** Under the mutex: plain values go straight into the dict, pickled ones are
        put aside with their cowns kept alive.  It succeeds unless something fails. */
    method Collect() returns (ok: bool, built: nat, dict: map<Key, Value>, deferred: seq<Entry>)
      requires Valid() && OthersOwn() && kept == []
      modifies this`refs, this`kept, this`tries
      ensures Valid() && OthersOwn() && kept == Flat(deferred) && built == version
      ensures ok == Smooth(old(tries)) && tries >= old(tries)
      ensures ok ==> forall i :: 0 <= i < count ==> Placed(Rows()[i], dict, deferred)
      ensures (forall key :: key in dict ==> HasKey(Rows(), key)) && (forall e :: e in deferred ==> e in Rows())
    {
      built, dict, deferred := version, map[], [];
      for i := 0 to count
        invariant OthersOwn() && kept == Flat(deferred) && Smooth(old(tries)) && tries >= old(tries)
        invariant forall j :: 0 <= j < i ==> Placed(Rows()[j], dict, deferred)
        invariant (forall key :: key in dict ==> HasKey(Rows(), key)) && (forall e :: e in deferred ==> e in Rows())
      {
        var e := entries[i];
        assert e == Rows()[i];
        ok := MakeRow(e);
        if !ok { return false, built, dict, deferred; }
        if e.pickled {
          KeepOne(e);
          FlatAppend(deferred, e);
          deferred := deferred + [e];
        } else {
          dict := dict[e.key := e.value];
        }
      }
      ok := true;
    }

    /** Outside the mutex: decode what was put aside, with others at work. */
    method Decode(t: Tid, ghost rows: seq<Entry>, collected: map<Key, Value>, deferred: seq<Entry>) returns (ok: bool, dict: map<Key, Value>)
      requires Valid() && OthersOwn() && kept == Flat(deferred) && RowsOK(rows)
      requires forall i :: 0 <= i < |rows| ==> Placed(rows[i], collected, deferred)
      requires (forall key :: key in collected ==> HasKey(rows, key)) && (forall e :: e in deferred ==> e in rows)
      modifies this`count, this`version, this`refs, this`cache, this`past, this`boundary, this`kept, this`tries, entries
      ensures Valid() && OthersOwn() && kept == [] && old(past) <= past
      ensures CacheOf(t) == old(CacheOf(t)) && Boundary(t) == old(Boundary(t))
      ensures ok == Smooth(old(tries)) && tries >= old(tries) && (ok ==> dict == Contents(rows))
    {
      dict := collected;
      for i := 0 to |deferred|
        invariant Valid() && OthersOwn() && kept == Flat(deferred[i..]) && old(past) <= past
        invariant CacheOf(t) == old(CacheOf(t)) && Boundary(t) == old(Boundary(t))
        invariant Smooth(old(tries)) && tries >= old(tries)
        invariant forall j :: 0 <= j < |rows| ==> Placed(rows[j], dict, deferred[i..])
        invariant forall key :: key in dict ==> HasKey(rows, key)
      {
        var e := deferred[i];
        assert deferred[i..][0] == e && deferred[i..][1..] == deferred[i+1..];
        Others(t);
        Alive(e, Flat(deferred[i+1..]));
        var v := Loads(e);
        if v.None? {
          Release(deferred[i..]);
          return false, dict;
        }
        PlacedNext(rows, dict, deferred[i..]);
        dict := dict[e.key := v.value];
        ReleaseOne(e, Flat(deferred[i+1..]));
      }
      forall key ensures key in dict <==> HasKey(rows, key) {
        if HasKey(rows, key) { var j :| 0 <= j < |rows| && rows[j].key == key; assert Placed(rows[j], dict, []); }
      }
      assert deferred[|deferred|..] == [];
      ContentsSame(rows, dict);
      ok := true;
    }

    lemma Alive(e: Entry, rest: seq<Cown>)
      requires Valid() && OthersOwn() && kept == e.pins + rest
      ensures forall c :: c in e.pins ==> Refs(c) > 0
    {
      forall c | c in e.pins ensures Refs(c) > 0 {
        assert Outside(c) >= Times(c, kept);
        TimesAppend(c, e.pins, rest);
        TimesIn(c, e.pins);
      }
    }

    /** noticeboard_snapshot: within one behavior always the same map; and that map
        was the board's at some moment since the behavior began, during this call if
        it is the behavior's first.  It fails if and only if something it tries does. */
    method Snapshot(t: Tid) returns (r: Option<map<Key, Value>>)
      requires Valid() && OthersOwn() && kept == []
      modifies this`count, this`version, this`refs, this`cache, this`past, this`boundary, this`kept, this`tries, entries
      ensures Valid() && OthersOwn() && kept == [] && old(past) <= past && Boundary(t) == old(Boundary(t))
      ensures old(CacheOf(t)).Cached? && old(CacheOf(t)).checked ==> r == Some(old(CacheOf(t)).contents) && CacheOf(t) == old(CacheOf(t))
      ensures if r.None? then CacheOf(t).NoCache? else CacheOf(t).Cached? && CacheOf(t).checked && CacheOf(t).contents == r.value
      ensures r.Some? ==> Boundary(t) <= CacheOf(t).version < |past| && past[CacheOf(t).version] == r.value
      ensures r.Some? && !(old(CacheOf(t)).Cached? && old(CacheOf(t)).checked) ==> old(version) <= CacheOf(t).version
      ensures r.Some? == Smooth(old(tries)) && tries >= old(tries)
      ensures old(CacheOf(t)).Cached? && (old(CacheOf(t)).checked || version == old(CacheOf(t)).version) ==>
                r == Some(old(CacheOf(t)).contents) && tries == old(tries)
    {
      if CacheOf(t).Cached? {
        assert CacheOK(t);
        if CacheOf(t).checked { return Some(CacheOf(t).contents); }
        Others(t);
        assert CacheOK(t);
        if version == CacheOf(t).version {
          Remember(t, CacheOf(t).contents, version);
          return Some(CacheOf(t).contents);
        }
        DropCache(t);
      }
      r := Rebuild(t);
    }

    /** The rows as they are at some moment, under the mutex, then decoded outside it. */
    method Gather(t: Tid) returns (ok: bool, built: nat, dict: map<Key, Value>)
      requires Valid() && OthersOwn() && kept == []
      modifies this`count, this`version, this`refs, this`cache, this`past, this`boundary, this`kept, this`tries, entries
      ensures Valid() && OthersOwn() && kept == [] && old(past) <= past
      ensures CacheOf(t) == old(CacheOf(t)) && Boundary(t) == old(Boundary(t))
      ensures ok == Smooth(old(tries)) && tries >= old(tries)
      ensures old(version) <= built < |past| && (ok ==> past[built] == dict)
    {
      Others(t);
      var deferred;
      ok, built, dict, deferred := Collect();
      ghost var rows := Rows();
      if ok {
        ok, dict := Decode(t, rows, dict, deferred);
      } else {
        Release(deferred);
      }
    }

    method Rebuild(t: Tid) returns (r: Option<map<Key, Value>>)
      requires Valid() && OthersOwn() && kept == [] && CacheOf(t).NoCache?
      modifies this`count, this`version, this`refs, this`cache, this`past, this`boundary, this`kept, this`tries, entries
      ensures Valid() && OthersOwn() && kept == [] && old(past) <= past && Boundary(t) == old(Boundary(t))
      ensures if r.None? then CacheOf(t).NoCache? else CacheOf(t).Cached? && CacheOf(t).checked && CacheOf(t).contents == r.value
      ensures r.Some? == Smooth(old(tries)) && tries >= old(tries)
      ensures r.Some? ==> old(version) <= CacheOf(t).version < |past| && past[CacheOf(t).version] == r.value
    {
      r := None;
      var ok := Attempt();            // the dict
      if !ok { return; }
      r := Fill(t);
    }

    /** ... once there is a dict to fill. */
    method Fill(t: Tid) returns (r: Option<map<Key, Value>>)
      requires Valid() && OthersOwn() && kept == [] && CacheOf(t).NoCache?
      modifies this`count, this`version, this`refs, this`cache, this`past, this`boundary, this`kept, this`tries, entries
      ensures Valid() && OthersOwn() && kept == [] && old(past) <= past && Boundary(t) == old(Boundary(t))
      ensures if r.None? then CacheOf(t).NoCache? else CacheOf(t).Cached? && CacheOf(t).checked && CacheOf(t).contents == r.value
      ensures r.Some? == Smooth(old(tries)) && tries >= old(tries)
      ensures r.Some? ==> old(version) <= CacheOf(t).version < |past| && past[CacheOf(t).version] == r.value
    {
      r := None;
      var ok, built, dict := Gather(t);
      if ok { ok := Attempt(); }      // the proxy
      if ok {
        Remember(t, dict, built);
        r := Some(dict);
      }
    }

    method Remember(t: Tid, dict: map<Key, Value>, built: nat)
      requires Valid() && Boundary(t) <= built < |past| && past[built] == dict
      modifies this`cache
      ensures Valid() && cache == old(cache)[t := Cached(dict, built, true)]
    {
      cache := cache[t := Cached(dict, built, true)];
      forall u ensures CacheOK(u) { assert old(CacheOK(u)); }
    }
  }

  /** The row of the same key is replaced, or the new one goes behind the others. */
  ghost predicate With(rows: seq<Entry>, e: Entry, rows': seq<Entry>) {
    exists i :: Fits(rows, i, e) && rows' == Placing(rows, i, e)
  }

  /** The row of that key is gone, the others keep their order. */
  ghost predicate Less(rows: seq<Entry>, key: Key, rows': seq<Entry>) {
    exists i :: 0 <= i < |rows| && rows[i].key == key && rows' == Without(rows, i)
  }

  /** A row is in the dict already, or among those still to be decoded. */
  predicate Placed(e: Entry, dict: map<Key, Value>, deferred: seq<Entry>) {
    (e.key in dict && dict[e.key] == e.value) || e in deferred
  }

  lemma PlacedNext(rows: seq<Entry>, dict: map<Key, Value>, deferred: seq<Entry>)
    requires RowsOK(rows) && deferred != [] && deferred[0] in rows
    requires forall j :: 0 <= j < |rows| ==> Placed(rows[j], dict, deferred)
    ensures forall j :: 0 <= j < |rows| ==> Placed(rows[j], dict[deferred[0].key := deferred[0].value], deferred[1..])
  {
    var e := deferred[0];
    assert deferred == [e] + deferred[1..];
    var k :| 0 <= k < |rows| && rows[k] == e;
    forall j | 0 <= j < |rows| ensures Placed(rows[j], dict[e.key := e.value], deferred[1..]) {
      assert Placed(rows[j], dict, deferred);
      if rows[j].key == e.key { assert j == k; }
    }
  }
}
