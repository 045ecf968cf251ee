/** The noticeboard's rows, and the map and the pins they stand for. */
module NoticeboardRows {
  import opened Wrappers

  const MAX_ENTRIES: nat := 64   // NB_MAX_ENTRIES
  const KEY_SIZE: nat := 64      // NB_KEY_SIZE

  type Byte = b: int | 0 <= b < 256
  type Key = seq<Byte>
  type Value = nat               // the serialized data
  type Cown = nat

  /** A row; `pins` are the cowns its value refers to. */
  datatype Entry = Entry(key: Key, value: Value, pickled: bool, pins: seq<Cown>)

  const Blank := Entry([], 0, false, [])

  datatype KeyFault = TooLong | HasNul

  function Fault(key: Key): (f: Option<KeyFault>) {
    if |key| >= KEY_SIZE then Some(TooLong) else if 0 in key then Some(HasNul) else None
  }

  // -------------------------------------------------------------- C strings

  /** The 64-byte buffer: up to 63 bytes by strncpy, and NULs. */
  function Buffer(key: Key): (b: seq<Byte>)
    ensures |b| == KEY_SIZE
  {
    var copied := if |key| < KEY_SIZE then key else key[..KEY_SIZE-1];
    copied + seq(KEY_SIZE - |copied|, _ => 0)
  }

  /** What a buffer is read as: the bytes up to the first NUL. */
  function CString(b: seq<Byte>): (key: Key)
    ensures |key| <= |b| && 0 !in key
  {
    if b == [] || b[0] == 0 then [] else [b[0]] + CString(b[1..])
  }

  lemma {:induction false} CStringOf(key: Key, rest: seq<Byte>)
    requires 0 !in key && rest != [] && rest[0] == 0
    ensures CString(key + rest) == key
  {
    if key == [] {
      assert key + rest == rest;
    } else {
      assert (key + rest)[0] == key[0] && (key + rest)[1..] == key[1..] + rest;
      CStringOf(key[1..], rest);
    }
  }

  lemma {:induction false} CStringEnds(b: seq<Byte>, k: nat)
    requires k < |b| && b[k] == 0
    ensures |CString(b)| <= k
  {
    if k > 0 && b[0] != 0 { CStringEnds(b[1..], k - 1); }
  }

  /** A key is refused exactly when the table would not give it back. */
  lemma AcceptedIff(key: Key)
    ensures Fault(key) == None <==> CString(Buffer(key)) == key
    ensures Fault(key) == Some(TooLong) <==> KEY_SIZE <= |key|
  {
    CStringEnds(Buffer(key), KEY_SIZE - 1);
    if Fault(key) == None { CStringOf(key, seq(KEY_SIZE - |key|, _ => 0)); }
  }

  /** strncmp(a, b, n) == 0 */
  predicate StrSame(a: seq<Byte>, b: seq<Byte>, n: nat)
    requires n <= |a| && n <= |b|
  {
    n == 0 || (a[0] == b[0] && (a[0] == 0 || StrSame(a[1..], b[1..], n - 1)))
  }

  lemma {:induction false} StrSameAt(a: seq<Byte>, b: seq<Byte>, n: nat, k: nat)
    requires n <= |a| && n <= |b| && StrSame(a, b, n) && k < n && 0 !in a[..k]
    ensures a[k] == b[k]
  {
    if k > 0 {
      assert a[0] in a[..k];
      assert a[1..][..k-1] == a[..k][1..];
      StrSameAt(a[1..], b[1..], n - 1, k - 1);
    }
  }

  lemma {:induction false} StrSameRefl(a: seq<Byte>, n: nat)
    requires n <= |a|
    ensures StrSame(a, a, n)
  {
    if n > 0 { StrSameRefl(a[1..], n - 1); }
  }

  lemma NoLonger(a: Key, b: Key)
    requires Fault(a) == None && Fault(b) == None && StrSame(Buffer(a), Buffer(b), KEY_SIZE)
    ensures |b| <= |a| && forall k :: 0 <= k < |b| ==> a[k] == b[k]
  {
    var A, B := Buffer(a), Buffer(b);
    forall k: nat | k <= |a| ensures A[k] == B[k] {
      assert forall j :: 0 <= j < k ==> A[..k][j] == a[j] && a[j] in a;
      StrSameAt(A, B, KEY_SIZE, k);
    }
    assert B[|a|] == 0;
    forall k | 0 <= k < |b| && k < |a| ensures a[k] == b[k] { assert A[k] == B[k]; }
  }

  lemma {:induction false} StrSameFlip(a: seq<Byte>, b: seq<Byte>, n: nat)
    requires n <= |a| && n <= |b| && StrSame(a, b, n)
    ensures StrSame(b, a, n)
  {
    if n > 0 && a[0] != 0 { StrSameFlip(a[1..], b[1..], n - 1); }
  }

  /** Comparing the buffers is comparing the keys. */
  lemma KeysCompare(a: Key, b: Key)
    requires Fault(a) == None && Fault(b) == None
    ensures StrSame(Buffer(a), Buffer(b), KEY_SIZE) <==> a == b
  {
    if a == b { StrSameRefl(Buffer(a), KEY_SIZE); }
    if StrSame(Buffer(a), Buffer(b), KEY_SIZE) {
      NoLonger(a, b);
      StrSameFlip(Buffer(a), Buffer(b), KEY_SIZE);
      NoLonger(b, a);
    }
  }

  // ------------------------------------------------------------ rows as a map

  predicate RowsOK(rows: seq<Entry>) {
    && |rows| <= MAX_ENTRIES
    && (forall i :: 0 <= i < |rows| ==> Fault(rows[i].key) == None)
    && forall i, j :: 0 <= i < j < |rows| ==> rows[i].key != rows[j].key
  }

  predicate HasKey(rows: seq<Entry>, key: Key) { exists i :: 0 <= i < |rows| && rows[i].key == key }

  function Contents(rows: seq<Entry>): (m: map<Key, Value>) {
    if rows == [] then map[] else Contents(rows[..|rows|-1])[rows[|rows|-1].key := rows[|rows|-1].value]
  }

  lemma {:induction false} ContentsKeys(rows: seq<Entry>, key: Key)
    ensures key in Contents(rows) <==> HasKey(rows, key)
  {
    if rows != [] {
      var n := |rows| - 1;
      ContentsKeys(rows[..n], key);
      if HasKey(rows, key) && rows[n].key != key {
        var i :| 0 <= i < |rows| && rows[i].key == key;
        assert rows[..n][i].key == key;
      }
      if HasKey(rows[..n], key) {
        var i :| 0 <= i < n && rows[..n][i].key == key;
        assert rows[i].key == key;
      }
      if rows[n].key == key { assert HasKey(rows, key); }
    }
  }

  lemma {:induction false} ContentsAt(rows: seq<Entry>, i: nat)
    requires RowsOK(rows) && i < |rows|
    ensures rows[i].key in Contents(rows) && Contents(rows)[rows[i].key] == rows[i].value
  {
    if i < |rows| - 1 { ContentsAt(rows[..|rows|-1], i); }
  }

  /** Two tables with the same keys and values are the same map. */
  lemma ContentsSame(rows: seq<Entry>, m: map<Key, Value>)
    requires RowsOK(rows)
    requires forall key :: key in m <==> HasKey(rows, key)
    requires forall i :: 0 <= i < |rows| ==> rows[i].key in m && m[rows[i].key] == rows[i].value
    ensures Contents(rows) == m
  {
    forall key ensures key in Contents(rows) <==> key in m { ContentsKeys(rows, key); }
    forall key | key in m ensures Contents(rows)[key] == m[key] {
      var i :| 0 <= i < |rows| && rows[i].key == key;
      ContentsAt(rows, i);
    }
  }

  lemma ContentsReplace(rows: seq<Entry>, i: nat, e: Entry)
    requires RowsOK(rows) && i < |rows| && e.key == rows[i].key
    ensures RowsOK(rows[i := e]) && Contents(rows[i := e]) == Contents(rows)[e.key := e.value]
  {
    var rows' := rows[i := e];
    forall key ensures key in Contents(rows)[e.key := e.value] <==> HasKey(rows', key) {
      ContentsKeys(rows, key);
      if HasKey(rows, key) { var j :| 0 <= j < |rows| && rows[j].key == key; assert rows'[j].key == key; }
      if HasKey(rows', key) { var j :| 0 <= j < |rows| && rows'[j].key == key; assert rows[j].key == key; }
    }
    forall j | 0 <= j < |rows'| ensures rows'[j].key in Contents(rows)[e.key := e.value]
      && Contents(rows)[e.key := e.value][rows'[j].key] == rows'[j].value
    {
      ContentsAt(rows, j);
    }
    ContentsSame(rows', Contents(rows)[e.key := e.value]);
  }

  function Without(rows: seq<Entry>, i: nat): (r: seq<Entry>)
    requires i < |rows|
  {
    rows[..i] + rows[i+1..]
  }

  lemma WithoutAt(rows: seq<Entry>, i: nat, j: nat)
    requires i < |rows| && j < |rows| && j != i
    ensures var k := if j < i then j else j - 1; k < |Without(rows, i)| && Without(rows, i)[k] == rows[j]
  {
  }

  lemma WithoutKeys(rows: seq<Entry>, i: nat, key: Key)
    requires RowsOK(rows) && i < |rows|
    ensures HasKey(Without(rows, i), key) <==> HasKey(rows, key) && key != rows[i].key
  {
    var r := Without(rows, i);
    if HasKey(rows, key) && key != rows[i].key {
      var j :| 0 <= j < |rows| && rows[j].key == key;
      WithoutAt(rows, i, j);
    }
    if HasKey(r, key) {
      var k :| 0 <= k < |r| && r[k].key == key;
      assert r[k] == rows[if k < i then k else k + 1];
    }
  }

  lemma ContentsWithout(rows: seq<Entry>, i: nat)
    requires RowsOK(rows) && i < |rows|
    ensures RowsOK(Without(rows, i)) && Contents(Without(rows, i)) == Contents(rows) - {rows[i].key}
  {
    var r, m := Without(rows, i), Contents(rows) - {rows[i].key};
    forall j | 0 <= j < |r| ensures r[j] == rows[if j < i then j else j + 1] { }
    forall key ensures key in m <==> HasKey(r, key) {
      ContentsKeys(rows, key);
      WithoutKeys(rows, i, key);
    }
    forall j | 0 <= j < |r| ensures r[j].key in m && m[r[j].key] == r[j].value {
      ContentsAt(rows, if j < i then j else j + 1);
    }
    ContentsSame(r, m);
  }

  // --------------------------------------------------------------- references

  function Times(c: Cown, pins: seq<Cown>): (n: nat) {
    if pins == [] then 0 else Times(c, pins[..|pins|-1]) + if pins[|pins|-1] == c then 1 else 0
  }

  /** How many references the rows hold on cown `c`. */
  function Held(c: Cown, rows: seq<Entry>): (n: nat) {
    if rows == [] then 0 else Held(c, rows[..|rows|-1]) + Times(c, rows[|rows|-1].pins)
  }

  lemma {:induction false} TimesAppend(c: Cown, a: seq<Cown>, b: seq<Cown>)
    ensures Times(c, a + b) == Times(c, a) + Times(c, b)
  {
    if b == [] {
      assert a + b == a;
    } else {
      TimesAppend(c, a, b[..|b|-1]);
      assert (a + b)[..|a + b|-1] == a + b[..|b|-1];
    }
  }

  lemma {:induction false} HeldReplace(c: Cown, rows: seq<Entry>, i: nat, e: Entry)
    requires i < |rows|
    ensures Held(c, rows[i := e]) == Held(c, rows) - Times(c, rows[i].pins) + Times(c, e.pins)
  {
    var n := |rows| - 1;
    if i < n {
      HeldReplace(c, rows[..n], i, e);
      assert rows[i := e][..n] == rows[..n][i := e];
    } else {
      assert rows[i := e][..n] == rows[..n];
    }
  }

  lemma {:induction false} HeldWithout(c: Cown, rows: seq<Entry>, i: nat)
    requires i < |rows|
    ensures Held(c, Without(rows, i)) == Held(c, rows) - Times(c, rows[i].pins)
  {
    var n := |rows| - 1;
    if i < n {
      HeldWithout(c, rows[..n], i);
      assert Without(rows, i)[..n-1] == Without(rows[..n], i);
    } else {
      assert Without(rows, i) == rows[..n];
    }
  }

  /** The pins of some rows, in order. */
  function Flat(rows: seq<Entry>): (cs: seq<Cown>) {
    if rows == [] then [] else rows[0].pins + Flat(rows[1..])
  }

  lemma {:induction false} FlatAppend(rows: seq<Entry>, e: Entry)
    ensures Flat(rows + [e]) == Flat(rows) + e.pins
  {
    if rows == [] {
      assert rows + [e] == [e] && [e][1..] == [];
    } else {
      FlatAppend(rows[1..], e);
      assert (rows + [e])[1..] == rows[1..] + [e];
    }
  }

  lemma {:induction false} TimesNone(c: Cown, pins: seq<Cown>)
    requires c !in pins
    ensures Times(c, pins) == 0
  {
    if pins != [] { TimesNone(c, pins[..|pins|-1]); }
  }

  lemma {:induction false} TimesIn(c: Cown, pins: seq<Cown>)
    requires c in pins
    ensures Times(c, pins) > 0
  {
    var n := |pins| - 1;
    if pins[n] != c {
      assert pins == pins[..n] + [pins[n]];
      TimesIn(c, pins[..n]);
    }
  }

  lemma {:induction false} HeldFlat(c: Cown, rows: seq<Entry>)
    ensures Times(c, Flat(rows)) == Held(c, rows)
  {
    if rows != [] {
      var n := |rows| - 1;
      HeldFlat(c, rows[..n]);
      FlatAppend(rows[..n], rows[n]);
      assert rows == rows[..n] + [rows[n]];
      TimesAppend(c, Flat(rows[..n]), rows[n].pins);
    }
  }

  // ------------------------------------------------------------ a row is stored

  /** A new key goes behind the others; an old one keeps its place. */
  function Placing(rows: seq<Entry>, i: nat, e: Entry): (r: seq<Entry>) {
    if i < |rows| then rows[i := e] else rows + [e]
  }

  function Replaced(rows: seq<Entry>, i: nat): (pins: seq<Cown>) { if i < |rows| then rows[i].pins else [] }

  predicate Fits(rows: seq<Entry>, i: nat, e: Entry) {
    && i <= |rows| && Fault(e.key) == None
    && if i < |rows| then rows[i].key == e.key else !HasKey(rows, e.key) && |rows| < MAX_ENTRIES
  }

  lemma PlacingContents(rows: seq<Entry>, i: nat, e: Entry)
    requires RowsOK(rows) && Fits(rows, i, e)
    ensures RowsOK(Placing(rows, i, e)) && Contents(Placing(rows, i, e)) == Contents(rows)[e.key := e.value]
  {
    if i < |rows| {
      ContentsReplace(rows, i, e);
    } else {
      assert (rows + [e])[..|rows|] == rows;
      assert forall j :: 0 <= j < |rows| ==> rows[j].key != e.key;
    }
  }

  lemma PlacingHeld(c: Cown, rows: seq<Entry>, i: nat, e: Entry)
    requires RowsOK(rows) && Fits(rows, i, e)
    ensures Held(c, Placing(rows, i, e)) == Held(c, rows) - Times(c, Replaced(rows, i)) + Times(c, e.pins)
  {
    if i < |rows| { HeldReplace(c, rows, i, e); } else { assert (rows + [e])[..|rows|] == rows; }
  }
}
