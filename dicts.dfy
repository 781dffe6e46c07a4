/** Insertion-ordered string-keyed mappings: a Python `dict` with string keys, and a Blender
    `CollectionProperty` whose items are looked up by name. Both keep their entries in
    insertion order; assigning to a present key replaces its value in place, assigning to an
    absent key appends a new entry. */
module Dicts {

  type Dict<V> = seq<(string, V)>

  /** Position of the first entry named `k`, or `|d|` when there is none. */
  function KeyIndex<V>(d: Dict<V>, k: string): (i: nat)
    ensures i <= |d|
    ensures i < |d| ==> d[i].0 == k
    ensures forall j :: 0 <= j < i ==> d[j].0 != k
  {
    if d == [] then 0
    else if d[0].0 == k then 0
    else 1 + KeyIndex(d[1..], k)
  }

  predicate HasKey<V>(d: Dict<V>, k: string) {
    KeyIndex(d, k) < |d|
  }

  lemma HasKeyIff<V>(d: Dict<V>, k: string)
    ensures HasKey(d, k) <==> exists i :: 0 <= i < |d| && d[i].0 == k
  {
  }

  /** `d[k]`. */
  function Get<V>(d: Dict<V>, k: string): V
    requires HasKey(d, k)
  {
    d[KeyIndex(d, k)].1
  }

  /** No key occurs twice, as in every Python dict. */
  predicate UniqueKeys<V>(d: Dict<V>) {
    forall i, j :: 0 <= i < j < |d| ==> d[i].0 != d[j].0
  }

  function Keys<V>(d: Dict<V>): (ks: seq<string>)
    ensures |ks| == |d|
    ensures forall i :: 0 <= i < |d| ==> ks[i] == d[i].0
  {
    seq(|d|, i requires 0 <= i < |d| => d[i].0)
  }

  lemma KeysSnoc<V>(d: Dict<V>, e: (string, V))
    ensures Keys(d + [e]) == Keys(d) + [e.0]
  {
  }

  /** `d.values()`, in insertion order. */
  function Values<V>(d: Dict<V>): (vs: seq<V>)
    ensures |vs| == |d|
    ensures forall i :: 0 <= i < |d| ==> vs[i] == d[i].1
  {
    seq(|d|, i requires 0 <= i < |d| => d[i].1)
  }

  /** `d[k] = v`: overwrite the first entry named `k` in place, or append a new entry. */
  function Put<V>(d: Dict<V>, k: string, v: V): Dict<V> {
    var i := KeyIndex(d, k);
    if i < |d| then d[i := (k, v)] else d + [(k, v)]
  }

  /** After `d[k] = v`, `k` maps to `v`; every other key is present iff it was, with its old value. */
  lemma PutProps<V>(d: Dict<V>, k: string, v: V)
    ensures HasKey(Put(d, k, v), k) && Get(Put(d, k, v), k) == v
    ensures forall k' :: k' != k ==> (HasKey(Put(d, k, v), k') <==> HasKey(d, k'))
    ensures forall k' :: k' != k && HasKey(d, k') ==> Get(Put(d, k, v), k') == Get(d, k')
  {
    var r := Put(d, k, v);
    var i := KeyIndex(d, k);
    if i < |d| {
      KeyIndexSame(d, r, k, i);
      forall k' | k' != k ensures KeyIndex(r, k') == KeyIndex(d, k') {
        KeyIndexSame(d, r, k', i);
      }
    } else {
      KeyIndexIs(r, k, |d|);
      forall k' | k' != k ensures KeyIndex(r, k') == (if KeyIndex(d, k') < |d| then KeyIndex(d, k') else |r|) {
        KeyIndexAppend(d, (k, v), k');
      }
    }
  }

  /** `d[k] = v` keeps every entry but the one it overwrites, and only appends when `k` is new. */
  lemma PutShape<V>(d: Dict<V>, k: string, v: V)
    ensures HasKey(d, k) ==> |Put(d, k, v)| == |d|
    ensures !HasKey(d, k) ==> Put(d, k, v) == d + [(k, v)]
    ensures forall i :: 0 <= i < |Put(d, k, v)| ==> Put(d, k, v)[i] == (k, v) || (i < |d| && Put(d, k, v)[i] == d[i])
  {
  }

  /** The first entry named `k` is the one with no entry named `k` before it. */
  lemma KeyIndexIs<V>(d: Dict<V>, k: string, i: nat)
    requires i <= |d| && (i < |d| ==> d[i].0 == k)
    requires forall j :: 0 <= j < i ==> d[j].0 != k
    ensures KeyIndex(d, k) == i
  {
  }

  /** Replacing an entry by one with another key does not move the first entry of `k`. */
  lemma KeyIndexSame<V>(d: Dict<V>, r: Dict<V>, k: string, i: nat)
    requires |r| == |d| && i < |d| && r[i].0 == d[i].0
    requires forall j :: 0 <= j < |d| && j != i ==> r[j] == d[j]
    ensures KeyIndex(r, k) == KeyIndex(d, k)
  {
    var b := KeyIndex(d, k);
    assert forall j :: 0 <= j < b ==> r[j].0 == d[j].0;
    KeyIndexIs(r, k, b);
  }

  lemma KeyIndexAppend<V>(d: Dict<V>, e: (string, V), k: string)
    requires e.0 != k
    ensures KeyIndex(d + [e], k) == if KeyIndex(d, k) < |d| then KeyIndex(d, k) else |d| + 1
  {
    var b := KeyIndex(d, k);
    KeyIndexIs(d + [e], k, if b < |d| then b else |d| + 1);
  }

  /** `Put` keeps keys unique. */
  lemma PutUnique<V>(d: Dict<V>, k: string, v: V)
    requires UniqueKeys(d)
    ensures UniqueKeys(Put(d, k, v))
  {
    var r := Put(d, k, v);
    PutShape(d, k, v);
    if !HasKey(d, k) {
      forall i, j | 0 <= i < j < |r| ensures r[i].0 != r[j].0 {
        if j == |d| {
          assert r[i] == d[i];
          assert d[i].0 != k;
        }
      }
    }
  }

  /** Assign every entry of `e` to `d`, in the order of `e`: `d.update(e)`, or the
      keyed-update loop over `e.items()`. */
  function PutAll<V>(d: Dict<V>, e: Dict<V>): Dict<V>
    decreases |e|
  {
    if e == [] then d else PutAll(Put(d, e[0].0, e[0].1), e[1..])
  }

  /** One assignment of the keyed-update loop over `e`. */
  lemma PutAllStep<V>(d: Dict<V>, e: Dict<V>, i: nat)
    requires i < |e|
    ensures PutAll(d, e[i..]) == PutAll(Put(d, e[i].0, e[i].1), e[i + 1..])
  {
    assert e[i..][0] == e[i] && e[i..][1..] == e[i + 1..];
  }

  /** The keyed-update loop over `e.items()`: each key is looked up in the mapping and its
      entry overwritten in place when present, a new entry appended otherwise. */
  method PutEach<V>(d: Dict<V>, e: Dict<V>) returns (r: Dict<V>)
    ensures r == PutAll(d, e)
  {
    r := d;
    var i := 0;
    while i < |e|
      invariant 0 <= i <= |e|
      invariant PutAll(r, e[i..]) == PutAll(d, e)
    {
      var (key, v) := e[i];
      PutAllStep(r, e, i);
      var j := KeyIndex(r, key);
      if j < |r| {
        r := r[j := (key, v)];
      } else {
        r := r + [(key, v)];
      }
      i := i + 1;
    }
    assert e[i..] == [];
  }

  /** After `PutAll`, a key is present iff it was present before or is assigned; an assigned
      key maps to its new value; a key that is not assigned keeps its old value. */
  lemma {:induction false} PutAllProps<V>(d: Dict<V>, e: Dict<V>)
    requires UniqueKeys(e)
    ensures forall k :: HasKey(PutAll(d, e), k) <==> HasKey(d, k) || HasKey(e, k)
    ensures forall k :: HasKey(e, k) ==> Get(PutAll(d, e), k) == Get(e, k)
    ensures forall k :: !HasKey(e, k) && HasKey(d, k) ==> Get(PutAll(d, e), k) == Get(d, k)
    decreases |e|
  {
    if e != [] {
      var d1 := Put(d, e[0].0, e[0].1);
      PutProps(d, e[0].0, e[0].1);
      var t := e[1..];
      assert UniqueKeys(t);
      PutAllProps(d1, t);
      forall k ensures HasKey(e, k) <==> k == e[0].0 || HasKey(t, k) {
        HasKeyIff(e, k);
        HasKeyIff(t, k);
        if HasKey(e, k) && k != e[0].0 {
          var i :| 0 <= i < |e| && e[i].0 == k;
          assert t[i - 1].0 == k;
        }
        if HasKey(t, k) {
          var i :| 0 <= i < |t| && t[i].0 == k;
          assert e[i + 1].0 == k;
        }
      }
      forall k | HasKey(t, k) ensures Get(t, k) == Get(e, k) && k != e[0].0 {
        var i := KeyIndex(t, k);
        assert e[i + 1] == t[i];
        assert k != e[0].0;
        assert forall j :: 1 <= j < i + 1 ==> e[j] == t[j - 1];
        KeyIndexIs(e, k, i + 1);
      }
    }
  }

  /** `PutAll` keeps keys unique. */
  lemma {:induction false} PutAllUnique<V>(d: Dict<V>, e: Dict<V>)
    requires UniqueKeys(d)
    ensures UniqueKeys(PutAll(d, e))
    decreases |e|
  {
    if e != [] {
      PutUnique(d, e[0].0, e[0].1);
      PutAllUnique(Put(d, e[0].0, e[0].1), e[1..]);
    }
  }

  /** Assigning only keys that are absent appends the entries in order. */
  lemma {:induction false} PutAllFresh<V>(d: Dict<V>, e: Dict<V>)
    requires UniqueKeys(e)
    requires forall i :: 0 <= i < |e| ==> !HasKey(d, e[i].0)
    ensures PutAll(d, e) == d + e
    decreases |e|
  {
    if e != [] {
      var d1 := d + [e[0]];
      assert Put(d, e[0].0, e[0].1) == d1 by { PutAbsent(d, e[0].0, e[0].1); }
      FreshTail(d, e);
      PutAllFresh(d1, e[1..]);
      HeadTail(d, e);
    }
  }

  lemma HeadTail<V>(d: Dict<V>, e: Dict<V>)
    requires e != []
    ensures (d + [e[0]]) + e[1..] == d + e
  {
    assert e == [e[0]] + e[1..];
  }

  /** Assigning an absent key appends its entry. */
  lemma PutAbsent<V>(d: Dict<V>, k: string, v: V)
    requires !HasKey(d, k)
    ensures Put(d, k, v) == d + [(k, v)]
  {
  }

  lemma FreshTail<V>(d: Dict<V>, e: Dict<V>)
    requires UniqueKeys(e) && e != []
    requires forall i :: 0 <= i < |e| ==> !HasKey(d, e[i].0)
    ensures UniqueKeys(e[1..])
    ensures forall i :: 0 <= i < |e[1..]| ==> !HasKey(d + [e[0]], e[1..][i].0)
  {
    var t := e[1..];
    forall i | 0 <= i < |t| ensures !HasKey(d + [e[0]], t[i].0) {
      assert t[i] == e[i + 1];
      KeyIndexAppend(d, e[0], t[i].0);
    }
  }

  /** Every entry after `PutAll(d, e)` is an entry of `d` or of `e`. */
  lemma {:induction false} PutAllEntries<V>(d: Dict<V>, e: Dict<V>)
    ensures forall i :: 0 <= i < |PutAll(d, e)| ==> PutAll(d, e)[i] in d || PutAll(d, e)[i] in e
    decreases |e|
  {
    if e != [] {
      var d1 := Put(d, e[0].0, e[0].1);
      PutShape(d, e[0].0, e[0].1);
      PutAllEntries(d1, e[1..]);
      assert forall x :: x in e[1..] ==> x in e;
    }
  }

  /** `d[k] = v` leaves every entry's key where it was and only ever appends. */
  lemma PutKeepsKeys<V>(d: Dict<V>, k: string, v: V)
    ensures |Put(d, k, v)| >= |d|
    ensures forall i :: 0 <= i < |d| ==> Put(d, k, v)[i].0 == d[i].0
  {
  }

  /** The same for a sequence of assignments: the old keys stay in their places, new ones follow. */
  lemma {:induction false} PutAllKeepsKeys<V>(d: Dict<V>, e: Dict<V>)
    ensures |PutAll(d, e)| >= |d|
    ensures forall i :: 0 <= i < |d| ==> PutAll(d, e)[i].0 == d[i].0
    decreases |e|
  {
    if e != [] {
      var d1 := Put(d, e[0].0, e[0].1);
      PutKeepsKeys(d, e[0].0, e[0].1);
      PutAllKeepsKeys(d1, e[1..]);
    }
  }
}
