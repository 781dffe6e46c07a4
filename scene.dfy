/** Scene bookkeeping of src/scenemanager/scenesetup.py. The state is Blender's data
    (collections with their child collections and linked objects) together with the
    add-on's properties of the active scene: its root collection, the name-to-collection
    map `collection_map` and the list of files to import. */
module SceneSetup {
  import opened Common
  import opened Dicts
  import opened Strings
  import opened Hierarchy
  import Objects

  type ObjId = nat

  /** The attributes of an object that the import sets: its name, the name of its mesh data,
      the name given to its materials, its `src_file` property, its parent and its modifier
      stack. */
  datatype ObjAttrs = ObjAttrs(name: string, meshName: string, matName: string, srcFile: string,
                               parent: Option<ObjId>, mods: seq<Objects.Modifier<ObjId>>)

  /** One entry of the scene's `import_files` list. */
  datatype ImportFile = ImportFile(path: string, category: string)

  /** What `link_to_parent` accepts: one collection, or an iterable of them. */
  datatype Children = One(c: CollId) | Many(cs: seq<CollId>)

  function AsList(k: Children): seq<CollId> {
    match k
    case One(c) => [c]
    case Many(cs) => cs
  }

  /** The keys of the fixed collection layout. */
  const SRC := "src"
  const EXPORT := "export"
  const FAILED := "_failed"
  const IGNORE := "_ignore"
  const MANDATORY := "_mandatory"

  /** The absolute path of a file found below the import root, from its relative parts. */
  function ImportPath(rootAbs: string, rel: seq<string>): string {
    rootAbs + "/" + Join(rel, '/')
  }

  /** `get_subfolders` on the names of the sub-directories: hidden ones dropped, the rest lowercased. */
  function Subfolders(dirNames: seq<string>): (r: seq<string>)
    ensures forall i :: 0 <= i < |r| ==> NoUpper(r[i])
    ensures forall n :: n in dirNames && !(|n| > 0 && n[0] == '.') ==> Lower(n) in r
    ensures forall x :: x in r ==> exists n :: n in dirNames && !(|n| > 0 && n[0] == '.') && x == Lower(n)
    ensures forall x :: x in r ==> NoUpper(x)
  {
    if dirNames == [] then []
    else if |dirNames[0]| > 0 && dirNames[0][0] == '.' then Subfolders(dirNames[1..])
    else [Lower(dirNames[0])] + Subfolders(dirNames[1..])
  }

  /** Nothing occurs twice in `s`. */
  predicate NoDups<T(==)>(s: seq<T>) {
    forall i, j :: 0 <= i < j < |s| ==> s[i] != s[j]
  }

  /** `xs` without any occurrence of `x`: what unlinking `x` leaves. */
  function Without<T(==,!new)>(xs: seq<T>, x: T): (r: seq<T>)
    ensures x !in r
    ensures forall y :: y != x ==> (y in r <==> y in xs)
    ensures x !in xs ==> r == xs
  {
    if xs == [] then []
    else if xs[0] == x then Without(xs[1..], x)
    else [xs[0]] + Without(xs[1..], x)
  }

  /** Assigning a value larger than every present one keeps keys and values distinct. */
  lemma PutFresh(d: Dict<nat>, k: string, c: nat)
    requires UniqueKeys(d) && NoDups(Values(d))
    requires forall j :: 0 <= j < |d| ==> d[j].1 < c
    ensures UniqueKeys(Put<CollId>(d, k, c)) && NoDups(Values(Put<CollId>(d, k, c)))
    ensures forall j :: 0 <= j < |Put<CollId>(d, k, c)| ==> Put<CollId>(d, k, c)[j] == (k, c) || (j < |d| && Put<CollId>(d, k, c)[j] == d[j])
  {
    PutUnique<CollId>(d, k, c);
    PutShape<CollId>(d, k, c);
    var r := Put<CollId>(d, k, c);
    forall i, j | 0 <= i < j < |r| ensures r[i].1 != r[j].1 {
      if r[i] != (k, c) && r[j] != (k, c) {
        assert Values(d)[i] != Values(d)[j];
      }
    }
  }

  /** The dict built by `{n: bpy.data.collections.new(n) for n in names}` when the next
      collection id is `lo`: the i-th name gets collection `lo + i`. */
  function NameDict(names: seq<string>, lo: nat): Dict<CollId>
    decreases |names|
  {
    if names == [] then []
    else Put<CollId>(NameDict(names[..|names| - 1], lo), names[|names| - 1], lo + |names| - 1)
  }

  /** No name is a key twice. */
  lemma {:induction false} NameDictUnique(names: seq<string>, lo: nat)
    ensures UniqueKeys(NameDict(names, lo))
    decreases |names|
  {
    if names != [] {
      var n := |names| - 1;
      NameDictUnique(names[..n], lo);
      PutUnique<CollId>(NameDict(names[..n], lo), names[n], lo + n);
    }
  }

  /** The keys are exactly the given names. */
  lemma {:induction false} NameDictHasKey(names: seq<string>, lo: nat, k: string)
    ensures HasKey(NameDict(names, lo), k) <==> k in names
    decreases |names|
  {
    if names != [] {
      var n := |names| - 1;
      NameDictHasKey(names[..n], lo, k);
      PutProps<CollId>(NameDict(names[..n], lo), names[n], lo + n);
      assert names == names[..n] + [names[n]];
    }
  }

  /** When the names are distinct, the keys are in the order of the names. */
  lemma {:induction false} NameDictOrder(names: seq<string>, lo: nat)
    requires NoDups(names)
    ensures Keys(NameDict(names, lo)) == names
    decreases |names|
  {
    if names != [] {
      var n := |names| - 1;
      var init := names[..n];
      NoDupsInit(names);
      NameDictOrder(init, lo);
      NameDictHasKey(init, lo, names[n]);
      var d := NameDict(init, lo);
      PutAbsent<CollId>(d, names[n], lo + n);
      KeysSnoc(d, (names[n], lo + n));
    }
  }

  /** Dropping the last of distinct names leaves distinct names without it. */
  lemma NoDupsInit<T>(names: seq<T>)
    requires NoDups(names) && names != []
    ensures NoDups(names[..|names| - 1]) && names[|names| - 1] !in names[..|names| - 1]
    ensures names == names[..|names| - 1] + [names[|names| - 1]]
  {
  }

  /** Each key maps to a distinct collection, the one created with that name. */
  lemma {:induction false} NameDictValues(names: seq<string>, lo: nat)
    ensures NoDups(Values(NameDict(names, lo)))
    ensures forall j :: 0 <= j < |NameDict(names, lo)| ==>
              lo <= NameDict(names, lo)[j].1 < lo + |names| && names[NameDict(names, lo)[j].1 - lo] == NameDict(names, lo)[j].0
    decreases |names|
  {
    if names != [] {
      var n := |names| - 1;
      var init := names[..n];
      var d := NameDict(init, lo);
      NameDictValues(init, lo);
      NameDictUnique(init, lo);
      PutFresh(d, names[n], lo + n);
      var r := Put<CollId>(d, names[n], lo + n);
      assert NameDict(names, lo) == r;
      forall j | 0 <= j < |r| ensures lo <= r[j].1 < lo + |names| && names[r[j].1 - lo] == r[j].0 {
        if r[j] != (names[n], lo + n) {
          assert names[r[j].1 - lo] == init[r[j].1 - lo];
        }
      }
    }
  }

  /** For distinct names the dict lists each name with its own collection, in order. */
  lemma {:induction false} NameDictDistinct(names: seq<string>, lo: nat)
    requires NoDups(names)
    ensures |NameDict(names, lo)| == |names|
    ensures forall j :: 0 <= j < |names| ==> NameDict(names, lo)[j] == (names[j], lo + j)
    decreases |names|
  {
    if names != [] {
      var n := |names| - 1;
      var init := names[..n];
      NameDictDistinct(init, lo);
      NameDictHasKey(init, lo, names[n]);
      assert names[n] !in init;
      var d := NameDict(init, lo);
      PutShape<CollId>(d, names[n], lo + n);
      assert NameDict(names, lo) == d + [(names[n], lo + n)];
    }
  }

  /** The new, empty and unlinked collections numbered from `lo`, named in creation order. */
  function FreshColls(lo: nat, names: seq<string>): (m: Colls)
    ensures forall c :: c in m <==> lo <= c < lo + |names|
    ensures forall c :: c in m ==> m[c] == Coll(names[c - lo], [], [])
    decreases |names|
  {
    if names == [] then map[]
    else FreshColls(lo, names[..|names| - 1])[lo + |names| - 1 := Coll(names[|names| - 1], [], [])]
  }

  /** Creating collection `lo + |names|` extends the fresh collections by one. */
  lemma FreshStep(m: Colls, lo: nat, names: seq<string>, x: string)
    ensures (m + FreshColls(lo, names))[lo + |names| := Coll(x, [], [])] == m + FreshColls(lo, names + [x])
  {
    assert (names + [x])[..|names|] == names;
  }

  /** Adding unlinked collections numbered from the bound keeps the hierarchy ordered. */
  lemma FreshOrdered(cs: Colls, lo: nat, root: CollId, names: seq<string>)
    requires Ordered(cs, lo) && root in cs
    ensures Ordered(cs + FreshColls(lo, names), lo + |names|) && root in cs + FreshColls(lo, names)
  {
  }

  /** The collections of a `create_collections` call may be linked under any existing collection. */
  lemma FreshLinkable(cs: Colls, lo: nat, names: seq<string>, parent: CollId)
    requires Ordered(cs, lo) && parent in cs
    ensures var vs := Values(NameDict(names, lo));
            && (forall i :: 0 <= i < |vs| ==> parent < vs[i] && vs[i] in cs + FreshColls(lo, names))
            && NoDups(vs)
            && forall c :: c in vs ==> c !in (cs + FreshColls(lo, names))[parent].kids
  {
    NameDictValues(names, lo);
    var vs := Values(NameDict(names, lo));
    assert forall i :: 0 <= i < |vs| ==> lo <= vs[i] < lo + |names|;
  }

  /** `bpy.data.collections.new(n)` for each name `n` in turn, numbering from `lo`. */
  method AddCollections(cs: Colls, lo: nat, names: seq<string>) returns (r: Colls)
    ensures r == cs + FreshColls(lo, names)
  {
    r := cs;
    var i := 0;
    assert r == cs + FreshColls(lo, names[..0]);
    while i < |names|
      invariant 0 <= i <= |names|
      invariant r == cs + FreshColls(lo, names[..i])
    {
      FreshStep(cs, lo, names[..i], names[i]);
      assert names[..i + 1] == names[..i] + [names[i]];
      r := r[lo + i := Coll(names[i], [], [])];
      i := i + 1;
    }
    assert names[..i] == names;
  }

  /** `c1` is `c0` after `create_collections(names, parent)` with `lo` the next id and `d`
      the dict it returns: one new empty collection per name, numbered from `lo` in order, the
      dict built by the comprehension, and, when a parent is given, all the dict's collections
      appended to the parent's children; no other collection changes. */
  ghost predicate Created(c0: Colls, c1: Colls, lo: nat, names: seq<string>, parent: Option<CollId>, d: Dict<CollId>) {
    && d == NameDict(names, lo)
    && (forall c :: c in c1 <==> c in c0 || lo <= c < lo + |names|)
    && (forall c :: lo <= c < lo + |names| ==> c1[c] == Coll(names[c - lo], [], []))
    && (forall c :: c in c0 && parent != Some(c) ==> c1[c] == c0[c])
    && (parent.Some? ==> parent.value in c0 && c1[parent.value] == c0[parent.value].(kids := c0[parent.value].kids + Values(d)))
  }

  /** `create_collections(names, parent=p)`: the new collections, then the link under `p`. */
  lemma LinkedFresh(c0: Colls, lo: nat, p: CollId, names: seq<string>, c1: Colls)
    requires p in c0 && forall c :: c in c0 ==> c < lo
    requires c1 == (c0 + FreshColls(lo, names))[p := c0[p].(kids := c0[p].kids + Values(NameDict(names, lo)))]
    ensures Created(c0, c1, lo, names, Some(p), NameDict(names, lo))
  {
    var f := FreshColls(lo, names);
    forall c | lo <= c < lo + |names| ensures c1[c] == Coll(names[c - lo], [], []) {
      assert c in f && c != p;
    }
  }

  /** `create_collections(names)` without a parent: only the new collections. */
  lemma UnlinkedFresh(c0: Colls, lo: nat, names: seq<string>, c1: Colls)
    requires forall c :: c in c0 ==> c < lo
    requires c1 == c0 + FreshColls(lo, names)
    ensures Created(c0, c1, lo, names, None, NameDict(names, lo))
  {
    var f := FreshColls(lo, names);
    forall c | lo <= c < lo + |names| ensures c1[c] == Coll(names[c - lo], [], []) {
      assert c in f;
    }
  }

  /** The collections after `create_collections(names, parent)` when `lo` is the next id: the
      new empty collections and, when the parent exists, the dict's collections appended to
      its children. */
  function CreatedColls(c0: Colls, lo: nat, names: seq<string>, parent: Option<CollId>): Colls {
    var c := c0 + FreshColls(lo, names);
    if parent.Some? && parent.value in c0 then
      c[parent.value := c0[parent.value].(kids := c0[parent.value].kids + Values(NameDict(names, lo)))]
    else c
  }

  /** What `create_collections` does to the collections: one new empty collection per name,
      numbered from `lo`, all of the dict's collections linked under the parent, nothing else
      changed. */
  lemma CreatedShape(c0: Colls, lo: nat, names: seq<string>, parent: Option<CollId>)
    requires (forall c :: c in c0 ==> c < lo) && (parent.Some? ==> parent.value in c0)
    ensures Created(c0, CreatedColls(c0, lo, names, parent), lo, names, parent, NameDict(names, lo))
  {
    if parent.Some? {
      LinkedFresh(c0, lo, parent.value, names, CreatedColls(c0, lo, names, parent));
    } else {
      UnlinkedFresh(c0, lo, names, CreatedColls(c0, lo, names, parent));
    }
  }

  /** The layout of `create_initial_collections` when `lo` is the next id: `a` and `b`
      appended under `r`, `x`, `y` and `z` under `a`. */
  function TwoLevelColls(c0: Colls, r: CollId, lo: nat, a: string, b: string, x: string, y: string, z: string): Colls
    requires r in c0
  {
    c0[r := c0[r].(kids := c0[r].kids + [lo, lo + 1])]
      [lo := Coll(a, [lo + 2, lo + 3, lo + 4], [])][lo + 1 := Coll(b, [], [])]
      [lo + 2 := Coll(x, [], [])][lo + 3 := Coll(y, [], [])][lo + 4 := Coll(z, [], [])]
  }

  /** Adding an updated map is updating the union. */
  lemma UnionUpdate(c: Colls, m: Colls, k: CollId, v: Coll)
    ensures c + m[k := v] == (c + m)[k := v]
  {
  }

  /** Updates of two different collections commute. */
  lemma UpdateCommute(c: Colls, k1: CollId, v1: Coll, k2: CollId, v2: Coll)
    requires k1 != k2
    ensures c[k1 := v1][k2 := v2] == c[k2 := v2][k1 := v1]
  {
  }

  /** A second update of the same collection overrides the first. */
  lemma UpdateTwice(c: Colls, k: CollId, v1: Coll, v2: Coll)
    ensures c[k := v1][k := v2] == c[k := v2]
  {
  }

  /** Two fresh collections numbered from `lo`. */
  lemma FreshTwo(lo: nat, a: string, b: string)
    ensures FreshColls(lo, [a, b]) == map[lo := Coll(a, [], []), lo + 1 := Coll(b, [], [])]
  {
    assert [a, b][..1] == [a];
    assert [a][..0] == [];
  }

  /** Three fresh collections numbered from `lo`. */
  lemma FreshThree(lo: nat, x: string, y: string, z: string)
    ensures FreshColls(lo, [x, y, z]) == map[lo := Coll(x, [], []), lo + 1 := Coll(y, [], []), lo + 2 := Coll(z, [], [])]
  {
    assert [x, y, z][..2] == [x, y];
    FreshTwo(lo, x, y);
  }

  /** The dict of `create_collections([a, b])` for two distinct names. */
  lemma PairDict(lo: nat, a: string, b: string)
    requires a != b
    ensures NameDict([a, b], lo) == [(a, lo), (b, lo + 1)]
    ensures Values(NameDict([a, b], lo)) == [lo, lo + 1]
  {
    NameDictDistinct([a, b], lo);
  }

  /** Two fresh collections added to `c0`, one update each. */
  lemma FreshPairUnion(c0: Colls, lo: nat, a: string, b: string)
    ensures c0 + FreshColls(lo, [a, b]) == c0[lo := Coll(a, [], [])][lo + 1 := Coll(b, [], [])]
  {
    FreshTwo(lo, a, b);
    UnionUpdate(c0, map[lo := Coll(a, [], [])], lo + 1, Coll(b, [], []));
    UnionUpdate(c0, map[], lo, Coll(a, [], []));
    assert c0 + map[] == c0;
  }

  /** `create_collections([a, b], parent=p)` for two distinct names: `a` and `b` become
      collections `lo` and `lo + 1`, appended under `p`. */
  lemma CreatedPair(c0: Colls, lo: nat, p: CollId, a: string, b: string)
    requires a != b && p in c0 && forall c :: c in c0 ==> c < lo
    ensures NameDict([a, b], lo) == [(a, lo), (b, lo + 1)]
    ensures CreatedColls(c0, lo, [a, b], Some(p))
         == c0[p := c0[p].(kids := c0[p].kids + [lo, lo + 1])][lo := Coll(a, [], [])][lo + 1 := Coll(b, [], [])]
  {
    PairDict(lo, a, b);
    FreshPairUnion(c0, lo, a, b);
    var k := c0[p].(kids := c0[p].kids + [lo, lo + 1]);
    UpdateCommute(c0[lo := Coll(a, [], [])], lo + 1, Coll(b, [], []), p, k);
    UpdateCommute(c0, lo, Coll(a, [], []), p, k);
  }

  /** The dict of `create_collections([x, y, z])` for three distinct names. */
  lemma TripleDict(lo: nat, x: string, y: string, z: string)
    requires x != y && y != z && x != z
    ensures NameDict([x, y, z], lo) == [(x, lo), (y, lo + 1), (z, lo + 2)]
    ensures Values(NameDict([x, y, z], lo)) == [lo, lo + 1, lo + 2]
  {
    NameDictDistinct([x, y, z], lo);
  }

  /** Three fresh collections added to `c0`, one update each. */
  lemma FreshTripleUnion(c0: Colls, lo: nat, x: string, y: string, z: string)
    ensures c0 + FreshColls(lo, [x, y, z]) == c0[lo := Coll(x, [], [])][lo + 1 := Coll(y, [], [])][lo + 2 := Coll(z, [], [])]
  {
    FreshThree(lo, x, y, z);
    UnionUpdate(c0, map[lo := Coll(x, [], []), lo + 1 := Coll(y, [], [])], lo + 2, Coll(z, [], []));
    UnionUpdate(c0, map[lo := Coll(x, [], [])], lo + 1, Coll(y, [], []));
    UnionUpdate(c0, map[], lo, Coll(x, [], []));
    assert c0 + map[] == c0;
  }

  /** Linking under an older collection commutes with adding three new ones. */
  lemma LinkBeforeTriple(c0: Colls, p: CollId, k: Coll, lo: nat, u: Coll, v: Coll, w: Coll)
    requires p < lo
    ensures c0[lo := u][lo + 1 := v][lo + 2 := w][p := k] == c0[p := k][lo := u][lo + 1 := v][lo + 2 := w]
  {
    UpdateCommute(c0[lo := u][lo + 1 := v], lo + 2, w, p, k);
    UpdateCommute(c0[lo := u], lo + 1, v, p, k);
    UpdateCommute(c0, lo, u, p, k);
  }

  /** `create_collections([x, y, z], parent=p)` for three distinct names: they become
      collections `lo` to `lo + 2`, appended under `p`. */
  lemma CreatedTriple(c0: Colls, lo: nat, p: CollId, x: string, y: string, z: string)
    requires x != y && y != z && x != z && p in c0 && forall c :: c in c0 ==> c < lo
    ensures NameDict([x, y, z], lo) == [(x, lo), (y, lo + 1), (z, lo + 2)]
    ensures CreatedColls(c0, lo, [x, y, z], Some(p))
         == c0[p := c0[p].(kids := c0[p].kids + [lo, lo + 1, lo + 2])]
              [lo := Coll(x, [], [])][lo + 1 := Coll(y, [], [])][lo + 2 := Coll(z, [], [])]
  {
    TripleDict(lo, x, y, z);
    FreshTripleUnion(c0, lo, x, y, z);
    LinkBeforeTriple(c0, p, c0[p].(kids := c0[p].kids + [lo, lo + 1, lo + 2]), lo, Coll(x, [], []), Coll(y, [], []), Coll(z, [], []));
  }

  lemma FiveDistinct(a: string, b: string, x: string, y: string, z: string)
    requires NoDups([a, b, x, y, z])
    ensures a != b && x != y && y != z && x != z
  {
    var names := [a, b, x, y, z];
    assert names[0] != names[1] && names[2] != names[3] && names[3] != names[4] && names[2] != names[4];
  }

  /** The two `create_collections` calls of `create_initial_collections`, `a` and `b` under
      `r` and then `x`, `y` and `z` under `a`, give the two-level layout. */
  lemma PairThenTriple(c0: Colls, c1: Colls, c2: Colls, lo: nat, r: CollId, a: string, b: string, x: string, y: string, z: string)
    requires r in c0 && forall c :: c in c0 ==> c < lo
    requires c1 == c0[r := c0[r].(kids := c0[r].kids + [lo, lo + 1])][lo := Coll(a, [], [])][lo + 1 := Coll(b, [], [])]
    requires c2 == c1[lo := c1[lo].(kids := c1[lo].kids + [lo + 2, lo + 3, lo + 4])]
                     [lo + 2 := Coll(x, [], [])][lo + 3 := Coll(y, [], [])][lo + 4 := Coll(z, [], [])]
    ensures c2 == TwoLevelColls(c0, r, lo, a, b, x, y, z)
  {
    var m := c0[r := c0[r].(kids := c0[r].kids + [lo, lo + 1])];
    var top := Coll(a, [lo + 2, lo + 3, lo + 4], []);
    assert c1[lo].(kids := c1[lo].kids + [lo + 2, lo + 3, lo + 4]) == top;
    UpdateCommute(m[lo := Coll(a, [], [])], lo + 1, Coll(b, [], []), lo, top);
    UpdateTwice(m, lo, Coll(a, [], []), top);
  }

  /** The two-level layout hangs below `r`. */
  lemma TwoLevelsBelow(c0: Colls, c2: Colls, bound: nat, r: CollId, lo: nat, a: string, b: string, x: string, y: string, z: string)
    requires r in c0 && (forall c :: c in c0 ==> c < lo) && c2 == TwoLevelColls(c0, r, lo, a, b, x, y, z) && Ordered(c2, bound)
    ensures forall c :: lo <= c < lo + 5 ==> Below(c2, bound, r, c)
  {
    LayoutBelow(c2, bound, r, lo);
  }

  /** The dict of `create_initial_collections`: the second dict's entries after the first's. */
  lemma LayoutDict(lo: nat, a: string, b: string, x: string, y: string, z: string)
    requires NoDups([a, b, x, y, z])
    ensures PutAll<CollId>([(a, lo), (b, lo + 1)], [(x, lo + 2), (y, lo + 3), (z, lo + 4)])
         == [(a, lo), (b, lo + 1), (x, lo + 2), (y, lo + 3), (z, lo + 4)]
  {
    var names := [a, b, x, y, z];
    assert names[0] != names[1] && names[2] != names[3] && names[3] != names[4] && names[2] != names[4];
    var top: Dict<CollId> := [(a, lo), (b, lo + 1)];
    var sub: Dict<CollId> := [(x, lo + 2), (y, lo + 3), (z, lo + 4)];
    forall i | 0 <= i < |sub| ensures !HasKey(top, sub[i].0) {
      assert sub[i].0 == names[i + 2];
      assert sub[i].0 != top[0].0 && sub[i].0 != top[1].0;
    }
    PutAllFresh(top, sub);
  }

  /** The fixed layout hangs below `r`: two collections appended under `r`, three under the
      first of them. */
  lemma LayoutBelow(ch: Colls, bound: nat, r: CollId, n: CollId)
    requires Ordered(ch, bound) && r in ch && n in ch
    requires |ch[r].kids| >= 2 && ch[r].kids[|ch[r].kids| - 2] == n && ch[r].kids[|ch[r].kids| - 1] == n + 1
    requires ch[n].kids == [n + 2, n + 3, n + 4]
    ensures forall c :: n <= c < n + 5 ==> Below(ch, bound, r, c)
  {
    var k := |ch[r].kids|;
    BelowStep(ch, bound, r, r);
    ChildBelow(ch, bound, r, r, k - 2);
    ChildBelow(ch, bound, r, r, k - 1);
    ChildBelow(ch, bound, r, n, 0);
    ChildBelow(ch, bound, r, n, 1);
    ChildBelow(ch, bound, r, n, 2);
  }

  /** The five keys of the fixed layout are distinct. */
  lemma LayoutNames()
    ensures NoDups([SRC, EXPORT, FAILED, IGNORE, MANDATORY])
  {
  }

  /** The `import_files` entries for the files found below the import root, each given by
      the components of its path relative to the root: the absolute path, and as category the
      first component (the top-level sub-folder, or the file name itself for a file directly
      in the root), taken as it is. */
  function ImportList(rootAbs: string, found: seq<seq<string>>): (r: seq<ImportFile>)
    requires forall i :: 0 <= i < |found| ==> |found[i]| > 0
    ensures |r| == |found|
    ensures forall i :: 0 <= i < |found| ==> r[i].path == ImportPath(rootAbs, found[i]) && r[i].category == Lower(found[i][0])
  {
    if found == [] then []
    else ImportList(rootAbs, found[..|found| - 1]) + [ImportFile(ImportPath(rootAbs, found[|found| - 1]), Lower(found[|found| - 1][0]))]
  }

  /** The list as `set_importfiles_props` builds it: the category is the first component of the
      relative path with its case kept. */
  function ImportListAsWritten(rootAbs: string, found: seq<seq<string>>): (r: seq<ImportFile>)
    requires forall i :: 0 <= i < |found| ==> |found[i]| > 0
    ensures |r| == |found|
    ensures forall i :: 0 <= i < |found| ==> r[i].path == ImportPath(rootAbs, found[i]) && r[i].category == found[i][0]
  {
    if found == [] then []
    else ImportListAsWritten(rootAbs, found[..|found| - 1]) + [ImportFile(ImportPath(rootAbs, found[|found| - 1]), found[|found| - 1][0])]
  }

  /** As written, a file in the category folder `Hair` gets the category `Hair`, while the
      category collection is recorded under `hair`: no key of `collection_map` matches it. */
  lemma AsWrittenCategoryUnmapped()
    ensures var files := ImportListAsWritten("/r", [["Hair", "a.fbx"]]);
            files[0].category == "Hair" && files[0].category !in [SRC, EXPORT, FAILED, IGNORE, MANDATORY] + Subfolders(["Hair"])
  {
    var found := [["Hair", "a.fbx"]];
    assert found[0][0] == "Hair";
    CapitalNotSubfolder("Hair", ["Hair"], 0);
  }

  /** No name holding a capital letter is a recorded category. */
  lemma CapitalNotSubfolder(x: string, dirNames: seq<string>, i: nat)
    requires i < |x| && 'A' <= x[i] <= 'Z'
    ensures x !in [SRC, EXPORT, FAILED, IGNORE, MANDATORY] + Subfolders(dirNames)
  {
    assert !NoUpper(x);
    assert NoUpper(SRC) && NoUpper(EXPORT) && NoUpper(FAILED) && NoUpper(IGNORE) && NoUpper(MANDATORY);
    forall y | y in [SRC, EXPORT, FAILED, IGNORE, MANDATORY] + Subfolders(dirNames) ensures NoUpper(y) {
    }
  }

  /** Where every category folder is already lowercase, the list as written is the
      corrected one. */
  lemma {:induction false} AsWrittenLowercase(rootAbs: string, found: seq<seq<string>>)
    requires forall i :: 0 <= i < |found| ==> |found[i]| > 0 && NoUpper(found[i][0])
    ensures ImportListAsWritten(rootAbs, found) == ImportList(rootAbs, found)
  {
    if found != [] {
      AsWrittenLowercase(rootAbs, found[..|found| - 1]);
      LowerOfLower(found[|found| - 1][0]);
    }
  }

  /** With the category lowercased, every file in a visible sub-directory of the import root
      has a category under which `init_import_scene` records a collection. */
  lemma CategoriesRecorded(rootAbs: string, dirNames: seq<string>, found: seq<seq<string>>)
    requires forall i :: 0 <= i < |found| ==> |found[i]| > 0
    requires forall i :: 0 <= i < |found| ==> found[i][0] in dirNames && !(|found[i][0]| > 0 && found[i][0][0] == '.')
    ensures forall i :: 0 <= i < |found| ==> ImportList(rootAbs, found)[i].category in Subfolders(dirNames)
  {
  }

  /** After `create_collections(names, parent=p)` with `p` in the tree below `r`, the tree
      below `r` has only grown, and every new collection of the dict is in it. */
  lemma CreatedBelow(c0: Colls, b0: nat, c1: Colls, b1: nat, r: CollId, lo: nat, names: seq<string>, p: CollId, d: Dict<CollId>)
    requires Ordered(c0, b0) && Ordered(c1, b1) && r in c0 && p in c0 && Below(c0, b0, r, p)
    requires Created(c0, c1, lo, names, Some(p), d)
    ensures Extends(c0, c1)
    ensures forall i :: 0 <= i < |d| ==> Below(c1, b1, r, d[i].1)
  {
    assert c0[p].kids <= c1[p].kids;
    BelowMonotone(c0, b0, c1, b1, r, p);
    AppendedBelow(c1, b1, r, p, c0[p].kids, Values(d));
  }

  /** Collections appended under a collection below `r` are below `r`. */
  lemma AppendedBelow(ch: Colls, bound: nat, r: CollId, p: CollId, pre: seq<CollId>, vs: seq<CollId>)
    requires Ordered(ch, bound) && r in ch && p in ch && Below(ch, bound, r, p) && ch[p].kids == pre + vs
    ensures forall i :: 0 <= i < |vs| ==> Below(ch, bound, r, vs[i])
  {
    forall i | 0 <= i < |vs| ensures Below(ch, bound, r, vs[i]) {
      assert ch[p].kids[|pre| + i] == vs[i];
      ChildBelow(ch, bound, r, p, |pre| + i);
    }
  }

  /** The `collection_map` after the two assignments of `init_import_scene`: every key of
      either dict is present and maps to a collection in the tree below `r`. */
  lemma MapsBelow(ca: Colls, ba: nat, cb: Colls, bb: nat, r: CollId, cm0: Dict<CollId>, init: Dict<CollId>, cat: Dict<CollId>, k: string)
    requires Ordered(ca, ba) && Ordered(cb, bb) && Extends(ca, cb) && r in ca
    requires UniqueKeys(init) && UniqueKeys(cat)
    requires forall i :: 0 <= i < |init| ==> Below(ca, ba, r, init[i].1)
    requires forall i :: 0 <= i < |cat| ==> Below(cb, bb, r, cat[i].1)
    requires HasKey(init, k) || HasKey(cat, k)
    ensures HasKey(PutAll(PutAll(cm0, init), cat), k)
    ensures Below(cb, bb, r, Get(PutAll(PutAll(cm0, init), cat), k))
  {
    var cm1 := PutAll(cm0, init);
    PutAllProps(cm0, init);
    PutAllProps(cm1, cat);
    if !HasKey(cat, k) {
      assert Get(cm1, k) == init[KeyIndex(init, k)].1;
      BelowMonotone(ca, ba, cb, bb, r, Get(cm1, k));
    } else {
      assert Get(cat, k) == cat[KeyIndex(cat, k)].1;
    }
  }

  /** Every key of `init` or of the category dict ends up in `collection_map`, mapped to a
      collection in the tree below `r`. */
  lemma RecordedKeys(ca: Colls, ba: nat, cb: Colls, bb: nat, r: CollId, cm0: Dict<CollId>, init: Dict<CollId>,
                     cat: Dict<CollId>, names: seq<string>, lo: nat)
    requires Ordered(ca, ba) && Ordered(cb, bb) && Extends(ca, cb) && r in ca
    requires UniqueKeys(init) && cat == NameDict(names, lo)
    requires forall i :: 0 <= i < |init| ==> Below(ca, ba, r, init[i].1)
    requires forall i :: 0 <= i < |cat| ==> Below(cb, bb, r, cat[i].1)
    ensures forall k :: k in Keys(init) + names ==>
              HasKey(PutAll(PutAll(cm0, init), cat), k) && Below(cb, bb, r, Get(PutAll(PutAll(cm0, init), cat), k))
  {
    NameDictUnique(names, lo);
    forall k | k in Keys(init) + names
      ensures HasKey(PutAll(PutAll(cm0, init), cat), k) && Below(cb, bb, r, Get(PutAll(PutAll(cm0, init), cat), k))
    {
      if k in names {
        NameDictHasKey(names, lo, k);
      } else {
        var i :| 0 <= i < |init| && Keys(init)[i] == k;
        HasKeyIff(init, k);
      }
      MapsBelow(ca, ba, cb, bb, r, cm0, init, cat, k);
    }
  }

  lemma FiveKeys(a: string, b: string, x: string, y: string, z: string, n: nat)
    ensures Keys([(a, n), (b, n + 1), (x, n + 2), (y, n + 3), (z, n + 4)]) == [a, b, x, y, z]
  {
  }

  /** Every collection with `o` unlinked from its objects. */
  function UnlinkedEverywhere(cs: Colls, o: ObjId): (r: Colls)
    ensures r.Keys == cs.Keys
    ensures forall c :: c in r ==> r[c].name == cs[c].name && r[c].kids == cs[c].kids && o !in r[c].objects
    ensures forall c, x :: c in r && x != o ==> (x in r[c].objects <==> x in cs[c].objects)
  {
    map c | c in cs :: cs[c].(objects := Without(cs[c].objects, o))
  }

  /** The users of `o` other than collections: modifiers and constraints that point at it. */
  function OtherUsers(extra: map<ObjId, nat>, o: ObjId): nat {
    if o in extra then extra[o] else 0
  }

  class Blend {
    /** The id the next new collection receives. */
    var nextColl: nat
    /** `bpy.data.collections`, including the scenes' master collections. */
    var colls: Colls
    /** Objects in `bpy.data.objects`. */
    var dataObjects: set<ObjId>
    /** Users of an object other than collections (modifiers or constraints pointing at it). */
    var extraUsers: map<ObjId, nat>
    /** The attributes of the objects in `bpy.data.objects`. */
    var attrs: map<ObjId, ObjAttrs>

    /** The active scene's master collection. */
    var root: CollId
    /** The scene's `collection_map` property. */
    var collectionMap: Dict<CollId>
    /** Whether the add-on's scene properties are registered; without them every access raises `AttributeError`. */
    var registered: bool
    var importRootPath: string
    var importFiles: seq<ImportFile>

    predicate Valid()
      reads this
    {
      Ordered(colls, nextColl) && root in colls
    }

    /** Every item of `collection_map` points at an existing collection. */
    predicate MapInData()
      reads this
    {
      forall i :: 0 <= i < |collectionMap| ==> collectionMap[i].1 in colls
    }

    /** The add-on's properties of the active scene. */
    function Props(): (CollId, Dict<CollId>, bool, string, seq<ImportFile>)
      reads this
    {
      (root, collectionMap, registered, importRootPath, importFiles)
    }

    /** `traverse_tree(scene.collection)`: the collections of the active scene. */
    function SceneCollections(): (r: seq<CollId>)
      requires Valid()
      reads this
      ensures forall x :: x in r <==> Below(colls, nextColl, root, x)
    {
      assert forall x :: x in Objects.TraverseTree(Unfold(colls, nextColl, root)) <==> Below(colls, nextColl, root, x) by {
        forall x ensures x in Objects.TraverseTree(Unfold(colls, nextColl, root)) <==> Below(colls, nextColl, root, x) {
          TraverseBelow(colls, nextColl, root, x);
        }
      }
      Objects.TraverseTree(Unfold(colls, nextColl, root))
    }

    /** A file with one empty scene. */
    constructor (registered: bool)
      ensures Valid()
      ensures colls == map[0 := Coll("Scene Collection", [], [])] && root == 0 && nextColl == 1
      ensures dataObjects == {} && extraUsers == map[] && attrs == map[]
      ensures collectionMap == [] && importFiles == [] && importRootPath == ""
      ensures this.registered == registered
    {
      nextColl := 1;
      colls := map[0 := Coll("Scene Collection", [], [])];
      dataObjects := {};
      extraUsers := map[];
      attrs := map[];
      root := 0;
      collectionMap := [];
      this.registered := registered;
      importRootPath := "";
      importFiles := [];
    }

    /** `bpy.data.collections.new(name)`: a new collection, not linked anywhere. */
    method NewCollection(name: string) returns (c: CollId)
      requires Valid()
      modifies this
      ensures Valid()
      ensures c == old(nextColl) && nextColl == c + 1
      ensures colls == old(colls)[c := Coll(name, [], [])]
      ensures dataObjects == old(dataObjects) && extraUsers == old(extraUsers) && attrs == old(attrs)
      ensures Props() == old(Props())
    {
      c := nextColl;
      colls := colls[c := Coll(name, [], [])];
      nextColl := nextColl + 1;
    }

    /** `link_to_parent`: link each child under `parent`, once, in order. Blender refuses to
        link a collection twice under the same parent or to create a cycle; here every child
        is a collection newer than the parent that is not linked under it yet. */
    method LinkToParent(kids: Children, parent: CollId)
      requires Valid() && parent in colls
      requires forall i :: 0 <= i < |AsList(kids)| ==> parent < AsList(kids)[i] && AsList(kids)[i] in colls
      requires NoDups(AsList(kids)) && forall c :: c in AsList(kids) ==> c !in colls[parent].kids
      modifies this
      ensures Valid()
      ensures colls == old(colls)[parent := old(colls)[parent].(kids := old(colls)[parent].kids + AsList(kids))]
      ensures nextColl == old(nextColl) && dataObjects == old(dataObjects) && extraUsers == old(extraUsers) && attrs == old(attrs)
      ensures Props() == old(Props())
    {
      var ks := AsList(kids);
      var p := colls[parent];
      var i := 0;
      assert p.(kids := p.kids + ks[..0]) == p;
      assert colls == old(colls)[parent := p.(kids := p.kids + ks[..0])];
      while i < |ks|
        invariant 0 <= i <= |ks|
        invariant Valid()
        invariant colls == old(colls)[parent := p.(kids := p.kids + ks[..i])]
        invariant nextColl == old(nextColl) && dataObjects == old(dataObjects) && extraUsers == old(extraUsers) && attrs == old(attrs)
        invariant Props() == old(Props())
      {
        assert ks[..i + 1] == ks[..i] + [ks[i]];
        assert colls[parent].kids + [ks[i]] == p.kids + ks[..i + 1];
        colls := colls[parent := colls[parent].(kids := colls[parent].kids + [ks[i]])];
        i := i + 1;
      }
      assert ks[..i] == ks;
    }

    /** `bpy.data.collections.new` for each name in turn, the i-th collection named `names[i]`;
        the dict is the one built by the comprehension of `create_collections`. */
    method NewCollections(names: seq<string>) returns (d: Dict<CollId>)
      requires Valid()
      modifies this
      ensures Valid()
      ensures d == NameDict(names, old(nextColl))
      ensures nextColl == old(nextColl) + |names|
      ensures colls == old(colls) + FreshColls(old(nextColl), names)
      ensures dataObjects == old(dataObjects) && extraUsers == old(extraUsers) && attrs == old(attrs)
      ensures Props() == old(Props())
    {
      var lo := nextColl;
      var cs := AddCollections(colls, lo, names);
      FreshOrdered(colls, lo, root, names);
      colls, nextColl := cs, lo + |names|;
      d := NameDict(names, lo);
    }

    /** `create_collections`: one new collection per name, kept in a dict keyed by that name
        (a repeated name creates another collection and the dict keeps the later one), all of
        them linked under `parent` when one is given. */
    method CreateCollections(names: seq<string>, parent: Option<CollId>) returns (d: Dict<CollId>)
      requires Valid() && (parent.Some? ==> parent.value in colls)
      modifies this
      ensures Valid()
      ensures d == NameDict(names, old(nextColl))
      ensures nextColl == old(nextColl) + |names|
      ensures colls == CreatedColls(old(colls), old(nextColl), names, parent)
      ensures dataObjects == old(dataObjects) && extraUsers == old(extraUsers) && attrs == old(attrs)
      ensures Props() == old(Props())
    {
      d := NewCollections(names);
      if parent.Some? {
        FreshLinkable(old(colls), old(nextColl), names, parent.value);
        LinkToParent(Many(Values(d)), parent.value);
      }
    }

    /** `create_initial_collections`: `src` and `export` linked under the scene's root
        collection, `_failed`, `_ignore` and `_mandatory` under `src`; the dict holds all five
        by name, in that order, and all five are in the scene's tree. */
    method CreateInitialCollections() returns (d: Dict<CollId>)
      requires Valid()
      modifies this
      ensures Valid()
      ensures Props() == old(Props())
      ensures var n := old(nextColl);
              d == [(SRC, n), (EXPORT, n + 1), (FAILED, n + 2), (IGNORE, n + 3), (MANDATORY, n + 4)]
      ensures nextColl == old(nextColl) + 5
      ensures colls == TwoLevelColls(old(colls), root, old(nextColl), SRC, EXPORT, FAILED, IGNORE, MANDATORY)
      ensures forall c :: old(nextColl) <= c < nextColl ==> Below(colls, nextColl, root, c)
      ensures dataObjects == old(dataObjects) && extraUsers == old(extraUsers) && attrs == old(attrs)
    {
      LayoutNames();
      d := CreateTwoLevels(SRC, EXPORT, FAILED, IGNORE, MANDATORY);
      TwoLevelsBelow(old(colls), colls, nextColl, root, old(nextColl), SRC, EXPORT, FAILED, IGNORE, MANDATORY);
    }

    /** The first call of `create_initial_collections`: `a` and `b` linked under the scene's
        root collection. */
    method CreatePair(a: string, b: string) returns (top: Dict<CollId>)
      requires Valid() && a != b
      modifies this
      ensures Valid() && Props() == old(Props())
      ensures top == [(a, old(nextColl)), (b, old(nextColl) + 1)]
      ensures nextColl == old(nextColl) + 2
      ensures colls == old(colls)[root := old(colls)[root].(kids := old(colls)[root].kids + [old(nextColl), old(nextColl) + 1])]
                         [old(nextColl) := Coll(a, [], [])][old(nextColl) + 1 := Coll(b, [], [])]
      ensures dataObjects == old(dataObjects) && extraUsers == old(extraUsers) && attrs == old(attrs)
    {
      CreatedPair(colls, nextColl, root, a, b);
      top := CreateCollections([a, b], Some(root));
    }

    /** The second call of `create_initial_collections`: `x`, `y` and `z` linked under `p`. */
    method CreateTriple(x: string, y: string, z: string, p: CollId) returns (sub: Dict<CollId>)
      requires Valid() && x != y && y != z && x != z && p in colls
      modifies this
      ensures Valid() && Props() == old(Props())
      ensures sub == [(x, old(nextColl)), (y, old(nextColl) + 1), (z, old(nextColl) + 2)]
      ensures nextColl == old(nextColl) + 3
      ensures colls == old(colls)[p := old(colls)[p].(kids := old(colls)[p].kids + [old(nextColl), old(nextColl) + 1, old(nextColl) + 2])]
                         [old(nextColl) := Coll(x, [], [])][old(nextColl) + 1 := Coll(y, [], [])][old(nextColl) + 2 := Coll(z, [], [])]
      ensures dataObjects == old(dataObjects) && extraUsers == old(extraUsers) && attrs == old(attrs)
    {
      CreatedTriple(colls, nextColl, p, x, y, z);
      sub := CreateCollections([x, y, z], Some(p));
    }

    /** The two calls of `create_initial_collections`, for any five distinct names: the dict
        of the second call merged into that of the first. */
    method CreateTwoLevels(a: string, b: string, x: string, y: string, z: string) returns (d: Dict<CollId>)
      requires Valid() && NoDups([a, b, x, y, z])
      modifies this
      ensures Valid()
      ensures Props() == old(Props())
      ensures var n := old(nextColl);
              d == [(a, n), (b, n + 1), (x, n + 2), (y, n + 3), (z, n + 4)]
      ensures nextColl == old(nextColl) + 5
      ensures colls == TwoLevelColls(old(colls), root, old(nextColl), a, b, x, y, z)
      ensures dataObjects == old(dataObjects) && extraUsers == old(extraUsers) && attrs == old(attrs)
    {
      var n := nextColl;
      FiveDistinct(a, b, x, y, z);
      var top := CreatePair(a, b);
      var c1 := colls;
      var sub := CreateTriple(x, y, z, n);
      assert sub == [(x, n + 2), (y, n + 3), (z, n + 4)];
      PairThenTriple(old(colls), c1, colls, n, root, a, b, x, y, z);
      LayoutDict(n, a, b, x, y, z);
      d := PutAll(top, sub);
    }

    /** `set_collection_map_as_property`: when every collection of `cmap` is in the scene's
        tree, assign each entry to the scene's `collection_map` in order (an existing key is
        overwritten in place, a new key appended) and report success; otherwise change nothing
        and report failure. */
    method SetCollectionMapAsProperty(cmap: Dict<CollId>) returns (ok: bool)
      requires Valid() && registered
      modifies this
      ensures Valid()
      ensures ok <==> forall i :: 0 <= i < |cmap| ==> Below(colls, nextColl, root, cmap[i].1)
      ensures collectionMap == if ok then PutAll(old(collectionMap), cmap) else old(collectionMap)
      ensures old(MapInData()) ==> MapInData()
      ensures colls == old(colls) && nextColl == old(nextColl) && root == old(root)
      ensures dataObjects == old(dataObjects) && extraUsers == old(extraUsers) && attrs == old(attrs)
      ensures registered == old(registered) && importRootPath == old(importRootPath) && importFiles == old(importFiles)
    {
      var sc := SceneCollections();
      ok := forall i :: 0 <= i < |cmap| ==> cmap[i].1 in sc;
      if !ok {
        return;
      }
      collectionMap := PutEach(collectionMap, cmap);
      if old(MapInData()) {
        PutAllEntries(old(collectionMap), cmap);
        forall i | 0 <= i < |collectionMap| ensures collectionMap[i].1 in colls {
          if collectionMap[i] in cmap {
            var j :| 0 <= j < |cmap| && cmap[j] == collectionMap[i];
            BelowExists(colls, nextColl, root, cmap[j].1);
          }
        }
      }
    }

    /** `set_importfiles_props`: without the registered properties nothing changes and the
        result is failure; otherwise the old list is cleared and one entry per found file
        added, and the result says whether any file was found. `rootAbs` is the absolute form
        of `import_root_path` and `found` the listing of `*.fbx` files below it. */
    method SetImportFilesProps(rootAbs: string, found: seq<seq<string>>) returns (ok: bool)
      requires forall i :: 0 <= i < |found| ==> |found[i]| > 0
      modifies this
      ensures ok <==> registered && found != []
      ensures importFiles == if registered then ImportListAsWritten(rootAbs, found) else old(importFiles)
      ensures colls == old(colls) && nextColl == old(nextColl) && root == old(root)
      ensures dataObjects == old(dataObjects) && extraUsers == old(extraUsers) && attrs == old(attrs)
      ensures registered == old(registered) && importRootPath == old(importRootPath) && collectionMap == old(collectionMap)
    {
      if !registered {
        return false;
      }
      importFiles := [];
      if found == [] {
        return false;
      }
      var files := [];
      var i := 0;
      while i < |found|
        invariant 0 <= i <= |found|
        invariant files == ImportListAsWritten(rootAbs, found[..i])
      {
        assert found[..i + 1][..i] == found[..i];
        // The category is the first folder below the root, with its case kept.
        files := files + [ImportFile(ImportPath(rootAbs, found[i]), found[i][0])];
        i := i + 1;
      }
      assert found[..i] == found;
      importFiles := files;
      ok := true;
    }

    /** The collection part of `init_import_scene`: the fixed collections and one collection
        per category folder under `src`, all recorded in `collection_map`. */
    method RecordCollections(dirNames: seq<string>)
      requires Valid() && registered
      modifies this
      ensures Valid()
      ensures forall k :: k in [SRC, EXPORT, FAILED, IGNORE, MANDATORY] + Subfolders(dirNames) ==>
                HasKey(collectionMap, k) && Below(colls, nextColl, root, Get(collectionMap, k))
      ensures old(MapInData()) ==> MapInData()
      ensures root == old(root) && registered == old(registered)
      ensures importRootPath == old(importRootPath) && importFiles == old(importFiles)
      ensures dataObjects == old(dataObjects) && extraUsers == old(extraUsers) && attrs == old(attrs)
    {
      var cm0 := collectionMap;
      var n := nextColl;
      var init := RecordInitialCollections();
      var ca, ba := colls, nextColl;
      var categories := Subfolders(dirNames);
      var cat := CreateCollections(categories, Some(n));
      CreatedShape(ca, ba, categories, Some(n));
      CreatedBelow(ca, ba, colls, nextColl, root, ba, categories, n, cat);
      var ok := SetCollectionMapAsProperty(cat);
      // The check cannot fail: the category collections are linked below `src`.
      assert ok;
      RecordedKeys(ca, ba, colls, nextColl, root, cm0, init, cat, categories, ba);
    }

    /** `create_initial_collections` followed by recording its dict in `collection_map`. */
    method RecordInitialCollections() returns (d: Dict<CollId>)
      requires Valid() && registered
      modifies this
      ensures Valid()
      ensures Keys(d) == [SRC, EXPORT, FAILED, IGNORE, MANDATORY]
      ensures UniqueKeys(d) && old(nextColl) in colls && Below(colls, nextColl, root, old(nextColl))
      ensures forall i :: 0 <= i < |d| ==> Below(colls, nextColl, root, d[i].1)
      ensures collectionMap == PutAll(old(collectionMap), d)
      ensures old(MapInData()) ==> MapInData()
      ensures root == old(root) && registered == old(registered)
      ensures importRootPath == old(importRootPath) && importFiles == old(importFiles)
      ensures dataObjects == old(dataObjects) && extraUsers == old(extraUsers) && attrs == old(attrs)
    {
      LayoutNames();
      d := CreateInitialCollections();
      FiveKeys(SRC, EXPORT, FAILED, IGNORE, MANDATORY, old(nextColl));
      assert forall i :: 0 <= i < |d| ==> Below(colls, nextColl, root, d[i].1);
      var ok := SetCollectionMapAsProperty(d);
      // The check cannot fail: the collections were just linked below the scene's root.
      assert ok;
    }

    /** `remove_object`: unlink `o` from every collection that holds it, then delete it from
        the blend data when nothing else uses it. */
    method RemoveObject(o: ObjId)
      requires Valid()
      modifies this
      ensures Valid()
      ensures colls == UnlinkedEverywhere(old(colls), o)
      ensures dataObjects == if OtherUsers(extraUsers, o) == 0 then old(dataObjects) - {o} else old(dataObjects)
      ensures nextColl == old(nextColl) && extraUsers == old(extraUsers) && attrs == old(attrs) && Props() == old(Props())
    {
      var users := set c | c in colls && o in colls[c].objects;
      var m := colls;
      while users != {}
        invariant users <= m.Keys && m.Keys == colls.Keys
        invariant forall c :: c in m ==> m[c] == if c in users then colls[c] else colls[c].(objects := Without(colls[c].objects, o))
        decreases users
      {
        var c :| c in users;
        m := m[c := m[c].(objects := Without(m[c].objects, o))];
        users := users - {c};
      }
      assert forall c :: c in m ==> m[c].kids == colls[c].kids;
      assert m == UnlinkedEverywhere(colls, o);
      colls := m;
      if OtherUsers(extraUsers, o) == 0 {
        dataObjects := dataObjects - {o};
      }
    }

    /** `create_new_scene`: a new scene, with its own new master collection, becomes the
        active one; its add-on properties start empty. */
    method CreateNewScene()
      requires Valid()
      modifies this
      ensures Valid()
      ensures root == old(nextColl) && nextColl == old(nextColl) + 1
      ensures colls == old(colls)[root := Coll("Scene Collection", [], [])]
      ensures collectionMap == [] && importRootPath == "" && importFiles == [] && registered == old(registered)
      ensures dataObjects == old(dataObjects) && extraUsers == old(extraUsers) && attrs == old(attrs)
    {
      root := NewCollection("Scene Collection");
      collectionMap, importRootPath, importFiles := [], "", [];
    }

    /** `init_import_scene`: `None` when the import path is not a directory, and then nothing
        changes; otherwise, in a new scene or the active one, record the import path, build the
        fixed collections and one collection per category folder under `src`, record all of
        them in `collection_map`, and list the files to import. `Some(true)` exactly when the
        properties are registered and some file was found. `isDir` is whether the path is a
        directory, `dirNames` the names of its sub-directories, `rootAbs` its absolute form and
        `found` the `*.fbx` files below it. */
    method InitImportScene(importPath: string, isDir: bool, useNewScene: bool, dirNames: seq<string>,
                           rootAbs: string, found: seq<seq<string>>) returns (r: Option<bool>)
      requires Valid()
      requires forall i :: 0 <= i < |found| ==> |found[i]| > 0
      modifies this
      ensures Valid()
      ensures r.None? <==> !isDir
      ensures r == Some(true) <==> isDir && registered && found != []
      ensures !isDir ==> colls == old(colls) && nextColl == old(nextColl) && Props() == old(Props())
      ensures isDir && useNewScene ==> root == old(nextColl)
      ensures isDir && !useNewScene ==> root == old(root)
      ensures isDir && registered ==> importRootPath == importPath && importFiles == ImportListAsWritten(rootAbs, found)
      ensures isDir && registered ==>
                forall k :: k in [SRC, EXPORT, FAILED, IGNORE, MANDATORY] + Subfolders(dirNames) ==>
                  HasKey(collectionMap, k) && Below(colls, nextColl, root, Get(collectionMap, k))
      ensures (isDir && useNewScene) || old(MapInData()) ==> MapInData()
      ensures dataObjects == old(dataObjects) && extraUsers == old(extraUsers) && attrs == old(attrs) && registered == old(registered)
    {
      if !isDir {
        return None;
      }
      if useNewScene {
        CreateNewScene();
      }
      if !registered {
        return Some(false);
      }
      importRootPath := importPath;
      RecordCollections(dirNames);
      var ok := SetImportFilesProps(rootAbs, found);
      if !ok {
        return Some(false);
      }
      return Some(true);
    }
  }
}
