/** `add_combinations_to_export` and `export_combinations` of src/scenemanager/manager.py:
    every drawn combination becomes a new collection named
    `set-<skeleton>-<digest of the sorted member names>`, linked below the `export`
    collection; exporting writes each collection below `export` to a `.glb` file in the
    export directory and reports one message per collection.

    BLAKE2s is not modelled: `digest` stands for
    `hashlib.blake2s(s.encode(), digest_size=8).hexdigest()`. The glTF exporter is not modelled
    either: `write(path)` is what exporting to `path` gives, `None` on success or the text of
    the `IOError`. */
module Export {
  import opened Common
  import opened Dicts
  import opened Strings
  import opened Hierarchy
  import opened SceneSetup
  import PathOps
  import Combinations

  // ---------------------------------------------------------------------------
  // The collection name of a combination

  predicate HexChar(c: char) {
    '0' <= c <= '9' || 'a' <= c <= 'f'
  }

  /** What `hexdigest()` of an 8-byte digest looks like: 16 lowercase hexadecimal digits. */
  predicate HexDigest(h: string) {
    |h| == 16 && forall i :: 0 <= i < |h| ==> HexChar(h[i])
  }

  /** `"-".join(("set", get_skeleton_type(names[0]), digest(" ".join(sorted(names)))))`. */
  function SetName(names: seq<string>, digest: string -> string): string
    requires names != []
  {
    Join(["set", PathOps.GetSkeletonType(names[0]), digest(Join(Sort(names), ' '))], '-')
  }

  lemma JoinThree(a: string, b: string, c: string, sep: char)
    ensures Join([a, b, c], sep) == a + [sep] + b + [sep] + c
    ensures Join([a, b, c], sep) == (a + [sep]) + (b + ([sep] + c))
  {
    PathOps.JoinCons(a, [b, c], sep);
    PathOps.JoinCons(b, [c], sep);
  }

  /** The name is `set-<skeleton>-<digest>`. */
  lemma SetNameParts(names: seq<string>, digest: string -> string)
    requires names != []
    ensures var k, h := PathOps.GetSkeletonType(names[0]), digest(Join(Sort(names), ' '));
            SetName(names, digest) == "set" + ['-'] + k + ['-'] + h
            && SetName(names, digest) == ("set" + ['-']) + (k + (['-'] + h))
  {
    JoinThree("set", PathOps.GetSkeletonType(names[0]), digest(Join(Sort(names), ' ')), '-');
  }

  lemma AfterPrefix(p: string, rest: string)
    ensures (p + rest)[|p|..] == rest
  {
  }

  /** The skeleton type can be read back from the name: the text after `set-` up to the next `-`. */
  lemma SetNameKey(names: seq<string>, digest: string -> string)
    requires names != []
    ensures |SetName(names, digest)| >= 4
    ensures Before(SetName(names, digest)[4..], '-') == PathOps.GetSkeletonType(names[0])
  {
    var k, h := PathOps.GetSkeletonType(names[0]), digest(Join(Sort(names), ' '));
    SetNameParts(names, digest);
    var pre, rest := "set" + ['-'], k + (['-'] + h);
    assert |pre| == 4;
    AfterPrefix(pre, rest);
    PathOps.BeforeConcat(k, ['-'] + h, '-');
  }

  /** The digest part of the name depends only on which names there are, not on their
      order; only the skeleton type of the first member can differ between orderings. */
  lemma SetNameOrder(names: seq<string>, others: seq<string>, digest: string -> string)
    requires names != [] && others != [] && multiset(names) == multiset(others)
    ensures PathOps.GetSkeletonType(names[0]) == PathOps.GetSkeletonType(others[0]) <==>
              SetName(names, digest) == SetName(others, digest)
  {
    SortOrderInvariant(names, others);
    SetNameKey(names, digest);
    SetNameKey(others, digest);
  }

  /** When every member has the same skeleton type, as the import ensures for the objects it
      sorts into the categories, the name does not depend on the order of the members. */
  lemma SetNameSameSkeleton(names: seq<string>, others: seq<string>, digest: string -> string)
    requires names != [] && multiset(names) == multiset(others)
    requires forall i, j :: 0 <= i < j < |names| ==> PathOps.GetSkeletonType(names[i]) == PathOps.GetSkeletonType(names[j])
    ensures others != [] && SetName(names, digest) == SetName(others, digest)
  {
    assert |others| == |multiset(others)| == |names|;
    assert others[0] in multiset(names);
    var j :| 0 <= j < |names| && names[j] == others[0];
    SetNameOrder(names, others, digest);
  }

  lemma HexClean(h: string)
    requires HexDigest(h)
    ensures NoUpper(h) && '-' !in h && '.' !in h
  {
    assert forall i :: 0 <= i < |h| ==> HexChar(h[i]);
  }

  predicate Clean(s: string, sep: char) {
    NoUpper(s) && sep !in s && '.' !in s
  }

  lemma NamePartsOfThree(a: string, b: string, c: string, sep: char)
    requires sep != '.' && !('A' <= sep <= 'Z')
    requires Clean(a, sep) && Clean(b, sep) && Clean(c, sep)
    ensures PathOps.NameParts(Join([a, b, c], sep), sep) == [a, b, c]
  {
    var vs := [a, b, c];
    forall i | 0 <= i < |vs| ensures NoUpper(vs[i]) && sep !in vs[i] && '.' !in vs[i] {
      assert Clean(vs[i], sep);
    }
    PathOps.NamePartsOfJoin(vs, sep);
  }

  lemma SetClean()
    ensures Clean("set", '-')
  {
    assert "set" == ['s', 'e', 't'];
  }

  /** The skeleton type read back from the collection name is the one it was built with. */
  lemma SetNameSkeleton(names: seq<string>, digest: string -> string)
    requires names != [] && HexDigest(digest(Join(Sort(names), ' ')))
    ensures PathOps.GetSkeletonType(SetName(names, digest)) == PathOps.GetSkeletonType(names[0])
    ensures PathOps.NameParts(SetName(names, digest), '-') ==
              ["set", PathOps.GetSkeletonType(names[0]), digest(Join(Sort(names), ' '))]
  {
    var h := digest(Join(Sort(names), ' '));
    HexClean(h);
    SetClean();
    NamePartsOfThree("set", PathOps.GetSkeletonType(names[0]), h, '-');
  }

  // ---------------------------------------------------------------------------
  // add_combinations_to_export

  const COMBINE_FAILED := "Combining avatar components failed."
  const NO_EXPORT := "Scene is not initialized properly. Missing export collection."

  /** The Python exceptions that escape `add_combinations_to_export` and
      `export_combinations`: the `ValueError` of `list.remove` in `draw_combinations`, the
      `IndexError` of `combination[0]` on an empty combination, and the `AttributeError` of
      a `collection_map` item (`src` or `export`) whose collection was deleted. */
  datatype Exc = ValueError | IndexError | AttributeError

  datatype Outcome = Done(feedback: seq<Feedback>) | Raised(exc: Exc)

  /** Every object linked to a collection has attributes, among them its name. */
  predicate LinkedNamed(cs: Colls, attrs: map<ObjId, ObjAttrs>) {
    forall c, o :: c in cs && o in cs[c].objects ==> o in attrs
  }

  predicate AllNamed(attrs: map<ObjId, ObjAttrs>, objs: seq<ObjId>) {
    forall o :: o in objs ==> o in attrs
  }

  predicate Named(attrs: map<ObjId, ObjAttrs>, combos: seq<seq<ObjId>>) {
    forall c :: c in combos ==> AllNamed(attrs, c)
  }

  /** `[obj.name for obj in objs]`. */
  function NamesOf(attrs: map<ObjId, ObjAttrs>, objs: seq<ObjId>): (r: seq<string>)
    requires AllNamed(attrs, objs)
    ensures |r| == |objs|
    ensures forall j :: 0 <= j < |objs| ==> r[j] == attrs[objs[j]].name
  {
    seq(|objs|, j requires 0 <= j < |objs| => attrs[objs[j]].name)
  }

  /** The name `add_combinations_to_export` gives the collection of `combo`. */
  function CollName(attrs: map<ObjId, ObjAttrs>, combo: seq<ObjId>, digest: string -> string): string
    requires combo != [] && AllNamed(attrs, combo)
  {
    SetName(NamesOf(attrs, combo), digest)
  }

  /** The naming rule the loop applies to each combination. */
  function NameRule(attrs: map<ObjId, ObjAttrs>, digest: string -> string): seq<ObjId> -> string {
    (c: seq<ObjId>) => if c != [] && AllNamed(attrs, c) then CollName(attrs, c, digest) else ""
  }

  /** One pass of the loop: the non-empty `combo` becomes the new collection `lo`, called
      `name` and holding the objects of `combo`, linked as the last child of `e`. */
  function AddSet(cs: Colls, lo: nat, e: CollId, combo: seq<ObjId>, name: string): (r: Colls)
    requires e in cs
    ensures forall x :: x in r <==> x in cs || x == lo
  {
    cs[lo := Coll(name, [], combo)][e := cs[e].(kids := cs[e].kids + [lo])]
  }

  /** The data after the loop of `add_combinations_to_export`, from the collections `cs`
      with `lo` the id of the next new collection and `e` the export collection: the
      collections, the next id, and whether an empty combination stopped the loop. */
  datatype Sets = Sets(cs: Colls, next: nat, failed: bool)

  /** Each combination in turn through `AddSet`, under the name `nameOf` gives it; an empty
      combination raises `IndexError` at `combination[0]`, before its collection is made. */
  function AddSets(cs: Colls, lo: nat, e: CollId, combos: seq<seq<ObjId>>, nameOf: seq<ObjId> -> string): Sets
    requires e in cs
    decreases |combos|
  {
    if combos == [] then Sets(cs, lo, false)
    else if combos[0] == [] then Sets(cs, lo, true)
    else AddSets(AddSet(cs, lo, e, combos[0], nameOf(combos[0])), lo + 1, e, combos[1..], nameOf)
  }

  /** The ids `lo`, ..., `lo + k - 1`. */
  function Ids(lo: nat, k: nat): (r: seq<CollId>)
    ensures |r| == k && forall i :: 0 <= i < k ==> r[i] == lo + i
  {
    seq(k, i requires 0 <= i < k => lo + i)
  }

  /** With no empty combination the loop runs to the end, one new collection per
      combination, numbered from `lo`. */
  lemma {:induction false} AddSetsRuns(cs: Colls, lo: nat, e: CollId, combos: seq<seq<ObjId>>, nameOf: seq<ObjId> -> string)
    requires e in cs && [] !in combos
    ensures var r := AddSets(cs, lo, e, combos, nameOf);
            !r.failed && r.next == lo + |combos|
            && forall x :: x in r.cs <==> x in cs || lo <= x < lo + |combos|
    decreases |combos|
  {
    if combos != [] {
      AddSetsRuns(AddSet(cs, lo, e, combos[0], nameOf(combos[0])), lo + 1, e, combos[1..], nameOf);
    }
  }

  /** The loop leaves every collection other than `e` that existed before as it was. */
  lemma {:induction false} AddSetsKeepOthers(cs: Colls, lo: nat, e: CollId, combos: seq<seq<ObjId>>,
                                             nameOf: seq<ObjId> -> string, c: CollId)
    requires e in cs
    requires c in cs && c != e && c < lo
    ensures var r := AddSets(cs, lo, e, combos, nameOf);
            c in r.cs && r.cs[c] == cs[c]
    decreases |combos|
  {
    if combos != [] && combos[0] != [] {
      AddSetsKeepOthers(AddSet(cs, lo, e, combos[0], nameOf(combos[0])), lo + 1, e, combos[1..], nameOf, c);
    }
  }

  /** The new collections are linked below `e`, after its old children, in order. */
  lemma {:induction false} AddSetsKids(cs: Colls, lo: nat, e: CollId, combos: seq<seq<ObjId>>, nameOf: seq<ObjId> -> string)
    requires e in cs && [] !in combos && e < lo
    ensures var r := AddSets(cs, lo, e, combos, nameOf);
            e in r.cs && r.cs[e] == cs[e].(kids := cs[e].kids + Ids(lo, |combos|))
    decreases |combos|
  {
    if combos != [] {
      AddSetsKids(AddSet(cs, lo, e, combos[0], nameOf(combos[0])), lo + 1, e, combos[1..], nameOf);
      assert cs[e].kids + [lo] + Ids(lo + 1, |combos| - 1) == cs[e].kids + Ids(lo, |combos|);
    }
  }

  /** The `k`-th combination becomes the collection `lo + k`, under its name and
      holding exactly the objects of the combination, with no children. */
  lemma {:induction false} AddSetsNew(cs: Colls, lo: nat, e: CollId, combos: seq<seq<ObjId>>,
                                      nameOf: seq<ObjId> -> string, k: nat)
    requires e in cs && [] !in combos && e < lo && k < |combos|
    ensures var r := AddSets(cs, lo, e, combos, nameOf);
            lo + k in r.cs && r.cs[lo + k] == Coll(nameOf(combos[k]), [], combos[k])
    decreases k
  {
    var c3 := AddSet(cs, lo, e, combos[0], nameOf(combos[0]));
    if k == 0 {
      AddSetsKeepOthers(c3, lo + 1, e, combos[1..], nameOf, lo);
    } else {
      AddSetsNew(c3, lo + 1, e, combos[1..], nameOf, k - 1);
    }
  }

  /** The loop only finishes when no combination is empty. */
  lemma {:induction false} NoEmptyWhenDone(cs: Colls, lo: nat, e: CollId, combos: seq<seq<ObjId>>, nameOf: seq<ObjId> -> string)
    requires e in cs
    requires !AddSets(cs, lo, e, combos, nameOf).failed
    ensures [] !in combos
    decreases |combos|
  {
    if combos != [] {
      NoEmptyWhenDone(AddSet(cs, lo, e, combos[0], nameOf(combos[0])), lo + 1, e, combos[1..], nameOf);
      assert combos == [combos[0]] + combos[1..];
    }
  }

  /** A drawn combination holds only objects linked to collections, so each has a name. */
  lemma DrawnObjectNamed(cs: Colls, cm: Dict<CollId>, n: nat, rnd: nat -> nat,
                         attrs: map<ObjId, ObjAttrs>, c: seq<ObjId>, o: ObjId)
    requires Combinations.KidsExist(cs) && LinkedNamed(cs, attrs)
    requires Combinations.FindCategories(cs, cm).Categories?
    requires c in Combinations.Drawing(cs, cm, n, rnd).combos && o in c
    ensures o in attrs
  {
    var s := Combinations.FindCategories(cs, cm);
    Combinations.DrawnShape(cs, cm, n, rnd, c);
    if o !in cs[s.mandatory].objects {
      var i :| 0 <= i < |s.cats| && o in cs[s.cats[i]].objects;
      assert s.cats[i] in cs;
    }
  }

  /** Every member of every drawn combination has a name. */
  lemma DrawnNamed(cs: Colls, cm: Dict<CollId>, n: nat, rnd: nat -> nat, attrs: map<ObjId, ObjAttrs>)
    requires Combinations.KidsExist(cs) && LinkedNamed(cs, attrs)
    ensures var d := Combinations.Drawing(cs, cm, n, rnd);
            d.Drawn? ==> Named(attrs, d.combos)
  {
    var d := Combinations.Drawing(cs, cm, n, rnd);
    if Combinations.FindCategories(cs, cm).Categories? {
      forall c, o | c in d.combos && o in c ensures o in attrs {
        DrawnObjectNamed(cs, cm, n, rnd, attrs, c, o);
      }
    }
  }

  /** What `draw_combinations` may give to `add_combinations_to_export`: an exception, or
      combinations of named objects. */
  predicate Usable(attrs: map<ObjId, ObjAttrs>, d: Combinations.Draw) {
    d.Drawn? ==> Named(attrs, d.combos)
  }

  /** The whole of `add_combinations_to_export` once `draw_combinations` gave `d`: its
      result, and the collections and next id it leaves. */
  function AddingDrawn(cs: Colls, cm: Dict<CollId>, next: nat, attrs: map<ObjId, ObjAttrs>,
                       d: Combinations.Draw, digest: string -> string): (Outcome, Colls, nat)
    requires Usable(attrs, d)
  {
    if d.ValueError? then (Raised(ValueError), cs, next)
    else if d.AttributeError? then (Raised(AttributeError), cs, next)
    else if d.combos == [] then (Done([Feedback(ERROR, COMBINE_FAILED)]), cs, next)
    else if !HasKey(cm, EXPORT) then (Done([Feedback(ERROR, NO_EXPORT)]), cs, next)
    else if Get(cm, EXPORT) !in cs then Dangling(cs, next, d.combos, NameRule(attrs, digest))
    else
      var s := AddSets(cs, next, Get(cm, EXPORT), d.combos, NameRule(attrs, digest));
      (if s.failed then Raised(IndexError) else Done([]), s.cs, s.next)
  }

  /** The loop when `export` was deleted: the first combination still gets its collection,
      named by `nameOf`, and linking it to `None.children` raises. */
  function Dangling(cs: Colls, next: nat, combos: seq<seq<ObjId>>, nameOf: seq<ObjId> -> string): (Outcome, Colls, nat)
    requires combos != []
  {
    if combos[0] == [] then (Raised(IndexError), cs, next)
    else (Raised(AttributeError), cs[next := Coll(nameOf(combos[0]), [], combos[0])], next + 1)
  }

  /** `add_combinations_to_export(context, n)` with the shuffle draws `rnd`. */
  function Adding(cs: Colls, cm: Dict<CollId>, next: nat, attrs: map<ObjId, ObjAttrs>,
                  n: nat, rnd: nat -> nat, digest: string -> string): (Outcome, Colls, nat)
    requires Combinations.KidsExist(cs) && LinkedNamed(cs, attrs)
  {
    DrawnNamed(cs, cm, n, rnd, attrs);
    AddingDrawn(cs, cm, next, attrs, Combinations.Drawing(cs, cm, n, rnd), digest)
  }

  /** `add_combinations_to_export` reports one ERROR when nothing could be drawn or the scene
      has no `export` item, and then changes nothing. */
  lemma AddingErrors(cs: Colls, cm: Dict<CollId>, next: nat, attrs: map<ObjId, ObjAttrs>,
                     d: Combinations.Draw, digest: string -> string)
    requires Usable(attrs, d)
    ensures var (r, cs', next') := AddingDrawn(cs, cm, next, attrs, d, digest);
            (r == Done([Feedback(ERROR, COMBINE_FAILED)]) <==> d.Drawn? && d.combos == [])
            && (r == Done([Feedback(ERROR, NO_EXPORT)]) <==> d.Drawn? && d.combos != [] && !HasKey(cm, EXPORT))
            && (r.Done? && r.feedback != [] ==> cs' == cs && next' == next)
  {
  }

  /** `add_combinations_to_export` returns no feedback exactly when something was drawn, the
      scene has an existing `export` collection and no combination is empty; then every
      combination got its collection, linked below `export` in order after its old children. */
  lemma AddingDone(cs: Colls, cm: Dict<CollId>, next: nat, attrs: map<ObjId, ObjAttrs>,
                   d: Combinations.Draw, digest: string -> string)
    requires Usable(attrs, d) && Ordered(cs, next)
    ensures var (r, cs', next') := AddingDrawn(cs, cm, next, attrs, d, digest);
            (r == Done([]) <==> d.Drawn? && d.combos != [] && HasKey(cm, EXPORT) && Get(cm, EXPORT) in cs && [] !in d.combos)
            && (r == Done([]) ==>
                  next' == next + |d.combos|
                  && Get(cm, EXPORT) in cs'
                  && cs'[Get(cm, EXPORT)].kids == cs[Get(cm, EXPORT)].kids + Ids(next, |d.combos|))
  {
    if d.Drawn? && d.combos != [] && HasKey(cm, EXPORT) && Get(cm, EXPORT) in cs {
      var e := Get(cm, EXPORT);
      var nameOf := NameRule(attrs, digest);
      var s := AddSets(cs, next, e, d.combos, nameOf);
      if !s.failed {
        NoEmptyWhenDone(cs, next, e, d.combos, nameOf);
      }
      if [] !in d.combos {
        AddSetsRuns(cs, next, e, d.combos, nameOf);
        AddSetsKids(cs, next, e, d.combos, nameOf);
      }
    }
  }

  /** When `add_combinations_to_export` succeeds, the `k`-th drawn combination is the new
      collection `next + k`: named `set-<skeleton>-<digest>` after its members, holding
      exactly them and nothing else. */
  lemma AddingNew(cs: Colls, cm: Dict<CollId>, next: nat, attrs: map<ObjId, ObjAttrs>,
                  d: Combinations.Draw, digest: string -> string, k: nat)
    requires Usable(attrs, d) && Ordered(cs, next)
    requires AddingDrawn(cs, cm, next, attrs, d, digest).0 == Done([])
    requires d.Drawn? && k < |d.combos|
    ensures var combo := d.combos[k];
            var cs' := AddingDrawn(cs, cm, next, attrs, d, digest).1;
            combo != [] && AllNamed(attrs, combo) && next + k in cs'
            && cs'[next + k] == Coll(CollName(attrs, combo, digest), [], combo)
  {
    var e := Get(cm, EXPORT);
    var nameOf := NameRule(attrs, digest);
    NoEmptyWhenDone(cs, next, e, d.combos, nameOf);
    AddSetsNew(cs, next, e, d.combos, nameOf, k);
    assert d.combos[k] in d.combos;
  }

  /** `add_combinations_to_export` changes no collection other than `export`. */
  lemma AddingKeeps(cs: Colls, cm: Dict<CollId>, next: nat, attrs: map<ObjId, ObjAttrs>,
                    d: Combinations.Draw, digest: string -> string, c: CollId)
    requires Usable(attrs, d) && Ordered(cs, next)
    requires c in cs && (HasKey(cm, EXPORT) ==> c != Get(cm, EXPORT))
    ensures var cs' := AddingDrawn(cs, cm, next, attrs, d, digest).1;
            c in cs' && cs'[c] == cs[c]
  {
    if d.Drawn? && d.combos != [] && HasKey(cm, EXPORT) && Get(cm, EXPORT) in cs {
      AddSetsKeepOthers(cs, next, Get(cm, EXPORT), d.combos, NameRule(attrs, digest), c);
    }
  }

  /** An exception escapes `add_combinations_to_export` exactly when `draw_combinations`
      raises, or the scene's `export` item points at a deleted collection, or a combination
      is empty. With `export` deleted, the first drawn combination still becomes a new
      collection, linked nowhere, before linking it raises `AttributeError`; no other
      exception leaves a new collection behind. */
  lemma AddingRaises(cs: Colls, cm: Dict<CollId>, next: nat, attrs: map<ObjId, ObjAttrs>,
                     d: Combinations.Draw, digest: string -> string)
    requires Usable(attrs, d) && Ordered(cs, next)
    ensures var (r, cs', next') := AddingDrawn(cs, cm, next, attrs, d, digest);
            var dangling := d.Drawn? && d.combos != [] && HasKey(cm, EXPORT) && Get(cm, EXPORT) !in cs;
            (r == Raised(ValueError) <==> d.ValueError?)
            && (r == Raised(AttributeError) <==> d.AttributeError? || (dangling && d.combos[0] != []))
            && (r == Raised(IndexError) <==>
                  d.Drawn? && d.combos != [] && HasKey(cm, EXPORT) && [] in d.combos
                  && (Get(cm, EXPORT) !in cs ==> d.combos[0] == []))
            && (dangling && d.combos[0] != [] ==>
                  AllNamed(attrs, d.combos[0]) && next' == next + 1 && next !in cs
                  && cs' == cs[next := Coll(CollName(attrs, d.combos[0], digest), [], d.combos[0])])
            && (r.Raised? && !(dangling && d.combos[0] != []) && r != Raised(IndexError) ==> cs' == cs && next' == next)
  {
    if d.Drawn? && d.combos != [] && HasKey(cm, EXPORT) {
      if Get(cm, EXPORT) in cs {
        AddingDone(cs, cm, next, attrs, d, digest);
      } else if d.combos[0] == [] {
        assert [] in d.combos;
      } else {
        assert d.combos[0] in d.combos;
      }
    }
  }

  /** `new_collection.objects.link(obj)` for each object in turn. */
  method LinkObjects(b: Blend, c: CollId, objs: seq<ObjId>)
    requires b.Valid() && c in b.colls
    modifies b
    ensures b.Valid()
    ensures b.colls == old(b.colls)[c := old(b.colls)[c].(objects := old(b.colls)[c].objects + objs)]
    ensures b.nextColl == old(b.nextColl) && b.Props() == old(b.Props())
    ensures b.dataObjects == old(b.dataObjects) && b.extraUsers == old(b.extraUsers) && b.attrs == old(b.attrs)
  {
    var k := b.colls[c];
    var i := 0;
    assert k.objects + objs[..0] == k.objects;
    while i < |objs|
      invariant 0 <= i <= |objs|
      invariant b.Valid()
      invariant b.colls == old(b.colls)[c := k.(objects := k.objects + objs[..i])]
      invariant b.nextColl == old(b.nextColl) && b.Props() == old(b.Props())
      invariant b.dataObjects == old(b.dataObjects) && b.extraUsers == old(b.extraUsers) && b.attrs == old(b.attrs)
    {
      assert objs[..i + 1] == objs[..i] + [objs[i]];
      assert b.colls[c].objects + [objs[i]] == k.objects + objs[..i + 1];
      b.colls := b.colls[c := b.colls[c].(objects := b.colls[c].objects + [objs[i]])];
      i := i + 1;
    }
    assert objs[..i] == objs;
  }

  /** One pass of the loop of `add_combinations_to_export`, with the collection name
      already computed. */
  method MakeSet(b: Blend, e: CollId, combo: seq<ObjId>, name: string)
    requires b.Valid() && e in b.colls
    modifies b
    ensures b.Valid()
    ensures b.colls == AddSet(old(b.colls), old(b.nextColl), e, combo, name)
    ensures b.nextColl == old(b.nextColl) + 1 && b.Props() == old(b.Props())
    ensures b.dataObjects == old(b.dataObjects) && b.extraUsers == old(b.extraUsers) && b.attrs == old(b.attrs)
  {
    var c := b.nextColl;
    NewSet(b, combo, name);
    assert c != e && b.colls[e] == old(b.colls)[e];
    assert c !in old(b.colls)[e].kids;
    b.LinkToParent(One(c), e);
  }

  /** `bpy.data.collections.new(name)` and the objects of `combo` linked to it, without
      linking the new collection anywhere. */
  method NewSet(b: Blend, combo: seq<ObjId>, name: string)
    requires b.Valid()
    modifies b
    ensures b.Valid()
    ensures b.colls == old(b.colls)[old(b.nextColl) := Coll(name, [], combo)] && old(b.nextColl) !in old(b.colls)
    ensures b.nextColl == old(b.nextColl) + 1 && b.Props() == old(b.Props())
    ensures b.dataObjects == old(b.dataObjects) && b.extraUsers == old(b.extraUsers) && b.attrs == old(b.attrs)
  {
    var c := b.NewCollection(name);
    LinkObjects(b, c, combo);
    assert [] + combo == combo;
  }

  /** `add_combinations_to_export(context, n)`, with the shuffle draws `rnd`. */
  method AddCombinationsToExport(b: Blend, n: nat, rnd: nat -> nat, digest: string -> string) returns (r: Outcome)
    requires b.Valid() && LinkedNamed(b.colls, b.attrs)
    modifies b
    ensures b.Valid() && Combinations.KidsExist(old(b.colls))
    ensures (r, b.colls, b.nextColl) == Adding(old(b.colls), old(b.collectionMap), old(b.nextColl), old(b.attrs), n, rnd, digest)
    ensures b.Props() == old(b.Props())
    ensures b.dataObjects == old(b.dataObjects) && b.extraUsers == old(b.extraUsers) && b.attrs == old(b.attrs)
  {
    var d := Combinations.DrawCombinations(b, n, rnd);
    DrawnNamed(b.colls, b.collectionMap, n, rnd, b.attrs);
    r := AddDrawn(b, d, digest);
  }

  /** The rest of `add_combinations_to_export` once `draw_combinations` gave `d`. */
  method AddDrawn(b: Blend, d: Combinations.Draw, digest: string -> string) returns (r: Outcome)
    requires b.Valid() && Usable(b.attrs, d)
    modifies b
    ensures b.Valid()
    ensures (r, b.colls, b.nextColl) == AddingDrawn(old(b.colls), old(b.collectionMap), old(b.nextColl), old(b.attrs), d, digest)
    ensures b.Props() == old(b.Props())
    ensures b.dataObjects == old(b.dataObjects) && b.extraUsers == old(b.extraUsers) && b.attrs == old(b.attrs)
  {
    if d.ValueError? {
      return Raised(ValueError);
    } else if d.AttributeError? {
      return Raised(AttributeError);
    }
    var combos := d.combos;
    if combos == [] {
      return Done([Feedback(ERROR, COMBINE_FAILED)]);
    }
    if !HasKey(b.collectionMap, EXPORT) {
      return Done([Feedback(ERROR, NO_EXPORT)]);
    }
    var e := Get(b.collectionMap, EXPORT);
    if e !in b.colls {
      r := AddDangling(b, combos, NameRule(b.attrs, digest));
    } else {
      r := MakeSets(b, e, combos, NameRule(b.attrs, digest));
    }
  }

  /** The loop when `export` was deleted: the first combination is made into a collection,
      and linking it below `None` raises. */
  method AddDangling(b: Blend, combos: seq<seq<ObjId>>, nameOf: seq<ObjId> -> string) returns (r: Outcome)
    requires b.Valid() && combos != []
    modifies b
    ensures b.Valid()
    ensures (r, b.colls, b.nextColl) == Dangling(old(b.colls), old(b.nextColl), combos, nameOf)
    ensures b.Props() == old(b.Props())
    ensures b.dataObjects == old(b.dataObjects) && b.extraUsers == old(b.extraUsers) && b.attrs == old(b.attrs)
  {
    if combos[0] == [] {
      return Raised(IndexError);
    }
    NewSet(b, combos[0], nameOf(combos[0]));
    r := Raised(AttributeError);
  }

  /** The loop of `add_combinations_to_export` over the drawn combinations, naming each
      one by `nameOf`. */
  method MakeSets(b: Blend, e: CollId, combos: seq<seq<ObjId>>, nameOf: seq<ObjId> -> string) returns (r: Outcome)
    requires b.Valid() && e in b.colls
    modifies b
    ensures b.Valid()
    ensures var s := AddSets(old(b.colls), old(b.nextColl), e, combos, nameOf);
            r == (if s.failed then Raised(IndexError) else Done([])) && b.colls == s.cs && b.nextColl == s.next
    ensures b.Props() == old(b.Props())
    ensures b.dataObjects == old(b.dataObjects) && b.extraUsers == old(b.extraUsers) && b.attrs == old(b.attrs)
  {
    ghost var goal := AddSets(b.colls, b.nextColl, e, combos, nameOf);
    var i := 0;
    while i < |combos|
      invariant 0 <= i <= |combos|
      invariant b.Valid() && e in b.colls
      invariant b.Props() == old(b.Props())
      invariant b.dataObjects == old(b.dataObjects) && b.extraUsers == old(b.extraUsers) && b.attrs == old(b.attrs)
      invariant AddSets(b.colls, b.nextColl, e, combos[i..], nameOf) == goal
    {
      if combos[i] == [] {
        return Raised(IndexError);
      }
      var name := nameOf(combos[i]);
      assert combos[i..][1..] == combos[i + 1..];
      MakeSet(b, e, combos[i], name);
      i := i + 1;
    }
    r := Done([]);
  }

  // ---------------------------------------------------------------------------
  // export_combinations

  const NOT_A_DIRECTORY := "Export destination is not a directory."

  /** `(Path(directory) / name.replace(".", "_")).with_suffix(".glb")`, as a string. */
  function ExportPath(directory: string, name: string): string {
    directory + "/" + ReplaceChar(name, '.', '_') + ".glb"
  }

  /** The file name holds one `.`, the one of its `.glb` suffix. */
  lemma ExportPathShape(directory: string, name: string)
    ensures var p := ExportPath(directory, name);
            var f := ReplaceChar(name, '.', '_');
            p == directory + "/" + f + ".glb" && |f| == |name| && '.' !in f
  {
  }

  /** A name without `.` is kept as it is. */
  lemma ExportPathDotFree(directory: string, name: string)
    requires '.' !in name
    ensures ExportPath(directory, name) == directory + "/" + name + ".glb"
  {
    assert ReplaceChar(name, '.', '_') == name;
  }

  /** The collection of a combination is written to the file named after it. */
  lemma SetFileName(directory: string, names: seq<string>, digest: string -> string)
    requires names != [] && HexDigest(digest(Join(Sort(names), ' ')))
    ensures ExportPath(directory, SetName(names, digest)) == directory + "/" + SetName(names, digest) + ".glb"
  {
    HexClean(digest(Join(Sort(names), ' ')));
    SetNameParts(names, digest);
    ExportPathDotFree(directory, SetName(names, digest));
  }

  /** The message for one collection written to `path`: INFO on success, WARNING with the
      error text on an `IOError`. */
  function ExportMessage(path: string, written: Option<string>): Feedback {
    match written
    case None => Feedback(INFO, "Exported combination to " + path + ".")
    case Some(err) => Feedback(WARNING, "Failed to export file " + path + ".\n" + err)
  }

  /** One message per collection of `kids`, in order. */
  function Exports(cs: Colls, kids: seq<CollId>, directory: string, write: string -> Option<string>): (r: seq<Feedback>)
    requires forall i :: 0 <= i < |kids| ==> kids[i] in cs
    ensures |r| == |kids|
  {
    if kids == [] then []
    else
      var p := ExportPath(directory, cs[kids[0]].name);
      [ExportMessage(p, write(p))] + Exports(cs, kids[1..], directory, write)
  }

  /** The result of `export_combinations`: its feedback, or the `AttributeError` of an
      `export` item whose collection was deleted. */
  function ExportReport(cs: Colls, cm: Dict<CollId>, directory: string, isDir: bool,
                        write: string -> Option<string>): Outcome
    requires Combinations.KidsExist(cs)
  {
    if !HasKey(cm, EXPORT) then Done([Feedback(ERROR, NO_EXPORT)])
    else if Get(cm, EXPORT) !in cs then Raised(AttributeError)
    else if !isDir then Done([Feedback(ERROR, NOT_A_DIRECTORY)])
    else
      var e := Get(cm, EXPORT);
      assert forall i :: 0 <= i < |cs[e].kids| ==> cs[e].kids[i] in cs;
      Done(Exports(cs, cs[e].kids, directory, write))
  }

  lemma {:induction false} ExportsAt(cs: Colls, kids: seq<CollId>, directory: string, write: string -> Option<string>, i: nat)
    requires forall j :: 0 <= j < |kids| ==> kids[j] in cs
    requires i < |kids|
    ensures var p := ExportPath(directory, cs[kids[i]].name);
            Exports(cs, kids, directory, write)[i] == ExportMessage(p, write(p))
    decreases i
  {
    if i > 0 {
      ExportsAt(cs, kids[1..], directory, write, i - 1);
    }
  }

  /** `AttributeError` exactly when `export` is mapped to a deleted collection. Otherwise,
      without an `export` item or an export directory, one ERROR and nothing written; else
      one message per child collection of `export`, in order: INFO exactly when its file was
      written, WARNING otherwise, never an ERROR. */
  lemma ExportReportShape(cs: Colls, cm: Dict<CollId>, directory: string, isDir: bool,
                          write: string -> Option<string>)
    requires Combinations.KidsExist(cs)
    ensures var r := ExportReport(cs, cm, directory, isDir, write);
            (r.Raised? <==> HasKey(cm, EXPORT) && Get(cm, EXPORT) !in cs)
            && (r.Raised? ==> r.exc == AttributeError)
            && (!HasKey(cm, EXPORT) || (Get(cm, EXPORT) in cs && !isDir) ==>
                  r.Done? && |r.feedback| == 1 && r.feedback[0].level == ERROR)
            && (HasKey(cm, EXPORT) && Get(cm, EXPORT) in cs && isDir ==>
                  var kids := cs[Get(cm, EXPORT)].kids;
                  r.Done? && |r.feedback| == |kids|
                  && forall i :: 0 <= i < |kids| ==>
                       r.feedback[i].level != ERROR
                       && (r.feedback[i].level == INFO <==> write(ExportPath(directory, cs[kids[i]].name)).None?))
  {
    if HasKey(cm, EXPORT) && Get(cm, EXPORT) in cs && isDir {
      var kids := cs[Get(cm, EXPORT)].kids;
      assert forall i :: 0 <= i < |kids| ==> kids[i] in cs;
      forall i | 0 <= i < |kids|
        ensures var fb := ExportReport(cs, cm, directory, isDir, write).feedback;
                fb[i].level != ERROR && (fb[i].level == INFO <==> write(ExportPath(directory, cs[kids[i]].name)).None?)
      {
        ExportsAt(cs, kids, directory, write, i);
      }
    }
  }

  /** The loop of `export_combinations`: one export and one message per collection. */
  method ExportEach(cs: Colls, kids: seq<CollId>, directory: string, write: string -> Option<string>)
    returns (feedback: seq<Feedback>)
    requires forall i :: 0 <= i < |kids| ==> kids[i] in cs
    ensures feedback == Exports(cs, kids, directory, write)
  {
    feedback := [];
    var i := 0;
    while i < |kids|
      invariant 0 <= i <= |kids|
      invariant feedback + Exports(cs, kids[i..], directory, write) == Exports(cs, kids, directory, write)
    {
      var path := ExportPath(directory, cs[kids[i]].name);
      var written := write(path);
      assert kids[i..][1..] == kids[i + 1..];
      feedback := feedback + [ExportMessage(path, written)];
      i := i + 1;
    }
  }

  /** `export_combinations(context, export_path)`: `directory` is the absolute form of the
      export path and `isDir` whether it is a directory. Selection and visibility changes
      are not modelled, so the data is only read. */
  method ExportCombinations(b: Blend, directory: string, isDir: bool, write: string -> Option<string>)
    returns (r: Outcome)
    requires b.Valid()
    ensures Combinations.KidsExist(b.colls)
    ensures r == ExportReport(b.colls, b.collectionMap, directory, isDir, write)
  {
    if !HasKey(b.collectionMap, EXPORT) {
      return Done([Feedback(ERROR, NO_EXPORT)]);
    }
    var e := Get(b.collectionMap, EXPORT);
    if e !in b.colls {
      // `collection_map["export"].collection` is `None`, which has no `children`.
      return Raised(AttributeError);
    }
    if !isDir {
      return Done([Feedback(ERROR, NOT_A_DIRECTORY)]);
    }
    var kids := b.colls[e].kids;
    var feedback := ExportEach(b.colls, kids, directory, write);
    r := Done(feedback);
  }
}
