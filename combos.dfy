/** `draw_combinations` of src/scenemanager/manager.py: the category collections below `src`
    (all its children but `_ignore`, `_failed` and `_mandatory`), the cartesian product of
    their objects in `itertools.product` order, each tuple merged with the objects of
    `_mandatory` into a list without repeats, that list shuffled, and its first `n` entries. */
module Combinations {
  import opened Dicts
  import opened Hierarchy
  import opened SceneSetup
  import opened Shuffling

  function Min(a: nat, b: nat): nat {
    if a <= b then a else b
  }

  // ---------------------------------------------------------------------------
  // itertools.product

  /** `[x] + t` for every `t` of `ts`, in order. */
  function Cons<T>(x: T, ts: seq<seq<T>>): (r: seq<seq<T>>)
    ensures |r| == |ts|
    ensures forall j :: 0 <= j < |ts| ==> r[j] == [x] + ts[j]
  {
    seq(|ts|, j requires 0 <= j < |ts| => [x] + ts[j])
  }

  /** Each `x` of `xs` in turn, put in front of every `t` of `ts`. */
  function Prepend<T>(xs: seq<T>, ts: seq<seq<T>>): seq<seq<T>> {
    if xs == [] then [] else Cons(xs[0], ts) + Prepend(xs[1..], ts)
  }

  /** `itertools.product(*ls)`: every way to pick one element of each list, the first list
      varying slowest. */
  function Product<T>(ls: seq<seq<T>>): seq<seq<T>>
    decreases |ls|
  {
    if ls == [] then [[]] else Prepend(ls[0], Product(ls[1..]))
  }

  /** The product of the list lengths. */
  function Count<T>(ls: seq<seq<T>>): nat
    decreases |ls|
  {
    if ls == [] then 1 else |ls[0]| * Count(ls[1..])
  }

  /** `t` picks, at each position, an element of the list at that position. */
  predicate Choice<T(==)>(t: seq<T>, ls: seq<seq<T>>) {
    |t| == |ls| && forall i :: 0 <= i < |ls| ==> t[i] in ls[i]
  }

  lemma {:induction false} PrependSize<T>(xs: seq<T>, ts: seq<seq<T>>)
    ensures |Prepend(xs, ts)| == |xs| * |ts|
  {
    if xs != [] {
      PrependSize(xs[1..], ts);
      assert |xs| * |ts| == |ts| + (|xs| - 1) * |ts|;
    }
  }

  /** The product has as many tuples as the product of the list lengths. */
  lemma {:induction false} ProductSize<T>(ls: seq<seq<T>>)
    ensures |Product(ls)| == Count(ls)
    decreases |ls|
  {
    if ls != [] {
      ProductSize(ls[1..]);
      PrependSize(ls[0], Product(ls[1..]));
    }
  }

  /** The product is empty exactly when one of the lists is. */
  lemma {:induction false} ProductEmpty<T>(ls: seq<seq<T>>)
    ensures Product(ls) == [] <==> exists i :: 0 <= i < |ls| && ls[i] == []
    decreases |ls|
  {
    ProductSize(ls);
    if ls != [] {
      ProductEmpty(ls[1..]);
      ProductSize(ls[1..]);
      if exists i :: 0 <= i < |ls[1..]| && ls[1..][i] == [] {
        var i :| 0 <= i < |ls[1..]| && ls[1..][i] == [];
        assert ls[i + 1] == [];
      }
      if exists i :: 0 <= i < |ls| && ls[i] == [] {
        var i :| 0 <= i < |ls| && ls[i] == [];
        if i > 0 { assert ls[1..][i - 1] == []; }
      }
    }
  }

  lemma {:induction false} PrependMembers<T>(xs: seq<T>, ts: seq<seq<T>>, t: seq<T>)
    ensures t in Prepend(xs, ts) <==> |t| > 0 && t[0] in xs && t[1..] in ts
  {
    if xs != [] {
      PrependMembers(xs[1..], ts, t);
      if t in Cons(xs[0], ts) {
        var j :| 0 <= j < |ts| && Cons(xs[0], ts)[j] == t;
        assert t[1..] == ts[j];
      }
      if |t| > 0 && t[0] == xs[0] && t[1..] in ts {
        var j :| 0 <= j < |ts| && ts[j] == t[1..];
        assert Cons(xs[0], ts)[j] == t;
      }
    }
  }

  /** A tuple is in the product exactly when it picks one element of each list. */
  lemma {:induction false} ProductChoices<T>(ls: seq<seq<T>>, t: seq<T>)
    ensures t in Product(ls) <==> Choice(t, ls)
    decreases |ls|
  {
    if ls == [] {
      assert t in Product(ls) <==> t == [];
    } else {
      PrependMembers(ls[0], Product(ls[1..]), t);
      if |t| > 0 {
        ProductChoices(ls[1..], t[1..]);
        if Choice(t[1..], ls[1..]) && t[0] in ls[0] {
          forall i | 0 <= i < |ls| ensures t[i] in ls[i] {
            if i > 0 { assert t[1..][i - 1] == t[i]; }
          }
        }
        if Choice(t, ls) {
          forall i | 0 <= i < |ls[1..]| ensures t[1..][i] in ls[1..][i] {
            assert t[i + 1] in ls[i + 1];
          }
        }
      }
    }
  }

  lemma {:induction false} PrependAt<T>(xs: seq<T>, ts: seq<seq<T>>, i: nat, j: nat)
    requires i < |xs| && j < |ts|
    ensures i * |ts| + j < |Prepend(xs, ts)|
    ensures Prepend(xs, ts)[i * |ts| + j] == [xs[i]] + ts[j]
  {
    assert Prepend(xs, ts) == Cons(xs[0], ts) + Prepend(xs[1..], ts);
    if i > 0 {
      PrependAt(xs[1..], ts, i - 1, j);
      assert i * |ts| == |ts| + (i - 1) * |ts|;
    }
  }

  /** `itertools.product` order: the tuple at position `i * m + j`, where `m` is the size of
      the product of the remaining lists, is the `i`-th element of the first list in front of
      the `j`-th tuple of that product. */
  lemma ProductOrder<T>(ls: seq<seq<T>>, i: nat, j: nat)
    requires ls != [] && i < |ls[0]| && j < |Product(ls[1..])|
    ensures i * |Product(ls[1..])| + j < |Product(ls)|
    ensures Product(ls)[i * |Product(ls[1..])| + j] == [ls[0][i]] + Product(ls[1..])[j]
  {
    PrependAt(ls[0], Product(ls[1..]), i, j);
  }

  // ---------------------------------------------------------------------------
  // One combination

  /** `list(set(xs))`: each element once. Python leaves the order of a set open; the model
      keeps the first occurrences in order. */
  function Dedup(xs: seq<ObjId>): (r: seq<ObjId>)
    ensures NoDups(r)
    ensures forall x :: x in r <==> x in xs
  {
    if xs == [] then []
    else
      var r := Dedup(xs[..|xs| - 1]);
      if xs[|xs| - 1] in r then r else r + [xs[|xs| - 1]]
  }

  /** The combination a product tuple `t` gives: `list(set(mandatory + list(t)))`. */
  function Combine(mandatory: seq<ObjId>, t: seq<ObjId>): seq<ObjId> {
    Dedup(mandatory + t)
  }

  /** The combination of every tuple, in order. */
  function Combined(mandatory: seq<ObjId>, ts: seq<seq<ObjId>>): (r: seq<seq<ObjId>>)
    ensures |r| == |ts|
    ensures forall i :: 0 <= i < |ts| ==> r[i] == Combine(mandatory, ts[i])
  {
    seq(|ts|, i requires 0 <= i < |ts| => Combine(mandatory, ts[i]))
  }

  /** Every combination of the product holds each mandatory object and an object of each
      category, no object twice, and nothing else. */
  lemma CombinationShape(mandatory: seq<ObjId>, ls: seq<seq<ObjId>>, c: seq<ObjId>)
    requires c in Combined(mandatory, Product(ls))
    ensures NoDups(c)
    ensures forall m :: m in mandatory ==> m in c
    ensures forall i :: 0 <= i < |ls| ==> exists o :: o in ls[i] && o in c
    ensures forall o :: o in c ==> o in mandatory || exists i :: 0 <= i < |ls| && o in ls[i]
  {
    var k :| 0 <= k < |Product(ls)| && Combined(mandatory, Product(ls))[k] == c;
    var t := Product(ls)[k];
    ProductChoices(ls, t);
    forall i | 0 <= i < |ls| ensures exists o :: o in ls[i] && o in c {
      assert t[i] in mandatory + t;
    }
    forall o | o in c && o !in mandatory ensures exists i :: 0 <= i < |ls| && o in ls[i] {
      assert o in mandatory + t;
      var i :| 0 <= i < |t| && t[i] == o;
      assert o in ls[i];
    }
  }

  // ---------------------------------------------------------------------------
  // draw_combinations

  /** The position of the first `x` in `xs`. */
  function Position<T(==)>(xs: seq<T>, x: T): (k: nat)
    requires x in xs
    ensures k < |xs| && xs[k] == x && x !in xs[..k]
  {
    if xs[0] == x then 0 else 1 + Position(xs[1..], x)
  }

  /** `list.remove(x)`: the list without its first `x`, the others in order. */
  function RemoveFirst<T(==)>(xs: seq<T>, x: T): (r: seq<T>)
    requires x in xs
    ensures |r| == |xs| - 1
    ensures forall j :: 0 <= j < |r| ==> r[j] == if j < Position(xs, x) then xs[j] else xs[j + 1]
    ensures forall y :: y in r ==> y in xs
    ensures multiset(r) == multiset(xs) - multiset{x}
  {
    var k := Position(xs, x);
    assert xs == xs[..k] + [x] + xs[k + 1..];
    xs[..k] + xs[k + 1..]
  }

  /** Every listed child collection exists (Blender unlinks a collection it deletes; the
      items of `collection_map` may still point at one). */
  predicate KidsExist(cs: Colls) {
    forall c, i :: c in cs && 0 <= i < |cs[c].kids| ==> cs[c].kids[i] in cs
  }

  /** The objects of each collection of `cats`, in order. */
  function ObjectLists(cs: Colls, cats: seq<CollId>): (r: seq<seq<ObjId>>)
    requires forall c :: c in cats ==> c in cs
    ensures |r| == |cats|
    ensures forall i :: 0 <= i < |cats| ==> r[i] == cs[cats[i]].objects
  {
    seq(|cats|, i requires 0 <= i < |cats| => cs[cats[i]].objects)
  }

  /** What `draw_combinations` finds in the scene before the product: a missing key of
      `collection_map` (its `KeyError` is caught), a `src` whose collection was deleted (the
      `AttributeError` of `None.children` is not caught), a collection `list.remove` cannot
      find, `None` included (its `ValueError` is not caught), or the category collections and
      the `_mandatory` one. */
  datatype Setup = Missing | Deleted | Absent | Categories(cats: seq<CollId>, mandatory: CollId)

  function FindCategories(cs: Colls, cm: Dict<CollId>): (r: Setup)
    requires KidsExist(cs)
    ensures r.Categories? ==> r.mandatory in cs && forall c :: c in r.cats ==> c in cs
  {
    if !HasKey(cm, SRC) then Missing
    else if Get(cm, SRC) !in cs then Deleted
    else if !HasKey(cm, IGNORE) then Missing
    else
      var all := cs[Get(cm, SRC)].kids;
      assert forall i :: 0 <= i < |all| ==> all[i] in cs;
      var ignore := Get(cm, IGNORE);
      if ignore !in all then Absent
      else if !HasKey(cm, FAILED) then Missing
      else
        var c1 := RemoveFirst(all, ignore);
        assert forall y :: y in c1 ==> y in cs;
        var failed := Get(cm, FAILED);
        if failed !in c1 then Absent
        else if !HasKey(cm, MANDATORY) then Missing
        else
          var c2 := RemoveFirst(c1, failed);
          assert forall y :: y in c2 ==> y in cs;
          var mandatory := Get(cm, MANDATORY);
          if mandatory !in c2 then Absent
          else
            Categories(RemoveFirst(c2, mandatory), mandatory)
  }

  /** Taking three elements out one at a time is taking them out together. */
  lemma MinusThree<T>(a: multiset<T>, i: T, f: T, m: T)
    ensures a - multiset{i} - multiset{f} - multiset{m} == a - multiset{i, f, m}
  {
    forall x ensures (a - multiset{i} - multiset{f} - multiset{m})[x] == (a - multiset{i, f, m})[x] {
      var n := if x == i then 1 else 0;
      var k := if x == f then 1 else 0;
      var l := if x == m then 1 else 0;
      assert multiset{i, f, m}[x] == n + k + l;
    }
  }

  /** Three elements are in `a`, counted with multiplicity, exactly when they can be taken out
      one after the other. */
  lemma InThree<T>(a: multiset<T>, i: T, f: T, m: T)
    ensures multiset{i, f, m} <= a <==> a[i] > 0 && (a - multiset{i})[f] > 0 && (a - multiset{i} - multiset{f})[m] > 0
  {
    var n := if i == f then 1 else 0;
    var k := if i == m then 1 else 0;
    var l := if f == m then 1 else 0;
    if a[i] > 0 && (a - multiset{i})[f] > 0 && (a - multiset{i} - multiset{f})[m] > 0 {
      forall x ensures multiset{i, f, m}[x] <= a[x] {
        if x == m {
          assert (a - multiset{i} - multiset{f})[m] == a[m] - k - l;
        } else if x == f {
          assert (a - multiset{i})[f] == a[f] - n;
        }
      }
    }
    if multiset{i, f, m} <= a {
      assert multiset{i, f, m}[i] <= a[i];
      assert multiset{i, f, m}[f] <= a[f];
      assert multiset{i, f, m}[m] <= a[m];
    }
  }

  /** `list.remove` of `i`, then `f`, then `m` succeeds exactly when the list holds all three,
      counted with multiplicity, and leaves the other elements. */
  lemma RemoveThree<T>(all: seq<T>, i: T, f: T, m: T)
    ensures var ok := i in all && f in RemoveFirst(all, i) && m in RemoveFirst(RemoveFirst(all, i), f);
            (ok <==> multiset{i, f, m} <= multiset(all))
            && (ok ==> multiset(RemoveFirst(RemoveFirst(RemoveFirst(all, i), f), m)) == multiset(all) - multiset{i, f, m})
  {
    var a := multiset(all);
    InThree(a, i, f, m);
    MinusThree(a, i, f, m);
    if i in all {
      var c1 := RemoveFirst(all, i);
      if f in c1 {
        var c2 := RemoveFirst(c1, f);
        assert multiset(c2) == a - multiset{i} - multiset{f};
      } else {
        assert multiset(c1)[f] == 0;
      }
    } else {
      assert a[i] == 0;
    }
  }

  /** The lookups succeed exactly when all four keys are mapped, `src` exists and its child
      collections hold `_ignore`, `_failed` and `_mandatory` (as often as they are named); the
      categories are then the remaining children and `_mandatory` is the mapped collection.
      A `KeyError` needs a missing key; an `AttributeError` comes exactly when `src` is mapped
      to a deleted collection; a `ValueError` only comes once `src` exists and `_ignore` is
      mapped, and always when all keys are mapped and one of the other three was deleted. */
  lemma FindCategoriesCases(cs: Colls, cm: Dict<CollId>)
    requires KidsExist(cs)
    ensures var r := FindCategories(cs, cm);
            var keys := HasKey(cm, SRC) && HasKey(cm, IGNORE) && HasKey(cm, FAILED) && HasKey(cm, MANDATORY);
            (r.Missing? ==> !keys)
            && (r.Deleted? <==> HasKey(cm, SRC) && Get(cm, SRC) !in cs)
            && (r.Absent? ==> HasKey(cm, SRC) && Get(cm, SRC) in cs && HasKey(cm, IGNORE))
            && (r.Categories? <==>
                  keys && Get(cm, SRC) in cs
                  && multiset{Get(cm, IGNORE), Get(cm, FAILED), Get(cm, MANDATORY)} <= multiset(cs[Get(cm, SRC)].kids))
            && (r.Categories? ==>
                  (Get(cm, SRC) in cs && r.mandatory == Get(cm, MANDATORY)
                   && multiset(r.cats) == multiset(cs[Get(cm, SRC)].kids) - multiset{Get(cm, IGNORE), Get(cm, FAILED), Get(cm, MANDATORY)}))
            && (keys && Get(cm, SRC) in cs && !(Get(cm, IGNORE) in cs && Get(cm, FAILED) in cs && Get(cm, MANDATORY) in cs) ==>
                  r.Absent?)
  {
    if HasKey(cm, SRC) && Get(cm, SRC) in cs && HasKey(cm, IGNORE) && HasKey(cm, FAILED) && HasKey(cm, MANDATORY) {
      var all := cs[Get(cm, SRC)].kids;
      var i, f, m := Get(cm, IGNORE), Get(cm, FAILED), Get(cm, MANDATORY);
      RemoveThree(all, i, f, m);
    }
  }

  /** The combinations to draw from: one per tuple of the product of the category lists. */
  function Pool(cs: Colls, s: Setup): seq<seq<ObjId>>
    requires s.Categories? && s.mandatory in cs && forall c :: c in s.cats ==> c in cs
  {
    Combined(cs[s.mandatory].objects, Product(ObjectLists(cs, s.cats)))
  }

  /** The result of `draw_combinations`: the drawn combinations, the `AttributeError` of a
      deleted `src` collection, or the `ValueError` of `list.remove`. */
  datatype Draw = Drawn(combos: seq<seq<ObjId>>) | AttributeError | ValueError

  /** `draw_combinations(context, n)` with the shuffle draws `rnd`. */
  function Drawing(cs: Colls, cm: Dict<CollId>, n: nat, rnd: nat -> nat): Draw
    requires KidsExist(cs)
  {
    var s := FindCategories(cs, cm);
    match s
    case Missing => Drawn([])
    case Deleted => AttributeError
    case Absent => ValueError
    case Categories(_, _) =>
      var pool := Pool(cs, s);
      Drawn(Shuffle(pool, rnd)[..Min(n, |pool|)])
  }

  /** `min(n, k)` combinations are drawn, `k` the product of the category sizes; none when a
      key of `collection_map` is missing or a category is empty. */
  lemma DrawnCount(cs: Colls, cm: Dict<CollId>, n: nat, rnd: nat -> nat)
    requires KidsExist(cs) && Drawing(cs, cm, n, rnd).Drawn?
    ensures var s := FindCategories(cs, cm);
            var r := Drawing(cs, cm, n, rnd).combos;
            (s.Missing? ==> r == [])
            && (s.Categories? ==> |r| == Min(n, Count(ObjectLists(cs, s.cats))))
            && (s.Categories? && n > 0 ==>
                  (r == [] <==> exists i :: 0 <= i < |s.cats| && cs[s.cats[i]].objects == []))
  {
    var s := FindCategories(cs, cm);
    if s.Categories? {
      var ls := ObjectLists(cs, s.cats);
      ProductSize(ls);
      ProductEmpty(ls);
    }
  }

  lemma PrefixSubMultiset<T>(xs: seq<T>, k: nat)
    requires k <= |xs|
    ensures multiset(xs[..k]) <= multiset(xs)
  {
    assert xs == xs[..k] + xs[k..];
  }

  /** Each tuple of the product is drawn at most once: the drawn combinations are a
      sub-multiset of the pool. */
  lemma DrawnFromPool(cs: Colls, cm: Dict<CollId>, n: nat, rnd: nat -> nat)
    requires KidsExist(cs) && FindCategories(cs, cm).Categories?
    ensures multiset(Drawing(cs, cm, n, rnd).combos) <= multiset(Pool(cs, FindCategories(cs, cm)))
  {
    var pool := Pool(cs, FindCategories(cs, cm));
    DrawingCategories(cs, cm, n, rnd);
    ShuffledPrefix(pool, n, rnd);
  }

  /** With the categories found, the draw is the first `n` of the shuffled pool. */
  lemma DrawingCategories(cs: Colls, cm: Dict<CollId>, n: nat, rnd: nat -> nat)
    requires KidsExist(cs) && FindCategories(cs, cm).Categories?
    ensures var pool := Pool(cs, FindCategories(cs, cm));
            Drawing(cs, cm, n, rnd) == Drawn(Shuffle(pool, rnd)[..Min(n, |pool|)])
  {
  }

  /** The first `n` of a shuffled sequence are a sub-multiset of it. */
  lemma ShuffledPrefix<T>(pool: seq<T>, n: nat, rnd: nat -> nat)
    ensures |Shuffle(pool, rnd)| == |pool|
    ensures multiset(Shuffle(pool, rnd)[..Min(n, |pool|)]) <= multiset(pool)
  {
    var sh := Shuffle(pool, rnd);
    ShufflePermutes(pool, rnd);
    PrefixSubMultiset(sh, Min(n, |pool|));
  }

  /** Every drawn combination holds every object of `_mandatory` and an object of each
      category collection, no object twice, and no other object. */
  lemma DrawnShape(cs: Colls, cm: Dict<CollId>, n: nat, rnd: nat -> nat, c: seq<ObjId>)
    requires KidsExist(cs) && FindCategories(cs, cm).Categories?
    requires c in Drawing(cs, cm, n, rnd).combos
    ensures var s := FindCategories(cs, cm);
            NoDups(c)
            && (forall m :: m in cs[s.mandatory].objects ==> m in c)
            && (forall i :: 0 <= i < |s.cats| ==> exists o :: o in cs[s.cats[i]].objects && o in c)
            && (forall o :: o in c ==> o in cs[s.mandatory].objects || exists i :: 0 <= i < |s.cats| && o in cs[s.cats[i]].objects)
  {
    DrawnFromPool(cs, cm, n, rnd);
    PoolShape(cs, FindCategories(cs, cm), Drawing(cs, cm, n, rnd).combos, c);
  }

  /** The shape of a combination drawn from the pool of any setup. */
  lemma PoolShape(cs: Colls, s: Setup, d: seq<seq<ObjId>>, c: seq<ObjId>)
    requires s.Categories? && s.mandatory in cs && forall k :: k in s.cats ==> k in cs
    requires multiset(d) <= multiset(Pool(cs, s)) && c in d
    ensures NoDups(c)
            && (forall m :: m in cs[s.mandatory].objects ==> m in c)
            && (forall i :: 0 <= i < |s.cats| ==> exists o :: o in cs[s.cats[i]].objects && o in c)
            && (forall o :: o in c ==> o in cs[s.mandatory].objects || exists i :: 0 <= i < |s.cats| && o in cs[s.cats[i]].objects)
  {
    var ls := ObjectLists(cs, s.cats);
    assert c in multiset(d);
    assert c in multiset(Pool(cs, s));
    CombinationShape(cs[s.mandatory].objects, ls, c);
  }

  /** `draw_combinations`: look up the category collections, build the combinations of the
      product, shuffle them in place and keep the first `n`. */
  method DrawCombinations(b: Blend, n: nat, rnd: nat -> nat) returns (r: Draw)
    requires b.Valid()
    ensures KidsExist(b.colls) && r == Drawing(b.colls, b.collectionMap, n, rnd)
  {
    var cs, cm := b.colls, b.collectionMap;
    assert KidsExist(cs);
    var s := FindCategories(cs, cm);
    if s.Missing? {
      return Drawn([]);
    } else if s.Deleted? {
      return AttributeError;
    } else if s.Absent? {
      return ValueError;
    }
    var product := Pool(cs, s);
    var a := ArrayOf(product);
    ShuffleInPlace(a, rnd);
    var m := Min(n, a.Length);
    r := Drawn(a[..m]);
  }
}
