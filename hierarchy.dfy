/** The collection hierarchy of the Blender data: each collection lists its child
    collections in link order. Collections are numbered in creation order and a collection
    is only ever linked under an older one, so the hierarchy unfolds into a finite tree. */
module Hierarchy {
  import opened Objects

  type CollId = nat
  type ObjId = nat

  /** A collection of `bpy.data.collections`: the name it was created with, its child
      collections in link order and the objects linked to it. */
  datatype Coll = Coll(name: string, kids: seq<CollId>, objects: seq<ObjId>)

  type Colls = map<CollId, Coll>

  /** Every collection is below `bound`, every listed child exists and is newer than its parent. */
  predicate Ordered(ch: Colls, bound: nat) {
    (forall c :: c in ch ==> c < bound)
    && (forall c, i :: c in ch && 0 <= i < |ch[c].kids| ==> c < ch[c].kids[i] && ch[c].kids[i] in ch)
  }

  /** The tree unfolding below collection `id`: what `traverse_tree` walks. */
  function Unfold(ch: Colls, bound: nat, id: CollId): (t: CollTree)
    requires Ordered(ch, bound) && id in ch
    ensures t.id == id && |t.kids| == |ch[id].kids|
    decreases bound - id, 1
  {
    CollTree(id, UnfoldKids(ch, bound, id, ch[id].kids))
  }

  function UnfoldKids(ch: Colls, bound: nat, parent: CollId, ks: seq<CollId>): (r: seq<CollTree>)
    requires Ordered(ch, bound) && parent in ch
    requires forall i :: 0 <= i < |ks| ==> parent < ks[i] && ks[i] in ch
    ensures |r| == |ks|
    ensures forall i :: 0 <= i < |ks| ==> r[i] == Unfold(ch, bound, ks[i])
    decreases bound - parent, 0, |ks|
  {
    if ks == [] then []
    else [Unfold(ch, bound, ks[0])] + UnfoldKids(ch, bound, parent, ks[1..])
  }

  /** `x` is in the hierarchy below `id` (or is `id`). */
  predicate Below(ch: Colls, bound: nat, id: CollId, x: CollId)
    requires Ordered(ch, bound) && id in ch
  {
    Occurs(Unfold(ch, bound, id), x)
  }

  /** One step of the unfolding: `x` is below `id` iff it is `id` or below one of its children. */
  lemma BelowStep(ch: Colls, bound: nat, id: CollId, x: CollId)
    requires Ordered(ch, bound) && id in ch
    ensures Below(ch, bound, id, x) <==>
              x == id || exists i :: 0 <= i < |ch[id].kids| && Below(ch, bound, ch[id].kids[i], x)
  {
    var t := Unfold(ch, bound, id);
    assert forall i :: 0 <= i < |ch[id].kids| ==> t.kids[i] == Unfold(ch, bound, ch[id].kids[i]);
  }

  /** A child of a collection below `r` is below `r`. */
  lemma {:induction false} ChildBelow(ch: Colls, bound: nat, r: CollId, p: CollId, i: nat)
    requires Ordered(ch, bound) && r in ch && p in ch && i < |ch[p].kids|
    requires Below(ch, bound, r, p)
    ensures Below(ch, bound, r, ch[p].kids[i])
    decreases bound - r
  {
    var x := ch[p].kids[i];
    BelowStep(ch, bound, r, p);
    BelowStep(ch, bound, r, x);
    if p == r {
      BelowStep(ch, bound, x, x);
    } else {
      var j :| 0 <= j < |ch[r].kids| && Below(ch, bound, ch[r].kids[j], p);
      ChildBelow(ch, bound, ch[r].kids[j], p, i);
    }
  }

  /** Only existing collections are in the hierarchy below a collection. */
  lemma {:induction false} BelowExists(ch: Colls, bound: nat, id: CollId, x: CollId)
    requires Ordered(ch, bound) && id in ch && Below(ch, bound, id, x)
    ensures x in ch
    decreases bound - id
  {
    BelowStep(ch, bound, id, x);
    if x != id {
      var i :| 0 <= i < |ch[id].kids| && Below(ch, bound, ch[id].kids[i], x);
      BelowExists(ch, bound, ch[id].kids[i], x);
    }
  }

  /** `ch2` only adds collections and appends children to existing ones. */
  predicate Extends(ch: Colls, ch2: Colls) {
    forall c :: c in ch ==> c in ch2 && ch[c].kids <= ch2[c].kids
  }

  /** Linking more collections never detaches one that was below `r`. */
  lemma {:induction false} BelowMonotone(ch: Colls, bound: nat, ch2: Colls, bound2: nat, r: CollId, x: CollId)
    requires Ordered(ch, bound) && Ordered(ch2, bound2) && Extends(ch, ch2) && r in ch
    requires Below(ch, bound, r, x)
    ensures Below(ch2, bound2, r, x)
    decreases bound - r
  {
    BelowStep(ch, bound, r, x);
    BelowStep(ch2, bound2, r, x);
    if x != r {
      var j :| 0 <= j < |ch[r].kids| && Below(ch, bound, ch[r].kids[j], x);
      assert ch2[r].kids[j] == ch[r].kids[j];
      BelowMonotone(ch, bound, ch2, bound2, ch[r].kids[j], x);
    }
  }

  /** The collections yielded by `traverse_tree` from `r` are exactly those below `r`. */
  lemma TraverseBelow(ch: Colls, bound: nat, r: CollId, x: CollId)
    requires Ordered(ch, bound) && r in ch
    ensures x in TraverseTree(Unfold(ch, bound, r)) <==> Below(ch, bound, r, x)
  {
    TraverseComplete(Unfold(ch, bound, r), x);
  }
}
