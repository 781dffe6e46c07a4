/** src/scenemanager/objects.py: walking a collection hierarchy and attaching an object
    to the shared armature. */
module Objects {
  import opened Common

  // ---------------------------------------------------------------------------
  // traverse_tree

  /** A node with its children, recursively: the tree unfolding of a collection hierarchy. */
  datatype CollTree = CollTree(id: nat, kids: seq<CollTree>)

  /** `traverse_tree(node)`: the node, then the traversal of each child in order. */
  function TraverseTree(t: CollTree): (r: seq<nat>)
    ensures |r| >= 1 && r[0] == t.id
    decreases t, 1
  {
    [t.id] + TraverseKids(t.kids)
  }

  function TraverseKids(ks: seq<CollTree>): seq<nat>
    decreases ks, 0
  {
    if ks == [] then [] else TraverseTree(ks[0]) + TraverseKids(ks[1..])
  }

  /** `x` is a node of the tree: the root or a node of one of its subtrees. */
  predicate Occurs(t: CollTree, x: nat)
    decreases t
  {
    x == t.id || exists i :: 0 <= i < |t.kids| && Occurs(t.kids[i], x)
  }

  /** The traversal yields exactly the nodes of the tree. */
  lemma {:induction false} TraverseComplete(t: CollTree, x: nat)
    ensures x in TraverseTree(t) <==> Occurs(t, x)
    decreases t, 1
  {
    TraverseKidsComplete(t.kids, x);
  }

  lemma {:induction false} TraverseKidsComplete(ks: seq<CollTree>, x: nat)
    ensures x in TraverseKids(ks) <==> exists i :: 0 <= i < |ks| && Occurs(ks[i], x)
    decreases ks, 0
  {
    if ks != [] {
      TraverseComplete(ks[0], x);
      TraverseKidsComplete(ks[1..], x);
      if exists i :: 0 <= i < |ks| && Occurs(ks[i], x) {
        var i :| 0 <= i < |ks| && Occurs(ks[i], x);
        if i > 0 { assert ks[1..][i - 1] == ks[i]; }
      }
      if exists i :: 0 <= i < |ks| - 1 && Occurs(ks[1..][i], x) {
        var i :| 0 <= i < |ks| - 1 && Occurs(ks[1..][i], x);
        assert ks[i + 1] == ks[1..][i];
      }
    }
  }

  // ---------------------------------------------------------------------------
  // set_armature

  datatype ObjKind = ARMATURE | MESH | OTHER
  datatype ModKind = ArmatureModifier | OtherModifier

  /** A modifier on an object's stack: its type, the object it points to and its name. */
  datatype Modifier<T> = Modifier(kind: ModKind, target: Option<T>, name: string)

  /** Position of the first ARMATURE modifier, or `|mods|` when there is none. */
  function FirstArmature<T>(mods: seq<Modifier<T>>): (i: nat)
    ensures i <= |mods|
    ensures i < |mods| ==> mods[i].kind == ArmatureModifier
    ensures forall j :: 0 <= j < i ==> mods[j].kind != ArmatureModifier
  {
    if mods == [] then 0
    else if mods[0].kind == ArmatureModifier then 0
    else 1 + FirstArmature(mods[1..])
  }

  /** Whether the stack holds an ARMATURE modifier: the result of `set_armature`. */
  function HasArmatureModifier<T>(mods: seq<Modifier<T>>): (b: bool)
    ensures b <==> exists j :: 0 <= j < |mods| && mods[j].kind == ArmatureModifier
    ensures mods == [] ==> !b
  {
    FirstArmature(mods) < |mods|
  }

  /** The stack after `set_armature`: the first ARMATURE modifier points to `armature` and is
      named `Armature`; every other modifier, and the order, stay as they were. */
  function Retargeted<T>(mods: seq<Modifier<T>>, armature: Option<T>): (r: seq<Modifier<T>>)
    ensures |r| == |mods|
    ensures forall j :: 0 <= j < |mods| ==> r[j].kind == mods[j].kind
    ensures forall j :: 0 <= j < |mods| && j != FirstArmature(mods) ==> r[j] == mods[j]
    ensures HasArmatureModifier(mods) ==>
              r[FirstArmature(mods)].target == armature && r[FirstArmature(mods)].name == "Armature"
    ensures !HasArmatureModifier(mods) ==> r == mods
  {
    var i := FirstArmature(mods);
    if i < |mods| then mods[i := mods[i].(target := armature, name := "Armature")] else mods
  }

  /** A scene object as `set_armature` sees it. */
  class Obj {
    var name: string
    var kind: ObjKind
    var parent: Option<Obj>
    var modifiers: seq<Modifier<Obj>>

    constructor (name: string, kind: ObjKind, modifiers: seq<Modifier<Obj>>)
      ensures this.name == name && this.kind == kind && this.modifiers == modifiers
      ensures parent == None
    {
      this.name := name;
      this.kind := kind;
      this.modifiers := modifiers;
      this.parent := None;
    }
  }

  /** `set_armature(obj, armature)`: parent the object to the armature in every case, then
      retarget and rename the first ARMATURE modifier; report whether there was one. */
  method SetArmature(obj: Obj, armature: Option<Obj>) returns (found: bool)
    modifies obj
    ensures obj.parent == armature
    ensures found == HasArmatureModifier(old(obj.modifiers))
    ensures obj.modifiers == Retargeted(old(obj.modifiers), armature)
    ensures obj.name == old(obj.name) && obj.kind == old(obj.kind)
  {
    obj.parent := armature;
    var i := 0;
    while i < |obj.modifiers|
      invariant 0 <= i <= |obj.modifiers|
      invariant obj.modifiers == old(obj.modifiers)
      invariant forall j :: 0 <= j < i ==> obj.modifiers[j].kind != ArmatureModifier
    {
      if obj.modifiers[i].kind == ArmatureModifier {
        obj.modifiers := obj.modifiers[i := obj.modifiers[i].(target := armature, name := "Armature")];
        return true;
      }
      i := i + 1;
    }
    return false;
  }
}
