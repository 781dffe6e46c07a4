/** `import_sort_files` of src/scenemanager/manager.py: import every file listed in the
    scene's `import_files`, keep the first imported armature as the one shared skeleton,
    name each imported child object from the tags of its file name and sort it into
    exactly one collection: `_failed` or the collection of its category.

    The FBX importer is not part of this model: what importing a file gives (an `IOError`,
    or the importer's messages, the new root object and its children) is an input. The
    functions below define the run; the method `ImportSortFiles` performs it on a `Blend`
    and is proved to end in the state and with the result they define. */
module ImportSort {
  import opened Common
  import opened Dicts
  import opened Strings
  import opened Hierarchy
  import opened PathOps
  import Objects
  import ImgVariants
  import opened SceneSetup

  /** An object as the importer creates it. */
  datatype Imported = Imported(id: ObjId, kind: Objects.ObjKind, attrs: ObjAttrs)

  /** The result of `load_fbx` for one file. */
  datatype LoadOutcome = IOFailure | Loaded(msgs: seq<Feedback>, root: Imported, children: seq<Imported>)

  /** The exceptions that escape `import_sort_files`: a missing key of `collection_map`, a
      key whose collection was deleted (its `collection` is `None`, which has no `objects`),
      and the use of `armature_suffix` before any armature has bound it. */
  datatype Exc = KeyError(key: string) | AttributeError(key: string) | NameError

  /** What `import_sort_files` ends with: its feedback list, or an exception. */
  datatype Outcome = Done(feedback: seq<Feedback>) | Raised(exc: Exc)

  /** The Blender data the import changes: the collections' objects, `bpy.data.objects` and
      the objects' attributes. */
  datatype World = World(colls: Colls, objects: set<ObjId>, attrs: map<ObjId, ObjAttrs>)

  /** What the import only reads: the scene's root collection, its `collection_map`, and the
      users of objects other than collections. */
  datatype Ctx = Ctx(root: CollId, cm: Dict<CollId>, extra: map<ObjId, nat>)

  /** The loop's state: the shared armature, `armature_suffix` (`None` while unbound), the
      feedback so far and the data. */
  datatype State = State(armature: Option<ObjId>, suffix: Option<string>, feedback: seq<Feedback>, w: World)

  /** A state, and the exception that ended the run if one did. */
  datatype Run = Run(s: State, exc: Option<Exc>)

  // ---------------------------------------------------------------------------
  // Messages and names

  function IOErrorMsg(path: string): string {
    "File " + path + " could not be imported."
  }

  function NoArmatureMsg(fileName: string): string {
    "Failed to set shared armature for " + fileName + "."
  }

  function MismatchMsg(fileName: string): string {
    "Armature mismatch detected for " + fileName + "."
  }

  function RegionMsg(fileName: string): string {
    "Region mismatch detected for " + fileName + "."
  }

  /** The three warnings of the routing differ for every file name. */
  lemma WarningsDistinct(f: string)
    ensures NoArmatureMsg(f) != MismatchMsg(f) && MismatchMsg(f) != RegionMsg(f) && NoArmatureMsg(f) != RegionMsg(f)
  {
    assert NoArmatureMsg(f)[0] == 'F' && MismatchMsg(f)[0] == 'A' && RegionMsg(f)[0] == 'R';
  }

  /** The last component of a `/`-separated path: the whole path when it holds no `/`,
      otherwise what follows its last `/`. */
  function BaseName(path: string): (r: string)
    ensures '/' !in r
    ensures '/' !in path ==> r == path
    ensures '/' in path ==> |r| < |path| && path[|path| - |r| - 1] == '/' && r == path[|path| - |r|..]
  {
    if '/' in path then
      var k := ImgVariants.LastIndexOf(path, '/');
      path[k + 1..]
    else path
  }

  /** `Path(path).stem`: the file name without its last suffix. */
  function FileName(path: string): string {
    ImgVariants.PathStem(BaseName(path))
  }

  /** `"-".join(("Armature", suffix)).strip("-")`. */
  function ArmatureName(suffix: string): string {
    Strip("Armature-" + suffix, '-')
  }

  /** A skeleton type holds no `-`, so the armature is named `Armature-<type>`, or `Armature`
      when the type is empty. */
  lemma ArmatureNameShape(suffix: string)
    requires '-' !in suffix
    ensures ArmatureName(suffix) == if suffix == "" then "Armature" else "Armature-" + suffix
  {
    var s := "Armature-" + suffix;
    assert StripLeft(s, '-') == s;
    if suffix == "" {
      assert s[..|s| - 1] == "Armature";
      assert StripRight(s, '-') == StripRight("Armature", '-');
    } else {
      assert s[|s| - 1] == suffix[|suffix| - 1];
    }
  }

  /** The tags a child is named from: those of its file name, with an undefined region
      replaced by the file's category. */
  function ChildTags(fileName: string, category: string): (t: TagRecord)
    ensures forall u :: u in CoreTags ==> u in t
    ensures t.Keys == ParseFileName(fileName, '-', false).Keys
    // The region is the category exactly when the name leaves it undefined ...
    ensures t[Region] == if ParseFileName(fileName, '-', false)[Region] == "undefined" then category
                         else ParseFileName(fileName, '-', false)[Region]
    // ... and every other tag is the parsed one.
    ensures forall u :: u in t && u != Region ==> t[u] == ParseFileName(fileName, '-', false)[u]
  {
    var tags := ParseFileName(fileName, '-', false);
    if tags[Region] == "undefined" then tags[Region := category] else tags
  }

  /** The name the child object receives. */
  function ChildName(fileName: string, category: string): string {
    TagsToName(ChildTags(fileName, category), '-')
  }

  // ---------------------------------------------------------------------------
  // Collections

  /** The scene's root collection exists; the items of `collection_map` may point anywhere. */
  predicate Fits(w: World, x: Ctx) {
    x.root in w.colls
  }

  /** Only the objects linked to the collections differ. */
  predicate SameTree(c0: Colls, c1: Colls) {
    c1.Keys == c0.Keys && forall c :: c in c0 ==> c1[c].kids == c0[c].kids
  }

  /** `collection.objects.link(o)`. */
  function Link(cs: Colls, c: CollId, o: ObjId): (r: Colls)
    ensures SameTree(cs, r)
  {
    if c in cs then cs[c := cs[c].(objects := cs[c].objects + [o])] else cs
  }

  /** `collection.objects.unlink(o)`. */
  function Unlink(cs: Colls, c: CollId, o: ObjId): (r: Colls)
    ensures SameTree(cs, r)
  {
    if c in cs then cs[c := cs[c].(objects := Without(cs[c].objects, o))] else cs
  }

  /** What `collection_map[key].collection.objects.link` raises: `KeyError` when `key` is not
      mapped, `AttributeError` when the collection it is mapped to no longer exists. */
  function LinkFails(cs: Colls, cm: Dict<CollId>, key: string): (e: Option<Exc>)
    ensures e.None? <==> HasKey(cm, key) && Get(cm, key) in cs
    ensures e.Some? ==> e.value == KeyError(key) || e.value == AttributeError(key)
    ensures e == Some(KeyError(key)) <==> !HasKey(cm, key)
  {
    if !HasKey(cm, key) then Some(KeyError(key))
    else if Get(cm, key) !in cs then Some(AttributeError(key))
    else None
  }

  /** `collection_map[key].collection.objects.link(o)`: the object joins the mapped
      collection, or the lookup raises and nothing changes. */
  function LinkTo(s: State, x: Ctx, key: string, o: ObjId): Run {
    var e := LinkFails(s.w.colls, x.cm, key);
    if e.None? then Run(s.(w := s.w.(colls := Link(s.w.colls, Get(x.cm, key), o))), None)
    else Run(s, e)
  }

  // ---------------------------------------------------------------------------
  // One child (lines 261-287)

  /** Where the routing sends a child, in the order of the checks. */
  datatype Route = ToFailed(msg: string) | ToCategory | Unbound

  /** The three checks in their fixed order: no ARMATURE modifier, a skeleton other than the
      shared armature's, a region other than the category. */
  function Routing(hasModifier: bool, suffix: Option<string>, tags: TagRecord, category: string, fileName: string): (r: Route)
    requires Skeleton in tags && Region in tags
    ensures r == ToCategory <==> hasModifier && suffix == Some(tags[Skeleton]) && tags[Region] == category
    ensures r.Unbound? <==> hasModifier && suffix.None?
  {
    if !hasModifier then ToFailed(NoArmatureMsg(fileName))
    else if suffix.None? then Unbound
    else if tags[Skeleton] != suffix.value then ToFailed(MismatchMsg(fileName))
    else if tags[Region] != category then ToFailed(RegionMsg(fileName))
    else ToCategory
  }

  /** Each warning names exactly the check that failed. */
  lemma RoutingWarnings(hasModifier: bool, suffix: Option<string>, tags: TagRecord, category: string, fileName: string)
    requires Skeleton in tags && Region in tags
    ensures var r := Routing(hasModifier, suffix, tags, category, fileName);
            (r == ToFailed(NoArmatureMsg(fileName)) <==> !hasModifier) &&
            (r == ToFailed(MismatchMsg(fileName)) <==> hasModifier && suffix.Some? && tags[Skeleton] != suffix.value) &&
            (r == ToFailed(RegionMsg(fileName)) <==> hasModifier && suffix == Some(tags[Skeleton]) && tags[Region] != category)
  {
    WarningsDistinct(fileName);
  }

  /** The tags the checks of a child read are present. */
  predicate Tagged(tags: TagRecord) {
    Skeleton in tags && Region in tags
  }

  /** The attributes of a child named `name`, after lines 261-271 and `set_armature`. */
  function ChildAttrs(a: ObjAttrs, armature: Option<ObjId>, file: ImportFile, name: string): ObjAttrs {
    a.(srcFile := file.path, name := name, meshName := "MESH_" + name, matName := "MAT_" + name,
       parent := armature, mods := Objects.Retargeted(a.mods, armature))
  }

  /** The child `o` with its new attributes and unlinked from the scene's root collection,
      before it is routed. */
  function Prepared(w: World, x: Ctx, armature: Option<ObjId>, file: ImportFile, name: string, o: ObjId): World
    requires o in w.attrs
  {
    w.(attrs := w.attrs[o := ChildAttrs(w.attrs[o], armature, file, name)], colls := Unlink(w.colls, x.root, o))
  }

  /** A prepared child sent where the routing says. */
  function Routed(s: State, x: Ctx, route: Route, category: string, o: ObjId): Run {
    match route
    case ToFailed(msg) => LinkTo(s.(feedback := s.feedback + [Feedback(WARNING, msg)]), x, FAILED, o)
    case Unbound => Run(s, Some(NameError))
    case ToCategory => LinkTo(s, x, category, o)
  }

  /** The route of the child `o` of `file`, from its modifiers before `set_armature`;
      `tags` are the child's tags. */
  function ChildRoute(s: State, file: ImportFile, fileName: string, tags: TagRecord, o: ObjId): Route
    requires o in s.w.attrs && Tagged(tags)
  {
    Routing(Objects.HasArmatureModifier(s.w.attrs[o].mods), s.suffix, tags, file.category, fileName)
  }

  /** The body of the inner loop for the child `o` of `file`. The tags, and so the name, of a
      child depend on its file alone: the loop recomputes the same value for every child, and
      the functions here take it as the parameter `tags`, which `ImportOne` sets to
      `ChildTags(fileName, file.category)`. */
  function SortChild(s: State, x: Ctx, file: ImportFile, fileName: string, tags: TagRecord, o: ObjId): Run
    requires o in s.w.attrs && Tagged(tags)
  {
    Routed(s.(w := Prepared(s.w, x, s.armature, file, TagsToName(tags, '-'), o)), x, ChildRoute(s, file, fileName, tags, o), file.category, o)
  }

  /** The inner loop: the children in order, up to the first exception. */
  function SortChildren(s: State, x: Ctx, file: ImportFile, fileName: string, tags: TagRecord, cs: seq<ObjId>): Run
    requires Tagged(tags) && forall i :: 0 <= i < |cs| ==> cs[i] in s.w.attrs
    decreases |cs|
  {
    if cs == [] then Run(s, None)
    else
      var r1 := SortChild(s, x, file, fileName, tags, cs[0]);
      assert r1.s.w.attrs.Keys == s.w.attrs.Keys by {
        SortChildKeys(s, x, file, fileName, tags, cs[0]);
      }
      if r1.exc.Some? then r1 else SortChildren(r1.s, x, file, fileName, tags, cs[1..])
  }

  /** Preparing a child changes only its own attributes and the root collection's objects. */
  lemma PreparedKeys(w: World, x: Ctx, armature: Option<ObjId>, file: ImportFile, name: string, o: ObjId)
    requires o in w.attrs
    ensures Prepared(w, x, armature, file, name, o).attrs.Keys == w.attrs.Keys
  {
  }

  /** The collection key a route links the child to. */
  function Destination(route: Route, category: string): string {
    if route.ToCategory? then category else FAILED
  }

  /** Routing leaves the shared armature, `armature_suffix`, the attributes and the objects
      alone, adds the route's warning, and links the child to the collection of its destination
      unless `armature_suffix` is unbound or the destination is not mapped to an existing
      collection. */
  lemma RoutedParts(s: State, x: Ctx, route: Route, category: string, o: ObjId)
    ensures var r := Routed(s, x, route, category, o);
            var d := Destination(route, category);
            r.s.armature == s.armature && r.s.suffix == s.suffix &&
            r.s.w.attrs == s.w.attrs && r.s.w.objects == s.w.objects &&
            r.s.feedback == s.feedback + (if route.ToFailed? then [Feedback(WARNING, route.msg)] else []) &&
            r.exc == (if route.Unbound? then Some(NameError) else LinkFails(s.w.colls, x.cm, d)) &&
            r.s.w.colls == (if r.exc.None? then Link(s.w.colls, Get(x.cm, d), o) else s.w.colls)
  {
  }

  /** What sorting one child does, part by part: the child is prepared, then linked as its
      route says. */
  lemma SortChildParts(s: State, x: Ctx, file: ImportFile, fileName: string, tags: TagRecord, o: ObjId)
    requires o in s.w.attrs && Tagged(tags)
    ensures var route := ChildRoute(s, file, fileName, tags, o);
            var w1 := Prepared(s.w, x, s.armature, file, TagsToName(tags, '-'), o);
            var d := Destination(route, file.category);
            var r := SortChild(s, x, file, fileName, tags, o);
            r.s.armature == s.armature && r.s.suffix == s.suffix &&
            r.s.w.attrs == w1.attrs && r.s.w.objects == s.w.objects &&
            r.s.feedback == s.feedback + (if route.ToFailed? then [Feedback(WARNING, route.msg)] else []) &&
            r.exc == (if route.Unbound? then Some(NameError) else LinkFails(s.w.colls, x.cm, d)) &&
            r.s.w.colls == (if r.exc.None? then Link(w1.colls, Get(x.cm, d), o) else w1.colls)
  {
    RoutedParts(s.(w := Prepared(s.w, x, s.armature, file, TagsToName(tags, '-'), o)), x, ChildRoute(s, file, fileName, tags, o), file.category, o);
  }

  /** Sorting a child keeps the set of objects with attributes. */
  lemma SortChildKeys(s: State, x: Ctx, file: ImportFile, fileName: string, tags: TagRecord, o: ObjId)
    requires o in s.w.attrs && Tagged(tags)
    ensures SortChild(s, x, file, fileName, tags, o).s.w.attrs.Keys == s.w.attrs.Keys
  {
    PreparedKeys(s.w, x, s.armature, file, TagsToName(tags, '-'), o);
    SortChildParts(s, x, file, fileName, tags, o);
  }

  // ---------------------------------------------------------------------------
  // One file (lines 239-287)

  function Ids(xs: seq<Imported>): (r: seq<ObjId>)
    ensures |r| == |xs| && forall i :: 0 <= i < |xs| ==> r[i] == xs[i].id
  {
    seq(|xs|, i requires 0 <= i < |xs| => xs[i].id)
  }

  /** The attributes of the imported objects added to `m`. */
  function WithAttrs(m: map<ObjId, ObjAttrs>, xs: seq<Imported>): (r: map<ObjId, ObjAttrs>)
    ensures r.Keys == m.Keys + set i | 0 <= i < |xs| :: xs[i].id
    decreases |xs|
  {
    if xs == [] then m else WithAttrs(m[xs[0].id := xs[0].attrs], xs[1..])
  }

  /** What the importer leaves: the new objects in `bpy.data.objects`, with their attributes,
      linked to the scene's root collection. */
  function Imports(w: World, x: Ctx, root: Imported, children: seq<Imported>): (r: World)
    ensures root.id in r.attrs && forall i :: 0 <= i < |children| ==> children[i].id in r.attrs
  {
    var all := [root] + children;
    assert forall i :: 0 <= i < |children| ==> children[i] == all[i + 1];
    var colls := if x.root in w.colls then w.colls[x.root := w.colls[x.root].(objects := w.colls[x.root].objects + Ids(all))] else w.colls;
    World(colls, w.objects + set i | 0 <= i < |all| :: all[i].id, WithAttrs(w.attrs, all))
  }

  /** `remove_object`: unlinked from every collection, deleted when nothing else uses it. */
  function Removed(w: World, x: Ctx, o: ObjId): World {
    w.(colls := UnlinkedEverywhere(w.colls, o),
       objects := if OtherUsers(x.extra, o) == 0 then w.objects - {o} else w.objects)
  }

  /** Lines 247-256 on the loaded data `s.w`: the first ARMATURE root becomes the shared
      armature, named after `t`, the skeleton type of its file; every root imported after it
      is removed. */
  function Chosen(s: State, x: Ctx, root: Imported, t: string): (r: State)
    requires root.id in s.w.attrs
    ensures r.feedback == s.feedback
    ensures r.w.attrs.Keys == s.w.attrs.Keys
  {
    if s.armature.Some? then
      s.(w := Removed(s.w, x, root.id))
    else if root.kind == Objects.ARMATURE then
      State(Some(root.id), Some(t), s.feedback, s.w.(attrs := s.w.attrs[root.id := s.w.attrs[root.id].(name := ArmatureName(t))]))
    else
      s
  }

  /** The three cases of the choice. A root after the shared armature leaves every
      collection, and `bpy.data` unless something else still uses it. The first ARMATURE root
      binds the armature and `armature_suffix` and is renamed. Any other root before an
      armature changes nothing. Nothing else changes in any case. */
  lemma ChosenCases(s: State, x: Ctx, root: Imported, t: string)
    requires root.id in s.w.attrs
    ensures var r := Chosen(s, x, root, t);
            s.armature.Some? ==>
              r.armature == s.armature && r.suffix == s.suffix && r.feedback == s.feedback &&
              r.w.attrs == s.w.attrs && r.w.colls.Keys == s.w.colls.Keys &&
              (forall c :: c in r.w.colls ==> root.id !in r.w.colls[c].objects) &&
              r.w.objects - {root.id} == s.w.objects - {root.id} &&
              (root.id in r.w.objects <==> root.id in s.w.objects && OtherUsers(x.extra, root.id) > 0)
    ensures var r := Chosen(s, x, root, t);
            s.armature.None? && root.kind == Objects.ARMATURE ==>
              r.armature == Some(root.id) && r.suffix == Some(t) && r.feedback == s.feedback &&
              r.w.colls == s.w.colls && r.w.objects == s.w.objects &&
              r.w.attrs[root.id] == s.w.attrs[root.id].(name := ArmatureName(t)) &&
              (forall o :: o in s.w.attrs && o != root.id ==> r.w.attrs[o] == s.w.attrs[o])
    ensures s.armature.None? && root.kind != Objects.ARMATURE ==> Chosen(s, x, root, t) == s
  {
  }

  /** Lines 240-256: the file is loaded and its messages kept, then the shared armature is
      chosen. */
  function Arrive(s: State, x: Ctx, file: ImportFile, msgs: seq<Feedback>, root: Imported, children: seq<Imported>): (r: State)
    ensures forall i :: 0 <= i < |children| ==> children[i].id in r.w.attrs
  {
    Chosen(s.(feedback := s.feedback + msgs, w := Imports(s.w, x, root, children)), x, root, GetSkeletonType(FileName(file.path)))
  }

  /** One iteration of the outer loop. */
  function ImportOne(s: State, x: Ctx, file: ImportFile, out: LoadOutcome): Run {
    match out
    case IOFailure => Run(s.(feedback := s.feedback + [Feedback(ERROR, IOErrorMsg(file.path))]), None)
    case Loaded(msgs, root, children) =>
      var fileName := FileName(file.path);
      SortChildren(Arrive(s, x, file, msgs, root, children), x, file, fileName, ChildTags(fileName, file.category), Ids(children))
  }

  /** The outer loop: the files in order, up to the first exception. */
  function ImportAll(s: State, x: Ctx, files: seq<ImportFile>, outs: seq<LoadOutcome>): Run
    requires |outs| == |files|
    decreases |files|
  {
    if files == [] then Run(s, None)
    else
      var r1 := ImportOne(s, x, files[0], outs[0]);
      if r1.exc.Some? then r1 else ImportAll(r1.s, x, files[1..], outs[1..])
  }

  /** `ImportOne` for a file that cannot be imported. */
  lemma ImportOneFailed(s: State, x: Ctx, file: ImportFile)
    ensures ImportOne(s, x, file, IOFailure) == Run(s.(feedback := s.feedback + [Feedback(ERROR, IOErrorMsg(file.path))]), None)
  {
  }

  /** `ImportOne` for a loaded file. */
  lemma ImportOneLoaded(s: State, x: Ctx, file: ImportFile, msgs: seq<Feedback>, root: Imported, children: seq<Imported>)
    ensures var fileName := FileName(file.path);
            ImportOne(s, x, file, Loaded(msgs, root, children))
            == SortChildren(Arrive(s, x, file, msgs, root, children), x, file, fileName, ChildTags(fileName, file.category), Ids(children))
  {
  }

  /** Unfolds `ImportAll` by one file. */
  lemma ImportAllStep(s: State, x: Ctx, files: seq<ImportFile>, outs: seq<LoadOutcome>)
    requires |outs| == |files| && files != []
    ensures var r1 := ImportOne(s, x, files[0], outs[0]);
            ImportAll(s, x, files, outs) == if r1.exc.Some? then r1 else ImportAll(r1.s, x, files[1..], outs[1..])
  {
  }

  /** Lines 289-291: the shared armature goes to `_mandatory` and out of the root collection. */
  function Finish(s: State, x: Ctx): Run {
    if s.armature.None? then Run(s, None)
    else
      var r1 := LinkTo(s, x, MANDATORY, s.armature.value);
      if r1.exc.Some? then r1
      else Run(r1.s.(w := r1.s.w.(colls := Unlink(r1.s.w.colls, x.root, s.armature.value))), None)
  }

  /** The whole of `import_sort_files`, from the data `w`. */
  function Sorting(w: World, x: Ctx, files: seq<ImportFile>, outs: seq<LoadOutcome>): Run
    requires |outs| == |files|
  {
    var r1 := ImportAll(State(None, None, [], w), x, files, outs);
    if r1.exc.Some? then r1 else Finish(r1.s, x)
  }

  // ---------------------------------------------------------------------------
  // The procedure on a `Blend`

  function WorldOf(b: Blend): World
    reads b
  {
    World(b.colls, b.dataObjects, b.attrs)
  }

  function CtxOf(b: Blend): Ctx
    reads b
  {
    Ctx(b.root, b.collectionMap, b.extraUsers)
  }

  /** The fields of `b` the import neither reads as context nor changes. */
  function Rest(b: Blend): (nat, bool, string, seq<ImportFile>)
    reads b
  {
    (b.nextColl, b.registered, b.importRootPath, b.importFiles)
  }

  /** Relinking objects leaves the collection tree as it was. */
  lemma SameTreeOrdered(c0: Colls, c1: Colls, bound: nat)
    requires Ordered(c0, bound) && SameTree(c0, c1)
    ensures Ordered(c1, bound)
  {
  }

  /** `collection.objects.link(o)` on the data of `b`. */
  method LinkObject(b: Blend, c: CollId, o: ObjId)
    requires b.Valid() && Fits(WorldOf(b), CtxOf(b)) && c in b.colls
    modifies b
    ensures b.Valid() && Fits(WorldOf(b), CtxOf(b))
    ensures b.colls == Link(old(b.colls), c, o)
    ensures b.dataObjects == old(b.dataObjects) && b.attrs == old(b.attrs)
    ensures CtxOf(b) == old(CtxOf(b)) && Rest(b) == old(Rest(b))
  {
    b.colls := b.colls[c := b.colls[c].(objects := b.colls[c].objects + [o])];
    SameTreeOrdered(old(b.colls), b.colls, b.nextColl);
  }

  /** `collection.objects.unlink(o)` on the data of `b`. */
  method UnlinkObject(b: Blend, c: CollId, o: ObjId)
    requires b.Valid() && Fits(WorldOf(b), CtxOf(b)) && c in b.colls
    modifies b
    ensures b.Valid() && Fits(WorldOf(b), CtxOf(b))
    ensures b.colls == Unlink(old(b.colls), c, o)
    ensures b.dataObjects == old(b.dataObjects) && b.attrs == old(b.attrs)
    ensures CtxOf(b) == old(CtxOf(b)) && Rest(b) == old(Rest(b))
  {
    b.colls := b.colls[c := b.colls[c].(objects := Without(b.colls[c].objects, o))];
    SameTreeOrdered(old(b.colls), b.colls, b.nextColl);
  }

  /** Assigning the attributes of the object `o`. */
  method SetAttrs(b: Blend, o: ObjId, a: ObjAttrs)
    requires b.Valid() && Fits(WorldOf(b), CtxOf(b))
    modifies b
    ensures b.Valid() && Fits(WorldOf(b), CtxOf(b))
    ensures b.attrs == old(b.attrs)[o := a]
    ensures b.colls == old(b.colls) && b.dataObjects == old(b.dataObjects)
    ensures CtxOf(b) == old(CtxOf(b)) && Rest(b) == old(Rest(b))
  {
    b.attrs := b.attrs[o := a];
  }

  /** `context.scene.collection_map[key].collection.objects.link(o)`. */
  method LinkByKey(b: Blend, key: string, o: ObjId) returns (exc: Option<Exc>)
    requires b.Valid() && Fits(WorldOf(b), CtxOf(b))
    modifies b
    ensures b.Valid() && Fits(WorldOf(b), CtxOf(b))
    ensures var r := LinkTo(State(None, None, [], old(WorldOf(b))), old(CtxOf(b)), key, o);
            WorldOf(b) == r.s.w && exc == r.exc
    ensures CtxOf(b) == old(CtxOf(b)) && Rest(b) == old(Rest(b))
  {
    if !HasKey(b.collectionMap, key) {
      exc := Some(KeyError(key));
    } else if Get(b.collectionMap, key) !in b.colls {
      exc := Some(AttributeError(key));
    } else {
      LinkObject(b, Get(b.collectionMap, key), o);
      exc := None;
    }
  }

  /** Lines 261-276 for one child: its attributes, its removal from the scene's root
      collection, and `set_armature`; `found` is what `set_armature` returns. */
  method PrepareChild(b: Blend, file: ImportFile, name: string, o: ObjId, armature: Option<ObjId>) returns (found: bool)
    requires b.Valid() && Fits(WorldOf(b), CtxOf(b)) && o in b.attrs
    modifies b
    ensures b.Valid() && Fits(WorldOf(b), CtxOf(b))
    ensures WorldOf(b) == Prepared(old(WorldOf(b)), old(CtxOf(b)), armature, file, name, o)
    ensures found == Objects.HasArmatureModifier(old(b.attrs)[o].mods)
    ensures CtxOf(b) == old(CtxOf(b)) && Rest(b) == old(Rest(b))
  {
    var a := b.attrs[o];
    // `set_armature(obj, armature)` parents the object to the shared armature and retargets
    // its first ARMATURE modifier.
    found := Objects.HasArmatureModifier(a.mods);
    SetAttrs(b, o, a.(srcFile := file.path, name := name, meshName := "MESH_" + name, matName := "MAT_" + name,
                      parent := armature, mods := Objects.Retargeted(a.mods, armature)));
    // Out of the scene's root collection.
    UnlinkObject(b, b.root, o);
  }

  /** One child of the file (lines 261-287); `tags` are the tags of the file name, with an
      undefined region replaced by the category. */
  method SortChildObject(b: Blend, file: ImportFile, fileName: string, tags: TagRecord, o: ObjId,
                         armature: Option<ObjId>, suffix: Option<string>, feedback: seq<Feedback>)
      returns (feedback': seq<Feedback>, exc: Option<Exc>)
    requires b.Valid() && Fits(WorldOf(b), CtxOf(b)) && o in b.attrs && Tagged(tags)
    modifies b
    ensures b.Valid() && Fits(WorldOf(b), CtxOf(b))
    ensures SortChild(State(armature, suffix, feedback, old(WorldOf(b))), old(CtxOf(b)), file, fileName, tags, o)
            == Run(State(armature, suffix, feedback', WorldOf(b)), exc)
    ensures CtxOf(b) == old(CtxOf(b)) && Rest(b) == old(Rest(b))
  {
    var found := PrepareChild(b, file, TagsToName(tags, '-'), o, armature);
    feedback', exc := RouteChild(b, found, suffix, tags, file.category, fileName, o, feedback, armature);
  }

  /** Lines 276-287: the routing of a prepared child, which `found` says has an ARMATURE
      modifier. */
  method RouteChild(b: Blend, found: bool, suffix: Option<string>, tags: TagRecord, category: string, fileName: string,
                    o: ObjId, feedback: seq<Feedback>, ghost armature: Option<ObjId>)
      returns (feedback': seq<Feedback>, exc: Option<Exc>)
    requires Tagged(tags) && b.Valid() && Fits(WorldOf(b), CtxOf(b))
    modifies b
    ensures b.Valid() && Fits(WorldOf(b), CtxOf(b))
    ensures Routed(State(armature, suffix, feedback, old(WorldOf(b))), old(CtxOf(b)), Routing(found, suffix, tags, category, fileName), category, o)
            == Run(State(armature, suffix, feedback', WorldOf(b)), exc)
    ensures CtxOf(b) == old(CtxOf(b)) && Rest(b) == old(Rest(b))
  {
    feedback' := feedback;
    if !found {
      feedback' := feedback + [Feedback(WARNING, NoArmatureMsg(fileName))];
      exc := LinkByKey(b, FAILED, o);
    } else if suffix.None? {
      exc := Some(NameError);
    } else if tags[Skeleton] != suffix.value {
      feedback' := feedback + [Feedback(WARNING, MismatchMsg(fileName))];
      exc := LinkByKey(b, FAILED, o);
    } else if tags[Region] != category {
      feedback' := feedback + [Feedback(WARNING, RegionMsg(fileName))];
      exc := LinkByKey(b, FAILED, o);
    } else {
      exc := LinkByKey(b, category, o);
    }
  }

  /** What `load_fbx` leaves in the data: the new objects, with their attributes, linked to
      the scene's root collection. */
  method LoadFile(b: Blend, root: Imported, children: seq<Imported>)
    requires b.Valid() && Fits(WorldOf(b), CtxOf(b))
    modifies b
    ensures b.Valid() && Fits(WorldOf(b), CtxOf(b))
    ensures WorldOf(b) == Imports(old(WorldOf(b)), old(CtxOf(b)), root, children)
    ensures CtxOf(b) == old(CtxOf(b)) && Rest(b) == old(Rest(b))
  {
    var all := [root] + children;
    b.colls := b.colls[b.root := b.colls[b.root].(objects := b.colls[b.root].objects + Ids(all))];
    b.dataObjects := b.dataObjects + set i | 0 <= i < |all| :: all[i].id;
    b.attrs := WithAttrs(b.attrs, all);
    SameTreeOrdered(old(b.colls), b.colls, b.nextColl);
  }

  /** Lines 239-256: the file is loaded and the shared armature is chosen, or the new root is
      removed when one was chosen before. */
  method ArriveFile(b: Blend, file: ImportFile, msgs: seq<Feedback>, root: Imported, children: seq<Imported>,
                    armature: Option<ObjId>, suffix: Option<string>, feedback: seq<Feedback>)
      returns (armature': Option<ObjId>, suffix': Option<string>, feedback': seq<Feedback>)
    requires b.Valid() && Fits(WorldOf(b), CtxOf(b))
    modifies b
    ensures b.Valid() && Fits(WorldOf(b), CtxOf(b))
    ensures Arrive(State(armature, suffix, feedback, old(WorldOf(b))), old(CtxOf(b)), file, msgs, root, children)
            == State(armature', suffix', feedback', WorldOf(b))
    ensures CtxOf(b) == old(CtxOf(b)) && Rest(b) == old(Rest(b))
  {
    LoadFile(b, root, children);
    feedback' := feedback + msgs;
    armature', suffix' := armature, suffix;
    if armature.Some? {
      // The redundant armature goes.
      ghost var c0 := b.colls;
      b.RemoveObject(root.id);
      assert SameTree(c0, b.colls);
    } else if root.kind == Objects.ARMATURE {
      var t := GetSkeletonType(FileName(file.path));
      armature', suffix' := Some(root.id), Some(t);
      SetAttrs(b, root.id, b.attrs[root.id].(name := ArmatureName(t)));
    }
  }

  /** What is left of the inner loop: the children `cs` still to sort when no exception was
      raised, the run so far otherwise. */
  function Remaining(st: State, exc: Option<Exc>, x: Ctx, file: ImportFile, fileName: string, tags: TagRecord,
                     cs: seq<ObjId>): Run
    requires Tagged(tags) && forall i :: 0 <= i < |cs| ==> cs[i] in st.w.attrs
  {
    if exc.None? then SortChildren(st, x, file, fileName, tags, cs) else Run(st, exc)
  }

  /** The inner loop is over once every child is sorted or an exception was raised. */
  lemma RemainingDone(st: State, exc: Option<Exc>, x: Ctx, file: ImportFile, fileName: string, tags: TagRecord,
                      cs: seq<ObjId>)
    requires Tagged(tags) && forall i :: 0 <= i < |cs| ==> cs[i] in st.w.attrs
    requires cs == [] || exc.Some?
    ensures Remaining(st, exc, x, file, fileName, tags, cs) == Run(st, exc)
  {
  }

  /** Unfolds `SortChildren` by one child. */
  lemma SortChildrenStep(s: State, x: Ctx, file: ImportFile, fileName: string, tags: TagRecord, cs: seq<ObjId>)
    requires Tagged(tags) && cs != [] && forall i :: 0 <= i < |cs| ==> cs[i] in s.w.attrs
    ensures var r1 := SortChild(s, x, file, fileName, tags, cs[0]);
            r1.s.w.attrs.Keys == s.w.attrs.Keys &&
            SortChildren(s, x, file, fileName, tags, cs) == if r1.exc.Some? then r1 else SortChildren(r1.s, x, file, fileName, tags, cs[1..])
  {
    SortChildKeys(s, x, file, fileName, tags, cs[0]);
  }

  /** One pass of the inner loop: the child `ids[j]`. */
  method SortNextChild(b: Blend, file: ImportFile, fileName: string, tags: TagRecord, ids: seq<ObjId>, j: nat,
                       armature: Option<ObjId>, suffix: Option<string>, feedback: seq<Feedback>)
      returns (feedback': seq<Feedback>, exc: Option<Exc>)
    requires b.Valid() && Fits(WorldOf(b), CtxOf(b))
    requires Tagged(tags) && j < |ids| && forall k :: 0 <= k < |ids| ==> ids[k] in b.attrs
    modifies b
    ensures b.Valid() && Fits(WorldOf(b), CtxOf(b))
    ensures forall k :: 0 <= k < |ids| ==> ids[k] in b.attrs
    ensures SortChildren(State(armature, suffix, feedback, old(WorldOf(b))), old(CtxOf(b)), file, fileName, tags, ids[j..])
            == Remaining(State(armature, suffix, feedback', WorldOf(b)), exc, old(CtxOf(b)), file, fileName, tags, ids[j + 1..])
    ensures CtxOf(b) == old(CtxOf(b)) && Rest(b) == old(Rest(b))
  {
    SortChildrenStep(State(armature, suffix, feedback, WorldOf(b)), CtxOf(b), file, fileName, tags, ids[j..]);
    feedback', exc := SortChildObject(b, file, fileName, tags, ids[j], armature, suffix, feedback);
    assert ids[j..][1..] == ids[j + 1..];
  }

  /** The inner loop (lines 258-287): the children `ids` of one file, in order. */
  method SortChildObjects(b: Blend, file: ImportFile, fileName: string, tags: TagRecord, ids: seq<ObjId>,
                          armature: Option<ObjId>, suffix: Option<string>, feedback: seq<Feedback>)
      returns (feedback': seq<Feedback>, exc: Option<Exc>)
    requires b.Valid() && Fits(WorldOf(b), CtxOf(b))
    requires Tagged(tags) && forall k :: 0 <= k < |ids| ==> ids[k] in b.attrs
    modifies b
    ensures b.Valid() && Fits(WorldOf(b), CtxOf(b))
    ensures SortChildren(State(armature, suffix, feedback, old(WorldOf(b))), old(CtxOf(b)), file, fileName, tags, ids)
            == Run(State(armature, suffix, feedback', WorldOf(b)), exc)
    ensures CtxOf(b) == old(CtxOf(b)) && Rest(b) == old(Rest(b))
  {
    ghost var start := State(armature, suffix, feedback, WorldOf(b));
    ghost var x := CtxOf(b);
    feedback', exc := feedback, None;
    var j := 0;
    while j < |ids| && exc.None?
      invariant 0 <= j <= |ids|
      invariant b.Valid() && Fits(WorldOf(b), CtxOf(b))
      invariant CtxOf(b) == x && Rest(b) == old(Rest(b))
      invariant forall k :: 0 <= k < |ids| ==> ids[k] in b.attrs
      invariant SortChildren(start, x, file, fileName, tags, ids)
                == Remaining(State(armature, suffix, feedback', WorldOf(b)), exc, x, file, fileName, tags, ids[j..])
    {
      feedback', exc := SortNextChild(b, file, fileName, tags, ids, j, armature, suffix, feedback');
      j := j + 1;
    }
    RemainingDone(State(armature, suffix, feedback', WorldOf(b)), exc, x, file, fileName, tags, ids[j..]);
  }

  /** One iteration of the outer loop (lines 238-287). */
  method ImportFileObjects(b: Blend, file: ImportFile, out: LoadOutcome,
                           armature: Option<ObjId>, suffix: Option<string>, feedback: seq<Feedback>)
      returns (armature': Option<ObjId>, suffix': Option<string>, feedback': seq<Feedback>, exc: Option<Exc>)
    requires b.Valid() && Fits(WorldOf(b), CtxOf(b))
    modifies b
    ensures b.Valid() && Fits(WorldOf(b), CtxOf(b))
    ensures ImportOne(State(armature, suffix, feedback, old(WorldOf(b))), old(CtxOf(b)), file, out)
            == Run(State(armature', suffix', feedback', WorldOf(b)), exc)
    ensures CtxOf(b) == old(CtxOf(b)) && Rest(b) == old(Rest(b))
  {
    if out.IOFailure? {
      armature', suffix', exc := armature, suffix, None;
      feedback' := feedback + [Feedback(ERROR, IOErrorMsg(file.path))];
      return;
    }
    var fileName := FileName(file.path);
    armature', suffix', feedback' := ArriveFile(b, file, out.msgs, out.root, out.children, armature, suffix, feedback);
    // The tags, and so the name, are the same for every child of the file.
    var tags := ChildTags(fileName, file.category);
    feedback', exc := SortChildObjects(b, file, fileName, tags, Ids(out.children), armature', suffix', feedback');
  }

  /** `import_sort_files`: `outs[i]` is what importing the `i`-th listed file gives. */
  method ImportSortFiles(b: Blend, outs: seq<LoadOutcome>) returns (r: Outcome)
    requires b.Valid() && Fits(WorldOf(b), CtxOf(b)) && |outs| == |b.importFiles|
    modifies b
    ensures b.Valid()
    ensures var run := Sorting(old(WorldOf(b)), old(CtxOf(b)), old(b.importFiles), outs);
            WorldOf(b) == run.s.w && r == (if run.exc.Some? then Raised(run.exc.value) else Done(run.s.feedback))
    ensures CtxOf(b) == old(CtxOf(b)) && Rest(b) == old(Rest(b))
  {
    var armature: Option<ObjId> := None;
    var suffix: Option<string> := None;
    var feedback: seq<Feedback> := [];
    var files := b.importFiles;
    var i := 0;
    while i < |files|
      invariant 0 <= i <= |files|
      invariant b.Valid() && Fits(WorldOf(b), CtxOf(b))
      invariant CtxOf(b) == old(CtxOf(b)) && Rest(b) == old(Rest(b))
      invariant ImportAll(State(armature, suffix, feedback, WorldOf(b)), CtxOf(b), files[i..], outs[i..])
                == ImportAll(State(None, None, [], old(WorldOf(b))), CtxOf(b), files, outs)
    {
      var exc;
      armature, suffix, feedback, exc := ImportFileObjects(b, files[i], outs[i], armature, suffix, feedback);
      assert files[i..][1..] == files[i + 1..] && outs[i..][1..] == outs[i + 1..];
      if exc.Some? {
        return Raised(exc.value);
      }
      i := i + 1;
    }
    // The shared armature is the one object of `_mandatory` from the start.
    if armature.Some? {
      var exc := LinkByKey(b, MANDATORY, armature.value);
      if exc.Some? {
        return Raised(exc.value);
      }
      UnlinkObject(b, b.root, armature.value);
    }
    r := Done(feedback);
  }
}
