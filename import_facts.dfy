/** What `import_sort_files` guarantees, proved about the functions of `ImportSort` that
    define it: the names children receive, the one collection each child ends in, the shared
    armature, when the unbound `armature_suffix` can be reached, and the feedback of files
    that fail to import. */
module ImportFacts {
  import opened Common
  import opened Dicts
  import opened Strings
  import opened PathOps
  import Objects
  import opened SceneSetup
  import opened ImportSort

  // ---------------------------------------------------------------------------
  // Names

  /** A valid tag value: lowercase, free of the separator `-` and of `.`. */
  predicate IsToken(v: string) {
    NoUpper(v) && '-' !in v && '.' !in v
  }

  /** Every default tag value is a valid token. */
  lemma DefaultsAreTokens(u: Tag)
    requires u in CoreTags
    ensures IsToken(Default(u))
  {
    match u
    case Type =>
    case Skeleton =>
    case Theme =>
    case Variant =>
    case Mesh =>
    case Region =>
  }

  /** Every core tag of a parsed file name is a valid token. */
  lemma ParsedTagsAreTokens(parts: seq<string>, u: Tag)
    requires u in CoreTags
    requires forall i :: 0 <= i < |parts| ==> IsToken(parts[i])
    ensures IsToken(ParseParts(parts, false)[u])
  {
    if TagIndex(u) >= |parts| {
      DefaultsAreTokens(u);
    }
  }

  /** Without `Map`, a tag record holds only core tags. */
  lemma OnlyCoreTags(p: TagRecord, u: Tag)
    requires Map !in p && u in p
    ensures u in CoreTags
  {
  }

  /** The tags of a child are valid tokens, as long as its category is one. */
  lemma ChildTagsAreTokens(fileName: string, category: string)
    requires IsToken(category) && |NameParts(fileName, '-')| < 7
    ensures forall u :: u in ChildTags(fileName, category) ==> IsToken(ChildTags(fileName, category)[u])
  {
    var parts := NameParts(fileName, '-');
    ParsedAreTokens(parts);
    OverrideTokens(ParseParts(parts, false), category);
  }

  /** Every tag of a name of fewer than seven valid tokens is a valid token. */
  lemma ParsedAreTokens(parts: seq<string>)
    requires |parts| < 7 && forall i :: 0 <= i < |parts| ==> IsToken(parts[i])
    ensures forall u :: u in ParseParts(parts, false) ==> IsToken(ParseParts(parts, false)[u])
  {
    var p := ParseParts(parts, false);
    forall u | u in p ensures IsToken(p[u]) {
      OnlyCoreTags(p, u);
      ParsedTagsAreTokens(parts, u);
    }
  }

  /** Replacing an undefined region by a valid token keeps every tag a valid token. */
  lemma OverrideTokens(p: TagRecord, category: string)
    requires Region in p && IsToken(category) && forall u :: u in p ==> IsToken(p[u])
    ensures var t := if p[Region] == "undefined" then p[Region := category] else p;
            forall u :: u in t ==> IsToken(t[u])
  {
  }

  /** A child's name parses back to the tags it was made from, as long as the file name has no
      seventh (map) token and the category is itself a valid tag value. */
  lemma ChildNameRoundTrip(fileName: string, category: string)
    requires |NameParts(fileName, '-')| < 7
    requires IsToken(category)
    ensures ParseFileName(ChildName(fileName, category), '-', false) == ChildTags(fileName, category)
  {
    ChildTagsAreTokens(fileName, category);
    RecordRoundTrip(ChildTags(fileName, category), '-');
  }

  /** Replacing an undefined region by the category means such a child never gets the region
      warning. */
  lemma UndefinedRegionFits(hasModifier: bool, suffix: Option<string>, fileName: string, category: string)
    requires ParseFileName(fileName, '-', false)[Region] == "undefined"
    ensures Routing(hasModifier, suffix, ChildTags(fileName, category), category, fileName) != ToFailed(RegionMsg(fileName))
  {
    WarningsDistinct(fileName);
  }

  /** The attributes a child receives: its name from the tags, the mesh and material names
      derived from it, its source file, the shared armature as parent, and the retargeted
      modifier stack; nothing else about the object changes. */
  lemma ChildNaming(s: State, x: Ctx, file: ImportFile, fileName: string, tags: TagRecord, o: ObjId)
    requires o in s.w.attrs && Tagged(tags)
    ensures var a := SortChild(s, x, file, fileName, tags, o).s.w.attrs;
            var name := TagsToName(tags, '-');
            a.Keys == s.w.attrs.Keys &&
            a[o].name == name && a[o].meshName == "MESH_" + name && a[o].matName == "MAT_" + name &&
            a[o].srcFile == file.path && a[o].parent == s.armature &&
            a[o].mods == Objects.Retargeted(s.w.attrs[o].mods, s.armature) &&
            forall p :: p in a && p != o ==> a[p] == s.w.attrs[p]
  {
    SortChildParts(s, x, file, fileName, tags, o);
  }

  // ---------------------------------------------------------------------------
  // Routing one child

  /** An exception is raised for a child exactly when `armature_suffix` is unbound or its
      destination key is not mapped to an existing collection: `KeyError` for a missing key,
      `AttributeError` for a deleted collection. */
  lemma SortChildRaises(s: State, x: Ctx, file: ImportFile, fileName: string, tags: TagRecord, o: ObjId)
    requires o in s.w.attrs && Tagged(tags)
    ensures var route := ChildRoute(s, file, fileName, tags, o);
            var d := Destination(route, file.category);
            var r := SortChild(s, x, file, fileName, tags, o);
            (r.exc.None? <==> !route.Unbound? && HasKey(x.cm, d) && Get(x.cm, d) in s.w.colls) &&
            (r.exc == Some(KeyError(d)) <==> !route.Unbound? && !HasKey(x.cm, d)) &&
            (r.exc == Some(AttributeError(d)) <==> !route.Unbound? && HasKey(x.cm, d) && Get(x.cm, d) !in s.w.colls)
  {
    SortChildParts(s, x, file, fileName, tags, o);
  }

  /** A child that was only linked to the scene's root collection ends, when no exception is
      raised, in exactly one collection: the one mapped to its destination key. */
  lemma SortedIntoOne(s: State, x: Ctx, file: ImportFile, fileName: string, tags: TagRecord, o: ObjId)
    requires o in s.w.attrs && Tagged(tags) && Fits(s.w, x)
    requires forall c :: c in s.w.colls && c != x.root ==> o !in s.w.colls[c].objects
    ensures var d := Destination(ChildRoute(s, file, fileName, tags, o), file.category);
            var r := SortChild(s, x, file, fileName, tags, o);
            r.exc.None? ==> forall c :: c in r.s.w.colls ==> (o in r.s.w.colls[c].objects <==> c == Get(x.cm, d))
  {
    var d := Destination(ChildRoute(s, file, fileName, tags, o), file.category);
    var w1 := Prepared(s.w, x, s.armature, file, TagsToName(tags, '-'), o);
    SortChildParts(s, x, file, fileName, tags, o);
    assert forall c :: c in w1.colls ==> o !in w1.colls[c].objects;
  }

  /** Sorting a child leaves the shared armature and `armature_suffix` as they were, and
      raises `NameError` exactly when the child has an ARMATURE modifier and no armature has
      bound `armature_suffix`; the feedback only grows. */
  lemma SortChildKeeps(s: State, x: Ctx, file: ImportFile, fileName: string, tags: TagRecord, o: ObjId)
    requires o in s.w.attrs && Tagged(tags)
    ensures var r := SortChild(s, x, file, fileName, tags, o);
            r.s.armature == s.armature && r.s.suffix == s.suffix && s.feedback <= r.s.feedback &&
            (r.exc == Some(NameError) <==> s.suffix.None? && Objects.HasArmatureModifier(s.w.attrs[o].mods))
  {
    SortChildParts(s, x, file, fileName, tags, o);
  }

  /** The same for all children of a file. */
  lemma {:induction false} SortChildrenKeeps(s: State, x: Ctx, file: ImportFile, fileName: string, tags: TagRecord, cs: seq<ObjId>)
    requires Tagged(tags) && forall i :: 0 <= i < |cs| ==> cs[i] in s.w.attrs
    ensures var r := SortChildren(s, x, file, fileName, tags, cs);
            r.s.armature == s.armature && r.s.suffix == s.suffix &&
            (s.suffix.Some? ==> r.exc != Some(NameError))
    decreases |cs|
  {
    if cs != [] {
      SortChildrenStep(s, x, file, fileName, tags, cs);
      SortChildKeeps(s, x, file, fileName, tags, cs[0]);
      var r1 := SortChild(s, x, file, fileName, tags, cs[0]);
      if r1.exc.None? {
        SortChildrenKeeps(r1.s, x, file, fileName, tags, cs[1..]);
      }
    }
  }

  /** Sorting the children of a file only ever adds feedback. */
  lemma {:induction false} SortChildrenFeedback(s: State, x: Ctx, file: ImportFile, fileName: string, tags: TagRecord, cs: seq<ObjId>)
    requires Tagged(tags) && forall i :: 0 <= i < |cs| ==> cs[i] in s.w.attrs
    ensures s.feedback <= SortChildren(s, x, file, fileName, tags, cs).s.feedback
    decreases |cs|
  {
    if cs != [] {
      SortChildrenStep(s, x, file, fileName, tags, cs);
      SortChildKeeps(s, x, file, fileName, tags, cs[0]);
      var r1 := SortChild(s, x, file, fileName, tags, cs[0]);
      if r1.exc.None? {
        SortChildrenFeedback(r1.s, x, file, fileName, tags, cs[1..]);
      }
    }
  }

  /** A category with a capital letter, as `init_collections` records it, is never a key of a
      `collection_map` whose keys are all lowercase: a child that passes every check raises
      `KeyError`, so without an exception a child only ever reaches `_failed`. */
  lemma CapitalCategoryNeverSorted(s: State, x: Ctx, file: ImportFile, fileName: string, tags: TagRecord, o: ObjId, i: nat)
    requires o in s.w.attrs && Tagged(tags)
    requires i < |file.category| && 'A' <= file.category[i] <= 'Z'
    requires forall j :: 0 <= j < |x.cm| ==> NoUpper(x.cm[j].0)
    ensures var route := ChildRoute(s, file, fileName, tags, o);
            var r := SortChild(s, x, file, fileName, tags, o);
            (route.ToCategory? ==> r.exc == Some(KeyError(file.category))) &&
            (r.exc.None? ==> route.ToFailed?)
  {
    SortChildParts(s, x, file, fileName, tags, o);
    HasKeyIff(x.cm, file.category);
    assert !NoUpper(file.category);
  }

  // ---------------------------------------------------------------------------
  // One file, and the shared armature

  /** While a shared armature is bound, every newly imported root is unlinked from every
      collection, and the armature and `armature_suffix` stay as they were. */
  lemma ArriveRemovesRoot(s: State, x: Ctx, file: ImportFile, msgs: seq<Feedback>, root: Imported, children: seq<Imported>)
    requires s.armature.Some?
    ensures var r := Arrive(s, x, file, msgs, root, children);
            r.armature == s.armature && r.suffix == s.suffix && r.feedback == s.feedback + msgs &&
            forall c :: c in r.w.colls ==> root.id !in r.w.colls[c].objects
  {
  }

  /** The first ARMATURE root becomes the shared armature, binds `armature_suffix` to the
      skeleton type of its file, and is named `Armature-<type>` (`Armature` for an empty type). */
  lemma ArriveBindsArmature(s: State, x: Ctx, file: ImportFile, msgs: seq<Feedback>, root: Imported, children: seq<Imported>)
    requires s.armature.None? && root.kind == Objects.ARMATURE
    ensures var r := Arrive(s, x, file, msgs, root, children);
            var t := GetSkeletonType(FileName(file.path));
            r.armature == Some(root.id) && r.suffix == Some(t) && r.feedback == s.feedback + msgs &&
            r.w.attrs[root.id].name == (if t == "" then "Armature" else "Armature-" + t)
  {
    var t := GetSkeletonType(FileName(file.path));
    var s1 := s.(feedback := s.feedback + msgs, w := Imports(s.w, x, root, children));
    assert Arrive(s, x, file, msgs, root, children) == Chosen(s1, x, root, t);
    ChosenBinds(s1, x, root, t);
  }

  lemma ChosenBinds(s: State, x: Ctx, root: Imported, t: string)
    requires s.armature.None? && root.kind == Objects.ARMATURE && root.id in s.w.attrs && '-' !in t
    ensures var r := Chosen(s, x, root, t);
            r.armature == Some(root.id) && r.suffix == Some(t) && r.feedback == s.feedback &&
            r.w.attrs[root.id].name == (if t == "" then "Armature" else "Armature-" + t)
  {
    ChosenCases(s, x, root, t);
    ArmatureNameShape(t);
  }

  /** A root of another kind, before any armature, binds nothing. */
  lemma ArriveWithoutArmature(s: State, x: Ctx, file: ImportFile, msgs: seq<Feedback>, root: Imported, children: seq<Imported>)
    requires s.armature.None? && root.kind != Objects.ARMATURE
    ensures var r := Arrive(s, x, file, msgs, root, children);
            r.armature == s.armature && r.suffix == s.suffix && r.feedback == s.feedback + msgs
  {
  }

  // ---------------------------------------------------------------------------
  // The whole run

  /** The shared armature and `armature_suffix` are bound together. */
  predicate Paired(s: State) {
    s.armature.Some? <==> s.suffix.Some?
  }

  /** Choosing the shared armature keeps it bound together with `armature_suffix`, and never
      replaces a bound one. */
  lemma ArriveKeeps(s: State, x: Ctx, file: ImportFile, msgs: seq<Feedback>, root: Imported, children: seq<Imported>)
    requires Paired(s)
    ensures var a := Arrive(s, x, file, msgs, root, children);
            Paired(a) && a.feedback == s.feedback + msgs && (s.armature.Some? ==> a.armature == s.armature)
  {
    if s.armature.Some? {
      ArriveRemovesRoot(s, x, file, msgs, root, children);
    } else if root.kind == Objects.ARMATURE {
      ArriveBindsArmature(s, x, file, msgs, root, children);
    } else {
      ArriveWithoutArmature(s, x, file, msgs, root, children);
    }
  }

  /** A loaded file keeps the armature and `armature_suffix` bound together; once an armature
      is bound it stays and `NameError` cannot occur. */
  lemma LoadedKeeps(s: State, x: Ctx, file: ImportFile, msgs: seq<Feedback>, root: Imported, children: seq<Imported>)
    requires Paired(s)
    ensures var r := ImportOne(s, x, file, Loaded(msgs, root, children));
            Paired(r.s) && (s.armature.Some? ==> r.s.armature == s.armature && r.exc != Some(NameError))
  {
    var fileName := FileName(file.path);
    var a := Arrive(s, x, file, msgs, root, children);
    ArriveKeeps(s, x, file, msgs, root, children);
    SortChildrenKeeps(a, x, file, fileName, ChildTags(fileName, file.category), Ids(children));
    ImportOneLoaded(s, x, file, msgs, root, children);
  }

  /** A loaded file only adds feedback. */
  lemma LoadedFeedback(s: State, x: Ctx, file: ImportFile, msgs: seq<Feedback>, root: Imported, children: seq<Imported>)
    requires Paired(s)
    ensures s.feedback <= ImportOne(s, x, file, Loaded(msgs, root, children)).s.feedback
  {
    var fileName := FileName(file.path);
    var a := Arrive(s, x, file, msgs, root, children);
    ArriveKeeps(s, x, file, msgs, root, children);
    SortChildrenFeedback(a, x, file, fileName, ChildTags(fileName, file.category), Ids(children));
    ImportOneLoaded(s, x, file, msgs, root, children);
  }

  /** One file keeps the armature and `armature_suffix` bound together; once an armature is
      bound it stays and `NameError` cannot occur; the feedback only grows. */
  lemma ImportOneKeeps(s: State, x: Ctx, file: ImportFile, out: LoadOutcome)
    requires Paired(s)
    ensures var r := ImportOne(s, x, file, out);
            Paired(r.s) && s.feedback <= r.s.feedback &&
            (s.armature.Some? ==> r.s.armature == s.armature && r.exc != Some(NameError))
  {
    if out.IOFailure? {
      ImportOneFailed(s, x, file);
    } else {
      LoadedKeeps(s, x, file, out.msgs, out.root, out.children);
      LoadedFeedback(s, x, file, out.msgs, out.root, out.children);
    }
  }

  /** The same for any number of files. */
  lemma {:induction false} ImportAllKeeps(s: State, x: Ctx, files: seq<ImportFile>, outs: seq<LoadOutcome>)
    requires |outs| == |files| && Paired(s)
    ensures var r := ImportAll(s, x, files, outs);
            Paired(r.s) && s.feedback <= r.s.feedback &&
            (s.armature.Some? ==> r.s.armature == s.armature && r.exc != Some(NameError))
    decreases |files|
  {
    if files != [] {
      ImportAllStep(s, x, files, outs);
      ImportOneKeeps(s, x, files[0], outs[0]);
      var r1 := ImportOne(s, x, files[0], outs[0]);
      if r1.exc.None? {
        ImportAllKeeps(r1.s, x, files[1..], outs[1..]);
      }
    }
  }

  /** A loaded ARMATURE root, before any armature, becomes the shared armature, and its
      children cannot raise `NameError`. */
  lemma LoadedBindsArmature(s: State, x: Ctx, file: ImportFile, msgs: seq<Feedback>, root: Imported, children: seq<Imported>)
    requires s.armature.None? && root.kind == Objects.ARMATURE
    ensures var r := ImportOne(s, x, file, Loaded(msgs, root, children));
            Paired(r.s) && r.s.armature == Some(root.id) && r.exc != Some(NameError)
  {
    var fileName := FileName(file.path);
    var a := Arrive(s, x, file, msgs, root, children);
    ArriveBindsArmature(s, x, file, msgs, root, children);
    SortChildrenKeeps(a, x, file, fileName, ChildTags(fileName, file.category), Ids(children));
    ImportOneLoaded(s, x, file, msgs, root, children);
  }

  /** When the first file loads with an ARMATURE root, that root is the shared armature for
      the whole run and `armature_suffix` is never read unbound. */
  lemma FirstFileArmature(w: World, x: Ctx, files: seq<ImportFile>, outs: seq<LoadOutcome>)
    requires |outs| == |files| && |files| > 0
    requires outs[0].Loaded? && outs[0].root.kind == Objects.ARMATURE
    ensures var r := ImportAll(State(None, None, [], w), x, files, outs);
            r.exc != Some(NameError) && (r.exc.None? ==> r.s.armature == Some(outs[0].root.id))
    ensures Sorting(w, x, files, outs).exc != Some(NameError)
  {
    var s := State(None, None, [], w);
    var out := outs[0];
    LoadedBindsArmature(s, x, files[0], out.msgs, out.root, out.children);
    ImportAllStep(s, x, files, outs);
    var r1 := ImportOne(s, x, files[0], out);
    if r1.exc.None? {
      ImportAllKeeps(r1.s, x, files[1..], outs[1..]);
    }
    FinishRaises(ImportAll(s, x, files, outs).s, x);
  }

  /** The last step raises only for `_mandatory`, and only when there is an armature to link
      and `_mandatory` is not mapped (`KeyError`) or its collection was deleted
      (`AttributeError`); otherwise the armature ends in the `_mandatory` collection and out
      of the scene's root collection. */
  lemma FinishRaises(s: State, x: Ctx)
    ensures var r := Finish(s, x);
            (r.exc.Some? <==> s.armature.Some? && !(HasKey(x.cm, MANDATORY) && Get(x.cm, MANDATORY) in s.w.colls)) &&
            (r.exc.Some? ==> r.exc == Some(if HasKey(x.cm, MANDATORY) then AttributeError(MANDATORY) else KeyError(MANDATORY))) &&
            r.s.feedback == s.feedback && r.s.armature == s.armature
  {
  }

  lemma FinishLinksArmature(s: State, x: Ctx)
    requires s.armature.Some? && HasKey(x.cm, MANDATORY) && Get(x.cm, MANDATORY) in s.w.colls && Fits(s.w, x)
    requires Get(x.cm, MANDATORY) != x.root
    ensures var r := Finish(s, x);
            var m := Get(x.cm, MANDATORY);
            r.exc.None? && s.armature.value in r.s.w.colls[m].objects && s.armature.value !in r.s.w.colls[x.root].objects
  {
  }

  /** The error feedback of files none of which could be imported. */
  function IOErrors(files: seq<ImportFile>): (r: seq<Feedback>)
    ensures |r| == |files|
    ensures forall i :: 0 <= i < |files| ==> r[i] == Feedback(ERROR, IOErrorMsg(files[i].path))
  {
    seq(|files|, i requires 0 <= i < |files| => Feedback(ERROR, IOErrorMsg(files[i].path)))
  }

  lemma IOErrorsCons(files: seq<ImportFile>)
    requires files != []
    ensures IOErrors(files) == [Feedback(ERROR, IOErrorMsg(files[0].path))] + IOErrors(files[1..])
  {
    assert IOErrors(files)[1..] == IOErrors(files[1..]);
  }

  /** One failing file: its error is added and the rest of the files carry on. */
  lemma FailedHead(s: State, x: Ctx, files: seq<ImportFile>, outs: seq<LoadOutcome>)
    requires |outs| == |files| && files != [] && forall i :: 0 <= i < |outs| ==> outs[i].IOFailure?
    ensures forall i :: 0 <= i < |outs[1..]| ==> outs[1..][i].IOFailure?
    ensures ImportAll(s, x, files, outs)
            == ImportAll(s.(feedback := s.feedback + [Feedback(ERROR, IOErrorMsg(files[0].path))]), x, files[1..], outs[1..])
  {
    assert outs[0] == IOFailure;
    ImportAllStep(s, x, files, outs);
    ImportOneFailed(s, x, files[0]);
    assert forall i :: 0 <= i < |outs[1..]| ==> outs[1..][i] == outs[i + 1];
  }

  lemma IOErrorsAppend(fb: seq<Feedback>, files: seq<ImportFile>)
    requires files != []
    ensures (fb + [Feedback(ERROR, IOErrorMsg(files[0].path))]) + IOErrors(files[1..]) == fb + IOErrors(files)
  {
    IOErrorsCons(files);
  }

  /** When no file can be imported, the run changes nothing and its feedback is one error per
      file, in order. */
  lemma {:induction false} AllImportsFail(s: State, x: Ctx, files: seq<ImportFile>, outs: seq<LoadOutcome>)
    requires |outs| == |files| && forall i :: 0 <= i < |outs| ==> outs[i].IOFailure?
    ensures ImportAll(s, x, files, outs) == Run(s.(feedback := s.feedback + IOErrors(files)), None)
    decreases |files|
  {
    if files == [] {
      assert s.feedback + IOErrors(files) == s.feedback;
    } else {
      FailedHead(s, x, files, outs);
      AllImportsFail(s.(feedback := s.feedback + [Feedback(ERROR, IOErrorMsg(files[0].path))]), x, files[1..], outs[1..]);
      IOErrorsAppend(s.feedback, files);
    }
  }

  /** The whole of `import_sort_files` when every import fails: the data stay as they were. */
  lemma AllImportsFailSorting(w: World, x: Ctx, files: seq<ImportFile>, outs: seq<LoadOutcome>)
    requires |outs| == |files| && forall i :: 0 <= i < |outs| ==> outs[i].IOFailure?
    ensures Sorting(w, x, files, outs) == Run(State(None, None, IOErrors(files), w), None)
  {
    AllImportsFail(State(None, None, [], w), x, files, outs);
  }
}
