# AvatarComponentCombinations in Dafny

A model of the combinatorial core of the Blender add-on AvatarComponentCombinations. The
add-on does four things:

- It imports avatar components from FBX files in a folder tree. A component's category is
  the sub-folder it was found in.
- It keeps one shared armature for everything it imports.
- It sorts every imported mesh into the collection of its category, or into `_failed`.
- It then draws random combinations of one component per category, plus the `_mandatory`
  ones. Each combination becomes a collection below `export`, which is finally written out as
  glTF (`.glb`) files.

The model keeps the add-on's own structure:

| Dafny file | module | models |
|---|---|---|
| `strings.dfy` | `Strings` | the Python string built-ins the code relies on (`lower`, `upper`, `split`, `join`, `replace`, `strip`, `sorted`) |
| `dicts.dfy` | `Dicts` | insertion-ordered string-keyed dictionaries: a Python `dict`, and a keyed Blender `CollectionProperty` such as `collection_map` |
| `path_ops.dfy` | `PathOps` | the file-name tag codec: `parse_file_name`, `tags_to_name` and the parse-based `get_skeleton_type` |
| `file_ops.dfy` | `FileOps` | the split-based `get_skeleton_type` of `src/file_ops.py` |
| `glob.dfy`, `img_variants.dfy` | `Glob`, `ImgVariants` | `get_img_variants`, on a directory listing given as a sequence, with `?`/`*` matching |
| `objects.dfy` | `Objects` | `traverse_tree` on the tree unfolding of a hierarchy; `set_armature` on a small `Obj` class |
| `hierarchy.dfy` | `Hierarchy` | the collection hierarchy of the blend data and what lies below a collection |
| `scene.dfy` | `SceneSetup` | `scenesetup.py`: the class `Blend` holds the blend data and the scene properties; its methods are `link_to_parent`, `create_collections`, `create_initial_collections`, `set_collection_map_as_property`, `set_importfiles_props`, `init_import_scene`, `create_new_scene` and `remove_object` |
| `import_sort.dfy`, `import_facts.dfy` | `ImportSort`, `ImportFacts` | `import_sort_files`: a function definition of the run, the method that performs it on a `Blend`, and the properties of the run |
| `shuffle.dfy`, `combos.dfy` | `Shuffling`, `Combinations` | `random.shuffle` as CPython's loop with the draws as input; `draw_combinations` |
| `export.dfy` | `Export` | `add_combinations_to_export` and `export_combinations` |
| `batch.dfy` | `Batch` | `batch_import_components` |

Several things outside the core become parameters:

- The BLAKE2s digest (section 3 of RFC 7693, 8-byte digest) is a parameter
  `digest: string -> string`.
- The random draws of `random.shuffle` are a parameter `rnd: nat -> nat`.
- What the FBX importer and the glTF exporter do is an input: an `IOError`, or the imported
  objects.
- What the file system answers is an input: whether a path is a directory, the
  sub-directories, the files found, and the absolute form of a path.

## Model

| member | source | states |
|---|---|---|
| PathOps.NameParts | src/file_ops/path_ops.py:91 | the tokens of a name are never an empty list, and each is lowercase and free of the separator and of `.` |
| PathOps.Zip | src/file_ops/path_ops.py:93 | a tag is present exactly when its position in `Tags` is below the number of tokens; the i-th token goes to the i-th tag; surplus tokens are dropped |
| PathOps.SetDefault | src/file_ops/path_ops.py:95-100 | `setdefault` adds the tag only when it is missing and never changes a present value |
| PathOps.CoreDefaults | src/file_ops/path_ops.py:95-100 | afterwards the six core tags are present, every present value is kept, and each missing core tag has exactly its documented default |
| PathOps.ParseCore | src/file_ops/path_ops.py:93-100 | core tags always present, the parsed token where there is one and the default otherwise; `map` is present exactly when there is a seventh token |
| PathOps.ParseParts | src/file_ops/path_ops.py:91-104 | the above for both modes: with `is_image` the map tag is always present and is the uppercased seventh token or `D`; without it, `map` only comes from a seventh token |
| PathOps.ImageMap | src/file_ops/path_ops.py:101-103 | the image branch adds `map` with `D` when missing, uppercases it, and leaves every other tag alone |
| PathOps.PresentValuesCons | src/file_ops/path_ops.py:117 | serialising visits the tags in `Tags` order, and a tag contributes its value exactly when it is present |
| PathOps.GetSkeletonType | src/file_ops/path_ops.py:120-132 | the second token of the lowercased stem, or `x` when there are fewer than two tokens; always lowercase and free of `-` and `.`, so the `KeyError` branch cannot be taken |
| PathOps.NameRoundTrip | src/file_ops/path_ops.py:91-117 | `tags_to_name(parse_file_name(n)) == n` for every lowercase, dot-free name of six or seven tokens |
| PathOps.RecordRoundTrip | src/file_ops/path_ops.py:91-117 | `parse_file_name(tags_to_name(r)) == r` for every record of the six core tags whose values are lowercase tokens without separator or `.` |
| PathOps.NamePartsOfJoin | src/file_ops/path_ops.py:91 | clean tokens joined with the separator split back into the same tokens |
| PathOps.ParsedValues | src/file_ops/path_ops.py:93-117 | six or seven tokens, parsed and serialised, come back as they were |
| PathOps.ParseFullName | src/file_ops/path_ops.py:90-104 | the docstring example `outfit-f-casual-01-v2-bottom.fbx` parses into its six tags |
| PathOps.ParseShortName | src/file_ops/path_ops.py:90-104 | the short example `fullbody-f-set-01.fbx` gets its four tags plus the defaults `v1` and `undefined` |
| PathOps.ParsedFourTokens | src/file_ops/path_ops.py:93-100 | four tokens fill type, skeleton, theme and variant; mesh and region take their defaults |
| PathOps.ParsedSixTokens | src/file_ops/path_ops.py:93-100 | six tokens fill the six core tags, no default is used and `map` is absent |
| FileOps.GetSkeletonType | src/file_ops.py:68-72 | the text between the first and the second `-` (or the end), `""` when there is no `-`; never contains `-` |
| FileOps.ExtensionKept | src/file_ops.py:69 | no lowercasing and no extension stripping: `a-b.fbx` gives `b.fbx` |
| FileOps.AgreesWithParsedVariant | src/file_ops.py:60-72 | on lowercase, dot-free names with a `-`, the split-based and the parse-based `get_skeleton_type` agree |
| Strings.Lower | src/file_ops/path_ops.py:91 | `lower()` keeps the length, maps each character on its own and leaves no capital |
| Strings.Upper | src/file_ops/path_ops.py:103 | `upper()` keeps the length, maps each character on its own and leaves no small letter |
| Strings.Split | src/file_ops/path_ops.py:91 | `split(sep)` gives at least one part, none containing `sep` |
| Strings.JoinSplit | src/file_ops/path_ops.py:91 | joining the parts of a split gives back the string |
| Strings.SplitJoin | src/file_ops/path_ops.py:117 | splitting a join of separator-free parts gives back the parts |
| Strings.Before | src/file_ops/path_ops.py:91 | `split(c)[0]`: the longest prefix without `c`, followed by `c` unless it is the whole string |
| Strings.ReplaceChar | src/scenemanager/manager.py:434 | `replace(a, b)` keeps the length, leaves no `a` when `a != b`, keeps every other character in place and puts `b` exactly where `a` was |
| Strings.StripLeft | src/scenemanager/manager.py:256 | `lstrip(c)`: the suffix left after removing every leading `c`; it does not start with `c`, and everything removed was `c` |
| Strings.StripRight | src/scenemanager/manager.py:256 | `rstrip(c)`: the prefix left after removing every trailing `c`; it does not end with `c`, and everything removed was `c` |
| Strings.SortProps | src/scenemanager/manager.py:392 | `sorted` gives an ordered permutation of its input |
| Strings.SortedUnique | src/scenemanager/manager.py:392 | two ordered sequences with the same elements are equal, so any correct sort agrees with this one |
| Strings.SortOrderInvariant | src/scenemanager/manager.py:392 | `sorted` depends only on the multiset of names, not on their order |
| Glob.StarMatchesAll | src/file_ops/path_ops.py:151-152 | `*` matches every name |
| Glob.MatchPrefix | src/file_ops/path_ops.py:151-152 | a literal prefix of the pattern matches the same prefix of the name |
| Glob.AnyMatchesOne | src/file_ops/path_ops.py:151-152 | `?` matches any one character |
| Glob.StarSkipOne | src/file_ops/path_ops.py:151-152 | `*` may absorb one more character |
| ImgVariants.NamePartsOfStem | src/file_ops/path_ops.py:154 | parsing `x.stem` sees the same tokens as parsing the whole file name |
| ImgVariants.VariantKeyParsed | src/file_ops/path_ops.py:154 | the grouping key is the variant tag of the parsed image stem |
| ImgVariants.Filter | src/file_ops/path_ops.py:152 | the glob yields exactly the listed names that the pattern matches |
| ImgVariants.Found | src/file_ops/path_ops.py:152-154 | `sorted(variants)` is ordered and holds exactly the matching names |
| ImgVariants.GroupBy | src/file_ops/path_ops.py:154 | `groupby` yields non-empty groups, none for an empty input, and the first group carries the first element's key |
| ImgVariants.GroupByMembers | src/file_ops/path_ops.py:154 | each group holds only input elements whose key is the group's key |
| ImgVariants.GroupByCovers | src/file_ops/path_ops.py:154 | every input element's key is the key of some group |
| ImgVariants.DictOf | src/file_ops/path_ops.py:155 | the dict has exactly the group keys, and a later group with the same key replaces an earlier one |
| ImgVariants.GroupDict | src/file_ops/path_ops.py:154-155 | the dict of groups: non-empty lists of input elements, each under its own key, and every element's key present |
| ImgVariants.Without | src/file_ops/path_ops.py:157-161 | with `exclude_current` the current key is gone (a missing key is no error); all other entries are kept unchanged |
| ImgVariants.GetImgVariants | src/file_ops/path_ops.py:135-162 | every list is non-empty, every file under key `v` has variant `v`, and with `exclude_current` the representative's variant is no key |
| ImgVariants.GroupsFound | src/file_ops/path_ops.py:151-155 | every grouped file is in the directory and matches the pattern built from the representative's tags |
| ImgVariants.KeysComplete | src/file_ops/path_ops.py:154-161 | every matching file's variant is a key, except the representative's own when it is excluded |
| ImgVariants.SiblingMatches | src/file_ops/path_ops.py:151 | a conventional image that shares type, skeleton, theme, mesh and region matches the pattern, whatever its variant and map |
| ImgVariants.ConventionalKey | src/file_ops/path_ops.py:154 | the key of a conventional image name is its variant token |
| ImgVariants.SiblingFound | src/file_ops/path_ops.py:135-162 | a conventional sibling in the directory shows up under its own variant, unless that is the excluded current one |
| Objects.TraverseTree | src/scenemanager/objects.py:35-37 | the traversal is non-empty and yields the node first |
| Objects.TraverseComplete | src/scenemanager/objects.py:35-37 | the traversal yields exactly the nodes of the tree unfolding |
| Objects.FirstArmature | src/scenemanager/objects.py:71-76 | the position the loop stops at: an ARMATURE modifier with none before it, or the end of the stack |
| Objects.HasArmatureModifier | src/scenemanager/objects.py:71-79 | true exactly when some modifier is of type ARMATURE; false for an empty stack |
| Objects.Retargeted | src/scenemanager/objects.py:71-76 | only the first ARMATURE modifier changes: it points to the armature and is named `Armature`; without one the stack is unchanged |
| Objects.SetArmature | src/scenemanager/objects.py:59-79 | the parent is always the armature; the result says whether an ARMATURE modifier exists; the stack becomes its retargeted form; nothing else changes |
| Hierarchy.Unfold | src/scenemanager/objects.py:35-37 | the tree unfolding below a collection has that collection at the top and one subtree per child |
| Hierarchy.BelowStep | src/scenemanager/objects.py:35-37 | a collection is below `id` exactly when it is `id` or is below one of its children |
| Hierarchy.ChildBelow | src/scenemanager/objects.py:36-37 | a child of a collection below `r` is below `r` |
| Hierarchy.BelowExists | src/scenemanager/objects.py:35-37 | only existing collections are below a collection |
| Hierarchy.BelowMonotone | src/scenemanager/scenesetup.py:213-214 | linking more collections never detaches one that was already in the scene's tree |
| Hierarchy.TraverseBelow | src/scenemanager/objects.py:35-37 | `traverse_tree` from a collection yields exactly the collections below it |
| Dicts.PutProps | src/scenemanager/scenesetup.py:147-153 | after assigning `k`, `k` maps to the new value, and every other key is present with its old value exactly when it was present before |
| Dicts.PutShape | src/scenemanager/scenesetup.py:146-152 | an existing key is overwritten in place (same length); a new key is appended at the end |
| Dicts.PutUnique | src/scenemanager/scenesetup.py:146-152 | an assignment never duplicates a key |
| Dicts.PutEach | src/scenemanager/scenesetup.py:145-153 | the loop over the items assigns them in order, which is `PutAll` |
| Dicts.PutAllProps | src/scenemanager/scenesetup.py:145-153 | after the loop, the assigned keys map to their new values, other keys keep theirs, and no key is lost or invented |
| Dicts.PutAllUnique | src/scenemanager/scenesetup.py:145-153 | the loop keeps the keys unique |
| Dicts.PutAllKeepsKeys | src/scenemanager/scenesetup.py:145-153 | old keys stay in their positions and new ones follow |
| Dicts.PutAllEntries | src/scenemanager/scenesetup.py:145-153 | every entry afterwards comes from the old map or from the assigned items |
| Dicts.PutAllFresh | src/scenemanager/scenesetup.py:74-75 | `update` with keys that are all new appends its entries in order |
| SceneSetup.Subfolders | src/file_ops/path_ops.py:56 | `get_subfolders` on the listed names: hidden names dropped, every other name present lowercased, nothing else |
| SceneSetup.NameDictHasKey | src/scenemanager/scenesetup.py:102 | the dict built by `create_collections` has exactly the given names as keys |
| SceneSetup.NameDictUnique | src/scenemanager/scenesetup.py:102 | no key occurs twice |
| SceneSetup.NameDictOrder | src/scenemanager/scenesetup.py:102 | for distinct names the keys are in the order of the names |
| SceneSetup.NameDictValues | src/scenemanager/scenesetup.py:102 | each key maps to its own new collection, one created with that name |
| SceneSetup.NameDictDistinct | src/scenemanager/scenesetup.py:102 | for distinct names the i-th entry is the i-th name with the i-th new collection |
| SceneSetup.FreshColls | src/scenemanager/scenesetup.py:102 | the new collections are numbered consecutively, named in creation order, and are empty and unlinked |
| SceneSetup.AddCollections | src/scenemanager/scenesetup.py:102 | the creation loop adds exactly the fresh collections |
| SceneSetup.CreatedShape | src/scenemanager/scenesetup.py:102-106 | `create_collections`: one new empty collection per name, the dict of them, and the new collections appended under the parent when one is given |
| SceneSetup.CreatedPair | src/scenemanager/scenesetup.py:73 | `src` and `export` become two new collections appended under the scene's root |
| SceneSetup.CreatedTriple | src/scenemanager/scenesetup.py:74-75 | `_failed`, `_ignore` and `_mandatory` become three new collections appended under `src` |
| SceneSetup.PairThenTriple | src/scenemanager/scenesetup.py:73-75 | the two calls together build the two-level layout |
| SceneSetup.TwoLevelsBelow | src/scenemanager/scenesetup.py:73-75 | all five new collections are in the scene's tree |
| SceneSetup.LayoutDict | src/scenemanager/scenesetup.py:73-75 | the returned dict lists the five names with their collections in creation order |
| SceneSetup.LayoutBelow | src/scenemanager/scenesetup.py:73-75 | two children appended under the root and three under the first of them are all below the root |
| SceneSetup.LayoutNames | src/scenemanager/manager.py:346-351 | the five layout keys are distinct |
| SceneSetup.ImportList | src/scenemanager/scenesetup.py:178-182 | one entry per found file: its absolute path and, as its category, its first folder below the root, lowercased (the corrected rule, see Findings) |
| SceneSetup.ImportListAsWritten | src/scenemanager/scenesetup.py:178-182 | the same list with the category taken as written, not lowercased |
| SceneSetup.AsWrittenCategoryUnmapped | src/scenemanager/scenesetup.py:181 | a file in the folder `Hair` gets the category `Hair`, which is no key that `init_import_scene` records |
| SceneSetup.CapitalNotSubfolder | src/file_ops/path_ops.py:56 | no name with a capital letter is a layout key or a recorded category |
| SceneSetup.CategoriesRecorded | src/scenemanager/scenesetup.py:181 | with the lowercased category, every file in a visible sub-folder gets a category that is a recorded key |
| SceneSetup.AsWrittenLowercase | src/scenemanager/scenesetup.py:178-182 | when every category folder is already lowercase, the list as written and the corrected list are the same |
| SceneSetup.CreatedBelow | src/scenemanager/scenesetup.py:213 | collections created under a collection in the scene's tree are in the tree, and nothing is detached |
| SceneSetup.MapsBelow | src/scenemanager/scenesetup.py:207-214 | after both map assignments, each key of either dict is mapped to a collection in the scene's tree |
| SceneSetup.RecordedKeys | src/scenemanager/scenesetup.py:207-214 | every layout key and every category name ends up in `collection_map`, mapped into the scene's tree |
| SceneSetup.UnlinkedEverywhere | src/scenemanager/objects.py:52-53 | the object is in no collection afterwards; every other object and the hierarchy are unchanged |
| SceneSetup.Without | src/scenemanager/objects.py:52-53 | unlinking removes every occurrence of the object and keeps all other objects |
| SceneSetup.Blend.SceneCollections | src/scenemanager/scenesetup.py:140 | the scene's collections are exactly those below its root collection |
| SceneSetup.Blend.NewCollection | src/scenemanager/scenesetup.py:102 | `bpy.data.collections.new`: one new, empty, unlinked collection with the next id; nothing else changes |
| SceneSetup.Blend.LinkToParent | src/scenemanager/scenesetup.py:49-60 | one child or a list of them, each appended once, in order, under the parent; nothing else changes |
| SceneSetup.Blend.NewCollections | src/scenemanager/scenesetup.py:102 | the comprehension adds the fresh collections and returns their dict |
| SceneSetup.Blend.CreateCollections | src/scenemanager/scenesetup.py:88-106 | the dict of the new collections keyed by the names; the collections after the call are `CreatedColls` |
| SceneSetup.Blend.CreatePair | src/scenemanager/scenesetup.py:73 | the first call of the layout: two new collections appended under the root |
| SceneSetup.Blend.CreateTriple | src/scenemanager/scenesetup.py:74-75 | the second call of the layout: three new collections appended under the given parent |
| SceneSetup.Blend.CreateTwoLevels | src/scenemanager/scenesetup.py:73-75 | both calls, for any five distinct names: the two-level layout and its merged dict |
| SceneSetup.Blend.CreateInitialCollections | src/scenemanager/scenesetup.py:63-85 | `src` and `export` under the root, `_failed`, `_ignore` and `_mandatory` under `src`, all five in the scene's tree; the dict lists all five; the properties are unchanged |
| SceneSetup.Blend.SetCollectionMapAsProperty | src/scenemanager/scenesetup.py:127-154 | succeeds exactly when every collection of the map is in the scene's tree; then each entry is assigned in order (overwriting in place), otherwise the map is unchanged |
| SceneSetup.Blend.SetImportFilesProps | src/scenemanager/scenesetup.py:157-182 | unregistered: failure and no change; otherwise the list is replaced by one entry per found file with its category as written (`ImportListAsWritten`), and the result says whether any file was found |
| SceneSetup.Blend.RecordInitialCollections | src/scenemanager/scenesetup.py:207-210 | the fixed layout is built and all five keys are recorded, mapped into the scene's tree |
| SceneSetup.Blend.RecordCollections | src/scenemanager/scenesetup.py:207-215 | every layout key and every category folder is recorded in `collection_map`, mapped into the scene's tree |
| SceneSetup.Blend.RemoveObject | src/scenemanager/objects.py:46-56 | the object is unlinked from every collection, and deleted from the data exactly when nothing else uses it |
| SceneSetup.Blend.CreateNewScene | src/scenemanager/scenesetup.py:44-46 | a new scene with a new empty master collection becomes active; its properties are empty |
| SceneSetup.Blend.InitImportScene | src/scenemanager/scenesetup.py:185-219 | `None` exactly when the path is not a directory, and then nothing changes; `True` exactly when the properties are registered and files were found; when registered, the import path and the as-written file list are set and every layout and category key is mapped into the new or active scene's tree |
| ImportSort.WarningsDistinct | src/scenemanager/manager.py:277-283 | the three routing warnings differ for every file name |
| ImportSort.ArmatureNameShape | src/scenemanager/manager.py:256 | the shared armature is named `Armature-<type>`, or `Armature` when the type is empty |
| ImportSort.BaseName | src/scenemanager/manager.py:246 | `Path(path).name`: the whole path when it holds no `/`, otherwise exactly the text after its last `/` |
| ImportSort.ChildTags | src/scenemanager/manager.py:263-265 | the parsed tags of the file name with the same keys (so always the six core tags); the region is the category exactly when the parsed region is `undefined`, and every other tag is the parsed one |
| ImportSort.Chosen | src/scenemanager/manager.py:247-256 | choosing the armature keeps the feedback and the set of objects with attributes; its three cases are stated in `ChosenCases` |
| ImportSort.ChosenCases | src/scenemanager/manager.py:247-256 | with an armature already shared, the root leaves every collection and is deleted unless something else uses it, nothing else changes; the first ARMATURE root becomes the armature, binds the suffix and is renamed `Armature-<type>`, nothing else changes; any other root changes nothing |
| ImportSort.Arrive | src/scenemanager/manager.py:239-256 | after loading, every imported child is in the data |
| ImportSort.Routing | src/scenemanager/manager.py:276-287 | a child goes to its category exactly when it has an ARMATURE modifier, its skeleton equals the bound suffix and its region equals its category; an unbound suffix is reached exactly when it has a modifier and no armature has been seen |
| ImportSort.RoutingWarnings | src/scenemanager/manager.py:276-284 | each WARNING is given exactly when its own check is the first to fail |
| ImportSort.SortChildParts | src/scenemanager/manager.py:258-287 | one child: its attributes are set, it leaves the root collection, and it is linked as routed |
| ImportSort.ImportOneFailed | src/scenemanager/manager.py:243-245 | an `IOError` adds exactly one ERROR naming the path and changes nothing else |
| ImportSort.ImportOneLoaded | src/scenemanager/manager.py:238-287 | a loaded file keeps the importer's messages, handles the armature, and then sorts its children |
| ImportSort.ImportAllStep | src/scenemanager/manager.py:238 | the files are processed in order, and the run stops at the first exception |
| ImportSort.LinkObject | src/scenemanager/manager.py:287 | `objects.link` on the data changes only that collection's objects |
| ImportSort.UnlinkObject | src/scenemanager/manager.py:274 | `objects.unlink` on the data changes only that collection's objects |
| ImportSort.SetAttrs | src/scenemanager/manager.py:261-271 | assigning one object's attributes changes nothing else |
| ImportSort.LinkByKey | src/scenemanager/manager.py:278 | `collection_map[key].collection.objects.link(obj)`: links into the mapped collection; raises `KeyError` for an unmapped key and `AttributeError` when the mapped collection was deleted |
| ImportSort.LinkFails | src/scenemanager/manager.py:278-291 | linking by key succeeds exactly when the key is mapped to an existing collection; it raises `KeyError` exactly when the key is unmapped, and `AttributeError` otherwise |
| ImportSort.PrepareChild | src/scenemanager/manager.py:261-276 | the child's name, mesh, material and source attributes are set, it leaves the root collection, and the result says whether it has an ARMATURE modifier |
| ImportSort.RouteChild | src/scenemanager/manager.py:276-287 | the prepared child is linked where `Routing` sends it, with its warning |
| ImportSort.SortChildObject | src/scenemanager/manager.py:258-287 | one pass of the inner loop ends in the state and with the exception that `SortChild` defines |
| ImportSort.SortNextChild | src/scenemanager/manager.py:258-287 | one child of the inner loop, then the rest as `SortChildren` defines |
| ImportSort.SortChildObjects | src/scenemanager/manager.py:258-287 | the inner loop over a file's children ends as `SortChildren` defines |
| ImportSort.LoadFile | src/scenemanager/manager.py:240 | the importer's objects are added to the data, linked to the scene's root collection |
| ImportSort.ArriveFile | src/scenemanager/manager.py:239-256 | loading and the armature choice end as `Arrive` defines |
| ImportSort.ImportFileObjects | src/scenemanager/manager.py:238-287 | one iteration of the outer loop ends as `ImportOne` defines |
| ImportSort.ImportSortFiles | src/scenemanager/manager.py:226-297 | the whole method ends in the data, with the feedback and the exception that `Sorting` defines, for any `collection_map`: an unmapped key raises `KeyError`, a key mapped to a deleted collection `AttributeError` |
| ImportFacts.DefaultsAreTokens | src/file_ops/path_ops.py:95-100 | every default tag value is lowercase and free of `-` and `.` |
| ImportFacts.ChildTagsAreTokens | src/scenemanager/manager.py:263-265 | a child's tags are clean tokens when its category is one |
| ImportFacts.ChildNameRoundTrip | src/scenemanager/manager.py:263-266 | a child's new name parses back into the tags it was built from |
| ImportFacts.UndefinedRegionFits | src/scenemanager/manager.py:264-265 | a file without a region never gets the region warning |
| ImportFacts.ChildNaming | src/scenemanager/manager.py:261-271 | the child is named `<tags>`, its mesh `MESH_<tags>`, its materials `MAT_<tags>`; its source file, parent and modifier stack are set; no other object changes |
| ImportFacts.SortChildRaises | src/scenemanager/manager.py:276-287 | with the armature suffix bound, a child raises nothing exactly when its destination key is mapped to an existing collection, `KeyError` exactly when the key is unmapped, and `AttributeError` exactly when the mapped collection was deleted |
| ImportFacts.SortedIntoOne | src/scenemanager/manager.py:274-287 | a child sorted without an exception ends in exactly one collection, the one mapped to its destination |
| ImportFacts.SortChildKeeps | src/scenemanager/manager.py:258-287 | sorting a child keeps the armature and its suffix, only adds feedback, and raises `NameError` exactly when the child has an ARMATURE modifier before any armature is bound |
| ImportFacts.SortChildrenKeeps | src/scenemanager/manager.py:258-287 | the same for all children of a file |
| ImportFacts.SortChildrenFeedback | src/scenemanager/manager.py:258-287 | the inner loop only ever appends feedback |
| ImportFacts.CapitalCategoryNeverSorted | src/scenemanager/manager.py:282-287 | a category with a capital letter never reaches its collection: it raises `KeyError` or ends in `_failed` |
| ImportFacts.ArriveRemovesRoot | src/scenemanager/manager.py:249-251 | once an armature is shared, every later imported root is removed from all collections |
| ImportFacts.ArriveBindsArmature | src/scenemanager/manager.py:252-256 | the first ARMATURE root becomes the shared armature, binds the suffix to its file's skeleton type, and is named after it |
| ImportFacts.ChosenBinds | src/scenemanager/manager.py:252-256 | the armature choice on the loaded data binds the armature, its suffix and its name |
| ImportFacts.ArriveWithoutArmature | src/scenemanager/manager.py:249-256 | a root of another kind, before any armature, binds nothing |
| ImportFacts.ArriveKeeps | src/scenemanager/manager.py:239-256 | the armature and its suffix stay bound together, and an armature once chosen stays |
| ImportFacts.LoadedKeeps | src/scenemanager/manager.py:238-287 | a loaded file keeps the armature and its suffix bound together, and raises no `NameError` once an armature is bound |
| ImportFacts.LoadedFeedback | src/scenemanager/manager.py:238-287 | a loaded file only adds feedback |
| ImportFacts.ImportOneKeeps | src/scenemanager/manager.py:238-287 | one file keeps the armature and suffix paired, keeps a chosen armature, and only adds feedback |
| ImportFacts.ImportAllKeeps | src/scenemanager/manager.py:238-287 | the same for the whole outer loop |
| ImportFacts.LoadedBindsArmature | src/scenemanager/manager.py:248-256 | a loaded ARMATURE root before any armature becomes the shared armature, and `NameError` cannot follow |
| ImportFacts.FirstFileArmature | src/scenemanager/manager.py:248-256 | when the first file loads with an ARMATURE root, that root is the shared armature at the end and no `NameError` occurs |
| ImportFacts.FinishRaises | src/scenemanager/manager.py:289-291 | the last step raises exactly when an armature exists and `_mandatory` is unmapped (`KeyError`) or mapped to a deleted collection (`AttributeError`); feedback and armature are kept |
| ImportFacts.FinishLinksArmature | src/scenemanager/manager.py:289-291 | when `_mandatory` is mapped to an existing collection, the shared armature ends in it and out of the root collection |
| ImportFacts.AllImportsFail | src/scenemanager/manager.py:238-245 | when no file can be imported, the loop adds one ERROR per file, in order, and changes nothing else |
| ImportFacts.AllImportsFailSorting | src/scenemanager/manager.py:226-297 | the same for the whole function: the data stay as they were |
| Shuffling.Pick | src/scenemanager/manager.py:364 | the index drawn for position `i` is at most `i` |
| Shuffling.Shuffle | src/scenemanager/manager.py:364 | `random.shuffle` keeps the length of the list |
| Shuffling.ShufflePermutes | src/scenemanager/manager.py:364 | the shuffle is a permutation of its input, whatever the draws |
| Shuffling.ShuffleInPlace | src/scenemanager/manager.py:364 | the in-place loop on an array leaves exactly the shuffled sequence |
| Combinations.ProductSize | src/scenemanager/manager.py:359 | the product has as many tuples as the product of the list lengths |
| Combinations.ProductEmpty | src/scenemanager/manager.py:359 | the product is empty exactly when one of the lists is |
| Combinations.ProductChoices | src/scenemanager/manager.py:359 | a tuple is in the product exactly when it picks one element of each list |
| Combinations.ProductOrder | src/scenemanager/manager.py:359 | the `itertools.product` order: the first list varies slowest |
| Combinations.Dedup | src/scenemanager/manager.py:361 | no element twice, and exactly the elements of the input |
| Combinations.CombinationShape | src/scenemanager/manager.py:358-361 | each combination holds every mandatory object and an object of each category, no object twice, nothing else |
| Combinations.RemoveFirst | src/scenemanager/manager.py:348-357 | `list.remove` drops exactly the first occurrence of the element and keeps the others in their order |
| Combinations.RemoveThree | src/scenemanager/manager.py:348-357 | the three removals succeed exactly when the list holds the three collections, counted with multiplicity, and leave the others |
| Combinations.FindCategories | src/scenemanager/manager.py:345-357 | the categories and the `_mandatory` collection it finds all exist in the data |
| Combinations.FindCategoriesCases | src/scenemanager/manager.py:345-357 | `src` mapped to a deleted collection is told apart (`AttributeError`); the lookups succeed exactly when all four keys are mapped, `src` exists and its children hold `_ignore`, `_failed` and `_mandatory`; the categories are the other children; a missing key gives `Missing`; a deleted `_ignore`, `_failed` or `_mandatory` gives `Absent` (`remove(None)`) |
| Combinations.DrawnCount | src/scenemanager/manager.py:345-365 | `min(n, product of the category sizes)` combinations; none when a key is missing, or when `n > 0` and a category is empty |
| Combinations.DrawnFromPool | src/scenemanager/manager.py:359-365 | the drawn combinations are a sub-multiset of the product's combinations, so each tuple is used at most once |
| Combinations.DrawnShape | src/scenemanager/manager.py:357-361 | every drawn combination holds all `_mandatory` objects and an object of each category, with no repeats and nothing else |
| Combinations.PoolShape | src/scenemanager/manager.py:357-361 | every combination of the pool holds all `_mandatory` objects and an object of each category, with no repeats and nothing else |
| Combinations.DrawCombinations | src/scenemanager/manager.py:335-366 | the method computes `Drawing`: `[]` for a missing key, `AttributeError` for a deleted `src`, the `ValueError` of `list.remove`, or the drawn combinations |
| Export.SetNameParts | src/scenemanager/manager.py:392-395 | the name is `set-<skeleton>-<digest>` |
| Export.SetNameKey | src/scenemanager/manager.py:394-395 | the skeleton type can be read back from the name: the text after `set-` up to the next `-` |
| Export.SetNameOrder | src/scenemanager/manager.py:392-395 | for the same members in another order, the name is the same exactly when the first members have the same skeleton type |
| Export.SetNameSameSkeleton | src/scenemanager/manager.py:391-395 | when all members share a skeleton type, the order of the members does not matter |
| Export.SetNameSkeleton | src/scenemanager/manager.py:393-395 | with a hexadecimal digest, the name parses into the three tokens `set`, skeleton and digest, so `get_skeleton_type` of the name is the members' skeleton type |
| Export.AddSet | src/scenemanager/manager.py:396-400 | one pass adds exactly the new collection |
| Export.AddSetsRuns | src/scenemanager/manager.py:390-400 | with no empty combination the loop runs to the end: one new collection per combination, numbered consecutively |
| Export.AddSetsKeepOthers | src/scenemanager/manager.py:390-400 | the loop changes no existing collection other than `export` |
| Export.AddSetsKids | src/scenemanager/manager.py:400 | the new collections are appended under `export` after its old children, in order |
| Export.AddSetsNew | src/scenemanager/manager.py:392-399 | the k-th combination becomes the k-th new collection: named by the rule, holding exactly its objects, with no children |
| Export.NoEmptyWhenDone | src/scenemanager/manager.py:394 | the loop only finishes when no combination is empty (`combination[0]` raises `IndexError` otherwise) |
| Export.DrawnNamed | src/scenemanager/manager.py:392 | every object of every drawn combination has a name, whatever the draw gives |
| Export.AddingErrors | src/scenemanager/manager.py:380-388 | for any draw: one ERROR exactly when nothing was drawn, or something was drawn and `export` is unmapped; then nothing changes |
| Export.AddingDone | src/scenemanager/manager.py:379-401 | for any draw: no feedback exactly when something was drawn, `export` is mapped to an existing collection and no combination is empty; then every combination has its collection under `export` |
| Export.AddingNew | src/scenemanager/manager.py:390-400 | for any draw that succeeds, the k-th combination becomes the collection `set-<skeleton>-<digest>` holding exactly its objects |
| Export.AddingKeeps | src/scenemanager/manager.py:390-400 | for any draw, no collection other than `export` changes |
| Export.AddingRaises | src/scenemanager/manager.py:345-401 | `ValueError` exactly when the draw raised it; `AttributeError` exactly when the draw raised it or `export` is mapped to a deleted collection and the first combination is not empty, and then that combination's collection is already created; `IndexError` exactly for an empty combination reached by the loop; any other exception changes nothing |
| Export.LinkObjects | src/scenemanager/manager.py:398-399 | the objects are linked to the new collection in order; nothing else changes |
| Export.MakeSet | src/scenemanager/manager.py:392-400 | one pass of the loop on the data is `AddSet` |
| Export.NewSet | src/scenemanager/manager.py:396-399 | `collections.new` then linking the objects: one new collection with the next id, the given name and exactly the combination's objects; nothing else changes |
| Export.AddDrawn | src/scenemanager/manager.py:380-401 | the part after the draw ends with the result and the collections that `AddingDrawn` defines for that draw |
| Export.MakeSets | src/scenemanager/manager.py:390-401 | the loop on the data ends as `AddSets` defines, raising `IndexError` at the first empty combination |
| Export.AddCombinationsToExport | src/scenemanager/manager.py:369-401 | the method ends with the result and the collections that `Adding` defines, a deleted `src` or `export` collection included; the properties and objects are unchanged |
| Export.ExportPathShape | src/scenemanager/manager.py:434 | the file lies in the export directory, and its name holds exactly one `.`, that of `.glb` |
| Export.ExportPathDotFree | src/scenemanager/manager.py:434 | a name without `.` is kept as it is |
| Export.SetFileName | src/scenemanager/manager.py:434 | a combination's collection is written to `<dir>/set-<skeleton>-<digest>.glb` |
| Export.Exports | src/scenemanager/manager.py:425-442 | one message per collection |
| Export.ExportsAt | src/scenemanager/manager.py:434-442 | the i-th message is INFO for the i-th collection's path when writing succeeded, WARNING with the error otherwise |
| Export.ExportReportShape | src/scenemanager/manager.py:414-446 | `AttributeError` exactly when `export` is mapped to a deleted collection; one ERROR and nothing written when `export` is unmapped or the destination is not a directory; otherwise one message per collection, in order, never an ERROR, INFO exactly when the file was written |
| Export.ExportEach | src/scenemanager/manager.py:425-442 | the loop produces `Exports` |
| Export.ExportCombinations | src/scenemanager/manager.py:404-446 | the method produces `ExportReport`, the `AttributeError` of a deleted `export` included |
| Batch.BatchReportShape | src/scenemanager/manager.py:312-328 | an exception escapes only from an import that ran; one ERROR first exactly when the scene was not initialized; otherwise the import's feedback unchanged; the new-scene notice last exactly when asked for and the path was a directory |
| Batch.BatchImportComponents | src/scenemanager/manager.py:300-328 | the method's result is `BatchReport` of the initialization result and the import run; when initialized, the file list is the as-written one and the import ran on it from the data right after initialization |

## Left out

- The UI panels, add-on registration and operators are not part of this model.
- The FBX importer is not part of this model. Its outcome for each file is an input: an `IOError`, or the importer's messages, the new root object and its children.
- Material handling is not modelled, beyond the name given to an object's materials.
- File-system queries are inputs: whether a path is a directory, the sub-directory names, the files found (as paths relative to the import root), and the absolute form of the root. `get_abs_path`, `get_filepaths` and path resolution are not modelled.
- BLAKE2s is the parameter `digest`. `HexDigest` only states the shape of its output: 16 lowercase hexadecimal digits.
- `random.shuffle` is CPython's swap loop, with `rnd(i) % (i + 1)` standing for `randbelow(i + 1)`. No probabilities are claimed.
- Combinations.Dedup: `list(set(...))` leaves the order to Python's hashing. The model keeps first occurrences in order. Export.SetNameSameSkeleton covers what the name depends on when the skeleton types agree.
- Blender's name-collision suffixes (`.001`), the 63-character name limit, selection, visibility, colour tags, `hide_render`/`hide_viewport` and the active object are not modelled.
- Lowercasing and uppercasing cover ASCII letters only.
- Batch.BatchImportComponents: the save and restore of `export_path` and `n_component_combinations` is not modelled, because those properties are not part of the state.
- Export.ExportPath: `with_suffix` raises `ValueError` for an empty collection name. Blender never gives a collection an empty name, so this case is not modelled.
- Export.ExportCombinations: `directory` is the absolute form of the export path, given as an input. The content of the glTF file is not modelled; `write(path)` is the exporter's outcome.
- Export.AddCombinationsToExport requires every object linked to a collection to have attributes (`LinkedNamed`). In Blender every object has a name.
- Combinations.DrawCombinations and Export.AddCombinationsToExport take `n` as a natural number. The operators never pass a negative count.
- ImportFacts.ChildNameRoundTrip requires a file name of fewer than seven tokens. A seventh token becomes the `map` tag, and the name then keeps it.
- SceneSetup.Blend.SetCollectionMapAsProperty requires the scene properties to be registered. `init_import_scene` only calls it after the import path was assigned, which fails first.
- SceneSetup.Blend.LinkToParent requires children newer than the parent and not yet linked under it. Blender refuses a second link or a cycle, and every call site links new collections.
- `objects_to_collection` and `deselect_all` are not modelled. Neither is part of the core.
- SceneSetup.Blend.CreateInitialCollections follows `scenesetup.py`: `src` and `export` are created first, then `_failed`, `_ignore` and `_mandatory`. The copy in `manager.py` (src/scenemanager/manager.py:64-100), which `batch_import_components` runs, creates and records them in the order `src`, `_failed`, `_ignore`, `_mandatory`, `export`. The tree and the set of recorded keys are the same; only the collection ids and the order of the five keys in `collection_map` differ, and no property of the model depends on either.
- SceneSetup.Blend.CreateCollections follows `scenesetup.py`: without a parent the new collections stay unlinked. The copy in `manager.py` (src/scenemanager/manager.py:103-123) links them under the active scene's root collection instead. `init_import_scene` always passes a parent, so Batch.BatchImportComponents is unaffected.
- Batch.BatchImportComponents runs the `scenesetup.py` versions of `set_importfiles_props` and `init_import_scene`; the `manager.py` copies (src/scenemanager/manager.py:127-219) differ from them only in the two points above, in `col_map.name = key` without `str` (the keys are strings either way) and in resolving the absolute path with `Path(bpy.path.abspath(...))`, which is an input here.
- Glob.Match handles `*` and `?` only; a `[...]` character class of `fnmatch` is matched literally. The patterns `get_img_variants` builds hold no `[` unless a file name does.

## Findings

| source | as written | input that shows it | evidently intended | confidence | as-written member | corrected member |
|---|---|---|---|---|---|---|
| src/scenemanager/scenesetup.py:181 | a file's category is its first folder name below the import root, as written, while `get_subfolders` (src/file_ops/path_ops.py:56) records the lowercased folder names as `collection_map` keys | a folder `Hair` holding `outfit-f-casual-01-v2.fbx`: the category is `Hair`, the key is `hair`. The region is undefined and becomes `Hair`, so every check passes and `collection_map["Hair"]` raises `KeyError` | the category lowercased like the recorded key, so every file in a visible folder is sorted into its folder's collection | not executed | SceneSetup.AsWrittenCategoryUnmapped | SceneSetup.CategoriesRecorded |
