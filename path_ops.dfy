/** The file-name tag codec of src/file_ops/path_ops.py.

    Asset names follow the positional scheme
    `<type>-<skeleton>-<theme>-<variant>-<mesh>-<region>[-<map>].<ext>`:
    the i-th separator-delimited token of the lowercased, extension-free name is
    the value of the i-th tag. */
module PathOps {
  import opened Strings

  /** The members of the `Tags` enumeration, in declaration order. */
  datatype Tag = Type | Skeleton | Theme | Variant | Mesh | Region | Map

  const TagOrder: seq<Tag> := [Type, Skeleton, Theme, Variant, Mesh, Region, Map]
  const AllTags: set<Tag> := {Type, Skeleton, Theme, Variant, Mesh, Region, Map}

  /** The tags every parse result carries (all but `Map`). */
  const CoreTags: set<Tag> := {Type, Skeleton, Theme, Variant, Mesh, Region}

  /** A parse result: the Python dict from tags to their string values. */
  type TagRecord = map<Tag, string>

  /** Position of a tag in `TagOrder`. */
  function TagIndex(t: Tag): (i: nat)
    ensures i < |TagOrder| && TagOrder[i] == t
  {
    match t
    case Type => 0
    case Skeleton => 1
    case Theme => 2
    case Variant => 3
    case Mesh => 4
    case Region => 5
    case Map => 6
  }

  /** The value `setdefault` fills in for a tag the name does not supply. */
  function Default(t: Tag): string {
    match t
    case Type => "undefined"
    case Skeleton => "x"
    case Theme => "generic"
    case Variant => "01"
    case Mesh => "v1"
    case Region => "undefined"
    case Map => "D"
  }

  /** `file_name.lower().split(".")[0].split(sep)`: the tokens of a name. */
  function NameParts(fileName: string, sep: char): (parts: seq<string>)
    ensures |parts| >= 1
    ensures forall i :: 0 <= i < |parts| ==> sep !in parts[i] && '.' !in parts[i] && NoUpper(parts[i])
  {
    var stem := Before(Lower(fileName), '.');
    var parts := Split(stem, sep);
    SplitPartsInside(stem, sep);
    parts
  }

  /** Every token of `Split(s, sep)` is a slice of `s`: a dot-free, lowercase `s` has dot-free, lowercase tokens. */
  lemma SplitPartsInside(s: string, sep: char)
    requires '.' !in s && NoUpper(s)
    ensures forall i :: 0 <= i < |Split(s, sep)| ==> '.' !in Split(s, sep)[i] && NoUpper(Split(s, sep)[i])
  {
    var r := Split(s, sep);
    SplitChars(s, sep);
    forall i | 0 <= i < |r| ensures '.' !in r[i] && NoUpper(r[i]) {
      forall j | 0 <= j < |r[i]| ensures r[i][j] != '.' && !('A' <= r[i][j] <= 'Z') {
        var m :| 0 <= m < |s| && s[m] == r[i][j];
      }
    }
  }

  /** `dict(zip(Tags, parts))`: the i-th token goes to the i-th tag, surplus tokens are dropped. */
  function Zip(parts: seq<string>): (r: TagRecord)
    ensures forall t :: t in r <==> TagIndex(t) < |parts|
    ensures forall t :: t in r ==> r[t] == parts[TagIndex(t)]
  {
    map t | t in AllTags && TagIndex(t) < |parts| :: parts[TagIndex(t)]
  }

  /** `props.setdefault(t, v)`: adds `t` only when it is missing. */
  function SetDefault(props: TagRecord, t: Tag, v: string): (r: TagRecord)
    ensures forall u :: u in r <==> u in props || u == t
    ensures forall u :: u in props ==> r[u] == props[u]
    ensures t !in props ==> r[t] == v
  {
    if t in props then props else props[t := v]
  }

  /** The six `setdefault` calls for the core tags: each core tag missing from `props` gets its
      default, every present entry stays. */
  function CoreDefaults(props: TagRecord): (r: TagRecord)
    ensures forall u :: u in r <==> u in props || u in CoreTags
    ensures forall u :: u in props ==> r[u] == props[u]
    ensures forall u :: u in CoreTags && u !in props ==> r[u] == Default(u)
  {
    map u | u in props.Keys + CoreTags :: if u in props then props[u] else Default(u)
  }

  /** `dict(zip(Tags, parts))` completed by the six core defaults. */
  function ParseCore(parts: seq<string>): (r: TagRecord)
    ensures forall t :: t in CoreTags ==> t in r
    ensures Map in r <==> |parts| >= 7
    ensures forall t :: t in CoreTags && TagIndex(t) < |parts| ==> r[t] == parts[TagIndex(t)]
    ensures forall t :: t in CoreTags && TagIndex(t) >= |parts| ==> r[t] == Default(t)
    ensures Map in r ==> r[Map] == parts[6]
  {
    assert Map !in CoreTags && TagIndex(Map) == 6;
    CoreDefaults(Zip(parts))
  }

  /** `parse_file_name` on the tokens of a name. */
  function ParseParts(parts: seq<string>, isImage: bool): (r: TagRecord)
    // Every result carries the six core tags; `Map` exactly for images or a seventh token.
    ensures forall t :: t in CoreTags ==> t in r
    ensures Map in r <==> isImage || |parts| >= 7
    // A token the name supplies is kept (only `Map` of an image is uppercased) ...
    ensures forall t :: t in CoreTags && TagIndex(t) < |parts| ==> r[t] == parts[TagIndex(t)]
    // ... and a missing one gets exactly its default.
    ensures forall t :: t in CoreTags && TagIndex(t) >= |parts| ==> r[t] == Default(t)
    ensures isImage ==> r[Map] == (if |parts| >= 7 then Upper(parts[6]) else "D")
    ensures !isImage && Map in r ==> r[Map] == parts[6]
  {
    var props := ParseCore(parts);
    if isImage then ImageMap(props) else props
  }

  /** The image branch: `props.setdefault(MAP, "D")`, then the map tag uppercased. */
  function ImageMap(props: TagRecord): (r: TagRecord)
    ensures forall t :: t in r <==> t in props || t == Map
    ensures forall t :: t in props && t != Map ==> r[t] == props[t]
    ensures r[Map] == if Map in props then Upper(props[Map]) else "D"
  {
    var withMap := SetDefault(props, Map, "D");
    assert Upper("D") == "D" by {
      assert Upper("D")[0] == UpperChar('D');
    }
    withMap[Map := Upper(withMap[Map])]
  }

  /** `parse_file_name(file_name, sep, is_image)`. */
  function ParseFileName(fileName: string, sep: char, isImage: bool): TagRecord {
    ParseParts(NameParts(fileName, sep), isImage)
  }

  /** The values of the tags present in `tags`, in `order`. */
  function PresentValues(tags: TagRecord, order: seq<Tag>): (vs: seq<string>)
    ensures |vs| <= |order|
  {
    if order == [] then []
    else (if order[0] in tags then [tags[order[0]]] else []) + PresentValues(tags, order[1..])
  }

  /** `tags_to_name(tags, sep)`: the present tags, in `Tags` order, joined with `sep`. */
  function TagsToName(tags: TagRecord, sep: char): string {
    Join(PresentValues(tags, TagOrder), sep)
  }

  /** `get_skeleton_type` of path_ops.py: the skeleton tag of the parsed name. The lookup cannot fail,
      because parsing always supplies the skeleton tag. */
  function GetSkeletonType(fileName: string): (r: string)
    ensures |NameParts(fileName, '-')| >= 2 ==> r == NameParts(fileName, '-')[1]
    ensures |NameParts(fileName, '-')| < 2 ==> r == "x"
    ensures NoUpper(r) && '-' !in r && '.' !in r
  {
    var parts := NameParts(fileName, '-');
    assert Skeleton in CoreTags && TagIndex(Skeleton) == 1;
    assert NoUpper("x");
    ParseParts(parts, false)[Skeleton]
  }

  // ---------------------------------------------------------------------------
  // Round trips

  /** A dot-free lowercase name of six or seven tokens is reproduced by parsing and re-serialising it. */
  lemma NameRoundTrip(name: string, sep: char)
    requires NoUpper(name) && '.' !in name && sep != '.'
    requires 6 <= |Split(name, sep)| <= 7
    ensures TagsToName(ParseFileName(name, sep, false), sep) == name
  {
    LowerOfLower(name);
    var parts := Split(name, sep);
    assert NameParts(name, sep) == parts;
    ParsedValues(parts);
    JoinSplit(name, sep);
  }

  /** Six or seven tokens, parsed and serialised, come back as they were. */
  lemma ParsedValues(parts: seq<string>)
    requires 6 <= |parts| <= 7
    ensures PresentValues(ParseParts(parts, false), TagOrder) == parts
  {
    PresentValuesOfParse(ParseParts(parts, false), parts);
  }

  lemma PresentValuesCons(r: TagRecord, t: Tag, o: seq<Tag>)
    ensures PresentValues(r, [t] + o) == (if t in r then [r[t]] else []) + PresentValues(r, o)
  {
    assert ([t] + o)[1..] == o;
  }

  /** For a record holding the six core tags, the serialised values are those six in order,
      then the map tag when present. */
  lemma PresentValuesUnrolled(r: TagRecord)
    requires forall t :: t in CoreTags ==> t in r
    ensures PresentValues(r, TagOrder)
         == [r[Type], r[Skeleton], r[Theme], r[Variant], r[Mesh], r[Region]] + (if Map in r then [r[Map]] else [])
  {
    var m := if Map in r then [r[Map]] else [];
    assert Type in r && Skeleton in r && Theme in r && Variant in r && Mesh in r && Region in r;
    PresentValuesCons(r, Map, []);
    PresentValuesCons(r, Region, [Map]);
    PresentValuesCons(r, Mesh, [Region, Map]);
    PresentValuesCons(r, Variant, [Mesh, Region, Map]);
    PresentValuesCons(r, Theme, [Variant, Mesh, Region, Map]);
    PresentValuesCons(r, Skeleton, [Theme, Variant, Mesh, Region, Map]);
    PresentValuesCons(r, Type, [Skeleton, Theme, Variant, Mesh, Region, Map]);
    assert [r[Type]] + ([r[Skeleton]] + ([r[Theme]] + ([r[Variant]] + ([r[Mesh]] + ([r[Region]] + m)))))
        == [r[Type], r[Skeleton], r[Theme], r[Variant], r[Mesh], r[Region]] + m;
  }

  lemma PresentValuesOfParse(r: TagRecord, parts: seq<string>)
    requires forall t :: t in CoreTags ==> t in r
    requires 6 <= |parts| <= 7
    requires forall t :: t in CoreTags ==> r[t] == parts[TagIndex(t)]
    requires Map in r <==> |parts| == 7
    requires Map in r ==> r[Map] == parts[6]
    ensures PresentValues(r, TagOrder) == parts
  {
    PresentValuesUnrolled(r);
    assert r[Type] == parts[0] && r[Skeleton] == parts[1] && r[Theme] == parts[2];
    assert r[Variant] == parts[3] && r[Mesh] == parts[4] && r[Region] == parts[5];
    if |parts| == 6 {
      assert parts == [parts[0], parts[1], parts[2], parts[3], parts[4], parts[5]];
    } else {
      assert parts == [parts[0], parts[1], parts[2], parts[3], parts[4], parts[5], parts[6]];
    }
  }

  /** The values of a record of exactly the six core tags, in order. */
  function CoreValues(r: TagRecord): (vs: seq<string>)
    requires forall t :: t in CoreTags ==> t in r
    ensures |vs| == 6 && forall t :: t in CoreTags ==> vs[TagIndex(t)] == r[t]
  {
    [r[Type], r[Skeleton], r[Theme], r[Variant], r[Mesh], r[Region]]
  }

  /** A record of exactly the six core tags is serialised as its six values. */
  lemma CoreRecordValues(r: TagRecord)
    requires forall t :: t in r <==> t in CoreTags
    ensures PresentValues(r, TagOrder) == CoreValues(r)
  {
    PresentValuesUnrolled(r);
    assert Map !in r;
  }

  /** A record of exactly the six core tags is the record built from its six values. */
  lemma CoreRecordOfValues(r: TagRecord)
    requires forall t :: t in r <==> t in CoreTags
    ensures var vs := CoreValues(r);
            r == map[Type := vs[0], Skeleton := vs[1], Theme := vs[2], Variant := vs[3], Mesh := vs[4], Region := vs[5]]
  {
    var vs := CoreValues(r);
    var e := map[Type := vs[0], Skeleton := vs[1], Theme := vs[2], Variant := vs[3], Mesh := vs[4], Region := vs[5]];
    assert forall t :: t in e <==> t in r;
  }

  /** A record of the six core tags whose values are lowercase tokens free of `sep` and `.`
      is recovered by serialising and re-parsing it. */
  lemma RecordRoundTrip(r: TagRecord, sep: char)
    requires forall t :: t in r <==> t in CoreTags
    requires sep != '.' && !('A' <= sep <= 'Z')
    requires forall t :: t in r ==> NoUpper(r[t]) && sep !in r[t] && '.' !in r[t]
    ensures ParseFileName(TagsToName(r, sep), sep, false) == r
  {
    var vs := CoreValues(r);
    CoreRecordValues(r);
    assert forall i :: 0 <= i < |vs| ==> NoUpper(vs[i]) && sep !in vs[i] && '.' !in vs[i] by {
      assert forall t :: t in CoreTags ==> TagIndex(t) < 6;
      assert vs == [vs[TagIndex(Type)], vs[TagIndex(Skeleton)], vs[TagIndex(Theme)], vs[TagIndex(Variant)], vs[TagIndex(Mesh)], vs[TagIndex(Region)]];
    }
    NamePartsOfJoin(vs, sep);
    ParsedSixTokens(vs);
    CoreRecordOfValues(r);
  }

  /** Tokens free of `sep`, `.` and capitals come back out of their `sep`-joined name. */
  lemma NamePartsOfJoin(vs: seq<string>, sep: char)
    requires |vs| >= 1 && sep != '.' && !('A' <= sep <= 'Z')
    requires forall i :: 0 <= i < |vs| ==> NoUpper(vs[i]) && sep !in vs[i] && '.' !in vs[i]
    ensures NameParts(Join(vs, sep), sep) == vs
  {
    var name := Join(vs, sep);
    SplitJoin(vs, sep);
    JoinNoChar(vs, sep, '.');
    JoinNoUpper(vs, sep);
    LowerOfLower(name);
  }

  lemma {:induction false} JoinNoChar(parts: seq<string>, sep: char, c: char)
    requires c != sep
    requires forall i :: 0 <= i < |parts| ==> c !in parts[i]
    ensures c !in Join(parts, sep)
  {
    if |parts| > 1 { JoinNoChar(parts[1..], sep, c); }
  }

  lemma {:induction false} JoinNoUpper(parts: seq<string>, sep: char)
    requires !('A' <= sep <= 'Z')
    requires forall i :: 0 <= i < |parts| ==> NoUpper(parts[i])
    ensures NoUpper(Join(parts, sep))
  {
    if |parts| > 1 {
      JoinNoUpper(parts[1..], sep);
      var j := Join(parts[1..], sep);
      var s := parts[0] + [sep] + j;
      forall i | 0 <= i < |s| ensures !('A' <= s[i] <= 'Z') {
        if i < |parts[0]| { assert s[i] == parts[0][i]; }
        else if i > |parts[0]| { assert s[i] == j[i - |parts[0]| - 1]; }
      }
    }
  }

  // ---------------------------------------------------------------------------
  // Worked examples of the naming convention

  lemma BeforeConcat(a: string, b: string, c: char)
    requires c !in a && |b| > 0 && b[0] == c
    ensures Before(a + b, c) == a
  {
    assert (a + b)[|a|] == c;
    var k := IndexOf(a + b, c);
    assert k == |a|;
  }

  /** A lowercase, dot-free stem followed by a lowercase extension is the stem `NameParts` splits. */
  lemma StemOfName(stem: string, ext: string)
    requires NoUpper(stem) && '.' !in stem
    requires |ext| > 0 && ext[0] == '.' && NoUpper(ext)
    ensures Before(Lower(stem + ext), '.') == stem
  {
    NoUpperConcat(stem, ext);
    LowerOfLower(stem + ext);
    BeforeConcat(stem, ext, '.');
  }

  /** Parsing the tokens `parts` followed by an extension. */
  lemma ParseOfTokens(parts: seq<string>, ext: string)
    requires 1 <= |parts| && |ext| > 0 && ext[0] == '.'
    requires CleanTokens(parts) && NoUpper(ext)
    ensures NameParts(Join(parts, '-') + ext, '-') == parts
  {
    var stem := Join(parts, '-');
    JoinNoUpper(parts, '-');
    JoinNoChar(parts, '-', '.');
    StemOfName(stem, ext);
    SplitJoin(parts, '-');
  }

  /** Joining a part in front of at least one other part. */
  lemma JoinCons(a: string, rest: seq<string>, sep: char)
    requires |rest| >= 1
    ensures Join([a] + rest, sep) == a + [sep] + Join(rest, sep)
  {
    assert ([a] + rest)[1..] == rest;
  }

  lemma FullNameTail()
    ensures Join(["casual", "01", "v2", "bottom"], '-') == "casual-01-v2-bottom"
  {
    assert Join(["bottom"], '-') == "bottom";
    JoinCons("v2", ["bottom"], '-');
    assert ["v2"] + ["bottom"] == ["v2", "bottom"];
    JoinCons("01", ["v2", "bottom"], '-');
    assert ["01"] + ["v2", "bottom"] == ["01", "v2", "bottom"];
    JoinCons("casual", ["01", "v2", "bottom"], '-');
    assert ["casual"] + ["01", "v2", "bottom"] == ["casual", "01", "v2", "bottom"];
  }

  lemma FullNameTokens()
    ensures Join(["outfit", "f", "casual", "01", "v2", "bottom"], '-') == "outfit-f-casual-01-v2-bottom"
  {
    FullNameTail();
    JoinCons("f", ["casual", "01", "v2", "bottom"], '-');
    assert ["f"] + ["casual", "01", "v2", "bottom"] == ["f", "casual", "01", "v2", "bottom"];
    JoinCons("outfit", ["f", "casual", "01", "v2", "bottom"], '-');
    assert ["outfit"] + ["f", "casual", "01", "v2", "bottom"] == ["outfit", "f", "casual", "01", "v2", "bottom"];
  }

  /** The tokens of the examples are lowercase and free of `-` and `.`. */
  predicate CleanTokens(parts: seq<string>) {
    forall i :: 0 <= i < |parts| ==> NoUpper(parts[i]) && '-' !in parts[i] && '.' !in parts[i]
  }

  lemma FullNameClean()
    ensures CleanTokens(["outfit", "f", "casual", "01", "v2", "bottom"])
  {
  }

  lemma FullNameTokensParsed()
    ensures NameParts("outfit-f-casual-01-v2-bottom.fbx", '-') == ["outfit", "f", "casual", "01", "v2", "bottom"]
  {
    var parts := ["outfit", "f", "casual", "01", "v2", "bottom"];
    FullNameTokens();
    FullNameClean();
    ParseOfTokens(parts, ".fbx");
    assert Join(parts, '-') + ".fbx" == "outfit-f-casual-01-v2-bottom.fbx";
  }

  lemma ParseFullName()
    ensures ParseFileName("outfit-f-casual-01-v2-bottom.fbx", '-', false)
         == map[Type := "outfit", Skeleton := "f", Theme := "casual", Variant := "01", Mesh := "v2", Region := "bottom"]
  {
    FullNameTokensParsed();
    ParsedSixTokens(["outfit", "f", "casual", "01", "v2", "bottom"]);
  }

  lemma ShortNameTokens()
    ensures Join(["fullbody", "f", "set", "01"], '-') == "fullbody-f-set-01"
  {
    assert Join(["01"], '-') == "01";
    JoinCons("set", ["01"], '-');
    assert ["set"] + ["01"] == ["set", "01"];
    JoinCons("f", ["set", "01"], '-');
    assert ["f"] + ["set", "01"] == ["f", "set", "01"];
    JoinCons("fullbody", ["f", "set", "01"], '-');
    assert ["fullbody"] + ["f", "set", "01"] == ["fullbody", "f", "set", "01"];
  }

  lemma ShortNameClean()
    ensures CleanTokens(["fullbody", "f", "set", "01"])
  {
  }

  lemma ShortNameTokensParsed()
    ensures NameParts("fullbody-f-set-01.fbx", '-') == ["fullbody", "f", "set", "01"]
  {
    var parts := ["fullbody", "f", "set", "01"];
    ShortNameTokens();
    ShortNameClean();
    ParseOfTokens(parts, ".fbx");
    assert Join(parts, '-') + ".fbx" == "fullbody-f-set-01.fbx";
  }

  lemma ParseShortName()
    ensures ParseFileName("fullbody-f-set-01.fbx", '-', false)
         == map[Type := "fullbody", Skeleton := "f", Theme := "set", Variant := "01", Mesh := "v1", Region := "undefined"]
  {
    ShortNameTokensParsed();
    ParsedFourTokens(["fullbody", "f", "set", "01"]);
  }

  lemma ParsedSixTokens(parts: seq<string>)
    requires |parts| == 6
    ensures ParseParts(parts, false)
         == map[Type := parts[0], Skeleton := parts[1], Theme := parts[2], Variant := parts[3], Mesh := parts[4], Region := parts[5]]
  {
    var r := ParseParts(parts, false);
    var e := map[Type := parts[0], Skeleton := parts[1], Theme := parts[2], Variant := parts[3], Mesh := parts[4], Region := parts[5]];
    assert forall t :: t in r <==> t in e;
    assert forall t :: t in r ==> r[t] == e[t];
  }

  lemma ParsedFourTokens(parts: seq<string>)
    requires |parts| == 4
    ensures ParseParts(parts, false)
         == map[Type := parts[0], Skeleton := parts[1], Theme := parts[2], Variant := parts[3], Mesh := "v1", Region := "undefined"]
  {
    var r := ParseParts(parts, false);
    var e := map[Type := parts[0], Skeleton := parts[1], Theme := parts[2], Variant := parts[3], Mesh := "v1", Region := "undefined"];
    assert forall t :: t in r <==> t in e;
    assert forall t :: t in r ==> r[t] == e[t];
  }
}
