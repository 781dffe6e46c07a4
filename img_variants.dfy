/** `get_img_variants` of src/file_ops/path_ops.py: find the sibling images of a
    texture that differ from it only in the variant and map tags, grouped by
    their variant tag. The directory listing is an input sequence of file names. */
module ImgVariants {
  import opened Strings
  import opened PathOps
  import Glob

  /** Index of the last `c` in `s`. */
  function LastIndexOf(s: string, c: char): (k: nat)
    requires c in s
    ensures k < |s| && s[k] == c && c !in s[k + 1..]
  {
    if s[|s| - 1] == c then |s| - 1
    else
      assert s == s[..|s| - 1] + [s[|s| - 1]];
      LastIndexOf(s[..|s| - 1], c)
  }

  /** `Path(name).stem`: the name without its last suffix; a dot in first or last position starts no suffix. */
  function PathStem(name: string): string {
    if '.' in name && 0 < LastIndexOf(name, '.') < |name| - 1 then name[..LastIndexOf(name, '.')] else name
  }

  /** Cutting a string at any `c` leaves the text before its first `c` unchanged. */
  lemma BeforeOfPrefix(s: string, k: nat, c: char)
    requires k < |s| && s[k] == c
    ensures Before(s[..k], c) == Before(s, c)
  {
    var r1 := Before(s[..k], c);
    var r2 := Before(s, c);
    assert s[|r1|] == c && c !in s[..|r1|];
  }

  /** Parsing the stem of a name sees the same tokens as parsing the name: both are cut at the first dot. */
  lemma NamePartsOfStem(name: string, sep: char)
    ensures NameParts(PathStem(name), sep) == NameParts(name, sep)
  {
    if '.' in name && 0 < LastIndexOf(name, '.') < |name| - 1 {
      var i := LastIndexOf(name, '.');
      LowerPrefix(name, i);
      BeforeOfPrefix(Lower(name), i, '.');
    }
  }

  /** The variant tag by which a found file is grouped: `parse_file_name(x.stem, is_image=True)[VARIANT]`. */
  function VariantKey(fileName: string): string {
    var parts := NameParts(PathStem(fileName), '-');
    if |parts| >= 4 then parts[3] else Default(Variant)
  }

  /** The key is the variant tag of the parsed stem. */
  lemma VariantKeyParsed(fileName: string)
    ensures VariantKey(fileName) == ParseFileName(PathStem(fileName), '-', true)[Variant]
  {
    assert Variant in CoreTags && TagIndex(Variant) == 3;
  }

  /** The glob pattern `<type>-<skeleton>-<theme>-??-<mesh>-<region>-?.*` of a parsed image name. */
  function ImgPattern(p: TagRecord): string
    requires forall t :: t in CoreTags ==> t in p
  {
    p[Type] + "-" + p[Skeleton] + "-" + p[Theme] + "-??-" + p[Mesh] + "-" + p[Region] + "-?.*"
  }

  /** The entries of `listing` that the pattern matches, in listing order. */
  function Filter(listing: seq<string>, pattern: string): (r: seq<string>)
    ensures forall f :: f in r <==> f in listing && Glob.Match(pattern, f)
  {
    if listing == [] then []
    else (if Glob.Match(pattern, listing[0]) then [listing[0]] else []) + Filter(listing[1..], pattern)
  }

  /** The keys of a sequence of groups. */
  function GroupKeys(gs: seq<(string, seq<string>)>): set<string> {
    set i | 0 <= i < |gs| :: gs[i].0
  }

  /** `itertools.groupby(xs, key)`: the runs of consecutive elements with equal key. */
  function GroupBy(xs: seq<string>, key: string -> string): (r: seq<(string, seq<string>)>)
    ensures forall i :: 0 <= i < |r| ==> |r[i].1| > 0
    ensures xs == [] <==> r == []
    ensures r != [] ==> r[0].0 == key(xs[0])
  {
    if xs == [] then []
    else
      var rest := GroupBy(xs[1..], key);
      if rest != [] && rest[0].0 == key(xs[0]) then
        var r := [(rest[0].0, [xs[0]] + rest[0].1)] + rest[1..];
        assert forall i :: 1 <= i < |r| ==> r[i] == rest[i];
        r
      else
        var r := [(key(xs[0]), [xs[0]])] + rest;
        assert forall i :: 0 <= i < |rest| ==> r[i + 1] == rest[i];
        r
  }

  /** Every element of a group is an element of `xs` with the group's key. */
  lemma {:induction false} GroupByMembers(xs: seq<string>, key: string -> string)
    ensures forall i, f :: 0 <= i < |GroupBy(xs, key)| && f in GroupBy(xs, key)[i].1 ==> f in xs && key(f) == GroupBy(xs, key)[i].0
  {
    if xs != [] {
      var rest := GroupBy(xs[1..], key);
      var r := GroupBy(xs, key);
      GroupByMembers(xs[1..], key);
      forall i, f | 0 <= i < |r| && f in r[i].1 ensures f in xs && key(f) == r[i].0 {
        if f != xs[0] {
          var g := if rest != [] && rest[0].0 == key(xs[0]) then i else i - 1;
          assert 0 <= g < |rest| && f in rest[g].1 && r[i].0 == rest[g].0;
          assert f in xs[1..];
        }
      }
    }
  }

  /** Every element's key is the key of some group. */
  lemma {:induction false} GroupByCovers(xs: seq<string>, key: string -> string)
    ensures forall f :: f in xs ==> key(f) in GroupKeys(GroupBy(xs, key))
  {
    if xs != [] {
      var rest := GroupBy(xs[1..], key);
      var r := GroupBy(xs, key);
      GroupByCovers(xs[1..], key);
      assert r[0].0 == key(xs[0]);
      forall k | k in GroupKeys(rest) ensures k in GroupKeys(r) {
        var i :| 0 <= i < |rest| && rest[i].0 == k;
        if rest[0].0 == key(xs[0]) {
          assert r[i].0 == k;
        } else {
          assert r[i + 1] == rest[i];
        }
      }
      assert xs == [xs[0]] + xs[1..];
    }
  }

  /** Position of the last group with key `k`. */
  function LastWith(gs: seq<(string, seq<string>)>, k: string): (i: nat)
    requires k in GroupKeys(gs)
    ensures i < |gs| && gs[i].0 == k
    ensures forall j :: i < j < |gs| ==> gs[j].0 != k
  {
    var n := |gs| - 1;
    if gs[n].0 == k then n
    else
      assert k in GroupKeys(gs[..n]) by {
        var i :| 0 <= i < |gs| && gs[i].0 == k;
        assert gs[..n][i].0 == k;
      }
      LastWith(gs[..n], k)
  }

  /** `{key: list(group) for key, group in gs}`: a later group with the same key replaces an
      earlier one. */
  function DictOf(gs: seq<(string, seq<string>)>): (r: map<string, seq<string>>)
    ensures forall k :: k in r <==> k in GroupKeys(gs)
    ensures forall k :: k in r ==> r[k] == gs[LastWith(gs, k)].1
  {
    if gs == [] then map[]
    else
      var init := gs[..|gs| - 1];
      var last := gs[|gs| - 1];
      assert GroupKeys(gs) == GroupKeys(init) + {last.0} by {
        forall k | k in GroupKeys(gs) ensures k in GroupKeys(init) + {last.0} {
          var i :| 0 <= i < |gs| && gs[i].0 == k;
          if i < |init| { assert init[i].0 == k; }
        }
        forall k | k in GroupKeys(init) ensures k in GroupKeys(gs) {
          var i :| 0 <= i < |init| && init[i].0 == k;
          assert gs[i].0 == k;
        }
      }
      DictOf(init)[last.0 := last.1]
  }

  /** The grouping that `get_img_variants` promises: non-empty groups, each holding elements of
      `found` with its own key, and a key for every element of `found`. */
  predicate Grouped(r: map<string, seq<string>>, found: seq<string>, key: string -> string) {
    (forall k :: k in r ==> |r[k]| > 0)
    && (forall k, f :: k in r && f in r[k] ==> f in found && key(f) == k)
    && (forall f :: f in found ==> key(f) in r)
  }

  /** The dictionary of groups that are non-empty and hold elements of `found` under their own
      key, and that cover every element's key, is `Grouped`. */
  lemma DictOfGrouped(gs: seq<(string, seq<string>)>, found: seq<string>, key: string -> string)
    requires forall i :: 0 <= i < |gs| ==> |gs[i].1| > 0
    requires forall i, f :: 0 <= i < |gs| && f in gs[i].1 ==> f in found && key(f) == gs[i].0
    requires forall f :: f in found ==> key(f) in GroupKeys(gs)
    ensures Grouped(DictOf(gs), found, key)
  {
    var r := DictOf(gs);
    forall k | k in r ensures |r[k]| > 0 && forall f :: f in r[k] ==> f in found && key(f) == k {
      var i := LastWith(gs, k);
      assert r[k] == gs[i].1;
    }
  }

  /** `{key: list(group) for key, group in groupby(found, key)}`. */
  function GroupDict(found: seq<string>, key: string -> string): (r: map<string, seq<string>>)
    ensures Grouped(r, found, key)
  {
    var gs := GroupBy(found, key);
    GroupByCovers(found, key);
    GroupByMembers(found, key);
    DictOfGrouped(gs, found, key);
    DictOf(gs)
  }

  /** The groups without the group of `current` when `exclude` holds; `del` of a missing key is ignored. */
  function Without(groups: map<string, seq<string>>, current: string, exclude: bool): (r: map<string, seq<string>>)
    ensures forall k :: k in r <==> k in groups && !(exclude && k == current)
    ensures forall k :: k in r ==> r[k] == groups[k]
  {
    if exclude then groups - {current} else groups
  }

  /** The files of `listing` that the pattern matches, sorted by name. */
  function Found(listing: seq<string>, pattern: string): (r: seq<string>)
    ensures Sorted(r)
    ensures forall f :: f in r <==> f in listing && Glob.Match(pattern, f)
  {
    var matched := Filter(listing, pattern);
    SortProps(matched);
    assert forall f :: f in Sort(matched) <==> f in multiset(Sort(matched));
    Sort(matched)
  }

  /** The representative's glob pattern: the image name with its variant and map tags left open. */
  function PatternOf(imgName: string): string {
    ImgPattern(ParseFileName(imgName, '-', true))
  }

  /** `get_img_variants(img_name, path, exclude_current)` on the directory's file names `listing`. */
  function GetImgVariants(imgName: string, listing: seq<string>, excludeCurrent: bool): (r: map<string, seq<string>>)
    ensures forall k :: k in r ==> |r[k]| > 0
    ensures forall k, f :: k in r && f in r[k] ==> VariantKey(f) == k
    ensures excludeCurrent ==> ParseFileName(imgName, '-', true)[Variant] !in r
  {
    var p := ParseFileName(imgName, '-', true);
    Without(GroupDict(Found(listing, PatternOf(imgName)), VariantKey), p[Variant], excludeCurrent)
  }

  /** Each group holds only files of the listing that the pattern matches. */
  lemma GroupsFound(imgName: string, listing: seq<string>, excludeCurrent: bool, k: string, f: string)
    requires k in GetImgVariants(imgName, listing, excludeCurrent)
    requires f in GetImgVariants(imgName, listing, excludeCurrent)[k]
    ensures f in listing && Glob.Match(PatternOf(imgName), f)
  {
    var pat := PatternOf(imgName);
    var cur := ParseFileName(imgName, '-', true)[Variant];
    assert GetImgVariants(imgName, listing, excludeCurrent) == Without(GroupDict(Found(listing, pat), VariantKey), cur, excludeCurrent);
    FoundGroup(listing, pat, VariantKey, cur, excludeCurrent, k, f);
  }

  lemma FoundGroup(listing: seq<string>, pat: string, key: string -> string, cur: string, excludeCurrent: bool, k: string, f: string)
    requires k in Without(GroupDict(Found(listing, pat), key), cur, excludeCurrent)
    requires f in Without(GroupDict(Found(listing, pat), key), cur, excludeCurrent)[k]
    ensures f in listing && Glob.Match(pat, f)
  {
  }

  /** Every found file's variant is a key, except the representative's own when it is excluded. */
  lemma KeysComplete(imgName: string, listing: seq<string>, excludeCurrent: bool)
    ensures forall f :: f in listing && Glob.Match(PatternOf(imgName), f) ==>
              (VariantKey(f) in GetImgVariants(imgName, listing, excludeCurrent) <==>
               !(excludeCurrent && VariantKey(f) == ParseFileName(imgName, '-', true)[Variant]))
  {
    var found := Found(listing, PatternOf(imgName));
    assert forall f :: f in listing && Glob.Match(PatternOf(imgName), f) ==> f in found;
  }

  // ---------------------------------------------------------------------------
  // Which siblings the pattern finds

  /** An image name that follows the convention: seven lowercase tags without `-` or `.`,
      a two-character variant, a one-character map tag, and a lowercase extension. */
  predicate Conventional(tags: seq<string>, ext: string) {
    |tags| == 7 && |tags[3]| == 2 && |tags[6]| == 1 && NoUpper(ext)
    && (forall i :: 0 <= i < 7 ==> '-' !in tags[i] && '.' !in tags[i] && NoUpper(tags[i]))
  }

  function ConventionalName(tags: seq<string>, ext: string): string
    requires |tags| == 7
  {
    tags[0] + "-" + tags[1] + "-" + tags[2] + "-" + tags[3] + "-" + tags[4] + "-" + tags[5] + "-" + tags[6] + "." + ext
  }

  /** `?.*` matches `<m>.<ext>` for a one-character `m`. */
  lemma MapShape(m: string, ext: string)
    requires |m| == 1
    ensures Glob.Match("?.*", m + "." + ext)
  {
    Glob.StarMatchesAll(ext);
    Glob.MatchPrefix(".", "*", ext);
    Glob.AnyMatchesOne(".*", m[0], "." + ext);
    assert "?" + ".*" == "?.*";
    assert [m[0]] + ("." + ext) == m + "." + ext;
  }

  /** `??<q>` matches `<v><t>` for a two-character `v` when `q` matches `t`. */
  lemma VariantShape(v: string, q: string, t: string)
    requires |v| == 2 && Glob.Match(q, t)
    ensures Glob.Match("??" + q, v + t)
  {
    Glob.AnyMatchesOne(q, v[1], t);
    Glob.AnyMatchesOne("?" + q, v[0], [v[1]] + t);
    assert "?" + ("?" + q) == "??" + q;
    assert [v[0]] + ([v[1]] + t) == v + t by {
      assert v == [v[0]] + [v[1]];
    }
  }

  /** `<head>??<tail>?.*` matches `<head><v><tail><m>.<ext>` for a two-character `v` and a one-character `m`. */
  lemma PatternShape(head: string, v: string, tail: string, m: string, ext: string)
    requires |v| == 2 && |m| == 1
    ensures Glob.Match(head + "??" + tail + "?.*", head + v + tail + m + "." + ext)
  {
    var s1 := m + "." + ext;
    MapShape(m, ext);
    Glob.MatchPrefix(tail, "?.*", s1);
    VariantShape(v, tail + "?.*", tail + s1);
    Glob.MatchPrefix(head, "??" + (tail + "?.*"), v + (tail + s1));
    assert head + ("??" + (tail + "?.*")) == head + "??" + tail + "?.*";
    assert head + (v + (tail + s1)) == head + v + tail + m + "." + ext;
  }

  /** A conventional image that shares type, skeleton, theme, mesh and region with the
      representative is matched by the representative's pattern, whatever its variant and map. */
  lemma SiblingMatches(p: TagRecord, tags: seq<string>, ext: string)
    requires forall t :: t in CoreTags ==> t in p
    requires Conventional(tags, ext)
    requires tags[0] == p[Type] && tags[1] == p[Skeleton] && tags[2] == p[Theme]
    requires tags[4] == p[Mesh] && tags[5] == p[Region]
    ensures Glob.Match(ImgPattern(p), ConventionalName(tags, ext))
  {
    var head := tags[0] + "-" + tags[1] + "-" + tags[2] + "-";
    var tail := "-" + tags[4] + "-" + tags[5] + "-";
    PatternShape(head, tags[3], tail, tags[6], ext);
    assert head + "??" + tail + "?.*" == ImgPattern(p);
    assert head + tags[3] + tail + tags[6] + "." + ext == ConventionalName(tags, ext);
  }

  lemma ConventionalNameIsJoin(tags: seq<string>, ext: string)
    requires |tags| == 7
    ensures ConventionalName(tags, ext) == Join(tags, '-') + ("." + ext)
  {
    var t := tags;
    assert Join(t[..1], '-') == t[0];
    assert t[..2] == t[..1] + [t[1]]; JoinSnoc(t[..1], t[1], '-');
    assert t[..3] == t[..2] + [t[2]]; JoinSnoc(t[..2], t[2], '-');
    assert t[..4] == t[..3] + [t[3]]; JoinSnoc(t[..3], t[3], '-');
    assert t[..5] == t[..4] + [t[4]]; JoinSnoc(t[..4], t[4], '-');
    assert t[..6] == t[..5] + [t[5]]; JoinSnoc(t[..5], t[5], '-');
    assert t == t[..6] + [t[6]]; JoinSnoc(t[..6], t[6], '-');
  }

  /** The variant key is the fourth token of the name's stem. */
  lemma KeyOfParts(n: string, parts: seq<string>)
    requires NameParts(PathStem(n), '-') == parts && |parts| >= 4
    ensures VariantKey(n) == parts[3]
  {
    assert Variant in CoreTags && TagIndex(Variant) == 3;
  }

  /** The stem of a conventional name parses back into its seven tags. */
  lemma ConventionalParts(tags: seq<string>, ext: string)
    requires Conventional(tags, ext)
    ensures NameParts(PathStem(ConventionalName(tags, ext)), '-') == tags
  {
    var n := ConventionalName(tags, ext);
    NamePartsOfStem(n, '-');
    ConventionalNameIsJoin(tags, ext);
    var e := "." + ext;
    NoUpperConcat(".", ext);
    ParseOfTokens(tags, e);
  }

  /** The variant key of a conventional name is its variant token. */
  lemma ConventionalKey(tags: seq<string>, ext: string)
    requires Conventional(tags, ext)
    ensures VariantKey(ConventionalName(tags, ext)) == tags[3]
  {
    ConventionalParts(tags, ext);
    KeyOfParts(ConventionalName(tags, ext), tags);
  }

  /** A conventional sibling of the representative in the same directory shows up under its own
      variant tag, unless that is the representative's variant and the current one is excluded. */
  lemma SiblingFound(imgName: string, listing: seq<string>, excludeCurrent: bool, tags: seq<string>, ext: string)
    requires Conventional(tags, ext) && ConventionalName(tags, ext) in listing
    requires var p := ParseFileName(imgName, '-', true);
      tags[0] == p[Type] && tags[1] == p[Skeleton] && tags[2] == p[Theme] && tags[4] == p[Mesh] && tags[5] == p[Region]
    ensures tags[3] in GetImgVariants(imgName, listing, excludeCurrent)
        <==> !(excludeCurrent && tags[3] == ParseFileName(imgName, '-', true)[Variant])
  {
    var n := ConventionalName(tags, ext);
    SiblingMatches(ParseFileName(imgName, '-', true), tags, ext);
    ConventionalKey(tags, ext);
    KeysComplete(imgName, listing, excludeCurrent);
  }
}
