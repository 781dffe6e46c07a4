/** `get_skeleton_type` of src/file_ops.py: the second `-`-separated token of a
    name, taken verbatim (no lowercasing, no extension stripping). */
module FileOps {
  import opened Strings
  import PathOps

  /** `file_name.split("-")[1]`, or `""` when the split has no second element. */
  function GetSkeletonType(fileName: string): (r: string)
    ensures '-' !in r
    ensures '-' !in fileName ==> r == ""
    ensures '-' in fileName ==> r == Before(fileName[IndexOf(fileName, '-') + 1..], '-')
  {
    var parts := Split(fileName, '-');
    if |parts| >= 2 then
      BeforeIsFirstPart(fileName[IndexOf(fileName, '-') + 1..], '-');
      parts[1]
    else
      ""
  }

  /** The extension stays part of the token: `a-b.fbx` yields `b.fbx`. */
  lemma ExtensionKept()
    ensures GetSkeletonType("a-b.fbx") == "b.fbx"
  {
    assert IndexOf("a-b.fbx", '-') == 1;
    assert "a-b.fbx"[2..] == "b.fbx";
    assert '-' !in "b.fbx";
  }

  /** On a lowercase, dot-free name with a `-`, both variants of `get_skeleton_type` agree. */
  lemma AgreesWithParsedVariant(fileName: string)
    requires NoUpper(fileName) && '.' !in fileName && '-' in fileName
    ensures GetSkeletonType(fileName) == PathOps.GetSkeletonType(fileName)
  {
    LowerOfLower(fileName);
    var k := IndexOf(fileName, '-');
    assert Split(fileName, '-') == [fileName[..k]] + Split(fileName[k + 1..], '-');
    assert PathOps.NameParts(fileName, '-') == Split(fileName, '-');
  }
}
