/** The part of `pathlib.Path.glob` that the add-on uses: matching one file name
    against a pattern in which `?` stands for any one character and `*` for any
    run of characters; every other character matches itself. */
module Glob {

  function Match(p: string, s: string): bool
    decreases |p| + |s|
  {
    if |p| == 0 then |s| == 0
    else if p[0] == '*' then Match(p[1..], s) || (|s| > 0 && Match(p, s[1..]))
    else |s| > 0 && (p[0] == '?' || p[0] == s[0]) && Match(p[1..], s[1..])
  }

  /** `*` matches every name. */
  lemma {:induction false} StarMatchesAll(s: string)
    ensures Match("*", s)
  {
    if |s| > 0 {
      StarMatchesAll(s[1..]);
    } else {
      assert "*"[1..] == "";
    }
  }

  /** A pattern that matches `s` also matches `s` behind any prefix it is itself put behind. */
  lemma {:induction false} MatchPrefix(lit: string, p: string, s: string)
    requires Match(p, s)
    ensures Match(lit + p, lit + s)
  {
    if |lit| > 0 {
      MatchPrefix(lit[1..], p, s);
      assert (lit + p)[1..] == lit[1..] + p;
      assert (lit + s)[1..] == lit[1..] + s;
      assert (lit + p)[0] == lit[0] == (lit + s)[0];
      if lit[0] == '*' {
        StarSkipOne(lit + p, lit + s);
      }
    } else {
      assert lit + p == p && lit + s == s;
    }
  }

  /** A leading `*` may match one character, the same character the text starts with. */
  lemma StarSkipOne(p: string, s: string)
    requires |p| > 0 && |s| > 0 && p[0] == '*' && Match(p[1..], s[1..])
    ensures Match(p, s)
  {
    assert Match(p, s[1..]);
  }

  /** `?` matches any one character. */
  lemma AnyMatchesOne(p: string, c: char, s: string)
    requires Match(p, s)
    ensures Match("?" + p, [c] + s)
  {
    assert ("?" + p)[1..] == p;
    assert ([c] + s)[1..] == s;
  }
}
