/** The few JavaScript string operations the forms rely on: the regular
    expression class `\s`, `String.prototype.trim` and `includes`. */
module Text {

  /** A character of JavaScript's `\s` class (WhiteSpace and LineTerminator),
      the same set that `trim()` removes. */
  predicate IsWhitespace(c: char) {
    || c == ' ' || c == '\t' || c == '\n' || c == '\r'
    || c == '\U{000B}' || c == '\U{000C}'
    || c == '\U{00A0}' || c == '\U{1680}'
    || ('\U{2000}' <= c <= '\U{200A}')
    || c == '\U{2028}' || c == '\U{2029}' || c == '\U{202F}'
    || c == '\U{205F}' || c == '\U{3000}' || c == '\U{FEFF}'
  }

  /** Every character is whitespace (true of the empty string). */
  predicate Blank(s: string) {
    forall i :: 0 <= i < |s| ==> IsWhitespace(s[i])
  }

  /** `s.trimStart()` */
  function TrimStart(s: string): (r: string)
    ensures |r| <= |s| && r == s[|s| - |r|..]
    ensures Blank(s[..|s| - |r|])
    ensures r == [] || !IsWhitespace(r[0])
  {
    if s == [] || !IsWhitespace(s[0]) then s
    else
      var r := TrimStart(s[1..]);
      assert s[1..][..|s| - 1 - |r|] == s[1..|s| - |r|];
      r
  }

  /** `s.trimEnd()` */
  function TrimEnd(s: string): (r: string)
    ensures |r| <= |s| && r == s[..|r|]
    ensures Blank(s[|r|..])
    ensures r == [] || !IsWhitespace(r[|r| - 1])
  {
    if s == [] || !IsWhitespace(s[|s| - 1]) then s
    else
      var r := TrimEnd(s[..|s| - 1]);
      assert s[..|s| - 1][|r|..] == s[|r|..|s| - 1];
      r
  }

  /** `r` is `s` with the blank text before index `a` and after `r` removed. */
  predicate TrimmedAt(s: string, r: string, a: int) {
    && 0 <= a <= |s| - |r|
    && r == s[a..a + |r|]
    && Blank(s[..a]) && Blank(s[a + |r|..])
  }

  /** `s.trim()` */
  function Trim(s: string): (r: string)
    ensures |r| <= |s|
    ensures r == [] || (!IsWhitespace(r[0]) && !IsWhitespace(r[|r| - 1]))
  {
    TrimEnd(TrimStart(s))
  }

  /** `trim()` removes blank text at both ends and nothing else: its result
      is a slice of `s` with only whitespace before and after it. */
  lemma TrimDropsBlankEnds(s: string)
    ensures exists a :: TrimmedAt(s, Trim(s), a)
  {
    BlankEndsCompose(s, TrimStart(s), Trim(s));
  }

  /** Dropping a blank prefix and then a blank suffix drops blank text at
      both ends of the original. */
  lemma BlankEndsCompose(s: string, t: string, r: string)
    requires |t| <= |s| && t == s[|s| - |t|..] && Blank(s[..|s| - |t|])
    requires |r| <= |t| && r == t[..|r|] && Blank(t[|r|..])
    ensures TrimmedAt(s, r, |s| - |t|)
  {
    var a := |s| - |t|;
    assert r == s[a..a + |r|];
    assert s[a + |r|..] == t[|r|..];
  }

  /** Trimming leaves nothing exactly when the text is all whitespace. */
  lemma TrimEmptyIffBlank(s: string)
    ensures Trim(s) == "" <==> Blank(s)
  {
    var t := TrimStart(s);
    if Trim(s) == "" {
      // `trimEnd` dropped all of `t`, which starts with no whitespace.
      assert Blank(t[0..]) && t[0..] == t;
      assert t == [];
      assert s[..|s|] == s;
    }
  }

  /** `part` occurs in `s` starting at index `i`. */
  predicate OccursAt(s: string, part: string, i: int) {
    0 <= i <= |s| - |part| && s[i..i + |part|] == part
  }

  /** `s.includes(part)` */
  function Contains(s: string, part: string): (found: bool)
    ensures part == "" ==> found
    ensures s == part ==> found
    ensures found ==> |part| <= |s|
  {
    assert part == "" || s == part ==> OccursAt(s, part, 0);
    exists i | 0 <= i <= |s| - |part| :: OccursAt(s, part, i)
  }
}
