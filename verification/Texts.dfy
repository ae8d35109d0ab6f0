/** White space as .NET knows it (string.IsNullOrWhiteSpace, string.Trim). It is not the set that
    String.trim of the client removes. */
module Texts {

  predicate IsWhiteSpace(c: char) {
    || '\t' <= c <= '\r' || c == ' ' || c == '\U{0085}'
    || c == '\U{00A0}' || c == '\U{1680}' || '\U{2000}' <= c <= '\U{200A}' || c == '\U{2028}' || c == '\U{2029}'
    || c == '\U{202F}' || c == '\U{205F}' || c == '\U{3000}'
  }

  predicate Blank(s: string) {
    forall c :: c in s ==> IsWhiteSpace(c)
  }

  function WithoutStart(s: string): (r: string)
    ensures |r| <= |s|
    ensures r == "" || !IsWhiteSpace(r[0])
    ensures r == "" <==> Blank(s)
  {
    if s != "" && IsWhiteSpace(s[0]) then
      assert s == [s[0]] + s[1..];
      WithoutStart(s[1..])
    else
      assert s != "" ==> s[0] in s;
      s
  }

  function WithoutEnd(s: string): (r: string)
    ensures r <= s
    ensures r == "" || !IsWhiteSpace(r[|r| - 1])
    ensures r == "" <==> Blank(s)
  {
    if s != "" && IsWhiteSpace(s[|s| - 1]) then
      assert s == s[..|s| - 1] + [s[|s| - 1]];
      WithoutEnd(s[..|s| - 1])
    else
      assert s != "" ==> s[|s| - 1] in s;
      s
  }

  /** What is left begins and ends with something visible, and is empty only for a blank text. */
  function Trimmed(s: string): (r: string)
    ensures |r| <= |s|
    ensures r == "" || (!IsWhiteSpace(r[0]) && !IsWhiteSpace(r[|r| - 1]))
    ensures r == "" <==> Blank(s)
  {
    var rest := WithoutStart(s);
    assert rest != "" ==> rest[0] in rest;
    WithoutEnd(rest)
  }

  lemma {:induction false} StartCut(s: string) returns (before: string)
    ensures s == before + WithoutStart(s) && Blank(before)
  {
    if s != "" && IsWhiteSpace(s[0]) {
      var rest := StartCut(s[1..]);
      before := [s[0]] + rest;
      assert s == [s[0]] + s[1..];
    } else {
      before := "";
    }
  }

  lemma {:induction false} EndCut(s: string) returns (after: string)
    ensures s == WithoutEnd(s) + after && Blank(after)
  {
    if s != "" && IsWhiteSpace(s[|s| - 1]) {
      var rest := EndCut(s[..|s| - 1]);
      after := rest + [s[|s| - 1]];
      assert s == s[..|s| - 1] + [s[|s| - 1]];
    } else {
      after := "";
    }
  }

  /** Only white space at either end is cut off. */
  lemma TrimmedMiddle(s: string) returns (before: string, after: string)
    ensures s == before + Trimmed(s) + after && Blank(before) && Blank(after)
  {
    before := StartCut(s);
    after := EndCut(WithoutStart(s));
  }
}
