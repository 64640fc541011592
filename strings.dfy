/** JavaScript string rules the pages rely on: `trim()`, blank tests and truthiness. */
module Strings {
  import opened Wrappers

  /** The characters `String.prototype.trim` removes: WhiteSpace (tab, vertical tab,
      form feed, space, no-break space, byte order mark, and the other Unicode
      space separators) and LineTerminator (line feed, carriage return, line and
      paragraph separators), as in section 22.1.3.32 of ECMA-262. */
  predicate IsSpace(c: char)
  {
    || c == '\t' || c == '\U{B}' || c == '\U{C}' || c == ' ' || c == '\U{A0}' || c == '\U{FEFF}'
    || c == '\n' || c == '\r' || c == '\U{2028}' || c == '\U{2029}'
    || c == '\U{1680}' || ('\U{2000}' <= c <= '\U{200A}') || c == '\U{202F}' || c == '\U{205F}'
    || c == '\U{3000}'
  }

  predicate AllSpace(s: string)
  {
    forall i :: 0 <= i < |s| ==> IsSpace(s[i])
  }

  /** `s` without its leading whitespace: a suffix of `s` that is empty or starts with a non-space. */
  function TrimStart(s: string): (r: string)
    ensures |r| <= |s| && r == s[|s| - |r|..]
    ensures AllSpace(s[..|s| - |r|])
    ensures r == [] || !IsSpace(r[0])
  {
    if s != [] && IsSpace(s[0]) then
      var r := TrimStart(s[1..]);
      assert s[1..][..|s| - 1 - |r|] == s[1..|s| - |r|];
      r
    else
      s
  }

  /** `s` without its trailing whitespace: a prefix of `s` that is empty or ends with a non-space. */
  function TrimEnd(s: string): (r: string)
    ensures |r| <= |s| && r == s[..|r|]
    ensures AllSpace(s[|r|..])
    ensures r == [] || !IsSpace(r[|r| - 1])
  {
    if s != [] && IsSpace(s[|s| - 1]) then
      var r := TrimEnd(s[..|s| - 1]);
      assert s[..|s| - 1][..|r|] == s[..|r|];
      assert s[|r|..] == s[..|s| - 1][|r|..] + [s[|s| - 1]];
      r
    else
      s
  }

  /** `s.trim()`: the infix of `s` left once whitespace is stripped from both ends. */
  function Trim(s: string): (r: string)
    ensures |r| <= |s|
    ensures r == [] || (!IsSpace(r[0]) && !IsSpace(r[|r| - 1]))
  {
    var t := TrimStart(s);
    var r := TrimEnd(t);
    assert r != [] ==> r[0] == t[0];
    r
  }

  /** `s.trim() === ""` (equivalently `!s.trim()`). */
  predicate IsBlank(s: string)
  {
    Trim(s) == ""
  }

  /** A blank string is exactly one made of whitespace only. */
  lemma BlankIffAllSpace(s: string)
    ensures IsBlank(s) <==> AllSpace(s)
  {
    var t := TrimStart(s);
    if AllSpace(s) {
      AllSpaceTrimsAway(s);
    }
    if IsBlank(s) {
      assert t[|TrimEnd(t)|..] == t;
      AllSpaceStartIsEmpty(t);
      assert s[..|s|] == s;
    }
  }

  lemma {:induction false} AllSpaceTrimsAway(s: string)
    requires AllSpace(s)
    ensures TrimStart(s) == []
  {
    if s != [] {
      AllSpaceTrimsAway(s[1..]);
    }
  }

  lemma AllSpaceStartIsEmpty(r: string)
    requires AllSpace(r)
    requires r == [] || !IsSpace(r[0])
    ensures r == []
  {
  }

  /** Trimming is idempotent: a trimmed string is left as it is. */
  lemma TrimIdempotent(s: string)
    ensures Trim(Trim(s)) == Trim(s)
  {
    var r := Trim(s);
    if r != [] {
      assert TrimStart(r) == r;
      assert TrimEnd(r) == r;
    }
  }

  /** JavaScript truthiness of an optional string: present and not empty. */
  predicate IsPresent(s: Option<string>)
  {
    s.Some? && s.value != ""
  }
}
