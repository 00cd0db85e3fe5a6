/** Facts about strings glued together with slashes, blank strings and lines. */
module Strings {
  import opened Wrappers

  // ---------------------------------------------------------------- slash-joined strings

  predicate SlashFree(s: string) {
    '/' !in s
  }

  /** Both the cache key of an object and the tail of a portal path have this shape. */
  function Join(left: string, right: string): string {
    left + "/" + right
  }

  /** Two joins are equal exactly when they agree part by part, or when one slash of the longer
      right part was read as the joining slash of the other pair. */
  lemma JoinCollision(left1: string, right1: string, left2: string, right2: string)
    requires |right1| <= |right2|
    ensures Join(left1, right1) == Join(left2, right2) <==>
            (left1 == left2 && right1 == right2) ||
            exists m :: right2 == Join(m, right1) && left1 == Join(left2, m)
  {
    if Join(left1, right1) == Join(left2, right2) && |right1| < |right2| {
      JoinOverlap(left1, right1, left2, right2);
    } else if Join(left1, right1) == Join(left2, right2) {
      var whole := Join(left1, right1);
      assert left1 == whole[..|left1|] == left2;
      assert right1 == whole[|left1| + 1..] == right2;
    }
    forall m | right2 == Join(m, right1) && left1 == Join(left2, m)
      ensures Join(left1, right1) == Join(left2, right2)
    {
      assert left2 + "/" + m + "/" + right1 == left2 + "/" + (m + "/" + right1);
    }
  }

  lemma JoinOverlap(left1: string, right1: string, left2: string, right2: string)
    requires |right1| < |right2|
    requires Join(left1, right1) == Join(left2, right2)
    ensures exists m :: right2 == Join(m, right1) && left1 == Join(left2, m)
  {
    var whole := Join(left1, right1);
    var m := whole[|left2| + 1..|left1|];
    assert whole[|left1|] == '/' && whole[|left2|] == '/';
    assert left1 == whole[..|left1|] == whole[..|left2|] + [whole[|left2|]] + m;
    assert left2 == whole[..|left2|];
    assert right2 == whole[|left2| + 1..] == m + [whole[|left1|]] + whole[|left1| + 1..];
    assert right1 == whole[|left1| + 1..];
    assert right2 == Join(m, right1) && left1 == Join(left2, m);
  }

  lemma JoinHasSlash(left: string, right: string)
    ensures !SlashFree(Join(left, right))
  {
    assert Join(left, right)[|left|] == '/';
  }

  /** No collision is left once both right parts, or both left parts, are free of slashes. */
  lemma JoinInjective(left1: string, right1: string, left2: string, right2: string)
    requires Join(left1, right1) == Join(left2, right2)
    requires (SlashFree(right1) && SlashFree(right2)) || (SlashFree(left1) && SlashFree(left2))
    ensures left1 == left2 && right1 == right2
  {
    if |right1| <= |right2| {
      JoinCollision(left1, right1, left2, right2);
      if m :| right2 == Join(m, right1) && left1 == Join(left2, m) {
        JoinHasSlash(m, right1);
        JoinHasSlash(left2, m);
      }
    } else {
      JoinCollision(left2, right2, left1, right1);
      if m :| right1 == Join(m, right2) && left2 == Join(left1, m) {
        JoinHasSlash(m, right2);
        JoinHasSlash(left1, m);
      }
    }
  }

  // ---------------------------------------------------------------- blank strings

  /** The characters with the Unicode White_Space property. */
  predicate IsSpace(c: char) {
    var n := c as int;
    0x09 <= n <= 0x0d || n == 0x20 || n == 0x85 || n == 0xa0 || n == 0x1680 ||
    0x2000 <= n <= 0x200a || n == 0x2028 || n == 0x2029 || n == 0x202f || n == 0x205f || n == 0x3000
  }

  function TrimLeft(s: string): string {
    if s != "" && IsSpace(s[0]) then TrimLeft(s[1..]) else s
  }

  function TrimRight(s: string): string {
    if s != "" && IsSpace(s[|s| - 1]) then TrimRight(s[..|s| - 1]) else s
  }

  function TrimSpace(s: string): string {
    TrimRight(TrimLeft(s))
  }

  /** Nothing but white space. */
  predicate IsBlank(s: string) {
    forall i :: 0 <= i < |s| ==> IsSpace(s[i])
  }

  lemma {:induction false} TrimLeftKeeps(s: string, i: nat)
    requires i < |s| && !IsSpace(s[i])
    ensures TrimLeft(s) != "" && !IsSpace(TrimLeft(s)[0])
  {
    if i == 0 {
    } else if IsSpace(s[0]) {
      TrimLeftKeeps(s[1..], i - 1);
    }
  }

  lemma {:induction false} TrimRightKeeps(s: string, i: nat)
    requires i < |s| && !IsSpace(s[i])
    ensures TrimRight(s) != ""
  {
    if i == |s| - 1 {
    } else if IsSpace(s[|s| - 1]) {
      TrimRightKeeps(s[..|s| - 1], i);
    }
  }

  lemma {:induction false} TrimLeftOfSpaces(s: string)
    requires IsBlank(s)
    ensures TrimLeft(s) == ""
  {
    if s == "" {
    } else {
      TrimLeftOfSpaces(s[1..]);
    }
  }

  /** The guard in front of every portal request: trimming leaves nothing exactly when there was nothing
      but white space. */
  predicate IsEmptyString(s: string)
    ensures IsEmptyString(s) <==> IsBlank(s)
  {
    TrimmedAwayIffBlank(s);
    TrimSpace(s) == ""
  }

  lemma TrimmedAwayIffBlank(s: string)
    ensures TrimSpace(s) == "" <==> IsBlank(s)
  {
    if i: nat :| i < |s| && !IsSpace(s[i]) {
      TrimLeftKeeps(s, i);
      TrimRightKeeps(TrimLeft(s), 0);
    } else {
      TrimLeftOfSpaces(s);
    }
  }

  const WHITE_SPACE := {'\t', '\n', '\U{000B}', '\U{000C}', '\r', ' ', '\U{0085}', '\U{00A0}', '\U{1680}', '\U{2000}',
                        '\U{2001}', '\U{2002}', '\U{2003}', '\U{2004}', '\U{2005}', '\U{2006}', '\U{2007}',
                        '\U{2008}', '\U{2009}', '\U{200A}', '\U{2028}', '\U{2029}', '\U{202F}', '\U{205F}',
                        '\U{3000}'}

  /** The 25 characters that do not count, by name. */
  lemma EmptyMeansWhiteSpace(s: string)
    ensures IsEmptyString(s) <==> forall c :: c in s ==> c in WHITE_SPACE
  {
    forall c: char ensures IsSpace(c) <==> c in WHITE_SPACE {
    }
  }

  // ---------------------------------------------------------------- prefixes and lines

  predicate NewlineFree(s: string) {
    '\n' !in s
  }

  function StripPrefix(prefix: string, s: string): (rest: Option<string>)
    ensures rest.Some? <==> prefix <= s
    ensures rest.Some? ==> s == prefix + rest.value
  {
    if prefix <= s then Some(s[|prefix|..]) else None
  }

  /** Cuts a string at the first occurrence of a character. */
  function Cut(s: string, c: char): (cut: Option<(string, string)>)
    ensures cut.None? <==> c !in s
    ensures cut.Some? ==> c !in cut.value.0 && s == cut.value.0 + [c] + cut.value.1
  {
    if s == "" then None
    else if s[0] == c then Some(("", s[1..]))
    else
      match Cut(s[1..], c)
      case None => None
      case Some((left, right)) => Some(([s[0]] + left, right))
  }

  lemma {:induction false} CutFinds(left: string, c: char, right: string)
    requires c !in left
    ensures Cut(left + [c] + right, c) == Some((left, right))
  {
    var whole := left + [c] + right;
    if left == "" {
      assert whole[1..] == right;
    } else {
      assert whole[1..] == left[1..] + [c] + right;
      CutFinds(left[1..], c, right);
      assert left == [whole[0]] + left[1..];
    }
  }

  /** Cuts a string at the last occurrence of a character. */
  function CutLast(s: string, c: char): (cut: Option<(string, string)>)
    ensures cut.None? <==> c !in s
    ensures cut.Some? ==> c !in cut.value.1 && s == cut.value.0 + [c] + cut.value.1
  {
    if s == "" then None
    else if s[|s| - 1] == c then Some((s[..|s| - 1], ""))
    else
      match CutLast(s[..|s| - 1], c)
      case None => None
      case Some((left, right)) => Some((left, right + [s[|s| - 1]]))
  }
}
