/**
 * The string operations the code base uses: `strip`/`trim`, `lower`/`toLowerCase`,
 * `in`/`includes`, `startswith`, `split`, `join` and `replace(pat, '')`.
 * JavaScript's `trim` and Python's `strip` each drop their own language's whitespace; case
 * mapping is ASCII only.
 */
module Text {

  import opened Seqs

  /** The whitespace both languages share above U+00A0: the Unicode space separators and U+2028/U+2029. */
  predicate IsWideSpace(c: char) {
    || c == '\U{A0}' || c == '\U{1680}' || '\U{2000}' <= c <= '\U{200A}' || c == '\U{2028}' || c == '\U{2029}'
    || c == '\U{202F}' || c == '\U{205F}' || c == '\U{3000}'
  }

  /** What JavaScript's `trim` drops: the WhiteSpace and LineTerminator code points of ECMAScript. */
  predicate IsSpace(c: char) {
    || '\t' <= c <= '\r' || c == ' '
    || ('\U{A0}' <= c && (IsWideSpace(c) || c == '\U{FEFF}'))
  }

  /**
   * What Python's `str.strip()` drops: the characters `str.isspace()` accepts. Unlike JavaScript
   * it includes the separators U+001C..U+001F and U+0085, and excludes U+FEFF.
   */
  predicate IsPySpace(c: char) {
    || '\t' <= c <= '\r' || '\U{1C}' <= c <= ' '
    || c == '\U{85}' || ('\U{A0}' <= c && IsWideSpace(c))
  }

  /** Every character is whitespace (the empty string included). */
  predicate Blank(s: string) {
    forall k :: 0 <= k < |s| ==> IsSpace(s[k])
  }

  /** Drops leading whitespace: the result is the longest suffix that does not start with whitespace. */
  function TrimStart(s: string): (r: string)
    ensures |r| <= |s| && r == s[|s| - |r|..]
    ensures r == [] || !IsSpace(r[0])
    ensures forall k :: 0 <= k < |s| - |r| ==> IsSpace(s[k])
  {
    if |s| > 0 && IsSpace(s[0]) then
      var rest := TrimStart(s[1..]);
      assert s[1..][|s| - 1 - |rest|..] == s[|s| - |rest|..];
      assert forall k :: 1 <= k < |s| - |rest| ==> s[k] == s[1..][k - 1];
      rest
    else s
  }

  /** Drops trailing whitespace: the result is the longest prefix that does not end with whitespace. */
  function TrimEnd(s: string): (r: string)
    ensures |r| <= |s| && r == s[..|r|]
    ensures r == [] || !IsSpace(r[|r| - 1])
    ensures forall k :: |r| <= k < |s| ==> IsSpace(s[k])
  {
    if |s| > 0 && IsSpace(s[|s| - 1]) then
      var rest := TrimEnd(s[..|s| - 1]);
      assert s[..|s| - 1][..|rest|] == s[..|rest|];
      assert forall k :: |rest| <= k < |s| - 1 ==> s[k] == s[..|s| - 1][k];
      rest
    else s
  }

  /** JavaScript's `String.prototype.trim()`. */
  function Trim(s: string): (r: string)
    ensures |r| <= |s|
    ensures r == [] || (!IsSpace(r[0]) && !IsSpace(r[|r| - 1]))
    ensures r == [] <==> Blank(s)
  {
    var t := TrimStart(s);
    assert t == [] ==> Blank(s);
    assert Blank(s) ==> t == [];
    TrimEnd(t)
  }

  /** Trimming keeps only characters of the text. */
  lemma TrimKeepsCharacters(s: string)
    ensures forall c :: c in Trim(s) ==> c in s
  {
    var t := TrimStart(s);
    var r := TrimEnd(t);
    assert Trim(s) == r;
    var d := |s| - |t|;
    assert r == s[d..d + |r|];
    SliceMembers(s, d, d + |r|);
  }

  lemma {:induction false} TrimIdempotent(s: string)
    ensures Trim(Trim(s)) == Trim(s)
  {
    var r := Trim(s);
    assert TrimStart(r) == r;
    assert TrimEnd(r) == r;
  }

  /** Drops leading Python whitespace: the longest suffix that does not start with it. */
  function StripStart(s: string): (r: string)
    ensures |r| <= |s| && r == s[|s| - |r|..]
    ensures r == [] || !IsPySpace(r[0])
    ensures forall k :: 0 <= k < |s| - |r| ==> IsPySpace(s[k])
  {
    if |s| > 0 && IsPySpace(s[0]) then
      var rest := StripStart(s[1..]);
      assert s[1..][|s| - 1 - |rest|..] == s[|s| - |rest|..];
      assert forall k :: 1 <= k < |s| - |rest| ==> s[k] == s[1..][k - 1];
      rest
    else s
  }

  /** Drops trailing Python whitespace: the longest prefix that does not end with it. */
  function StripEnd(s: string): (r: string)
    ensures |r| <= |s| && r == s[..|r|]
    ensures r == [] || !IsPySpace(r[|r| - 1])
    ensures forall k :: |r| <= k < |s| ==> IsPySpace(s[k])
  {
    if |s| > 0 && IsPySpace(s[|s| - 1]) then
      var rest := StripEnd(s[..|s| - 1]);
      assert s[..|s| - 1][..|rest|] == s[..|rest|];
      assert forall k :: |rest| <= k < |s| - 1 ==> s[k] == s[..|s| - 1][k];
      rest
    else s
  }

  /** Python's `str.strip()`. */
  function Strip(s: string): (r: string)
    ensures |r| <= |s|
    ensures r == [] || (!IsPySpace(r[0]) && !IsPySpace(r[|r| - 1]))
    ensures r == [] <==> forall k :: 0 <= k < |s| ==> IsPySpace(s[k])
  {
    var t := StripStart(s);
    StripEnd(t)
  }

  /** Stripping keeps only characters of the text. */
  lemma StripKeepsCharacters(s: string)
    ensures forall c :: c in Strip(s) ==> c in s
  {
    var t := StripStart(s);
    var r := StripEnd(t);
    assert Strip(s) == r;
    var d := |s| - |t|;
    assert r == s[d..d + |r|];
    SliceMembers(s, d, d + |r|);
  }

  lemma {:induction false} StripIdempotent(s: string)
    ensures Strip(Strip(s)) == Strip(s)
  {
    var r := Strip(s);
    assert StripStart(r) == r;
    assert StripEnd(r) == r;
  }

  /** The separators U+001C..U+001F are stripped by Python but kept by JavaScript's `trim`. */
  lemma SeparatorsDiffer(c: char)
    requires '\U{1C}' <= c <= '\U{1F}'
    ensures Strip([c]) == [] && Trim([c]) == [c]
  {
    assert IsPySpace(c) && !IsSpace(c);
    assert StripStart([c]) == StripStart([]);
  }

  function LowerChar(c: char): char {
    if 'A' <= c <= 'Z' then (c as int + 32) as char else c
  }

  /** `str.lower()` and `String.prototype.toLowerCase()`, for ASCII letters. */
  function Lower(s: string): (r: string)
    ensures |r| == |s|
    ensures forall k :: 0 <= k < |s| ==> r[k] == LowerChar(s[k])
  {
    if s == [] then [] else [LowerChar(s[0])] + Lower(s[1..])
  }

  lemma LowerOfSlice(s: string, i: nat, j: nat)
    requires i <= j <= |s|
    ensures Lower(s[i..j]) == Lower(s)[i..j]
  {
    var a, b := Lower(s[i..j]), Lower(s)[i..j];
    forall k | 0 <= k < j - i
      ensures a[k] == b[k]
    {
      assert s[i..j][k] == s[i + k];
    }
    assert a == b;
  }

  lemma LowerAppend(a: string, b: string)
    ensures Lower(a + b) == Lower(a) + Lower(b)
  {
    var l, la, lb := Lower(a + b), Lower(a), Lower(b);
    forall k | 0 <= k < |a|
      ensures l[k] == (la + lb)[k]
    {
      assert (a + b)[k] == a[k];
    }
    forall k | |a| <= k < |a| + |b|
      ensures l[k] == (la + lb)[k]
    {
      assert (a + b)[k] == b[k - |a|];
    }
    assert l == la + lb;
  }

  /** Lower-casing neither makes nor unmakes whitespace. */
  lemma BlankLower(s: string)
    ensures Blank(Lower(s)) <==> Blank(s)
  {
    var l := Lower(s);
    forall k | 0 <= k < |s|
      ensures IsSpace(l[k]) <==> IsSpace(s[k])
    {
      assert l[k] == LowerChar(s[k]);
    }
  }

  /** Text without capital letters is its own lower-case form. */
  lemma LowerWithoutCapitals(s: string)
    requires forall k :: 0 <= k < |s| ==> !('A' <= s[k] <= 'Z')
    ensures Lower(s) == s
  {
  }

  lemma LowerIdempotent(s: string)
    ensures Lower(Lower(s)) == Lower(s)
  {
  }

  /** `t` occurs in `s` starting at index `i`. */
  predicate OccursAt(s: string, t: string, i: nat) {
    i + |t| <= |s| && s[i..i + |t|] == t
  }

  /** Python's `t in s` and JavaScript's `s.includes(t)`. */
  predicate Contains(s: string, t: string) {
    exists i: nat | i <= |s| :: OccursAt(s, t, i)
  }

  /** A one-character pattern occurs exactly when the character does. */
  lemma ContainsChar(s: string, c: char)
    ensures Contains(s, [c]) <==> c in s
  {
    if Contains(s, [c]) {
      var i: nat :| i <= |s| && OccursAt(s, [c], i);
      assert s[i..i + 1][0] == s[i];
    }
    if c in s {
      var k :| 0 <= k < |s| && s[k] == c;
      assert OccursAt(s, [c], k);
    }
  }

  /** `s.startswith(p)` / `s.startsWith(p)`. */
  predicate StartsWith(s: string, p: string) {
    |p| <= |s| && s[..|p|] == p
  }

  /** Containment is transitive: a substring of a substring is a substring. */
  lemma ContainsTransitive(s: string, t: string, u: string)
    requires Contains(s, t) && Contains(t, u)
    ensures Contains(s, u)
  {
    var i: nat :| i <= |s| && OccursAt(s, t, i);
    var j: nat :| j <= |t| && OccursAt(t, u, j);
    forall k | 0 <= k < |u|
      ensures s[i + j + k] == u[k]
    {
      assert u[k] == t[j + k];
      assert t[j + k] == s[i..i + |t|][j + k];
    }
    assert s[i + j..i + j + |u|] == u;
    assert OccursAt(s, u, i + j);
  }

  /** Lower-casing both sides keeps an occurrence. */
  lemma ContainsLower(s: string, t: string)
    requires Contains(s, t)
    ensures Contains(Lower(s), Lower(t))
  {
    var i: nat :| i <= |s| && OccursAt(s, t, i);
    LowerOfSlice(s, i, i + |t|);
    assert OccursAt(Lower(s), Lower(t), i);
  }

  /** A pattern without capitals is still found after lower-casing the text. */
  lemma ContainsLowerPattern(s: string, t: string)
    requires Contains(s, t)
    requires forall k :: 0 <= k < |t| ==> !('A' <= t[k] <= 'Z')
    ensures Contains(Lower(s), t)
  {
    ContainsLower(s, t);
    LowerWithoutCapitals(t);
  }

  /**
   * Python's `s.split(sep)` and JavaScript's `s.split(sep)` for a one-character separator:
   * the pieces between separators, at least one, none holding the separator.
   */
  function Split(s: string, sep: char): (parts: seq<string>)
    ensures |parts| >= 1
    ensures forall k :: 0 <= k < |parts| ==> sep !in parts[k]
    ensures |parts[0]| <= |s| && parts[0] == s[..|parts[0]|]
    ensures |parts[0]| < |s| ==> s[|parts[0]|] == sep
  {
    if s == [] then [""]
    else
      var rest := Split(s[1..], sep);
      if s[0] == sep then [""] + rest else [[s[0]] + rest[0]] + rest[1..]
  }

  /** Python's `sep.join(parts)` and JavaScript's `parts.join(sep)`. */
  function Join(parts: seq<string>, sep: string): string {
    if |parts| == 0 then ""
    else if |parts| == 1 then parts[0]
    else parts[0] + sep + Join(parts[1..], sep)
  }

  /** Splitting then joining with the same separator gives the text back. */
  lemma {:induction false} JoinSplit(s: string, sep: char)
    ensures Join(Split(s, sep), [sep]) == s
  {
    if s != [] {
      var rest := Split(s[1..], sep);
      JoinSplit(s[1..], sep);
      if s[0] == sep {
        assert Split(s, sep) == [""] + rest;
        assert ([""] + rest)[1..] == rest;
      } else {
        var parts := [[s[0]] + rest[0]] + rest[1..];
        assert Split(s, sep) == parts;
        if |rest| > 1 {
          assert parts[1..] == rest[1..];
          assert Join(rest, [sep]) == rest[0] + [sep] + Join(rest[1..], [sep]);
        }
      }
    }
  }

  lemma BlankConcat(a: string, b: string)
    ensures Blank(a + b) <==> Blank(a) && Blank(b)
  {
    if Blank(a + b) {
      forall k | 0 <= k < |a|
        ensures IsSpace(a[k])
      {
        assert a[k] == (a + b)[k];
      }
      forall k | 0 <= k < |b|
        ensures IsSpace(b[k])
      {
        assert b[k] == (a + b)[|a| + k];
      }
    }
    if Blank(a) && Blank(b) {
      forall k | 0 <= k < |a + b|
        ensures IsSpace((a + b)[k])
      {
        if k >= |a| {
          assert (a + b)[k] == b[k - |a|];
        }
      }
    }
  }

  /** Every piece of a blank text's split is blank, whatever the separator. */
  lemma {:induction false} PiecesOfBlank(s: string, sep: char)
    requires Blank(s)
    ensures forall k :: 0 <= k < |Split(s, sep)| ==> Blank(Split(s, sep)[k])
  {
    if s != [] {
      assert s == [s[0]] + s[1..];
      BlankConcat([s[0]], s[1..]);
      var rest := Split(s[1..], sep);
      PiecesOfBlank(s[1..], sep);
      if s[0] != sep {
        var parts := [[s[0]] + rest[0]] + rest[1..];
        assert Split(s, sep) == parts;
        assert Blank(rest[0]);
        BlankConcat([s[0]], rest[0]);
        forall k | 0 <= k < |parts|
          ensures Blank(parts[k])
        {
          if k > 0 {
            assert parts[k] == rest[k];
          }
        }
      } else {
        var parts := [""] + rest;
        assert Split(s, sep) == parts;
        forall k | 0 <= k < |parts|
          ensures Blank(parts[k])
        {
          if k > 0 {
            assert parts[k] == rest[k - 1];
          }
        }
      }
    }
  }

  /** A text whose pieces are all blank is blank when the separator is whitespace. */
  lemma {:induction false} BlankOfPieces(s: string, sep: char)
    requires IsSpace(sep)
    requires forall k :: 0 <= k < |Split(s, sep)| ==> Blank(Split(s, sep)[k])
    ensures Blank(s)
  {
    if s != [] {
      assert s == [s[0]] + s[1..];
      var rest := Split(s[1..], sep);
      if s[0] != sep {
        var parts := [[s[0]] + rest[0]] + rest[1..];
        assert Split(s, sep) == parts;
        assert Blank(parts[0]);
        BlankConcat([s[0]], rest[0]);
        forall k | 0 <= k < |rest|
          ensures Blank(rest[k])
        {
          if k > 0 {
            assert rest[k] == parts[k];
          }
        }
      } else {
        var parts := [""] + rest;
        assert Split(s, sep) == parts;
        forall k | 0 <= k < |rest|
          ensures Blank(rest[k])
        {
          assert rest[k] == parts[k + 1];
        }
        assert Blank([s[0]]);
      }
      BlankOfPieces(s[1..], sep);
      BlankConcat([s[0]], s[1..]);
    }
  }

  /** With a whitespace separator, a text is blank exactly when every piece of its split is. */
  lemma {:induction false} BlankIffPiecesBlank(s: string, sep: char)
    requires IsSpace(sep)
    ensures Blank(s) ==> forall k :: 0 <= k < |Split(s, sep)| ==> Blank(Split(s, sep)[k])
    ensures (forall k :: 0 <= k < |Split(s, sep)| ==> Blank(Split(s, sep)[k])) ==> Blank(s)
  {
    if Blank(s) {
      PiecesOfBlank(s, sep);
    } else if forall k :: 0 <= k < |Split(s, sep)| ==> Blank(Split(s, sep)[k]) {
      BlankOfPieces(s, sep);
    }
  }

  /** Python's `s.replace(pat, '')`: removes the non-overlapping occurrences of `pat`, scanning left to right. */
  function RemoveAll(s: string, pat: string): (r: string)
    requires pat != []
    ensures |r| <= |s|
    ensures forall c :: c in r ==> c in s
    decreases |s|
  {
    if |s| < |pat| then s
    else if s[..|pat|] == pat then RemoveAll(s[|pat|..], pat)
    else [s[0]] + RemoveAll(s[1..], pat)
  }

  /** Removing a one-character pattern leaves no occurrence of that character. */
  lemma {:induction false} RemoveAllChar(s: string, c: char)
    ensures c !in RemoveAll(s, [c])
    decreases |s|
  {
    if |s| >= 1 {
      if s[..1] == [c] {
        RemoveAllChar(s[1..], c);
      } else {
        RemoveAllChar(s[1..], c);
        assert s[0] != c;
      }
    }
  }

  /** An occurrence in the tail is an occurrence in the whole. */
  lemma ContainsTail(s: string, t: string)
    requires |s| > 0 && Contains(s[1..], t)
    ensures Contains(s, t)
  {
    var i: nat :| i <= |s[1..]| && OccursAt(s[1..], t, i);
    assert s[i + 1..i + 1 + |t|] == s[1..][i..i + |t|];
    assert OccursAt(s, t, i + 1);
  }

  lemma {:induction false} RemoveAllUnlessContained(s: string, pat: string)
    requires pat != []
    ensures Contains(s, pat) || RemoveAll(s, pat) == s
    decreases |s|
  {
    if |s| >= |pat| {
      if s[..|pat|] == pat {
        assert OccursAt(s, pat, 0);
      } else {
        RemoveAllUnlessContained(s[1..], pat);
        if Contains(s[1..], pat) {
          ContainsTail(s, pat);
        }
      }
    }
  }

  /** Text without the pattern comes back unchanged. */
  lemma RemoveAllAbsent(s: string, pat: string)
    requires pat != []
    requires !Contains(s, pat)
    ensures RemoveAll(s, pat) == s
  {
    RemoveAllUnlessContained(s, pat);
  }
}
