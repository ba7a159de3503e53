/** Ordinal string operations of the .NET base library that the editor tools
    rely on: `String.IndexOf`/`String.Contains`, `String.Replace`,
    `String.ToLower` (ASCII letters only) and the `System.IO.Path` helpers,
    with '/' as the only directory separator. */
module Strings {

  /** `t` occurs in `s` starting at index `i`. */
  predicate OccursAt(s: string, t: string, i: int) {
    0 <= i && i + |t| <= |s| && s[i..i + |t|] == t
  }

  /** Reference meaning of "`s` contains `t`". */
  ghost predicate Occurs(s: string, t: string) {
    exists i :: OccursAt(s, t, i)
  }

  /** Ordinal search for the first occurrence of `t` at or after index `i`,
      -1 when there is none. */
  function IndexOfFrom(s: string, t: string, i: nat): (r: int)
    requires i <= |s|
    ensures r == -1 || (i <= r && OccursAt(s, t, r))
    ensures r == -1 ==> forall j :: i <= j ==> !OccursAt(s, t, j)
    ensures r >= 0 ==> forall j :: i <= j < r ==> !OccursAt(s, t, j)
    decreases |s| - i
  {
    if i + |t| > |s| then -1
    else if s[i..i + |t|] == t then i
    else IndexOfFrom(s, t, i + 1)
  }

  function IndexOf(s: string, t: string): int {
    IndexOfFrom(s, t, 0)
  }

  /** `String.Contains(string)`: ordinal, via `IndexOf`. */
  predicate Contains(s: string, t: string) {
    IndexOf(s, t) >= 0
  }

  lemma ContainsIffOccurs(s: string, t: string)
    ensures Contains(s, t) <==> Occurs(s, t)
  {
    if Contains(s, t) {
      assert OccursAt(s, t, IndexOf(s, t));
    }
  }

  /** A string that lacks one character of `t` cannot contain `t`. */
  lemma MissingCharNotContains(s: string, t: string, k: nat)
    requires k < |t| && t[k] !in s
    ensures !Contains(s, t)
  {
    var i := IndexOf(s, t);
  }

  lemma OccursAtWitness(s: string, t: string, i: int)
    requires OccursAt(s, t, i)
    ensures Contains(s, t)
  {
    ContainsIffOccurs(s, t);
  }

  lemma ContainsConcatLeft(a: string, b: string, t: string)
    requires Contains(a, t)
    ensures Contains(a + b, t)
  {
    var i := IndexOf(a, t);
    assert (a + b)[i..i + |t|] == a[i..i + |t|];
    OccursAtWitness(a + b, t, i);
  }

  lemma ContainsConcatRight(a: string, b: string, t: string)
    requires Contains(b, t)
    ensures Contains(a + b, t)
  {
    var i := IndexOf(b, t);
    assert (a + b)[|a| + i..|a| + i + |t|] == b[i..i + |t|];
    OccursAtWitness(a + b, t, |a| + i);
  }

  /** An occurrence in `a + b` that lies in neither part straddles the seam,
      which puts `b[0]` somewhere after the first character of `t`. */
  lemma NoStraddle(a: string, b: string, t: string, i: int)
    requires OccursAt(a + b, t, i) && !OccursAt(a, t, i) && !OccursAt(b, t, i - |a|)
    ensures |b| > 0 && b[0] in t[1..]
  {
    if |a| < i + |t| && i < |a| {
      var m := |a| - i;
      assert (a + b)[i..i + |t|][m] == b[0];
      assert t[1..][m - 1] == t[m];
    }
  }

  /** Containment in a concatenation: an occurrence of `t` cannot straddle the
      seam when the first character of `b` does not reappear after the first
      character of `t`. */
  lemma ContainsConcat(a: string, b: string, t: string)
    requires |t| > 0
    requires |b| == 0 || b[0] !in t[1..]
    ensures Contains(a + b, t) <==> Contains(a, t) || Contains(b, t)
  {
    var i := IndexOf(a + b, t);
    if i >= 0 {
      if !OccursAt(a, t, i) && !OccursAt(b, t, i - |a|) {
        NoStraddle(a, b, t, i);
      } else if OccursAt(a, t, i) {
        OccursAtWitness(a, t, i);
      } else {
        OccursAtWitness(b, t, i - |a|);
      }
    }
    if Contains(a, t) { ContainsConcatLeft(a, b, t); }
    if Contains(b, t) { ContainsConcatRight(a, b, t); }
  }

  /** Appending a string that lacks one of the characters of `t`, and that
      cannot complete an occurrence begun on the left, leaves the answer to
      "does it contain `t`" unchanged. */
  lemma ContainsConcatLeftOnly(a: string, b: string, t: string, k: nat)
    requires k < |t| && t[k] !in b
    requires |b| == 0 || b[0] !in t[1..]
    ensures Contains(a + b, t) <==> Contains(a, t)
  {
    MissingCharNotContains(b, t, k);
    ContainsConcat(a, b, t);
  }

  /** A string that can be cut at `n` so that each side lacks some character
      of `t`, and whose right side does not start with a character that
      reappears after the first character of `t`, does not contain `t`. */
  lemma NotContainsSplit(s: string, t: string, n: nat, k1: nat, k2: nat)
    requires n <= |s| && k1 < |t| && k2 < |t|
    requires t[k1] !in s[..n] && t[k2] !in s[n..]
    requires n == |s| || s[n] !in t[1..]
    ensures !Contains(s, t)
  {
    MissingCharNotContains(s[..n], t, k1);
    MissingCharNotContains(s[n..], t, k2);
    assert s == s[..n] + s[n..];
    ContainsConcat(s[..n], s[n..], t);
  }

  /** `String.Replace(o, n)`: every non-overlapping occurrence of `o`, found
      left to right, is replaced by `n`.  (.NET rejects an empty `o`.) */
  function Replace(s: string, o: string, n: string): string
    requires |o| > 0
    decreases |s|
  {
    if |s| < |o| then s
    else if s[..|o|] == o then n + Replace(s[|o|..], o, n)
    else [s[0]] + Replace(s[1..], o, n)
  }

  /** Replacing a string that does not occur is the identity. */
  lemma {:induction false} ReplaceAbsent(s: string, o: string, n: string)
    requires |o| > 0 && !Contains(s, o)
    ensures Replace(s, o, n) == s
    decreases |s|
  {
    if |s| >= |o| {
      if s[..|o|] == o {
        OccursAtWitness(s, o, 0);
      }
      if Contains(s[1..], o) {
        var i := IndexOf(s[1..], o);
        assert s[1..][i..i + |o|] == s[i + 1..i + 1 + |o|];
        OccursAtWitness(s, o, i + 1);
      }
      ReplaceAbsent(s[1..], o, n);
      assert s == [s[0]] + s[1..];
    }
  }

  /** If `o` starts within `a + o` at a position inside the non-empty, shorter
      `a`, then the first character of `o` reappears later in `o`. */
  lemma ShortPrefixBorder(a: string, o: string)
    requires 0 < |a| < |o| && (a + o)[..|o|] == o
    ensures o[0] in o[1..]
  {
    assert (a + o)[..|o|][|a|] == o[|a|];
    assert o[1..][|a| - 1] == o[|a|];
  }

  /** A suffix `o` whose first character does not reappear in it is replaced
      exactly once when the rest of the string does not contain `o`. */
  lemma {:induction false} ReplaceSuffix(a: string, o: string, n: string)
    requires |o| > 0 && o[0] !in o[1..] && !Contains(a, o)
    ensures Replace(a + o, o, n) == a + n
    decreases |a|
  {
    var s := a + o;
    if |a| == 0 {
      assert s == o && s[..|o|] == o && s[|o|..] == [];
      ReplaceAbsent([], o, n);
    } else {
      if s[..|o|] == o {
        if |a| >= |o| {
          OccursAtWitness(a, o, 0);
        } else {
          ShortPrefixBorder(a, o);
        }
      }
      if Contains(a[1..], o) {
        var i := IndexOf(a[1..], o);
        assert a[1..][i..i + |o|] == a[i + 1..i + 1 + |o|];
        OccursAtWitness(a, o, i + 1);
      }
      ReplaceSuffix(a[1..], o, n);
      assert s[1..] == a[1..] + o;
      assert a + n == [a[0]] + (a[1..] + n);
    }
  }

  /** `Char.ToLower` restricted to ASCII letters. */
  function LowerChar(c: char): char {
    if 'A' <= c <= 'Z' then (c as int + 32) as char else c
  }

  function Lower(s: string): (r: string)
    ensures |r| == |s|
    ensures forall i :: 0 <= i < |s| ==> r[i] == LowerChar(s[i])
  {
    seq(|s|, i requires 0 <= i < |s| => LowerChar(s[i]))
  }

  /** Reference meaning of a case-insensitive match of `t` at index `i`. */
  ghost predicate MatchesIgnoringCaseAt(s: string, t: string, i: int) {
    0 <= i && i + |t| <= |s| &&
    forall k :: 0 <= k < |t| ==> LowerChar(s[i + k]) == LowerChar(t[k])
  }

  /** Reference meaning of "`s` contains `t` ignoring case". */
  ghost predicate ContainsIgnoringCase(s: string, t: string) {
    exists i :: MatchesIgnoringCaseAt(s, t, i)
  }

  /** `s.ToLower().Contains(t.ToLower())` holds exactly when `t` matches
      somewhere in `s` ignoring the case of ASCII letters. */
  lemma ContainsLowerIffIgnoringCase(s: string, t: string)
    ensures Contains(Lower(s), Lower(t)) <==> ContainsIgnoringCase(s, t)
  {
    var ls, lt := Lower(s), Lower(t);
    ContainsIffOccurs(ls, lt);
    if Contains(ls, lt) {
      var i := IndexOf(ls, lt);
      forall k | 0 <= k < |t|
        ensures LowerChar(s[i + k]) == LowerChar(t[k])
      {
        assert ls[i..i + |t|][k] == ls[i + k];
      }
      assert MatchesIgnoringCaseAt(s, t, i);
    }
    if exists i :: MatchesIgnoringCaseAt(s, t, i) {
      var i :| MatchesIgnoringCaseAt(s, t, i);
      assert ls[i..i + |t|] == lt;
      OccursAtWitness(ls, lt, i);
    }
  }

  // ---------------------------------------------------------------------
  // System.IO.Path with '/' as the separator.

  const Separator: char := '/'

  /** Index of the last occurrence of `c` in `s`, -1 when absent. */
  function LastIndexOfChar(s: string, c: char): (r: int)
    ensures -1 <= r < |s|
    ensures r >= 0 ==> s[r] == c
    ensures forall j :: r < j < |s| ==> s[j] != c
    decreases |s|
  {
    if |s| == 0 then -1
    else if s[|s| - 1] == c then |s| - 1
    else LastIndexOfChar(s[..|s| - 1], c)
  }

  /** `Path.GetDirectoryName` of a non-empty path: everything before the last
      separator, the root itself when that separator is the first character,
      and the empty string when there is no separator. */
  function DirectoryName(p: string): string {
    var k := LastIndexOfChar(p, Separator);
    if k < 0 then "" else if k == 0 then p[..1] else p[..k]
  }

  /** `Path.GetFileName`: everything after the last separator. */
  function FileName(p: string): (r: string)
    ensures Separator !in r
  {
    var k := LastIndexOfChar(p, Separator);
    var r := p[k + 1..];
    forall j | 0 <= j < |r|
      ensures r[j] != Separator
    {
      assert r[j] == p[k + 1 + j];
    }
    r
  }

  /** `Path.GetFileNameWithoutExtension`: the file name up to its last dot. */
  function FileNameWithoutExtension(p: string): (r: string)
    ensures Separator !in r
  {
    var f := FileName(p);
    var d := LastIndexOfChar(f, '.');
    if d < 0 then f else f[..d]
  }

  /** `Path.Combine(dir, file)` for a file name that is not rooted. */
  function Combine(dir: string, file: string): string {
    if |dir| == 0 then file
    else if dir[|dir| - 1] == Separator then dir + file
    else dir + [Separator] + file
  }

  /** A character that does not occur has no last occurrence. */
  lemma LastIndexOfCharAbsent(s: string, c: char)
    requires c !in s
    ensures LastIndexOfChar(s, c) == -1
  {
  }

  /** The last `c` of `a + [c] + b` is the one between the parts when `b` holds
      none. */
  lemma {:induction false} LastIndexOfCharAfter(a: string, c: char, b: string)
    requires c !in b
    ensures LastIndexOfChar(a + [c] + b, c) == |a|
    decreases |b|
  {
    var s := a + [c] + b;
    if |b| == 0 {
      assert s[|s| - 1] == c;
    } else {
      assert s[|s| - 1] == b[|b| - 1];
      assert s[..|s| - 1] == a + [c] + b[..|b| - 1];
      LastIndexOfCharAfter(a, c, b[..|b| - 1]);
    }
  }

  /** A file name combined onto a directory comes back out as the file name,
      and the directory comes back out too unless it ends in a separator. */
  lemma CombineSplits(dir: string, file: string)
    requires Separator !in file
    ensures FileName(Combine(dir, file)) == file
    ensures (|dir| == 0 || dir[|dir| - 1] != Separator) ==> DirectoryName(Combine(dir, file)) == dir
  {
    if |dir| == 0 {
      LastIndexOfCharAbsent(file, Separator);
    } else if dir[|dir| - 1] == Separator {
      assert dir + file == dir[..|dir| - 1] + [Separator] + file;
      LastIndexOfCharAfter(dir[..|dir| - 1], Separator, file);
      assert (dir + file)[|dir|..] == file;
    } else {
      LastIndexOfCharAfter(dir, Separator, file);
      assert (dir + [Separator] + file)[|dir| + 1..] == file;
    }
  }

  /** The stem of a file name is everything before its last dot. */
  lemma StripExtension(p: string, stem: string, ext: string)
    requires FileName(p) == stem + ['.'] + ext && '.' !in ext
    ensures FileNameWithoutExtension(p) == stem
  {
    LastIndexOfCharAfter(stem, '.', ext);
  }

  /** A `.png` file combined onto a directory: its name, its stem and (unless
      the directory ends in a separator) its directory come back out. */
  lemma CombinePng(dir: string, stem: string)
    requires Separator !in stem
    ensures FileName(Combine(dir, stem + ".png")) == stem + ".png"
    ensures FileNameWithoutExtension(Combine(dir, stem + ".png")) == stem
    ensures (|dir| == 0 || dir[|dir| - 1] != Separator) ==> DirectoryName(Combine(dir, stem + ".png")) == dir
  {
    assert stem + ".png" == stem + ['.'] + "png";
    CombineSplits(dir, stem + ".png");
    StripExtension(Combine(dir, stem + ".png"), stem, "png");
  }
}
