/**
 * The handful of Python string operations the client relies on, written
 * out over `string` (= `seq<char>`): `str.split(sep)`, `str.split()`,
 * `sep.join(parts)`, the `in` substring test, `str.startswith`,
 * `str.replace`, `str.find` and slicing with Python's index rules.
 */
module Text {

  /** Python's `str.isspace()` for one character (the set `str.split()` splits on). */
  predicate IsSpace(c: char) {
    var n := c as int;
    n == 32 || 9 <= n <= 13 || 28 <= n <= 31 || n == 0x85 || n == 0xA0
    || n == 0x1680 || 0x2000 <= n <= 0x200A || n == 0x2028 || n == 0x2029
    || n == 0x202F || n == 0x205F || n == 0x3000
  }

  /** A token that `str.split()` can produce: non-empty, no whitespace. */
  predicate IsWord(w: string) {
    |w| > 0 && forall i :: 0 <= i < |w| ==> !IsSpace(w[i])
  }

  predicate StartsWith(s: string, prefix: string) {
    |prefix| <= |s| && s[..|prefix|] == prefix
  }

  /** Python's `sub in s` for strings. */
  predicate Contains(s: string, sub: string)
    decreases |s|
  {
    StartsWith(s, sub) || (s != [] && Contains(s[1..], sub))
  }

  /** A string that lacks a character does not contain it as a substring. */
  lemma {:induction false} NotContainsChar(s: string, c: char)
    requires c !in s
    ensures !Contains(s, [c])
    decreases |s|
  {
    if s != [] {
      assert s[0] != c;
      NotContainsChar(s[1..], c);
    }
  }

  /** Membership in a non-empty sequence: in its front part, or its last element. */
  lemma SnocIn<T>(xs: seq<T>, x: T)
    requires |xs| > 0
    ensures x in xs <==> x in xs[..|xs| - 1] || x == xs[|xs| - 1]
  {
    assert xs == xs[..|xs| - 1] + [xs[|xs| - 1]];
  }

  /** A value absent from a sequence is absent from each of its suffixes. */
  lemma NotInSuffix<T>(s: seq<T>, b: nat, x: T)
    requires b <= |s| && x !in s
    ensures x !in s[b..]
  {
    forall j | 0 <= j < |s| - b ensures s[b..][j] != x {
      assert s[b..][j] == s[b + j];
    }
  }

  /** A value absent from a sequence is absent from each of its prefixes. */
  lemma NotInPrefix<T>(s: seq<T>, b: nat, x: T)
    requires b <= |s| && x !in s
    ensures x !in s[..b]
  {
    forall j | 0 <= j < b ensures s[..b][j] != x {
      assert s[..b][j] == s[j];
    }
  }

  /** A sequence is its prefix followed by the matching suffix. */
  lemma SplitAt<T>(s: seq<T>, i: nat)
    requires i <= |s|
    ensures s[..i] + s[i..] == s
  {
  }

  /** Dropping the two elements inserted after position `i` gives back the original. */
  lemma DropTwoAfter<T>(c: seq<T>, r: seq<T>, i: nat)
    requires i < |c| && |r| == |c| + 2
    requires r[..i + 1] == c[..i + 1] && r[i + 3..] == c[i + 1..]
    ensures r[..i + 1] + r[i + 3..] == c
  {
    SplitAt(c, i + 1);
  }

  /** Every string contains itself. */
  lemma ContainsSelf(s: string)
    ensures Contains(s, s)
  {
    assert StartsWith(s, s);
  }

  /** `sep.join(parts)` */
  function Join(sep: string, parts: seq<string>): string
  {
    if parts == [] then ""
    else if |parts| == 1 then parts[0]
    else parts[0] + sep + Join(sep, parts[1..])
  }

  /**
   * `s.split(sep)` for a one-character separator: the pieces between the
   * separators, empty pieces included, so an empty string gives `[""]`.
   */
  function Split(s: string, sep: char): (parts: seq<string>)
    ensures |parts| >= 1
    ensures forall i :: 0 <= i < |parts| ==> sep !in parts[i]
    ensures StartsWith(s, parts[0])
    ensures |parts[0]| < |s| ==> s[|parts[0]|] == sep
    decreases |s|
  {
    if s == [] then [""]
    else
      var rest := Split(s[1..], sep);
      if s[0] == sep then [""] + rest
      else [[s[0]] + rest[0]] + rest[1..]
  }

  /** `s.split(" ")[0]`: everything before the first space. */
  function FirstWord(s: string): (w: string)
    ensures ' ' !in w
    ensures StartsWith(s, w)
    ensures w == s || s[|w|] == ' '
  {
    Split(s, ' ')[0]
  }

  /** Length of the leading run of non-whitespace characters. */
  function WordLength(s: string): (n: nat)
    ensures n <= |s|
    ensures forall i :: 0 <= i < n ==> !IsSpace(s[i])
    ensures n < |s| ==> IsSpace(s[n])
  {
    if s == [] || IsSpace(s[0]) then 0 else 1 + WordLength(s[1..])
  }

  /** `s.split()`: the maximal runs of non-whitespace, in order. */
  function SplitWhitespace(s: string): (words: seq<string>)
    ensures forall i :: 0 <= i < |words| ==> IsWord(words[i])
    decreases |s|
  {
    if s == [] then []
    else if IsSpace(s[0]) then SplitWhitespace(s[1..])
    else
      var n := WordLength(s);
      [s[..n]] + SplitWhitespace(s[n..])
  }

  /** A trailing space adds no word. */
  lemma {:induction false} SplitWhitespaceTrailingSpace(s: string)
    ensures SplitWhitespace(s + " ") == SplitWhitespace(s)
    decreases |s|
  {
    if s == [] {
      assert " "[1..] == [];
    } else if IsSpace(s[0]) {
      assert (s + " ")[1..] == s[1..] + " ";
      SplitWhitespaceTrailingSpace(s[1..]);
    } else {
      var n := WordLength(s);
      WordLengthExtends(s, " ");
      assert (s + " ")[..n] == s[..n];
      assert (s + " ")[n..] == s[n..] + " ";
      SplitWhitespaceTrailingSpace(s[n..]);
    }
  }

  /** A word that ends inside `s` (or at its end, followed by a space) is unchanged by appending. */
  lemma {:induction false} WordLengthExtends(s: string, t: string)
    requires t != [] && IsSpace(t[0])
    ensures WordLength(s + t) == WordLength(s)
    decreases |s|
  {
    if s == [] {
      assert (s + t)[0] == t[0];
    } else if !IsSpace(s[0]) {
      assert (s + t)[1..] == s[1..] + t;
      WordLengthExtends(s[1..], t);
    }
  }

  /** `s.replace(pat, rep)`: left to right, non-overlapping. */
  function ReplaceAll(s: string, pat: string, rep: string): string
    requires |pat| > 0
    decreases |s|
  {
    if StartsWith(s, pat) then rep + ReplaceAll(s[|pat|..], pat, rep)
    else if s == [] then []
    else [s[0]] + ReplaceAll(s[1..], pat, rep)
  }

  function CountChar(s: string, c: char): nat
  {
    if s == [] then 0 else (if s[0] == c then 1 else 0) + CountChar(s[1..], c)
  }

  /** `s.find(c)`: the first index of `c`, or -1. */
  function Find(s: string, c: char): (i: int)
    ensures -1 <= i < |s|
    ensures i == -1 <==> c !in s
    ensures i >= 0 ==> s[i] == c && c !in s[..i]
  {
    if s == [] then -1
    else if s[0] == c then 0
    else
      var k := Find(s[1..], c);
      if k < 0 then -1
      else
        assert s[..k + 1] == [s[0]] + s[1..][..k];
        k + 1
  }

  /** `Find` characterised: the first occurrence is at `k` when `s[k]` is `c` and nothing before it is. */
  lemma {:induction false} FindIs(s: string, c: char, k: nat)
    requires k < |s| && s[k] == c && c !in s[..k]
    ensures Find(s, c) == k
    decreases k
  {
    if k > 0 {
      assert s[0] == s[..k][0];
      assert s[1..][..k - 1] == s[1..k];
      assert s[..k] == [s[0]] + s[1..k];
      FindIs(s[1..], c, k - 1);
    }
  }

  /** A Python slice bound: negative counts from the end, then clamped to `0..n`. */
  function SliceBound(i: int, n: nat): (b: nat)
    ensures b <= n
  {
    if i < 0 then (if n + i < 0 then 0 else n + i) else if i > n then n else i
  }

  /** `s[i:]` */
  function SliceFrom(s: string, i: int): string {
    s[SliceBound(i, |s|)..]
  }

  /** `s[:j]` */
  function SliceTo(s: string, j: int): string {
    s[..SliceBound(j, |s|)]
  }

  // ---------------------------------------------------------------------
  // split / join

  lemma {:induction false} JoinCons(sep: string, x: string, parts: seq<string>)
    requires |parts| >= 1
    ensures Join(sep, [x] + parts) == x + sep + Join(sep, parts)
  {
    assert ([x] + parts)[1..] == parts;
  }

  lemma {:induction false} JoinHeadExtend(sep: string, a: string, x: string, tail: seq<string>)
    ensures Join(sep, [a + x] + tail) == a + Join(sep, [x] + tail)
  {
    if tail != [] {
      JoinCons(sep, a + x, tail);
      JoinCons(sep, x, tail);
    }
  }

  /** Joining the pieces of a split with the separator gives the string back. */
  lemma {:induction false} JoinSplit(s: string, sep: char)
    ensures Join([sep], Split(s, sep)) == s
    decreases |s|
  {
    if s != [] {
      var rest := Split(s[1..], sep);
      JoinSplit(s[1..], sep);
      if s[0] == sep {
        JoinCons([sep], "", rest);
      } else {
        JoinHeadExtend([sep], [s[0]], rest[0], rest[1..]);
        assert [rest[0]] + rest[1..] == rest;
      }
    }
  }

  lemma {:induction false} SplitNoSeparator(s: string, sep: char)
    requires sep !in s
    ensures Split(s, sep) == [s]
    decreases |s|
  {
    if s != [] {
      SplitNoSeparator(s[1..], sep);
      assert [s[0]] + s[1..] == s;
    }
  }

  lemma {:induction false} SplitAfterPiece(p: string, sep: char, t: string)
    requires sep !in p
    ensures Split(p + [sep] + t, sep) == [p] + Split(t, sep)
    decreases |p|
  {
    if p == [] {
      assert p + [sep] + t == [sep] + t;
      assert ([sep] + t)[1..] == t;
    } else {
      assert (p + [sep] + t)[1..] == p[1..] + [sep] + t;
      SplitAfterPiece(p[1..], sep, t);
      assert [p[0]] + p[1..] == p;
    }
  }

  /** Splitting a join recovers the pieces, when no piece holds the separator. */
  lemma {:induction false} SplitJoin(parts: seq<string>, sep: char)
    requires |parts| >= 1
    requires forall i :: 0 <= i < |parts| ==> sep !in parts[i]
    ensures Split(Join([sep], parts), sep) == parts
    decreases |parts|
  {
    if |parts| == 1 {
      SplitNoSeparator(parts[0], sep);
    } else {
      SplitJoin(parts[1..], sep);
      SplitAfterPiece(parts[0], sep, Join([sep], parts[1..]));
      assert [parts[0]] + parts[1..] == parts;
    }
  }

  // ---------------------------------------------------------------------
  // split on whitespace

  lemma {:induction false} WordLengthOfWord(w: string, t: string)
    requires IsWord(w)
    requires t == [] || IsSpace(t[0])
    ensures WordLength(w + t) == |w|
    decreases |w|
  {
    if |w| > 1 {
      assert (w + t)[1..] == w[1..] + t;
      WordLengthOfWord(w[1..], t);
    } else {
      assert (w + t)[1..] == t;
    }
  }

  /** Space-joined words split back into the same words. */
  lemma {:induction false} SplitWhitespaceJoin(words: seq<string>)
    requires forall i :: 0 <= i < |words| ==> IsWord(words[i])
    ensures SplitWhitespace(Join(" ", words)) == words
    decreases |words|
  {
    if |words| == 1 {
      var w := words[0];
      WordLengthOfWord(w, []);
      assert w + [] == w;
      assert w[|w|..] == [];
    } else if |words| > 1 {
      var w, t := words[0], Join(" ", words[1..]);
      var s := w + " " + t;
      WordLengthOfWord(w, " " + t);
      assert s == w + (" " + t);
      assert s[..|w|] == w;
      assert s[|w|..] == " " + t;
      assert (" " + t)[1..] == t;
      SplitWhitespaceJoin(words[1..]);
      assert [w] + words[1..] == words;
    }
  }

  // ---------------------------------------------------------------------
  // replace

  /** Replacing a pattern that does not occur leaves the string alone. */
  lemma {:induction false} ReplaceAbsent(s: string, pat: string, rep: string)
    requires |pat| > 0
    requires !Contains(s, pat)
    ensures ReplaceAll(s, pat, rep) == s
    decreases |s|
  {
    if s != [] {
      ReplaceAbsent(s[1..], pat, rep);
    }
  }

  /** Replacing a pattern by itself is the identity. */
  lemma {:induction false} ReplaceSelf(s: string, pat: string)
    requires |pat| > 0
    ensures ReplaceAll(s, pat, pat) == s
    decreases |s|
  {
    if StartsWith(s, pat) {
      ReplaceSelf(s[|pat|..], pat);
      assert s == s[..|pat|] + s[|pat|..];
    } else if s != [] {
      ReplaceSelf(s[1..], pat);
    }
  }

  /** Replacing one character by a string removes every occurrence and grows by a fixed amount per occurrence. */
  lemma {:induction false} ReplaceCharCount(s: string, c: char, rep: string)
    requires c !in rep
    ensures c !in ReplaceAll(s, [c], rep)
    ensures |ReplaceAll(s, [c], rep)| == |s| + CountChar(s, c) * (|rep| - 1)
    decreases |s|
  {
    if s != [] {
      ReplaceCharCount(s[1..], c, rep);
      if s[0] == c {
        assert StartsWith(s, [c]);
        var n, k := CountChar(s[1..], c), |rep| - 1;
        assert (n + 1) * k == n * k + k;
      } else {
        assert !StartsWith(s, [c]);
      }
    }
  }

  /** A pattern without the separator never straddles it, so replacing works piece by piece. */
  lemma {:induction false} ReplaceAcross(a: string, b: string, sep: char, pat: string, rep: string)
    requires |pat| > 0 && sep !in pat
    ensures ReplaceAll(a + [sep] + b, pat, rep) == ReplaceAll(a, pat, rep) + [sep] + ReplaceAll(b, pat, rep)
    decreases |a|, 1
  {
    var s := a + [sep] + b;
    if a == [] {
      assert s == [sep] + b;
      assert s[0] == sep && pat[0] != sep;
      assert s[1..] == b;
    } else if StartsWith(s, pat) {
      ReplaceAcrossMatch(a, b, sep, pat, rep);
    } else {
      ReplaceAcrossNoMatch(a, b, sep, pat, rep);
    }
  }

  lemma {:induction false} ReplaceAcrossMatch(a: string, b: string, sep: char, pat: string, rep: string)
    requires |pat| > 0 && sep !in pat
    requires StartsWith(a + [sep] + b, pat)
    ensures ReplaceAll(a + [sep] + b, pat, rep) == ReplaceAll(a, pat, rep) + [sep] + ReplaceAll(b, pat, rep)
    decreases |a|, 0
  {
    AcrossMatch(a, b, sep, pat);
    ReplaceAcross(a[|pat|..], b, sep, pat, rep);
    var x, y := ReplaceAll(a[|pat|..], pat, rep), ReplaceAll(b, pat, rep);
    assert rep + (x + [sep] + y) == (rep + x) + [sep] + y;
  }

  lemma {:induction false} ReplaceAcrossNoMatch(a: string, b: string, sep: char, pat: string, rep: string)
    requires |pat| > 0 && sep !in pat
    requires a != [] && !StartsWith(a + [sep] + b, pat)
    ensures ReplaceAll(a + [sep] + b, pat, rep) == ReplaceAll(a, pat, rep) + [sep] + ReplaceAll(b, pat, rep)
    decreases |a|, 0
  {
    AcrossNoMatch(a, b, sep, pat);
    ReplaceAcross(a[1..], b, sep, pat, rep);
    var x, y := ReplaceAll(a[1..], pat, rep), ReplaceAll(b, pat, rep);
    assert [a[0]] + (x + [sep] + y) == ([a[0]] + x) + [sep] + y;
  }

  /** A match at the front of `a + [sep] + b` lies within `a`. */
  lemma AcrossMatch(a: string, b: string, sep: char, pat: string)
    requires |pat| > 0 && sep !in pat
    requires StartsWith(a + [sep] + b, pat)
    ensures |pat| <= |a| && StartsWith(a, pat)
    ensures (a + [sep] + b)[|pat|..] == a[|pat|..] + [sep] + b
  {
    var s := a + [sep] + b;
    assert s[|a|] == sep;
    assert forall k :: 0 <= k < |pat| ==> s[k] == pat[k] && pat[k] != sep;
    assert a[..|pat|] == s[..|pat|];
  }

  /** Without a match at the front of `a + [sep] + b`, there is none at the front of `a`. */
  lemma AcrossNoMatch(a: string, b: string, sep: char, pat: string)
    requires a != []
    requires !StartsWith(a + [sep] + b, pat)
    ensures !StartsWith(a, pat)
    ensures (a + [sep] + b)[0] == a[0]
    ensures (a + [sep] + b)[1..] == a[1..] + [sep] + b
  {
    var s := a + [sep] + b;
    assert |pat| <= |a| ==> s[..|pat|] == a[..|pat|];
  }

  /** Replacing in a joined list is replacing in each piece, when the pattern has no separator. */
  lemma {:induction false} ReplaceJoin(parts: seq<string>, sep: char, pat: string, rep: string)
    requires |pat| > 0 && sep !in pat
    ensures ReplaceAll(Join([sep], parts), pat, rep)
            == Join([sep], seq(|parts|, i requires 0 <= i < |parts| => ReplaceAll(parts[i], pat, rep)))
    decreases |parts|
  {
    var rs := seq(|parts|, i requires 0 <= i < |parts| => ReplaceAll(parts[i], pat, rep));
    if parts == [] {
      assert ReplaceAll("", pat, rep) == "" by { assert !StartsWith("", pat); }
    } else if |parts| > 1 {
      ReplaceJoin(parts[1..], sep, pat, rep);
      ReplaceAcross(parts[0], Join([sep], parts[1..]), sep, pat, rep);
      assert rs[1..] == seq(|parts| - 1, i requires 0 <= i < |parts| - 1 => ReplaceAll(parts[1..][i], pat, rep));
    }
  }

  /** Characters before the first occurrence of `c` are left alone by replacing `c`. */
  lemma {:induction false} ReplaceCharSplit(a: string, b: string, c: char, rep: string)
    requires c !in a
    ensures ReplaceAll(a + b, [c], rep) == a + ReplaceAll(b, [c], rep)
    decreases |a|
  {
    if a != [] {
      assert !StartsWith(a + b, [c]);
      assert (a + b)[1..] == a[1..] + b;
      ReplaceCharSplit(a[1..], b, c, rep);
    } else {
      assert a + b == b;
    }
  }
}
