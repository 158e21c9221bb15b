/** The few Python `str` operations the action relies on, over `seq<char>`, and the
    `join` that undoes `split` in the round-trip properties. */
module Strings {

  /** The characters for which Python's `str.isspace()` holds; `str.strip()` with no
      argument removes exactly these from both ends. */
  predicate IsWhitespace(c: char) {
    || ('\t' <= c <= '\r')
    || ('\U{1c}' <= c <= '\U{1f}')
    || c == ' '
    || c == '\U{85}'
    || c == '\U{a0}'
    || c == '\U{1680}'
    || ('\U{2000}' <= c <= '\U{200a}')
    || c == '\U{2028}'
    || c == '\U{2029}'
    || c == '\U{202f}'
    || c == '\U{205f}'
    || c == '\U{3000}'
  }

  /** The space, tab, newline and carriage return are stripped; letters, digits and the
      characters of branch and account names are not. */
  lemma WhitespaceClass(c: char)
    ensures c == ' ' || c == '\t' || c == '\n' || c == '\r' ==> IsWhitespace(c)
    ensures ('0' <= c <= '9' || 'a' <= c <= 'z' || 'A' <= c <= 'Z' || c == '/' || c == '-' || c == '_' ||
             c == '"' || c == '\'') ==> !IsWhitespace(c)
  {
  }

  /** Number of occurrences of `c` in `s`. */
  function Count(s: string, c: char): nat {
    if s == [] then 0 else (if s[0] == c then 1 else 0) + Count(s[1..], c)
  }

  /** True when `s` begins with `prefix` (Python's `s.startswith(prefix)`). */
  predicate StartsWith(s: string, prefix: string)
    ensures StartsWith(s, prefix) ==> |prefix| <= |s|
    ensures prefix == [] ==> StartsWith(s, prefix)
  {
    |prefix| <= |s| && s[..|prefix|] == prefix
  }

  /** `s` starts with `prefix` exactly when it is `prefix` followed by some text. */
  lemma StartsWithIsPrefix(s: string, prefix: string)
    ensures StartsWith(s, prefix) <==> exists t :: s == prefix + t
  {
    if StartsWith(s, prefix) {
      assert s == prefix + s[|prefix|..];
    }
    forall t | s == prefix + t
      ensures StartsWith(s, prefix)
    {
      assert s[..|prefix|] == prefix;
    }
  }

  /** True when `pat` occurs in `s` starting at index `i`. */
  predicate OccursAt(s: string, pat: string, i: nat) {
    i + |pat| <= |s| && s[i..i + |pat|] == pat
  }

  /** True when `pat` occurs somewhere inside `s`. */
  ghost predicate Occurs(s: string, pat: string) {
    exists i: nat :: OccursAt(s, pat, i)
  }

  /** Every character of `t` is a character of `s`. */
  predicate CharsWithin(t: string, s: string) {
    forall c :: c in t ==> c in s
  }

  // ---------------------------------------------------------------------------
  // strip

  /** Drops the leading characters that satisfy `drop` (Python's `lstrip`). */
  function StripLeft(s: string, drop: char -> bool): (r: string)
    ensures |r| <= |s| && r == s[|s| - |r|..]
    ensures r != [] ==> !drop(r[0])
    ensures forall i :: 0 <= i < |s| - |r| ==> drop(s[i])
    ensures (forall i :: 0 <= i < |s| ==> drop(s[i])) ==> r == []
    ensures (s == [] || !drop(s[0])) ==> r == s
    decreases |s|
  {
    if s != [] && drop(s[0]) then StripLeft(s[1..], drop) else s
  }

  /** Drops the trailing characters that satisfy `drop` (Python's `rstrip`). */
  function StripRight(s: string, drop: char -> bool): (r: string)
    ensures |r| <= |s| && r == s[..|r|]
    ensures r != [] ==> !drop(r[|r| - 1])
    ensures forall i :: |r| <= i < |s| ==> drop(s[i])
    ensures (s == [] || !drop(s[|s| - 1])) ==> r == s
    decreases |s|
  {
    if s != [] && drop(s[|s| - 1]) then StripRight(s[..|s| - 1], drop) else s
  }

  /** Every character of `s` before index `i` and from index `j` on satisfies `drop`. */
  predicate DroppedOutside(s: string, drop: char -> bool, i: nat, j: nat)
    requires i <= j <= |s|
  {
    (forall k :: 0 <= k < i ==> drop(s[k])) && (forall k :: j <= k < |s| ==> drop(s[k]))
  }

  /** Python's `s.strip(chars)`, with the characters given as a predicate: the longest
      slice of `s` that neither starts nor ends with a dropped character. */
  function Strip(s: string, drop: char -> bool): (r: string)
    ensures r != [] ==> !drop(r[0]) && !drop(r[|r| - 1])
    ensures forall c :: c in r ==> c in s
    ensures (forall i :: 0 <= i < |s| ==> drop(s[i])) ==> r == []
    ensures (s == [] || (!drop(s[0]) && !drop(s[|s| - 1]))) ==> r == s
  {
    var left := StripLeft(s, drop);
    var r := StripRight(left, drop);
    assert forall c :: c in r ==> c in left;
    r
  }

  /** The stripped text is a slice of `s` outside which every character is dropped. */
  lemma StripSlice(s: string, drop: char -> bool)
    ensures exists i, j :: 0 <= i <= j <= |s| && Strip(s, drop) == s[i..j] && DroppedOutside(s, drop, i, j)
  {
    var left := StripLeft(s, drop);
    var r := StripRight(left, drop);
    assert r == Strip(s, drop);
    var i := |s| - |left|;
    var j := i + |r|;
    assert left == s[i..];
    assert r == left[..|r|];
    assert r == s[i..j];
    forall k | j <= k < |s|
      ensures drop(s[k])
    {
      assert s[k] == left[k - i];
    }
    assert DroppedOutside(s, drop, i, j);
  }

  // ---------------------------------------------------------------------------
  // replace(pat, "")

  /** Python's `s.replace(pat, "")`: scanning left to right, every occurrence of `pat`
      that does not overlap an earlier removed one is deleted; text that only forms an
      occurrence once something was removed stays. */
  function RemoveAll(s: string, pat: string): (r: string)
    requires pat != []
    ensures |r| <= |s|
    decreases |s|
  {
    if |s| < |pat| then s
    else if s[..|pat|] == pat then RemoveAll(s[|pat|..], pat)
    else [s[0]] + RemoveAll(s[1..], pat)
  }

  /** Independent reference for removing one character: keep every other character,
      in order. */
  function Without(s: string, c: char): (r: string)
    ensures c !in r
  {
    if s == [] then [] else (if s[0] == c then [] else [s[0]]) + Without(s[1..], c)
  }

  /** Filtering keeps every other character and drops exactly the occurrences of `c`. */
  lemma {:induction false} WithoutKeeps(s: string, c: char, d: char)
    requires d != c
    ensures d in Without(s, c) <==> d in s
    ensures |Without(s, c)| == |s| - Count(s, c)
  {
    if s != [] {
      WithoutKeeps(s[1..], c, d);
      assert s == [s[0]] + s[1..];
    }
  }

  lemma {:induction false} WithoutAbsent(s: string, c: char)
    requires c !in s
    ensures Without(s, c) == s
  {
    if s != [] {
      WithoutAbsent(s[1..], c);
    }
  }

  lemma {:induction false} WithoutConcat(a: string, b: string, c: char)
    ensures Without(a + b, c) == Without(a, c) + Without(b, c)
  {
    if a != [] {
      assert (a + b)[1..] == a[1..] + b;
      WithoutConcat(a[1..], b, c);
    } else {
      assert a + b == b;
    }
  }

  /** Filtering out a character that surrounds a text removes just those two. */
  lemma WithoutAround(x: string, b: string, c: char)
    requires c !in x && c !in b
    ensures Without(x + [c] + b + [c], c) == x + b
  {
    var q := [c];
    var s1 := x + q;
    var s2 := s1 + b;
    WithoutConcat(x, q, c);
    WithoutAbsent(x, c);
    assert Without(q, c) == [];
    assert Without(s1, c) == x;
    WithoutConcat(s1, b, c);
    WithoutAbsent(b, c);
    assert Without(s2, c) == x + b;
    WithoutConcat(s2, q, c);
  }

  /** Removing a one-character pattern is filtering that character out. */
  lemma {:induction false} RemoveCharIsWithout(s: string, c: char)
    ensures RemoveAll(s, [c]) == Without(s, c)
    decreases |s|
  {
    if s != [] {
      RemoveCharIsWithout(s[1..], c);
    }
  }

  /** An occurrence at the front is removed and the scan resumes after it. */
  lemma RemoveAllHit(s: string, pat: string)
    requires pat != []
    ensures RemoveAll(pat + s, pat) == RemoveAll(s, pat)
  {
    assert (pat + s)[..|pat|] == pat;
    assert (pat + s)[|pat|..] == s;
  }

  /** A character that does not start an occurrence is kept and the scan moves on
      by one. */
  lemma RemoveAllMiss(c: char, s: string, pat: string)
    requires pat != []
    requires |pat| <= 1 + |s| ==> ([c] + s)[..|pat|] != pat
    ensures RemoveAll([c] + s, pat) == [c] + RemoveAll(s, pat)
  {
    assert ([c] + s)[1..] == s;
  }

  /** Dropping the first character of a stretch in which no occurrence starts leaves
      such a stretch. */
  lemma NoOccurrenceShift(p: string, s: string, pat: string)
    requires p != []
    requires forall i: nat :: i < |p| ==> !OccursAt(p + s, pat, i)
    ensures forall i: nat :: i < |p[1..]| ==> !OccursAt(p[1..] + s, pat, i)
  {
    var t, u := p + s, p[1..] + s;
    forall i: nat | i < |p[1..]| ensures !OccursAt(u, pat, i) {
      assert !OccursAt(t, pat, i + 1);
      if i + |pat| <= |u| {
        assert u[i..i + |pat|] == t[i + 1..i + 1 + |pat|];
      }
    }
  }

  /** A stretch at the front in which no occurrence starts is kept as it is. */
  lemma {:induction false} RemoveAllKeep(p: string, s: string, pat: string)
    requires pat != []
    requires forall i: nat :: i < |p| ==> !OccursAt(p + s, pat, i)
    ensures RemoveAll(p + s, pat) == p + RemoveAll(s, pat)
    decreases |p|
  {
    if p != [] {
      var u := p[1..] + s;
      assert p + s == [p[0]] + u;
      assert !OccursAt(p + s, pat, 0);
      RemoveAllMiss(p[0], u, pat);
      NoOccurrenceShift(p, s, pat);
      RemoveAllKeep(p[1..], s, pat);
      assert p == [p[0]] + p[1..];
    } else {
      assert p + s == s;
    }
  }

  /** Text in which `pat` does not occur is left alone. */
  lemma {:induction false} RemoveAllAbsent(s: string, pat: string)
    requires pat != [] && !Occurs(s, pat)
    ensures RemoveAll(s, pat) == s
    decreases |s|
  {
    if |s| >= |pat| {
      assert !OccursAt(s, pat, 0);
      assert s[0..0 + |pat|] == s[..|pat|];
      forall i: nat
        ensures !OccursAt(s[1..], pat, i)
      {
        if i + |pat| <= |s[1..]| {
          assert !OccursAt(s, pat, i + 1);
          assert s[1..][i..i + |pat|] == s[i + 1..i + 1 + |pat|];
        }
      }
      RemoveAllAbsent(s[1..], pat);
    }
  }

  /** The result of a removal is a subsequence of the input: it has no character the
      input lacks. */
  lemma {:induction false} RemoveAllChars(s: string, pat: string, c: char)
    requires pat != [] && c in RemoveAll(s, pat)
    ensures c in s
    decreases |s|
  {
    if |s| >= |pat| {
      if s[..|pat|] == pat {
        RemoveAllChars(s[|pat|..], pat, c);
      } else if c != s[0] {
        RemoveAllChars(s[1..], pat, c);
      }
    }
  }

  // ---------------------------------------------------------------------------
  // split(sep) and its inverse

  /** Python's `s.split(sep)` for a one-character separator: the pieces between
      consecutive separators, in order, empty pieces included (`"".split(" ") == [""]`). */
  function Split(s: string, sep: char): (r: seq<string>)
    ensures |r| == Count(s, sep) + 1
    ensures forall i :: 0 <= i < |r| ==> sep !in r[i]
    ensures forall i :: 0 <= i < |r| ==> CharsWithin(r[i], s)
    decreases |s|
  {
    if s == [] then [[]]
    else
      var rest := Split(s[1..], sep);
      assert CharsWithin(s[1..], s);
      if s[0] == sep then [[]] + rest
      else [[s[0]] + rest[0]] + rest[1..]
  }

  /** Text without a separator is one piece. */
  lemma {:induction false} SplitNoSep(s: string, sep: char)
    requires sep !in s
    ensures Split(s, sep) == [s]
    decreases |s|
  {
    if s != [] {
      SplitNoSep(s[1..], sep);
      assert [s[0]] + s[1..] == s;
    }
  }

  /** A separator after a separator-free prefix ends the first piece there. */
  lemma {:induction false} SplitAt(a: string, b: string, sep: char)
    requires sep !in a
    ensures Split(a + [sep] + b, sep) == [a] + Split(b, sep)
    decreases |a|
  {
    if a == [] {
      assert a + [sep] + b == [sep] + b;
      assert ([sep] + b)[1..] == b;
    } else {
      var s := a + [sep] + b;
      assert s[1..] == a[1..] + [sep] + b;
      SplitAt(a[1..], b, sep);
      assert [a[0]] + a[1..] == a;
    }
  }

  /** Python's `sep.join(parts)`. The action never joins; this undoes `Split` in the round-trip lemmas. */
  function Join(parts: seq<string>, sep: char): string {
    if parts == [] then []
    else if |parts| == 1 then parts[0]
    else parts[0] + [sep] + Join(parts[1..], sep)
  }

  lemma {:induction false} JoinConsFirst(c: char, parts: seq<string>, sep: char)
    requires parts != []
    ensures Join([[c] + parts[0]] + parts[1..], sep) == [c] + Join(parts, sep)
  {
    var q := [[c] + parts[0]] + parts[1..];
    assert q[1..] == parts[1..];
  }

  /** Joining the pieces with the separator gives back the text that was split. */
  lemma {:induction false} JoinSplit(s: string, sep: char)
    ensures Join(Split(s, sep), sep) == s
    decreases |s|
  {
    if s != [] {
      var rest := Split(s[1..], sep);
      JoinSplit(s[1..], sep);
      if s[0] == sep {
        assert ([[]] + rest)[1..] == rest;
      } else {
        JoinConsFirst(s[0], rest, sep);
      }
    }
  }
}
