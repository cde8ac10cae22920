/**
 * The string operations of JavaScript that the source relies on, on
 * strings as sequences of characters: `trim`, `toLowerCase` (ASCII
 * letters only), `includes`, `startsWith`/`endsWith`, `split` on one
 * character, on a character class or on a string, and `join`.
 */
module Text {
  import opened Wrappers
  import opened Seqs

  /** The characters JavaScript's `trim` removes and `\s` matches (white space and line terminators). */
  predicate IsJsSpace(c: char)
  {
    c == '\t' || c == '\n' || c == '\U{B}' || c == '\U{C}' || c == '\r' || c == ' '
    || c == '\U{A0}' || c == '\U{1680}' || ('\U{2000}' <= c <= '\U{200A}')
    || c == '\U{2028}' || c == '\U{2029}' || c == '\U{202F}' || c == '\U{205F}'
    || c == '\U{3000}' || c == '\U{FEFF}'
  }

  predicate IsUpper(c: char) { 'A' <= c <= 'Z' }
  predicate IsLower(c: char) { 'a' <= c <= 'z' }
  predicate IsDigit(c: char) { '0' <= c <= '9' }

  /** `\w` of a JavaScript regular expression without the `u` flag. */
  predicate IsWordChar(c: char)
  {
    IsUpper(c) || IsLower(c) || IsDigit(c) || c == '_'
  }

  function LowerChar(c: char): (d: char)
    ensures IsUpper(c) ==> IsLower(d) && d as int == c as int + 32
    ensures !IsUpper(c) ==> d == c
  {
    if IsUpper(c) then (c as int + 32) as char else c
  }

  /** `s.toLowerCase()`, for the ASCII letters. */
  function Lower(s: string): (r: string)
    ensures |r| == |s|
  {
    if s == [] then [] else [LowerChar(s[0])] + Lower(s[1..])
  }

  /** `toLowerCase` maps each character on its own. */
  lemma {:induction false} LowerSpec(s: string)
    ensures forall i :: 0 <= i < |s| ==> Lower(s)[i] == LowerChar(s[i])
  {
    if s != [] {
      LowerSpec(s[1..]);
    }
  }

  lemma LowerAppend(a: string, b: string)
    ensures Lower(a + b) == Lower(a) + Lower(b)
  {
    LowerSpec(a + b);
    LowerSpec(a);
    LowerSpec(b);
    assert forall i :: 0 <= i < |a + b| ==> Lower(a + b)[i] == (Lower(a) + Lower(b))[i];
  }

  /** Every character is white space (this includes the empty string). */
  predicate IsBlank(s: string)
  {
    forall i :: 0 <= i < |s| ==> IsJsSpace(s[i])
  }

  /** Neither end of `s` is white space. */
  predicate IsTrimmed(s: string)
  {
    s == [] || (!IsJsSpace(s[0]) && !IsJsSpace(s[|s| - 1]))
  }

  /** The number of white-space characters at the start of `s`. */
  function LeadingSpaces(s: string): (n: nat)
    ensures n <= |s|
  {
    if s != [] && IsJsSpace(s[0]) then 1 + LeadingSpaces(s[1..]) else 0
  }

  /** `s.trim()`: white space removed from both ends, one character at a time. */
  function Trim(s: string): (r: string)
    ensures |r| <= |s|
    decreases |s|
  {
    if s != [] && IsJsSpace(s[0]) then Trim(s[1..])
    else if s != [] && IsJsSpace(s[|s| - 1]) then Trim(s[..|s| - 1])
    else s
  }

  /** Neither end of what `trim` returns is white space. */
  lemma {:induction false} TrimTrimmed(s: string)
    ensures IsTrimmed(Trim(s))
    decreases |s|
  {
    if s != [] && IsJsSpace(s[0]) {
      TrimTrimmed(s[1..]);
    } else if s != [] && IsJsSpace(s[|s| - 1]) {
      TrimTrimmed(s[..|s| - 1]);
    }
  }

  /** White space put in front moves the kept slice one place on. */
  lemma TrimmedAtCons(c: char, t: string, r: string, lo: int)
    requires IsJsSpace(c) && TrimmedAt(t, r, lo)
    ensures TrimmedAt([c] + t, r, lo + 1)
  {
    var s := [c] + t;
    assert s[lo + 1..lo + 1 + |r|] == t[lo..lo + |r|];
    assert s[..lo + 1] == [c] + t[..lo];
    assert s[lo + 1 + |r|..] == t[lo + |r|..];
  }

  /** White space at the end leaves the kept slice where it was. */
  lemma TrimmedAtSnoc(s: string, r: string)
    requires s != [] && IsJsSpace(s[|s| - 1]) && TrimmedAt(s[..|s| - 1], r, 0)
    ensures TrimmedAt(s, r, 0)
  {
    var t := s[..|s| - 1];
    assert s[..|r|] == t[..|r|];
    assert s[|r|..] == t[|r|..] + [s[|s| - 1]];
  }

  /** Leading white space: trimming the rest and putting the space back in front. */
  lemma TrimAtFront(s: string)
    requires s != [] && IsJsSpace(s[0])
    requires TrimmedAt(s[1..], Trim(s[1..]), LeadingSpaces(s[1..]))
    ensures TrimmedAt(s, Trim(s), LeadingSpaces(s))
  {
    TrimmedAtCons(s[0], s[1..], Trim(s), LeadingSpaces(s[1..]));
    assert [s[0]] + s[1..] == s;
  }

  /** Trailing white space after a non-space start: trimming the rest and putting the space back at the end. */
  lemma TrimAtBack(s: string)
    requires s != [] && !IsJsSpace(s[0]) && IsJsSpace(s[|s| - 1])
    requires TrimmedAt(s[..|s| - 1], Trim(s[..|s| - 1]), LeadingSpaces(s[..|s| - 1]))
    ensures TrimmedAt(s, Trim(s), LeadingSpaces(s))
  {
    var t := s[..|s| - 1];
    assert Trim(s) == Trim(t);
    assert LeadingSpaces(s) == 0;
    if t != [] {
      assert t[0] == s[0];
    }
    assert LeadingSpaces(t) == 0;
    TrimmedAtSnoc(s, Trim(t));
  }

  /** `trim` keeps the slice of `s` after its leading white space, and only white space lies around it. */
  lemma {:induction false} TrimAt(s: string)
    ensures TrimmedAt(s, Trim(s), LeadingSpaces(s))
    decreases |s|
  {
    if s != [] && IsJsSpace(s[0]) {
      TrimAt(s[1..]);
      TrimAtFront(s);
    } else if s != [] && IsJsSpace(s[|s| - 1]) {
      TrimAt(s[..|s| - 1]);
      TrimAtBack(s);
    } else {
      assert s[0..|s|] == s;
    }
  }

  /** Blank on both sides of a cut: blank as a whole. */
  lemma BlankSplit(s: string, lo: int)
    requires 0 <= lo <= |s| && IsBlank(s[..lo]) && IsBlank(s[lo..])
    ensures IsBlank(s)
  {
    forall i | 0 <= i < |s| ensures IsJsSpace(s[i]) {
      if i < lo {
        assert s[..lo][i] == s[i];
      } else {
        assert s[lo..][i - lo] == s[i];
      }
    }
  }

  /** What `trim` keeps and drops. */
  lemma TrimSpec(s: string)
    ensures IsTrimmed(Trim(s))
    ensures TrimmedAt(s, Trim(s), LeadingSpaces(s))
    ensures Trim(s) == [] <==> IsBlank(s)
  {
    TrimTrimmed(s);
    TrimAt(s);
    var r := Trim(s);
    var lo := LeadingSpaces(s);
    if r == [] {
      BlankSplit(s, lo);
    } else {
      assert r[0] == s[lo];
    }
  }

  /** `r` is `s[lo..]` up to its length, and what lies around it in `s` is white space. */
  predicate TrimmedAt(s: string, r: string, lo: int)
  {
    0 <= lo && lo + |r| <= |s| && s[lo..lo + |r|] == r
    && IsBlank(s[..lo]) && IsBlank(s[lo + |r|..])
  }

  /** A trimmed string is left unchanged by `trim`. */
  lemma TrimOfTrimmed(s: string)
    requires IsTrimmed(s)
    ensures Trim(s) == s
  {
  }

  /** `s.startsWith(t)` */
  predicate StartsWith(s: string, t: string)
  {
    |t| <= |s| && s[..|t|] == t
  }

  /** `s.endsWith(t)` */
  predicate EndsWith(s: string, t: string)
  {
    |t| <= |s| && s[|s| - |t|..] == t
  }

  /** `t` occurs in `s` starting at position `i`. */
  predicate OccursAt(s: string, t: string, i: int)
  {
    0 <= i && i + |t| <= |s| && s[i..i + |t|] == t
  }

  /** Whether `t` occurs in `s` at position `i` or later. */
  function ContainsFrom(s: string, t: string, i: nat): bool
    decreases |s| - i
  {
    if i + |t| > |s| then false
    else s[i..i + |t|] == t || ContainsFrom(s, t, i + 1)
  }

  /** `s.includes(t)`; ContainsSpec says what it means. */
  function Contains(s: string, t: string): bool
  {
    ContainsFrom(s, t, 0)
  }

  /** Whether `s` contains one of `words[k..]`. */
  predicate ContainsAnyFrom(s: string, words: seq<string>, k: nat)
    requires k <= |words|
    decreases |words| - k
  {
    k < |words| && (Contains(s, words[k]) || ContainsAnyFrom(s, words, k + 1))
  }

  /** `words.some(w => s.includes(w))`; ContainsAnySpec says what it means. */
  predicate ContainsAny(s: string, words: seq<string>)
  {
    ContainsAnyFrom(s, words, 0)
  }

  lemma {:induction false} ContainsAnyFromSpec(s: string, words: seq<string>, k: nat)
    requires k <= |words|
    ensures ContainsAnyFrom(s, words, k) <==> exists n :: k <= n < |words| && Contains(s, words[n])
    decreases |words| - k
  {
    if k < |words| {
      ContainsAnyFromSpec(s, words, k + 1);
    }
  }

  lemma ContainsAnySpec(s: string, words: seq<string>)
    ensures ContainsAny(s, words) <==> exists k :: 0 <= k < |words| && Contains(s, words[k])
  {
    ContainsAnyFromSpec(s, words, 0);
  }

  lemma {:induction false} ContainsFromSpec(s: string, t: string, i: nat)
    ensures ContainsFrom(s, t, i) <==> exists k :: i <= k && OccursAt(s, t, k)
    decreases |s| - i
  {
    if i + |t| <= |s| {
      ContainsFromSpec(s, t, i + 1);
      if s[i..i + |t|] == t {
        assert OccursAt(s, t, i);
      }
      if exists k :: i <= k && OccursAt(s, t, k) {
        var k :| i <= k && OccursAt(s, t, k);
        if k > i {
          assert i + 1 <= k && OccursAt(s, t, k);
        }
      }
    }
  }

  /** `t` occurs in `s` at some position exactly when `s.includes(t)`. */
  lemma ContainsSpec(s: string, t: string)
    ensures Contains(s, t) <==> exists i :: OccursAt(s, t, i)
  {
    ContainsFromSpec(s, t, 0);
  }

  /** A character occurs in `s` exactly when the one-character string does. */
  lemma ContainsChar(s: string, c: char)
    ensures Contains(s, [c]) <==> c in s
  {
    ContainsSpec(s, [c]);
    if c in s {
      var i :| 0 <= i < |s| && s[i] == c;
      assert s[i..i + 1] == [c];
      assert OccursAt(s, [c], i);
    }
    if Contains(s, [c]) {
      var i :| OccursAt(s, [c], i);
      assert s[i] == s[i..i + 1][0];
    }
  }

  /** An occurrence inside a slice of `s` is an occurrence in `s`. */
  lemma ContainsInSlice(s: string, lo: nat, hi: nat, t: string)
    requires lo <= hi <= |s| && Contains(s[lo..hi], t)
    ensures Contains(s, t)
  {
    ContainsSpec(s[lo..hi], t);
    ContainsSpec(s, t);
    var i :| OccursAt(s[lo..hi], t, i);
    var u := s[lo..hi];
    forall k | 0 <= k < |t| ensures s[lo + i..lo + i + |t|][k] == t[k] {
      assert u[i..i + |t|][k] == u[i + k];
    }
    assert OccursAt(s, t, lo + i);
  }

  /** Every string contains itself. */
  lemma ContainsWhole(s: string)
    ensures Contains(s, s)
  {
    assert OccursAt(s, s, 0);
    ContainsSpec(s, s);
  }

  /** What a string contains, it still contains once text is appended to it. */
  lemma ContainsLeft(s: string, b: string, t: string)
    requires Contains(s, t)
    ensures Contains(s + b, t)
  {
    assert (s + b)[..|s|] == s;
    ContainsInSlice(s + b, 0, |s|, t);
  }

  /** What a string contains, it still contains once text is prepended to it. */
  lemma ContainsRight(a: string, s: string, t: string)
    requires Contains(s, t)
    ensures Contains(a + s, t)
  {
    assert (a + s)[|a|..|a + s|] == s;
    ContainsInSlice(a + s, |a|, |a + s|, t);
  }

  /** A prefix stays a prefix when text is appended. */
  lemma StartsWithin(s: string, b: string, t: string)
    requires StartsWith(s, t)
    ensures StartsWith(s + b, t)
  {
    assert (s + b)[..|t|] == s[..|t|];
  }

  /** A suffix stays a suffix when text is prepended. */
  lemma EndsWithin(a: string, s: string, t: string)
    requires EndsWith(s, t)
    ensures EndsWith(a + s, t)
  {
    assert (a + s)[|a + s| - |t|..] == s[|s| - |t|..];
  }

  /**
   * `s.split(c)` for every `c` in `seps` at once (one character, or a
   * regular-expression character class): the pieces between separators,
   * empty pieces included.
   */
  function Split(s: string, seps: set<char>): (r: seq<string>)
    ensures |r| >= 1
    decreases |s|
  {
    if s == [] then [""]
    else
      var rest := Split(s[1..], seps);
      if s[0] in seps then [""] + rest
      else [[s[0]] + rest[0]] + rest[1..]
  }

  /** The number of characters of `s` that are in `seps`. */
  function SeparatorCount(s: string, seps: set<char>): nat
    decreases |s|
  {
    if s == [] then 0 else (if s[0] in seps then 1 else 0) + SeparatorCount(s[1..], seps)
  }

  /** No piece of a split holds a separator, and there is one piece more than there are separators. */
  lemma {:induction false} SplitPieces(s: string, seps: set<char>)
    ensures var r := Split(s, seps);
      (forall k :: 0 <= k < |r| ==> forall j :: 0 <= j < |r[k]| ==> r[k][j] !in seps)
      && |r| == 1 + SeparatorCount(s, seps)
    decreases |s|
  {
    if s != [] {
      SplitPieces(s[1..], seps);
      var rest := Split(s[1..], seps);
      var r := Split(s, seps);
      if s[0] !in seps {
        forall k | 0 <= k < |r| ensures forall j :: 0 <= j < |r[k]| ==> r[k][j] !in seps {
          if k == 0 {
            assert r[0] == [s[0]] + rest[0];
          } else {
            assert r[k] == rest[k];
          }
        }
      }
    }
  }

  /** `s.split(c)[0]`: the part of `s` before its first `c`, or all of `s`. */
  lemma {:induction false} SplitFirst(s: string, c: char)
    ensures var p := Split(s, {c})[0];
      p <= s && c !in p && (|p| < |s| ==> s[|p|] == c)
    decreases |s|
  {
    if s != [] && s[0] != c {
      SplitFirst(s[1..], c);
      var rest := Split(s[1..], {c});
      assert Split(s, {c})[0] == [s[0]] + rest[0];
    }
  }

  /** `parts.join(sep)` */
  function Join(parts: seq<string>, sep: string): string
  {
    if |parts| == 0 then ""
    else if |parts| == 1 then parts[0]
    else parts[0] + sep + Join(parts[1..], sep)
  }

  /** Splitting on one character and joining back with it gives the original string. */
  lemma {:induction false} JoinSplit(s: string, c: char)
    ensures Join(Split(s, {c}), [c]) == s
    decreases |s|
  {
    if s != [] {
      var rest := Split(s[1..], {c});
      JoinSplit(s[1..], c);
      if s[0] == c {
        assert Split(s, {c}) == [""] + rest;
        assert ([""] + rest)[1..] == rest;
        assert s == [c] + s[1..];
      } else {
        var r := Split(s, {c});
        assert r == [[s[0]] + rest[0]] + rest[1..];
        if |rest| == 1 {
          assert s == [s[0]] + rest[0];
        } else {
          assert Join(rest, [c]) == rest[0] + [c] + Join(rest[1..], [c]);
          assert r[1..] == rest[1..];
          assert s == [s[0]] + s[1..];
        }
      }
    }
  }

  /** An occurrence past the first character is an occurrence in the rest of the string. */
  lemma OccursShift(s: string, t: string, j: int)
    requires s != [] && 1 <= j
    ensures OccursAt(s, t, j) <==> OccursAt(s[1..], t, j - 1)
  {
    if j + |t| <= |s| {
      assert s[1..][j - 1..j - 1 + |t|] == s[j..j + |t|];
    }
  }

  /** The first position at which `t` occurs in `s`. */
  function IndexOf(s: string, t: string): (r: Option<nat>)
    ensures r.Some? ==> OccursAt(s, t, r.value)
    ensures r.Some? ==> forall j :: 0 <= j < r.value ==> !OccursAt(s, t, j)
    ensures r.None? ==> forall j :: 0 <= j ==> !OccursAt(s, t, j)
    decreases |s|
  {
    if |t| > |s| then None
    else if s[..|t|] == t then Some(0)
    else
      match IndexOf(s[1..], t)
      case None =>
        assert forall j :: 1 <= j ==> !OccursAt(s, t, j) by {
          forall j | 1 <= j ensures !OccursAt(s, t, j) {
            OccursShift(s, t, j);
          }
        }
        None
      case Some(i) =>
        assert OccursAt(s, t, i + 1) by {
          OccursShift(s, t, i + 1);
        }
        assert forall j :: 1 <= j < i + 1 ==> !OccursAt(s, t, j) by {
          forall j | 1 <= j < i + 1 ensures !OccursAt(s, t, j) {
            OccursShift(s, t, j);
          }
        }
        Some(i + 1)
  }

  /** `s.split(sep)` for a non-empty string separator, cutting at non-overlapping occurrences from the left. */
  function SplitOn(s: string, sep: string): (r: seq<string>)
    requires |sep| > 0
    ensures |r| >= 1
    decreases |s|
  {
    match IndexOf(s, sep)
    case None => [s]
    case Some(i) => [s[..i]] + SplitOn(s[i + |sep|..], sep)
  }

  /** Splitting on a string and joining back with it gives the original string. */
  lemma {:induction false} JoinSplitOn(s: string, sep: string)
    requires |sep| > 0
    ensures Join(SplitOn(s, sep), sep) == s
    decreases |s|
  {
    match IndexOf(s, sep)
    case None =>
    case Some(i) =>
      var rest := SplitOn(s[i + |sep|..], sep);
      JoinSplitOn(s[i + |sep|..], sep);
      assert SplitOn(s, sep) == [s[..i]] + rest;
      assert ([s[..i]] + rest)[1..] == rest;
      assert s == s[..i] + s[i..i + |sep|] + s[i + |sep|..];
  }

  /** An occurrence of `t` in `parts` joined with a separator character that `t` lacks lies inside one part. */
  lemma {:induction false} ContainsInJoin(parts: seq<string>, c: char, t: string)
    requires t != [] && c !in t && Contains(Join(parts, [c]), t)
    ensures exists k :: 0 <= k < |parts| && Contains(parts[k], t)
    decreases |parts|
  {
    ContainsSpec(Join(parts, [c]), t);
    if |parts| == 0 {
    } else if |parts| == 1 {
      assert Contains(parts[0], t);
    } else {
      var rest := Join(parts[1..], [c]);
      var s := parts[0] + [c] + rest;
      assert Join(parts, [c]) == s;
      var i :| OccursAt(s, t, i);
      var n := |parts[0]|;
      assert forall k :: i <= k < i + |t| ==> s[k] == t[k - i];
      assert s[n] == c;
      if i + |t| <= n {
        assert parts[0][i..i + |t|] == s[i..i + |t|];
        assert OccursAt(parts[0], t, i);
        ContainsSpec(parts[0], t);
      } else {
        assert i > n;
        assert rest[i - n - 1..i - n - 1 + |t|] == s[i..i + |t|];
        assert OccursAt(rest, t, i - n - 1);
        ContainsSpec(rest, t);
        ContainsInJoin(parts[1..], c, t);
        var k :| 0 <= k < |parts[1..]| && Contains(parts[1..][k], t);
        assert parts[k + 1] == parts[1..][k];
      }
    }
  }

  /** Lowercasing commutes with joining by a character that is not an upper-case letter. */
  lemma {:induction false} LowerJoin(parts: seq<string>, c: char)
    requires !IsUpper(c)
    ensures Lower(Join(parts, [c])) == Join(LowerAll(parts), [c])
    decreases |parts|
  {
    if |parts| > 1 {
      LowerJoin(parts[1..], c);
      LowerAppend(parts[0] + [c], Join(parts[1..], [c]));
      LowerAppend(parts[0], [c]);
      assert LowerAll(parts)[1..] == LowerAll(parts[1..]);
    }
  }

  /** `toLowerCase` applied to every element. */
  function LowerAll(parts: seq<string>): (r: seq<string>)
    ensures |r| == |parts|
    ensures forall k :: 0 <= k < |parts| ==> r[k] == Lower(parts[k])
  {
    if parts == [] then [] else [Lower(parts[0])] + LowerAll(parts[1..])
  }

  /** `s.replace(/\s+/g, '')`: every white-space character removed. */
  function RemoveSpaces(s: string): (r: string)
    ensures forall i :: 0 <= i < |r| ==> !IsJsSpace(r[i])
    ensures |r| <= |s|
    ensures IsSubsequence(r, s)
    ensures forall c :: !IsJsSpace(c) ==> multiset(r)[c] == multiset(s)[c]
  {
    if s == [] then []
    else
      assert s == [s[0]] + s[1..];
      var rest := RemoveSpaces(s[1..]);
      if IsJsSpace(s[0]) then
        SubsequenceCons(rest, s[1..], s[0]);
        rest
      else
        assert ([s[0]] + rest)[1..] == rest;
        [s[0]] + rest
  }
}
