/**
 * A backtracking matcher for the fragment of JavaScript regular
 * expressions (no `u` flag) that the source's fixed patterns use:
 * single-character classes, each used once or with `?`, `*` or `+`
 * (greedy), the assertions `^`, `$` and `\b`, and a top-level
 * alternation tried in order. A pattern is a list of alternatives, each a
 * list of atoms; an optional group of the source is written out as two
 * alternatives, the one with the group first.
 *
 * Searching follows `String.prototype.match`, `RegExp.prototype.test` and
 * the global (`/g`) forms of both, including the `lastIndex` that a
 * global pattern carries from one `test` call to the next.
 */
module Regex {
  import opened Wrappers
  import opened Text

  datatype CharClass =
    | Lit(c: char)          // one literal character
    | NoCase(c: char)       // a lower-case letter under the `i` flag
    | UpperLetter           // [A-Z]
    | LowerLetter           // [a-z]
    | DecimalDigit          // [0-9]
    | WhiteSpace            // \s
    | EmailLocal            // [A-Za-z0-9._%+-]
    | EmailDomain           // [A-Za-z0-9.-]
    | EmailTld              // [A-Z|a-z]  (the `|` is a member of the class)
    | PhoneSep              // [-.\s]

  predicate Holds(k: CharClass, ch: char)
  {
    match k
    case Lit(c) => ch == c
    case NoCase(c) => LowerChar(ch) == c
    case UpperLetter => IsUpper(ch)
    case LowerLetter => IsLower(ch)
    case DecimalDigit => IsDigit(ch)
    case WhiteSpace => IsJsSpace(ch)
    case EmailLocal => IsUpper(ch) || IsLower(ch) || IsDigit(ch) || ch in "._%+-"
    case EmailDomain => IsUpper(ch) || IsLower(ch) || IsDigit(ch) || ch in ".-"
    case EmailTld => IsUpper(ch) || IsLower(ch) || ch == '|'
    case PhoneSep => ch == '-' || ch == '.' || IsJsSpace(ch)
  }

  datatype Atom =
    | One(k: CharClass)
    | Opt(k: CharClass)     // k?
    | Star(k: CharClass)    // k*
    | Plus(k: CharClass)    // k+
    | StartOfInput          // ^ (no `m` flag)
    | EndOfInput            // $ (no `m` flag)
    | WordBoundary          // \b

  /** `\b` holds at position `p`: exactly one of the characters around it is a word character. */
  predicate AtBoundary(s: string, p: nat)
    requires p <= |s|
  {
    (p > 0 && IsWordChar(s[p - 1])) != (p < |s| && IsWordChar(s[p]))
  }

  /**
   * The end of the match of `atoms[j..]` starting at `p`, choosing among
   * the ways to match in the order a backtracking engine tries them: a
   * quantifier first takes as many characters as it can.
   */
  function MatchFrom(atoms: seq<Atom>, j: nat, s: string, p: nat): (r: Option<nat>)
    requires j <= |atoms| && p <= |s|
    ensures r.Some? ==> p <= r.value <= |s|
    decreases |atoms| - j, |s| - p, 1
  {
    if j == |atoms| then Some(p)
    else
      match atoms[j]
      case One(k) =>
        if p < |s| && Holds(k, s[p]) then MatchFrom(atoms, j + 1, s, p + 1) else None
      case Opt(k) =>
        if p < |s| && Holds(k, s[p]) && MatchFrom(atoms, j + 1, s, p + 1).Some? then MatchFrom(atoms, j + 1, s, p + 1)
        else MatchFrom(atoms, j + 1, s, p)
      case Star(k) =>
        MatchStar(atoms, j, k, s, p)
      case Plus(k) =>
        if p < |s| && Holds(k, s[p]) then MatchStar(atoms, j, k, s, p + 1) else None
      case StartOfInput =>
        if p == 0 then MatchFrom(atoms, j + 1, s, p) else None
      case EndOfInput =>
        if p == |s| then MatchFrom(atoms, j + 1, s, p) else None
      case WordBoundary =>
        if AtBoundary(s, p) then MatchFrom(atoms, j + 1, s, p) else None
  }

  /**
   * A greedy `k*` at `atoms[j]` from `p`, then `atoms[j + 1..]`: one more
   * character of class `k` when the rest can still match after it,
   * otherwise the rest from here.
   */
  function MatchStar(atoms: seq<Atom>, j: nat, k: CharClass, s: string, p: nat): (r: Option<nat>)
    requires j < |atoms| && p <= |s|
    ensures r.Some? ==> p <= r.value <= |s|
    decreases |atoms| - j, |s| - p, 0
  {
    if p < |s| && Holds(k, s[p]) && MatchStar(atoms, j, k, s, p + 1).Some? then MatchStar(atoms, j, k, s, p + 1)
    else MatchFrom(atoms, j + 1, s, p)
  }

  /** The end of the match of the whole alternative `atoms` starting at `p`. */
  function MatchAt(atoms: seq<Atom>, s: string, p: nat): (r: Option<nat>)
    requires p <= |s|
    ensures r.Some? ==> p <= r.value <= |s|
  {
    MatchFrom(atoms, 0, s, p)
  }

  /**
   * Where a run of class-`k` characters from `p` stops at `q` and the rest
   * of the alternative matches from `q`, the greedy `k*` takes the whole
   * run.
   */
  lemma {:induction false} StarRun(atoms: seq<Atom>, j: nat, k: CharClass, s: string, p: nat, q: nat)
    requires j < |atoms| && p <= q <= |s| && forall i :: p <= i < q ==> Holds(k, s[i])
    requires (q == |s| || !Holds(k, s[q])) && MatchFrom(atoms, j + 1, s, q).Some?
    ensures MatchStar(atoms, j, k, s, p) == MatchFrom(atoms, j + 1, s, q)
    decreases q - p
  {
    if p < q {
      StarRun(atoms, j, k, s, p + 1, q);
    }
  }

  /** The first of `alts[a..]` that matches at `p` decides the match. */
  function AltsFrom(alts: seq<seq<Atom>>, a: nat, s: string, p: nat): (r: Option<nat>)
    requires a <= |alts| && p <= |s|
    ensures r.Some? ==> p <= r.value <= |s|
    decreases |alts| - a
  {
    if a == |alts| then None
    else if MatchAt(alts[a], s, p).Some? then MatchAt(alts[a], s, p)
    else AltsFrom(alts, a + 1, s, p)
  }

  /** The first alternative that matches at `p` decides the match. */
  function MatchAlts(alts: seq<seq<Atom>>, s: string, p: nat): (r: Option<nat>)
    requires p <= |s|
    ensures r.Some? ==> p <= r.value <= |s|
  {
    AltsFrom(alts, 0, s, p)
  }

  lemma {:induction false} AltsFromSpec(alts: seq<seq<Atom>>, a: nat, s: string, p: nat)
    requires a <= |alts| && p <= |s|
    ensures var r := AltsFrom(alts, a, s, p);
      && (r.Some? ==> exists b :: a <= b < |alts| && MatchAt(alts[b], s, p) == r)
      && (r.None? ==> forall b :: a <= b < |alts| ==> MatchAt(alts[b], s, p).None?)
    decreases |alts| - a
  {
    if a < |alts| && MatchAt(alts[a], s, p).None? {
      AltsFromSpec(alts, a + 1, s, p);
    }
  }

  /** A match of the alternation is a match of one alternative; no match, of none. */
  lemma MatchAltsSpec(alts: seq<seq<Atom>>, s: string, p: nat)
    requires p <= |s|
    ensures var r := MatchAlts(alts, s, p);
      && (r.Some? ==> exists a :: 0 <= a < |alts| && MatchAt(alts[a], s, p) == r)
      && (r.None? ==> forall a :: 0 <= a < |alts| ==> MatchAt(alts[a], s, p).None?)
  {
    AltsFromSpec(alts, 0, s, p);
  }

  /** The leftmost match starting at or after `from`, as (start, end). */
  function Search(alts: seq<seq<Atom>>, s: string, from: nat): (r: Option<(nat, nat)>)
    requires from <= |s|
    ensures r.Some? ==> from <= r.value.0 <= r.value.1 <= |s|
    ensures r.Some? ==> MatchAlts(alts, s, r.value.0) == Some(r.value.1)
    decreases |s| - from
  {
    match MatchAlts(alts, s, from)
    case Some(e) => Some((from, e))
    case None => if from == |s| then None else Search(alts, s, from + 1)
  }

  /** The match Search finds is the leftmost one; when it finds none, there is none. */
  lemma {:induction false} SearchSpec(alts: seq<seq<Atom>>, s: string, from: nat)
    requires from <= |s|
    ensures var r := Search(alts, s, from);
      && (r.Some? ==> forall q :: from <= q < r.value.0 ==> MatchAlts(alts, s, q).None?)
      && (r.None? ==> forall q :: from <= q <= |s| ==> MatchAlts(alts, s, q).None?)
    decreases |s| - from
  {
    if MatchAlts(alts, s, from).None? && from < |s| {
      SearchSpec(alts, s, from + 1);
    }
  }

  /** `s.match(re)` without the `g` flag: the leftmost matched text, if any. */
  function FirstMatch(alts: seq<seq<Atom>>, s: string): Option<string>
  {
    match Search(alts, s, 0)
    case None => None
    case Some((st, e)) => Some(s[st..e])
  }

  /** `re.test(s)` without the `g` flag. */
  predicate Test(alts: seq<seq<Atom>>, s: string)
  {
    Search(alts, s, 0).Some?
  }

  /** `s[st..e]` is a match of the pattern starting at `st`. */
  predicate MatchSpan(alts: seq<seq<Atom>>, s: string, st: int, e: int)
  {
    0 <= st <= e <= |s| && MatchAlts(alts, s, st) == Some(e)
  }

  /**
   * `s.match(re)` with the `g` flag, starting with `lastIndex == from`:
   * every match, left to right, each search resuming where the previous
   * match ended (one further on after an empty match). The source's
   * `null` for "no match" is the empty list here.
   */
  function MatchAll(alts: seq<seq<Atom>>, s: string, from: nat): (r: seq<string>)
    requires from <= |s|
    ensures forall m :: m in r ==> exists st, e :: MatchSpan(alts, s, st, e) && m == s[st..e]
    decreases |s| - from
  {
    match Search(alts, s, from)
    case None => []
    case Some((st, e)) =>
      assert MatchSpan(alts, s, st, e);
      var next := if e == st then e + 1 else e;
      [s[st..e]] + (if next > |s| then [] else MatchAll(alts, s, next))
  }

  /**
   * `re.test(s)` with the `g` flag when `re.lastIndex == lastIndex`: the
   * answer and the new `lastIndex` (the end of the match, or 0 after a
   * failure, including a start beyond the end of `s`).
   */
  function TestGlobal(alts: seq<seq<Atom>>, s: string, lastIndex: nat): (r: (bool, nat))
    ensures !r.0 ==> r.1 == 0
    ensures r.0 ==> lastIndex <= r.1 <= |s|
    ensures r.0 <==> lastIndex <= |s| && Search(alts, s, lastIndex).Some?
    ensures r.0 ==> r.1 == Search(alts, s, lastIndex).value.1
  {
    if lastIndex > |s| then (false, 0)
    else
      match Search(alts, s, lastIndex)
      case None => (false, 0)
      case Some((st, e)) => (true, e)
  }

  /**
   * A global `match` from `from` is empty exactly when no position from
   * `from` on matches; otherwise its first element is the leftmost match,
   * and the rest is the global `match` resumed at that match's end (one
   * further on after an empty match).
   */
  lemma MatchAllLeftmost(alts: seq<seq<Atom>>, s: string, from: nat)
    requires from <= |s|
    ensures var r := MatchAll(alts, s, from);
      && (r == [] <==> forall q :: from <= q <= |s| ==> MatchAlts(alts, s, q).None?)
      && (r != [] ==> exists st, e :: MatchSpan(alts, s, st, e) && r[0] == s[st..e]
                        && from <= st && (forall q :: from <= q < st ==> MatchAlts(alts, s, q).None?)
                        && var next := if e == st then e + 1 else e;
                           r[1..] == if next > |s| then [] else MatchAll(alts, s, next))
  {
    SearchSpec(alts, s, from);
    var sr := Search(alts, s, from);
    if sr.Some? {
      var st, e := sr.value.0, sr.value.1;
      assert MatchSpan(alts, s, st, e);
      var next := if e == st then e + 1 else e;
      var r := MatchAll(alts, s, from);
      assert r == [s[st..e]] + (if next > |s| then [] else MatchAll(alts, s, next));
      assert r[0] == s[st..e];
      assert r[1..] == if next > |s| then [] else MatchAll(alts, s, next);
    } else {
      assert MatchAll(alts, s, from) == [];
    }
  }

  /**
   * A global `test` succeeds exactly when some position from `lastIndex`
   * on matches, and then moves `lastIndex` to the end of the leftmost such
   * match.
   */
  lemma TestGlobalLeftmost(alts: seq<seq<Atom>>, s: string, lastIndex: nat)
    ensures var r := TestGlobal(alts, s, lastIndex);
      && (r.0 <==> exists q :: lastIndex <= q <= |s| && MatchAlts(alts, s, q).Some?)
      && (r.0 ==> exists st :: MatchSpan(alts, s, st, r.1) && lastIndex <= st
                    && forall q :: lastIndex <= q < st ==> MatchAlts(alts, s, q).None?)
  {
    if lastIndex <= |s| {
      SearchSpec(alts, s, lastIndex);
      var sr := Search(alts, s, lastIndex);
      if sr.Some? {
        assert MatchSpan(alts, s, sr.value.0, sr.value.1);
        assert MatchAlts(alts, s, sr.value.0).Some?;
      }
    }
  }

  /** A global `test` that starts from 0 answers like the non-global one. */
  lemma TestGlobalFromZero(alts: seq<seq<Atom>>, s: string)
    ensures TestGlobal(alts, s, 0).0 == Test(alts, s)
  {
  }

  // ---------------------------------------------------------------------
  // What a match must contain.

  /** The number of positions in `[lo, hi)` of `s` whose character is in class `k`. */
  function CountIn(k: CharClass, s: string, lo: nat, hi: nat): nat
    requires lo <= hi <= |s|
    decreases hi - lo
  {
    if lo == hi then 0 else (if Holds(k, s[lo]) then 1 else 0) + CountIn(k, s, lo + 1, hi)
  }

  /** The number of characters of `t` in class `k`. */
  function Count(k: CharClass, t: string): nat
  {
    CountIn(k, t, 0, |t|)
  }

  lemma {:induction false} CountSplit(k: CharClass, s: string, lo: nat, mid: nat, hi: nat)
    requires lo <= mid <= hi <= |s|
    ensures CountIn(k, s, lo, hi) == CountIn(k, s, lo, mid) + CountIn(k, s, mid, hi)
    decreases mid - lo
  {
    if lo < mid {
      CountSplit(k, s, lo + 1, mid, hi);
    }
  }

  lemma {:induction false} CountSlice(k: CharClass, s: string, lo: nat, hi: nat)
    requires lo <= hi <= |s|
    ensures CountIn(k, s, lo, hi) == Count(k, s[lo..hi])
    decreases hi - lo
  {
    if lo < hi {
      CountSlice(k, s, lo + 1, hi);
      var t := s[lo..hi];
      CountShift(k, t);
      assert t[1..] == s[lo + 1..hi];
    }
  }

  lemma {:induction false} CountShift(k: CharClass, t: string)
    requires t != []
    ensures Count(k, t) == (if Holds(k, t[0]) then 1 else 0) + Count(k, t[1..])
  {
    CountOffset(k, t, 1, |t|);
  }

  /** Counting in `t[d..]` from `lo - d` is counting in `t` from `lo`. */
  lemma {:induction false} CountOffset(k: CharClass, t: string, lo: nat, hi: nat)
    requires 1 <= lo <= hi <= |t|
    ensures CountIn(k, t, lo, hi) == CountIn(k, t[1..], lo - 1, hi - 1)
    decreases hi - lo
  {
    if lo < hi {
      CountOffset(k, t, lo + 1, hi);
    }
  }

  /** A character in class `k` at a position of `[lo, hi)` makes the count positive. */
  lemma {:induction false} CountPositive(k: CharClass, s: string, lo: nat, hi: nat)
    requires lo <= hi <= |s| && CountIn(k, s, lo, hi) > 0
    ensures exists i :: lo <= i < hi && Holds(k, s[i])
    decreases hi - lo
  {
    if !Holds(k, s[lo]) {
      CountPositive(k, s, lo + 1, hi);
    }
  }

  /** How many characters of class `k` every match of `atoms` consumes at least (from `One(k)` and `Plus(k)`). */
  function Needed(atoms: seq<Atom>, k: CharClass): nat
  {
    if atoms == [] then 0
    else
      (match atoms[0]
       case One(c) => if c == k then 1 else 0
       case Plus(c) => if c == k then 1 else 0
       case _ => 0)
      + Needed(atoms[1..], k)
  }

  /** What `atoms[j..]` needs: what its first atom needs and what the rest needs. */
  lemma NeededCons(atoms: seq<Atom>, j: nat, k: CharClass)
    requires j < |atoms|
    ensures Needed(atoms[j..], k) ==
      (match atoms[j]
       case One(c) => if c == k then 1 else 0
       case Plus(c) => if c == k then 1 else 0
       case _ => 0)
      + Needed(atoms[j + 1..], k)
  {
    assert atoms[j..][0] == atoms[j];
    assert atoms[j..][1..] == atoms[j + 1..];
  }

  /** A match of `atoms[j..]` holds at least `Needed(atoms[j..], k)` characters of class `k`. */
  lemma {:induction false} MatchFromNeeds(atoms: seq<Atom>, j: nat, s: string, p: nat, k: CharClass)
    requires j <= |atoms| && p <= |s| && MatchFrom(atoms, j, s, p).Some?
    ensures CountIn(k, s, p, MatchFrom(atoms, j, s, p).value) >= Needed(atoms[j..], k)
    decreases |atoms| - j, |s| - p, 1
  {
    if j == |atoms| {
      return;
    }
    NeededCons(atoms, j, k);
    var e := MatchFrom(atoms, j, s, p).value;
    match atoms[j]
    case One(c) =>
      assert MatchFrom(atoms, j, s, p) == MatchFrom(atoms, j + 1, s, p + 1);
      MatchFromNeeds(atoms, j + 1, s, p + 1, k);
      assert CountIn(k, s, p, e) == (if Holds(k, s[p]) then 1 else 0) + CountIn(k, s, p + 1, e);
    case Opt(c) =>
      if p < |s| && Holds(c, s[p]) && MatchFrom(atoms, j + 1, s, p + 1).Some? {
        MatchFromNeeds(atoms, j + 1, s, p + 1, k);
      } else {
        MatchFromNeeds(atoms, j + 1, s, p, k);
      }
    case Star(c) =>
      MatchStarNeeds(atoms, j, c, s, p, k);
    case Plus(c) =>
      MatchStarNeeds(atoms, j, c, s, p + 1, k);
    case StartOfInput =>
      MatchFromNeeds(atoms, j + 1, s, p, k);
    case EndOfInput =>
      MatchFromNeeds(atoms, j + 1, s, p, k);
    case WordBoundary =>
      MatchFromNeeds(atoms, j + 1, s, p, k);
  }

  /** A match of a `k*` and what follows it holds what the rest needs. */
  lemma {:induction false} MatchStarNeeds(atoms: seq<Atom>, j: nat, c: CharClass, s: string, p: nat, k: CharClass)
    requires j < |atoms| && p <= |s| && MatchStar(atoms, j, c, s, p).Some?
    ensures CountIn(k, s, p, MatchStar(atoms, j, c, s, p).value) >= Needed(atoms[j + 1..], k)
    decreases |atoms| - j, |s| - p, 0
  {
    if p < |s| && Holds(c, s[p]) && MatchStar(atoms, j, c, s, p + 1).Some? {
      MatchStarNeeds(atoms, j, c, s, p + 1, k);
    } else {
      MatchFromNeeds(atoms, j + 1, s, p, k);
    }
  }

  /** A match of `atoms` holds at least `Needed(atoms, k)` characters of class `k`. */
  lemma MatchNeeds(atoms: seq<Atom>, s: string, p: nat, k: CharClass)
    requires p <= |s| && MatchAt(atoms, s, p).Some?
    ensures CountIn(k, s, p, MatchAt(atoms, s, p).value) >= Needed(atoms, k)
  {
    assert atoms[0..] == atoms;
    MatchFromNeeds(atoms, 0, s, p, k);
  }

  /** Every alternative of the pattern needs at least `n` characters of class `k`. */
  predicate AllNeed(alts: seq<seq<Atom>>, k: CharClass, n: nat)
  {
    forall a :: 0 <= a < |alts| ==> Needed(alts[a], k) >= n
  }

  lemma MatchAltsNeeds(alts: seq<seq<Atom>>, s: string, p: nat, k: CharClass, n: nat)
    requires p <= |s| && AllNeed(alts, k, n) && MatchAlts(alts, s, p).Some?
    ensures CountIn(k, s, p, MatchAlts(alts, s, p).value) >= n
  {
    MatchAltsSpec(alts, s, p);
    var a :| 0 <= a < |alts| && MatchAt(alts[a], s, p) == MatchAlts(alts, s, p);
    MatchNeeds(alts[a], s, p, k);
  }

  /** The text of every match of such a pattern holds at least `n` characters of class `k`. */
  lemma SpanNeeds(alts: seq<seq<Atom>>, s: string, st: nat, e: nat, k: CharClass, n: nat)
    requires AllNeed(alts, k, n) && MatchSpan(alts, s, st, e)
    ensures Count(k, s[st..e]) >= n
  {
    MatchAltsNeeds(alts, s, st, k, n);
    CountSlice(k, s, st, e);
  }

  /** A pattern whose every alternative needs a class that `s[from..]` lacks finds nothing from `from` on. */
  lemma SearchFails(alts: seq<seq<Atom>>, s: string, from: nat, k: CharClass)
    requires from <= |s| && AllNeed(alts, k, 1) && CountIn(k, s, from, |s|) == 0
    ensures Search(alts, s, from).None?
  {
    if Search(alts, s, from).Some? {
      var (st, e) := Search(alts, s, from).value;
      MatchAltsNeeds(alts, s, st, k, 1);
      CountSplit(k, s, from, st, |s|);
      CountSplit(k, s, st, e, |s|);
    }
  }

  /** No position of `[lo, hi)` holds a character of class `k`. */
  lemma {:induction false} CountZero(k: CharClass, s: string, lo: nat, hi: nat)
    requires lo <= hi <= |s| && forall i :: lo <= i < hi ==> !Holds(k, s[i])
    ensures CountIn(k, s, lo, hi) == 0
    decreases hi - lo
  {
    if lo < hi {
      CountZero(k, s, lo + 1, hi);
    }
  }

  /**
   * When each alternative needs a character class (`ks[a]` for alternative
   * `a`) that `s[from..]` lacks, nothing matches from `from` on.
   */
  lemma SearchFailsEach(alts: seq<seq<Atom>>, s: string, from: nat, ks: seq<CharClass>)
    requires from <= |s| && |ks| == |alts|
    requires forall a :: 0 <= a < |alts| ==> Needed(alts[a], ks[a]) >= 1
    requires forall a :: 0 <= a < |ks| ==> CountIn(ks[a], s, from, |s|) == 0
    ensures Search(alts, s, from).None?
  {
    if Search(alts, s, from).Some? {
      var (st, e) := Search(alts, s, from).value;
      MatchAltsSpec(alts, s, st);
      var a :| 0 <= a < |alts| && MatchAt(alts[a], s, st) == Some(e);
      MatchNeeds(alts[a], s, st, ks[a]);
      CountSplit(ks[a], s, from, st, |s|);
      CountSplit(ks[a], s, st, e, |s|);
    }
  }

  /** The same, for a global `test` from `lastIndex`: it fails and resets `lastIndex`. */
  lemma TestGlobalFailsEach(alts: seq<seq<Atom>>, s: string, lastIndex: nat, ks: seq<CharClass>)
    requires lastIndex <= |s| && |ks| == |alts|
    requires forall a :: 0 <= a < |alts| ==> Needed(alts[a], ks[a]) >= 1
    requires forall a :: 0 <= a < |ks| ==> CountIn(ks[a], s, lastIndex, |s|) == 0
    ensures TestGlobal(alts, s, lastIndex) == (false, 0)
  {
    SearchFailsEach(alts, s, lastIndex, ks);
  }

  lemma {:induction false} NeededAppend(a: seq<Atom>, b: seq<Atom>, k: CharClass)
    ensures Needed(a + b, k) == Needed(a, k) + Needed(b, k)
    decreases |a|
  {
    if a == [] {
      assert a + b == b;
    } else {
      assert (a + b)[1..] == a[1..] + b;
      NeededAppend(a[1..], b, k);
    }
  }

  /** An alternative holding `One(k)` needs a character of class `k`. */
  lemma {:induction false} NeededOne(atoms: seq<Atom>, i: nat, k: CharClass)
    requires i < |atoms| && atoms[i] == One(k)
    ensures Needed(atoms, k) >= 1
    decreases i
  {
    if i > 0 {
      NeededOne(atoms[1..], i - 1, k);
    }
  }

  /** A pattern anchored by `^` and then one character of class `k` only matches text that starts with such a character. */
  lemma AnchoredLead(alts: seq<seq<Atom>>, s: string, k: CharClass)
    requires forall a :: 0 <= a < |alts| ==> |alts[a]| >= 2 && alts[a][0] == StartOfInput && alts[a][1] == One(k)
    requires Test(alts, s)
    ensures |s| > 0 && Holds(k, s[0])
  {
    var (st, e) := Search(alts, s, 0).value;
    MatchAltsSpec(alts, s, st);
    var a :| 0 <= a < |alts| && MatchAt(alts[a], s, st) == Some(e);
    assert st == 0;
    assert MatchFrom(alts[a], 1, s, 0).Some?;
  }
}
