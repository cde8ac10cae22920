/**
 * The single-value fields that the résumé parser
 * (src/utils/resumeParser.ts) extracts from the decoded text: email,
 * phone, name and location.
 */
module ResumeFields {
  import opened Wrappers
  import opened Text
  import opened Seqs
  import opened Regex
  import opened ResumePatterns

  /** `text.split('\n')` */
  function Lines(text: string): seq<string>
  {
    Split(text, {'\n'})
  }

  /** `text.split('\n').filter(line => line.trim())` */
  function NonBlankLines(text: string): (r: seq<string>)
    ensures forall l :: l in r <==> l in Lines(text) && Trim(l) != []
    ensures forall l :: multiset(r)[l] == if Trim(l) != [] then multiset(Lines(text))[l] else 0
    ensures IsSubsequence(r, Lines(text))
  {
    var keep := l => Trim(l) != [];
    FilterSpec(Lines(text), keep);
    FilterCount(Lines(text), keep);
    FilterIsSubsequence(Lines(text), keep);
    Filter(Lines(text), keep)
  }

  function Min(a: int, b: int): int
  {
    if a < b then a else b
  }

  // ---------------------------------------------------------------------
  // Email and phone: the first match of a fixed pattern, or "".

  /** `(m = text.match(re)) ? m[0] : ''` */
  function MatchOrEmpty(alts: seq<seq<Atom>>, text: string): string
  {
    match FirstMatch(alts, text)
    case Some(m) => m
    case None => ""
  }

  function ExtractEmail(text: string): (email: string)
    ensures email == "" || ('@' in email && Contains(text, email))
    ensures '@' !in text ==> email == ""
    ensures email != "" <==> Test(EmailPattern, text)
  {
    match Search(EmailPattern, text, 0)
    case None => MatchOrEmpty(EmailPattern, text)
    case Some((st, e)) =>
      EmailMatchHasAt(text, st, e);
      assert OccursAt(text, text[st..e], st);
      ContainsSpec(text, text[st..e]);
      assert '@' in text by {
        var i :| 0 <= i < e - st && text[st..e][i] == '@';
        assert text[st + i] == '@';
      }
      MatchOrEmpty(EmailPattern, text)
  }

  function ExtractPhone(text: string): (phone: string)
    ensures phone == "" || (Count(DecimalDigit, phone) >= 10 && Contains(text, phone))
    ensures Count(DecimalDigit, text) < 10 ==> phone == ""
    ensures phone != "" <==> Test(PhonePattern, text)
  {
    match Search(PhonePattern, text, 0)
    case None => MatchOrEmpty(PhonePattern, text)
    case Some((st, e)) =>
      PhoneMatchHasTenDigits(text, st, e);
      assert OccursAt(text, text[st..e], st);
      ContainsSpec(text, text[st..e]);
      CountSlice(DecimalDigit, text, st, e);
      CountSplit(DecimalDigit, text, 0, st, |text|);
      CountSplit(DecimalDigit, text, st, e, |text|);
      MatchOrEmpty(PhonePattern, text)
  }

  // ---------------------------------------------------------------------
  // Name.

  const NameNotFound: string := "Name Not Found"

  /** The first pass's test of a trimmed line (a name in one of the first five lines). */
  predicate FirstPassName(line: string)
  {
    line != [] && '@' !in line && !Contains(line, "http") && !Contains(line, "www.")
    && '+' !in line && 5 < |line| < 50
    && (Test(NameTwoWords, line) || Test(NameOneWord, line))
  }

  /** The fallback pass's test of a trimmed line. */
  predicate SecondPassName(line: string)
  {
    Test(NameFull, line) && '@' !in line && |line| < 50
  }

  /** The first of `lines[i..min(5, |lines|)]` that passes the first test, trimmed. */
  function NameFirstPass(lines: seq<string>, i: nat): (r: Option<string>)
    ensures r.Some? ==> FirstPassName(r.value)
    decreases |lines| - i
  {
    if i >= Min(5, |lines|) then None
    else if FirstPassName(Trim(lines[i])) then Some(Trim(lines[i]))
    else NameFirstPass(lines, i + 1)
  }

  /** The first of `lines[i..]` that passes the fallback test, trimmed. */
  function NameSecondPass(lines: seq<string>, i: nat): (r: Option<string>)
    ensures r.Some? ==> SecondPassName(r.value)
    decreases |lines| - i
  {
    if i >= |lines| then None
    else if SecondPassName(Trim(lines[i])) then Some(Trim(lines[i]))
    else NameSecondPass(lines, i + 1)
  }

  /** The name `extractName` returns for the non-blank lines `lines`. */
  function NameOf(lines: seq<string>): string
  {
    match NameFirstPass(lines, 0)
    case Some(n) => n
    case None =>
      match NameSecondPass(lines, 0)
      case Some(n) => n
      case None => NameNotFound
  }

  /** `extractName(lines, email)`: the email argument is not consulted. */
  method ExtractName(lines: seq<string>, email: string) returns (name: string)
    ensures name == NameOf(lines)
  {
    var i := 0;
    while i < Min(5, |lines|)
      invariant 0 <= i <= Min(5, |lines|)
      invariant forall j :: 0 <= j < i ==> !PassTest(true, Trim(lines[j]))
    {
      var line := Trim(lines[i]);
      if FirstPassName(line) {
        NameFirstPassWins(lines, i);
        return line;
      }
      NamePassStep(lines, i, true);
      i := i + 1;
    }
    NameFirstPassNone(lines, 0);
    var k := 0;
    while k < |lines|
      invariant 0 <= k <= |lines|
      invariant forall j :: 0 <= j < k ==> !PassTest(false, Trim(lines[j]))
    {
      var trimmed := Trim(lines[k]);
      if SecondPassName(trimmed) {
        NameSecondPassFrom(lines, 0, k);
        return trimmed;
      }
      NamePassStep(lines, k, false);
      k := k + 1;
    }
    NameSecondPassNone(lines, 0);
    return NameNotFound;
  }

  /** The test of pass one (`first`) or pass two on the trimmed `line`. */
  predicate PassTest(first: bool, line: string)
  {
    if first then FirstPassName(line) else SecondPassName(line)
  }

  lemma NamePassStep(lines: seq<string>, i: nat, first: bool)
    requires i < |lines| && !PassTest(first, Trim(lines[i]))
    requires forall j :: 0 <= j < i ==> !PassTest(first, Trim(lines[j]))
    ensures forall j :: 0 <= j < i + 1 ==> !PassTest(first, Trim(lines[j]))
  {
  }

  lemma {:induction false} NameFirstPassNone(lines: seq<string>, k: nat)
    requires forall j :: k <= j < Min(5, |lines|) ==> !FirstPassName(Trim(lines[j]))
    ensures NameFirstPass(lines, k) == None
    decreases |lines| - k
  {
    if k < Min(5, |lines|) {
      NameFirstPassNone(lines, k + 1);
    }
  }

  lemma {:induction false} NameSecondPassNone(lines: seq<string>, k: nat)
    requires forall j :: k <= j < |lines| ==> !SecondPassName(Trim(lines[j]))
    ensures NameSecondPass(lines, k) == None
    decreases |lines| - k
  {
    if k < |lines| {
      NameSecondPassNone(lines, k + 1);
    }
  }

  lemma {:induction false} NameSecondPassFrom(lines: seq<string>, k: nat, i: nat)
    requires k <= i < |lines| && SecondPassName(Trim(lines[i]))
    requires forall j :: k <= j < i ==> !SecondPassName(Trim(lines[j]))
    ensures NameSecondPass(lines, k) == Some(Trim(lines[i]))
    decreases i - k
  {
    if k < i {
      assert !SecondPassName(Trim(lines[k]));
      NameSecondPassFrom(lines, k + 1, i);
    }
  }

  /**
   * The name is "Name Not Found" or a trimmed input line that starts with
   * a capital letter, is shorter than 50 characters and holds no `@`.
   */
  lemma NameShape(lines: seq<string>)
    ensures var n := NameOf(lines);
      n == NameNotFound
      || (n != [] && (exists j :: 0 <= j < |lines| && n == Trim(lines[j]))
          && |n| < 50 && '@' !in n && IsUpper(n[0]))
  {
    var n := NameOf(lines);
    if NameFirstPass(lines, 0).Some? {
      NameFirstPassLine(lines, 0);
      NameStartsUpper(n);
      ContainsChar(n, '@');
    } else if NameSecondPass(lines, 0).Some? {
      NameSecondPassLine(lines, 0);
      NameStartsUpper(n);
      ContainsChar(n, '@');
    }
  }

  lemma {:induction false} NameFirstPassLine(lines: seq<string>, i: nat)
    requires NameFirstPass(lines, i).Some?
    ensures exists j :: i <= j < |lines| && NameFirstPass(lines, i).value == Trim(lines[j])
    decreases |lines| - i
  {
    if !FirstPassName(Trim(lines[i])) {
      NameFirstPassLine(lines, i + 1);
    }
  }

  lemma {:induction false} NameSecondPassLine(lines: seq<string>, i: nat)
    requires NameSecondPass(lines, i).Some?
    ensures exists j :: i <= j < |lines| && NameSecondPass(lines, i).value == Trim(lines[j])
    decreases |lines| - i
  {
    if !SecondPassName(Trim(lines[i])) {
      NameSecondPassLine(lines, i + 1);
    }
  }

  /**
   * The first pass decides whenever one of the first five lines passes its
   * test: the earliest such line is the name, and then its length is 6 to
   * 49 and it holds none of `@`, `http`, `www.` and `+`.
   */
  lemma {:induction false} NameFirstPassWins(lines: seq<string>, i: nat)
    requires i < Min(5, |lines|) && FirstPassName(Trim(lines[i]))
    requires forall j :: 0 <= j < i ==> !FirstPassName(Trim(lines[j]))
    ensures NameOf(lines) == Trim(lines[i])
    ensures 5 < |NameOf(lines)| < 50 && !Contains(NameOf(lines), "http") && '+' !in NameOf(lines)
  {
    NameFirstPassFrom(lines, 0, i);
  }

  lemma {:induction false} NameFirstPassFrom(lines: seq<string>, k: nat, i: nat)
    requires k <= i < Min(5, |lines|) && FirstPassName(Trim(lines[i]))
    requires forall j :: k <= j < i ==> !FirstPassName(Trim(lines[j]))
    ensures NameFirstPass(lines, k) == Some(Trim(lines[i]))
    decreases i - k
  {
    if k < i {
      NameFirstPassFrom(lines, k + 1, i);
    }
  }

  // ---------------------------------------------------------------------
  // Location.

  /** The false positives the location filter drops. */
  predicate LocationNoise(m: string)
  {
    Contains(Lower(m), "university") || Contains(Lower(m), "college")
    || Contains(Lower(m), "company") || Contains(Lower(m), "corp")
  }

  /** `text.match(pattern)` for the `p`-th pattern, then the filter. */
  function ValidLocations(text: string, p: nat): (r: seq<string>)
    requires p < |LocationPatterns|
    ensures forall m :: m in r ==> !LocationNoise(m) && m != [] && Contains(text, m)
  {
    var all := MatchAll(LocationPatterns[p], text, 0);
    forall m | m in all ensures m != [] && Contains(text, m) {
      var st, e :| MatchSpan(LocationPatterns[p], text, st, e) && m == text[st..e];
      LocationMatchNonEmpty(p, text, st, e);
      assert OccursAt(text, m, st);
      ContainsSpec(text, m);
    }
    var keep := m => !LocationNoise(m);
    FilterSpec(all, keep);
    Filter(all, keep)
  }

  /**
   * Every match of the pattern (all of them, left to right) that is free of
   * the noise words survives, as often as it occurs and in order; no other
   * text does.
   */
  lemma ValidLocationsSpec(text: string, p: nat)
    requires p < |LocationPatterns|
    ensures var all := MatchAll(LocationPatterns[p], text, 0);
      var r := ValidLocations(text, p);
      && (forall m :: m in r <==> m in all && !LocationNoise(m))
      && (forall m :: multiset(r)[m] == if LocationNoise(m) then 0 else multiset(all)[m])
      && IsSubsequence(r, all)
  {
    var all := MatchAll(LocationPatterns[p], text, 0);
    var keep := m => !LocationNoise(m);
    FilterSpec(all, keep);
    FilterCount(all, keep);
    FilterIsSubsequence(all, keep);
  }

  /** The first valid match of the first pattern (from the `p`-th on) that has one. */
  function LocationFrom(text: string, p: nat): string
    requires p <= |LocationPatterns|
    decreases |LocationPatterns| - p
  {
    if p == |LocationPatterns| then ""
    else if ValidLocations(text, p) != [] then ValidLocations(text, p)[0]
    else LocationFrom(text, p + 1)
  }

  method ExtractLocation(text: string) returns (location: string)
    ensures location == LocationFrom(text, 0)
  {
    for p := 0 to |LocationPatterns|
      invariant LocationFrom(text, p) == LocationFrom(text, 0)
    {
      var validLocations := ValidLocations(text, p);
      if |validLocations| > 0 {
        return validLocations[0];
      }
    }
    return "";
  }

  /** The location is "" exactly when no pattern, from the `p`-th on, has a valid match. */
  lemma {:induction false} LocationEmpty(text: string, p: nat)
    requires p <= |LocationPatterns|
    ensures LocationFrom(text, p) == "" <==> forall q :: p <= q < |LocationPatterns| ==> ValidLocations(text, q) == []
    decreases |LocationPatterns| - p
  {
    if p < |LocationPatterns| {
      LocationEmpty(text, p + 1);
      var v := ValidLocations(text, p);
      if v != [] {
        assert v[0] in v;
        assert LocationFrom(text, p) == v[0] != "";
      } else {
        assert LocationFrom(text, p) == LocationFrom(text, p + 1);
      }
    }
  }

  /** A location that is not "" is a piece of the text free of the filtered words. */
  lemma {:induction false} LocationValid(text: string, p: nat)
    requires p <= |LocationPatterns|
    ensures var r := LocationFrom(text, p); r == "" || (Contains(text, r) && !LocationNoise(r))
    decreases |LocationPatterns| - p
  {
    if p < |LocationPatterns| {
      LocationValid(text, p + 1);
      if ValidLocations(text, p) != [] {
        assert ValidLocations(text, p)[0] in ValidLocations(text, p);
      }
    }
  }

  /**
   * The patterns are tried in the listed order: the first one with a valid
   * match supplies the location, its first valid match.
   */
  lemma {:induction false} LocationFirstPattern(text: string, p: nat, q: nat)
    requires p <= q < |LocationPatterns| && ValidLocations(text, q) != []
    requires forall q' :: p <= q' < q ==> ValidLocations(text, q') == []
    ensures LocationFrom(text, p) == ValidLocations(text, q)[0]
    decreases q - p
  {
    if p < q {
      LocationFirstPattern(text, p + 1, q);
    }
  }
}
