/**
 * The fixed regular expressions of the résumé parser
 * (src/utils/resumeParser.ts), written in the fragment of module Regex,
 * and what a match of each must look like.
 */
module ResumePatterns {
  import opened Wrappers
  import opened Text
  import opened Regex

  /** `\b[A-Za-z0-9._%+-]+@[A-Za-z0-9.-]+\.[A-Z|a-z]{2,}\b` */
  const EmailPattern: seq<seq<Atom>> :=
    [[WordBoundary, Plus(EmailLocal), One(Lit('@')), Plus(EmailDomain), One(Lit('.')),
      One(EmailTld), Plus(EmailTld), WordBoundary]]

  const ThreeDigits: seq<Atom> := [One(DecimalDigit), One(DecimalDigit), One(DecimalDigit)]
  const FourDigits: seq<Atom> := [One(DecimalDigit), One(DecimalDigit), One(DecimalDigit), One(DecimalDigit)]

  /** `\(?([0-9]{3})\)?[-.\s]?([0-9]{3})[-.\s]?([0-9]{4})`, the part after the optional country code. */
  const PhoneTail: seq<Atom> :=
    [Opt(Lit('('))] + ThreeDigits + [Opt(Lit(')')), Opt(PhoneSep)] + ThreeDigits + [Opt(PhoneSep)] + FourDigits

  /** `(\+?1[-.\s]?)?` followed by the tail: with the optional group first, then without it. */
  const PhonePattern: seq<seq<Atom>> :=
    [[Opt(Lit('+')), One(Lit('1')), Opt(PhoneSep)] + PhoneTail, PhoneTail]

  /** `^[A-Z][a-z]+ [A-Z][a-z]+` (a prefix test) */
  const NameTwoWords: seq<seq<Atom>> :=
    [[StartOfInput, One(UpperLetter), Plus(LowerLetter), One(Lit(' ')), One(UpperLetter), Plus(LowerLetter)]]

  /** `^[A-Z][a-z]+$` */
  const NameOneWord: seq<seq<Atom>> :=
    [[StartOfInput, One(UpperLetter), Plus(LowerLetter), EndOfInput]]

  /** `^[A-Z][a-z]+ [A-Z][a-z]+( [A-Z][a-z]+)?$` */
  const NameFull: seq<seq<Atom>> :=
    [[StartOfInput, One(UpperLetter), Plus(LowerLetter), One(Lit(' ')), One(UpperLetter), Plus(LowerLetter),
      One(Lit(' ')), One(UpperLetter), Plus(LowerLetter), EndOfInput],
     [StartOfInput, One(UpperLetter), Plus(LowerLetter), One(Lit(' ')), One(UpperLetter), Plus(LowerLetter),
      EndOfInput]]

  /** `([A-Z][a-z]+,?\s*[A-Z]{2})/g` -- "City, ST" */
  const CityState: seq<seq<Atom>> :=
    [[One(UpperLetter), Plus(LowerLetter), Opt(Lit(',')), Star(WhiteSpace), One(UpperLetter), One(UpperLetter)]]

  /** `([A-Z][a-z]+,?\s*[A-Z][a-z]+)/g` -- "City, State" */
  const CityStateName: seq<seq<Atom>> :=
    [[One(UpperLetter), Plus(LowerLetter), Opt(Lit(',')), Star(WhiteSpace), One(UpperLetter), Plus(LowerLetter)]]

  /** `([A-Z][a-z]+\s*[A-Z][a-z]+,?\s*[A-Z]{2})/g` -- "City Name, ST" */
  const TwoWordCityState: seq<seq<Atom>> :=
    [[One(UpperLetter), Plus(LowerLetter), Star(WhiteSpace), One(UpperLetter), Plus(LowerLetter),
      Opt(Lit(',')), Star(WhiteSpace), One(UpperLetter), One(UpperLetter)]]

  /** The location patterns, in the order they are tried. */
  const LocationPatterns: seq<seq<seq<Atom>>> := [CityState, CityStateName, TwoWordCityState]

  /** The letters of `w[i..]`, each matched without regard to case. */
  function NoCaseFrom(w: string, i: nat): (r: seq<Atom>)
    requires i <= |w|
    ensures |r| == |w| - i && forall n :: i <= n < |w| ==> r[n - i] == One(NoCase(w[n]))
    decreases |w| - i
  {
    if i == |w| then [] else [One(NoCase(w[i]))] + NoCaseFrom(w, i + 1)
  }

  /** `\bw\b` under the `i` flag. */
  function WholeWord(w: string): seq<Atom>
  {
    [WordBoundary] + NoCaseFrom(w, 0) + [WordBoundary]
  }

  const JobTitles: seq<string> :=
    ["engineer", "developer", "manager", "analyst", "specialist"] + ["coordinator", "director", "lead", "senior", "junior"]

  /** One whole-word alternative per word of `ws[a..]`, in order. */
  function WholeWordsFrom(ws: seq<string>, a: nat): (r: seq<seq<Atom>>)
    requires a <= |ws|
    ensures |r| == |ws| - a && forall b :: a <= b < |ws| ==> r[b - a] == WholeWord(ws[b])
    decreases |ws| - a
  {
    if a == |ws| then [] else [WholeWord(ws[a])] + WholeWordsFrom(ws, a + 1)
  }

  function WholeWords(ws: seq<string>): (r: seq<seq<Atom>>)
    ensures |r| == |ws| && forall a :: 0 <= a < |ws| ==> r[a] == WholeWord(ws[a])
  {
    WholeWordsFrom(ws, 0)
  }

  /** `\b(engineer|developer|…|junior)\b` with the `i` flag: one alternative per keyword, in order. */
  const JobTitlePattern: seq<seq<Atom>> := WholeWords(JobTitles)

  /** `\b(at|@)\s+[A-Z][a-z]+` (used with the `g` flag) */
  const AtCompanyPattern: seq<seq<Atom>> :=
    [[WordBoundary, One(Lit('a')), One(Lit('t')), Plus(WhiteSpace), One(UpperLetter), Plus(LowerLetter)],
     [WordBoundary, One(Lit('@')), Plus(WhiteSpace), One(UpperLetter), Plus(LowerLetter)]]

  // ---------------------------------------------------------------------
  // The shape of a match.

  lemma EmailNeedsAt()
    ensures AllNeed(EmailPattern, Lit('@'), 1)
  {
    var a := EmailPattern[0];
    assert a == [WordBoundary, Plus(EmailLocal)] + [One(Lit('@'))] + a[3..];
    NeededAppend([WordBoundary, Plus(EmailLocal)] + [One(Lit('@'))], a[3..], Lit('@'));
    NeededAppend([WordBoundary, Plus(EmailLocal)], [One(Lit('@'))], Lit('@'));
  }

  /** Every email match holds an `@`. */
  lemma EmailMatchHasAt(s: string, st: nat, e: nat)
    requires MatchSpan(EmailPattern, s, st, e)
    ensures '@' in s[st..e]
  {
    EmailNeedsAt();
    SpanNeeds(EmailPattern, s, st, e, Lit('@'), 1);
    var m := s[st..e];
    CountPositive(Lit('@'), m, 0, |m|);
  }

  lemma TailNeedsTenDigits()
    ensures Needed(PhoneTail, DecimalDigit) == 10
  {
    var d := DecimalDigit;
    var a := [Opt(Lit('('))];
    var b := [Opt(Lit(')')), Opt(PhoneSep)];
    var c := [Opt(PhoneSep)];
    NeededAppend(a + ThreeDigits + b + ThreeDigits + c, FourDigits, d);
    NeededAppend(a + ThreeDigits + b + ThreeDigits, c, d);
    NeededAppend(a + ThreeDigits + b, ThreeDigits, d);
    NeededAppend(a + ThreeDigits, b, d);
    NeededAppend(a, ThreeDigits, d);
  }

  lemma PhoneNeedsTenDigits()
    ensures AllNeed(PhonePattern, DecimalDigit, 10)
  {
    TailNeedsTenDigits();
    NeededAppend([Opt(Lit('+')), One(Lit('1')), Opt(PhoneSep)], PhoneTail, DecimalDigit);
  }

  /** Every phone match holds at least ten decimal digits (the country-code `1` aside). */
  lemma PhoneMatchHasTenDigits(s: string, st: nat, e: nat)
    requires MatchSpan(PhonePattern, s, st, e)
    ensures Count(DecimalDigit, s[st..e]) >= 10
  {
    PhoneNeedsTenDigits();
    SpanNeeds(PhonePattern, s, st, e, DecimalDigit, 10);
  }

  /** A line accepted by any of the name tests begins with a capital letter. */
  lemma NameStartsUpper(line: string)
    requires Test(NameTwoWords, line) || Test(NameOneWord, line) || Test(NameFull, line)
    ensures |line| > 0 && IsUpper(line[0])
  {
    if Test(NameTwoWords, line) {
      AnchoredLead(NameTwoWords, line, UpperLetter);
    } else if Test(NameOneWord, line) {
      AnchoredLead(NameOneWord, line, UpperLetter);
    } else {
      AnchoredLead(NameFull, line, UpperLetter);
    }
  }

  /** An alternative that opens with a capital letter and asks for another at `i` needs two. */
  lemma TwoCapitals(a: seq<Atom>, i: nat)
    requires 0 < i < |a| && a[0] == One(UpperLetter) && a[i] == One(UpperLetter)
    ensures Needed(a, UpperLetter) >= 2
  {
    assert a == [a[0]] + a[1..i] + [a[i]] + a[i + 1..];
    NeededAppend([a[0]] + a[1..i] + [a[i]], a[i + 1..], UpperLetter);
    NeededAppend([a[0]] + a[1..i], [a[i]], UpperLetter);
    NeededAppend([a[0]], a[1..i], UpperLetter);
  }

  /** Each location pattern asks for two capital letters. */
  lemma LocationPatternsNeedTwo(p: nat)
    requires p < |LocationPatterns|
    ensures AllNeed(LocationPatterns[p], UpperLetter, 2)
  {
    if p == 0 {
      TwoCapitals(CityState[0], 4);
    } else if p == 1 {
      TwoCapitals(CityStateName[0], 4);
    } else {
      TwoCapitals(TwoWordCityState[0], 3);
    }
  }

  /** Every location match holds at least two capital letters, so it is never empty. */
  lemma LocationMatchNonEmpty(p: nat, s: string, st: nat, e: nat)
    requires p < |LocationPatterns| && MatchSpan(LocationPatterns[p], s, st, e)
    ensures Count(UpperLetter, s[st..e]) >= 2
  {
    LocationPatternsNeedTwo(p);
    SpanNeeds(LocationPatterns[p], s, st, e, UpperLetter, 2);
  }
}
