/**
 * The noun that follows an act count in page headers: the language-aware
 * `getActsNoun` of the all-acts page, and the short Polish rule
 * (`count === 1 ? "akt" : count < 5 ? "akty" : "aktów"`) written inline on the
 * category page, both category cards and the earlier all-acts page.
 */
module Plurals {
  import opened Text

  /** `Math.abs`. */
  function Abs(x: int): nat {
    if x < 0 then -x else x
  }

  /** Polish and Ukrainian use the singular for 1, 21, 31, ... but not 11. */
  predicate TakesSingular(n: nat) {
    n % 10 == 1 && n % 100 != 11
  }

  /** Polish and Ukrainian use the paucal form for endings 2-4 except 12-14. */
  predicate TakesPaucal(n: nat) {
    n % 10 in {2, 3, 4} && n % 100 !in {12, 13, 14}
  }

  /** `getActsNoun(count, lang)`. */
  function ActsNoun(count: int, lang: string): (w: string)
    ensures w in {"akt", "akty", "aktów", "акт", "акти", "актів", "act", "acts", "Gesetzesvorhaben"}
  {
    var n := Abs(count);
    if StartsWith(lang, "pl") || lang == "pl" then
      if TakesSingular(n) then "akt"
      else if TakesPaucal(n) then "akty"
      else "aktów"
    else if StartsWith(lang, "uk") || lang == "uk" then
      if TakesSingular(n) then "акт"
      else if TakesPaucal(n) then "акти"
      else "актів"
    else if StartsWith(lang, "en") then
      if n == 1 then "act" else "acts"
    else if StartsWith(lang, "de") then
      "Gesetzesvorhaben"
    else
      if n == 1 then "act" else "acts"
  }

  /** For Polish exactly one of the three forms is chosen, each by its own rule;
      "akt" is chosen for 21, 31, 101 as well as for 1. */
  lemma PolishForms(count: int, lang: string)
    requires StartsWith(lang, "pl")
    ensures var n := Abs(count);
      && (ActsNoun(count, lang) == "akt" <==> n % 10 == 1 && n % 100 != 11)
      && (ActsNoun(count, lang) == "akty" <==>
            (n % 10 == 2 || n % 10 == 3 || n % 10 == 4) && !(12 <= n % 100 <= 14))
      && (ActsNoun(count, lang) == "aktów" <==>
            !(n % 10 == 1 && n % 100 != 11) &&
            !((n % 10 == 2 || n % 10 == 3 || n % 10 == 4) && !(12 <= n % 100 <= 14)))
  {
  }

  /** Concrete readings of the Polish rule. */
  lemma PolishExamples()
    ensures ActsNoun(1, "pl") == "akt" && ActsNoun(21, "pl") == "akt" && ActsNoun(11, "pl") == "aktów"
    ensures ActsNoun(3, "pl-PL") == "akty" && ActsNoun(13, "pl") == "aktów" && ActsNoun(0, "pl") == "aktów"
  {
    assert StartsWith("pl-PL", "pl");
  }

  /** The sign of the count never matters. */
  lemma ActsNounIgnoresSign(count: int, lang: string)
    ensures ActsNoun(count, lang) == ActsNoun(-count, lang)
  {
  }

  /** The Ukrainian case split is the Polish one, word for word. */
  function UkrainianFor(polish: string): string {
    if polish == "akt" then "акт" else if polish == "akty" then "акти" else "актів"
  }

  lemma UkrainianMirrorsPolish(count: int, lang: string)
    requires StartsWith(lang, "uk")
    ensures ActsNoun(count, lang) == UkrainianFor(ActsNoun(count, "pl"))
  {
    assert !StartsWith(lang, "pl") && lang != "pl";
    assert StartsWith("pl", "pl");
  }

  /** German always uses "Gesetzesvorhaben"; English and every language the function
      does not know use "act" for exactly one and "acts" otherwise. */
  lemma OtherLanguages(count: int, lang: string)
    requires !StartsWith(lang, "pl") && !StartsWith(lang, "uk")
    ensures StartsWith(lang, "de") && !StartsWith(lang, "en") ==>
              ActsNoun(count, lang) == "Gesetzesvorhaben"
    ensures !StartsWith(lang, "de") || StartsWith(lang, "en") ==>
              (ActsNoun(count, lang) == "act" <==> count == 1 || count == -1)
    ensures !StartsWith(lang, "de") || StartsWith(lang, "en") ==>
              (ActsNoun(count, lang) == "acts" <==> count != 1 && count != -1)
  {
  }

  /** The inline noun of the earlier revision, written out in both its list
      header and its category tile: singular for one, the paucal form below
      five, the genitive plural otherwise. */
  function ShortActsNoun(count: int): (w: string)
    ensures w == "akt" <==> count == 1
    ensures w == "akty" <==> count != 1 && count < 5
    ensures w == "aktów" <==> count >= 5
  {
    if count == 1 then "akt" else if count < 5 then "akty" else "aktów"
  }

  /** For counts from 0 to 30 the two Polish rules agree exactly from 1 to 20 and
      from 25 to 30: they part at 0 and at 21-24. */
  lemma {:induction false} RulesAgreeUpToThirty(n: nat)
    requires n <= 30
    ensures ShortActsNoun(n) == ActsNoun(n, "pl") <==> (1 <= n <= 20 || 25 <= n)
  {
    assert StartsWith("pl", "pl");
  }

  /** Beyond a few, the short rule never says "akt" or "akty", while the full rule
      does for 21-24, 31-34, ...: the two agree exactly when the full rule also says
      "aktów". */
  lemma RulesAgreeFromFive(n: nat)
    requires n >= 5
    ensures ShortActsNoun(n) == ActsNoun(n, "pl") <==> !TakesSingular(n) && !TakesPaucal(n)
  {
    assert StartsWith("pl", "pl");
  }
}
