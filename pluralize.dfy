/**
 * `pluralize`: English and Polish plural forms of a word. The Polish
 * forms come from the `polish-plurals` package, which this model takes as
 * a parameter; `console.warn` for other languages is not modelled.
 */
module Pluralize {
  import opened Js
  import opened Numbers

  /** The signature of `polishPlurals(singular, plural, genitive, value)`. */
  type PolishPlurals = (string, string, string, Num) -> string

  function Pluralize(
    value: Nullish<Num>, singular: string, plural: Nullish<string>, genitive: Nullish<string>,
    language: string, polishPlurals: PolishPlurals): (r: string)
    ensures language == "en" && value == Value(One) ==> r == singular
    ensures language == "en" && value != Value(One) ==>
      r == (if plural.Value? then plural.value else singular + "s")
    ensures language == "pl" && (!value.Value? || value.value == One) ==> r == singular
    ensures language == "pl" && value.Value? && value.value != One ==>
      r == polishPlurals(singular, StringOf(plural), StringOf(genitive), value.value)
    ensures language != "en" && language != "pl" ==> r == singular
  {
    if language == "en" then
      var pluralForm := Coalesce(plural, singular + "s");
      if value == Value(One) then singular else pluralForm
    else if language == "pl" then
      var n := Coalesce(value, One);
      if n == One then singular
      else polishPlurals(singular, StringOf(plural), StringOf(genitive), n)
    else
      singular
  }

  /** The foreign function is consulted only for Polish counts other than one. */
  lemma PolishPluralsOnlyForPolish(
    value: Nullish<Num>, singular: string, plural: Nullish<string>, genitive: Nullish<string>,
    language: string, f: PolishPlurals, g: PolishPlurals)
    requires !(language == "pl" && value.Value? && value.value != One)
    ensures Pluralize(value, singular, plural, genitive, language, f)
         == Pluralize(value, singular, plural, genitive, language, g)
  {
  }

  /** In English, without an explicit plural, any count but one changes the word. */
  lemma EnglishFallbackDiffers(value: Nullish<Num>, singular: string, f: PolishPlurals)
    requires value != Value(One)
    ensures Pluralize(value, singular, Undefined, Undefined, "en", f) == singular + "s"
    ensures Pluralize(value, singular, Undefined, Undefined, "en", f) != singular
  {
    assert |singular + "s"| == |singular| + 1;
  }

  /** A missing Polish count is read as one; a missing plural is passed on as the text "undefined". */
  lemma PolishDefaults(singular: string, f: PolishPlurals)
    ensures Pluralize(Null, singular, Undefined, Undefined, "pl", f) == singular
    ensures Pluralize(Value(Int(5)), singular, Undefined, Undefined, "pl", f)
         == f(singular, "undefined", "undefined", Int(5))
  {
  }
}
