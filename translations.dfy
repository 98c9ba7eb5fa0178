/**
 * The `translate` function that `useTranslations` returns, as a pure
 * function of the translation table, the key and the variables. A
 * placeholder `{{name}}` is matched as literal text.
 */
module Translations {
  import opened Js
  import opened Numbers

  /** A variable's value: `string | number`. */
  datatype PlaceholderValue = Text(text: string) | Number(number: Num)

  /** `String(value)`. */
  function ValueString(v: PlaceholderValue): string
  {
    match v
    case Text(s) => s
    case Number(n) => NumberToString(n)
  }

  /** `{{name}}`. */
  function Placeholder(name: string): (p: string)
    ensures |p| == |name| + 4
  {
    "{{" + name + "}}"
  }

  predicate OccursAt(s: string, p: string, i: nat)
  {
    i + |p| <= |s| && s[i..i + |p|] == p
  }

  predicate Occurs(s: string, p: string)
  {
    exists i: nat | i <= |s| :: OccursAt(s, p, i)
  }

  /**
   * `s.replace(/p/g, rep)`: scan from the left, replace each match and go
   * on after it.
   */
  function ReplaceAll(s: string, p: string, rep: string): (r: string)
    requires |p| > 0
    ensures rep == p ==> r == s
    decreases |s|
  {
    if |s| < |p| then s
    else if s[..|p|] == p then rep + ReplaceAll(s[|p|..], p, rep)
    else [s[0]] + ReplaceAll(s[1..], p, rep)
  }

  /** A pattern that does not occur leaves the text as it is. */
  lemma {:induction false} ReplaceAllAbsent(s: string, p: string, rep: string)
    requires |p| > 0 && !Occurs(s, p)
    ensures ReplaceAll(s, p, rep) == s
    decreases |s|
  {
    if |s| >= |p| {
      assert !OccursAt(s, p, 0);
      assert !Occurs(s[1..], p) by {
        forall i: nat | OccursAt(s[1..], p, i) ensures false {
          assert s[1..][i..i + |p|] == s[i + 1..i + 1 + |p|];
          assert OccursAt(s, p, i + 1);
        }
      }
      ReplaceAllAbsent(s[1..], p, rep);
    }
  }

  /**
   * The leftmost occurrence is replaced and the scan goes on after it:
   * with no match starting inside `a`, `a + p + b` becomes `a + rep` and
   * the replacement of `b`.
   */
  lemma {:induction false} ReplaceAllLeftmost(a: string, b: string, p: string, rep: string)
    requires |p| > 0
    requires forall i: nat :: i < |a| ==> !OccursAt(a + p + b, p, i)
    ensures ReplaceAll(a + p + b, p, rep) == a + rep + ReplaceAll(b, p, rep)
    decreases |a|
  {
    var s := a + p + b;
    if a == [] {
      assert s == p + b;
      assert s[..|p|] == p && s[|p|..] == b;
    } else {
      var tail := a[1..] + p + b;
      assert s[1..] == tail;
      assert !OccursAt(s, p, 0);
      assert ReplaceAll(s, p, rep) == [s[0]] + ReplaceAll(tail, p, rep);
      forall i: nat | i < |a[1..]| ensures !OccursAt(tail, p, i) {
        assert !OccursAt(s, p, i + 1);
        assert tail[i..i + |p|] == s[i + 1..i + 1 + |p|];
      }
      ReplaceAllLeftmost(a[1..], b, p, rep);
      assert [s[0]] + (a[1..] + rep + ReplaceAll(b, p, rep)) == a + rep + ReplaceAll(b, p, rep);
    }
  }

  /** `Object.entries(variables).reduce(...)`: each entry applied, in order, to the previous result. */
  function ApplyVariables(translation: string, entries: seq<(string, PlaceholderValue)>): (r: string)
    ensures (forall i :: 0 <= i < |entries| ==> ValueString(entries[i].1) == Placeholder(entries[i].0)) ==> r == translation
    decreases |entries|
  {
    if entries == [] then translation
    else
      var (name, value) := entries[0];
      ApplyVariables(ReplaceAll(translation, Placeholder(name), ValueString(value)), entries[1..])
  }

  /** Adding an entry at the end replaces its placeholder in the result so far. */
  lemma {:induction false} ApplyVariablesSnoc(translation: string, entries: seq<(string, PlaceholderValue)>, name: string, value: PlaceholderValue)
    ensures ApplyVariables(translation, entries + [(name, value)])
         == ReplaceAll(ApplyVariables(translation, entries), Placeholder(name), ValueString(value))
    decreases |entries|
  {
    if entries == [] {
      assert [] + [(name, value)] == [(name, value)];
    } else {
      var (n0, v0) := entries[0];
      assert (entries + [(name, value)])[1..] == entries[1..] + [(name, value)];
      ApplyVariablesSnoc(ReplaceAll(translation, Placeholder(n0), ValueString(v0)), entries[1..], name, value);
    }
  }

  /** Variables whose placeholders do not occur leave the translation unchanged. */
  lemma {:induction false} ApplyAbsentVariables(translation: string, entries: seq<(string, PlaceholderValue)>)
    requires forall i :: 0 <= i < |entries| ==> !Occurs(translation, Placeholder(entries[i].0))
    ensures ApplyVariables(translation, entries) == translation
    decreases |entries|
  {
    if entries != [] {
      ReplaceAllAbsent(translation, Placeholder(entries[0].0), ValueString(entries[0].1));
      ApplyAbsentVariables(translation, entries[1..]);
    }
  }

  /**
   * `translate(key, variables)`. A missing key or an empty translation
   * gives the key back; `variables` is None when not passed.
   */
  function Translate(translations: map<string, string>, key: string, variables: Option<seq<(string, PlaceholderValue)>>): (r: string)
    ensures key !in translations || translations[key] == "" ==> r == key
    ensures key in translations && translations[key] != "" && variables.None? ==> r == translations[key]
    ensures key in translations && translations[key] != "" && variables.Some? ==>
      r == ApplyVariables(translations[key], variables.value)
  {
    if key !in translations || translations[key] == "" then key
    else if variables.None? then translations[key]
    else ApplyVariables(translations[key], variables.value)
  }
}
