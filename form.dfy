/**
 * `Form.pattern`: the `pattern` and `required` attributes for a text input
 * with an optional minimum and maximum length. A bound counts only when
 * it is truthy, so `0` and `NaN` count as absent.
 */
module Form {
  import opened Js
  import opened Numbers

  datatype PatternProps = PatternProps(pattern: Option<string>, required: bool)

  /** JavaScript truthiness of a number that may be missing. */
  predicate Truthy(n: Nullish<Num>)
  {
    n.Value? && n.value != Zero && n.value != NaN
  }

  function Pattern(min: Nullish<Num>, max: Nullish<Num>, required: Nullish<bool>): (r: PatternProps)
    ensures r.required == (if required.Value? then required.value else true)
    ensures r.pattern.Some? <==> Truthy(min) || Truthy(max)
    ensures Truthy(min) && !Truthy(max) ==> r.pattern == Some(".{" + NumberToString(min.value) + "}")
    ensures Truthy(min) && Truthy(max) ==>
      r.pattern == Some(".{" + NumberToString(min.value) + "," + NumberToString(max.value) + "}")
    ensures !Truthy(min) && Truthy(max) ==> r.pattern == Some(".{," + NumberToString(max.value) + "}")
  {
    var req := Coalesce(required, true);
    if Truthy(min) && !Truthy(max) then PatternProps(Some(".{" + NumberToString(min.value) + "}"), req)
    else if Truthy(min) && Truthy(max) then
      PatternProps(Some(".{" + NumberToString(min.value) + "," + NumberToString(max.value) + "}"), req)
    else if !Truthy(min) && Truthy(max) then PatternProps(Some(".{," + NumberToString(max.value) + "}"), req)
    else PatternProps(None, req)
  }

  /**
   * A pattern is a single quantifier `.{…}`, and it holds a comma exactly
   * when the maximum is set.
   */
  lemma PatternShape(min: Nullish<Num>, max: Nullish<Num>, required: Nullish<bool>)
    ensures var p := Pattern(min, max, required).pattern;
      p.Some? ==>
        && |p.value| >= 3 && p.value[..2] == ".{" && p.value[|p.value| - 1] == '}'
        && (',' in p.value <==> Truthy(max))
  {
    var p := Pattern(min, max, required).pattern;
    if Truthy(min) {
      assert ',' !in NumberToString(min.value);
    }
    if Truthy(max) {
      assert ',' !in NumberToString(max.value);
    }
  }

  /** Minimum 0 with maximum 5 is a maximum alone. */
  lemma ZeroMinimumIsAbsent()
    ensures Pattern(Value(Zero), Value(Int(5)), Undefined) == PatternProps(Some(".{,5}"), true)
  {
    assert DigitChar(5) == '5';
    assert NumberToString(Int(5)) == "5";
    assert !Truthy(Value(Zero)) && Truthy(Value(Int(5)));
    assert ".{," + "5" + "}" == ".{,5}";
  }
}
