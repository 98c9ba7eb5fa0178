/**
 * `useNumberField`: two tracks. `dom` is the string the input shows and
 * takes every keystroke; `value` is the typed number and changes only on
 * `""` or on a keystroke the browser reads as a finite number, so partial
 * input such as `"1."` or `"-"` stays visible without losing the number.
 */
module UseNumberField {
  import opened Js
  import opened Numbers
  import NumberFields
  import Fields

  /** The string `set` puts in the input for a value: `""` when empty, else `String(value)`. */
  function Display(v: NumberFields.NumberValue): (s: string)
    ensures s == "" <==> NumberFields.IsEmpty(v)
  {
    if NumberFields.IsEmpty(v) then "" else NumberToString(v.value)
  }

  /** The display determines the value: two values shown alike are the same value. */
  lemma DisplayInjective(a: NumberFields.NumberValue, b: NumberFields.NumberValue)
    requires !NumberFields.IsEmpty(a) && !NumberFields.IsEmpty(b)
    requires Display(a) == Display(b)
    ensures a == b
  {
    NumberToStringInjective(a.value, b.value);
  }

  class NumberFieldHook {
    const name: string
    /** `defaultValue`, normalised; recomputed from `config.defaultValue` on every render. */
    var defaultValue: NumberFields.NumberValue
    /** The `value` state cell. */
    var value: NumberFields.NumberValue
    /** The `dom` state cell: what the input shows. */
    var dom: string

    ghost predicate Valid()
      reads this
    {
      NumberFields.IsStored(defaultValue) && NumberFields.IsStored(value)
    }

    /** The two tracks agree, as after the first render, `set` and `clear`. */
    predicate Synced()
      reads this
    {
      dom == Display(value)
    }

    constructor (name: string, defaultValue: NumberFields.NumberValue)
      ensures Valid() && Synced()
      ensures this.name == name
      ensures this.defaultValue == NumberFields.Normalize(defaultValue)
      ensures value == this.defaultValue
      ensures dom == Display(this.defaultValue)
      ensures Unchanged() && !Changed()
    {
      this.name := name;
      this.defaultValue := NumberFields.Normalize(defaultValue);
      value := NumberFields.Normalize(defaultValue);
      dom := Display(NumberFields.Normalize(defaultValue));
    }

    /** `set` (`setCurrentValue`): store the normalised number and re-sync the display. */
    method Set(next: NumberFields.NumberValue)
      requires Valid()
      modifies this
      ensures Valid() && Synced()
      ensures value == NumberFields.Normalize(next)
      ensures defaultValue == old(defaultValue)
      ensures dom == "" <==> Empty()
    {
      var number := NumberFields.Normalize(next);
      value := number;
      dom := Display(number);
    }

    /**
     * `handleChange`: `raw` is the element's `value`, `valueAsNumber` what
     * the browser parsed from it.
     */
    method HandleChange(raw: string, valueAsNumber: Num)
      requires Valid()
      modifies this
      ensures Valid()
      ensures dom == raw
      ensures raw == "" ==> value == NumberFields.EMPTY
      ensures raw != "" && IsFinite(valueAsNumber) ==> value == Value(valueAsNumber)
      ensures raw != "" && !IsFinite(valueAsNumber) ==> value == old(value)
      ensures defaultValue == old(defaultValue)
    {
      dom := raw;
      if raw == "" {
        value := NumberFields.EMPTY;
        return;
      }
      var number := valueAsNumber;
      if IsFinite(number) {
        value := Value(number);
      }
    }

    /** `clear`: back to the default, display included. */
    method Clear()
      requires Valid()
      modifies this
      ensures Valid() && Synced()
      ensures value == defaultValue && defaultValue == old(defaultValue)
      ensures Unchanged() && !Changed()
    {
      Set(defaultValue);
    }

    /**
     * A new `config.defaultValue`: the default the flags and `clear` use
     * follows it, but no effect re-syncs `value` or `dom`.
     */
    method DefaultChanged(newDefault: NumberFields.NumberValue)
      requires Valid()
      modifies this
      ensures Valid()
      ensures defaultValue == NumberFields.Normalize(newDefault)
      ensures value == old(value) && dom == old(dom)
    {
      defaultValue := NumberFields.Normalize(newDefault);
    }

    predicate Changed()
      reads this
    {
      !NumberFields.Compare(value, defaultValue)
    }

    predicate Unchanged()
      reads this
    {
      NumberFields.Compare(value, defaultValue)
    }

    predicate Empty()
      reads this
    {
      NumberFields.IsEmpty(value)
    }

    function Label(): (p: LabelProps)
      reads this
      ensures p.htmlFor == name
    {
      LabelProps(name)
    }

    /** `input.props`: the input shows `dom`, not `value`. */
    function Input(): (p: InputProps)
      reads this
      ensures p.id == name && p.name == name && p.value == dom
    {
      InputProps(name, name, dom)
    }

    /** The `changed` / `unchanged` / `empty` flags. */
    function Status(): (s: Fields.FieldStatus)
      reads this
      ensures Fields.Consistent(s)
      ensures s.isUnchanged <==> NumberFields.Normalize(value) == NumberFields.Normalize(defaultValue)
      ensures s.isEmpty <==> NumberFields.IsEmpty(value)
    {
      Fields.FieldStatus(Changed(), Unchanged(), Empty())
    }
  }

  /**
   * Typing `1`, `1.`, `1.5`, clearing, then `-`, `-1` into a field: the
   * partial inputs stay visible while `value` keeps the last number.
   */
  method PartialEntry(f: NumberFieldHook) returns (value: NumberFields.NumberValue, dom: string)
    requires f.Valid()
    modifies f
    ensures value == Value(Int(-1)) && dom == "-1"
  {
    var one := Int(1);
    var oneAndHalf := Finite(Decimal(15, 1));
    f.HandleChange("1", one);
    assert f.value == Value(one) && f.dom == "1";
    f.HandleChange("1.", NaN);
    assert f.value == Value(one) && f.dom == "1.";
    f.HandleChange("1.5", oneAndHalf);
    assert f.value == Value(oneAndHalf) && f.dom == "1.5";
    f.HandleChange("", NaN);
    assert f.value == NumberFields.EMPTY && f.Empty();
    f.HandleChange("-", NaN);
    assert f.value == NumberFields.EMPTY && f.dom == "-";
    f.HandleChange("-1", Int(-1));
    value, dom := f.value, f.dom;
  }
}
