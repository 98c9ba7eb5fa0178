/**
 * `useTextField`: the state of one text input. `value` is always a
 * normalised text value; the input shows `""` for `EMPTY`.
 */
module UseTextField {
  import opened Js
  import TextFields
  import Fields

  class TextFieldHook {
    const name: string
    /** `defaultValue`, normalised; follows `config.defaultValue`. */
    var defaultValue: TextFields.TextValue
    /** The `value` state cell. */
    var value: TextFields.TextValue

    ghost predicate Valid()
      reads this
    {
      TextFields.IsStored(defaultValue) && TextFields.IsStored(value)
    }

    /** The first render: `value` starts at the normalised default. */
    constructor (name: string, defaultValue: TextFields.TextValue)
      ensures Valid()
      ensures this.name == name
      ensures this.defaultValue == TextFields.Normalize(defaultValue)
      ensures value == this.defaultValue
      ensures Unchanged() && !Changed()
    {
      this.name := name;
      this.defaultValue := TextFields.Normalize(defaultValue);
      value := TextFields.Normalize(defaultValue);
    }

    /** `set` (`setCurrentValue`): store the normalised value. */
    method Set(next: TextFields.TextValue)
      requires Valid()
      modifies this
      ensures Valid()
      ensures value == TextFields.Normalize(next)
      ensures defaultValue == old(defaultValue)
    {
      value := TextFields.Normalize(next);
    }

    /** `handleChange`: exactly `set` of the element's string. */
    method HandleChange(raw: string)
      requires Valid()
      modifies this
      ensures Valid()
      ensures value == TextFields.Normalize(Value(raw))
      ensures value == (if raw == "" then TextFields.EMPTY else Value(raw))
      ensures defaultValue == old(defaultValue)
    {
      Set(Value(raw));
    }

    /** `clear`: back to the default. */
    method Clear()
      requires Valid()
      modifies this
      ensures Valid()
      ensures value == defaultValue && defaultValue == old(defaultValue)
      ensures Unchanged() && !Changed()
    {
      Set(defaultValue);
    }

    /** The effect on a new `config.defaultValue`: both cells take its normal form. */
    method DefaultChanged(newDefault: TextFields.TextValue)
      requires Valid()
      modifies this
      ensures Valid()
      ensures defaultValue == TextFields.Normalize(newDefault)
      ensures value == defaultValue
      ensures Unchanged()
    {
      defaultValue := TextFields.Normalize(newDefault);
      Set(defaultValue);
    }

    predicate Changed()
      reads this
    {
      !TextFields.Compare(value, defaultValue)
    }

    predicate Unchanged()
      reads this
    {
      TextFields.Compare(value, defaultValue)
    }

    predicate Empty()
      reads this
    {
      TextFields.IsEmpty(value)
    }

    /** `input.props.value`. */
    function DisplayValue(): (s: string)
      reads this
      ensures s == "" <==> TextFields.IsEmpty(value)
      ensures !TextFields.IsEmpty(value) ==> Value(s) == value
    {
      if TextFields.IsEmpty(value) then "" else value.value
    }

    function Label(): (p: LabelProps)
      reads this
      ensures p.htmlFor == name
    {
      LabelProps(name)
    }

    function Input(): (p: InputProps)
      reads this
      ensures p.id == name && p.name == name
      ensures p.value == DisplayValue()
    {
      InputProps(name, name, DisplayValue())
    }

    /** The `changed` / `unchanged` / `empty` flags. */
    function Status(): (s: Fields.FieldStatus)
      reads this
      ensures Fields.Consistent(s)
      ensures s.isUnchanged <==> TextFields.Normalize(value) == TextFields.Normalize(defaultValue)
      ensures s.isEmpty <==> TextFields.IsEmpty(value)
    {
      Fields.FieldStatus(Changed(), Unchanged(), Empty())
    }
  }

  /** `clear` twice leaves the state of `clear` once. */
  method ClearTwice(f: TextFieldHook)
    requires f.Valid()
    modifies f
    ensures f.Valid() && f.value == old(f.defaultValue) && f.defaultValue == old(f.defaultValue)
  {
    f.Clear();
    var once := f.value;
    f.Clear();
    assert f.value == once;
  }
}
