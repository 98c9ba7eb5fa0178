/**
 * `useDateField`: two tracks like the number field. `dom` takes every
 * keystroke; `value` changes only on `""` or on a string of the shape
 * `^\d{4}-\d{2}-\d{2}$` that the element also reports as valid.
 */
module UseDateField {
  import opened Js
  import opened Numbers
  import DateFields
  import Fields

  /** `/^\d{4}-\d{2}-\d{2}$/.test(s)`: `\d` is an ASCII digit and `$` is the end of the input. */
  predicate IsDateShape(s: string)
  {
    && |s| == 10
    && s[4] == '-' && s[7] == '-'
    && forall i :: 0 <= i < 10 && i != 4 && i != 7 ==> IsDigit(s[i])
  }

  /** The shape read as the regular expression reads it: four, two and two digits joined by dashes. */
  lemma DateShapeOfParts(year: string, month: string, day: string)
    ensures IsDateShape(year + "-" + month + "-" + day)
        <==> |year| == 4 && |month| == 2 && |day| == 2
             && AllDigits(year) && AllDigits(month) && AllDigits(day)
  {
    var s := year + "-" + month + "-" + day;
    if IsDateShape(s) {
      var first, second := |year|, |year| + 1 + |month|;
      assert s[first] == '-' && s[second] == '-' && !IsDigit('-');
      assert first == 4 || first == 7;
      assert second == 4 || second == 7;
      forall i | 0 <= i < 4 ensures IsDigit(year[i]) { assert s[i] == year[i]; }
      forall i | 0 <= i < 2 ensures IsDigit(month[i]) { assert s[5 + i] == month[i]; }
      forall i | 0 <= i < 2 ensures IsDigit(day[i]) { assert s[8 + i] == day[i]; }
    }
  }

  /** The slashed form is not a date shape; the dashed one is. */
  lemma ShapeExamples()
    ensures !IsDateShape("2025/01/01")
    ensures IsDateShape("2025-01-01")
  {
    assert "2025/01/01"[4] == '/';
  }

  /** The string `set` puts in the input: `""` when empty, else the value. */
  function Display(v: DateFields.DateValue): (s: string)
    ensures s == "" <==> DateFields.IsEmpty(v)
    ensures !DateFields.IsEmpty(v) ==> s == v.value
  {
    if DateFields.IsEmpty(v) then "" else v.value
  }

  class DateFieldHook {
    const name: string
    /** `defaultValue`, normalised; recomputed from `config.defaultValue` on every render. */
    var defaultValue: DateFields.DateValue
    /** The `value` state cell. */
    var value: DateFields.DateValue
    /** The `dom` state cell: what the input shows. */
    var dom: string

    ghost predicate Valid()
      reads this
    {
      DateFields.IsStored(defaultValue) && DateFields.IsStored(value)
    }

    predicate Synced()
      reads this
    {
      dom == Display(value)
    }

    constructor (name: string, defaultValue: DateFields.DateValue)
      ensures Valid() && Synced()
      ensures this.name == name
      ensures this.defaultValue == DateFields.Normalize(defaultValue)
      ensures value == this.defaultValue
      ensures Unchanged() && !Changed()
    {
      this.name := name;
      this.defaultValue := DateFields.Normalize(defaultValue);
      value := DateFields.Normalize(defaultValue);
      dom := Display(DateFields.Normalize(defaultValue));
    }

    /** `set` (`setCurrentValue`): store the normalised date and re-sync the display. */
    method Set(next: DateFields.DateValue)
      requires Valid()
      modifies this
      ensures Valid() && Synced()
      ensures value == DateFields.Normalize(next)
      ensures defaultValue == old(defaultValue)
    {
      var date := DateFields.Normalize(next);
      value := date;
      dom := Display(date);
    }

    /**
     * `handleChange`: `raw` is the element's `value`, `valid` its
     * `validity.valid`.
     */
    method HandleChange(raw: string, valid: bool)
      requires Valid()
      modifies this
      ensures Valid()
      ensures dom == raw
      ensures raw == "" ==> value == DateFields.EMPTY
      ensures raw != "" && !IsDateShape(raw) ==> value == old(value)
      ensures raw != "" && !valid ==> value == old(value)
      ensures raw != "" && IsDateShape(raw) && valid ==> value == Value(raw)
      ensures value == old(value) || value == DateFields.EMPTY || (value.Value? && IsDateShape(value.value))
      ensures defaultValue == old(defaultValue)
    {
      dom := raw;
      if raw == "" {
        value := DateFields.EMPTY;
        return;
      }
      if !IsDateShape(raw) {
        return;
      }
      if !valid {
        return;
      }
      value := Value(raw);
    }

    /** `clear`: back to the default, display included. */
    method Clear()
      requires Valid()
      modifies this
      ensures Valid() && Synced()
      ensures value == defaultValue && defaultValue == old(defaultValue)
      ensures Unchanged() && !Changed()
    {
      Set(defaultValue);
    }

    /** A new `config.defaultValue` changes the default only. */
    method DefaultChanged(newDefault: DateFields.DateValue)
      requires Valid()
      modifies this
      ensures Valid()
      ensures defaultValue == DateFields.Normalize(newDefault)
      ensures value == old(value) && dom == old(dom)
    {
      defaultValue := DateFields.Normalize(newDefault);
    }

    predicate Changed()
      reads this
    {
      !DateFields.Compare(value, defaultValue)
    }

    predicate Unchanged()
      reads this
    {
      DateFields.Compare(value, defaultValue)
    }

    predicate Empty()
      reads this
    {
      DateFields.IsEmpty(value)
    }

    function Label(): (p: LabelProps)
      reads this
      ensures p.htmlFor == name
    {
      LabelProps(name)
    }

    /** `input.props`: the input shows `dom`. */
    function Input(): (p: InputProps)
      reads this
      ensures p.id == name && p.name == name && p.value == dom
    {
      InputProps(name, name, dom)
    }

    /** The `changed` / `unchanged` / `empty` flags. */
    function Status(): (s: Fields.FieldStatus)
      reads this
      ensures Fields.Consistent(s)
      ensures s.isUnchanged <==> DateFields.Normalize(value) == DateFields.Normalize(defaultValue)
      ensures s.isEmpty <==> DateFields.IsEmpty(value)
    {
      Fields.FieldStatus(Changed(), Unchanged(), Empty())
    }
  }
}
