/**
 * The date field value: like the text field, an immutable wrapper that
 * stores `undefined`, `null` and `""` as `EMPTY`. It does not check the
 * shape of a date; the date hook does that on input.
 */
module DateFields {
  import opened Js

  type DateValue = Nullish<string>

  /** `DateField.EMPTY`. */
  const EMPTY: DateValue := Undefined

  /** Static `DateField.isEmpty`. */
  function IsEmpty(v: DateValue): (e: bool)
    ensures !e <==> v.Value? && |v.value| > 0
  {
    v == Undefined || v == Null || v == Value("")
  }

  /** What the constructor can leave in the field: `EMPTY` or a non-empty string. */
  predicate IsStored(v: DateValue)
  {
    v == EMPTY || (v.Value? && v.value != "")
  }

  /** An instance of `DateField`. */
  datatype DateField = DateField(value: DateValue)
  {
    /** `get()`. */
    function Get(): DateValue
    {
      value
    }

    /** Instance `isEmpty()`. */
    predicate IsEmptyField()
    {
      IsEmpty(value)
    }
  }

  /** `new DateField(v)`. */
  function New(v: DateValue): (f: DateField)
    ensures IsStored(f.Get())
    ensures f.IsEmptyField() <==> IsEmpty(v)
    ensures !IsEmpty(v) ==> f.Get() == v
  {
    DateField(if IsEmpty(v) then EMPTY else v)
  }

  /** `new DateField(v).get()`. */
  function Normalize(v: DateValue): DateValue
  {
    New(v).Get()
  }

  /** Static `DateField.compare`. */
  function Compare(one: DateValue, another: DateValue): (same: bool)
    ensures same <==> Normalize(one) == Normalize(another)
  {
    if IsEmpty(one) && IsEmpty(another) then true else one == another
  }

  /** `isEmpty` holds of exactly `undefined`, `null` and `""`. */
  lemma EmptyForms(v: DateValue)
    ensures IsEmpty(v) <==> (v.Undefined? || v.Null? || (v.Value? && v.value == ""))
  {
  }

  /** Empty inputs become `EMPTY`; any other string is kept, whatever its shape. */
  lemma NormalizeCases(v: DateValue)
    ensures IsEmpty(v) ==> Normalize(v) == EMPTY
    ensures !IsEmpty(v) ==> Normalize(v) == v
  {
  }

  /** A slashed date is stored as it is and is not empty. */
  lemma SlashedDateIsKept()
    ensures Normalize(Value("2025/01/01")) == Value("2025/01/01")
    ensures !New(Value("2025/01/01")).IsEmptyField()
  {
  }

  /** Normalising twice is normalising once. */
  lemma NormalizeIdempotent(v: DateValue)
    ensures Normalize(Normalize(v)) == Normalize(v)
  {
  }

  /** Empty never equals non-empty; two non-empty dates compare as strings. */
  lemma CompareCases(one: DateValue, another: DateValue)
    ensures IsEmpty(one) && IsEmpty(another) ==> Compare(one, another)
    ensures IsEmpty(one) != IsEmpty(another) ==> !Compare(one, another)
    ensures !IsEmpty(one) && !IsEmpty(another) ==> (Compare(one, another) <==> one.value == another.value)
  {
  }
}
