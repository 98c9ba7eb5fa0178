/**
 * The number field value: an immutable wrapper that stores `undefined`,
 * `null` and `NaN` as `EMPTY`. `0` is a value like any other.
 */
module NumberFields {
  import opened Js
  import opened Numbers

  type NumberValue = Nullish<Num>

  /** `NumberField.EMPTY`. */
  const EMPTY: NumberValue := Undefined

  /** Static `NumberField.isEmpty`. */
  function IsEmpty(v: NumberValue): (e: bool)
    ensures !e <==> v.Value? && !v.value.NaN?
  {
    v == Undefined || v == Null || v == Value(NaN)
  }

  /** What the constructor can leave in the field: `EMPTY` or a number other than `NaN`. */
  predicate IsStored(v: NumberValue)
  {
    v == EMPTY || (v.Value? && v.value != NaN)
  }

  /** An instance of `NumberField`. */
  datatype NumberField = NumberField(value: NumberValue)
  {
    /** `get()`. */
    function Get(): NumberValue
    {
      value
    }

    /** Instance `isEmpty()`. */
    predicate IsEmptyField()
    {
      IsEmpty(value)
    }
  }

  /** `new NumberField(v)`. */
  function New(v: NumberValue): (f: NumberField)
    ensures IsStored(f.Get())
    ensures f.IsEmptyField() <==> IsEmpty(v)
    ensures !IsEmpty(v) ==> f.Get() == v
  {
    NumberField(if IsEmpty(v) then EMPTY else v)
  }

  /** `new NumberField(v).get()`. */
  function Normalize(v: NumberValue): NumberValue
  {
    New(v).Get()
  }

  /** Static `NumberField.compare`. */
  function Compare(one: NumberValue, another: NumberValue): (same: bool)
    ensures same <==> Normalize(one) == Normalize(another)
  {
    if IsEmpty(one) && IsEmpty(another) then true else one == another
  }

  /** `isEmpty` holds of exactly `undefined`, `null` and `NaN`; `0` is not empty. */
  lemma EmptyForms(v: NumberValue)
    ensures IsEmpty(v) <==> (v.Undefined? || v.Null? || (v.Value? && v.value.NaN?))
    ensures !IsEmpty(Value(Zero))
  {
  }

  /** `NaN`, `undefined` and `null` become `EMPTY`; any other number is kept. */
  lemma NormalizeCases(v: NumberValue)
    ensures IsEmpty(v) ==> Normalize(v) == EMPTY
    ensures !IsEmpty(v) ==> Normalize(v) == v
    ensures Normalize(v) != Value(NaN) && Normalize(v) != Null
  {
  }

  /** Normalising twice is normalising once. */
  lemma NormalizeIdempotent(v: NumberValue)
    ensures Normalize(Normalize(v)) == Normalize(v)
  {
  }

  /** Empty never equals non-empty; two non-empty numbers compare by value; `NaN` equals `EMPTY`. */
  lemma CompareCases(one: NumberValue, another: NumberValue)
    ensures Compare(Value(NaN), EMPTY)
    ensures IsEmpty(one) && IsEmpty(another) ==> Compare(one, another)
    ensures IsEmpty(one) != IsEmpty(another) ==> !Compare(one, another)
    ensures !IsEmpty(one) && !IsEmpty(another) ==> (Compare(one, another) <==> one.value == another.value)
  {
  }
}
