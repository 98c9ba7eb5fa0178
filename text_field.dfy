/**
 * The text field value: an immutable wrapper that stores every empty form
 * of a string (`undefined`, `null`, `""`) as the one marker `EMPTY`.
 */
module TextFields {
  import opened Js

  type TextValue = Nullish<string>

  /** `TextField.EMPTY`: `undefined`, which HTML elements accept as empty. */
  const EMPTY: TextValue := Undefined

  /** Static `TextField.isEmpty`. */
  function IsEmpty(v: TextValue): (e: bool)
    ensures !e <==> v.Value? && |v.value| > 0
  {
    v == Undefined || v == Value("") || v == Null
  }

  /** What the constructor can leave in the field: `EMPTY` or a non-empty string. */
  predicate IsStored(v: TextValue)
  {
    v == EMPTY || (v.Value? && v.value != "")
  }

  /** An instance of `TextField`; its one field is private and read-only. */
  datatype TextField = TextField(value: TextValue)
  {
    /** `get()`. */
    function Get(): TextValue
    {
      value
    }

    /** Instance `isEmpty()`. */
    predicate IsEmptyField()
    {
      IsEmpty(value)
    }
  }

  /** `new TextField(v)`. */
  function New(v: TextValue): (f: TextField)
    ensures IsStored(f.Get())
    ensures f.IsEmptyField() <==> IsEmpty(v)
    ensures !IsEmpty(v) ==> f.Get() == v
  {
    TextField(if IsEmpty(v) then EMPTY else v)
  }

  /** `new TextField(v).get()`, the normalisation the hooks apply. */
  function Normalize(v: TextValue): TextValue
  {
    New(v).Get()
  }

  /** Static `TextField.compare`. */
  function Compare(one: TextValue, another: TextValue): (same: bool)
    ensures same <==> Normalize(one) == Normalize(another)
  {
    if IsEmpty(one) && IsEmpty(another) then true else one == another
  }

  /** `isEmpty` holds of exactly the three empty forms. */
  lemma EmptyForms(v: TextValue)
    ensures IsEmpty(v) <==> (v.Undefined? || v.Null? || (v.Value? && v.value == ""))
  {
  }

  /** Every empty input is stored as `EMPTY`; a non-empty one as it is. */
  lemma NormalizeCases(v: TextValue)
    ensures IsEmpty(v) ==> Normalize(v) == EMPTY
    ensures !IsEmpty(v) ==> Normalize(v) == v
    ensures Normalize(v) != Null && Normalize(v) != Value("")
  {
  }

  /** Normalising twice is normalising once. */
  lemma NormalizeIdempotent(v: TextValue)
    ensures Normalize(Normalize(v)) == Normalize(v)
  {
  }

  /** `compare` is an equivalence relation. */
  lemma CompareEquivalence(a: TextValue, b: TextValue, c: TextValue)
    ensures Compare(a, a)
    ensures Compare(a, b) <==> Compare(b, a)
    ensures Compare(a, b) && Compare(b, c) ==> Compare(a, c)
  {
  }

  /** Empty never equals non-empty; two non-empty strings compare by equality. */
  lemma CompareCases(one: TextValue, another: TextValue)
    ensures IsEmpty(one) && IsEmpty(another) ==> Compare(one, another)
    ensures IsEmpty(one) != IsEmpty(another) ==> !Compare(one, another)
    ensures !IsEmpty(one) && !IsEmpty(another) ==> (Compare(one, another) <==> one.value == another.value)
  {
  }
}
