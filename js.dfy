/**
 * JavaScript values as the core sees them: a value that may also be
 * `null` or `undefined`, TypeScript's optional (`T | undefined`), and the
 * attribute bags a field hook hands to its label and input elements.
 */
module Js {

  /** A value of type `T | null | undefined`. */
  datatype Nullish<+T> = Undefined | Null | Value(value: T)

  /** A value of type `T | undefined` where `null` is not in play. */
  datatype Option<+T> = None | Some(value: T)

  /** `v ?? fallback`: only `null` and `undefined` fall back. */
  function Coalesce<T>(v: Nullish<T>, fallback: T): T
  {
    if v.Value? then v.value else fallback
  }

  /** `String(v)` for a string that may be missing. */
  function StringOf(v: Nullish<string>): string
  {
    match v
    case Undefined => "undefined"
    case Null => "null"
    case Value(s) => s
  }

  /** `Array.prototype.every`. */
  function Every<T>(xs: seq<T>, p: T -> bool): (r: bool)
    ensures r <==> forall i :: 0 <= i < |xs| ==> p(xs[i])
  {
    if xs == [] then true
    else p(xs[0]) && Every(xs[1..], p)
  }

  /** `Array.prototype.some`. */
  function Any<T>(xs: seq<T>, p: T -> bool): (r: bool)
    ensures r <==> exists i :: 0 <= i < |xs| && p(xs[i])
  {
    if xs == [] then false
    else p(xs[0]) || Any(xs[1..], p)
  }

  /** `label.props` of a field hook. */
  datatype LabelProps = LabelProps(htmlFor: string)

  /** `input.props` of a field hook, without the change handler. */
  datatype InputProps = InputProps(id: string, name: string, value: string)
}
