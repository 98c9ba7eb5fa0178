/**
 * `Fields`: aggregate checks over the flags of several field hooks, each a
 * single `every` or `some` over the array.
 */
module Fields {
  import opened Js

  /** The derived flags a field hook exposes: `changed`, `unchanged`, `empty`. */
  datatype FieldStatus = FieldStatus(isChanged: bool, isUnchanged: bool, isEmpty: bool)

  /** What every field hook guarantees of its own flags. */
  predicate Consistent(f: FieldStatus)
  {
    f.isChanged == !f.isUnchanged
  }

  function AllUnchanged(fields: seq<FieldStatus>): (r: bool)
    ensures r <==> forall i :: 0 <= i < |fields| ==> fields[i].isUnchanged
  {
    Every(fields, (f: FieldStatus) => f.isUnchanged)
  }

  function AllEmpty(fields: seq<FieldStatus>): (r: bool)
    ensures r <==> forall i :: 0 <= i < |fields| ==> fields[i].isEmpty
  {
    Every(fields, (f: FieldStatus) => f.isEmpty)
  }

  function AnyEmpty(fields: seq<FieldStatus>): (r: bool)
    ensures r <==> exists i :: 0 <= i < |fields| && fields[i].isEmpty
  {
    Any(fields, (f: FieldStatus) => f.isEmpty)
  }

  function AnyUnchanged(fields: seq<FieldStatus>): (r: bool)
    ensures r <==> exists i :: 0 <= i < |fields| && fields[i].isUnchanged
  {
    Any(fields, (f: FieldStatus) => f.isUnchanged)
  }

  function AnyChanged(fields: seq<FieldStatus>): (r: bool)
    ensures r <==> exists i :: 0 <= i < |fields| && fields[i].isChanged
  {
    Any(fields, (f: FieldStatus) => f.isChanged)
  }

  /** On no fields every `all*` check holds and no `any*` check does. */
  lemma EmptyList()
    ensures AllUnchanged([]) && AllEmpty([])
    ensures !AnyEmpty([]) && !AnyUnchanged([]) && !AnyChanged([])
  {
  }

  /** On a non-empty list, all empty implies some empty. */
  lemma AllEmptyImpliesAnyEmpty(fields: seq<FieldStatus>)
    requires fields != []
    ensures AllEmpty(fields) ==> AnyEmpty(fields)
  {
    if AllEmpty(fields) {
      assert fields[0].isEmpty;
    }
  }

  /** For hooks' flags, some field changed exactly when not all are unchanged. */
  lemma AnyChangedIsNotAllUnchanged(fields: seq<FieldStatus>)
    requires forall i :: 0 <= i < |fields| ==> Consistent(fields[i])
    ensures AnyChanged(fields) <==> !AllUnchanged(fields)
  {
  }
}
