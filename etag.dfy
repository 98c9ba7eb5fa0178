/**
 * `ETag.fromRevision`: the `if-match` request header for a resource
 * revision, as the bare decimal revision (no surrounding double quotes).
 */
module ETag {
  import opened Numbers

  const IfMatch: string := "if-match"

  function FromRevision(revision: Num): (h: map<string, string>)
    ensures h.Keys == {IfMatch}
    ensures h[IfMatch] == NumberToString(revision)
    ensures h[IfMatch] != "" && h[IfMatch][0] != 'W'
  {
    map[IfMatch := NumberToString(revision)]
  }

  /** Integer revisions print in decimal, e.g. 5 gives "5". */
  lemma IntegerRevision(revision: int)
    ensures FromRevision(Int(revision))[IfMatch] == IntToString(revision)
    ensures FromRevision(Int(5))[IfMatch] == "5"
  {
    IntPrintsAsInteger(revision);
    assert DigitChar(5) == '5';
  }

  /** Distinct revisions give distinct headers. */
  lemma FromRevisionInjective(a: Num, b: Num)
    requires FromRevision(a) == FromRevision(b)
    ensures a == b
  {
    assert FromRevision(a)[IfMatch] == FromRevision(b)[IfMatch];
    NumberToStringInjective(a, b);
  }
}
