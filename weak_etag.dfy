/**
 * `WeakETag.fromRevision`: the `if-match` header with the weak indicator
 * `W/` of section 2.3 of RFC 7232 in front of the revision.
 */
module WeakETag {
  import opened Numbers
  import ETag

  function FromRevision(revision: Num): (h: map<string, string>)
    ensures h.Keys == {ETag.IfMatch}
    ensures |h[ETag.IfMatch]| > 2 && h[ETag.IfMatch][..2] == "W/"
  {
    map[ETag.IfMatch := "W/" + NumberToString(revision)]
  }

  /** Dropping the weak indicator gives the strong header's value. */
  lemma StripWeakIndicator(revision: Num)
    ensures FromRevision(revision)[ETag.IfMatch][2..] == ETag.FromRevision(revision)[ETag.IfMatch]
  {
  }

  /** A weak header never equals a strong one. */
  lemma WeakIsNotStrong(a: Num, b: Num)
    ensures FromRevision(a) != ETag.FromRevision(b)
  {
    assert FromRevision(a)[ETag.IfMatch][0] == 'W';
  }

  /** Integer revisions print in decimal after the indicator, e.g. 5 gives "W/5". */
  lemma IntegerRevision(revision: int)
    ensures FromRevision(Int(revision))[ETag.IfMatch] == "W/" + IntToString(revision)
    ensures FromRevision(Int(5))[ETag.IfMatch] == "W/5"
  {
    ETag.IntegerRevision(revision);
    ETag.IntegerRevision(5);
  }

  /** Distinct revisions give distinct headers. */
  lemma FromRevisionInjective(a: Num, b: Num)
    requires FromRevision(a)[ETag.IfMatch] == FromRevision(b)[ETag.IfMatch]
    ensures a == b
  {
    StripWeakIndicator(a);
    StripWeakIndicator(b);
    NumberToStringInjective(a, b);
  }
}
