/**
 * Reading a bearer token out of an `Authorization` header (section 2.1 of
 * RFC 6750), as every runtime does it: the header must start with the exact,
 * case-sensitive "Bearer " and the token is everything after its first
 * seven characters.
 */
module Bearer {
  import opened Wrappers

  const BEARER_PREFIX: string := "Bearer "

  predicate StartsWith(s: string, prefix: string)
  {
    |prefix| <= |s| && s[..|prefix|] == prefix
  }

  /**
   * `!h || !h.startsWith('Bearer ') ? <no token> : h.substring(7)`; an absent
   * header and the empty header (falsy in JavaScript) both give no token.
   */
  function BearerToken(header: Option<string>): (t: Option<string>)
    ensures t.Some? <==> header.Some? && StartsWith(header.value, BEARER_PREFIX)
    ensures t.Some? ==> header.value == BEARER_PREFIX + t.value
  {
    if header.None? || header.value == "" || !StartsWith(header.value, BEARER_PREFIX) then None
    else
      assert header.value == header.value[..7] + header.value[7..];
      Some(header.value[7..])
  }

  /** Parsing "Bearer " + t gives back exactly t. */
  lemma BearerRoundTrip(t: string)
    ensures BearerToken(Some(BEARER_PREFIX + t)) == Some(t)
  {
    var h := BEARER_PREFIX + t;
    assert h[..|BEARER_PREFIX|] == BEARER_PREFIX;
    assert h[7..] == t;
  }

  /** The scheme name is matched case-sensitively: "bearer " is refused. */
  lemma SchemeIsCaseSensitive(t: string)
    ensures BearerToken(Some("bearer " + t)).None?
    ensures BearerToken(Some("Bearer")).None?
  {
    assert ("bearer " + t)[0] == 'b';
  }
}
