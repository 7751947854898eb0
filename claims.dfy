/** The authenticated principal of a request and the claims read from it. */
module Claims {
  import opened Xero

  datatype Claim = Claim(claimType: string, value: string)

  /** A ClaimsPrincipal: whether its identity is authenticated, and its claims in order. */
  datatype Principal = Principal(isAuthenticated: bool, claims: seq<Claim>)

  const XeroUserIdClaim := "xero_userid"
  const GivenNameClaim := "http://schemas.xmlsoap.org/ws/2005/05/identity/claims/givenname"
  const SurnameClaim := "http://schemas.xmlsoap.org/ws/2005/05/identity/claims/surname"

  /** The upper-case form of an ASCII letter; any other character is unchanged. */
  function ToUpperAscii(c: char): (u: char)
    ensures 'a' <= c <= 'z' ==> 'A' <= u <= 'Z'
    ensures !('a' <= c <= 'z') ==> u == c
  {
    if 'a' <= c <= 'z' then (c as int - ('a' as int - 'A' as int)) as char else c
  }

  /** Claim types compare ordinally, ignoring case. */
  predicate EqualsIgnoreCase(a: string, b: string) {
    |a| == |b| && forall i :: 0 <= i < |a| ==> ToUpperAscii(a[i]) == ToUpperAscii(b[i])
  }

  /** FindFirstValue: the value of the first claim whose type matches, ignoring
      case, or null when none does. */
  function FindFirstValue(claims: seq<Claim>, claimType: string): (r: Option<string>)
    ensures r.None? <==> forall i :: 0 <= i < |claims| ==> !EqualsIgnoreCase(claims[i].claimType, claimType)
    ensures r.Some? ==>
      exists i :: 0 <= i < |claims| && EqualsIgnoreCase(claims[i].claimType, claimType) && claims[i].value == r.value
        && forall j :: 0 <= j < i ==> !EqualsIgnoreCase(claims[j].claimType, claimType)
  {
    if claims == [] then None
    else if EqualsIgnoreCase(claims[0].claimType, claimType) then Some(claims[0].value)
    else
      var r := FindFirstValue(claims[1..], claimType);
      assert forall i :: 1 <= i < |claims| ==> claims[i] == claims[1..][i - 1];
      r
  }

  /** The principal's Xero user id: the value of its first xero_userid claim, in
      any letter case; null when the principal has no such claim. */
  function XeroUserId(p: Principal): (r: Option<string>)
    ensures r.None? <==> forall i :: 0 <= i < |p.claims| ==> !EqualsIgnoreCase(p.claims[i].claimType, XeroUserIdClaim)
    ensures r.Some? ==>
      exists i :: 0 <= i < |p.claims| && EqualsIgnoreCase(p.claims[i].claimType, XeroUserIdClaim)
        && p.claims[i].value == r.value
        && forall j :: 0 <= j < i ==> !EqualsIgnoreCase(p.claims[j].claimType, XeroUserIdClaim)
  {
    FindFirstValue(p.claims, XeroUserIdClaim)
  }

  /** A claim type written in upper case still identifies the user. */
  lemma UpperCaseUserIdClaim(value: string)
    ensures XeroUserId(Principal(true, [Claim("XERO_USERID", value)])) == Some(value)
  {
    assert EqualsIgnoreCase("XERO_USERID", XeroUserIdClaim);
  }
}
