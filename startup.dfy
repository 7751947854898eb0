/** The authentication set-up: the cookie validation hook, the two OpenID Connect
    schemes and the token-validated callback they share. */
module Startup {
  import opened Xero
  import opened Claims
  import opened TokenStore

  /** The two OpenID Connect schemes, by name. */
  datatype Scheme = XeroSignIn | XeroSignUp

  const Authority := "https://identity.xero.com"
  const ResponseType := "code"
  const CookieName := "XeroIdentity"

  /** The scheme a challenge uses when an action names none. */
  const DefaultChallengeScheme := XeroSignIn

  /** The options a scheme is registered with. The token-validated handler is not
      among them: both schemes register the one handler, OnTokenValidated below. */
  datatype OpenIdConnectOptions = OpenIdConnectOptions(
    authority: string, responseType: string, scopes: seq<string>, callbackPath: string)

  function SchemeName(s: Scheme): (r: string)
    ensures r == "XeroSignIn" <==> s == XeroSignIn
    ensures r == "XeroSignUp" <==> s == XeroSignUp
  {
    match s
    case XeroSignIn => "XeroSignIn"
    case XeroSignUp => "XeroSignUp"
  }

  /** The scopes each scheme requests, in the order they are added. Only sign-up
      asks for offline_access, so only its tokens come with a refresh token. */
  function Scopes(s: Scheme): (r: seq<string>)
    ensures "openid" in r && "profile" in r && "email" in r
    ensures "offline_access" in r <==> s == XeroSignUp
    ensures forall i, j :: 0 <= i < j < |r| ==> r[i] != r[j]
  {
    match s
    case XeroSignIn => ["openid", "profile", "email"]
    case XeroSignUp =>
      ["offline_access", "openid", "profile", "email", "accounting.settings", "accounting.transactions"]
  }

  function CallbackPath(s: Scheme): (r: string)
    ensures r == "/signin-oidc" <==> s == XeroSignIn
    ensures r == "/signup-oidc" <==> s == XeroSignUp
  {
    match s
    case XeroSignIn => "/signin-oidc"
    case XeroSignUp => "/signup-oidc"
  }

  function Options(s: Scheme): OpenIdConnectOptions {
    OpenIdConnectOptions(Authority, ResponseType, Scopes(s), CallbackPath(s))
  }

  function ScopeSet(s: Scheme): set<string> {
    set x | x in Scopes(s)
  }

  /** Sign-in asks for exactly the identity scopes; sign-up asks for those and more. */
  lemma ScopeSets()
    ensures ScopeSet(XeroSignIn) == {"openid", "profile", "email"}
    ensures "offline_access" !in ScopeSet(XeroSignIn)
    ensures ScopeSet(XeroSignUp)
         == {"offline_access", "openid", "profile", "email", "accounting.settings", "accounting.transactions"}
    ensures ScopeSet(XeroSignIn) < ScopeSet(XeroSignUp)
  {
  }

  /** The schemes share authority and response type, and differ in scopes and in
      callback path, so a callback tells which scheme it answers. */
  lemma SchemesDifferInScopesAndPath(a: Scheme, b: Scheme)
    ensures SchemeName(DefaultChallengeScheme) == "XeroSignIn"
    ensures Options(a).authority == Options(b).authority
    ensures Options(a).responseType == Options(b).responseType
    ensures a != b ==> Options(a).scopes != Options(b).scopes && Options(a).callbackPath != Options(b).callbackPath
  {
  }

  /** The part of the token endpoint's response the callback reads. expires_in
      arrives as a string of seconds that may be absent. */
  datatype TokenEndpointResponse =
    TokenEndpointResponse(accessToken: string, refreshToken: Option<string>, expiresIn: Option<int>)

  /** Convert.ToDouble of the expires_in string: an absent value converts to 0. */
  function ExpiresInSeconds(response: TokenEndpointResponse): int {
    if response.expiresIn.Some? then response.expiresIn.value else 0
  }

  /** The token the callback builds from the response at time `now`. */
  function IssuedToken(response: TokenEndpointResponse, now: int): (t: Token)
    ensures t.accessToken == response.accessToken
    ensures t.refreshToken == response.refreshToken
    ensures t.expiresAtUtc - now == ExpiresInSeconds(response)
    ensures response.expiresIn.None? ==> t.expiresAtUtc == now
  {
    Token(response.accessToken, response.refreshToken, now + ExpiresInSeconds(response))
  }

  /** The verdict of the cookie validation hook. */
  datatype Validation = Accepted | Rejected | ValidationFaulted(exception: Exception)

  /** OnValidatePrincipal: a session survives only while the store still returns a
      token for its user. The lookup is a read that writes, so the user's entry may
      be replaced by the refreshed token; no other entry changes. */
  method OnValidatePrincipal(store: MemoryTokenStore, principal: Principal) returns (v: Validation)
    modifies store
    ensures XeroUserId(principal).None? ==>
      v == ValidationFaulted(ArgumentNullException) && store.tokens == old(store.tokens)
    ensures XeroUserId(principal).Some? ==>
      var userId := XeroUserId(principal).value;
      && store.tokens == Read(old(store.tokens), store.xeroClient.currentValidToken, userId).tokens
      && (v == Accepted || v == Rejected)
      && (v == Rejected <==>
            userId !in old(store.tokens) || store.xeroClient.currentValidToken(old(store.tokens)[userId]).None?)
  {
    var userId := XeroUserId(principal);
    if userId.None? {
      return ValidationFaulted(ArgumentNullException);
    }
    var token := store.GetAccessToken(userId.value);
    if token.None? {
      v := Rejected;
    } else {
      v := Accepted;
    }
  }

  /** The outcome of the token-validated callback. */
  datatype Completion = Completed | CallbackFaulted(exception: Exception)

  /** OnTokenValidated, shared by both schemes: store the newly issued token under
      the principal's user id, replacing any earlier one. */
  method OnTokenValidated(store: MemoryTokenStore, principal: Principal, response: TokenEndpointResponse, now: int)
    returns (c: Completion)
    modifies store
    ensures XeroUserId(principal).None? ==>
      c == CallbackFaulted(ArgumentNullException) && store.tokens == old(store.tokens)
    ensures XeroUserId(principal).Some? ==>
      c == Completed && store.tokens == Upsert(old(store.tokens), XeroUserId(principal).value, Some(IssuedToken(response, now)))
  {
    var token := IssuedToken(response, now);
    var userId := XeroUserId(principal);
    if userId.None? {
      return CallbackFaulted(ArgumentNullException);
    }
    store.SetToken(userId.value, Some(token));
    c := Completed;
  }

  /** A sign-in callback followed by the next request's validation: the session is
      accepted whenever the client returns a token for the one just stored. */
  method CallbackThenValidate(store: MemoryTokenStore, principal: Principal, response: TokenEndpointResponse, now: int)
    returns (v: Validation)
    requires XeroUserId(principal).Some?
    requires store.xeroClient.currentValidToken(Some(IssuedToken(response, now))).Some?
    modifies store
    ensures v == Accepted
    ensures store.tokens
         == Upsert(old(store.tokens), XeroUserId(principal).value,
                   store.xeroClient.currentValidToken(Some(IssuedToken(response, now))))
  {
    var c := OnTokenValidated(store, principal, response, now);
    SetThenGet(old(store.tokens), store.xeroClient.currentValidToken, XeroUserId(principal).value,
               Some(IssuedToken(response, now)));
    v := OnValidatePrincipal(store, principal);
  }
}
