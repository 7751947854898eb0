# Xero OAuth2 samples: token store and sign-in flow

A Dafny model of the token-handling core of the Xero .NET OAuth2 sample
applications:

- **MemoryTokenStore**, the in-memory table from Xero user id to OAuth2 token.
  `SetToken` upserts. `GetAccessTokenAsync` returns null for an unknown user.
  For a known user it passes the stored token through the Xero client's
  `GetCurrentValidTokenAsync`, writes the result back and returns it, so every
  read may also be a write.
- **Startup**, which configures authentication:
  - the cookie hook `OnValidatePrincipal` rejects a session when the store
    returns no token for its user;
  - there are two OpenID Connect schemes, `XeroSignIn` and `XeroSignUp`, which
    differ in their scopes and callback paths;
  - both schemes share the `OnTokenValidated` callback, which stores the newly
    issued token under the principal's user id.
- **HomeController**, with the redirects between its actions and the
  `OutstandingInvoices` action. That action reads the user's token once and
  lists the token's connections (tenants). With no connections it goes to
  `NoTenants`. Otherwise it asks the accounting API about each tenant and
  builds a dictionary from organisation name to the number of outstanding
  invoices.

The Xero SDK's network calls (`GetCurrentValidTokenAsync`,
`GetConnectionsAsync`, `GetOrganisationsAsync`, `GetInvoicesAsync`) are
function-valued fields of the `XeroClient` and `AccountingApi` records. The
model assumes nothing about what they return for given arguments. C# null references are
`Option.None`. Each exception the modelled statements themselves can throw is
an explicit outcome:

- a null user id given to `Dictionary` raises `ArgumentNullException`;
- reading `AccessToken` through a null token raises `NullReferenceException`;
- indexing an empty organisation list raises `ArgumentOutOfRangeException`.

Files:

- `xero.dfy`: the SDK's types.
- `claims.dfy`: the principal and its claims.
- `token_store.dfy`: the store.
- `startup.dfy`: the authentication set-up.
- `home_controller.dfy`: the controller.

The application's controller and start-up code use a `MemoryTokenStore` in
namespace `XeroOAuth2Sample.Example`. That file is not part of this model.
Those callers use the same two methods with the same signatures as the
`MemoryTokenStore` of the MVC-PKCE sample, so the model uses that class.

## Model

| member | source | states |
|---|---|---|
| Claims.FindFirstValue | XeroOAuth2Sample/XeroOAuth2Sample/Extensions/ClaimsPrincipalExtensions.cs:9 | claim types match ordinally, ignoring case; null exactly when no claim type matches; otherwise the value of the first claim whose type matches |
| Claims.XeroUserId | XeroOAuth2Sample/XeroOAuth2Sample/Extensions/ClaimsPrincipalExtensions.cs:7-10 | null exactly when no claim type equals xero_userid, ignoring case; otherwise the value of the first claim whose type does |
| Claims.UpperCaseUserIdClaim | XeroOAuth2Sample/XeroOAuth2Sample/Extensions/ClaimsPrincipalExtensions.cs:9 | a claim of type XERO_USERID gives the principal's user id |
| Controllers.OrEmpty | XeroOAuth2Sample/XeroOAuth2Sample/Controllers/HomeController.cs:71 | a null claim value interpolates as the empty string, and any other value as itself |
| Controllers.DisplayName | XeroOAuth2Sample/XeroOAuth2Sample/Controllers/HomeController.cs:71 | the result is the given name, then one space, then the surname, with each name empty when its claim is absent |
| TokenStore.Upsert | XeroOAuth2Sample-MVC-PKCE/XeroOAuth2Sample-MVC-PKCE/Examples/MemoryTokenStore.cs:36-39 | the user is then a key and maps to the new token, whether or not it was a key before; no other key is added and no other entry changes |
| TokenStore.Read | XeroOAuth2Sample-MVC-PKCE/XeroOAuth2Sample-MVC-PKCE/Examples/MemoryTokenStore.cs:20-34 | a miss returns null and leaves the table unchanged; a hit returns the refreshed stored token and stores it; the key set never changes and other users' entries stay the same |
| TokenStore.MemoryTokenStore.constructor | XeroOAuth2Sample-MVC-PKCE/XeroOAuth2Sample-MVC-PKCE/Examples/MemoryTokenStore.cs:14-18 | a new store is empty and keeps the client it is given |
| TokenStore.MemoryTokenStore.GetAccessToken | XeroOAuth2Sample-MVC-PKCE/XeroOAuth2Sample-MVC-PKCE/Examples/MemoryTokenStore.cs:20-34 | returns the token and leaves the table that Read gives for the old table and the client's refresh |
| TokenStore.MemoryTokenStore.SetToken | XeroOAuth2Sample-MVC-PKCE/XeroOAuth2Sample-MVC-PKCE/Examples/MemoryTokenStore.cs:36-39 | the table becomes the upsert of the old table |
| TokenStore.FreshStoreMisses | XeroOAuth2Sample-MVC-PKCE/XeroOAuth2Sample-MVC-PKCE/Examples/MemoryTokenStore.cs:17-25 | on the empty table a read returns null and the table stays empty |
| TokenStore.UpsertLastWriteWins | XeroOAuth2Sample-MVC-PKCE/XeroOAuth2Sample-MVC-PKCE/Examples/MemoryTokenStore.cs:38 | two upserts for one user leave only the second value |
| TokenStore.SetThenGet | XeroOAuth2Sample-MVC-PKCE/XeroOAuth2Sample-MVC-PKCE/Examples/MemoryTokenStore.cs:27-38 | storing t and then reading the same user returns refresh(t) and leaves refresh(t) stored |
| TokenStore.ReadIdempotent | XeroOAuth2Sample-MVC-PKCE/XeroOAuth2Sample-MVC-PKCE/Examples/MemoryTokenStore.cs:29-31 | when the refresh returns the stored token unchanged, a read leaves the table as it was and a second read returns the same result |
| Startup.SchemeName | XeroOAuth2Sample/XeroOAuth2Sample/Startup.cs:70-91 | the scheme names XeroSignIn and XeroSignUp tell the two schemes apart |
| Startup.Scopes | XeroOAuth2Sample/XeroOAuth2Sample/Startup.cs:79-106 | both schemes request openid, profile and email, each scope once; offline_access is requested by sign-up only |
| Startup.CallbackPath | XeroOAuth2Sample/XeroOAuth2Sample/Startup.cs:84-108 | /signin-oidc belongs to sign-in and /signup-oidc to sign-up |
| Startup.ScopeSets | XeroOAuth2Sample/XeroOAuth2Sample/Startup.cs:79-106 | the sign-in set is exactly {openid, profile, email}; the sign-up set is those plus offline_access, accounting.settings and accounting.transactions, a strict superset |
| Startup.SchemesDifferInScopesAndPath | XeroOAuth2Sample/XeroOAuth2Sample/Startup.cs:48-114 | the default challenge scheme is XeroSignIn; the options of the two schemes (`Options`: authority, response type, scopes, callback path) share authority and response type; different schemes have different scopes and different callback paths |
| Startup.IssuedToken | XeroOAuth2Sample/XeroOAuth2Sample/Startup.cs:132-137 | the access and refresh tokens are copied from the response; the expiry is now plus the expires_in seconds (`ExpiresInSeconds`, the Convert.ToDouble step, which turns an absent value into 0), so the expiry is now when expires_in is absent |
| Startup.OnValidatePrincipal | XeroOAuth2Sample/XeroOAuth2Sample/Startup.cs:58-67 | without a user id it throws ArgumentNullException and changes nothing; otherwise it rejects exactly when the user has no entry or the refresh of the entry is null, and the store ends up as after one Read |
| Startup.OnTokenValidated | XeroOAuth2Sample/XeroOAuth2Sample/Startup.cs:126-143 | without a user id it throws ArgumentNullException and changes nothing; otherwise it upserts the issued token under the principal's user id |
| Startup.CallbackThenValidate | XeroOAuth2Sample/XeroOAuth2Sample/Startup.cs:58-143 | after the callback for a user, the next validation of that user's principal accepts whenever the refresh of the new token is not null |
| Controllers.TallyInvoices | XeroOAuth2Sample/XeroOAuth2Sample/Controllers/HomeController.cs:54-67 | every API request uses the one access token; a completed loop makes two requests per connection; the only exception is ArgumentOutOfRangeException. It uses `OrganisationName`, the first organisation's name or null for an empty list (lines 61-62), and `InvoiceCount`, the number of invoices returned (lines 64-66) |
| Controllers.TallyThrowsIffNoOrganisation | XeroOAuth2Sample/XeroOAuth2Sample/Controllers/HomeController.cs:61-62 | the loop throws exactly when some connection's organisation list is empty |
| Controllers.TallyStopsAtThrow | XeroOAuth2Sample/XeroOAuth2Sample/Controllers/HomeController.cs:56-67 | after a throw, later connections add no requests and change no result |
| Controllers.TallyKeys | XeroOAuth2Sample/XeroOAuth2Sample/Controllers/HomeController.cs:56-66 | the dictionary's keys are exactly the first-organisation names of the connections |
| Controllers.TallyLastWins | XeroOAuth2Sample/XeroOAuth2Sample/Controllers/HomeController.cs:66 | a name maps to the invoice count of the last connection whose organisation has that name |
| Controllers.TallySize | XeroOAuth2Sample/XeroOAuth2Sample/Controllers/HomeController.cs:54-67 | the dictionary has at most as many entries as there are connections |
| Controllers.TallyCalls | XeroOAuth2Sample/XeroOAuth2Sample/Controllers/HomeController.cs:58-64 | a completed loop asks each tenant, in connection order, for its organisations and then for its invoices, with the one access token |
| Controllers.HttpContext.constructor | XeroOAuth2Sample/XeroOAuth2Sample/Controllers/HomeController.cs:33-90 | the request context that the actions read `User` from and sign out of keeps the request's user and the principal its cookie carries |
| Controllers.HttpContext.SignOut | XeroOAuth2Sample/XeroOAuth2Sample/Controllers/HomeController.cs:90 | the authentication cookie no longer carries a principal |
| Controllers.HomeController.constructor | XeroOAuth2Sample/XeroOAuth2Sample/Controllers/HomeController.cs:23-28 | the controller keeps the store, client and accounting API it is given |
| Controllers.HomeController.Index | XeroOAuth2Sample/XeroOAuth2Sample/Controllers/HomeController.cs:31-39 | redirects to OutstandingInvoices exactly when the user is authenticated; otherwise renders the view |
| Controllers.HomeController.OutstandingInvoices | XeroOAuth2Sample/XeroOAuth2Sample/Controllers/HomeController.cs:43-76 | the store is read once; no connections means a NoTenants redirect with no API request; a null token with connections throws NullReferenceException; otherwise the requests and the shown dictionary are those of TallyInvoices with that token's access token |
| Controllers.HomeController.AddConnection | XeroOAuth2Sample/XeroOAuth2Sample/Controllers/HomeController.cs:86-93 | signs the user out of the cookie, leaves the token store unchanged and redirects to SignUp |
| Controllers.HomeController.SignUp | XeroOAuth2Sample/XeroOAuth2Sample/Controllers/HomeController.cs:97-100 | redirects to OutstandingInvoices |
| Controllers.HomeController.SignIn | XeroOAuth2Sample/XeroOAuth2Sample/Controllers/HomeController.cs:104-107 | redirects to OutstandingInvoices |

## Left out

- Claims.FindFirstValue: ignores case only for the ASCII letters a-z. The framework's ordinal case-insensitive comparison also folds other letters. The claim types used here are ASCII.
- The Xero SDK calls are unconstrained functions: `GetCurrentValidTokenAsync`, `GetConnectionsAsync`, `GetOrganisationsAsync` and `GetInvoicesAsync`. Their own logic is library code outside this repository. They are functions of their arguments only, so a result cannot depend on the clock or on earlier calls. The second clause of `TokenStore.ReadIdempotent` relies on this: a repeated refresh of the same token gives the same token. The model therefore has no expiry check and no refresh failure. An exception thrown inside them, for example a refused refresh, is not modelled.
- async/await and concurrent requests are not modelled. The model runs sequentially, and `Dictionary` is not thread-safe anyway.
- Instants and `expires_in` are whole seconds. The model does not capture `DateTime.UtcNow` (the time is a parameter), floating-point `Convert.ToDouble`, or the `FormatException` that a non-numeric `expires_in` would raise.
- A null access token in the token response, and a null organisation name, are not modelled. A null organisation name would make the dictionary write throw.
- Framework behaviour is not modelled: `[Authorize]` challenges, what the framework does after `RejectPrincipal`, cookie issuance and the OpenID Connect protocol (authority redirects, code exchange).
- Framework plumbing is not modelled: dependency-injection registration, client id and secret configuration, the cookie policy, the `Configure` pipeline, routing, the `NoTenants` and `Error` actions, and view rendering.
- The sign-in-only sample's controller only renders views and formats a greeting, so it is not modelled.
- `Controllers.HomeController.OutstandingInvoices` covers `GetInvoicesAsync` only through the number of invoices it returns. The status and type filters are part of that call.
