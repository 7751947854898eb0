/** HomeController of the OAuth2 sample: the redirects between its actions and the
    OutstandingInvoices action, which counts each connected organisation's
    outstanding sales invoices. */
module Controllers {
  import opened Xero
  import opened Claims
  import opened TokenStore

  datatype OutstandingInvoicesViewModel = OutstandingInvoicesViewModel(name: string, data: map<string, nat>)

  datatype ActionResult =
    | ViewResult                                        // the action's own view, without a model
    | InvoicesView(model: OutstandingInvoicesViewModel) // the OutstandingInvoices view
    | RedirectToAction(action: string)
    | ActionFaulted(exception: Exception)

  /** One accounting API request, with the access token and tenant it was sent with. */
  datatype ApiCall =
    | GetOrganisations(accessToken: string, tenantId: string)
    | GetInvoices(accessToken: string, tenantId: string)

  /** The per-tenant loop's result: the name-to-count dictionary or the exception
      that ended the loop, and the API requests made, in order. */
  datatype Tally = Tally(data: Result<map<string, nat>>, calls: seq<ApiCall>)

  /** The name of a connection's first organisation; null stands for an empty list. */
  function OrganisationName(api: AccountingApi, accessToken: string, c: Connection): Option<string> {
    var orgs := api.organisations(accessToken, c.tenantId);
    if |orgs| == 0 then None else Some(orgs[0].name)
  }

  function InvoiceCount(api: AccountingApi, accessToken: string, c: Connection): nat {
    api.outstandingInvoices(accessToken, c.tenantId)
  }

  /** The foreach loop over the connections, as a function of the connections
      processed so far: the last connection asks for its organisations, reads the
      first one's name (throwing on an empty list), asks for its invoices and stores
      their count under that name. Every request uses the one access token. */
  function TallyInvoices(api: AccountingApi, accessToken: string, conns: seq<Connection>): (t: Tally)
    ensures forall k :: 0 <= k < |t.calls| ==> t.calls[k].accessToken == accessToken
    ensures t.data.Ok? ==> |t.calls| == 2 * |conns|
    ensures t.data.Thrown? ==> t.data.exception == ArgumentOutOfRangeException
    decreases |conns|
  {
    if conns == [] then Tally(Ok(map[]), [])
    else
      var prev := TallyInvoices(api, accessToken, conns[..|conns| - 1]);
      var c := conns[|conns| - 1];
      if prev.data.Thrown? then prev
      else
        var name := OrganisationName(api, accessToken, c);
        var calls := prev.calls + [GetOrganisations(accessToken, c.tenantId)];
        if name.None? then Tally(Thrown(ArgumentOutOfRangeException), calls)
        else
          Tally(Ok(prev.data.value[name.value := InvoiceCount(api, accessToken, c)]),
                calls + [GetInvoices(accessToken, c.tenantId)])
  }

  /** The loop throws exactly when some connection has no organisation. */
  lemma {:induction false} TallyThrowsIffNoOrganisation(api: AccountingApi, accessToken: string, conns: seq<Connection>)
    ensures TallyInvoices(api, accessToken, conns).data.Thrown?
        <==> exists i :: 0 <= i < |conns| && OrganisationName(api, accessToken, conns[i]).None?
  {
    if conns != [] {
      var init := conns[..|conns| - 1];
      TallyThrowsIffNoOrganisation(api, accessToken, init);
      if exists i :: 0 <= i < |init| && OrganisationName(api, accessToken, init[i]).None? {
        var i :| 0 <= i < |init| && OrganisationName(api, accessToken, init[i]).None?;
        assert conns[i] == init[i];
      }
      if exists i :: 0 <= i < |conns| && OrganisationName(api, accessToken, conns[i]).None? {
        var i :| 0 <= i < |conns| && OrganisationName(api, accessToken, conns[i]).None?;
        if i < |init| {
          assert init[i] == conns[i];
        }
      }
    }
  }

  /** Once the loop has thrown, later connections are not processed. */
  lemma {:induction false} TallyStopsAtThrow(api: AccountingApi, accessToken: string, conns: seq<Connection>, k: nat)
    requires k <= |conns|
    requires TallyInvoices(api, accessToken, conns[..k]).data.Thrown?
    ensures TallyInvoices(api, accessToken, conns) == TallyInvoices(api, accessToken, conns[..k])
    decreases |conns| - k
  {
    if k < |conns| {
      assert conns[..k + 1][..k] == conns[..k];
      TallyStopsAtThrow(api, accessToken, conns, k + 1);
    } else {
      assert conns[..k] == conns;
    }
  }

  /** The dictionary's keys are exactly the first-organisation names of the connections. */
  lemma {:induction false} TallyKeys(api: AccountingApi, accessToken: string, conns: seq<Connection>, name: string)
    requires TallyInvoices(api, accessToken, conns).data.Ok?
    ensures name in TallyInvoices(api, accessToken, conns).data.value
        <==> exists i :: 0 <= i < |conns| && OrganisationName(api, accessToken, conns[i]) == Some(name)
  {
    if conns != [] {
      var init := conns[..|conns| - 1];
      TallyKeys(api, accessToken, init, name);
      if exists i :: 0 <= i < |init| && OrganisationName(api, accessToken, init[i]) == Some(name) {
        var i :| 0 <= i < |init| && OrganisationName(api, accessToken, init[i]) == Some(name);
        assert conns[i] == init[i];
      }
      if exists i :: 0 <= i < |conns| && OrganisationName(api, accessToken, conns[i]) == Some(name) {
        var i :| 0 <= i < |conns| && OrganisationName(api, accessToken, conns[i]) == Some(name);
        if i < |init| {
          assert init[i] == conns[i];
        }
      }
    }
  }

  /** Later connections overwrite earlier ones: a name maps to the invoice count of
      the last connection whose organisation bears it. */
  lemma {:induction false} TallyLastWins(api: AccountingApi, accessToken: string, conns: seq<Connection>, i: nat)
    requires TallyInvoices(api, accessToken, conns).data.Ok?
    requires i < |conns|
    requires forall j :: i < j < |conns| ==>
      OrganisationName(api, accessToken, conns[j]) != OrganisationName(api, accessToken, conns[i])
    ensures OrganisationName(api, accessToken, conns[i]).Some?
    ensures var d := TallyInvoices(api, accessToken, conns).data.value;
      var name := OrganisationName(api, accessToken, conns[i]).value;
      name in d && d[name] == InvoiceCount(api, accessToken, conns[i])
  {
    var init := conns[..|conns| - 1];
    if i < |conns| - 1 {
      assert init[i] == conns[i];
      forall j | i < j < |init|
        ensures OrganisationName(api, accessToken, init[j]) != OrganisationName(api, accessToken, init[i])
      {
        assert init[j] == conns[j];
      }
      TallyLastWins(api, accessToken, init, i);
      assert OrganisationName(api, accessToken, conns[|conns| - 1]) != OrganisationName(api, accessToken, conns[i]);
    }
  }

  /** The dictionary has at most one entry per connection. */
  lemma {:induction false} TallySize(api: AccountingApi, accessToken: string, conns: seq<Connection>)
    requires TallyInvoices(api, accessToken, conns).data.Ok?
    ensures |TallyInvoices(api, accessToken, conns).data.value| <= |conns|
  {
    if conns != [] {
      var init := conns[..|conns| - 1];
      TallySize(api, accessToken, init);
      var d := TallyInvoices(api, accessToken, init).data.value;
      var name := OrganisationName(api, accessToken, conns[|conns| - 1]).value;
      var d' := d[name := InvoiceCount(api, accessToken, conns[|conns| - 1])];
      assert d'.Keys == d.Keys + {name};
      assert |d'.Keys| <= |d.Keys| + |{name}|;
    }
  }

  /** A completed loop asks each connection's tenant for its organisations and then
      for its invoices, in connection order. */
  lemma {:induction false} TallyCalls(api: AccountingApi, accessToken: string, conns: seq<Connection>, i: nat)
    requires TallyInvoices(api, accessToken, conns).data.Ok?
    requires i < |conns|
    ensures var calls := TallyInvoices(api, accessToken, conns).calls;
      && calls[2 * i] == GetOrganisations(accessToken, conns[i].tenantId)
      && calls[2 * i + 1] == GetInvoices(accessToken, conns[i].tenantId)
  {
    var init := conns[..|conns| - 1];
    if i < |conns| - 1 {
      TallyCalls(api, accessToken, init, i);
      assert init[i] == conns[i];
    }
  }

  /** A null string interpolates as the empty string. */
  function OrEmpty(s: Option<string>): (r: string)
    ensures s.Some? ==> r == s.value
    ensures s.None? ==> r == ""
  {
    if s.Some? then s.value else ""
  }

  /** The name "{given name} {surname}" shown above the invoice counts. */
  function DisplayName(p: Principal): (r: string)
    ensures var given := OrEmpty(FindFirstValue(p.claims, GivenNameClaim));
      var surname := OrEmpty(FindFirstValue(p.claims, SurnameClaim));
      && |r| == |given| + 1 + |surname|
      && r[..|given|] == given
      && r[|given|] == ' '
      && r[|given| + 1..] == surname
  {
    OrEmpty(FindFirstValue(p.claims, GivenNameClaim)) + " " + OrEmpty(FindFirstValue(p.claims, SurnameClaim))
  }

  /** The request's HttpContext: its user, and the principal its authentication
      cookie carries (null once signed out). */
  class HttpContext {
    const user: Principal
    var cookie: Option<Principal>

    constructor (user: Principal, cookie: Option<Principal>)
      ensures this.user == user && this.cookie == cookie
    {
      this.user := user;
      this.cookie := cookie;
    }

    /** SignOutAsync with the default (cookie) scheme. */
    method SignOut()
      modifies this
      ensures cookie == None
    {
      cookie := None;
    }
  }

  class HomeController {
    const tokenStore: MemoryTokenStore
    const xeroClient: XeroClient
    const accountingApi: AccountingApi

    constructor (tokenStore: MemoryTokenStore, xeroClient: XeroClient, accountingApi: AccountingApi)
      ensures this.tokenStore == tokenStore && this.xeroClient == xeroClient && this.accountingApi == accountingApi
    {
      this.tokenStore := tokenStore;
      this.xeroClient := xeroClient;
      this.accountingApi := accountingApi;
    }

    /** The landing page: signed-in users go straight to their invoices. */
    function Index(context: HttpContext): (r: ActionResult)
      ensures context.user.isAuthenticated <==> r == RedirectToAction("OutstandingInvoices")
      ensures !context.user.isAuthenticated <==> r == ViewResult
    {
      if context.user.isAuthenticated then RedirectToAction("OutstandingInvoices") else ViewResult
    }

    /** OutstandingInvoices: fetch the user's token once, list its connections, and
        without any connection go to NoTenants; otherwise run the per-tenant loop
        with that token's access token and show the name-to-count dictionary. */
    method OutstandingInvoices(context: HttpContext) returns (r: ActionResult, calls: seq<ApiCall>)
      modifies tokenStore
      ensures XeroUserId(context.user).None? ==>
        r == ActionFaulted(ArgumentNullException) && calls == [] && tokenStore.tokens == old(tokenStore.tokens)
      ensures XeroUserId(context.user).Some? ==>
        var lookup := Read(old(tokenStore.tokens), tokenStore.xeroClient.currentValidToken, XeroUserId(context.user).value);
        var conns := xeroClient.connections(lookup.token);
        && tokenStore.tokens == lookup.tokens
        && (conns == [] ==> r == RedirectToAction("NoTenants") && calls == [])
        && (conns != [] && lookup.token.None? ==> r == ActionFaulted(NullReferenceException) && calls == [])
        && (conns != [] && lookup.token.Some? ==>
              var t := TallyInvoices(accountingApi, lookup.token.value.accessToken, conns);
              && calls == t.calls
              && r == if t.data.Ok? then InvoicesView(OutstandingInvoicesViewModel(DisplayName(context.user), t.data.value))
                      else ActionFaulted(t.data.exception))
    {
      calls := [];
      var userId := XeroUserId(context.user);
      if userId.None? {
        return ActionFaulted(ArgumentNullException), [];
      }
      var token := tokenStore.GetAccessToken(userId.value);
      var connections := xeroClient.connections(token);
      if connections == [] {
        return RedirectToAction("NoTenants"), [];
      }
      var data: map<string, nat> := map[];
      var i := 0;
      while i < |connections|
        invariant 0 <= i <= |connections|
        invariant i > 0 ==> token.Some?
        invariant token.Some? ==> TallyInvoices(accountingApi, token.value.accessToken, connections[..i]) == Tally(Ok(data), calls)
        invariant token.None? ==> calls == []
      {
        if token.None? {
          return ActionFaulted(NullReferenceException), [];
        }
        var accessToken := token.value.accessToken;
        var tenantId := connections[i].tenantId;
        assert connections[..i + 1][..i] == connections[..i];
        var organisations := accountingApi.organisations(accessToken, tenantId);
        calls := calls + [GetOrganisations(accessToken, tenantId)];
        if |organisations| == 0 {
          TallyStopsAtThrow(accountingApi, accessToken, connections, i + 1);
          return ActionFaulted(ArgumentOutOfRangeException), calls;
        }
        var organisationName := organisations[0].name;
        var outstandingInvoices := accountingApi.outstandingInvoices(accessToken, tenantId);
        calls := calls + [GetInvoices(accessToken, tenantId)];
        data := data[organisationName := outstandingInvoices];
        i := i + 1;
      }
      assert connections[..i] == connections;
      r := InvoicesView(OutstandingInvoicesViewModel(DisplayName(context.user), data));
    }

    /** AddConnection: sign out of this application only, leaving the token store
        as it is, and start the sign-up flow again to connect more organisations. */
    method AddConnection(context: HttpContext) returns (r: ActionResult)
      modifies context
      ensures context.cookie == None
      ensures tokenStore.tokens == old(tokenStore.tokens)
      ensures r == RedirectToAction("SignUp")
    {
      context.SignOut();
      r := RedirectToAction("SignUp");
    }

    /** Reached after the sign-up scheme has authenticated the user. */
    function SignUp(): (r: ActionResult)
      ensures r == RedirectToAction("OutstandingInvoices")
    {
      RedirectToAction("OutstandingInvoices")
    }

    /** Reached after the sign-in scheme has authenticated the user. */
    function SignIn(): (r: ActionResult)
      ensures r == RedirectToAction("OutstandingInvoices")
    {
      RedirectToAction("OutstandingInvoices")
    }
  }
}
