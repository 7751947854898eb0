/** The values the samples receive from the Xero .NET SDK and from ASP.NET Core.
    The SDK's network calls are not part of this model: each is a field of type
    `A -> B` of a record, so the model assumes nothing about what it returns. */
module Xero {

  /** A C# reference that may be null: `None` is null. */
  datatype Option<+T> = None | Some(value: T)

  /** The exceptions the modelled code can raise from its own statements. */
  datatype Exception =
    | ArgumentNullException        // a null key given to Dictionary<string, _>
    | NullReferenceException       // a member read through a null reference
    | ArgumentOutOfRangeException  // List<T> indexed past its end

  /** A computation that returns a value or throws. */
  datatype Result<+T> = Ok(value: T) | Thrown(exception: Exception)

  /** IXeroToken, with the three members the samples set and read. Instants are
      whole seconds since an arbitrary epoch, in UTC. */
  datatype Token = Token(accessToken: string, refreshToken: Option<string>, expiresAtUtc: int)

  /** One tenant the token is authorised for; TenantId is a Guid, kept as its string form. */
  datatype Connection = Connection(tenantId: string)

  /** One organisation as returned by the accounting API. */
  datatype Organisation = Organisation(name: string)

  /** IXeroClient: GetCurrentValidTokenAsync and GetConnectionsAsync. */
  datatype XeroClient = XeroClient(
    currentValidToken: Option<Token> -> Option<Token>,
    connections: Option<Token> -> seq<Connection>)

  /** IAccountingApi: GetOrganisationsAsync(accessToken, tenantId) and the number of
      invoices GetInvoicesAsync(accessToken, tenantId, "AUTHORISED", Type == "ACCREC") returns. */
  datatype AccountingApi = AccountingApi(
    organisations: (string, string) -> seq<Organisation>,
    outstandingInvoices: (string, string) -> nat)
}
