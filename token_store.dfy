/** MemoryTokenStore: the per-user token table. Keys are Xero user ids, values the
    user's current token (a null token can be stored, since nothing forbids it).
    Upsert and Read give the table transitions as functions of the old table; the
    class's methods are proved to perform exactly those transitions. */
module TokenStore {
  import opened Xero

  /** What a read returns and the table it leaves behind. */
  datatype Lookup = Lookup(token: Option<Token>, tokens: map<string, Option<Token>>)

  /** SetToken's effect: an upsert, last write wins. */
  function Upsert(tokens: map<string, Option<Token>>, userId: string, token: Option<Token>): (r: map<string, Option<Token>>)
    ensures r.Keys == tokens.Keys + {userId}
    ensures r[userId] == token
    ensures forall v :: v in tokens && v != userId ==> r[v] == tokens[v]
  {
    tokens[userId := token]
  }

  /** GetAccessTokenAsync's effect: a miss returns null and changes nothing; a hit
      passes the stored token through `refresh`, stores the result and returns it. */
  function Read(tokens: map<string, Option<Token>>, refresh: Option<Token> -> Option<Token>, userId: string): (r: Lookup)
    ensures r.tokens.Keys == tokens.Keys
    ensures forall v :: v in tokens && v != userId ==> r.tokens[v] == tokens[v]
    ensures userId !in tokens ==> r.token == None && r.tokens == tokens
    ensures userId in tokens ==> r.token == refresh(tokens[userId]) && r.tokens[userId] == r.token
  {
    if userId !in tokens then Lookup(None, tokens)
    else
      var token := refresh(tokens[userId]);
      Lookup(token, Upsert(tokens, userId, token))
  }

  class MemoryTokenStore {
    var tokens: map<string, Option<Token>>
    const xeroClient: XeroClient

    constructor (xeroClient: XeroClient)
      ensures tokens == map[]
      ensures this.xeroClient == xeroClient
    {
      this.xeroClient := xeroClient;
      tokens := map[];
    }

    method GetAccessToken(userId: string) returns (token: Option<Token>)
      modifies this
      ensures Lookup(token, tokens) == Read(old(tokens), xeroClient.currentValidToken, userId)
    {
      if userId !in tokens {
        return None;
      }
      token := tokens[userId];
      token := xeroClient.currentValidToken(token);
      SetToken(userId, token);
    }

    method SetToken(userId: string, token: Option<Token>)
      modifies this
      ensures tokens == Upsert(old(tokens), userId, token)
    {
      tokens := tokens[userId := token];
    }
  }

  /** A store that has never been written to answers every read with null. */
  lemma FreshStoreMisses(refresh: Option<Token> -> Option<Token>, userId: string)
    ensures Read(map[], refresh, userId) == Lookup(None, map[])
  {
  }

  /** A second SetToken for the same user replaces the first one's value. */
  lemma UpsertLastWriteWins(tokens: map<string, Option<Token>>, userId: string, first: Option<Token>, second: Option<Token>)
    ensures Upsert(Upsert(tokens, userId, first), userId, second) == Upsert(tokens, userId, second)
  {
  }

  /** SetToken(u, t) followed by GetAccessTokenAsync(u) returns refresh(t) and stores it. */
  lemma SetThenGet(tokens: map<string, Option<Token>>, refresh: Option<Token> -> Option<Token>, userId: string, token: Option<Token>)
    ensures Read(Upsert(tokens, userId, token), refresh, userId)
         == Lookup(refresh(token), Upsert(tokens, userId, refresh(token)))
  {
  }

  /** When the client hands the stored token back unchanged, a read leaves the table
      as it was, so a second read returns the same token as the first. */
  lemma ReadIdempotent(tokens: map<string, Option<Token>>, refresh: Option<Token> -> Option<Token>, userId: string)
    requires userId in tokens ==> refresh(tokens[userId]) == tokens[userId]
    ensures Read(tokens, refresh, userId).tokens == tokens
    ensures Read(Read(tokens, refresh, userId).tokens, refresh, userId) == Read(tokens, refresh, userId)
  {
  }
}
