/**
 * Per-tenant token storage over the browser's key-value storage, and the
 * unverified inspection of a token's claims (expiry and subject).
 */
module Tokens {
  import opened Wrappers
  import Text

  /** Storage key of a tenant's access token. */
  function TokenKey(clientId: string): string
  {
    "auth_token_" + clientId
  }

  /** Storage key of a tenant's refresh token. */
  function RefreshTokenKey(clientId: string): string
  {
    "refresh_token_" + clientId
  }

  /** Namespacing: two tenants never share a key of the same kind. */
  lemma KeysInjective(a: string, b: string)
    ensures TokenKey(a) == TokenKey(b) <==> a == b
    ensures RefreshTokenKey(a) == RefreshTokenKey(b) <==> a == b
  {
    if TokenKey(a) == TokenKey(b) {
      assert a == TokenKey(a)[|"auth_token_"|..] == TokenKey(b)[|"auth_token_"|..] == b;
    }
    if RefreshTokenKey(a) == RefreshTokenKey(b) {
      assert a == RefreshTokenKey(a)[|"refresh_token_"|..] == RefreshTokenKey(b)[|"refresh_token_"|..] == b;
    }
  }

  /** An access-token key is never a refresh-token key, whatever the two tenants. */
  lemma AccessKeyIsNotRefreshKey(a: string, b: string)
    ensures TokenKey(a) != RefreshTokenKey(b)
  {
    assert TokenKey(a)[1] == 'u' && RefreshTokenKey(b)[1] == 'e';
  }

  /**
   * `localStorage` behind the guards of the storage helpers: when there is no
   * window (server rendering) reads give null and writes do nothing.
   */
  class KeyValueStorage {
    const available: bool
    var items: map<string, string>

    constructor (available: bool, items: map<string, string>)
      ensures this.available == available && this.items == items
    {
      this.available := available;
      this.items := items;
    }

    /** `getStorageItem`. */
    function GetItem(key: string): (r: Option<string>)
      reads this
      ensures r.Some? <==> available && key in items
      ensures r.Some? ==> r.value == items[key]
    {
      if available && key in items then Some(items[key]) else None
    }

    /** `setStorageItem`. */
    method SetItem(key: string, value: string)
      modifies this
      ensures items == if available then old(items)[key := value] else old(items)
    {
      if available {
        items := items[key := value];
      }
    }

    /** `removeStorageItem`. */
    method RemoveItem(key: string)
      modifies this
      ensures items == if available then old(items) - {key} else old(items)
    {
      if available {
        items := items - {key};
      }
    }
  }

  /** `createTokenStore(clientId)`: the five accessors bound to one tenant's two keys. */
  class TokenStore {
    const clientId: string
    const storage: KeyValueStorage

    constructor (clientId: string, storage: KeyValueStorage)
      ensures this.clientId == clientId && this.storage == storage
    {
      this.clientId := clientId;
      this.storage := storage;
    }

    /** `getToken`. */
    function GetToken(): (r: Option<string>)
      reads storage
      ensures r.Some? <==> storage.available && TokenKey(clientId) in storage.items
      ensures r.Some? ==> r.value == storage.items[TokenKey(clientId)]
    {
      storage.GetItem(TokenKey(clientId))
    }

    /** `getRefreshToken`. */
    function GetRefreshToken(): (r: Option<string>)
      reads storage
      ensures r.Some? <==> storage.available && RefreshTokenKey(clientId) in storage.items
      ensures r.Some? ==> r.value == storage.items[RefreshTokenKey(clientId)]
    {
      storage.GetItem(RefreshTokenKey(clientId))
    }

    /**
     * Overwrites this tenant's access token: afterwards it reads back, and the
     * refresh token and every other tenant's tokens read as before.
     */
    method SetToken(token: string)
      modifies storage
      ensures storage.items == if storage.available then old(storage.items)[TokenKey(clientId) := token] else old(storage.items)
      ensures storage.available ==> GetToken() == Some(token)
      ensures GetRefreshToken() == old(GetRefreshToken())
      ensures forall other :: other != clientId ==>
        storage.GetItem(TokenKey(other)) == old(storage.GetItem(TokenKey(other))) &&
        storage.GetItem(RefreshTokenKey(other)) == old(storage.GetItem(RefreshTokenKey(other)))
    {
      storage.SetItem(TokenKey(clientId), token);
      AccessKeyIsNotRefreshKey(clientId, clientId);
      forall other | other != clientId
        ensures TokenKey(other) != TokenKey(clientId) && RefreshTokenKey(other) != TokenKey(clientId)
      {
        KeysInjective(other, clientId);
        AccessKeyIsNotRefreshKey(clientId, other);
      }
    }

    /** Deletes this tenant's access token; removing an absent token changes nothing. */
    method RemoveToken()
      modifies storage
      ensures storage.items == if storage.available then old(storage.items) - {TokenKey(clientId)} else old(storage.items)
      ensures GetToken() == None
      ensures TokenKey(clientId) !in old(storage.items) ==> storage.items == old(storage.items)
      ensures GetRefreshToken() == old(GetRefreshToken())
    {
      storage.RemoveItem(TokenKey(clientId));
      AccessKeyIsNotRefreshKey(clientId, clientId);
    }

    /** Overwrites this tenant's refresh token; the access token reads as before. */
    method SetRefreshToken(token: string)
      modifies storage
      ensures storage.items ==
        if storage.available then old(storage.items)[RefreshTokenKey(clientId) := token] else old(storage.items)
      ensures storage.available ==> GetRefreshToken() == Some(token)
      ensures GetToken() == old(GetToken())
    {
      storage.SetItem(RefreshTokenKey(clientId), token);
      AccessKeyIsNotRefreshKey(clientId, clientId);
    }
  }

  /** A stored token reads back; removing it twice is the same as once. */
  method SetGetRemove(store: TokenStore, token: string) returns (read: Option<string>, afterRemove: Option<string>)
    requires store.storage.available
    modifies store.storage
    ensures read == Some(token) && afterRemove == None
    ensures store.storage.items == old(store.storage.items) - {TokenKey(store.clientId)}
  {
    store.SetToken(token);
    read := store.GetToken();
    store.RemoveToken();
    var once := store.storage.items;
    store.RemoveToken();
    assert store.storage.items == once;
    afterRemove := store.GetToken();
  }

  /** The claims a token's payload carries; `exp` is seconds, `None` when absent or not a number. */
  datatype Claims = Claims(sub: Option<string>, exp: Option<int>)

  /** `JSON.parse(atob(segment))` with the property reads: `None` when any of it throws. */
  type ClaimsDecoder = string -> Option<Claims>

  /**
   * Decodes the second dot-separated segment. A token without a dot has no
   * second segment; `atob(undefined)` throws, so that is a decoding failure.
   */
  function DecodeClaims(token: string, decode: ClaimsDecoder): (r: Option<Claims>)
  {
    var parts := Text.Split(token, '.');
    if |parts| < 2 then None else decode(parts[1])
  }

  /**
   * `isTokenExpired`: fail-closed on a decoding failure; otherwise expired
   * from `exp * 1000` milliseconds on; with no numeric `exp` the comparison
   * is against NaN and the token is never expired.
   */
  predicate IsTokenExpired(token: string, now: int, decode: ClaimsDecoder)
  {
    match DecodeClaims(token, decode)
    case None => true
    case Some(claims) =>
      match claims.exp
      case None => false
      case Some(exp) => now >= exp * 1000
  }

  /** `{ userId, exp }` read from the payload. */
  datatype TokenInfo = TokenInfo(userId: Option<string>, exp: Option<int>)

  /** `parseToken`: null on a decoding failure, else the subject and expiry. */
  function ParseToken(token: string, decode: ClaimsDecoder): (r: Option<TokenInfo>)
    ensures r.None? <==> DecodeClaims(token, decode).None?
    ensures r.Some? ==> r.value.userId == DecodeClaims(token, decode).value.sub &&
                        r.value.exp == DecodeClaims(token, decode).value.exp
  {
    match DecodeClaims(token, decode)
    case None => None
    case Some(claims) => Some(TokenInfo(claims.sub, claims.exp))
  }

  /** The expiry check agrees with the parsed token: absent, or an expiry that has been reached. */
  lemma ExpiredIffParsedExpiryReached(token: string, now: int, decode: ClaimsDecoder)
    ensures IsTokenExpired(token, now, decode) <==>
      (ParseToken(token, decode).None? ||
       (ParseToken(token, decode).value.exp.Some? && now >= ParseToken(token, decode).value.exp.value * 1000))
  {
  }

  /** A token with no dot never decodes and is always expired. */
  lemma UndottedTokenIsExpired(token: string, now: int, decode: ClaimsDecoder)
    requires '.' !in token
    ensures DecodeClaims(token, decode).None?
    ensures IsTokenExpired(token, now, decode)
  {
    Text.SplitWithoutSeparator(token, '.');
  }

  /** Once expired a token stays expired: expiry is monotone in the clock. */
  lemma ExpiryIsMonotone(token: string, now: int, later: int, decode: ClaimsDecoder)
    requires now <= later && IsTokenExpired(token, now, decode)
    ensures IsTokenExpired(token, later, decode)
  {
  }

  /**
   * A decodable token with expiry `exp` is live strictly before `exp * 1000`
   * and expired from that instant on; one without a numeric `exp` never expires.
   */
  lemma ExpiryBoundary(token: string, now: int, decode: ClaimsDecoder)
    requires DecodeClaims(token, decode).Some?
    ensures var exp := DecodeClaims(token, decode).value.exp;
      && (exp.Some? ==> (IsTokenExpired(token, now, decode) <==> now >= exp.value * 1000))
      && (exp.None? ==> !IsTokenExpired(token, now, decode))
  {
  }
}
