/**
  The OAuth 2.0 token lifecycle of the provider connection: the authorization-code
  exchange of the callback route (section 4.1.3 of RFC 6749), the refresh grant
  (section 6 of RFC 6749), the shape check on the token response (section 5.1 of
  RFC 6749), the absolute expiry and the refresh-on-demand rule.

  Time is whole seconds since the epoch. The provider's token endpoint is a
  `TokenEndpoint` object: it records every request, and its answer is arbitrary, so
  every contract holds whatever the provider answers.
*/
module GhlRoutes {
  import opened Wrappers
  import opened Js
  import opened Storage

  // ---------------------------------------------------------------------------
  // Configuration and the provider's token endpoint

  /** The client registration read from the environment. */
  datatype GhlConfig = GhlConfig(clientId: Option<string>, clientSecret: Option<string>, redirectUri: string)

  /** `checkGHLConfig`: both the client id and the client secret are set and non-empty. */
  predicate Configured(config: GhlConfig) {
    Truthy(config.clientId) && Truthy(config.clientSecret)
  }

  /** The two grants posted to the token endpoint. */
  datatype GrantRequest =
    | AuthorizationCodeGrant(clientId: Option<string>, clientSecret: Option<string>, code: string, redirectUri: string)
    | RefreshTokenGrant(clientId: Option<string>, clientSecret: Option<string>, refreshToken: string)

  /** A 2xx answer with its parsed body, or a request that failed (network error or non-2xx status). */
  datatype HttpResponse = HttpOk(body: Json) | HttpFailure(message: string)

  datatype Exchange = Exchange(request: GrantRequest, response: HttpResponse)

  class TokenEndpoint {
    /** Every request posted so far, with the answer it got, oldest first. */
    var exchanges: seq<Exchange>

    constructor ()
      ensures exchanges == []
    {
      exchanges := [];
    }

    /** `axios.post(tokenUrl, request)`: the provider may answer anything. */
    method Post(request: GrantRequest) returns (response: HttpResponse)
      modifies this`exchanges
      ensures exchanges == old(exchanges) + [Exchange(request, response)]
      ensures OnePost(old(exchanges), exchanges, request) && LastResponse(exchanges) == response
    {
      response :| true;
      exchanges := exchanges + [Exchange(request, response)];
    }
  }

  function LastResponse(exchanges: seq<Exchange>): HttpResponse
    requires exchanges != []
  {
    exchanges[|exchanges| - 1].response
  }

  /** `after` is `before` and one more exchange, for `request`. */
  predicate OnePost(before: seq<Exchange>, after: seq<Exchange>, request: GrantRequest) {
    |after| == |before| + 1 && after[..|before|] == before && after[|before|].request == request
  }

  // ---------------------------------------------------------------------------
  // The token response (`tokenResponseSchema`)

  datatype TokenResponse = TokenResponse(accessToken: string, refreshToken: string, expiresIn: int, tokenType: string)

  const TokenResponseKeys: set<string> := {"access_token", "refresh_token", "expires_in", "token_type"}

  predicate StringField(fields: map<string, Json>, key: string) {
    key in fields && fields[key].JString?
  }

  predicate NumberField(fields: map<string, Json>, key: string) {
    key in fields && fields[key].JNumber?
  }

  /** The body of a token response as the provider sends it. */
  function EncodeTokenResponse(t: TokenResponse): (j: Json)
    ensures j.JObject? && j.fields.Keys == TokenResponseKeys
  {
    JObject(map[
      "access_token" := JString(t.accessToken),
      "refresh_token" := JString(t.refreshToken),
      "expires_in" := JNumber(t.expiresIn),
      "token_type" := JString(t.tokenType)])
  }

  /**
    The schema check: an object whose `access_token`, `refresh_token` and `token_type`
    are strings and whose `expires_in` is a number; other keys are ignored.
  */
  function ParseTokenResponse(body: Json): (r: Option<TokenResponse>)
    ensures r.Some? <==>
      && body.JObject?
      && StringField(body.fields, "access_token") && StringField(body.fields, "refresh_token")
      && NumberField(body.fields, "expires_in") && StringField(body.fields, "token_type")
    ensures r.Some? ==> forall k :: k in TokenResponseKeys ==> body.fields[k] == EncodeTokenResponse(r.value).fields[k]
  {
    match body
    case JObject(fields) =>
      if "access_token" in fields && "refresh_token" in fields && "expires_in" in fields && "token_type" in fields then
        match (fields["access_token"], fields["refresh_token"], fields["expires_in"], fields["token_type"])
        case (JString(a), JString(rt), JNumber(e), JString(tt)) => Some(TokenResponse(a, rt, e, tt))
        case _ => None
      else None
    case _ => None
  }

  /** The schema accepts every well-formed response and reads back what was sent. */
  lemma ParseEncode(t: TokenResponse)
    ensures ParseTokenResponse(EncodeTokenResponse(t)) == Some(t)
  {
    var f := EncodeTokenResponse(t).fields;
    assert f["access_token"] == JString(t.accessToken) && f["refresh_token"] == JString(t.refreshToken);
    assert f["expires_in"] == JNumber(t.expiresIn) && f["token_type"] == JString(t.tokenType);
  }

  /** Keys beyond the four of the schema (`scope`, `locationId`, ...) change nothing. */
  lemma ParseIgnoresExtraKeys(t: TokenResponse, extra: map<string, Json>)
    requires extra.Keys !! TokenResponseKeys
    ensures ParseTokenResponse(JObject(extra + EncodeTokenResponse(t).fields)) == Some(t)
  {
    var f := extra + EncodeTokenResponse(t).fields;
    assert f["access_token"] == JString(t.accessToken) && f["refresh_token"] == JString(t.refreshToken);
    assert f["expires_in"] == JNumber(t.expiresIn) && f["token_type"] == JString(t.tokenType);
  }

  /** The grant an answer carries: a 2xx answer whose body passes the schema. */
  function Grant(response: HttpResponse): (g: Option<TokenResponse>)
    ensures g.Some? ==> response.HttpOk? && ParseTokenResponse(response.body) == g
    ensures response.HttpFailure? ==> g.None?
    ensures response.HttpOk? ==> g == ParseTokenResponse(response.body)
  {
    match response
    case HttpOk(body) => ParseTokenResponse(body)
    case HttpFailure(_) => None
  }

  /** What `error.message` reads for a failed exchange. */
  const InvalidTokenResponseMessage: string := "Invalid token response"

  function FailureMessage(response: HttpResponse): string {
    match response
    case HttpFailure(message) => message
    case HttpOk(_) => InvalidTokenResponseMessage
  }

  // ---------------------------------------------------------------------------
  // Expiry

  /** `expiresAt.setSeconds(expiresAt.getSeconds() + expires_in)`, in seconds. */
  function ExpiresAt(now: int, expiresIn: int): int {
    now + expiresIn
  }

  /** `token_expires_at && new Date(token_expires_at) < now`. */
  predicate IsExpired(expiresAt: Option<int>, now: int) {
    expiresAt.Some? && expiresAt.value < now
  }

  /** A token granted at `issued` with lifetime `expiresIn` counts as expired exactly after `issued + expiresIn`. */
  lemma ExpiryWindow(issued: int, expiresIn: int, now: int)
    ensures IsExpired(Some(ExpiresAt(issued, expiresIn)), now) <==> now > issued + expiresIn
    ensures !IsExpired(Some(ExpiresAt(issued, expiresIn)), issued + expiresIn)
  {
  }

  /** A connection without an expiry never expires, and an expired token stays expired. */
  lemma ExpiryMonotone(expiresAt: Option<int>, now: int, later: int)
    requires now <= later
    ensures !IsExpired(None, now)
    ensures IsExpired(expiresAt, now) ==> IsExpired(expiresAt, later)
  {
  }

  // ---------------------------------------------------------------------------
  // The connection writes

  /** The one connection the routes manage: user 1 and provider `ghl`. */
  const GhlUserId: nat := 1
  const GhlKey: ConnKey := ConnKey(GhlUserId, "ghl")

  /** The fields the callback writes: the new tokens, their expiry, active, and the location. */
  function ExchangePatch(t: TokenResponse, locationId: string, now: int): ConnectionPatch {
    ConnectionPatch(Some(t.accessToken), Some(t.refreshToken), Some(ExpiresAt(now, t.expiresIn)), Some(true),
                    Some(map["locationId" := locationId]))
  }

  /** The row the callback creates when there is none. */
  function NewConnection(t: TokenResponse, locationId: string, now: int): Connection {
    Connection(0, t.accessToken, t.refreshToken, Some(ExpiresAt(now, t.expiresIn)), true, map["locationId" := locationId])
  }

  /** The callback's upsert: patch the existing connection of the key, or create it. */
  function ExchangeEffect(c: ConnectionTable, t: TokenResponse, locationId: string, now: int): (r: ConnectionTable)
    requires c.Valid()
    ensures r.Valid()
  {
    if GhlKey in c.rows then UpdateConnection(c, c.rows[GhlKey].id, ExchangePatch(t, locationId, now))
    else CreateConnection(c, GhlKey, NewConnection(t, locationId, now))
  }

  /**
    After an exchange the key has exactly one connection, holding the new tokens, the
    expiry `now + expires_in`, `is_active` and the location; an existing connection keeps
    its id, and no other connection changes.
  */
  lemma ExchangeUpserts(c: ConnectionTable, t: TokenResponse, locationId: string, now: int)
    requires c.Valid()
    ensures var r := ExchangeEffect(c, t, locationId, now);
      && r.rows.Keys == c.rows.Keys + {GhlKey}
      && r.rows[GhlKey].accessToken == t.accessToken && r.rows[GhlKey].refreshToken == t.refreshToken
      && r.rows[GhlKey].expiresAt == Some(now + t.expiresIn)
      && r.rows[GhlKey].isActive && r.rows[GhlKey].config == map["locationId" := locationId]
      && (GhlKey in c.rows ==> r.rows[GhlKey].id == c.rows[GhlKey].id)
      && (forall k :: k in c.rows && k != GhlKey ==> r.rows[k] == c.rows[k])
  {
    var r := ExchangeEffect(c, t, locationId, now);
    if GhlKey in c.rows {
      forall k | k in c.rows && k != GhlKey
        ensures r.rows[k] == c.rows[k]
      {
        assert c.rows[k].id != c.rows[GhlKey].id;
      }
    }
  }

  /** Replaying a callback with the same grant leaves the connections as one callback does. */
  lemma ExchangeIdempotent(c: ConnectionTable, t: TokenResponse, locationId: string, now: int)
    requires c.Valid()
    ensures ExchangeEffect(ExchangeEffect(c, t, locationId, now), t, locationId, now) == ExchangeEffect(c, t, locationId, now)
  {
    var r1 := ExchangeEffect(c, t, locationId, now);
    var r2 := ExchangeEffect(r1, t, locationId, now);
    ExchangeUpserts(c, t, locationId, now);
    ExchangeUpserts(r1, t, locationId, now);
    assert r2.nextId == r1.nextId;
    forall k | k in r1.rows
      ensures r2.rows[k] == r1.rows[k]
    {
    }
    assert r2.rows == r1.rows;
  }

  /** The fields a refresh writes: the new tokens and their expiry, and nothing else. */
  function RefreshPatch(t: TokenResponse, now: int): ConnectionPatch {
    ConnectionPatch(Some(t.accessToken), Some(t.refreshToken), Some(ExpiresAt(now, t.expiresIn)), None, None)
  }

  // ---------------------------------------------------------------------------
  // The routes

  const SuccessRedirect: string := "/settings/integrations?success=ghl-connected"
  const FailureRedirect: string := "/settings/integrations?error=ghl-auth-failed"

  /** 500 for a missing client registration, 400 for missing query parameters, otherwise a redirect. */
  datatype CallbackReply = ConfigMissing | MissingParams | Redirect(location: string)

  /**
    `GET /auth/ghl/callback`: exchange the code for tokens, then upsert the connection of
    user 1 and `ghl`. A failed request or a response that fails the schema writes nothing,
    is logged and redirects to the error page.
  */
  method Callback(store: Store, endpoint: TokenEndpoint, config: GhlConfig, code: Option<string>,
                  locationId: Option<string>, now: int) returns (reply: CallbackReply)
    requires store.Valid()
    modifies store`connections, store`errorLog, endpoint`exchanges
    ensures store.Valid()
    ensures reply == ConfigMissing <==> !Configured(config)
    ensures reply == MissingParams <==> Configured(config) && (!Truthy(code) || !Truthy(locationId))
    ensures !reply.Redirect? ==>
      && store.connections == old(store.connections) && store.errorLog == old(store.errorLog)
      && endpoint.exchanges == old(endpoint.exchanges)
    ensures reply.Redirect? ==>
      && OnePost(old(endpoint.exchanges), endpoint.exchanges,
                 AuthorizationCodeGrant(config.clientId, config.clientSecret, code.value, config.redirectUri))
      && var g := Grant(LastResponse(endpoint.exchanges));
         && (g.Some? ==>
               && reply == Redirect(SuccessRedirect)
               && store.connections == ExchangeEffect(old(store.connections), g.value, locationId.value, now)
               && store.errorLog == old(store.errorLog))
         && (g.None? ==>
               && reply == Redirect(FailureRedirect)
               && store.connections == old(store.connections)
               && store.errorLog == old(store.errorLog)
                    + [ErrorEntry("GHL OAuth Callback", FailureMessage(LastResponse(endpoint.exchanges)))])
  {
    if !Configured(config) {
      return ConfigMissing;
    }
    if !Truthy(code) || !Truthy(locationId) {
      return MissingParams;
    }
    var request := AuthorizationCodeGrant(config.clientId, config.clientSecret, code.value, config.redirectUri);
    var response := endpoint.Post(request);
    var g := Grant(response);
    if g.None? {
      store.LogError("GHL OAuth Callback", FailureMessage(response));
      return Redirect(FailureRedirect);
    }
    SaveConnection(store, g.value, locationId.value, now);
    reply := Redirect(SuccessRedirect);
  }

  /** The callback's storage calls: update the existing connection of user 1 and `ghl`, or create it. */
  method SaveConnection(store: Store, t: TokenResponse, locationId: string, now: int)
    requires store.Valid()
    modifies store`connections
    ensures store.Valid()
    ensures store.connections == ExchangeEffect(old(store.connections), t, locationId, now)
  {
    var existing := store.GetIntegrationConnection(GhlKey);
    if existing.Some? {
      store.UpdateIntegrationConnection(existing.value.id, ExchangePatch(t, locationId, now));
    } else {
      store.CreateIntegrationConnection(GhlKey, NewConnection(t, locationId, now));
    }
  }

  /**
    `refreshToken`: post the refresh grant; on a valid answer write the new tokens and
    expiry into connection `connectionId`; otherwise log, write nothing and fail.
  */
  method RefreshToken(store: Store, endpoint: TokenEndpoint, config: GhlConfig, connectionId: nat,
                      refreshToken: string, now: int) returns (ok: bool)
    requires store.Valid()
    modifies store`connections, store`errorLog, endpoint`exchanges
    ensures store.Valid()
    ensures OnePost(old(endpoint.exchanges), endpoint.exchanges, RefreshTokenGrant(config.clientId, config.clientSecret, refreshToken))
    ensures ok <==> Grant(LastResponse(endpoint.exchanges)).Some?
    ensures ok ==>
      && store.connections == UpdateConnection(old(store.connections), connectionId,
                                               RefreshPatch(Grant(LastResponse(endpoint.exchanges)).value, now))
      && store.errorLog == old(store.errorLog)
    ensures !ok ==>
      && store.connections == old(store.connections)
      && store.errorLog == old(store.errorLog) + [ErrorEntry("GHL Token Refresh", FailureMessage(LastResponse(endpoint.exchanges)))]
  {
    var response := endpoint.Post(RefreshTokenGrant(config.clientId, config.clientSecret, refreshToken));
    var g := Grant(response);
    if g.None? {
      store.LogError("GHL Token Refresh", FailureMessage(response));
      return false;
    }
    store.UpdateIntegrationConnection(connectionId, RefreshPatch(g.value, now));
    ok := true;
  }

  /** Refreshing the connection of a key writes only that connection, and only its tokens and expiry. */
  lemma RefreshTouchesOnlyTokens(c: ConnectionTable, key: ConnKey, t: TokenResponse, now: int)
    requires c.Valid() && key in c.rows
    ensures var r := UpdateConnection(c, c.rows[key].id, RefreshPatch(t, now));
      && r.rows.Keys == c.rows.Keys
      && r.rows[key] == c.rows[key].(accessToken := t.accessToken, refreshToken := t.refreshToken,
                                     expiresAt := Some(now + t.expiresIn))
      && (forall k :: k in c.rows && k != key ==> r.rows[k] == c.rows[k])
  {
    forall k | k in c.rows && k != key
      ensures c.rows[k].id != c.rows[key].id
    {
    }
  }

  /** The connection is present and active. */
  predicate ActiveConnection(c: ConnectionTable) {
    GhlKey in c.rows && c.rows[GhlKey].isActive
  }

  datatype StatusReply = Connected | NotConnected | RefreshFailedReply

  /**
    `GET /connection-status`: not connected without an active connection; an expired
    token is refreshed first, and a failed refresh is reported as such.
  */
  method ConnectionStatus(store: Store, endpoint: TokenEndpoint, config: GhlConfig, now: int) returns (reply: StatusReply)
    requires store.Valid()
    modifies store`connections, store`errorLog, endpoint`exchanges
    ensures store.Valid()
    ensures !ActiveConnection(old(store.connections)) ==> reply == NotConnected
    ensures (!ActiveConnection(old(store.connections)) || !IsExpired(old(store.connections).rows[GhlKey].expiresAt, now)) ==>
      && store.connections == old(store.connections) && store.errorLog == old(store.errorLog)
      && endpoint.exchanges == old(endpoint.exchanges)
    ensures ActiveConnection(old(store.connections)) && !IsExpired(old(store.connections).rows[GhlKey].expiresAt, now) ==>
      reply == Connected
    ensures ActiveConnection(old(store.connections)) && IsExpired(old(store.connections).rows[GhlKey].expiresAt, now) ==>
      && OnePost(old(endpoint.exchanges), endpoint.exchanges,
                 RefreshTokenGrant(config.clientId, config.clientSecret, old(store.connections).rows[GhlKey].refreshToken))
      && var g := Grant(LastResponse(endpoint.exchanges));
         && (reply == Connected <==> g.Some?)
         && (g.Some? ==>
               && store.connections == UpdateConnection(old(store.connections), old(store.connections).rows[GhlKey].id,
                                                        RefreshPatch(g.value, now))
               && store.errorLog == old(store.errorLog))
         && (g.None? ==>
               && reply == RefreshFailedReply && store.connections == old(store.connections)
               && store.errorLog == old(store.errorLog)
                    + [ErrorEntry("GHL Token Refresh", FailureMessage(LastResponse(endpoint.exchanges)))])
  {
    var connection := store.GetIntegrationConnection(GhlKey);
    if connection.None? || !connection.value.isActive {
      return NotConnected;
    }
    var c := connection.value;
    if IsExpired(c.expiresAt, now) {
      var ok := RefreshToken(store, endpoint, config, c.id, c.refreshToken, now);
      reply := if ok then Connected else RefreshFailedReply;
      return;
    }
    reply := Connected;
  }

  /** Why `getGHLAccessToken` throws. */
  datatype AccessError = NoActiveConnection | RefreshFailed

  /**
    `getGHLAccessToken`: the stored access token of the active connection, refreshed
    first when it has expired. A missing or inactive connection and a failed refresh are
    errors, so an expired token is never handed out.
  */
  method GetAccessToken(store: Store, endpoint: TokenEndpoint, config: GhlConfig, now: int)
    returns (r: Result<string, AccessError>)
    requires store.Valid()
    modifies store`connections, store`errorLog, endpoint`exchanges
    ensures store.Valid()
    ensures r == Err(NoActiveConnection) <==> !ActiveConnection(old(store.connections))
    ensures (!ActiveConnection(old(store.connections)) || !IsExpired(old(store.connections).rows[GhlKey].expiresAt, now)) ==>
      && store.connections == old(store.connections) && store.errorLog == old(store.errorLog)
      && endpoint.exchanges == old(endpoint.exchanges)
    ensures ActiveConnection(old(store.connections)) && !IsExpired(old(store.connections).rows[GhlKey].expiresAt, now) ==>
      r == Ok(old(store.connections).rows[GhlKey].accessToken)
    ensures ActiveConnection(old(store.connections)) && IsExpired(old(store.connections).rows[GhlKey].expiresAt, now) ==>
      && OnePost(old(endpoint.exchanges), endpoint.exchanges,
                 RefreshTokenGrant(config.clientId, config.clientSecret, old(store.connections).rows[GhlKey].refreshToken))
      && var g := Grant(LastResponse(endpoint.exchanges));
         && (g.Some? ==>
               && r == Ok(g.value.accessToken)
               && store.connections == UpdateConnection(old(store.connections), old(store.connections).rows[GhlKey].id,
                                                        RefreshPatch(g.value, now))
               && store.connections.rows[GhlKey]
                    == old(store.connections).rows[GhlKey].(accessToken := g.value.accessToken,
                                                            refreshToken := g.value.refreshToken,
                                                            expiresAt := Some(now + g.value.expiresIn))
               && store.errorLog == old(store.errorLog))
         && (g.None? ==>
               && r == Err(RefreshFailed) && store.connections == old(store.connections)
               && store.errorLog == old(store.errorLog)
                    + [ErrorEntry("GHL Token Refresh", FailureMessage(LastResponse(endpoint.exchanges)))])
    ensures r.Ok? ==> GhlKey in store.connections.rows && r.value == store.connections.rows[GhlKey].accessToken
  {
    var connection := store.GetIntegrationConnection(GhlKey);
    if connection.None? || !connection.value.isActive {
      return Err(NoActiveConnection);
    }
    var c := connection.value;
    if IsExpired(c.expiresAt, now) {
      ghost var before := store.connections;
      var ok := RefreshToken(store, endpoint, config, c.id, c.refreshToken, now);
      if !ok {
        return Err(RefreshFailed);
      }
      RefreshTouchesOnlyTokens(before, GhlKey, Grant(LastResponse(endpoint.exchanges)).value, now);
      var updated := store.GetIntegrationConnection(GhlKey);
      return Ok(updated.value.accessToken);
    }
    r := Ok(c.accessToken);
  }
}
