/**
 * The tenant registry: tenant configurations keyed by client id, and per
 * tenant a table of fixed-window counters keyed by caller identifier. Both
 * tables are updated in place; everything else is a read.
 */
module Clients {
  import opened Wrappers
  import opened Web
  import Text
  import FixedWindow

  datatype TokenType = JWT | Opaque

  /** Token lifetimes in seconds. */
  datatype TokenConfig = TokenConfig(
    accessTokenExpiry: int, refreshTokenExpiry: int, tokenType: TokenType, rotateRefreshToken: bool)

  /** The per-tenant limiter policy; the two durations are milliseconds. */
  datatype RateLimitConfig = RateLimitConfig(maxAttempts: int, windowMs: int, blockDurationMs: int)

  datatype PasswordPolicy = PasswordPolicy(
    minLength: int, requireNumbers: bool, requireSpecialChars: bool,
    requireUppercase: bool, requireLowercase: bool)

  datatype SessionPolicy = SessionPolicy(maxConcurrentSessions: int, revokeOldestSession: bool)

  /** An IP list that is not configured is the empty list: both mean "no policy". */
  datatype SecurityConfig = SecurityConfig(
    requireMFA: bool,
    passwordPolicy: Option<PasswordPolicy>,
    sessionPolicy: Option<SessionPolicy>,
    ipWhitelist: seq<string>,
    ipBlacklist: seq<string>)

  datatype ClientConfig = ClientConfig(
    clientId: string,
    name: string,
    description: string,
    applicationUrl: string,
    allowedRedirectUrls: seq<string>,
    allowedOrigins: seq<string>,
    authMethods: seq<AuthMethod>,
    tokens: TokenConfig,
    rateLimit: RateLimitConfig,
    security: SecurityConfig)

  /** `{ allowed, resetTime? }`; the reset time is milliseconds since the epoch. */
  datatype RateLimitResult = RateLimitResult(allowed: bool, resetTime: Option<int>)

  /** One allowed entry admits a URL: both parse, same origin, and the URL's path extends the entry's. */
  predicate RedirectEntryMatches(entry: string, url: string, parse: UrlParser)
  {
    match parse(entry)
    case None => false
    case Some(allowed) =>
      match parse(url)
      case None => false
      case Some(candidate) => allowed.origin == candidate.origin && allowed.pathname <= candidate.pathname
  }

  /** The redirect rule for one configuration. */
  predicate RedirectAllowedFor(c: ClientConfig, url: string, parse: UrlParser)
  {
    Text.Any(c.allowedRedirectUrls, (entry: string) => RedirectEntryMatches(entry, url, parse))
  }

  /** The IP rule for one configuration: whitelist first, then blacklist, else open. */
  predicate IpAllowedFor(c: ClientConfig, ip: string)
  {
    if |c.security.ipWhitelist| > 0 then ip in c.security.ipWhitelist
    else if |c.security.ipBlacklist| > 0 then ip !in c.security.ipBlacklist
    else true
  }

  /** The error message of a duplicate registration. */
  function DuplicateClient(clientId: string): string
  {
    "Client with ID " + clientId + " already exists"
  }

  /**
   * One rate-limit check against the two tables: unknown client or missing
   * counter table refuses without change; otherwise one fixed-window step for
   * the identifier, a refusal reporting `timestamp + blockDurationMs`.
   */
  function Limit(clients: map<string, ClientConfig>, limiters: map<string, map<string, FixedWindow.Attempt>>,
                 clientId: string, identifier: string, now: int)
    : (r: (RateLimitResult, map<string, map<string, FixedWindow.Attempt>>))
  {
    if clientId !in clients || clientId !in limiters then (RateLimitResult(false, None), limiters)
    else
      var policy := clients[clientId].rateLimit;
      var table := limiters[clientId];
      var step := FixedWindow.StepKey(table, identifier, policy.maxAttempts, policy.windowMs, now);
      if step.0 then (RateLimitResult(true, None), limiters[clientId := step.1])
      else (RateLimitResult(false, Some(table[identifier].timestamp + policy.blockDurationMs)), limiters)
  }

  /** Every counter of every tenant whose limit is at least one is within that limit. */
  ghost predicate CountsWithinLimits(clients: map<string, ClientConfig>, limiters: map<string, map<string, FixedWindow.Attempt>>)
  {
    forall id :: id in limiters && id in clients && clients[id].rateLimit.maxAttempts >= 1 ==>
      FixedWindow.Bounded(limiters[id], clients[id].rateLimit.maxAttempts)
  }

  class ClientRegistry {
    var clients: map<string, ClientConfig>
    var rateLimiters: map<string, map<string, FixedWindow.Attempt>>

    /** Registration keeps the two tables on the same client ids, and counts within limits. */
    ghost predicate Valid()
      reads this
    {
      && rateLimiters.Keys == clients.Keys
      && (forall id :: id in clients ==> clients[id].clientId == id)
      && CountsWithinLimits(clients, rateLimiters)
    }

    constructor ()
      ensures Valid()
      ensures clients == map[] && rateLimiters == map[]
    {
      clients := map[];
      rateLimiters := map[];
    }

    /** `registerClient`: refuses a known id and changes nothing; otherwise adds it with an empty counter table. */
    method RegisterClient(config: ClientConfig) returns (r: Outcome<string>)
      requires Valid()
      modifies this
      ensures Valid()
      ensures config.clientId in old(clients) ==>
        r == Fail(DuplicateClient(config.clientId)) && clients == old(clients) && rateLimiters == old(rateLimiters)
      ensures config.clientId !in old(clients) ==>
        && r == Pass
        && clients == old(clients)[config.clientId := config]
        && rateLimiters == old(rateLimiters)[config.clientId := map[]]
      ensures r == Pass ==> GetClient(config.clientId) == Some(config)
    {
      if config.clientId in clients {
        return Fail(DuplicateClient(config.clientId));
      }
      clients := clients[config.clientId := config];
      rateLimiters := rateLimiters[config.clientId := map[]];
      r := Pass;
    }

    /** `getClient`. */
    function GetClient(clientId: string): (r: Option<ClientConfig>)
      reads this
      ensures r.Some? <==> clientId in clients
      ensures r.Some? ==> r.value == clients[clientId]
    {
      if clientId in clients then Some(clients[clientId]) else None
    }

    /** `validateRedirectUrl`: false for an unknown client, else some allowed entry admits the URL. */
    function ValidateRedirectUrl(clientId: string, redirectUrl: string, parse: UrlParser): (r: bool)
      reads this
      ensures clientId !in clients ==> !r
      ensures clientId in clients ==>
        (r <==> exists i :: 0 <= i < |clients[clientId].allowedRedirectUrls| &&
                  RedirectEntryMatches(clients[clientId].allowedRedirectUrls[i], redirectUrl, parse))
    {
      match GetClient(clientId)
      case None => false
      case Some(client) =>
        Text.AnyIsExists(client.allowedRedirectUrls, (entry: string) => RedirectEntryMatches(entry, redirectUrl, parse));
        RedirectAllowedFor(client, redirectUrl, parse)
    }

    /** `validateOrigin`: exact membership in the client's origins; false for an unknown client. */
    function ValidateOrigin(clientId: string, origin: string): (r: bool)
      reads this
      ensures r <==> (clientId in clients &&
        exists i :: 0 <= i < |clients[clientId].allowedOrigins| && clients[clientId].allowedOrigins[i] == origin)
    {
      match GetClient(clientId)
      case None => false
      case Some(client) => origin in client.allowedOrigins
    }

    /** `supportsAuthMethod`: exact membership in the client's methods; false for an unknown client. */
    function SupportsAuthMethod(clientId: string, authMethod: AuthMethod): (r: bool)
      reads this
      ensures r <==> (clientId in clients &&
        exists i :: 0 <= i < |clients[clientId].authMethods| && clients[clientId].authMethods[i] == authMethod)
    {
      match GetClient(clientId)
      case None => false
      case Some(client) => authMethod in client.authMethods
    }

    /** `checkRateLimit`, with the clock reading `now` passed in. */
    method CheckRateLimit(clientId: string, identifier: string, now: int) returns (r: RateLimitResult)
      requires Valid()
      modifies this
      ensures Valid()
      ensures clients == old(clients)
      ensures (r, rateLimiters) == Limit(old(clients), old(rateLimiters), clientId, identifier, now)
    {
      if clientId !in clients {
        return RateLimitResult(false, None);
      }
      var client := clients[clientId];
      if clientId !in rateLimiters {
        return RateLimitResult(false, None);
      }
      var clientLimiter := rateLimiters[clientId];
      if identifier !in clientLimiter {
        rateLimiters := rateLimiters[clientId := clientLimiter[identifier := FixedWindow.Attempt(1, now)]];
        return RateLimitResult(true, None);
      }
      var attempt := clientLimiter[identifier];
      if now - attempt.timestamp > client.rateLimit.windowMs {
        rateLimiters := rateLimiters[clientId := clientLimiter[identifier := FixedWindow.Attempt(1, now)]];
        return RateLimitResult(true, None);
      }
      if attempt.count >= client.rateLimit.maxAttempts {
        return RateLimitResult(false, Some(attempt.timestamp + client.rateLimit.blockDurationMs));
      }
      rateLimiters := rateLimiters[clientId := clientLimiter[identifier := FixedWindow.Attempt(attempt.count + 1, attempt.timestamp)]];
      r := RateLimitResult(true, None);
      LimitKeepsCounts(old(clients), old(rateLimiters), clientId, identifier, now);
    }

    /** `validateIpAccess`: false for an unknown client, else the whitelist/blacklist rule. */
    function ValidateIpAccess(clientId: string, ip: string): (r: bool)
      reads this
      ensures clientId !in clients ==> !r
      ensures clientId in clients && |clients[clientId].security.ipWhitelist| > 0 ==>
        (r <==> ip in clients[clientId].security.ipWhitelist)
      ensures (clientId in clients && |clients[clientId].security.ipWhitelist| == 0 &&
               |clients[clientId].security.ipBlacklist| > 0) ==>
        (r <==> ip !in clients[clientId].security.ipBlacklist)
      ensures (clientId in clients && |clients[clientId].security.ipWhitelist| == 0 &&
               |clients[clientId].security.ipBlacklist| == 0) ==> r
    {
      match GetClient(clientId)
      case None => false
      case Some(client) => IpAllowedFor(client, ip)
    }
  }

  /** A rate-limit check keeps every tenant's counters within that tenant's limit. */
  lemma LimitKeepsCounts(clients: map<string, ClientConfig>, limiters: map<string, map<string, FixedWindow.Attempt>>,
                         clientId: string, identifier: string, now: int)
    requires CountsWithinLimits(clients, limiters)
    ensures CountsWithinLimits(clients, Limit(clients, limiters, clientId, identifier, now).1)
  {
    if clientId in clients && clientId in limiters && clients[clientId].rateLimit.maxAttempts >= 1 {
      var policy := clients[clientId].rateLimit;
      FixedWindow.StepKeepsBounded(limiters[clientId], identifier, policy.maxAttempts, policy.windowMs, now);
    }
  }

  /** An unknown client is refused without any counter being touched. */
  lemma LimitUnknownClient(clients: map<string, ClientConfig>, limiters: map<string, map<string, FixedWindow.Attempt>>,
                           clientId: string, identifier: string, now: int)
    requires clientId !in clients
    ensures Limit(clients, limiters, clientId, identifier, now) == (RateLimitResult(false, None), limiters)
  {
  }

  /**
   * A check touches one counter only: other tenants' tables and, in the
   * caller's own table, other identifiers' counters are unchanged.
   */
  lemma LimitTouchesOneCounter(clients: map<string, ClientConfig>, limiters: map<string, map<string, FixedWindow.Attempt>>,
                               clientId: string, identifier: string, now: int)
    ensures var after := Limit(clients, limiters, clientId, identifier, now).1;
      && after.Keys == limiters.Keys
      && (forall id :: id in limiters && id != clientId ==> after[id] == limiters[id])
      && (clientId in limiters ==> forall k :: k != identifier && k in limiters[clientId] ==>
            k in after[clientId] && after[clientId][k] == limiters[clientId][k])
  {
  }

  /**
   * Inside the window, a counter at the limit is refused with reset time
   * `timestamp + blockDurationMs` and nothing changes; below the limit the
   * count goes up by one and the window start stays.
   */
  lemma LimitInsideWindow(clients: map<string, ClientConfig>, limiters: map<string, map<string, FixedWindow.Attempt>>,
                          clientId: string, identifier: string, now: int)
    requires clientId in clients && clientId in limiters
    requires FixedWindow.InWindow(limiters[clientId], identifier, clients[clientId].rateLimit.windowMs, now)
    ensures var a := limiters[clientId][identifier];
      var policy := clients[clientId].rateLimit;
      var r := Limit(clients, limiters, clientId, identifier, now);
      && (a.count >= policy.maxAttempts ==>
            r == (RateLimitResult(false, Some(a.timestamp + policy.blockDurationMs)), limiters))
      && (a.count < policy.maxAttempts ==>
            r.0 == RateLimitResult(true, None) &&
            r.1[clientId][identifier] == FixedWindow.Attempt(a.count + 1, a.timestamp))
  {
    var policy := clients[clientId].rateLimit;
    FixedWindow.StepCases(limiters[clientId], identifier, policy.maxAttempts, policy.windowMs, now);
  }

  /** An entry that does not parse admits nothing, and neither does a URL that does not parse. */
  lemma {:induction false} UnparsableNeverAllowed(c: ClientConfig, url: string, parse: UrlParser)
    requires parse(url).None? || forall i :: 0 <= i < |c.allowedRedirectUrls| ==> parse(c.allowedRedirectUrls[i]).None?
    ensures !RedirectAllowedFor(c, url, parse)
  {
    Text.AnyIsExists(c.allowedRedirectUrls, (entry: string) => RedirectEntryMatches(entry, url, parse));
  }

  /**
   * An admitted URL has the origin of some parsable allowed entry and a path
   * that starts with that entry's path: a different scheme, host or port is
   * never admitted.
   */
  lemma {:induction false} AllowedRedirectSharesOrigin(c: ClientConfig, url: string, parse: UrlParser)
    requires RedirectAllowedFor(c, url, parse)
    ensures parse(url).Some?
    ensures exists i :: (0 <= i < |c.allowedRedirectUrls| && parse(c.allowedRedirectUrls[i]).Some? &&
      parse(c.allowedRedirectUrls[i]).value.origin == parse(url).value.origin &&
      parse(c.allowedRedirectUrls[i]).value.pathname <= parse(url).value.pathname)
  {
    Text.AnyIsExists(c.allowedRedirectUrls, (entry: string) => RedirectEntryMatches(entry, url, parse));
    var i :| 0 <= i < |c.allowedRedirectUrls| && RedirectEntryMatches(c.allowedRedirectUrls[i], url, parse);
  }

  /** The tenant a sign-in page serves: the `client_id` query parameter, then the environment, then "default". */
  function QueryClientId(query: map<string, string>, envClientId: Option<string>): string
  {
    Or(Get(query, "client_id"), Or(envClientId, "default"))
  }

  /** The tenant registered at start-up under the configured default id. */
  function DefaultClient(envClientId: Option<string>, envApplicationUrl: Option<string>, windowOrigin: Option<string>)
    : ClientConfig
  {
    ClientConfig(
      clientId := Or(envClientId, "default"),
      name := "Default Application",
      description := "Main application with full authentication support",
      applicationUrl := Or(envApplicationUrl, "http://localhost:3000"),
      allowedRedirectUrls := ["/dashboard", "/profile"],
      allowedOrigins := [if windowOrigin.Some? then windowOrigin.value else ""],
      authMethods := [Credentials, Google],
      tokens := TokenConfig(3600, 2592000, JWT, true),
      rateLimit := RateLimitConfig(5, 300000, 900000),
      security := SecurityConfig(
        requireMFA := false,
        passwordPolicy := Some(PasswordPolicy(8, true, true, true, true)),
        sessionPolicy := Some(SessionPolicy(5, true)),
        ipWhitelist := [],
        ipBlacklist := []))
  }

  /** The example single-sign-on tenant registered at start-up. */
  function ClientApp(): ClientConfig
  {
    ClientConfig(
      clientId := "client-app",
      name := "Client Application",
      description := "External client application with SSO support",
      applicationUrl := "http://localhost:3001",
      allowedRedirectUrls := ["http://localhost:3001/auth/callback"],
      allowedOrigins := ["http://localhost:3001"],
      authMethods := [Google],
      tokens := TokenConfig(1800, 604800, JWT, true),
      rateLimit := RateLimitConfig(3, 60000, 300000),
      security := SecurityConfig(
        requireMFA := false,
        passwordPolicy := None,
        sessionPolicy := Some(SessionPolicy(1, true)),
        ipWhitelist := ["127.0.0.1"],
        ipBlacklist := []))
  }

  /**
   * Module load: a fresh registry, then the default tenant, then the example
   * tenant. The second registration throws exactly when the default id is
   * configured as "client-app".
   */
  method Bootstrap(envClientId: Option<string>, envApplicationUrl: Option<string>, windowOrigin: Option<string>)
    returns (registry: ClientRegistry, r: Outcome<string>)
    ensures fresh(registry) && registry.Valid()
    ensures var d := DefaultClient(envClientId, envApplicationUrl, windowOrigin);
      && (d.clientId != "client-app" ==>
            && r == Pass
            && registry.clients == map[d.clientId := d, "client-app" := ClientApp()]
            && registry.rateLimiters == map[d.clientId := map[], "client-app" := map[]])
      && (d.clientId == "client-app" ==> r == Fail(DuplicateClient("client-app")))
  {
    registry := new ClientRegistry();
    r := registry.RegisterClient(DefaultClient(envClientId, envApplicationUrl, windowOrigin));
    r := registry.RegisterClient(ClientApp());
  }

  /** The default tenant's relative entries never parse, so no redirect URL is ever admitted for it. */
  lemma DefaultClientAdmitsNoRedirect(envClientId: Option<string>, envApplicationUrl: Option<string>,
                                      windowOrigin: Option<string>, url: string, parse: UrlParser)
    requires parse("/dashboard").None? && parse("/profile").None?
    ensures !RedirectAllowedFor(DefaultClient(envClientId, envApplicationUrl, windowOrigin), url, parse)
  {
    UnparsableNeverAllowed(DefaultClient(envClientId, envApplicationUrl, windowOrigin), url, parse);
  }

  /**
   * The example tenant admits exactly the URLs on http://localhost:3001 whose
   * path starts with /auth/callback.
   */
  lemma ClientAppRedirects(url: string, parse: UrlParser)
    requires parse("http://localhost:3001/auth/callback") == Some(ParsedUrl("http://localhost:3001", "/auth/callback"))
    ensures RedirectAllowedFor(ClientApp(), url, parse) <==>
      parse(url).Some? && parse(url).value.origin == "http://localhost:3001" && "/auth/callback" <= parse(url).value.pathname
  {
    var c := ClientApp();
    assert c.allowedRedirectUrls[1..] == [];
  }

  /** The example tenant's whitelist admits 127.0.0.1 only; the default tenant has no IP policy. */
  lemma StartupIpPolicies(envClientId: Option<string>, envApplicationUrl: Option<string>,
                          windowOrigin: Option<string>, ip: string)
    ensures IpAllowedFor(ClientApp(), ip) <==> ip == "127.0.0.1"
    ensures IpAllowedFor(DefaultClient(envClientId, envApplicationUrl, windowOrigin), ip)
  {
  }
}
