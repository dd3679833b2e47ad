/**
 * The per-request gate run in front of the auth, dashboard, profile and root
 * routes: resolve the tenant, apply the global per-IP limit, check the CSRF
 * pair on mutating requests, hand an existing token to an allow-listed
 * redirect on auth paths, and otherwise continue with security headers.
 */
module Gate {
  import opened Wrappers
  import opened Web
  import Text
  import FixedWindow
  import Clients
  import Tokens

  const RATE_LIMIT_WINDOW: int := 60000
  const MAX_REQUESTS: int := 100

  const AUTH_PATHS: seq<string> := ["/auth/login", "/auth/register", "/auth/callback"]
  const PUBLIC_PATHS: seq<string> := ["/", "/auth/error"]

  const INVALID_CLIENT: string := "/auth/error?error=invalid_client"
  const INVALID_REDIRECT_URI: string := "/auth/error?error=invalid_redirect_uri"

  /** `isAuthPath`: the path starts with one of the auth prefixes. */
  predicate IsAuthPath(pathname: string)
  {
    Text.Any(AUTH_PATHS, (prefix: string) => prefix <= pathname)
  }

  /** `isPublicPath`: the path starts with one of the public prefixes. */
  predicate IsPublicPath(pathname: string)
  {
    Text.Any(PUBLIC_PATHS, (prefix: string) => prefix <= pathname)
  }

  /** The auth paths are the login, register and callback subtrees. */
  lemma {:induction false} AuthPathIff(pathname: string)
    ensures IsAuthPath(pathname) <==>
      ("/auth/login" <= pathname || "/auth/register" <= pathname || "/auth/callback" <= pathname)
  {
    Text.AnyIsExists(AUTH_PATHS, (prefix: string) => prefix <= pathname);
    if "/auth/register" <= pathname {
      assert AUTH_PATHS[1] <= pathname;
    }
    if "/auth/callback" <= pathname {
      assert AUTH_PATHS[2] <= pathname;
    }
  }

  /** Since "/" is a public prefix, every path that starts with "/" is public. */
  lemma {:induction false} RootedPathsArePublic(pathname: string)
    requires "/" <= pathname
    ensures IsPublicPath(pathname)
  {
    Text.AnyIsExists(PUBLIC_PATHS, (prefix: string) => prefix <= pathname);
    assert PUBLIC_PATHS[0] <= pathname;
  }

  /**
   * The parts of the request the gate reads; header names are lower case,
   * and query and cookie maps hold the first value of each name.
   */
  datatype Request = Request(
    pathname: string,
    httpMethod: string,
    headers: map<string, string>,
    cookies: map<string, string>,
    query: map<string, string>)

  datatype Response =
    | RedirectLocal(path: string)       // `NextResponse.redirect(new URL(path, request.url))`
    | RedirectAbsolute(url: string)     // `NextResponse.redirect(url)`
    | Reject(status: int, body: string) // `new NextResponse(body, { status })`
    | Next(headers: map<string, string>) // `NextResponse.next()` with headers set
    | Throws                              // the middleware throws; the request fails with a server error

  /** The four headers every continued response carries. */
  function BaseSecurityHeaders(): map<string, string>
  {
    map[
      "X-Frame-Options" := "DENY",
      "X-Content-Type-Options" := "nosniff",
      "Referrer-Policy" := "strict-origin-when-cross-origin",
      "Permissions-Policy" := "camera=(), microphone=(), geolocation=()"
    ]
  }

  /** Headers of a continued response: the four, plus HSTS on a non-public path. */
  function SecurityHeaders(pathname: string): map<string, string>
  {
    if IsPublicPath(pathname) then BaseSecurityHeaders()
    else BaseSecurityHeaders()["Strict-Transport-Security" := "max-age=31536000; includeSubDomains"]
  }

  /** Tenant precedence: header, then query, then environment, then "default". */
  function ResolveClientId(req: Request, envClientId: Option<string>): string
  {
    Or(Get(req.headers, "x-client-id"), Or(Get(req.query, "client_id"), Or(envClientId, "default")))
  }

  /** The limiter key: the first comma-separated entry of `x-forwarded-for`, or "". */
  function ClientIp(req: Request): string
  {
    match Get(req.headers, "x-forwarded-for")
    case None => ""
    case Some(forwarded) => Text.Split(forwarded, ',')[0]
  }

  /**
   * The key is "" without a forwarded-for header; otherwise it is the header's
   * first entry: a comma-free prefix that is the whole header or is followed
   * by the header's first comma.
   */
  lemma ClientIpIsFirstEntry(req: Request)
    ensures "x-forwarded-for" !in req.headers ==> ClientIp(req) == ""
    ensures "x-forwarded-for" in req.headers ==>
      var forwarded := req.headers["x-forwarded-for"];
      && ClientIp(req) <= forwarded && ',' !in ClientIp(req)
      && (ClientIp(req) == forwarded || ClientIp(req) + [','] <= forwarded)
  {
    if "x-forwarded-for" in req.headers {
      var forwarded := req.headers["x-forwarded-for"];
      Text.SplitFirstPart(forwarded, ',');
      assert ClientIp(req) == Text.Split(forwarded, ',')[0];
    }
  }

  /** `validateCsrfToken`: header and cookie both present, non-empty and equal. */
  predicate ValidateCsrfToken(req: Request)
  {
    var header := Get(req.headers, "x-csrf-token");
    var cookie := Get(req.cookies, "csrf-token");
    Truthy(header) && Truthy(cookie) && header.value == cookie.value
  }

  /** Requests other than GET and HEAD must carry the CSRF pair. */
  predicate IsMutation(req: Request)
  {
    req.httpMethod != "GET" && req.httpMethod != "HEAD"
  }

  /**
   * `NextResponse.redirect(url)` with a string: the URL is validated with
   * `new URL(url)`, which throws on a relative or malformed URL.
   */
  function HandOff(href: string, parse: UrlParser): (r: Response)
    ensures r.RedirectAbsolute? <==> parse(href).Some?
    ensures r.RedirectAbsolute? ==> r.url == href
    ensures r.Throws? <==> parse(href).None?
  {
    if parse(href).Some? then RedirectAbsolute(href) else Throws
  }

  /** The path-dependent tail of the gate, once tenant, limit and CSRF have passed. */
  function Route(req: Request, client: Clients.ClientConfig, clientId: string, now: int,
                 decode: Tokens.ClaimsDecoder, formEncode: string -> string, parse: UrlParser): Response
  {
    var token := Get(req.cookies, Tokens.TokenKey(clientId));
    var redirectUri := Get(req.query, "redirect_uri");
    if IsAuthPath(req.pathname) && Truthy(token) && !Tokens.IsTokenExpired(token.value, now, decode)
       && Truthy(redirectUri) && redirectUri.value in client.allowedRedirectUrls
    then HandOff(BearerRedirect(redirectUri.value, token.value, formEncode), parse)
    else if IsAuthPath(req.pathname) && Truthy(redirectUri) && redirectUri.value !in client.allowedRedirectUrls
    then RedirectLocal(INVALID_REDIRECT_URI)
    else Next(SecurityHeaders(req.pathname))
  }

  /** The whole gate: the response and the per-IP counter table afterwards. */
  function Decide(req: Request, clients: map<string, Clients.ClientConfig>, envClientId: Option<string>,
                  windows: map<string, FixedWindow.Attempt>, now: int,
                  decode: Tokens.ClaimsDecoder, formEncode: string -> string, parse: UrlParser)
    : (r: (Response, map<string, FixedWindow.Attempt>))
  {
    var clientId := ResolveClientId(req, envClientId);
    if clientId !in clients then (RedirectLocal(INVALID_CLIENT), windows)
    else
      var limited := FixedWindow.StepKey(windows, ClientIp(req), MAX_REQUESTS, RATE_LIMIT_WINDOW, now);
      if !limited.0 then (Reject(429, "Too Many Requests"), limited.1)
      else if IsMutation(req) && !ValidateCsrfToken(req) then (Reject(403, "Invalid CSRF Token"), limited.1)
      else (Route(req, clients[clientId], clientId, now, decode, formEncode, parse), limited.1)
  }

  /** The module-level per-IP counter table. */
  class RequestRateLimiter {
    var windows: map<string, FixedWindow.Attempt>

    constructor ()
      ensures windows == map[]
    {
      windows := map[];
    }

    /** `checkRateLimit(ip)`: the fixed-window rule with 100 requests per minute. */
    method CheckRateLimit(ip: string, now: int) returns (allowed: bool)
      modifies this
      ensures (allowed, windows) == FixedWindow.StepKey(old(windows), ip, MAX_REQUESTS, RATE_LIMIT_WINDOW, now)
      ensures FixedWindow.Bounded(old(windows), MAX_REQUESTS) ==> FixedWindow.Bounded(windows, MAX_REQUESTS)
    {
      if FixedWindow.Bounded(windows, MAX_REQUESTS) {
        FixedWindow.StepKeepsBounded(windows, ip, MAX_REQUESTS, RATE_LIMIT_WINDOW, now);
      }
      if ip !in windows {
        windows := windows[ip := FixedWindow.Attempt(1, now)];
        return true;
      }
      var windowData := windows[ip];
      if now - windowData.timestamp > RATE_LIMIT_WINDOW {
        windows := windows[ip := FixedWindow.Attempt(1, now)];
        return true;
      }
      if windowData.count >= MAX_REQUESTS {
        return false;
      }
      windows := windows[ip := FixedWindow.Attempt(windowData.count + 1, windowData.timestamp)];
      allowed := true;
    }
  }

  /** `middleware(request)`, step by step as the source runs it. */
  method Middleware(req: Request, registry: Clients.ClientRegistry, limiter: RequestRateLimiter,
                    envClientId: Option<string>, now: int,
                    decode: Tokens.ClaimsDecoder, formEncode: string -> string, parse: UrlParser)
    returns (response: Response)
    modifies limiter
    ensures (response, limiter.windows) ==
      Decide(req, registry.clients, envClientId, old(limiter.windows), now, decode, formEncode, parse)
  {
    var clientId := ResolveClientId(req, envClientId);
    var client := registry.GetClient(clientId);
    if client.None? {
      return RedirectLocal(INVALID_CLIENT);
    }

    assert clientId in registry.clients && client.value == registry.clients[clientId];
    var ip := ClientIp(req);
    var allowed := limiter.CheckRateLimit(ip, now);
    ghost var limited := FixedWindow.StepKey(old(limiter.windows), ip, MAX_REQUESTS, RATE_LIMIT_WINDOW, now);
    assert allowed == limited.0 && limiter.windows == limited.1;
    if !allowed {
      return Reject(429, "Too Many Requests");
    }

    if req.httpMethod != "GET" && req.httpMethod != "HEAD" {
      if !ValidateCsrfToken(req) {
        return Reject(403, "Invalid CSRF Token");
      }
    }

    assert !(IsMutation(req) && !ValidateCsrfToken(req));
    assert Decide(req, registry.clients, envClientId, old(limiter.windows), now, decode, formEncode, parse) ==
      (Route(req, client.value, clientId, now, decode, formEncode, parse), limiter.windows);
    var token := Get(req.cookies, Tokens.TokenKey(clientId));
    if IsAuthPath(req.pathname) {
      if Truthy(token) && !Tokens.IsTokenExpired(token.value, now, decode) {
        var redirectUri := Get(req.query, "redirect_uri");
        if Truthy(redirectUri) && redirectUri.value in client.value.allowedRedirectUrls {
          var href := BearerRedirect(redirectUri.value, token.value, formEncode);
          if parse(href).None? {
            return Throws;
          }
          return RedirectAbsolute(href);
        }
      }
      var redirectUri := Get(req.query, "redirect_uri");
      if Truthy(redirectUri) && redirectUri.value !in client.value.allowedRedirectUrls {
        return RedirectLocal(INVALID_REDIRECT_URI);
      }
    }

    var headers: map<string, string> := map[];
    headers := headers["X-Frame-Options" := "DENY"];
    headers := headers["X-Content-Type-Options" := "nosniff"];
    headers := headers["Referrer-Policy" := "strict-origin-when-cross-origin"];
    headers := headers["Permissions-Policy" := "camera=(), microphone=(), geolocation=()"];
    assert headers == BaseSecurityHeaders();
    if !IsPublicPath(req.pathname) {
      headers := headers["Strict-Transport-Security" := "max-age=31536000; includeSubDomains"];
    }
    response := Next(headers);
  }

  /** An unknown tenant is redirected to the error page before the limiter or CSRF are looked at. */
  lemma UnknownTenantRedirectsFirst(req: Request, clients: map<string, Clients.ClientConfig>, envClientId: Option<string>,
                                    windows: map<string, FixedWindow.Attempt>, now: int,
                                    decode: Tokens.ClaimsDecoder, formEncode: string -> string, parse: UrlParser)
    requires ResolveClientId(req, envClientId) !in clients
    ensures Decide(req, clients, envClientId, windows, now, decode, formEncode, parse) == (RedirectLocal(INVALID_CLIENT), windows)
  {
  }

  /** The tenant id is the first truthy of header, query parameter and environment, else "default". */
  lemma TenantPrecedence(req: Request, envClientId: Option<string>)
    ensures var id := ResolveClientId(req, envClientId);
      && (Truthy(Get(req.headers, "x-client-id")) ==> id == req.headers["x-client-id"])
      && (!Truthy(Get(req.headers, "x-client-id")) && Truthy(Get(req.query, "client_id")) ==> id == req.query["client_id"])
      && (!Truthy(Get(req.headers, "x-client-id")) && !Truthy(Get(req.query, "client_id")) && Truthy(envClientId) ==>
            id == envClientId.value)
      && (!Truthy(Get(req.headers, "x-client-id")) && !Truthy(Get(req.query, "client_id")) && !Truthy(envClientId) ==>
            id == "default")
  {
  }

  /** For a known tenant, an IP over its limit gets 429 whatever the method and CSRF pair. */
  lemma RateLimitBeforeCsrf(req: Request, clients: map<string, Clients.ClientConfig>, envClientId: Option<string>,
                            windows: map<string, FixedWindow.Attempt>, now: int,
                            decode: Tokens.ClaimsDecoder, formEncode: string -> string, parse: UrlParser)
    requires ResolveClientId(req, envClientId) in clients
    requires FixedWindow.InWindow(windows, ClientIp(req), RATE_LIMIT_WINDOW, now)
    requires windows[ClientIp(req)].count >= MAX_REQUESTS
    ensures Decide(req, clients, envClientId, windows, now, decode, formEncode, parse) == (Reject(429, "Too Many Requests"), windows)
  {
    FixedWindow.StepCases(windows, ClientIp(req), MAX_REQUESTS, RATE_LIMIT_WINDOW, now);
  }

  /**
   * A 403 is given exactly to a known tenant's mutating request that passed
   * the limiter and lacks a matching CSRF pair; GET and HEAD never get one.
   */
  lemma CsrfOnlyOnMutations(req: Request, clients: map<string, Clients.ClientConfig>, envClientId: Option<string>,
                            windows: map<string, FixedWindow.Attempt>, now: int,
                            decode: Tokens.ClaimsDecoder, formEncode: string -> string, parse: UrlParser)
    ensures var r := Decide(req, clients, envClientId, windows, now, decode, formEncode, parse);
      r.0 == Reject(403, "Invalid CSRF Token") <==>
        (&& ResolveClientId(req, envClientId) in clients
         && FixedWindow.StepKey(windows, ClientIp(req), MAX_REQUESTS, RATE_LIMIT_WINDOW, now).0
         && IsMutation(req) && !ValidateCsrfToken(req))
  {
    var clientId := ResolveClientId(req, envClientId);
    if clientId in clients {
      var client := clients[clientId];
      var route := Route(req, client, clientId, now, decode, formEncode, parse);
      assert route.RedirectAbsolute? || route.RedirectLocal? || route.Next? || route.Throws?;
    }
  }

  /** The request passed tenant, limiter and CSRF checks (the premise of the path rules). */
  predicate PassesChecks(req: Request, clients: map<string, Clients.ClientConfig>, envClientId: Option<string>,
                         windows: map<string, FixedWindow.Attempt>, now: int)
  {
    && ResolveClientId(req, envClientId) in clients
    && FixedWindow.StepKey(windows, ClientIp(req), MAX_REQUESTS, RATE_LIMIT_WINDOW, now).0
    && !(IsMutation(req) && !ValidateCsrfToken(req))
  }

  /**
   * Single sign-on hand-off: on an auth path, with a live token cookie for the
   * tenant and a redirect_uri listed verbatim, the caller is sent to that URI
   * with the token attached as a bearer token; when that URL is relative or
   * malformed (the default tenant's entries are relative) the redirect throws.
   */
  lemma SsoHandOff(req: Request, clients: map<string, Clients.ClientConfig>, envClientId: Option<string>,
                   windows: map<string, FixedWindow.Attempt>, now: int,
                   decode: Tokens.ClaimsDecoder, formEncode: string -> string, parse: UrlParser)
    requires PassesChecks(req, clients, envClientId, windows, now)
    requires IsAuthPath(req.pathname)
    requires var clientId := ResolveClientId(req, envClientId);
      && Truthy(Get(req.cookies, Tokens.TokenKey(clientId)))
      && !Tokens.IsTokenExpired(req.cookies[Tokens.TokenKey(clientId)], now, decode)
      && Truthy(Get(req.query, "redirect_uri"))
      && req.query["redirect_uri"] in clients[clientId].allowedRedirectUrls
    ensures var href := req.query["redirect_uri"] + "?access_token=" +
                         formEncode(req.cookies[Tokens.TokenKey(ResolveClientId(req, envClientId))]) + "&token_type=Bearer";
      var response := Decide(req, clients, envClientId, windows, now, decode, formEncode, parse).0;
      && (parse(href).Some? ==> response == RedirectAbsolute(href))
      && (parse(href).None? ==> response == Throws)
  {
    var clientId := ResolveClientId(req, envClientId);
    var token := req.cookies[Tokens.TokenKey(clientId)];
    var uri := req.query["redirect_uri"];
    assert Decide(req, clients, envClientId, windows, now, decode, formEncode, parse).0 ==
      Route(req, clients[clientId], clientId, now, decode, formEncode, parse);
    assert Route(req, clients[clientId], clientId, now, decode, formEncode, parse) ==
      HandOff(BearerRedirect(uri, token, formEncode), parse);
  }

  /**
   * On an auth path a non-empty redirect_uri that is not listed verbatim is
   * refused, whether or not a token is present.
   */
  lemma UnlistedRedirectRefused(req: Request, clients: map<string, Clients.ClientConfig>, envClientId: Option<string>,
                                windows: map<string, FixedWindow.Attempt>, now: int,
                                decode: Tokens.ClaimsDecoder, formEncode: string -> string, parse: UrlParser)
    requires PassesChecks(req, clients, envClientId, windows, now)
    requires IsAuthPath(req.pathname)
    requires Truthy(Get(req.query, "redirect_uri"))
    requires req.query["redirect_uri"] !in clients[ResolveClientId(req, envClientId)].allowedRedirectUrls
    ensures Decide(req, clients, envClientId, windows, now, decode, formEncode, parse).0 == RedirectLocal(INVALID_REDIRECT_URI)
  {
  }

  /**
   * Off the auth paths the token is never consulted: every request that
   * passed the checks continues with the security headers.
   */
  lemma NonAuthPathsContinue(req: Request, clients: map<string, Clients.ClientConfig>, envClientId: Option<string>,
                             windows: map<string, FixedWindow.Attempt>, now: int,
                             decode: Tokens.ClaimsDecoder, formEncode: string -> string, parse: UrlParser)
    requires PassesChecks(req, clients, envClientId, windows, now)
    requires !IsAuthPath(req.pathname)
    ensures Decide(req, clients, envClientId, windows, now, decode, formEncode, parse).0 == Next(SecurityHeaders(req.pathname))
  {
  }

  /**
   * Every continued response for a path starting with "/" carries exactly the
   * four base headers: HSTS is never added, because "/" is a public prefix.
   */
  lemma ContinueCarriesBaseHeaders(req: Request, clients: map<string, Clients.ClientConfig>, envClientId: Option<string>,
                                   windows: map<string, FixedWindow.Attempt>, now: int,
                                   decode: Tokens.ClaimsDecoder, formEncode: string -> string, parse: UrlParser)
    requires "/" <= req.pathname
    requires Decide(req, clients, envClientId, windows, now, decode, formEncode, parse).0.Next?
    ensures Decide(req, clients, envClientId, windows, now, decode, formEncode, parse).0.headers == BaseSecurityHeaders()
    ensures "Strict-Transport-Security" !in Decide(req, clients, envClientId, windows, now, decode, formEncode, parse).0.headers
  {
    RootedPathsArePublic(req.pathname);
  }

  /**
   * The gate changes at most the caller's own counter, and with every count
   * at most 100 before, every count is at most 100 after.
   */
  lemma DecideKeepsCounters(req: Request, clients: map<string, Clients.ClientConfig>, envClientId: Option<string>,
                            windows: map<string, FixedWindow.Attempt>, now: int,
                            decode: Tokens.ClaimsDecoder, formEncode: string -> string, parse: UrlParser)
    ensures var after := Decide(req, clients, envClientId, windows, now, decode, formEncode, parse).1;
      && (forall k :: k != ClientIp(req) ==> (k in after <==> k in windows) && (k in windows ==> after[k] == windows[k]))
      && (FixedWindow.Bounded(windows, MAX_REQUESTS) ==> FixedWindow.Bounded(after, MAX_REQUESTS))
  {
    if FixedWindow.Bounded(windows, MAX_REQUESTS) {
      FixedWindow.StepKeepsBounded(windows, ClientIp(req), MAX_REQUESTS, RATE_LIMIT_WINDOW, now);
    }
  }
}
