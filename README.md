# Multi-tenant sign-in gateway — a Dafny model

This project models the core of the oauth-sso gateway, a Next.js single-sign-on front end. The core covers:

- the **tenant registry** (`ClientRegistry`), which holds each client application's configuration and a fixed-window counter per tenant and caller;
- the **request gate** (`middleware`), which runs in front of the auth, dashboard, profile and root routes. In order it:
  - resolves the tenant and applies a global per-IP limit;
  - checks the CSRF header/cookie pair on mutating requests;
  - hands an existing token to an allow-listed `redirect_uri` on auth paths;
  - otherwise continues with security headers;
- **per-tenant token storage** over the browser's key-value storage, and the unverified reading of a token's expiry and subject;
- the static **dapp directory**, with its exact-match redirect check; the directory is a plain object indexed with the raw id, so the names every object inherits (`constructor`, `toString`, `__proto__`, …) also yield a truthy entry, one without any configuration field;
- the **sign-in pages**:
  - Google completion for a tenant (`/auth/callback/google`);
  - Google completion for a dapp (`/auth/google/callback`);
  - password login;
  - dapp registration;
  - the stand-alone registration form with its field rules.

Module layout:

| file | module | models |
|---|---|---|
| `wrappers.dfy` | `Wrappers` | `Option`, `Outcome` |
| `web.dfy` | `Web` | JavaScript truthiness and `||` on optional strings, map lookups, parsed URLs, the bearer hand-off URL |
| `text.dfy` | `Text` | `Array.prototype.some`, `String.prototype.split` with a one-character separator |
| `fixed_window.dfy` | `FixedWindow` | the fixed-window counter step shared by both rate limiters |
| `clients.dfy` | `Clients` | tenant configuration, `ClientRegistry` (a class over two maps), start-up registration |
| `tokens.dfy` | `Tokens` | `KeyValueStorage` (localStorage), `TokenStore`, `isTokenExpired`, `parseToken` |
| `dapps.dfy` | `Dapps` | the dapp directory |
| `gate.dfy` | `Gate` | the middleware: `RequestRateLimiter`, a pure specification `Decide`, and the step-by-step `Middleware` method proved equal to it |
| `effects.dfy` | `Effects` | the ordered side-effect trace of a page handler |
| `client_google_callback.dfy` | `ClientGoogleCallback` | the tenant Google callback page |
| `dapp_google_callback.dfy` | `DappGoogleCallback` | the dapp Google callback page |
| `credentials_login.dfy` | `CredentialsLogin` | the password login page |
| `register_page.dfy` | `RegisterPage` | the dapp registration page |
| `register_form.dfy` | `RegisterForm` | the registration form schema and submit |

Stateful parts are classes whose methods carry `modifies` clauses:

- the registry's client and counter tables;
- the middleware's per-IP table;
- the storage's items.

Each such method is proved equal to a pure function (`Clients.Limit`, `FixedWindow.StepKey`, `Gate.Decide`), and lemmas about those functions state the properties.

A page handler is a pure function of its inputs and of the awaited mutation's outcome. It yields an ordered trace of:

- the mutation call;
- `login`;
- `router.push` or an assignment to `window.location.href`;
- the page's loading and processing flags.

Primitives the gateway does not define are parameters of the functions that use them:

- the WHATWG URL parser, as `Web.UrlParser`;
- `atob` followed by `JSON.parse`, as `Tokens.ClaimsDecoder`;
- `URLSearchParams` value encoding and `encodeURIComponent`;
- zod's email syntax check;
- `Date.now()`, passed in as `now`.

Observed behaviour of the code, proved as stated:

- `Gate.ContinueCarriesBaseHeaders`: since `"/"` is a public prefix and every path starts with `/`, HSTS is never added.
- `Clients.DefaultClientAdmitsNoRedirect`: the default tenant's redirect entries are relative, so they never parse and `validateRedirectUrl` admits nothing for it.
- `Dapps.DefaultFallbackResolvesNothing`: the pages' last-resort id `"default"` is no dapp key.
- `DappGoogleCallback.EarlyExit`: the dapp callback's early exit lies outside its `try/finally`, so on that path the processing flag stays set.
- `Gate.SsoHandOff`: `NextResponse.redirect` accepts only absolute URLs, so handing a token to one of the default tenant's relative entries makes the middleware throw.
- `RegisterPage.SubmitWithToken` and `DappGoogleCallback.InheritedStateIsExchanged`: an inherited name such as `constructor` renders the dapp pages and reaches the mutation; on the registration page, a non-empty `redirect_uri` then throws after the login and nothing navigates.
- `FixedWindow.BlockNotEnforcedAfterWindow`: a refused caller is told it may retry at `timestamp + blockDurationMs`, but nothing keeps it blocked that long; the counter reopens as soon as the counting window has passed.

## Model

| member | source | states |
|---|---|---|
| Web.BearerRedirect | src/middleware.ts:95-98 | the hand-off URL is the redirect URI followed by `?access_token=` with the form-encoded token and `&token_type=Bearer` |
| Text.AnyIsExists | src/middleware.ts:14-20 | the left-to-right `.some` scan is true exactly when some element satisfies the predicate |
| Text.Split | src/middleware.ts:71 | splitting yields at least one part and no part contains the separator |
| Text.JoinSplit | src/middleware.ts:71 | joining the parts of a split with the separator gives back the input (nothing is lost) |
| Text.SplitFirstPart | src/middleware.ts:71 | the first part of a split is the whole string, or is followed in it by the separator |
| Text.SplitWithoutSeparator | src/lib/auth/token.ts:26 | a string without the separator splits into itself alone, so it has no second segment |
| FixedWindow.StepKey | src/middleware.ts:23-43 | one check touches only its own key, which is present afterwards |
| FixedWindow.StepCases | src/middleware.ts:27-42 | a new or expired window restarts at count 1 at `now`; inside the window, a count at the limit is refused with the table unchanged, and below it the count rises by one and the window start stays |
| FixedWindow.StepDeniedIsReadOnly | src/lib/auth/clients.ts:122-125 | a refusal never changes the table; an allowed check leaves a count of at least one |
| FixedWindow.BlockNotEnforcedAfterWindow | src/lib/auth/clients.ts:117-125 | once the counting window has passed, an exhausted key is allowed again at count 1, whatever the block duration |
| FixedWindow.StepKeepsBounded | src/middleware.ts:37-41 | with a limit of at least one, every count stays at most the limit |
| FixedWindow.RunInsideWindow | src/middleware.ts:32-42 | in a series of checks inside one open window, the i-th is allowed exactly when the count it meets plus i is under the limit; the window start never moves |
| FixedWindow.RunCountInsideWindow | src/middleware.ts:37-41 | inside one window the count climbs by one per check and stops at the limit |
| FixedWindow.MaxAttemptsThenRefused | src/lib/auth/clients.ts:112-128 | for a new key, `maxAttempts` checks within one window are all allowed and the next is refused; the window opened at the first check |
| Clients.ClientRegistry.constructor | src/lib/auth/clients.ts:56-58 | the registry starts with no clients and no counters, and its invariant holds |
| Clients.ClientRegistry.RegisterClient | src/lib/auth/clients.ts:60-66 | a known id fails with `Client with ID … already exists` and changes nothing; otherwise the client is added with an empty counter table and reads back; the invariant is kept |
| Clients.ClientRegistry.GetClient | src/lib/auth/clients.ts:68-70 | a configuration is returned exactly for registered ids, and it is the registered one |
| Clients.ClientRegistry.ValidateRedirectUrl | src/lib/auth/clients.ts:76-90 | false for an unknown client; otherwise true iff some allowed entry and the URL both parse, with equal origins, and the URL's path starts with the entry's path |
| Clients.ClientRegistry.ValidateOrigin | src/lib/auth/clients.ts:92-95 | true iff the client is registered and lists the origin verbatim |
| Clients.ClientRegistry.SupportsAuthMethod | src/lib/auth/clients.ts:97-100 | true iff the client is registered and enables the method |
| Clients.ClientRegistry.CheckRateLimit | src/lib/auth/clients.ts:102-129 | the result and the new counter tables are those of the specification `Limit`; clients are unchanged; counts stay within each tenant's limit |
| Clients.ClientRegistry.ValidateIpAccess | src/lib/auth/clients.ts:131-144 | false for an unknown client; a non-empty whitelist admits exactly its members; otherwise a non-empty blacklist admits exactly the others; otherwise everything is admitted |
| Clients.LimitKeepsCounts | src/lib/auth/clients.ts:112-128 | a check keeps every tenant's counts within that tenant's `maxAttempts` |
| Clients.LimitUnknownClient | src/lib/auth/clients.ts:103-104 | an unknown client is refused with no reset time and no counter touched |
| Clients.LimitTouchesOneCounter | src/lib/auth/clients.ts:106-127 | other tenants' tables and other callers' counters are unchanged by a check |
| Clients.LimitInsideWindow | src/lib/auth/clients.ts:117-128 | inside the window, a counter at the limit is refused with reset time `timestamp + blockDurationMs` and nothing changes; below it the count rises by one |
| Clients.UnparsableNeverAllowed | src/lib/auth/clients.ts:80-88 | an unparsable URL, or a client whose entries all fail to parse, admits no redirect |
| Clients.AllowedRedirectSharesOrigin | src/lib/auth/clients.ts:80-88 | an admitted URL shares the origin of a parsable allowed entry and extends its path |
| Clients.Bootstrap | src/lib/auth/clients.ts:147-221 | start-up registers the default tenant and `client-app` with empty counters, and fails with a duplicate error exactly when the default id is `client-app` |
| Clients.DefaultClientAdmitsNoRedirect | src/lib/auth/clients.ts:150-156 | the default tenant's relative entries never parse, so no redirect URL is admitted for it |
| Clients.ClientAppRedirects | src/lib/auth/clients.ts:190-196 | `client-app` admits exactly the URLs on `http://localhost:3001` whose path starts with `/auth/callback` |
| Clients.StartupIpPolicies | src/lib/auth/clients.ts:219 | `client-app` admits only 127.0.0.1, and the default tenant admits every address |
| Tokens.KeysInjective | src/lib/auth/token.ts:12-13 | two tenants share an access-token key, or a refresh-token key, exactly when they are the same tenant |
| Tokens.AccessKeyIsNotRefreshKey | src/lib/auth/token.ts:12-13 | no access-token key is ever a refresh-token key |
| Tokens.KeyValueStorage.GetItem | src/lib/utils/storage.ts:3-6 | null without a window or for an absent key, else the stored value |
| Tokens.KeyValueStorage.SetItem | src/lib/utils/storage.ts:8-11 | stores the value under the key when a window exists, else changes nothing |
| Tokens.KeyValueStorage.RemoveItem | src/lib/utils/storage.ts:13-16 | deletes the key when a window exists, else changes nothing |
| Tokens.TokenStore.GetToken | src/lib/auth/token.ts:16 | reads the tenant's access-token key |
| Tokens.TokenStore.GetRefreshToken | src/lib/auth/token.ts:19 | reads the tenant's refresh-token key |
| Tokens.TokenStore.SetToken | src/lib/auth/token.ts:17 | the token reads back, and the refresh token and every other tenant's tokens are unchanged |
| Tokens.TokenStore.RemoveToken | src/lib/auth/token.ts:18 | the token reads as absent, the refresh token is unchanged, and removing an absent token changes nothing |
| Tokens.TokenStore.SetRefreshToken | src/lib/auth/token.ts:20 | the refresh token reads back and the access token is unchanged |
| Tokens.SetGetRemove | src/lib/auth/token.ts:15-18 | set-then-get returns the token, and removing twice leaves the same storage as removing once |
| Tokens.ParseToken | src/lib/auth/token.ts:34-44 | null exactly when the second segment does not decode; otherwise the subject and expiry of the claims |
| Tokens.ExpiredIffParsedExpiryReached | src/lib/auth/token.ts:24-44 | a token is expired iff it does not parse or its parsed expiry, in milliseconds, has been reached |
| Tokens.UndottedTokenIsExpired | src/lib/auth/token.ts:26-30 | a token without a dot never decodes and is always expired |
| Tokens.ExpiryIsMonotone | src/lib/auth/token.ts:27-28 | once expired, a token stays expired at every later time |
| Tokens.ExpiryBoundary | src/lib/auth/token.ts:27-28 | a decodable token is live strictly before `exp * 1000` and expired from then on; without a numeric `exp` it never expires |
| Dapps.GetDapp | src/lib/auth/dapps.ts:43-107 | a configuration exactly for the two known UUIDs, naming the id it was found under; a field-less inherited entry exactly for the `Object.prototype` names; nothing otherwise |
| Dapps.ValidateRedirectUrl | src/lib/auth/dapps.ts:108-109 | true iff a configured dapp lists the URL verbatim; throws exactly for the inherited names; false otherwise |
| Dapps.ExactMatchOnly | src/lib/auth/dapps.ts:44-80 | a listed Polyversity URL is accepted but a path below it is refused; the default dapp accepts exactly `/dashboard` and `/profile` |
| Dapps.DefaultFallbackResolvesNothing | src/lib/auth/dapps.ts:37-45 | the id `"default"` yields nothing: it is neither a dapp key nor an inherited name |
| Gate.AuthPathIff | src/middleware.ts:14-16 | a path is an auth path iff it starts with `/auth/login`, `/auth/register` or `/auth/callback` |
| Gate.RootedPathsArePublic | src/middleware.ts:18-20 | every path that starts with `/` is public |
| Gate.ClientIpIsFirstEntry | src/middleware.ts:71 | the limiter key is `""` without `x-forwarded-for`, else the header's first entry: comma-free, and either the whole header or followed in it by the first comma |
| Gate.HandOff | src/middleware.ts:98 | the redirect is to the given URL exactly when it parses as an absolute URL, and the middleware throws otherwise |
| Gate.RequestRateLimiter.CheckRateLimit | src/middleware.ts:23-43 | the answer and the new table are `StepKey` with 100 requests per 60000 ms, and counts stay at most 100 |
| Gate.Middleware | src/middleware.ts:57-121 | the response and the per-IP table afterwards equal the specification `Decide` |
| Gate.UnknownTenantRedirectsFirst | src/middleware.ts:64-68 | an unknown tenant is sent to `invalid_client` with the per-IP table untouched |
| Gate.TenantPrecedence | src/middleware.ts:59-62 | the tenant is the first non-empty of the `x-client-id` header, the `client_id` parameter and the environment, else `default` |
| Gate.RateLimitBeforeCsrf | src/middleware.ts:70-81 | for a known tenant, an IP at its limit inside the window gets 429 whatever the method and CSRF pair, and the table is unchanged |
| Gate.CsrfOnlyOnMutations | src/middleware.ts:76-81 | a 403 is given exactly to a known tenant's non-GET/HEAD request that passed the limiter and lacks an equal non-empty CSRF header and cookie |
| Gate.SsoHandOff | src/middleware.ts:88-99 | on an auth path, a live token cookie plus a verbatim-listed `redirect_uri` redirects to that URI carrying the token as a bearer token when that URL is absolute, and throws when it does not parse |
| Gate.UnlistedRedirectRefused | src/middleware.ts:102-106 | on an auth path, a non-empty unlisted `redirect_uri` is sent to `invalid_redirect_uri`, token or not |
| Gate.NonAuthPathsContinue | src/middleware.ts:109-120 | off the auth paths, every request that passed the checks continues with the security headers |
| Gate.ContinueCarriesBaseHeaders | src/middleware.ts:109-118 | every continued response for a `/`-rooted path carries exactly the four base headers and never HSTS |
| Gate.DecideKeepsCounters | src/middleware.ts:23-43 | the gate changes at most the caller's own counter and keeps every count at most 100 |
| Effects.SubmitTraceIsWellOrdered | src/app/auth/login/credentials/page.tsx:37-75 | a submit trace (loading on, the mutation, then nothing, a login alone, or a login and one navigation, loading off) is well ordered and ends with loading cleared |
| ClientGoogleCallback.EarlyExits | src/app/auth/callback/google/page.tsx:25-43 | an unknown tenant beats a provider error, which beats missing code/state; each exit pushes its error page and none calls the exchange or logs in |
| ClientGoogleCallback.SuccessfulExchange | src/app/auth/callback/google/page.tsx:45-68 | with a token: exchange, login with both tokens, then the bearer hand-off iff `redirect_uri` is listed verbatim, else the application URL |
| ClientGoogleCallback.FailedExchange | src/app/auth/callback/google/page.tsx:69-75 | a throw or a missing token logs nobody in and ends on `auth_failed` with the URI-encoded message |
| ClientGoogleCallback.HandlerIsWellOrdered | src/app/auth/callback/google/page.tsx:17-79 | at most one navigation, nothing after it, and login only after the exchange call |
| CredentialsLogin.Page | src/app/auth/login/credentials/page.tsx:25-27 | the page renders exactly for a registered tenant, with that tenant's configuration |
| CredentialsLogin.SubmitWithToken | src/app/auth/login/credentials/page.tsx:53-66 | loading on, call, login, then one navigation: the bearer hand-off iff `redirect_uri` is listed verbatim, else the application URL or `/dashboard`; loading off |
| CredentialsLogin.SubmitWithoutToken | src/app/auth/login/credentials/page.tsx:67-75 | without a token or on a throw: no login, no navigation, loading cleared |
| CredentialsLogin.SubmitIsWellOrdered | src/app/auth/login/credentials/page.tsx:35-76 | every submission is well ordered and ends with loading cleared |
| RegisterPage.Page | src/app/auth/register/page.tsx:28-30 | the page renders exactly when the resolved id is one of the two dapp UUIDs or an inherited `Object.prototype` name |
| RegisterPage.NoConfigurationRendersNothing | src/app/auth/register/page.tsx:28-30 | without `dapp_id` or environment the page is empty |
| RegisterPage.SubmitWithToken | src/app/auth/register/page.tsx:58-76 | login with the access token only; then `?token=` appended iff `redirect_uri` is listed verbatim for a configured dapp; no navigation when a non-empty `redirect_uri` meets an inherited entry (the guard throws and is caught); else `/dashboard` |
| RegisterPage.SubmitWithoutToken | src/app/auth/register/page.tsx:68-76 | without a token or on a throw: no login, no navigation |
| RegisterPage.SubmitIsWellOrdered | src/app/auth/register/page.tsx:38-77 | every submission is well ordered and ends with loading cleared |
| DappGoogleCallback.EarlyExit | src/app/auth/google/callback/page.tsx:26-30 | a missing code or unknown dapp pushes `/auth/login` only: no exchange, no login, the processing flag not cleared |
| DappGoogleCallback.DefaultFallbackNeverExchanges | src/app/auth/google/callback/page.tsx:19-20 | without `state` or environment the fallback `default` never reaches the exchange |
| DappGoogleCallback.ExchangeOutcomes | src/app/auth/google/callback/page.tsx:32-53 | the code is exchanged for the dapp; a token logs in and opens `/dashboard`; anything else returns to `/auth/login` without login; processing is cleared last |
| DappGoogleCallback.InheritedStateIsExchanged | src/app/auth/google/callback/page.tsx:19-38 | an inherited `Object.prototype` name in `state` renders the page and has the code exchanged under that id |
| DappGoogleCallback.RendersIffExchanges | src/app/auth/google/callback/page.tsx:59-61 | the page renders its progress view exactly when the handler calls the exchange |
| DappGoogleCallback.HandlerIsWellOrdered | src/app/auth/google/callback/page.tsx:24-57 | every run is well ordered |
| RegisterForm.SchemaAcceptsIff | src/components/auth/register-form.tsx:17-33 | the schema accepts iff the name has 2–100 characters, the email is non-empty and well formed, and the password has 8–100 characters with a lowercase letter, an uppercase letter, a digit and one of `@$!%*?&`, and only such characters |
| RegisterForm.ShortPasswordReportsTwice | src/components/auth/register-form.tsx:25-32 | a non-empty password under eight characters reports both the length and the pattern message |
| RegisterForm.SubmitOutcomes | src/components/auth/register-form.tsx:53-73 | the mutation runs only for accepted input; the form navigates, only to `/auth/login`, exactly when it ran and returned a token; it never logs in |

## Left out

- `getAllClients` (src/lib/auth/clients.ts:72-74) is not modelled: it only lists the map's values and no core operation uses it.
- Themes, logos, metadata, toasts, console output and all rendered markup are presentation only. The configurations carry no theme, and a page's rendering is reduced to "renders or is empty".
- The URL parser, the claims decoder (`atob` plus `JSON.parse`), `URLSearchParams` encoding, `encodeURIComponent` and zod's email check are opaque parameters. Their internal behaviour is not modelled.
- `Date.now()` is the parameter `now`; the real clock is not modelled.
- Tokens.IsTokenExpired: `exp` is an optional integer number of seconds. JavaScript's coercion of numeric strings and fractional values, and `NaN` arithmetic beyond "never expired", are not modelled.
- Header names are looked up in lower case, and query parameters and cookies hold one value per name. Case-insensitive header matching and repeated query parameters are not modelled.
- Concurrency is not modelled: requests and handlers are taken one at a time. Interleaved read-modify-write of the rate-limit counters is therefore not captured.
- The limiters' counter tables grow without eviction, as in the code; memory bounds are not modelled.
- The middleware creates a token store for the tenant but never uses it (src/middleware.ts:84), so it has no effect in the model.
- `login` from the auth context is a trace effect carrying the tokens it was given; what the context stores (src/lib/auth/AuthContext.tsx) is not part of this model.
- The Google sign-in start page (src/app/auth/google/page.tsx), with its random `state` and session storage, is not part of this model.
- `NextResponse.redirect` normalises the URL it validates; the modelled response carries the URL as built.
- The absolute-URL check of `NextResponse.redirect` is the parameter `parse`, as for the registry's redirect check; that a relative URL never parses is an assumption about that parameter, not stated inside the model.
- Page handlers take the mutation's outcome as an input. The GraphQL transport, timeouts and React re-running of effects are not modelled.
- The registration form's string lengths count characters, where JavaScript counts UTF-16 code units.
