/**
 * Completion of the Google sign-in for a registered client (tenant): checks
 * the tenant, the provider's error, the presence of code and state, exchanges
 * the code, stores the token and chooses where to send the user.
 */
module ClientGoogleCallback {
  import opened Wrappers
  import opened Web
  import opened Effects
  import Clients

  const INVALID_CLIENT: string := "/auth/error?error=invalid_client"
  const INVALID_REQUEST: string := "/auth/error?error=invalid_request&error_description=Missing required parameters"

  /** The error page for a failed exchange; the message is URI-encoded. */
  function AuthFailed(message: string, uriEncode: string -> string): string
  {
    "/auth/error?error=auth_failed&error_description=" + uriEncode(message)
  }

  /** The error page for a provider-reported error; both values are inserted unencoded. */
  function ProviderError(error: string, description: Option<string>): string
  {
    "/auth/error?error=" + error + "&error_description=" + Or(description, "Google authentication failed")
  }

  /** After the exchange call: store and redirect on a token, else report `auth_failed`. */
  function Completion(client: Clients.ClientConfig, redirectUri: Option<string>, exchange: MutationResult,
                      formEncode: string -> string, uriEncode: string -> string): seq<Effect>
  {
    match exchange
    case Threw(message) =>
      [Push(AuthFailed(if message.Some? then message.value else "Authentication failed", uriEncode))]
    case Returned(token, refreshToken) =>
      if Truthy(token) then
        [Login(token.value, refreshToken),
         if Truthy(redirectUri) && redirectUri.value in client.allowedRedirectUrls
         then Assign(BearerRedirect(redirectUri.value, token.value, formEncode))
         else Push(client.applicationUrl)]
      else [Push(AuthFailed("Failed to authenticate with Google", uriEncode))]
  }

  /** `handleGoogleCallback`. */
  function HandleGoogleCallback(query: map<string, string>, envClientId: Option<string>,
                                clients: map<string, Clients.ClientConfig>, exchange: MutationResult,
                                formEncode: string -> string, uriEncode: string -> string): seq<Effect>
  {
    var code := Get(query, "code");
    var state := Get(query, "state");
    var error := Get(query, "error");
    var clientId := Clients.QueryClientId(query, envClientId);
    var redirectUri := Get(query, "redirect_uri");
    if clientId !in clients then [Push(INVALID_CLIENT)]
    else if Truthy(error) then [Push(ProviderError(error.value, Get(query, "error_description")))]
    else if !Truthy(code) || !Truthy(state) then [Push(INVALID_REQUEST)]
    else [Call(GoogleCallback(code.value, state.value, clientId))] +
         Completion(clients[clientId], redirectUri, exchange, formEncode, uriEncode)
  }

  /** The query got past the tenant, error and parameter checks. */
  predicate ReachesExchange(query: map<string, string>, envClientId: Option<string>, clients: map<string, Clients.ClientConfig>)
  {
    Clients.QueryClientId(query, envClientId) in clients && !Truthy(Get(query, "error")) &&
    Truthy(Get(query, "code")) && Truthy(Get(query, "state"))
  }

  /**
   * The early exits: an unknown tenant wins even over a provider error; a
   * provider error is passed on with its description (defaulted); a missing
   * code or state is `invalid_request`. None of them calls the exchange.
   */
  lemma EarlyExits(query: map<string, string>, envClientId: Option<string>,
                   clients: map<string, Clients.ClientConfig>, exchange: MutationResult,
                   formEncode: string -> string, uriEncode: string -> string)
    ensures var trace := HandleGoogleCallback(query, envClientId, clients, exchange, formEncode, uriEncode);
      && (Clients.QueryClientId(query, envClientId) !in clients ==> trace == [Push(INVALID_CLIENT)])
      && (Clients.QueryClientId(query, envClientId) in clients && Truthy(Get(query, "error")) ==>
            trace == [Push(ProviderError(query["error"], Get(query, "error_description")))])
      && ((Clients.QueryClientId(query, envClientId) in clients && !Truthy(Get(query, "error")) &&
           !(Truthy(Get(query, "code")) && Truthy(Get(query, "state")))) ==> trace == [Push(INVALID_REQUEST)])
      && (!ReachesExchange(query, envClientId, clients) ==> NoCall(trace) && NoLogin(trace))
  {
  }

  /**
   * With a token from the exchange: one call, one login, then a redirect that
   * carries the token exactly when redirect_uri is listed verbatim, else the
   * tenant's application URL.
   */
  lemma SuccessfulExchange(query: map<string, string>, envClientId: Option<string>,
                           clients: map<string, Clients.ClientConfig>, token: string, refreshToken: Option<string>,
                           formEncode: string -> string, uriEncode: string -> string)
    requires ReachesExchange(query, envClientId, clients) && token != ""
    ensures var clientId := Clients.QueryClientId(query, envClientId);
      var client := clients[clientId];
      var redirectUri := Get(query, "redirect_uri");
      var trace := HandleGoogleCallback(query, envClientId, clients, Returned(Some(token), refreshToken), formEncode, uriEncode);
      && |trace| == 3
      && trace[0] == Call(GoogleCallback(query["code"], query["state"], clientId))
      && trace[1] == Login(token, refreshToken)
      && (Truthy(redirectUri) && redirectUri.value in client.allowedRedirectUrls ==>
            trace[2] == Assign(BearerRedirect(redirectUri.value, token, formEncode)))
      && (!(Truthy(redirectUri) && redirectUri.value in client.allowedRedirectUrls) ==>
            trace[2] == Push(client.applicationUrl))
  {
  }

  /** A thrown exchange or one without a token logs nobody in and ends on `auth_failed`. */
  lemma FailedExchange(query: map<string, string>, envClientId: Option<string>,
                       clients: map<string, Clients.ClientConfig>, exchange: MutationResult,
                       formEncode: string -> string, uriEncode: string -> string)
    requires ReachesExchange(query, envClientId, clients)
    requires exchange.Threw? || !Truthy(exchange.token)
    ensures var trace := HandleGoogleCallback(query, envClientId, clients, exchange, formEncode, uriEncode);
      && NoLogin(trace)
      && |trace| == 2
      && trace[1] == Push(AuthFailed(
           if exchange.Returned? then "Failed to authenticate with Google"
           else if exchange.message.Some? then exchange.message.value else "Authentication failed", uriEncode))
  {
  }

  /** Every run of the handler navigates at most once and only logs in after the exchange call. */
  lemma HandlerIsWellOrdered(query: map<string, string>, envClientId: Option<string>,
                             clients: map<string, Clients.ClientConfig>, exchange: MutationResult,
                             formEncode: string -> string, uriEncode: string -> string)
    ensures WellOrdered(HandleGoogleCallback(query, envClientId, clients, exchange, formEncode, uriEncode))
  {
    var trace := HandleGoogleCallback(query, envClientId, clients, exchange, formEncode, uriEncode);
    if ReachesExchange(query, envClientId, clients) {
      assert trace[0].Call?;
    }
  }
}
