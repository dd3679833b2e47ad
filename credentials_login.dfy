/**
 * The password sign-in page of a tenant: it renders only for a registered
 * tenant, and its submit handler calls the login mutation, stores the token
 * and either hands the token to an allow-listed redirect or opens the
 * tenant's application.
 */
module CredentialsLogin {
  import opened Wrappers
  import opened Web
  import opened Effects
  import Clients

  /** The page renders (`client` found) or is empty (null). */
  function Page(query: map<string, string>, envClientId: Option<string>, clients: map<string, Clients.ClientConfig>)
    : (r: Option<Clients.ClientConfig>)
    ensures r.Some? <==> Clients.QueryClientId(query, envClientId) in clients
    ensures r.Some? ==> r.value == clients[Clients.QueryClientId(query, envClientId)]
  {
    var clientId := Clients.QueryClientId(query, envClientId);
    if clientId in clients then Some(clients[clientId]) else None
  }

  /** Where a logged-in user goes: the token hand-off on a verbatim match, else the application URL or /dashboard. */
  function Destination(client: Option<Clients.ClientConfig>, redirectUri: Option<string>, token: string,
                       formEncode: string -> string): Effect
  {
    if Truthy(redirectUri) && client.Some? && redirectUri.value in client.value.allowedRedirectUrls
    then Assign(BearerRedirect(redirectUri.value, token, formEncode))
    else Push(Or(if client.Some? then Some(client.value.applicationUrl) else None, "/dashboard"))
  }

  /** `onSubmit`: loading on, mutation, then login and navigation on a token, loading off in every case. */
  function OnSubmit(email: string, password: string, clientId: string, redirectUri: Option<string>,
                    client: Option<Clients.ClientConfig>, result: MutationResult, formEncode: string -> string)
    : seq<Effect>
  {
    [SetLoading(true), Call(LoginMutation(email, password, clientId))] +
    AfterLogin(redirectUri, client, result, formEncode) +
    [SetLoading(false)]
  }

  /** What follows the mutation: login and navigation on a token, nothing otherwise. */
  function AfterLogin(redirectUri: Option<string>, client: Option<Clients.ClientConfig>, result: MutationResult,
                      formEncode: string -> string): seq<Effect>
  {
    match result
    case Threw(_) => []
    case Returned(token, refreshToken) =>
      if Truthy(token) then [Login(token.value, refreshToken), Destination(client, redirectUri, token.value, formEncode)]
      else []
  }

  /**
   * On a token the login comes before the only navigation, which hands the
   * token over exactly when redirect_uri is listed verbatim; otherwise the
   * application URL, or /dashboard when that is empty or there is no tenant.
   */
  lemma SubmitWithToken(email: string, password: string, clientId: string, redirectUri: Option<string>,
                        client: Option<Clients.ClientConfig>, token: string, refreshToken: Option<string>,
                        formEncode: string -> string)
    requires token != ""
    ensures var trace := OnSubmit(email, password, clientId, redirectUri, client, Returned(Some(token), refreshToken), formEncode);
      && trace == [SetLoading(true), Call(LoginMutation(email, password, clientId)), Login(token, refreshToken),
                   trace[3], SetLoading(false)]
      && trace[3].IsNavigation()
      && (trace[3].Assign? <==> Truthy(redirectUri) && client.Some? && redirectUri.value in client.value.allowedRedirectUrls)
      && (trace[3].Assign? ==> trace[3].href == BearerRedirect(redirectUri.value, token, formEncode))
      && (trace[3].Push? ==>
            trace[3].path == if client.Some? && client.value.applicationUrl != "" then client.value.applicationUrl else "/dashboard")
  {
  }

  /** Without a token, or when the mutation throws, nobody is logged in and nothing navigates. */
  lemma SubmitWithoutToken(email: string, password: string, clientId: string, redirectUri: Option<string>,
                           client: Option<Clients.ClientConfig>, result: MutationResult, formEncode: string -> string)
    requires result.Threw? || !Truthy(result.token)
    ensures var trace := OnSubmit(email, password, clientId, redirectUri, client, result, formEncode);
      trace == [SetLoading(true), Call(LoginMutation(email, password, clientId)), SetLoading(false)]
      && NoLogin(trace) && NoNavigation(trace)
  {
  }

  /** Every submission is well ordered and ends with the loading flag cleared. */
  lemma SubmitIsWellOrdered(email: string, password: string, clientId: string, redirectUri: Option<string>,
                            client: Option<Clients.ClientConfig>, result: MutationResult, formEncode: string -> string)
    ensures var trace := OnSubmit(email, password, clientId, redirectUri, client, result, formEncode);
      WellOrdered(trace) && trace[|trace| - 1] == SetLoading(false)
  {
    SubmitTraceIsWellOrdered(LoginMutation(email, password, clientId), AfterLogin(redirectUri, client, result, formEncode));
  }
}
