/**
 * The registration page of a dapp: it renders only when the dapp lookup
 * yields something, and its submit handler calls the register mutation,
 * stores the token and either hands the token to an allow-listed redirect or
 * opens /dashboard.
 */
module RegisterPage {
  import opened Wrappers
  import opened Web
  import opened Effects
  import Dapps

  /** The dapp: `dapp_id` query parameter, then environment, then "default". */
  function ResolveDappId(query: map<string, string>, envDappId: Option<string>): string
  {
    Or(Get(query, "dapp_id"), Or(envDappId, "default"))
  }

  /**
   * The page renders when the lookup yields something (`dapp` truthy) and is
   * empty (null) otherwise; an inherited member renders the form too.
   */
  function Page(query: map<string, string>, envDappId: Option<string>, envAppUrl: Option<string>)
    : (r: Option<Dapps.Entry>)
    ensures var id := ResolveDappId(query, envDappId);
      r.Some? <==> id == Dapps.DEFAULT_DAPP_ID || id == Dapps.POLYVERSITY_DAPP_ID || id in Dapps.INHERITED_NAMES
  {
    Dapps.GetDapp(ResolveDappId(query, envDappId), envAppUrl)
  }

  /** With neither query parameter nor environment variable the fallback "default" finds no dapp: the page is empty. */
  lemma NoConfigurationRendersNothing(query: map<string, string>, envAppUrl: Option<string>)
    requires !Truthy(Get(query, "dapp_id"))
    ensures Page(query, None, envAppUrl).None?
  {
  }

  /**
   * Where a registered user goes: `?token=` appended raw on a verbatim match,
   * else /dashboard. `None` when evaluating the guard throws: a non-empty
   * redirect_uri with an inherited member, whose `allowedRedirectUrls` is
   * missing; the handler catches it and does not navigate.
   */
  function Destination(dapp: Option<Dapps.Entry>, redirectUri: Option<string>, token: string): Option<Effect>
  {
    if !Truthy(redirectUri) || dapp.None? then Some(Push("/dashboard"))
    else if dapp.value.Inherited? then None
    else if redirectUri.value in dapp.value.config.allowedRedirectUrls then Some(Assign(redirectUri.value + "?token=" + token))
    else Some(Push("/dashboard"))
  }

  /** `onSubmit`: loading on, mutation, then login and navigation on a token, loading off in every case. */
  function OnSubmit(name: string, email: string, password: string, dappId: string, redirectUri: Option<string>,
                    dapp: Option<Dapps.Entry>, result: MutationResult): seq<Effect>
  {
    [SetLoading(true), Call(RegisterMutation(name, email, password, dappId))] +
    AfterRegister(redirectUri, dapp, result) +
    [SetLoading(false)]
  }

  /**
   * What follows the mutation: on a token, login with the access token only
   * and then the navigation, unless choosing it threw; nothing otherwise.
   */
  function AfterRegister(redirectUri: Option<string>, dapp: Option<Dapps.Entry>, result: MutationResult): seq<Effect>
  {
    match result
    case Threw(_) => []
    case Returned(token, _) =>
      if Truthy(token) then
        var destination := Destination(dapp, redirectUri, token.value);
        [Login(token.value, None)] + (if destination.Some? then [destination.value] else [])
      else []
  }

  /**
   * On a token the login comes first. The token is handed over as `token`
   * exactly when redirect_uri is listed verbatim for a configured dapp; with
   * a non-empty redirect_uri and an inherited member the guard throws after
   * the login and nothing navigates; otherwise the user goes to /dashboard.
   */
  lemma SubmitWithToken(name: string, email: string, password: string, dappId: string, redirectUri: Option<string>,
                        dapp: Option<Dapps.Entry>, token: string, refreshToken: Option<string>)
    requires token != ""
    ensures var trace := OnSubmit(name, email, password, dappId, redirectUri, dapp, Returned(Some(token), refreshToken));
      var head := [SetLoading(true), Call(RegisterMutation(name, email, password, dappId)), Login(token, None)];
      var listed := Truthy(redirectUri) && dapp.Some? && dapp.value.Config? &&
                    redirectUri.value in dapp.value.config.allowedRedirectUrls;
      var throws := Truthy(redirectUri) && dapp.Some? && dapp.value.Inherited?;
      && (listed ==> trace == head + [Assign(redirectUri.value + "?token=" + token), SetLoading(false)])
      && (throws ==> trace == head + [SetLoading(false)] && NoNavigation(trace))
      && (!listed && !throws ==> trace == head + [Push("/dashboard"), SetLoading(false)])
  {
    var trace := OnSubmit(name, email, password, dappId, redirectUri, dapp, Returned(Some(token), refreshToken));
    if Truthy(redirectUri) && dapp.Some? && dapp.value.Inherited? {
      assert trace == [SetLoading(true), Call(RegisterMutation(name, email, password, dappId)), Login(token, None),
                       SetLoading(false)];
    }
  }

  /** Without a token, or when the mutation throws, nobody is logged in and nothing navigates. */
  lemma SubmitWithoutToken(name: string, email: string, password: string, dappId: string, redirectUri: Option<string>,
                           dapp: Option<Dapps.Entry>, result: MutationResult)
    requires result.Threw? || !Truthy(result.token)
    ensures var trace := OnSubmit(name, email, password, dappId, redirectUri, dapp, result);
      NoLogin(trace) && NoNavigation(trace) && |trace| == 3
  {
  }

  /** Every submission is well ordered and ends with the loading flag cleared. */
  lemma SubmitIsWellOrdered(name: string, email: string, password: string, dappId: string, redirectUri: Option<string>,
                            dapp: Option<Dapps.Entry>, result: MutationResult)
    ensures var trace := OnSubmit(name, email, password, dappId, redirectUri, dapp, result);
      WellOrdered(trace) && trace[|trace| - 1] == SetLoading(false)
  {
    SubmitTraceIsWellOrdered(RegisterMutation(name, email, password, dappId), AfterRegister(redirectUri, dapp, result));
  }
}
