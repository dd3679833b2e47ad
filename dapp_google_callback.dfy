/**
 * Completion of the Google sign-in for a dapp: the dapp id travels in the
 * OAuth `state` parameter; the code is exchanged, the token stored and the
 * user sent to /dashboard, or back to /auth/login on any failure.
 */
module DappGoogleCallback {
  import opened Wrappers
  import opened Web
  import opened Effects
  import Dapps

  /** The dapp: the `state` query parameter, then environment, then "default". */
  function ResolveDappId(query: map<string, string>, envDappId: Option<string>): string
  {
    Or(Get(query, "state"), Or(envDappId, "default"))
  }

  /**
   * `handleCallback`. The early exit for a missing code or unknown dapp lies
   * before the try/finally, so only the paths that call the exchange clear
   * the processing flag (which starts set).
   */
  function HandleCallback(query: map<string, string>, envDappId: Option<string>, envAppUrl: Option<string>,
                          result: MutationResult): seq<Effect>
  {
    var code := Get(query, "code");
    var dappId := ResolveDappId(query, envDappId);
    var dapp := Dapps.GetDapp(dappId, envAppUrl);
    if !Truthy(code) || dapp.None? then [Push("/auth/login")]
    else
      var outcome :=
        if result.Returned? && Truthy(result.token) then [Login(result.token.value, None), Push("/dashboard")]
        else [Push("/auth/login")];
      [Call(GoogleAuthCallback(code.value, dappId))] + outcome + [SetProcessing(false)]
  }

  /** A missing code or an unknown dapp goes back to /auth/login without calling the exchange. */
  lemma EarlyExit(query: map<string, string>, envDappId: Option<string>, envAppUrl: Option<string>, result: MutationResult)
    requires !Truthy(Get(query, "code")) || Dapps.GetDapp(ResolveDappId(query, envDappId), envAppUrl).None?
    ensures var trace := HandleCallback(query, envDappId, envAppUrl, result);
      trace == [Push("/auth/login")] && NoCall(trace) && NoLogin(trace)
  {
  }

  /**
   * Without a `state` parameter or environment variable the fallback id
   * "default" names no dapp, so the callback never exchanges the code.
   */
  lemma DefaultFallbackNeverExchanges(query: map<string, string>, envAppUrl: Option<string>, result: MutationResult)
    requires !Truthy(Get(query, "state"))
    ensures NoCall(HandleCallback(query, None, envAppUrl, result))
  {
    Dapps.DefaultFallbackResolvesNothing(envAppUrl);
  }

  /** A code for a known dapp is exchanged; a token logs the user in and opens /dashboard, and the flag is cleared. */
  lemma ExchangeOutcomes(query: map<string, string>, envDappId: Option<string>, envAppUrl: Option<string>,
                         result: MutationResult)
    requires Truthy(Get(query, "code")) && Dapps.GetDapp(ResolveDappId(query, envDappId), envAppUrl).Some?
    ensures var trace := HandleCallback(query, envDappId, envAppUrl, result);
      && trace[0] == Call(GoogleAuthCallback(query["code"], ResolveDappId(query, envDappId)))
      && trace[|trace| - 1] == SetProcessing(false)
      && (result.Returned? && Truthy(result.token) ==>
            trace == [trace[0], Login(result.token.value, None), Push("/dashboard"), SetProcessing(false)])
      && (!(result.Returned? && Truthy(result.token)) ==>
            trace == [trace[0], Push("/auth/login"), SetProcessing(false)] && NoLogin(trace))
  {
  }

  /** The page renders its progress view only for a code and a known dapp (otherwise `null`). */
  predicate Renders(query: map<string, string>, envDappId: Option<string>, envAppUrl: Option<string>)
  {
    Truthy(Get(query, "code")) && Dapps.GetDapp(ResolveDappId(query, envDappId), envAppUrl).Some?
  }

  /** The page shows its progress view exactly when the handler calls the exchange. */
  lemma RendersIffExchanges(query: map<string, string>, envDappId: Option<string>, envAppUrl: Option<string>,
                            result: MutationResult)
    ensures Renders(query, envDappId, envAppUrl) <==> !NoCall(HandleCallback(query, envDappId, envAppUrl, result))
  {
    var trace := HandleCallback(query, envDappId, envAppUrl, result);
    if Renders(query, envDappId, envAppUrl) {
      assert trace[0].Call?;
    }
  }

  /**
   * An inherited `Object.prototype` name in `state` (such as "constructor")
   * is a truthy lookup result: the page renders and the code is exchanged
   * under that id.
   */
  lemma InheritedStateIsExchanged(query: map<string, string>, envDappId: Option<string>, envAppUrl: Option<string>,
                                  result: MutationResult)
    requires Truthy(Get(query, "code")) && Truthy(Get(query, "state"))
    requires query["state"] in Dapps.INHERITED_NAMES
    ensures Renders(query, envDappId, envAppUrl)
    ensures HandleCallback(query, envDappId, envAppUrl, result)[0] == Call(GoogleAuthCallback(query["code"], query["state"]))
  {
  }

  /** Every run is well ordered. */
  lemma HandlerIsWellOrdered(query: map<string, string>, envDappId: Option<string>, envAppUrl: Option<string>,
                             result: MutationResult)
    ensures WellOrdered(HandleCallback(query, envDappId, envAppUrl, result))
  {
    var trace := HandleCallback(query, envDappId, envAppUrl, result);
    if |trace| > 1 {
      assert trace[0].Call?;
    }
  }
}
