/**
 * What a sign-in page handler does, as an ordered trace: the GraphQL mutation
 * it awaits, `login` (which stores the token), `router.push` or an assignment
 * to `window.location.href`, and the page's loading/processing flags. The
 * mutation's outcome is an input, consulted only on the paths that call it.
 */
module Effects {
  import opened Wrappers

  /** The mutation called, with its variables. */
  datatype Mutation =
    | GoogleCallback(code: string, state: string, clientId: string)
    | GoogleAuthCallback(code: string, dappId: string)
    | LoginMutation(email: string, password: string, clientId: string)
    | RegisterMutation(name: string, email: string, password: string, dappId: string)
    | RegisterInput(name: string, email: string, password: string)

  /**
   * What awaiting the mutation produced: a thrown value (with its message when
   * it is an `Error`), or data whose token and refresh token may be missing.
   */
  datatype MutationResult =
    | Threw(message: Option<string>)
    | Returned(token: Option<string>, refreshToken: Option<string>)

  datatype Effect =
    | Call(mutation: Mutation)
    | Login(token: string, refreshToken: Option<string>)
    | Push(path: string)
    | Assign(href: string)
    | SetLoading(on: bool)
    | SetProcessing(on: bool)
  {
    predicate IsNavigation()
    {
      Push? || Assign?
    }
  }

  /**
   * The order the handlers promise: at most one navigation, no login after
   * it, and every login preceded by a mutation call.
   */
  ghost predicate WellOrdered(trace: seq<Effect>)
  {
    && (forall i, j :: 0 <= i < j < |trace| && trace[i].IsNavigation() ==> !trace[j].IsNavigation() && !trace[j].Login?)
    && (forall j :: 0 <= j < |trace| && trace[j].Login? ==> exists i :: 0 <= i < j && trace[i].Call?)
  }

  /** No mutation was called. */
  predicate NoCall(trace: seq<Effect>)
  {
    forall i :: 0 <= i < |trace| ==> !trace[i].Call?
  }

  /** No login happened. */
  predicate NoLogin(trace: seq<Effect>)
  {
    forall i :: 0 <= i < |trace| ==> !trace[i].Login?
  }

  /** No navigation happened. */
  predicate NoNavigation(trace: seq<Effect>)
  {
    forall i :: 0 <= i < |trace| ==> !trace[i].IsNavigation()
  }

  /**
   * The shape of a submit handler: loading on, the mutation, then nothing, a
   * login alone, or a login followed by one navigation, and loading off.
   * Every such trace is well ordered and ends with loading cleared.
   */
  lemma SubmitTraceIsWellOrdered(m: Mutation, outcome: seq<Effect>)
    requires || outcome == []
             || (|outcome| == 1 && outcome[0].Login?)
             || (|outcome| == 2 && outcome[0].Login? && outcome[1].IsNavigation())
    ensures var trace := [SetLoading(true), Call(m)] + outcome + [SetLoading(false)];
      WellOrdered(trace) && trace[|trace| - 1] == SetLoading(false)
  {
    var trace := [SetLoading(true), Call(m)] + outcome + [SetLoading(false)];
    assert trace[1].Call?;
  }
}
