/**
 * The static directory of decentralised applications ("dapps"): two fixed
 * configurations keyed by UUID in a plain object, a lookup (which also finds
 * the members every object inherits), and an exact-match redirect check.
 */
module Dapps {
  import opened Wrappers
  import opened Web

  const DEFAULT_DAPP_ID: string := "0a696f34-1d5e-4cd3-9ede-d06c76cde1fa"
  const POLYVERSITY_DAPP_ID: string := "716cef84-51de-4735-8102-f5c76b71b7cf"

  /** A dapp's configuration without its presentation theme. */
  datatype DappConfig = DappConfig(
    dappId: string,
    name: string,
    applicationUrl: string,
    allowedRedirectUrls: seq<string>,
    authMethods: seq<AuthMethod>)

  /** `dappConfigs`; both application URLs come from one optional environment variable. */
  function DappConfigs(envAppUrl: Option<string>): map<string, DappConfig>
  {
    map[
      DEFAULT_DAPP_ID := DappConfig(
        DEFAULT_DAPP_ID, "Default Application", Or(envAppUrl, "http://localhost:3000"),
        ["/dashboard", "/profile"], [Credentials, Google]),
      POLYVERSITY_DAPP_ID := DappConfig(
        POLYVERSITY_DAPP_ID, "Polyversity", Or(envAppUrl, "http://localhost:3000"),
        ["http://localhost:3001", "http://localhost:3001/dashboard",
         "http://localhost:3001/profile", "http://localhost:3001/courses"],
        [Credentials, Google])
    ]
  }

  /**
   * The names every plain object inherits from `Object.prototype`. The
   * directory is an object literal indexed with the raw id, so each of these
   * ids yields an inherited member (a function, or the prototype itself for
   * `__proto__`): truthy, but without any configuration field.
   */
  const INHERITED_NAMES: set<string> := {
    "constructor", "__proto__", "hasOwnProperty", "isPrototypeOf", "propertyIsEnumerable",
    "toLocaleString", "toString", "valueOf",
    "__defineGetter__", "__defineSetter__", "__lookupGetter__", "__lookupSetter__"
  }

  /** What indexing the directory yields when it yields something. */
  datatype Entry =
    | Config(config: DappConfig)  // one of the two configurations
    | Inherited(name: string)     // an `Object.prototype` member: truthy, no fields

  /**
   * `getDapp`: a configuration exactly for the two known ids, which names that
   * id; an inherited member exactly for the inherited names; otherwise nothing.
   */
  function GetDapp(dappId: string, envAppUrl: Option<string>): (r: Option<Entry>)
    ensures r.Some? <==> dappId == DEFAULT_DAPP_ID || dappId == POLYVERSITY_DAPP_ID || dappId in INHERITED_NAMES
    ensures (r.Some? && r.value.Config?) <==> dappId == DEFAULT_DAPP_ID || dappId == POLYVERSITY_DAPP_ID
    ensures r.Some? && r.value.Config? ==> r.value.config.dappId == dappId
  {
    var configs := DappConfigs(envAppUrl);
    if dappId in configs then Some(Config(configs[dappId]))
    else if dappId in INHERITED_NAMES then Some(Inherited(dappId))
    else None
  }

  /** The value of an expression that may throw a `TypeError`. */
  datatype Checked = Returns(ok: bool) | ThrowsTypeError

  /**
   * `validateRedirectUrl`: false for an unknown id; for a configuration, true
   * iff it lists the URL verbatim (no prefix or origin matching); for an
   * inherited member, reading `.includes` of its missing `allowedRedirectUrls`
   * throws.
   */
  function ValidateRedirectUrl(dappId: string, redirectUrl: string, envAppUrl: Option<string>): (r: Checked)
    ensures r.ThrowsTypeError? <==> dappId in INHERITED_NAMES
    ensures r == Returns(true) <==> (GetDapp(dappId, envAppUrl).Some? && GetDapp(dappId, envAppUrl).value.Config? &&
      exists i :: 0 <= i < |GetDapp(dappId, envAppUrl).value.config.allowedRedirectUrls| &&
        GetDapp(dappId, envAppUrl).value.config.allowedRedirectUrls[i] == redirectUrl)
  {
    match GetDapp(dappId, envAppUrl)
    case None => Returns(false)
    case Some(Config(dapp)) => Returns(redirectUrl in dapp.allowedRedirectUrls)
    case Some(Inherited(_)) => ThrowsTypeError
  }

  /**
   * Matching is exact: a path below a listed Polyversity URL is refused while
   * the listed URL itself is accepted, and the default dapp's relative entries
   * match only themselves.
   */
  lemma ExactMatchOnly(envAppUrl: Option<string>)
    ensures ValidateRedirectUrl(POLYVERSITY_DAPP_ID, "http://localhost:3001/courses", envAppUrl) == Returns(true)
    ensures ValidateRedirectUrl(POLYVERSITY_DAPP_ID, "http://localhost:3001/courses/1", envAppUrl) == Returns(false)
    ensures forall u :: ValidateRedirectUrl(DEFAULT_DAPP_ID, u, envAppUrl) == Returns(true) <==> u == "/dashboard" || u == "/profile"
  {
    var urls := GetDapp(POLYVERSITY_DAPP_ID, envAppUrl).value.config.allowedRedirectUrls;
    assert urls[3] == "http://localhost:3001/courses";
  }

  /** The pages' last-resort id "default" is neither a key of the directory nor inherited: it resolves to nothing. */
  lemma DefaultFallbackResolvesNothing(envAppUrl: Option<string>)
    ensures GetDapp("default", envAppUrl).None?
  {
  }
}
