/**
 * Browser and framework primitives the gateway relies on, reduced to what the
 * decisions depend on: parsed URLs, JavaScript truthiness of optional strings,
 * lookups in header/query/cookie maps, and the bearer-token hand-off URL.
 */
module Web {
  import opened Wrappers

  /** What `new URL(s)` exposes that the redirect check uses. */
  datatype ParsedUrl = ParsedUrl(origin: string, pathname: string)

  /** `new URL(s)`: `None` when the constructor throws (relative or malformed input). */
  type UrlParser = string -> Option<ParsedUrl>

  /** The two authentication methods a tenant may enable. */
  datatype AuthMethod = Credentials | Google

  /** A `string | null | undefined` is truthy exactly when it is a non-empty string. */
  predicate Truthy(v: Option<string>)
  {
    v.Some? && v.value != ""
  }

  /** JavaScript `v || fallback` on an optional string. */
  function Or(v: Option<string>, fallback: string): (r: string)
    ensures Truthy(v) ==> r == v.value
    ensures !Truthy(v) ==> r == fallback
    ensures r == fallback || Truthy(Some(r))
  {
    if v.Some? && v.value != "" then v.value else fallback
  }

  /** `headers.get(k)`, `searchParams.get(k)`, `cookies.get(k)?.value`: absent keys give null. */
  function Get(m: map<string, string>, k: string): (r: Option<string>)
    ensures r.Some? <==> k in m
    ensures r.Some? ==> r.value == m[k]
  {
    if k in m then Some(m[k]) else None
  }

  /**
   * `${uri}?${new URLSearchParams({access_token: token, token_type: "Bearer"})}`.
   * `formEncode` is the form-urlencoding URLSearchParams applies to a value;
   * "Bearer" is left unchanged by it.
   */
  function BearerRedirect(uri: string, token: string, formEncode: string -> string): (href: string)
    ensures uri <= href
    ensures href[|uri|..] == "?access_token=" + formEncode(token) + "&token_type=Bearer"
  {
    uri + "?access_token=" + formEncode(token) + "&token_type=Bearer"
  }
}
