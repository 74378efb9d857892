/**
 * The client-side session: the two cookies the application reads and
 * writes. Their signing and verification is taken as trusted, so a cookie
 * the client sends back is the value the server last set under that name.
 */
module Cookies {
  import opened Wrappers

  const AccessTokenCookie: string := "access_token"
  const DatastoreCookie: string := "datastore"

  /** The cookies a request carries: the bearer token and the enabled repository. */
  datatype Jar = Jar(accessToken: Option<string>, datastore: Option<string>)

  /** A client that has never been served a cookie. */
  const EmptyJar: Jar := Jar(None, None)

  /**
   * `request.get_cookie(name)`: the value sent under `name`, if any. Only the
   * two cookies the application sets are ever carried.
   */
  function GetCookie(jar: Jar, name: string): (value: Option<string>)
    ensures value.Some? ==> name == AccessTokenCookie || name == DatastoreCookie
  {
    if name == AccessTokenCookie then jar.accessToken
    else if name == DatastoreCookie then jar.datastore
    else None
  }

  /** The value a handler uses for the enabled repository: the `datastore` cookie, or "". */
  function ReposEnabled(jar: Jar): (enabled: string)
    ensures GetCookie(jar, DatastoreCookie).Some? ==> enabled == GetCookie(jar, DatastoreCookie).value
    ensures GetCookie(jar, DatastoreCookie).None? ==> enabled == ""
  {
    jar.datastore.GetOr("")
  }

  /**
   * The jar the client holds after a response that sets `cookies` (keyed by
   * name, as the response keeps them): a cookie the response sets reads back
   * as the value just set, and a cookie it does not set keeps its value.
   */
  function Store(jar: Jar, cookies: map<string, string>): (next: Jar)
    ensures forall name | name in cookies && (name == AccessTokenCookie || name == DatastoreCookie) ::
      GetCookie(next, name) == Some(cookies[name])
    ensures AccessTokenCookie !in cookies ==> next.accessToken == jar.accessToken
    ensures DatastoreCookie !in cookies ==> next.datastore == jar.datastore
  {
    Jar(if AccessTokenCookie in cookies then Some(cookies[AccessTokenCookie]) else jar.accessToken,
        if DatastoreCookie in cookies then Some(cookies[DatastoreCookie]) else jar.datastore)
  }

  /** Receiving the same cookies twice leaves the jar as receiving them once. */
  lemma StoreIdempotent(jar: Jar, cookies: map<string, string>)
    ensures Store(Store(jar, cookies), cookies) == Store(jar, cookies)
  {
  }
}
