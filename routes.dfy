/**
 * The four routes of the application, each a handler that reads the
 * request's cookies and parameters, may call the OAuth provider or the
 * repository listing, and builds the response, setting cookies on it.
 * `Handle` dispatches a request and gives the client's jar afterwards.
 */
module Routes {
  import opened Wrappers
  import opened RepoList
  import opened Whitespace
  import opened Cookies
  import opened Http

  /** A request parameter: a string, or any other kind of value (number, file, list, map). */
  datatype Value = Text(s: string) | Other

  type Params = map<string, Value>

  /** Why a handler panics: an `unwrap` on a missing value or an error, or the explicit `panic!`. */
  datatype Failure =
    | UnparsedParams   // the request's parameters could not be read
    | MissingCode      // `/callback` without a `code` parameter
    | NoOAuthCode      // `/callback` whose `code` is not a string
    | AuthUriFailed    // the provider could not build its authorization URL
    | TokenFailed      // the provider refused the code, or the exchange failed
    | ListingFailed    // the repository listing failed

  /** A handler either answers or panics; a panic sets no cookie. */
  datatype Outcome = Respond(response: Response) | Panic(failure: Failure)

  /**
   * The provider's side, opaque: the authorization URL for a scope list, the
   * token for an authorization code, and the repositories an access token
   * can list.
   */
  datatype Provider = Provider(
    authUri: string -> Option<string>,
    requestToken: string -> Option<string>,
    listRepos: string -> Option<seq<Repo>>)

  /** The scopes requested at authorization. */
  const Scopes: string := "write:repo_hook,public_repo"

  datatype Request =
    | GetHome
    | GetOAuth
    | GetCallback(params: Option<Params>)
    | GetRepos
    | PostEnablement(params: Option<Params>)

  /** The value `/enablement` stores: the `repo` parameter when it is a string, else "". */
  function RepoParam(params: Params): (value: string)
    ensures "repo" in params && params["repo"].Text? ==> value == params["repo"].s
    ensures !("repo" in params && params["repo"].Text?) ==> value == ""
  {
    if "repo" in params && params["repo"].Text? then params["repo"].s else ""
  }

  /** `GET /`: the home page, whatever the cookies; nothing is set. */
  method Home(jar: Jar) returns (response: Response)
    ensures fresh(response)
    ensures response.status == Ok && response.location == None && response.body == HomePage
    ensures response.cookies == map[]
  {
    var reposEnabled := ReposEnabled(jar);  // only logged
    response := new Response(Ok, HomePage);
  }

  /** `GET /oauth`: a redirect to the provider's authorization URL for `Scopes`. */
  method OAuth(provider: Provider) returns (out: Outcome)
    ensures provider.authUri(Scopes).None? ==> out == Panic(AuthUriFailed)
    ensures provider.authUri(Scopes).Some? ==>
      out.Respond? && fresh(out.response) &&
      out.response.IsRedirectTo(provider.authUri(Scopes).value) && out.response.cookies == map[]
  {
    var authUri := provider.authUri(Scopes);
    if authUri.None? {
      return Panic(AuthUriFailed);
    }
    var response := new Response.Redirect(authUri.value);
    out := Respond(response);
  }

  /**
   * `GET /callback`: the `code` parameter, trimmed, is exchanged for a token,
   * which is set as the `access_token` cookie on a redirect to `/repos`.
   */
  method Callback(params: Option<Params>, provider: Provider) returns (out: Outcome)
    ensures params.None? ==> out == Panic(UnparsedParams)
    ensures params.Some? && "code" !in params.value ==> out == Panic(MissingCode)
    ensures params.Some? && "code" in params.value && !params.value["code"].Text? ==>
      out == Panic(NoOAuthCode)
    ensures params.Some? && "code" in params.value && params.value["code"].Text? ==>
      var token := provider.requestToken(Trim(params.value["code"].s));
      (token.None? ==> out == Panic(TokenFailed)) &&
      (token.Some? ==>
        out.Respond? && fresh(out.response) && out.response.IsRedirectTo("/repos") &&
        out.response.cookies == map[AccessTokenCookie := token.value])
  {
    if params.None? {
      return Panic(UnparsedParams);
    }
    if "code" !in params.value {
      return Panic(MissingCode);
    }
    var code;
    match params.value["code"] {
      case Text(value) => code := value;
      case Other => return Panic(NoOAuthCode);
    }
    var bearerToken := provider.requestToken(Trim(code));
    if bearerToken.None? {
      return Panic(TokenFailed);
    }
    var response := new Response.Redirect("/repos");
    response.SetCookie(AccessTokenCookie, bearerToken.value);
    out := Respond(response);
  }

  /** The answer to a request for `/repos` without a token: back to `/`. */
  method NotLoggedIn() returns (response: Response)
    ensures fresh(response) && response.IsRedirectTo("/") && response.cookies == map[]
  {
    response := new Response.Redirect("/");
  }

  /**
   * `GET /repos`: without an `access_token` cookie, a redirect to `/` and no
   * listing; otherwise the listing for that token rendered through `View`,
   * against the `datastore` cookie or "" when it is absent. No cookie is set.
   */
  method Repos(jar: Jar, provider: Provider) returns (out: Outcome)
    ensures jar.accessToken.None? ==>
      out.Respond? && fresh(out.response) && out.response.IsRedirectTo("/") &&
      out.response.cookies == map[]
    ensures jar.accessToken.Some? ==>
      var listing := provider.listRepos(jar.accessToken.value);
      (listing.None? ==> out == Panic(ListingFailed)) &&
      (listing.Some? ==>
        out.Respond? && fresh(out.response) &&
        out.response.status == Ok && out.response.location == None &&
        out.response.body == ReposTemplate(View(listing.value, ReposEnabled(jar))) &&
        out.response.cookies == map[])
  {
    if jar.accessToken.None? {
      var response := NotLoggedIn();
      return Respond(response);
    }
    var accessToken := jar.accessToken.value;
    var reposEnabled := ReposEnabled(jar);
    var repos := provider.listRepos(accessToken);
    if repos.None? {
      return Panic(ListingFailed);
    }
    var repoData := View(repos.value, reposEnabled);
    var response := new Response(Ok, ReposTemplate(repoData));
    out := Respond(response);
  }

  /**
   * `POST /enablement`: the `datastore` cookie is set to the `repo`
   * parameter when it is a string and to "" otherwise.
   */
  method Enablement(params: Option<Params>) returns (out: Outcome)
    ensures params.None? ==> out == Panic(UnparsedParams)
    ensures params.Some? ==>
      out.Respond? && fresh(out.response) &&
      out.response.status == Ok && out.response.location == None &&
      out.response.body == EnabledPage &&
      out.response.cookies == map[DatastoreCookie := RepoParam(params.value)]
  {
    if params.None? {
      return Panic(UnparsedParams);
    }
    var paramValue := "";
    if "repo" in params.value {
      match params.value["repo"] {
        case Text(value) => paramValue := value;
        case Other =>
      }
    }
    var response := new Response(Ok, EnabledPage);
    response.SetCookie(DatastoreCookie, paramValue);
    out := Respond(response);
  }

  /**
   * One request from a client holding `jar`: the route's outcome, and the jar
   * the client holds afterwards. A panic leaves the jar as it was; only
   * `/callback` changes the token, to the provider's token for the trimmed
   * code, and only `/enablement` the enabled repository, to the `repo`
   * parameter or "".
   */
  method Handle(jar: Jar, request: Request, provider: Provider) returns (out: Outcome, next: Jar)
    ensures out.Panic? ==> next == jar
    ensures out.Respond? ==> fresh(out.response) && next == Store(jar, out.response.cookies)
    ensures request.GetHome? ==> out.Respond? && out.response.status == Ok && next == jar
    ensures request.GetOAuth? ==>
      (out.Panic? <==> provider.authUri(Scopes).None?) && next == jar
    ensures request.GetOAuth? && out.Respond? ==>
      out.response.IsRedirectTo(provider.authUri(Scopes).value)
    ensures request.GetRepos? ==> next == jar
    ensures request.GetRepos? && jar.accessToken.None? ==>
      out.Respond? && out.response.IsRedirectTo("/")
    ensures request.GetRepos? && jar.accessToken.Some? ==>
      (out.Panic? <==> provider.listRepos(jar.accessToken.value).None?)
    ensures request.GetRepos? && jar.accessToken.Some? && out.Respond? ==>
      out.response.status == Ok &&
      out.response.body == ReposTemplate(View(provider.listRepos(jar.accessToken.value).value, ReposEnabled(jar)))
    ensures request.GetCallback? ==>
      var p := request.params;
      if p.None? || "code" !in p.value || !p.value["code"].Text? then
        out.Panic? && next == jar
      else
        var token := provider.requestToken(Trim(p.value["code"].s));
        (token.None? ==> out.Panic? && next == jar) &&
        (token.Some? ==> out.Respond? && out.response.IsRedirectTo("/repos") &&
                         next == jar.(accessToken := token))
    ensures request.PostEnablement? ==>
      var p := request.params;
      (p.None? <==> out.Panic?) &&
      (p.None? ==> next == jar) &&
      (p.Some? ==> next == jar.(datastore := Some(RepoParam(p.value))))
    ensures request.PostEnablement? && out.Respond? ==>
      out.response.status == Ok && out.response.body == EnabledPage
  {
    match request {
      case GetHome =>
        var response := Home(jar);
        out := Respond(response);
      case GetOAuth =>
        out := OAuth(provider);
      case GetCallback(params) =>
        out := Callback(params, provider);
      case GetRepos =>
        out := Repos(jar, provider);
      case PostEnablement(params) =>
        out := Enablement(params);
    }
    next := if out.Respond? then Store(jar, out.response.cookies) else jar;
  }
}
