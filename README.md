# eeyore: session and repository-list model

eeyore is a small Iron web application. A user signs in with GitHub through
the OAuth 2.0 authorization-code grant (section 4.1 of RFC 6749), sees the
first page of their repositories and "enables" one of them. All session state
lives in two signed cookies on the client: `access_token` (the bearer token)
and `datastore` (the full name of the enabled repository).

This project models that core in Dafny:

- `RepoList` (`repo_list.dfy`): the list that `GET /repos` hands to its
  template. The provider's repositories are cut to the first five (`Page`).
  The one whose full name equals the `datastore` cookie is dropped
  (`Unmatched`). The rest are projected to their full names (`FullNames`), in
  the provider's order. `View` composes the three. The lemmas show that the
  view is bounded, excludes the enabled name, is an order-preserving
  subsequence of the page's names, keeps every other name as often as it
  occurs, and is the whole page when nothing matches.
- `Whitespace` (`trim.dfy`): Rust's `str::trim`, which `/callback` applies to
  the authorization code before the exchange. `TrimUnique` shows that the
  contract of `Trim` determines its result.
- `Cookies` (`cookies.dfy`): the client's cookie jar, a record of two optional
  strings. `GetCookie` is the lookup `request.get_cookie` does through the
  `oven` middleware. `Store` gives the jar after a response. A cookie set by
  the response replaces the cookie of the same name, and the other cookie
  stays.
- `Http` (`http.dfy`): a `Response` class with a status, a `Location`, a body
  kind and the cookies set on it. `SetCookie` updates it in place, and the
  `Redirect` constructor is `redirect_response`.
- `Routes` (`routes.dfy`): one method per route (`Home`, `OAuth`, `Callback`,
  `Repos`, `Enablement`), plus `NotLoggedIn`. `Handle` dispatches a request
  and returns the client's jar afterwards. A panic (an `unwrap` on a missing
  value or an error, or the explicit `panic!`) is an `Outcome.Panic` with its reason, and
  it sets no cookie. The provider is an opaque `Provider` value with three
  total functions: the authorization URL for a scope list, the token for a
  code, and the repositories a token can list.
- `Scenario` (`scenario.dfy`): a sign-in with the code `"abc123 \n"`, an
  enablement of `octocat/Hello-World`, and a listing, all against a fixed
  provider.

The model follows the code as written, including where its own comments
doubt it:

- The listing drops the enabled repository; it does not mark it. The comment
  at `src/main.rs:94` itself doubts this behaviour.
- A missing or non-string `code` panics; it does not redirect.
- A failed token exchange or listing panics.
- A second `/callback` overwrites `access_token`; the token is not set once
  for good.
- Each handler sets only the one cookie it changes. The client keeps the
  other cookie.

## Model

| member | source | states |
|---|---|---|
| `RepoList.Page` | src/main.rs:92-93 | the page is a prefix of the fetched list, of length min(5, n) |
| `RepoList.Unmatched` | src/main.rs:94 | every kept repository comes from the input and has a full name different from the enabled one; nothing is added |
| `RepoList.FullNames` | src/main.rs:95-99 | one name per repository, the i-th name being the i-th repository's full name |
| `RepoList.View` | src/main.rs:92-100 | the view has at most 5 entries, no more than were fetched, and never the enabled name |
| `RepoList.UnmatchedSubsequence` | src/main.rs:94 | filtering keeps the names in order and invents none (a subsequence) |
| `RepoList.UnmatchedCounts` | src/main.rs:94 | each name other than the enabled one keeps its number of occurrences; the enabled one has none |
| `RepoList.UnmatchedLength` | src/main.rs:94 | exactly the occurrences of the enabled name are removed |
| `RepoList.UnmatchedNoMatch` | src/main.rs:94 | a filter that matches nothing returns its input |
| `RepoList.ViewSubsequence` | src/main.rs:92-100 | the view is a subsequence of the first page's names, in the same order |
| `RepoList.ViewMembers` | src/main.rs:92-100 | a name is in the view iff it is on the first page and is not the enabled name, with the same multiplicity |
| `RepoList.ViewLength` | src/main.rs:92-100 | the view's length is the page length minus the occurrences of the enabled name |
| `RepoList.ViewNoMatch` | src/main.rs:92-100 | when the enabled name is not on the first page (as with the "" of an absent cookie), the view is the first min(5, n) names |
| `Whitespace.LeadingSpace` | src/main.rs:66 | the length of the longest all-whitespace prefix |
| `Whitespace.TrailingSpace` | src/main.rs:66 | the length of the longest all-whitespace suffix |
| `Whitespace.Trim` | src/main.rs:66 | the trimmed code neither starts nor ends with whitespace, and the input is whitespace, then it, then whitespace |
| `Whitespace.TrimUnique` | src/main.rs:66 | any piece of the input with only whitespace around it and none at its ends is the trimmed code |
| `Whitespace.TrimIdempotent` | src/main.rs:66 | trimming twice equals trimming once |
| `Whitespace.TrimUnchanged` | src/main.rs:66 | a code without surrounding whitespace is exchanged as it is |
| `Cookies.ReposEnabled` | src/main.rs:80-83 | the enabled name is the `datastore` cookie's value, or "" when the cookie is absent |
| `Cookies.GetCookie` | src/main.rs:75-83 | the `oven` cookie lookup: only `access_token` and `datastore` are ever carried |
| `Cookies.Store` | src/main.rs:69-70 | the client's jar after a response, for the `access_token` cookie set here and the `datastore` cookie set at line 132: a cookie the response sets reads back as the value set, a cookie it does not set keeps its value |
| `Cookies.StoreIdempotent` | src/main.rs:132 | receiving the same cookies twice leaves the jar as receiving them once |
| `Http.Response.constructor` | src/main.rs:127-130 | a response with the given status and body, no `Location` and no cookies |
| `Http.Response.Redirect` | src/main.rs:177-181 | a 302 Found whose `Location` and body name the target, with no cookies |
| `Http.Response.SetCookie` | src/main.rs:132 | the named cookie is set to the value, replacing any earlier one; nothing else changes |
| `Routes.Home` | src/main.rs:38-50 | `GET /` always answers 200 OK with the home page and sets no cookie |
| `Routes.OAuth` | src/main.rs:52-56 | redirects to the provider's authorization URL for the scopes "write:repo_hook,public_repo"; panics if there is none |
| `Routes.Callback` | src/main.rs:58-72 | panics without readable params, without `code`, or with a non-string `code`; otherwise exchanges the trimmed code, panics if that fails, and else redirects to `/repos` setting only `access_token` to the token |
| `Routes.NotLoggedIn` | src/main.rs:171-175 | a redirect to `/` that sets no cookie |
| `Routes.Repos` | src/main.rs:74-107 | without `access_token`, redirects to `/` and sets no cookie; otherwise lists with that token (panicking if the listing fails) and renders `View` of the listing against the `datastore` cookie or "", setting no cookie |
| `Routes.Enablement` | src/main.rs:109-135 | panics without readable params; otherwise answers 200 OK and sets only `datastore`, to the `repo` param when it is a string and to "" otherwise |
| `Routes.Handle` | src/main.rs:37-135 | per route: `GET /` answers 200 OK and keeps the jar; `/oauth` panics exactly when there is no authorization URL, otherwise redirects to it, and keeps the jar; `/repos` keeps the jar, redirects to `/` without a token, panics exactly when the listing fails, and otherwise answers 200 OK rendering `View` of the listing against the `datastore` value or ""; `/callback` panics on unreadable, missing or non-string `code` or a failed exchange, and otherwise redirects to `/repos` with `access_token` set to the provider's token for the trimmed code; `/enablement` panics exactly on unreadable params and otherwise answers 200 OK with the enabled page and sets `datastore` to the `repo` param or "", keeping `access_token` |
| `Routes.RepoParam` | src/main.rs:113-121 | the value stored by `/enablement` is the `repo` param when it is a string, and "" when it is missing or not a string |
| `Scenario.TrimmedCode` | src/main.rs:66 | "abc123 \n" is exchanged as "abc123" |
| `Scenario.ListingWithoutEnabled` | src/main.rs:94 | with "octocat/Hello-World" enabled, the page [Hello-World, Spoon-Knife] lists only "octocat/Spoon-Knife" |
| `Scenario.EnableTwice` | src/main.rs:109-135 | posting the same enablement twice gives the same jar as posting it once, with `access_token` untouched and `datastore` the `repo` param or "" |
| `Scenario.SignInEnableAndList` | src/main.rs:58-107 | sign-in yields the jar (tok_1, none); enabling yields (tok_1, octocat/Hello-World); the listing is ["octocat/Spoon-Knife"] |

## Left out

- Cookie signing and verification (the `oven` middleware, `src/main.rs:139`) are not modelled. The jar is trusted: a cookie the client sends back is the value last set.
- Cookie attributes (path, expiry) are not modelled. `Cookies.Store` models only the client replacing a cookie of the same name.
- The provider's network calls are not modelled: `auth_uri`, `request_token` and the hubcaps listing in `authorized_repos` (`src/main.rs:54`, `66`, `160-169`). They are the three opaque functions of `Routes.Provider`. A failure is `None`, and the handler's `unwrap` then panics.
- A hubcaps repository record is reduced to its full name (`RepoList.Repo`).
- In the template data, each one-key map `{"full_name": name}` and the outer `{"repos": list}` map are represented by the list of names in `Http.Body.ReposTemplate`.
- A request parameter is a string or `Other`. The other kinds of `params::Value` (numbers, files, arrays, maps) are all treated the same by the handlers.
- Configuration and startup are process I/O and are not modelled. This covers `dotenv`, `env::var` (including the panics of `github_client` when `CLIENT_ID` or `CLIENT_SECRET` is unset), the router and chain wiring, the Handlebars engine and the server.
- HTML markup, the `Content-Type` header and `println!` logging are presentation. Bodies are kept only as their kind (`Http.Body`).
- Routes.Repos: "does not fetch when logged out" is not stated as an explicit absence of a call. It is stated by the logged-out response being fully determined without `listRepos`.
- Behaviour the code does not have is not modelled: marking the enabled repository instead of dropping it, pagination, filtering to admin repositories, and redirects in place of panics.
