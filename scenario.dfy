/**
 * A sign-in, an enablement and a listing, one after the other, against a
 * fixed provider.
 */
module Scenario {
  import opened Wrappers
  import opened RepoList
  import opened Whitespace
  import opened Cookies
  import opened Http
  import opened Routes

  /** A provider that accepts the code "abc123" and lists two repositories. */
  function Octocat(): Provider
  {
    Provider(
      _ => Some("https://github.com/login/oauth/authorize"),
      code => if code == "abc123" then Some("tok_1") else None,
      token => Some([Repo("octocat/Hello-World"), Repo("octocat/Spoon-Knife")]))
  }

  /** A code carried with a trailing space and newline is exchanged without them. */
  lemma TrimmedCode()
    ensures Trim("abc123 \n") == "abc123"
  {
    TrimUnique("abc123 \n", 0, 6);
  }

  /** The enabled repository is left out of the listing, not marked. */
  lemma ListingWithoutEnabled()
    ensures View([Repo("octocat/Hello-World"), Repo("octocat/Spoon-Knife")], "octocat/Hello-World")
         == ["octocat/Spoon-Knife"]
  {
  }

  /**
   * The code arrives as "abc123 \n" and is accepted once trimmed; enabling
   * "octocat/Hello-World" keeps the token; the listing then leaves the
   * enabled repository out.
   */
  method SignInEnableAndList() returns (signedIn: Jar, enabled: Jar, listed: seq<string>)
    ensures signedIn == Jar(Some("tok_1"), None)
    ensures enabled == Jar(Some("tok_1"), Some("octocat/Hello-World"))
    ensures listed == ["octocat/Spoon-Knife"]
  {
    var provider := Octocat();
    TrimmedCode();
    assert provider.requestToken(Trim("abc123 \n")) == Some("tok_1");
    var out := Callback(Some(map["code" := Text("abc123 \n")]), provider);
    signedIn := Store(EmptyJar, out.response.cookies);

    out := Enablement(Some(map["repo" := Text("octocat/Hello-World")]));
    enabled := Store(signedIn, out.response.cookies);

    ListingWithoutEnabled();
    assert provider.listRepos("tok_1") == Some([Repo("octocat/Hello-World"), Repo("octocat/Spoon-Knife")]);
    out := Repos(enabled, provider);
    listed := out.response.body.repos;
  }

  /**
   * Posting the same enablement twice leaves the client's jar as posting it
   * once, and neither post touches the token.
   */
  method EnableTwice(jar: Jar, params: Option<Params>, provider: Provider) returns (once: Jar, twice: Jar)
    ensures twice == once && once.accessToken == jar.accessToken
    ensures params.Some? ==> once.datastore == Some(RepoParam(params.value))
  {
    var out;
    out, once := Handle(jar, PostEnablement(params), provider);
    out, twice := Handle(once, PostEnablement(params), provider);
  }
}
