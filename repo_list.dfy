/**
 * The list handed to the `repos` template by `GET /repos`: the repositories
 * returned by the provider are cut to the first page of five, the one whose
 * full name equals the `datastore` cookie is dropped (not marked), and each
 * remaining one is projected to its full name, in the provider's order.
 */
module RepoList {

  /** The part of a provider repository record the view uses. */
  datatype Repo = Repo(fullName: string)

  /** The fixed page size of the listing. */
  const PageSize: nat := 5

  /** `a` is `b` with some elements deleted, the rest kept in order. */
  predicate IsSubsequence<T(==)>(a: seq<T>, b: seq<T>)
    decreases |b|
  {
    a == [] ||
    (b != [] && ((a[0] == b[0] && IsSubsequence(a[1..], b[1..])) || IsSubsequence(a, b[1..])))
  }

  /** The first page of the listing (`take(5)`). */
  function Page(repos: seq<Repo>): (p: seq<Repo>)
    ensures p <= repos
    ensures |p| == if |repos| < PageSize then |repos| else PageSize
  {
    if |repos| <= PageSize then repos else repos[..PageSize]
  }

  /** The repositories whose full name differs from `enabled` (`filter`). */
  function Unmatched(repos: seq<Repo>, enabled: string): (kept: seq<Repo>)
    ensures |kept| <= |repos|
    ensures forall i :: 0 <= i < |kept| ==> kept[i].fullName != enabled && kept[i] in repos
  {
    if repos == [] then []
    else if repos[0].fullName != enabled then [repos[0]] + Unmatched(repos[1..], enabled)
    else Unmatched(repos[1..], enabled)
  }

  /** Every repository projected to its full name (`map`). */
  function FullNames(repos: seq<Repo>): (names: seq<string>)
    ensures |names| == |repos|
    ensures forall i :: 0 <= i < |repos| ==> names[i] == repos[i].fullName
  {
    if repos == [] then [] else [repos[0].fullName] + FullNames(repos[1..])
  }

  /**
   * The `repos` entry of the template data built by `GET /repos`: never more
   * than one page, never more than was fetched, never the name `enabled`.
   */
  function View(repos: seq<Repo>, enabled: string): (v: seq<string>)
    ensures |v| <= PageSize && |v| <= |repos|
    ensures enabled !in v
  {
    FullNames(Unmatched(Page(repos), enabled))
  }

  // ---------------------------------------------------------------------------
  // The filter, on any sequence of repositories

  lemma {:induction false} UnmatchedSubsequence(repos: seq<Repo>, enabled: string)
    ensures IsSubsequence(FullNames(Unmatched(repos, enabled)), FullNames(repos))
  {
    if repos != [] {
      var names, kept := FullNames(repos), FullNames(Unmatched(repos, enabled));
      UnmatchedSubsequence(repos[1..], enabled);
      assert names[1..] == FullNames(repos[1..]);
      if repos[0].fullName != enabled {
        assert kept[1..] == FullNames(Unmatched(repos[1..], enabled));
      }
    }
  }

  lemma {:induction false} UnmatchedCounts(repos: seq<Repo>, enabled: string, x: string)
    ensures multiset(FullNames(Unmatched(repos, enabled)))[x] ==
            if x == enabled then 0 else multiset(FullNames(repos))[x]
  {
    if repos != [] {
      UnmatchedCounts(repos[1..], enabled, x);
      assert FullNames(repos) == [repos[0].fullName] + FullNames(repos[1..]);
      if repos[0].fullName != enabled {
        assert FullNames(Unmatched(repos, enabled)) ==
               [repos[0].fullName] + FullNames(Unmatched(repos[1..], enabled));
      }
    }
  }

  lemma {:induction false} UnmatchedLength(repos: seq<Repo>, enabled: string)
    ensures |Unmatched(repos, enabled)| == |repos| - multiset(FullNames(repos))[enabled]
  {
    if repos != [] {
      UnmatchedLength(repos[1..], enabled);
      assert FullNames(repos) == [repos[0].fullName] + FullNames(repos[1..]);
    }
  }

  lemma {:induction false} UnmatchedNoMatch(repos: seq<Repo>, enabled: string)
    requires enabled !in FullNames(repos)
    ensures Unmatched(repos, enabled) == repos
  {
    if repos != [] {
      assert FullNames(repos)[0] == repos[0].fullName;
      assert FullNames(repos[1..]) == FullNames(repos)[1..];
      UnmatchedNoMatch(repos[1..], enabled);
    }
  }

  // ---------------------------------------------------------------------------
  // The view

  /** Nothing is reordered or invented: the view is a subsequence of the page's names. */
  lemma ViewSubsequence(repos: seq<Repo>, enabled: string)
    ensures IsSubsequence(View(repos, enabled), FullNames(Page(repos)))
  {
    UnmatchedSubsequence(Page(repos), enabled);
  }

  /**
   * Every name on the page other than `enabled` is kept, as often as it
   * occurs there; so a name is listed exactly when it is on the page and
   * is not `enabled`.
   */
  lemma ViewMembers(repos: seq<Repo>, enabled: string, x: string)
    ensures multiset(View(repos, enabled))[x] ==
            if x == enabled then 0 else multiset(FullNames(Page(repos)))[x]
    ensures x in View(repos, enabled) <==> x != enabled && x in FullNames(Page(repos))
  {
    UnmatchedCounts(Page(repos), enabled, x);
  }

  /** Exactly the occurrences of `enabled` on the page are dropped. */
  lemma ViewLength(repos: seq<Repo>, enabled: string)
    ensures |View(repos, enabled)| == |Page(repos)| - multiset(FullNames(Page(repos)))[enabled]
  {
    UnmatchedLength(Page(repos), enabled);
  }

  /**
   * When `enabled` names none of the first five repositories (in particular
   * when it is the empty string of an absent cookie and no name is empty),
   * the view is the first min(5, n) names unchanged.
   */
  lemma ViewNoMatch(repos: seq<Repo>, enabled: string)
    requires enabled !in FullNames(Page(repos))
    ensures View(repos, enabled) == FullNames(Page(repos))
    ensures |View(repos, enabled)| == if |repos| < PageSize then |repos| else PageSize
  {
    UnmatchedNoMatch(Page(repos), enabled);
  }
}
