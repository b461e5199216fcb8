/**
 * The guard on the `Publish` target: the four `Requires` predicates, all of
 * which must hold before packages are pushed, and the repository check they
 * lean on.
 */
module Publish {
  import opened Results
  import opened Text

  /** The two build configurations of the solution. */
  datatype Configuration = Debug | Release

  /** `Configuration`'s default: Debug on a developer machine, Release on a build server. */
  function DefaultConfiguration(isLocalBuild: bool): (c: Configuration)
    ensures c == Release <==> !isLocalBuild
  {
    if isLocalBuild then Debug else Release
  }

  /** Identifier (owner/name) of the repository packages are published from. */
  const OriginalRepository: string := "tulis/Rth"

  /** `IsOriginalRepository`: the checkout is the upstream repository, not a fork. */
  predicate IsOriginalRepository(repositoryIdentifier: string) {
    repositoryIdentifier == OriginalRepository
  }

  /** What the `Publish` requirements read: parameters, git state and configuration. */
  datatype PublishContext = PublishContext(
    nugetApiKey: Option<string>,      // NUGET_API_KEY, null when not supplied
    repositoryIdentifier: string,     // GitRepository.Identifier
    cleanWorkingCopy: bool,           // GitHasCleanWorkingCopy()
    configuration: Configuration)

  /** The `Requires` predicates of `Publish`, in declaration order. */
  function Requirements(ctx: PublishContext): (rs: seq<bool>)
    ensures |rs| == 4
    ensures rs[3] <==> IsOriginalRepository(ctx.repositoryIdentifier)
    ensures !IsOriginalRepository(ctx.repositoryIdentifier) ==> rs[0]
  {
    var original := IsOriginalRepository(ctx.repositoryIdentifier);
    [ !IsBlank(ctx.nugetApiKey) || !original,
      ctx.cleanWorkingCopy,
      ctx.configuration == Release,
      original ]
  }

  /** `Publish` may run only when every requirement holds. */
  function PublishAllowed(ctx: PublishContext): (allowed: bool)
    ensures allowed <==>
              && !IsBlank(ctx.nugetApiKey)
              && ctx.cleanWorkingCopy
              && ctx.configuration == Release
              && ctx.repositoryIdentifier == "tulis/Rth"
  {
    var rs := Requirements(ctx);
    assert (forall i :: 0 <= i < |rs| ==> rs[i]) <==> rs[0] && rs[1] && rs[2] && rs[3] by {
      if rs[0] && rs[1] && rs[2] && rs[3] {
        forall i | 0 <= i < |rs| ensures rs[i] {
          assert i == 0 || i == 1 || i == 2 || i == 3;
        }
      }
    }
    forall i :: 0 <= i < |rs| ==> rs[i]
  }
}

module PublishProofs {
  import opened Results
  import opened Text
  import opened Publish

  /**
   * The escape `|| !IsOriginalRepository` of the first requirement never
   * changes the verdict: the fourth requirement already refuses every fork,
   * so requiring a non-blank API key outright admits exactly the same runs.
   */
  lemma ApiKeyEscapeIsDead(ctx: PublishContext)
    ensures PublishAllowed(ctx) <==>
              (!IsBlank(ctx.nugetApiKey) && forall i :: 1 <= i < 4 ==> Requirements(ctx)[i])
  {
    var rs := Requirements(ctx);
    if !IsBlank(ctx.nugetApiKey) && forall i :: 1 <= i < 4 ==> rs[i] {
      assert rs[0];
    }
  }

  /** A fork never publishes, whatever its API key, and its key requirement is never the one that fails. */
  lemma ForkNeverPublishes(ctx: PublishContext)
    requires !IsOriginalRepository(ctx.repositoryIdentifier)
    ensures !PublishAllowed(ctx)
    ensures Requirements(ctx)[0] && !Requirements(ctx)[3]
  {
  }

  /** A local build that keeps the default configuration never publishes. */
  lemma LocalDefaultNeverPublishes(ctx: PublishContext)
    requires ctx.configuration == DefaultConfiguration(true)
    ensures !PublishAllowed(ctx)
  {
  }
}
