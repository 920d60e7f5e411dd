/**
 * The pre-mutation validator: read-only repository queries that must all pass
 * before the run changes anything.
 */
module Repo {
  import opened Outcomes
  import opened Trace
  import opened Config

  /** What a successful validation hands to the rest of the run. */
  datatype RepoState = RepoState(remoteUrl: string, hasUpstream: bool)

  /** The queries the validator performed, in order, and its verdict. */
  datatype Validation = Validation(queries: seq<Event>, result: Result<RepoState, Error>)

  /** A GitHub release is wanted for the primary or the dist repository (before any defaulting). */
  predicate WantsGithubRelease(o: Options) {
    o.github.release || o.dist.githubRelease == Some(true)
  }

  /**
   * The fixed cascade of checks; the first failing one decides the error. The
   * clean-directory query is only made when a clean directory is required, and
   * a successful validation returns exactly the queried remote URL and upstream.
   */
  function ValidateRepoState(o: Options, w: World): (v: Validation)
    ensures v.result == Failure(GitRepoError) <==> !w.isRepo
    ensures v.result == Failure(GitRemoteUrlError) <==> w.isRepo && w.remoteUrl == ""
    ensures v.result == Failure(GitCleanWorkingDirError) <==>
      w.isRepo && w.remoteUrl != "" && o.git.requireCleanWorkingDir && !w.isClean
    ensures v.result == Failure(GitUpstreamError) <==>
      w.isRepo && w.remoteUrl != "" && (o.git.requireCleanWorkingDir ==> w.isClean)
      && o.git.requireUpstream && !w.hasUpstream
    ensures v.result == Failure(GithubTokenError(o.github.tokenRef)) <==>
      w.isRepo && w.remoteUrl != "" && (o.git.requireCleanWorkingDir ==> w.isClean)
      && (o.git.requireUpstream ==> w.hasUpstream) && WantsGithubRelease(o) && o.github.token == ""
    ensures v.result.Success? ==> v.result == Success(RepoState(w.remoteUrl, w.hasUpstream))
    ensures Query(WorkingDirClean) in v.queries <==> w.isRepo && w.remoteUrl != "" && o.git.requireCleanWorkingDir
    ensures v.result.Success? ==> Query(HasUpstream) in v.queries
    ensures forall e :: e in v.queries ==> e.Query?
  {
    if !w.isRepo then
      Validation([Query(IsRepo)], Failure(GitRepoError))
    else if w.remoteUrl == "" then
      Validation([Query(IsRepo), Query(RemoteUrl)], Failure(GitRemoteUrlError))
    else
      var cleanQuery := if o.git.requireCleanWorkingDir then [Query(WorkingDirClean)] else [];
      var asked := [Query(IsRepo), Query(RemoteUrl)] + cleanQuery;
      if o.git.requireCleanWorkingDir && !w.isClean then
        Validation(asked, Failure(GitCleanWorkingDirError))
      else
        var all := asked + [Query(HasUpstream)];
        if o.git.requireUpstream && !w.hasUpstream then
          Validation(all, Failure(GitUpstreamError))
        else if WantsGithubRelease(o) && o.github.token == "" then
          Validation(all, Failure(GithubTokenError(o.github.tokenRef)))
        else
          Validation(all, Success(RepoState(w.remoteUrl, w.hasUpstream)))
  }

  /**
   * The order of the validator's queries: the repository query always comes
   * first and, inside a repository, the remote query second; the upstream is
   * queried by every validation that gets past the clean-directory check,
   * including one that then fails on the upstream or the token.
   */
  lemma ValidatorQueryOrder(o: Options, w: World)
    ensures var v := ValidateRepoState(o, w);
      && |v.queries| >= 1 && v.queries[0] == Query(IsRepo)
      && (w.isRepo ==> |v.queries| >= 2 && v.queries[1] == Query(RemoteUrl))
      && (Query(HasUpstream) in v.queries <==> w.isRepo && w.remoteUrl != "" && (o.git.requireCleanWorkingDir ==> w.isClean))
  {
  }

  /** One check of the cascade: whether it fails, and the error it raises. */
  datatype Check = Check(failing: bool, error: Error)

  /** The checks in precedence order, as an independent reference for the validator. */
  function Checks(o: Options, w: World): seq<Check> {
    [ Check(!w.isRepo, GitRepoError),
      Check(w.remoteUrl == "", GitRemoteUrlError),
      Check(o.git.requireCleanWorkingDir && !w.isClean, GitCleanWorkingDirError),
      Check(o.git.requireUpstream && !w.hasUpstream, GitUpstreamError),
      Check(WantsGithubRelease(o) && o.github.token == "", GithubTokenError(o.github.tokenRef)) ]
  }

  /** The position of the first failing check, or the number of checks when all pass. */
  function FirstFailing(cs: seq<Check>): (k: nat)
    ensures k <= |cs|
    ensures forall j :: 0 <= j < k ==> !cs[j].failing
    ensures k < |cs| ==> cs[k].failing
  {
    if cs == [] then 0
    else if cs[0].failing then 0
    else 1 + FirstFailing(cs[1..])
  }

  /** The validator fails exactly when some check fails, with the error of the first failing check. */
  lemma ValidatorIsFirstFailure(o: Options, w: World)
    ensures var k := FirstFailing(Checks(o, w));
      && (ValidateRepoState(o, w).result.Failure? <==> k < 5)
      && (k < 5 ==> ValidateRepoState(o, w).result == Failure(Checks(o, w)[k].error))
  {
    var cs := Checks(o, w);
    var k := FirstFailing(cs);
    assert k == 0 || !cs[0].failing;
    assert k <= 1 || !cs[1].failing;
    assert k <= 2 || !cs[2].failing;
    assert k <= 3 || !cs[3].failing;
    assert k <= 4 || !cs[4].failing;
  }
}
