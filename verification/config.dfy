/**
 * The inputs of a release run: the resolved options, and the answers every
 * collaborator gives during the run (repository facts, version lookup, prompt
 * answers, the GitHub release result, and which step, if any, throws).
 */
module Config {
  import opened Outcomes
  import opened Prompt
  import opened Trace

  datatype GitOptions = GitOptions(
    tagName: string,
    requireCleanWorkingDir: bool,
    requireUpstream: bool,
    commit: bool,
    tag: bool,
    push: bool)

  /** `token` is "" when no token is configured. */
  datatype GithubOptions = GithubOptions(release: bool, token: string, tokenRef: string)

  datatype NpmOptions = NpmOptions(publish: bool, isPrivate: bool)

  /**
   * The dist repository section. `repo` is "" when no dist repository is
   * configured. Fields that lodash `_.defaults` fills from the primary
   * configuration, and the tag name compared with `!==`, are `None` when unset.
   * `scripts` holds the dist hooks that have a command; the pipeline reads
   * only its before-stage hook (the replay's after-release hook is the
   * primary one).
   */
  datatype DistOptions = DistOptions(
    repo: string,
    commit: bool,
    tag: bool,
    push: bool,
    tagName: Option<string>,
    githubRelease: Option<bool>,
    npmPublish: Option<bool>,
    scripts: set<Hook>)

  /**
   * The resolved options. `scripts` holds the hooks that have a command;
   * `lateChangelog` is what the changelog-timing recommendation computed from
   * the options.
   */
  datatype Options = Options(
    git: GitOptions,
    github: GithubOptions,
    npm: NpmOptions,
    dist: DistOptions,
    scripts: set<Hook>,
    isInteractive: bool,
    preRelease: bool,
    preReleaseId: string,
    lateChangelog: bool,
    prompt: Defaults)

  /**
   * What the collaborators answer. `remoteUrl` and `parsedVersion` are "" when
   * falsy; `pick` is the value chosen from the increment list (`None` for the
   * "Other" entry); `approved` holds the confirm prompts answered yes;
   * `releaseReturned` and `distReleaseReturned` say whether the GitHub release
   * call returned a truthy release; `sameRepo` is the answer of the same-repo
   * check.
   */
  datatype World = World(
    isRepo: bool,
    remoteUrl: string,
    isClean: bool,
    hasUpstream: bool,
    latestVersion: string,
    parsedVersion: string,
    changelog: string,
    pick: Option<string>,
    typedVersion: string,
    approved: set<(Subject, PromptName)>,
    releaseReturned: bool,
    distReleaseReturned: bool,
    sameRepo: bool)
}
