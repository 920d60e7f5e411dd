/**
 * The release pipeline of lib/tasks.js as a pure function: from the options and
 * the collaborators' answers to the ordered trace of steps performed and the
 * summary or error the run ends with.
 */
module Tasks {
  import opened Outcomes
  import opened Versions
  import opened Prompt
  import opened Trace
  import opened Config
  import opened Repo

  /** What a successful run returns. */
  datatype Summary = Summary(changelog: string, latestVersion: string, version: string)

  /** A finished run: the steps it performed, in order, and how it ended. */
  datatype Execution = Execution(trace: seq<Event>, result: Result<Summary, Error>)

  /** A hook runs only when a command is configured for it. */
  function Script(scripts: set<Hook>, s: Subject, h: Hook): (t: seq<Event>)
    ensures RunScript(s, h) in t <==> h in scripts
    ensures |t| <= 1 && forall e :: e in t ==> e == RunScript(s, h)
  {
    if h in scripts then [RunScript(s, h)] else []
  }

  /** The user's answer to a prompt. */
  function AnswerFor(w: World, s: Subject, name: PromptName): Answer {
    match name
    case IncrementList => Pick(w.pick)
    case VersionInput => Text(w.typedVersion)
    case OtpPrompt => Text("")
    case _ => Flag((s, name) in w.approved)
  }

  /** A gated step: the prompt shown for it, if any, whether its task runs, and its argument. */
  datatype Gating = Gating(asked: seq<Event>, runs: bool, arg: Answer)

  /** A prompt through the gate of lib/prompt.js; a shown prompt is one event. */
  function Ask(o: Options, w: World, shouldPrompt: bool, s: Subject, name: PromptName): (g: Gating)
    ensures g.asked == (if shouldPrompt then [Prompted(s, name)] else [])
    ensures g.runs <==> shouldPrompt && (TypeOf(name) == Confirm ==> Truthy(AnswerFor(w, s, name)))
    ensures shouldPrompt ==> g.arg == AnswerFor(w, s, name)
  {
    match Gate(shouldPrompt, s, name, o.prompt, AnswerFor(w, s, name))
    case Skipped => Gating([], false, AnswerFor(w, s, name))
    case Asked(_, runs, arg) => Gating([Prompted(s, name)], runs, arg)
  }

  /** A step switched on by `cond` is performed: directly, or when interactive only once its prompt is confirmed. */
  predicate Performs(o: Options, w: World, cond: bool, s: Subject, name: PromptName) {
    cond && (o.isInteractive ==> (s, name) in w.approved)
  }

  /**
   * One gated release step: a progress spinner that runs its task when `cond`
   * holds in a non-interactive run, the prompt gate in an interactive one.
   */
  function GatedStep(o: Options, w: World, cond: bool, s: Subject, name: PromptName): (g: Gating)
    requires TypeOf(name) == Confirm
    ensures g.asked == (if o.isInteractive && cond then [Prompted(s, name)] else [])
    ensures g.runs <==> Performs(o, w, cond, s, name)
  {
    if o.isInteractive then Ask(o, w, cond, s, name) else Gating([], cond, Flag(cond))
  }

  /** The result of version negotiation: the prompts shown, and the version ("" when falsy). */
  datatype Negotiation = Negotiation(asked: seq<Event>, version: string)

  /**
   * A supplied version is used as-is. An interactive run without one shows the
   * increment list; a picked increment gives the incremented latest version, the
   * "Other" entry leads to the version input and its typed answer. A
   * non-interactive run without a supplied version prompts nothing.
   */
  function Negotiate(o: Options, w: World, lib: VersionLib): (n: Negotiation)
    ensures !(o.isInteractive && w.parsedVersion == "") ==> n == Negotiation([], w.parsedVersion)
    ensures o.isInteractive && w.parsedVersion == "" && Truthy(Pick(w.pick)) ==>
      n == Negotiation([Prompted(Src, IncrementList)], lib.inc(w.latestVersion, w.pick.value, o.preReleaseId))
    ensures o.isInteractive && w.parsedVersion == "" && !Truthy(Pick(w.pick)) ==>
      n == Negotiation([Prompted(Src, IncrementList), Prompted(Src, VersionInput)], w.typedVersion)
  {
    if o.isInteractive && w.parsedVersion == "" then
      var list := Ask(o, w, true, Src, IncrementList);
      if list.runs && Truthy(list.arg) && list.arg.Pick? && list.arg.increment.Some? then
        Negotiation(list.asked, lib.inc(w.latestVersion, list.arg.increment.value, o.preReleaseId))
      else
        var input := Ask(o, w, true, Src, VersionInput);
        Negotiation(list.asked + input.asked, if input.runs && input.arg.Text? then input.arg.text else "")
    else
      Negotiation([], w.parsedVersion)
  }

  /** The switches of the release steps of one repository. */
  datatype StepFlags = StepFlags(commit: bool, tag: bool, push: bool, release: bool, publish: bool)

  /** A gated step's block: its prompt, if shown, then the step itself when it runs. */
  function Step(g: Gating, e: Event): seq<Event> {
    g.asked + (if g.runs then [e] else [])
  }

  /** The GitHub release block: its prompt, the release, and the asset upload when the release call returned one. */
  function ReleaseTask(g: Gating, s: Subject, returned: bool): seq<Event> {
    g.asked + (if g.runs then [CreateRelease(s)] + (if returned then [UploadAssets(s)] else []) else [])
  }

  /**
   * Commit, tag, push, GitHub release with its asset upload, and publish, each
   * after its gate. Assets are uploaded only when the release call returned a
   * release, right after it.
   */
  function StepSequence(s: Subject, commit: Gating, tag: Gating, push: Gating, release: Gating, publish: Gating, returned: bool): seq<Event> {
    Step(commit, Commit(s)) + Step(tag, Tag(s)) + Step(push, Push(s)) + ReleaseTask(release, s, returned) + Step(publish, Publish(s))
  }

  /** The release steps of one repository, gated by its switches. */
  function ReleaseSteps(o: Options, w: World, s: Subject, f: StepFlags, returned: bool): seq<Event> {
    StepSequence(s,
      GatedStep(o, w, f.commit, s, CommitPrompt),
      GatedStep(o, w, f.tag, s, TagPrompt),
      GatedStep(o, w, f.push, s, PushPrompt),
      GatedStep(o, w, f.release, s, ReleasePrompt),
      GatedStep(o, w, f.publish, s, PublishPrompt),
      returned)
  }

  /** The primary switches; publishing is skipped altogether for a private package. */
  function PrimaryFlags(o: Options): StepFlags {
    StepFlags(o.git.commit, o.git.tag, o.git.push, o.github.release, !o.npm.isPrivate && o.npm.publish)
  }

  /**
   * Whether the dist repository is tagged. The three disjuncts are kept exactly
   * as written, including the last one that ignores whether the repositories
   * are the same.
   */
  function ShouldTag(distTag: bool, isSameRepo: bool, distTagName: Option<string>, gitTagName: string, gitTag: bool): bool {
    (distTag && !isSameRepo) || (isSameRepo && distTagName != Some(gitTagName)) || (distTag && !gitTag)
  }

  /** The dist switches; the GitHub and npm ones default to the primary configuration when unset. */
  function DistFlags(o: Options, w: World): StepFlags {
    StepFlags(
      o.dist.commit,
      ShouldTag(o.dist.tag, w.sameRepo, o.dist.tagName, o.git.tagName, o.git.tag),
      o.dist.push,
      o.dist.githubRelease.GetOr(o.github.release),
      o.dist.npmPublish.GetOr(o.npm.publish))
  }

  /** The changelog fetch, at its early (`late` false) or late position. */
  function ChangelogAt(o: Options, late: bool): seq<Event> {
    if o.lateChangelog == late then [FetchChangelog] else []
  }

  function BumpSteps(o: Options, version: string): seq<Event> {
    Script(o.scripts, Src, BeforeBump) + [Bump(Src, version)] + Script(o.scripts, Src, AfterBump)
  }

  function StageSteps(o: Options): seq<Event> {
    Script(o.scripts, Src, BeforeStage) + [StagePackageFiles, StageAll(Src), ShowStatus(Src)]
  }

  /** Clone the dist repository into a fresh staging directory, copy the files in, bump and stage there. */
  function DistPrepare(o: Options, version: string): seq<Event> {
    if o.dist.repo == "" then []
    else
      [MakeStageDir, CloneDist, CopyDistFiles, Pushd(Prepare), Bump(Dist, version)]
      + Script(o.dist.scripts, Dist, BeforeStage)
      + [StageAll(Dist), CheckDistChanges, Popd(Prepare)]
  }

  /**
   * Re-enter the staging directory, replay the release steps for the dist
   * repository, run the after-release hook there, leave and remove it. That
   * hook is the primary configuration's one: the dist hooks are only in scope
   * while the dist repository is prepared.
   */
  function DistReplay(o: Options, w: World): seq<Event> {
    if o.dist.repo == "" then []
    else
      [Pushd(Replay), ReadDistRemote, ShowStatus(Dist)]
      + ReleaseSteps(o, w, Dist, DistFlags(o, w), w.distReleaseReturned)
      + Script(o.scripts, Dist, AfterRelease)
      + [Popd(Replay), RemoveStageDir]
  }

  /** Bump, fetch a late changelog, stage, and prepare the dist repository. */
  function PrepareSteps(o: Options, version: string): seq<Event> {
    BumpSteps(o, version) + ChangelogAt(o, true) + StageSteps(o) + DistPrepare(o, version)
  }

  /** The primary release steps, the after-release hook, and the dist replay. */
  function PublishSteps(o: Options, w: World): seq<Event> {
    ReleaseSteps(o, w, Src, PrimaryFlags(o), w.releaseReturned)
    + Script(o.scripts, Src, AfterRelease)
    + DistReplay(o, w)
  }

  /** Everything from the bump on, once a version is resolved. */
  function AfterVersion(o: Options, w: World, version: string): seq<Event> {
    PrepareSteps(o, version) + PublishSteps(o, w)
  }

  /**
   * The steps before the bump: the before-start hook, the validation queries,
   * and, once validated, the early changelog and the version prompts.
   */
  function Opening(o: Options, w: World, lib: VersionLib): seq<Event> {
    var v := ValidateRepoState(o, w);
    Script(o.scripts, Src, BeforeStart) + v.queries
    + (if v.result.Success? then ChangelogAt(o, false) + Negotiate(o, w, lib).asked else [])
  }

  /** The run as it unfolds when no step's task throws. */
  function Uninterrupted(o: Options, w: World, lib: VersionLib): Execution {
    var v := ValidateRepoState(o, w);
    var head := Opening(o, w, lib);
    if v.result.Failure? then
      Execution(head, Failure(v.result.error))
    else
      var n := Negotiate(o, w, lib);
      if n.version == "" then
        Execution(head, Failure(InvalidVersionError))
      else
        Execution(head + AfterVersion(o, w, n.version), Success(Summary(w.changelog, w.latestVersion, n.version)))
  }

  /**
   * A run whose step at position `fault` throws: nothing after that step runs
   * and nothing before it is undone, and the error names that step. Every error
   * is logged and rethrown unchanged; when no step throws, the failure-free
   * run's own error is the one rethrown, after everything that run did.
   */
  function Interrupt(u: Execution, fault: Option<nat>): (x: Execution)
    ensures x.result.Success? ==> x == u
    ensures x.result.Failure? ==>
      && 0 < |x.trace| <= |u.trace| + 1
      && x.trace[|x.trace| - 1] == LogError
      && (forall i :: 0 <= i < |x.trace| - 1 ==> x.trace[i] == u.trace[i])
      && (x.result == u.result || (|x.trace| >= 2 && x.result == Failure(StepFailed(x.trace[|x.trace| - 2]))))
    ensures fault.Some? && fault.value < |u.trace| ==>
      |x.trace| == fault.value + 2 && x.result == Failure(StepFailed(u.trace[fault.value]))
    ensures fault.None? || fault.value >= |u.trace| ==>
      x.result == u.result && (u.result.Failure? ==> |x.trace| == |u.trace| + 1)
  {
    if fault.Some? && fault.value < |u.trace| then
      var k := fault.value;
      Execution(u.trace[..k + 1] + [LogError], Failure(StepFailed(u.trace[k])))
    else if u.result.Failure? then
      Execution(u.trace + [LogError], u.result)
    else
      u
  }

  /** The exported pipeline: the failure-free run, interrupted where a step's task throws. */
  function Release(o: Options, w: World, lib: VersionLib, fault: Option<nat>): (x: Execution)
    ensures x.result.Failure? ==> |x.trace| > 0 && x.trace[|x.trace| - 1] == LogError
  {
    Interrupt(Uninterrupted(o, w, lib), fault)
  }
}
