/**
 * Every run, finished or aborted, visits the pipeline strictly in phase order.
 * This one invariant carries the ordering promises of lib/tasks.js: validation
 * before mutation, the changelog at one of its two positions, the release steps
 * in their fixed order, the primary repository before the dist repository.
 */
module Ordering {
  import opened Outcomes
  import opened Versions
  import opened Prompt
  import opened Trace
  import opened Config
  import opened Repo
  import opened Tasks

  lemma ScriptWithin(scripts: set<Hook>, s: Subject, h: Hook, late: bool, lo: int, hi: int)
    requires lo <= ScriptPhase(s, h) < hi
    ensures Within(Script(scripts, s, h), late, lo, hi)
  {
    if h in scripts {
      WithinOne(RunScript(s, h), late, lo, hi);
    }
  }

  lemma QueriesWithin(o: Options, w: World)
    ensures Within(ValidateRepoState(o, w).queries, o.lateChangelog, 1, 5)
  {
    var late := o.lateChangelog;
    var cleanQuery := if o.git.requireCleanWorkingDir then [Query(WorkingDirClean)] else [];
    assert Within([Query(IsRepo), Query(RemoteUrl)], late, 1, 3);
    WithinAtMostOne(cleanQuery, Query(WorkingDirClean), late, 3, 4);
    WithinOne(Query(HasUpstream), late, 4, 5);
    WithinConcat([Query(IsRepo), Query(RemoteUrl)], cleanQuery, late, 1, 3, 4);
    WithinConcat([Query(IsRepo), Query(RemoteUrl)] + cleanQuery, [Query(HasUpstream)], late, 1, 4, 5);
    WithinWiden([Query(IsRepo), Query(RemoteUrl)] + cleanQuery, late, 1, 4, 1, 5);
    WithinWiden([Query(IsRepo), Query(RemoteUrl)], late, 1, 3, 1, 5);
    WithinWiden([Query(IsRepo)], late, 1, 3, 1, 5);
  }

  lemma NegotiationWithin(o: Options, w: World, lib: VersionLib)
    ensures Within(Negotiate(o, w, lib).asked, o.lateChangelog, 6, 8)
  {
    var late := o.lateChangelog;
    WithinOne(Prompted(Src, VersionInput), late, 7, 8);
    WithinOne(Prompted(Src, IncrementList), late, 6, 7);
    WithinConcat([Prompted(Src, IncrementList)], [Prompted(Src, VersionInput)], late, 6, 7, 8);
    WithinWiden([Prompted(Src, IncrementList)], late, 6, 7, 6, 8);
  }

  /** A gate's prompt, if shown, and then its step. */
  lemma GateWithin(g: Gating, s: Subject, name: PromptName, e: Event, late: bool, lo: int, hi: int)
    requires g.asked == [] || g.asked == [Prompted(s, name)]
    requires lo <= PromptPhase(s, name) < Phase(e, late) < hi
    ensures Within(Step(g, e), late, lo, hi)
  {
    var task := if g.runs then [e] else [];
    WithinAtMostOne(g.asked, Prompted(s, name), late, lo, Phase(e, late));
    WithinAtMostOne(task, e, late, Phase(e, late), hi);
    WithinConcat(g.asked, task, late, lo, Phase(e, late), hi);
  }

  lemma ReleaseGateWithin(g: Gating, s: Subject, returned: bool, late: bool)
    requires g.asked == [] || g.asked == [Prompted(s, ReleasePrompt)]
    ensures Within(ReleaseTask(g, s, returned), late, StepBase(s) + 6, StepBase(s) + 9)
  {
    var b := StepBase(s);
    StepPhases(s, late);
    var upload := if returned then [UploadAssets(s)] else [];
    var steps := if g.runs then [CreateRelease(s)] + upload else [];
    WithinAtMostOne(g.asked, Prompted(s, ReleasePrompt), late, b + 6, b + 7);
    WithinAtMostOne(upload, UploadAssets(s), late, b + 8, b + 9);
    WithinOne(CreateRelease(s), late, b + 7, b + 8);
    WithinConcat([CreateRelease(s)], upload, late, b + 7, b + 8, b + 9);
    WithinConcat(g.asked, steps, late, b + 6, b + 7, b + 9);
  }

  lemma StepSequenceWithin(s: Subject, commit: Gating, tag: Gating, push: Gating, release: Gating, publish: Gating, returned: bool, late: bool)
    requires commit.asked == [] || commit.asked == [Prompted(s, CommitPrompt)]
    requires tag.asked == [] || tag.asked == [Prompted(s, TagPrompt)]
    requires push.asked == [] || push.asked == [Prompted(s, PushPrompt)]
    requires release.asked == [] || release.asked == [Prompted(s, ReleasePrompt)]
    requires publish.asked == [] || publish.asked == [Prompted(s, PublishPrompt)]
    ensures Within(StepSequence(s, commit, tag, push, release, publish, returned), late, StepBase(s), StepBase(s) + 11)
  {
    var b := StepBase(s);
    StepPhases(s, late);
    GateWithin(commit, s, CommitPrompt, Commit(s), late, b, b + 2);
    GateWithin(tag, s, TagPrompt, Tag(s), late, b + 2, b + 4);
    GateWithin(push, s, PushPrompt, Push(s), late, b + 4, b + 6);
    ReleaseGateWithin(release, s, returned, late);
    GateWithin(publish, s, PublishPrompt, Publish(s), late, b + 9, b + 11);
    WithinConcat5(Step(commit, Commit(s)), Step(tag, Tag(s)), Step(push, Push(s)), ReleaseTask(release, s, returned), Step(publish, Publish(s)),
      late, b, b + 2, b + 4, b + 6, b + 9, b + 11);
  }

  /** The release steps of one repository stay inside that repository's phase block, in order. */
  lemma ReleaseStepsWithin(o: Options, w: World, s: Subject, f: StepFlags, returned: bool)
    ensures Within(ReleaseSteps(o, w, s, f, returned), o.lateChangelog, StepBase(s), StepBase(s) + 11)
  {
    StepSequenceWithin(s,
      GatedStep(o, w, f.commit, s, CommitPrompt),
      GatedStep(o, w, f.tag, s, TagPrompt),
      GatedStep(o, w, f.push, s, PushPrompt),
      GatedStep(o, w, f.release, s, ReleasePrompt),
      GatedStep(o, w, f.publish, s, PublishPrompt),
      returned, o.lateChangelog);
  }

  lemma DistPrepareWithin(o: Options, version: string)
    ensures Within(DistPrepare(o, version), o.lateChangelog, 16, 30)
  {
    if o.dist.repo != "" {
      var late := o.lateChangelog;
      StageDirWithin(version, late);
      ScriptWithin(o.dist.scripts, Dist, BeforeStage, late, 21, 22);
      DistStageWithin(late);
      WithinConcat3([MakeStageDir, CloneDist, CopyDistFiles, Pushd(Prepare), Bump(Dist, version)],
        Script(o.dist.scripts, Dist, BeforeStage), [StageAll(Dist), CheckDistChanges, Popd(Prepare)], late, 16, 21, 22, 30);
    }
  }

  /** Making, cloning into and entering the staging directory, then bumping there. */
  lemma StageDirWithin(version: string, late: bool)
    ensures Within([MakeStageDir, CloneDist, CopyDistFiles, Pushd(Prepare), Bump(Dist, version)], late, 16, 21)
  {
    var a := [MakeStageDir, CloneDist, CopyDistFiles];
    var b := [Pushd(Prepare), Bump(Dist, version)];
    assert a + b == [MakeStageDir, CloneDist, CopyDistFiles, Pushd(Prepare), Bump(Dist, version)];
    assert Within(a, late, 16, 19);
    assert Within(b, late, 19, 21);
    WithinConcat(a, b, late, 16, 19, 21);
  }

  /** Staging in the dist repository, checking for changes, and leaving the staging directory. */
  lemma DistStageWithin(late: bool)
    ensures Within([StageAll(Dist), CheckDistChanges, Popd(Prepare)], late, 22, 30)
  {
  }

  /** The replay block around the dist release steps. */
  lemma ReplayShapeWithin(steps: seq<Event>, afterRelease: seq<Event>, late: bool)
    requires Within(steps, late, 60, 71)
    requires afterRelease == [] || afterRelease == [RunScript(Dist, AfterRelease)]
    ensures Within([Pushd(Replay), ReadDistRemote, ShowStatus(Dist)] + steps + afterRelease + [Popd(Replay), RemoveStageDir], late, 50, 78)
  {
    var a := [Pushd(Replay), ReadDistRemote, ShowStatus(Dist)];
    var d := [Popd(Replay), RemoveStageDir];
    assert Within(a, late, 50, 60);
    WithinAtMostOne(afterRelease, RunScript(Dist, AfterRelease), late, 71, 76);
    assert Within(d, late, 76, 78);
    WithinConcat3(a, steps, afterRelease, late, 50, 60, 71, 76);
    WithinConcat(a + steps + afterRelease, d, late, 50, 76, 78);
  }

  lemma DistReplayWithin(o: Options, w: World)
    ensures Within(DistReplay(o, w), o.lateChangelog, 50, 78)
  {
    if o.dist.repo != "" {
      ReleaseStepsWithin(o, w, Dist, DistFlags(o, w), w.distReleaseReturned);
      ReplayShapeWithin(ReleaseSteps(o, w, Dist, DistFlags(o, w), w.distReleaseReturned),
        Script(o.scripts, Dist, AfterRelease), o.lateChangelog);
    }
  }

  lemma BumpStepsWithin(o: Options, version: string)
    ensures Within(BumpSteps(o, version), o.lateChangelog, 8, 11)
  {
    var late := o.lateChangelog;
    ScriptWithin(o.scripts, Src, BeforeBump, late, 8, 9);
    WithinOne(Bump(Src, version), late, 9, 10);
    ScriptWithin(o.scripts, Src, AfterBump, late, 10, 11);
    WithinConcat3(Script(o.scripts, Src, BeforeBump), [Bump(Src, version)], Script(o.scripts, Src, AfterBump), late, 8, 9, 10, 11);
  }

  lemma StageStepsWithin(o: Options)
    ensures Within(StageSteps(o), o.lateChangelog, 12, 16)
  {
    var late := o.lateChangelog;
    ScriptWithin(o.scripts, Src, BeforeStage, late, 12, 13);
    assert Within([StagePackageFiles, StageAll(Src), ShowStatus(Src)], late, 13, 16);
    WithinConcat(Script(o.scripts, Src, BeforeStage), [StagePackageFiles, StageAll(Src), ShowStatus(Src)], late, 12, 13, 16);
  }

  lemma PrepareStepsWithin(o: Options, version: string)
    ensures Within(PrepareSteps(o, version), o.lateChangelog, 8, 30)
  {
    var late := o.lateChangelog;
    BumpStepsWithin(o, version);
    WithinAtMostOne(ChangelogAt(o, true), FetchChangelog, late, 11, 12);
    StageStepsWithin(o);
    DistPrepareWithin(o, version);
    WithinConcat3(BumpSteps(o, version), ChangelogAt(o, true), StageSteps(o), late, 8, 11, 12, 16);
    WithinConcat(BumpSteps(o, version) + ChangelogAt(o, true) + StageSteps(o), DistPrepare(o, version), late, 8, 16, 30);
  }

  lemma PublishStepsWithin(o: Options, w: World)
    ensures Within(PublishSteps(o, w), o.lateChangelog, 30, 78)
  {
    var late := o.lateChangelog;
    ReleaseStepsWithin(o, w, Src, PrimaryFlags(o), w.releaseReturned);
    ScriptWithin(o.scripts, Src, AfterRelease, late, 41, 50);
    DistReplayWithin(o, w);
    WithinConcat3(ReleaseSteps(o, w, Src, PrimaryFlags(o), w.releaseReturned), Script(o.scripts, Src, AfterRelease),
      DistReplay(o, w), late, 30, 41, 50, 78);
  }

  lemma AfterVersionWithin(o: Options, w: World, version: string)
    ensures Within(AfterVersion(o, w, version), o.lateChangelog, 8, 78)
  {
    PrepareStepsWithin(o, version);
    PublishStepsWithin(o, w);
    WithinConcat(PrepareSteps(o, version), PublishSteps(o, w), o.lateChangelog, 8, 30, 78);
  }

  lemma OpeningWithin(o: Options, w: World, lib: VersionLib)
    ensures Within(Opening(o, w, lib), o.lateChangelog, 0, 8)
  {
    var late := o.lateChangelog;
    var v := ValidateRepoState(o, w);
    var start := Script(o.scripts, Src, BeforeStart);
    ScriptWithin(o.scripts, Src, BeforeStart, late, 0, 1);
    QueriesWithin(o, w);
    var rest := if v.result.Success? then ChangelogAt(o, false) + Negotiate(o, w, lib).asked else [];
    WithinAtMostOne(ChangelogAt(o, false), FetchChangelog, late, 5, 6);
    NegotiationWithin(o, w, lib);
    WithinConcat(ChangelogAt(o, false), Negotiate(o, w, lib).asked, late, 5, 6, 8);
    WithinConcat3(start, v.queries, rest, late, 0, 1, 5, 8);
  }

  /** The failure-free run visits the phases strictly in order, all below the error log. */
  lemma UninterruptedWithin(o: Options, w: World, lib: VersionLib)
    ensures Within(Uninterrupted(o, w, lib).trace, o.lateChangelog, 0, 78)
  {
    var late := o.lateChangelog;
    OpeningWithin(o, w, lib);
    var n := Negotiate(o, w, lib);
    if ValidateRepoState(o, w).result.Success? && n.version != "" {
      AfterVersionWithin(o, w, n.version);
      WithinConcat(Opening(o, w, lib), AfterVersion(o, w, n.version), late, 0, 8, 78);
    } else {
      WithinWiden(Opening(o, w, lib), late, 0, 8, 0, 78);
    }
  }

  /**
   * Every run, including aborted ones, visits the phases strictly in order:
   * no step runs twice and no step runs before a step the pipeline puts ahead of it.
   */
  lemma ReleaseInOrder(o: Options, w: World, lib: VersionLib, fault: Option<nat>)
    ensures InOrder(Release(o, w, lib, fault).trace, o.lateChangelog)
  {
    var late := o.lateChangelog;
    var u := Uninterrupted(o, w, lib);
    UninterruptedWithin(o, w, lib);
    WithinOne(LogError, late, 78, 101);
    if fault.Some? && fault.value < |u.trace| {
      var k := fault.value;
      WithinPrefix(u.trace, late, 0, 78, k + 1);
      WithinConcat(u.trace[..k + 1], [LogError], late, 0, 78, 101);
      WithinInOrder(u.trace[..k + 1] + [LogError], late, 0, 101);
    } else if u.result.Failure? {
      WithinConcat(u.trace, [LogError], late, 0, 78, 101);
      WithinInOrder(u.trace + [LogError], late, 0, 101);
    } else {
      WithinInOrder(u.trace, late, 0, 78);
    }
  }
}
