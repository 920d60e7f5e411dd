/**
 * Facts about the blocks a run is built from: which block can hold which
 * event, and what the release steps of one repository contain. The
 * guarantees about whole runs are proved from these.
 */
module Blocks {
  import opened Outcomes
  import opened Versions
  import opened Prompt
  import opened Trace
  import opened Config
  import opened Repo
  import opened Tasks
  import opened Ordering

  /** The repository passed every precondition check. */
  predicate Validated(o: Options, w: World) {
    ValidateRepoState(o, w).result.Success?
  }

  /** The version the run negotiated ("" when it has none). */
  function Resolved(o: Options, w: World, lib: VersionLib): string {
    Negotiate(o, w, lib).version
  }

  /** Whether the GitHub release call for a repository returned a release. */
  function Returned(w: World, s: Subject): bool {
    if s == Src then w.releaseReturned else w.distReleaseReturned
  }

  /** Every element of a block lies in the block's phase range. */
  lemma InWithin(t: seq<Event>, late: bool, lo: int, hi: int, e: Event)
    requires Within(t, late, lo, hi)
    ensures e in t ==> lo <= Phase(e, late) < hi
  {
    WithinInOrder(t, late, lo, hi);
  }

  /** Every step that changes something comes after the bump's before-hook phase. */
  lemma MutationPhase(e: Event, late: bool)
    requires IsMutation(e)
    ensures 9 <= Phase(e, late) < 78
  {
  }

  /** The events of a configured dist repository fall in its preparation or its replay. */
  lemma DistEventPhase(e: Event, late: bool)
    requires IsDistEvent(e)
    ensures 16 <= Phase(e, late) < 30 || 50 <= Phase(e, late) < 78
  {
  }

  /** Every event of a run other than the error log is an event of the failure-free run. */
  lemma InRun(o: Options, w: World, lib: VersionLib, fault: Option<nat>, e: Event)
    requires e in Release(o, w, lib, fault).trace && e != LogError
    ensures e in Uninterrupted(o, w, lib).trace
  {
    var x := Release(o, w, lib, fault);
    var u := Uninterrupted(o, w, lib);
    var i :| 0 <= i < |x.trace| && x.trace[i] == e;
    if x.result.Failure? {
      assert i < |x.trace| - 1;
      assert u.trace[i] == e;
    }
  }

  /** Membership in a run built from blocks with disjoint phase ranges, stated over the blocks alone. */
  lemma BlocksLocate(opening: seq<Event>, bump: seq<Event>, late: seq<Event>, stage: seq<Event>, prepare: seq<Event>,
                     steps: seq<Event>, after: seq<Event>, replay: seq<Event>, lc: bool, e: Event)
    requires Within(opening, lc, 0, 8) && Within(bump + late + stage, lc, 8, 16) && Within(prepare, lc, 16, 30)
    requires Within(steps, lc, 30, 41) && Within(after, lc, 41, 50) && Within(replay, lc, 50, 78)
    ensures var t := opening + (bump + late + stage + prepare + (steps + after + replay)); var p := Phase(e, lc);
      && (p < 8 ==> (e in t <==> e in opening))
      && (8 <= p < 16 ==> (e in t <==> e in bump + late + stage))
      && (16 <= p < 30 ==> (e in t <==> e in prepare))
      && (30 <= p < 41 ==> (e in t <==> e in steps))
      && (41 <= p < 50 ==> (e in t <==> e in after))
      && (50 <= p < 78 ==> (e in t <==> e in replay))
      && (78 <= p ==> e !in t)
  {
    InWithin(opening, lc, 0, 8, e);
    InWithin(bump + late + stage, lc, 8, 16, e);
    InWithin(prepare, lc, 16, 30, e);
    InWithin(steps, lc, 30, 41, e);
    InWithin(after, lc, 41, 50, e);
    InWithin(replay, lc, 50, 78, e);
  }

  /** The blocks of a run up to the dist preparation, with their phase ranges. */
  lemma OpeningBlocksWithin(o: Options, w: World, lib: VersionLib, v: string)
    ensures Within(Opening(o, w, lib), o.lateChangelog, 0, 8)
    ensures Within(BumpSteps(o, v) + ChangelogAt(o, true) + StageSteps(o), o.lateChangelog, 8, 16)
    ensures Within(DistPrepare(o, v), o.lateChangelog, 16, 30)
  {
    var late := o.lateChangelog;
    OpeningWithin(o, w, lib);
    BumpStepsWithin(o, v);
    WithinAtMostOne(ChangelogAt(o, true), FetchChangelog, late, 11, 12);
    StageStepsWithin(o);
    WithinConcat3(BumpSteps(o, v), ChangelogAt(o, true), StageSteps(o), late, 8, 11, 12, 16);
    DistPrepareWithin(o, v);
  }

  /** The blocks of a run from the primary release steps on, with their phase ranges. */
  lemma PublishBlocksWithin(o: Options, w: World)
    ensures Within(ReleaseSteps(o, w, Src, PrimaryFlags(o), w.releaseReturned), o.lateChangelog, 30, 41)
    ensures Within(Script(o.scripts, Src, AfterRelease), o.lateChangelog, 41, 50)
    ensures Within(DistReplay(o, w), o.lateChangelog, 50, 78)
  {
    ReleaseStepsWithin(o, w, Src, PrimaryFlags(o), w.releaseReturned);
    ScriptWithin(o.scripts, Src, AfterRelease, o.lateChangelog, 41, 50);
    DistReplayWithin(o, w);
  }

  /**
   * In a run that reaches the bump, an event's phase decides the one block of
   * the pipeline that can hold it.
   */
  lemma Located(o: Options, w: World, lib: VersionLib, e: Event)
    requires Validated(o, w) && Resolved(o, w, lib) != ""
    ensures var t := Uninterrupted(o, w, lib).trace; var v := Resolved(o, w, lib); var p := Phase(e, o.lateChangelog);
      && t == Opening(o, w, lib) + AfterVersion(o, w, v)
      && (p < 8 ==> (e in t <==> e in Opening(o, w, lib)))
      && (8 <= p < 16 ==> (e in t <==> e in BumpSteps(o, v) + ChangelogAt(o, true) + StageSteps(o)))
      && (16 <= p < 30 ==> (e in t <==> e in DistPrepare(o, v)))
      && (30 <= p < 41 ==> (e in t <==> e in ReleaseSteps(o, w, Src, PrimaryFlags(o), w.releaseReturned)))
      && (41 <= p < 50 ==> (e in t <==> e in Script(o.scripts, Src, AfterRelease)))
      && (50 <= p < 78 ==> (e in t <==> e in DistReplay(o, w)))
      && (78 <= p ==> e !in t)
  {
    var v := Resolved(o, w, lib);
    var bump, cl, stage := BumpSteps(o, v), ChangelogAt(o, true), StageSteps(o);
    var steps, after := ReleaseSteps(o, w, Src, PrimaryFlags(o), w.releaseReturned), Script(o.scripts, Src, AfterRelease);
    OpeningBlocksWithin(o, w, lib, v);
    PublishBlocksWithin(o, w);
    assert Uninterrupted(o, w, lib).trace == Opening(o, w, lib) + AfterVersion(o, w, v);
    assert AfterVersion(o, w, v) == bump + cl + stage + DistPrepare(o, v) + (steps + after + DistReplay(o, w));
    BlocksLocate(Opening(o, w, lib), bump, cl, stage, DistPrepare(o, v), steps, after, DistReplay(o, w), o.lateChangelog, e);
  }

  /** A replay block holds an event of the dist release-step phases only in its replayed steps. */
  lemma ReplayShapeLocate(steps: seq<Event>, after: seq<Event>, late: bool, e: Event)
    requires after == [] || after == [RunScript(Dist, AfterRelease)]
    requires 60 <= Phase(e, late) < 71
    ensures e in [Pushd(Replay), ReadDistRemote, ShowStatus(Dist)] + steps + after + [Popd(Replay), RemoveStageDir] <==> e in steps
  {
  }

  /** Within the dist replay, the dist release steps and their prompts come from the replayed release steps only. */
  lemma ReplayLocated(o: Options, w: World, e: Event)
    requires 60 <= Phase(e, o.lateChangelog) < 71
    ensures e in DistReplay(o, w) <==> o.dist.repo != "" && e in ReleaseSteps(o, w, Dist, DistFlags(o, w), w.distReleaseReturned)
  {
    ReplayShapeLocate(ReleaseSteps(o, w, Dist, DistFlags(o, w), w.distReleaseReturned), Script(o.scripts, Dist, AfterRelease), o.lateChangelog, e);
  }

  /** A gate's block holds its step exactly when the step runs, and its prompt exactly when shown. */
  lemma GateContents(g: Gating, p: Event, e: Event)
    requires g.asked == [] || g.asked == [p]
    requires p != e
    ensures e in Step(g, e) <==> g.runs
    ensures p in Step(g, e) <==> g.asked != []
  {
  }

  /** The release block holds the release exactly when it runs, and the upload only after a returned release. */
  lemma ReleaseGateContents(g: Gating, s: Subject, returned: bool)
    requires g.asked == [] || g.asked == [Prompted(s, ReleasePrompt)]
    ensures CreateRelease(s) in ReleaseTask(g, s, returned) <==> g.runs
    ensures UploadAssets(s) in ReleaseTask(g, s, returned) <==> g.runs && returned
  {
  }

  /** Only a repository's own prompts and release steps have phases in its release block. */
  lemma StepBlockPhase(e: Event, late: bool, s: Subject)
    requires StepBase(s) <= Phase(e, late) < StepBase(s) + 11
    ensures (e.Prompted? || IsReleaseStep(e)) && e.scope == s
  {
  }

  /** The commit of a sequence of gated release steps is present exactly when its gate lets it run. */
  lemma CommitInSequence(s: Subject, commit: Gating, tag: Gating, push: Gating, release: Gating, publish: Gating, returned: bool)
    requires commit.asked == [] || commit.asked == [Prompted(s, CommitPrompt)]
    requires tag.asked == [] || tag.asked == [Prompted(s, TagPrompt)]
    requires push.asked == [] || push.asked == [Prompted(s, PushPrompt)]
    requires release.asked == [] || release.asked == [Prompted(s, ReleasePrompt)]
    requires publish.asked == [] || publish.asked == [Prompted(s, PublishPrompt)]
    ensures Commit(s) in StepSequence(s, commit, tag, push, release, publish, returned) <==> commit.runs
  {
    var e := Commit(s);
    GateContents(commit, Prompted(s, CommitPrompt), e);
    Absent(tag, Prompted(s, TagPrompt), Tag(s), e);
    Absent(push, Prompted(s, PushPrompt), Push(s), e);
    ReleaseAbsent(release, s, returned, e);
    Absent(publish, Prompted(s, PublishPrompt), Publish(s), e);
  }

  /** The tag of a sequence of gated release steps, and its prompt, are present exactly when their gate says so. */
  lemma TagInSequence(s: Subject, commit: Gating, tag: Gating, push: Gating, release: Gating, publish: Gating, returned: bool)
    requires commit.asked == [] || commit.asked == [Prompted(s, CommitPrompt)]
    requires tag.asked == [] || tag.asked == [Prompted(s, TagPrompt)]
    requires push.asked == [] || push.asked == [Prompted(s, PushPrompt)]
    requires release.asked == [] || release.asked == [Prompted(s, ReleasePrompt)]
    requires publish.asked == [] || publish.asked == [Prompted(s, PublishPrompt)]
    ensures Tag(s) in StepSequence(s, commit, tag, push, release, publish, returned) <==> tag.runs
    ensures Prompted(s, TagPrompt) in StepSequence(s, commit, tag, push, release, publish, returned) <==> tag.asked != []
  {
    var cp, tp, pp, up := Prompted(s, CommitPrompt), Prompted(s, TagPrompt), Prompted(s, PushPrompt), Prompted(s, PublishPrompt);
    GateContents(tag, tp, Tag(s));
    Absent(commit, cp, Commit(s), Tag(s));
    Absent(push, pp, Push(s), Tag(s));
    ReleaseAbsent(release, s, returned, Tag(s));
    Absent(publish, up, Publish(s), Tag(s));
    Absent(commit, cp, Commit(s), tp);
    Absent(push, pp, Push(s), tp);
    ReleaseAbsent(release, s, returned, tp);
    Absent(publish, up, Publish(s), tp);
  }

  /** The push of a sequence of gated release steps is present exactly when its gate lets it run. */
  lemma PushInSequence(s: Subject, commit: Gating, tag: Gating, push: Gating, release: Gating, publish: Gating, returned: bool)
    requires commit.asked == [] || commit.asked == [Prompted(s, CommitPrompt)]
    requires tag.asked == [] || tag.asked == [Prompted(s, TagPrompt)]
    requires push.asked == [] || push.asked == [Prompted(s, PushPrompt)]
    requires release.asked == [] || release.asked == [Prompted(s, ReleasePrompt)]
    requires publish.asked == [] || publish.asked == [Prompted(s, PublishPrompt)]
    ensures Push(s) in StepSequence(s, commit, tag, push, release, publish, returned) <==> push.runs
  {
    var e := Push(s);
    Absent(commit, Prompted(s, CommitPrompt), Commit(s), e);
    Absent(tag, Prompted(s, TagPrompt), Tag(s), e);
    GateContents(push, Prompted(s, PushPrompt), e);
    ReleaseAbsent(release, s, returned, e);
    Absent(publish, Prompted(s, PublishPrompt), Publish(s), e);
  }

  /** The GitHub release of a sequence of gated release steps runs when its gate says so, and the upload only after a returned release. */
  lemma ReleaseInSequence(s: Subject, commit: Gating, tag: Gating, push: Gating, release: Gating, publish: Gating, returned: bool)
    requires commit.asked == [] || commit.asked == [Prompted(s, CommitPrompt)]
    requires tag.asked == [] || tag.asked == [Prompted(s, TagPrompt)]
    requires push.asked == [] || push.asked == [Prompted(s, PushPrompt)]
    requires release.asked == [] || release.asked == [Prompted(s, ReleasePrompt)]
    requires publish.asked == [] || publish.asked == [Prompted(s, PublishPrompt)]
    ensures CreateRelease(s) in StepSequence(s, commit, tag, push, release, publish, returned) <==> release.runs
    ensures UploadAssets(s) in StepSequence(s, commit, tag, push, release, publish, returned) <==> release.runs && returned
  {
    var cp, tp, pp, up := Prompted(s, CommitPrompt), Prompted(s, TagPrompt), Prompted(s, PushPrompt), Prompted(s, PublishPrompt);
    ReleaseGateContents(release, s, returned);
    Absent(commit, cp, Commit(s), CreateRelease(s));
    Absent(tag, tp, Tag(s), CreateRelease(s));
    Absent(push, pp, Push(s), CreateRelease(s));
    Absent(publish, up, Publish(s), CreateRelease(s));
    Absent(commit, cp, Commit(s), UploadAssets(s));
    Absent(tag, tp, Tag(s), UploadAssets(s));
    Absent(push, pp, Push(s), UploadAssets(s));
    Absent(publish, up, Publish(s), UploadAssets(s));
  }

  /** The publication of a sequence of gated release steps, and its prompt, are present exactly when their gate says so. */
  lemma PublishInSequence(s: Subject, commit: Gating, tag: Gating, push: Gating, release: Gating, publish: Gating, returned: bool)
    requires commit.asked == [] || commit.asked == [Prompted(s, CommitPrompt)]
    requires tag.asked == [] || tag.asked == [Prompted(s, TagPrompt)]
    requires push.asked == [] || push.asked == [Prompted(s, PushPrompt)]
    requires release.asked == [] || release.asked == [Prompted(s, ReleasePrompt)]
    requires publish.asked == [] || publish.asked == [Prompted(s, PublishPrompt)]
    ensures Publish(s) in StepSequence(s, commit, tag, push, release, publish, returned) <==> publish.runs
    ensures Prompted(s, PublishPrompt) in StepSequence(s, commit, tag, push, release, publish, returned) <==> publish.asked != []
  {
    var cp, tp, pp, up := Prompted(s, CommitPrompt), Prompted(s, TagPrompt), Prompted(s, PushPrompt), Prompted(s, PublishPrompt);
    GateContents(publish, up, Publish(s));
    Absent(commit, cp, Commit(s), Publish(s));
    Absent(tag, tp, Tag(s), Publish(s));
    Absent(push, pp, Push(s), Publish(s));
    ReleaseAbsent(release, s, returned, Publish(s));
    Absent(commit, cp, Commit(s), up);
    Absent(tag, tp, Tag(s), up);
    Absent(push, pp, Push(s), up);
    ReleaseAbsent(release, s, returned, up);
  }

  /** A gate's block holds nothing but its prompt and its step. */
  lemma Absent(g: Gating, p: Event, x: Event, e: Event)
    requires g.asked == [] || g.asked == [p]
    requires e != p && e != x
    ensures e !in Step(g, x)
  {
  }

  /** The release block holds nothing but its prompt, the release and the upload. */
  lemma ReleaseAbsent(g: Gating, s: Subject, returned: bool, e: Event)
    requires g.asked == [] || g.asked == [Prompted(s, ReleasePrompt)]
    requires e != Prompted(s, ReleasePrompt) && e != CreateRelease(s) && e != UploadAssets(s)
    ensures e !in ReleaseTask(g, s, returned)
  {
  }

  /** The release steps of one repository hold only its own prompts and release steps. */
  lemma ReleaseStepsScope(o: Options, w: World, s: Subject, f: StepFlags, returned: bool)
    ensures forall e :: e in ReleaseSteps(o, w, s, f, returned) ==> (e.Prompted? || IsReleaseStep(e)) && e.scope == s
  {
    var late := o.lateChangelog;
    ReleaseStepsWithin(o, w, s, f, returned);
    forall e | e in ReleaseSteps(o, w, s, f, returned)
      ensures (e.Prompted? || IsReleaseStep(e)) && e.scope == s
    {
      InWithin(ReleaseSteps(o, w, s, f, returned), late, StepBase(s), StepBase(s) + 11, e);
      StepBlockPhase(e, late, s);
    }
  }

  /** A repository commits exactly when the commit is performed under its switch. */
  lemma CommitPresent(o: Options, w: World, s: Subject, f: StepFlags, returned: bool)
    ensures Commit(s) in ReleaseSteps(o, w, s, f, returned) <==> Performs(o, w, f.commit, s, CommitPrompt)
  {
    var c := GatedStep(o, w, f.commit, s, CommitPrompt);
    var t := GatedStep(o, w, f.tag, s, TagPrompt);
    var p := GatedStep(o, w, f.push, s, PushPrompt);
    var r := GatedStep(o, w, f.release, s, ReleasePrompt);
    var u := GatedStep(o, w, f.publish, s, PublishPrompt);
    CommitInSequence(s, c, t, p, r, u, returned);
  }

  /** A repository is tagged exactly when the tag is performed under its switch; the tag prompt is shown exactly in an interactive run with tagging on. */
  lemma TagPresent(o: Options, w: World, s: Subject, f: StepFlags, returned: bool)
    ensures Tag(s) in ReleaseSteps(o, w, s, f, returned) <==> Performs(o, w, f.tag, s, TagPrompt)
    ensures Prompted(s, TagPrompt) in ReleaseSteps(o, w, s, f, returned) <==> o.isInteractive && f.tag
  {
    var c := GatedStep(o, w, f.commit, s, CommitPrompt);
    var t := GatedStep(o, w, f.tag, s, TagPrompt);
    var p := GatedStep(o, w, f.push, s, PushPrompt);
    var r := GatedStep(o, w, f.release, s, ReleasePrompt);
    var u := GatedStep(o, w, f.publish, s, PublishPrompt);
    TagInSequence(s, c, t, p, r, u, returned);
  }

  /** A repository is pushed exactly when the push is performed under its switch. */
  lemma PushPresent(o: Options, w: World, s: Subject, f: StepFlags, returned: bool)
    ensures Push(s) in ReleaseSteps(o, w, s, f, returned) <==> Performs(o, w, f.push, s, PushPrompt)
  {
    var c := GatedStep(o, w, f.commit, s, CommitPrompt);
    var t := GatedStep(o, w, f.tag, s, TagPrompt);
    var p := GatedStep(o, w, f.push, s, PushPrompt);
    var r := GatedStep(o, w, f.release, s, ReleasePrompt);
    var u := GatedStep(o, w, f.publish, s, PublishPrompt);
    PushInSequence(s, c, t, p, r, u, returned);
  }

  /** A GitHub release is created exactly when it is performed under its switch, and assets are uploaded exactly when it also returned a release. */
  lemma ReleasePresent(o: Options, w: World, s: Subject, f: StepFlags, returned: bool)
    ensures CreateRelease(s) in ReleaseSteps(o, w, s, f, returned) <==> Performs(o, w, f.release, s, ReleasePrompt)
    ensures UploadAssets(s) in ReleaseSteps(o, w, s, f, returned) <==> Performs(o, w, f.release, s, ReleasePrompt) && returned
  {
    var c := GatedStep(o, w, f.commit, s, CommitPrompt);
    var t := GatedStep(o, w, f.tag, s, TagPrompt);
    var p := GatedStep(o, w, f.push, s, PushPrompt);
    var r := GatedStep(o, w, f.release, s, ReleasePrompt);
    var u := GatedStep(o, w, f.publish, s, PublishPrompt);
    ReleaseInSequence(s, c, t, p, r, u, returned);
  }

  /** A repository is published exactly when publishing is performed under its switch; the publish prompt is shown exactly in an interactive run with publishing on. */
  lemma PublishPresent(o: Options, w: World, s: Subject, f: StepFlags, returned: bool)
    ensures Publish(s) in ReleaseSteps(o, w, s, f, returned) <==> Performs(o, w, f.publish, s, PublishPrompt)
    ensures Prompted(s, PublishPrompt) in ReleaseSteps(o, w, s, f, returned) <==> o.isInteractive && f.publish
  {
    var c := GatedStep(o, w, f.commit, s, CommitPrompt);
    var t := GatedStep(o, w, f.tag, s, TagPrompt);
    var p := GatedStep(o, w, f.push, s, PushPrompt);
    var r := GatedStep(o, w, f.release, s, ReleasePrompt);
    var u := GatedStep(o, w, f.publish, s, PublishPrompt);
    PublishInSequence(s, c, t, p, r, u, returned);
  }

  /** An event past the opening phases occurs only in a run that was validated and resolved a version. */
  lemma PastOpening(o: Options, w: World, lib: VersionLib, e: Event)
    requires e in Uninterrupted(o, w, lib).trace && Phase(e, o.lateChangelog) >= 8
    ensures Validated(o, w) && Resolved(o, w, lib) != ""
  {
    OpeningWithin(o, w, lib);
    InWithin(Opening(o, w, lib), o.lateChangelog, 0, 8, e);
  }

  /** Only the removal of the staging directory has the last phase of a run. */
  lemma LastPhase(e: Event, late: bool)
    requires Phase(e, late) == 77
    ensures e == RemoveStageDir
  {
  }

  /**
   * In a trace within the phases of a failure-free run, the removal of the
   * staging directory can only be last, and leaving the directory after the
   * replay can only be last or right before the removal.
   */
  lemma CleanupIsLastIn(t: seq<Event>, late: bool, i: int)
    requires Within(t, late, 0, 78) && 0 <= i < |t|
    decreases |t| - i
    ensures t[i] == RemoveStageDir ==> i == |t| - 1
    ensures t[i] == Popd(Replay) ==> (i == |t| - 2 && t[i + 1] == RemoveStageDir) || i == |t| - 1
  {
    WithinInOrder(t, late, 0, 78);
    if i + 1 < |t| {
      assert Phase(t[i], late) < Phase(t[i + 1], late) < 78;
      if t[i] == Popd(Replay) {
        LastPhase(t[i + 1], late);
        CleanupIsLastIn(t, late, i + 1);
      }
    }
  }

  /**
   * The removal of the staging directory is the last event of the failure-free
   * run, and leaving the directory after the replay comes right before it.
   */
  lemma CleanupIsLast(o: Options, w: World, lib: VersionLib, i: int)
    requires 0 <= i < |Uninterrupted(o, w, lib).trace|
    ensures var t := Uninterrupted(o, w, lib).trace;
      && (t[i] == RemoveStageDir ==> i == |t| - 1)
      && (t[i] == Popd(Replay) ==> (i == |t| - 2 && t[i + 1] == RemoveStageDir) || i == |t| - 1)
  {
    UninterruptedWithin(o, w, lib);
    CleanupIsLastIn(Uninterrupted(o, w, lib).trace, o.lateChangelog, i);
  }

  /** An event of the primary release-step phases in the failure-free run comes from the primary release steps. */
  lemma InPrimarySteps(o: Options, w: World, lib: VersionLib, e: Event)
    requires 30 <= Phase(e, o.lateChangelog) < 41
    ensures e in Uninterrupted(o, w, lib).trace <==>
      Validated(o, w) && Resolved(o, w, lib) != "" && e in ReleaseSteps(o, w, Src, PrimaryFlags(o), w.releaseReturned)
  {
    if e in Uninterrupted(o, w, lib).trace {
      PastOpening(o, w, lib, e);
    }
    if Validated(o, w) && Resolved(o, w, lib) != "" {
      Located(o, w, lib, e);
    }
  }

  /** An event of the dist release-step phases in the failure-free run comes from the dist release steps. */
  lemma InDistSteps(o: Options, w: World, lib: VersionLib, e: Event)
    requires 60 <= Phase(e, o.lateChangelog) < 71
    ensures e in Uninterrupted(o, w, lib).trace <==>
      Validated(o, w) && Resolved(o, w, lib) != "" && o.dist.repo != ""
      && e in ReleaseSteps(o, w, Dist, DistFlags(o, w), w.distReleaseReturned)
  {
    ReplayLocated(o, w, e);
    if e in Uninterrupted(o, w, lib).trace {
      PastOpening(o, w, lib, e);
    }
    if Validated(o, w) && Resolved(o, w, lib) != "" {
      Located(o, w, lib, e);
    }
  }
}
