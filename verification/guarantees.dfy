/**
 * The guarantees of the release pipeline of lib/tasks.js, stated about every
 * run `Release(o, w, lib, fault)`: every configuration, every collaborator
 * answer and every position of a failing step.
 */
module Guarantees {
  import opened Outcomes
  import opened Versions
  import opened Prompt
  import opened Trace
  import opened Config
  import opened Repo
  import opened Tasks
  import opened Ordering
  import opened Blocks

  /** In any trace visiting the phases in order, every validation query precedes every change. */
  lemma QueriesBeforeMutations(t: seq<Event>, late: bool)
    requires InOrder(t, late)
    ensures forall i, j :: 0 <= i < |t| && 0 <= j < |t| && t[i].Query? && IsMutation(t[j]) ==> i < j
  {
    forall i, j | 0 <= i < |t| && 0 <= j < |t| && t[i].Query? && IsMutation(t[j])
      ensures i < j
    {
      MutationPhase(t[j], late);
      InOrderPositions(t, late, i, j);
    }
  }

  /** A change in a run implies the run was validated and resolved a version. */
  lemma MutationMeansValidated(o: Options, w: World, lib: VersionLib, fault: Option<nat>, e: Event)
    requires e in Release(o, w, lib, fault).trace && IsMutation(e)
    ensures Validated(o, w) && Resolved(o, w, lib) != ""
  {
    InRun(o, w, lib, fault, e);
    MutationPhase(e, o.lateChangelog);
    PastOpening(o, w, lib, e);
  }

  /**
   * Nothing is changed before the repository is validated and a version is
   * resolved: every change comes after every validation query.
   */
  lemma NoMutationBeforeValidation(o: Options, w: World, lib: VersionLib, fault: Option<nat>)
    ensures forall e :: e in Release(o, w, lib, fault).trace && IsMutation(e) ==> Validated(o, w) && Resolved(o, w, lib) != ""
    ensures var t := Release(o, w, lib, fault).trace;
      forall i, j :: 0 <= i < |t| && 0 <= j < |t| && t[i].Query? && IsMutation(t[j]) ==> i < j
  {
    ReleaseInOrder(o, w, lib, fault);
    QueriesBeforeMutations(Release(o, w, lib, fault).trace, o.lateChangelog);
    forall e | e in Release(o, w, lib, fault).trace && IsMutation(e)
      ensures Validated(o, w) && Resolved(o, w, lib) != ""
    {
      MutationMeansValidated(o, w, lib, fault, e);
    }
  }

  /**
   * A validated run without a usable version fails before the bump and changes
   * nothing: every event but the error log belongs to the opening, so not even
   * the before-bump hook runs. Unless an earlier step threw, it fails with the
   * invalid-version error.
   */
  lemma InvalidVersionStopsBeforeBump(o: Options, w: World, lib: VersionLib, fault: Option<nat>)
    requires Validated(o, w) && Resolved(o, w, lib) == ""
    ensures Release(o, w, lib, fault).result.Failure?
    ensures forall e :: e in Release(o, w, lib, fault).trace ==> !IsMutation(e)
    ensures fault == None ==> Release(o, w, lib, fault).result == Failure(InvalidVersionError)
    ensures forall e :: e in Release(o, w, lib, fault).trace ==> e == LogError || Phase(e, o.lateChangelog) < 8
    ensures RunScript(Src, BeforeBump) !in Release(o, w, lib, fault).trace
  {
    NoMutationBeforeValidation(o, w, lib, fault);
    forall e | e in Release(o, w, lib, fault).trace && e != LogError
      ensures Phase(e, o.lateChangelog) < 8
    {
      InRun(o, w, lib, fault, e);
      if Phase(e, o.lateChangelog) >= 8 {
        PastOpening(o, w, lib, e);
      }
    }
    assert Phase(RunScript(Src, BeforeBump), o.lateChangelog) == 8;
  }

  /**
   * A non-interactive run given no version shows no prompt, changes nothing and
   * fails with the invalid-version error.
   */
  lemma NonInteractiveRunNeedsVersion(o: Options, w: World, lib: VersionLib)
    requires Validated(o, w) && !o.isInteractive && w.parsedVersion == ""
    ensures Release(o, w, lib, None).result == Failure(InvalidVersionError)
    ensures forall e :: e in Release(o, w, lib, None).trace ==> !e.Prompted? && !IsMutation(e)
  {
    InvalidVersionStopsBeforeBump(o, w, lib, None);
    var v := ValidateRepoState(o, w);
    assert Release(o, w, lib, None).trace
      == Script(o.scripts, Src, BeforeStart) + v.queries + (ChangelogAt(o, false) + []) + [LogError];
  }

  /** In any trace visiting the phases in order, where the changelog fetch can stand. */
  lemma ChangelogOrderIn(t: seq<Event>, late: bool)
    requires InOrder(t, late)
    ensures forall i, j :: 0 <= i < |t| && 0 <= j < |t| && t[i] == FetchChangelog && t[j] == FetchChangelog ==> i == j
    ensures forall i, j :: 0 <= i < |t| && 0 <= j < |t| && t[i] == FetchChangelog && t[j] == StagePackageFiles ==> i < j
    ensures forall i, j :: 0 <= i < |t| && 0 <= j < |t| && t[i] == FetchChangelog && t[j].Bump? && t[j].scope == Src ==>
      (j < i <==> late)
    ensures forall i, j :: 0 <= i < |t| && 0 <= j < |t| && t[i] == FetchChangelog && t[j] == Prompted(Src, IncrementList) ==>
      (j < i <==> late)
  {
    forall i, j | 0 <= i < |t| && 0 <= j < |t|
      ensures Phase(t[i], late) < Phase(t[j], late) ==> i < j
      ensures Phase(t[j], late) < Phase(t[i], late) ==> j < i
      ensures t[i] == t[j] ==> i == j
    {
      InOrderPositions(t, late, i, j);
      InOrderPositions(t, late, j, i);
    }
  }

  /** A successful run fetches the changelog. */
  lemma ChangelogOnSuccess(o: Options, w: World, lib: VersionLib, fault: Option<nat>)
    requires Release(o, w, lib, fault).result.Success?
    ensures FetchChangelog in Release(o, w, lib, fault).trace
  {
    Located(o, w, lib, FetchChangelog);
  }

  /**
   * The changelog is fetched at most once, always before the package files are
   * staged, and in every successful run. It is fetched after the bump and after
   * the increment prompt exactly when the late-changelog option is set.
   */
  lemma ChangelogPosition(o: Options, w: World, lib: VersionLib, fault: Option<nat>)
    ensures var t := Release(o, w, lib, fault).trace;
      forall i, j :: 0 <= i < |t| && 0 <= j < |t| && t[i] == FetchChangelog && t[j] == FetchChangelog ==> i == j
    ensures var t := Release(o, w, lib, fault).trace;
      forall i, j :: 0 <= i < |t| && 0 <= j < |t| && t[i] == FetchChangelog && t[j] == StagePackageFiles ==> i < j
    ensures var t := Release(o, w, lib, fault).trace;
      forall i, j :: 0 <= i < |t| && 0 <= j < |t| && t[i] == FetchChangelog && t[j].Bump? && t[j].scope == Src ==>
        (j < i <==> o.lateChangelog)
    ensures var t := Release(o, w, lib, fault).trace;
      forall i, j :: 0 <= i < |t| && 0 <= j < |t| && t[i] == FetchChangelog && t[j] == Prompted(Src, IncrementList) ==>
        (j < i <==> o.lateChangelog)
    ensures Release(o, w, lib, fault).result.Success? ==> FetchChangelog in Release(o, w, lib, fault).trace
  {
    ReleaseInOrder(o, w, lib, fault);
    ChangelogOrderIn(Release(o, w, lib, fault).trace, o.lateChangelog);
    if Release(o, w, lib, fault).result.Success? {
      ChangelogOnSuccess(o, w, lib, fault);
    }
  }

  /** Among the release steps of one repository, the rank decides the phase order. */
  lemma RankIsPhaseOrder(a: Event, b: Event, late: bool)
    requires IsReleaseStep(a) && IsReleaseStep(b) && a.scope == b.scope
    ensures StepRank(a) < StepRank(b) <==> Phase(a, late) < Phase(b, late)
  {
  }

  /** In any trace visiting the phases in order, the release steps keep their rank order, primary before dist. */
  lemma StepOrderIn(t: seq<Event>, late: bool)
    requires InOrder(t, late)
    ensures forall i, j :: 0 <= i < j < |t| && IsReleaseStep(t[i]) && IsReleaseStep(t[j]) && t[i].scope == t[j].scope ==>
      StepRank(t[i]) < StepRank(t[j])
    ensures forall i, j :: 0 <= i < |t| && 0 <= j < |t| && IsReleaseStep(t[i]) && IsReleaseStep(t[j]) && t[i].scope == Src && t[j].scope == Dist ==>
      i < j
  {
    forall i, j | 0 <= i < j < |t| && IsReleaseStep(t[i]) && IsReleaseStep(t[j]) && t[i].scope == t[j].scope
      ensures StepRank(t[i]) < StepRank(t[j])
    {
      RankIsPhaseOrder(t[i], t[j], late);
    }
    forall i, j | 0 <= i < |t| && 0 <= j < |t| && IsReleaseStep(t[i]) && IsReleaseStep(t[j]) && t[i].scope == Src && t[j].scope == Dist
      ensures i < j
    {
      InOrderPositions(t, late, i, j);
    }
  }

  /**
   * The release steps of each repository run in the order commit, tag, push,
   * GitHub release, assets, publish, and every primary step comes before every
   * dist step.
   */
  lemma ReleaseStepOrder(o: Options, w: World, lib: VersionLib, fault: Option<nat>)
    ensures var t := Release(o, w, lib, fault).trace;
      forall i, j :: 0 <= i < j < |t| && IsReleaseStep(t[i]) && IsReleaseStep(t[j]) && t[i].scope == t[j].scope ==>
        StepRank(t[i]) < StepRank(t[j])
    ensures var t := Release(o, w, lib, fault).trace;
      forall i, j :: 0 <= i < |t| && 0 <= j < |t| && IsReleaseStep(t[i]) && IsReleaseStep(t[j]) && t[i].scope == Src && t[j].scope == Dist ==>
        i < j
  {
    ReleaseInOrder(o, w, lib, fault);
    StepOrderIn(Release(o, w, lib, fault).trace, o.lateChangelog);
  }

  /** No event occurs twice in a run: every step, prompt and hook runs at most once. */
  lemma EachStepOnce(o: Options, w: World, lib: VersionLib, fault: Option<nat>)
    ensures var t := Release(o, w, lib, fault).trace;
      forall i, j :: 0 <= i < |t| && 0 <= j < |t| && t[i] == t[j] ==> i == j
  {
    var t := Release(o, w, lib, fault).trace;
    ReleaseInOrder(o, w, lib, fault);
    forall i, j | 0 <= i < |t| && 0 <= j < |t| && t[i] == t[j]
      ensures i == j
    {
      InOrderPositions(t, o.lateChangelog, i, j);
    }
  }

  /** The release steps of the repository a subject names, under its switches. */
  function StepsOf(o: Options, w: World, s: Subject): seq<Event> {
    if s == Src then ReleaseSteps(o, w, Src, PrimaryFlags(o), w.releaseReturned)
    else ReleaseSteps(o, w, Dist, DistFlags(o, w), w.distReleaseReturned)
  }

  /** A release step lies in its repository's phase range. */
  lemma StepPhase(e: Event, late: bool)
    requires IsReleaseStep(e)
    ensures StepBase(e.scope) <= Phase(e, late) < StepBase(e.scope) + 11
  {
  }

  /** An event of a repository's release-step phases is in the failure-free run exactly when it is among that repository's release steps. */
  lemma InSteps(o: Options, w: World, lib: VersionLib, s: Subject, e: Event)
    requires StepBase(s) <= Phase(e, o.lateChangelog) < StepBase(s) + 11
    ensures e in Uninterrupted(o, w, lib).trace <==>
      Validated(o, w) && Resolved(o, w, lib) != "" && (s == Dist ==> o.dist.repo != "") && e in StepsOf(o, w, s)
  {
    if s == Src {
      InPrimarySteps(o, w, lib, e);
    } else {
      InDistSteps(o, w, lib, e);
    }
  }

  /** An upload in the failure-free run means the GitHub release ran and returned. */
  lemma UploadMeansReturnedRelease(o: Options, w: World, lib: VersionLib, s: Subject)
    requires UploadAssets(s) in Uninterrupted(o, w, lib).trace
    ensures CreateRelease(s) in Uninterrupted(o, w, lib).trace && Returned(w, s)
  {
    StepPhase(UploadAssets(s), o.lateChangelog);
    StepPhase(CreateRelease(s), o.lateChangelog);
    InSteps(o, w, lib, s, UploadAssets(s));
    UploadInSteps(o, w, s);
    InSteps(o, w, lib, s, CreateRelease(s));
  }

  /** Within one repository's release steps, an upload means the release ran and returned. */
  lemma UploadInSteps(o: Options, w: World, s: Subject)
    requires UploadAssets(s) in StepsOf(o, w, s)
    ensures CreateRelease(s) in StepsOf(o, w, s) && Returned(w, s)
  {
    if s == Src {
      ReleasePresent(o, w, Src, PrimaryFlags(o), w.releaseReturned);
    } else {
      ReleasePresent(o, w, Dist, DistFlags(o, w), w.distReleaseReturned);
    }
  }

  /** In a trace visiting the phases in order, events of consecutive phases stand side by side. */
  lemma AdjacentByPhase(t: seq<Event>, late: bool, i: int, j: int)
    requires InOrder(t, late) && 0 <= i < |t| && 0 <= j < |t|
    requires Phase(t[j], late) == Phase(t[i], late) + 1
    ensures j == i + 1
  {
    InOrderPositions(t, late, i, j);
    if i + 1 < j {
      InOrderPositions(t, late, i + 1, j);
    }
  }

  /** The asset upload has the phase right after its GitHub release. */
  lemma UploadPhase(s: Subject, late: bool)
    ensures Phase(UploadAssets(s), late) == Phase(CreateRelease(s), late) + 1
  {
  }

  /** In a trace visiting the phases in order, an upload next to a present GitHub release stands right after it. */
  lemma ReleaseBeforeUpload(t: seq<Event>, late: bool, s: Subject, j: int)
    requires InOrder(t, late) && CreateRelease(s) in t && 0 <= j < |t| && t[j] == UploadAssets(s)
    requires Phase(UploadAssets(s), late) == Phase(CreateRelease(s), late) + 1
    ensures 0 < j && t[j - 1] == CreateRelease(s)
  {
    var i :| 0 <= i < |t| && t[i] == CreateRelease(s);
    AdjacentByPhase(t, late, i, j);
  }

  /** The failure-free run visits the phases in order. */
  lemma UninterruptedInOrder(o: Options, w: World, lib: VersionLib)
    ensures InOrder(Uninterrupted(o, w, lib).trace, o.lateChangelog)
  {
    UninterruptedWithin(o, w, lib);
    WithinInOrder(Uninterrupted(o, w, lib).trace, o.lateChangelog, 0, 78);
  }

  /** In the failure-free run, an asset upload comes right after a GitHub release that returned a release. */
  lemma UploadInUninterrupted(o: Options, w: World, lib: VersionLib, s: Subject, j: int)
    requires 0 <= j < |Uninterrupted(o, w, lib).trace| && Uninterrupted(o, w, lib).trace[j] == UploadAssets(s)
    ensures 0 < j && Uninterrupted(o, w, lib).trace[j - 1] == CreateRelease(s) && Returned(w, s)
  {
    UploadMeansReturnedRelease(o, w, lib, s);
    UninterruptedInOrder(o, w, lib);
    UploadPhase(s, o.lateChangelog);
    ReleaseBeforeUpload(Uninterrupted(o, w, lib).trace, o.lateChangelog, s, j);
  }

  /**
   * Assets of a repository are uploaded only right after its GitHub release,
   * and only when the release call returned a release.
   */
  lemma UploadFollowsRelease(o: Options, w: World, lib: VersionLib, fault: Option<nat>, s: Subject)
    ensures var t := Release(o, w, lib, fault).trace;
      forall j :: 0 <= j < |t| && t[j] == UploadAssets(s) ==> 0 < j && t[j - 1] == CreateRelease(s) && Returned(w, s)
  {
    var x := Release(o, w, lib, fault);
    var u := Uninterrupted(o, w, lib);
    forall j | 0 <= j < |x.trace| && x.trace[j] == UploadAssets(s)
      ensures 0 < j && x.trace[j - 1] == CreateRelease(s) && Returned(w, s)
    {
      assert j < |u.trace| && u.trace[j] == UploadAssets(s);
      UploadInUninterrupted(o, w, lib, s, j);
    }
  }

  /** A publish step or prompt for the primary package means publishing is on and the package is not private. */
  lemma PublishMeansPublic(o: Options, w: World, lib: VersionLib, fault: Option<nat>, e: Event)
    requires e == Publish(Src) || e == Prompted(Src, PublishPrompt)
    requires e in Release(o, w, lib, fault).trace
    ensures o.npm.publish && !o.npm.isPrivate
  {
    InRun(o, w, lib, fault, e);
    PublishPhase(e, o.lateChangelog);
    InPrimarySteps(o, w, lib, e);
    PublishInSteps(o, w, e);
  }

  /** Publishing and its prompt lie in the primary release-step phases. */
  lemma PublishPhase(e: Event, late: bool)
    requires e == Publish(Src) || e == Prompted(Src, PublishPrompt)
    ensures 30 <= Phase(e, late) < 41
  {
  }

  /** Within the primary release steps, publishing or its prompt means publishing is on for a public package. */
  lemma PublishInSteps(o: Options, w: World, e: Event)
    requires e == Publish(Src) || e == Prompted(Src, PublishPrompt)
    requires e in ReleaseSteps(o, w, Src, PrimaryFlags(o), w.releaseReturned)
    ensures o.npm.publish && !o.npm.isPrivate
  {
    PublishPresent(o, w, Src, PrimaryFlags(o), w.releaseReturned);
  }

  /** A private package is never published, and publishing it is never even asked about. */
  lemma PrivatePackageNeverPublished(o: Options, w: World, lib: VersionLib, fault: Option<nat>)
    requires o.npm.isPrivate
    ensures Publish(Src) !in Release(o, w, lib, fault).trace
    ensures Prompted(Src, PublishPrompt) !in Release(o, w, lib, fault).trace
  {
    if Publish(Src) in Release(o, w, lib, fault).trace {
      PublishMeansPublic(o, w, lib, fault, Publish(Src));
    }
    if Prompted(Src, PublishPrompt) in Release(o, w, lib, fault).trace {
      PublishMeansPublic(o, w, lib, fault, Prompted(Src, PublishPrompt));
    }
  }

  /** A dist event in the failure-free run means a dist repository is configured. */
  lemma DistEventInUninterrupted(o: Options, w: World, lib: VersionLib, e: Event)
    requires e in Uninterrupted(o, w, lib).trace && IsDistEvent(e)
    ensures o.dist.repo != ""
  {
    DistEventPhase(e, o.lateChangelog);
    PastOpening(o, w, lib, e);
    Located(o, w, lib, e);
  }

  /** A dist event in a run means a dist repository is configured. */
  lemma DistEventNeedsRepository(o: Options, w: World, lib: VersionLib, fault: Option<nat>, e: Event)
    requires e in Release(o, w, lib, fault).trace && IsDistEvent(e)
    ensures o.dist.repo != ""
  {
    InRun(o, w, lib, fault, e);
    DistEventInUninterrupted(o, w, lib, e);
  }

  /** Without a configured dist repository, no run touches a staging directory or any dist step. */
  lemma NoDistWithoutRepository(o: Options, w: World, lib: VersionLib, fault: Option<nat>)
    ensures forall e :: e in Release(o, w, lib, fault).trace && IsDistEvent(e) ==> o.dist.repo != ""
  {
    forall e | e in Release(o, w, lib, fault).trace && IsDistEvent(e)
      ensures o.dist.repo != ""
    {
      DistEventNeedsRepository(o, w, lib, fault, e);
    }
  }

  /** A dist tag in a run means the dist repository is configured and the tag decision holds. */
  lemma DistTagMeansShouldTag(o: Options, w: World, lib: VersionLib, fault: Option<nat>)
    requires Tag(Dist) in Release(o, w, lib, fault).trace
    ensures o.dist.repo != "" && ShouldTag(o.dist.tag, w.sameRepo, o.dist.tagName, o.git.tagName, o.git.tag)
  {
    InRun(o, w, lib, fault, Tag(Dist));
    StepPhase(Tag(Dist), o.lateChangelog);
    InDistSteps(o, w, lib, Tag(Dist));
    TagPresent(o, w, Dist, DistFlags(o, w), w.distReleaseReturned);
  }

  /**
   * With the same repository as primary and dist, a dist tag name equal to the
   * primary one and primary tagging on, the dist repository is never tagged.
   */
  lemma SameRepositoryTagNotRepeated(o: Options, w: World, lib: VersionLib, fault: Option<nat>)
    requires w.sameRepo && o.dist.tagName == Some(o.git.tagName) && o.git.tag
    ensures Tag(Dist) !in Release(o, w, lib, fault).trace
  {
    if Tag(Dist) in Release(o, w, lib, fault).trace {
      DistTagMeansShouldTag(o, w, lib, fault);
    }
  }

  /** The tag decision, one case per repository relation. */
  lemma ShouldTagByRepository(distTag: bool, distTagName: Option<string>, gitTagName: string, gitTag: bool)
    ensures ShouldTag(distTag, false, distTagName, gitTagName, gitTag) == distTag
    ensures ShouldTag(distTag, true, distTagName, gitTagName, gitTag) == (distTagName != Some(gitTagName) || (distTag && !gitTag))
  {
  }
}
