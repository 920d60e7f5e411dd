/**
 * Which release steps a successful run performs, for the primary and for the
 * dist repository, as the configuration switches and the prompt answers
 * decide them.
 */
module Switches {
  import opened Outcomes
  import opened Versions
  import opened Prompt
  import opened Trace
  import opened Config
  import opened Repo
  import opened Tasks
  import opened Ordering
  import opened Blocks
  import opened Guarantees
  import opened Runs

  /**
   * The primary release steps a trace holds: each exactly when its switch is
   * on and, in an interactive run, its prompt was confirmed. A private package
   * is never published, and assets are uploaded only when the GitHub release
   * returned a release.
   */
  predicate PrimaryStepsAsConfigured(t: seq<Event>, o: Options, w: World) {
    && (Commit(Src) in t <==> Performs(o, w, o.git.commit, Src, CommitPrompt))
    && (Tag(Src) in t <==> Performs(o, w, o.git.tag, Src, TagPrompt))
    && (Push(Src) in t <==> Performs(o, w, o.git.push, Src, PushPrompt))
    && (CreateRelease(Src) in t <==> Performs(o, w, o.github.release, Src, ReleasePrompt))
    && (UploadAssets(Src) in t <==> Performs(o, w, o.github.release, Src, ReleasePrompt) && w.releaseReturned)
    && (Publish(Src) in t <==> Performs(o, w, !o.npm.isPrivate && o.npm.publish, Src, PublishPrompt))
  }

  /**
   * The dist release steps a trace holds: none without a dist repository;
   * otherwise each exactly when its dist switch (defaulting to the primary
   * one) is on and its prompt was confirmed. The dist tag follows the tag
   * decision, and dist publishing does not look at whether the package is
   * private.
   */
  predicate DistStepsAsConfigured(t: seq<Event>, o: Options, w: World) {
    var dist := o.dist.repo != "";
    var tag := ShouldTag(o.dist.tag, w.sameRepo, o.dist.tagName, o.git.tagName, o.git.tag);
    var release := o.dist.githubRelease.GetOr(o.github.release);
    && (Commit(Dist) in t <==> dist && Performs(o, w, o.dist.commit, Dist, CommitPrompt))
    && (Tag(Dist) in t <==> dist && Performs(o, w, tag, Dist, TagPrompt))
    && (Push(Dist) in t <==> dist && Performs(o, w, o.dist.push, Dist, PushPrompt))
    && (CreateRelease(Dist) in t <==> dist && Performs(o, w, release, Dist, ReleasePrompt))
    && (UploadAssets(Dist) in t <==> dist && Performs(o, w, release, Dist, ReleasePrompt) && w.distReleaseReturned)
    && (Publish(Dist) in t <==> dist && Performs(o, w, o.dist.npmPublish.GetOr(o.npm.publish), Dist, PublishPrompt))
  }

  /** In a run that resolved a version, a primary release step is in the run exactly when it is among the primary release steps. */
  lemma SrcStepIn(o: Options, w: World, lib: VersionLib, e: Event)
    requires Validated(o, w) && Resolved(o, w, lib) != ""
    requires IsReleaseStep(e) && e.scope == Src
    ensures e in Uninterrupted(o, w, lib).trace <==> e in ReleaseSteps(o, w, Src, PrimaryFlags(o), w.releaseReturned)
  {
    StepPhase(e, o.lateChangelog);
    InPrimarySteps(o, w, lib, e);
  }

  /** In a run that resolved a version, a dist release step is in the run exactly when a dist repository is configured and it is among the dist release steps. */
  lemma DistStepIn(o: Options, w: World, lib: VersionLib, e: Event)
    requires Validated(o, w) && Resolved(o, w, lib) != ""
    requires IsReleaseStep(e) && e.scope == Dist
    ensures e in Uninterrupted(o, w, lib).trace <==>
      o.dist.repo != "" && e in ReleaseSteps(o, w, Dist, DistFlags(o, w), w.distReleaseReturned)
  {
    StepPhase(e, o.lateChangelog);
    InDistSteps(o, w, lib, e);
  }

  /** The primary release steps of a failure-free run that resolved a version. */
  lemma PrimaryStepsInUninterrupted(o: Options, w: World, lib: VersionLib)
    requires Validated(o, w) && Resolved(o, w, lib) != ""
    ensures PrimaryStepsAsConfigured(Uninterrupted(o, w, lib).trace, o, w)
  {
    var f, r := PrimaryFlags(o), w.releaseReturned;
    SrcStepIn(o, w, lib, Commit(Src));
    SrcStepIn(o, w, lib, Tag(Src));
    SrcStepIn(o, w, lib, Push(Src));
    SrcStepIn(o, w, lib, CreateRelease(Src));
    SrcStepIn(o, w, lib, UploadAssets(Src));
    SrcStepIn(o, w, lib, Publish(Src));
    CommitPresent(o, w, Src, f, r);
    TagPresent(o, w, Src, f, r);
    PushPresent(o, w, Src, f, r);
    ReleasePresent(o, w, Src, f, r);
    PublishPresent(o, w, Src, f, r);
  }

  /** The dist release steps of a failure-free run that resolved a version. */
  lemma DistStepsInUninterrupted(o: Options, w: World, lib: VersionLib)
    requires Validated(o, w) && Resolved(o, w, lib) != ""
    ensures DistStepsAsConfigured(Uninterrupted(o, w, lib).trace, o, w)
  {
    var f, r := DistFlags(o, w), w.distReleaseReturned;
    DistStepIn(o, w, lib, Commit(Dist));
    DistStepIn(o, w, lib, Tag(Dist));
    DistStepIn(o, w, lib, Push(Dist));
    DistStepIn(o, w, lib, CreateRelease(Dist));
    DistStepIn(o, w, lib, UploadAssets(Dist));
    DistStepIn(o, w, lib, Publish(Dist));
    CommitPresent(o, w, Dist, f, r);
    TagPresent(o, w, Dist, f, r);
    PushPresent(o, w, Dist, f, r);
    ReleasePresent(o, w, Dist, f, r);
    PublishPresent(o, w, Dist, f, r);
  }

  /** A successful run performs exactly the primary release steps its switches and prompt answers call for. */
  lemma PrimaryStepsOfSuccessfulRun(o: Options, w: World, lib: VersionLib, fault: Option<nat>)
    requires Release(o, w, lib, fault).result.Success?
    ensures PrimaryStepsAsConfigured(Release(o, w, lib, fault).trace, o, w)
  {
    Succeeded(o, w, lib, fault);
    PrimaryStepsInUninterrupted(o, w, lib);
  }

  /** A successful run performs exactly the dist release steps its dist switches and prompt answers call for. */
  lemma DistStepsOfSuccessfulRun(o: Options, w: World, lib: VersionLib, fault: Option<nat>)
    requires Release(o, w, lib, fault).result.Success?
    ensures DistStepsAsConfigured(Release(o, w, lib, fault).trace, o, w)
  {
    Succeeded(o, w, lib, fault);
    DistStepsInUninterrupted(o, w, lib);
  }
}
