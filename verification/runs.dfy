/**
 * How a run of the pipeline of lib/tasks.js ends: when it succeeds and with
 * which summary, how an error is logged, how a failing step cuts the run,
 * and what is left of the staging directory when the run stops.
 */
module Runs {
  import opened Outcomes
  import opened Versions
  import opened Prompt
  import opened Trace
  import opened Config
  import opened Repo
  import opened Tasks
  import opened Ordering
  import opened Blocks
  import opened Guarantees

  /** The error log has a phase no step of the failure-free run has, so that run never logs an error. */
  lemma NoErrorInUninterrupted(o: Options, w: World, lib: VersionLib)
    ensures LogError !in Uninterrupted(o, w, lib).trace
  {
    UninterruptedWithin(o, w, lib);
    NoErrorWithin(Uninterrupted(o, w, lib).trace, o.lateChangelog);
  }

  /** A trace within the phases of the failure-free run holds no error log. */
  lemma NoErrorWithin(t: seq<Event>, late: bool)
    requires Within(t, late, 0, 78)
    ensures LogError !in t
  {
    InWithin(t, late, 0, 78, LogError);
  }

  /** An interrupted run logs an error exactly when it fails, and only as its last event. */
  lemma InterruptLogs(u: Execution, fault: Option<nat>)
    requires LogError !in u.trace
    ensures var x := Interrupt(u, fault);
      && (x.result.Failure? <==> LogError in x.trace)
      && forall i :: 0 <= i < |x.trace| && x.trace[i] == LogError ==> i == |x.trace| - 1
  {
  }

  /**
   * Every error is logged before it is rethrown: a run fails exactly when it
   * logs an error, and the log is its last event.
   */
  lemma ErrorLogged(o: Options, w: World, lib: VersionLib, fault: Option<nat>)
    ensures var x := Release(o, w, lib, fault);
      && (x.result.Failure? <==> LogError in x.trace)
      && forall i :: 0 <= i < |x.trace| && x.trace[i] == LogError ==> i == |x.trace| - 1
  {
    NoErrorInUninterrupted(o, w, lib);
    InterruptLogs(Uninterrupted(o, w, lib), fault);
  }

  /**
   * Interrupting a run at a position only shortens it: a position inside the
   * run cuts it right after that step, one past its end changes nothing. With
   * nothing thrown, the run is kept whole, followed by the error log if it failed.
   */
  lemma InterruptShortens(u: Execution, k: nat)
    ensures var a := Interrupt(u, Some(k)); var b := Interrupt(u, None);
      && (a.result.Success? ==> a == b)
      && (a.result.Failure? ==> |a.trace| > 0 && a.trace[..|a.trace| - 1] <= b.trace)
      && (k < |u.trace| ==> a.trace == u.trace[..k + 1] + [LogError] && a.result == Failure(StepFailed(u.trace[k])))
      && (k >= |u.trace| ==> a == b)
      && b.result == u.result
      && (b.result.Success? ==> b.trace == u.trace)
      && (b.result.Failure? ==> b.trace == u.trace + [LogError])
  {
  }

  /**
   * A step that throws cuts the run: whatever ran before it is what the
   * failure-free run does up to there, and the error names that step, even when
   * the failure-free run would have failed later. A position past the end of
   * the run throws nothing, and a run in which nothing throws is the
   * failure-free run, followed by the error log if that run failed.
   */
  lemma FaultCutsTheRun(o: Options, w: World, lib: VersionLib, k: nat)
    ensures var a := Release(o, w, lib, Some(k)); var b := Release(o, w, lib, None);
      && (a.result.Success? ==> a == b)
      && (a.result.Failure? ==> |a.trace| > 0 && a.trace[..|a.trace| - 1] <= b.trace)
      && (var u := Uninterrupted(o, w, lib).trace;
          k < |u| ==> a.trace == u[..k + 1] + [LogError] && a.result == Failure(StepFailed(u[k])))
      && (k >= |Uninterrupted(o, w, lib).trace| ==> a == b)
      && (var u := Uninterrupted(o, w, lib);
          && b.result == u.result
          && (b.result.Success? ==> b.trace == u.trace)
          && (b.result.Failure? ==> b.trace == u.trace + [LogError]))
  {
    InterruptShortens(Uninterrupted(o, w, lib), k);
  }

  /**
   * A before-start hook that throws is the error of the run, even outside a git
   * repository, where the validation after it would have failed.
   */
  lemma ThrowingHookBeatsValidation(o: Options, w: World, lib: VersionLib)
    requires BeforeStart in o.scripts
    ensures Release(o, w, lib, Some(0)).result == Failure(StepFailed(RunScript(Src, BeforeStart)))
    ensures Release(o, w, lib, Some(0)).trace == [RunScript(Src, BeforeStart), LogError]
  {
    assert Uninterrupted(o, w, lib).trace[0] == RunScript(Src, BeforeStart);
  }

  /**
   * The failure-free run succeeds exactly when the repository is validated and
   * a version is resolved; its summary is the changelog, the latest version
   * and that version. Otherwise it fails with the first failing check's error,
   * or with the invalid-version error.
   */
  lemma UninterruptedOutcome(o: Options, w: World, lib: VersionLib)
    ensures var u := Uninterrupted(o, w, lib);
      && (u.result.Success? <==> Validated(o, w) && Resolved(o, w, lib) != "")
      && (u.result.Success? ==> u.result.value == Summary(w.changelog, w.latestVersion, Resolved(o, w, lib)))
      && (!Validated(o, w) ==> u.result == Failure(ValidateRepoState(o, w).result.error))
      && (Validated(o, w) && Resolved(o, w, lib) == "" ==> u.result == Failure(InvalidVersionError))
  {
  }

  /**
   * A run succeeds exactly when the repository is validated, a version is
   * resolved and no step throws; it then returns the changelog, the latest
   * version and the resolved version.
   */
  lemma SuccessSummary(o: Options, w: World, lib: VersionLib, fault: Option<nat>)
    ensures var x := Release(o, w, lib, fault); var n := |Uninterrupted(o, w, lib).trace|;
      && (x.result.Success? <==> Validated(o, w) && Resolved(o, w, lib) != "" && (fault.None? || fault.value >= n))
      && (x.result.Success? ==> x.result.value == Summary(w.changelog, w.latestVersion, Resolved(o, w, lib)))
  {
    UninterruptedOutcome(o, w, lib);
  }

  /** A successful run is the failure-free run, which validated the repository and resolved a version. */
  lemma Succeeded(o: Options, w: World, lib: VersionLib, fault: Option<nat>)
    requires Release(o, w, lib, fault).result.Success?
    ensures Release(o, w, lib, fault) == Uninterrupted(o, w, lib)
    ensures Validated(o, w) && Resolved(o, w, lib) != ""
  {
    UninterruptedOutcome(o, w, lib);
  }

  /** The failure-free run never fails at a step: its errors are the validation errors and the invalid version. */
  lemma UninterruptedNeverStepFails(o: Options, w: World, lib: VersionLib)
    ensures Uninterrupted(o, w, lib).result.Failure? ==> !Uninterrupted(o, w, lib).result.error.StepFailed?
  {
  }

  /** A run that fails at a step is the failure-free run cut right after the step at the fault position. */
  lemma StepFailureIsCut(o: Options, w: World, lib: VersionLib, fault: Option<nat>)
    requires Release(o, w, lib, fault).result.Failure? && Release(o, w, lib, fault).result.error.StepFailed?
    ensures var x := Release(o, w, lib, fault); var u := Uninterrupted(o, w, lib).trace;
      && fault.Some? && fault.value < |u|
      && x.trace == u[..fault.value + 1] + [LogError]
      && x.result == Failure(StepFailed(u[fault.value]))
  {
    UninterruptedNeverStepFails(o, w, lib);
  }

  /** Cutting an ordered trace after position `k` keeps exactly the events whose phase is not past that step's. */
  lemma CutKeeps(u: seq<Event>, late: bool, k: nat, a: Event)
    requires InOrder(u, late) && k < |u| && a != LogError
    ensures a in u[..k + 1] + [LogError] <==> a in u && Phase(a, late) <= Phase(u[k], late)
  {
    if a in u[..k + 1] + [LogError] {
      var i :| 0 <= i <= k && u[i] == a;
      if i < k {
        InOrderPositions(u, late, i, k);
      }
    }
    if a in u && Phase(a, late) <= Phase(u[k], late) {
      var i :| 0 <= i < |u| && u[i] == a;
      InOrderPositions(u, late, k, i);
      assert u[..k + 1][i] == a;
    }
  }

  /** The events of the staging directory in the dist preparation: all there exactly when a dist repository is configured. */
  lemma PrepareVisit(o: Options, v: string)
    ensures MakeStageDir in DistPrepare(o, v) <==> o.dist.repo != ""
    ensures Pushd(Prepare) in DistPrepare(o, v) <==> o.dist.repo != ""
    ensures Popd(Prepare) in DistPrepare(o, v) <==> o.dist.repo != ""
  {
  }

  /** The events of the staging directory in the dist replay: all there exactly when a dist repository is configured. */
  lemma ReplayVisit(o: Options, w: World)
    ensures Pushd(Replay) in DistReplay(o, w) <==> o.dist.repo != ""
    ensures Popd(Replay) in DistReplay(o, w) <==> o.dist.repo != ""
    ensures RemoveStageDir in DistReplay(o, w) <==> o.dist.repo != ""
  {
  }

  /** The events of the staging directory: making it, entering and leaving it on either visit, and removing it. */
  predicate IsStagingEvent(e: Event) {
    e == MakeStageDir || e.Pushd? || e.Popd? || e == RemoveStageDir
  }

  /** In a run that resolved a version, each staging-directory event occurs exactly when a dist repository is configured. */
  lemma StagingEventIn(o: Options, w: World, lib: VersionLib, e: Event)
    requires Validated(o, w) && Resolved(o, w, lib) != "" && IsStagingEvent(e)
    ensures e in Uninterrupted(o, w, lib).trace <==> o.dist.repo != ""
  {
    if e == MakeStageDir || e == Pushd(Prepare) || e == Popd(Prepare) {
      assert 16 <= Phase(e, o.lateChangelog) < 30;
      PrepareVisit(o, Resolved(o, w, lib));
    } else {
      assert 50 <= Phase(e, o.lateChangelog) < 78;
      ReplayVisit(o, w);
    }
    Located(o, w, lib, e);
  }

  /** In a replay block, the hook event comes from the hook block alone, never from the replayed release steps. */
  lemma ReplayHookLocate(steps: seq<Event>, hook: seq<Event>, late: bool)
    requires Within(steps, late, 60, 71)
    ensures var e := RunScript(Dist, AfterRelease);
      e in [Pushd(Replay), ReadDistRemote, ShowStatus(Dist)] + steps + hook + [Popd(Replay), RemoveStageDir] <==> e in hook
  {
    assert Phase(RunScript(Dist, AfterRelease), late) == 75;
    InWithin(steps, late, 60, 71, RunScript(Dist, AfterRelease));
  }

  /** The replay runs the primary after-release hook exactly when a dist repository and that hook are configured. */
  lemma ReplayHookVisit(o: Options, w: World)
    ensures RunScript(Dist, AfterRelease) in DistReplay(o, w) <==> o.dist.repo != "" && AfterRelease in o.scripts
  {
    if o.dist.repo != "" {
      ReleaseStepsWithin(o, w, Dist, DistFlags(o, w), w.distReleaseReturned);
      ReplayHookLocate(ReleaseSteps(o, w, Dist, DistFlags(o, w), w.distReleaseReturned), Script(o.scripts, Dist, AfterRelease), o.lateChangelog);
    }
  }

  /** In a run that resolved a version, the after-release hook runs for the primary repository exactly when configured. */
  lemma PrimaryHookIn(o: Options, w: World, lib: VersionLib)
    requires Validated(o, w) && Resolved(o, w, lib) != ""
    ensures RunScript(Src, AfterRelease) in Uninterrupted(o, w, lib).trace <==> AfterRelease in o.scripts
  {
    assert Phase(RunScript(Src, AfterRelease), o.lateChangelog) == 45;
    Located(o, w, lib, RunScript(Src, AfterRelease));
  }

  /** In a run that resolved a version, the primary after-release hook runs again in the staging directory exactly when there is one. */
  lemma ReplayHookIn(o: Options, w: World, lib: VersionLib)
    requires Validated(o, w) && Resolved(o, w, lib) != ""
    ensures RunScript(Dist, AfterRelease) in Uninterrupted(o, w, lib).trace <==> o.dist.repo != "" && AfterRelease in o.scripts
  {
    assert Phase(RunScript(Dist, AfterRelease), o.lateChangelog) == 75;
    Located(o, w, lib, RunScript(Dist, AfterRelease));
    ReplayHookVisit(o, w);
  }

  /** Where a successful run runs the after-release hook: the primary configuration's hook decides both runs of it. */
  predicate AfterReleaseHooks(t: seq<Event>, o: Options) {
    && (RunScript(Src, AfterRelease) in t <==> AfterRelease in o.scripts)
    && (RunScript(Dist, AfterRelease) in t <==> o.dist.repo != "" && AfterRelease in o.scripts)
  }

  /**
   * A successful run runs the primary after-release hook after the primary
   * release steps and, with a dist repository, again inside the staging
   * directory; the dist configuration's own after-release hook is never read.
   */
  lemma AfterReleaseHookRunsTwice(o: Options, w: World, lib: VersionLib, fault: Option<nat>)
    requires Release(o, w, lib, fault).result.Success?
    ensures AfterReleaseHooks(Release(o, w, lib, fault).trace, o)
  {
    Succeeded(o, w, lib, fault);
    PrimaryHookIn(o, w, lib);
    ReplayHookIn(o, w, lib);
  }

  /** A trace within the run's phases that holds both replay exit events ends with them. */
  lemma CleanupEndsIn(t: seq<Event>, late: bool)
    requires Within(t, late, 0, 78)
    requires Popd(Replay) in t && RemoveStageDir in t
    ensures |t| >= 2 && t[|t| - 1] == RemoveStageDir && t[|t| - 2] == Popd(Replay)
  {
    var i :| 0 <= i < |t| && t[i] == Popd(Replay);
    var j :| 0 <= j < |t| && t[j] == RemoveStageDir;
    CleanupIsLastIn(t, late, i);
    CleanupIsLastIn(t, late, j);
  }

  /** The failure-free run, when it leaves and removes the staging directory, ends with both. */
  lemma CleanupEnds(o: Options, w: World, lib: VersionLib)
    requires Popd(Replay) in Uninterrupted(o, w, lib).trace && RemoveStageDir in Uninterrupted(o, w, lib).trace
    ensures var t := Uninterrupted(o, w, lib).trace;
      |t| >= 2 && t[|t| - 1] == RemoveStageDir && t[|t| - 2] == Popd(Replay)
  {
    UninterruptedWithin(o, w, lib);
    CleanupEndsIn(Uninterrupted(o, w, lib).trace, o.lateChangelog);
  }

  /**
   * How a finished run treats the staging directory: it is made, entered and
   * left for preparation, entered and left for the replay, and at the very
   * end removed, each exactly when a dist repository is configured.
   */
  predicate CleansUpStaging(t: seq<Event>, hasDist: bool) {
    && (MakeStageDir in t <==> hasDist)
    && (Pushd(Prepare) in t <==> hasDist) && (Popd(Prepare) in t <==> hasDist)
    && (Pushd(Replay) in t <==> hasDist) && (Popd(Replay) in t <==> hasDist)
    && (RemoveStageDir in t <==> hasDist)
    && (hasDist ==> |t| >= 2 && t[|t| - 1] == RemoveStageDir && t[|t| - 2] == Popd(Replay))
  }

  /** The staging directory in a failure-free run that resolved a version. */
  lemma StagingInUninterrupted(o: Options, w: World, lib: VersionLib)
    requires Validated(o, w) && Resolved(o, w, lib) != ""
    ensures CleansUpStaging(Uninterrupted(o, w, lib).trace, o.dist.repo != "")
  {
    StagingEventIn(o, w, lib, MakeStageDir);
    StagingEventIn(o, w, lib, Pushd(Prepare));
    StagingEventIn(o, w, lib, Popd(Prepare));
    StagingEventIn(o, w, lib, Pushd(Replay));
    StagingEventIn(o, w, lib, Popd(Replay));
    StagingEventIn(o, w, lib, RemoveStageDir);
    if o.dist.repo != "" {
      CleanupEnds(o, w, lib);
    }
  }

  /**
   * A successful run with a dist repository makes the staging directory and
   * ends by leaving and removing it; without one it never touches it.
   */
  lemma StagingDirectoryOnSuccess(o: Options, w: World, lib: VersionLib, fault: Option<nat>)
    requires Release(o, w, lib, fault).result.Success?
    ensures CleansUpStaging(Release(o, w, lib, fault).trace, o.dist.repo != "")
  {
    Succeeded(o, w, lib, fault);
    StagingInUninterrupted(o, w, lib);
  }

  /** A cut of a trace within the run's phases that still holds the removal of the staging directory was cut right at it. */
  lemma CutPastCleanupIn(u: seq<Event>, late: bool, k: nat)
    requires Within(u, late, 0, 78) && k < |u|
    requires RemoveStageDir in u[..k + 1] + [LogError]
    ensures u[k] == RemoveStageDir
  {
    WithinInOrder(u, late, 0, 78);
    CutKeeps(u, late, k, RemoveStageDir);
    InWithin(u, late, 0, 78, u[k]);
    LastPhase(u[k], late);
  }

  /** A cut of the failure-free run that still holds the removal of the staging directory was cut right at it. */
  lemma CutPastCleanup(o: Options, w: World, lib: VersionLib, k: nat)
    requires k < |Uninterrupted(o, w, lib).trace|
    requires RemoveStageDir in Uninterrupted(o, w, lib).trace[..k + 1] + [LogError]
    ensures Uninterrupted(o, w, lib).trace[k] == RemoveStageDir
  {
    UninterruptedWithin(o, w, lib);
    CutPastCleanupIn(Uninterrupted(o, w, lib).trace, o.lateChangelog, k);
  }

  /** An interrupted run within the run's phases keeps the staging removal only when it succeeds or fails at that removal. */
  lemma InterruptCleansUpLast(u: Execution, late: bool, fault: Option<nat>)
    requires Within(u.trace, late, 0, 78)
    requires u.result.Failure? ==> RemoveStageDir !in u.trace
    ensures var x := Interrupt(u, fault);
      RemoveStageDir in x.trace ==> x.result.Success? || x.result == Failure(StepFailed(RemoveStageDir))
  {
    var x := Interrupt(u, fault);
    if fault.Some? && fault.value < |u.trace| && RemoveStageDir in x.trace {
      CutPastCleanupIn(u.trace, late, fault.value);
    }
  }

  /**
   * There is no cleanup on failure: the staging directory is removed only by
   * a run that succeeds, or whose failing step is that removal itself.
   */
  lemma CleanupOnlyAtTheEnd(o: Options, w: World, lib: VersionLib, fault: Option<nat>)
    ensures var x := Release(o, w, lib, fault);
      RemoveStageDir in x.trace ==> x.result.Success? || x.result == Failure(StepFailed(RemoveStageDir))
  {
    UninterruptedWithin(o, w, lib);
    FailedRunKeepsStaging(o, w, lib);
    InterruptCleansUpLast(Uninterrupted(o, w, lib), o.lateChangelog, fault);
  }

  /** The failure-free run fails only before the bump, so a failing one never reaches the staging removal. */
  lemma FailedRunKeepsStaging(o: Options, w: World, lib: VersionLib)
    ensures Uninterrupted(o, w, lib).result.Failure? ==> RemoveStageDir !in Uninterrupted(o, w, lib).trace
  {
    if Uninterrupted(o, w, lib).result.Failure? {
      assert Uninterrupted(o, w, lib).trace == Opening(o, w, lib);
      OpeningWithin(o, w, lib);
      assert Phase(RemoveStageDir, o.lateChangelog) == 77;
      InWithin(Opening(o, w, lib), o.lateChangelog, 0, 8, RemoveStageDir);
    }
  }

  /** Where a run that stopped at a dist release step leaves the working directory: inside the staging directory, which is never removed. */
  predicate StuckInStaging(t: seq<Event>) {
    Pushd(Replay) in t && Popd(Replay) !in t && RemoveStageDir !in t
  }

  /** A cut of the failure-free run right after a dist release step is inside the replay visit of the staging directory. */
  lemma CutInReplay(o: Options, w: World, lib: VersionLib, k: nat)
    requires k < |Uninterrupted(o, w, lib).trace|
    requires IsReleaseStep(Uninterrupted(o, w, lib).trace[k]) && Uninterrupted(o, w, lib).trace[k].scope == Dist
    ensures StuckInStaging(Uninterrupted(o, w, lib).trace[..k + 1] + [LogError])
  {
    var u := Uninterrupted(o, w, lib).trace;
    var late := o.lateChangelog;
    StepPhase(u[k], late);
    InDistSteps(o, w, lib, u[k]);
    StagingEventIn(o, w, lib, Pushd(Replay));
    UninterruptedInOrder(o, w, lib);
    CutInReplayIn(u, late, k);
  }

  /** An ordered trace cut right after an event of the dist release phases, past the replay's entry. */
  lemma CutInReplayIn(u: seq<Event>, late: bool, k: nat)
    requires InOrder(u, late) && k < |u| && 60 <= Phase(u[k], late) < 71 && Pushd(Replay) in u
    ensures StuckInStaging(u[..k + 1] + [LogError])
  {
    assert Phase(Pushd(Replay), late) == 50 && Phase(Popd(Replay), late) == 76 && Phase(RemoveStageDir, late) == 77;
    CutKeeps(u, late, k, Pushd(Replay));
    CutKeeps(u, late, k, Popd(Replay));
    CutKeeps(u, late, k, RemoveStageDir);
  }

  /**
   * When a dist release step throws, the run has re-entered the staging
   * directory and neither leaves nor removes it.
   */
  lemma FailedReplayStaysInStaging(o: Options, w: World, lib: VersionLib, fault: Option<nat>)
    requires Release(o, w, lib, fault).result.Failure? && Release(o, w, lib, fault).result.error.StepFailed?
    requires var e := Release(o, w, lib, fault).result.error.step; IsReleaseStep(e) && e.scope == Dist
    ensures StuckInStaging(Release(o, w, lib, fault).trace)
  {
    StepFailureIsCut(o, w, lib, fault);
    CutInReplay(o, w, lib, fault.value);
  }

  /** An interrupted ordered run keeps every event that comes before one it kept. */
  lemma InterruptKeepsEarlier(u: Execution, fault: Option<nat>, late: bool, a: Event, b: Event)
    requires InOrder(u.trace, late) && a in u.trace && a != LogError && Phase(a, late) < Phase(b, late)
    requires b in Interrupt(u, fault).trace && b != LogError
    ensures a in Interrupt(u, fault).trace
  {
    if fault.Some? && fault.value < |u.trace| {
      CutKeeps(u.trace, late, fault.value, b);
      CutKeeps(u.trace, late, fault.value, a);
    }
  }

  /** `b` occurs only after `a`: never without it, and never before it. */
  predicate Before(t: seq<Event>, a: Event, b: Event) {
    && (b in t ==> a in t)
    && forall i, j :: 0 <= i < |t| && 0 <= j < |t| && t[i] == a && t[j] == b ==> i < j
  }

  /** In an ordered trace, an event of an earlier phase is never after one of a later phase. */
  lemma OrderedPositions(t: seq<Event>, late: bool, a: Event, b: Event)
    requires InOrder(t, late) && Phase(a, late) < Phase(b, late)
    ensures forall i, j :: 0 <= i < |t| && 0 <= j < |t| && t[i] == a && t[j] == b ==> i < j
  {
    forall i, j | 0 <= i < |t| && 0 <= j < |t| && t[i] == a && t[j] == b
      ensures i < j
    {
      InOrderPositions(t, late, i, j);
    }
  }

  /** Staging-directory events lie past the opening, in the dist preparation or the replay. */
  lemma StagingPhase(e: Event, late: bool)
    requires IsStagingEvent(e)
    ensures 16 <= Phase(e, late) < 78
  {
  }

  /** In the failure-free run, one staging-directory event occurs only together with every other. */
  lemma StagingTogether(o: Options, w: World, lib: VersionLib, a: Event, b: Event)
    requires IsStagingEvent(a) && IsStagingEvent(b) && b in Uninterrupted(o, w, lib).trace
    ensures a in Uninterrupted(o, w, lib).trace
  {
    StagingPhase(b, o.lateChangelog);
    PastOpening(o, w, lib, b);
    StagingEventIn(o, w, lib, b);
    StagingEventIn(o, w, lib, a);
  }

  /**
   * Of two staging-directory events, the one of the later step occurs in a
   * run only after the other.
   */
  lemma StagingBefore(o: Options, w: World, lib: VersionLib, fault: Option<nat>, a: Event, b: Event)
    requires IsStagingEvent(a) && IsStagingEvent(b) && Phase(a, o.lateChangelog) < Phase(b, o.lateChangelog)
    ensures Before(Release(o, w, lib, fault).trace, a, b)
  {
    ReleaseInOrder(o, w, lib, fault);
    OrderedPositions(Release(o, w, lib, fault).trace, o.lateChangelog, a, b);
    if b in Release(o, w, lib, fault).trace {
      InRun(o, w, lib, fault, b);
      StagingTogether(o, w, lib, a, b);
      UninterruptedInOrder(o, w, lib);
      InterruptKeepsEarlier(Uninterrupted(o, w, lib), fault, o.lateChangelog, a, b);
    }
  }

  /** The phases of the staging-directory events, in the order the run performs them. */
  lemma StagingPhases(late: bool)
    ensures Phase(MakeStageDir, late) < Phase(Pushd(Prepare), late) < Phase(Popd(Prepare), late)
      < Phase(Pushd(Replay), late) < Phase(Popd(Replay), late) < Phase(RemoveStageDir, late)
  {
  }

  /**
   * The staging directory is made, entered for the preparation and left, then
   * re-entered for the replay, left and removed: in every run each of these
   * happens only after the one before it.
   */
  lemma StagingVisitsInOrder(o: Options, w: World, lib: VersionLib, fault: Option<nat>)
    ensures var t := Release(o, w, lib, fault).trace;
      && Before(t, MakeStageDir, Pushd(Prepare))
      && Before(t, Pushd(Prepare), Popd(Prepare))
      && Before(t, Popd(Prepare), Pushd(Replay))
      && Before(t, Pushd(Replay), Popd(Replay))
      && Before(t, Popd(Replay), RemoveStageDir)
  {
    StagingPhases(o.lateChangelog);
    StagingBefore(o, w, lib, fault, MakeStageDir, Pushd(Prepare));
    StagingBefore(o, w, lib, fault, Pushd(Prepare), Popd(Prepare));
    StagingBefore(o, w, lib, fault, Popd(Prepare), Pushd(Replay));
    StagingBefore(o, w, lib, fault, Pushd(Replay), Popd(Replay));
    StagingBefore(o, w, lib, fault, Popd(Replay), RemoveStageDir);
  }
}
