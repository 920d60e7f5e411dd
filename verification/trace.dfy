/**
 * The observable steps of a release run and the order the pipeline visits them in.
 * Each step of lib/tasks.js that acts or can throw (a git query or command, a
 * shell hook, a prompt, a GitHub or npm call, a staging-directory operation) is
 * one event; a run is the sequence of events it performed. The lookups whose
 * answers only feed later steps (the latest and provisional version, the
 * changelog timing, the parsed repository) are not events: their answers are
 * fields of the world and they cannot fail here.
 */
module Trace {
  import opened Prompt

  /** The configurable shell hooks (`scripts.*`). */
  datatype Hook = BeforeStart | BeforeBump | AfterBump | BeforeStage | AfterRelease

  /** The read-only repository queries of the validator. */
  datatype RepoQuery = IsRepo | RemoteUrl | WorkingDirClean | HasUpstream

  /** The two visits of the dist staging directory: preparing it, and replaying the release in it. */
  datatype Visit = Prepare | Replay

  datatype Event =
    | RunScript(scope: Subject, hook: Hook)  // a hook command, run in the working directory of `scope`
    | Query(query: RepoQuery)
    | Prompted(scope: Subject, prompt: PromptName)
    | FetchChangelog
    | Bump(scope: Subject, version: string)
    | StagePackageFiles
    | StageAll(scope: Subject)
    | ShowStatus(scope: Subject)
    | MakeStageDir
    | CloneDist
    | CopyDistFiles
    | Pushd(visit: Visit)
    | Popd(visit: Visit)
    | CheckDistChanges
    | ReadDistRemote
    | Commit(scope: Subject)
    | Tag(scope: Subject)
    | Push(scope: Subject)
    | CreateRelease(scope: Subject)
    | UploadAssets(scope: Subject)
    | Publish(scope: Subject)
    | RemoveStageDir
    | LogError

  /** The errors a run ends with: the precondition errors, and any step whose task threw. */
  datatype Error =
    | GitRepoError
    | GitRemoteUrlError
    | GitCleanWorkingDirError
    | GitUpstreamError
    | GithubTokenError(tokenRef: string)
    | InvalidVersionError
    | StepFailed(step: Event)

  /**
   * Steps that change a repository, the staging directory's contents or a
   * remote service. Entering, leaving and removing the staging directory are
   * not counted.
   */
  predicate IsMutation(e: Event) {
    || e.Bump? || e.StagePackageFiles? || e.StageAll? || e.MakeStageDir? || e.CloneDist? || e.CopyDistFiles?
    || e.Commit? || e.Tag? || e.Push? || e.CreateRelease? || e.UploadAssets? || e.Publish?
  }

  /** The six release steps, replayed once per repository. */
  predicate IsReleaseStep(e: Event) {
    e.Commit? || e.Tag? || e.Push? || e.CreateRelease? || e.UploadAssets? || e.Publish?
  }

  /** The position of a release step in commit, tag, push, release, assets, publish. */
  function StepRank(e: Event): int
    requires IsReleaseStep(e)
  {
    match e
    case Commit(_) => 0
    case Tag(_) => 1
    case Push(_) => 2
    case CreateRelease(_) => 3
    case UploadAssets(_) => 4
    case Publish(_) => 5
  }

  /** Events that only a configured dist repository produces. */
  predicate IsDistEvent(e: Event) {
    || e.MakeStageDir? || e.CloneDist? || e.CopyDistFiles? || e.Pushd? || e.Popd?
    || e.CheckDistChanges? || e.ReadDistRemote? || e.RemoveStageDir?
    || ((e.RunScript? || e.Prompted? || e.Bump? || e.StageAll? || e.ShowStatus? || IsReleaseStep(e)) && e.scope == Dist)
  }

  /**
   * Where a hook runs. The dist repository runs only its before-stage hook and
   * the replayed after-release hook; its other hooks never occur, and share
   * phase 59, which no event a run performs has.
   */
  function ScriptPhase(s: Subject, h: Hook): int {
    match (s, h)
    case (Src, BeforeStart) => 0
    case (Src, BeforeBump) => 8
    case (Src, AfterBump) => 10
    case (Src, BeforeStage) => 12
    case (Src, AfterRelease) => 45
    case (Dist, BeforeStage) => 21
    case (Dist, AfterRelease) => 75
    case _ => 59
  }

  /** Where the release steps of a repository start. */
  function StepBase(s: Subject): int {
    if s == Src then 30 else 60
  }

  /**
   * Where a prompt is shown. The version prompts are never shown for the dist
   * repository, and the one-time-password prompt never at all (it belongs to
   * the npm publish, outside this model): those pairs get phases that no event a
   * run performs has, 59 and 90.
   */
  function PromptPhase(s: Subject, p: PromptName): int {
    match p
    case IncrementList => if s == Src then 6 else 59
    case VersionInput => if s == Src then 7 else 59
    case CommitPrompt => StepBase(s)
    case TagPrompt => StepBase(s) + 2
    case PushPrompt => StepBase(s) + 4
    case ReleasePrompt => StepBase(s) + 6
    case PublishPrompt => StepBase(s) + 9
    case OtpPrompt => if s == Src then 90 else 59
  }

  /**
   * The order of the pipeline: each event's place in the fixed step sequence. The
   * changelog is fetched either before the version prompt (phase 5) or after the
   * bump (phase 11). A prompt comes just before the step it gates.
   */
  function Phase(e: Event, lateChangelog: bool): int {
    match e
    case RunScript(s, h) => ScriptPhase(s, h)
    case Query(q) => (match q case IsRepo => 1 case RemoteUrl => 2 case WorkingDirClean => 3 case HasUpstream => 4)
    case Prompted(s, p) => PromptPhase(s, p)
    case FetchChangelog => if lateChangelog then 11 else 5
    case Bump(s, _) => if s == Src then 9 else 20
    case StagePackageFiles => 13
    case StageAll(s) => if s == Src then 14 else 22
    case ShowStatus(s) => if s == Src then 15 else 52
    case MakeStageDir => 16
    case CloneDist => 17
    case CopyDistFiles => 18
    case Pushd(v) => if v == Prepare then 19 else 50
    case Popd(v) => if v == Prepare then 24 else 76
    case CheckDistChanges => 23
    case ReadDistRemote => 51
    case Commit(s) => StepBase(s) + 1
    case Tag(s) => StepBase(s) + 3
    case Push(s) => StepBase(s) + 5
    case CreateRelease(s) => StepBase(s) + 7
    case UploadAssets(s) => StepBase(s) + 8
    case Publish(s) => StepBase(s) + 10
    case RemoveStageDir => 77
    case LogError => 100
  }

  /** The phases of a repository's release block, relative to where it starts. */
  lemma StepPhases(s: Subject, late: bool)
    ensures PromptPhase(s, CommitPrompt) == StepBase(s) && Phase(Commit(s), late) == StepBase(s) + 1
    ensures PromptPhase(s, TagPrompt) == StepBase(s) + 2 && Phase(Tag(s), late) == StepBase(s) + 3
    ensures PromptPhase(s, PushPrompt) == StepBase(s) + 4 && Phase(Push(s), late) == StepBase(s) + 5
    ensures Phase(Prompted(s, ReleasePrompt), late) == StepBase(s) + 6
    ensures Phase(CreateRelease(s), late) == StepBase(s) + 7 && Phase(UploadAssets(s), late) == StepBase(s) + 8
    ensures PromptPhase(s, PublishPrompt) == StepBase(s) + 9 && Phase(Publish(s), late) == StepBase(s) + 10
  {
    if s == Src {
    } else {
    }
  }

  /** The trace visits the pipeline strictly in order, every phase in [lo, hi). */
  ghost predicate Within(t: seq<Event>, late: bool, lo: int, hi: int)
    decreases |t|
  {
    t == [] || (lo <= Phase(t[0], late) < hi && Within(t[1..], late, Phase(t[0], late) + 1, hi))
  }

  /** The trace visits the pipeline strictly in order. */
  ghost predicate InOrder(t: seq<Event>, late: bool) {
    forall i, j :: 0 <= i < j < |t| ==> Phase(t[i], late) < Phase(t[j], late)
  }

  lemma WithinOne(e: Event, late: bool, lo: int, hi: int)
    requires lo <= Phase(e, late) < hi
    ensures Within([e], late, lo, hi)
  {
    assert [e][1..] == [];
  }

  /** An optional single event. */
  lemma WithinAtMostOne(t: seq<Event>, e: Event, late: bool, lo: int, hi: int)
    requires t == [] || (t == [e] && lo <= Phase(e, late) < hi)
    ensures Within(t, late, lo, hi)
  {
    if t == [e] {
      WithinOne(e, late, lo, hi);
    }
  }

  lemma WithinLower(t: seq<Event>, late: bool, lo: int, lo': int, hi: int)
    requires Within(t, late, lo, hi) && lo' <= lo
    ensures Within(t, late, lo', hi)
  {
  }

  lemma {:induction false} WithinWiden(t: seq<Event>, late: bool, lo: int, hi: int, lo': int, hi': int)
    requires Within(t, late, lo, hi) && lo' <= lo && hi <= hi'
    ensures Within(t, late, lo', hi')
    decreases |t|
  {
    if t != [] {
      WithinWiden(t[1..], late, Phase(t[0], late) + 1, hi, Phase(t[0], late) + 1, hi');
    }
  }

  lemma {:induction false} WithinConcat(a: seq<Event>, b: seq<Event>, late: bool, lo: int, mid: int, hi: int)
    requires Within(a, late, lo, mid) && Within(b, late, mid, hi)
    requires lo <= mid <= hi
    ensures Within(a + b, late, lo, hi)
    decreases |a|
  {
    if a == [] {
      assert a + b == b;
      WithinLower(b, late, mid, lo, hi);
    } else {
      assert (a + b)[0] == a[0] && (a + b)[1..] == a[1..] + b;
      WithinConcat(a[1..], b, late, Phase(a[0], late) + 1, mid, hi);
    }
  }

  /** Three consecutive blocks of the pipeline. */
  lemma WithinConcat3(a: seq<Event>, b: seq<Event>, c: seq<Event>, late: bool, l0: int, l1: int, l2: int, l3: int)
    requires Within(a, late, l0, l1) && Within(b, late, l1, l2) && Within(c, late, l2, l3)
    requires l0 <= l1 <= l2 <= l3
    ensures Within(a + b + c, late, l0, l3)
  {
    WithinConcat(a, b, late, l0, l1, l2);
    WithinConcat(a + b, c, late, l0, l2, l3);
  }

  /** Five consecutive blocks of the pipeline. */
  lemma WithinConcat5(a: seq<Event>, b: seq<Event>, c: seq<Event>, d: seq<Event>, e: seq<Event>, late: bool,
                      l0: int, l1: int, l2: int, l3: int, l4: int, l5: int)
    requires Within(a, late, l0, l1) && Within(b, late, l1, l2) && Within(c, late, l2, l3)
    requires Within(d, late, l3, l4) && Within(e, late, l4, l5)
    requires l0 <= l1 <= l2 <= l3 <= l4 <= l5
    ensures Within(a + b + c + d + e, late, l0, l5)
  {
    WithinConcat3(a, b, c, late, l0, l1, l2, l3);
    WithinConcat3(a + b + c, d, e, late, l0, l3, l4, l5);
    assert a + b + c + d + e == (a + b + c) + d + e;
  }

  /** Cutting a run short keeps it in order. */
  lemma {:induction false} WithinPrefix(t: seq<Event>, late: bool, lo: int, hi: int, k: nat)
    requires Within(t, late, lo, hi) && k <= |t|
    ensures Within(t[..k], late, lo, hi)
    decreases k
  {
    if k > 0 {
      assert t[..k][0] == t[0] && t[..k][1..] == t[1..][..k - 1];
      WithinPrefix(t[1..], late, Phase(t[0], late) + 1, hi, k - 1);
    }
  }

  /** A trace within [lo, hi) is in order, and every phase in it lies in [lo, hi). */
  lemma {:induction false} WithinInOrder(t: seq<Event>, late: bool, lo: int, hi: int)
    requires Within(t, late, lo, hi)
    ensures InOrder(t, late)
    ensures forall i :: 0 <= i < |t| ==> lo <= Phase(t[i], late) < hi
    decreases |t|
  {
    if t != [] {
      var rest := t[1..];
      WithinInOrder(rest, late, Phase(t[0], late) + 1, hi);
      forall i | 0 < i < |t|
        ensures Phase(t[0], late) < Phase(t[i], late) < hi
      {
        assert t[i] == rest[i - 1];
      }
      forall i, j | 0 <= i < j < |t|
        ensures Phase(t[i], late) < Phase(t[j], late)
      {
        if i > 0 {
          assert t[i] == rest[i - 1] && t[j] == rest[j - 1];
        }
      }
    }
  }

  /** The converse of WithinInOrder: an ordered trace with every phase in [lo, hi) is within [lo, hi). */
  lemma {:induction false} InOrderWithin(t: seq<Event>, late: bool, lo: int, hi: int)
    requires InOrder(t, late)
    requires forall i :: 0 <= i < |t| ==> lo <= Phase(t[i], late) < hi
    ensures Within(t, late, lo, hi)
    decreases |t|
  {
    if t != [] {
      var rest := t[1..];
      forall i, j | 0 <= i < j < |rest|
        ensures Phase(rest[i], late) < Phase(rest[j], late)
      {
        assert rest[i] == t[i + 1] && rest[j] == t[j + 1];
      }
      forall i | 0 <= i < |rest|
        ensures Phase(t[0], late) + 1 <= Phase(rest[i], late) < hi
      {
        assert rest[i] == t[i + 1];
      }
      InOrderWithin(rest, late, Phase(t[0], late) + 1, hi);
    }
  }

  /** In an ordered trace an event occurs at most once, and an earlier phase means an earlier position. */
  lemma InOrderPositions(t: seq<Event>, late: bool, i: int, j: int)
    requires InOrder(t, late)
    requires 0 <= i < |t| && 0 <= j < |t|
    ensures Phase(t[i], late) < Phase(t[j], late) ==> i < j
    ensures t[i] == t[j] ==> i == j
  {
    if j < i {
      assert Phase(t[j], late) < Phase(t[i], late);
    } else if i < j {
      assert Phase(t[i], late) < Phase(t[j], late);
    }
  }
}
