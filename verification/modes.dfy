/**
 * The interactive and the non-interactive mode of the pipeline of
 * lib/tasks.js, and the link between the increment list of lib/prompt.js and
 * the version a run resolves.
 */
module Modes {
  import opened Outcomes
  import opened Versions
  import opened Prompt
  import opened Trace
  import opened Config
  import opened Repo
  import opened Tasks
  import opened Ordering
  import opened Blocks

  /** The trace with every shown prompt removed. */
  function WithoutPrompts(t: seq<Event>): (r: seq<Event>)
    ensures |r| <= |t|
    ensures forall e :: e in r ==> e in t && !e.Prompted?
  {
    if t == [] then []
    else if t[0].Prompted? then WithoutPrompts(t[1..])
    else [t[0]] + WithoutPrompts(t[1..])
  }

  /** Removing prompts from a concatenation removes them from each part. */
  lemma {:induction false} WithoutPromptsConcat(a: seq<Event>, b: seq<Event>)
    ensures WithoutPrompts(a + b) == WithoutPrompts(a) + WithoutPrompts(b)
    decreases |a|
  {
    if a == [] {
      assert a + b == b;
    } else {
      assert (a + b)[1..] == a[1..] + b;
      WithoutPromptsConcat(a[1..], b);
    }
  }

  /** A trace without prompts is left as it is. */
  lemma {:induction false} WithoutPromptsKeeps(t: seq<Event>)
    requires forall e :: e in t ==> !e.Prompted?
    ensures WithoutPrompts(t) == t
    decreases |t|
  {
    if t != [] {
      assert t[0] in t;
      assert forall e :: e in t[1..] ==> e in t;
      WithoutPromptsKeeps(t[1..]);
    }
  }

  /** The same options, run without a terminal. */
  function Quiet(o: Options): (q: Options)
    ensures !q.isInteractive
    ensures q.(isInteractive := o.isInteractive) == o
  {
    o.(isInteractive := false)
  }

  /** Every confirm prompt, of either repository, is answered yes. */
  predicate ApprovesAll(w: World) {
    forall s: Subject, n: PromptName :: TypeOf(n) == Confirm ==> (s, n) in w.approved
  }

  /** A prompt-only block, removed. */
  lemma {:induction false} OnlyPrompts(t: seq<Event>)
    requires forall e :: e in t ==> e.Prompted?
    ensures WithoutPrompts(t) == []
    decreases |t|
  {
    if t != [] {
      assert t[0] in t;
      assert forall e :: e in t[1..] ==> e in t;
      OnlyPrompts(t[1..]);
    }
  }

  /** Two gates of the same step agree apart from prompts when both run alike and only one shows anything. */
  predicate GatesAgree(shown: Gating, quiet: Gating) {
    shown.runs == quiet.runs && quiet.asked == [] && forall e :: e in shown.asked ==> e.Prompted?
  }

  /** Agreeing gates give blocks that agree apart from prompts. */
  lemma StepAgrees(shown: Gating, quiet: Gating, e: Event)
    requires GatesAgree(shown, quiet) && !e.Prompted?
    ensures WithoutPrompts(Step(shown, e)) == Step(quiet, e)
  {
    OnlyPrompts(shown.asked);
    WithoutPromptsConcat(shown.asked, if shown.runs then [e] else []);
    WithoutPromptsKeeps(if shown.runs then [e] else []);
  }

  /** Agreeing gates give GitHub release blocks that agree apart from prompts. */
  lemma ReleaseTaskAgrees(shown: Gating, quiet: Gating, s: Subject, returned: bool)
    requires GatesAgree(shown, quiet)
    ensures WithoutPrompts(ReleaseTask(shown, s, returned)) == ReleaseTask(quiet, s, returned)
  {
    var steps := if shown.runs then [CreateRelease(s)] + (if returned then [UploadAssets(s)] else []) else [];
    OnlyPrompts(shown.asked);
    WithoutPromptsConcat(shown.asked, steps);
    WithoutPromptsKeeps(steps);
  }

  /** Sequences of release steps under pairwise agreeing gates agree apart from prompts. */
  lemma StepSequenceAgrees(s: Subject, c: Gating, t: Gating, p: Gating, r: Gating, u: Gating,
                           c': Gating, t': Gating, p': Gating, r': Gating, u': Gating, returned: bool)
    requires GatesAgree(c, c') && GatesAgree(t, t') && GatesAgree(p, p') && GatesAgree(r, r') && GatesAgree(u, u')
    ensures WithoutPrompts(StepSequence(s, c, t, p, r, u, returned)) == StepSequence(s, c', t', p', r', u', returned)
  {
    var b1, b2, b3 := Step(c, Commit(s)), Step(t, Tag(s)), Step(p, Push(s));
    var b4, b5 := ReleaseTask(r, s, returned), Step(u, Publish(s));
    StepAgrees(c, c', Commit(s));
    StepAgrees(t, t', Tag(s));
    StepAgrees(p, p', Push(s));
    ReleaseTaskAgrees(r, r', s, returned);
    StepAgrees(u, u', Publish(s));
    WithoutPromptsConcat(b1 + b2 + b3 + b4, b5);
    WithoutPromptsConcat(b1 + b2 + b3, b4);
    WithoutPromptsConcat(b1 + b2, b3);
    WithoutPromptsConcat(b1, b2);
  }

  /** With every prompt confirmed, the interactive and the non-interactive gate of a release step agree. */
  lemma GatedStepAgrees(o: Options, w: World, cond: bool, s: Subject, name: PromptName)
    requires o.isInteractive && ApprovesAll(w) && TypeOf(name) == Confirm
    ensures GatesAgree(GatedStep(o, w, cond, s, name), GatedStep(Quiet(o), w, cond, s, name))
  {
    assert (s, name) in w.approved;
  }

  /** With every prompt confirmed, a repository's interactive release steps without their prompts are the non-interactive ones. */
  lemma ReleaseStepsAgree(o: Options, w: World, s: Subject, f: StepFlags, returned: bool)
    requires o.isInteractive && ApprovesAll(w)
    ensures WithoutPrompts(ReleaseSteps(o, w, s, f, returned)) == ReleaseSteps(Quiet(o), w, s, f, returned)
  {
    GatedStepAgrees(o, w, f.commit, s, CommitPrompt);
    GatedStepAgrees(o, w, f.tag, s, TagPrompt);
    GatedStepAgrees(o, w, f.push, s, PushPrompt);
    GatedStepAgrees(o, w, f.release, s, ReleasePrompt);
    GatedStepAgrees(o, w, f.publish, s, PublishPrompt);
    StepSequenceAgrees(s,
      GatedStep(o, w, f.commit, s, CommitPrompt), GatedStep(o, w, f.tag, s, TagPrompt),
      GatedStep(o, w, f.push, s, PushPrompt), GatedStep(o, w, f.release, s, ReleasePrompt),
      GatedStep(o, w, f.publish, s, PublishPrompt),
      GatedStep(Quiet(o), w, f.commit, s, CommitPrompt), GatedStep(Quiet(o), w, f.tag, s, TagPrompt),
      GatedStep(Quiet(o), w, f.push, s, PushPrompt), GatedStep(Quiet(o), w, f.release, s, ReleasePrompt),
      GatedStep(Quiet(o), w, f.publish, s, PublishPrompt), returned);
  }

  /** The replay's fixed events are no prompts, so only its release steps lose any. */
  lemma {:induction false} ReplayAround(x: seq<Event>, y: seq<Event>, hook: seq<Event>)
    requires WithoutPrompts(x) == y
    requires forall e :: e in hook ==> !e.Prompted?
    ensures var a, b := [Pushd(Replay), ReadDistRemote, ShowStatus(Dist)], [Popd(Replay), RemoveStageDir];
      WithoutPrompts(a + x + hook + b) == a + y + hook + b
  {
    var a, b := [Pushd(Replay), ReadDistRemote, ShowStatus(Dist)], [Popd(Replay), RemoveStageDir];
    WithoutPromptsConcat(a + x + hook, b);
    WithoutPromptsConcat(a + x, hook);
    WithoutPromptsConcat(a, x);
    WithoutPromptsKeeps(a);
    WithoutPromptsKeeps(hook);
    WithoutPromptsKeeps(b);
  }

  /** With every prompt confirmed, the interactive dist replay without its prompts is the non-interactive one. */
  lemma DistReplayAgrees(o: Options, w: World)
    requires o.isInteractive && ApprovesAll(w)
    ensures WithoutPrompts(DistReplay(o, w)) == DistReplay(Quiet(o), w)
  {
    var q := Quiet(o);
    assert q.dist == o.dist && q.scripts == o.scripts;
    if o.dist.repo != "" {
      var f, r := DistFlags(o, w), w.distReleaseReturned;
      assert DistFlags(q, w) == f;
      ReleaseStepsAgree(o, w, Dist, f, r);
      ReplayAround(ReleaseSteps(o, w, Dist, f, r), ReleaseSteps(q, w, Dist, f, r), Script(o.scripts, Dist, AfterRelease));
    }
  }

  /** With every prompt confirmed, everything the interactive run does from the bump on, without its prompts, is what the non-interactive run does. */
  lemma AfterVersionAgrees(o: Options, w: World, v: string)
    requires o.isInteractive && ApprovesAll(w)
    ensures WithoutPrompts(AfterVersion(o, w, v)) == AfterVersion(Quiet(o), w, v)
  {
    var prep := PrepareSteps(o, v);
    var steps := ReleaseSteps(o, w, Src, PrimaryFlags(o), w.releaseReturned);
    var after := Script(o.scripts, Src, AfterRelease);
    assert PrepareSteps(Quiet(o), v) == prep;
    assert PrimaryFlags(Quiet(o)) == PrimaryFlags(o);
    PrepareHasNoPrompts(o, v);
    WithoutPromptsKeeps(prep);
    WithoutPromptsKeeps(after);
    ReleaseStepsAgree(o, w, Src, PrimaryFlags(o), w.releaseReturned);
    DistReplayAgrees(o, w);
    WithoutPromptsConcat(prep, steps + after + DistReplay(o, w));
    WithoutPromptsConcat(steps + after, DistReplay(o, w));
    WithoutPromptsConcat(steps, after);
    assert AfterVersion(o, w, v) == prep + (steps + after + DistReplay(o, w));
  }

  /** The bump, the staging and the dist preparation show no prompt. */
  lemma PrepareHasNoPrompts(o: Options, v: string)
    ensures forall e :: e in PrepareSteps(o, v) ==> !e.Prompted?
  {
    PrepareStepsWithin(o, v);
    NoPromptsWithin(PrepareSteps(o, v), o.lateChangelog);
  }

  /** No prompt is shown between the version prompts and the first release step prompt. */
  lemma NoPromptsWithin(t: seq<Event>, late: bool)
    requires Within(t, late, 8, 30)
    ensures forall e :: e in t ==> !e.Prompted?
  {
    forall e | e in t
      ensures !e.Prompted?
    {
      InWithin(t, late, 8, 30, e);
    }
  }

  /** With a version supplied, the steps before the bump show no prompt and are the same in both modes. */
  lemma OpeningAgrees(o: Options, w: World, lib: VersionLib)
    requires o.isInteractive && w.parsedVersion != ""
    ensures WithoutPrompts(Opening(o, w, lib)) == Opening(Quiet(o), w, lib)
  {
    var v := ValidateRepoState(o, w);
    assert ValidateRepoState(Quiet(o), w) == v;
    assert Negotiate(o, w, lib).asked == [] && Negotiate(Quiet(o), w, lib).asked == [];
    assert Opening(Quiet(o), w, lib) == Opening(o, w, lib);
    WithoutPromptsKeeps(Opening(o, w, lib));
  }

  /**
   * The two modes agree: an interactive run with a supplied version and every
   * prompt confirmed performs, apart from showing the prompts, exactly the
   * steps of the non-interactive run, and ends the same way.
   */
  lemma ModesAgree(o: Options, w: World, lib: VersionLib)
    requires o.isInteractive && w.parsedVersion != "" && ApprovesAll(w)
    ensures WithoutPrompts(Release(o, w, lib, None).trace) == Release(Quiet(o), w, lib, None).trace
    ensures Release(o, w, lib, None).result == Release(Quiet(o), w, lib, None).result
  {
    UninterruptedAgree(o, w, lib);
    var u := Uninterrupted(o, w, lib);
    if u.result.Failure? {
      WithoutPromptsConcat(u.trace, [LogError]);
      WithoutPromptsKeeps([LogError]);
    }
  }

  /** The failure-free runs of the two modes agree apart from the prompts. */
  lemma UninterruptedAgree(o: Options, w: World, lib: VersionLib)
    requires o.isInteractive && w.parsedVersion != "" && ApprovesAll(w)
    ensures WithoutPrompts(Uninterrupted(o, w, lib).trace) == Uninterrupted(Quiet(o), w, lib).trace
    ensures Uninterrupted(o, w, lib).result == Uninterrupted(Quiet(o), w, lib).result
  {
    OpeningAgrees(o, w, lib);
    AfterVersionAgrees(o, w, w.parsedVersion);
    WithoutPromptsConcat(Opening(o, w, lib), AfterVersion(o, w, w.parsedVersion));
    assert ValidateRepoState(Quiet(o), w) == ValidateRepoState(o, w);
    assert Negotiate(o, w, lib) == Negotiate(Quiet(o), w, lib);
  }

  /**
   * Picking an entry of the increment list resolves the version that entry
   * shows; picking the final "Other" entry resolves the typed version, after
   * the version input is shown.
   */
  lemma PickedChoiceYieldsShownVersion(table: IncrementTable, o: Options, w: World, lib: VersionLib, i: int)
    requires lib.isPreRelease(w.latestVersion) ==> |table.continuation| > 0
    requires o.isInteractive && w.parsedVersion == ""
    requires var cs := IncrementChoices(table, lib, w.latestVersion, o.preRelease, o.preReleaseId);
      0 <= i < |cs| && w.pick == cs[i].value
    ensures var cs := IncrementChoices(table, lib, w.latestVersion, o.preRelease, o.preReleaseId);
      && (i < |cs| - 1 && w.pick.value != "" ==>
            cs[i].shown.IncrementLabel? && Resolved(o, w, lib) == cs[i].shown.next
            && Negotiate(o, w, lib).asked == [Prompted(Src, IncrementList)])
      && (i == |cs| - 1 ==>
            Resolved(o, w, lib) == w.typedVersion
            && Negotiate(o, w, lib).asked == [Prompted(Src, IncrementList), Prompted(Src, VersionInput)])
  {
  }
}
