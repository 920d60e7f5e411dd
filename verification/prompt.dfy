/**
 * The prompt gate and the version-choice helpers of lib/prompt.js: the rule that
 * decides whether a prompt is shown and whether its task runs, the increment
 * choices offered for the next version, the colouring of a typed version, and
 * the validation of a typed version.
 */
module Prompt {
  import opened Outcomes
  import opened Versions

  /** Whose configuration a prompt belongs to: the source repository or the dist repository. */
  datatype Subject = Src | Dist

  /** The entries of the prompt table. */
  datatype PromptName =
    | IncrementList
    | VersionInput
    | CommitPrompt
    | TagPrompt
    | PushPrompt
    | ReleasePrompt
    | PublishPrompt
    | OtpPrompt

  datatype PromptType = List | Input | Confirm

  /** The `type` each entry of the prompt table declares. */
  function TypeOf(name: PromptName): PromptType {
    match name
    case IncrementList => List
    case VersionInput | OtpPrompt => Input
    case _ => Confirm
  }

  /** What the user answers: a confirmation, typed text, or a picked list value (null is `None`). */
  datatype Answer = Flag(yes: bool) | Text(text: string) | Pick(increment: Option<string>)

  /** JavaScript truthiness of an answer. */
  predicate Truthy(a: Answer) {
    match a
    case Flag(b) => b
    case Text(s) => s != ""
    case Pick(p) => p.Some? && p.value != ""
  }

  /** The configured default answers: `options.prompt` and `options.prompt.dist`. */
  datatype Defaults = Defaults(src: map<PromptName, Answer>, dist: map<PromptName, Answer>)

  function Lookup(m: map<PromptName, Answer>, name: PromptName): Option<Answer> {
    if name in m then Some(m[name]) else None
  }

  /**
   * A rendered prompt: its name and type, its default answer, and the options
   * namespace its message is rendered against.
   */
  datatype Question = Question(name: PromptName, kind: PromptType, defaultAnswer: Option<Answer>, messageScope: Subject)

  /** The outcome of the gate: no prompt at all, or a shown question and whether its task runs, with which argument. */
  datatype Gated = Skipped | Asked(question: Question, runsTask: bool, taskArg: Answer)

  /**
   * The exported gate. Nothing is shown and its task never runs unless
   * `shouldPrompt` holds; a confirm prompt runs its task exactly when the answer
   * is yes; list and input prompts always run their task on the answer. The
   * default comes from the dist defaults for the dist subject and from the
   * source defaults otherwise.
   */
  function Gate(shouldPrompt: bool, subject: Subject, name: PromptName, defaults: Defaults, answer: Answer): (g: Gated)
    ensures g.Skipped? <==> !shouldPrompt
    ensures g.Asked? ==> g.question.name == name && g.question.kind == TypeOf(name)
    ensures g.Asked? ==> g.question.messageScope == subject && g.taskArg == answer
    ensures g.Asked? && subject == Dist ==> g.question.defaultAnswer == Lookup(defaults.dist, name)
    ensures g.Asked? && subject == Src ==> g.question.defaultAnswer == Lookup(defaults.src, name)
    ensures g.Asked? && TypeOf(name) == Confirm ==> (g.runsTask <==> Truthy(answer))
    ensures g.Asked? && TypeOf(name) != Confirm ==> g.runsTask
  {
    if !shouldPrompt then Skipped
    else
      var scoped := if subject == Dist then defaults.dist else defaults.src;
      var question := Question(name, TypeOf(name), Lookup(scoped, name), subject);
      var doExecute := if question.kind == Confirm then Truthy(answer) else true;
      Asked(question, doExecute, answer)
  }

  /** The increment types offered, in order, for the next version. */
  function IncrementTypes(table: IncrementTable, lib: VersionLib, latestVersion: string, preRelease: bool): (types: seq<string>)
    requires lib.isPreRelease(latestVersion) ==> |table.continuation| > 0
    ensures lib.isPreRelease(latestVersion) ==>
      types == table.release + [table.continuation[0]]
    ensures !lib.isPreRelease(latestVersion) && preRelease ==> types == table.preRelease
    ensures !lib.isPreRelease(latestVersion) && !preRelease ==> types == table.release + table.preRelease
  {
    if lib.isPreRelease(latestVersion) then table.release + [table.continuation[0]]
    else if preRelease then table.preRelease
    else table.release + table.preRelease
  }

  /** How a choice is displayed: an increment with the version it leads to, or the escape entry. */
  datatype Label = IncrementLabel(increment: string, next: string) | OtherLabel

  datatype Choice = Choice(shown: Label, value: Option<string>)

  /** One choice per increment type, in order, each showing the version the increment leads to. */
  function IncrementEntries(types: seq<string>, lib: VersionLib, latestVersion: string, preReleaseId: string): (cs: seq<Choice>)
    ensures |cs| == |types|
    ensures forall i :: 0 <= i < |types| ==>
      cs[i] == Choice(IncrementLabel(types[i], lib.inc(latestVersion, types[i], preReleaseId)), Some(types[i]))
  {
    if types == [] then []
    else
      [Choice(IncrementLabel(types[0], lib.inc(latestVersion, types[0], preReleaseId)), Some(types[0]))]
      + IncrementEntries(types[1..], lib, latestVersion, preReleaseId)
  }

  /**
   * The choices of the increment list: the increment entries in type order,
   * then exactly one final "Other" entry whose value is null.
   */
  function IncrementChoices(table: IncrementTable, lib: VersionLib, latestVersion: string, preRelease: bool, preReleaseId: string): (cs: seq<Choice>)
    requires lib.isPreRelease(latestVersion) ==> |table.continuation| > 0
    ensures var types := IncrementTypes(table, lib, latestVersion, preRelease);
      && |cs| == |types| + 1
      && (forall i :: 0 <= i < |types| ==>
            cs[i].value == Some(types[i]) && cs[i].shown == IncrementLabel(types[i], lib.inc(latestVersion, types[i], preReleaseId)))
    ensures cs[|cs| - 1] == Choice(OtherLabel, None)
    ensures forall i :: 0 <= i < |cs| ==> (cs[i].value.None? <==> i == |cs| - 1)
  {
    var types := IncrementTypes(table, lib, latestVersion, preRelease);
    IncrementEntries(types, lib, latestVersion, preReleaseId) + [Choice(OtherLabel, None)]
  }

  /** The chalk colours the typed version is shown in. */
  datatype Colour = Green | Red | RedBright

  datatype Styled = Styled(colour: Colour, text: string)

  /**
   * The transformer of the version input: three disjoint states, valid and
   * greater than the latest version, valid and not greater, and invalid.
   */
  function VersionTransformer(lib: VersionLib, latestVersion: string, input: string): (s: Styled)
    ensures s.text == input
    ensures s.colour == Green <==> lib.valid(input) && lib.gt(input, latestVersion)
    ensures s.colour == Red <==> lib.valid(input) && !lib.gt(input, latestVersion)
    ensures s.colour == RedBright <==> !lib.valid(input)
  {
    if lib.valid(input) then
      if lib.gt(input, latestVersion) then Styled(Green, input) else Styled(Red, input)
    else Styled(RedBright, input)
  }

  /** What the `validate` rule of the version input returns: acceptance or the message shown. */
  datatype Verdict = Accepted | Rejected(message: string)

  const InvalidVersionMessage := "The version must follow the semver standard."

  /** Accepts exactly the semver-valid input; anything else gets the fixed message. */
  function ValidateVersion(lib: VersionLib, input: string): (v: Verdict)
    ensures v.Accepted? <==> lib.valid(input)
    ensures v.Rejected? ==> v.message == InvalidVersionMessage
  {
    if lib.valid(input) then Accepted else Rejected(InvalidVersionMessage)
  }

  /** The input rule and the transformer agree: accepted input is never shown as invalid. */
  lemma ValidatorAgreesWithTransformer(lib: VersionLib, latestVersion: string, input: string)
    ensures ValidateVersion(lib, input).Accepted? <==> VersionTransformer(lib, latestVersion, input).colour != RedBright
  {
  }

  /**
   * When the latest version is a pre-release, only release increments and the
   * first continuation increment are offered: no pre-release increment that is
   * not also one of those.
   */
  lemma PreReleaseOffersContinuationOnly(table: IncrementTable, lib: VersionLib, latestVersion: string, preRelease: bool, preReleaseId: string, i: int)
    requires |table.continuation| > 0
    requires lib.isPreRelease(latestVersion)
    requires 0 <= i < |IncrementChoices(table, lib, latestVersion, preRelease, preReleaseId)| - 1
    ensures var cs := IncrementChoices(table, lib, latestVersion, preRelease, preReleaseId);
      cs[i].value.Some? && (cs[i].value.value in table.release || cs[i].value.value == table.continuation[0])
  {
  }

  /** Without a pre-release latest version or pre-release mode, the offered increments are exactly the release and pre-release types. */
  lemma StandardOffersAllIncrements(table: IncrementTable, lib: VersionLib, latestVersion: string, preReleaseId: string, t: string)
    requires !lib.isPreRelease(latestVersion)
    ensures var cs := IncrementChoices(table, lib, latestVersion, false, preReleaseId);
      (exists i :: 0 <= i < |cs| && cs[i].value == Some(t)) <==> t in table.release || t in table.preRelease
  {
    var cs := IncrementChoices(table, lib, latestVersion, false, preReleaseId);
    var types := table.release + table.preRelease;
    if t in table.release || t in table.preRelease {
      assert t in types;
      var i :| 0 <= i < |types| && types[i] == t;
      assert cs[i].value == Some(t);
    }
  }
}
