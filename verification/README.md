# release-it orchestration, modelled in Dafny

This project models the release pipeline of release-it, found in `lib/tasks.js`, and the prompt layer it drives, found in `lib/prompt.js`. The pipeline:

1. Validates the repository.
2. Resolves the next version, from the command line or the increment prompt.
3. Fetches the changelog early or late.
4. Bumps and stages the package.
5. Optionally prepares a dist repository in a temporary staging directory.
6. Runs the gated commit, tag, push, GitHub release and npm publish steps.
7. Replays those steps in the dist repository.
8. Returns a summary, or logs and rethrows the first error.

A run is a pure function, `Tasks.Release(options, world, lib, fault)`, and its value is an `Execution`. The execution holds:

- the trace, meaning the ordered events the run performed: each git query or command, hook, prompt shown, GitHub call, npm call and staging-directory operation. The lookups whose answers only feed later steps are not events: the latest and provisional version, the changelog timing and the parsed repository;
- the result: a `Summary` or an `Error`.

What the collaborators answer is a `World` value. The semver library is a `VersionLib` parameter. `fault` is the position of the step whose task throws, if any. A thrown step cuts the failure-free run at that point, and the run ends by logging the error.

Modules, in dependency order:

- `Outcomes`: `Option` and `Result`.
- `Versions`: the semver oracle and the increment-type table.
- `Prompt`: the gate, the increment choices, the version transformer and the validate rule.
- `Trace`: events, errors, and the phase order of the pipeline.
- `Config`: options and world.
- `Repo`: the validator.
- `Tasks`: the pipeline.
- `Ordering`: every trace follows the phase order.
- `Blocks`: locating events in their blocks.
- `Guarantees`: safety properties.
- `Runs`: errors, faults, and the staging directory.
- `Switches`: which release steps a successful run performs.
- `Modes`: interactive and non-interactive runs compared, and the increment pick.

Points where the code behaves in a way a reader might not expect, and which the model follows:

- **No cleanup on failure.** There is no `try`/`finally` around the dist replay (`lib/tasks.js:199-256`). A step that throws during the replay leaves the process inside the staging directory and never removes it. `Runs.FailedReplayStaysInStaging` and `Runs.CleanupOnlyAtTheEnd` state this.
- **Version checked only for truthiness.** Before the bump, the code checks only that the version is truthy (`lib/tasks.js:118-120`). Within `lib/tasks.js` and `lib/prompt.js`, the only semver check is the interactive input's validator (`lib/prompt.js:49`). `Guarantees.InvalidVersionStopsBeforeBump` is stated for an empty version accordingly.
- **Dist publishing ignores `npm.private`.** Only the primary publish is skipped for a private package (`lib/tasks.js:180`, `lib/tasks.js:192`). The dist publish at `lib/tasks.js:239` and `lib/tasks.js:249` does not check it.
- **The replay runs the primary after-release hook.** The dist configuration's `scripts` are bound only inside the preparation block (`lib/tasks.js:145-159`). The replay's hook at `lib/tasks.js:252` therefore reads the primary `scripts` bound at `lib/tasks.js:67`. With a dist repository, the primary after-release hook runs twice, the second time inside the staging directory, and the dist configuration's own after-release hook is never read. `Runs.AfterReleaseHookRunsTwice` states this.

## Model

| member | source | states |
|---|---|---|
| Prompt.Gate | lib/prompt.js:78-91 | Nothing is shown and no task runs unless `shouldPrompt` holds. A shown prompt carries its name, its declared type and the default of its subject: dist defaults for the dist subject, source defaults otherwise. A confirm prompt runs its task exactly when the answer is truthy; list and input prompts always run it, on the answer. |
| Prompt.IncrementTypes | lib/prompt.js:13-17 | For a pre-release latest version: the release types plus the first continuation type. In pre-release mode: the pre-release types. Otherwise: release then pre-release types. |
| Prompt.IncrementEntries | lib/prompt.js:18-22 | One entry per increment type, in order. Each shows the type and the version `inc` gives for it, and has the type as its value. |
| Prompt.IncrementChoices | lib/prompt.js:12-29 | The increment entries in type order, then exactly one final "Other" entry. That entry is the only one whose value is null. |
| Prompt.VersionTransformer | lib/prompt.js:31-36 | Three disjoint colourings, each an if-and-only-if: green for valid and greater than the latest version, red for valid and not greater, bright red for invalid. The text is unchanged. |
| Prompt.ValidateVersion | lib/prompt.js:49 | Accepts exactly the semver-valid inputs. Any other input is rejected with the fixed message. |
| Prompt.ValidatorAgreesWithTransformer | lib/prompt.js:31-49 | The validate rule accepts an input exactly when the transformer does not show it as invalid. |
| Prompt.PreReleaseOffersContinuationOnly | lib/prompt.js:13-14 | With a pre-release latest version, every increment entry offered is a release type or the first continuation type. |
| Prompt.StandardOffersAllIncrements | lib/prompt.js:15-17 | Outside pre-release, a type is offered exactly when it is a release or pre-release type. |
| Repo.ValidateRepoState | lib/tasks.js:26-57 | Each of the five errors is raised exactly when its check fails and every earlier check passed. The clean-directory query is made exactly when a clean directory is required. Success returns the queried remote URL and upstream. Validation only queries. |
| Repo.ValidatorQueryOrder | lib/tasks.js:30-46 | The repository query always comes first and, inside a repository, the remote query second. The upstream is queried exactly when the repository, remote and clean-directory checks all passed, whether or not the upstream or token check then fails. |
| Repo.ValidatorIsFirstFailure | lib/tasks.js:30-51 | Against an independent list of the five checks in precedence order, the validator fails exactly when some check fails, with the error of the first failing one. |
| Tasks.Script | lib/tasks.js:75 | A hook's event occurs exactly when a command is configured for it, and at most once. |
| Tasks.Ask | lib/prompt.js:78-90 | A prompt gated by `shouldPrompt` shows one event exactly when `shouldPrompt` holds. It runs its task exactly when shown and, for a confirm prompt, answered yes. |
| Tasks.GatedStep | lib/tasks.js:174-195 | A release step's prompt appears exactly in an interactive run with its switch on. The step runs exactly when its switch is on and, in an interactive run, its prompt was confirmed. |
| Tasks.Negotiate | lib/tasks.js:102-116 | A supplied version, or any non-interactive run, is used as-is with no prompt. Otherwise the increment list is shown. A truthy pick yields `inc(latest, pick, preReleaseId)`. Anything else shows the version input and yields the typed version. |
| Tasks.Interrupt | lib/tasks.js:62-285 | A step that throws at a position inside the run cuts the run right after it: every earlier event is kept in order, the error log follows, and the error names that step. With no step throwing, the failure-free run's own result is kept: if it failed, every event it performed is kept, and its error is logged after them and rethrown unchanged. A successful run is the failure-free run itself. |
| Tasks.Release | lib/tasks.js:59-286 | A failed run ends with the error log; see "Left out". |
| Ordering.ReleaseInOrder | lib/tasks.js:75-256 | Every run, failed or not, visits its events in strictly increasing pipeline phase. |
| Guarantees.NoMutationBeforeValidation | lib/tasks.js:77-123 | No run performs a mutating step unless the repository was validated and a version was resolved. Every validation query precedes every mutation. |
| Guarantees.InvalidVersionStopsBeforeBump | lib/tasks.js:75-123 | With a validated repository and no resolved version, the run fails before any mutation. Every event except the error log belongs to the opening phases, so the before-bump hook never runs. Without a throwing step, it fails with the invalid-version error. |
| Guarantees.NonInteractiveRunNeedsVersion | lib/tasks.js:102-120 | A validated non-interactive run without a supplied version fails with the invalid-version error. It shows no prompt and mutates nothing. |
| Guarantees.ChangelogPosition | lib/tasks.js:92-129 | The changelog is fetched at most once, always before staging. It comes after the bump and the increment prompt exactly when late. A successful run fetches it. |
| Guarantees.ReleaseStepOrder | lib/tasks.js:174-250 | Within a repository, release steps occur in the order commit, tag, push, release, upload, publish. Every primary release step precedes every dist one. |
| Guarantees.EachStepOnce | lib/tasks.js:75-285 | No event occurs twice in a run. |
| Guarantees.UploadFollowsRelease | lib/tasks.js:178-248 | Assets are uploaded only right after the GitHub release of the same repository, and only when that call returned a release. |
| Guarantees.PrivatePackageNeverPublished | lib/tasks.js:180-194 | For a private package, neither the primary publish nor its prompt occurs. |
| Guarantees.NoDistWithoutRepository | lib/tasks.js:143-256 | No dist event occurs unless a dist repository is configured. |
| Guarantees.DistTagMeansShouldTag | lib/tasks.js:207-243 | The dist repository is tagged only when a dist repository is configured and the three-way tag rule holds. |
| Guarantees.SameRepositoryTagNotRepeated | lib/tasks.js:207 | When the dist repository is the primary one, with the same tag name and primary tagging on, the dist repository is not tagged. |
| Guarantees.ShouldTagByRepository | lib/tasks.js:207 | For distinct repositories, the tag rule is the dist tag switch. For the same repository, it is a differing tag name, or the dist switch on with primary tagging off. |
| Runs.ErrorLogged | lib/tasks.js:281-285 | A run fails exactly when it logs an error, and the error log is always its last event. |
| Runs.FaultCutsTheRun | lib/tasks.js:62-285 | A throwing step at a position inside the failure-free run cuts it there: the run is the failure-free run up to and including that step, then the error log, and it fails with exactly that step, even when the failure-free run would have failed later. A position past the end of the run leaves the run as if nothing threw. A run in which nothing throws is the failure-free run, followed by the error log when that run failed, with the same result. |
| Runs.ThrowingHookBeatsValidation | lib/tasks.js:62-285 | A before-start hook that throws makes the run fail with that hook's step after logging it, and nothing else runs, even where validation would have failed. |
| Runs.StepFailureIsCut | lib/tasks.js:281-285 | A run that failed at a step is the failure-free run up to that step, followed by the error log. |
| Runs.SuccessSummary | lib/tasks.js:276-280 | A run succeeds exactly when the repository is validated, a version resolved and no step throws. It then returns the changelog, the latest version and the resolved version. |
| Runs.StagingDirectoryOnSuccess | lib/tasks.js:143-256 | In a successful run, each of these happens exactly when a dist repository is configured: making the staging directory, entering and leaving it for preparation, entering and leaving it for the replay, and removing it. The run then ends by leaving the directory and removing it. |
| Runs.CleanupOnlyAtTheEnd | lib/tasks.js:253-285 | The staging directory is removed only by a run that succeeds, or whose failing step is that removal. |
| Runs.FailedReplayStaysInStaging | lib/tasks.js:199-256 | A run that fails at a dist release step ends inside the staging directory: it entered it for the replay, never left it, and never removed it. |
| Runs.AfterReleaseHookRunsTwice | lib/tasks.js:197-252 | In a successful run, the primary after-release hook runs for the primary repository exactly when it is configured. It runs again in the staging directory exactly when a dist repository is also configured. |
| Runs.StagingVisitsInOrder | lib/tasks.js:143-256 | The staging directory is made, entered and left for preparation, entered and left for the replay, then removed, in that order. No later event of that sequence occurs without the earlier ones. |
| Switches.PrimaryStepsOfSuccessfulRun | lib/tasks.js:174-195 | A successful run performs each primary release step exactly when its switch is on and, if interactive, its prompt was confirmed. A private package is never published. Upload happens only with a returned release. |
| Switches.DistStepsOfSuccessfulRun | lib/tasks.js:199-250 | A successful run performs each dist release step exactly when a dist repository is configured and the dist switch (defaulting to the primary one) is on and confirmed. The dist tag follows the tag rule. |
| Modes.ModesAgree | lib/tasks.js:174-250 | Consider an interactive run with a supplied version and every prompt confirmed. With its prompts removed, it performs exactly the steps of the non-interactive run, and ends the same way. |
| Modes.PickedChoiceYieldsShownVersion | lib/tasks.js:102-116 | Picking an increment entry resolves exactly the version that entry showed, with only the list prompt shown. Picking "Other" resolves the typed version, after the version input. |

## Left out

- Tasks.Release: its own contract states only that a failed run ends with the error log. The remaining contract of the pipeline is stated by the lemmas in `Ordering`, `Guarantees`, `Runs`, `Switches` and `Modes`.
- Prompt.IncrementTypes: when the latest version is a pre-release, the continuation list is assumed non-empty. The code indexes its first entry there without a check (`lib/prompt.js:14`), and the shipped list is non-empty. Other latest versions need no such assumption.
- Output is left out because it does not affect what a run does. This covers console output, spinner text, the changelog and changeset printouts, the closing links and timing (`lib/tasks.js:258-274`), and `debug` calls.
- Loading configuration, `handleDeprecated` and `config.setOption` are left out, because the model starts from resolved options.
- The latest-version lookup (`parseVersion`, `lib/tasks.js:78`), the changelog-timing lookup (`lib/tasks.js:79`), `repoPathParse` (`lib/tasks.js:81` and `lib/tasks.js:205`), `config.getResolvedDir` (`lib/tasks.js:142`) and `Git.isSameRepo` (`lib/tasks.js:206`) cannot fail in the model. Their answers are `World` fields or options, and no event records them.
- Collaborators are not part of this model: `lib/shell.js`, `lib/git.js`, `lib/github-client.js`, `lib/version.js`, `lib/recommendations.js`, `parse-repo` and `semver`.
  - Their effects are events.
  - Their answers are `World` fields: repository facts, latest and parsed version, changelog, whether the GitHub release returned a release, and whether the repositories are the same.
  - The changelog-timing recommendation is the `lateChangelog` option.
  - semver and `isPreRelease` are the `VersionLib` parameter; the increment-type constants are the `IncrementTable` parameter.
- The npm one-time-password prompt is left out, because it is shown from inside `npmPublish`, which is not part of this model.
- Re-asking the version input until it passes `validate` is inquirer's behaviour, and is left out. The typed version is the final answer.
- Prompt message texts are left out, because they are rendering only. The gate records which options namespace a message is rendered against.
- Whether the dist repository has changes (`Git.hasChanges`) is recorded as an event, and its result is ignored, as in the code.
- The spinner helper is assumed to run its task exactly when its condition is truthy, and to return the task's own result. The GitHub release's answer, which gates the asset upload (`lib/tasks.js:178-179`), relies on this.
- Exceptions are modelled only as the step that throws. What the error object holds beyond the failing step is not modelled.
