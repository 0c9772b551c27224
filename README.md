# Configuration schema migration in deplio

deplio keeps its configuration in a versioned file format. When the tool
reads a file written under an older schema version, it runs the file's data
through a chain of registered upgraders until the data reaches the version
the tool expects. This project models that migration engine,
`upgrade_data` in `lib/src/app_config/versioning.rs`, together with:

- the `Upgrader` capability it consumes (`lib/src/app_config/traits.rs`);
- the semantic-version parsing and ordering it relies on;
- the scenarios of its test suite (`lib/src/app_config/versioning_tests.rs`).

The modules:

- `Wrappers` holds `Option` and `Result`.
- `SemVer` holds the Semantic Versioning 2.0.0 grammar (core
  MAJOR.MINOR.PATCH, pre-release in section 9, build metadata in section 10)
  and the precedence rule of section 11.
  - `Parse` and `Format` are proved inverse to each other.
  - `Compare` is proved antisymmetric and transitive, and is proved to ignore
    build metadata.
- `Traits` holds the `Upgrader` value, with its four facets: `upgrade`,
  `version`, `canUpgrade` and `breakingChangeMessage`.
- `Versioning` holds the engine.
  - `UpgradeData` is the imperative engine: the guards, then `ForwardPass`,
    a `for` loop over the registry that updates the current version and data.
  - `UpgradeOutcome` is its functional specification, with typed errors
    (`UpgradeError`) that `Message` renders as the engine's error strings.
  - The forward pass is the left fold `Run` of `Step`: the loop invariant
    of `UpgradeData` is that the prefix visited so far folds to the current
    state.
  - The lemmas characterise every outcome without reference to the fold.
    `Taken` describes which entries the greedy first-match pass applies.
    A success is exactly a `Route`, whose data is the left-to-right
    composition of the route's steps. A breaking-change error is exactly a
    pass `BlockedAt` an applicable breaking step. A missing route is exactly
    a pass that visits the whole registry without stopping.
- `VersioningTests` holds the test double `MockUpgrader` and one lemma per
  test. Each lemma states what `UpgradeData` returns, by its postcondition.

Versions are compared in two ways, as in the source:

- The downgrade guard compares parsed versions by precedence.
- The equal-version shortcut, the supported-target check and the
  end-of-pass check compare the strings themselves.
- The engine passes `can_upgrade` the current version string, not a parsed
  version; what an upgrader accepts is its own affair (the test double
  accepts exactly one string).

## Model

| member | source | states |
|---|---|---|
| Versioning.UpgradeData | lib/src/app_config/versioning.rs:6-70 | the engine returns exactly the rendered `UpgradeOutcome` of the selected registry, for every input |
| Versioning.UpgradeOutcome | lib/src/app_config/versioning.rs:6-70 | what the engine computes, guard by guard in the source's order; a success needs two valid versions that are not a downgrade, gives the data back unchanged for equal strings, and otherwise needs a supported target |
| Versioning.ForwardPass | lib/src/app_config/versioning.rs:44-69 | the loop returns the rendered final state of the fold `Run` over the whole registry; its invariant keeps the fold of the visited prefix equal to the current (version, data) |
| Versioning.Step | lib/src/app_config/versioning.rs:46-60 | one loop iteration: a stopped pass stays stopped; a running pass moves only to the entry's version and never to the target while running; it aborts only with a breaking change and stops only on producing the target |
| Versioning.Run | lib/src/app_config/versioning.rs:45-62 | the loop as a left fold of `Step`: a pass that has stopped is never resumed, and a pass still running started running |
| Versioning.Finish | lib/src/app_config/versioning.rs:63-69 | after the loop, success exactly when the pass reached the target or is running at it, with the current data; any other non-aborted end is the missing-route error |
| Versioning.SelectUpgraders | lib/src/app_config/versioning.rs:13-16 | the override when given, else the empty default registry (its consequence is `DefaultRegistrySupportsNothing`) |
| Versioning.Supports | lib/src/app_config/versioning.rs:40 | some entry's version string equals the target (used by `UnsupportedTargetRefused`) |
| Versioning.Message | lib/src/app_config/versioning.rs:19-67 | the six error strings of the engine, with the crate's parse-error detail left out (substrings checked by `DowngradeMessageMentions` and `BreakingMessageMentions`) |
| Versioning.BuildMetadataNeverDowngrade | lib/src/app_config/versioning.rs:24-29 | versions that differ at most in build metadata are never refused as a downgrade, in either order |
| Versioning.DefaultRegistrySupportsNothing | lib/src/app_config/versioning.rs:13-16 | with no override the empty default registry is used, so every valid forward upgrade between distinct strings fails as an unsupported target |
| Versioning.InvalidFromVersionFirst | lib/src/app_config/versioning.rs:18-19 | the outcome is the invalid-from error if and only if `fromVersion` does not parse, whatever the other arguments are |
| Versioning.InvalidToVersionSecond | lib/src/app_config/versioning.rs:20-21 | the outcome is the invalid-to error if and only if `fromVersion` parses and `toVersion` does not |
| Versioning.DowngradeRefused | lib/src/app_config/versioning.rs:24-29 | the outcome is the downgrade error naming both version strings if and only if both parse and `fromVersion` has higher precedence, whatever the registry holds |
| Versioning.SameVersionIdentity | lib/src/app_config/versioning.rs:34-37 | equal valid version strings give the data back unchanged, for every registry |
| Versioning.UnsupportedTargetRefused | lib/src/app_config/versioning.rs:40-42 | the outcome is the unsupported-target error if and only if the guards before it pass and no registered upgrader produces `toVersion` |
| Versioning.PassErrors | lib/src/app_config/versioning.rs:44-68 | an error after the guards is a breaking change or the missing-route error for the target, nothing else |
| Versioning.RunAbortsOnBreaking | lib/src/app_config/versioning.rs:46-55 | the pass only ever aborts with a breaking-change error |
| Versioning.RunTerminal | lib/src/app_config/versioning.rs:58-60 | once the pass has stopped, the remaining entries change nothing |
| Versioning.RunningOffTarget | lib/src/app_config/versioning.rs:56-60 | while the pass is still running, its current version is not the target |
| Versioning.TakenRun | lib/src/app_config/versioning.rs:45-62 | after the steps `Taken` describes, the pass is still running, at the last applied upgrader's version, with the composition of the applied upgrades |
| Versioning.RunTaken | lib/src/app_config/versioning.rs:45-62 | a pass still running after `n` entries has applied exactly the entries of some `Taken` description |
| Versioning.RouteReaches | lib/src/app_config/versioning.rs:56-60 | a pass along a route stops at the target with the left-to-right composition of the route's upgrades |
| Versioning.RouteSucceeds | lib/src/app_config/versioning.rs:45-69 | following a route succeeds with the composition of its upgrades |
| Versioning.SuccessFollowsRoute | lib/src/app_config/versioning.rs:45-69 | every success follows some route, and its data is that route's composition |
| Versioning.BlockedFails | lib/src/app_config/versioning.rs:46-55 | meeting an applicable breaking upgrader aborts with its message, from the current version to the upgrader's, before it is applied |
| Versioning.BreakingChangeBlocked | lib/src/app_config/versioning.rs:46-55 | every breaking-change error comes from a pass blocked at an applicable breaking upgrader |
| Versioning.ExhaustedFails | lib/src/app_config/versioning.rs:63-68 | a pass that visits the whole registry without stopping fails with the missing-route error |
| Versioning.NoRouteExhausted | lib/src/app_config/versioning.rs:63-68 | every missing-route error names the target and comes from a pass that visited the whole registry without stopping |
| Versioning.LaterEntriesIgnored | lib/src/app_config/versioning.rs:58-60 | entries after the step that reaches the target are never consulted: appending entries keeps a success unchanged |
| Versioning.ErrorsIgnoreData | lib/src/app_config/versioning.rs:18-68 | whether and how the engine fails depends only on the versions and the registry, never on the data |
| SemVer.Parse | lib/src/app_config/versioning.rs:18-21 | every accepted version is well formed |
| SemVer.ParseFormat | lib/src/app_config/versioning.rs:18-21 | every well-formed version is accepted in its canonical spelling and parsed back to itself |
| SemVer.FormatParse | lib/src/app_config/versioning.rs:18-21 | every accepted string is the canonical spelling of what it parses to |
| SemVer.Format | lib/src/app_config/versioning.rs:18-21 | the canonical spelling of a version, the independent partner of `Parse` (see `ParseFormat`, `FormatParse`) |
| SemVer.Compare | lib/src/app_config/versioning.rs:24 | precedence as in section 11 of Semantic Versioning 2.0.0 (see `CompareFlip`, `CompareTransitive`, `CompareIgnoresBuild`, `PreReleaseBelowRelease`) |
| SemVer.LeadingNonDigitRejected | lib/src/app_config/versioning.rs:18-19 | a string that does not start with a digit (a leading `v`, a space) is rejected |
| SemVer.CompareFlip | lib/src/app_config/versioning.rs:24 | precedence is antisymmetric, and two versions tie exactly when they differ at most in build metadata |
| SemVer.CompareTransitive | lib/src/app_config/versioning.rs:24 | precedence is transitive |
| SemVer.CompareIgnoresBuild | lib/src/app_config/versioning.rs:24 | build metadata does not take part in precedence |
| SemVer.PreReleaseBelowRelease | lib/src/app_config/versioning.rs:24 | a pre-release ranks below the release it precedes |
| VersioningTests.MockUpgrader.AsUpgrader | lib/src/app_config/versioning_tests.rs:7-30 | the mock, as the four facets of the upgrader capability (traits.rs:3-13): it produces its version, accepts exactly its one source version, appends "-" and its result to the data, and reports its breaking change |
| VersioningTests.DowngradeMessageMentions | lib/src/app_config/versioning_tests.rs:53-60 | the downgrade message contains "Cannot upgrade from version F to T" and "from_version must be less than or equal to to_version" |
| VersioningTests.BreakingMessageMentions | lib/src/app_config/versioning_tests.rs:152-167 | the breaking-change message contains "Cannot upgrade from version F to T" and the upgrader's own message |
| VersioningTests.SameVersion | lib/src/app_config/versioning_tests.rs:32-37 | "1.0.0" to "1.0.0" with the default registry gives any data back unchanged |
| VersioningTests.SameVersionSampleData | lib/src/app_config/versioning_tests.rs:73-86 | empty and whitespace-only data come back unchanged |
| VersioningTests.InvalidFrom | lib/src/app_config/versioning_tests.rs:39-44 | "invalid-version" as the source version gives the invalid-from error |
| VersioningTests.InvalidTo | lib/src/app_config/versioning_tests.rs:46-51 | "invalid-version" as the target version gives the invalid-to error |
| VersioningTests.Downgrading | lib/src/app_config/versioning_tests.rs:53-60 | "2.0.0" to "1.0.0" gives the downgrade error naming both versions |
| VersioningTests.UnsupportedByDefault | lib/src/app_config/versioning_tests.rs:62-71 | "1.0.0" to "90000.0.0" with the default registry gives the unsupported-target error for "90000.0.0" |
| VersioningTests.LeadingV | lib/src/app_config/versioning_tests.rs:88-93 | "v1.0.0" gives the invalid-from error |
| VersioningTests.SurroundingSpaces | lib/src/app_config/versioning_tests.rs:95-100 | " 1.0.0 " gives the invalid-from error |
| VersioningTests.ZeroVersions | lib/src/app_config/versioning_tests.rs:102-107 | "0.0.0" to itself gives any data back unchanged |
| VersioningTests.LargeVersionNumbers | lib/src/app_config/versioning_tests.rs:109-114 | "999.999.999" to itself gives any data back unchanged |
| VersioningTests.SingleUpgrade | lib/src/app_config/versioning_tests.rs:116-129 | one applicable mock from "1.0.0" to "1.1.0" appends "-" and its result to any data |
| VersioningTests.MultilineData | lib/src/app_config/versioning_tests.rs:269-283 | multi-line data gets "-newline" appended, its line breaks untouched |
| VersioningTests.UnicodeData | lib/src/app_config/versioning_tests.rs:285-299 | non-ASCII data gets "-" and the non-ASCII result appended, untouched |
| VersioningTests.JsonLikeData | lib/src/app_config/versioning_tests.rs:301-315 | JSON-like data gets "-updated" appended, its quotes and braces untouched |
| VersioningTests.MultipleUpgrades | lib/src/app_config/versioning_tests.rs:131-150 | two chained mocks to "1.2.0" append "-v1.1" and then "-v1.2" |
| VersioningTests.BreakingChangeDetected | lib/src/app_config/versioning_tests.rs:152-167 | an applicable breaking mock gives the breaking-change error from "1.0.0" to "2.0.0" with the mock's message |
| VersioningTests.StopsAtTarget | lib/src/app_config/versioning_tests.rs:169-189 | the pass stops at "1.1.0" and does not apply the following "1.2.0" mock |
| VersioningTests.NoApplicableUpgrader | lib/src/app_config/versioning_tests.rs:191-207 | a mock producing the target but accepting only "0.9.0" gives the missing-route error |
| VersioningTests.TargetNotInUpgraders | lib/src/app_config/versioning_tests.rs:209-227 | a target no mock produces gives the unsupported-target error |
| VersioningTests.EmptyUpgradersList | lib/src/app_config/versioning_tests.rs:229-240 | an empty override gives the unsupported-target error |
| VersioningTests.ComplexUpgradeChain | lib/src/app_config/versioning_tests.rs:242-267 | a patch, minor and major chain to "2.0.0" appends "-patch", "-minor" and "-major" in order |
| VersioningTests.PrereleaseVersions | lib/src/app_config/versioning_tests.rs:317-330 | "1.0.0-alpha" to "1.1.0-beta" is accepted and upgraded by the matching mock |
| VersioningTests.BuildMetadataVersions | lib/src/app_config/versioning_tests.rs:332-345 | "1.0.0+build1" to "1.1.0+build2" is accepted and upgraded by the matching mock |
| VersioningTests.BuildOnlyDifference | lib/src/app_config/versioning.rs:24-29 | "1.0.0+build2" to "1.0.0+build1" with the default registry passes the downgrade guard and is refused as an unsupported target |
| VersioningTests.IncompleteUpgradeChain | lib/src/app_config/versioning_tests.rs:347-369 | a gap in the chain ("1.2.0" has no producer) gives the missing-route error for "1.3.0" |
| VersioningTests.MissingIntermediateVersion | lib/src/app_config/versioning_tests.rs:399-422 | a registry missing the "1.2.0" producer gives the missing-route error for "1.3.0" on the test's data |
| VersioningTests.CompleteUpgradeChain | lib/src/app_config/versioning_tests.rs:371-397 | a complete chain to "1.3.0" appends "-v1.1", "-v1.2" and "-v1.3" in order |

## Left out

- The `eprintln!` of the breaking-change message (versioning.rs:48) is output to standard error and is not modelled.
- `InvalidFromVersion` and `InvalidToVersion` render as "Invalid from_version" and "Invalid to_version". The engine appends the semver crate's own parse-error description after ": ". That crate is not part of this model, so its texts are not known here. The tests only look for the prefix.
- `SemVer.Parse` has unbounded numbers. The semver crate rejects numbers above 64 bits, so the model accepts more digits than the crate does.
- SemVer.Compare: follows section 11 of Semantic Versioning 2.0.0, which ignores build metadata. The semver crate's `Ord` may additionally order versions that differ only in build metadata; that code is not part of this model. Where it does, the two disagree at the downgrade guard: for "1.0.0+build2" to "1.0.0+build1" with the default registry, the crate would refuse a downgrade if it orders "build2" above "build1", while the model returns `Err(UnsupportedTarget("1.0.0+build1"))` (`VersioningTests.BuildOnlyDifference`).
- The `Sync` bound on the trait and the `'static` lifetime of the registry are about threads and memory. They have no counterpart in the model.
- Upgraders are values with function-typed facets, not trait objects. The engine only calls the four facets, so nothing about dynamic dispatch is lost.
- The scenario lemmas are stated for every data string rather than the tests' sample strings. The sample-data tests get their own instances: SameVersionSampleData, MultilineData, UnicodeData, JsonLikeData and MissingIntermediateVersion. UnicodeData uses the evidently intended characters, spelled as Unicode escapes: the test file's literals are double-encoded UTF-8. `SingleUpgrade` covers every data string either way.
- The scenario lemmas state their errors as `Message(...)` of the typed error, not as literal strings. `Message` spells the engine's format strings out. The tests' substring checks are stated as `Contains` facts by `DowngradeMessageMentions` and `BreakingMessageMentions`.
- `lib/src/app_config/mod.rs` re-exports an `UpgradeError` that `versioning.rs` does not define: the engine returns `String` errors. The model's `UpgradeError` is a datatype of its own, rendered to those strings.
- The command-line tool, the configuration file reader and writer, the templates and the v1 data models are outside the migration engine and are not modelled.
