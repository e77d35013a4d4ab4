# Gas Town VCS factory, VCS value types and the patrol-roles doctor check

A Dafny model of three small pieces of Gas Town, an orchestrator for rigs
(managed project checkouts worked on by agents) on top of git or jujutsu (jj):

- **VCS factory** (`factory.dfy`, module `Factory`): how a directory is
  resolved to a backend. A `.jj` directory selects jj first, because a
  colocated repository carries both markers. Otherwise `.git`, a directory
  or a worktree's file, selects git. With neither, the result is
  `ErrNotARepo`. `NewFromConfig` lets a configured type override detection.
  `NewWithGitDir` needs an explicit type. The filesystem is an oracle: a map
  from existing paths to their kind. The four backend constructors are only
  recorded by name and arguments (`Constructor`), so each dispatch property
  says which constructor was called.
- **VCS value types** (`vcs.dfy`, module `Vcs`): the two backend constants,
  the four sentinel errors, the `Status`, `Workspace` and `UncommittedWork`
  records, `UncommittedWork.Clean`, and three promises of the VCS interface's
  documentation. `StashCount` is 0 on jj, `Add` is a no-op on jj and
  `CheckConflicts` changes nothing. These are stated over an abstract
  repository state (`RepoState`) and a handle (`Handle`) that fixes the
  backend and the working directory.
- **Doctor check `patrol-roles-have-prompts`** (`patrol_check.dfy`, module
  `Doctor`). Every configured rig must carry `deacon.md.tmpl`,
  `witness.md.tmpl` and `refinery.md.tmpl` under
  `<town>/<rig>/mayor/rig/internal/templates/roles`. The check is a class
  whose `missingByRig` field `Run` overwrites. `Fix` writes the embedded
  templates into the town's template files in a loop. The town (`Town`) is an
  object holding the configured rig set and a map from (rig, file name) to
  contents.

`wrappers.dfy` holds the `Option` and `Result` datatypes.

The implementation of the doctor check (`internal/doctor/patrol_check.go`)
is not part of this model. Its behaviour is reconstructed from its tests in
`internal/doctor/patrol_check_test.go`. Where the tests leave a choice open,
the model takes this one: `Fix` writes every file that the last `Run`
recorded, without looking again, and visits the rigs in no particular order.
`Fix`'s contract is order-independent. That `Fix` never overwrites an
existing template is then a lemma (`FixOnlyCreatesMissing`). It holds when
`missingByRig` came from a `Run` over the same files, as it does in every
test.

The comment on `NewFromConfig` (internal/vcs/factory.go:22-23) says it
auto-detects when the type is empty. Its `default:` branch
(internal/vcs/factory.go:30-31) auto-detects for every value other than
`"jj"` and `"git"`, not only the empty one. The model follows the code
(`OtherTypeAutoDetects`).

## Model

| member | source | states |
|---|---|---|
| `Vcs.VcsType.Name` | internal/vcs/vcs.go:14-19 | the backend constants are the strings "git" and "jj", and "jj" belongs to jj alone |
| `Vcs.TypeConstants` | internal/vcs/vcs.go:11-19 | there are exactly two backends, their names differ, and each name reads back as its backend |
| `Vcs.ParseType` | internal/vcs/factory.go:25-30 | the factory's type switch recognises exactly "jj" and "git"; every other string, the empty one included, falls to the default branch |
| `Vcs.Sentinel.Message` | internal/vcs/vcs.go:21-27 | each sentinel error carries a non-empty message |
| `Vcs.SentinelsDistinct` | internal/vcs/vcs.go:21-27 | the four sentinels are pairwise distinct, and so are their messages |
| `Vcs.UncommittedWork.Clean` | internal/vcs/vcs.go:54-57 | a summary is clean iff it is the summary of no changes, no stashes and no unpushed commits, whatever its file lists |
| `Vcs.CleanExactly` | internal/vcs/vcs.go:54-57 | Clean holds iff there are no changes, no stashes and no unpushed commits; a non-zero stash or unpushed count alone makes it false |
| `Vcs.CleanIgnoresFileLists` | internal/vcs/vcs.go:54-57 | two summaries that differ only in their modified and untracked file lists get the same Clean answer |
| `Vcs.StashCount` | internal/vcs/vcs.go:221-223 | never negative; always 0 on jj, whatever the repository state |
| `Vcs.Add` | internal/vcs/vcs.go:136-138 | on jj the repository state is unchanged; on git exactly the given paths join the staging area and nothing else changes |
| `Vcs.CheckConflicts` | internal/vcs/vcs.go:175-178 | the state after the test merge is the state before it, on either backend and whatever the answer |
| `Vcs.StashCountUnaffected` | internal/vcs/vcs.go:221-223 | neither Add nor CheckConflicts changes what a later StashCount reports |
| `Factory.Join` | internal/vcs/factory.go:62 | the joined path ends with the marker name |
| `Factory.HasJjRepo` | internal/vcs/factory.go:60-65 | true only when `.jj` exists; for an existing `.jj`, true iff it is a directory (`NotDirectory` stands for every other kind, as `!IsDir()` does) |
| `Factory.HasGitRepo` | internal/vcs/factory.go:67-80 | true iff `.git` exists at all, as a directory or a file |
| `Factory.ConstructorFor` | internal/vcs/factory.go:25-29 | the plain constructor chosen for a backend builds that backend, on the given directory |
| `Factory.DetectVCSType` | internal/vcs/factory.go:49-58 | jj iff `.jj` is a directory; git iff not that and `.git` exists; otherwise `ErrNotARepo` |
| `Factory.New` | internal/vcs/factory.go:9-20 | the jj constructor iff `.jj` is a directory; the git constructor iff not that and `.git` exists; otherwise `ErrNotARepo` |
| `Factory.NewFromConfig` | internal/vcs/factory.go:22-33 | "jj" calls the jj constructor and "git" the git constructor, on the given directory |
| `Factory.NewWithGitDir` | internal/vcs/factory.go:35-47 | "jj" and "git" call the backend's explicit-directory constructor; any other type fails with "VCS type required"; there is no filesystem argument, so it never detects |
| `Factory.JjWins` | internal/vcs/factory.go:50-53 | a `.jj` directory selects jj whether `.git` is absent, a directory or a file, for detection and construction |
| `Factory.JjFileIgnored` | internal/vcs/factory.go:61-65 | a `.jj` that is not a directory does not select jj; the answer is then git or `ErrNotARepo` by `.git` alone |
| `Factory.GitEitherKind` | internal/vcs/factory.go:68-79 | without a jj directory, a `.git` of either kind makes detection report git |
| `Factory.NoMarkerNotARepo` | internal/vcs/factory.go:16-19 | with no jj directory and no `.git`, both detection and `New` give `ErrNotARepo` |
| `Factory.NewAgreesWithDetection` | internal/vcs/factory.go:11-20 | `New` succeeds iff detection does, calls the constructor of the detected backend on the same directory, and fails with detection's error |
| `Factory.ExplicitTypeIgnoresMarkers` | internal/vcs/factory.go:24-29 | with an explicit type the result does not depend on the filesystem and is that backend's constructor |
| `Factory.OtherTypeAutoDetects` | internal/vcs/factory.go:30-31 | any value other than "jj" and "git", the empty one included, behaves exactly like `New` |
| `Factory.ConfigOverridesDetection` | internal/vcs/factory.go:24-33 | in a directory that detection resolves to jj, configuring git still calls the git constructor |
| `Doctor.EmbeddedTemplate` | internal/doctor/patrol_check_test.go:160-162 | an embedded template is never empty |
| `Doctor.MissingFrom` | internal/doctor/patrol_check_test.go:89-109 | a name is listed as missing iff it is among the names checked and absent for the rig; the list is no longer than the names checked |
| `Doctor.MissingSubMultiset` | internal/doctor/patrol_check_test.go:89-109 | no name is listed as missing more often than it occurs among the names checked |
| `Doctor.MissingCount` | internal/doctor/patrol_check_test.go:89-109 | from names without repeats, the number listed as missing is the number of distinct absent names |
| `Doctor.MissingFor` | internal/doctor/patrol_check_test.go:89-109 | a prompt is listed for the rig iff it is required and absent |
| `Doctor.MissingForCount` | internal/doctor/patrol_check_test.go:81-86 | a rig is listed with exactly as many prompts as it lacks, none twice (the counts 3, 2 and 3 the tests check) |
| `Doctor.MissingPrompts` | internal/doctor/patrol_check_test.go:89-109 | looking up each required prompt in turn yields exactly the rig's missing prompts, in order |
| `Doctor.MissingByRig` | internal/doctor/patrol_check_test.go:213-238 | only configured rigs are ever recorded |
| `Doctor.ReportedIff` | internal/doctor/patrol_check_test.go:213-238 | a rig is recorded iff it is configured and lacks a required prompt, and it is recorded with exactly the prompts it lacks |
| `Doctor.NothingMissingIff` | internal/doctor/patrol_check_test.go:111-133 | nothing is recorded iff every configured rig has every required prompt |
| `Doctor.PatrolRolesHavePromptsCheck.constructor` | internal/doctor/patrol_check_test.go:12-16 | a new check has recorded nothing |
| `Doctor.PatrolRolesHavePromptsCheck.Name` | internal/doctor/patrol_check_test.go:17-19 | the check's name is "patrol-roles-have-prompts" |
| `Doctor.PatrolRolesHavePromptsCheck.CanFix` | internal/doctor/patrol_check_test.go:20-22 | the check can fix what it finds |
| `Doctor.PatrolRolesHavePromptsCheck.Run` | internal/doctor/patrol_check_test.go:69-87 | `missingByRig` becomes exactly the missing prompts per configured rig; the status is OK iff that is empty and Warning otherwise; a Warning carries the fix hint "Run 'gt doctor --fix' to copy embedded templates to rig repos" |
| `Doctor.PatrolRolesHavePromptsCheck.Fix` | internal/doctor/patrol_check_test.go:147-163 | the new template files are the old ones plus the embedded template at every place `missingByRig` lists; nothing else changes, and neither do the configured rigs |
| `Doctor.WriteTemplates` | internal/doctor/patrol_check_test.go:152-163 | the rig's named files now hold the embedded templates, and every other file is unchanged |
| `Doctor.FixThenRunOk` | internal/doctor/patrol_check_test.go:135-169 | after fixing what Run found, every configured rig has every required prompt and a new Run records nothing |
| `Doctor.FixOnlyCreatesMissing` | internal/doctor/patrol_check_test.go:171-211 | fixing what Run found never changes an existing file; each file it creates is a required prompt of a configured rig, with non-empty contents |
| `Doctor.RunFixRun` | internal/doctor/patrol_check_test.go:135-169 | Run, Fix, Run: existing files are kept, every required prompt exists, and the second Run is OK |
| `Doctor.CheckIdentity` | internal/doctor/patrol_check_test.go:12-23 | the check is named "patrol-roles-have-prompts" and can fix |
| `Doctor.NoRigsOk` | internal/doctor/patrol_check_test.go:56-67 | with no rigs configured nothing is recorded, so Run is OK |
| `Doctor.NoTemplatesAllMissing` | internal/doctor/patrol_check_test.go:69-87 | a rig with none of the prompts lacks all of them, in order |
| `Doctor.NoTemplatesDirScenario` | internal/doctor/patrol_check_test.go:69-87 | one rig without a templates directory is the only entry recorded, with all 3 prompts |
| `Doctor.OnlyDeaconScenario` | internal/doctor/patrol_check_test.go:89-109 | with only `deacon.md.tmpl` present, exactly witness and refinery are missing |
| `Doctor.MultipleRigsScenario` | internal/doctor/patrol_check_test.go:213-238 | a complete rig is not recorded; a rig with no prompts is recorded with all 3 |

## Left out

- Calls to `os.Stat` and `filepath.Join`: the filesystem is a map from paths to kinds. `Factory.Join` concatenates with "/" and does none of `filepath.Join`'s cleaning. A `Stat` error other than "not found" is not modelled; such a path simply counts as absent.
- The bodies of `NewGitVCS`, `NewGitVCSWithDir`, `NewJjVCS` and `NewJjVCSWithDir`. They are unimplemented stubs returning errors. A `Construction` records which of them was called, and its result stands for whatever that constructor returns.
- `Factory.DetectVCSType`: on failure Go also returns the empty type string; the model returns only the error.
- Every VCS interface operation other than `Type`, `WorkDir`, `Add`, `StashCount` and `CheckConflicts`. internal/vcs/vcs.go:66-227 only declares them, and the only code behind the interface is the four constructor stubs at internal/vcs/factory.go:82-104, which return errors. This covers clone, branches, remotes, commits, status, merge and rebase, workspaces and history.
- `Vcs.StashCount`: the Go method also returns an `error`. The model has no error result, so it states nothing about when git fails to count its stashes.
- `Vcs.CheckConflicts`: the Go method also returns an `error`, which is not modelled. The conflicting-file list comes from an oracle parameter. The test merge and its abort are not modelled step by step, only the promise that no change remains.
- `Vcs.Add`: git errors for unknown paths are not modelled.
- `UncommittedWork.Clean` takes a pointer receiver in Go. Here it is a predicate on a value, so it cannot modify its receiver.
- The doctor check's messages and details texts: the tests do not fix them, and only name, status and fix hint are modelled. The `StatusError` value is declared, but the model never reports it.
- Reading `mayor/rigs.json`, JSON encoding, directory creation and file permissions. The configured rigs are a set; a town without a rig configuration has the empty set.
- `Doctor.PatrolRolesHavePromptsCheck.Fix`: the model writes every file that `missingByRig` lists without checking again whether it exists, so a `missingByRig` that is stale for the current files overwrites them. "Fix never overwrites an existing template" (internal/doctor/patrol_check_test.go:201-203) is proved only for a `missingByRig` that a `Run` over the same files just recorded (`FixOnlyCreatesMissing`). Go's `Fix` returns an `error` (internal/doctor/patrol_check_test.go:147-150, which checks it is nil); the model has no error result and states nothing about when it would be non-nil.
- The actual embedded template texts. `EmbeddedTemplate` is a placeholder whose only promised property is being non-empty.
