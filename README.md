# capkgs per-package pipeline, in Dafny

capkgs keeps a JSON store of Nix packages (`packages.json`). The store maps each resolved flake reference to a
record. For each release of each configured repository, and for each package template and each
system, the pipeline does three things:

- It resolves the template by replacing `${tag}` and `${system}`.
- It makes sure the store has a record for that reference.
- It runs a small memoised pipeline on the record: evaluate the package, then build it and make its
  closure content-addressed.

Each step is skipped when its result is already recorded. A step that fails marks the record with
`fail => true`. The pipeline exists twice, and the model covers both:

- `run.rb` (module `RunPipeline`) first cleans a stale `closure`. It then skips every record already
  marked failed, and it names the IOG cache as the closure's source store.
- `packages.rb` (module `PackagesPipeline`) is option-driven (`--from`, `--only`, `--systems`). It
  never skips a failed record, so failed steps are retried.

The project has these modules:

- `Json` (json.dfy): JSON values, and Ruby truthiness (`nil` and `false` are falsy, everything else is
  truthy, `{}` and `""` included).
- `Substitution` (substitution.dfy): `String#gsub` with a literal pattern, and placeholder resolution.
- `Steps` (steps.dfy): the `set` and `merge` guards, shared by both scripts, over a `Package` object
  whose `fields` Hash they update in place. Also the pure tail of `process_closure`.
- `PackageStore` (store.dfy): the store as a class holding record objects. It provides
  `store[url] ||= {}` and the generic "run these updates in order, stop at the first exception".
- `Releases` (releases.dfy): the release × template × system enumeration.
- `PackagesPipeline` (packages_pipeline.dfy) and `RunPipeline` (run_pipeline.dfy): `process`,
  `update_from_release` / `update_from_github_release` and the release loops of each script.

The subprocesses (`nix eval`, `nix build`, `nix store make-content-addressed`) are an oracle `Nix`. It
gives the parsed eval object or nothing, and the content-addressing report or nothing, for each flake
reference. Every state-changing method is proved equal to a function on values. Examples:
`Process` against `ProcessOn`, `UpdateFromRelease` against `UpdateOn`, `Prepare` against `PrepareOn`.
The `merge && set('closure')` chain that both `process` methods end with is defined once, in `Steps`.
The properties are proved about those functions.

## Model

| member | source | states |
|---|---|---|
| Substitution.ReplaceIsJoin | packages.rb:145 | `gsub` puts the replacement at exactly the occurrences a left-to-right scan finds and keeps every piece between them |
| Substitution.PiecesHoldNoOccurrence | packages.rb:145 | no piece between the occurrences the scan finds holds the pattern, so every occurrence in the input is replaced |
| Substitution.SplitJoin | packages.rb:145 | the pieces between the occurrences, joined with the pattern, give back the input |
| Substitution.AbsentUnchanged | packages.rb:145 | a string without the pattern comes out of `gsub` unchanged |
| Substitution.ResolveTemplate | packages.rb:145 | a template with one `${tag}` and then one `${system}` resolves to the template with the tag and the system put in their places |
| Substitution.NoPlaceholderResolvesToItself | run.rb:116 | a reference with no `$` left resolves to itself, whatever tag and system are given |
| Steps.Identity | run.rb:21 | the identity merge writes exactly the keys org, repo, tag and rev |
| Steps.EvalObject | run.rb:63-69 | the eval object has keys system, pname, version and meta, and a truthy `system` |
| Steps.EvalResult | run.rb:70-72 | eval yields an object exactly when the subprocess succeeded, and that object never holds `fail` or `closure` |
| Steps.SetOn | run.rb:38-47 | a truthy recorded value skips the step. Otherwise the step runs; it passes exactly when the key ends up truthy. A truthy value is written; a falsy one sets `fail` and leaves the key unset; an exception writes nothing |
| Steps.Set | packages.rb:70-79 | the in-place `set` has exactly the effect and outcome of `SetOn` on the old record |
| Steps.MergeOn | run.rb:49-58 | a truthy `system` skips eval. A nil eval result sets `fail` and fails. Otherwise the result's keys are merged in, overwriting, and every other key is kept |
| Steps.Merge | packages.rb:81-90 | the in-place `merge` has exactly the effect and outcome of `MergeOn` on the old record |
| Steps.SetIsMemoised | run.rb:39 | after `set` passed, a second `set` on the same key does not run its step and changes nothing |
| Steps.MergeIsMemoised | run.rb:50 | after a successful eval, a second `merge` does not run eval and changes nothing |
| Steps.GuardsKeepFail | packages.rb:70-90 | neither guard ever clears a truthy `fail` |
| Steps.GuardsKeepIdentity | packages.rb:70-90 | neither guard changes org, repo, tag or rev |
| Steps.IdentityAbsorbed | run.rb:21 | merging identity fields the record already holds changes nothing |
| Steps.ChainOn | run.rb:27-28 | eval runs exactly when `system` is not truthy. The closure step runs exactly when no truthy `closure` was recorded and `merge` returned true, because `system` was truthy already or eval succeeded; afterwards `system` is truthy. The chain raises exactly when the closure step runs and raises |
| Steps.RunChain | packages.rb:64-65 | the in-place `merge && set('closure')` has exactly the effect, step runs and outcome of `ChainOn` on the old record |
| Steps.ChainKeepsIdentity | run.rb:27-28 | the chain never changes org, repo, tag or rev once they are recorded |
| Steps.ChainKeepsFail | run.rb:27-28 | the chain never clears a truthy `fail` |
| Steps.ChainSkipsComplete | run.rb:27-28 | with a truthy `system` and a truthy `closure`, the chain runs nothing, changes nothing and passes |
| Steps.ChainSettles | run.rb:27-28 | a chain that raised nothing leaves the record marked failed or complete (truthy `system` and `closure`), and any `closure` it holds is the old one or the value the step gave |
| Steps.ClosureRecord | run.rb:87-95 | no build or no report gives nil. A missing `rewrites` key, or more than one rewrite, raises. Otherwise the result is a truthy `{fromPath, toPath, fromStore}` naming the given store |
| Steps.ClosureRecordRoundTrip | run.rb:94-95 | the single rewrite pair can be read back unchanged from the closure record |
| Steps.NoRewriteRecordsNoPaths | run.rb:94-95 | an empty `rewrites` still gives a truthy record, with no paths |
| PackageStore.InsertIfAbsent | run.rb:124 | the or-assignment of `{}` adds an empty record only for an absent reference and changes no existing one |
| PackageStore.Fetch | packages.rb:136 | the in-place or-assignment keeps the store's records distinct, returns the record at the reference, and changes the store's value as `InsertIfAbsent` does |
| PackageStore.RunJobsAppend | packages.rb:142-149 | running two update sequences one after the other is running their concatenation |
| PackageStore.RunJobsFrame | packages.rb:135-149 | a sequence of updates that each touch only their reference keeps every existing reference, adds only references it names, and leaves the records of all other references unchanged |
| Releases.PerSystem | packages.rb:144-147 | the systems loop makes one job per system |
| Releases.PerSystemAt | packages.rb:144-146 | the job for system k is the template with the tag and system k put in |
| Releases.PerPackage | packages.rb:143-148 | one release makes templates × systems jobs |
| Releases.PerPackageAt | packages.rb:143-146 | within a release, the job for template j and system k sits at position j·\|systems\| + k and carries that resolved template |
| Releases.PlanLength | packages.rb:141-149 | the whole enumeration has releases × templates × systems jobs |
| Releases.PlanAt | packages.rb:141-149 | the job at position (i·\|templates\| + j)·\|systems\| + k is template j resolved with release i's tag and system k, carrying release i's tag and commit |
| PackagesPipeline.Process | packages.rb:57-68 | the in-place `process` has exactly the effect of `ProcessOn`: identity merge, then the `merge && set('closure')` chain, with the failed-record check commented out |
| PackagesPipeline.ProcessRecordsIdentity | packages.rb:58 | after `process` the record holds the given org, repo, tag and rev, whatever the steps did |
| PackagesPipeline.RetriesFailedRecord | packages.rb:60 | a record marked failed but without a truthy `system` is evaluated again |
| PackagesPipeline.FailIsNeverCleared | packages.rb:57-68 | a truthy `fail` stays truthy through `process` |
| PackagesPipeline.CompleteRecordRunsNothing | packages.rb:71 | with a truthy `system` and a truthy `closure`, neither subprocess step runs, the outcome passes and only the identity fields are rewritten |
| PackagesPipeline.ClosureNamesFromStore | packages.rb:113-118 | a closure built from a single rewrite names the `--from` store and that rewrite |
| PackagesPipeline.PassedIsIdempotent | packages.rb:64-65 | after a passing `process`, a second one with the same identity runs nothing and changes nothing, whatever the subprocesses would now do |
| PackagesPipeline.FailedIsRetried | packages.rb:60-65 | after a failing `process`, a second one runs a subprocess step again |
| PackagesPipeline.UpdateOn | packages.rb:135-137 | `update_from_release` adds its reference if absent and changes no other record |
| PackagesPipeline.UpdaterTouchesOnlyItsUrl | packages.rb:135-137 | the same frame, stated for the updater that the loops use |
| PackagesPipeline.UpdateFromRelease | packages.rb:135-137 | the in-place update keeps records distinct and changes the store's value exactly as `UpdateOn` does |
| PackagesPipeline.PackagesOnIsPerPackage | packages.rb:143-148 | with a list of systems, one release's block runs the `PerPackage` jobs in order and stops at the first exception |
| PackagesPipeline.PrepareRunsPlan | packages.rb:141-149 | with a list of systems, `prepare` runs exactly the jobs of the plan, in nested order, up to the first exception |
| PackagesPipeline.TextSystemsRaise | packages.rb:144 | with a String for `:systems`, `prepare` raises exactly when there is a release and a package, and changes no record |
| PackagesPipeline.DefaultSystemsAsWrittenRaise | packages.rb:8 | with the default options, any repository with a release and a package raises before its first update |
| PackagesPipeline.DefaultSystemsRunPlan | packages.rb:8 | with the intended default, `prepare` makes one x86_64-linux update per (release, package) |
| PackagesPipeline.UpdateSystems | packages.rb:144-147 | the systems block changes the store exactly as `SystemsOn` says |
| PackagesPipeline.UpdatePackages | packages.rb:143-148 | the packages block changes the store exactly as `PackagesOn` says |
| PackagesPipeline.Prepare | packages.rb:141-150 | `prepare` changes the store exactly as `PrepareOn` says |
| PackagesPipeline.OnlySelectsOneRepository | packages.rb:158 | with `--only o/r` and names free of `/`, a repository is processed if and only if it is `r` of organisation `o` |
| PackagesPipeline.NoFilterSelectsAll | packages.rb:158 | without `--only`, every repository is processed |
| RunPipeline.CleanOn | run.rb:33-36 | `clean` removes `closure` exactly when it is `{}` or an Array, and keeps every other key and value |
| RunPipeline.CleanIsIdempotent | run.rb:33-36 | cleaning twice is cleaning once |
| RunPipeline.CleanKeepsOtherKeys | run.rb:33-36 | `clean` leaves every key other than `closure` as it was |
| RunPipeline.Clean | run.rb:33-36 | the two in-place deletions have exactly the effect of `CleanOn` |
| RunPipeline.Process | run.rb:20-31 | the in-place `process` has exactly the effect of `ProcessOn`: identity merge, clean, return on `fail`, then the `merge && set('closure')` chain |
| RunPipeline.SkipsFailedRecord | run.rb:21-25 | a record with a truthy `fail` is skipped: no step runs, and only the identity merge and the clean-up change it |
| RunPipeline.ClosureOnlyAfterEval | run.rb:25-28 | the closure step runs only on a record not marked failed that has a truthy `system` after `merge` |
| RunPipeline.CompleteRecordRunsNothing | run.rb:25-28 | a record with a truthy `system` and a closure that survives clean-up runs no step and changes only in its identity fields |
| RunPipeline.ClosureNamesCache | run.rb:95 | a closure built from a single rewrite names `https://cache.iog.io` and that rewrite |
| RunPipeline.ProcessRecordsIdentity | run.rb:21 | after `process` the record holds the given org, repo, tag and rev |
| RunPipeline.SettledRecordIsFixed | run.rb:21-28 | a record that `clean` leaves alone, that holds its identity and that is marked failed or complete, is a fixed point: no step runs, nothing changes, nothing raises |
| RunPipeline.ProcessSettles | run.rb:21-28 | after a call that raised nothing, the record survives `clean` unchanged and is marked failed or complete |
| RunPipeline.ClosureRecordSurvivesClean | run.rb:34-35 | a closure record built by `process_closure` is neither `{}` nor an Array, so `clean` never removes it |
| RunPipeline.ProcessIsIdempotent | run.rb:25-28 | after any `process` call that raised nothing, a second one with the same identity runs no step and changes nothing, whatever the subprocesses would now do; a failure is never retried |
| RunPipeline.VariantsDiverge | run.rb:25 | on a record marked failed and never evaluated, run.rb runs nothing while packages.rb runs eval again |
| RunPipeline.UpdateOn | run.rb:123-126 | the intended `update_from_github_release` adds its reference if absent and changes no other record |
| RunPipeline.UpdatersTouchOnlyTheirUrl | run.rb:124-126 | both the as-written and the intended update touch only their own reference |
| RunPipeline.AsWrittenRaisesAtFirstJob | run.rb:126 | as written, the first update of any non-empty job sequence inserts `{}` and raises `ArgumentError`; nothing is processed |
| RunPipeline.UpdateRecordsRelease | run.rb:123-126 | as intended, the updated record holds the release's tag and commit |
| RunPipeline.UpdateFromGithubReleaseAsWritten | run.rb:123-126 | the in-place update as written inserts the reference and then raises |
| RunPipeline.UpdateFromGithubRelease | run.rb:123-126 | the intended in-place update changes the store's value exactly as `UpdateOn` does |
| RunPipeline.Chained | run.rb:115-118 | the systems loop makes one job per system |
| RunPipeline.ChainedPerPackageIsPerPackage | run.rb:114-119 | with the single system of `SYSTEMS`, reassigning `flake_url` is harmless: one release's jobs are those of `PerPackage` |
| RunPipeline.TemplatesOnRunsChained | run.rb:114-119 | for any update run at each job, one release's template block runs its `Chained` jobs in order and stops at the first exception |
| RunPipeline.ReleasesOnRunsPlan | run.rb:112-121 | for any update run at each job, `update_from_github_releases` runs exactly the jobs of the plan over `SYSTEMS`, in nested order, up to the first exception |
| RunPipeline.ReleasesAsWrittenRaiseAtFirstJob | run.rb:112-126 | as written, the release loop over a repository with a release and a package template inserts `{}` for the first resolved reference on the first system and raises `ArgumentError` there; no record is processed |
| RunPipeline.SecondSystemRepeatsFirst | run.rb:116 | with a second system, once the first resolution has no `$` left, the second job repeats the first reference |
| RunPipeline.UpdateSystems | run.rb:115-118 | the systems loop, reassignment included, changes the store exactly as running its `Chained` jobs does, with the corrected six-argument update of `UpdateOn` at each job |
| RunPipeline.UpdateTemplates | run.rb:114-119 | the template loop changes the store exactly as `TemplatesOn` says, with the corrected six-argument update of `UpdateOn` at each job |
| RunPipeline.UpdateFromGithubReleases | run.rb:112-121 | the release loop changes the store exactly as `ReleasesOn` says, with the corrected six-argument update of `UpdateOn` at each job |

## Left out

- The subprocess wrappers `sh`, `process_eval`, `nix_build`, `nix_make_content_addressed` and `process_revision`
  are not modelled. They are calls into nix and git. Their outcomes are the oracle `Nix`. The oracle is a
  function of the flake reference, so it gives the same answer every time it is asked within one run.
- Substitution.ReplaceAll: backslash sequences in the replacement (`\0`, `\&`, `\1`, `\\`), which Ruby's
  `gsub` interprets even for a String pattern, are copied as they are. Tags cannot contain a backslash,
  but a `--systems` value (packages.rb:25-27) could.
- Unparseable eval output is not modelled: the eval oracle gives a well-formed object or nothing.
- Which JSON shapes of `rewrites` the model accepts: an ordered list of (from, to) path pairs, or a
  missing key.
- After an exception the model's store still holds the aborted job's identity merge and eval result.
  The program loses them: the exception skips the `File.write` of packages.rb:138 and run.rb:127, so
  the file keeps the state written after the previous job.
- File reading and writing are not modelled. That covers `packages.json`, `projects.json`, the
  releases files and the `File.write` after every update. The store is in memory, and the releases
  and templates are parameters.
- `OptionParser`, `--help` and the exits on a missing `--from` or `--to` are left out. Only `--from`,
  `--only` and `--systems` reach the model, as parameters.
- The top-level loops over `projects.json` are left out. The `tags_from` dispatch of run.rb is left out
  as well. Only the `--only` test of packages.rb is modelled, as `Selected`.
- `update_from_git` is left out because it is an empty stub.
- `puts` and `pp` logging are left out.
- Store entries that are not JSON objects are not modelled. Every record is a Hash.
- Floating-point numbers are not modelled. `Num` holds integers.
- `RunPipeline.UpdateOn` passes the release commit as `rev`, which the source at run.rb:126 does not.
  The as-written behaviour is modelled separately (see Findings).
- The prepare and release loops are split into one method per nested block. The source writes each
  as a single method.

## Findings

| source | as written | input that shows it | evidently intended | confidence | as-written member | corrected member |
|---|---|---|---|---|---|---|
| run.rb:126 | `update_from_github_release` calls `process` with 5 arguments. `process` (run.rb:20) takes 6, so Ruby raises `ArgumentError` after the empty record is inserted | any repository with one release and one package template | pass the release's commit as `rev`, as packages.rb:137 does | not executed | RunPipeline.AsWrittenRaisesAtFirstJob | RunPipeline.UpdateRecordsRelease |
| packages.rb:8 | the default `:systems` is the String `"x86-64_linux"`. `.each` on it (packages.rb:144) raises `NoMethodError`, and the name misspells `x86_64-linux` | running without `--systems` on a repository with a release and a package | an Array `["x86_64-linux"]` | not executed | PackagesPipeline.DefaultSystemsAsWrittenRaise | PackagesPipeline.DefaultSystemsRunPlan |
