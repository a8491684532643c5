/** run.rb: the original variant of the pipeline. `process` first cleans a
    stale closure and skips a record already marked failed, so a failed
    package is never retried; the closure comes from the IOG cache. */
module RunPipeline {
  import opened Json
  import opened Steps
  import opened Substitution
  import opened Releases
  import opened PackageStore
  import PackagesPipeline

  /** `SYSTEMS` */
  const Systems: seq<string> := ["x86_64-linux"]

  /** The `fromStore` every closure record names: the `--from` store of
      `make-content-addressed`. */
  const CacheStore := "https://cache.iog.io"

  const WrongArity := "wrong number of arguments (given 5, expected 6)"

  /** A `process` call: the record afterwards, whether it returned early on
      `fail`, which subprocess steps ran, and the value of the `merge && set`
      chain (`Passed` when the chain is not reached). */
  datatype Run = Run(rec: Record, skipped: bool, evalInvoked: bool, closureInvoked: bool, outcome: Outcome)

  /** `clean(pkg)` on the record's value: drop a `closure` that is `{}` or an
      Array. */
  function CleanOn(rec: Record): (r: Record)
    ensures ClosureKey in r <==> ClosureKey in rec && rec[ClosureKey] != Obj(map[]) && !rec[ClosureKey].Arr?
    ensures r == rec || r == rec - {ClosureKey}
  {
    if Get(rec, ClosureKey) == Obj(map[]) then rec - {ClosureKey}
    else if Get(rec, ClosureKey).Arr? then rec - {ClosureKey}
    else rec
  }

  /** Cleaning twice is cleaning once. */
  lemma CleanIsIdempotent(rec: Record)
    ensures CleanOn(CleanOn(rec)) == CleanOn(rec)
  {
    if ClosureKey in CleanOn(rec) {
      assert CleanOn(rec)[ClosureKey] == rec[ClosureKey];
    }
  }

  /** `clean` never touches `fail`, `system` or the identity fields. */
  lemma CleanKeepsOtherKeys(rec: Record, k: string)
    requires k != ClosureKey
    ensures Get(CleanOn(rec), k) == Get(rec, k)
  {
  }

  /** `clean`: two independent checks, each deleting `closure`. */
  method Clean(pkg: Package)
    modifies pkg
    ensures pkg.fields == CleanOn(old(pkg.fields))
  {
    if Get(pkg.fields, ClosureKey) == Obj(map[]) {
      pkg.fields := pkg.fields - {ClosureKey};
    }
    if Get(pkg.fields, ClosureKey).Arr? {
      pkg.fields := pkg.fields - {ClosureKey};
    }
  }

  /** `process(pkg, flake_url, org, repo, tag, rev)` on the record's value:
      the identity merge, clean-up, the early return on `fail`, then the
      chain with the IOG cache as the closure's source store. */
  function ProcessOn(rec: Record, url: string, org: string, repo: string, tag: string, rev: string,
                     nix: Nix): Run
  {
    var cleaned := CleanOn(rec + Identity(org, repo, tag, rev));
    if Present(cleaned, FailKey) then Run(cleaned, true, false, false, Passed)
    else
      var c := ChainOn(cleaned, nix.eval(url), ClosureRecord(nix.closure(url), CacheStore));
      Run(c.rec, false, c.evalInvoked, c.closureInvoked, c.outcome)
  }

  /** `process`: record the identity fields, clean, return on `fail`, then
      `merge { eval } && set('closure') { closure }`. */
  method Process(pkg: Package, url: string, org: string, repo: string, tag: string, rev: string, nix: Nix)
    returns (skipped: bool, evalInvoked: bool, closureInvoked: bool, outcome: Outcome)
    modifies pkg
    ensures Run(pkg.fields, skipped, evalInvoked, closureInvoked, outcome)
         == ProcessOn(old(pkg.fields), url, org, repo, tag, rev, nix)
  {
    pkg.fields := pkg.fields + Identity(org, repo, tag, rev);
    Clean(pkg);
    if Truthy(Get(pkg.fields, FailKey)) {
      return true, false, false, Passed;
    }
    skipped := false;
    evalInvoked, closureInvoked, outcome := RunChain(pkg, nix.eval(url), ClosureRecord(nix.closure(url), CacheStore));
  }

  /** A record marked failed is skipped: no step runs and only the identity
      fields and the clean-up change it. */
  lemma SkipsFailedRecord(rec: Record, url: string, org: string, repo: string, tag: string, rev: string,
                          nix: Nix)
    requires Present(rec, FailKey)
    ensures var r := ProcessOn(rec, url, org, repo, tag, rev, nix);
            && r.skipped && !r.evalInvoked && !r.closureInvoked
            && r.rec == CleanOn(rec + Identity(org, repo, tag, rev))
  {
    var rec1 := rec + Identity(org, repo, tag, rev);
    assert Get(rec1, FailKey) == Get(rec, FailKey);
    CleanKeepsOtherKeys(rec1, FailKey);
  }

  /** The closure step runs only after eval passed, on an evaluated record
      that was not marked failed. */
  lemma ClosureOnlyAfterEval(rec: Record, url: string, org: string, repo: string, tag: string, rev: string,
                             nix: Nix)
    ensures var r := ProcessOn(rec, url, org, repo, tag, rev, nix);
            r.closureInvoked ==>
              && !r.skipped
              && !Present(CleanOn(rec + Identity(org, repo, tag, rev)), FailKey)
              && Present(r.rec, SystemKey)
  {
  }

  /** A record with a truthy `system` and a closure that survives clean-up
      (truthy, neither `{}` nor an Array) runs no subprocess; only the
      identity fields are rewritten. */
  lemma CompleteRecordRunsNothing(rec: Record, url: string, org: string, repo: string, tag: string, rev: string,
                                  nix: Nix)
    requires Present(rec, SystemKey) && Present(rec, ClosureKey)
    requires rec[ClosureKey] != Obj(map[]) && !rec[ClosureKey].Arr?
    ensures var r := ProcessOn(rec, url, org, repo, tag, rev, nix);
            && !r.evalInvoked && !r.closureInvoked && r.outcome == Passed
            && r.rec == rec + Identity(org, repo, tag, rev)
  {
    var rec1 := rec + Identity(org, repo, tag, rev);
    assert rec1[ClosureKey] == rec[ClosureKey] && Get(rec1, SystemKey) == Get(rec, SystemKey);
  }

  /** A closure recorded from a single rewrite names the IOG cache. */
  lemma ClosureNamesCache(rec: Record, url: string, org: string, repo: string, tag: string, rev: string,
                          nix: Nix, rewrite: (string, string))
    requires nix.closure(url) == Some(CaOutput(Some([rewrite])))
    ensures var r := ProcessOn(rec, url, org, repo, tag, rev, nix);
            r.closureInvoked ==>
              && r.outcome == Passed
              && r.rec[ClosureKey].fields["fromStore"] == Str(CacheStore)
              && RewriteOf(r.rec[ClosureKey]) == Some(rewrite)
  {
    ClosureRecordRoundTrip(rewrite, CacheStore);
  }

  /** `process` leaves org, repo, tag and rev as given, whatever the steps do. */
  lemma ProcessRecordsIdentity(rec: Record, url: string, org: string, repo: string, tag: string, rev: string,
                               nix: Nix)
    ensures HoldsIdentity(ProcessOn(rec, url, org, repo, tag, rev, nix).rec, org, repo, tag, rev)
  {
    var rec1 := rec + Identity(org, repo, tag, rev);
    var cleaned := CleanOn(rec1);
    assert HoldsIdentity(cleaned, org, repo, tag, rev) by {
      CleanKeepsOtherKeys(rec1, "org");
      CleanKeepsOtherKeys(rec1, "repo");
      CleanKeepsOtherKeys(rec1, "tag");
      CleanKeepsOtherKeys(rec1, "rev");
    }
    if !Present(cleaned, FailKey) {
      ChainKeepsIdentity(cleaned, org, repo, tag, rev, nix.eval(url), ClosureRecord(nix.closure(url), CacheStore));
    }
  }

  /** A record that `clean` leaves alone, that holds its identity and that is
      marked failed or complete (truthy `system` and `closure`) is a fixed
      point of `process`: no step runs and nothing changes. */
  lemma SettledRecordIsFixed(rec: Record, url: string, org: string, repo: string, tag: string, rev: string,
                             nix: Nix)
    requires CleanOn(rec) == rec && HoldsIdentity(rec, org, repo, tag, rev)
    requires Present(rec, FailKey) || (Present(rec, SystemKey) && Present(rec, ClosureKey))
    ensures var r := ProcessOn(rec, url, org, repo, tag, rev, nix);
            !r.evalInvoked && !r.closureInvoked && r.rec == rec && !r.outcome.Aborted?
  {
    IdentityAbsorbed(rec, org, repo, tag, rev);
  }

  /** A call that raised nothing leaves the record settled: cleaned, with
      its identity, and either marked failed or complete. */
  lemma ProcessSettles(rec: Record, url: string, org: string, repo: string, tag: string, rev: string, nix: Nix)
    requires !ProcessOn(rec, url, org, repo, tag, rev, nix).outcome.Aborted?
    ensures var r := ProcessOn(rec, url, org, repo, tag, rev, nix).rec;
            && CleanOn(r) == r
            && (Present(r, FailKey) || (Present(r, SystemKey) && Present(r, ClosureKey)))
  {
    var cleaned := CleanOn(rec + Identity(org, repo, tag, rev));
    CleanIsIdempotent(rec + Identity(org, repo, tag, rev));
    if !Present(cleaned, FailKey) {
      var closure := ClosureRecord(nix.closure(url), CacheStore);
      ChainSettles(cleaned, nix.eval(url), closure);
      ClosureRecordSurvivesClean(nix.closure(url), CacheStore);
      CleanLeavesSurvivor(ChainOn(cleaned, nix.eval(url), closure).rec);
    }
  }

  /** A closure record built from a rewrite is neither `{}` nor an Array. */
  lemma ClosureRecordSurvivesClean(ca: Option<CaOutput>, fromStore: string)
    ensures var s := ClosureRecord(ca, fromStore);
            s.Yields? ==> s.value != Obj(map[]) && !s.value.Arr?
  {
    var s := ClosureRecord(ca, fromStore);
    if s.Yields? && s.value.Obj? {
      assert "fromStore" in s.value.fields;
    }
  }

  /** `clean` leaves a record whose closure is neither `{}` nor an Array. */
  lemma CleanLeavesSurvivor(rec: Record)
    requires ClosureKey in rec ==> rec[ClosureKey] != Obj(map[]) && !rec[ClosureKey].Arr?
    ensures CleanOn(rec) == rec
  {
  }

  /** After any call that raised nothing, processing the record again with
      the same identity runs no subprocess and changes nothing, whatever the
      subprocesses would now do: a failure is final in run.rb. */
  lemma ProcessIsIdempotent(rec: Record, url: string, org: string, repo: string, tag: string, rev: string,
                            nix: Nix, nix': Nix)
    requires !ProcessOn(rec, url, org, repo, tag, rev, nix).outcome.Aborted?
    ensures var first := ProcessOn(rec, url, org, repo, tag, rev, nix);
            var again := ProcessOn(first.rec, url, org, repo, tag, rev, nix');
            !again.evalInvoked && !again.closureInvoked && again.rec == first.rec && !again.outcome.Aborted?
  {
    var first := ProcessOn(rec, url, org, repo, tag, rev, nix);
    ProcessSettles(rec, url, org, repo, tag, rev, nix);
    ProcessRecordsIdentity(rec, url, org, repo, tag, rev, nix);
    SettledRecordIsFixed(first.rec, url, org, repo, tag, rev, nix');
  }

  /** The two variants part ways on a record marked failed that was never
      evaluated: run.rb runs nothing, packages.rb evaluates it again. */
  lemma VariantsDiverge(rec: Record, url: string, org: string, repo: string, tag: string, rev: string,
                        nix: Nix, from: string)
    requires Present(rec, FailKey) && !Present(rec, SystemKey)
    ensures !ProcessOn(rec, url, org, repo, tag, rev, nix).evalInvoked
    ensures PackagesPipeline.ProcessOn(rec, url, org, repo, tag, rev, nix, from).evalInvoked
  {
    SkipsFailedRecord(rec, url, org, repo, tag, rev, nix);
    PackagesPipeline.RetriesFailedRecord(rec, url, org, repo, tag, rev, nix, from);
  }

  /** `update_from_github_release` as intended, passing the release's commit
      as `rev`, on the store's value. */
  function UpdateOn(view: map<string, Record>, org: string, repo: string, job: Job, nix: Nix): (p: Progress)
    ensures p.view.Keys == view.Keys + {job.url}
    ensures forall u :: u in view && u != job.url ==> p.view[u] == view[u]
  {
    var before := InsertIfAbsent(view, job.url);
    var r := ProcessOn(before[job.url], job.url, org, repo, job.tag, job.rev, nix);
    Progress(before[job.url := r.rec], r.outcome)
  }

  /** `update_from_github_release` as written: `store[flake_url] ||= {}`, then
      `process` called with five arguments where it takes six, which raises
      before the record is touched. */
  function UpdateAsWrittenOn(view: map<string, Record>, job: Job): (p: Progress)
  {
    Progress(InsertIfAbsent(view, job.url), Aborted(WrongArity))
  }

  /** `UpdateOn` is `process` applied to the record `||= {}` leaves: the
      unfolding the in-place update's proof uses, and nothing more. */
  lemma UpdateOnAfterProcess(view: map<string, Record>, org: string, repo: string, job: Job, nix: Nix,
                             fetched: map<string, Record>, r: Run)
    requires fetched == InsertIfAbsent(view, job.url)
    requires r == ProcessOn(fetched[job.url], job.url, org, repo, job.tag, job.rev, nix)
    ensures UpdateOn(view, org, repo, job, nix) == Progress(fetched[job.url := r.rec], r.outcome)
  {
  }

  function Updater(org: string, repo: string, nix: Nix): Update
  {
    (view: map<string, Record>, job: Job) => UpdateOn(view, org, repo, job, nix)
  }

  const UpdaterAsWritten: Update := (view: map<string, Record>, job: Job) => UpdateAsWrittenOn(view, job)

  /** Both versions only insert their reference and rewrite that record. */
  lemma UpdatersTouchOnlyTheirUrl(org: string, repo: string, nix: Nix)
    ensures TouchesOnlyItsUrl(Updater(org, repo, nix))
    ensures TouchesOnlyItsUrl(UpdaterAsWritten)
  {
  }

  /** As written, the first update of a repository with any release and any
      package raises, having inserted an empty record: nothing is ever
      processed. */
  lemma AsWrittenRaisesAtFirstJob(view: map<string, Record>, jobs: seq<Job>)
    requires jobs != []
    ensures RunJobs(view, jobs, UpdaterAsWritten)
         == Progress(InsertIfAbsent(view, jobs[0].url), Aborted(WrongArity))
  {
  }

  /** As intended, an update that raises nothing records the release's tag and
      commit on the package it names. */
  lemma UpdateRecordsRelease(view: map<string, Record>, org: string, repo: string, job: Job, nix: Nix)
    ensures var p := UpdateOn(view, org, repo, job, nix);
            job.url in p.view && HoldsIdentity(p.view[job.url], org, repo, job.tag, job.rev)
  {
    var before := InsertIfAbsent(view, job.url);
    ProcessRecordsIdentity(before[job.url], job.url, org, repo, job.tag, job.rev, nix);
  }

  /** `update_from_github_release` as written: the reference is inserted, then
      the call to `process` raises `ArgumentError`. */
  method UpdateFromGithubReleaseAsWritten(store: Store, org: string, repo: string, url: string, tag: string)
    returns (outcome: Outcome)
    requires Valid(store)
    modifies store
    ensures Valid(store) && Grows(store)
    ensures Progress(View(store), outcome) == UpdateAsWrittenOn(old(View(store)), Job(url, tag, ""))
  {
    var pkg := Fetch(store, url);
    outcome := Aborted(WrongArity);
  }

  /** `update_from_github_release` with the commit passed on as `rev`: insert
      `{}` only for an absent reference, then process that record in place. */
  method UpdateFromGithubRelease(store: Store, org: string, repo: string, url: string, tag: string, commit: string,
                                 nix: Nix)
    returns (outcome: Outcome)
    requires Valid(store)
    modifies store, store.records.Values
    ensures Valid(store) && Grows(store)
    ensures Progress(View(store), outcome) == Updater(org, repo, nix)(old(View(store)), Job(url, tag, commit))
  {
    var pkg := Fetch(store, url);
    ghost var fetched := View(store);
    assert pkg.fields == fetched[url];
    var skipped, evalInvoked, closureInvoked;
    skipped, evalInvoked, closureInvoked, outcome := Process(pkg, url, org, repo, tag, commit, nix);
    forall u | u in fetched && u != url
      ensures store.records[u].fields == fetched[u]
    {
      assert store.records[u] != pkg;
    }
    ViewReplacing(store, url, fetched);
    UpdateOnAfterProcess(old(View(store)), org, repo, Job(url, tag, commit), nix, fetched,
                         Run(pkg.fields, skipped, evalInvoked, closureInvoked, outcome));
  }

  /** The jobs of the systems loop for one template. The loop assigns each
      resolved reference back to `flake_url`, so system k resolves the
      reference system k - 1 produced, not the template. */
  function Chained(template: string, tag: string, rev: string, systems: seq<string>): (jobs: seq<Job>)
    ensures |jobs| == |systems|
    decreases |systems|
  {
    if systems == [] then []
    else
      var url := Resolve(template, tag, systems[0]);
      [Job(url, tag, rev)] + Chained(url, tag, rev, systems[1..])
  }

  /** The jobs of the template loop for one release. */
  function ChainedPerPackage(tag: string, rev: string, templates: seq<string>): seq<Job>
  {
    if templates == [] then []
    else Chained(templates[0], tag, rev, Systems) + ChainedPerPackage(tag, rev, templates[1..])
  }

  /** With the single system of `SYSTEMS`, the reassignment is harmless: the
      jobs of one release are exactly one per (template, system) with both
      placeholders replaced in the template. */
  lemma {:induction false} ChainedPerPackageIsPerPackage(tag: string, rev: string, templates: seq<string>)
    ensures ChainedPerPackage(tag, rev, templates) == PerPackage(tag, rev, templates, Systems)
    decreases |templates|
  {
    if templates != [] {
      assert Systems[1..] == [];
      ChainedPerPackageIsPerPackage(tag, rev, templates[1..]);
    }
  }

  /** With a second system the reassignment shows: once the first system's
      reference has no placeholder left, the second job repeats it instead of
      naming the second system. */
  lemma SecondSystemRepeatsFirst(template: string, tag: string, rev: string, s1: string, s2: string)
    requires '$' !in Resolve(template, tag, s1)
    ensures Chained(template, tag, rev, [s1, s2])
         == [Job(Resolve(template, tag, s1), tag, rev), Job(Resolve(template, tag, s1), tag, rev)]
  {
    var u := Resolve(template, tag, s1);
    NoPlaceholderResolvesToItself(u, tag, s2);
    assert [s1, s2][1..] == [s2];
    assert [s2][1..] == [];
  }

  /** The template block of `update_from_github_releases` for one release
      on the store's value, with `update` run at each job, stopping at the
      first exception. */
  function TemplatesOn(view: map<string, Record>, tag: string, rev: string, templates: seq<string>,
                       update: Update): Progress
    decreases |templates|
  {
    if templates == [] then Progress(view, Passed)
    else
      var p := RunJobs(view, Chained(templates[0], tag, rev, Systems), update);
      if p.outcome.Aborted? then p
      else TemplatesOn(p.view, tag, rev, templates[1..], update)
  }

  /** `update_from_github_releases` on the store's value: the outer block over
      the releases, stopping at the first exception. */
  function ReleasesOn(view: map<string, Record>, releases: seq<Release>, templates: seq<string>,
                      update: Update): Progress
    decreases |releases|
  {
    if releases == [] then Progress(view, Passed)
    else
      var p := TemplatesOn(view, releases[0].0, releases[0].1, templates, update);
      if p.outcome.Aborted? then p
      else ReleasesOn(p.view, releases[1..], templates, update)
  }

  /** One release's block runs the jobs of `ChainedPerPackage` in order. */
  lemma {:induction false} TemplatesOnRunsChained(view: map<string, Record>, tag: string, rev: string,
                                                  templates: seq<string>, update: Update)
    ensures TemplatesOn(view, tag, rev, templates, update)
         == RunJobs(view, ChainedPerPackage(tag, rev, templates), update)
    decreases |templates|
  {
    if templates != [] {
      var head := Chained(templates[0], tag, rev, Systems);
      RunJobsAppend(view, head, ChainedPerPackage(tag, rev, templates[1..]), update);
      var p := RunJobs(view, head, update);
      if !p.outcome.Aborted? {
        TemplatesOnRunsChained(p.view, tag, rev, templates[1..], update);
      }
    }
  }

  /** `update_from_github_releases` runs every job of the plan (releases ×
      templates × systems, nested in that order) and stops at the first
      exception. */
  lemma {:induction false} ReleasesOnRunsPlan(view: map<string, Record>, releases: seq<Release>,
                                              templates: seq<string>, update: Update)
    ensures ReleasesOn(view, releases, templates, update)
         == RunJobs(view, Plan(releases, templates, Systems), update)
    decreases |releases|
  {
    if releases != [] {
      var head := ChainedPerPackage(releases[0].0, releases[0].1, templates);
      TemplatesOnRunsChained(view, releases[0].0, releases[0].1, templates, update);
      ChainedPerPackageIsPerPackage(releases[0].0, releases[0].1, templates);
      RunJobsAppend(view, head, Plan(releases[1..], templates, Systems), update);
      var p := RunJobs(view, head, update);
      if !p.outcome.Aborted? {
        ReleasesOnRunsPlan(p.view, releases[1..], templates, update);
      }
    }
  }

  /** As written, `update_from_github_releases` on a repository with a
      release and a package template inserts `{}` for the first resolved
      reference and raises there: no record is ever processed. */
  lemma ReleasesAsWrittenRaiseAtFirstJob(view: map<string, Record>, releases: seq<Release>,
                                         templates: seq<string>)
    requires releases != [] && templates != []
    ensures ReleasesOn(view, releases, templates, UpdaterAsWritten)
         == Progress(InsertIfAbsent(view, Resolve(templates[0], releases[0].0, Systems[0])), Aborted(WrongArity))
  {
    ReleasesOnRunsPlan(view, releases, templates, UpdaterAsWritten);
    PlanAt(releases, templates, Systems, 0, 0, 0);
    AsWrittenRaisesAtFirstJob(view, Plan(releases, templates, Systems));
  }

  /** The systems loop of `update_from_github_releases` for one template,
      with the reassignment of `flake_url`. */
  method UpdateSystems(store: Store, org: string, repo: string, template: string, tag: string, commit: string,
                       nix: Nix)
    returns (outcome: Outcome)
    requires Valid(store)
    modifies store, store.records.Values
    ensures Valid(store) && Grows(store)
    ensures Progress(View(store), outcome)
         == RunJobs(old(View(store)), Chained(template, tag, commit, Systems), Updater(org, repo, nix))
  {
    var update := Updater(org, repo, nix);
    ghost var final := RunJobs(View(store), Chained(template, tag, commit, Systems), update);
    var url := template;
    var k := 0;
    while k < |Systems|
      invariant 0 <= k <= |Systems|
      invariant Valid(store) && Grows(store)
      invariant RunJobs(View(store), Chained(url, tag, commit, Systems[k..]), update) == final
    {
      assert Systems[k..][0] == Systems[k] && Systems[k..][1..] == Systems[k + 1..];
      url := Resolve(url, tag, Systems[k]);
      ghost var before := View(store);
      ContinueAfter(before, Job(url, tag, commit), Chained(url, tag, commit, Systems[k + 1..]), update, final);
      outcome := UpdateFromGithubRelease(store, org, repo, url, tag, commit, nix);
      if outcome.Aborted? {
        return;
      }
      k := k + 1;
    }
    outcome := Passed;
  }

  /** The template loop for one release. */
  method UpdateTemplates(store: Store, org: string, repo: string, tag: string, commit: string,
                         templates: seq<string>, nix: Nix)
    returns (outcome: Outcome)
    requires Valid(store)
    modifies store, store.records.Values
    ensures Valid(store) && Grows(store)
    ensures Progress(View(store), outcome)
         == TemplatesOn(old(View(store)), tag, commit, templates, Updater(org, repo, nix))
  {
    ghost var final := TemplatesOn(View(store), tag, commit, templates, Updater(org, repo, nix));
    assert templates[0..] == templates;
    var j := 0;
    while j < |templates|
      invariant 0 <= j <= |templates|
      invariant Valid(store) && Grows(store)
      invariant TemplatesOn(View(store), tag, commit, templates[j..], Updater(org, repo, nix)) == final
    {
      assert templates[j..][1..] == templates[j + 1..];
      outcome := UpdateSystems(store, org, repo, templates[j], tag, commit, nix);
      if outcome.Aborted? {
        return;
      }
      j := j + 1;
    }
    outcome := Passed;
  }

  /** `update_from_github_releases`: for each release (tag, commit), each
      package template and each system, resolve and update, stopping at the
      first exception. */
  method UpdateFromGithubReleases(store: Store, org: string, repo: string, templates: seq<string>,
                                  releases: seq<Release>, nix: Nix)
    returns (outcome: Outcome)
    requires Valid(store)
    modifies store, store.records.Values
    ensures Valid(store) && Grows(store)
    ensures Progress(View(store), outcome)
         == ReleasesOn(old(View(store)), releases, templates, Updater(org, repo, nix))
  {
    ghost var final := ReleasesOn(View(store), releases, templates, Updater(org, repo, nix));
    assert releases[0..] == releases;
    var i := 0;
    while i < |releases|
      invariant 0 <= i <= |releases|
      invariant Valid(store) && Grows(store)
      invariant ReleasesOn(View(store), releases[i..], templates, Updater(org, repo, nix)) == final
    {
      var (tag, commit) := releases[i];
      assert releases[i..][1..] == releases[i + 1..];
      outcome := UpdateTemplates(store, org, repo, tag, commit, templates, nix);
      if outcome.Aborted? {
        return;
      }
      i := i + 1;
    }
    outcome := Passed;
  }
}
