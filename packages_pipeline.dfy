/** packages.rb: the option-driven variant of the pipeline. Every package
    reference is processed eval-then-closure; a record marked failed is not
    skipped, so a failed step is retried on the next run. */
module PackagesPipeline {
  import opened Json
  import opened Steps
  import opened Substitution
  import opened Releases
  import opened PackageStore

  /** `--systems A,B` gives a list; the default in `OPTIONS` is a single String. */
  datatype SystemsOption = SystemsText(text: string) | SystemsList(items: seq<string>)

  const NoEachOnString := "undefined method `each' for an instance of String"

  /** `process(pkg, flake_url, org, repo, tag, rev)` on the record's value,
      with `--from` as the closure's source store: the identity merge, then
      the chain. */
  function ProcessOn(rec: Record, url: string, org: string, repo: string, tag: string, rev: string,
                     nix: Nix, from: string): Chain
  {
    ChainOn(rec + Identity(org, repo, tag, rev), nix.eval(url), ClosureRecord(nix.closure(url), from))
  }

  /** `process`: record the identity fields, then `merge { eval } && set('closure') { closure }`. */
  method Process(pkg: Package, url: string, org: string, repo: string, tag: string, rev: string,
                 nix: Nix, from: string)
    returns (evalInvoked: bool, closureInvoked: bool, outcome: Outcome)
    modifies pkg
    ensures Chain(pkg.fields, evalInvoked, closureInvoked, outcome)
         == ProcessOn(old(pkg.fields), url, org, repo, tag, rev, nix, from)
  {
    pkg.fields := pkg.fields + Identity(org, repo, tag, rev);
    evalInvoked, closureInvoked, outcome := RunChain(pkg, nix.eval(url), ClosureRecord(nix.closure(url), from));
  }

  /** `process` leaves org, repo, tag and rev as given, whatever the steps do. */
  lemma ProcessRecordsIdentity(rec: Record, url: string, org: string, repo: string, tag: string, rev: string,
                               nix: Nix, from: string)
    ensures HoldsIdentity(ProcessOn(rec, url, org, repo, tag, rev, nix, from).rec, org, repo, tag, rev)
  {
    ChainKeepsIdentity(rec + Identity(org, repo, tag, rev), org, repo, tag, rev, nix.eval(url),
                       ClosureRecord(nix.closure(url), from));
  }

  /** A record marked failed but never evaluated is evaluated again. */
  lemma RetriesFailedRecord(rec: Record, url: string, org: string, repo: string, tag: string, rev: string,
                            nix: Nix, from: string)
    requires Present(rec, FailKey) && !Present(rec, SystemKey)
    ensures ProcessOn(rec, url, org, repo, tag, rev, nix, from).evalInvoked
  {
    assert Get(rec + Identity(org, repo, tag, rev), SystemKey) == Get(rec, SystemKey);
  }

  /** A later success never clears `fail`. */
  lemma FailIsNeverCleared(rec: Record, url: string, org: string, repo: string, tag: string, rev: string,
                           nix: Nix, from: string)
    requires Present(rec, FailKey)
    ensures Present(ProcessOn(rec, url, org, repo, tag, rev, nix, from).rec, FailKey)
  {
    var rec1 := rec + Identity(org, repo, tag, rev);
    assert Get(rec1, FailKey) == Get(rec, FailKey);
    ChainKeepsFail(rec1, nix.eval(url), ClosureRecord(nix.closure(url), from));
  }

  /** A record with a truthy `system` and a truthy `closure` runs no
      subprocess; only the identity fields are rewritten. */
  lemma CompleteRecordRunsNothing(rec: Record, url: string, org: string, repo: string, tag: string, rev: string,
                                  nix: Nix, from: string)
    requires Present(rec, SystemKey) && Present(rec, ClosureKey)
    ensures ProcessOn(rec, url, org, repo, tag, rev, nix, from)
         == Chain(rec + Identity(org, repo, tag, rev), false, false, Passed)
  {
    var rec1 := rec + Identity(org, repo, tag, rev);
    assert Get(rec1, SystemKey) == Get(rec, SystemKey) && Get(rec1, ClosureKey) == Get(rec, ClosureKey);
    ChainSkipsComplete(rec1, nix.eval(url), ClosureRecord(nix.closure(url), from));
  }

  /** The closure step runs only after eval passed; a closure recorded from
      a single rewrite names the `--from` store and that rewrite. */
  lemma ClosureNamesFromStore(rec: Record, url: string, org: string, repo: string, tag: string, rev: string,
                              nix: Nix, from: string, rewrite: (string, string))
    requires nix.closure(url) == Some(CaOutput(Some([rewrite])))
    ensures var r := ProcessOn(rec, url, org, repo, tag, rev, nix, from);
            r.closureInvoked ==>
              && r.outcome == Passed
              && Present(r.rec, SystemKey)
              && r.rec[ClosureKey].Obj?
              && r.rec[ClosureKey].fields["fromStore"] == Str(from)
              && RewriteOf(r.rec[ClosureKey]) == Some(rewrite)
  {
    ClosureRecordRoundTrip(rewrite, from);
  }

  /** Processing a record again after it passed, with the same identity,
      runs nothing and changes nothing, whatever the subprocesses would do. */
  lemma PassedIsIdempotent(rec: Record, url: string, org: string, repo: string, tag: string, rev: string,
                           nix: Nix, from: string, nix': Nix, from': string)
    requires ProcessOn(rec, url, org, repo, tag, rev, nix, from).outcome == Passed
    ensures var first := ProcessOn(rec, url, org, repo, tag, rev, nix, from);
            ProcessOn(first.rec, url, org, repo, tag, rev, nix', from')
              == Chain(first.rec, false, false, Passed)
  {
    var first := ProcessOn(rec, url, org, repo, tag, rev, nix, from);
    var rec1 := rec + Identity(org, repo, tag, rev);
    var eval, closure := nix.eval(url), ClosureRecord(nix.closure(url), from);
    ChainSettles(rec1, eval, closure);
    if Present(first.rec, FailKey) {
      // a passing chain never sets `fail`, so it was there before and merge skipped
      assert MergeOn(rec1, EvalResult(eval)).outcome == Passed;
    }
    assert Present(first.rec, SystemKey) && Present(first.rec, ClosureKey);
    ProcessRecordsIdentity(rec, url, org, repo, tag, rev, nix, from);
    IdentityAbsorbed(first.rec, org, repo, tag, rev);
    ChainSkipsComplete(first.rec, nix'.eval(url), ClosureRecord(nix'.closure(url), from'));
  }

  /** Processing a record again after it failed runs a subprocess step again
      (the retry that run.rb does not make). */
  lemma FailedIsRetried(rec: Record, url: string, org: string, repo: string, tag: string, rev: string,
                        nix: Nix, from: string, nix': Nix, from': string)
    requires ProcessOn(rec, url, org, repo, tag, rev, nix, from).outcome == Failed
    ensures var first := ProcessOn(rec, url, org, repo, tag, rev, nix, from);
            var again := ProcessOn(first.rec, url, org, repo, tag, rev, nix', from');
            again.evalInvoked || again.closureInvoked
  {
    var first := ProcessOn(rec, url, org, repo, tag, rev, nix, from);
    var rec1 := rec + Identity(org, repo, tag, rev);
    var merged := MergeOn(rec1, EvalResult(nix.eval(url)));
    ProcessRecordsIdentity(rec, url, org, repo, tag, rev, nix, from);
    IdentityAbsorbed(first.rec, org, repo, tag, rev);
    if merged.outcome == Passed {
      assert Present(first.rec, SystemKey) && !Present(first.rec, ClosureKey);
    } else {
      assert !Present(first.rec, SystemKey);
    }
  }

  /** `update_from_release` on the store's value: `store[url] ||= {}`, then
      `process` on that record. */
  function UpdateOn(view: map<string, Record>, org: string, repo: string, job: Job, nix: Nix, from: string)
    : (p: Progress)
    ensures p.view.Keys == view.Keys + {job.url}
    ensures forall u :: u in view && u != job.url ==> p.view[u] == view[u]
  {
    var before := InsertIfAbsent(view, job.url);
    var r := ProcessOn(before[job.url], job.url, org, repo, job.tag, job.rev, nix, from);
    Progress(before[job.url := r.rec], r.outcome)
  }

  /** `UpdateOn` is `process` applied to the record `||= {}` leaves: the
      unfolding the in-place update's proof uses, and nothing more. */
  lemma UpdateOnAfterProcess(view: map<string, Record>, org: string, repo: string, job: Job, nix: Nix,
                             from: string, fetched: map<string, Record>, c: Chain)
    requires fetched == InsertIfAbsent(view, job.url)
    requires c == ProcessOn(fetched[job.url], job.url, org, repo, job.tag, job.rev, nix, from)
    ensures UpdateOn(view, org, repo, job, nix, from) == Progress(fetched[job.url := c.rec], c.outcome)
  {
  }

  /** `update_from_release` only inserts its reference and rewrites that
      record. */
  lemma UpdaterTouchesOnlyItsUrl(org: string, repo: string, nix: Nix, from: string)
    ensures TouchesOnlyItsUrl(Updater(org, repo, nix, from))
  {
  }

  /** `update_from_release`: insert `{}` only for an absent reference, then
      process that record in place; no other record changes. */
  method UpdateFromRelease(store: Store, org: string, repo: string, url: string, tag: string, commit: string,
                           nix: Nix, from: string)
    returns (outcome: Outcome)
    requires Valid(store)
    modifies store, store.records.Values
    ensures Valid(store) && Grows(store)
    ensures Progress(View(store), outcome) == Updater(org, repo, nix, from)(old(View(store)), Job(url, tag, commit))
  {
    var pkg := Fetch(store, url);
    ghost var fetched := View(store);
    assert pkg.fields == fetched[url];
    var evalInvoked, closureInvoked;
    evalInvoked, closureInvoked, outcome := Process(pkg, url, org, repo, tag, commit, nix, from);
    forall u | u in fetched && u != url
      ensures store.records[u].fields == fetched[u]
    {
      assert store.records[u] != pkg;
    }
    ViewReplacing(store, url, fetched);
    UpdateOnAfterProcess(old(View(store)), org, repo, Job(url, tag, commit), nix, from, fetched,
                         Chain(pkg.fields, evalInvoked, closureInvoked, outcome));
  }

  /** The default `OPTIONS[:systems]` as written: a String, and one that
      misspells the system. */
  const DefaultSystemsAsWritten := SystemsText("x86-64_linux")

  /** The default as evidently intended: an Array with the one system run.rb
      uses, what `--systems x86_64-linux` gives. */
  const DefaultSystems := SystemsList(["x86_64-linux"])

  /** `update_from_release` for one repository, as a function of the store's
      value and the job. */
  function Updater(org: string, repo: string, nix: Nix, from: string): Update
  {
    (view: map<string, Record>, job: Job) => UpdateOn(view, org, repo, job, nix, from)
  }

  /** The innermost block of `prepare` on the store's value:
      `OPTIONS.fetch(:systems).each { |system| update_from_release(...) }` for
      one template. The String default has no `each`, so it raises. */
  function SystemsOn(view: map<string, Record>, org: string, repo: string, template: string, tag: string,
                     rev: string, systems: SystemsOption, nix: Nix, from: string): Progress
  {
    match systems
    case SystemsText(_) => Progress(view, Aborted(NoEachOnString))
    case SystemsList(items) => RunJobs(view, PerSystem(template, tag, rev, items), Updater(org, repo, nix, from))
  }

  /** The middle block: `packages.each { |package| ... }` for one release,
      stopping at the first exception. */
  function PackagesOn(view: map<string, Record>, org: string, repo: string, tag: string, rev: string,
                      templates: seq<string>, systems: SystemsOption, nix: Nix, from: string): Progress
    decreases |templates|
  {
    if templates == [] then Progress(view, Passed)
    else
      var p := SystemsOn(view, org, repo, templates[0], tag, rev, systems, nix, from);
      if p.outcome.Aborted? then p
      else PackagesOn(p.view, org, repo, tag, rev, templates[1..], systems, nix, from)
  }

  /** `prepare` on the store's value: the outer block over the releases,
      stopping at the first exception. */
  function PrepareOn(view: map<string, Record>, org: string, repo: string, releases: seq<Release>,
                     templates: seq<string>, systems: SystemsOption, nix: Nix, from: string): Progress
    decreases |releases|
  {
    if releases == [] then Progress(view, Passed)
    else
      var p := PackagesOn(view, org, repo, releases[0].0, releases[0].1, templates, systems, nix, from);
      if p.outcome.Aborted? then p
      else PrepareOn(p.view, org, repo, releases[1..], templates, systems, nix, from)
  }

  /** With a list of systems, one release's block runs the jobs of
      `PerPackage` in order. */
  lemma {:induction false} PackagesOnIsPerPackage(view: map<string, Record>, org: string, repo: string,
                                                  tag: string, rev: string, templates: seq<string>,
                                                  items: seq<string>, nix: Nix, from: string)
    ensures PackagesOn(view, org, repo, tag, rev, templates, SystemsList(items), nix, from)
         == RunJobs(view, PerPackage(tag, rev, templates, items), Updater(org, repo, nix, from))
    decreases |templates|
  {
    if templates != [] {
      var update := Updater(org, repo, nix, from);
      var head := PerSystem(templates[0], tag, rev, items);
      var tail := PerPackage(tag, rev, templates[1..], items);
      RunJobsAppend(view, head, tail, update);
      var p := RunJobs(view, head, update);
      if !p.outcome.Aborted? {
        PackagesOnIsPerPackage(p.view, org, repo, tag, rev, templates[1..], items, nix, from);
      }
    }
  }

  /** With a list of systems, `prepare` runs every job of the plan (releases ×
      templates × systems, nested in that order) and stops at the first
      exception. */
  lemma {:induction false} PrepareRunsPlan(view: map<string, Record>, org: string, repo: string,
                                           releases: seq<Release>, templates: seq<string>, items: seq<string>,
                                           nix: Nix, from: string)
    ensures PrepareOn(view, org, repo, releases, templates, SystemsList(items), nix, from)
         == RunJobs(view, Plan(releases, templates, items), Updater(org, repo, nix, from))
    decreases |releases|
  {
    if releases != [] {
      var update := Updater(org, repo, nix, from);
      var head := PerPackage(releases[0].0, releases[0].1, templates, items);
      var tail := Plan(releases[1..], templates, items);
      PackagesOnIsPerPackage(view, org, repo, releases[0].0, releases[0].1, templates, items, nix, from);
      RunJobsAppend(view, head, tail, update);
      var p := RunJobs(view, head, update);
      if !p.outcome.Aborted? {
        PrepareRunsPlan(p.view, org, repo, releases[1..], templates, items, nix, from);
      }
    }
  }

  /** With the String default for `--systems`, `prepare` raises exactly when
      there is a release and a package, and changes no record either way. */
  lemma {:induction false} TextSystemsRaise(view: map<string, Record>, org: string, repo: string,
                                            releases: seq<Release>, templates: seq<string>, text: string,
                                            nix: Nix, from: string)
    ensures var p := PrepareOn(view, org, repo, releases, templates, SystemsText(text), nix, from);
            && p.view == view
            && (p.outcome == Aborted(NoEachOnString) <==> releases != [] && templates != [])
            && (p.outcome == Passed <==> releases == [] || templates == [])
    decreases |releases|
  {
    if releases != [] && templates == [] {
      TextSystemsRaise(view, org, repo, releases[1..], templates, text, nix, from);
    }
  }

  /** Without `--systems`, as written, a repository with any release and any
      package raises before its first update. */
  lemma DefaultSystemsAsWrittenRaise(view: map<string, Record>, org: string, repo: string,
                                     releases: seq<Release>, templates: seq<string>, nix: Nix, from: string)
    requires releases != [] && templates != []
    ensures PrepareOn(view, org, repo, releases, templates, DefaultSystemsAsWritten, nix, from)
         == Progress(view, Aborted(NoEachOnString))
  {
    TextSystemsRaise(view, org, repo, releases, templates, DefaultSystemsAsWritten.text, nix, from);
  }

  /** Without `--systems`, as intended, every (release, package) pair gets
      exactly one update, for x86_64-linux. */
  lemma DefaultSystemsRunPlan(view: map<string, Record>, org: string, repo: string,
                              releases: seq<Release>, templates: seq<string>, nix: Nix, from: string)
    ensures PrepareOn(view, org, repo, releases, templates, DefaultSystems, nix, from)
         == RunJobs(view, Plan(releases, templates, DefaultSystems.items), Updater(org, repo, nix, from))
    ensures |Plan(releases, templates, DefaultSystems.items)| == |releases| * |templates|
  {
    PrepareRunsPlan(view, org, repo, releases, templates, DefaultSystems.items, nix, from);
    PlanLength(releases, templates, DefaultSystems.items);
  }

  /** The innermost block of `prepare`: each system, one template. */
  method UpdateSystems(store: Store, org: string, repo: string, template: string, tag: string, commit: string,
                       systems: SystemsOption, nix: Nix, from: string)
    returns (outcome: Outcome)
    requires Valid(store)
    modifies store, store.records.Values
    ensures Valid(store) && Grows(store)
    ensures Progress(View(store), outcome) == SystemsOn(old(View(store)), org, repo, template, tag, commit, systems, nix, from)
  {
    match systems {
      case SystemsText(_) =>
        return Aborted(NoEachOnString);
      case SystemsList(items) =>
        var update := Updater(org, repo, nix, from);
        ghost var final := RunJobs(View(store), PerSystem(template, tag, commit, items), update);
        assert items[0..] == items;
        var k := 0;
        while k < |items|
          invariant 0 <= k <= |items|
          invariant Valid(store) && Grows(store)
          invariant RunJobs(View(store), PerSystem(template, tag, commit, items[k..]), update) == final
        {
          var url := Resolve(template, tag, items[k]);
          PerSystemStep(template, tag, commit, items, k);
          ghost var before := View(store);
          ContinueAfter(before, Job(url, tag, commit), PerSystem(template, tag, commit, items[k + 1..]), update, final);
          outcome := UpdateFromRelease(store, org, repo, url, tag, commit, nix, from);
          if outcome.Aborted? {
            return;
          }
          k := k + 1;
        }
        assert items[k..] == [];
        outcome := Passed;
    }
  }

  /** The middle block of `prepare`: each package template, one release. */
  method UpdatePackages(store: Store, org: string, repo: string, tag: string, commit: string,
                        templates: seq<string>, systems: SystemsOption, nix: Nix, from: string)
    returns (outcome: Outcome)
    requires Valid(store)
    modifies store, store.records.Values
    ensures Valid(store) && Grows(store)
    ensures Progress(View(store), outcome) == PackagesOn(old(View(store)), org, repo, tag, commit, templates, systems, nix, from)
  {
    ghost var final := PackagesOn(View(store), org, repo, tag, commit, templates, systems, nix, from);
    assert templates[0..] == templates;
    var j := 0;
    while j < |templates|
      invariant 0 <= j <= |templates|
      invariant Valid(store) && Grows(store)
      invariant PackagesOn(View(store), org, repo, tag, commit, templates[j..], systems, nix, from) == final
    {
      assert templates[j..][1..] == templates[j + 1..];
      outcome := UpdateSystems(store, org, repo, templates[j], tag, commit, systems, nix, from);
      if outcome.Aborted? {
        return;
      }
      j := j + 1;
    }
    outcome := Passed;
  }

  /** `prepare`: for each release (tag, commit), each package template and
      each system, resolve the template and update that package. */
  method Prepare(store: Store, org: string, repo: string, packages: seq<string>, releases: seq<Release>,
                 systems: SystemsOption, nix: Nix, from: string)
    returns (outcome: Outcome)
    requires Valid(store)
    modifies store, store.records.Values
    ensures Valid(store) && Grows(store)
    ensures Progress(View(store), outcome) == PrepareOn(old(View(store)), org, repo, releases, packages, systems, nix, from)
  {
    ghost var final := PrepareOn(View(store), org, repo, releases, packages, systems, nix, from);
    assert releases[0..] == releases;
    var i := 0;
    while i < |releases|
      invariant 0 <= i <= |releases|
      invariant Valid(store) && Grows(store)
      invariant PrepareOn(View(store), org, repo, releases[i..], packages, systems, nix, from) == final
    {
      var (tag, commit) := releases[i];
      assert releases[i..][1..] == releases[i + 1..];
      outcome := UpdatePackages(store, org, repo, tag, commit, packages, systems, nix, from);
      if outcome.Aborted? {
        return;
      }
      i := i + 1;
    }
    outcome := Passed;
  }

  /** `OPTIONS[:only] && "#{org}/#{repo}" != OPTIONS[:only]` is false: the
      repository is processed. */
  predicate Selected(org: string, repo: string, only: Option<string>)
  {
    only.None? || org + "/" + repo == only.value
  }

  /** With `--only o/r` and names free of `/`, exactly the repository `r`
      of organisation `o` is processed. */
  lemma {:induction false} OnlySelectsOneRepository(org: string, repo: string, o: string, r: string)
    requires '/' !in org && '/' !in repo && '/' !in o && '/' !in r
    ensures Selected(org, repo, Some(o + "/" + r)) <==> org == o && repo == r
  {
    if Selected(org, repo, Some(o + "/" + r)) {
      SlashSplitsUniquely(org, repo, o, r);
    }
  }

  /** `a/b` determines `a` and `b` when neither contains a slash. */
  lemma {:induction false} SlashSplitsUniquely(a: string, b: string, c: string, d: string)
    requires '/' !in a && '/' !in b && '/' !in c && '/' !in d
    requires a + "/" + b == c + "/" + d
    ensures a == c && b == d
  {
    var s := a + "/" + b;
    SlashIndexAfter(a, b);
    SlashIndexAfter(c, d);
    assert a == s[..|a|] == c;
    assert b == s[|a| + 1..] == d;
  }

  /** Position of the first `/`. */
  function SlashIndex(s: string): (i: nat)
    requires '/' in s
    ensures i < |s| && s[i] == '/'
  {
    if s[0] == '/' then 0
    else
      assert s == [s[0]] + s[1..];
      1 + SlashIndex(s[1..])
  }

  lemma {:induction false} SlashIndexAfter(x: string, y: string)
    requires '/' !in x
    ensures '/' in x + "/" + y && SlashIndex(x + "/" + y) == |x|
  {
    assert (x + "/" + y)[|x|] == '/';
    if x != [] {
      assert (x + "/" + y)[1..] == x[1..] + "/" + y;
      SlashIndexAfter(x[1..], y);
    }
  }

  /** Without `--only`, every repository is processed. */
  lemma NoFilterSelectsAll(org: string, repo: string)
    ensures Selected(org, repo, None)
  {
  }
}
