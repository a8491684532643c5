/** The in-memory package store: the parsed `packages.json`, a Hash from a
    resolved flake reference to that package's record. The records are the
    objects the pipeline steps update in place. */
module PackageStore {
  import opened Json
  import opened Steps
  import opened Releases

  class Store {
    var records: map<string, Package>

    /** `JSON.parse('{}')` */
    constructor ()
      ensures records == map[]
    {
      records := map[];
    }
  }

  /** Distinct references hold distinct record objects (`JSON.parse` and `{}`
      never share a Hash between two keys). */
  ghost predicate Valid(store: Store)
    reads store
  {
    forall u, v :: u in store.records && v in store.records && u != v ==>
      store.records[u] != store.records[v]
  }

  /** The store as a JSON value: reference to record contents. */
  ghost function View(store: Store): map<string, Record>
    reads store, store.records.Values
  {
    map u | u in store.records :: store.records[u].fields
  }

  /** `store[url] ||= {}` on the store's value. */
  function InsertIfAbsent(view: map<string, Record>, url: string): (r: map<string, Record>)
    ensures url in r
    ensures url in view ==> r == view
    ensures url !in view ==>
      && r.Keys == view.Keys + {url} && r[url] == map[]
      && forall u :: u in view ==> r[u] == view[u]
  {
    if url in view then view else view[url := map[]]
  }

  /** Every record object is either one the store had or a new one. */
  twostate predicate Grows(store: Store)
    reads store
  {
    forall p :: p in store.records.Values ==> p in old(store.records.Values) || fresh(p)
  }

  /** `store[url] ||= {}`, returning `store[url]`: a new empty record only when
      the reference is absent. */
  method Fetch(store: Store, url: string) returns (pkg: Package)
    requires Valid(store)
    modifies store
    ensures Valid(store) && Grows(store)
    ensures url in store.records && store.records[url] == pkg
    ensures url in old(store.records) ==> store.records == old(store.records)
    ensures url !in old(store.records) ==> fresh(pkg) && store.records == old(store.records)[url := pkg]
    ensures View(store) == InsertIfAbsent(old(View(store)), url)
  {
    if url in store.records {
      pkg := store.records[url];
    } else {
      pkg := new Package();
      store.records := store.records[url := pkg];
    }
  }

  /** A store whose references are those of `view` and whose records other
      than the one at `url` hold what `view` says has the value of `view` with
      that one record replaced. */
  lemma ViewReplacing(store: Store, url: string, view: map<string, Record>)
    requires url in store.records && store.records.Keys == view.Keys
    requires forall u :: u in view && u != url ==> store.records[u].fields == view[u]
    ensures View(store) == view[url := store.records[url].fields]
  {
  }

  /** The store after one or more updates, and whether an exception escaped. */
  datatype Progress = Progress(view: map<string, Record>, outcome: Outcome)

  /** One update of the store's value for a job. */
  type Update = (map<string, Record>, Job) -> Progress

  /** A sequence of updates, stopping at the first exception. */
  function RunJobs(view: map<string, Record>, jobs: seq<Job>, update: Update): (p: Progress)
    decreases |jobs|
  {
    if jobs == [] then Progress(view, Passed)
    else
      var step := update(view, jobs[0]);
      if step.outcome.Aborted? then step
      else RunJobs(step.view, jobs[1..], update)
  }

  /** After a job that did not raise, the remaining jobs lead to the same end;
      after one that raised, nothing else runs. */
  lemma ContinueAfter(view: map<string, Record>, job: Job, todo: seq<Job>, update: Update, final: Progress)
    requires RunJobs(view, [job] + todo, update) == final
    ensures update(view, job).outcome.Aborted? ==> update(view, job) == final
    ensures !update(view, job).outcome.Aborted? ==> RunJobs(update(view, job).view, todo, update) == final
  {
    assert ([job] + todo)[0] == job;
    assert ([job] + todo)[1..] == todo;
  }

  /** Running two job sequences one after the other is running their
      concatenation. */
  lemma {:induction false} RunJobsAppend(view: map<string, Record>, a: seq<Job>, b: seq<Job>, update: Update)
    ensures RunJobs(view, a + b, update)
         == var p := RunJobs(view, a, update);
            if p.outcome.Aborted? then p else RunJobs(p.view, b, update)
    decreases |a|
  {
    if a != [] {
      assert (a + b)[0] == a[0];
      assert (a + b)[1..] == a[1..] + b;
      var step := update(view, a[0]);
      if !step.outcome.Aborted? {
        RunJobsAppend(step.view, a[1..], b, update);
      }
    } else {
      assert a + b == b;
    }
  }

  /** An update that adds the job's reference (if absent) and changes no
      other record. */
  ghost predicate TouchesOnlyItsUrl(update: Update)
  {
    forall view: map<string, Record>, job: Job ::
      && update(view, job).view.Keys == view.Keys + {job.url}
      && (forall u :: u in view && u != job.url ==> update(view, job).view[u] == view[u])
  }

  /** Updates add exactly the references they name (up to an exception) and
      leave every record no job names as it was. */
  lemma {:induction false} RunJobsFrame(view: map<string, Record>, jobs: seq<Job>, update: Update)
    requires TouchesOnlyItsUrl(update)
    ensures var p := RunJobs(view, jobs, update);
            && view.Keys <= p.view.Keys
            && (forall u :: u in p.view ==> u in view || exists x :: x in jobs && x.url == u)
            && (forall u :: u in view && (forall x :: x in jobs ==> x.url != u) ==> p.view[u] == view[u])
    decreases |jobs|
  {
    if jobs != [] {
      var step := update(view, jobs[0]);
      if !step.outcome.Aborted? {
        RunJobsFrame(step.view, jobs[1..], update);
        var p := RunJobs(view, jobs, update);
        forall u | u in p.view
          ensures u in view || exists x :: x in jobs && x.url == u
        {
          if u !in step.view {
            var x :| x in jobs[1..] && x.url == u;
            assert x in jobs;
          } else if u == jobs[0].url {
            assert jobs[0] in jobs;
          }
        }
        forall u | u in view && (forall x :: x in jobs ==> x.url != u)
          ensures p.view[u] == view[u]
        {
          assert jobs[0] in jobs;
          forall x | x in jobs[1..] ensures x.url != u {
            assert x in jobs;
          }
        }
      } else {
        assert jobs[0] in jobs;
      }
    }
  }

}
