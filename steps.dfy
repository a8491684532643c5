/** The per-package step guards shared by run.rb and packages.rb: `set` and
    `merge` skip a step whose result is already recorded, record it when the
    step succeeds and mark the record failed when it does not. Also the
    pure tail of `process_closure`, which turns a content-addressing report
    into a closure record. */
module Steps {
  import opened Json

  const FailKey := "fail"
  const SystemKey := "system"
  const ClosureKey := "closure"

  /** The value of a guarded step: truthy (`Passed`), falsy (`Failed`), or an
      exception that escapes it (`Aborted`). */
  datatype Outcome = Passed | Failed | Aborted(message: string)

  /** What a step's block does when it is run: returns a value or raises. */
  datatype Step<T> = Yields(value: T) | Raises(message: string)

  /** The record after a guarded step, the step's outcome, and whether the
      block (the subprocess behind it) was run at all. */
  datatype StepEffect = StepEffect(rec: Record, outcome: Outcome, invoked: bool)

  /** The object `nix eval --json --apply` prints for a package: the apply
      expression keeps `system` and fills `pname`, `version` and `meta`. */
  datatype EvalInfo = EvalInfo(system: string, pname: string, version: string, meta: Value)

  /** The JSON report of `nix store make-content-addressed --json`: its
      `rewrites` object as ordered (from, to) pairs, `None` when the key is
      missing. */
  datatype CaOutput = CaOutput(rewrites: Option<seq<(string, string)>>)

  /** The subprocess outcomes for a flake reference: the eval result, and the
      content-addressing report (`None` when `nix build` or
      `make-content-addressed` exits unsuccessfully). */
  datatype Nix = Nix(eval: string -> Option<EvalInfo>, closure: string -> Option<CaOutput>)

  /** A package record, a Hash the steps update in place. */
  class Package {
    var fields: Record

    /** `{}` */
    constructor ()
      ensures fields == map[]
    {
      fields := map[];
    }
  }

  /** The identity fields `process` merges in first:
      `pkg.merge!('org' => org, 'repo' => repo, 'tag' => tag, 'rev' => rev)`. */
  function Identity(org: string, repo: string, tag: string, rev: string): (r: Record)
    ensures r.Keys == {"org", "repo", "tag", "rev"}
  {
    map["org" := Str(org), "repo" := Str(repo), "tag" := Str(tag), "rev" := Str(rev)]
  }

  /** The record holds the identity fields with the given values. */
  predicate HoldsIdentity(rec: Record, org: string, repo: string, tag: string, rev: string)
  {
    && "org" in rec && rec["org"] == Str(org)
    && "repo" in rec && rec["repo"] == Str(repo)
    && "tag" in rec && rec["tag"] == Str(tag)
    && "rev" in rec && rec["rev"] == Str(rev)
  }

  /** Merging identity fields the record already holds changes nothing. */
  lemma IdentityAbsorbed(rec: Record, org: string, repo: string, tag: string, rev: string)
    requires HoldsIdentity(rec, org, repo, tag, rev)
    ensures rec + Identity(org, repo, tag, rev) == rec
  {
  }

  /** The parsed eval output as the Hash `merge` merges in. */
  function EvalObject(info: EvalInfo): (r: Record)
    ensures r.Keys == {SystemKey, "pname", "version", "meta"}
    ensures Present(r, SystemKey)
  {
    map[SystemKey := Str(info.system), "pname" := Str(info.pname),
        "version" := Str(info.version), "meta" := info.meta]
  }

  /** `process_eval` as seen by `merge`: the parsed object, or nil. */
  function EvalResult(out: Option<EvalInfo>): (r: Option<Record>)
    ensures r.Some? <==> out.Some?
    ensures r.Some? ==> FailKey !in r.value && ClosureKey !in r.value
  {
    match out
    case None => None
    case Some(info) => Some(EvalObject(info))
  }

  /** `set(pkg, key) { step }` on the record's value. */
  function SetOn(rec: Record, key: string, step: Step<Value>): (e: StepEffect)
    requires key != FailKey
    // a recorded result is reused and the step is not run
    ensures Present(rec, key) ==> e == StepEffect(rec, Passed, false)
    ensures !Present(rec, key) ==> e.invoked && (e.outcome.Aborted? <==> step.Raises?)
    // a step that yields passes exactly when its value is truthy
    ensures !Present(rec, key) && step.Yields? ==> (e.outcome == Passed <==> Truthy(step.value))
    // the step passes exactly when its result ends up recorded
    ensures e.outcome == Passed <==> Present(e.rec, key)
    ensures e.invoked && e.outcome == Passed ==> e.rec == rec[key := step.value]
    // a falsy result leaves the key unset and marks the record failed
    ensures e.outcome == Failed ==> e.rec == rec[FailKey := Bool(true)]
    // an exception escapes before anything is written
    ensures e.outcome.Aborted? ==> e.rec == rec
  {
    if Present(rec, key) then StepEffect(rec, Passed, false)
    else match step
      case Raises(msg) => StepEffect(rec, Aborted(msg), true)
      case Yields(v) =>
        if Truthy(v) then StepEffect(rec[key := v], Passed, true)
        else StepEffect(rec[FailKey := Bool(true)], Failed, true)
  }

  /** `merge(pkg) { eval }` on the record's value. */
  function MergeOn(rec: Record, evalOut: Option<Record>): (e: StepEffect)
    // an evaluated record (truthy `system`) is reused and eval is not run
    ensures Present(rec, SystemKey) ==> e == StepEffect(rec, Passed, false)
    ensures !Present(rec, SystemKey) ==> e.invoked
    ensures !e.outcome.Aborted?
    ensures e.outcome == Failed <==> !Present(rec, SystemKey) && evalOut.None?
    ensures e.outcome == Failed ==> e.rec == rec[FailKey := Bool(true)]
    // a successful eval overwrites and adds every key it returns, keeping the rest
    ensures e.invoked && e.outcome == Passed ==>
      && e.rec.Keys == rec.Keys + evalOut.value.Keys
      && (forall k :: k in evalOut.value ==> e.rec[k] == evalOut.value[k])
      && (forall k :: k in rec && k !in evalOut.value ==> e.rec[k] == rec[k])
  {
    if Present(rec, SystemKey) then StepEffect(rec, Passed, false)
    else match evalOut
      case None => StepEffect(rec[FailKey := Bool(true)], Failed, true)
      case Some(obj) => StepEffect(rec + obj, Passed, true)
  }

  /** `set`: skip if `pkg[key]` is truthy, else run the step and record its
      value, or set `fail` when it is falsy. */
  method Set(pkg: Package, key: string, step: Step<Value>) returns (outcome: Outcome, invoked: bool)
    requires key != FailKey
    modifies pkg
    ensures StepEffect(pkg.fields, outcome, invoked) == SetOn(old(pkg.fields), key, step)
  {
    if Truthy(Get(pkg.fields, key)) {
      return Passed, false;
    }
    invoked := true;
    match step {
      case Raises(msg) =>
        outcome := Aborted(msg);
      case Yields(value) =>
        if Truthy(value) {
          pkg.fields := pkg.fields[key := value];
          outcome := Passed;
        } else {
          pkg.fields := pkg.fields[FailKey := Bool(true)];
          outcome := Failed;
        }
    }
  }

  /** `merge`: skip if `pkg['system']` is truthy, else run eval and merge its
      object in, or set `fail` when it returns nil. */
  method Merge(pkg: Package, evalOut: Option<Record>) returns (outcome: Outcome, invoked: bool)
    modifies pkg
    ensures StepEffect(pkg.fields, outcome, invoked) == MergeOn(old(pkg.fields), evalOut)
  {
    if Truthy(Get(pkg.fields, SystemKey)) {
      return Passed, false;
    }
    invoked := true;
    match evalOut {
      case None =>
        pkg.fields := pkg.fields[FailKey := Bool(true)];
        outcome := Failed;
      case Some(value) =>
        pkg.fields := pkg.fields + value;
        outcome := Passed;
    }
  }

  /** Running `set` again after it passed reuses the recorded value, whatever
      the step would now do. */
  lemma SetIsMemoised(rec: Record, key: string, first: Step<Value>, again: Step<Value>)
    requires key != FailKey
    requires SetOn(rec, key, first).outcome == Passed
    ensures SetOn(SetOn(rec, key, first).rec, key, again) == StepEffect(SetOn(rec, key, first).rec, Passed, false)
  {
  }

  /** Running `merge` again after a real eval passed does not run eval again. */
  lemma MergeIsMemoised(rec: Record, info: EvalInfo, again: Option<Record>)
    ensures MergeOn(rec, Some(EvalObject(info))).outcome == Passed
    ensures var e := MergeOn(rec, Some(EvalObject(info)));
            MergeOn(e.rec, again) == StepEffect(e.rec, Passed, false)
  {
  }

  /** Neither guard touches the identity fields: eval output and the closure
      step write other keys. */
  lemma GuardsKeepIdentity(rec: Record, org: string, repo: string, tag: string, rev: string,
                           out: Option<EvalInfo>, step: Step<Value>)
    requires HoldsIdentity(rec, org, repo, tag, rev)
    ensures HoldsIdentity(MergeOn(rec, EvalResult(out)).rec, org, repo, tag, rev)
    ensures HoldsIdentity(SetOn(rec, ClosureKey, step).rec, org, repo, tag, rev)
  {
    if out.Some? && !Present(rec, SystemKey) {
      var obj := EvalObject(out.value);
      assert "org" !in obj && "repo" !in obj && "tag" !in obj && "rev" !in obj;
    }
  }

  /** Neither guard ever clears a truthy `fail`. */
  lemma GuardsKeepFail(rec: Record, key: string, step: Step<Value>, out: Option<EvalInfo>)
    requires key != FailKey
    requires Present(rec, FailKey)
    ensures Present(SetOn(rec, key, step).rec, FailKey)
    ensures Present(MergeOn(rec, EvalResult(out)).rec, FailKey)
  {
  }

  /** The `merge { eval } && set('closure') { closure }` chain both versions
      of `process` end with: the record afterwards, which steps ran, and the
      chain's value. */
  datatype Chain = Chain(rec: Record, evalInvoked: bool, closureInvoked: bool, outcome: Outcome)

  /** The chain on the record's value, for an eval result and a closure step. */
  function ChainOn(rec: Record, eval: Option<EvalInfo>, closure: Step<Value>): (c: Chain)
    // eval runs exactly when the record has not been evaluated
    ensures c.evalInvoked <==> !Present(rec, SystemKey)
    // the closure step runs exactly when eval passed (or was skipped) and no closure is recorded
    ensures c.closureInvoked ==>
      && (Present(rec, SystemKey) || eval.Some?)
      && Present(c.rec, SystemKey) && !Present(rec, ClosureKey)
    ensures (Present(rec, SystemKey) || eval.Some?) && !Present(rec, ClosureKey) ==> c.closureInvoked
    // the chain raises exactly when the closure step runs and raises
    ensures c.outcome.Aborted? <==> c.closureInvoked && closure.Raises?
  {
    var merged := MergeOn(rec, EvalResult(eval));
    if merged.outcome != Passed then Chain(merged.rec, merged.invoked, false, merged.outcome)
    else
      var stored := SetOn(merged.rec, ClosureKey, closure);
      Chain(stored.rec, merged.invoked, stored.invoked, stored.outcome)
  }

  /** `merge { eval } && set('closure') { closure }` on the record in place. */
  method RunChain(pkg: Package, eval: Option<EvalInfo>, closure: Step<Value>)
    returns (evalInvoked: bool, closureInvoked: bool, outcome: Outcome)
    modifies pkg
    ensures Chain(pkg.fields, evalInvoked, closureInvoked, outcome) == ChainOn(old(pkg.fields), eval, closure)
  {
    outcome, evalInvoked := Merge(pkg, EvalResult(eval));
    closureInvoked := false;
    if outcome == Passed {
      outcome, closureInvoked := Set(pkg, ClosureKey, closure);
    }
  }

  /** The chain never changes the identity fields. */
  lemma ChainKeepsIdentity(rec: Record, org: string, repo: string, tag: string, rev: string,
                           eval: Option<EvalInfo>, closure: Step<Value>)
    requires HoldsIdentity(rec, org, repo, tag, rev)
    ensures HoldsIdentity(ChainOn(rec, eval, closure).rec, org, repo, tag, rev)
  {
    GuardsKeepIdentity(rec, org, repo, tag, rev, eval, closure);
    var merged := MergeOn(rec, EvalResult(eval));
    GuardsKeepIdentity(merged.rec, org, repo, tag, rev, eval, closure);
  }

  /** The chain never clears a truthy `fail`. */
  lemma ChainKeepsFail(rec: Record, eval: Option<EvalInfo>, closure: Step<Value>)
    requires Present(rec, FailKey)
    ensures Present(ChainOn(rec, eval, closure).rec, FailKey)
  {
    GuardsKeepFail(rec, ClosureKey, closure, eval);
    GuardsKeepFail(MergeOn(rec, EvalResult(eval)).rec, ClosureKey, closure, eval);
  }

  /** On an evaluated record with a closure the chain runs nothing and
      changes nothing. */
  lemma ChainSkipsComplete(rec: Record, eval: Option<EvalInfo>, closure: Step<Value>)
    requires Present(rec, SystemKey) && Present(rec, ClosureKey)
    ensures ChainOn(rec, eval, closure) == Chain(rec, false, false, Passed)
  {
  }

  /** A chain that raised nothing leaves the record either marked failed or
      evaluated with a closure; a closure it holds is the old one or the
      step's value. */
  lemma ChainSettles(rec: Record, eval: Option<EvalInfo>, closure: Step<Value>)
    requires !ChainOn(rec, eval, closure).outcome.Aborted?
    ensures var c := ChainOn(rec, eval, closure);
            && (Present(c.rec, FailKey) || (Present(c.rec, SystemKey) && Present(c.rec, ClosureKey)))
            && (ClosureKey in c.rec ==>
                  (ClosureKey in rec && c.rec[ClosureKey] == rec[ClosureKey])
                  || (closure.Yields? && c.rec[ClosureKey] == closure.value))
  {
    var merged := MergeOn(rec, EvalResult(eval));
    if merged.outcome == Passed {
      assert ClosureKey in merged.rec ==> ClosureKey in rec && merged.rec[ClosureKey] == rec[ClosureKey];
    }
  }

  const DuplicateRewrites := "Encountered more than one rewrite object"
  const MissingRewrites := "key not found: \"rewrites\""

  /** The pure tail of `process_closure`: nil when the build or the
      content-addressing failed, an exception for a missing `rewrites` key or
      more than one rewrite, otherwise `{fromPath, toPath, fromStore}` built
      from the first (only) rewrite; with no rewrite at all, `rewrites.first`
      is nil and so are both paths. */
  function ClosureRecord(ca: Option<CaOutput>, fromStore: string): (s: Step<Value>)
    ensures ca.None? ==> s == Yields(Null)
    ensures s.Raises? <==> ca.Some? && (ca.value.rewrites.None? || |ca.value.rewrites.value| > 1)
    ensures s.Raises? && ca.value.rewrites.Some? ==> s.message == DuplicateRewrites
    ensures s.Yields? && ca.Some? ==>
      && Truthy(s.value) && s.value.Obj?
      && s.value.fields.Keys == {"fromPath", "toPath", "fromStore"}
      && s.value.fields["fromStore"] == Str(fromStore)
  {
    match ca
    case None => Yields(Null)
    case Some(report) =>
      match report.rewrites
      case None => Raises(MissingRewrites)
      case Some(rewrites) =>
        if |rewrites| > 1 then Raises(DuplicateRewrites)
        else if |rewrites| == 1 then
          Yields(Obj(map["fromPath" := Str(rewrites[0].0), "toPath" := Str(rewrites[0].1),
                         "fromStore" := Str(fromStore)]))
        else
          Yields(Obj(map["fromPath" := Null, "toPath" := Null, "fromStore" := Str(fromStore)]))
  }

  /** Reads the rewrite pair back out of a closure record. */
  function RewriteOf(closure: Value): Option<(string, string)>
  {
    if closure.Obj? && "fromPath" in closure.fields && "toPath" in closure.fields
       && closure.fields["fromPath"].Str? && closure.fields["toPath"].Str?
    then Some((closure.fields["fromPath"].s, closure.fields["toPath"].s))
    else None
  }

  /** A single rewrite is recorded so that it can be read back unchanged. */
  lemma ClosureRecordRoundTrip(rewrite: (string, string), fromStore: string)
    ensures var s := ClosureRecord(Some(CaOutput(Some([rewrite]))), fromStore);
            s.Yields? && RewriteOf(s.value) == Some(rewrite)
  {
  }

  /** An empty `rewrites` object still yields a (truthy) record, with no paths. */
  lemma NoRewriteRecordsNoPaths(fromStore: string)
    ensures var s := ClosureRecord(Some(CaOutput(Some([]))), fromStore);
            s.Yields? && Truthy(s.value) && RewriteOf(s.value) == None
  {
  }
}
