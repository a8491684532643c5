/** The order in which a repository's releases are turned into package
    updates: for each release (tag, commit), for each package template, for
    each system, the template with `${tag}` and `${system}` substituted. */
module Releases {
  import opened Substitution

  /** One call of the per-package update: the resolved flake reference, the
      release tag and the commit it points at. */
  datatype Job = Job(url: string, tag: string, rev: string)

  /** A release file entry: tag and commit. */
  type Release = (string, string)

  /** `systems.each { |system| ... }` for one template and one release. */
  function PerSystem(template: string, tag: string, rev: string, systems: seq<string>): (jobs: seq<Job>)
    ensures |jobs| == |systems|
  {
    if systems == [] then []
    else [Job(Resolve(template, tag, systems[0]), tag, rev)] + PerSystem(template, tag, rev, systems[1..])
  }

  /** The job for system k carries the template with the tag and that system
      put in. */
  lemma {:induction false} PerSystemAt(template: string, tag: string, rev: string, systems: seq<string>, k: nat)
    requires k < |systems|
    ensures PerSystem(template, tag, rev, systems)[k] == Job(Resolve(template, tag, systems[k]), tag, rev)
  {
    if k > 0 {
      PerSystemAt(template, tag, rev, systems[1..], k - 1);
    }
  }

  /** `packages.each { |package| systems.each { ... } }` for one release. */
  function PerPackage(tag: string, rev: string, templates: seq<string>, systems: seq<string>): (jobs: seq<Job>)
    ensures |jobs| == |templates| * |systems|
  {
    if templates == [] then []
    else
      var head := PerSystem(templates[0], tag, rev, systems);
      var tail := PerPackage(tag, rev, templates[1..], systems);
      MulSucc(|templates| - 1, |systems|);
      head + tail
  }

  lemma MulSucc(m: nat, n: nat)
    ensures n + m * n == (m + 1) * n
  {
  }

  /** Position of the job for (template j, system k) within one release:
      j whole blocks of n jobs, then k. */
  function Slot(j: nat, k: nat, n: nat): nat
  {
    if j == 0 then k else n + Slot(j - 1, k, n)
  }

  /** The position in closed form. */
  lemma {:induction false} SlotFormula(j: nat, k: nat, n: nat)
    requires k < n
    ensures Slot(j, k, n) == j * n + k
  {
    if j > 0 {
      SlotFormula(j - 1, k, n);
      SlotShift(j, k, n);
    }
  }

  lemma {:induction false} PerPackageSlot(tag: string, rev: string, templates: seq<string>, systems: seq<string>,
                                          j: nat, k: nat)
    requires j < |templates| && k < |systems|
    ensures Slot(j, k, |systems|) < |PerPackage(tag, rev, templates, systems)|
    ensures PerPackage(tag, rev, templates, systems)[Slot(j, k, |systems|)]
         == Job(Resolve(templates[j], tag, systems[k]), tag, rev)
  {
    var head := PerSystem(templates[0], tag, rev, systems);
    var tail := PerPackage(tag, rev, templates[1..], systems);
    assert PerPackage(tag, rev, templates, systems) == head + tail;
    if j == 0 {
      PerSystemAt(templates[0], tag, rev, systems, k);
    } else {
      PerPackageSlot(tag, rev, templates[1..], systems, j - 1, k);
      assert templates[1..][j - 1] == templates[j];
    }
  }

  /** Within one release, the job for (template j, system k) sits at
      position j·|systems| + k and carries that template with the tag and
      the system put in. */
  lemma PerPackageAt(tag: string, rev: string, templates: seq<string>, systems: seq<string>, j: nat, k: nat)
    requires j < |templates| && k < |systems|
    ensures j * |systems| + k < |PerPackage(tag, rev, templates, systems)|
    ensures PerPackage(tag, rev, templates, systems)[j * |systems| + k]
         == Job(Resolve(templates[j], tag, systems[k]), tag, rev)
  {
    PerPackageSlot(tag, rev, templates, systems, j, k);
    SlotFormula(j, k, |systems|);
  }

  /** Index arithmetic of the nested enumeration. */
  lemma SlotShift(j: int, k: int, n: int)
    requires 1 <= j && 0 <= k < n
    ensures j * n + k == n + ((j - 1) * n + k)
  {
  }

  /** All jobs for a repository: releases × templates × systems, nested in
      that order. */
  function Plan(releases: seq<Release>, templates: seq<string>, systems: seq<string>): (jobs: seq<Job>)
  {
    if releases == [] then []
    else PerPackage(releases[0].0, releases[0].1, templates, systems) + Plan(releases[1..], templates, systems)
  }

  /** One job per (release, template, system) triple. */
  lemma {:induction false} PlanLength(releases: seq<Release>, templates: seq<string>, systems: seq<string>)
    ensures |Plan(releases, templates, systems)| == |releases| * (|templates| * |systems|)
  {
    if releases != [] {
      PlanLength(releases[1..], templates, systems);
      MulSucc(|releases| - 1, |templates| * |systems|);
    }
  }

  /** Position of the job for triple (i, j, k) in a plan over m templates
      and n systems: i whole blocks of m·n jobs, then j·n + k. */
  function Pos(i: nat, j: nat, k: nat, m: nat, n: nat): nat
  {
    if i == 0 then j * n + k else m * n + Pos(i - 1, j, k, m, n)
  }

  /** The position in closed form. */
  lemma {:induction false} PosFormula(i: nat, j: nat, k: nat, m: nat, n: nat)
    ensures Pos(i, j, k, m, n) == (i * m + j) * n + k
  {
    if i > 0 {
      PosFormula(i - 1, j, k, m, n);
      BlockShift(i, j, k, m, n);
    }
  }

  lemma {:induction false} PlanSlot(releases: seq<Release>, templates: seq<string>, systems: seq<string>,
                                    i: nat, j: nat, k: nat)
    requires i < |releases| && j < |templates| && k < |systems|
    ensures Pos(i, j, k, |templates|, |systems|) < |Plan(releases, templates, systems)|
    ensures Plan(releases, templates, systems)[Pos(i, j, k, |templates|, |systems|)]
         == Job(Resolve(templates[j], releases[i].0, systems[k]), releases[i].0, releases[i].1)
  {
    var m, n := |templates|, |systems|;
    var head := PerPackage(releases[0].0, releases[0].1, templates, systems);
    var rest := Plan(releases[1..], templates, systems);
    assert Plan(releases, templates, systems) == head + rest;
    if i == 0 {
      PerPackageAt(releases[0].0, releases[0].1, templates, systems, j, k);
    } else {
      var at := Pos(i - 1, j, k, m, n);
      PlanSlot(releases[1..], templates, systems, i - 1, j, k);
      assert releases[1..][i - 1] == releases[i];
      assert (head + rest)[|head| + at] == rest[at];
    }
  }

  /** The job for triple (i, j, k) sits at position (i·|templates| + j)·|systems| + k
      and carries the template with the release's tag and the system put in. */
  lemma PlanAt(releases: seq<Release>, templates: seq<string>, systems: seq<string>, i: nat, j: nat, k: nat)
    requires i < |releases| && j < |templates| && k < |systems|
    ensures (i * |templates| + j) * |systems| + k < |Plan(releases, templates, systems)|
    ensures Plan(releases, templates, systems)[(i * |templates| + j) * |systems| + k]
         == Job(Resolve(templates[j], releases[i].0, systems[k]), releases[i].0, releases[i].1)
  {
    PlanSlot(releases, templates, systems, i, j, k);
    PosFormula(i, j, k, |templates|, |systems|);
  }

  lemma BlockShift(i: nat, j: nat, k: nat, m: nat, n: nat)
    requires 1 <= i
    ensures (i * m + j) * n + k == m * n + (((i - 1) * m + j) * n + k)
  {
    assert (i * m + j) * n == i * m * n + j * n;
    assert ((i - 1) * m + j) * n == (i - 1) * m * n + j * n;
    assert i * m * n == m * n + (i - 1) * m * n;
  }

  /** One step of the innermost loop: the job for system k, then the rest. */
  lemma PerSystemStep(template: string, tag: string, rev: string, systems: seq<string>, k: nat)
    requires k < |systems|
    ensures PerSystem(template, tag, rev, systems[k..])
         == [Job(Resolve(template, tag, systems[k]), tag, rev)] + PerSystem(template, tag, rev, systems[k + 1..])
  {
    assert systems[k..][1..] == systems[k + 1..];
  }
}
