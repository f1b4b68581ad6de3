/** Verification coverage: which checks a plan runs, what the report says about them, and
    the independent second look publication takes at that report. */
module Coverage {
  import opened Kernel
  import opened TaskGraph

  datatype CheckDefinition = CheckDefinition(id: string, commandReference: string)

  /** Trusted checks, in their declared order, with pairwise different identities. */
  datatype Catalog = Catalog(definitions: seq<CheckDefinition>)

  const MAX_CHECKS: nat := 16

  ghost predicate ValidCatalog(c: Catalog) {
    && 0 < |c.definitions| <= MAX_CHECKS
    && forall i, j :: 0 <= i < j < |c.definitions| ==> c.definitions[i].id != c.definitions[j].id
  }

  ghost function CatalogIds(c: Catalog): set<string> {
    set i | 0 <= i < |c.definitions| :: c.definitions[i].id
  }

  datatype Requirement = Requirement(criterion: string, checks: seq<string>)

  datatype Plan = Plan(checks: seq<CheckDefinition>, requirements: seq<Requirement>)

  // ----- Resolving a plan -----

  ghost predicate RequirementFits(r: Requirement, criteria: seq<string>, available: seq<string>, c: Catalog) {
    && r.criterion in criteria
    && Distinct(r.checks)
    && (forall id :: id in r.checks ==> id in available && id in CatalogIds(c))
  }

  ghost predicate Resolvable(c: Catalog, criteria: seq<string>, available: seq<string>, rs: seq<Requirement>) {
    && |rs| == |criteria|
    && (forall i :: 0 <= i < |rs| ==> RequirementFits(rs[i], criteria, available, c))
    && (forall i, j :: 0 <= i < j < |rs| ==> rs[i].criterion != rs[j].criterion)
  }

  /** Every check some requirement maps to. */
  ghost function Mapped(rs: seq<Requirement>): set<string> {
    set i, k | 0 <= i < |rs| && 0 <= k < |rs[i].checks| :: rs[i].checks[k]
  }

  function Selected(definitions: seq<CheckDefinition>, ids: set<string>): seq<CheckDefinition> {
    if definitions == [] then []
    else
      var n := |definitions| - 1;
      var before := Selected(definitions[..n], ids);
      if definitions[n].id in ids then before + [definitions[n]] else before
  }

  lemma {:induction false} SelectedMembers(definitions: seq<CheckDefinition>, ids: set<string>)
    ensures forall d :: d in Selected(definitions, ids) <==> d in definitions && d.id in ids
    ensures |Selected(definitions, ids)| <= |definitions|
  {
    if definitions != [] {
      var n := |definitions| - 1;
      SelectedMembers(definitions[..n], ids);
      assert definitions == definitions[..n] + [definitions[n]];
    }
  }

  lemma {:induction false} SelectedOnce(definitions: seq<CheckDefinition>, ids: set<string>)
    requires forall i, j :: 0 <= i < j < |definitions| ==> definitions[i].id != definitions[j].id
    ensures var s := Selected(definitions, ids); forall i, j :: 0 <= i < j < |s| ==> s[i].id != s[j].id
  {
    if definitions != [] {
      var n := |definitions| - 1;
      var before := Selected(definitions[..n], ids);
      SelectedOnce(definitions[..n], ids);
      SelectedMembers(definitions[..n], ids);
      forall i | 0 <= i < |before|
        ensures before[i].id != definitions[n].id
      {
        assert before[i] in definitions[..n];
        var k :| 0 <= k < n && definitions[k] == before[i];
      }
    }
  }

  method CheckRequirement(r: Requirement, available: set<string>, trusted: set<string>, selected: set<string>)
      returns (ok: bool, extended: set<string>)
    ensures ok <==> Distinct(r.checks) && forall id :: id in r.checks ==> id in available && id in trusted
    ensures ok ==> extended == selected + Elements(r.checks)
  {
    extended := selected;
    var seen := {};
    for k := 0 to |r.checks|
      invariant seen == Elements(r.checks[..k]) && extended == selected + seen
      invariant Distinct(r.checks[..k])
      invariant forall i :: 0 <= i < k ==> r.checks[i] in available && r.checks[i] in trusted
    {
      var id := r.checks[k];
      assert r.checks[..k + 1] == r.checks[..k] + [id];
      if id in seen {
        var i :| 0 <= i < k && r.checks[..k][i] == id;
        assert r.checks[i] == r.checks[k];
        return false, extended;
      }
      if id !in available || id !in trusted {
        assert id in r.checks;
        return false, extended;
      }
      ElementsSnoc(r.checks[..k], id);
      seen, extended := seen + {id}, extended + {id};
    }
    assert r.checks[..|r.checks|] == r.checks;
    return true, extended;
  }

  lemma {:induction false} MappedSnoc(rs: seq<Requirement>, k: nat)
    requires k < |rs|
    ensures Mapped(rs[..k + 1]) == Mapped(rs[..k]) + Elements(rs[k].checks)
  {
    var before, after := rs[..k], rs[..k + 1];
    forall x | x in Mapped(after)
      ensures x in Mapped(before) + Elements(rs[k].checks)
    {
      var i, j :| 0 <= i < |after| && 0 <= j < |after[i].checks| && after[i].checks[j] == x;
      if i < k {
        assert before[i].checks[j] == x;
      }
    }
    forall x | x in Mapped(before)
      ensures x in Mapped(after)
    {
      var i, j :| 0 <= i < |before| && 0 <= j < |before[i].checks| && before[i].checks[j] == x;
      assert after[i].checks[j] == x;
    }
    forall x | x in Elements(rs[k].checks)
      ensures x in Mapped(after)
    {
      var j :| 0 <= j < |rs[k].checks| && rs[k].checks[j] == x;
      assert after[k].checks[j] == x;
    }
  }

  /** A plan resolves exactly when each criterion is mapped once, to available and trusted
      checks; it then runs the mapped checks in catalog order. */
  method Resolve(c: Catalog, criteria: seq<string>, available: seq<string>, rs: seq<Requirement>)
      returns (plan: Option<Plan>)
    requires ValidCatalog(c)
    ensures plan.Some? <==> Resolvable(c, criteria, available, rs)
    ensures plan.Some? ==> plan.value == Plan(Selected(c.definitions, Mapped(rs)), rs)
  {
    hide Distinct, Mapped;
    if |rs| != |criteria| {
      return None;
    }
    var offered := set id | id in available;
    var trusted := set i | 0 <= i < |c.definitions| :: c.definitions[i].id;
    var seen, selected := {}, {};
    NothingMapped();
    for k := 0 to |rs|
      invariant seen == set i | 0 <= i < k :: rs[i].criterion
      invariant selected == Mapped(rs[..k])
      invariant forall i :: 0 <= i < k ==> RequirementFits(rs[i], criteria, available, c)
      invariant forall i, j :: 0 <= i < j < k ==> rs[i].criterion != rs[j].criterion
    {
      if rs[k].criterion !in criteria || rs[k].criterion in seen {
        return None;
      }
      seen := seen + {rs[k].criterion};
      var ok, extended := CheckRequirement(rs[k], offered, trusted, selected);
      MappedSnoc(rs, k);
      if !ok {
        assert !RequirementFits(rs[k], criteria, available, c);
        return None;
      }
      selected := extended;
    }
    assert rs[..|rs|] == rs;
    // The bound on the number of checks is implied by the catalog's.
    SelectedMembers(c.definitions, selected);
    assert |Selected(c.definitions, selected)| <= MAX_CHECKS;
    return Some(Plan(Selected(c.definitions, selected), rs));
  }

  lemma {:induction false} NothingMapped()
    ensures Mapped([]) == {}
  {
  }

  /** A resolved plan runs exactly the union of the mapped checks, each of them once, and
      requires exactly the given criteria when those are distinct. */
  lemma {:induction false} PlanRunsTheUnion(c: Catalog, criteria: seq<string>, available: seq<string>, rs: seq<Requirement>)
    requires ValidCatalog(c) && Resolvable(c, criteria, available, rs)
    ensures var checks := Selected(c.definitions, Mapped(rs));
      && (set i | 0 <= i < |checks| :: checks[i].id) == Mapped(rs)
      && (forall i, j :: 0 <= i < j < |checks| ==> checks[i].id != checks[j].id)
    ensures Distinct(criteria) ==> (set i | 0 <= i < |rs| :: rs[i].criterion) == Elements(criteria)
  {
    hide Distinct;
    var ids := Mapped(rs);
    var checks := Selected(c.definitions, ids);
    SelectedMembers(c.definitions, ids);
    SelectedOnce(c.definitions, ids);
    forall id | id in ids
      ensures exists i :: 0 <= i < |checks| && checks[i].id == id
    {
      var i, k :| 0 <= i < |rs| && 0 <= k < |rs[i].checks| && rs[i].checks[k] == id;
      assert RequirementFits(rs[i], criteria, available, c) && id in rs[i].checks;
      var d :| 0 <= d < |c.definitions| && c.definitions[d].id == id;
      assert c.definitions[d] in checks;
    }
    forall i | 0 <= i < |checks|
      ensures checks[i].id in ids
    {
      assert checks[i] in checks;
    }
    if Distinct(criteria) {
      CriteriaMatched(c, criteria, available, rs);
    }
  }

  lemma {:induction false} CriteriaMatched(c: Catalog, criteria: seq<string>, available: seq<string>, rs: seq<Requirement>)
    requires Resolvable(c, criteria, available, rs) && Distinct(criteria)
    ensures (set i | 0 <= i < |rs| :: rs[i].criterion) == Elements(criteria)
  {
    hide RequirementFits;
    var named := seq(|rs|, i requires 0 <= i < |rs| => rs[i].criterion);
    assert Distinct(named);
    DistinctCount(named);
    DistinctCount(criteria);
    forall i | 0 <= i < |rs|
      ensures rs[i].criterion in criteria
    {
      FitsCriterion(rs[i], criteria, available, c);
    }
    SubsetCount(Elements(named), Elements(criteria));
    assert forall i :: 0 <= i < |rs| ==> named[i] == rs[i].criterion;
    assert (set i | 0 <= i < |rs| :: rs[i].criterion) == Elements(named) by {
      forall x | x in Elements(named)
        ensures x in (set i | 0 <= i < |rs| :: rs[i].criterion)
      {
        var i :| 0 <= i < |named| && named[i] == x;
      }
    }
  }

  lemma {:induction false} FitsCriterion(r: Requirement, criteria: seq<string>, available: seq<string>, c: Catalog)
    requires RequirementFits(r, criteria, available, c)
    ensures r.criterion in criteria
  {
  }

  // ----- Collecting evidence -----

  /** What running one check measured. */
  datatype Measurement = Measurement(exitCode: int, timedOut: bool, truncated: bool)

  datatype CheckResult = CheckResult(id: string, candidate: string, timedOut: bool, passed: bool)

  datatype CriterionCoverage = CriterionCoverage(criterion: string, checks: seq<string>, covered: bool, passed: bool)

  datatype Report = Report(candidate: string, checks: seq<CheckResult>, coverage: seq<CriterionCoverage>, passed: bool)

  function ResultOf(d: CheckDefinition, m: Measurement, candidate: string): CheckResult {
    CheckResult(d.id, candidate, m.timedOut, m.exitCode == 0 && !m.timedOut && !m.truncated)
  }

  /** The last result of a check is a pass. */
  predicate LastPassed(results: seq<CheckResult>, id: string) {
    results != [] &&
    if results[|results| - 1].id == id then results[|results| - 1].passed else LastPassed(results[..|results| - 1], id)
  }

  predicate AllPassed(r: Requirement, results: seq<CheckResult>) {
    r.checks != [] && forall k :: 0 <= k < |r.checks| ==> LastPassed(results, r.checks[k])
  }

  function CoverageOf(r: Requirement, results: seq<CheckResult>): CriterionCoverage {
    CriterionCoverage(r.criterion, r.checks, r.checks != [], AllPassed(r, results))
  }

  method CalculateCoverage(rs: seq<Requirement>, results: seq<CheckResult>)
      returns (coverage: seq<CriterionCoverage>, overall: bool)
    ensures |coverage| == |rs| && forall i :: 0 <= i < |rs| ==> coverage[i] == CoverageOf(rs[i], results)
    ensures overall <==> forall i :: 0 <= i < |rs| ==> AllPassed(rs[i], results)
  {
    hide LastPassed;
    var passedChecks := PassedChecks(results);
    coverage, overall := [], true;
    for i := 0 to |rs|
      invariant |coverage| == i && forall j :: 0 <= j < i ==> coverage[j] == CoverageOf(rs[j], results)
      invariant overall <==> forall j :: 0 <= j < i ==> AllPassed(rs[j], results)
    {
      var item := CriterionCoverage(rs[i].criterion, rs[i].checks, rs[i].checks != [], rs[i].checks != []);
      for k := 0 to |rs[i].checks|
        invariant item == CriterionCoverage(rs[i].criterion, rs[i].checks, rs[i].checks != [], item.passed)
        invariant item.passed <==> rs[i].checks != [] && forall j :: 0 <= j < k ==> LastPassed(results, rs[i].checks[j])
      {
        var id := rs[i].checks[k];
        assert (id in passedChecks && passedChecks[id]) == LastPassed(results, id);
        if id !in passedChecks || !passedChecks[id] {
          item := item.(passed := false);
        }
      }
      if !item.covered || !item.passed {
        overall := false;
      }
      coverage := coverage + [item];
    }
  }

  method PassedChecks(results: seq<CheckResult>) returns (passed: map<string, bool>)
    ensures forall id :: (id in passed && passed[id]) == LastPassed(results, id)
  {
    passed := map[];
    for k := 0 to |results|
      invariant forall id :: (id in passed && passed[id]) == LastPassed(results[..k], id)
    {
      passed := passed[results[k].id := results[k].passed];
      assert results[..k + 1][..k] == results[..k];
    }
    assert results[..|results|] == results;
  }

  ghost predicate ReportsPlan(plan: Plan, ms: seq<Measurement>, candidate: string, r: Report) {
    && |ms| == |plan.checks| == |r.checks|
    && r.candidate == candidate
    && (forall i :: 0 <= i < |ms| ==> r.checks[i] == ResultOf(plan.checks[i], ms[i], candidate))
    && |r.coverage| == |plan.requirements|
    && (forall i :: 0 <= i < |plan.requirements| ==> r.coverage[i] == CoverageOf(plan.requirements[i], r.checks))
    && (r.passed <==> forall i :: 0 <= i < |plan.requirements| ==> AllPassed(plan.requirements[i], r.checks))
  }

  /** Runs the planned checks in order; an executor error ends the run without a report. */
  method CollectEvidence(plan: Plan, runs: seq<Option<Measurement>>, candidate: string)
      returns (report: Option<Report>, ghost ms: seq<Measurement>)
    requires |runs| == |plan.checks|
    ensures report.Some? <==> forall i :: 0 <= i < |runs| ==> runs[i].Some?
    ensures report.Some? ==>
      && |ms| == |runs| && (forall i :: 0 <= i < |runs| ==> runs[i] == Some(ms[i]))
      && ReportsPlan(plan, ms, candidate, report.value)
  {
    hide AllPassed, CoverageOf;
    var results := [];
    ms := [];
    for k := 0 to |runs|
      invariant |results| == |ms| == k
      invariant forall i :: 0 <= i < k ==> runs[i] == Some(ms[i])
      invariant forall i :: 0 <= i < k ==> results[i] == ResultOf(plan.checks[i], ms[i], candidate)
    {
      if runs[k].None? {
        return None, ms;
      }
      ms := ms + [runs[k].value];
      results := results + [ResultOf(plan.checks[k], runs[k].value, candidate)];
    }
    var coverage, passed := CalculateCoverage(plan.requirements, results);
    report := Some(Report(candidate, results, coverage, passed));
  }

  // ----- Publication's second look -----

  predicate VerificationPassed(r: Report) {
    && r.checks != [] && r.coverage != []
    && (forall i :: 0 <= i < |r.checks| ==>
          r.checks[i].passed && !r.checks[i].timedOut && r.checks[i].candidate == r.candidate)
    && (forall i :: 0 <= i < |r.coverage| ==>
          r.coverage[i].covered && r.coverage[i].passed && r.coverage[i].checks != [])
  }

  lemma {:induction false} LastPassedExactly(results: seq<CheckResult>, k: nat)
    requires k < |results| && forall i, j :: 0 <= i < j < |results| ==> results[i].id != results[j].id
    ensures LastPassed(results, results[k].id) == results[k].passed
  {
    var n := |results| - 1;
    if k < n {
      LastPassedExactly(results[..n], k);
    }
  }

  /** Every planned check is mapped, so overall passing is every check passing. */
  lemma {:induction false} EveryCheckPassed(plan: Plan, ms: seq<Measurement>, candidate: string, r: Report, i: nat)
    requires ReportsPlan(plan, ms, candidate, r) && r.passed && i < |r.checks|
    requires (set k | 0 <= k < |plan.checks| :: plan.checks[k].id) == Mapped(plan.requirements)
    requires forall a, b :: 0 <= a < b < |plan.checks| ==> plan.checks[a].id != plan.checks[b].id
    ensures r.checks[i].passed && !r.checks[i].timedOut && r.checks[i].candidate == r.candidate
  {
    hide LastPassed;
    assert plan.checks[i].id in Mapped(plan.requirements);
    var q, k :| 0 <= q < |plan.requirements| && 0 <= k < |plan.requirements[q].checks|
                && plan.requirements[q].checks[k] == plan.checks[i].id;
    assert AllPassed(plan.requirements[q], r.checks);
    assert LastPassed(r.checks, plan.requirements[q].checks[k]);
    forall a, b | 0 <= a < b < |r.checks|
      ensures r.checks[a].id != r.checks[b].id
    {
      assert r.checks[a].id == plan.checks[a].id && r.checks[b].id == plan.checks[b].id;
    }
    LastPassedExactly(r.checks, i);
  }

  /** The verifier's verdict and publication's own reading of the report agree on a resolved
      plan exactly when it requires anything at all. */
  lemma {:induction false} VerdictsAgreeExactly(c: Catalog, criteria: seq<string>, available: seq<string>, rs: seq<Requirement>,
                                                ms: seq<Measurement>, candidate: string, r: Report)
    requires ValidCatalog(c) && Resolvable(c, criteria, available, rs)
    requires ReportsPlan(Plan(Selected(c.definitions, Mapped(rs)), rs), ms, candidate, r)
    ensures (r.passed == VerificationPassed(r)) <==> criteria != []
  {
    hide LastPassed, Mapped, Selected, RequirementFits;
    var plan := Plan(Selected(c.definitions, Mapped(rs)), rs);
    PlanRunsTheUnion(c, criteria, available, rs);
    if r.passed && rs != [] {
      forall i | 0 <= i < |r.checks|
        ensures r.checks[i].passed && !r.checks[i].timedOut && r.checks[i].candidate == r.candidate
      {
        EveryCheckPassed(plan, ms, candidate, r, i);
      }
      assert AllPassed(rs[0], r.checks);
      SomeCheckPlanned(c, rs);
      assert forall i :: 0 <= i < |r.coverage| ==> AllPassed(rs[i], r.checks);
      assert r.checks != [];
    }
    if VerificationPassed(r) {
      forall i | 0 <= i < |rs|
        ensures AllPassed(rs[i], r.checks)
      {
        assert r.coverage[i].passed;
      }
    }
  }

  lemma {:induction false} SomeCheckPlanned(c: Catalog, rs: seq<Requirement>)
    requires rs != [] && rs[0].checks != []
    ensures rs[0].checks[0] in Mapped(rs)
  {
  }

  /** Without criteria every catalog resolves to an empty plan, whose report the verifier
      passes and publication refuses. */
  lemma {:induction false} EmptyRequestSplitsVerdicts(c: Catalog, available: seq<string>, candidate: string)
      returns (r: Report)
    requires ValidCatalog(c)
    ensures Resolvable(c, [], available, [])
    ensures ReportsPlan(Plan(Selected(c.definitions, Mapped([])), []), [], candidate, r)
    ensures r.passed && !VerificationPassed(r)
  {
    NothingMapped();
    NothingSelected(c.definitions);
    r := Report(candidate, [], [], true);
  }

  lemma {:induction false} NothingSelected(definitions: seq<CheckDefinition>)
    ensures Selected(definitions, {}) == []
  {
    if definitions != [] {
      NothingSelected(definitions[..|definitions| - 1]);
    }
  }
}
