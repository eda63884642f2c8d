/** The validation suite a completed fix requires, how results match it, and its overall status. */
module Suite {
  import opened Wrappers
  import opened Model

  datatype CheckSpec = CheckSpec(checkType: CheckType, target: Option<string>)

  datatype SuiteStatus = Missing | Failed | Passed | Incomplete

  function When(condition: bool, spec: CheckSpec): seq<CheckSpec> { if condition then [spec] else [] }

  /** The checks in the order they are planned: a restart comes before the customer check unless the fix was one. */
  function Wanted(f: SuiteFacts): seq<CheckSpec> {
    var restartFirst := f.persistence && !f.serviceAction;
    When(f.service.Some?, CheckSpec(ServiceHealth, f.service))
    + When(restartFirst, CheckSpec(Persistence, f.service))
    + When(f.customerFacing, CheckSpec(CustomerBenefit, Some(f.endpoint)))
    + When(f.service.Some?, CheckSpec(LogsClean, f.service))
    + When(f.persistence && !restartFirst, CheckSpec(Persistence, f.service))
    + When(f.publicCommand.Some?, CheckSpec(PublicValidation, f.publicCommand))
  }

  /** First occurrences only, compared by check type and target. */
  function Deduped(specs: seq<CheckSpec>): seq<CheckSpec> {
    if specs == [] then []
    else
      var kept := Deduped(specs[..|specs| - 1]);
      if specs[|specs| - 1] in kept then kept else kept + [specs[|specs| - 1]]
  }

  function Specs(f: SuiteFacts): seq<CheckSpec> {
    var deduped := Deduped(Wanted(f));
    if deduped == [] then [CheckSpec(OtherCheck, None)] else deduped
  }

  /** The builder's loop, which keeps the keys it has seen. */
  method BuildSpecs(f: SuiteFacts) returns (specs: seq<CheckSpec>)
    ensures specs == Specs(f)
  {
    var wanted := Wanted(f);
    var seen := {};
    specs := [];
    for i := 0 to |wanted|
      invariant specs == Deduped(wanted[..i])
      invariant forall spec :: spec in seen <==> spec in specs
    {
      assert wanted[..i + 1][..i] == wanted[..i];
      if wanted[i] !in seen {
        seen := seen + {wanted[i]};
        specs := specs + [wanted[i]];
      }
    }
    assert wanted[..|wanted|] == wanted;
    if specs == [] {
      specs := [CheckSpec(OtherCheck, None)];
    }
  }

  ghost predicate DistinctTypes(specs: seq<CheckSpec>) {
    forall i, j :: 0 <= i < j < |specs| ==> specs[i].checkType != specs[j].checkType
  }

  lemma {:induction false} DedupedIdentity(specs: seq<CheckSpec>)
    requires DistinctTypes(specs)
    ensures Deduped(specs) == specs
  {
    if specs != [] {
      var n := |specs| - 1;
      DedupedIdentity(specs[..n]);
      assert specs == specs[..n] + [specs[n]];
    }
  }

  ghost predicate Avoids(specs: seq<CheckSpec>, t: CheckType) {
    forall i :: 0 <= i < |specs| ==> specs[i].checkType != t
  }

  lemma WhenKeepsDistinct(specs: seq<CheckSpec>, condition: bool, spec: CheckSpec)
    requires DistinctTypes(specs) && (condition ==> Avoids(specs, spec.checkType))
    ensures DistinctTypes(specs + When(condition, spec))
    ensures forall t :: Avoids(specs, t) && (condition ==> t != spec.checkType) ==>
      Avoids(specs + When(condition, spec), t)
  {
  }

  lemma WantedDistinct(f: SuiteFacts)
    ensures DistinctTypes(Wanted(f))
  {
    var restartFirst := f.persistence && !f.serviceAction;
    var a := When(f.service.Some?, CheckSpec(ServiceHealth, f.service));
    WhenKeepsDistinct(a, restartFirst, CheckSpec(Persistence, f.service));
    var b := a + When(restartFirst, CheckSpec(Persistence, f.service));
    WhenKeepsDistinct(b, f.customerFacing, CheckSpec(CustomerBenefit, Some(f.endpoint)));
    var c := b + When(f.customerFacing, CheckSpec(CustomerBenefit, Some(f.endpoint)));
    WhenKeepsDistinct(c, f.service.Some?, CheckSpec(LogsClean, f.service));
    var d := c + When(f.service.Some?, CheckSpec(LogsClean, f.service));
    WhenKeepsDistinct(d, f.persistence && !restartFirst, CheckSpec(Persistence, f.service));
    var e := d + When(f.persistence && !restartFirst, CheckSpec(Persistence, f.service));
    WhenKeepsDistinct(e, f.publicCommand.Some?, CheckSpec(PublicValidation, f.publicCommand));
  }

  /** No two wanted checks share a type, so de-duplication never drops one: a suite is keyed by check type. */
  lemma SuiteKeyedByType(f: SuiteFacts)
    ensures Specs(f) != [] && DistinctTypes(Specs(f))
    ensures Wanted(f) != [] ==> Specs(f) == Wanted(f)
  {
    WantedDistinct(f);
    DedupedIdentity(Wanted(f));
  }

  predicate TargetsMatch(p: Policy, expected: Option<string>, actual: Option<string>) {
    expected.None? || actual.None? || expected.value == "" || actual.value == ""
      || p.sameTarget(expected.value, actual.value)
  }

  predicate Waits(e: Expectation, result: ValidationResult) {
    e.status == CheckStatus.Pending && e.checkType == result.checkType
  }

  /**
   * Position of the first pending expectation of the result's type, among those whose target must also match or not.
   */
  function FirstWaiting(p: Policy, es: seq<Expectation>, result: ValidationResult,
      sameTarget: bool): (found: Option<nat>)
    ensures found.Some? ==> found.value < |es| && Waits(es[found.value], result)
    ensures found.None? && !sameTarget ==> forall i :: 0 <= i < |es| ==> !Waits(es[i], result)
  {
    if es == [] then None
    else if Waits(es[0], result) && (sameTarget ==> TargetsMatch(p, es[0].target, result.target)) then Some(0)
    else match FirstWaiting(p, es[1..], result, sameTarget)
      case None => None
      case Some(i) => Some(i + 1)
  }

  /** A target match is preferred; failing that, the type alone decides. */
  function Matching(p: Policy, es: seq<Expectation>, result: ValidationResult): (found: Option<nat>)
    ensures found.Some? ==> found.value < |es| && Waits(es[found.value], result)
    ensures found.None? ==> forall i :: 0 <= i < |es| ==> !Waits(es[i], result)
  {
    var exact := FirstWaiting(p, es, result, true);
    if exact.Some? then exact else FirstWaiting(p, es, result, false)
  }

  /** In a suite keyed by type the targets never decide: the one pending expectation of the type is chosen. */
  lemma TargetsNeverDecide(p: Policy, es: seq<Expectation>, result: ValidationResult, i: nat)
    requires i < |es| && Waits(es[i], result)
    requires forall j, k :: 0 <= j < k < |es| ==> es[j].checkType != es[k].checkType
    ensures Matching(p, es, result) == Some(i)
  {
    var found := Matching(p, es, result);
    assert found.Some? && Waits(es[found.value], result);
  }

  function Required(es: seq<Expectation>): seq<Expectation> {
    if es == [] then [] else (if es[0].required then [es[0]] else []) + Required(es[1..])
  }

  function StatusOf(es: seq<Expectation>): SuiteStatus {
    var required := Required(es);
    if required == [] then Missing
    else if exists i :: 0 <= i < |required| && required[i].status == CheckStatus.Failed then SuiteStatus.Failed
    else if forall i :: 0 <= i < |required| ==> required[i].status == CheckStatus.Passed then SuiteStatus.Passed
    else Incomplete
  }

  lemma {:induction false} AllRequired(es: seq<Expectation>)
    requires forall i :: 0 <= i < |es| ==> es[i].required
    ensures Required(es) == es
  {
    if es != [] { AllRequired(es[1..]); }
  }
}
