/** Resolving a partial workload update against the default workload, field by
    field, as `updateWorkloadRequirements` does (src/server/tools/index.ts:42-50). */
module Requirements {
  import opened Wrappers
  import opened Types

  /** The tool's input: every field may be missing (`null` or `undefined`). */
  datatype PartialRequirements = PartialRequirements(
    title: Option<string>,
    description: Option<string>,
    monthlyRequests: Option<real>,
    dataPerRequestKB: Option<real>,
    latencySensitivity: Option<LatencySensitivity>,
    dataResidency: Option<DataResidency>,
    sensitivity: Option<Sensitivity>,
    complexity: Option<Complexity>,
    style: Option<Style>)

  /** An update that supplies nothing. */
  const NoUpdate := PartialRequirements(None, None, None, None, None, None, None, None, None)

  /** An update that supplies every field of `r`. */
  function Supply(r: WorkloadRequirements): PartialRequirements {
    PartialRequirements(
      Some(r.title), Some(r.description), Some(r.monthlyRequests), Some(r.dataPerRequestKB),
      Some(r.latencySensitivity), Some(r.dataResidency), Some(r.sensitivity),
      Some(r.complexity), Some(r.style))
  }

  // A field-indexed view of the two records, so that properties can be
  // stated once for all nine fields.

  datatype Field =
    | FTitle | FDescription | FMonthlyRequests | FDataPerRequestKB
    | FLatencySensitivity | FDataResidency | FSensitivity | FComplexity | FStyle

  datatype Value =
    | VText(s: string)
    | VNumber(n: real)
    | VLatency(l: LatencySensitivity)
    | VResidency(d: DataResidency)
    | VSensitivity(p: Sensitivity)
    | VComplexity(c: Complexity)
    | VStyle(y: Style)

  /** The value of field `f` of a full record. */
  function Get(r: WorkloadRequirements, f: Field): Value {
    match f
    case FTitle => VText(r.title)
    case FDescription => VText(r.description)
    case FMonthlyRequests => VNumber(r.monthlyRequests)
    case FDataPerRequestKB => VNumber(r.dataPerRequestKB)
    case FLatencySensitivity => VLatency(r.latencySensitivity)
    case FDataResidency => VResidency(r.dataResidency)
    case FSensitivity => VSensitivity(r.sensitivity)
    case FComplexity => VComplexity(r.complexity)
    case FStyle => VStyle(r.style)
  }

  /** The value of field `f` of an update, if it supplies one. */
  function GetPartial(p: PartialRequirements, f: Field): Option<Value> {
    match f
    case FTitle => if p.title.Some? then Some(VText(p.title.value)) else None
    case FDescription => if p.description.Some? then Some(VText(p.description.value)) else None
    case FMonthlyRequests => if p.monthlyRequests.Some? then Some(VNumber(p.monthlyRequests.value)) else None
    case FDataPerRequestKB => if p.dataPerRequestKB.Some? then Some(VNumber(p.dataPerRequestKB.value)) else None
    case FLatencySensitivity => if p.latencySensitivity.Some? then Some(VLatency(p.latencySensitivity.value)) else None
    case FDataResidency => if p.dataResidency.Some? then Some(VResidency(p.dataResidency.value)) else None
    case FSensitivity => if p.sensitivity.Some? then Some(VSensitivity(p.sensitivity.value)) else None
    case FComplexity => if p.complexity.Some? then Some(VComplexity(p.complexity.value)) else None
    case FStyle => if p.style.Some? then Some(VStyle(p.style.value)) else None
  }

  /** Two full records that agree on all nine fields are the same record. */
  lemma FieldsDetermineRecord(a: WorkloadRequirements, b: WorkloadRequirements)
    requires forall f: Field :: Get(a, f) == Get(b, f)
    ensures a == b
  {
    assert Get(a, FTitle) == Get(b, FTitle);
    assert Get(a, FDescription) == Get(b, FDescription);
    assert Get(a, FMonthlyRequests) == Get(b, FMonthlyRequests);
    assert Get(a, FDataPerRequestKB) == Get(b, FDataPerRequestKB);
    assert Get(a, FLatencySensitivity) == Get(b, FLatencySensitivity);
    assert Get(a, FDataResidency) == Get(b, FDataResidency);
    assert Get(a, FSensitivity) == Get(b, FSensitivity);
    assert Get(a, FComplexity) == Get(b, FComplexity);
    assert Get(a, FStyle) == Get(b, FStyle);
  }

  /** Each field of the resolved record is the update's value when the update
      supplies one and the default's value otherwise. */
  function Resolve(p: PartialRequirements, defaults: WorkloadRequirements): (r: WorkloadRequirements)
    ensures forall f: Field :: Get(r, f) == GetPartial(p, f).GetOr(Get(defaults, f))
  {
    WorkloadRequirements(
      p.title.GetOr(defaults.title),
      p.description.GetOr(defaults.description),
      p.monthlyRequests.GetOr(defaults.monthlyRequests),
      p.dataPerRequestKB.GetOr(defaults.dataPerRequestKB),
      p.latencySensitivity.GetOr(defaults.latencySensitivity),
      p.dataResidency.GetOr(defaults.dataResidency),
      p.sensitivity.GetOr(defaults.sensitivity),
      p.complexity.GetOr(defaults.complexity),
      p.style.GetOr(defaults.style))
  }

  /** Fields are resolved independently: a field of the result depends on that
      field of the update and of the default only. */
  lemma ResolveIsFieldIndependent(p: PartialRequirements, q: PartialRequirements,
                                  d: WorkloadRequirements, e: WorkloadRequirements, f: Field)
    requires GetPartial(p, f) == GetPartial(q, f) && Get(d, f) == Get(e, f)
    ensures Get(Resolve(p, d), f) == Get(Resolve(q, e), f)
  {
  }

  /** An update that supplies nothing resolves to the defaults. */
  lemma ResolveNoUpdate(d: WorkloadRequirements)
    ensures Resolve(NoUpdate, d) == d
  {
  }

  /** An update that supplies every field resolves to itself, whatever the defaults. */
  lemma ResolveSupplied(r: WorkloadRequirements, d: WorkloadRequirements)
    ensures Resolve(Supply(r), d) == r
  {
  }

  /** The result is the defaults exactly when every field the update supplies
      already has the default's value. So a supplied `""` or `0` is kept: only an
      absent field falls back to the default. */
  lemma ResolveKeepsDefaultsIff(p: PartialRequirements, d: WorkloadRequirements)
    ensures Resolve(p, d) == d <==>
            forall f: Field :: GetPartial(p, f) == None || GetPartial(p, f) == Some(Get(d, f))
  {
    if forall f: Field :: GetPartial(p, f) == None || GetPartial(p, f) == Some(Get(d, f)) {
      FieldsDetermineRecord(Resolve(p, d), d);
    }
  }
}
