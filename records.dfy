/** The RCA records of src/schema/case.ts and src/schema/hypothesis.ts, and the field
    update rules the store applies to them. */
module Records {
  import opened Wrappers
  import opened Text

  datatype Severity = SEV1 | SEV2 | SEV3
  datatype CaseStatus = Active | Archived

  datatype Observation = Observation(
    id: string, caseId: string, what: string, context: Option<string>,
    gitBranch: Option<string>, gitCommit: Option<string>, deployEnv: Option<string>,
    createdAt: string)

  datatype Impact = Impact(
    id: string, caseId: string, metric: string, value: string, scope: Option<string>,
    createdAt: string)

  datatype Hypothesis = Hypothesis(
    id: string, caseId: string, text: string, rationale: Option<string>,
    confidence: Option<real>, createdAt: string, updatedAt: string)

  /** `testMethod` is the source's `method` field (a Dafny keyword). */
  datatype TestPlan = TestPlan(
    id: string, caseId: string, hypothesisId: string, testMethod: string, expected: string,
    metric: Option<string>, priority: Option<real>,
    gitBranch: Option<string>, gitCommit: Option<string>, deployEnv: Option<string>,
    createdAt: string, updatedAt: string)

  datatype TestResult = TestResult(
    id: string, testPlanId: string, observed: string, createdAt: string, updatedAt: string)

  datatype Conclusion = Conclusion(
    id: string, caseId: string, rootCauses: seq<string>, fix: string,
    followUps: Option<seq<string>>, createdAt: string, updatedAt: string)

  datatype Case = Case(
    id: string, title: string, severity: Severity, tags: seq<string>, status: CaseStatus,
    gitBranch: Option<string>, gitCommit: Option<string>, deployEnv: Option<string>,
    observations: seq<Observation>, impacts: seq<Impact>, hypotheses: seq<Hypothesis>,
    tests: seq<TestPlan>, results: seq<TestResult>, conclusion: Option<Conclusion>,
    createdAt: string, updatedAt: string)

  function CaseKey(c: Case): string { c.id }
  function ObservationKey(o: Observation): string { o.id }
  function HypothesisKey(h: Hypothesis): string { h.id }
  function TestPlanKey(t: TestPlan): string { t.id }

  /** `h.confidence ?? 0` */
  function ConfidenceOf(h: Hypothesis): real { h.confidence.GetOr(0.0) }

  /** `t.priority ?? 0` */
  function PriorityOf(t: TestPlan): real { t.priority.GetOr(0.0) }

  /** An update request for an optional field: `undefined` (keep), `null` (clear) or a value. */
  datatype Patch<T> = Keep | Clear | Put(value: T)

  /** Optional text as stored: trimmed, and absent when missing or blank. */
  function OptionalText(s: Option<string>): (r: Option<string>)
    ensures r.None? <==> s.None? || IsBlank(s.value)
    ensures r.Some? ==> r.value == Trim(s.value)
    ensures r.Some? ==> r.value != "" && IsTrimmed(r.value)
  {
    match s
    case None => None
    case Some(v) => if Trim(v) == "" then None else Some(Trim(v))
  }

  /** The three-way rule for an optional text field: keep it, clear it, or set it to the
      trimmed value, where a blank value clears. */
  function PatchText(current: Option<string>, p: Patch<string>): (r: Option<string>)
    ensures p.Keep? ==> r == current
    ensures p.Clear? ==> r.None?
    ensures p.Put? ==> r.None? == IsBlank(p.value)
    ensures p.Put? && r.Some? ==> r.value == Trim(p.value)
    ensures !p.Keep? && r.Some? ==> r.value != "" && IsTrimmed(r.value)
  {
    match p
    case Keep => current
    case Clear => None
    case Put(v) => OptionalText(Some(v))
  }

  /** The same rule for an optional number: keep, clear, or set as given. */
  function PatchValue<T>(current: Option<T>, p: Patch<T>): (r: Option<T>)
    ensures p.Keep? ==> r == current
    ensures p.Clear? ==> r.None?
    ensures p.Put? ==> r == Some(p.value)
  {
    match p
    case Keep => current
    case Clear => None
    case Put(v) => Some(v)
  }

  /** A required text field: replaced by the trimmed value unless that is missing or blank,
      in which case the original stays. */
  function PatchRequired(current: string, p: Option<string>): (r: string)
    ensures p.None? || IsBlank(p.value) ==> r == current
    ensures p.Some? && !IsBlank(p.value) ==> r == Trim(p.value) && r != ""
  {
    if p.Some? && Trim(p.value) != "" then Trim(p.value) else current
  }

  /** Applying the same text update twice has the effect of applying it once. */
  lemma PatchTextIdempotent(current: Option<string>, p: Patch<string>)
    ensures PatchText(PatchText(current, p), p) == PatchText(current, p)
  {
    if p.Put? { TrimIdempotent(p.value); }
  }
}
