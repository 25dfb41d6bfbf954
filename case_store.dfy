/** The case store of src/data/caseStore.ts: the cases file is read and normalised, one case
    is changed, and the whole list is written back. The store keeps the loaded list in
    `Store.cases`; identifiers and the current time are parameters of each operation. */
module CaseStore {
  import opened Wrappers
  import opened Seqs
  import opened Text
  import opened Tags
  import opened Records

  // ---------------------------------------------------------------------------------------
  // Persistence

  /** A case as found in the cases file: apart from id, title and severity every field may
      be missing. */
  datatype RawCase = RawCase(
    id: string, title: string, severity: Severity, tags: Option<seq<string>>,
    status: Option<CaseStatus>,
    gitBranch: Option<string>, gitCommit: Option<string>, deployEnv: Option<string>,
    observations: Option<seq<Observation>>, impacts: Option<seq<Impact>>,
    hypotheses: Option<seq<Hypothesis>>, tests: Option<seq<TestPlan>>,
    results: Option<seq<TestResult>>, conclusion: Option<Conclusion>,
    createdAt: Option<string>, updatedAt: Option<string>)

  /** Completes a raw record: `now` is the time read while loading. */
  function NormalizeCase(r: RawCase, now: string): (c: Case)
    ensures c.id == r.id && c.title == r.title && c.severity == r.severity
    ensures c.tags == NormalizeTags(r.tags) && NormalTags(c.tags)
    ensures r.tags.Some? && NormalTags(r.tags.value) ==> c.tags == r.tags.value
    ensures r.tags.None? ==> c.tags == []
    ensures c.status == (if r.status.Some? then r.status.value else Active)
    ensures c.gitBranch == r.gitBranch && c.gitCommit == r.gitCommit && c.deployEnv == r.deployEnv
    ensures c.observations == (if r.observations.Some? then r.observations.value else [])
    ensures c.impacts == (if r.impacts.Some? then r.impacts.value else [])
    ensures c.hypotheses == (if r.hypotheses.Some? then r.hypotheses.value else [])
    ensures c.tests == (if r.tests.Some? then r.tests.value else [])
    ensures c.results == (if r.results.Some? then r.results.value else [])
    ensures c.conclusion == r.conclusion
    ensures c.createdAt == (if r.createdAt.Some? then r.createdAt.value else now)
    ensures c.updatedAt ==
      (if r.updatedAt.Some? then r.updatedAt.value
       else if r.createdAt.Some? then r.createdAt.value
       else now)
  {
    var tags := NormalizeTags(r.tags);
    assert r.tags.Some? && NormalTags(r.tags.value) ==> tags == r.tags.value by {
      if r.tags.Some? && NormalTags(r.tags.value) {
        NormalizeNormalTags(r.tags.value);
      }
    }
    Case(r.id, r.title, r.severity, tags, r.status.GetOr(Active),
         r.gitBranch, r.gitCommit, r.deployEnv,
         r.observations.GetOr([]), r.impacts.GetOr([]), r.hypotheses.GetOr([]),
         r.tests.GetOr([]), r.results.GetOr([]), r.conclusion,
         r.createdAt.GetOr(now), r.updatedAt.GetOr(r.createdAt.GetOr(now)))
  }

  /** The record written for a case: every field present. */
  function ToRaw(c: Case): RawCase {
    RawCase(c.id, c.title, c.severity, Some(c.tags), Some(c.status),
            c.gitBranch, c.gitCommit, c.deployEnv,
            Some(c.observations), Some(c.impacts), Some(c.hypotheses),
            Some(c.tests), Some(c.results), c.conclusion,
            Some(c.createdAt), Some(c.updatedAt))
  }

  /** Every case carries tags in normal form. */
  predicate AllNormal(cases: seq<Case>) {
    forall i :: 0 <= i < |cases| ==> NormalTags(cases[i].tags)
  }

  lemma AppendNormal(cases: seq<Case>, c: Case)
    requires AllNormal(cases) && NormalTags(c.tags)
    ensures AllNormal(cases + [c])
  {
  }

  function LoadCases(records: seq<RawCase>, now: string): (cases: seq<Case>)
    ensures |cases| == |records|
    ensures forall i :: 0 <= i < |records| ==> cases[i] == NormalizeCase(records[i], now)
    ensures AllNormal(cases)
  {
    MapSeq(records, (r: RawCase) => NormalizeCase(r, now))
  }

  function SaveCases(cases: seq<Case>): (records: seq<RawCase>)
    ensures |records| == |cases|
    ensures forall i :: 0 <= i < |cases| ==> records[i] == ToRaw(cases[i])
  {
    MapSeq(cases, ToRaw)
  }

  /** Saving normalised cases and loading them again gives the same cases, whatever the
      time of the load: this is why every operation may treat its load as the list it
      saved last. */
  lemma LoadSaveRoundTrip(cases: seq<Case>, now: string)
    requires AllNormal(cases)
    ensures LoadCases(SaveCases(cases), now) == cases
  {
    var back := LoadCases(SaveCases(cases), now);
    forall i | 0 <= i < |cases| ensures back[i] == cases[i] {
      assert back[i] == NormalizeCase(ToRaw(cases[i]), now);
    }
  }

  /** Loading is idempotent: re-saving what was loaded and loading again changes nothing. */
  lemma LoadCasesIdempotent(records: seq<RawCase>, now: string, later: string)
    ensures LoadCases(SaveCases(LoadCases(records, now)), later) == LoadCases(records, now)
  {
    LoadSaveRoundTrip(LoadCases(records, now), later);
  }

  /** `getCase`: the first case with the id, or `None` (the source's `null`). */
  function GetCase(cases: seq<Case>, caseId: string): (r: Option<Case>)
    ensures r.None? <==> forall i :: 0 <= i < |cases| ==> cases[i].id != caseId
    ensures r.Some? ==> r.value.id == caseId
    ensures r.Some? ==> exists k :: 0 <= k < |cases| && cases[k] == r.value &&
                          forall j :: 0 <= j < k ==> cases[j].id != caseId
  {
    match FindIndex(cases, CaseKey, caseId)
    case None => None
    case Some(k) => Some(cases[k])
  }

  // ---------------------------------------------------------------------------------------
  // Error messages

  function CaseNotFound(caseId: string): string {
    "Case " + caseId + " not found"
  }

  function ObservationNotFound(observationId: string, caseId: string): string {
    "Observation " + observationId + " not found in case " + caseId
  }

  function HypothesisNotFound(hypothesisId: string, caseId: string): string {
    "Hypothesis " + hypothesisId + " not found in case " + caseId
  }

  function TestPlanNotFound(testPlanId: string, caseId: string): string {
    "Test plan " + testPlanId + " not found in case " + caseId
  }

  // ---------------------------------------------------------------------------------------
  // New records

  datatype CreateCaseInput = CreateCaseInput(
    title: string, severity: Severity, tags: seq<string>,
    gitBranch: Option<string>, gitCommit: Option<string>, deployEnv: Option<string>)

  /** A new case is active and empty, created and updated at the same instant, with its
      tags in normal form and its metadata as given. */
  function NewCase(input: CreateCaseInput, id: string, now: string): (c: Case)
    ensures c.id == id && c.title == input.title && c.severity == input.severity
    ensures c.tags == NormalizeTags(Some(input.tags)) && NormalTags(c.tags)
    ensures forall j :: 0 <= j < |input.tags| && Trim(input.tags[j]) != "" ==> Trim(input.tags[j]) in c.tags
    ensures forall i :: 0 <= i < |c.tags| ==> exists j :: 0 <= j < |input.tags| && Trim(input.tags[j]) == c.tags[i]
    ensures c.status == Active
    ensures c.gitBranch == input.gitBranch && c.gitCommit == input.gitCommit && c.deployEnv == input.deployEnv
    ensures c.observations == [] && c.impacts == [] && c.hypotheses == [] && c.tests == [] && c.results == []
    ensures c.conclusion.None?
    ensures c.createdAt == now && c.updatedAt == now
  {
    var tags := SortedCleanTags(input.tags);
    assert tags == NormalizeTags(Some(input.tags));
    Case(id, input.title, input.severity, tags, Active,
         input.gitBranch, input.gitCommit, input.deployEnv,
         [], [], [], [], [], None, now, now)
  }

  datatype AddObservationInput = AddObservationInput(
    caseId: string, what: string, context: Option<string>,
    gitBranch: Option<string>, gitCommit: Option<string>, deployEnv: Option<string>)

  /** A new observation: `context` is trimmed and a blank one is stored as absent; `what`
      and the metadata are stored as given. */
  function NewObservation(input: AddObservationInput, id: string, now: string): (o: Observation)
    ensures o.id == id && o.caseId == input.caseId && o.what == input.what
    ensures o.context.None? <==> input.context.None? || IsBlank(input.context.value)
    ensures o.context.Some? ==> o.context.value == Trim(input.context.value)
    ensures o.gitBranch == input.gitBranch && o.gitCommit == input.gitCommit && o.deployEnv == input.deployEnv
    ensures o.createdAt == now
  {
    Observation(id, input.caseId, input.what, OptionalText(input.context),
                input.gitBranch, input.gitCommit, input.deployEnv, now)
  }

  datatype AddHypothesisInput = AddHypothesisInput(
    caseId: string, text: string, rationale: Option<string>, confidence: Option<real>)

  /** A new hypothesis: a blank rationale is stored as absent. */
  function NewHypothesis(input: AddHypothesisInput, id: string, now: string): (h: Hypothesis)
    ensures h.id == id && h.caseId == input.caseId && h.text == input.text
    ensures h.rationale.None? <==> input.rationale.None? || IsBlank(input.rationale.value)
    ensures h.rationale.Some? ==> h.rationale.value == Trim(input.rationale.value)
    ensures h.confidence == input.confidence
    ensures h.createdAt == now && h.updatedAt == now
  {
    Hypothesis(id, input.caseId, input.text, OptionalText(input.rationale), input.confidence, now, now)
  }

  datatype AddTestPlanInput = AddTestPlanInput(
    caseId: string, hypothesisId: string, testMethod: string, expected: string,
    metric: Option<string>,
    gitBranch: Option<string>, gitCommit: Option<string>, deployEnv: Option<string>)

  /** A new test plan: a blank metric is stored as absent; a new plan has no priority. */
  function NewTestPlan(input: AddTestPlanInput, id: string, now: string): (t: TestPlan)
    ensures t.id == id && t.caseId == input.caseId && t.hypothesisId == input.hypothesisId
    ensures t.testMethod == input.testMethod && t.expected == input.expected
    ensures t.metric.None? <==> input.metric.None? || IsBlank(input.metric.value)
    ensures t.metric.Some? ==> t.metric.value == Trim(input.metric.value)
    ensures t.priority.None?
    ensures t.gitBranch == input.gitBranch && t.gitCommit == input.gitCommit && t.deployEnv == input.deployEnv
    ensures t.createdAt == now && t.updatedAt == now
  {
    TestPlan(id, input.caseId, input.hypothesisId, input.testMethod, input.expected,
             OptionalText(input.metric), None,
             input.gitBranch, input.gitCommit, input.deployEnv, now, now)
  }

  // ---------------------------------------------------------------------------------------
  // Field updates

  datatype UpdateCaseInput = UpdateCaseInput(
    caseId: string, title: Option<string>, severity: Option<Severity>,
    tags: Option<seq<string>>, status: Option<CaseStatus>,
    gitBranch: Patch<string>, gitCommit: Patch<string>, deployEnv: Patch<string>)

  /** `updateCase` on one case: the identity, the collections, the conclusion and the
      creation time stay; each requested field follows its update rule. */
  function UpdatedCase(c: Case, input: UpdateCaseInput, now: string): (u: Case)
    ensures u.id == c.id && u.createdAt == c.createdAt && u.conclusion == c.conclusion
    ensures u.observations == c.observations && u.impacts == c.impacts
    ensures u.hypotheses == c.hypotheses && u.tests == c.tests && u.results == c.results
    ensures u.title == PatchRequired(c.title, input.title)
    ensures u.severity == (if input.severity.Some? then input.severity.value else c.severity)
    ensures input.tags.None? ==> u.tags == c.tags
    ensures input.tags.Some? ==> u.tags == NormalizeTags(input.tags) && NormalTags(u.tags)
    ensures u.status == (if input.status.Some? then input.status.value else c.status)
    ensures u.gitBranch == PatchText(c.gitBranch, input.gitBranch)
    ensures u.gitCommit == PatchText(c.gitCommit, input.gitCommit)
    ensures u.deployEnv == PatchText(c.deployEnv, input.deployEnv)
    ensures u.updatedAt == now
  {
    c.(title := PatchRequired(c.title, input.title),
       severity := input.severity.GetOr(c.severity),
       tags := if input.tags.Some? then NormalizeTags(input.tags) else c.tags,
       status := input.status.GetOr(c.status),
       gitBranch := PatchText(c.gitBranch, input.gitBranch),
       gitCommit := PatchText(c.gitCommit, input.gitCommit),
       deployEnv := PatchText(c.deployEnv, input.deployEnv),
       updatedAt := now)
  }

  /** Repeating a case update changes nothing further. */
  lemma UpdatedCaseIdempotent(c: Case, input: UpdateCaseInput, now: string)
    ensures UpdatedCase(UpdatedCase(c, input, now), input, now) == UpdatedCase(c, input, now)
  {
    if input.tags.Some? {
      NormalizeNormalTags(NormalizeTags(input.tags));
    }
    PatchTextIdempotent(c.gitBranch, input.gitBranch);
    PatchTextIdempotent(c.gitCommit, input.gitCommit);
    PatchTextIdempotent(c.deployEnv, input.deployEnv);
  }

  datatype UpdateObservationInput = UpdateObservationInput(
    caseId: string, observationId: string, what: Option<string>,
    context: Patch<string>, gitBranch: Patch<string>, gitCommit: Patch<string>,
    deployEnv: Patch<string>)

  /** `updateObservation` on one observation. Observations carry no update time. */
  function UpdatedObservation(o: Observation, input: UpdateObservationInput): (u: Observation)
    ensures u.id == o.id && u.caseId == o.caseId && u.createdAt == o.createdAt
    ensures u.what == PatchRequired(o.what, input.what)
    ensures u.context == PatchText(o.context, input.context)
    ensures u.gitBranch == PatchText(o.gitBranch, input.gitBranch)
    ensures u.gitCommit == PatchText(o.gitCommit, input.gitCommit)
    ensures u.deployEnv == PatchText(o.deployEnv, input.deployEnv)
  {
    o.(what := PatchRequired(o.what, input.what),
       context := PatchText(o.context, input.context),
       gitBranch := PatchText(o.gitBranch, input.gitBranch),
       gitCommit := PatchText(o.gitCommit, input.gitCommit),
       deployEnv := PatchText(o.deployEnv, input.deployEnv))
  }

  lemma UpdatedObservationIdempotent(o: Observation, input: UpdateObservationInput)
    ensures UpdatedObservation(UpdatedObservation(o, input), input) == UpdatedObservation(o, input)
  {
    PatchTextIdempotent(o.context, input.context);
    PatchTextIdempotent(o.gitBranch, input.gitBranch);
    PatchTextIdempotent(o.gitCommit, input.gitCommit);
    PatchTextIdempotent(o.deployEnv, input.deployEnv);
  }

  datatype UpdateHypothesisInput = UpdateHypothesisInput(
    caseId: string, hypothesisId: string, text: Option<string>,
    rationale: Patch<string>, confidence: Patch<real>)

  function UpdatedHypothesis(h: Hypothesis, input: UpdateHypothesisInput, now: string): (u: Hypothesis)
    ensures u.id == h.id && u.caseId == h.caseId && u.createdAt == h.createdAt
    ensures u.text == PatchRequired(h.text, input.text)
    ensures u.rationale == PatchText(h.rationale, input.rationale)
    ensures u.confidence == PatchValue(h.confidence, input.confidence)
    ensures u.updatedAt == now
  {
    h.(text := PatchRequired(h.text, input.text),
       rationale := PatchText(h.rationale, input.rationale),
       confidence := PatchValue(h.confidence, input.confidence),
       updatedAt := now)
  }

  lemma UpdatedHypothesisIdempotent(h: Hypothesis, input: UpdateHypothesisInput, now: string)
    ensures UpdatedHypothesis(UpdatedHypothesis(h, input, now), input, now) == UpdatedHypothesis(h, input, now)
  {
    PatchTextIdempotent(h.rationale, input.rationale);
  }

  /** The update `finalizeHypothesis` asks for: confidence 1.0, nothing else. */
  function FinalizeRequest(caseId: string, hypothesisId: string): UpdateHypothesisInput {
    UpdateHypothesisInput(caseId, hypothesisId, None, Keep, Put(1.0))
  }

  /** Finalising changes a hypothesis' confidence to 1.0 and its update time, nothing else. */
  lemma FinalizeOnlySetsConfidence(h: Hypothesis, caseId: string, hypothesisId: string, now: string)
    ensures UpdatedHypothesis(h, FinalizeRequest(caseId, hypothesisId), now)
         == h.(confidence := Some(1.0), updatedAt := now)
  {
  }

  datatype UpdateTestPlanInput = UpdateTestPlanInput(
    caseId: string, testPlanId: string, testMethod: Option<string>, expected: Option<string>,
    metric: Patch<string>, priority: Patch<real>,
    gitBranch: Patch<string>, gitCommit: Patch<string>, deployEnv: Patch<string>)

  function UpdatedTestPlan(t: TestPlan, input: UpdateTestPlanInput, now: string): (u: TestPlan)
    ensures u.id == t.id && u.caseId == t.caseId && u.hypothesisId == t.hypothesisId
    ensures u.createdAt == t.createdAt
    ensures u.testMethod == PatchRequired(t.testMethod, input.testMethod)
    ensures u.expected == PatchRequired(t.expected, input.expected)
    ensures u.metric == PatchText(t.metric, input.metric)
    ensures u.priority == PatchValue(t.priority, input.priority)
    ensures u.gitBranch == PatchText(t.gitBranch, input.gitBranch)
    ensures u.gitCommit == PatchText(t.gitCommit, input.gitCommit)
    ensures u.deployEnv == PatchText(t.deployEnv, input.deployEnv)
    ensures u.updatedAt == now
  {
    t.(testMethod := PatchRequired(t.testMethod, input.testMethod),
       expected := PatchRequired(t.expected, input.expected),
       metric := PatchText(t.metric, input.metric),
       priority := PatchValue(t.priority, input.priority),
       gitBranch := PatchText(t.gitBranch, input.gitBranch),
       gitCommit := PatchText(t.gitCommit, input.gitCommit),
       deployEnv := PatchText(t.deployEnv, input.deployEnv),
       updatedAt := now)
  }

  lemma UpdatedTestPlanIdempotent(t: TestPlan, input: UpdateTestPlanInput, now: string)
    ensures UpdatedTestPlan(UpdatedTestPlan(t, input, now), input, now) == UpdatedTestPlan(t, input, now)
  {
    PatchTextIdempotent(t.metric, input.metric);
    PatchTextIdempotent(t.gitBranch, input.gitBranch);
    PatchTextIdempotent(t.gitCommit, input.gitCommit);
    PatchTextIdempotent(t.deployEnv, input.deployEnv);
  }

  // ---------------------------------------------------------------------------------------
  // Provisional clean-up

  /** `(h.confidence ?? 0) < threshold` */
  function IsProvisional(threshold: real): Hypothesis -> bool {
    (h: Hypothesis) => ConfidenceOf(h) < threshold
  }

  function IdsOf(hypotheses: seq<Hypothesis>): set<string> {
    set i | 0 <= i < |hypotheses| :: hypotheses[i].id
  }

  /** The test-plan rule as the code writes it: `(t.priority ?? 0) > threshold`, or the plan's
      hypothesis is among `deleted`. The store uses this rule. */
  function IsDiscardableAsWritten(threshold: real, deleted: set<string>): TestPlan -> bool {
    (t: TestPlan) => PriorityOf(t) > threshold || t.hypothesisId in deleted
  }

  /** The test-plan rule as the comment above it states it: the priority is above the
      threshold or missing, or the plan's hypothesis is among `deleted`. */
  function IsDiscardable(threshold: real, deleted: set<string>): TestPlan -> bool {
    (t: TestPlan) => t.priority.None? || t.priority.value > threshold || t.hypothesisId in deleted
  }

  /** As written, a plan without a priority is kept under every threshold the tool accepts,
      unless its hypothesis goes; the stated rule deletes it. */
  lemma UnprioritisedPlanKeptAsWritten(threshold: real, deleted: set<string>, t: TestPlan)
    requires threshold >= 0.0 && t.priority.None? && t.hypothesisId !in deleted
    ensures !IsDiscardableAsWritten(threshold, deleted)(t)
    ensures IsDiscardable(threshold, deleted)(t)
  {
  }

  /** The two rules differ only on plans without a priority. */
  lemma DiscardRulesAgreeWithPriority(threshold: real, deleted: set<string>, t: TestPlan)
    requires t.priority.Some?
    ensures IsDiscardable(threshold, deleted)(t) == IsDiscardableAsWritten(threshold, deleted)(t)
  {
  }

  /** A `filter` pass whose callback also pushes every element it drops onto a second list. */
  method SplitBy<T>(s: seq<T>, drop: T -> bool) returns (kept: seq<T>, dropped: seq<T>)
    ensures dropped == Filter(s, drop)
    ensures kept == Filter(s, Not(drop))
  {
    kept, dropped := [], [];
    for i := 0 to |s|
      invariant dropped == Filter(s[..i], drop)
      invariant kept == Filter(s[..i], Not(drop))
    {
      assert s[..i + 1] == s[..i] + [s[i]];
      FilterSnoc(s[..i], s[i], drop);
      FilterSnoc(s[..i], s[i], Not(drop));
      if drop(s[i]) {
        dropped := dropped + [s[i]];
      } else {
        kept := kept + [s[i]];
      }
    }
    assert s[..|s|] == s;
  }

  /** The two filter passes of `bulkDeleteProvisional`: hypotheses first, then the test plans
      against the ids of the hypotheses the first pass deleted. */
  method PartitionProvisional(hypotheses: seq<Hypothesis>, tests: seq<TestPlan>,
                              confidenceThreshold: real, priorityThreshold: real)
    returns (remainingHypotheses: seq<Hypothesis>, deletedHypotheses: seq<Hypothesis>,
             remainingTests: seq<TestPlan>, deletedTests: seq<TestPlan>)
    ensures deletedHypotheses == Filter(hypotheses, IsProvisional(confidenceThreshold))
    ensures remainingHypotheses == Filter(hypotheses, Not(IsProvisional(confidenceThreshold)))
    ensures deletedTests == Filter(tests, IsDiscardableAsWritten(priorityThreshold, IdsOf(deletedHypotheses)))
    ensures remainingTests == Filter(tests, Not(IsDiscardableAsWritten(priorityThreshold, IdsOf(deletedHypotheses))))
  {
    remainingHypotheses, deletedHypotheses := SplitBy(hypotheses, IsProvisional(confidenceThreshold));
    var deletedIds := IdsOf(deletedHypotheses);
    remainingTests, deletedTests := SplitBy(tests, IsDiscardableAsWritten(priorityThreshold, deletedIds));
  }

  /** What the hypothesis pass guarantees: deleted and remaining lists together are the
      original, and a hypothesis is deleted exactly when its confidence is below the
      threshold. */
  lemma ProvisionalPartition(hypotheses: seq<Hypothesis>, confidenceThreshold: real)
    ensures var deleted := Filter(hypotheses, IsProvisional(confidenceThreshold));
            var kept := Filter(hypotheses, Not(IsProvisional(confidenceThreshold)));
            && multiset(deleted) + multiset(kept) == multiset(hypotheses)
            && (forall i :: 0 <= i < |hypotheses| ==>
                  (hypotheses[i] in deleted <==> ConfidenceOf(hypotheses[i]) < confidenceThreshold))
  {
    var provisional := IsProvisional(confidenceThreshold);
    FilterPartition(hypotheses, provisional, Not(provisional));
    FilterKeeps(hypotheses, provisional);
  }

  /** What the test-plan pass of the store guarantees, whichever hypotheses went: deleted and
      remaining plans together are the original list, a plan is deleted exactly when
      `(priority ?? 0)` is above the threshold or its hypothesis was deleted, and every
      remaining plan has `(priority ?? 0)` at most the threshold and refers to none of the
      deleted hypotheses. */
  lemma PlanPartitionAsWritten(tests: seq<TestPlan>, priorityThreshold: real, deleted: seq<Hypothesis>)
    ensures var gone := IsDiscardableAsWritten(priorityThreshold, IdsOf(deleted));
            var remaining := Filter(tests, Not(gone));
            && multiset(Filter(tests, gone)) + multiset(remaining) == multiset(tests)
            && (forall i :: 0 <= i < |tests| ==>
                  (tests[i] in Filter(tests, gone) <==>
                     PriorityOf(tests[i]) > priorityThreshold || tests[i].hypothesisId in IdsOf(deleted)))
            && (forall i :: 0 <= i < |remaining| ==>
                  && PriorityOf(remaining[i]) <= priorityThreshold
                  && forall j :: 0 <= j < |deleted| ==> remaining[i].hypothesisId != deleted[j].id)
  {
    var gone := IsDiscardableAsWritten(priorityThreshold, IdsOf(deleted));
    FilterPartition(tests, gone, Not(gone));
    FilterKeeps(tests, gone);
    var remaining := Filter(tests, Not(gone));
    forall i, j | 0 <= i < |remaining| && 0 <= j < |deleted|
      ensures remaining[i].hypothesisId != deleted[j].id
    {
      assert deleted[j].id in IdsOf(deleted);
      assert Not(gone)(remaining[i]);
    }
  }

  /** What the test-plan pass would guarantee under the comment's rule: deleted and remaining
      plans together are the original list, and every remaining plan has a priority, at most
      the threshold, and refers to none of the deleted hypotheses. */
  lemma PlanPartition(tests: seq<TestPlan>, priorityThreshold: real, deleted: seq<Hypothesis>)
    ensures var gone := IsDiscardable(priorityThreshold, IdsOf(deleted));
            var remaining := Filter(tests, Not(gone));
            && multiset(Filter(tests, gone)) + multiset(remaining) == multiset(tests)
            && (forall i :: 0 <= i < |remaining| ==>
                  && remaining[i].priority.Some?
                  && remaining[i].priority.value <= priorityThreshold
                  && forall j :: 0 <= j < |deleted| ==> remaining[i].hypothesisId != deleted[j].id)
  {
    var gone := IsDiscardable(priorityThreshold, IdsOf(deleted));
    FilterPartition(tests, gone, Not(gone));
    var remaining := Filter(tests, Not(gone));
    forall i, j | 0 <= i < |remaining| && 0 <= j < |deleted|
      ensures remaining[i].hypothesisId != deleted[j].id
    {
      assert deleted[j].id in IdsOf(deleted);
      assert Not(gone)(remaining[i]);
    }
  }

  // ---------------------------------------------------------------------------------------
  // The store

  /** An item an operation added, changed or removed, with the case as saved. */
  datatype Changed<T> = Changed(item: T, updatedCase: Case)

  datatype BulkDeleted = BulkDeleted(
    deletedHypotheses: seq<Hypothesis>, deletedTestPlans: seq<TestPlan>, updatedCase: Case)

  datatype BulkDeleteProvisionalInput = BulkDeleteProvisionalInput(
    caseId: string, confidenceThreshold: Option<real>, priorityThreshold: Option<real>)

  const DefaultConfidenceThreshold: real := 0.5
  const DefaultPriorityThreshold: real := 3.0

  /** The state change of `updateCase`. */
  predicate UpdateCaseEffect(before: seq<Case>, after: seq<Case>, input: UpdateCaseInput,
                             now: string, r: Result<Case>)
  {
    match FindIndex(before, CaseKey, input.caseId)
    case None => r == Err(CaseNotFound(input.caseId)) && after == before
    case Some(k) =>
      r == Ok(UpdatedCase(before[k], input, now)) && after == before[k := r.value]
  }

  /** The state change of `updateObservation`: only the matched observation is replaced. */
  predicate UpdateObservationEffect(before: seq<Case>, after: seq<Case>,
                                    input: UpdateObservationInput, now: string,
                                    r: Result<Changed<Observation>>)
  {
    match FindIndex(before, CaseKey, input.caseId)
    case None => r == Err(CaseNotFound(input.caseId)) && after == before
    case Some(k) =>
      var c := before[k];
      match FindIndex(c.observations, ObservationKey, input.observationId)
      case None =>
        r == Err(ObservationNotFound(input.observationId, input.caseId)) && after == before
      case Some(j) =>
        var o := UpdatedObservation(c.observations[j], input);
        var u := c.(observations := c.observations[j := o], updatedAt := now);
        r == Ok(Changed(o, u)) && after == before[k := u]
  }

  class Store {
    /** The cases as last saved. */
    var cases: seq<Case>

    ghost predicate Valid()
      reads this
    {
      AllNormal(cases)
    }

    /** Opens the store on the records of the cases file. */
    constructor Open(records: seq<RawCase>, now: string)
      ensures cases == LoadCases(records, now)
      ensures Valid()
    {
      cases := LoadCases(records, now);
    }

    /** The records `saveCases` writes. */
    function Saved(): seq<RawCase>
      reads this
    {
      SaveCases(cases)
    }

    method CreateCase(input: CreateCaseInput, id: string, now: string) returns (created: Case)
      requires Valid()
      modifies this
      ensures Valid()
      ensures created == NewCase(input, id, now)
      ensures cases == old(cases) + [created]
    {
      created := NewCase(input, id, now);
      AppendNormal(cases, created);
      cases := cases + [created];
    }

    method AddObservation(input: AddObservationInput, id: string, now: string)
      returns (r: Result<Changed<Observation>>)
      requires Valid()
      modifies this
      ensures Valid()
      ensures match FindIndex(old(cases), CaseKey, input.caseId)
        case None => r == Err(CaseNotFound(input.caseId)) && cases == old(cases)
        case Some(k) =>
          var c := old(cases)[k];
          var o := NewObservation(input, id, now);
          var u := c.(observations := c.observations + [o], updatedAt := now);
          r == Ok(Changed(o, u)) && cases == old(cases)[k := u]
    {
      var found := FindIndex(cases, CaseKey, input.caseId);
      if found.None? {
        return Err(CaseNotFound(input.caseId));
      }
      var k := found.value;
      var observation := NewObservation(input, id, now);
      var updated := cases[k].(observations := cases[k].observations + [observation], updatedAt := now);
      cases := cases[k := updated];
      r := Ok(Changed(observation, updated));
    }

    method AddHypothesis(input: AddHypothesisInput, id: string, now: string)
      returns (r: Result<Changed<Hypothesis>>)
      requires Valid()
      modifies this
      ensures Valid()
      ensures match FindIndex(old(cases), CaseKey, input.caseId)
        case None => r == Err(CaseNotFound(input.caseId)) && cases == old(cases)
        case Some(k) =>
          var c := old(cases)[k];
          var h := NewHypothesis(input, id, now);
          var u := c.(hypotheses := c.hypotheses + [h], updatedAt := now);
          r == Ok(Changed(h, u)) && cases == old(cases)[k := u]
    {
      var found := FindIndex(cases, CaseKey, input.caseId);
      if found.None? {
        return Err(CaseNotFound(input.caseId));
      }
      var k := found.value;
      var hypothesis := NewHypothesis(input, id, now);
      var updated := cases[k].(hypotheses := cases[k].hypotheses + [hypothesis], updatedAt := now);
      cases := cases[k := updated];
      r := Ok(Changed(hypothesis, updated));
    }

    method AddTestPlan(input: AddTestPlanInput, id: string, now: string)
      returns (r: Result<Changed<TestPlan>>)
      requires Valid()
      modifies this
      ensures Valid()
      ensures match FindIndex(old(cases), CaseKey, input.caseId)
        case None => r == Err(CaseNotFound(input.caseId)) && cases == old(cases)
        case Some(k) =>
          var c := old(cases)[k];
          if forall i :: 0 <= i < |c.hypotheses| ==> c.hypotheses[i].id != input.hypothesisId then
            r == Err(HypothesisNotFound(input.hypothesisId, input.caseId)) && cases == old(cases)
          else
            var t := NewTestPlan(input, id, now);
            var u := c.(tests := c.tests + [t], updatedAt := now);
            r == Ok(Changed(t, u)) && cases == old(cases)[k := u]
    {
      var found := FindIndex(cases, CaseKey, input.caseId);
      if found.None? {
        return Err(CaseNotFound(input.caseId));
      }
      var k := found.value;
      if FindIndex(cases[k].hypotheses, HypothesisKey, input.hypothesisId).None? {
        return Err(HypothesisNotFound(input.hypothesisId, input.caseId));
      }
      var testPlan := NewTestPlan(input, id, now);
      var updated := cases[k].(tests := cases[k].tests + [testPlan], updatedAt := now);
      cases := cases[k := updated];
      r := Ok(Changed(testPlan, updated));
    }

    method UpdateCase(input: UpdateCaseInput, now: string) returns (r: Result<Case>)
      requires Valid()
      modifies this
      ensures Valid()
      ensures UpdateCaseEffect(old(cases), cases, input, now, r)
    {
      var found := FindIndex(cases, CaseKey, input.caseId);
      if found.None? {
        return Err(CaseNotFound(input.caseId));
      }
      var k := found.value;
      var updated := UpdatedCase(cases[k], input, now);
      cases := cases[k := updated];
      r := Ok(updated);
    }

    method UpdateObservation(input: UpdateObservationInput, now: string)
      returns (r: Result<Changed<Observation>>)
      requires Valid()
      modifies this
      ensures Valid()
      ensures UpdateObservationEffect(old(cases), cases, input, now, r)
    {
      var found := FindIndex(cases, CaseKey, input.caseId);
      if found.None? {
        return Err(CaseNotFound(input.caseId));
      }
      var k := found.value;
      var at := FindIndex(cases[k].observations, ObservationKey, input.observationId);
      if at.None? {
        return Err(ObservationNotFound(input.observationId, input.caseId));
      }
      var j := at.value;
      var observation := UpdatedObservation(cases[k].observations[j], input);
      var updated := cases[k].(observations := cases[k].observations[j := observation], updatedAt := now);
      cases := cases[k := updated];
      r := Ok(Changed(observation, updated));
    }

    method UpdateHypothesis(input: UpdateHypothesisInput, now: string)
      returns (r: Result<Changed<Hypothesis>>)
      requires Valid()
      modifies this
      ensures Valid()
      ensures match FindIndex(old(cases), CaseKey, input.caseId)
        case None => r == Err(CaseNotFound(input.caseId)) && cases == old(cases)
        case Some(k) =>
          var c := old(cases)[k];
          match FindIndex(c.hypotheses, HypothesisKey, input.hypothesisId)
          case None =>
            r == Err(HypothesisNotFound(input.hypothesisId, input.caseId)) && cases == old(cases)
          case Some(j) =>
            var h := UpdatedHypothesis(c.hypotheses[j], input, now);
            var u := c.(hypotheses := c.hypotheses[j := h], updatedAt := now);
            r == Ok(Changed(h, u)) && cases == old(cases)[k := u]
    {
      var found := FindIndex(cases, CaseKey, input.caseId);
      if found.None? {
        return Err(CaseNotFound(input.caseId));
      }
      var k := found.value;
      var at := FindIndex(cases[k].hypotheses, HypothesisKey, input.hypothesisId);
      if at.None? {
        return Err(HypothesisNotFound(input.hypothesisId, input.caseId));
      }
      var j := at.value;
      var hypothesis := UpdatedHypothesis(cases[k].hypotheses[j], input, now);
      var updated := cases[k].(hypotheses := cases[k].hypotheses[j := hypothesis], updatedAt := now);
      cases := cases[k := updated];
      r := Ok(Changed(hypothesis, updated));
    }

    method UpdateTestPlan(input: UpdateTestPlanInput, now: string)
      returns (r: Result<Changed<TestPlan>>)
      requires Valid()
      modifies this
      ensures Valid()
      ensures match FindIndex(old(cases), CaseKey, input.caseId)
        case None => r == Err(CaseNotFound(input.caseId)) && cases == old(cases)
        case Some(k) =>
          var c := old(cases)[k];
          match FindIndex(c.tests, TestPlanKey, input.testPlanId)
          case None =>
            r == Err(TestPlanNotFound(input.testPlanId, input.caseId)) && cases == old(cases)
          case Some(j) =>
            var t := UpdatedTestPlan(c.tests[j], input, now);
            var u := c.(tests := c.tests[j := t], updatedAt := now);
            r == Ok(Changed(t, u)) && cases == old(cases)[k := u]
    {
      var found := FindIndex(cases, CaseKey, input.caseId);
      if found.None? {
        return Err(CaseNotFound(input.caseId));
      }
      var k := found.value;
      var at := FindIndex(cases[k].tests, TestPlanKey, input.testPlanId);
      if at.None? {
        return Err(TestPlanNotFound(input.testPlanId, input.caseId));
      }
      var j := at.value;
      var testPlan := UpdatedTestPlan(cases[k].tests[j], input, now);
      var updated := cases[k].(tests := cases[k].tests[j := testPlan], updatedAt := now);
      cases := cases[k := updated];
      r := Ok(Changed(testPlan, updated));
    }

    method RemoveObservation(caseId: string, observationId: string, now: string)
      returns (r: Result<Changed<Observation>>)
      requires Valid()
      modifies this
      ensures Valid()
      ensures match FindIndex(old(cases), CaseKey, caseId)
        case None => r == Err(CaseNotFound(caseId)) && cases == old(cases)
        case Some(k) =>
          var c := old(cases)[k];
          match FindIndex(c.observations, ObservationKey, observationId)
          case None =>
            r == Err(ObservationNotFound(observationId, caseId)) && cases == old(cases)
          case Some(j) =>
            var u := c.(observations := c.observations[..j] + c.observations[j + 1..], updatedAt := now);
            r == Ok(Changed(c.observations[j], u)) && cases == old(cases)[k := u]
    {
      var found := FindIndex(cases, CaseKey, caseId);
      if found.None? {
        return Err(CaseNotFound(caseId));
      }
      var k := found.value;
      var at := FindIndex(cases[k].observations, ObservationKey, observationId);
      if at.None? {
        return Err(ObservationNotFound(observationId, caseId));
      }
      var j := at.value;
      var removed := cases[k].observations[j];
      var updated := cases[k].(observations := cases[k].observations[..j] + cases[k].observations[j + 1..],
                               updatedAt := now);
      cases := cases[k := updated];
      r := Ok(Changed(removed, updated));
    }

    /** Removes a hypothesis and, with it, every test plan that refers to it. */
    method RemoveHypothesis(caseId: string, hypothesisId: string, now: string)
      returns (r: Result<Changed<Hypothesis>>)
      requires Valid()
      modifies this
      ensures Valid()
      ensures match FindIndex(old(cases), CaseKey, caseId)
        case None => r == Err(CaseNotFound(caseId)) && cases == old(cases)
        case Some(k) =>
          var c := old(cases)[k];
          match FindIndex(c.hypotheses, HypothesisKey, hypothesisId)
          case None =>
            r == Err(HypothesisNotFound(hypothesisId, caseId)) && cases == old(cases)
          case Some(j) =>
            var u := c.(hypotheses := c.hypotheses[..j] + c.hypotheses[j + 1..],
                        tests := Filter(c.tests, NotForHypothesis(hypothesisId)),
                        updatedAt := now);
            r == Ok(Changed(c.hypotheses[j], u)) && cases == old(cases)[k := u]
      ensures r.Ok? ==> forall i :: 0 <= i < |r.value.updatedCase.tests| ==>
                          r.value.updatedCase.tests[i].hypothesisId != hypothesisId
    {
      var found := FindIndex(cases, CaseKey, caseId);
      if found.None? {
        return Err(CaseNotFound(caseId));
      }
      var k := found.value;
      var at := FindIndex(cases[k].hypotheses, HypothesisKey, hypothesisId);
      if at.None? {
        return Err(HypothesisNotFound(hypothesisId, caseId));
      }
      var j := at.value;
      var removed := cases[k].hypotheses[j];
      var updated := cases[k].(hypotheses := cases[k].hypotheses[..j] + cases[k].hypotheses[j + 1..],
                               tests := Filter(cases[k].tests, NotForHypothesis(hypothesisId)),
                               updatedAt := now);
      cases := cases[k := updated];
      r := Ok(Changed(removed, updated));
    }

    method RemoveTestPlan(caseId: string, testPlanId: string, now: string)
      returns (r: Result<Changed<TestPlan>>)
      requires Valid()
      modifies this
      ensures Valid()
      ensures match FindIndex(old(cases), CaseKey, caseId)
        case None => r == Err(CaseNotFound(caseId)) && cases == old(cases)
        case Some(k) =>
          var c := old(cases)[k];
          match FindIndex(c.tests, TestPlanKey, testPlanId)
          case None =>
            r == Err(TestPlanNotFound(testPlanId, caseId)) && cases == old(cases)
          case Some(j) =>
            var u := c.(tests := c.tests[..j] + c.tests[j + 1..], updatedAt := now);
            r == Ok(Changed(c.tests[j], u)) && cases == old(cases)[k := u]
    {
      var found := FindIndex(cases, CaseKey, caseId);
      if found.None? {
        return Err(CaseNotFound(caseId));
      }
      var k := found.value;
      var at := FindIndex(cases[k].tests, TestPlanKey, testPlanId);
      if at.None? {
        return Err(TestPlanNotFound(testPlanId, caseId));
      }
      var j := at.value;
      var removed := cases[k].tests[j];
      var updated := cases[k].(tests := cases[k].tests[..j] + cases[k].tests[j + 1..], updatedAt := now);
      cases := cases[k := updated];
      r := Ok(Changed(removed, updated));
    }

    /** `finalizeHypothesis`: the hypothesis update that sets confidence to 1.0. */
    method FinalizeHypothesis(caseId: string, hypothesisId: string, now: string)
      returns (r: Result<Changed<Hypothesis>>)
      requires Valid()
      modifies this
      ensures Valid()
      ensures match FindIndex(old(cases), CaseKey, caseId)
        case None => r == Err(CaseNotFound(caseId)) && cases == old(cases)
        case Some(k) =>
          var c := old(cases)[k];
          match FindIndex(c.hypotheses, HypothesisKey, hypothesisId)
          case None =>
            r == Err(HypothesisNotFound(hypothesisId, caseId)) && cases == old(cases)
          case Some(j) =>
            var h := c.hypotheses[j].(confidence := Some(1.0), updatedAt := now);
            var u := c.(hypotheses := c.hypotheses[j := h], updatedAt := now);
            r == Ok(Changed(h, u)) && cases == old(cases)[k := u]
    {
      r := UpdateHypothesis(FinalizeRequest(caseId, hypothesisId), now);
    }

    method BulkDeleteProvisional(input: BulkDeleteProvisionalInput, now: string)
      returns (r: Result<BulkDeleted>)
      requires Valid()
      modifies this
      ensures Valid()
      ensures match FindIndex(old(cases), CaseKey, input.caseId)
        case None => r == Err(CaseNotFound(input.caseId)) && cases == old(cases)
        case Some(k) =>
          var c := old(cases)[k];
          var provisional := IsProvisional(input.confidenceThreshold.GetOr(DefaultConfidenceThreshold));
          var deleted := Filter(c.hypotheses, provisional);
          var gone := IsDiscardableAsWritten(input.priorityThreshold.GetOr(DefaultPriorityThreshold), IdsOf(deleted));
          var u := c.(hypotheses := Filter(c.hypotheses, Not(provisional)),
                      tests := Filter(c.tests, Not(gone)),
                      updatedAt := now);
          r == Ok(BulkDeleted(deleted, Filter(c.tests, gone), u)) && cases == old(cases)[k := u]
    {
      var found := FindIndex(cases, CaseKey, input.caseId);
      if found.None? {
        return Err(CaseNotFound(input.caseId));
      }
      var k := found.value;
      var confidenceThreshold := input.confidenceThreshold.GetOr(DefaultConfidenceThreshold);
      var priorityThreshold := input.priorityThreshold.GetOr(DefaultPriorityThreshold);
      var remainingHypotheses, deletedHypotheses, remainingTests, deletedTests :=
        PartitionProvisional(cases[k].hypotheses, cases[k].tests, confidenceThreshold, priorityThreshold);
      var updated := cases[k].(hypotheses := remainingHypotheses, tests := remainingTests, updatedAt := now);
      cases := cases[k := updated];
      r := Ok(BulkDeleted(deletedHypotheses, deletedTests, updated));
    }
  }

  /** `test.hypothesisId !== hypothesisId` */
  function NotForHypothesis(hypothesisId: string): TestPlan -> bool {
    (t: TestPlan) => t.hypothesisId != hypothesisId
  }

  /** Adding an observation under a fresh id and then removing that id restores the case's
      observations. */
  lemma RemoveUndoesAdd(c: Case, input: AddObservationInput, id: string, now: string)
    requires forall i :: 0 <= i < |c.observations| ==> c.observations[i].id != id
    ensures var added := c.observations + [NewObservation(input, id, now)];
            match FindIndex(added, ObservationKey, id)
            case None => false
            case Some(j) => added[..j] + added[j + 1..] == c.observations
  {
    var o := NewObservation(input, id, now);
    FindAppended(c.observations, o, ObservationKey);
  }
}
