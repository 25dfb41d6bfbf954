/** `analyzeCase` of src/prompt-helpers/case-analyzer.ts: the phase of an investigation,
    what it still needs, its most confident hypothesis and the hints for the next step. */
module CaseAnalyzer {
  import opened Wrappers
  import opened Seqs
  import opened Decimal
  import opened Sorting
  import opened Records

  datatype Phase = ObservationPhase | HypothesisPhase | TestingPhase | ConclusionPhase

  datatype TopHypothesis = TopHypothesis(id: string, text: string, confidence: real)

  datatype CaseAnalysis = CaseAnalysis(
    phase: Phase, needMoreObservations: bool, needHypotheses: bool, needTestPlans: bool,
    readyForConclusion: bool, topHypothesis: Option<TopHypothesis>, hints: seq<Hint>)

  const MinObservations: nat := 3
  const SufficientObservations: nat := 5
  const ManyTests: nat := 3
  const ManyLowConfidence: nat := 3
  const HighConfidence: real := 0.8
  const LowConfidence: real := 0.5

  /** A conclusion decides the phase, then the presence of tests, then of hypotheses. */
  function PhaseOf(c: Case): (p: Phase)
    ensures p == ConclusionPhase <==> c.conclusion.Some?
    ensures p == TestingPhase <==> c.conclusion.None? && |c.tests| > 0
    ensures p == HypothesisPhase <==> c.conclusion.None? && |c.tests| == 0 && |c.hypotheses| > 0
    ensures p == ObservationPhase <==> c.conclusion.None? && |c.tests| == 0 && |c.hypotheses| == 0
  {
    if c.conclusion.Some? then ConclusionPhase
    else if |c.tests| > 0 then TestingPhase
    else if |c.hypotheses| > 0 then HypothesisPhase
    else ObservationPhase
  }

  predicate IsHighConfidence(h: Hypothesis) { ConfidenceOf(h) >= HighConfidence }
  predicate IsLowConfidence(h: Hypothesis) { ConfidenceOf(h) < LowConfidence }

  /** The hints `analyzeCase` can give; `HintText` is the message of each. */
  datatype Hint =
    | FewObservations
    | ProposeHypotheses
    | PlanTests
    | PrioritizeTests
    | Conclude
    | CleanUpLowConfidence(count: nat)

  function HintText(h: Hint): string {
    match h
    case FewObservations => "Still few observations. Add system metrics, logs, and timeline data."
    case ProposeHypotheses =>
      "Sufficient observations collected. Use hypothesis_propose to generate hypotheses with LLM assistance."
    case PlanTests => "Hypotheses created but no test plans. Define verification methods with test_plan."
    case PrioritizeTests => "Use test_prioritize to rank test plans efficiently by RICE/ICE score."
    case Conclude => "High-confidence hypothesis and tests completed. Summarize with conclusion_finalize."
    case CleanUpLowConfidence(count) =>
      IntText(count) + " low-confidence hypotheses exist. Clean up with bulk_delete_provisional."
  }

  /** The position of each hint's `if` block. */
  function HintRank(h: Hint): int {
    match h
    case FewObservations => 0
    case ProposeHypotheses => 1
    case PlanTests => 2
    case PrioritizeTests => 3
    case Conclude => 4
    case CleanUpLowConfidence(_) => 5
  }

  /** Each hint is present exactly when its condition holds, the low-confidence hint carries
      the count, and the hints come in the order of the `if` blocks. */
  predicate HintsFor(observations: nat, hypotheses: nat, tests: nat, ready: bool, lowCount: nat, hints: seq<Hint>) {
    && (FewObservations in hints <==> observations < MinObservations)
    && (ProposeHypotheses in hints <==> observations >= SufficientObservations && hypotheses == 0)
    && (PlanTests in hints <==> hypotheses > 0 && tests == 0)
    && (PrioritizeTests in hints <==> tests > ManyTests)
    && (Conclude in hints <==> ready)
    && (CleanUpLowConfidence(lowCount) in hints <==> lowCount > ManyLowConfidence)
    && (forall i :: 0 <= i < |hints| && hints[i].CleanUpLowConfidence? ==> hints[i].count == lowCount)
    && (forall i, j :: 0 <= i < j < |hints| ==> HintRank(hints[i]) < HintRank(hints[j]))
  }

  /** Hints in strictly increasing rank, all below `k`. */
  predicate RankedBelow(hints: seq<Hint>, k: int) {
    && (forall i :: 0 <= i < |hints| ==> HintRank(hints[i]) < k)
    && (forall i, j :: 0 <= i < j < |hints| ==> HintRank(hints[i]) < HintRank(hints[j]))
  }

  /** One `if` block: pushes `h` when `condition` holds. */
  method PushIf(hints: seq<Hint>, condition: bool, h: Hint) returns (r: seq<Hint>)
    requires RankedBelow(hints, HintRank(h))
    ensures RankedBelow(r, HintRank(h) + 1)
    ensures forall x :: x in r <==> x in hints || (condition && x == h)
    ensures h in r <==> condition
  {
    r := if condition then hints + [h] else hints;
  }

  /** The hints, pushed one `if` block at a time in the order of the source. */
  method BuildHints(observations: nat, hypotheses: nat, tests: nat, ready: bool, lowCount: nat)
    returns (hints: seq<Hint>)
    ensures HintsFor(observations, hypotheses, tests, ready, lowCount, hints)
  {
    hints := [];
    hints := PushIf(hints, observations < MinObservations, FewObservations);
    hints := PushIf(hints, observations >= SufficientObservations && hypotheses == 0, ProposeHypotheses);
    hints := PushIf(hints, hypotheses > 0 && tests == 0, PlanTests);
    hints := PushIf(hints, tests > ManyTests, PrioritizeTests);
    hints := PushIf(hints, ready, Conclude);
    ghost var fixedHints := hints;
    hints := PushIf(hints, lowCount > ManyLowConfidence, CleanUpLowConfidence(lowCount));
    forall i | 0 <= i < |hints| && hints[i].CleanUpLowConfidence? ensures hints[i].count == lowCount {
      assert hints[i] in hints;
    }
  }

  /** The conditions determine the hints completely. */
  lemma HintsAreDetermined(observations: nat, hypotheses: nat, tests: nat, ready: bool, lowCount: nat,
                           a: seq<Hint>, b: seq<Hint>)
    requires HintsFor(observations, hypotheses, tests, ready, lowCount, a)
    requires HintsFor(observations, hypotheses, tests, ready, lowCount, b)
    ensures a == b
  {
    forall x ensures x in a <==> x in b {
      if x in a {
        var i :| 0 <= i < |a| && a[i] == x;
        assert x.CleanUpLowConfidence? ==> x == CleanUpLowConfidence(lowCount);
      }
      if x in b {
        var i :| 0 <= i < |b| && b[i] == x;
        assert x.CleanUpLowConfidence? ==> x == CleanUpLowConfidence(lowCount);
      }
    }
    StrictlyRankedUnique(a, b, HintRank);
  }

  /** The first hypothesis of the sorted list, as reported. */
  function TopOf(sorted: seq<Hypothesis>): (top: Option<TopHypothesis>)
    ensures top.None? <==> sorted == []
    ensures top.Some? ==> top.value == TopHypothesis(sorted[0].id, sorted[0].text, ConfidenceOf(sorted[0]))
  {
    if sorted == [] then None
    else Some(TopHypothesis(sorted[0].id, sorted[0].text, ConfidenceOf(sorted[0])))
  }

  /** The top hypothesis is one of the case's hypotheses, as confident as any other. */
  lemma TopHypothesisIsMostConfident(hyps: seq<Hypothesis>, h: Hypothesis)
    requires h in hyps
    ensures var top := TopOf(SortDesc(hyps, ConfidenceOf));
            && top.Some?
            && (exists g :: g in hyps && top.value == TopHypothesis(g.id, g.text, ConfidenceOf(g)))
            && top.value.confidence >= ConfidenceOf(h)
  {
    var sorted := SortDesc(hyps, ConfidenceOf);
    SortDescHeadIsMax(hyps, ConfidenceOf, h);
    assert sorted[0] in multiset(hyps);
  }

  /** Some hypothesis is highly confident exactly when the filtered list is not empty. */
  lemma SomeHighConfidence(hyps: seq<Hypothesis>)
    ensures |Filter(hyps, IsHighConfidence)| > 0 <==> exists h :: h in hyps && IsHighConfidence(h)
  {
    var high := Filter(hyps, IsHighConfidence);
    if |high| > 0 {
      assert high[0] in hyps;
    }
    if h :| h in hyps && IsHighConfidence(h) {
      var i :| 0 <= i < |hyps| && hyps[i] == h;
      assert h in high;
    }
  }

  /** `hypotheses` is the case's own hypothesis list, which the analysis sorts in place by
      decreasing confidence (stably) whenever it is not empty. */
  method AnalyzeCase(c: Case, hypotheses: array<Hypothesis>) returns (a: CaseAnalysis)
    requires hypotheses[..] == c.hypotheses
    modifies hypotheses
    ensures hypotheses[..] == SortDesc(c.hypotheses, ConfidenceOf)
    ensures a.phase == PhaseOf(c)
    ensures a.needMoreObservations <==> |c.observations| < MinObservations
    ensures a.needHypotheses <==> |c.observations| >= MinObservations && |c.hypotheses| == 0
    ensures a.needTestPlans <==> |c.hypotheses| > 0 && |c.tests| == 0
    ensures a.readyForConclusion <==> (exists h :: h in c.hypotheses && IsHighConfidence(h)) && |c.tests| > 0
    ensures a.topHypothesis == TopOf(SortDesc(c.hypotheses, ConfidenceOf))
    ensures HintsFor(|c.observations|, |c.hypotheses|, |c.tests|, a.readyForConclusion,
                     |Filter(c.hypotheses, IsLowConfidence)|, a.hints)
  {
    var observations, hypothesisCount, tests := |c.observations|, hypotheses.Length, |c.tests|;
    var phase := PhaseOf(c);
    var needMoreObservations := observations < MinObservations;
    var needHypotheses := observations >= MinObservations && hypothesisCount == 0;
    var needTestPlans := hypothesisCount > 0 && tests == 0;

    var highConfidence := Filter(hypotheses[..], IsHighConfidence);
    var readyForConclusion := |highConfidence| > 0 && tests > 0;
    SomeHighConfidence(c.hypotheses);

    var top: Option<TopHypothesis> := None;
    if hypothesisCount > 0 {
      var sorted := SortDesc(hypotheses[..], ConfidenceOf);
      forall i | 0 <= i < hypotheses.Length {
        hypotheses[i] := sorted[i];
      }
      top := TopOf(hypotheses[..]);
    }

    var lowConfidenceCount := |Filter(hypotheses[..], IsLowConfidence)|;
    SortDescCount(c.hypotheses, ConfidenceOf, IsLowConfidence);
    var hints := BuildHints(observations, hypothesisCount, tests, readyForConclusion, lowConfidenceCount);

    a := CaseAnalysis(phase, needMoreObservations, needHypotheses, needTestPlans, readyForConclusion, top, hints);
  }
}
