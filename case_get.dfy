/** The `case_get` tool of src/tools/case_get.ts: one case, with a window of its observations
    and only the collections asked for. */
module CaseGet {
  import opened Wrappers
  import opened Seqs
  import opened Decimal
  import opened Records
  import opened CaseStore

  datatype Collection = Observations | Hypotheses | Tests | Results

  /** `includes` is the tool's `include` argument. */
  datatype CaseGetInput = CaseGetInput(
    caseId: string, includes: Option<seq<Collection>>, observationCursor: Option<string>,
    observationLimit: Option<int>)

  /** What the input schema admits: a non-empty case id and a limit between 1 and 100. */
  predicate ValidInput(input: CaseGetInput) {
    input.caseId != "" &&
    (input.observationLimit.Some? ==> 1 <= input.observationLimit.value <= MaxObservationLimit)
  }

  datatype Cursors = Cursors(
    nextObservationCursor: Option<string>, observationLimit: int, observationReturned: nat,
    observationTotal: nat, hasMoreObservations: bool)

  datatype CaseGetOutput = CaseGetOutput(caseData: Case, cursors: Option<Cursors>)

  const DefaultObservationLimit: int := 20
  const MaxObservationLimit: int := 100

  /** The cursor payload `{offset}` as text; the JSON and base64url layers are not part of
      this model. */
  function EncodeObservationCursor(offset: int): string {
    IntText(offset)
  }

  /** The offset a cursor names, or 0 for a missing, empty, malformed or negative one. */
  function DecodeObservationCursor(cursor: Option<string>): (offset: nat)
    ensures cursor.None? || cursor.value == "" ==> offset == 0
    ensures cursor.Some? && ParseInt(cursor.value).None? ==> offset == 0
    ensures cursor.Some? && cursor.value != "" && ParseInt(cursor.value).Some?
            ==> offset == Max(ParseInt(cursor.value).value, 0)
    ensures offset != 0 ==> cursor.Some? && ParseInt(cursor.value) == Some(offset as int)
  {
    if cursor.None? || cursor.value == "" then 0
    else
      match ParseInt(cursor.value)
      case None => 0
      case Some(n) => if n >= 0 then n else 0
  }

  /** Decoding an encoded offset gives it back, and a negative offset decodes to 0. */
  lemma ObservationCursorRoundTrip(offset: int)
    ensures DecodeObservationCursor(Some(EncodeObservationCursor(offset))) == (if offset >= 0 then offset else 0)
  {
    IntTextRoundTrip(offset);
  }

  datatype ObservationWindow = ObservationWindow(slice: seq<Observation>, nextCursor: Option<string>)

  /** The page of observations starting at `offset`, clamped to the list. */
  function SliceObservations(observations: seq<Observation>, limit: int, offset: nat): (w: ObservationWindow)
    requires limit >= 1
    ensures observations == [] ==> w.slice == [] && w.nextCursor.None?
    ensures var start := Min(offset, |observations|);
            && w.slice == observations[start..Min(start + limit, |observations|)]
            && (w.nextCursor.Some? <==> start + limit < |observations|)
            && (w.nextCursor.Some? ==> w.nextCursor.value == EncodeObservationCursor(start + limit))
  {
    if |observations| == 0 then ObservationWindow([], None)
    else
      var start := Max(0, Min(offset, |observations|));
      var window := Slice(observations, start, start + limit);
      assert window == observations[start..Min(start + limit, |observations|)];
      var next := start + limit;
      ObservationWindow(window, if next < |observations| then Some(EncodeObservationCursor(next)) else None)
  }

  /** The cursor of a window leads to the window right after it: paging from offset 0
      visits the observations in order without gaps or overlaps. */
  lemma WindowsAreConsecutive(observations: seq<Observation>, limit: int, offset: nat)
    requires limit >= 1
    requires SliceObservations(observations, limit, offset).nextCursor.Some?
    ensures var w := SliceObservations(observations, limit, offset);
            var next := DecodeObservationCursor(w.nextCursor);
            && next == Min(offset, |observations|) + limit
            && w.slice + SliceObservations(observations, limit, next).slice
               == observations[Min(offset, |observations|)..Min(next + limit, |observations|)]
  {
    var start := Min(offset, |observations|);
    ObservationCursorRoundTrip(start + limit);
  }

  function Wants(input: CaseGetInput, c: Collection): bool {
    input.includes.None? || c in input.includes.value
  }

  function CaseGet(cases: seq<Case>, input: CaseGetInput): (r: Result<CaseGetOutput>)
    requires ValidInput(input)
    ensures GetCase(cases, input.caseId).None? ==> r == Err(CaseNotFound(input.caseId))
    ensures GetCase(cases, input.caseId).Some? ==> r.Ok?
    ensures r.Ok? ==>
              var found := GetCase(cases, input.caseId).value;
              var out := r.value.caseData;
              && GetCase(cases, input.caseId).Some?
              && out == found.(observations := out.observations, hypotheses := out.hypotheses,
                               tests := out.tests, results := out.results)
              && out.hypotheses == (if Wants(input, Hypotheses) then found.hypotheses else [])
              && out.tests == (if Wants(input, Tests) then found.tests else [])
              && out.results == (if Wants(input, Results) then found.results else [])
              && (r.value.cursors.Some? <==> Wants(input, Observations))
              && (!Wants(input, Observations) ==> out.observations == [])
    ensures r.Ok? && Wants(input, Observations) ==>
              var found := GetCase(cases, input.caseId).value;
              var limit := input.observationLimit.GetOr(DefaultObservationLimit);
              var w := SliceObservations(found.observations, limit, DecodeObservationCursor(input.observationCursor));
              var cursors := r.value.cursors.value;
              && r.value.caseData.observations == w.slice
              && cursors.nextObservationCursor == w.nextCursor
              && cursors.hasMoreObservations == w.nextCursor.Some?
              && cursors.observationLimit == limit
              && cursors.observationReturned == |w.slice|
              && cursors.observationTotal == |found.observations|
  {
    match GetCase(cases, input.caseId)
    case None => Err(CaseNotFound(input.caseId))
    case Some(found) =>
      var limit := input.observationLimit.GetOr(DefaultObservationLimit);
      var offset := DecodeObservationCursor(input.observationCursor);
      var window := SliceObservations(found.observations, limit, offset);
      var observations := if Wants(input, Observations) then window.slice else [];
      var pagination :=
        if Wants(input, Observations) then
          Some(Cursors(window.nextCursor, limit, |window.slice|, |found.observations|, window.nextCursor.Some?))
        else None;
      Ok(CaseGetOutput(
           found.(observations := observations,
                  hypotheses := if Wants(input, Hypotheses) then found.hypotheses else [],
                  tests := if Wants(input, Tests) then found.tests else [],
                  results := if Wants(input, Results) then found.results else []),
           pagination))
  }
}
