/** The `observation_update` tool of src/tools/observation_update.ts: refuses a request that
    changes neither `what` nor `context` and passes only those two fields to the store. */
module ObservationUpdateTool {
  import opened Wrappers
  import opened Text
  import opened Records
  import opened CaseStore

  /** The arguments of `observation_update`, before or after its schema; the schema admits no
      other field to change. */
  datatype ObservationUpdateToolInput = ObservationUpdateToolInput(
    caseId: string, observationId: string, what: Option<string>, context: Option<string>)

  /** Arguments the schema has passed: both identifiers given, `what` and `context`
      trimmed. */
  predicate ParsedInput(input: ObservationUpdateToolInput) {
    input.caseId != "" && input.observationId != "" && TrimmedOption(input.what) && TrimmedOption(input.context)
  }

  /** What the schema makes of the arguments: refused (`None`; zod's error report is not
      modelled) for an empty identifier, otherwise `what` and `context` trimmed. */
  function ApplySchema(raw: ObservationUpdateToolInput): (r: Option<ObservationUpdateToolInput>)
    ensures r.None? <==> raw.caseId == "" || raw.observationId == ""
    ensures r.Some? ==> ParsedInput(r.value)
    ensures r.Some? ==>
              && r.value.caseId == raw.caseId && r.value.observationId == raw.observationId
              && r.value.what == TrimOption(raw.what) && r.value.context == TrimOption(raw.context)
  {
    if raw.caseId == "" || raw.observationId == "" then None
    else Some(raw.(what := TrimOption(raw.what), context := TrimOption(raw.context)))
  }

  /** The schema is idempotent: arguments it has passed pass it again unchanged. */
  lemma SchemaIdempotent(input: ObservationUpdateToolInput)
    requires ParsedInput(input)
    ensures ApplySchema(input) == Some(input)
  {
    TrimOptionOfTrimmed(input.what);
    TrimOptionOfTrimmed(input.context);
  }

  datatype ObservationUpdateOutput = ObservationUpdateOutput(
    caseId: string, observation: Observation, caseData: Case)

  const NothingToUpdate: string := "Provide at least one field to update"

  /** The request passed to `updateObservation`: case, observation, `what` and `context`, and
      no metadata. */
  function StoreRequest(input: ObservationUpdateToolInput): (req: UpdateObservationInput)
    ensures req.caseId == input.caseId && req.observationId == input.observationId
    ensures req.what == input.what
    ensures input.context.None? ==> req.context.Keep?
    ensures input.context.Some? ==> req.context == Put(input.context.value)
    ensures req.gitBranch.Keep? && req.gitCommit.Keep? && req.deployEnv.Keep?
  {
    UpdateObservationInput(input.caseId, input.observationId, input.what,
                           if input.context.Some? then Put(input.context.value) else Keep,
                           Keep, Keep, Keep)
  }

  /** The handler, on arguments the schema has passed: the guard throws when both fields are
      missing; otherwise the store's observation and case, with the input's case id. */
  method ObservationUpdate(store: Store, input: ObservationUpdateToolInput, now: string)
    returns (r: Result<ObservationUpdateOutput>)
    requires store.Valid() && ParsedInput(input)
    modifies store
    ensures store.Valid()
    ensures input.what.None? && input.context.None? ==> r == Err(NothingToUpdate) && store.cases == old(store.cases)
    ensures input.what.Some? || input.context.Some? ==>
              exists s: Result<Changed<Observation>> ::
                && UpdateObservationEffect(old(store.cases), store.cases, StoreRequest(input), now, s)
                && (s.Err? ==> r == Err(s.message))
                && (s.Ok? ==> r == Ok(ObservationUpdateOutput(input.caseId, s.value.item, s.value.updatedCase)))
  {
    if input.what.None? && input.context.None? {
      return Err(NothingToUpdate);
    }
    var s := store.UpdateObservation(StoreRequest(input), now);
    match s
    case Err(message) => r := Err(message);
    case Ok(changed) => r := Ok(ObservationUpdateOutput(input.caseId, changed.item, changed.updatedCase));
  }

  /** An empty `what` passes the guard, and the store then keeps the original text. */
  lemma EmptyWhatKeepsText(o: Observation, caseId: string, observationId: string)
    ensures var input := ObservationUpdateToolInput(caseId, observationId, Some(""), None);
            && !(input.what.None? && input.context.None?)
            && UpdatedObservation(o, StoreRequest(input)) == o
  {
  }

  /** A blank `what` is trimmed to the empty one by the schema. */
  lemma BlankWhatIsEmpty(caseId: string, observationId: string)
    requires caseId != "" && observationId != ""
    ensures ApplySchema(ObservationUpdateToolInput(caseId, observationId, Some("  "), None))
            == Some(ObservationUpdateToolInput(caseId, observationId, Some(""), None))
  {
    assert IsBlank("  ");
  }

  /** The metadata of an observation never changes through this tool. */
  lemma MetadataKept(o: Observation, input: ObservationUpdateToolInput)
    ensures var u := UpdatedObservation(o, StoreRequest(input));
            u.gitBranch == o.gitBranch && u.gitCommit == o.gitCommit && u.deployEnv == o.deployEnv
  {
  }
}
