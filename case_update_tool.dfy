/** The `case_update` tool of src/tools/case_update.ts: refuses a request without any field
    to change and forwards the rest to `updateCase`. The tool's input has the shape of the
    store's request, since every field the schema has passed is passed on as it is. */
module CaseUpdateTool {
  import opened Wrappers
  import opened Text
  import opened Records
  import opened CaseStore
  import opened CaseCreateTool

  const NothingToUpdate: string := "At least one updatable field must be provided"

  /** A metadata patch through `z.string().trim().nullable().optional()`. */
  function TrimPatch(p: Patch<string>): (r: Patch<string>)
    ensures r.Keep? == p.Keep? && r.Clear? == p.Clear?
    ensures r.Put? ==> r.value == Trim(p.value) && IsTrimmed(r.value)
  {
    if p.Put? then Put(Trim(p.value)) else p
  }

  predicate TrimmedPatch(p: Patch<string>) {
    p.Put? ==> IsTrimmed(p.value)
  }

  /** Arguments the schema has passed: a case id, and every text trimmed, no tag empty. */
  predicate ParsedInput(input: UpdateCaseInput) {
    && input.caseId != ""
    && TrimmedOption(input.title)
    && SchemaTags(input.tags)
    && TrimmedPatch(input.gitBranch) && TrimmedPatch(input.gitCommit) && TrimmedPatch(input.deployEnv)
  }

  /** What the schema makes of the arguments: refused (`None`; zod's error report is not
      modelled) for an empty case id or a blank tag, otherwise every text trimmed. */
  function ApplySchema(raw: UpdateCaseInput): (r: Option<UpdateCaseInput>)
    ensures r.None? <==> raw.caseId == "" || ParseTags(raw.tags).None?
    ensures r.Some? ==> ParsedInput(r.value)
    ensures r.Some? ==>
              && r.value.caseId == raw.caseId && r.value.severity == raw.severity
              && r.value.status == raw.status
              && r.value.title == TrimOption(raw.title)
              && r.value.tags == ParseTags(raw.tags).value
              && r.value.gitBranch == TrimPatch(raw.gitBranch)
              && r.value.gitCommit == TrimPatch(raw.gitCommit)
              && r.value.deployEnv == TrimPatch(raw.deployEnv)
  {
    if raw.caseId == "" then None
    else
      match ParseTags(raw.tags)
      case None => None
      case Some(tags) =>
        Some(raw.(title := TrimOption(raw.title), tags := tags, gitBranch := TrimPatch(raw.gitBranch),
                  gitCommit := TrimPatch(raw.gitCommit), deployEnv := TrimPatch(raw.deployEnv)))
  }

  /** The schema is idempotent: arguments it has passed pass it again unchanged. */
  lemma SchemaIdempotent(input: UpdateCaseInput)
    requires ParsedInput(input)
    ensures ApplySchema(input) == Some(input)
  {
    TrimOptionOfTrimmed(input.title);
    ParseSchemaTags(input.tags);
    if input.gitBranch.Put? { TrimOfTrimmed(input.gitBranch.value); }
    if input.gitCommit.Put? { TrimOfTrimmed(input.gitCommit.value); }
    if input.deployEnv.Put? { TrimOfTrimmed(input.deployEnv.value); }
  }

  /** JavaScript truthiness of the optional title: a missing or empty title is falsy. After
      the schema an empty title is one that was blank. */
  predicate TitleGiven(title: Option<string>) {
    title.Some? && title.value != ""
  }

  /** The guard of the handler. The severity and status are non-empty names and the tag list
      is an array, so each is truthy exactly when present; a metadata field counts as soon as
      it is not `undefined`, `null` included. */
  predicate RequestsUpdate(input: UpdateCaseInput) {
    || TitleGiven(input.title)
    || input.severity.Some?
    || input.tags.Some?
    || input.status.Some?
    || !input.gitBranch.Keep?
    || !input.gitCommit.Keep?
    || !input.deployEnv.Keep?
  }

  /** The handler, on arguments the schema has passed: the store's result, or the guard's
      error with nothing changed. */
  method CaseUpdate(store: Store, input: UpdateCaseInput, now: string) returns (r: Result<Case>)
    requires store.Valid() && ParsedInput(input)
    modifies store
    ensures store.Valid()
    ensures !RequestsUpdate(input) ==> r == Err(NothingToUpdate) && store.cases == old(store.cases)
    ensures RequestsUpdate(input) ==> UpdateCaseEffect(old(store.cases), store.cases, input, now, r)
  {
    if !RequestsUpdate(input) {
      return Err(NothingToUpdate);
    }
    r := store.UpdateCase(input, now);
  }

  /** A request the guard refuses would leave the case as it is, apart from its update time.
      (Not conversely: a request repeating the current values passes.) */
  lemma RefusedRequestsChangeNothing(c: Case, input: UpdateCaseInput, now: string)
    requires !RequestsUpdate(input)
    ensures UpdatedCase(c, input, now) == c.(updatedAt := now)
  {
  }

  /** A `null` metadata field alone is a request: it clears the field. */
  lemma ClearingIsAnUpdate(c: Case, caseId: string, now: string)
    ensures var input := UpdateCaseInput(caseId, None, None, None, None, Clear, Keep, Keep);
            RequestsUpdate(input) && UpdatedCase(c, input, now).gitBranch.None?
  {
  }

  /** An empty tag list alone is a request, and it removes every tag. */
  lemma EmptyTagsAreAnUpdate(c: Case, caseId: string, now: string)
    ensures var input := UpdateCaseInput(caseId, None, None, Some([]), None, Keep, Keep, Keep);
            RequestsUpdate(input) && UpdatedCase(c, input, now).tags == []
  {
  }

  /** An empty title alone is no request. */
  lemma EmptyTitleIsNoUpdate(caseId: string)
    ensures !RequestsUpdate(UpdateCaseInput(caseId, Some(""), None, None, None, Keep, Keep, Keep))
  {
  }

  /** A title of spaces alone is trimmed to nothing by the schema and then is no request. */
  lemma BlankTitleIsNoUpdate(caseId: string)
    requires caseId != ""
    ensures var parsed := ApplySchema(UpdateCaseInput(caseId, Some("   "), None, None, None, Keep, Keep, Keep));
            parsed == Some(UpdateCaseInput(caseId, Some(""), None, None, None, Keep, Keep, Keep))
            && !RequestsUpdate(parsed.value)
  {
    assert IsBlank("   ");
  }
}
