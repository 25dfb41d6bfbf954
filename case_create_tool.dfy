/** The `case_create` tool of src/tools/case.ts: cleans up the input and creates the case. */
module CaseCreateTool {
  import opened Wrappers
  import opened Seqs
  import opened Text
  import opened Tags
  import opened Records
  import opened CaseStore

  /** The arguments of `case_create`, before or after its schema. */
  datatype CaseCreateToolInput = CaseCreateToolInput(
    title: string, severity: Severity, tags: Option<seq<string>>,
    gitBranch: Option<string>, gitCommit: Option<string>, deployEnv: Option<string>)

  datatype CaseCreateOutput = CaseCreateOutput(caseId: string, caseData: Case)

  /** A tag list `z.array(z.string().trim().min(1))` has passed: every tag trimmed and none
      empty. */
  predicate SchemaTags(tags: Option<seq<string>>) {
    tags.Some? ==> forall i :: 0 <= i < |tags.value| ==> IsTrimmed(tags.value[i]) && tags.value[i] != ""
  }

  /** A tag list through its schema: refused (`None`) when some tag is blank, otherwise every
      tag trimmed. */
  function ParseTags(tags: Option<seq<string>>): (r: Option<Option<seq<string>>>)
    ensures r.None? <==> tags.Some? && exists j :: 0 <= j < |tags.value| && IsBlank(tags.value[j])
    ensures r.Some? ==> SchemaTags(r.value) && (r.value.None? <==> tags.None?)
    ensures r.Some? && tags.Some? ==>
              |r.value.value| == |tags.value| &&
              forall i :: 0 <= i < |tags.value| ==> r.value.value[i] == Trim(tags.value[i])
  {
    if tags.None? then Some(None)
    else if exists j :: 0 <= j < |tags.value| && IsBlank(tags.value[j]) then None
    else Some(Some(MapSeq(tags.value, Trim)))
  }

  /** A tag list the schema has passed passes it again unchanged. */
  lemma ParseSchemaTags(tags: Option<seq<string>>)
    requires SchemaTags(tags)
    ensures ParseTags(tags) == Some(tags)
  {
    if tags.Some? {
      forall j | 0 <= j < |tags.value| ensures !IsBlank(tags.value[j]) && Trim(tags.value[j]) == tags.value[j] {
        TrimOfTrimmed(tags.value[j]);
      }
      assert MapSeq(tags.value, Trim) == tags.value;
    }
  }

  /** Arguments the schema of case.ts has passed: the title trimmed and not empty, the tags
      as `SchemaTags` says, and the metadata trimmed. */
  predicate ParsedInput(input: CaseCreateToolInput) {
    && IsTrimmed(input.title) && input.title != ""
    && SchemaTags(input.tags)
    && TrimmedOption(input.gitBranch) && TrimmedOption(input.gitCommit) && TrimmedOption(input.deployEnv)
  }

  /** What the schema makes of the arguments: refused (`None`; zod's error report is not
      modelled) for a blank title or a blank tag, otherwise every text trimmed. */
  function ApplySchema(raw: CaseCreateToolInput): (r: Option<CaseCreateToolInput>)
    ensures r.None? <==> IsBlank(raw.title) || ParseTags(raw.tags).None?
    ensures r.Some? ==> ParsedInput(r.value)
    ensures r.Some? ==> r.value.title == Trim(raw.title) && r.value.severity == raw.severity
    ensures r.Some? ==> r.value.tags == ParseTags(raw.tags).value
    ensures r.Some? ==>
              && r.value.gitBranch == TrimOption(raw.gitBranch)
              && r.value.gitCommit == TrimOption(raw.gitCommit)
              && r.value.deployEnv == TrimOption(raw.deployEnv)
  {
    if IsBlank(raw.title) then None
    else
      match ParseTags(raw.tags)
      case None => None
      case Some(tags) =>
        Some(CaseCreateToolInput(Trim(raw.title), raw.severity, tags, TrimOption(raw.gitBranch),
                                 TrimOption(raw.gitCommit), TrimOption(raw.deployEnv)))
  }

  /** The schema is idempotent: arguments it has passed pass it again unchanged. */
  lemma SchemaIdempotent(input: CaseCreateToolInput)
    requires ParsedInput(input)
    ensures ApplySchema(input) == Some(input)
  {
    TrimOfTrimmed(input.title);
    ParseSchemaTags(input.tags);
    TrimOptionOfTrimmed(input.gitBranch);
    TrimOptionOfTrimmed(input.gitCommit);
    TrimOptionOfTrimmed(input.deployEnv);
  }

  /** The request the handler passes to `createCase`: tags in normal form, a missing list
      counting as empty, and blank metadata left out. */
  function CreateRequest(input: CaseCreateToolInput): (req: CreateCaseInput)
    ensures req.title == input.title && req.severity == input.severity
    ensures NormalTags(req.tags)
    ensures input.tags.None? ==> req.tags == []
    ensures input.tags.Some? ==>
              && (forall j :: 0 <= j < |input.tags.value| && Trim(input.tags.value[j]) != "" ==> Trim(input.tags.value[j]) in req.tags)
              && (forall i :: 0 <= i < |req.tags| ==> exists j :: 0 <= j < |input.tags.value| && Trim(input.tags.value[j]) == req.tags[i])
    ensures req.gitBranch.None? <==> input.gitBranch.None? || IsBlank(input.gitBranch.value)
    ensures req.gitCommit.None? <==> input.gitCommit.None? || IsBlank(input.gitCommit.value)
    ensures req.deployEnv.None? <==> input.deployEnv.None? || IsBlank(input.deployEnv.value)
    ensures req.gitBranch.Some? ==> req.gitBranch.value == Trim(input.gitBranch.value)
    ensures req.gitCommit.Some? ==> req.gitCommit.value == Trim(input.gitCommit.value)
    ensures req.deployEnv.Some? ==> req.deployEnv.value == Trim(input.deployEnv.value)
  {
    CreateCaseInput(input.title, input.severity, SortedCleanTags(input.tags.GetOr([])),
                    OptionalText(input.gitBranch), OptionalText(input.gitCommit), OptionalText(input.deployEnv))
  }

  /** The store normalises the tags once more, which leaves the tool's tags as they are. */
  lemma StoredTagsAreRequested(input: CaseCreateToolInput, id: string, now: string)
    ensures NewCase(CreateRequest(input), id, now).tags == CreateRequest(input).tags
  {
    NormalizeNormalTags(CreateRequest(input).tags);
  }

  /** The handler, on arguments the schema has passed: creates the case and reports its id
      next to it. */
  method CaseCreate(store: Store, input: CaseCreateToolInput, id: string, now: string)
    returns (output: CaseCreateOutput)
    requires store.Valid() && ParsedInput(input)
    modifies store
    ensures store.Valid()
    ensures output.caseId == output.caseData.id == id
    ensures output.caseData == NewCase(CreateRequest(input), id, now)
    ensures store.cases == old(store.cases) + [output.caseData]
  {
    var created := store.CreateCase(CreateRequest(input), id, now);
    output := CaseCreateOutput(created.id, created);
  }
}
