/** The `observations_list` tool of src/tools/observations_list.ts: checks the date bounds,
    normalises the search fields and filters, and hands the query to `listObservations`,
    which is not part of this model and is taken as a parameter. */
module ObservationsListTool {
  import opened Wrappers
  import opened Text
  import opened Seqs
  import opened Sorting
  import opened Records

  datatype SortBy = CreatedAt
  datatype SortOrder = Asc | Desc

  /** The arguments of `observations_list`, before or after its schema. */
  datatype ObservationListInput = ObservationListInput(
    caseId: string, query: Option<string>, fields: Option<seq<string>>,
    createdAfter: Option<string>, createdBefore: Option<string>,
    gitBranch: Option<string>, gitCommit: Option<string>, deployEnv: Option<string>,
    sortBy: Option<SortBy>, order: Option<SortOrder>, pageSize: Option<int>, cursor: Option<string>)

  /** Arguments the schema has passed: a case id, every text but the cursor trimmed, a
      non-empty list of search fields each "what" or "context", and a page size from 1 to
      100. */
  predicate ParsedInput(input: ObservationListInput) {
    && input.caseId != ""
    && TrimmedOption(input.query)
    && TrimmedOption(input.createdAfter) && TrimmedOption(input.createdBefore)
    && TrimmedOption(input.gitBranch) && TrimmedOption(input.gitCommit) && TrimmedOption(input.deployEnv)
    && (input.fields.Some? ==> ValidFields(input.fields.value))
    && (input.pageSize.Some? ==> 1 <= input.pageSize.value <= 100)
  }

  /** `z.array(z.enum(["what", "context"])).min(1)` */
  predicate ValidFields(fields: seq<string>) {
    |fields| >= 1 && forall i :: 0 <= i < |fields| ==> fields[i] == "what" || fields[i] == "context"
  }

  /** What the schema makes of the arguments: refused (`None`; zod's error report is not
      modelled) for an empty case id, an empty or unknown list of fields or a page size out of
      range, otherwise every text but the cursor trimmed. */
  function ApplySchema(raw: ObservationListInput): (r: Option<ObservationListInput>)
    ensures r.None? <==>
              || raw.caseId == ""
              || (raw.fields.Some? && !ValidFields(raw.fields.value))
              || (raw.pageSize.Some? && !(1 <= raw.pageSize.value <= 100))
    ensures r.Some? ==> ParsedInput(r.value)
    ensures r.Some? ==>
              && r.value.caseId == raw.caseId && r.value.fields == raw.fields
              && r.value.query == TrimOption(raw.query)
              && r.value.createdAfter == TrimOption(raw.createdAfter)
              && r.value.createdBefore == TrimOption(raw.createdBefore)
              && r.value.gitBranch == TrimOption(raw.gitBranch)
              && r.value.gitCommit == TrimOption(raw.gitCommit)
              && r.value.deployEnv == TrimOption(raw.deployEnv)
              && r.value.sortBy == raw.sortBy && r.value.order == raw.order
              && r.value.pageSize == raw.pageSize && r.value.cursor == raw.cursor
  {
    if || raw.caseId == ""
       || (raw.fields.Some? && !ValidFields(raw.fields.value))
       || (raw.pageSize.Some? && !(1 <= raw.pageSize.value <= 100))
    then None
    else
      Some(raw.(query := TrimOption(raw.query),
                createdAfter := TrimOption(raw.createdAfter), createdBefore := TrimOption(raw.createdBefore),
                gitBranch := TrimOption(raw.gitBranch), gitCommit := TrimOption(raw.gitCommit),
                deployEnv := TrimOption(raw.deployEnv)))
  }

  /** The schema is idempotent: arguments it has passed pass it again unchanged. */
  lemma SchemaIdempotent(input: ObservationListInput)
    requires ParsedInput(input)
    ensures ApplySchema(input) == Some(input)
  {
    TrimOptionOfTrimmed(input.query);
    TrimOptionOfTrimmed(input.createdAfter);
    TrimOptionOfTrimmed(input.createdBefore);
    TrimOptionOfTrimmed(input.gitBranch);
    TrimOptionOfTrimmed(input.gitCommit);
    TrimOptionOfTrimmed(input.deployEnv);
  }

  /** The query `listObservations` receives; a date is the instant `new Date` gives, in
      milliseconds. */
  datatype ObservationQuery = ObservationQuery(
    caseId: string, query: Option<string>, fields: Option<seq<string>>,
    createdAfter: Option<int>, createdBefore: Option<int>,
    gitBranch: Option<string>, gitCommit: Option<string>, deployEnv: Option<string>,
    sortBy: SortBy, order: SortOrder, pageSize: Option<int>, cursor: Option<string>)

  datatype ObservationPage = ObservationPage(
    observations: seq<Observation>, nextCursor: Option<string>, total: int, pageSize: int)

  datatype ObservationListOutput = ObservationListOutput(
    caseId: string, observations: seq<Observation>, nextCursor: Option<string>,
    total: int, pageSize: int, hasMore: bool)

  /** `normalizeFields`: no list stays no list; otherwise each field once, in ascending
      order. */
  function NormalizeFields(fields: Option<seq<string>>): (r: Option<seq<string>>)
    ensures r.None? <==> fields.None?
    ensures r.Some? ==> Distinct(r.value) && SortedStrings(r.value)
    ensures r.Some? ==> forall x :: x in r.value <==> x in fields.value
  {
    if fields.None? then None
    else
      var unique := Dedupe(fields.value);
      var sorted := SortStrings(unique);
      DistinctPermutation(unique, sorted);
      SortedKeepsElements(unique, sorted);
      Some(sorted)
  }

  /** The normal form depends only on which fields are asked for. */
  lemma FieldsIgnoreOrder(a: seq<string>, b: seq<string>)
    requires forall x :: x in a <==> x in b
    ensures NormalizeFields(Some(a)) == NormalizeFields(Some(b))
  {
    var ra, rb := NormalizeFields(Some(a)).value, NormalizeFields(Some(b)).value;
    DistinctSameElements(ra, rb);
    SortedUnique(ra, rb);
  }

  /** Asking for "what", "context" and "what" again searches "context" and "what". */
  lemma FieldsExample()
    ensures NormalizeFields(Some(["what", "context", "what"])) == Some(["context", "what"])
  {
    var normal := ["context", "what"];
    assert StrAtMost(normal[0], normal[1]);
    assert SortedStrings(normal);
    DedupeOfDistinct(normal);
    SortStringsOfSorted(normal);
    FieldsIgnoreOrder(["what", "context", "what"], normal);
  }

  function DateError(field: string): string {
    field + " must be an ISO 8601 date string"
  }

  /** `parseDate`: a missing or empty text is no bound; otherwise the instant `parse` reads
      from it, or the error naming the field when it reads none. */
  function ParseDate(field: string, value: Option<string>, parse: string -> Option<int>): (r: Result<Option<int>>)
    ensures value.None? || value.value == "" ==> r == Ok(None)
    ensures value.Some? && value.value != "" ==>
              if parse(value.value).None? then r == Err(DateError(field)) else r == Ok(parse(value.value))
  {
    if value.None? || value.value == "" then Ok(None)
    else
      match parse(value.value)
      case None => Err(DateError(field))
      case Some(instant) => Ok(Some(instant))
  }

  const DateOrderError: string := "createdAfter must be earlier than or equal to createdBefore"

  /** The two bounds, parsed in turn, and refused when the lower lies after the upper. */
  function DateBounds(input: ObservationListInput, parse: string -> Option<int>): (r: Result<(Option<int>, Option<int>)>)
    ensures var after := ParseDate("createdAfter", input.createdAfter, parse);
            var before := ParseDate("createdBefore", input.createdBefore, parse);
            && (after.Err? ==> r == Err(after.message))
            && (after.Ok? && before.Err? ==> r == Err(before.message))
            && (after.Ok? && before.Ok? ==>
                  if after.value.Some? && before.value.Some? && after.value.value > before.value.value
                  then r == Err(DateOrderError)
                  else r == Ok((after.value, before.value)))
  {
    match ParseDate("createdAfter", input.createdAfter, parse)
    case Err(message) => Err(message)
    case Ok(after) =>
      match ParseDate("createdBefore", input.createdBefore, parse)
      case Err(message) => Err(message)
      case Ok(before) =>
        if after.Some? && before.Some? && after.value > before.value then Err(DateOrderError)
        else Ok((after, before))
  }

  /** Bounds at the same instant are accepted. */
  lemma EqualBoundsAccepted(input: ObservationListInput, parse: string -> Option<int>, instant: int)
    requires input.createdAfter.Some? && input.createdAfter.value != "" && parse(input.createdAfter.value) == Some(instant)
    requires input.createdBefore.Some? && input.createdBefore.value != "" && parse(input.createdBefore.value) == Some(instant)
    ensures DateBounds(input, parse) == Ok((Some(instant), Some(instant)))
  {
  }

  /** `x || undefined` on an optional text. */
  function EmptyAsAbsent(s: Option<string>): (r: Option<string>)
    ensures r.None? <==> s.None? || s.value == ""
    ensures r.Some? ==> r == s
  {
    if s.Some? && s.value != "" then s else None
  }

  /** The query of the handler: normalised fields, empty metadata left out, the sort
      defaulting to ascending creation time, and everything else as given. */
  function Query(input: ObservationListInput, after: Option<int>, before: Option<int>): (q: ObservationQuery)
    ensures q.caseId == input.caseId && q.query == input.query
    ensures q.fields == NormalizeFields(input.fields)
    ensures q.createdAfter == after && q.createdBefore == before
    ensures q.gitBranch == EmptyAsAbsent(input.gitBranch)
    ensures q.gitCommit == EmptyAsAbsent(input.gitCommit)
    ensures q.deployEnv == EmptyAsAbsent(input.deployEnv)
    ensures q.sortBy == CreatedAt
    ensures input.order.None? ==> q.order == Asc
    ensures input.order.Some? ==> q.order == input.order.value
    ensures q.pageSize == input.pageSize && q.cursor == input.cursor
  {
    ObservationQuery(input.caseId, input.query, NormalizeFields(input.fields), after, before,
                     EmptyAsAbsent(input.gitBranch), EmptyAsAbsent(input.gitCommit), EmptyAsAbsent(input.deployEnv),
                     input.sortBy.GetOr(CreatedAt), input.order.GetOr(Asc), input.pageSize, input.cursor)
  }

  /** `Boolean(nextCursor)`: a cursor that is present and not empty. */
  predicate HasMore(nextCursor: Option<string>) {
    nextCursor.Some? && nextCursor.value != ""
  }

  /** A blank date bound is trimmed by the schema to the empty text, which is no bound:
      `parse` is never asked about it. */
  lemma BlankDateIsNoBound(raw: ObservationListInput, parse: string -> Option<int>)
    requires ApplySchema(raw).Some?
    requires raw.createdAfter.Some? && IsBlank(raw.createdAfter.value)
    ensures ParseDate("createdAfter", ApplySchema(raw).value.createdAfter, parse) == Ok(None)
  {
  }

  /** The handler, on arguments the schema has passed. A date error comes before any query,
      and an error of the store is passed on; otherwise the listing succeeds and is echoed
      with the input's case id and `hasMore` telling whether a further page can be asked for. */
  function ObservationsList(input: ObservationListInput, parse: string -> Option<int>,
                            listObservations: ObservationQuery -> Result<ObservationPage>)
    : (r: Result<ObservationListOutput>)
    requires ParsedInput(input)
    ensures DateBounds(input, parse).Err? ==> r == Err(DateBounds(input, parse).message)
    ensures r.Ok? ==>
              && DateBounds(input, parse).Ok?
              && var bounds := DateBounds(input, parse).value;
                 var page := listObservations(Query(input, bounds.0, bounds.1));
                 && page.Ok?
                 && r.value.caseId == input.caseId
                 && r.value.observations == page.value.observations
                 && r.value.nextCursor == page.value.nextCursor
                 && r.value.total == page.value.total && r.value.pageSize == page.value.pageSize
                 && (r.value.hasMore <==> HasMore(r.value.nextCursor))
    ensures DateBounds(input, parse).Ok? ==>
              var bounds := DateBounds(input, parse).value;
              var page := listObservations(Query(input, bounds.0, bounds.1));
              && (page.Err? ==> r == Err(page.message))
              && (page.Ok? ==> r.Ok?)
  {
    match DateBounds(input, parse)
    case Err(message) => Err(message)
    case Ok((after, before)) =>
      match listObservations(Query(input, after, before))
      case Err(message) => Err(message)
      case Ok(page) =>
        Ok(ObservationListOutput(input.caseId, page.observations, page.nextCursor,
                                 page.total, page.pageSize, HasMore(page.nextCursor)))
  }
}
