/** `listCases` of src/data/caseStore.ts: filtering, the filter signature, the paging
    cursor and the page itself. */
module CaseList {
  import opened Wrappers
  import opened Seqs
  import opened Text
  import opened Decimal
  import opened Sorting
  import opened Tags
  import opened Records

  datatype ListCasesOptions = ListCasesOptions(
    query: Option<string>, tags: Option<seq<string>>, severity: Option<Severity>,
    includeArchived: Option<bool>, pageSize: Option<int>, cursor: Option<string>)

  /** The filters after clean-up: the query and the tags are trimmed and lower-cased. */
  datatype Filters = Filters(
    query: Option<string>, tags: Option<seq<string>>, severity: Option<Severity>,
    includeArchived: bool)

  datatype CaseSummary = CaseSummary(
    id: string, title: string, severity: Severity, status: CaseStatus, tags: seq<string>,
    createdAt: string, updatedAt: string, observationCount: nat)

  datatype ListCasesResult = ListCasesResult(
    cases: seq<CaseSummary>, nextCursor: Option<string>, total: nat)

  const MaxListTotal: nat := 1000
  const DefaultPageSize: int := 20
  const MaxPageSize: int := 50

  /** `s.trim().toLowerCase()` */
  function SearchText(s: string): string {
    ToLower(Trim(s))
  }

  function SearchTexts(): string -> string {
    (s: string) => SearchText(s)
  }

  /** The filter tags: trimmed, lower-cased, blank ones dropped, order and repeats kept. */
  function FilterTags(ts: seq<string>): (r: seq<string>)
    ensures forall i :: 0 <= i < |r| ==> r[i] != "" && exists j :: 0 <= j < |ts| && SearchText(ts[j]) == r[i]
    ensures forall j :: 0 <= j < |ts| && !IsBlank(ts[j]) ==> SearchText(ts[j]) in r
  {
    FilterTagsFacts(ts);
    Filter(MapSeq(ts, SearchTexts()), NonEmpty())
  }

  lemma FilterTagsFacts(ts: seq<string>)
    ensures var r := Filter(MapSeq(ts, SearchTexts()), NonEmpty());
            && (forall i :: 0 <= i < |r| ==> r[i] != "" && exists j :: 0 <= j < |ts| && SearchText(ts[j]) == r[i])
            && (forall j :: 0 <= j < |ts| && !IsBlank(ts[j]) ==> SearchText(ts[j]) in r)
  {
    var lowered := MapSeq(ts, SearchTexts());
    var r := Filter(lowered, NonEmpty());
    forall i | 0 <= i < |r|
      ensures r[i] != "" && exists j :: 0 <= j < |ts| && SearchText(ts[j]) == r[i]
    {
      assert NonEmpty()(r[i]);
      var j :| 0 <= j < |lowered| && lowered[j] == r[i];
    }
    forall j | 0 <= j < |ts| && !IsBlank(ts[j])
      ensures SearchText(ts[j]) in r
    {
      assert lowered[j] == SearchText(ts[j]);
      assert NonEmpty()(lowered[j]);
    }
  }

  /** The query filter: trimmed and lower-cased, and none at all when blank. */
  function QueryFilter(query: Option<string>): (r: Option<string>)
    ensures r.None? <==> query.None? || IsBlank(query.value)
    ensures r.Some? ==> r.value == SearchText(query.value) && r.value != ""
  {
    if query.Some? && SearchText(query.value) != "" then Some(SearchText(query.value)) else None
  }

  /** The filters `listCases` applies; `includeArchived` holds only when set to `true`. */
  function NormalizeFilters(o: ListCasesOptions): (f: Filters)
    ensures f.query == QueryFilter(o.query)
    ensures f.tags.None? <==> o.tags.None?
    ensures f.tags.Some? ==> f.tags.value == FilterTags(o.tags.value)
    ensures f.severity == o.severity
    ensures f.includeArchived <==> o.includeArchived == Some(true)
  {
    Filters(QueryFilter(o.query), if o.tags.Some? then Some(FilterTags(o.tags.value)) else None,
            o.severity, o.includeArchived.GetOr(false))
  }

  /** The cursor is no filter. */
  lemma FiltersIgnoreCursor(o: ListCasesOptions, cursor: Option<string>)
    ensures NormalizeFilters(o.(cursor := cursor)) == NormalizeFilters(o)
  {
    var p := o.(cursor := cursor);
    assert p.query == o.query && p.tags == o.tags && p.severity == o.severity && p.includeArchived == o.includeArchived;
  }

  /** Some tag of the case, lower-cased, starts with `prefix`. */
  predicate HasTagPrefix(c: Case, prefix: string) {
    exists j :: 0 <= j < |c.tags| && StartsWith(ToLower(c.tags[j]), prefix)
  }

  predicate MatchesFilters(f: Filters, c: Case) {
    && (f.includeArchived || c.status != Archived)
    && (f.severity.None? || c.severity == f.severity.value)
    && (f.tags.None? || forall i :: 0 <= i < |f.tags.value| ==> HasTagPrefix(c, f.tags.value[i]))
    && (f.query.None? || StartsWith(ToLower(c.title), f.query.value) || HasTagPrefix(c, f.query.value))
  }

  function Matches(f: Filters): Case -> bool {
    (c: Case) => MatchesFilters(f, c)
  }

  /** The cases `listCases` pages through, in store order. */
  function MatchingCases(cases: seq<Case>, f: Filters): seq<Case> {
    Filter(cases, Matches(f))
  }

  /** Filtering keeps exactly the matching cases (their order is `MatchingCasesInStoreOrder`). */
  lemma MatchingCasesExactly(cases: seq<Case>, f: Filters)
    ensures var m := MatchingCases(cases, f);
            && (forall i :: 0 <= i < |m| ==> m[i] in cases && MatchesFilters(f, m[i]))
            && (forall k :: 0 <= k < |cases| && MatchesFilters(f, cases[k]) ==> cases[k] in m)
  {
    var m := MatchingCases(cases, f);
    forall i | 0 <= i < |m| ensures MatchesFilters(f, m[i]) {
      assert Matches(f)(m[i]);
    }
  }

  /** The matching cases keep their store order: the i-th listed case is the store's case at
      position `idx[i]`, the positions increase, and every matching position is among them. */
  lemma MatchingCasesInStoreOrder(cases: seq<Case>, f: Filters) returns (idx: seq<nat>)
    ensures |idx| == |MatchingCases(cases, f)|
    ensures forall i :: 0 <= i < |idx| ==> idx[i] < |cases| && MatchingCases(cases, f)[i] == cases[idx[i]]
    ensures forall i, j :: 0 <= i < j < |idx| ==> idx[i] < idx[j]
    ensures forall k :: 0 <= k < |cases| && MatchesFilters(f, cases[k]) ==> k in idx
  {
    idx := FilterInOrder(cases, Matches(f));
    assert forall k :: 0 <= k < |cases| ==> Matches(f)(cases[k]) == MatchesFilters(f, cases[k]);
  }

  // ---------------------------------------------------------------------------------------
  // The filter signature

  function Quoted(s: string): string {
    "\"" + s + "\""
  }

  function QuotedList(ts: seq<string>): string {
    if ts == [] then ""
    else if |ts| == 1 then Quoted(ts[0])
    else Quoted(ts[0]) + "," + QuotedList(ts[1..])
  }

  function SeverityName(s: Severity): string {
    match s
    case SEV1 => "SEV1"
    case SEV2 => "SEV2"
    case SEV3 => "SEV3"
  }

  /** A text determined by the normalised filters, with the filter tags sorted; it has the
      shape of the source's `JSON.stringify` of the four fields. It ends in `true}` exactly when
      archived cases are included, so a cursor never carries over between the two listings. */
  function FilterSignature(f: Filters): (r: string)
    ensures |r| >= 5 && (r[|r| - 5..] == "true}" <==> f.includeArchived)
  {
    var fields :=
      "{\"query\":" + (if f.query.Some? then Quoted(f.query.value) else "null")
      + ",\"tags\":" + (if f.tags.Some? then "[" + QuotedList(SortStrings(f.tags.value)) + "]" else "null")
      + ",\"severity\":" + (if f.severity.Some? then Quoted(SeverityName(f.severity.value)) else "null")
      + ",\"includeArchived\":";
    var last := (if f.includeArchived then "true" else "false") + "}";
    assert (fields + last)[|fields + last| - 5..] == last[|last| - 5..];
    assert !f.includeArchived ==> last[|last| - 5..][0] == 'a';
    fields + last
  }

  /** The order of the filter tags, and their repetition counts aside, does not change the
      signature: filters that are permutations of each other share their cursors. */
  lemma SignatureIgnoresTagOrder(f: Filters, g: Filters)
    requires f.query == g.query && f.severity == g.severity && f.includeArchived == g.includeArchived
    requires f.tags.None? <==> g.tags.None?
    requires f.tags.Some? ==> multiset(f.tags.value) == multiset(g.tags.value)
    ensures FilterSignature(f) == FilterSignature(g)
  {
    if f.tags.Some? {
      SortStringsPermutation(f.tags.value, g.tags.value);
    }
  }

  // ---------------------------------------------------------------------------------------
  // The paging cursor

  /** The cursor payload `{offset, signature}` as text; the JSON and base64url layers are not
      part of this model. */
  function EncodeListCursor(offset: int, signature: string): string {
    IntText(offset) + ":" + signature
  }

  /** Fails on anything that is not an integer, a colon and a signature. */
  function DecodeListCursor(cursor: string): Option<(int, string)> {
    match IndexOf(cursor, ':')
    case None => None
    case Some(p) =>
      match ParseInt(cursor[..p])
      case None => None
      case Some(n) => Some((n, cursor[p + 1..]))
  }

  /** Decoding an encoded cursor gives back its offset and signature. */
  lemma ListCursorRoundTrip(offset: int, signature: string)
    ensures DecodeListCursor(EncodeListCursor(offset, signature)) == Some((offset, signature))
  {
    var text := IntText(offset);
    var cursor := EncodeListCursor(offset, signature);
    assert cursor[|text|] == ':';
    forall i | 0 <= i < |text| ensures cursor[i] != ':' {
      assert cursor[i] == text[i];
    }
    assert IndexOf(cursor, ':') == Some(|text|);
    assert cursor[..|text|] == text;
    assert cursor[|text| + 1..] == signature;
    IntTextRoundTrip(offset);
  }

  /** The offset a cursor selects: the decoded offset (at least 0) when the signature is the
      current one, and 0 for a missing, empty, malformed or foreign cursor. */
  function StartOffset(cursor: Option<string>, signature: string): (offset: nat)
    ensures cursor.None? || cursor.value == "" ==> offset == 0
    ensures cursor.Some? && DecodeListCursor(cursor.value).None? ==> offset == 0
    ensures cursor.Some? && DecodeListCursor(cursor.value).Some? && DecodeListCursor(cursor.value).value.1 != signature
            ==> offset == 0
    ensures cursor.Some? && cursor.value != "" && DecodeListCursor(cursor.value).Some?
            && DecodeListCursor(cursor.value).value.1 == signature
            ==> offset == Max(DecodeListCursor(cursor.value).value.0, 0)
    ensures offset != 0 ==> cursor.Some? && DecodeListCursor(cursor.value) == Some((offset as int, signature))
  {
    if cursor.None? || cursor.value == "" then 0
    else
      match DecodeListCursor(cursor.value)
      case None => 0
      case Some(payload) => if payload.1 == signature then Max(payload.0, 0) else 0
  }

  /** A cursor issued for the same filters resumes at its offset; one issued for other
      filters starts again at 0. */
  lemma CursorResumes(offset: nat, signature: string, current: string)
    ensures StartOffset(Some(EncodeListCursor(offset, signature)), current)
         == (if signature == current then offset else 0)
  {
    ListCursorRoundTrip(offset, signature);
  }

  /** `Math.min(Math.max(pageSize ?? 20, 1), 50)` */
  function PageSize(requested: Option<int>): (size: int)
    ensures 1 <= size <= MaxPageSize
    ensures requested.None? ==> size == DefaultPageSize
    ensures requested.Some? && 1 <= requested.value <= MaxPageSize ==> size == requested.value
    ensures requested.Some? && requested.value < 1 ==> size == 1
    ensures requested.Some? && requested.value > MaxPageSize ==> size == MaxPageSize
  {
    Min(Max(requested.GetOr(DefaultPageSize), 1), MaxPageSize)
  }

  function Summarize(c: Case): CaseSummary {
    CaseSummary(c.id, c.title, c.severity, c.status, c.tags, c.createdAt, c.updatedAt, |c.observations|)
  }

  /** The offset of the page `listCases` returns. */
  function PageOffset(options: ListCasesOptions): nat {
    StartOffset(options.cursor, FilterSignature(NormalizeFilters(options)))
  }

  /** One page of `matching`: the summaries of at most `size` cases from `offset` on, the
      cursor of the next page when cases remain after this one, and the count capped at 1000. */
  function ListPage(matching: seq<Case>, offset: nat, size: nat, signature: string): (r: ListCasesResult)
    ensures |r.cases| == (if offset < |matching| then Min(offset + size, |matching|) - offset else 0)
    ensures forall i :: 0 <= i < |r.cases| ==> offset + i < |matching| && r.cases[i] == Summarize(matching[offset + i])
    ensures r.nextCursor.Some? <==> offset + size < |matching|
    ensures r.nextCursor.Some? ==> r.nextCursor.value == EncodeListCursor(offset + size, signature)
    ensures r.total == Min(|matching|, MaxListTotal)
  {
    var next := offset + size;
    ListCasesResult(
      MapSeq(Slice(matching, offset, next), Summarize),
      if next < |matching| then Some(EncodeListCursor(next, signature)) else None,
      if |matching| > MaxListTotal then MaxListTotal else |matching|)
  }

  /** `listCases`: the page of the matching cases that the cursor selects, bound to the
      signature of the filters. */
  function ListCases(cases: seq<Case>, options: ListCasesOptions): (r: ListCasesResult)
    ensures |r.cases| <= MaxPageSize && r.total <= MaxListTotal
    ensures r.nextCursor.Some? ==>
              r.nextCursor.value == EncodeListCursor(PageOffset(options) + PageSize(options.pageSize),
                                                     FilterSignature(NormalizeFilters(options)))
  {
    ListPage(MatchingCases(cases, NormalizeFilters(options)), PageOffset(options), PageSize(options.pageSize),
             FilterSignature(NormalizeFilters(options)))
  }

  /** Every matching case is a stored case that matches the filters. */
  lemma MatchingElement(cases: seq<Case>, f: Filters, j: nat) returns (k: nat)
    requires j < |MatchingCases(cases, f)|
    ensures k < |cases| && cases[k] == MatchingCases(cases, f)[j]
    ensures MatchesFilters(f, cases[k])
  {
    MatchingCasesExactly(cases, f);
    k :| 0 <= k < |cases| && cases[k] == MatchingCases(cases, f)[j];
  }

  /** Whatever its offset and size, every summary on a page of the matching cases (so every
      summary `listCases` returns) is that of a stored case matching the filters. */
  lemma ListedCaseMatches(cases: seq<Case>, f: Filters, offset: nat, size: nat, signature: string, i: nat)
    returns (k: nat)
    requires i < |ListPage(MatchingCases(cases, f), offset, size, signature).cases|
    ensures k < |cases| && ListPage(MatchingCases(cases, f), offset, size, signature).cases[i] == Summarize(cases[k])
    ensures MatchesFilters(f, cases[k])
  {
    k := MatchingElement(cases, f, offset + i);
  }

  /** Archived cases are listed only when `includeArchived` is set. */
  lemma ArchivedHidden(cases: seq<Case>, f: Filters, offset: nat, size: nat, signature: string)
    requires !f.includeArchived
    ensures var page := ListPage(MatchingCases(cases, f), offset, size, signature).cases;
            forall i :: 0 <= i < |page| ==> page[i].status == Active
  {
    var page := ListPage(MatchingCases(cases, f), offset, size, signature).cases;
    forall i | 0 <= i < |page| ensures page[i].status == Active {
      var k := ListedCaseMatches(cases, f, offset, size, signature, i);
    }
  }

  /** Some tag of the summary, lower-cased, starts with `prefix`. */
  predicate SummaryHasTagPrefix(c: CaseSummary, prefix: string) {
    exists j :: 0 <= j < |c.tags| && StartsWith(ToLower(c.tags[j]), prefix)
  }

  /** Every filter tag is a lower-case prefix of some tag of every listed case. */
  lemma ListedCasesHaveTags(cases: seq<Case>, f: Filters, offset: nat, size: nat, signature: string,
                            i: nat, t: nat)
    requires f.tags.Some?
    requires i < |ListPage(MatchingCases(cases, f), offset, size, signature).cases|
    requires t < |f.tags.value|
    ensures SummaryHasTagPrefix(ListPage(MatchingCases(cases, f), offset, size, signature).cases[i], f.tags.value[t])
  {
    var k := ListedCaseMatches(cases, f, offset, size, signature, i);
    MatchHasTag(f, cases[k], t);
  }

  lemma MatchHasTag(f: Filters, c: Case, t: nat)
    requires MatchesFilters(f, c) && f.tags.Some? && t < |f.tags.value|
    ensures SummaryHasTagPrefix(Summarize(c), f.tags.value[t])
  {
    assert HasTagPrefix(c, f.tags.value[t]);
  }

  /** A cursor made for the current filters resumes at its offset. */
  lemma OwnCursorResumes(options: ListCasesOptions, offset: nat)
    ensures PageOffset(options.(cursor := Some(EncodeListCursor(offset, FilterSignature(NormalizeFilters(options))))))
         == offset
  {
    FiltersIgnoreCursor(options, Some(EncodeListCursor(offset, FilterSignature(NormalizeFilters(options)))));
    CursorResumes(offset, FilterSignature(NormalizeFilters(options)), FilterSignature(NormalizeFilters(options)));
  }

  /** Following `nextCursor` with the same options continues right after the page. */
  lemma NextPageContinues(cases: seq<Case>, options: ListCasesOptions)
    requires ListCases(cases, options).nextCursor.Some?
    ensures PageOffset(options.(cursor := ListCases(cases, options).nextCursor))
         == PageOffset(options) + PageSize(options.pageSize)
  {
    var next := PageOffset(options) + PageSize(options.pageSize);
    assert ListCases(cases, options).nextCursor == Some(EncodeListCursor(next, FilterSignature(NormalizeFilters(options))));
    OwnCursorResumes(options, next);
  }
}
