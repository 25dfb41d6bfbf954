# mcp-rca in Dafny

A model of the core of mcp-rca, an MCP server for root-cause analysis. The model covers:

- the case store: cases with their observations, hypotheses and test plans;
- listing and paging of cases and observations;
- RICE/ICE prioritisation of test items;
- the case analyzer;
- the prompt template renderer;
- the tool registry of the server kit and the server's registration and start dispatch;
- the command line entry point;
- the input schemas and guards of the case and observation tools.

The model proves properties of each of these parts.

## Modules

The modules follow the source files:

- `CaseStore` (case_store.dfy) models `src/data/caseStore.ts`. Class `Store` holds the case list. Each operation of the source is a method on it: it loads the list, changes one case and saves it. The pure functions `NewCase`, `UpdatedCase`, and so on specify what each method stores.
- `CaseList` (case_list.dfy) models `listCases` and `createFilterSignature` of the same file. This covers the filters, the signature and cursor, and the page.
- `CaseGet`, `Prioritize`, `CaseAnalyzer` and `TemplateRenderer` model `case_get.ts`, `prioritize.ts`, `case-analyzer.ts` and `template-renderer.ts`.
- `McpServerKit`, `Server` and `Cli` model `mcpServerKit.ts`, `server.ts` and `cli.ts`.
- `CaseCreateTool`, `CaseUpdateTool`, `ObservationUpdateTool` and `ObservationsListTool` model the tool handlers.
- `Records`, `Tags`, `Text`, `Decimal`, `Sorting`, `Seqs` and `Wrappers` hold the shared data model and the JavaScript library behaviour the source relies on:
  - `String.prototype.trim` with its whitespace set;
  - ASCII `toLowerCase`;
  - `Array.prototype.filter`, `findIndex` and `slice`;
  - `Set` de-duplication;
  - the stable `sort`.

State the source changes in place is modelled in place:

- The store's list is a `var cases` reassigned by the store's methods.
- The server's `Map` is a `var tools` plus its key order.
- `analyzeCase` sorts the case's hypotheses array in place, and the model does the same to an `array`.

The loops of the source are methods with loop invariants (`SplitBy`, `ParseArguments`, `BuildServer`, `RenderTemplate`, `CollectFlatEntries`). Each is proved against a function, and the properties are proved about those functions.

The repository's description also speaks of message framing, request routing and a stdio transport. None of this exists in the source files modelled: the server kit's `start` and `listen` are placeholders. The model follows the code.

## Model

| member | source | states |
|---|---|---|
| Tags.NormalizeTags | src/data/caseStore.ts:65-73 | tags come out trimmed, non-empty, without repeats and in ascending order; a missing list gives `[]` |
| Tags.NormalizeNormalTags | src/data/caseStore.ts:65-73 | tags already in normal form are returned unchanged |
| Tags.NormalizeTagsIdempotent | src/data/caseStore.ts:65-73 | normalising twice gives the same tags as normalising once |
| Tags.NormalTagsUnique | src/data/caseStore.ts:65-73 | two normal tag lists with the same elements are equal |
| Tags.CleanTagsCovered | src/data/caseStore.ts:65-73 | when every trimmed tag of one list occurs trimmed in another, every normalised tag of the first is a normalised tag of the second |
| Tags.NormalizeTagsIgnoresOrder | src/data/caseStore.ts:65-73 | tag lists holding the same texts normalise to the same result, whatever their order and repetitions |
| Tags.CleanTags | src/data/caseStore.ts:69-70 | the tags without repeats, each trimmed and non-empty: exactly the trimmed non-blank input tags |
| Tags.SortedCleanTags | src/tools/case.ts:44-49 | trimmed, non-empty, duplicate-free, sorted tags holding exactly the trimmed non-blank inputs |
| Text.Trim | src/data/caseStore.ts:337 | the result has no leading or trailing whitespace, and it is empty exactly when the input is blank |
| Text.TrimIsInfix | src/data/caseStore.ts:337 | trimming removes only a whitespace prefix and a whitespace suffix: the result is an infix of the input |
| Text.TrimIdempotent | src/data/caseStore.ts:337 | trimming a trimmed text changes nothing |
| Text.TrimOption | src/tools/case.ts:28-33 | an optional text through a `.trim()` schema is present exactly when given, and then trimmed |
| Text.TrimOptionOfTrimmed | src/tools/case.ts:31-33 | the schema leaves a trimmed text as it is |
| Text.ToLowerIdempotent | src/data/caseStore.ts:468-488 | lower-casing twice equals lower-casing once |
| Decimal.IntTextRoundTrip | src/data/caseStore.ts:431-446 | the decimal text of any integer parses back to that integer |
| Decimal.IntTextInjective | src/data/caseStore.ts:431-446 | different integers get different texts |
| Records.OptionalText | src/data/caseStore.ts:182-188 | an absent or blank optional text is stored as absent, otherwise trimmed |
| Records.PatchText | src/data/caseStore.ts:338-343 | `undefined` keeps the value; `null` or blank clears it; anything else is trimmed and set |
| Records.PatchValue | src/data/caseStore.ts:611 | `undefined` keeps the value, `null` clears it, a number replaces it |
| Records.PatchRequired | src/data/caseStore.ts:337 | a missing or blank required text keeps the original, otherwise the trimmed text replaces it |
| Records.PatchTextIdempotent | src/data/caseStore.ts:338-343 | applying the same optional-field patch twice equals applying it once |
| CaseStore.NormalizeCase | src/data/caseStore.ts:75-100 | collections that are not arrays become `[]`; status defaults to active; `updatedAt` falls back to `createdAt`, then to now; tags are `NormalizeTags` of the record's, so normal tags are kept and missing ones become `[]`; identity and other fields are kept |
| CaseStore.LoadCases | src/data/caseStore.ts:102-107 | every loaded record is normalised, in file order |
| CaseStore.SaveCases | src/data/caseStore.ts:109-113 | every case is written as a full record, in order |
| CaseStore.LoadSaveRoundTrip | src/data/caseStore.ts:102-113 | saving normalised cases and loading them again gives the same cases |
| CaseStore.LoadCasesIdempotent | src/data/caseStore.ts:102-113 | a second load-save-load cycle changes nothing |
| CaseStore.GetCase | src/data/caseStore.ts:386-393 | returns the first case with the id, and `None` exactly when no case has it |
| CaseStore.NewCase | src/data/caseStore.ts:128-155 | a new case is active and carries the normalised input tags (`NormalizeTags`), which are normal and drawn exactly from the input, no collections, no conclusion, and `createdAt == updatedAt == now` |
| CaseStore.NewObservation | src/data/caseStore.ts:182-201 | the stored context is trimmed, and absent when blank; the other fields come from the input |
| CaseStore.NewHypothesis | src/data/caseStore.ts:230-248 | the stored rationale is trimmed, and absent when blank; confidence is kept; both time stamps are now |
| CaseStore.NewTestPlan | src/data/caseStore.ts:874-896 | the stored metric is trimmed, and absent when blank; there is no priority; both time stamps are now |
| CaseStore.UpdatedCase | src/data/caseStore.ts:551-561 | identity, collections and conclusion are kept; title, severity and status follow their rules; given tags become `NormalizeTags` of them; metadata follows the three-way rule; `updatedAt` is now |
| CaseStore.UpdatedCaseIdempotent | src/data/caseStore.ts:551-561 | repeating a case update changes nothing further |
| CaseStore.UpdatedObservation | src/data/caseStore.ts:335-362 | identity and creation time are kept; `what` follows the required-text rule; context and metadata follow the three-way rule |
| CaseStore.UpdatedObservationIdempotent | src/data/caseStore.ts:335-362 | repeating an observation update changes nothing further |
| CaseStore.UpdatedHypothesis | src/data/caseStore.ts:602-613 | the update rules for text, rationale and confidence; identity is kept |
| CaseStore.UpdatedHypothesisIdempotent | src/data/caseStore.ts:602-613 | repeating a hypothesis update changes nothing further |
| CaseStore.FinalizeOnlySetsConfidence | src/data/caseStore.ts:824-833 | finalising sets the confidence to 1.0 and the update time, and nothing else |
| CaseStore.UpdatedTestPlan | src/data/caseStore.ts:718-748 | method and expected follow the required-text rule; metric and metadata follow the three-way rule; priority follows the null rule; identity is kept |
| CaseStore.UpdatedTestPlanIdempotent | src/data/caseStore.ts:718-748 | repeating a test plan update changes nothing further |
| CaseStore.SplitBy | src/data/caseStore.ts:925-941 | the loop's two lists are the elements that are dropped and kept, each in input order |
| CaseStore.IsProvisional | src/data/caseStore.ts:925-926 | the hypothesis rule as the code writes it, `(confidence ?? 0) < threshold` (a definition; `ProvisionalPartition` states its consequences) |
| CaseStore.IsDiscardableAsWritten | src/data/caseStore.ts:934-935 | the test-plan rule as the code writes it, `(priority ?? 0) > threshold` or the plan's hypothesis was deleted; the store uses it (a definition; `PlanPartitionAsWritten` states its consequences) |
| CaseStore.IsDiscardable | src/data/caseStore.ts:933 | the test-plan rule as the comment states it, a priority above the threshold or missing, or a deleted hypothesis (a definition; the corrected half of Findings, see `PlanPartition`) |
| CaseStore.PartitionProvisional | src/data/caseStore.ts:925-941 | hypotheses are split by the confidence threshold; test plans are split by the code's rule, a missing priority counting as 0, and by the deleted hypothesis ids |
| CaseStore.ProvisionalPartition | src/data/caseStore.ts:923-931 | deleted plus remaining hypotheses are the original list; a hypothesis is deleted iff its confidence is below the threshold |
| CaseStore.PlanPartitionAsWritten | src/data/caseStore.ts:933-941 | for the store's rule: deleted plus remaining plans are the original list; a plan is deleted iff `(priority ?? 0)` is above the threshold or its hypothesis was deleted; every remaining plan has `(priority ?? 0)` at most the threshold and refers to no deleted hypothesis |
| CaseStore.PlanPartition | src/data/caseStore.ts:933-941 | for the comment's rule: deleted plus remaining plans are the original list; every remaining plan has a priority, at most the threshold, and refers to no deleted hypothesis |
| CaseStore.UnprioritisedPlanKeptAsWritten | src/data/caseStore.ts:933-936 | the code's rule keeps a plan without a priority under any non-negative threshold, while the commented rule deletes it |
| CaseStore.DiscardRulesAgreeWithPriority | src/data/caseStore.ts:933-936 | the code's and the commented rule agree on every plan that has a priority |
| CaseStore.Store.Open | src/data/caseStore.ts:102-107 | the store holds the normalised records |
| CaseStore.Store.CreateCase | src/data/caseStore.ts:128-155 | appends exactly the new case at the end; all other cases are unchanged |
| CaseStore.Store.AddObservation | src/data/caseStore.ts:171-205 | an unknown case gives the not-found error and an unchanged store; otherwise exactly the new observation is appended to that case and every other case is unchanged |
| CaseStore.Store.AddHypothesis | src/data/caseStore.ts:219-252 | as AddObservation, for a hypothesis |
| CaseStore.Store.AddTestPlan | src/data/caseStore.ts:857-900 | errors for an unknown case or hypothesis with the store unchanged; otherwise the plan is appended to that case only |
| CaseStore.Store.UpdateCase | src/data/caseStore.ts:541-567 | an unknown case gives an error and no change; otherwise only the matched case is replaced, by `UpdatedCase` |
| CaseStore.Store.UpdateObservation | src/data/caseStore.ts:315-380 | errors for an unknown case or observation; otherwise only the matched observation of the matched case is replaced |
| CaseStore.Store.UpdateHypothesis | src/data/caseStore.ts:582-631 | errors for an unknown case or hypothesis; otherwise only the matched hypothesis is replaced |
| CaseStore.Store.UpdateTestPlan | src/data/caseStore.ts:698-766 | errors for an unknown case or plan; otherwise only the matched plan is replaced |
| CaseStore.Store.RemoveObservation | src/data/caseStore.ts:264-298 | errors for an unknown case or observation; otherwise exactly that observation is removed and returned |
| CaseStore.Store.RemoveHypothesis | src/data/caseStore.ts:643-679 | removes the hypothesis and every test plan that refers to it, returns the hypothesis, and leaves no remaining plan pointing at it |
| CaseStore.Store.RemoveTestPlan | src/data/caseStore.ts:778-812 | errors for an unknown case or plan; otherwise exactly that plan is removed and returned |
| CaseStore.Store.FinalizeHypothesis | src/data/caseStore.ts:824-833 | the same as `UpdateHypothesis` with confidence 1.0 |
| CaseStore.Store.BulkDeleteProvisional | src/data/caseStore.ts:908-959 | the thresholds default to 0.5 and 3; the deleted and remaining lists are those of `PartitionProvisional`, plans going by the code's rule; only the matched case changes |
| CaseStore.RemoveUndoesAdd | src/data/caseStore.ts:195-201 | removing an observation just added under a fresh id restores the list |
| CaseList.FilterTags | src/data/caseStore.ts:460-465 | the filter tags are exactly the trimmed, lower-cased, non-blank inputs |
| CaseList.QueryFilter | src/data/caseStore.ts:460-465 | a blank query is no filter; any other query is trimmed and lower-cased |
| CaseList.NormalizeFilters | src/data/caseStore.ts:460-465 | the four filters; `includeArchived` holds only when it is `true` |
| CaseList.FiltersIgnoreCursor | src/data/caseStore.ts:460-465 | the cursor does not change the filters |
| CaseList.MatchesFilters | src/data/caseStore.ts:467-489 | the filter callback of listCases: archived cases only with `includeArchived`, the severity if given, a tag prefix for every filter tag, and the query as a prefix of the lower-cased title or of a tag (a definition; `MatchingCasesExactly` and `MatchHasTag` state its consequences) |
| CaseList.MatchingCasesExactly | src/data/caseStore.ts:467-489 | exactly the stored cases passing every filter are kept |
| CaseList.MatchingCasesInStoreOrder | src/data/caseStore.ts:467-489 | the kept cases sit at strictly increasing store positions, and every matching position is among them: store order |
| CaseList.FilterSignature | src/data/caseStore.ts:448-456 | the signature ends in `true}` exactly when archived cases are included, so a cursor of one listing never resumes the other |
| CaseList.SignatureIgnoresTagOrder | src/data/caseStore.ts:448-456 | filters whose tags are permutations of each other get the same signature |
| CaseList.ListCursorRoundTrip | src/data/caseStore.ts:431-446 | decoding an encoded cursor gives back its offset and signature |
| CaseList.StartOffset | src/data/caseStore.ts:492-499 | a missing, empty, malformed or foreign cursor starts at 0; a cursor for the current signature starts at its decoded offset, raised to 0 if negative |
| CaseList.CursorResumes | src/data/caseStore.ts:492-499 | a cursor resumes at its offset exactly when its signature is the current one |
| CaseList.PageSize | src/data/caseStore.ts:491 | the page size defaults to 20 and is clamped to 1..50 |
| CaseList.Summarize | src/data/caseStore.ts:503-512 | a case's summary: its id, title, severity, status, tags and timestamps, and the number of its observations (a definition; `ListPage` and `ListedCaseMatches` use it) |
| CaseList.ListPage | src/data/caseStore.ts:501-517 | the page is the summaries of the matching cases from the offset on, at most `size` of them; `nextCursor` is present iff `offset + size` is below the match count and then encodes that offset; `total` is capped at 1000 |
| CaseList.ListCases | src/data/caseStore.ts:458-524 | at most 50 summaries, a total of at most 1000, and a next cursor that encodes the next offset under the current signature |
| CaseList.MatchingElement | src/data/caseStore.ts:467-489 | each matching case is a stored case that passes the filters |
| CaseList.ListedCaseMatches | src/data/caseStore.ts:467-512 | each listed summary is that of a stored case that passes the filters |
| CaseList.ArchivedHidden | src/data/caseStore.ts:468-470 | without `includeArchived`, only active cases are listed |
| CaseList.ListedCasesHaveTags | src/data/caseStore.ts:476-481 | each filter tag is a lower-case prefix of some tag of every listed case |
| CaseList.MatchHasTag | src/data/caseStore.ts:476-481 | a matching case's summary has a tag with each filter tag as prefix |
| CaseList.OwnCursorResumes | src/data/caseStore.ts:492-499 | a cursor made for the current filters resumes at its offset |
| CaseList.NextPageContinues | src/data/caseStore.ts:514-515 | following `nextCursor` with the same options starts right after the page |
| CaseGet.DecodeObservationCursor | src/tools/case_get.ts:44-58 | a missing, empty or malformed cursor gives 0; a readable one gives its offset, raised to 0 if negative |
| CaseGet.ObservationCursorRoundTrip | src/tools/case_get.ts:40-58 | decoding the encoding of n gives n for n ≥ 0, and 0 otherwise |
| CaseGet.SliceObservations | src/tools/case_get.ts:60-75 | an empty list gives no slice and no cursor; otherwise the slice runs from the clamped offset up to `offset + limit`, and the cursor is present iff more remain and then encodes `offset + limit` |
| CaseGet.WindowsAreConsecutive | src/tools/case_get.ts:60-75 | the next window starts where the previous one ended, with no gap or overlap |
| CaseGet.CaseGet | src/tools/case_get.ts:83-156 | an unknown case is an error; only the four collections change; collections that were not asked for are `[]`; the cursors are present iff observations are included, with `hasMore` equal to the cursor's presence and the correct counts |
| Prioritize.Score | src/tools/prioritize.ts:73-77 | the RICE and ICE formulas, with the defaults and the effort floor of 0.1 |
| Prioritize.Prioritize | src/tools/prioritize.ts:71-81 | the output has the same length and is a permutation of the input; ranks are 1..n; each score is that of its item; scores never increase; the order is the stable descending sort |
| Prioritize.PrioritizeIsStable | src/tools/prioritize.ts:80 | a one-to-one map from ranks to input positions keeps equal scores in input order |
| Prioritize.TopRankedHasHighestScore | src/tools/prioritize.ts:80-81 | rank 1 holds a score no lower than any input item's score |
| Prioritize.ExampleScores | tests/server.test.ts:24-31 | the three RICE scores of the test's items |
| Prioritize.ExampleSorted | tests/server.test.ts:24-39 | the sorted order of the test's three items |
| Prioritize.RiceExample | tests/server.test.ts:37-39 | the test's items rank b, c, a, with scores 16.875, 5.25 and 2 |
| Sorting.SortStrings | src/tools/observations_list.ts:60 | the result is sorted and a permutation of the input |
| Sorting.SortedUnique | src/tools/observations_list.ts:60 | two sorted permutations of each other are equal |
| Sorting.SortStringsPermutation | src/data/caseStore.ts:449 | permutations of each other sort to the same list |
| Sorting.SortStringsOfSorted | src/tools/observations_list.ts:60 | sorting a sorted list changes nothing |
| Sorting.SortDesc | src/tools/prioritize.ts:80 | the result is non-increasing by key and a permutation of the input |
| Sorting.SortDescMap | src/tools/prioritize.ts:71-80 | mapping, then sorting by the mapped key, equals sorting, then mapping |
| Sorting.SortDescCount | src/prompt-helpers/case-analyzer.ts:84 | sorting does not change how many elements satisfy a predicate |
| Sorting.SortDescHeadIsMax | src/prompt-helpers/case-analyzer.ts:48 | the first element has the largest key |
| Sorting.SortTaggedStable | src/tools/prioritize.ts:80 | elements with equal keys keep their input order |
| Sorting.SortOrder | src/tools/prioritize.ts:80 | the sort as a one-to-one map of positions that keeps equal keys in input order |
| CaseAnalyzer.PhaseOf | src/prompt-helpers/case-analyzer.ts:27-34 | conclusion, then tests, then hypotheses decide the phase, in that order |
| CaseAnalyzer.PushIf | src/prompt-helpers/case-analyzer.ts:54-89 | one `if` block adds its hint exactly when its condition holds, after the earlier hints |
| CaseAnalyzer.BuildHints | src/prompt-helpers/case-analyzer.ts:52-89 | each hint is present iff its condition holds; the low-confidence hint carries the count; hints come in block order |
| CaseAnalyzer.HintsAreDetermined | src/prompt-helpers/case-analyzer.ts:52-89 | the conditions determine the hint list completely |
| CaseAnalyzer.TopOf | src/prompt-helpers/case-analyzer.ts:97-103 | no top hypothesis iff the list is empty; otherwise the first one, with its confidence defaulting to 0 |
| CaseAnalyzer.TopHypothesisIsMostConfident | src/prompt-helpers/case-analyzer.ts:46-49 | the top hypothesis is one of the case's hypotheses and is at least as confident as any of them |
| CaseAnalyzer.SomeHighConfidence | src/prompt-helpers/case-analyzer.ts:42-43 | the filtered list is non-empty iff some hypothesis has confidence ≥ 0.8 |
| CaseAnalyzer.AnalyzeCase | src/prompt-helpers/case-analyzer.ts:20-106 | the phase; the need flags (both directions); `readyForConclusion`; the top hypothesis; the hints; and the hypotheses array sorted in place, stably, by decreasing confidence |
| TemplateRenderer.Lookup | src/prompt-helpers/template-renderer.ts:32 | the value of an own entry with that key; without one, the inherited `Object.prototype` member (an object) for names such as `toString`, and `undefined` otherwise |
| TemplateRenderer.ReplaceAll | src/prompt-helpers/template-renderer.ts:13 | replacing a pattern by itself changes nothing, and a replacement as long as the pattern keeps the length |
| TemplateRenderer.ReplaceAbsent | src/prompt-helpers/template-renderer.ts:13 | replacing a pattern that does not occur changes nothing |
| TemplateRenderer.ReplaceFirst | src/prompt-helpers/template-renderer.ts:13 | the first occurrence is replaced and the text before it is kept |
| TemplateRenderer.SubstituteAll | src/prompt-helpers/template-renderer.ts:4-17 | entries whose text is their own placeholder change nothing; entries whose text is as long as their placeholder keep the template's length |
| TemplateRenderer.SubstituteUnchanged | src/prompt-helpers/template-renderer.ts:4-17 | a template with no placeholder of any supplied key is returned unchanged |
| TemplateRenderer.SubstituteOneKey | src/prompt-helpers/template-renderer.ts:10-14 | a key's placeholder is replaced by the value's text, `""` for `undefined` |
| TemplateRenderer.RenderTemplate | src/prompt-helpers/template-renderer.ts:4-17 | the loop replaces every entry's placeholders, in entry order |
| TemplateRenderer.RenderConditional | src/prompt-helpers/template-renderer.ts:22-38 | rendering the conditional blocks never makes the template longer |
| TemplateRenderer.ConditionalPlainStep | src/prompt-helpers/template-renderer.ts:29-35 | text where no block starts is copied |
| TemplateRenderer.ConditionalBlockStep | src/prompt-helpers/template-renderer.ts:29-35 | a matched block is replaced by its content when truthy and by nothing otherwise, and scanning resumes after it |
| TemplateRenderer.ConditionalAbsent | src/prompt-helpers/template-renderer.ts:22-38 | a template without `{{#if` is unchanged |
| TemplateRenderer.ConditionalPrefix | src/prompt-helpers/template-renderer.ts:29-35 | text containing no block start is kept verbatim before the rest is rendered |
| TemplateRenderer.RenderBlock | src/prompt-helpers/template-renderer.ts:29-35 | a block up to the first following `{{/if}}` keeps its content when the key's value is truthy, an inherited member included; it is removed when the value is falsy or missing |
| TemplateRenderer.FlatEntries | src/prompt-helpers/template-renderer.ts:51-61 | exactly the entries with a string, number, boolean or `undefined` value are kept |
| TemplateRenderer.NonFlatKeyNotSubstituted | src/prompt-helpers/template-renderer.ts:51-61 | a key whose value is `null` or an object is never substituted |
| TemplateRenderer.CollectFlatEntries | src/prompt-helpers/template-renderer.ts:51-61 | the loop collects the flat entries in entry order |
| TemplateRenderer.Render | src/prompt-helpers/template-renderer.ts:43-66 | conditionals first, then substitution of only the flat entries |
| McpServerKit.InsertKey | src/framework/mcpServerKit.ts:24-26 | a known key keeps its position; a new key goes last; the keys stay distinct |
| McpServerKit.McpServer.constructor | src/framework/mcpServerKit.ts:21-39 | the options exactly as given, and no tools |
| McpServerKit.McpServer.Get | src/framework/mcpServerKit.ts:15 | returns the registered tool, and `None` iff none is registered |
| McpServerKit.McpServer.RegisterTool | src/framework/mcpServerKit.ts:24-26 | afterwards `get(name)` is the tool; re-registering keeps the position and the size; a new name is appended and nothing else changes |
| McpServerKit.McpServer.Start | src/framework/mcpServerKit.ts:28-37 | changes nothing |
| McpServerKit.McpServer.Listen | src/framework/mcpServerKit.ts:28-37 | changes nothing |
| Server.RegistrationRoute | src/server.ts:16-30 | prefers `registerTool`, then `tool`, then `addTool` (the last only with a name and a handler); otherwise the error |
| Server.StartRoute | src/server.ts:47-56 | prefers `start` over `listen`, and errors when neither exists |
| Server.KitRoutes | src/server.ts:16-56 | the kit's server registers through `registerTool` and starts through `start` |
| Server.ToolRegistry | src/server.ts:9-14 | four tools, each with a handler |
| Server.RegistryNames | src/server.ts:9-14 | the registry's names, in order and pairwise distinct |
| Server.BuildServer | src/server.ts:32-45 | name "mcp-rca", version "0.1.0", and the keys in registry order, each mapped to its tool |
| Server.Start | src/server.ts:47-56 | builds the server and resolves through the kit's `start` |
| Cli.ParseArguments | src/cli.ts:7-22 | `showHelp` iff some argument is `--help` or `-h`; `showVersion` iff some argument is `--version` or `-v` |
| Cli.OptionsIgnoreOrder | src/cli.ts:11-21 | only which arguments occur matters, not their order or count |
| Cli.ChooseAction | src/cli.ts:37-47 | version wins over help, and the server starts only when neither flag is set |
| Cli.RunCli | src/cli.ts:34-53 | the printed version or help text; otherwise starting, where a failure sets exit code 1 |
| Cli.LinkServer | src/cli.ts:4 | linking succeeds iff every imported name is exported; otherwise the error names a missing import |
| Cli.CliDoesNotLink | src/cli.ts:4 | as written, linking against `server.ts` fails on `SERVER_VERSION` |
| Cli.CliLinksWithVersionExport | src/cli.ts:4 | with `SERVER_VERSION` exported, `cli.ts` links |
| CaseCreateTool.CreateRequest | src/tools/case.ts:56-65 | tags normalised (missing ones become `[]`); metadata trimmed, with blanks absent |
| CaseCreateTool.StoredTagsAreRequested | src/tools/case.ts:57-58 | the store keeps the tool's normalised tags as they are |
| CaseCreateTool.ParseTags | src/tools/case.ts:30 | a tag list with a blank tag is refused; otherwise every tag is trimmed and none is empty |
| CaseCreateTool.ParseSchemaTags | src/tools/case.ts:30 | a tag list the schema passed passes again unchanged |
| CaseCreateTool.ApplySchema | src/tools/case.ts:27-34 | refused iff the title or a tag is blank; otherwise the title, tags and metadata trimmed, the result meeting `ParsedInput` |
| CaseCreateTool.SchemaIdempotent | src/tools/case.ts:27-34 | the schema is idempotent |
| CaseCreateTool.CaseCreate | src/tools/case.ts:56-73 | on arguments the schema passed, the returned `caseId` equals the created case's id, and the case is appended |
| CaseUpdateTool.TrimPatch | src/tools/case_update.ts:14-16 | a `null` or missing metadata field stays so; a given one is trimmed |
| CaseUpdateTool.ApplySchema | src/tools/case_update.ts:8-17 | refused iff the case id is empty or a tag is blank; otherwise title, tags and metadata trimmed and the rest kept |
| CaseUpdateTool.SchemaIdempotent | src/tools/case_update.ts:8-17 | the schema is idempotent |
| CaseUpdateTool.CaseUpdate | src/tools/case_update.ts:31-69 | the guard's error with nothing changed; otherwise exactly the store's `updateCase` effect |
| CaseUpdateTool.RefusedRequestsChangeNothing | src/tools/case_update.ts:32-42 | a request the guard refuses would change nothing but the update time |
| CaseUpdateTool.ClearingIsAnUpdate | src/tools/case_update.ts:37-39 | a `null` metadata field alone passes the guard and clears the field |
| CaseUpdateTool.EmptyTagsAreAnUpdate | src/tools/case_update.ts:35 | an empty tag list alone passes the guard and removes every tag |
| CaseUpdateTool.EmptyTitleIsNoUpdate | src/tools/case_update.ts:33 | an empty title alone does not pass the guard |
| CaseUpdateTool.BlankTitleIsNoUpdate | src/tools/case_update.ts:10 | a title of spaces is trimmed to `""` by the schema and then does not pass the guard |
| ObservationUpdateTool.StoreRequest | src/tools/observation_update.ts:42-47 | only case, observation, `what` and `context` are forwarded; metadata is kept |
| ObservationUpdateTool.ApplySchema | src/tools/observation_update.ts:14-19 | refused iff an identifier is empty; otherwise `what` and `context` trimmed |
| ObservationUpdateTool.SchemaIdempotent | src/tools/observation_update.ts:14-19 | the schema is idempotent |
| ObservationUpdateTool.ObservationUpdate | src/tools/observation_update.ts:38-63 | throws iff both fields are missing; otherwise the store's effect, echoing the input's case id |
| ObservationUpdateTool.EmptyWhatKeepsText | src/tools/observation_update.ts:39 | an empty `what` passes the guard, and the store keeps the original text |
| ObservationUpdateTool.BlankWhatIsEmpty | src/tools/observation_update.ts:17 | a blank `what` is trimmed to the empty one |
| ObservationUpdateTool.MetadataKept | src/tools/observation_update.ts:42-47 | metadata never changes through this tool |
| ObservationsListTool.NormalizeFields | src/tools/observations_list.ts:55-62 | no list stays no list; otherwise the distinct fields, in ascending order |
| ObservationsListTool.FieldsIgnoreOrder | src/tools/observations_list.ts:55-62 | the result depends only on which fields occur |
| ObservationsListTool.FieldsExample | src/tools/observations_list.ts:55-62 | `[what, context, what]` gives `[context, what]` |
| ObservationsListTool.ApplySchema | src/tools/observations_list.ts:16-29 | refused iff the case id is empty, the fields list is empty or unknown, or the page size is outside 1..100; otherwise every text but the cursor trimmed |
| ObservationsListTool.SchemaIdempotent | src/tools/observations_list.ts:16-29 | the schema is idempotent |
| ObservationsListTool.BlankDateIsNoBound | src/tools/observations_list.ts:20 | a blank date is trimmed to no bound, so it is never parsed |
| ObservationsListTool.ParseDate | src/tools/observations_list.ts:43-53 | an empty or missing date is no bound; an unparseable one is the labelled error |
| ObservationsListTool.DateBounds | src/tools/observations_list.ts:70-75 | the errors come in order, and the bounds are refused only when after > before |
| ObservationsListTool.EqualBoundsAccepted | src/tools/observations_list.ts:73-75 | equal bounds are accepted |
| ObservationsListTool.EmptyAsAbsent | src/tools/observations_list.ts:84-86 | an empty filter becomes absent |
| ObservationsListTool.Query | src/tools/observations_list.ts:77-91 | the query with normalised fields; `sortBy` defaults to `createdAt` and `order` to `asc` |
| ObservationsListTool.ObservationsList | src/tools/observations_list.ts:69-108 | on arguments the schema passed, date errors come first and a store error is passed on; when the bounds parse and the store lists, the result is `Ok`, echoing the page with the input's case id and with `hasMore` equal to the cursor's presence |

## Left out

- File I/O: the lowdb file, its path and the write itself are not modelled. A store operation's load and save are the functions `LoadCases` and `SaveCases`. `LoadSaveRoundTrip` shows that the reload inside each operation gives back the cases held by `Store`.
- Identifiers and the clock are parameters (`id`, `now`) of each operation. `updateHypothesis` and `updateTestPlan` read the clock twice, for the item and for the case. The model uses one `now` for both readings.
- Cursors: the JSON and base64url layers are replaced by a text codec. A list cursor is the decimal offset, a colon and the signature; an observation cursor is the decimal offset. The properties of both codecs (round trip, fallback to 0) are proved for this codec.
- CaseList.FilterSignature: a text with the shape of the source's `JSON.stringify` of the normalised filters. The model does not escape quotes inside strings.
- CaseList.ListCases: its own ensures clause states only the bounds and the next cursor. The page contents are stated by `ListPage`, for every offset, size and signature, and the lemmas about listed cases are stated through it.
- String order: `localeCompare` and `sort()` are both modelled as lexicographic order on Unicode code points. JavaScript's `sort()` compares UTF-16 code units, which orders differently when a character outside the Basic Multilingual Plane meets one from U+E000 to U+FFFF. Locale collation is not modelled.
- `toLowerCase` is modelled for ASCII letters only.
- Numbers: confidences, priorities and scores are reals. Floating-point rounding, `NaN` and infinities are not modelled, nor is `String(n)` for non-integers; template numbers are integers.
- TemplateRenderer.Lookup: the data record is taken to be a plain object, whose prototype is `Object.prototype`; only that prototype's members with `\w+` names are modelled, all as objects.
- TemplateRenderer: `replace` with `$` patterns in the replacement text is not modelled. Keys containing regular-expression metacharacters are not modelled either: the model replaces the placeholder text literally.
- The LLM providers, sampling, prompts and generator are not modelled: they are calls to external services.
- ObservationsListTool: `listObservations` and `new Date` parsing are parameters, because they are not part of this model.
- Input schemas: the tool host applies a tool's schema before its handler runs. Each modelled schema is a function `ApplySchema` that trims what the schema trims and refuses what it refuses (zod's error report is not modelled), and each handler `requires` the shape it produces (`ParsedInput`, `CaseGet.ValidInput`). Tool descriptions, output schemas and the capabilities content beyond the two flag maps are left out.
- The logger and console output are left out. The CLI's output is the returned `Outcome`.
- Cli.RunCli: the outcome of the server's `start` is the parameter `started`, not a call.
- ObservationsListTool.HasMore: `Boolean(nextCursor)` is modelled as a present, non-empty cursor text.
- Cli.RunCli: the version text is a parameter; `server.ts` defines no `SERVER_VERSION` (see Findings).
- Concurrency: interleaved asynchronous store operations are not modelled. Each operation runs alone, from load to save.
- Transport: the server kit's `start` and `listen` are placeholders that resolve at once, so there is no transport to model.

## Findings

| source | as written | input that shows it | evidently intended | confidence | as-written member | corrected member |
|---|---|---|---|---|---|---|
| src/cli.ts:4 | `cli.ts` imports `SERVER_VERSION` from `server.ts`, which exports only `buildServer` and `start`, so the ES module fails to link and `main` never runs | any command line, e.g. `mcp-rca --version` | `server.ts` exports `SERVER_VERSION`, and the CLI prints it, prints help or starts the server | not executed | Cli.CliDoesNotLink | Cli.RunCli |
| src/data/caseStore.ts:933-936 | the comment deletes a test plan whose priority is above the threshold or missing; the code writes `(test.priority ?? 0) > priorityThreshold`, which keeps a plan without a priority for every threshold from 1 to 10 the tool accepts | a plan `{priority: undefined}` whose hypothesis stays, with the default threshold 3 | a plan without a priority is deleted, as the comment says; `IsDiscardable` and `PlanPartition` state that rule, while the store in this model follows the code (`PlanPartitionAsWritten`) | not executed | CaseStore.UnprioritisedPlanKeptAsWritten | CaseStore.PlanPartition |
