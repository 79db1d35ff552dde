# rule-scanner-pro, modelled in Dafny

rule-scanner-pro is a demonstration dashboard for data-quality rules. It
lists rules "extracted" from ingestion code and rules "generated" by an AI
from a sample file. It shows their test results, summary statistics, a
searchable rule catalog, a live log feed, a codebase scanner, pipeline
health figures and an analytics page. Nothing in it evaluates a rule.
Every result is either a fixed literal or a `Math.random()` draw, and the
Python snippets attached to the rules are display text.

This project models the deterministic logic around that data and proves
properties of it:

- The summaries that count rules by status and severity and render pass
  rates (`getRuleSummary`, `getAIRuleSummary`, `aiSummary`, the catalog
  and table badges).
- The simulated test run, which rewrites each generated rule's result from
  substring checks on its id, its severity and a random row count.
- The catalog operations: the case-insensitive search with a severity
  filter, the group-by-table reduce, and the chart-data maps of the
  analytics page.
- The small UI state machines:
  - collapsible sections as a set of open names;
  - single selections (the expanded rule, the open code row, the severity
    filter);
  - the newest-first log buffer capped at ten entries;
  - the per-file scan progress machine;
  - the three-band pass-rate colouring.
- The hard-coded analytics figures, checked against the consistency the
  page's comment claims for them.

Modules follow the source files:

| module | source |
|---|---|
| `ExtractedRules` | src/data/extractedRules.ts |
| `AIRules` | src/data/aiGeneratedRules.ts |
| `RuleCreationTab` | src/components/RuleCreationTab.tsx |
| `CreatedRulesCatalog` | src/components/CreatedRulesCatalog.tsx |
| `RulesCatalog` | src/components/RulesCatalog.tsx and the rule records of src/data/mockData.ts |
| `RuntimeLogs` | src/components/RuntimeLogs.tsx and the logs of src/data/mockData.ts |
| `CodeScanner` | src/components/CodeScanner.tsx and the file list of src/data/mockData.ts |
| `ExtractedRulesTable` | src/components/ExtractedRulesTable.tsx |
| `PipelineHealth` | src/components/PipelineHealth.tsx and the pipelines of src/data/mockData.ts |
| `AnalyticsDashboard` | src/components/AnalyticsDashboard.tsx |

A few shared modules sit beside them:

- `Common`: options, severities, statuses, random draws.
- `Counting`: `filter(...).length` and its partition facts.
- `Decimal`: exact `toFixed` and `Math.round`, and decimal digits.
- `Text`: `includes` and ASCII `toLowerCase`.
- `UiState`: the set toggle, the selection toggle and sequences of selection clicks.

Modelling choices:

- **State and timing.** Component state that the source updates becomes a
  `class` whose methods say what changes. Each click handler, `async`
  handler or interval tick is one atomic method call.
- **Randomness and the clock.** Each `Math.random()` draw is a parameter
  of type `Draw`, a real in [0, 1). `Date.now()` and
  `new Date().toISOString()` are parameters too.
- **Rounding.** `toFixed(1)`, `toFixed(0)` and `Math.round` are exact
  rational rounding, halves up, rendered as decimal strings.
- **The empty case.** `getRuleSummary` and `getAIRuleSummary` have no
  empty-list guard. The model follows the code: it takes any list, and 0 / 0
  renders as JavaScript's "NaN". The model does not add a precondition.

## Model

| member | source | states |
|---|---|---|
| Counting.CountAppend | src/data/extractedRules.ts:339 | counting over a concatenation adds the counts of the two parts |
| Counting.CountPositive | src/components/RuleCreationTab.tsx:85-87 | a count is positive exactly when the value occurs |
| Counting.CountAll | src/components/CreatedRulesCatalog.tsx:195 | a count equals the length exactly when every element is that value |
| Counting.CountAbsent | src/components/RuleCreationTab.tsx:88 | a value that never occurs counts zero |
| Counting.StatusPartition | src/data/extractedRules.ts:12 | the four status counts add up to the length of the list |
| Counting.SeverityPartition | src/components/RuleCreationTab.tsx:89-91 | the three severity counts add up to the length of the list |
| Common.PickIndex | src/components/RuntimeLogs.tsx:21 | `Math.floor(Math.random() * n)` is an index below n |
| Decimal.ParseNatToString | src/components/RuleCreationTab.tsx:64 | the digits a template literal prints for a natural number read back as that number |
| Decimal.NatToStringInjective | src/components/RuleCreationTab.tsx:64 | different numbers print differently |
| Decimal.RoundHalfUp | src/data/extractedRules.ts:353 | the result r satisfies r - 1/2 <= n/d < r + 1/2 |
| Decimal.RoundHalfUpUnique | src/data/extractedRules.ts:353 | that characterisation fixes the rounded value |
| Decimal.RoundHalfUpMonotone | src/components/CodeScanner.tsx:44 | rounding is monotone in the numerator |
| Decimal.RoundHalfUpExact | src/components/CodeScanner.tsx:44 | a whole number is rounded to itself |
| Decimal.Fixed1RoundTrip | src/data/extractedRules.ts:353 | a one-decimal rendering reads back as the same number of tenths |
| Text.ContainsInfix | src/components/RulesCatalog.tsx:35-36 | a string occurs in every string built around it |
| Text.ContainsEmpty | src/components/RulesCatalog.tsx:35-36 | the empty query occurs in every string |
| Text.LowerIdempotent | src/components/RulesCatalog.tsx:35-36 | lower-casing twice is lower-casing once |
| Text.LowerOfUpper | src/components/RulesCatalog.tsx:35-36 | upper-casing first does not change the lower-cased form |
| UiState.Toggle | src/components/CreatedRulesCatalog.tsx:144-151 | the clicked name's membership flips and every other name keeps its membership |
| UiState.ToggleInvolution | src/components/CreatedRulesCatalog.tsx:144-151 | two clicks on one name restore the set |
| UiState.ToggleCommutes | src/components/AnalyticsDashboard.tsx:154-162 | clicks on two names commute |
| UiState.SelectToggle | src/components/RulesCatalog.tsx:65 | a click on the selected item clears the selection and a click on another item selects it |
| UiState.SelectToggleTwice | src/components/RulesCatalog.tsx:95 | two clicks on one item end with it selected exactly when it was selected before |
| UiState.SelectClicksAppend | src/components/RulesCatalog.tsx:95 | clicking through two sequences one after the other is clicking through the joined sequence |
| UiState.SelectClicksLast | src/components/ExtractedRulesTable.tsx:83 | after any clicks either nothing is selected or the item clicked last is, never an earlier one |
| UiState.SelectClicksRepeat | src/components/RulesCatalog.tsx:65 | after k > 0 clicks on one item it is selected exactly when k is odd and it was not selected before, or k is even and it was |
| ExtractedRules.Summarize | src/data/extractedRules.ts:342-354 | the counts are the pass, fail and warning counts and add up to the total; the rate is 100 * passed / total to one decimal, or "NaN" for no rules |
| ExtractedRules.StatusesAppend | src/data/extractedRules.ts:339 | the statuses of the combined list are the property statuses followed by the tenant statuses |
| ExtractedRules.AllExtractedRulesLayout | src/data/extractedRules.ts:30-339 | the combined list is the 10 property rules followed by the 7 tenant rules, in order |
| ExtractedRules.PropertyStatuses | src/data/extractedRules.ts:30-210 | the statuses of the property rules, in order |
| ExtractedRules.TenantStatuses | src/data/extractedRules.ts:212-337 | the statuses of the tenant rules, in order |
| ExtractedRules.AllStatusCounts | src/data/extractedRules.ts:343-346 | 11 rules pass, 3 fail, 3 warn |
| ExtractedRules.GetRuleSummary | src/data/extractedRules.ts:342-354 | `getRuleSummary()` is total 17, passed 11, failed 3, warnings 3, rate "64.7" |
| ExtractedRules.PassRateIsRoundedPercentage | src/data/extractedRules.ts:353 | for any non-empty list, the rendered rate read back in tenths is 100 * passed / total rounded to the nearest tenth |
| ExtractedRules.FailuresMatchSeverity | src/data/extractedRules.ts:30-337 | in the fixed data a failure occurs only on an ERROR rule and a warning only on a WARN rule |
| ExtractedRules.NonPassAffectsRows | src/data/extractedRules.ts:30-337 | in the fixed data every rule that did not pass affected at least one row |
| ExtractedRules.PassWithRowsAffected | src/data/extractedRules.ts:202-206 | the converse fails: the INFO rules P10 and T7 passed with one row affected |
| ExtractedRules.TableNamesMatchSections | src/components/ExtractedRulesTable.tsx:207-216 | every property rule is on property_master and every tenant rule on tenant_master, the sections they are shown under |
| AIRules.Summarize | src/data/aiGeneratedRules.ts:189-201 | the three counts are the pass, fail and warning counts; with the pending count they add up to the total, so on their own they are at most the total; the rate is 100 * passed / total to one decimal, or "NaN" for no rules |
| AIRules.GeneratedStatuses | src/data/aiGeneratedRules.ts:4-186 | the statuses of the generated rules, in order |
| AIRules.GeneratedSeverities | src/data/aiGeneratedRules.ts:4-186 | the severities of the generated rules, in order |
| AIRules.SummaryCoversAll | src/data/aiGeneratedRules.ts:190-193 | without a pending rule the three counts add up to the total |
| AIRules.GetAIRuleSummary | src/data/aiGeneratedRules.ts:189-201 | `getAIRuleSummary()` is total 10, passed 3, failed 5, warnings 2, rate "30.0" |
| AIRules.AllLeaseMaster | src/data/aiGeneratedRules.ts:4-186 | every generated rule is on lease_master |
| AIRules.ResultsMatchSeverity | src/data/aiGeneratedRules.ts:4-186 | failures only on ERROR rules and warnings only on WARN rules; passing rules affected no row and the others exactly one |
| RuleCreationTab.FailureStatus | src/components/RuleCreationTab.tsx:63 | a rule that did not pass fails exactly when it is an ERROR rule and warns otherwise |
| RuleCreationTab.TestVerdict | src/components/RuleCreationTab.tsx:54-76 | only the result changes and it is never pending. A presence check (id contains NOT_NULL or ID) gets 0..2 rows and passes exactly when it gets 0. A value check (POSITIVE or RANGE, only when the presence check does not match) gets 1..2 rows and never passes. Any other rule passes with its earlier rows and message. Each message is as the source words it |
| RuleCreationTab.TestRule | src/components/RuleCreationTab.tsx:55-75 | the callback's step-by-step updates of status, row count and message give exactly the verdict above |
| RuleCreationTab.PresenceRowsReachable | src/components/RuleCreationTab.tsx:61 | every row count 0..2 of a presence check is produced by some draw |
| RuleCreationTab.ValueRowsReachable | src/components/RuleCreationTab.tsx:67 | every row count 1..2 of a value check is produced by some draw |
| RuleCreationTab.RetestDependsOnLastDraw | src/components/RuleCreationTab.tsx:54-76 | testing twice: a checked rule's outcome depends only on the second draw, and any other rule ends as after the first test |
| RuleCreationTab.PassKeepsEarlierMessage | src/components/RuleCreationTab.tsx:57-65 | a presence check that failed and then passes keeps the earlier failure message |
| RuleCreationTab.TestedRules | src/components/RuleCreationTab.tsx:54-76 | the test run maps each rule, by position, to its verdict |
| RuleCreationTab.TestRunPreservesRules | src/components/RuleCreationTab.tsx:54-76 | a test run keeps the length, the order and every field but the result, and leaves no rule pending |
| RuleCreationTab.TestedRowsBound | src/components/RuleCreationTab.tsx:92 | when every rule's row count before the run is between 0 and 2, the sum of affected rows after the run lies between 0 and twice the number of rules |
| RuleCreationTab.SumRows | src/components/RuleCreationTab.tsx:92 | the sum of affected rows is not negative when no row count is |
| RuleCreationTab.TableNames | src/components/RuleCreationTab.tsx:96 | the distinct table names are exactly the names that occur |
| RuleCreationTab.TableNamesBound | src/components/RuleCreationTab.tsx:96 | there are at most as many distinct tables as rules, and at least one when there is a rule |
| RuleCreationTab.SummaryOf | src/components/RuleCreationTab.tsx:83-97 | the status counts and the severity counts each add up to the total; the rows are the sum of affected rows; tables is the distinct count, at most the total; the rate is '0' for no rules, otherwise 100 * passed / total to one decimal |
| RuleCreationTab.GeneratedRows | src/components/RuleCreationTab.tsx:92 | the generated rules affect 7 rows |
| RuleCreationTab.GeneratedTables | src/components/RuleCreationTab.tsx:96 | the generated rules span the one table lease_master |
| RuleCreationTab.GeneratedSummary | src/components/RuleCreationTab.tsx:83-97 | the panel after generation: 10 rules, 3 pass, 5 fail, 2 warn, none pending, 5/3/2 by severity, 7 rows, "30.0", one table |
| RuleCreationTab.PresenceCheckKeyIds | src/components/RuleCreationTab.tsx:60 | four generated ids contain ID |
| RuleCreationTab.PresenceCheckOtherIds | src/components/RuleCreationTab.tsx:60 | AI_L3, AI_L5 and AI_L6 match the presence check |
| RuleCreationTab.DateRangeMatchesBoth | src/components/RuleCreationTab.tsx:60-66 | AI_L5_DATE_RANGE_VALID matches both checks, the first through "VALID", so the presence check decides it |
| RuleCreationTab.ValueCheckIds | src/components/RuleCreationTab.tsx:66 | AI_L4 and AI_L10 are value checks only |
| RuleCreationTab.StatusAllowedMatchesNeither | src/components/RuleCreationTab.tsx:60-70 | AI_L7_STATUS_ALLOWED matches neither check |
| RuleCreationTab.GeneratedRuleVerdicts | src/components/RuleCreationTab.tsx:54-76 | whatever the draw: AI_L7 passes with its single row and old message, AI_L4 fails, AI_L10 warns; AI_L5 passes on a zero draw |
| RuleCreationTab.TestRunOutcomes | src/components/RuleCreationTab.tsx:54-97 | after any test run of the generated rules at least one rule passes, one fails and one warns, and none is pending |
| RuleCreationTab.Tab.constructor | src/components/RuleCreationTab.tsx:28-33 | no file, no rules, every flag false |
| RuleCreationTab.Tab.SelectFile | src/components/RuleCreationTab.tsx:28 | the chosen file is recorded and nothing else changes |
| RuleCreationTab.Tab.GenerateRules | src/components/RuleCreationTab.tsx:35-45 | without a file nothing changes; otherwise the rules are the generated ones, generation is complete and testing is not; in particular a click while the button is enabled (a file chosen, no generation running, as `disabled` at line 158 requires) always completes generation |
| RuleCreationTab.Tab.TestAllRules | src/components/RuleCreationTab.tsx:47-81 | each rule in turn is replaced by its verdict for its draw, so the rules become the tested rules; testing is complete |
| RuleCreationTab.Tab.Summary | src/components/RuleCreationTab.tsx:83-97 | the summary exists exactly when generation is complete and is then the summary of the current rules |
| RuleCreationTab.GenerateScenario | src/components/RuleCreationTab.tsx:35-97 | choosing a file and generating shows the summary of the generated rules |
| CreatedRulesCatalog.DisplayStatus | src/components/CreatedRulesCatalog.tsx:355-363 | an untested rule shows 'pending', a tested one its status |
| CreatedRulesCatalog.ResultCountsFrom | src/components/CreatedRulesCatalog.tsx:202-208 | the optional-chaining count of a status equals the count of the status shown |
| CreatedRulesCatalog.Badges | src/components/CreatedRulesCatalog.tsx:202-208 | the three badges count tested rules by status; with the pending cards they cover every rule, so they add up to at most the number of rules |
| CreatedRulesCatalog.ActiveCount | src/components/CreatedRulesCatalog.tsx:195 | at most the number of rules, and equal to it exactly when every rule is active |
| CreatedRulesCatalog.SeverityLevels | src/components/CreatedRulesCatalog.tsx:245-249 | the ERROR and WARN counts, which with the INFO count add up to the number of rules |
| CreatedRulesCatalog.PassRate | src/components/CreatedRulesCatalog.tsx:254-256 | "0" for no rules, otherwise 100 * pass / len rounded to a whole number |
| CreatedRulesCatalog.PassRateBounds | src/components/CreatedRulesCatalog.tsx:254-256 | the rate is all digits, at most 100, and within half a percent of 100 * pass / len |
| CreatedRulesCatalog.RowsNote | src/components/CreatedRulesCatalog.tsx:365-369 | the note appears exactly when the rule was tested with a positive row count, and then ends in " rows" |
| CreatedRulesCatalog.RowsNoteRoundTrip | src/components/CreatedRulesCatalog.tsx:365-369 | what precedes " rows" is all digits and reads back as the test's row count |
| CreatedRulesCatalog.WithTable | src/components/CreatedRulesCatalog.tsx:180-184 | a group holds only rules of its table |
| CreatedRulesCatalog.Grouped | src/components/CreatedRulesCatalog.tsx:180-184 | one group per key, in key order, each holding the rules of its table |
| CreatedRulesCatalog.TableKeysMembership | src/components/CreatedRulesCatalog.tsx:180-184 | a table has a group exactly when some rule is on it |
| CreatedRulesCatalog.TableKeysDistinct | src/components/CreatedRulesCatalog.tsx:180-184 | no table has two groups |
| CreatedRulesCatalog.WithTableContents | src/components/CreatedRulesCatalog.tsx:180-184 | a rule is in a table's group exactly when it is one of the rules and on that table |
| CreatedRulesCatalog.WithTableAbsent | src/components/CreatedRulesCatalog.tsx:180-184 | a table without a key has no rules |
| CreatedRulesCatalog.TableKeysFirstOccurrence | src/components/CreatedRulesCatalog.tsx:263 | groups appear in order of first occurrence: an earlier group's table occurs before any rule of a later group |
| CreatedRulesCatalog.GroupSizes | src/components/CreatedRulesCatalog.tsx:180-184 | the group sizes add up to the number of rules |
| CreatedRulesCatalog.SingleTable | src/components/CreatedRulesCatalog.tsx:180-184 | rules all on one table form one group holding them in order |
| CreatedRulesCatalog.GroupRules | src/components/CreatedRulesCatalog.tsx:180-184 | the in-place reduce builds the insertion-ordered keys and a group per key holding that table's rules in input order, which is Grouped |
| CreatedRulesCatalog.InitialResultStatuses | src/components/CreatedRulesCatalog.tsx:47-133 | statuses, severities and active flags of the initial rules |
| CreatedRulesCatalog.InitialCatalog | src/components/CreatedRulesCatalog.tsx:47-133 | 5 rules, all active, one group lease_master, 1 pass / 3 fail / 1 warn, 3 ERROR / 2 WARN, pass rate "20" |
| CreatedRulesCatalog.Catalog.constructor | src/components/CreatedRulesCatalog.tsx:142 | only lease_master starts open |
| CreatedRulesCatalog.Catalog.ToggleSection | src/components/CreatedRulesCatalog.tsx:144-151 | the set after the click is the toggled set; the section's open state flips |
| CreatedRulesCatalog.ToggleTwice | src/components/CreatedRulesCatalog.tsx:144-151 | two clicks on a section restore the open sections |
| RulesCatalog.Filtered | src/components/RulesCatalog.tsx:34-39 | every kept rule matches the search and the severity filter, and there are no more of them than rules |
| RulesCatalog.FilteredSubsequence | src/components/RulesCatalog.tsx:34 | the filtered list is an order-preserving subsequence of the rules |
| RulesCatalog.FilteredMembership | src/components/RulesCatalog.tsx:35-38 | a rule is kept exactly when its lowered name or description contains the lowered query and the filter is unset or its severity |
| RulesCatalog.FilteredKeepsAll | src/components/RulesCatalog.tsx:34-39 | when every rule matches, the list is unchanged |
| RulesCatalog.EmptySearchKeepsAll | src/components/RulesCatalog.tsx:35-37 | an empty query without a severity filter keeps every rule |
| RulesCatalog.FilteredCaseInsensitive | src/components/RulesCatalog.tsx:35-36 | queries equal after lower-casing give the same list |
| RulesCatalog.UpperQuery | src/components/RulesCatalog.tsx:35-36 | an upper-cased query gives the same list |
| RulesCatalog.MockRulesLayout | src/data/mockData.ts:36-153 | eight rules and their severities in order |
| RulesCatalog.CriticalOfLayout | src/components/RulesCatalog.tsx:34-39 | on any eight rules with those severities, the critical filter keeps the first, second and eighth |
| RulesCatalog.CriticalRules | src/components/RulesCatalog.tsx:34-39 | the critical filter on the mock rules keeps rule-001, rule-002 and rule-008 |
| RulesCatalog.Catalog.constructor | src/components/RulesCatalog.tsx:30-32 | empty query, no filter, nothing expanded, every rule visible |
| RulesCatalog.Catalog.SetSearchQuery | src/components/RulesCatalog.tsx:30 | only the query changes |
| RulesCatalog.Catalog.ClickSeverity | src/components/RulesCatalog.tsx:65 | clicking the selected severity clears the filter and clicking another selects it |
| RulesCatalog.Catalog.ClickRule | src/components/RulesCatalog.tsx:95 | clicking the expanded rule collapses it and clicking another expands that one instead; either way no other rule is expanded afterwards |
| RuntimeLogs.NewLog | src/components/RuntimeLogs.tsx:21-26 | the new entry is a sample log except for its id `log-<now>` and its timestamp |
| RuntimeLogs.Prepend | src/components/RuntimeLogs.tsx:27 | length min(prev + 1, 10), the new entry first, then the first min(prev, 9) earlier entries in order |
| RuntimeLogs.PrependTwice | src/components/RuntimeLogs.tsx:27 | two ticks put both entries in front, newest first, and keep the first eight earlier ones |
| RuntimeLogs.LogFeed.constructor | src/components/RuntimeLogs.tsx:13-14 | the feed starts live with the sample logs and at most ten entries |
| RuntimeLogs.LogFeed.Tick | src/components/RuntimeLogs.tsx:17-28 | a paused feed does not change; a live one prepends the new entry; never more than ten entries |
| RuntimeLogs.LogFeed.ToggleLive | src/components/RuntimeLogs.tsx:57 | the live flag flips and the logs stay |
| RuntimeLogs.AfterTicksLength | src/components/RuntimeLogs.tsx:27 | after n ticks the length is min(prev + n, 10) and the newest entry is first |
| RuntimeLogs.FullAfterTwoTicks | src/components/RuntimeLogs.tsx:13-27 | from the eight sample logs, two ticks fill the feed to ten |
| CodeScanner.RulesFound | src/components/CodeScanner.tsx:41 | a finished file reports 1 to 3 rules |
| CodeScanner.Started | src/components/CodeScanner.tsx:24 | one pending entry per file, with no rules found |
| CodeScanner.ScanTick | src/components/CodeScanner.tsx:38-42 | for the counter value the updater reads: files kept; an entry is scanning exactly when it is the counter's, complete exactly when it is before the counter, and has 1..3 rules found exactly when complete |
| CodeScanner.Finished | src/components/CodeScanner.tsx:50-54 | files kept; every entry complete with 1..3 rules |
| CodeScanner.ExactlyOneScanning | src/components/CodeScanner.tsx:40 | when the counter the updater reads is inside the list, exactly that entry is scanning |
| CodeScanner.LastFileTickCompletesAll | src/components/CodeScanner.tsx:38-45 | the tick on the last file reads a counter past the list, so every entry is complete with 1..3 rules and none is scanning |
| CodeScanner.Progress | src/components/CodeScanner.tsx:44 | the progress is at most 100 |
| CodeScanner.ProgressMonotone | src/components/CodeScanner.tsx:44 | the progress does not decrease from step to step |
| CodeScanner.ProgressComplete | src/components/CodeScanner.tsx:44 | the last file brings the progress to 100 |
| CodeScanner.TenFileProgress | src/data/mockData.ts:297-308 | ten files: the first step shows 10 and the fifth 50 |
| CodeScanner.Scanner.constructor | src/components/CodeScanner.tsx:14-18 | not scanning, no progress, no file, no results |
| CodeScanner.Scanner.StartScan | src/components/CodeScanner.tsx:20-25 | scanning starts with progress 0, one pending entry per file and the counter at 0 |
| CodeScanner.Scanner.Step | src/components/CodeScanner.tsx:33-56 | before the end: the counter's file, the rounded progress, which does not decrease, the counter advanced, and the results of the updater reading the advanced counter; at the end: scanning stops, the scan is complete and every entry complete |
| ExtractedRulesTable.CountSection | src/components/ExtractedRulesTable.tsx:149-151 | the section's pass, fail and warning counts add up to its number of rules |
| ExtractedRulesTable.Badges | src/components/ExtractedRulesTable.tsx:174-188 | a badge is shown exactly when its count is positive, each with its own count |
| ExtractedRulesTable.BadgesTotal | src/components/ExtractedRulesTable.tsx:174-188 | the shown badges add up to the three counts |
| ExtractedRulesTable.BadgesCoverSection | src/components/ExtractedRulesTable.tsx:149-188 | the shown badges add up to the section's number of rules |
| ExtractedRulesTable.PropertySectionBadges | src/components/ExtractedRulesTable.tsx:207-211 | property_master shows 6 pass, 2 warn, 2 fail |
| ExtractedRulesTable.TenantSectionBadges | src/components/ExtractedRulesTable.tsx:212-216 | tenant_master shows 5 pass, 1 warn, 1 fail |
| ExtractedRulesTable.ResultLabel | src/components/ExtractedRulesTable.tsx:26-30 | every status has an entry with one of the three labels |
| ExtractedRulesTable.RowsLabel | src/components/ExtractedRulesTable.tsx:113-115 | "No rows affected" exactly when the row count is not positive, otherwise the count and " rows affected" |
| ExtractedRulesTable.RowsLabelRoundTrip | src/components/ExtractedRulesTable.tsx:113-115 | the count can be read back from the label |
| ExtractedRulesTable.RuleTable.constructor | src/components/ExtractedRulesTable.tsx:37 | no code row starts open |
| ExtractedRulesTable.RuleTable.ClickCode | src/components/ExtractedRulesTable.tsx:83 | clicking the open rule closes it and clicking another opens that one instead; the clicked rule's button flips between View and Hide and every other rule's button reads View |
| ExtractedRulesTable.Section.constructor | src/components/ExtractedRulesTable.tsx:146-147 | a section starts open as its default says |
| ExtractedRulesTable.Section.Toggle | src/components/ExtractedRulesTable.tsx:154 | a click flips the open state |
| PipelineHealth.Band | src/components/PipelineHealth.tsx:51-52 | success exactly at 99 and above, warning exactly from 95 to below 99, destructive exactly below 95 |
| PipelineHealth.SameClassification | src/components/PipelineHealth.tsx:51-66 | the figure colour and the bar colour are the same band |
| PipelineHealth.BandMonotone | src/components/PipelineHealth.tsx:51-52 | a higher rate never lands in a worse band |
| PipelineHealth.BandBoundaries | src/components/PipelineHealth.tsx:51-52 | 99 is success, 95 is warning, 98.9 is warning, 94.9 is destructive |
| PipelineHealth.StatusesMatchBands | src/data/mockData.ts:246-295 | every sample pipeline's status agrees with the band of its rate |
| AnalyticsDashboard.SubdomainCounts | src/components/AnalyticsDashboard.tsx:49-104 | for every subdomain the counts add up to the extracted rules, and the severity counts are ERROR = failed, WARN = warnings, INFO = passed |
| AnalyticsDashboard.ClientMasterRate | src/components/AnalyticsDashboard.tsx:52-56 | 324 / 342 renders as "94.7" |
| AnalyticsDashboard.PortfolioHoldingsRate | src/components/AnalyticsDashboard.tsx:63-67 | 451 / 478 renders as "94.4" |
| AnalyticsDashboard.TransactionLedgerRate | src/components/AnalyticsDashboard.tsx:74-78 | 498 / 523 renders as "95.2" |
| AnalyticsDashboard.MarketDataRate | src/components/AnalyticsDashboard.tsx:85-89 | 389 / 412 renders as "94.4" |
| AnalyticsDashboard.ComplianceReportingRate | src/components/AnalyticsDashboard.tsx:96-100 | 338 / 356 renders as "94.9" |
| AnalyticsDashboard.ComplianceRateAsWritten | src/components/AnalyticsDashboard.tsx:94-100 | as written, compliance_reporting records "95.0" and is not consistent, while the other four subdomains are |
| AnalyticsDashboard.SubdomainsConsistent | src/components/AnalyticsDashboard.tsx:47-104 | with the corrected rate every subdomain is consistent, and nothing else differs from the figures as written |
| AnalyticsDashboard.GetAnalyticsData | src/components/AnalyticsDashboard.tsx:46-127 | the figures as the source records them: five subdomains whose counts add up, four with the rate their counts give and compliance_reporting with "95.0", which its counts do not give; totals that add up and give their own overall rate |
| AnalyticsDashboard.TotalsConsistent | src/components/AnalyticsDashboard.tsx:106-125 | the totals add up, the created rules are passed plus failed, and the overall rate is 2696 / 2847 to one decimal |
| AnalyticsDashboard.SubdomainsBelowTotals | src/components/AnalyticsDashboard.tsx:49-109 | the subdomains hold 2111 of the 2847 extracted and 2000 of the 2696 passed rules |
| AnalyticsDashboard.TrendConsistent | src/components/AnalyticsDashboard.tsx:131-139 | every point's extracted count is passed plus failed; extracted does not decrease; the last point matches the totals, its failed figure counting warnings too |
| AnalyticsDashboard.PieData | src/components/AnalyticsDashboard.tsx:164-168 | three slices: passed, failed, warnings |
| AnalyticsDashboard.PieMatchesTotals | src/components/AnalyticsDashboard.tsx:164-168 | the dashboard's three slices add up to its 2847 extracted rules, and its failed and warned slices to the last trend point's failed count |
| AnalyticsDashboard.Comparison | src/components/AnalyticsDashboard.tsx:170-176 | one row per subdomain, in order, copying its name and counts |
| AnalyticsDashboard.DashboardComparison | src/components/AnalyticsDashboard.tsx:170-176 | the dashboard's chart has five bar groups, each stacking up to its extracted count, and together they hold 2111 of the 2847 extracted rules |
| AnalyticsDashboard.Dashboard.constructor | src/components/AnalyticsDashboard.tsx:151 | client_master and portfolio_holdings start expanded |
| AnalyticsDashboard.Dashboard.ToggleSubdomain | src/components/AnalyticsDashboard.tsx:154-162 | the clicked subdomain flips and every other keeps its state |

## Left out

- Rule evaluation: the dashboard has none. The Python in the `codeSnippet` fields is display text, and the fields are not part of the records.
- Rendering: JSX, Tailwind classes, icons, the recharts charts and the UI library components. Colour classes appear only where they encode a decision, in the pipeline bands.
- Timing: `setTimeout`, `setInterval` and `async`/`await`. Each handler or tick is one atomic step, so the intermediate `isGenerating`/`isTesting` states are set and cleared inside one method.
- Randomness and the clock: `Math.random()`, `Date.now()` and `new Date().toISOString()` are parameters. The log timestamp is any string.
- Floating point: the binary double that `toFixed` and `Math.round` actually round. Rates are exact rationals, rounded half up as `toFixed` breaks ties; a quotient whose double lies just across a rounding boundary from its exact value would render differently.
- Locale-dependent date formatting in the catalog and the log feed.
- Unicode case mapping: `toLowerCase` is modelled on ASCII letters only.
- src/components/FileUploadWidget.tsx: file input and drag-and-drop. A chosen file is a parameter of `RuleCreationTab.Tab.SelectFile`.
- src/components/DQExtractionTab.tsx: a two-file guard around a timer. Its figures come from `getRuleSummary`, which is modelled.
- src/components/Header.tsx, src/components/MetricCard.tsx and src/pages/Index.tsx: static layout.
- src/data/mockData.ts beyond what the catalog, logs, scanner and pipelines read. Fields that are shown but never computed on (dates, owners, execution counts) are not part of the records.
- The `AIGeneratedRule` type is declared in a table component that is not part of this model. The model assumes the fields the rule-creation tab reads, with a status that may be 'pending'.
- The props `onTestRules` and `isTesting` of the created-rules catalog: they are handed through to a button.
- CreatedRulesCatalog.Grouped: `Object.entries` puts integer-like keys first, in ascending order, while the model uses plain insertion order. Table names in the data are never integer-like.
- CreatedRulesCatalog.GroupRules: the accumulator `{}` inherits the properties of `Object.prototype`. For a table named "constructor", "toString", "hasOwnProperty", "valueOf" or "__proto__", the check `!acc[rule.tableName]` at src/components/CreatedRulesCatalog.tsx:181 finds the inherited value, and the `push` at line 182 throws a TypeError. The model groups such names like any other. No table name in the data is one of them.
- CodeScanner.Scanner.StartScan: requires the scan not to be running, as the disabled button at src/components/CodeScanner.tsx:70 ensures. A click during a scan would restart the effect, and that is not modelled.
- CodeScanner.Scanner.Step: the scan counter is a field of the scanner. In the source it is a local of the effect's closure.
- CodeScanner.Scanner.Step: assumes React 18 batching, with the root created by `createRoot`. The React version and the application's entry point are not part of this model. Under batching the `setResults` updater runs at the next render, after `currentIndex++` at src/components/CodeScanner.tsx:45, and reads the advanced counter. While the header shows file k, entry k + 1 is scanning, and the tick on the last file shows none scanning. Under synchronous legacy rendering the updater would read the counter before the increment; that is `ScanTick` with the old counter, to which `CodeScanner.ExactlyOneScanning` applies as well.
- RuleCreationTab.Tab.TestAllRules: the button that starts a run is disabled while one runs, and overlapping runs are not modelled.

## Findings

| source | as written | input that shows it | evidently intended | confidence | as-written member | corrected member |
|---|---|---|---|---|---|---|
| src/components/AnalyticsDashboard.tsx:100 | compliance_reporting records passRate '95.0' | rulesPassed 338 of rulesExtracted 356: 338 / 356 * 100 = 94.94…, which `toFixed(1)` renders as "94.9" | passRate '94.9': each of the other four subdomains records exactly the rate its own counts give to one decimal (client_master 94.7, portfolio_holdings 94.4, transaction_ledger 95.2, market_data 94.4) | not executed | AnalyticsDashboard.ComplianceRateAsWritten | AnalyticsDashboard.SubdomainsConsistent |

The subdomain figures also do not add up to the totals: 2111 extracted rules
against 2847, and 2000 passed against 2696. The comment at
src/components/AnalyticsDashboard.tsx:47 calls the figures "consistent with
summary statistics", and within each subdomain the outcome and severity counts add up.
The totals, though, are presented as coming "From 147 pipelines" (line 208),
while only five subdomains are listed, so they may well cover more than these
five. A gap between the listed subdomains and the platform totals is therefore
not evidently unintended, and `AnalyticsDashboard.SubdomainsBelowTotals`
records it as a fact rather than a defect.
