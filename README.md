# Contract intelligence dashboard — a verified model

This project models the logic of a contract-management dashboard for
infrastructure contracts. It covers two parts.

- The `ContractService` (`src/services/contractService.ts`). It keeps six
  id-keyed maps: contract records, clauses, obligations, milestones, risk
  assessments and AI insights. Each upload goes through a status machine,
  `uploading → parsing → analyzing → completed` or `error`. The service also
  computes portfolio aggregates from the maps.
- The list logic inside five view components:
  - the alerts panel: status updates by id, rule toggling, two-criterion
    filtering, statistics and day bands;
  - the search panel: case-insensitive substring search, list filters, filter
    editing and the active-filter count;
  - the risk scoring panel: score bands, category averages, portfolio figures;
  - the comparison panel: the selection, the compared set, the unified title
    view and the similarity score;
  - the contract explorer: uploads prepended to the list, the completion
    callback, the drag highlight, and risk badges and counts.

Modules:

- `Options`, `Lists` and `Numeric` hold shared pieces: an option type, `filter`,
  removal of a value, first-occurrence de-duplication (`Array.from(new Set(xs))`)
  and `Math.round(sum / n)` over non-negative integers.
- `Registry` models the service. A `Service` value holds the maps and the
  insertion orders of the two maps that are listed. Each step of
  `processContract` is a function from the old state to the new state. The
  three AI calls are inputs of type `AiResult`, which either resolves with a
  value or fails.
- `Alerts`, `Search`, `Comparison` and `Explorer` each model a component's state
  as a class. Each handler is a method whose `ensures` gives the new state as a
  function of the old one. The lemmas about those functions carry the
  properties.
- `RiskScoring` is pure: functions over the panel's fixed risk profiles.

Three behaviours of the code that are easy to miss:

- An upload without a requested type gets `infrastructure`. The type is not
  inferred from the file name.
- A failed run resets both progress counters to 0.
- The stored risk level of a profile on the risk panel is not derived from its
  score.

## Model

| member | source | states |
|---|---|---|
| Registry.StripExtension | src/services/contractService.ts:33 | the stored name drops exactly the suffix `/\.[^/.]+$/` matches (a last `.` followed by a non-empty run without `.` or `/`); a name without one is kept unchanged |
| Registry.ContractIdCollision | src/services/contractService.ts:29 | two uploads get the same `contract-<ms>` id exactly when they read the same millisecond |
| Registry.DecimalDigitsRoundTrip | src/services/contractService.ts:29 | the decimal digits of the clock reading in the id read back as that reading |
| Registry.NewContractService | src/services/contractService.ts:22-25 | a new service holds only the sample contract, stored under its own id, with every other map empty; the invariant holds |
| Registry.Service.SetContract | src/services/contractService.ts:44 | `Map.set` replaces the record under the key; a new key is appended to the iteration order, an existing key keeps its place; nothing else changes |
| Registry.Service.UploadContract | src/services/contractService.ts:28-50 | exactly one record is registered, under `contract-<now>`: stripped name, requested type or `infrastructure`, file size, `/uploads/<id>/<file name>`, counters and pages 0; it already shows `parsing` (0, 0) when the id is returned; no other map changes |
| Registry.Service.UploadKeepsValid | src/services/contractService.ts:28-50 | an upload keeps the service invariant: keyed maps, ids equal to keys, data only for registered contracts, insertion orders listing each key once |
| Registry.Service.UpdateContractStatus | src/services/contractService.ts:107-120 | only the status and the two counters of that one record change; an unknown id changes nothing |
| Registry.Service.StatusReadBack | src/services/contractService.ts:107-120 | after a status update on a registered id, that record holds exactly the new status and counters, and every other record keeps its own |
| Registry.Service.Fail | src/services/contractService.ts:101-104 | the catch block sets `error` with both counters 0 and leaves every map written earlier as it is |
| Registry.Service.StoreParsed | src/services/contractService.ts:63-81 | the clauses, obligations and milestones are stored under the id, each item re-keyed to the contract, lengths and order kept |
| Registry.Service.StoreRisk | src/services/contractService.ts:84-85 | the assessment is stored under the id; a new key joins the listing order at the end |
| Registry.Service.Complete | src/services/contractService.ts:88-99 | insights stored, status `completed` (100, 100), then the page count copied into the record |
| Registry.Service.Analyze | src/services/contractService.ts:83-104 | after the risk call: a failed risk or insights call ends in `error` (0, 0), keeping what was stored before; success stores both and completes |
| Registry.Service.ResumeProcessing | src/services/contractService.ts:57-104 | from the first `await` on: the updates issued, the final record, and which maps hold new data, for every way the three AI calls settle |
| Registry.Service.ProcessContract | src/services/contractService.ts:52-105 | a whole run: the status updates in order, the final record, the parsed lists kept after a later failure, assessment and insights only once their calls resolve |
| Registry.PipelineFollowsStatusMachine | src/services/contractService.ts:52-105 | every run is a legal path of the status machine from `uploading`; it ends in `completed` (100, 100) exactly when all three calls resolve, otherwise in `error` (0, 0) |
| Registry.ProcessedRecord | src/services/contractService.ts:91-104 | after a run only status, counters and page count differ from the record before it; `completed` takes the parsed page count, `error` keeps the old one |
| Registry.Service.ProcessKeepsValid | src/services/contractService.ts:52-105 | a run keeps the service invariant, given that the risk result and the insights carry the requested id |
| Registry.Service.ProcessKeepsContracts | src/services/contractService.ts:52-105 | a run registers no new contract and keeps the records' ids and order |
| Registry.Service.ProcessKeepsAnalysis | src/services/contractService.ts:84-89 | assessments and insights stay keyed by the contract they describe, and the listing order stays exact |
| Registry.Service.ProcessKeepsParsed | src/services/contractService.ts:63-81 | stored clauses, obligations and milestones stay keyed by their contract |
| Registry.Service.StoredParsedKeyed | src/services/contractService.ts:64-81 | storing re-keyed parse results keeps every list map keyed |
| Registry.Service.StoredRiskKeyed | src/services/contractService.ts:84-85 | storing an assessment that echoes the id keeps the risk map keyed and its order exact |
| Registry.Service.StoredInsightsKeyed | src/services/contractService.ts:88-89 | storing insights that carry the id keeps the insights map keyed |
| Registry.StampClauses | src/services/contractService.ts:64-67 | each clause gets the contract id; length and order kept, nothing else changed |
| Registry.StampObligations | src/services/contractService.ts:69-72 | each obligation gets the contract id; length and order kept, nothing else changed |
| Registry.StampMilestones | src/services/contractService.ts:74-77 | each milestone gets the contract id; length and order kept, nothing else changed |
| Registry.Service.GetContracts | src/services/contractService.ts:123-125 | lists every registered record once, each stored under its own id |
| Registry.Service.GetContract | src/services/contractService.ts:128-130 | a record exactly for a registered id, and it carries that id |
| Registry.Service.GetContractClauses | src/services/contractService.ts:133-135 | the stored clauses, or `[]` when none are stored; all belong to the contract |
| Registry.Service.GetContractObligations | src/services/contractService.ts:138-140 | the stored obligations, or `[]`; all belong to the contract |
| Registry.Service.GetContractMilestones | src/services/contractService.ts:143-145 | the stored milestones, or `[]`; all belong to the contract |
| Registry.Service.GetRiskAssessment | src/services/contractService.ts:148-150 | present exactly once an assessment is stored, and then it is the assessment stored under the id, which describes that registered contract |
| Registry.Service.GetInsights | src/services/contractService.ts:153-155 | the stored insights, or `[]`; all belong to the contract |
| Registry.Service.GetAllRiskAssessments | src/services/contractService.ts:158-160 | every stored assessment once, each under its own contract id |
| Registry.ValuesInOrder | src/services/contractService.ts:123-125 | listing a map in its iteration order yields as many values as keys, every value included |
| Registry.OrderIsDistinct | src/services/contractService.ts:123-125 | an iteration order with one entry per key lists no key twice |
| Registry.Service.GetPortfolioAnalytics | src/services/contractService.ts:163-176 | total equals the number of records; the average is `AverageRiskScore` of the assessments (0 without any, otherwise the rounded mean); the type counts are `GroupByType` of the records and add up to the total; the level counts are `RiskDistribution` of the assessments and add up to their number |
| Registry.AverageRiskScore | src/services/contractService.ts:254-258 | 0 for no assessments, otherwise `Math.round` of the mean: within half a point of it and between the lowest and highest score |
| Registry.GetRiskLevel | src/services/contractService.ts:277-282 | ≥75 critical, 50–74 high, 25–49 medium, below 25 low, each band an if-and-only-if |
| Registry.GetRiskLevelMonotonic | src/services/contractService.ts:277-282 | a higher score never falls into a lower band |
| Registry.GroupByType | src/services/contractService.ts:260-266 | only types that occur get a key, and the counts add up to the number of contracts |
| Registry.GroupByTypeCounts | src/services/contractService.ts:260-266 | each key counts exactly the contracts of that type |
| Registry.RiskDistribution | src/services/contractService.ts:268-275 | only levels that occur get a key, and the counts add up to the number of assessments |
| Registry.RiskDistributionCounts | src/services/contractService.ts:268-275 | each key counts exactly the assessments whose score falls in that band |
| Registry.UpdateTwice | src/services/contractService.ts:118 | a second `set` of the same key overrides the first |
| Alerts.DaysRemainingBand | src/components/AlertsSystem.tsx:174-179 | four disjoint bands covering all integers: ≤0, 1–7, 8–14, >14 |
| Alerts.DaysBandMonotonic | src/components/AlertsSystem.tsx:174-179 | more days remaining never looks more urgent |
| Alerts.SetStatusWhere | src/components/AlertsSystem.tsx:181-191 | every alert with the id gets the new status whatever it held; other alerts and fields, length and order unchanged |
| Alerts.SetStatusOverrides | src/components/AlertsSystem.tsx:181-191 | of two updates on one id the later wins, so a repeated update changes nothing |
| Alerts.ToggleRule | src/components/AlertsSystem.tsx:193-197 | only the rules with the id flip `enabled`; everything else unchanged |
| Alerts.ToggleRuleTwice | src/components/AlertsSystem.tsx:193-197 | toggling a rule twice restores the rule list |
| Alerts.FilteredAlerts | src/components/AlertsSystem.tsx:199-203 | the order-preserving subsequence of the alerts both criteria admit, and every such alert |
| Alerts.FilterAllShowsEverything | src/components/AlertsSystem.tsx:199-203 | with both drop-downs at `all` every alert is shown |
| Alerts.FilterCriteriaCompose | src/components/AlertsSystem.tsx:199-203 | filtering by priority and then by type equals filtering by both |
| Alerts.Stats | src/components/AlertsSystem.tsx:205-210 | total is the length; active, critical and overdue are the numbers of positions holding an active alert, a critical one and one with `daysRemaining <= 0`; each is at most the total; overdue is 0 exactly when every alert has days left; active is 0 exactly when none is active |
| Alerts.StatusChangeKeepsStats | src/components/AlertsSystem.tsx:181-191 | a status update keeps total, critical and overdue counts; acknowledging or resolving never raises the active count |
| Alerts.StatusChangeCount | src/components/AlertsSystem.tsx:181-191 | a status update keeps the count of any status-blind selection |
| Alerts.StatusChangeActive | src/components/AlertsSystem.tsx:181-191 | moving alerts to a non-active status never adds an active alert |
| Alerts.AlertsBoard.constructor | src/components/AlertsSystem.tsx:29-32 | both drop-downs start at `all` |
| Alerts.AlertsBoard.Visible | src/components/AlertsSystem.tsx:199-203 | the alerts shown are a subsequence of the alert list |
| Alerts.AlertsBoard.AcknowledgeAlert | src/components/AlertsSystem.tsx:181-185 | the alert list becomes its acknowledged update; rules and filters unchanged |
| Alerts.AlertsBoard.ResolveAlert | src/components/AlertsSystem.tsx:187-191 | the alert list becomes its resolved update; rules and filters unchanged |
| Alerts.AlertsBoard.ToggleAlertRule | src/components/AlertsSystem.tsx:193-197 | the rule list becomes its toggled copy; alerts and filters unchanged |
| Alerts.AlertsBoard.SetFilters | src/components/AlertsSystem.tsx:292-307 | the drop-downs take the chosen values; the lists are unchanged |
| Search.Lower | src/components/SearchAndFilter.tsx:94-96 | lower-casing keeps the length and maps each character on its own |
| Search.LowerIdempotent | src/components/SearchAndFilter.tsx:94-96 | lower-casing a lower-cased text changes nothing |
| Search.Includes | src/components/SearchAndFilter.tsx:94-96 | `includes` holds exactly when the needle occurs at some position |
| Search.EmptyQueryMatches | src/components/SearchAndFilter.tsx:94-96 | the empty text occurs in every text |
| Search.IsBlank | src/components/SearchAndFilter.tsx:87 | a query is blank exactly when all its characters are white space |
| Search.SearchSpec | src/components/SearchAndFilter.tsx:93-108 | the results are a subsequence of the fixture: exactly the results whose content, title or contract name contains the query ignoring case, and which every non-empty list admits |
| Search.RunSearch | src/components/SearchAndFilter.tsx:93-108 | the successive filters of the timer callback produce exactly the specified results |
| Search.DateRangeIgnored | src/components/SearchAndFilter.tsx:100-108 | the date range never changes the results |
| Search.NoFiltersShowAllMatches | src/components/SearchAndFilter.tsx:100-108 | with every list empty, every matching result is shown |
| Search.ToggleFilter | src/components/SearchAndFilter.tsx:141-156 | a list category gets its toggled list and the others stay; `dateRange` returns the filters unchanged |
| Search.ToggleValue | src/components/SearchAndFilter.tsx:145-147 | afterwards the value is selected exactly when it was not; other values unchanged; an absent value is appended; a present one loses every copy and the rest keep their order |
| Search.ToggleAbsentTwice | src/components/SearchAndFilter.tsx:141-156 | toggling an absent value twice restores the list |
| Search.ActiveFilterCount | src/components/SearchAndFilter.tsx:167-172 | the count is 0 exactly when all lists are empty and neither date bound is set |
| Search.ToggleChangesCount | src/components/SearchAndFilter.tsx:141-172 | selecting a value raises the count by one; deselecting lowers it by the copies removed |
| Search.SearchPanel.constructor | src/components/SearchAndFilter.tsx:27-35 | empty query, no results, not searching, no filters |
| Search.SearchPanel.SetQuery | src/components/SearchAndFilter.tsx:186 | only the query changes |
| Search.SearchPanel.HandleSearch | src/components/SearchAndFilter.tsx:86-92 | a blank query does nothing; otherwise the panel is searching and the timer captures the current query and filters |
| Search.SearchPanel.SearchTimerFired | src/components/SearchAndFilter.tsx:92-112 | the captured search's results are shown and searching stops |
| Search.SearchPanel.ToggleFilterOf | src/components/SearchAndFilter.tsx:141-156 | only the filters change, to their toggled value |
| Search.SearchPanel.ClearAllFilters | src/components/SearchAndFilter.tsx:158-165 | every list empty, no date bound, so the active count is 0 |
| RiskScoring.RiskScoreColor | src/components/RiskScoringEngine.tsx:171-176 | ≥75, 50–74, 25–49 and below 25, each colour an if-and-only-if |
| RiskScoring.BandsAgree | src/components/RiskScoringEngine.tsx:298-306 | the category bar and its number get the same colour, and both follow the service's `getRiskLevel` bands |
| RiskScoring.AllFactors | src/components/RiskScoringEngine.tsx:188 | one profile gives its own factors; a factor is listed exactly when some profile has it |
| RiskScoring.AllFactorsAppend | src/components/RiskScoringEngine.tsx:188 | the factors of two lists joined are the first list's factors, in order and with their copies, then the second's |
| RiskScoring.CategoryAverageScore | src/components/RiskScoringEngine.tsx:187-192 | 0 when no factor has the category; otherwise the rounded mean of its factor scores, between their minimum and maximum |
| RiskScoring.CategoryWithoutFactors | src/components/RiskScoringEngine.tsx:187-192 | a category that no factor has averages 0 |
| RiskScoring.PortfolioAverage | src/components/RiskScoringEngine.tsx:242 | absent (`NaN`) exactly for an empty list; otherwise `Math.round` of the mean overall score, between the lowest and highest |
| RiskScoring.HighRiskCount | src/components/RiskScoringEngine.tsx:255 | the number of positions holding a profile whose stored level is high or critical; at most the number of profiles; 0 exactly when there is none |
| RiskScoring.TrendCount | src/components/RiskScoringEngine.tsx:519-533 | the number of positions holding a profile with that trend; at most the number of profiles; 0 exactly when no profile has it |
| RiskScoring.TrendCountsCoverAll | src/components/RiskScoringEngine.tsx:519-533 | the improving, stable and deteriorating counts add up to the number of profiles |
| RiskScoring.SelectedContractData | src/components/RiskScoringEngine.tsx:194 | absent exactly when no profile has the id; otherwise the first profile that does |
| RiskScoring.PanelInitialFigures | src/components/RiskScoringEngine.tsx:27-151 | on the shipped profiles `legal` averages 0, and the initial selection `''` selects nothing |
| RiskScoring.StoredLevelNotDerived | src/components/RiskScoringEngine.tsx:124-125 | the highway profile scores 58, which `getRiskLevel` calls high, but it is stored as medium and not counted as high risk |
| Comparison.SelectionAfter | src/components/ContractComparison.tsx:136-142 | ticking appends the id; unticking removes every copy, keeps every other id, and shortens the list by exactly the number of copies removed |
| Comparison.TickThenUntick | src/components/ContractComparison.tsx:136-142 | ticking an unticked contract and unticking it restores the selection |
| Comparison.SelectionStaysDistinct | src/components/ContractComparison.tsx:135-142 | a checkbox reports `checked` only when it was unticked, so the selection never repeats an id |
| Comparison.ComparisonPanel.constructor | src/components/ContractComparison.tsx:20 | nothing is selected |
| Comparison.ComparisonPanel.OnSelectionChange | src/components/ContractComparison.tsx:136-142 | the selection becomes its edited copy |
| Comparison.CompareContracts | src/components/ContractComparison.tsx:97-102 | absent exactly while fewer than two ids are selected; otherwise the selected available contracts in the order of the available list |
| Comparison.AllClauses | src/components/ContractComparison.tsx:239 | one contract gives its own clauses; a clause is listed exactly when some compared contract has it |
| Comparison.AllClausesAppend | src/components/ContractComparison.tsx:239 | the clauses of two lists joined are the first list's clauses, in order and with their copies, then the second's |
| Comparison.Titles | src/components/ContractComparison.tsx:239 | one title per clause, in clause order |
| Comparison.UnifiedTitles | src/components/ContractComparison.tsx:239 | each title once, and exactly the titles of the compared clauses |
| Comparison.UnifiedTitlesInFirstOccurrenceOrder | src/components/ContractComparison.tsx:239 | titles are listed in the order of their first occurrence |
| Lists.Dedup | src/components/ContractComparison.tsx:239 | `Array.from(new Set(xs))` lists each value once, exactly the values of `xs`, as a subsequence of it |
| Lists.DedupFirstOccurrenceOrder | src/components/ContractComparison.tsx:239 | values appear in the order of their first occurrence |
| Comparison.FindByTitle | src/components/ContractComparison.tsx:241 | absent exactly when no clause has the title; otherwise the first clause that has it |
| Comparison.ClausesForTitle | src/components/ContractComparison.tsx:240-242 | one contract gives its first clause with the title, or nothing; a clause is listed exactly when it is some compared contract's first clause with the title; empty exactly when no contract has one |
| Comparison.ClausesForTitleAppend | src/components/ContractComparison.tsx:240-242 | the entries for two lists joined are the first list's entries, in order, then the second's, so each contract contributes at most one entry in list order |
| Comparison.UnifiedTitleHasClauses | src/components/ContractComparison.tsx:239-242 | every title of the unified view has at least one clause under it |
| Comparison.DifferenceColor | src/components/ContractComparison.tsx:104-111 | the grey bar exactly for a missing or `same` difference |
| Comparison.DifferenceMark | src/components/ContractComparison.tsx:113-120 | the check mark exactly for a missing or `same` difference |
| Comparison.StylingAgrees | src/components/ContractComparison.tsx:224-227 | a missing difference is styled as `same`, and colour and icon always tell the same difference |
| Comparison.SummaryCountsDisjoint | src/components/ContractComparison.tsx:275-287 | added, modified and unchanged clauses are counted apart and together are at most all clauses |
| Comparison.Similarity | src/components/ContractComparison.tsx:287 | absent (`NaN`) exactly when there are no clauses; otherwise a percentage in [0, 100] within half a point of 100 × same / total |
| Explorer.NewRecord | src/components/ContractExplorer.tsx:70-78 | a new record is processing, of type `Unknown`, without a score, with the file's name and size |
| Explorer.Uploads | src/components/ContractExplorer.tsx:68-79 | one record per file, the last file's first, each with the id and upload date read for that file |
| Explorer.MarkAnalyzed | src/components/ContractExplorer.tsx:82-87 | exactly the records with the id become analysed with the score; others unchanged |
| Explorer.SharedIdCompletion | src/components/ContractExplorer.tsx:71-87 | two files read in the same millisecond share an id: the first completion marks both, and the second overwrites both |
| Explorer.DragActiveAfter | src/components/ContractExplorer.tsx:48-56 | on for `dragenter` and `dragover`, off for `dragleave`, unchanged otherwise |
| Explorer.Label | src/components/ContractExplorer.tsx:97-101 | ≥70 High, 40–69 Medium, below 40 Low, each an if-and-only-if |
| Explorer.BadgeAgrees | src/components/ContractExplorer.tsx:91-101 | the badge colour matches its label, and a higher score never gets a milder label |
| Explorer.ZeroScoreShowsNothing | src/components/ContractExplorer.tsx:177-193 | a record completed with the score 0 shows no spinner, no badge and no error, only the bare number 0 |
| Explorer.CompletedShowsBadge | src/components/ContractExplorer.tsx:183 | with the corrected test every completed record shows its badge |
| Explorer.PortfolioCounts | src/components/ContractExplorer.tsx:152-258 | analysed, high risk and processing are the numbers of positions holding an analysed record, one whose score is truthy and at least 70, and a processing one; analysed plus processing is at most the total; processing is 0 exactly when no record is processing |
| Explorer.UploadCounts | src/components/ContractExplorer.tsx:68-79 | an upload adds one processing record per file and keeps the analysed and high-risk counts |
| Explorer.CompletionCounts | src/components/ContractExplorer.tsx:82-87 | a completion never adds a processing record or removes an analysed one |
| Explorer.InitialCounts | src/components/ContractExplorer.tsx:16-43 | the shipped list has 3 records: 2 analysed, 0 high risk, 1 processing |
| Explorer.ContractExplorer.constructor | src/components/ContractExplorer.tsx:16-45 | the shipped list, highlight off |
| Explorer.ContractExplorer.HandleFiles | src/components/ContractExplorer.tsx:68-79 | the new records are put before the earlier ones, which follow unchanged |
| Explorer.ContractExplorer.CompleteProcessing | src/components/ContractExplorer.tsx:81-88 | with a score in [0, 99], the list becomes its marked copy |
| Explorer.ContractExplorer.HandleDrag | src/components/ContractExplorer.tsx:48-56 | the highlight follows the event type; the list is unchanged |
| Explorer.ContractExplorer.HandleDrop | src/components/ContractExplorer.tsx:58-66 | the highlight goes off; the files are added only when there is at least one |
| Lists.FilterCountsPositions | src/components/AlertsSystem.tsx:205-210 | `filter(p).length` is the number of positions whose element satisfies `p` |
| Lists.Filter | src/components/AlertsSystem.tsx:199-203 | `filter` returns exactly the elements that satisfy the predicate, as a subsequence |
| Lists.RemoveAll | src/components/SearchAndFilter.tsx:146 | removes every copy of the value and keeps every other element in order |
| Numeric.RoundDiv | src/services/contractService.ts:257 | `Math.round(sum / n)` for a non-negative sum is the integer nearest to sum / n, halves rounded up |
| Numeric.RoundedMean | src/services/contractService.ts:257 | the rounded mean lies between the smallest and largest value |

## Left out

- Registry.Service: the service is modelled as a value whose step functions
  return the new state. It is not a class updated in place. The model does not
  capture that the stored record object is mutated and re-`set`, nor any
  aliasing of it.
- Concurrent uploads are left out. Each run of `processContract` is modelled
  as uninterrupted, so two runs never interleave at their `await` points.
- The AI service (`src/services/aiService.ts`) is not part of this model. Its
  three calls are the inputs `AiResult`, which either resolve or fail. The
  invariant lemma assumes the risk result and the insights carry the requested
  contract id.
- Clock readings (`Date.now()`, `toISOString()`) and `Math.random()` are
  parameters.
- The constant and stub outputs of the service are left out: the total value,
  upcoming deadlines, alert counts, searching, comparing and the role views
  (`src/services/contractService.ts:178-252` and
  `src/services/contractService.ts:284-324`).
- The fixture lists of the alerts, search, comparison and explorer panels are
  parameters, except the explorer's initial list. The risk panel's profiles
  are a constant, without their description and mitigation texts.
- Rendering and styling strings are left out. Colours and icons are enums.
- `highlightText` is left out, because it builds a regular expression from the
  raw query.
- The quick-search buttons are left out. They call `handleSearch` before the
  new query is in state, which is React scheduling behaviour.
- The date-range inputs and the advanced-filter toggle are left out.
- Search.Lower: only the ASCII letters are lower-cased. Unicode case mapping is
  left out.
- Search.IsBlank: only the white-space characters in its list count as blank,
  not every Unicode space separator.
- Comparison.Similarity: the source computes `same / total * 100` in floating
  point. The model rounds the exact rational value, so a quotient that floating
  point pushes across a `.5` boundary could round differently.
- Explorer.DroppedFile: the size arrives as formatted text, so the megabyte
  formatting with `toFixed(1)` is left out.
- The tab, view-mode and detail-view switches of the panels are left out. They
  only choose what to render.

## Findings

| source | as written | input that shows it | evidently intended | confidence | as-written member | corrected member |
|---|---|---|---|---|---|---|
| src/components/ContractExplorer.tsx:183 | the risk badge is rendered only when `contract.riskScore` is truthy, but the completion draws `Math.floor(Math.random() * 100)`, which can be 0 | a completion that draws 0: the record is `analyzed` with score 0, so no spinner, no badge and no error text is shown; the expression yields `0`, which React prints as a bare "0" | every analysed record with a score shows its badge, `Low Risk (0)` included | high, not executed | Explorer.ZeroScoreShowsNothing | Explorer.CompletedShowsBadge |
