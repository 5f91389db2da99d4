# Work-acceptance assessment: scoring, store and dashboard list

This project models the logic core of a browser tool that helps a civil
contractor decide whether to bid for a job. It has three parts.

- **Scoring engine** (`Scoring`, from `calculateResult` in `js/app.js`).
  - Three screening answers form a gate. Any answer that is not a yes
    declines at once.
  - Five client answers are summed, and so are seven work answers.
    `contractTerms` is a key that exists but is never read.
  - Each sum is put into one of four tiers, Avoid, Nuisance, Leverage or
    Development, using fixed thresholds.
  - A first-match matrix turns the two tiers into a decision string, a
    margin guidance text and a CSS tag.
- **Assessment store** (`Store`, from `DataManager` in `js/data-manager.js`).
  - `Store.DataManager` is a class. Its single field `slot:
    Option<seq<Record>>` stands for the one storage key.
  - Save and delete read that slot, change the array and write it back
    whole. Clear removes the slot, and import overwrites it with the
    parsed array without reading it.
  - `GetSummaryStats` is the counting loop over the stored records. It
    counts approved and declined records. It builds a decision frequency
    table as an association list kept in key-insertion order. A JavaScript
    object keeps its keys in that order only for keys that are not
    array-index strings. It counts each tier, sums the
    project values and computes a rounded average score.
- **Dashboard list logic** (`Dashboard`, from `js/dashboard.js`).
  - The decision filter and the client-tier filter.
  - The six-way comparator, applied by an in-place stable sort on an array.
  - The three string mappers: decision class, category class and decision
    label.
  - A `Dashboard.Dashboard` class holds the current filter state.

The supporting modules are:

- `Text`: the JavaScript string built-ins the core relies on:
  - `includes`;
  - `indexOf`;
  - `replace` with a string pattern, which replaces only the first
    occurrence;
  - `toLowerCase`.
- `ValueParsing`: both copies of the project-value parser.
  - The first run of `/[\d,]+/` is found and its commas are stripped.
  - The digits are read as an exact natural number. An empty digit string
    gives NaN.
  - The result is scaled by a million if the lowercased text contains
    `m`, else by a thousand if it contains `k`.
- `Sorting`: a generic stable insertion sort driven by a comparator.
- `Wrappers`: `Option` and `Result`.

Modelling decisions:

- Screening answers are `Unanswered | Yes | No`. JavaScript's `null` and
  `false` are both falsy.
- A missing `totalScore` is 0, because `x || 0` cannot tell a missing
  score from 0.
- A missing value string is `""`.
- As written, the first-run parser reads `"$2.5M"` as 2,000,000, since
  `.` ends the run (`ValueParsing.MillionsExample`).
- Math.round of `S / n` with `n > 0` is the integer `r` with
  `n(2r-1) <= 2S < n(2r+1)`. That is rounding to nearest, with halves
  going up.
- An array comparator that returns NaN counts as 0, as the ECMAScript
  SortCompare operation specifies.

## Model

| member | source | states |
|---|---|---|
| Scoring.CalculateResult | js/app.js:341-425 | totalScore is clientScore + workScore; the decision is one of the four decision strings; the client category is "N/A", the work category is "N/A", and a reason is present, each exactly when screening fails |
| Scoring.AllYesIffPassesScreening | js/app.js:284-286 | the all-yes gate holds exactly when none of the three screening answers is falsy, so a result that passed the gate never takes the screening branch |
| Scoring.AllYesIsScored | js/app.js:357-413 | under the all-yes gate the result has no reason, its categories are the names of the client and work tiers of its own scores, and its decision is the matrix entry for those tiers |
| Scoring.ScreeningFailureDeclines | js/app.js:343-355 | any falsy screening answer gives DECLINE, css "decline", zero client, work and total scores, "N/A" categories and the screening guidance, whatever the scores |
| Scoring.CatalogueSums | js/app.js:68-201 | clientScore and workScore are the sums, over the question catalogue, of the keys tagged client and work respectively |
| Scoring.SideCountOfScoreKeys | js/app.js:68-201 | the catalogue tags exactly five keys client and seven keys work |
| Scoring.ScoresFollowCatalogue | js/app.js:357-366 | scored results carry the client sum over the five client keys and the work sum over the seven work keys |
| Scoring.ContractTermsIgnored | js/app.js:19-33 | changing contractTerms to any value leaves the whole result unchanged |
| Scoring.SumBounds | js/app.js:358-366 | scores bounded per key by [lo, hi] give a client sum in [5lo, 5hi] and a work sum in [7lo, 7hi] |
| Scoring.ScoreBounds | js/app.js:358-366 | with every score in [0,5], clientScore is in [0,25] and workScore in [0,35] |
| Scoring.AnsweredBounds | js/app.js:357-368 | with every scored key answered in [1,5], a scored result has clientScore in [5,25], workScore in [7,35] and totalScore in [12,60] |
| Scoring.ClientTierRanges | js/app.js:371-375 | the client tier is Avoid iff x <= 9, Nuisance iff 10..17, Leverage iff 18..22, Development iff x >= 23 |
| Scoring.WorkTierRanges | js/app.js:378-382 | the work tier is Avoid iff x <= 14, Nuisance iff 15..21, Leverage iff 22..28, Development iff x >= 29 |
| Scoring.TiersMonotone | js/app.js:371-382 | both tier functions are monotone in the score |
| Scoring.TierBoundaries | js/app.js:371-382 | the exact boundaries 9/10, 17/18, 22/23 (client) and 14/15, 21/22, 28/29 (work) |
| Scoring.MatrixTable | js/app.js:389-413 | client Avoid declines for every work tier; Nuisance with work Avoid or Nuisance is high margin; Nuisance with Leverage or Development is moderate; client Leverage or Development is standard for every work tier |
| Scoring.DecisionByScores | js/app.js:358-413 | for a scored result each decision string holds exactly on its region of the (clientScore, workScore) plane |
| Scoring.OutcomeFollowsDecision | js/app.js:344-413 | two results with the same decision have the same cssClass and, outside the screening branch, the same guidance |
| Scoring.DecisionTextInjective | js/app.js:389-413 | distinct decisions produce distinct decision strings |
| Scoring.UnansweredDeclines | js/app.js:19-33 | once screening passes, the initial all-zero scores give DECLINE with both tiers Avoid and total 0 |
| Scoring.LowestClientDeclines | js/app.js:372 | all five client answers 1 declines with client tier Avoid, whatever the work answers are |
| Scoring.MatrixScenarios | js/app.js:389-413 | concrete score records landing on high, moderate and standard margin |
| Text.IndexOf | js/dashboard.js:199 | the position found is an occurrence with none before it, and nothing is found exactly when the pattern does not occur |
| Text.ReplaceFirst | js/dashboard.js:199 | without an occurrence the string is unchanged; otherwise the first occurrence is replaced and the text around it is kept |
| Text.LowerPointwise | js/dashboard.js:194 | lowercasing keeps the length and maps every character independently |
| Text.LowerCharCases | js/data-manager.js:123-125 | a character lowercases to 'm' exactly when it is m or M, and to 'k' exactly when it is k, K or KELVIN SIGN; no capital survives |
| Text.LowerAppend | js/dashboard.js:194 | lowercasing distributes over concatenation |
| Text.LowerNoCapitals | js/dashboard.js:194 | a string with no capitals is its own lowercase |
| Text.ContainsChar | js/data-manager.js:123-125 | containing a one-character string is membership of that character |
| Text.LowerContains | js/data-manager.js:123-125 | a character occurs in the lowercased string exactly when some character lowercases to it |
| ValueParsing.RunStartSpec | js/data-manager.js:118 | the scan finds the first digit-or-comma character from a position, or reports that there is none |
| ValueParsing.RunEndSpec | js/data-manager.js:118 | the run extends over digit-or-comma characters and stops at the first other character or the end |
| ValueParsing.FirstRunSpanSpec | js/data-manager.js:118 | there is no match exactly when no character is a digit or comma; otherwise the span is the first maximal run |
| ValueParsing.FirstRunSpec | js/data-manager.js:118 | the matched text exists exactly when some digit or comma occurs, and consists only of digits and commas |
| ValueParsing.FirstRunIs | js/data-manager.js:118 | any first maximal run is the one the parser returns |
| ValueParsing.StripCommasSpec | js/data-manager.js:120 | stripping leaves no comma, introduces no character, is empty exactly when the input is only commas, and drops exactly the commas |
| ValueParsing.ParseDigits | js/data-manager.js:120 | parsing a digit string is NaN exactly when the string is empty |
| ValueParsing.StrippedRunIsDigits | js/data-manager.js:118-120 | a stripped run is all digits and is empty exactly when the run was only commas |
| ValueParsing.RunNumberNaN | js/data-manager.js:120-121 | the run's number is NaN exactly when the run is only commas |
| ValueParsing.MultiplierCases | js/data-manager.js:123-129 | the multiplier is a million exactly when an m or M occurs, a thousand exactly when none does but a k, K or KELVIN SIGN does, and 1 otherwise |
| ValueParsing.KiloMultiplier | js/data-manager.js:125-126 | a 'k' with no 'm'/'M' anywhere scales by a thousand |
| ValueParsing.PlainRunMultiplier | js/data-manager.js:127-128 | a string of digits and commas alone is not scaled |
| ValueParsing.ParsersAgree | js/dashboard.js:170-182 | extractValue is NaN exactly on a comma-only first run and otherwise equals the stats contribution, which is 0 on a comma-only run |
| ValueParsing.ValueOfRun | js/data-manager.js:117-131 | a first run holding a digit contributes its comma-stripped digits times the multiplier, and extractValue gives the same number |
| ValueParsing.NoRunIsZero | js/dashboard.js:171-173 | a string with no digit or comma, including the empty one, is worth 0 in both parsers |
| ValueParsing.PlainRunValue | js/data-manager.js:117-131 | a value made only of digits and commas contributes its digits unscaled |
| ValueParsing.MillionsExample | js/data-manager.js:117-131 | "$2.5M" is worth 2,000,000 in both parsers |
| ValueParsing.ThousandsExample | js/data-manager.js:117-131 | "150k" is worth 150,000 in both parsers |
| ValueParsing.OneFiftyDigits | js/data-manager.js:120 | "150" strips to itself and reads as 150 |
| ValueParsing.CommasExample | js/data-manager.js:117-131 | "1,500,000" is worth 1,500,000 |
| ValueParsing.CommasStripped | js/data-manager.js:120 | "1,500,000" strips to "1500000" |
| ValueParsing.MillionAndAHalfDigits | js/data-manager.js:120 | "1500000" reads as 1,500,000 |
| ValueParsing.NoDigitsExample | js/dashboard.js:171-173 | "abc" is worth 0 in both parsers |
| ValueParsing.CommaOnlyExample | js/dashboard.js:170-182 | "$,k" adds 0 to the stats but is NaN for extractValue |
| Store.Keep | js/data-manager.js:36 | filtering never lengthens the sequence |
| Store.KeepExactly | js/data-manager.js:36 | filtering keeps exactly the elements satisfying the predicate, with their multiplicities, as a subsequence |
| Store.KeepAppend | js/data-manager.js:36 | filtering distributes over concatenation |
| Store.KeepAll | js/data-manager.js:36 | a predicate true of every element keeps the sequence whole |
| Store.KeepTwice | js/data-manager.js:36 | filtering is idempotent |
| Store.KeepSame | js/dashboard.js:138-144 | filters by pointwise-equal predicates agree |
| Store.KeepBoth | js/dashboard.js:138-144 | filtering by p and then by q equals filtering by their conjunction |
| Store.FindById | js/data-manager.js:28-31 | nothing is found exactly when no record has the id; otherwise the first record with the id is returned |
| Store.FindByIdIs | js/data-manager.js:28-31 | the record at the first position with the id is the one found |
| Store.FindAfterSave | js/data-manager.js:8-31 | after appending a record with a fresh id, looking that id up returns the record |
| Store.FindUnchangedBySave | js/data-manager.js:8-31 | appending a record does not change the result of a lookup that already succeeded |
| Store.WithoutId | js/data-manager.js:34-38 | deleting keeps exactly the records with a different id, each with its multiplicity, as a subsequence of the stored order |
| Store.DeleteAbsent | js/data-manager.js:34-38 | deleting an absent id leaves the sequence equal |
| Store.DeleteTwice | js/data-manager.js:34-38 | deleting twice equals deleting once |
| Store.DeleteThenFind | js/data-manager.js:28-38 | after deleting an id, looking it up finds nothing |
| Store.ApprovedPlusDeclined | js/data-manager.js:106-110 | the approved records and the declined records together number the whole collection |
| Store.BumpEffect | js/data-manager.js:114 | incrementing a key adds one to that key's count and nothing to any other key's count, adds one to the total, and appends the key only when it is new |
| Store.BumpProper | js/data-manager.js:114 | incrementing keeps the table's keys distinct |
| Store.KeysAreDecisions | js/data-manager.js:114 | the key list of the table lists its entries' keys in order |
| Store.DecisionTableCounts | js/data-manager.js:112-114 | the table maps each decision string to the number of records carrying it, sums to the collection size and has distinct keys |
| Store.BumpTier | js/data-manager.js:137-142 | incrementing a category adds one to the matching tier counter and nothing for a non-tier name |
| Store.TierCounting | js/data-manager.js:136-142 | each tier counter is the number of records in that tier |
| Store.TierTotal | js/data-manager.js:136-142 | the tier counters sum to the number of records whose category is a tier name, so "N/A" results are not counted |
| Store.RoundedAverageIs | js/data-manager.js:145 | the rounded average of S over n is r exactly when n(2r-1) <= 2S < n(2r+1) |
| Store.SummaryCounts | js/data-manager.js:84-148 | total is the length; declined counts exactly the "DECLINE" records; approved plus declined is total; the decision table counts each decision and sums to total; each tier counter counts its tier |
| Store.EmptySummary | js/data-manager.js:87-100 | an empty collection gives all-zero statistics and an empty decision table |
| Store.SummaryAverage | js/data-manager.js:145 | on a non-empty collection the average is the round-half-up mean of the total scores |
| Store.CountStep | js/data-manager.js:104-143 | one iteration of the loop extends the counts over the next record |
| Store.DataManager.constructor | js/data-manager.js:3-5 | the store starts on whatever the storage slot holds |
| Store.DataManager.GetAllAssessments | js/data-manager.js:22-25 | an absent slot reads as the empty collection; otherwise the slot's records are returned |
| Store.DataManager.GetAssessment | js/data-manager.js:28-31 | nothing is found exactly when no stored record has the id; otherwise the first stored record with that id is returned |
| Store.DataManager.SaveAssessment | js/data-manager.js:8-19 | the slot becomes the old records followed by exactly one new record stamped with the given id and timestamp; the id is returned; with a fresh id the new record is what a lookup finds |
| Store.DataManager.DeleteAssessment | js/data-manager.js:34-38 | the slot becomes the old records without that id, and a lookup then finds nothing |
| Store.DataManager.ClearAllAssessments | js/data-manager.js:41-43 | the slot becomes absent and the collection reads as empty |
| Store.DataManager.ImportData | js/data-manager.js:63-80 | a parsed array replaces the collection and reports its length; a non-array or unparsable payload is rejected with its message and the slot is unchanged |
| Store.DataManager.GetSummaryStats | js/data-manager.js:84-148 | the counting loop returns Summary of the stored collection, whose counts SummaryCounts, EmptySummary and SummaryAverage describe |
| Sorting.SinkStep | js/dashboard.js:147 | one adjacent swap of an out-of-order pair moves the sinking element down, keeps the sorted prefix and suffix, and permutes |
| Sorting.SinkDone | js/dashboard.js:147 | once the sinking element is in order the prefix is sorted |
| Sorting.SwapPermutes | js/dashboard.js:147 | swapping two positions keeps the multiset |
| Sorting.KeyDifferencePermuted | js/dashboard.js:147 | pointwise form of KeyDifferenceKept: any two positions of a permutation compare by key difference |
| Sorting.KeyDifferenceKept | js/dashboard.js:147 | a comparator that is a key difference on a sequence is one on its permutations |
| Sorting.SwapDown | js/dashboard.js:147 | one swap: the new array is the old with the two cells exchanged, the multiset is kept and the sinking invariant moves down one |
| Sorting.Sink | js/dashboard.js:147 | inserting one element keeps the multiset, extends the sorted prefix by one, and changes nothing under a comparator that is never positive |
| Sorting.InsertionSort | js/dashboard.js:147 | the array is permuted; it is sorted by the key whenever the comparator is that key's difference; it is unchanged when the comparator is never positive |
| Dashboard.SelectedExactly | js/dashboard.js:138-144 | the filtered list holds exactly the records matching every non-empty filter, with their multiplicities, as a subsequence of the stored order; with both filters empty it is the whole collection |
| Dashboard.FilteringSelects | js/dashboard.js:138-144 | filtering by decision and then by client tier equals the single combined selection |
| Dashboard.CompareByKey | js/dashboard.js:147-160 | on comparable records the comparator is the difference of the sort keys |
| Dashboard.UnknownSortCompares | js/dashboard.js:161-162 | an unknown sort key compares every pair as 0 |
| Dashboard.SortedMeans | js/dashboard.js:147-164 | sortedness means timestamps non-increasing or non-decreasing for the date keys, totalScore (missing as 0) for the score keys, and extractValue for the value keys |
| Dashboard.SortedByKey | js/dashboard.js:147-164 | ordering by the sort key is sortedness for the chosen key |
| Dashboard.ComparableKeyDifference | js/dashboard.js:147-164 | on comparable records the comparator is the key difference the sort needs |
| Dashboard.UnknownSortStill | js/dashboard.js:161-162 | an unknown sort key's comparator is never positive |
| Dashboard.SortAssessments | js/dashboard.js:147-164 | sorting permutes the array; it is sorted when every record is comparable; an unknown key leaves the order unchanged |
| Dashboard.DeclineClass | js/dashboard.js:186 | "DECLINE" maps to decision-decline |
| Dashboard.PursueLacksDecline | js/dashboard.js:186 | no pursue decision contains "DECLINE" |
| Dashboard.OnlyHighHoldsHigh | js/dashboard.js:187 | no decision other than high margin contains "HIGH MARGIN" |
| Dashboard.PursueHoldsPhrase | js/dashboard.js:187-188 | the high and moderate decisions contain their phrases |
| Dashboard.StandardLacksModerate | js/dashboard.js:188 | the standard decision does not contain "MODERATE MARGIN" |
| Dashboard.HighMarginClass | js/dashboard.js:187 | the high-margin decision maps to decision-high-margin |
| Dashboard.ModerateMarginClass | js/dashboard.js:188 | the moderate-margin decision maps to decision-moderate-margin |
| Dashboard.StandardMarginClass | js/dashboard.js:189 | the standard-margin decision falls through to decision-standard-margin |
| Dashboard.DecisionClassOf | js/dashboard.js:185-190 | every decision string maps to "decision-" followed by its own css tag |
| Dashboard.DecisionClassMatchesResult | js/dashboard.js:185-190 | the badge class of any result is "decision-" followed by that result's cssClass |
| Dashboard.CategoryClassShape | js/dashboard.js:193-195 | the class is "category-" followed by as many characters as the category has, none of them a capital |
| Dashboard.CategoryClassOfWord | js/dashboard.js:193-195 | a capitalised word maps to "category-", its first letter lowered, then the rest |
| Dashboard.TierCategoryClass | js/dashboard.js:193-195 | every tier name is capitalised and maps to "category-" followed by the name with its first letter lowered |
| Dashboard.PlaceholderCategoryClass | js/dashboard.js:193-195 | the screening placeholder "N/A" maps to category-n/a |
| Dashboard.FormatDecisionPlain | js/dashboard.js:198-200 | text containing neither phrase is unchanged |
| Dashboard.DeclineLabel | js/dashboard.js:198-200 | "DECLINE" is left as it is |
| Dashboard.HighMarginLabel | js/dashboard.js:198-200 | "PURSUE WITH HIGH MARGIN" becomes "HIGH" |
| Dashboard.ModerateMarginLabel | js/dashboard.js:198-200 | "PURSUE WITH MODERATE MARGIN" becomes "MODERATE" |
| Dashboard.StandardMarginLabel | js/dashboard.js:198-200 | "PURSUE WITH STANDARD MARGIN" becomes "STANDARD" |
| Dashboard.LabelOf | js/dashboard.js:198-200 | "PURSUE WITH w MARGIN", for a space-free w, becomes w |
| Dashboard.Dashboard.constructor | js/dashboard.js:3-9 | the view starts with empty filters and sort date-desc over the given store |
| Dashboard.Dashboard.SetDecisionFilter | js/dashboard.js:46-49 | the decision filter becomes the chosen value and the other two settings are unchanged |
| Dashboard.Dashboard.SetClientFilter | js/dashboard.js:51-54 | the client filter becomes the chosen value and the other two settings are unchanged |
| Dashboard.Dashboard.SetSort | js/dashboard.js:56-59 | the sort key becomes the chosen value and the filters are unchanged |
| Dashboard.Dashboard.GetFilteredAndSortedAssessments | js/dashboard.js:134-167 | the list is a permutation of the filtered records; it is sorted by the current key when every record is comparable; under an unknown key it is exactly the filtered list in stored order |

## Left out

- Rendering, DOM events, the wizard, the modal and confirm dialogs, and the
  success banner carry no logic beyond what is modelled. The dashboard's
  `change` listeners appear only as the three setters, without the
  re-render they trigger.
- `localStorage`, `JSON.stringify` and `JSON.parse` are foreign browser
  APIs. The slot holds records directly. Import receives an abstract
  parse outcome: an array, a non-array or a parse error. Parsed array
  elements are assumed to be records.
- `exportData` (a Blob download) is not modelled, so the
  export-then-import round trip is not stated.
- The `FileReader` and the Promise around import are asynchronous I/O.
  Only the onload body is modelled, with resolve and reject as a `Result`.
- `generateId`, `Date.now`, `Math.random` and `new Date().toISOString()`
  are nondeterministic. The id and timestamp are parameters of
  `SaveAssessment`. Timestamps are abstract integers, also inside the date
  sorts. Nothing guarantees ids are unique, so the lookup-after-save
  property assumes a fresh id.
- Corrupt stored data is not modelled: there `JSON.parse` would throw.
- `formatCurrency` is not modelled, and neither is floating point.
  `parseFloat` of a digit string is an exact natural number, with no
  rounding beyond 2^53.
- `Store.DataManager.GetSummaryStats`: for a category that is not a tier
  name, such as "N/A", the source creates a stray counter key holding
  NaN. The model keeps only the four tier counters and leaves that value
  out.
- `Text.Lower`: case mapping is modelled for ASCII capitals and KELVIN
  SIGN, the only other character that lowercases to 'k'. No other
  character lowercases to 'm' or 'k'. Other non-ASCII mappings are
  outside the model.
- Store.BumpEffect: decision strings are assumed to be neither
  array-index strings such as "2" nor Object.prototype property names.
  A JavaScript object lists array-index keys first, in ascending order,
  and reads inherited members for the others. The new-key-at-the-end
  clause and the +1 do not hold for such strings, which only an import
  can bring in.
- Store.DecisionTableCounts: the same assumption. In JavaScript a
  decision such as "constructor" or "__proto__" does not end up holding
  its record count.
- Store.SummaryCounts: its decision-table clauses carry the same
  assumption.
- Quota errors from storage writes and races between browser tabs are
  not modelled.
- `Dashboard.SortAssessments`: `Array.prototype.sort`'s own algorithm is
  replaced by a stable insertion sort.
  - Sortedness is promised only when every record is comparable under the
    key. A record whose value parses to NaN compares as 0 with every
    other record, so no order is claimed in that case.
  - Stability is stated only as "an unknown key changes nothing", not for
    ties under a known key.
- `Dashboard.Dashboard.GetFilteredAndSortedAssessments`: the same
  limitations apply to its ordering clauses.
- The work-type, location and question-text catalogues are static data.
  Only the key-to-category map is modelled.
