# Elmcrest Communication & Motivation Compass — a Dafny model

The Elmcrest Compass is a single-page questionnaire for supervisors and
youth-development staff. A respondent answers 24 Likert questions. Twelve are
about communication style (Director, Encourager, Facilitator, Tracker). Twelve
are about motivation driver (Growth, Purpose, Connection, Achievement). The
app adds the answers into one total per trait and picks a primary and a
secondary trait per taxonomy. It looks up narrative copy for those traits and
their combinations, rewrites that copy for the respondent's role, and builds a
plain-text report for the clipboard. A separate admin dashboard loads the
stored submissions, sorts them newest first, filters them by role, and shows
per-role counts and the most common primary style and driver.

This project models that logic and proves its properties:

- `Assessment` (`assessment.dfy`)
  - the question bank and the two key orders;
  - the scoring loop of `computeScores` (a method over maps) and its ranking;
  - the completion gate `allAnswered`.
- `Shuffle` (`shuffle.dfy`): `shuffleArray`, a Fisher–Yates shuffle of a copy of an array, with the random draws as a parameter.
- `EntrySort` (`entry_sort.dfy`): `Object.entries(m).sort((a, b) => b[1] - a[1])`.
  - ECMA-262 requires `Array.prototype.sort` to be stable, so this result is fully determined.
  - It is modelled by a stable insertion sort.
- `Text` (`text.dfy`): the string operations the app relies on.
  - `replace` with a global literal pattern, `join`, `trim`, and decimal printing in template literals.
- `Content` (`content.dfy`): the role label and `roleize`, plus the key sets of the style, combination and integrated-profile tables.
- `Report` (`report.dfy`): `buildSummaryText`.
  - It pushes lines section by section, then joins them with `"\n"`.
- `Dashboard` (`dashboard.dfy`): `AdminDashboard`.
  - The reply check, column lookup, row parsing and the newest-first sort (an in-place insertion sort on an array).
  - The role filter, the first-25 slice, the counters, and the "most common" choice.
  - The page state, a class whose `Load` method updates it.
- `Wrappers` (`wrappers.dfy`): `Option`.

The narrative prose is a parameter of the report (`Report.Narrative`): only the tables' keys and entry shapes are modelled.

## Model

| member | source | states |
|---|---|---|
| `Assessment.QuestionBankShape` | src/App.jsx:34-188 | The bank has 24 questions. Each question's key belongs to the taxonomy its kind names, no two questions share an id, and every trait has exactly three questions. |
| `Assessment.KeysOfShape` | src/App.jsx:31-32 | Each taxonomy lists four traits, in declaration order. A trait is in a taxonomy's key list exactly when it is of that kind. |
| `Assessment.AddTo` | src/App.jsx:222-226 | `totals[key] += val`, on a key the totals object has, changes only that key's entry, by `val`, and keeps the key set. |
| `Assessment.Record` | src/App.jsx:222-228 | One pass of the `forEach` body adds question `i`'s answer to its own kind's totals and leaves the other kind's totals alone, taking the running totals from `i` to `i + 1` questions. |
| `Assessment.TallyAnswers` | src/App.jsx:209-228 | The `forEach` loop leaves each totals object as the running accumulation over all the questions, starting from zero for the four keys. |
| `Assessment.RunningIsTotals` | src/App.jsx:220-228 | After any prefix of a consistent bank, the running totals equal, trait by trait, the sum of the answers to that trait's questions (0 when unanswered). |
| `Assessment.BankRunningIsTotals` | src/App.jsx:209-229 | After the whole question bank, both totals objects hold the per-trait sums. |
| `Assessment.ComputeScores` | src/App.jsx:208-242 | The result is the scoring function. Each trait's total is the sum of its questions' answers. Primary and secondary are ranked as the stable descending sort puts them first and second. |
| `Assessment.ScoreOfSpec` | src/App.jsx:208-242 | The scoring function's totals are the per-trait sums. Its primary and secondary are the sort's first and second entries, ranked as above. |
| `Assessment.FirstTwoRanked` | src/App.jsx:230-241 | Sorting the entries descending puts first the highest total, taking the earliest trait on ties. Second comes the highest of the remaining traits, again taking the earliest on ties. |
| `Assessment.RankedUnique` | src/App.jsx:230-241 | The ranking condition picks exactly one primary and one secondary. |
| `Assessment.ScoreRanking` | src/App.jsx:236-240 | Both taxonomies' primary and secondary traits satisfy the ranking condition. |
| `Assessment.UniformAnswersRanking` | src/App.jsx:230-241 | If every question gets the same answer v, every total is 3v. The primary and secondary are then Director/Encourager and Growth/Purpose. |
| `Assessment.ScoreBounds` | src/App.jsx:1198-1199 | With every question answered on the 1..5 scale, every trait total lies between 3 and the displayed maximum 3 × 5. |
| `Assessment.TraitSumBounds` | src/App.jsx:195 | With answers on the 1..5 scale, a trait's total lies between its question count and five times that count. |
| `Assessment.TraitSumUniform` | src/App.jsx:220-228 | Equal answers v give a total of v times the number of questions tagged with the trait. |
| `Assessment.CategorySum` | src/App.jsx:220-228 | The four totals of a taxonomy add up to the sum of all the answers of that kind. |
| `Assessment.ScoreCategorySums` | src/App.jsx:208-228 | The same, for the bank's scores. |
| `Assessment.AllAnswered` | src/App.jsx:1201-1204 | The gate is open exactly when every bank question has an answer and both name and email hold a character that `trim` keeps. |
| `Shuffle.Swap` | src/App.jsx:201-203 | The swap exchanges two positions, keeps every other one, and preserves the multiset. |
| `Shuffle.ShuffleArray` | src/App.jsx:197-206 | It returns a fresh array holding the shuffle of the input for the given draws: a permutation of the input. The input array is not modified. |
| `Shuffle.ShuffledPermutes` | src/App.jsx:197-206 | For any valid draws, the shuffle keeps the length and the multiset of elements. |
| `Shuffle.ShuffledIdentity` | src/App.jsx:197-206 | When every draw picks its own index, the shuffle returns the input unchanged. |
| `EntrySort.SortDescPermutes` | src/App.jsx:230-231 | The entry sort returns a permutation of its input. |
| `EntrySort.SortDescOrdered` | src/App.jsx:230-231 | The entry sort's values never increase. |
| `EntrySort.FirstMaxIndexIsFirstMax` | src/App.jsx:230-231 | The chosen index holds the largest value, and every earlier entry is strictly smaller. |
| `EntrySort.SortDescHead` | src/App.jsx:230-231 | The sorted list is the first maximal entry followed by the sort of the rest (stability). |
| `Text.ReplaceAllNoMatch` | src/App.jsx:251-252 | A global replace leaves text without the pattern unchanged. |
| `Text.ReplaceAllSelf` | src/App.jsx:251-252 | Replacing a pattern by itself changes nothing. |
| `Text.ReplaceAllWhole` | src/App.jsx:251-252 | Text that is exactly the pattern becomes the replacement. |
| `Text.ReplaceAllAvoids` | src/App.jsx:251-252 | A character in neither the text nor the replacement is not in the result. |
| `Text.SplitJoin` | src/App.jsx:1404 | Joining lines that have no separator in them and splitting at the separator gives back the lines. |
| `Text.TrimEmpty` | src/App.jsx:1203-1204 | `trim` returns the empty string exactly when every character is JavaScript whitespace. |
| `Text.NatToStringRoundTrip` | src/App.jsx:1296 | Reading back the decimal digits printed for a number gives the number. |
| `Text.NatToStringInjective` | src/App.jsx:1296 | Different numbers print differently. |
| `Text.IntToString` | src/App.jsx:1296 | A printed integer contains only digits and the minus sign. |
| `Content.RoleLabel` | src/App.jsx:1223 | The shown role is the selected role when there is one, and "Program Supervisor" (the first option) otherwise. It is never empty. |
| `Content.RoleizeNoPlaceholder` | src/App.jsx:248-254 | Copy that does not mention "Program Supervisor" comes back unchanged. |
| `Content.RoleizeElmcrestPhrase` | src/App.jsx:248-254 | When "<role> at Elmcrest" does not itself contain "Program Supervisor" (so the second pass finds nothing in it), "Elmcrest Program Supervisor" becomes "<role> at Elmcrest". |
| `Content.NoCapitalP` | src/App.jsx:248-254 | A role without the letter "P" cannot bring "Program Supervisor" back into the first pass's output. |
| `Content.RoleizePhrase` | src/App.jsx:248-254 | "Program Supervisor" becomes the role. |
| `Content.RoleizeDefaultKeeps` | src/App.jsx:248-254 | Under the default role, copy without "Elmcrest Program Supervisor" is unchanged. |
| `Content.RoleizeDefaultRewords` | src/App.jsx:248-254 | Under the default role, "Elmcrest Program Supervisor" still becomes "Program Supervisor at Elmcrest". |
| `Content.RoleizeShiftSupervisor` | src/App.jsx:24-28 | For the "Shift Supervisor" option, "Elmcrest Program Supervisor" becomes "Shift Supervisor at Elmcrest". |
| `Content.RoleizeYdp` | src/App.jsx:24-28 | For the "YDP" option, "Elmcrest Program Supervisor" becomes "YDP at Elmcrest". |
| `Content.RoleizeSingle` | src/App.jsx:248-254 | Roleizing one-line copy with a one-line role gives one line. |
| `Content.CommCombosDistinct` | src/App.jsx:348-553 | `COMM_COMBOS` has 12 distinct entries. |
| `Content.CommCombosComplete` | src/App.jsx:348-553 | Its entries are exactly the ordered pairs of two different styles. |
| `Content.MotivCombosDistinct` | src/App.jsx:555-736 | `MOTIV_COMBOS` has 12 distinct entries. |
| `Content.MotivCombosComplete` | src/App.jsx:555-736 | Its entries are exactly the ordered pairs of two different drivers. |
| `Content.CrossCombosDistinct` | src/App.jsx:739-1156 | `COMM_MOTIV_COMBOS` has 16 distinct entries. |
| `Content.CrossCombosComplete` | src/App.jsx:739-1156 | Its entries are exactly the (style, driver) pairs. |
| `Content.ComboKeysPresent` | src/App.jsx:1215-1221 | For any answers, every key the results page builds is one the tables hold: both primaries, both primary–secondary pairs, and the style–driver pair. |
| `Report.Bullets` | src/App.jsx:1308-1310 | One line per item: the prefix followed by the roleized item. |
| `Report.ScoreLines` | src/App.jsx:1295-1297 | One score line per trait, in key order. |
| `Report.PushBullets` | src/App.jsx:1308-1310 | The loop appends exactly the bullet lines to what was pushed before. |
| `Report.PushScores` | src/App.jsx:1295-1297 | The loop appends exactly the score lines. |
| `Report.PushCommInfo` | src/App.jsx:1300-1312 | Appends the style deep dive, or nothing when the primary style has no entry. |
| `Report.PushCommCombo` | src/App.jsx:1314-1328 | Appends the style combination, or nothing when the pair has no entry. |
| `Report.PushCommSection` | src/App.jsx:1288-1328 | Appends the communication profile. |
| `Report.PushMotivInfo` | src/App.jsx:1342-1354 | Appends the driver deep dive, or nothing. |
| `Report.PushMotivCombo` | src/App.jsx:1356-1370 | Appends the driver combination, or nothing. |
| `Report.PushMotivSection` | src/App.jsx:1330-1370 | Appends the motivation profile. |
| `Report.PushCrossSection` | src/App.jsx:1372-1401 | Appends the integrated profile, or nothing when the style–driver pair has no entry. |
| `Report.BuildSummaryText` | src/App.jsx:1277-1405 | The text is the report's lines, in push order, joined with line breaks. |
| `Report.SummarySingle` | src/App.jsx:1277-1405 | With one-line inputs and one-line copy, every pushed line is a single line. |
| `Report.SummaryRoundTrip` | src/App.jsx:1277-1405 | Under the same conditions, splitting the text at line breaks gives back exactly the pushed lines. |
| `Report.SummaryShape` | src/App.jsx:1277-1405 | The report opens with the title, a 50-character rule and the four fields ("N/A" when blank). The primary and secondary style lines follow the communication heading, then the four score lines. The motivation section has the same layout after the communication section. The integrated heading follows it when present, and the last line is "End of results." |
| `Report.CommShape` | src/App.jsx:1288-1297 | The communication section opens with its heading, then the primary and secondary lines, then the four score lines. |
| `Report.MotivShape` | src/App.jsx:1330-1339 | The motivation section has the same layout. |
| `Report.FullReport` | src/App.jsx:1300-1401 | With the tables as shipped, every optional block is present for any answers: the style deep dive, both combinations, the driver deep dive and the integrated profile, which opens with its heading. |
| `Dashboard.ErrorMessage` | src/AdminDashboard.jsx:53-55 | The message is the reply's `message` when it is non-empty, and "Unknown error from Apps Script" otherwise. It is never empty. |
| `Dashboard.ColIndex` | src/AdminDashboard.jsx:57-58 | `indexOf`: -1 exactly when the column is absent; otherwise the first position holding that name. |
| `Dashboard.ParseRows` | src/AdminDashboard.jsx:69-90 | One submission per reply row, in order; a missing `rows` gives none. |
| `Dashboard.ParsedIds` | src/AdminDashboard.jsx:77 | Each parsed submission's id is its row index. |
| `Dashboard.MissingColumns` | src/AdminDashboard.jsx:80-87 | A field whose column is missing, or whose cell is absent or null, parses as the empty string. |
| `Dashboard.TimestampParsed` | src/AdminDashboard.jsx:70-78 | The raw timestamp is kept. The date is absent exactly when the raw text is empty or does not parse; otherwise it is the parsed instant. |
| `Dashboard.NewestFirstMeansDescending` | src/AdminDashboard.jsx:92-97 | With every row dated, comparator order is exactly non-increasing timestamps. |
| `Dashboard.SortNewestFirst` | src/AdminDashboard.jsx:92-97 | The in-place sort permutes the rows. When all rows are dated, they end newest first. |
| `Dashboard.SinkLeft` | src/AdminDashboard.jsx:92-97 | One insertion step permutes the array and extends the sorted prefix by one. |
| `Dashboard.FilterRole` | src/AdminDashboard.jsx:113 | The filter keeps exactly the rows of the role, all of that role. |
| `Dashboard.FilterRoleAppend` | src/AdminDashboard.jsx:113 | Filtering distributes over concatenation, so the kept rows stay in their order. |
| `Dashboard.FilteredRows` | src/AdminDashboard.jsx:111-114 | "All" shows every row unchanged; any other filter shows exactly the rows of that role. |
| `Dashboard.Recent` | src/AdminDashboard.jsx:146 | The first min(25, n) rows, unchanged. |
| `Dashboard.BumpLookup` | src/AdminDashboard.jsx:123 | `map[key] = (map[key] \|\| 0) + 1` raises that key's count by one and no other. |
| `Dashboard.TallyCounts` | src/AdminDashboard.jsx:119-126 | Each key's count is the number of times it occurs. |
| `Dashboard.TallyTotal` | src/AdminDashboard.jsx:119-126 | The counts add up to the number of keys counted. |
| `Dashboard.TallyKeys` | src/AdminDashboard.jsx:119-126 | The counter holds exactly the keys that occur. |
| `Dashboard.TallyOrder` | src/AdminDashboard.jsx:119-126 | The counter lists its keys in the order they first occur. |
| `Dashboard.TallyDistinct` | src/AdminDashboard.jsx:119-126 | No key appears twice. |
| `Dashboard.CountRoles` | src/AdminDashboard.jsx:119-126 | The loop builds the counter of the rows' role keys. |
| `Dashboard.RoleCountsTotal` | src/AdminDashboard.jsx:119-126 | The role counts add up to the number of rows. |
| `Dashboard.RoleCountsCount` | src/AdminDashboard.jsx:119-126 | A role's count is the number of rows with that role. "Unknown" also counts the rows with no role. |
| `Dashboard.RoleCountsAll` | src/AdminDashboard.jsx:119-126 | The same, for every non-empty role at once. |
| `Dashboard.PresentLookups` | src/AdminDashboard.jsx:128-135 | In the counter built behind the empty-value guard, every non-empty value's count is its number of occurrences. |
| `Dashboard.CountPresent` | src/AdminDashboard.jsx:128-135 | The loop builds the counter of the non-empty values, skipping empty ones. |
| `Dashboard.PresentCounts` | src/AdminDashboard.jsx:128-135 | Skipping empty values keeps every other value's multiplicity. |
| `Dashboard.PresentCountsTotal` | src/AdminDashboard.jsx:128-144 | The counts add up to the number of rows with a non-empty value. |
| `Dashboard.CommValues` | src/AdminDashboard.jsx:130-133 | The primary style of each row, in row order. |
| `Dashboard.MotivValues` | src/AdminDashboard.jsx:139-142 | The primary driver of each row, in row order. |
| `Dashboard.MostCommonFirstMax` | src/AdminDashboard.jsx:197-203 | The first entry of the sorted counter is the first entry with the largest count. |
| `Dashboard.MostCommonOfTally` | src/AdminDashboard.jsx:195-204 | An empty counter shows "—". Otherwise the result is a counted value that occurs at least as often as any other. Among the values tied with it, it occurred first. |
| `Dashboard.MostCommonPresent` | src/AdminDashboard.jsx:128-144 | Over a column of values counted behind the empty-value guard, "most common" is "—" when every value is empty; otherwise it is a non-empty value of the column that no other non-empty value outnumbers, and among those tied with it the one met first. |
| `Dashboard.PresentMember` | src/AdminDashboard.jsx:130-132 | A value reaches the counter exactly when it occurs and is non-empty. |
| `Dashboard.PresentEmpty` | src/AdminDashboard.jsx:130-132 | The counter gets nothing exactly when every value is empty. |
| `Dashboard.AdminDashboard.RoleCounts` | src/AdminDashboard.jsx:119-126 | The role counter over all loaded rows adds up to the number of rows; each role's count is its number of rows, "Unknown" also taking the rows with no role. |
| `Dashboard.AdminDashboard.CommCounts` | src/AdminDashboard.jsx:128-135 | The primary-style counter over all loaded rows holds each non-empty style's number of rows and adds up to the number of rows that have one. |
| `Dashboard.AdminDashboard.MotivCounts` | src/AdminDashboard.jsx:137-144 | The primary-motivator counter over all loaded rows holds each non-empty motivator's number of rows and adds up to the number of rows that have one. |
| `Dashboard.AdminDashboard.MostCommonComm` | src/AdminDashboard.jsx:195-204 | The "Most common primary Comm" card shows "—" when no row has a primary style; otherwise a primary style of some row that no other style outnumbers. |
| `Dashboard.AdminDashboard.MostCommonMotiv` | src/AdminDashboard.jsx:212-221 | The "Most common primary Motiv" card shows "—" when no row has a primary motivator; otherwise a primary motivator of some row that no other motivator outnumbers. |
| `Dashboard.AdminDashboard.constructor` | src/AdminDashboard.jsx:40-43 | Initially there are no rows, the page is loading, there is no error, and the filter is "All". |
| `Dashboard.AdminDashboard.Load` | src/AdminDashboard.jsx:46-104 | Loading ends. The filter is untouched. A non-"ok" status shows the reply's message and keeps the old rows. Otherwise the error clears and the rows become the parsed rows, permuted, newest first when all are dated. |
| `Dashboard.AdminDashboard.Filtered` | src/AdminDashboard.jsx:111-114 | The rows shown for the current filter. |
| `Dashboard.AdminDashboard.RecentRows` | src/AdminDashboard.jsx:146 | The first min(25, n) rows of the filtered list. |

## Left out

- Network I/O is not modelled: the `fetch` of the responses and the submission POST. `Load` takes the already-decoded reply.
- The JSON decoding is not modelled. Cells are text or absent (`null`/`undefined`); number and boolean cells are not modelled.
- Date parsing (`new Date(raw)` with its `isNaN` check) is a parameter `parse` of `Load` and `ParseRows`.
- The clock (`new Date().toLocaleString()`) is a parameter `date` of the report.
- `Math.random` is the draws parameter of `ShuffleArray`.
- The clipboard, the React rendering, the `ScoreBar` percentage (floating point), the `StatCard` helper strings, the count of distinct roles and `lastSubmission` are display only and are not modelled.
- The narrative prose of `COMM_INFO`, `MOTIV_INFO` and the three combination tables is not modelled. It is a parameter of the report; only its keys (proved complete) and the shape of its entries are modelled.
- Dashboard.SortNewestFirst: only permutation is stated, plus newest-first order when every row is dated. With undated rows the comparator returns 0 against every row, which is not a consistent comparator. ECMA-262 then leaves the order implementation-defined, so no order is claimed.
- Dashboard.SortNewestFirst: the engine's sort algorithm is not modelled. Insertion sort is one algorithm with the stated outcome.
- Dashboard.MostCommonOfTally: JavaScript enumerates integer-like object keys (such as "12") before the others. The counters here are kept in insertion order, so the tie-break is exact only for non-numeric values.
- Dashboard.CountRoles: the counters are plain objects. A value naming an inherited property (such as "constructor") would start from that property rather than from 0; this is not modelled.
- Content.RoleLabel: the role comes only from the fixed selector. A role containing `$` replacement patterns (`$&`, `$1`) would be expanded by `String.prototype.replace`; this is not modelled.
- Report.ScoreLines: totals are printed as integers. When a trait has no total, the line shows "undefined" as JavaScript does; this cannot happen for scores from `computeScores`.
- The React state hooks are not modelled. The answers, name, email and role are parameters of the members that read them.
