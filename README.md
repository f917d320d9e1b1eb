# CRM dashboard core in Dafny

A Dafny model of the computational core of a CRM analytics dashboard. It has five parts:

- **Pipeline analytics** (`calculations.dfy`, module `Calculations`).
  - Open, won and lost deal groups; gross and weighted pipe; forecasts at 30/60/90 days.
  - Cold deals and unhandled leads.
  - "Quick wins": late-stage deals worth at least the median deal value.
  - The conversion rate, per-stage pipeline summaries, and the lead-source ranking.
- **Stage and threshold constants** (`constants.dfy`, module `Constants`): the win probability of each stage, the ordered stage lists and the default thresholds.
- **CSV import normaliser** (`csv_parser.dfy`, module `CsvParser`, with `text.dfy` for the string built-ins it uses).
  - It maps one header-keyed row to a `Deal`, trying each field's header spellings in order.
  - Dates and amounts get defaults, and stage names pass through unchecked.
  - A tag list is split on `,`, `;` and `|`.
- **Session store** (`store.dfy`, module `Store`): a class that holds the deals of the last upload and the time of that upload.
- **Rent-period estimator** (`rent_period_form.dfy`, module `RentPeriodForm`).
  - The rent-period record and its empty default; the monthly/yearly rent forecast.
  - The turnover min/max warning and the onward rule.
  - The list of periods, which is updated, appended to and filtered in place (a class).

Shared pieces:

- `deal.dfy` (module `DealTypes`): the `Deal` record and the `Stage` type. `Unknown(name)` keeps any stage text the import casts through unchecked. A deal's stage has the subset type `CanonicalStage`: its `Unknown` arm never spells one of the seven names, so comparing stages is comparing their text.
- `seqs.dfy` (module `Seqs`): filter, count and sum over sequences, with their algebra, and an in-place selection sort on an array.
- `wrappers.dfy`: `Option`.

## How the model is organised

- **Time.** Timestamps are integer milliseconds (`Millis`). The current time `now` is a parameter wherever the code reads the clock.
- **Money.** Amounts and probabilities are `real`.
- **Runtime built-ins.** The JavaScript built-ins `new Date(text)` and `parseFloat(text)` cannot be seen from here. They are the two function fields of `CsvParser.Runtime`: `None` stands for an invalid date or `NaN`.
- **Local mutation.** `getQuickWins` and `getLeadsBySource` sort a local array and fill a `Map` in a loop. They are methods proved against specification functions. `Calculations.QuickWins` and `Calculations.LeadsBySource` sort through `Seqs.SortByKey`, a selection sort on an `array`. `Calculations.CountBySource` is the `forEach` loop that fills the Map, with the Map's insertion order kept as a sequence of keys.
- **State.** The store and the form's list of periods are classes whose methods reassign their fields.

## Model

| member | source | states |
|---|---|---|
| DealTypes.ParseStage | lib/csv-parser.ts:31 | A stage text is one of the seven stages exactly when it spells that stage's name. Any other text survives as `Unknown(text)`, which is outside every stage group. |
| DealTypes.ParseStageLossless | lib/csv-parser.ts:31 | The unchecked cast loses nothing: the stage spells exactly the text it came from. |
| DealTypes.StageNameInjective | types/deal.ts:9-16 | Two stages are equal iff their names are equal. |
| DealTypes.ParseStageOfName | types/deal.ts:9-16 | Reading a stage's own name gives back that stage. |
| Constants.Probability | lib/constants.ts:3-11 | Every stage's win probability lies in [0, 1]. A stage with no entry counts as 0, as `?? 0` does in lib/calculations.ts:23. |
| Constants.TerminalProbabilities | lib/constants.ts:9-10 | A won deal counts fully, a lost deal not at all, and an unknown stage not at all. |
| Constants.ProbabilityIncreasesAlongFunnel | lib/constants.ts:3-8 | Along the open stages, in pipeline order, the probability strictly increases. |
| Constants.StageListsShape | lib/constants.ts:13-29 | The pipeline lists seven distinct stages, exactly the known ones. The open stages are its first five, with neither closed stage among them. |
| Constants.ThresholdDefaults | lib/constants.ts:59-63 | The cold-deal threshold defaults to 14 days and the unhandled-lead threshold to 48 hours. The forecast horizons are strictly increasing. |
| Seqs.Filter | lib/calculations.ts:14 | `Array.filter`: the kept elements are exactly those satisfying the predicate, in their original order; the length is the number that satisfy it. |
| Seqs.SumPermutation | lib/calculations.ts:114 | Reordering a sequence (as a sort does) does not change a sum over it. |
| Seqs.CountPermutation | lib/calculations.ts:114 | Reordering a sequence does not change how many elements satisfy a predicate. |
| Seqs.SortByKey | lib/calculations.ts:114 | The in-place sort leaves the array ordered by the key and a permutation of what it held. |
| Text.Trim | lib/csv-parser.ts:13 | `trim` returns a slice of the input; everything cut from either end is whitespace, and the result neither starts nor ends with whitespace. |
| Text.TrimIdempotent | lib/csv-parser.ts:13 | Trimming twice is trimming once. |
| Text.TrimKeepsCharacters | lib/csv-parser.ts:13 | Trimming adds no characters. |
| Text.Split | lib/csv-parser.ts:13 | Splitting on `,`, `;` and the bar yields one piece more than there are delimiters. No piece holds a delimiter, and the pieces concatenate to the input minus its delimiters. |
| Text.SplitJoin | lib/csv-parser.ts:13 | Delimiter-free pieces joined with any mix of `,`, `;` and bar delimiters split back into exactly those pieces. |
| Text.SplitRebuild | lib/csv-parser.ts:13 | Every text is its split pieces joined again with the delimiters it contained, in order. With `SplitJoin` this fixes where `split` cuts on every input. |
| Text.NatToString | lib/csv-parser.ts:18 | `String(index)` is a non-empty string of decimal digits without a leading zero. |
| Text.DecimalRoundTrip | lib/csv-parser.ts:18 | Reading the digits of `String(n)` back gives `n`. |
| Text.NatToStringInjective | lib/csv-parser.ts:18 | Different row indexes give different fallback ids. |
| CsvParser.AliasOwner | lib/csv-parser.ts:18-34 | Every header spelling determines the one field it belongs to. |
| CsvParser.AliasesDisjoint | lib/csv-parser.ts:18-34 | No header spelling is shared by two fields. |
| CsvParser.FirstPresent | lib/csv-parser.ts:18 | The chain of or-fallbacks picks the first spelling whose cell is non-empty; every spelling before it is missing or empty. |
| CsvParser.Lookup | lib/csv-parser.ts:18-34 | A field falls back to its default exactly when none of its spellings has a non-empty cell. A value found is the cell under the first spelling that has one, so it is never empty. |
| CsvParser.ParseDate | lib/csv-parser.ts:6-9 | A date the runtime can read is kept; an unreadable one becomes the current time. |
| CsvParser.ParseAmount | lib/csv-parser.ts:30 | With `parseFloat` and a zero fallback, an amount that does not parse becomes 0, otherwise it is the parsed number. |
| CsvParser.ParseTags | lib/csv-parser.ts:11-14 | An empty cell gives no tags. Every tag is non-empty, already trimmed and free of delimiters. |
| CsvParser.ParseTagsOfPieces | lib/csv-parser.ts:11-14 | Whatever delimiters a cell mixes, its tags are exactly the trimmed non-blank pieces between them, in order. With `Text.SplitRebuild` this describes every cell. |
| CsvParser.ParseTagsRoundTrip | lib/csv-parser.ts:11-14 | Clean tags joined with any delimiters parse back to the same list, in order and with repeats. |
| CsvParser.MapRow | lib/csv-parser.ts:16-36 | Every mapped deal has only non-empty tags; its stage is canonical by its type. |
| CsvParser.MapRowId | lib/csv-parser.ts:18 | The id is the first non-empty id cell. When none of the four spellings has one, it is the decimal row index. |
| CsvParser.MapRowStage | lib/csv-parser.ts:31 | The stage spells the stage cell's text, or is `Lead` when that cell is missing. |
| CsvParser.MapRowValue | lib/csv-parser.ts:30 | The deal value is the parsed amount cell, or 0 when the cell is missing or does not parse. |
| CsvParser.MapRowFields | lib/csv-parser.ts:19-34 | A field found in the row reaches the deal: each text field is the found cell, each date is the runtime's reading of it (or the current time), and the tags are the parsed tag list of the cell. |
| CsvParser.MapRowDefaults | lib/csv-parser.ts:19-34 | A field none of whose spellings has a non-empty cell takes its default. Each text field (first and last name, email, company, industry, company size, country, lead source, status, owner) becomes empty text. Tags become none, and each of the three dates becomes the current time. |
| CsvParser.LookupIgnores | lib/csv-parser.ts:18-34 | A cell under one field's spelling never changes another field's lookup. |
| CsvParser.LookupEquivalence | lib/csv-parser.ts:18-34 | Any two spellings of the same field are looked up alike. |
| CsvParser.HeaderAliasEquivalence | lib/csv-parser.ts:16-36 | A row maps to the same deal whichever accepted spelling its header uses for a field. |
| CsvParser.MapRowOfLookups | lib/csv-parser.ts:16-36 | A deal depends on its row only through the per-field lookups. |
| CsvParser.ParseRows | lib/csv-parser.ts:46 | There is one deal per row, in row order, each mapped with its own index. |
| CsvParser.FallbackIdsDistinct | lib/csv-parser.ts:18 | In a file without id columns, every deal gets a distinct id. |
| Calculations.OpenDeals | lib/calculations.ts:13-15 | Exactly the deals at an open stage, in order; as many as there are such deals. |
| Calculations.WonDeals | lib/calculations.ts:28-30 | Exactly the ClosedWon deals, in order; as many as there are such deals. |
| Calculations.LostDeals | lib/calculations.ts:32-34 | Exactly the ClosedLost deals, in order; as many as there are such deals. |
| Calculations.StageGroupsPartition | lib/calculations.ts:13-34 | A deal at a known stage is in exactly one of open, won and lost. A deal at an unknown stage is in none of them. |
| Calculations.StageGroupsCoverAll | lib/calculations.ts:13-34 | The three groups together hold every deal except those at unknown stages. |
| Calculations.GrossPipe | lib/calculations.ts:17-19 | With non-negative deal values, the gross pipe is non-negative. |
| Calculations.WeightedPipe | lib/calculations.ts:21-26 | With non-negative deal values, the weighted pipe lies between 0 and the gross pipe. |
| Calculations.Forecast | lib/calculations.ts:36-48 | With non-negative deal values, a forecast lies between 0 and the weighted pipe. |
| Calculations.WeightedAtMostValue | lib/calculations.ts:21-26 | With non-negative values, each deal's weighted value lies between 0 and its full value. |
| Calculations.ForecastCounts | lib/calculations.ts:36-43 | A deal is among the forecast's terms iff it is open and its next follow-up is strictly before now plus the horizon. |
| Calculations.PipeSumsStep | lib/calculations.ts:17-48 | No deals sum to 0. Appending a deal adds its value to the gross pipe and its weighted value to the weighted pipe when it is open; it adds its weighted value to the forecast when it is open and due strictly before the horizon; otherwise it adds nothing. |
| Calculations.ForecastPastEveryFollowUp | lib/calculations.ts:21-48 | A horizon after every open deal's next follow-up forecasts the whole weighted pipe. |
| Calculations.ForecastMonotone | lib/calculations.ts:36-48 | A longer horizon never forecasts less. |
| Calculations.ForecastData | lib/calculations.ts:50-56 | Three points, labelled 30j, 60j and 90j, whose values are the forecasts at 30, 60 and 90 days. |
| Calculations.ForecastDataNonDecreasing | lib/calculations.ts:50-56 | The three forecast points never decrease and stay within the weighted pipe. |
| Calculations.ColdDeals | lib/calculations.ts:58-66 | Exactly the deals that are neither won nor lost and were last contacted strictly before now minus 14 days, in order; as many as there are such deals. |
| Calculations.ColdDealBoundary | lib/calculations.ts:58-66 | A deal contacted exactly 14 days ago is not cold; one millisecond earlier it is. |
| Calculations.UnhandledLeads | lib/calculations.ts:68-73 | Exactly the deals at stage Lead created strictly before now minus 48 hours, in order; as many as there are such deals. |
| Calculations.SortedAscending | lib/calculations.ts:79 | The ascending sort of the values is ordered and a permutation of them. |
| Calculations.AscendingUnique | lib/calculations.ts:79 | Two ascending permutations of the same values are equal. The median therefore does not depend on how the sort is done. |
| Calculations.PositiveValues | lib/calculations.ts:76 | The positive deal values in deal order: a subsequence of all the values that keeps every positive one, as many as there are. |
| Calculations.UpperMedian | lib/calculations.ts:77-80 | With no values the median is 0; otherwise it is one of the values. |
| Calculations.UpperMedianRank | lib/calculations.ts:77-80 | The median is one of the values. At most half of the values lie below it, and more than half lie at or below it. |
| Calculations.LateDealsAtLeast | lib/calculations.ts:81-85 | Exactly the Negotiation/Proposal deals worth at least the threshold, in order; as many as there are such deals. |
| Calculations.QuickWins | lib/calculations.ts:75-86 | The method, which sorts a local array, returns the late-stage deals worth at least the upper median of the positive deal values. |
| Calculations.QuickWinsMedianExample | lib/calculations.ts:75-86 | For three Negotiation deals of value 100, 200 and 300, the median is 200 and the quick wins are the last two deals. |
| Calculations.ClosedIsWonPlusLost | lib/calculations.ts:89-93 | The closed deals are the won ones plus the lost ones. |
| Calculations.ConversionRate | lib/calculations.ts:88-94 | The rate lies in [0, 1]. It is won / (won + lost), or 0 when nothing is closed. |
| Calculations.ThreeRowGroups | lib/calculations.ts:13-34 | For a Lead, a ClosedWon and a ClosedLost deal, each group holds exactly its one deal. |
| Calculations.ThreeRowScenario | lib/calculations.ts:17-94 | For a zero-value Lead, a won deal and a lost deal: gross pipe 0, one won deal, conversion rate 0.5. |
| Calculations.PipelineByStage | lib/calculations.ts:96-105 | One summary per open stage, in pipeline order, each with that stage's deal count and total value. |
| Calculations.PipelineByStageTotals | lib/calculations.ts:96-105 | The summaries' values add up to the gross pipe, and their counts to the number of open deals. |
| Calculations.CountBySource | lib/calculations.ts:107-111 | The map loop gives each source seen its number of deals, and has no other keys. The keys are ordered by the position of each source's first deal. |
| Calculations.FirstSeen | lib/calculations.ts:109-110 | The position of the first deal naming a source, or the number of deals when none does: every earlier deal names another source. |
| Calculations.PermutedTally | lib/calculations.ts:112-114 | Reordering the source tally keeps it a correct tally. |
| Calculations.LeadsBySource | lib/calculations.ts:107-115 | Each entry is a distinct source with its true count (at least 1), and every source appears. Counts are non-increasing, sources with equal counts come in the order they were first seen, and the counts add up to the number of deals. |
| Calculations.SortByRank | lib/calculations.ts:112-114 | The sorted copy is a permutation of the entries, ordered by the rank key: larger count first, then earlier first deal. |
| Calculations.RankedBySortKey | lib/calculations.ts:114 | Entries in rank-key order are in count order, larger first, and among equal counts in first-seen order, which is how a stable sort leaves the insertion-ordered Map entries. |
| Store.CrmStore.constructor | lib/store.ts:12-13 | The store starts with no deals and no upload time. |
| Store.CrmStore.SetDeals | lib/store.ts:14 | The deals are replaced wholesale and stamped with the current time. Deals are never present without a time. |
| Store.CrmStore.Clear | lib/store.ts:15 | The store returns to its initial state. |
| RentPeriodForm.CreateEmptyPeriod | components/forms/RentPeriodForm.tsx:40-50 | A new period has the given id, no dates, is not onward, is priced per m², and has every amount at 0. |
| RentPeriodForm.MonthlyBase | components/forms/RentPeriodForm.tsx:54-62 | The base is 0 when every amount is 0, and per m² when the area is 0. In fixed mode with non-negative amounts it is at least the fixed base. Non-negative inputs give a non-negative base. |
| RentPeriodForm.ComputeForecast | components/forms/RentPeriodForm.tsx:54-63 | The monthly rent excluding VAT and service is the monthly base; the yearly rent is twelve months of it. |
| RentPeriodForm.ByM2ForecastIgnoresOtherFields | components/forms/RentPeriodForm.tsx:55-58 | Per m², the forecast depends only on the base, storage and heating rates. The service charge does not enter it. |
| RentPeriodForm.FixedForecastIgnoresOtherFields | components/forms/RentPeriodForm.tsx:60-62 | At a fixed price, the forecast depends only on the fixed base, storage and heating amounts, not on the unit area. |
| RentPeriodForm.ByM2ForecastProportional | components/forms/RentPeriodForm.tsx:55-58 | Per m², the monthly base is additive in the area, and zero area gives a zero forecast. |
| RentPeriodForm.ForecastNonNegative | components/forms/RentPeriodForm.tsx:54-63 | Non-negative rates and area give a non-negative forecast. |
| RentPeriodForm.EmptyPeriodForecastZero | components/forms/RentPeriodForm.tsx:40-63 | A fresh period forecasts zero rent. |
| RentPeriodForm.MinMaxError | components/forms/RentPeriodForm.tsx:153 | No warning without a positive maximum, nor when the minimum does not exceed the maximum. A warning implies a positive minimum. |
| RentPeriodForm.MinMaxErrorMeaning | components/forms/RentPeriodForm.tsx:153 | A fresh period shows no warning. A positive maximum set below the minimum raises it. Either fix clears it: unsetting the maximum, or raising it to the minimum. |
| RentPeriodForm.ApplyPatch | components/forms/RentPeriodForm.tsx:143 | The empty patch returns the period. The id, start and end dates, onward flag and pricing mode come from the patch when it sets them, otherwise from the period. |
| RentPeriodForm.SingleFieldEdits | components/forms/RentPeriodForm.tsx:183-290 | Each control's one-field patch (dates, pricing mode, every rate, amount, turnover bound, percentage and free-rent months) gives the period with just that field replaced. |
| RentPeriodForm.RateEditsMoveTheForecast | components/forms/RentPeriodForm.tsx:54-62 | Per m², editing the base, storage or heating rate moves the monthly base by the change times the area. At a fixed price, editing the fixed base, storage or heating amount moves it by the change. |
| RentPeriodForm.PatchLaws | components/forms/RentPeriodForm.tsx:143 | `{ ...p, ...patch }`: the empty patch changes nothing, a patch applied twice acts once, and two patches in a row act as their merge. |
| RentPeriodForm.OnwardPatch | components/forms/RentPeriodForm.tsx:202 | The checkbox patch sets `onward` to the box's state and always sets the end date, to empty text exactly when the box is ticked or the date was already empty. It leaves the id, start date and pricing mode alone. |
| RentPeriodForm.OnwardRule | components/forms/RentPeriodForm.tsx:202 | Ticking "onward" clears the end date. Unticking keeps it. |
| RentPeriodForm.EditsThatKeepTheForecast | components/forms/RentPeriodForm.tsx:229-249 | In per-m² mode, neither fixed-amount edits nor a service-charge edit change the forecast. |
| RentPeriodForm.UpdateAll | components/forms/RentPeriodForm.tsx:142-143 | The period with the id is patched; every other period is untouched, in place. |
| RentPeriodForm.UpdateLaws | components/forms/RentPeriodForm.tsx:142-143 | Updating an absent id, or applying the empty patch, changes nothing. A patch that does not set the id keeps every id. |
| RentPeriodForm.RemoveAll | components/forms/RentPeriodForm.tsx:146 | Exactly the periods with another id remain, in order. The list shrinks by the number of matches. |
| RentPeriodForm.RemoveAbsent | components/forms/RentPeriodForm.tsx:146 | Removing an id no period has changes nothing. |
| RentPeriodForm.RemoveOne | components/forms/RentPeriodForm.tsx:146 | With distinct ids, removing a period's id deletes exactly that period; the list is one shorter. |
| RentPeriodForm.AppendEmpty | components/forms/RentPeriodForm.tsx:145 | Adding keeps the existing periods and puts one fresh period at the end. |
| RentPeriodForm.RemoveUndoesAdd | components/forms/RentPeriodForm.tsx:145-146 | Removing a just-added period with a new id restores the list. |
| RentPeriodForm.PeriodList.constructor | components/forms/RentPeriodForm.tsx:139 | The form starts with one empty period. |
| RentPeriodForm.PeriodList.Update | components/forms/RentPeriodForm.tsx:142-143 | The list becomes the patched list. |
| RentPeriodForm.PeriodList.AddPeriod | components/forms/RentPeriodForm.tsx:145 | The list gains one fresh period at the end. |
| RentPeriodForm.PeriodList.RemovePeriod | components/forms/RentPeriodForm.tsx:146 | The list loses exactly the periods with that id. |

## Left out

- CSV tokenising (lib/csv-parser.ts:38-55) is not modelled. This covers delimiter detection, quoting, the header row, `skipEmptyLines`, and the Promise with its `resolve`/`reject`. The model starts from the header-keyed rows the tokeniser produces. A thrown error is not modelled either.
- `new Date(text)` and `parseFloat(text)` are parameters (`CsvParser.Runtime`), not definitions. JavaScript's date grammar and number syntax are not modelled.
- Clock reads: each `new Date()` is the one parameter `now`. In lib/csv-parser.ts:8 every fallback date reads the clock separately, so the real timestamps may differ by milliseconds.
- Calendar arithmetic (`addDays`, `subDays`, `subHours` from date-fns) is fixed 86 400 000 ms days and 3 600 000 ms hours. Daylight-saving shifts are not modelled.
- Floating point: amounts are exact reals, so rounding in sums and in `won / (won + lost)` is not modelled. `NaN` appears only as the `None` of the runtime functions.
- Environment overrides of the thresholds (lib/constants.ts:59-63, `process.env`) are not modelled; only the defaults are.
- Presentation is not modelled: `formatCurrency` (lib/calculations.ts:117-119) and the form's `fmt` use `Intl` formatting, and the chart colours are in lib/constants.ts:31-57.
- Rendering, translation and the store's subscription mechanism are UI concerns and are not modelled.
- Seqs.SortByKey: it is a selection sort, and it is not stable: elements with equal keys may be reordered. Both uses are unaffected. `QuickWins` sorts reals, where equal keys are equal values (`AscendingUnique`). `LeadsBySource` sorts by `RankKey`, which breaks count ties by first position, so its result is the order a stable sort of the insertion-ordered entries gives.
- Calculations.QuickWins: the sort that finds the median is an in-place selection sort rather than the engine's `Array.prototype.sort`; `AscendingUnique` shows any correct sort of the values gives the same median, so the result is the same.
- Text.NatToString: `String(n)` switches to exponent notation from 1e21 on. Row indexes never get there, so only plain decimal digits are modelled.
- RentPeriodForm.CreateEmptyPeriod: the random id (`Math.random`, line 42) is a parameter.
- RentPeriodForm.PeriodList.RemovePeriod: the button guard `periods.length > 1` (line 162) is a UI condition, not a precondition. `RemoveOne` shows that with distinct ids, removing from a list of two or more leaves at least one period.
- Form input parsing is not modelled: `parseFloat(…) || 0` in the numeric fields (line 105) and `parseInt` for free-rent months (line 276), whose `NaN` is not modelled. Patches carry already-parsed numbers.
- The wiring that opens the form from the deals table is a UI concern and is not modelled.
