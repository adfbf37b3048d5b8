# MoneyMe budget dashboard, modelled in Dafny

MoneyMe is a personal budget dashboard in Kenyan shillings. A user keeps a
planned and an actual amount for their income and for the records in four
expense sections:

- essential expenses;
- non-essential expenses;
- savings and investments;
- debt.

This project models two parts of it:

- `src/utils/calculations.js`, the calculation module. It computes differences,
  totals, the amount left, the percentage breakdown, currency formatting, input
  validation, the health score, the budget status and the 50/30/20 comparison.
- The state logic of `src/components/page.jsx`:
  - the seed records;
  - the buffer of typed text (`tempInputs`) that the inputs fill;
  - the composite `category-id-field` keys;
  - the debounced effect that parses each buffered entry and writes it into the records;
  - `getDisplayValue`;
  - the totals, the amount left, and the pie and bar chart rows derived on every render.

Modules:

| file | module | contents |
|---|---|---|
| `wrappers.dfy` | `Wrappers` | `Option` |
| `numbers.dfy` | `Numbers` | a model of JavaScript `parseFloat` on decimal text, and decimal printing of naturals |
| `calculations.dfy` | `Calculations` | every function of `calculations.js` |
| `pending_edits.dfy` | `PendingEdits` | keys, targets, one committed write, the flush as a fold, and its overlay normal form |
| `chart_data.dfy` | `ChartData` | `leftAmount`, `pieData`, `barData` |
| `page.dfy` | `Page` | the seed data and the class `MoneyManagement` (see below) |

`MoneyManagement` holds the component's state as fields. Its update methods
modify only the buffer. Its flush method is a loop over the buffered entries,
proved against the fold `ApplyEntries`.

How JavaScript values are modelled:

- Amounts are `real`. A value that JavaScript may find `undefined`, `null` or
  `NaN` is an `Amount` (`Option<real>`), and `x || 0` is `OrZero`.
- Functions that do not coalesce take plain `real`. These are
  `calculatePercentageBreakdown`, `calculateBudgetHealthScore`,
  `calculateRecommendedAllocation` and `compareWithRecommended`.
- The `'en-KE'`/`KES` number formatter is a parameter `format: real -> string`.
- Object property order (`Object.entries`) is insertion order. The class keeps
  it in `inputOrder`, beside the `tempInputs` map.

Main results:

- The flush is idempotent. Flushing the same buffer again changes nothing
  (`PendingEdits.FlushIdempotent`). The proof shows that the flush equals
  writing all the buffered writes at once, with the last write for a field
  winning (`PendingEdits.ApplyEntriesIsOverlay`).
- The flush keeps every section's length, order, ids and names. A field that
  no buffered key names keeps its value.
- Keys split back into the names they were built from.
- The pie shows exactly the groups with a positive actual amount, in chart
  order, and matches the bars.
- Totals do not depend on record order.
- Every health-score tier and every status is given by an if-and-only-if.
- The 50/30/20 split is the unique split of income in the ratio 5:3:2.

A savings rate of exactly 20 percent reaches the top tier of the health
score, so an income of 1000 with 800 of expenses scores 100
(`Calculations.HealthScoreExamples`).

## Model

| member | source | states |
|---|---|---|
| Calculations.Difference | src/utils/calculations.js:9-11 | the result is positive exactly when the coalesced actual exceeds the coalesced plan, and negative exactly when it is below; a missing actual or plan counts as 0 |
| Calculations.SectionTotalsOfEmpty | src/utils/calculations.js:18-29 | both totals of an empty section start from the reduce seed 0 |
| Calculations.SectionTotalsAppend | src/utils/calculations.js:18-29 | adding a record adds its coalesced actual to the actual total and its coalesced plan to the plan total |
| Calculations.SectionTotalsNonNegative | src/utils/calculations.js:18-29 | records with non-negative amounts give non-negative totals |
| Calculations.SumByPermutation | src/utils/calculations.js:19 | the reduce sum is the same for any two orderings of the same multiset of records |
| Calculations.SectionTotalsPermutation | src/utils/calculations.js:18-29 | reordering a section changes neither its actual total nor its plan total |
| Calculations.RemainingIsIncomeLessSum | src/utils/calculations.js:40-42 | the remaining amount is the coalesced income less the sum of the four coalesced outgoings |
| Calculations.RemainingIgnoresOrder | src/utils/calculations.js:40-42 | permuting the four outgoings does not change the remaining amount |
| Calculations.RemainingExample | src/utils/calculations.js:40-42 | 100 less 10 and 20 leaves 70; missing outgoings count as 0 |
| Calculations.Filter | src/utils/calculations.js:77 | the kept elements are exactly those of the input that pass the test, and there are never more of them than inputs |
| Calculations.FilterPartition | src/utils/calculations.js:77 | the kept elements and the rejected elements together are exactly the input, copies counted, so a filter neither drops nor duplicates an element |
| Calculations.FilterKeepsOrder | src/utils/calculations.js:77 | filtering keeps the relative order of the elements |
| Calculations.LabelsIdentifyCategories | src/utils/calculations.js:58-73 | the breakdown's and the pie's group names are distinct, so a row's name identifies its group |
| Calculations.CandidatesFiltered | src/utils/calculations.js:56-77 | after filtering, an expense category appears exactly when its amount is positive |
| Calculations.PercentageBreakdown | src/utils/calculations.js:53-78 | an income of exactly 0 gives no rows; otherwise the rows are the positive categories, in the order essential, non-essential, savings, debt, each with its own amount and its share of income in percent; a category appears exactly when its amount is positive |
| Calculations.BreakdownExamples | src/utils/calculations.js:53-78 | a zero income gives no rows; 50 of 100 in essentials gives one row at 50 percent |
| Calculations.FormatCurrency | src/utils/calculations.js:85-92 | the formatter is applied to the amount, and a missing amount is formatted as 0 |
| Calculations.IsValidPositiveNumber | src/utils/calculations.js:99-102 | true exactly when `parseFloat` yields a number that is at least 0 |
| Calculations.ValidPositiveNumberOfNaturals | src/utils/calculations.js:99-102 | every natural written in decimal is accepted; its negation is accepted only for 0, since `-0 >= 0` |
| Calculations.ValidPositiveNumberNeedsDigit | src/utils/calculations.js:99-102 | text without a digit is rejected, because it parses to `NaN` |
| Calculations.ValidPositiveNumberAccepts42 | src/utils/calculations.js:99-102 | "42" is accepted |
| Calculations.ValidPositiveNumberRejectsMinusOne | src/utils/calculations.js:99-102 | "-1" is rejected |
| Calculations.ValidPositiveNumberRejectsWord | src/utils/calculations.js:99-102 | "abc" is rejected |
| Calculations.BudgetHealthScore | src/utils/calculations.js:110-120 | the score is one of 0, 20, 40, 60, 80, 100; it is 0 exactly for a zero income; otherwise each tier is reached exactly when the savings rate is at least 20, 10, 5 or 0, lower bounds inclusive |
| Calculations.SavingsRateAntitone | src/utils/calculations.js:113 | for a positive income, more expenses never raise the savings rate |
| Calculations.HealthScoreMonotone | src/utils/calculations.js:110-120 | for a positive income, more expenses never raise the score |
| Calculations.HealthScoreExamples | src/utils/calculations.js:110-120 | (1000, 800) scores 100, (1000, 950) scores 60, (0, 500) scores 0 |
| Calculations.GetBudgetStatus | src/utils/calculations.js:127-150 | positive, negative and balanced exactly by the sign of the remaining amount; the messages carry the formatted amount and, when over budget, its absolute value; a missing amount reads as balanced |
| Calculations.BalancedIgnoresFormatter | src/utils/calculations.js:142-148 | the balanced status does not depend on the formatter |
| Calculations.StatusMirror | src/utils/calculations.js:128-141 | a surplus x and a deficit -x report the same formatted amount x |
| Calculations.StatusExamples | src/utils/calculations.js:127-150 | 500 is positive, -300 is negative, 0 is balanced |
| Calculations.RecommendedAllocation | src/utils/calculations.js:157-163 | needs, wants and savings add up to the income and stand in the ratio 5:3:2; none is negative for a non-negative income |
| Calculations.AllocationIsDetermined | src/utils/calculations.js:157-163 | any split of the whole income in the ratio 5:3:2 is the recommended allocation |
| Calculations.AllocationExample | src/utils/calculations.js:157-163 | 1000 gives 500, 300 and 200 |
| Calculations.CompareWithRecommended | src/utils/calculations.js:173-196 | each line holds its actual amount and its recommended amount; the difference is actual less recommended; the percentage is the share of income, or 0 when the income is not positive; the three differences add up to spending less income |
| Calculations.CompareExample | src/utils/calculations.js:173-196 | 600 of essentials on a 1000 income is 100 over a recommended 500, at 60 percent |
| Numbers.ParseFloat | src/components/page.jsx:76 | a negative result comes only from text whose first non-space character is '-' |
| Numbers.ParseFloatNeedsDigit | src/utils/calculations.js:100 | text without a digit parses to `NaN` |
| Numbers.NatToDecimalRoundTrip | src/components/page.jsx:76 | a natural written in decimal and followed by anything other than a digit or '.' parses back to itself |
| Numbers.NegatedNatToDecimal | src/components/page.jsx:76 | "-" followed by a natural's decimal digits parses to the negated natural |
| PendingEdits.SplitOnDash | src/components/page.jsx:75 | there is always at least one piece, and no piece contains a dash |
| PendingEdits.SplitJoin | src/components/page.jsx:75 | splitting undoes joining with dashes when no piece contains a dash |
| PendingEdits.JoinSplit | src/components/page.jsx:75 | joining the pieces with dashes gives back the whole key |
| PendingEdits.CategoryKey | src/components/page.jsx:137 | the key is the category type, the id and the field joined with dashes |
| PendingEdits.IncomeKey | src/components/page.jsx:132 | the income key is the category key of "income" with an empty id |
| PendingEdits.CategoryKeyRoundTrip | src/components/page.jsx:75 | a key built from three dash-free names splits back into those names |
| PendingEdits.IncomeKeyRoundTrip | src/components/page.jsx:75 | an income key splits into "income", an empty id and the field |
| PendingEdits.CategoryOf | src/components/page.jsx:78-92 | a recognised category name is the name of the category returned |
| PendingEdits.CategoryOfName | src/components/page.jsx:78-92 | every category's key name is recognised as that category, so `CategoryOf` inverts `CategoryName` |
| PendingEdits.TargetOf | src/components/page.jsx:75-96 | a key writes something only when its first piece names a category, and a section write never targets income |
| PendingEdits.TargetOfCategoryKey | src/components/page.jsx:80-95 | a key built for a section record's field targets exactly that section, record id and field |
| PendingEdits.TargetOfIncomeKey | src/components/page.jsx:78-79 | a key built for an income field targets exactly that field of the income |
| PendingEdits.ParseOrZero | src/components/page.jsx:76 | the parsed number, or 0 when the text does not parse |
| PendingEdits.SetRecordField | src/components/page.jsx:82 | the spread record keeps its id, its name and its other field, and the named field holds the new value |
| PendingEdits.UpdateSection | src/components/page.jsx:81-83 | the section keeps its length, ids and names; records with another id are unchanged; every record with the id gets the new value in the field and keeps the other |
| PendingEdits.Write | src/components/page.jsx:78-95 | an income write changes only that income field; a section write changes only that section, as in `UpdateSection` |
| PendingEdits.ApplyEdit | src/components/page.jsx:74-96 | a key whose category is unknown leaves the records unchanged |
| PendingEdits.ApplyCategoryEdit | src/components/page.jsx:75-95 | a section edit updates only its section with the parsed value, and text that does not parse commits 0 |
| PendingEdits.ApplyIncomeEdit | src/components/page.jsx:75-79 | an income edit sets only that income field, to the parsed value |
| PendingEdits.OverlayCompose | src/components/page.jsx:74-97 | two groups of writes made in turn equal their union, the later one winning |
| PendingEdits.ApplyEntriesIsOverlay | src/components/page.jsx:73-98 | the flush fold equals making all buffered writes at once, the last write for a field winning |
| PendingEdits.FlushIdempotent | src/components/page.jsx:73-98 | flushing the same buffer a second time leaves the records as the first flush left them |
| PendingEdits.FlushKeepsShape | src/components/page.jsx:73-98 | the flush keeps every section's length, order, ids and names, and a record field that no buffered key names keeps its value |
| ChartData.LeftAmount | src/components/page.jsx:101-111 | the amount left is the actual income less the four actual section totals |
| ChartData.PieSlices | src/components/page.jsx:114-120 | the positive segments in chart order, each with its own value and colour; a group appears exactly when its value is positive |
| ChartData.PieData | src/components/page.jsx:114-120 | the pie holds the groups with a positive actual amount, in chart order, each with its actual amount and its colour, and no others |
| ChartData.BarData | src/components/page.jsx:122-128 | always five bars, one per group in chart order, each with the group's planned amount (income's as stored) and its actual amount |
| ChartData.BarLabelsIdentifyCategories | src/components/page.jsx:123-127 | no two bars share a label |
| ChartData.PieMatchesBars | src/components/page.jsx:114-128 | a group is in the pie exactly when its bar's actual amount is positive |
| ChartData.PlanEditKeepsActualTotal | src/components/page.jsx:81-83 | editing a plan leaves the section's actual total unchanged |
| ChartData.ActualEditMovesTotal | src/components/page.jsx:81-83 | with unique ids, setting one record's actual amount moves the section total by the change |
| ChartData.PlanWriteKeepsActuals | src/components/page.jsx:101-120 | a plan write changes neither any actual amount, nor the amount left, nor the pie |
| Page.InitialBudgetWellFormed | src/components/page.jsx:35-64 | the seed sections have unique ids |
| Page.InitialLeftAmount | src/components/page.jsx:35-64 | with the seed data, nothing is left: actual income and every actual total are 0 |
| Page.SameShapeKeepsWellFormed | src/components/page.jsx:81-95 | edits that keep every section's ids keep the ids unique |
| Page.DisplayKeyTargetsField | src/components/page.jsx:143-145 | the key an input box reads its pending text from is the key whose flush writes that box's field: the income field for income whatever the id, and the record field of the section, id and field otherwise (for a dash-free id) |
| Page.MoneyManagement.constructor | src/components/page.jsx:35-67 | the component starts with the seed records and an empty buffer |
| Page.MoneyManagement.RecordInput | src/components/page.jsx:133 | the buffer maps the key to the new text; a new key is appended to the order |
| Page.MoneyManagement.UpdateIncomeDebounced | src/components/page.jsx:131-134 | buffers the text under the income key; afterwards the income field displays that text |
| Page.MoneyManagement.UpdateCategoryDebounced | src/components/page.jsx:136-139 | buffers the text under the category key; afterwards that field displays that text |
| Page.MoneyManagement.GetDisplayValue | src/components/page.jsx:142-147 | the buffered text when the key is in the buffer, otherwise the committed amount |
| Page.MoneyManagement.Commit | src/components/page.jsx:79-95 | the records become exactly `Write` of the old records |
| Page.MoneyManagement.ApplyDebouncedInputs | src/components/page.jsx:73-98 | the records become the fold of every buffered entry in insertion order; sections keep their shape and unique ids; flushing again would change nothing |

## Left out

- Rendering: the JSX tables, cards, icons and recharts components are not modelled, because they only present the modelled data.
- Timing: `useDebounce`'s 500 ms timer and its cancellation on each change are not modelled. The timer firing is the explicit method `ApplyDebouncedInputs`, run over the current buffer.
- React: `useState` and `useEffect` scheduling are not modelled. The state setters are field assignments, applied in the order the effect issues them.
- Calculations.FormatCurrency: the `Intl.NumberFormat('en-KE', KES, no decimals)` formatter is a foreign library, so it is a parameter. The model does not state its output text.
- Calculations.PercentageBreakdown: `toFixed(1)` is not modelled, because it is string rounding for display. The percentage is the exact share, as a number, not a one-decimal string.
- Calculations.CompareWithRecommended: as for the breakdown, the percentage is exact and not a `toFixed(1)` string.
- IEEE 754 floating point is not modelled, because reals are exact. Rounding in `0.3 * income`, for example, is not captured.
- Calculations.IsValidPositiveNumber: accepts only text. JavaScript would also coerce numbers, `null` and objects to text first.
- Numbers.ParseFloat: models decimal text only. This covers leading space, tab, newline and carriage return, an optional sign, digits, and an optional '.' with digits. Exponents, `Infinity` and the other Unicode white space are not modelled, because the inputs are typed amounts.
- PendingEdits.TargetOf: only the fields `plan` and `actual` are written, and a key naming any other field is ignored. JavaScript would set a property of that name on the record, and for `id` or `name` it would overwrite the record's own id or name. The page builds keys only for `plan` and `actual`.
- NaN inputs: the functions that do not coalesce take real numbers. For example, `calculateBudgetHealthScore(NaN, x)` returning 20 is not captured.
- `src/components/MoneyManagement.jsx` is not part of this model. It is a second dashboard component: seed data, rendering, and uncoalesced copies of the calculation helpers.
