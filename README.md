# Monthly investment report: the derivation core in Dafny

This project models how the monthly report of a personal investment tracker is
derived from a list of holdings. Each holding (an asset position) has one of
seven asset categories, a market value, this month's gain and a cumulative
gain. From that list the report computes:

- the three grand totals;
- the approximate portfolio yields: gain over the implied starting value
  `amount - gain`, guarded only by `amount != 0`;
- a rollup per category: summed value, summed gains, count and percentage share;
- the chart series: the categories that hold a positive amount, in category order,
  with chart labels shortened at `基金`;
- the positions grouped by category;
- the month/year header read from the report date;
- the sign rule of the percentage formatter.

Modules:

- `Types` (`types.dfy`): the closed category set, the position record, the key
  order of the label table, the labels and the fallback colours.
- `Yields` (`yields.dfy`): the approximate-yield formula. Its result is a
  `Ratio`, which makes the infinite quotients of the source explicit.
- `Aggregation` (`aggregation.dfy`): totals, grouping, the category rollup, the
  item and category yields, and the chart series. The rollup is an imperative
  method (seed, sum up, set percentages) proved equal to the specification
  function `CategoryStatsOf`. The partition, additivity and share properties
  are proved about that function.
- `Formatting` (`formatting.dfy`): `split` on one character and the first piece
  of a split on a string, `parseInt` in base 10, integer-to-text, the date
  header, and the `+` rule of the percentage text.
- `Scenarios` (`scenarios.dfy`): four worked portfolios stated as lemmas.

Modelling choices:

- Money is `real`, so arithmetic is exact.
- A record keyed by category is a `map` filled over the sequence
  `CategoryKeys`. That sequence is the key order of the label table, and it is
  the order in which every record of the report is visited.
- The totals and the per-category filters are left folds, like `reduce` and
  `forEach`.

The yield guard at `components/ReportView.tsx:36-37` tests only `amount != 0`,
not the base `amount - gain`. When `amount == gain != 0` (for example value 100
and gain 100) the base is 0 and the yield is `Infinity` or `-Infinity`.
`Yields.ApproxYield` returns `PosInfinity` or `NegInfinity` there, and
`Yields.ZeroBaseGivesInfinity` exhibits both.

## Model

| member | source | states |
|---|---|---|
| Types.CategoryKeysEnumerate | types.ts:2 | the category set is closed: the key order lists every one of the seven categories, each once |
| Types.KeyIndex | types.ts:24-32 | every category has a position in the key order of the label table, and the key found there is that category |
| Types.KeyIndexInverse | types.ts:24-32 | positions in the key order and categories correspond one to one |
| Types.Label | types.ts:24-32 | the label table is total: every category has a non-empty label |
| Types.LabelsDistinct | types.ts:24-32 | distinct categories have distinct labels |
| Types.Color | types.ts:35-43 | the colour table is total: every category has a colour of `#` followed by six lower-case hexadecimal digits |
| Types.ColorsDistinct | types.ts:35-43 | distinct categories have distinct colours |
| Yields.ApproxYield | components/ReportView.tsx:36-37 | 0 when the amount is 0, whatever the gain; finite exactly when the amount is 0 or differs from the gain; otherwise an infinity with the sign of the gain; a finite yield applied to the starting value `amount - gain` gives back the amount |
| Yields.YieldSignFollowsGain | components/ReportView.tsx:36-37 | on a positive starting value the yield is positive, zero or negative exactly as the gain is |
| Yields.ZeroBaseGivesInfinity | components/ReportView.tsx:36-37 | the guard lets a zero base through: value 100 with gain 100 yields +Infinity, and -5 with gain -5 yields -Infinity |
| Aggregation.Total | components/ReportView.tsx:31-33 | the fold starts from 0: the empty list totals 0 |
| Aggregation.TotalNonNegative | components/ReportView.tsx:31-33 | a total over values none of which is negative is not negative |
| Aggregation.TotalSnoc | components/ReportView.tsx:31-33 | folding one more position into a total adds that position's value |
| Aggregation.TotalAppend | components/ReportView.tsx:31-33 | each grand total is additive over concatenated position lists |
| Aggregation.TotalSmall | components/ReportView.tsx:31-33 | the empty list totals 0 on every measure, and a single position totals to its own value |
| Aggregation.Group | components/ReportView.tsx:78 | the filtered list is never longer than the input |
| Aggregation.GroupMembers | components/ReportView.tsx:78 | a category's list holds exactly the input's positions of that category |
| Aggregation.GroupSnoc | components/ReportView.tsx:78 | one more position joins the end of its category's list and leaves the other lists unchanged |
| Aggregation.GroupAppend | components/ReportView.tsx:78 | filtering distributes over concatenation, so a category's positions keep their original relative order |
| Aggregation.GroupMultiplicity | components/ReportView.tsx:78 | a position occurs in its category's list as often as in the input, and in no other list |
| Aggregation.GroupedPositions | components/ReportView.tsx:75-81 | the grouping has a key for every category |
| Aggregation.GroupedPositionsPartition | components/ReportView.tsx:75-81 | the list lengths add up to the number of positions, and the lists pooled are exactly the input multiset: nothing lost or duplicated |
| Aggregation.AccumulatedSnoc | components/ReportView.tsx:48-55 | one more position adds its amount, gains and a count of 1 to its own category's bucket and leaves every other bucket unchanged |
| Aggregation.ComputeCategoryStats | components/ReportView.tsx:39-65 | the table the three loops build equals the specification `CategoryStatsOf`: one entry per category with the sums, count and share of that category's positions |
| Aggregation.SeedStats | components/ReportView.tsx:43-45 | after initialisation every category has an all-zero bucket |
| Aggregation.SumUp | components/ReportView.tsx:48-55 | after the summing loop each bucket holds the sums and count over exactly the positions of its category |
| Aggregation.SetPercentages | components/ReportView.tsx:58-62 | with a positive total each bucket's share is set to `amount / total * 100`; otherwise the buckets are unchanged |
| Aggregation.StatIsRollup | components/ReportView.tsx:39-65 | every category has an entry, and that entry is the summed bucket with its share set as the percentage loop sets it |
| Aggregation.EmptyCategoryStaysZero | components/ReportView.tsx:43-55 | a category without positions still has an entry, and all five of its fields are 0 |
| Aggregation.BucketSnoc | components/ReportView.tsx:48-55 | one more position changes only its own category's bucket, by its own numbers and a count of 1 |
| Aggregation.RollupsAddUp | components/ReportView.tsx:48-55 | the per-category amounts and gains add up to the grand totals, and the counts add up to the number of positions |
| Aggregation.RollupsAddUpOver | components/ReportView.tsx:48-55 | the same sums, taken over any list that names every category exactly once |
| Aggregation.SharesAdditive | components/ReportView.tsx:58-62 | when every share is measured against the same total, the sum of the shares is the share of the summed amounts |
| Aggregation.RollupSharesMeasured | components/ReportView.tsx:58-62 | every bucket's share is its amount measured against the total the table was built with |
| Aggregation.SharesSumToHundred | components/ReportView.tsx:58-62 | with a positive portfolio total the category shares sum to exactly 100 |
| Aggregation.SharesZeroUnlessPositive | components/ReportView.tsx:58-62 | with a zero or negative total every share stays 0, and so does their sum |
| Aggregation.RollupDescribesGroup | components/ReportView.tsx:39-81 | a category's bucket summarises exactly the list the grouping shows for it: same count, same sums |
| Aggregation.MonthlyYield | components/ReportView.tsx:36 | a portfolio worth 0 has yield 0; otherwise a finite yield grows the starting value `amount - monthlyGain` back to the amount |
| Aggregation.TotalYield | components/ReportView.tsx:37 | a portfolio worth 0 has yield 0; otherwise a finite yield grows the starting value `amount - totalGain` back to the amount |
| Aggregation.CategoryMonthlyYield | components/ReportView.tsx:317 | a bucket worth 0 has yield 0; otherwise a finite yield grows the bucket's starting value back to its amount |
| Aggregation.CategoryTotalYield | components/ReportView.tsx:318 | the same for the cumulative gain of a bucket |
| Aggregation.CategoryYieldIsGroupYield | components/ReportView.tsx:317-318 | a category's yields are the portfolio yield formula, with its guard, applied to that category's positions |
| Aggregation.ItemMonthlyYield | components/ReportView.tsx:332 | an item's yield is the portfolio yield formula, with its guard, applied to a portfolio of that one position |
| Formatting.BeforeFirst | components/ReportView.tsx:70 | the first piece of a split is a prefix of the text, holds no occurrence of the separator, and ends at the text's end or at the first occurrence |
| Formatting.BeforeFirstAt | components/ReportView.tsx:70 | text whose first occurrence of the separator is at `n` is cut to its first `n` characters |
| Aggregation.ChartName | components/ReportView.tsx:70 | a category's chart name is a prefix of its label that ends at the label's end or at a `基金` |
| Aggregation.ChartNameShortened | components/ReportView.tsx:70 | the two fund labels lose their `基金` suffix on the chart: `A/H股` and `美股` |
| Aggregation.ChartNameWhole | components/ReportView.tsx:70 | the other five labels hold no `基金` and are shown whole on the chart |
| Aggregation.PieFromKeys | components/ReportView.tsx:67-73 | from a key position on, the series lists exactly the categories at that position or later whose amount is positive |
| Aggregation.PieFromOrdered | components/ReportView.tsx:67-73 | from a key position on, the series lists categories at that position or later, in strictly increasing key order |
| Aggregation.PieFromValues | components/ReportView.tsx:67-73 | every slice shows an entry of the table: its chart label, and its amount as value |
| Aggregation.PieData | components/ReportView.tsx:67-73 | the chart lists exactly the categories whose amount is strictly positive, so zero and negative amounts are excluded; they appear in key order, each with its chart label and its amount as value |
| Aggregation.NothingToChart | components/ReportView.tsx:67-73 | with no positive amount anywhere the chart is empty |
| Aggregation.PieDataDistinct | components/ReportView.tsx:67-73 | no category appears twice in the chart |
| Formatting.Split | components/ReportView.tsx:86 | splitting yields at least one part, no part holds the separator, and joining the parts with the separator gives the text back |
| Formatting.SplitJoin | components/ReportView.tsx:86 | splitting undoes joining when no part holds the separator |
| Formatting.SplitWithout | components/ReportView.tsx:86 | a text without the separator splits into itself alone |
| Formatting.SplitAround | components/ReportView.tsx:86 | a text cut at its first separator splits into that head followed by the split of the rest |
| Formatting.SplitHead | components/ReportView.tsx:86 | the first part of a one-character split is a prefix of the text without the separator, ending at the text's end or at a separator |
| Formatting.BeforeFirstIsSplitHead | components/ReportView.tsx:70 | for a one-character separator, the first piece of the string split equals the first part of the character split |
| Formatting.TrimStart | components/ReportView.tsx:90 | parseInt skips a suffix-preserving run of white space: what remains is a suffix, starting with a non-white character, and everything dropped is white |
| Formatting.DigitRun | components/ReportView.tsx:90 | parseInt reads the longest run of decimal digits at the start |
| Formatting.ParseInt | components/ReportView.tsx:90 | parseInt is NaN exactly when no digit follows the white space and optional sign |
| Formatting.ParseDigits | components/ReportView.tsx:90 | a text of digits only is read as its decimal value |
| Formatting.ParseNegatedDigits | components/ReportView.tsx:90 | a minus sign followed by digits only is read as the negated decimal value |
| Formatting.NatToString | components/ReportView.tsx:92 | the text of a number is a non-empty digit string with no leading zero |
| Formatting.IntToString | components/ReportView.tsx:92 | the interpolated text of an integer is non-empty, starts with `-` exactly for negative numbers, and is otherwise all decimal digits |
| Formatting.NumberText | components/ReportView.tsx:90-92 | the interpolated result of `parseInt` reads `NaN` exactly when no number was read |
| Formatting.NatToStringRoundTrip | components/ReportView.tsx:92 | reading back the text of a natural number gives the number |
| Formatting.ParseIntRoundTrip | components/ReportView.tsx:90-92 | parseInt reads back the interpolated text of any integer |
| Formatting.FormatDate | components/ReportView.tsx:84-93 | a date without `-` (the empty one included) gives `--`/`--`; otherwise the year is the text before the first `-`, verbatim, and the month text ends with `月` |
| Formatting.DateFields | components/ReportView.tsx:86-89 | the first two `-`-separated fields of `year-month[-rest]` are the year and the month |
| Formatting.FormatDateOfFields | components/ReportView.tsx:89-92 | the header is the parsed second field followed by `月`, and the first field verbatim |
| Formatting.FormatDateDigits | components/ReportView.tsx:84-93 | for a digit-only month field the header shows its value without leading zeros followed by `月`, and the year verbatim |
| Formatting.FormatDateExample | components/ReportView.tsx:84-93 | `2024-03-15` gives `3月` and `2024` |
| Formatting.FormatPct | components/ReportView.tsx:103-105 | the text ends in `%`; a `+` is prefixed to the rendering for positive values, and nothing is prefixed for zero or negative ones |
| Formatting.FixedText | components/ReportView.tsx:104 | a finite value shows its supplied two-decimal rendering; an infinite one shows `Infinity`, with `-` in front when negative |
| Formatting.FormatPctSign | components/ReportView.tsx:103-105 | the text begins with `+` exactly when the value is strictly positive |
| Scenarios.SingleBond | components/ReportView.tsx:31-65 | one bond of 100000 with gains 1000 and 5000: the totals are its own numbers, the monthly yield is 1000/99000*100, the bond's share is 100 and every other bucket is zero |
| Scenarios.EmptyPortfolio | components/ReportView.tsx:31-73 | no positions: zero totals, zero yields, all-zero buckets and no chart slices |
| Scenarios.TwoInOneCategory | components/ReportView.tsx:48-55 | two stocks of 50000/+500 and 30000/-200: the bucket holds 80000 and +300 over 2 positions, and its yield is 300/79700*100 |
| Scenarios.EmptyHolding | components/ReportView.tsx:332 | a holding worth 0 with no gain has yield 0 and is still counted in its bucket |

## Left out

- Rendering: the JSX, CSS classes, the pie chart component, its label geometry and the bar widths. They are display only.
- Digit rendering: `toWan`, `toFixed`, `toLocaleString` and `Math.round` convert floating-point numbers to text. They are not modelled.
- Formatting.FormatPct: the two-decimal text of a finite value is a parameter. Only the sign rule and the `Infinity` texts are modelled.
- The gradient colour table in `components/ReportView.tsx`: it is display only. Its keys (`AH_Stock`, `US_Stock`) are not categories of the enumeration.
- Floating point: money is exact `real`. IEEE-754 rounding is not modelled, so the shares sum to exactly 100 here rather than approximately.
- Yields.ApproxYield: it holds no NaN case, because a zero base with a zero amount is caught by the guard.
- Formatting.ParseInt: integers are unbounded, so the precision loss of `parseInt` above 2^53 is not modelled.
- Formatting.IntToString: JavaScript writes a number of magnitude 10^21 or more in exponent form (`1e+21`), so a month field of 22 or more digits would show differently; only plain decimal text is modelled.
- Aggregation.SumUp: the source skips a position whose category has no bucket. The category type here is closed and every bucket is seeded, so that branch is kept but can never skip anything.
- The memoisation of `categoryStats` and `groupedPositions` is a caching detail with no effect on the values, and is not modelled.
- Application state: tab switching and seed data in `App.tsx` are UI state and not part of this model.
- The narrative service: the network call in `services/geminiService.ts` is foreign asynchronous I/O and not part of this model.
- The `PortfolioData` and `HistoryRecord` types in `types.ts`: no part of the report derivation uses them.
