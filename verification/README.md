# Mardi Gras throw tracker: the aggregation engine

The tracker records every throw caught at the 2026 Carnival parades: beads
by colour and parade, doubloons, throwable items, stuffed animals and
specials. Its dashboard reduces this dataset to flat numeric summaries,
which are then drawn as cards, charts and tables. This project models that
reduction and proves what the summaries promise about each other.

There are two bucket shapes. A colour's bucket under a named parade holds
`medallion` and `regular` `{count, weight}` records. Its bucket under the
reserved key `unaffiliated` is size-based: `small`, `medium`, `large`,
`nonSphere`, plus `other.medallion` and `other.special`. Every absent
record or field reads as 0.

Modules:

- `Objects`: JavaScript objects as insertion-ordered lists of key/value
  pairs (`Entries`). `Get` returns the first entry with the key. `Put`
  (`obj[k] = v`) replaces that entry in place or appends a new one.
- `Dataset`: the dataset record (`mardiGrasData`) and the readers that
  default to 0.
- `Statistics`: the grand totals of the summary cards (`calculateStatistics`).
- `BeadData`: the per-colour summaries (`getBeadData`), including how the
  unaffiliated bucket is folded into medallion and regular. Also the
  per-type breakdown (`getBeadDataByType`) and the unaffiliated size
  breakdown (`getUnaffiliatedSizeData`).
- `Throws`: the per-item totals (`getItemsData`).
- `ParadeData`: the per-parade family (`getBeadCountByParade`,
  `getBeadWeightByParade`, `getMedallionCountByParade`,
  `getColorVarietyByParade`, `getColorDistributionByParade`,
  `getParadeComparisonData`, `getDoubloonsData`). Each of these visits only
  the named parades and stores its value under the parade's short name.
- `Winners`: the leaderboard scans (`renderWinners`, `getParadeWinners`).
- `Palette`: the colour helpers (`generateColorPattern`, `getBorderColor`).
- `Consistency`: lemmas showing that the different routes to the same
  totals agree.
- `WorkedExample`: a concrete one-colour dataset and its `getBeadData`
  result.

Each loop that accumulates a value in the original is a Dafny `method`
with a loop, proved against a left-fold specification function whose
invariant has the form `acc == F(prefix)`. These are the loops over colours,
parade keys, item types and parades. The following follow the original's
form instead, or differ in form:

- The specials `reduce` is the recursive function `SpecialsTotal`.
- The labels `map` is a sequence comprehension in `GetBeadDataByType`.
- `find` is the recursive function `FindParade`.
- The loops over the four size names (`small`, `medium`, `large`, `nonSphere`)
  are written out field by field.
- The winner scans, `generateColorPattern` and the `map` over parade keys in
  `getBeadDataByType` carry invariants that state their result outright
  (bound, first maximum, entry by entry) rather than a fold.

The dataset is a parameter of every operation. In the original it is a
global loaded from a separate data file.

Two facts about the code that the model keeps:

- A winner scan over all-zero values keeps the empty name `''`, with value 0.
- The bucket shape is chosen by the key (`parade === 'unaffiliated'`), never
  by the bucket's fields, so one `Bucket` record carries all fields.

## Model

| member | source | states |
|---|---|---|
| Statistics.CalculateStatistics | mardi-gras-2026/app.js:222-301 | Each of the six card totals equals its fold. Beads are summed over every colour and over the unaffiliated key followed by each parade key, with the unaffiliated bucket read by size and `other`. Doubloons, items and stuffed animals are summed over the same keys. Specials are summed over all special items. |
| Statistics.ColourTotals | mardi-gras-2026/app.js:236-270 | One colour's count and weight over the parade keys equal `LedgerTotal`, reading each bucket by the shape its key selects. |
| Statistics.SumTallies | mardi-gras-2026/app.js:274-278 | A loop adding `m[parade].count \|\| 0` for the present keys equals `TallyTotal`, with absent keys adding 0. |
| Statistics.SpecialsTotalSplit | mardi-gras-2026/app.js:297-298 | The specials total of two lists laid end to end is the sum of their totals. |
| BeadData.SummariseColour | mardi-gras-2026/app.js:370-431 | One colour's inner loop starts from the all-zero record and applies each present bucket's updates in key order. It then sets `count` and `weight` to medallion plus regular. |
| BeadData.GetBeadData | mardi-gras-2026/app.js:363-435 | The result is the colour-by-colour assignment of each colour's summary. |
| BeadData.SummaryTotalsSplit | mardi-gras-2026/app.js:430-431 | Every colour of the result has `count == medallion.count + regular.count` and `weight == medallion.weight + regular.weight`. |
| BeadData.BeadDataColours | mardi-gras-2026/app.js:365-376 | With distinct colour keys, the result has exactly the colour keys of `beads`, in order, and each entry is the summary of that colour's own ledger. |
| BeadData.EmptyLedgerSummary | mardi-gras-2026/app.js:370-376 | A colour with no buckets keeps the all-zero initial record. |
| BeadData.UnaffiliatedSizesFolding | mardi-gras-2026/app.js:382-414 | `unaffiliatedSizes` adds up to exactly the unaffiliated bucket's small, medium, large and nonSphere counts plus `other.special`, once per visit of the unaffiliated key. Named buckets add nothing to it. |
| BeadData.RegularFolding | mardi-gras-2026/app.js:382-424 | `regular.count`, and likewise `regular.weight`, is the unaffiliated small, medium, large, nonSphere and `other.special` records of each unaffiliated visit plus the named buckets' `regular` records, and nothing else. |
| BeadData.MedallionFolding | mardi-gras-2026/app.js:404-420 | `medallion.count`, and likewise `medallion.weight`, is the unaffiliated `other.medallion` records plus the named buckets' `medallion` records, and nothing else. |
| BeadData.UnaffiliatedSizesInRegular | mardi-gras-2026/app.js:364-414 | If no named parade uses the reserved key, a colour's `unaffiliatedSizes` sum to exactly its unaffiliated bucket's regular beads, and `regular.count` is that sum plus the named parades' regular counts. |
| BeadData.SummaryParts | mardi-gras-2026/app.js:364-431 | If no named parade uses the reserved key, a colour's medallion count (or weight) is its unaffiliated `other.medallion` plus its named `medallion` records, and its regular count (or weight) is its unaffiliated sizes and `other.special` plus its named `regular` records. |
| BeadData.FindParade | mardi-gras-2026/app.js:443 | `find` returns the first parade carrying the key (none before it carries the key), or nothing when no parade carries it. |
| BeadData.LabelOfParade | mardi-gras-2026/app.js:441-445 | A named parade's label is its short name, provided its key is not the reserved one and no earlier parade shares it. |
| BeadData.SumTypeColumn | mardi-gras-2026/app.js:448-464 | One entry of `medallionData` or `regularData` is the type count summed over every colour under that key. |
| BeadData.TypeColumns | mardi-gras-2026/app.js:447-490 | `parades.map` yields one type total per key, in key order. |
| BeadData.GetBeadDataByType | mardi-gras-2026/app.js:438-493 | `paradeLabels`, `medallionData` and `regularData` all have length 1 + number of parades, and `paradeLabels[0]` is `'Unaffiliated'`. Entry i is the label and the medallion and regular totals of key i. |
| BeadData.GetUnaffiliatedSizeData | mardi-gras-2026/app.js:496-525 | Each size counter is the sum, over colours, of the unaffiliated bucket's count for that size, for `other.medallion` or for `other.special`. |
| BeadData.SizeBreakdownMatchesTypes | mardi-gras-2026/app.js:447-525 | The size breakdown's `medallion` is `medallionData[0]`, and small + medium + large + nonSphere + special is `regularData[0]`. |
| Throws.GetItemsData | mardi-gras-2026/app.js:527-542 | The result is the item-by-item assignment of each item's count over the unaffiliated and parade keys. |
| Throws.ItemsDataMatchesStatistics | mardi-gras-2026/app.js:281-287 | With distinct item keys, `getItemsData` has exactly the item keys, each with its own total, and its values add up to `totalItems`. |
| Throws.AbsentParadesCountZero | mardi-gras-2026/app.js:534-538 | An item type with no entry under any visited key totals 0. |
| ParadeData.SumBeadMetric | mardi-gras-2026/app.js:589-594 | The inner loop over colours for one parade key equals the fold of that parade's bead count, weight, medallion count or colour variety. |
| ParadeData.SumItems | mardi-gras-2026/app.js:561-564 | The loop over item types for one parade key equals `ItemsAt`, with absent entries adding 0. |
| ParadeData.MetricFor | mardi-gras-2026/app.js:560-575 | The value stored for one parade key is its metric, where items include the stuffed animals. |
| ParadeData.ByParade | mardi-gras-2026/app.js:585-596 | The outer loop assigns each parade's value under its short name in parade order. A later parade with the same short name overwrites the earlier one in place. |
| ParadeData.GetBeadCountByParade | mardi-gras-2026/app.js:582-599 | Each parade's medallion plus regular count over all colours, stored under its short name. |
| ParadeData.GetBeadWeightByParade | mardi-gras-2026/app.js:601-618 | Each parade's medallion plus regular weight over all colours, stored under its short name. |
| ParadeData.GetMedallionCountByParade | mardi-gras-2026/app.js:643-660 | Each parade's medallion count over all colours, stored under its short name. |
| ParadeData.GetColorVarietyByParade | mardi-gras-2026/app.js:662-682 | For each parade, the number of colours with a positive count there. |
| ParadeData.GetDoubloonsData | mardi-gras-2026/app.js:544-550 | `doubloons[keyName]?.count \|\| 0` for each parade, under its short name. The unaffiliated key is not visited. |
| ParadeData.DistributionFor | mardi-gras-2026/app.js:627-637 | One parade's distribution assigns, colour by colour, each colour's count there when it is positive. |
| ParadeData.GetColorDistributionByParade | mardi-gras-2026/app.js:620-641 | For each parade, that parade's distribution is stored under its short name. |
| ParadeData.GetParadeComparisonData | mardi-gras-2026/app.js:552-579 | `itemsData` holds each parade's items plus stuffed animals. `weightData` is exactly `getBeadWeightByParade()`. |
| ParadeData.DistributionTotals | mardi-gras-2026/app.js:620-682 | With distinct colour keys, one parade's distribution has only positive values. It has as many entries as that parade's colour variety, and its values add up to that parade's bead count. |
| ParadeData.DistributionMembers | mardi-gras-2026/app.js:629-636 | With distinct colour keys, a colour appears in a parade's distribution if and only if its count there is positive, and then with that count. |
| ParadeData.DistributionColours | mardi-gras-2026/app.js:629-636 | Only colours of `beads` appear in a distribution. |
| ParadeData.MedallionsWithinBeads | mardi-gras-2026/app.js:582-660 | A parade's medallion count never exceeds its bead count. |
| ParadeData.VarietyWithinColours | mardi-gras-2026/app.js:662-682 | A parade's colour variety never exceeds the number of colours. |
| ParadeData.PerParadeAt | mardi-gras-2026/app.js:585-596 | Every per-parade result has the same keys as the slots, and at each position the metric of the parade key in that slot. |
| ParadeData.SlotsShape | mardi-gras-2026/app.js:585-596 | For any parades, repeated short names included, the slots hold each short name exactly once, in order of first appearance, and every parade's short name is among them. Each slot holds the key of the last parade carrying its short name. |
| ParadeData.SlotsGet | mardi-gras-2026/app.js:585-596 | Reading any short name from the slots gives the key of the last parade carrying it, or nothing when none does. |
| ParadeData.LastKey | mardi-gras-2026/app.js:595 | The key is absent exactly when no parade carries the short name; otherwise it belongs to a parade carrying it after which no parade carries it. |
| ParadeData.SlotsDistinct | mardi-gras-2026/app.js:585-596 | With distinct short names, every parade keeps its own entry, in parade order. |
| ParadeData.ParadeFamilyAgrees | mardi-gras-2026/app.js:582-682 | With distinct colour keys, the distribution, variety, count and medallion results have the same keys. At each position the distribution is positive, its size is the variety, its sum is the count, and the medallion count is at most the count. |
| Winners.Leader | mardi-gras-2026/app.js:321-329 | The scan from `('', 0)` with strict `>` returns a value that no entry exceeds. When that value is positive, it is held by the first entry reaching it. When it is 0, the name is `''`. The result is `('', 0)` if and only if every value is 0. |
| Winners.LeaderUnique | mardi-gras-2026/app.js:691-718 | The scan's contract determines the winner: two results satisfying it are equal. |
| Winners.BeadWinners | mardi-gras-2026/app.js:317-340 | The count and weight winners are the leaders of `getBeadData`'s `count` and `weight` columns. |
| Winners.GetParadeWinners | mardi-gras-2026/app.js:684-721 | The four winners are the leaders of the count, weight, colour-variety and medallion per-parade results. |
| Palette.GenerateColorPattern | mardi-gras-2026/app.js:36-43 | Returns exactly `count` colours (none when `count` is 0 or less), with entry i equal to `[purple, green, gold][i mod 3]`. |
| Palette.GetBorderColor | mardi-gras-2026/app.js:46-54 | Returns `'#333333'` for the five light colours, and otherwise the colour unchanged. |
| Palette.BorderIdempotent | mardi-gras-2026/app.js:46-54 | Applying the border rule to its own result changes nothing. |
| Palette.BeadColorBorders | mardi-gras-2026/app.js:11-26 | Among the bead colours, exactly white, silver, glass, light-up and gold get the dark border. |
| Consistency.AccumulateMatchesLedger | mardi-gras-2026/app.js:235-271 | Folding a colour into medallion plus regular loses and adds nothing: the two parts are exactly what the grand total counts for that colour. |
| Consistency.BeadDataMatchesStatistics | mardi-gras-2026/app.js:235-271 | With distinct colour keys, summing `count` (or `weight`) over `getBeadData` gives `totalBeadsCount` (or `totalBeadsWeight`). |
| Consistency.TypeBreakdownMatchesStatistics | mardi-gras-2026/app.js:447-490 | Summed over all keys, `medallionData` plus `regularData` is `totalBeadsCount`. |
| Consistency.NamedColumnsMatchParade | mardi-gras-2026/app.js:456-485 | For a named parade, its `medallionData` entry is its medallion count, and its medallion plus regular entries are its bead count. |
| Consistency.GrandTotalSplitsByParade | mardi-gras-2026/app.js:222-271 | If no named parade uses the reserved key, `totalBeadsCount` is the unaffiliated size breakdown plus each named parade's bead count. |
| Consistency.GrandTotalMatchesParadeChart | mardi-gras-2026/app.js:582-599 | With, in addition, distinct short names, `totalBeadsCount` is the size breakdown plus the sum of `getBeadCountByParade`. |
| Consistency.NamedKeyMatchesParade | mardi-gras-2026/app.js:258-268 | Under a named key the grand total reads every colour as `getBeadCountByParade` and `getBeadWeightByParade` do: medallion plus regular, for counts and for weights. |
| Consistency.GrandTotalsMatchParadeCharts | mardi-gras-2026/app.js:601-618 | With distinct short names and no parade on the reserved key, `totalBeadsWeight` is the unaffiliated beads' weight plus the sum of `getBeadWeightByParade`, and `totalBeadsCount` likewise with `getBeadCountByParade`. |
| Consistency.PerParadeSum | mardi-gras-2026/app.js:544-682 | With distinct short names, a per-parade result has one entry per parade, in order, holding that parade's metric, and its values add up to the metric summed over the parades. |
| Consistency.DoubloonTotalMatchesChart | mardi-gras-2026/app.js:273-279 | With distinct short names, `totalDoubloons` is the unaffiliated doubloons plus the sum of `getDoubloonsData`. |
| Consistency.ItemsExchange | mardi-gras-2026/app.js:281-287 | Summing items type by type (the statistics) or key by key (the parade comparison) gives the same total. |
| Consistency.ItemTotalsMatchComparison | mardi-gras-2026/app.js:281-294 | With distinct short names, `totalItems + totalStuffedAnimals` is the unaffiliated items and stuffed animals plus the sum of the comparison chart's `itemsData`. |
| WorkedExample.PurpleSummary | mardi-gras-2026/app.js:363-435 | Take one colour with 10 regular beads (100 g) at one parade and 2 medallions (40 g) at another. It summarises to count 12 and weight 140, split into 2 medallions (40 g) and 10 regular beads (100 g). |

## Left out

- The page and its I/O: the `DOMContentLoaded` handler, `hideLoading`, `showError`, `renderParadeGrid`, `setupEventListeners`, `renderStatistics` and the text-writing half of `renderWinners` and `renderParadeWinners`. These write to the browser document.
- All `render*Chart` functions, their chart option objects and the chart registry. These are calls into a charting library and presentation only.
- The inline medallion/regular totals inside `renderBeadTypesByParadeChart`, which are chart code.
- `isMobileView`, `getMobileChartOptions` and `mergeChartOptions`. They depend on the window width and only shape chart options.
- The `toFixed` percentages in `renderBeadPercentageChart`, which are floating point.
- All `toLocaleString` formatting.
- `sortTable` and the descending sorts inside the render functions. These reorder document rows and chart data only.
- Counts and weights are taken as whole non-negative numbers (`nat`). In the original they are JavaScript numbers: they may be fractional (grams), negative or beyond 2^53, and then floating-point rounding may make totals computed in different groupings differ (for instance the weight half of `Consistency.BeadDataMatchesStatistics`).
- Malformed datasets are outside the model: every structural field of the dataset is present. On such data the original throws (for instance when `throws.stuffedAnimals.parade` is missing, app.js:291, or a specials item is null, app.js:298).
- Loading `mardiGrasData` from its data file. The dataset is a parameter instead.
- Parade fields other than `keyName` and `shortName` (name, date, time, logo), the `type` of stuffed animals and the description of specials. The aggregation never reads them.
- Property order of JavaScript objects with integer-like keys. Such keys are enumerated first, in numeric order; the model keeps every key in insertion order.
- Keys that collide with inherited object properties (such as `constructor`). The model treats them as absent unless stored.
- Palette.GenerateColorPattern: does not model a non-integer `count`. The model takes an integer, while JavaScript would loop up to the next integer above a fractional count.
- Throws.ItemsDataMatchesStatistics: the key and value statements assume distinct item keys, which a JavaScript object always has. The model's lists could repeat a key, so this is stated as a premise rather than built into the data type.
- BeadData.BeadDataColours: assumes distinct colour keys, for the same reason.
- ParadeData.DistributionTotals, ParadeData.DistributionMembers and ParadeData.ParadeFamilyAgrees: assume distinct colour keys, for the same reason.
- Consistency.BeadDataMatchesStatistics: assumes distinct colour keys, for the same reason, and its weight half holds for the original only with whole-number weights (see the line on counts and weights above). When colour keys repeat in the model, the grand total counts both ledgers, while the per-colour object keeps only the last one.
- Consistency.GrandTotalSplitsByParade, Consistency.GrandTotalMatchesParadeChart, Consistency.GrandTotalsMatchParadeCharts, BeadData.UnaffiliatedSizesInRegular and BeadData.SummaryParts: assume no named parade uses the key `unaffiliated`. A parade that did would be visited twice by the grand total.
- Consistency.PerParadeSum, Consistency.DoubloonTotalMatchesChart, Consistency.ItemTotalsMatchComparison, Consistency.GrandTotalMatchesParadeChart and Consistency.GrandTotalsMatchParadeCharts: assume distinct short names. When two parades share a short name, the per-parade objects keep only the later value, which `ParadeData.PerParadeAt` together with `ParadeData.SlotsShape` states in general.
