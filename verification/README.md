# Warehouse acceptance dashboard — proportion chart model

A Dafny model of the computational core of the dashboard page
`src/pages/Index.tsx`: the angular partition behind its pie charts, the
severity tiers of its supplier table, and the trend line of its KPI tiles.

- `pie_chart.dfy` (module `PieChart`): a chart is an ordered sequence of
  entries `Entry(name, value, color)`. Their values are summed into a total
  (the left-to-right `reduce` of the component); a cursor starts at -90
  degrees and each entry, in input order, takes the wedge
  `[cursor, cursor + value/total*360]`, computed as the source does, first
  as a percentage and then as an angle. The wedge's end becomes the cursor
  for the next entry. The source's mutable `currentAngle` becomes the
  recursive fold `Sweep` with an explicit cursor argument. `SweepLoop` and
  `Render` keep the loop-and-reassign shape of the component and are proved
  equal to the fold. A wedge is `Slice(start, end, largeArc, color)`, where
  `largeArc` is the SVG flag, 1 exactly when the span exceeds 180 degrees.
  The legend uses the same total as its denominator. `Draw` is the whole
  component: the centre total, the wedges and the legend.
- `supplier_rating.dfy` (module `SupplierRating`): error rates above 6
  percent are red, above 4 amber, otherwise green. The rank badge and the
  percentage text test those thresholds separately, and both are modelled.
- `kpi_trend.dfy` (module `KpiTrend`): an optional trend. A positive trend
  is shown rising and green; any other trend, zero included, is shown
  falling and red. The number shown is the magnitude `|trend|`.
- `dashboard_data.dfy` (module `DashboardData`): concrete checks on the
  page's own data sets, plus two small made-up charts for the half-circle
  boundary and the zero-total case.
- `wrappers.dfy` (module `Wrappers`): `Option` and `Result`.

All arithmetic (total, percentages, angles, cursor) is exact `real`
arithmetic, so "the spans add up to 360 degrees" and "the last wedge ends
at 270 degrees" are proved exactly rather than up to a floating-point
tolerance. The page computes in doubles, so a share within rounding of 50
percent may get the other large-arc flag there (see "## Left out").

Division by zero. The component never guards its total. With empty data
it divides nothing: it draws no wedges and shows a total of 0, and `Draw`
returns that empty chart. With non-empty data whose values add up to zero
it divides by zero: its percentages become NaN (or plus or minus infinity),
so it draws paths with NaN coordinates and legend rows reading "NaN%"
(zero entries), "Infinity%" (positive entries) or "-Infinity%" (negative
entries). The model does not reproduce that rendering; it adds a guard,
and `Draw` returns `Failure(ZeroTotal)` in that case. For non-negative
values, this happens exactly when every value is zero.

Empty data and negative values are not rejected, because the component
rejects neither: empty data draws an empty chart, and negative values are
drawn as they are, possibly with negative spans.
The partition results (`SweepSpanSum`, `FullCircle`) hold for any non-zero
total. The ordering results (`SweepOrdered`, `AtMostOneLargeArc`) require
non-negative values.

The entry field is called `name` rather than `label`, because `label` is a
Dafny keyword. The concrete entry names in `DashboardData` are English
renderings of the page's captions. Names are opaque and nothing depends
on them.

## Model

| member | source | states |
|---|---|---|
| PieChart.Total | src/pages/Index.tsx:24 | the total of non-negative values is non-negative, and it is zero exactly when every value is zero |
| PieChart.TotalCons | src/pages/Index.tsx:24 | the left-to-right sum also equals the first value plus the sum of the rest |
| PieChart.Percentage | src/pages/Index.tsx:58 | an entry's percentage is value/total*100, computed against the one total shared by wedges and legend (line 81); `PercentageScales` gives its inverse |
| PieChart.SpanOf | src/pages/Index.tsx:28 | the angle of a percentage exceeds 180 exactly when the percentage exceeds 50, is 360 exactly at 100 percent, and lies in [0, 360] for a percentage in [0, 100] |
| PieChart.StartAngle | src/pages/Index.tsx:25 | the cursor starts at -90 degrees, twelve o'clock in SVG coordinates |
| PieChart.PercentageScales | src/pages/Index.tsx:58 | an entry's percentage times the total gives back 100 times its value |
| PieChart.ShareScales | src/pages/Index.tsx:28 | an entry's angle times the total gives back 360 times its value |
| PieChart.CreateSlice | src/pages/Index.tsx:27-46 | the wedge starts at the given angle and keeps the colour; its span is percentage/100*360; the large-arc flag is 0 or 1, and 1 exactly when the span exceeds 180, i.e. when the entry holds more than half; a percentage in [0, 100] ends within one turn |
| PieChart.Sweep | src/pages/Index.tsx:57-60 | one wedge per entry in input order with the entry's colour; wedge i spans value_i/total*360; its flag is 1 iff that span exceeds 180 and 0 iff it is at most 180; the first wedge starts at the cursor and every later one starts where the previous ended |
| PieChart.Legend | src/pages/Index.tsx:80-97 | one legend row per entry in input order, carrying that entry's name, value and colour, with percentage*total = 100*value |
| PieChart.Draw | src/pages/Index.tsx:23-102 | fails exactly for non-empty data with total 0 (for non-negative values: exactly when all are zero); otherwise the centre total is the sum, there are as many wedges and legend rows as entries, wedge i and legend row i carry entry i's colour (and the row its name and value), each wedge's span is the angle of its legend row's percentage (one shared denominator), and a non-empty chart starts at -90 and ends at 270 |
| PieChart.SumValues | src/pages/Index.tsx:24 | the accumulating loop computes the total |
| PieChart.SweepLoop | src/pages/Index.tsx:57-60 | the pass that reassigns `currentAngle` after every wedge yields exactly the fold's wedges |
| PieChart.Render | src/pages/Index.tsx:23-81 | the component's evaluation order (total first, then the wedge pass and the legend against that total), with the `ZeroTotal` guard added, produces exactly `Draw`'s result |
| PieChart.SweepStep | src/pages/Index.tsx:57-60 | wedge i is what `createSlice` builds for entry i at the angle where wedge i - 1 ended, or at -90 for the first wedge: one pass of the loop that reassigns `currentAngle` |
| PieChart.SweepElement | src/pages/Index.tsx:59 | every wedge of the fold is what `createSlice` builds for its entry at that wedge's start angle |
| PieChart.ChainedCons | src/pages/Index.tsx:60 | putting a wedge that ends where a chained sequence starts in front keeps the sequence chained |
| PieChart.Telescope | src/pages/Index.tsx:60 | for wedges that each start where the previous ended, the spans add up to last end minus first start |
| PieChart.StartPosition | src/pages/Index.tsx:25-29 | wedge i starts at the cursor plus the angle of the sum of all earlier values |
| PieChart.EndPosition | src/pages/Index.tsx:29 | wedge i ends at the cursor plus the angle of the sum of the values up to and including it |
| PieChart.SweepPositions | src/pages/Index.tsx:57-60 | closed form of the fold: both statements above, for every wedge |
| PieChart.SweepSpanSum | src/pages/Index.tsx:28 | the wedges' spans add up to the angle of the entries' total |
| PieChart.FullCircle | src/pages/Index.tsx:24-29 | against the entries' own total, the spans add up to exactly 360 and the last wedge ends exactly 360 after the start |
| PieChart.TotalPrefixMono | src/pages/Index.tsx:24 | with non-negative values, a longer prefix never has a smaller sum |
| PieChart.WedgeInTurn | src/pages/Index.tsx:28-29 | with non-negative values, wedge i has a non-negative span and lies in [cursor, cursor + 360] |
| PieChart.SweepOrdered | src/pages/Index.tsx:57-60 | with non-negative values, every wedge lies within the turn from the cursor, and start angles never decrease along the sequence |
| PieChart.ChainMonotone | src/pages/Index.tsx:60 | along chained wedges that each run forwards, starts and ends never decrease |
| PieChart.OneLargeArcPerTurn | src/pages/Index.tsx:39 | chained forward wedges whose flags follow their spans and that sweep at most one turn have at most one flagged wedge |
| PieChart.AtMostOneLargeArc | src/pages/Index.tsx:39 | with non-negative values, at most one wedge of a chart has the large-arc flag set |
| PieChart.ZeroEntryKeepsCursor | src/pages/Index.tsx:28-29 | a zero-valued entry keeps its wedge (with its colour), which is empty and has no large-arc flag; the next wedge starts where it started; its legend row keeps its name at 0 percent |
| PieChart.LegendPercentSum | src/pages/Index.tsx:81 | the legend's percentages add up to the total's percentage of the denominator |
| PieChart.LegendIsWhole | src/pages/Index.tsx:80-81 | against the entries' own total, the legend percentages add up to exactly 100 |
| PieChart.SingleEntry | src/pages/Index.tsx:23-46 | one non-zero entry gives one wedge from -90 to 270 with the large-arc flag, and a 100 percent legend row |
| SupplierRating.Classify | src/pages/Index.tsx:262-266 | red exactly above 6, amber exactly in (4, 6], green exactly at or below 4 |
| SupplierRating.BadgeClass | src/pages/Index.tsx:262-266 | the rank badge's thresholds give the badge style of the error rate's tier |
| SupplierRating.PercentClass | src/pages/Index.tsx:275-279 | the percentage text's thresholds give the text style of the same tier |
| SupplierRating.ClassifyMonotone | src/pages/Index.tsx:262-266 | a higher error rate never gets a milder tier |
| SupplierRating.TextStyle | src/pages/Index.tsx:276-278 | the percentage text's class is `text-[` followed by the tier's own hex colour and `]` |
| SupplierRating.BadgeStyle | src/pages/Index.tsx:263-265 | the badge's class tints the background with the tier's hex colour and ends with the tier's text style |
| SupplierRating.StylesDistinguishTiers | src/pages/Index.tsx:275-279 | different tiers get different text styles and different badge styles |
| SupplierRating.BadgeAndPercentAgree | src/pages/Index.tsx:262-279 | for any error rate and tier, the badge shows that tier exactly when the percentage text does |
| KpiTrend.Abs | src/pages/Index.tsx:139 | the magnitude is non-negative and equals the trend or its negation |
| KpiTrend.TrendView | src/pages/Index.tsx:135-140 | the trend line is shown exactly when a trend is given; the icon rises and is green exactly for a positive trend and falls and is red otherwise (zero included); icon and text colours agree; the magnitude is the non-negative absolute value |
| KpiTrend.OppositeTrends | src/pages/Index.tsx:137-139 | opposite non-zero trends show the same magnitude with different icons and colours |
| KpiTrend.FlatTrendIsFalling | src/pages/Index.tsx:137-138 | a trend of 0 shows the red falling icon with magnitude 0 |
| DashboardData.DelayReasons | src/pages/Index.tsx:158-164 | the delay-reason data: five causes with positive shares that add up to exactly 100 |
| DashboardData.DelayReasonsChart | src/pages/Index.tsx:158-164 | the delay-reason chart (45/30/15/7/3) has total 100, with wedges -90..72, 72..180, 180..234, 234..259.2 and 259.2..270, none with the large-arc flag |
| DashboardData.TwoHalves | src/pages/Index.tsx:39 | two equal entries give two exact half circles, neither with the large-arc flag, and legend rows at 50 percent |
| DashboardData.AllZeroIsReported | src/pages/Index.tsx:58 | all-zero non-empty data yields `ZeroTotal` instead of a division by zero |
| DashboardData.SupplierTiers | src/pages/Index.tsx:166-172 | the listed suppliers' rates 8.5, 6.2, 4.8, 3.9 and 2.1 fall into red, red, amber, green, green |
| DashboardData.UnloadingTrend | src/pages/Index.tsx:152 | the unloading-time tile's trend of -5 shows the red falling icon with 5 |

## Left out

- Wedge end-point coordinates (`Math.cos`/`Math.sin` of the angle in radians, radius 45 around (50, 50), lines 31-37): these are transcendental floating-point functions. A wedge is modelled by its angles only.
- The SVG path string (line 42) and the one-decimal `toFixed(1)` formatting of legend percentages (line 81): string formatting. The legend carries the exact percentage, and `LegendIsWhole` proves the exact percentages add up to 100 before rounding.
- Floating-point rounding: all arithmetic of the component (the total at line 24, the percentages at lines 58 and 81, the angles at line 28 and the running `currentAngle`) is IEEE double arithmetic, while the model computes all of it exactly. A share within rounding of 50 percent may therefore get the other large-arc flag on the page (values 1+2^-52, 1 and 2^-52: the exact share is 50 percent and the flag 0, but the double total rounds to 2 and line 39 sets the flag to 1).
- The `-rotate-90` transform and the white centre circle (lines 56, 70), and all JSX layout and UI wrappers (`Card`, `Icon`, `Select`, `Button`): presentation only.
- The `period` selector state (line 149): it has no effect on any computation.
- KPI status colours and icons (lines 105-115): fixed lookup tables with no logic.
- The page's Russian text content and the narrative recommendations (lines 296-323). The mock data sets (lines 151-192) appear only as the concrete lemmas of `DashboardData`.
- Rejecting empty data and negative values: the component does neither, so the model does neither (see above).
- PieChart.Draw / PieChart.Render: for non-empty data adding up to zero the component divides by zero and renders NaN-coordinate wedges (large-arc flag 0 for NaN, 1 for +Infinity) and legend rows reading "NaN%" (zero entries), "Infinity%" (positive entries) or "-Infinity%" (negative entries) under a centre total of 0; the model replaces that rendering with `Failure(ZeroTotal)`.
- Idempotence of the computation: every member is a pure function, so it holds by construction and needs no separate lemma.
- KpiTrend.TrendView: the "% за неделю" suffix and number formatting are not modelled. The model states only the magnitude shown.
