# Pie chart layout

A Dafny model of the layout core of the CoreCharts pie chart,
`PieChart.drawChart` and the helpers it calls. Given the data points, the
chart settings, the canvas size and the font's text measurement, it decides:

- the order the slices are drawn in;
- each slice's start angle, sweep, palette colour and legend text, including
  the "Other" slice that replaces the tail once `MaxSlicesToShow` is reached;
- the square the pie is inscribed in;
- the anchor of every legend line.

`PieChart.DrawChart` is a pure function. It returns the sequence of drawing
calls the method issues: a white background, then one wedge path and one
legend line per loop iteration.

The source is one class, `PieChart`, with its data point record. The modules
group that class's helpers by concern:

- `StableSort`: a generic stable sort by descending key. It stands for LINQ's
  `OrderByDescending`, which is stable. The model proves it is a permutation,
  that it is sorted, and that it keeps the input order among equal keys. It
  also proves that any arrangement with these three properties is this one.
- `PieData`: data points, settings with their defaults, the total of the
  values, and the value ordering.
- `PieLayout`: the legend width, the chart square and the legend anchors.
- `PieSlices`: the slice loop as a recursive function producing one `Wedge`
  per iteration, plus the closure and "Other" aggregation lemmas.
- `PieChart`: the drawing-call trace and the lemmas that read slices off it.
- `PieExamples`: the demo program's data set with `MaxSlicesToShow = 5`, and
  two small charts.

Three behaviours of the aggregation branch (`PieChart.cs:149-160`) are easy to
misread, and the model keeps them as the code has them:

- One might expect `MaxSlicesToShow == 1` to keep the largest point and
  aggregate the rest. The `i > 0` guard at `PieChart.cs:149` means that a
  limit of 1 aggregates nothing, and every point gets its own slice
  (`PieSlices.MaxOneDrawsEverySlice`).
- One might expect the limit to matter only when there are more points than
  the limit. The guard `i + 1 == MaxSlicesToShow` also fires when the limit
  equals the count. The last slice is then labelled "Other" while it keeps
  that point's own sweep (`PieSlices.MaxEqualsCountRelabelsLast`).
- One might expect "Other" to sum all remaining points. `GetRange(i, Count - i - 1)`
  at `PieChart.cs:151` stops one short and leaves out the last point
  (`PieSlices.TailAngleSkipsLast`). The next branch replaces that sweep by
  `360 - curRad` whenever the two do not add up to zero. For ordered data with
  a positive total that is always the case (`PieSlices.OtherGuardPasses`). So
  the drawn "Other" slice still covers every remaining point, the last one
  included (`PieSlices.OtherWedge`).

Label lengths are counted as .NET's `string.Length` counts them, in UTF-16 code
units: a character outside the Basic Multilingual Plane counts twice
(`PieData.Utf16Length`).

## Model

| member | source | states |
|---|---|---|
| StableSort.Sort | Charts/PieChart.cs:127 | LINQ's stable `OrderByDescending`, as an insertion sort; its properties are the four lemmas below |
| StableSort.SortPermutes | Charts/PieChart.cs:127 | the ordering keeps every data point, with multiplicity |
| StableSort.SortSorted | Charts/PieChart.cs:127 | the ordered points have non-increasing values |
| StableSort.SortKeepsKeyClasses | Charts/PieChart.cs:127 | points with equal values keep their input order (stability of `OrderByDescending`) |
| StableSort.StableSortUnique | Charts/PieChart.cs:127 | any sorted, stable permutation of the input is exactly the order the chart draws |
| StableSort.SortHeadIsFirstMaximal | Charts/PieChart.cs:85 | the head of a stable descending sort is the first element with the maximal key |
| StableSort.DistinctKeyClasses | Charts/PieChart.cs:127 | when keys are pairwise distinct, any two permutations agree on every equal-key class, so only the sort order matters |
| PieData.OrderByValue | Charts/PieChart.cs:127 | the drawing order: the data sorted by value, one entry per point |
| PieData.OrderByValueIsStableSort | Charts/PieChart.cs:127 | the drawing order is a permutation of the data, descending by value, stable on ties |
| PieData.Sum | Charts/PieChart.cs:66-69 | `GetTotalValue`, the sum of all values; it does not depend on the order of the points (`SumPermutation`) |
| PieData.SumPermutation | Charts/PieChart.cs:66-69 | the total does not depend on the order the values are summed in |
| PieData.OrderKeepsTotal | Charts/PieChart.cs:127-128 | the total taken over the unsorted data equals the total of the ordered points |
| PieData.Utf16Length | Charts/PieChart.cs:85 | a label's `Length` lies between its character count and twice that |
| PieData.Utf16LengthIsCountIffBmp | Charts/PieChart.cs:85 | a label's `Length` equals its character count exactly when no character needs a surrogate pair |
| PieLayout.LongestLabel | Charts/PieChart.cs:85 | the measured label is the first one with the greatest `Length` in UTF-16 code units |
| PieLayout.LongestLabelCountsSurrogatePairs | Charts/PieChart.cs:85-87 | a two-emoji label (length 4) is measured rather than a three-letter one (length 3) |
| PieLayout.DetermineLegendWidth | Charts/PieChart.cs:83-89 | legend width is the measured width of the first longest label plus one font size and two legend paddings |
| PieLayout.GetChartRect | Charts/PieChart.cs:91-103 | the chart is a square at x = padding, as large as both the width left by the legend and the height left by the padding allow (equal to one of them), vertically centred in the band from 0 to height - 2 * padding |
| PieLayout.GetLegendTextPosition | Charts/PieChart.cs:105-112 | the anchor of legend line `iter`: its x less the chart width is the same for every line, and its y less `iter` font sizes is 2 * padding + legendPadding |
| PieLayout.LegendRowStep | Charts/PieChart.cs:105-112 | consecutive legend lines share their column and are one font size apart |
| PieLayout.LegendRows | Charts/PieChart.cs:105-112 | all legend lines share one column, and with a positive font size later lines sit strictly lower |
| PieLayout.LegendBesideChart | Charts/PieChart.cs:105-112 | the legend column starts two legend paddings plus one font size right of the chart square; line `i` is at 2 * padding + legendPadding + i * fontSize |
| PieSlices.ColorAt | Charts/PieChart.cs:147 | each slice's colour is a palette entry, and slice `i` takes entry `i` while `i` is within the palette |
| PieSlices.ColorAtIsModulo | Charts/PieChart.cs:147 | the colour of slice `i` is palette entry `i` modulo the palette size |
| PieSlices.SliceRun | Charts/PieChart.cs:141-171 | the loop from iteration `i` draws limit - i wedges when the limit is in effect, otherwise the remaining points; it starts at the angle reached so far, colours cyclically, and each wedge starts where the previous one ends |
| PieSlices.Wedges | Charts/PieChart.cs:129-171 | the whole loop draws SliceCount wedges, the first at angle 0, wedge `j` in palette colour `j`, each starting where the previous one ends |
| PieSlices.SliceRunEntry | Charts/PieChart.cs:141-171 | wedge `j` of a run starts at the sweep of the points before it; it is point `i + j` with its proportional sweep, or, at the aggregating iteration, the last wedge, labelled "Other", with the guarded sweep |
| PieSlices.WedgeEntry | Charts/PieChart.cs:144-165 | wedge `j` starts at the sweep of the `j` largest points; it aggregates exactly when the limit is in effect and `j` is its last slot; otherwise it is point `j` with sweep value / total * 360 |
| PieSlices.ChainedSweepSum | Charts/PieChart.cs:162-165 | wedges chained by `curRad += radian` sweep together from the first start to the last end |
| PieSlices.TailAngleSkipsLast | Charts/PieChart.cs:151-153 | the tail sum of the aggregation branch misses exactly the last point's share |
| PieSlices.OtherGuardPasses | Charts/PieChart.cs:154 | on ordered data with a positive total, the tail sweep plus `curRad` is never zero, so the replacement always happens |
| PieSlices.OtherWedge | Charts/PieChart.cs:149-160 | with 2 <= limit <= count, exactly `limit` wedges are drawn, and the last is "Other" sweeping 360 - start, which is the share of every point from `limit - 1` on |
| PieSlices.LastProportionalWedgeCloses | Charts/PieChart.cs:141-171 | without aggregation, one wedge per point is drawn and the last ends at 360 degrees |
| PieSlices.WedgesClose | Charts/PieChart.cs:141-171 | with a positive total the wedges close the circle: the last ends at 360 and the sweeps add up to 360, with or without aggregation |
| PieSlices.MaxOneDrawsEverySlice | Charts/PieChart.cs:149 | a limit of 1 aggregates nothing: every point gets its own wedge with its own label and share |
| PieSlices.MaxEqualsCountRelabelsLast | Charts/PieChart.cs:149-159 | a limit equal to the count relabels the last point "Other" and keeps its own share as the sweep |
| PieChart.DrawSlice | Charts/PieChart.cs:174-191 | `drawSlice`: a path from the chart square's centre along its arc from the start angle to start + sweep, filled with the slice colour |
| PieChart.DrawLegendEntry | Charts/PieChart.cs:114-123 | `drawLegendEntry`: the label in the legend font size at the anchor of its iteration; the colour argument is not used |
| PieChart.Render | Charts/PieChart.cs:162-163 | each iteration issues its slice call immediately followed by its legend call, the legend at its iteration's row |
| PieChart.DrawChart | Charts/PieChart.cs:125-172 | the trace is the background followed by two calls per drawn slice |
| PieChart.TraceEntry | Charts/PieChart.cs:141-171 | trace position 1 + 2j is iteration `j`'s slice and 2 + 2j its legend line |
| PieChart.TraceShape | Charts/PieChart.cs:174-191 | slice `j` is drawn on the chart square from its centre in palette colour `j` modulo the palette size, and legend line `j` at its anchor in the legend font size |
| PieChart.TraceStarts | Charts/PieChart.cs:129-165 | the first slice starts at 0 and slice `j` at the sweep of the `j` largest points |
| PieChart.TraceChain | Charts/PieChart.cs:162-165 | each slice of the trace starts where the previous one ends |
| PieChart.TraceSweeps | Charts/PieChart.cs:144-163 | outside the aggregating iteration, slice `j` sweeps ordered point `j`'s share with that point's label; the aggregating iteration's legend reads "Other" |
| PieChart.RenderSweepTotal | Charts/PieChart.cs:162 | the slice calls of a trace sweep exactly the wedges' sweeps together |
| PieChart.TraceSweepsTotal360 | Charts/PieChart.cs:125-171 | with a positive total the slice calls sweep 360 degrees in all, whatever the limit |
| PieChart.TraceLastSlice | Charts/PieChart.cs:162-170 | the call before the final legend line draws the last wedge |
| PieChart.TraceLastSliceEndsAt360 | Charts/PieChart.cs:149-171 | with a positive total the last slice of the trace ends at 360 degrees |
| PieExamples.DemoReordering | Charts/Program.cs:11-48 | the demo's sorted order is a rearrangement of its seven points |
| PieExamples.SampleOrder | Charts/Program.cs:11-48 | the demo data are drawn in the order Vapes, Flower, Edibles, Pre-Roll, Topicals, Pet, Misc |
| PieExamples.SampleChart | Charts/Program.cs:11-51 | the demo chart with MaxSlicesToShow = 5 draws Vapes, Flower, Edibles and Pre-Roll, then one "Other" slice taking what they leave of 360 degrees, in the first five palette colours |
| PieExamples.SevenPointChart | Charts/Program.cs:49-51 | any seven points whose four largest are the demo's give the demo chart's shape |
| PieExamples.ThreeSlices | Charts/PieChart.cs:141-171 | values 60, 30 and 10 without a limit give the wedges 0-216, 216-324 and 324-360 degrees |
| PieExamples.EqualValuesTwoSlices | Charts/PieChart.cs:127-160 | four equal values with a limit of 2: the first input point keeps a quarter and "Other" takes the remaining 270 degrees |

## Left out

- The drawing surface (the `SKSurface`, `Clear`, snapshot and PNG encoding in the base class). Paths are reduced to their move/arc/close parameters and text to its string, size and anchor. These are library calls, not layout logic.
- Paint details: antialiasing, fill style, fake bold, text alignment. The legend text paint is always black, and `LegendFontColor` is never read. The slice colour passed to the legend routine is unused there, so legend calls carry no colour.
- Text measurement is the parameter `measure`, since it belongs to the font library.
- `SKColor.Parse`: colours stay the palette's hex strings.
- Floating point: `double` and `float` values, and the `(float)` casts in the chart rectangle and the arc, are modelled as exact reals. Rounding is not modelled.
- `int` overflow of the settings arithmetic (paddings, font size times row index) is not modelled. Integers are unbounded.
- The dead `previousColor` variable of the loop.
- The demo program's file output and console message.
- PieChart.DrawChart: requires a non-zero total. With a zero total the source divides by zero and draws infinite or NaN sweeps, which reals cannot express.
- PieChart.DrawChart: requires non-empty data. The source throws on empty data when it measures the legend label of a missing point, and on a null data source.
- PieChart.DrawChart: requires a non-empty palette. The source throws on the `i % Count` of an empty palette.
- PieLayout.LongestLabel: requires non-empty data, for the same reason as `DrawChart`.
- PieLayout.LongestLabel: labels are never null in the model. The source throws on a null `Label` when it takes its length.
- PieSlices.WedgesClose: the closure to 360 degrees is proved for a positive total. The lemmas say nothing about a negative total, which the source does not rule out.
- PieChart.TraceSweepsTotal360: proved for a positive total only, like `WedgesClose`.
- PieChart.TraceLastSliceEndsAt360: proved for a positive total only, like `WedgesClose`.
- PieExamples.SampleChart: states labels, colours and the closing "Other" sweep. Exact numeric angles of the demo are left out, because they are nontrivial fractions of 4538.9.
