# Chart decisions of the D3 analytics dashboard

The dashboard (`dashboard/dashboard.js`) loads a CSV file, classifies the
columns the user picks as numeric or categorical, and draws a scatter plot, a
histogram or a bar chart. This project models the decision and data-shaping
logic inside that drawing code, with every DOM read turned into a parameter:

- `detectType`: the first `min(10, n)` cells of a column are run through
  `parseFloat`; the column is numeric when more than 60% of them parse
  (`TypeDetection`).
- the chart choice in `updateChart`: scatter plot when both columns are
  numeric, histogram when only the first is, bar chart otherwise
  (`ChartSelection`).
- the orientation button, a two-valued string flag, and which screen axis the
  bars or bins and their counts run along (`Orientation`).
- the frequency table of `drawBarChart` and the `[0, max count]` domain of its
  count axis (`FrequencyTable`), and the same table as the code actually
  builds it, in a plain JavaScript object (`ObjectCounting`).
- the values of `drawHistogram`: cells converted with unary `+`, NaN dropped,
  domain `[min, max]` (`Histogram`).
- the points of `drawScatterPlot`: rows whose two cells both convert, the
  'firstY' swap of values and labels, and the `d3.extent` domains (`Scatter`).
- the shared NaN filter and min/max/extent reductions (`Filtering`) and the
  cell model (`Cells`).

Rows are maps from column name to cell text; a column a row lacks reads as
`undefined` (`None`). The two conversions the code uses, `parseFloat` and unary
`+`, are parameters of type `string -> Option<real>`, `None` being NaN. They
are deliberately kept apart: `parseFloat("")` is NaN but `+""` is 0, and
`parseFloat("12abc")` is 12 but `+"12abc"` is NaN. The predicates
`ParseFloatLaws` and `UnaryPlusLaws` pin down these cases, and
`NumericColumnWithoutValues` shows the consequence: a column can be classified
numeric and still give the histogram no values at all.

The 60% comparison is made on reals, `numericCount / sampleSize > 0.6`, and shown
equal to the integer comparison `10 * numericCount > 6 * sampleSize`. For samples of
at most ten cells the double-precision quotient and the literal `0.6` order
exactly as the rationals do, because `3/5` and `0.6` round to the same double.
So exact reals are faithful here.

Design choices the code makes, which the model keeps:

- `detectType` computes `0 / 0` on a dataset with no rows, which is NaN, and
  answers 'categorical'. The page itself never gets that far with an empty
  file: `Object.keys(dataset[0])` (line 20) throws, the error is logged
  (lines 31-33), and `updateChart` is never called.
- The frequency table keeps the object's key order; it is not sorted by count.
- Classification uses `parseFloat`; drawing uses unary `+`.
- Under 'firstY' the values and the labels are swapped together.
- A numeric first column with a categorical second column gets a histogram of
  the first column.

## Model

| member | source | states |
|---|---|---|
| `TypeDetection.SampleSize` | dashboard/dashboard.js:111 | the sample is the whole dataset when it has fewer than ten rows, and exactly ten rows otherwise |
| `TypeDetection.QuotientAbove` | dashboard/dashboard.js:120-121 | for a positive divisor, the quotient exceeds a bound exactly when the dividend exceeds the bound times the divisor |
| `TypeDetection.RatioThreshold` | dashboard/dashboard.js:120-121 | for a non-empty sample, `count / size > 0.6` holds exactly when `10 * count > 6 * size` |
| `TypeDetection.ColumnTypeOf` | dashboard/dashboard.js:107-122 | a column is numeric iff more than 60% of its sampled cells parse, stated in integer form; an empty dataset (NaN ratio) is categorical |
| `TypeDetection.DetectType` | dashboard/dashboard.js:110-121 | the counting loop over the sampled rows returns the same classification as the functional definition |
| `TypeDetection.NumericCountReadsPrefix` | dashboard/dashboard.js:113-118 | the count over the first k rows is the same for any two datasets that agree on those rows |
| `TypeDetection.SampleDecides` | dashboard/dashboard.js:111-121 | datasets with the same sample classify every column alike, whatever rows follow |
| `TypeDetection.LaterRowIrrelevant` | dashboard/dashboard.js:111-118 | overwriting any row at index 10 or later never changes a column's classification |
| `TypeDetection.FullSampleNeedsSeven` | dashboard/dashboard.js:111-121 | with ten or more rows a column is numeric exactly when at least 7 of the first ten cells parse |
| `ChartSelection.SelectChart` | dashboard/dashboard.js:94-101 | scatter iff both columns are numeric, histogram iff only the first is, bar chart iff the first is categorical; the three cases cannot overlap and cover every input |
| `ChartSelection.CategoricalFirstIgnoresSecond` | dashboard/dashboard.js:98-101 | with a categorical first column the chart is a bar chart whatever the second column's type |
| `ChartSelection.UpdateChart` | dashboard/dashboard.js:84-101 | the chart kind follows the two columns' classifications as in the decision table, and each kind is built from the first column (and, for a scatter plot, the second) |
| `ChartSelection.ScatterIgnoresOrientation` | dashboard/dashboard.js:94-95 | when both columns are numeric, pressing the orientation button does not change the chart |
| `ChartSelection.EmptyDataDrawsEmptyBars` | dashboard/dashboard.js:111-121 | `updateChart`, taken as a function of the rows, gives a bar chart with no entries and no count maximum when there are no rows (a state the page never reaches) |
| `ChartSelection.NumericColumnWithoutValues` | dashboard/dashboard.js:114 | a column of "12abc" cells is numeric to `parseFloat` yet yields a histogram with no values and no domain under unary `+` |
| `Orientation.Toggle` | dashboard/dashboard.js:66-67 | the flag after a click is always 'vertical' or 'horizontal', and differs from a well-formed flag before it |
| `Orientation.ToggleTwice` | dashboard/dashboard.js:67 | two clicks restore a well-formed flag |
| `Orientation.ClickParity` | dashboard/dashboard.js:10 | starting from the initial 'vertical', the flag is 'vertical' after an even number of clicks and 'horizontal' after an odd number |
| `Orientation.BandAxis` | dashboard/dashboard.js:147-151 | categories or bins run along x exactly when the flag is 'vertical' |
| `Orientation.CountAxis` | dashboard/dashboard.js:184-191 | the count axis always runs along the other screen axis from the categories or bins |
| `FrequencyTable.Categories` | dashboard/dashboard.js:149 | the band domain lists one category per table entry, in the table's order |
| `FrequencyTable.Bump` | dashboard/dashboard.js:132 | counting one cell raises that category's count by one, leaves every other count alone, and raises the total by one |
| `FrequencyTable.BumpCategories` | dashboard/dashboard.js:132 | counting one cell adds its category if it is new and keeps every other category |
| `FrequencyTable.BumpDistinct` | dashboard/dashboard.js:132 | counting one cell never creates a second entry for a category |
| `FrequencyTable.BumpPositive` | dashboard/dashboard.js:132 | counting one cell keeps every count at least one |
| `FrequencyTable.Tally` | dashboard/dashboard.js:129-133 | the counts are a table with no repeated category, one entry per distinct cell, each count equal to that cell's multiplicity, summing to the number of cells |
| `FrequencyTable.EntryIsLookup` | dashboard/dashboard.js:136-138 | in a table without repeated categories, listing the entries gives each category the count stored under it |
| `FrequencyTable.TotalBoundsLength` | dashboard/dashboard.js:136-138 | a table with positive counts has no more entries than rows counted |
| `FrequencyTable.ColumnKeys` | dashboard/dashboard.js:130-131 | one key per row, the row's cell text, or "undefined" for a missing cell |
| `FrequencyTable.FrequencyTableOf` | dashboard/dashboard.js:129-138 | one entry per distinct raw cell string, no category twice, each count at least one and equal to the number of rows holding that string, and the counts summing to the row count |
| `FrequencyTable.MaxCount` | dashboard/dashboard.js:154 | the maximum is absent only for an empty table; otherwise every count is at most it and some entry attains it |
| `FrequencyTable.BarChart` | dashboard/dashboard.js:147-191 | in both orientations every count lies in the count-axis domain `[0, max]` and some category attains the maximum; the band domain lists the table's categories; the two axes differ |
| `Filtering.Defined` | dashboard/dashboard.js:230 | dropping NaN never lengthens the list |
| `Filtering.KeptPositions` | dashboard/dashboard.js:335 | the kept positions ascend, each holds a defined value, and no defined position is missed |
| `Filtering.DefinedAtKeptPositions` | dashboard/dashboard.js:230 | the j-th kept value is the value at the j-th kept position, so the filter keeps exactly the defined values in their original order |
| `Filtering.NothingDefined` | dashboard/dashboard.js:230 | a list with no defined value filters to nothing |
| `Filtering.Extent` | dashboard/dashboard.js:240 | min and max are absent only for an empty list; otherwise both are members and every value lies between them |
| `Histogram.ValueRows` | dashboard/dashboard.js:230 | the rows whose cell unary `+` accepts, in ascending row order, with none missed |
| `Histogram.HistogramValues` | dashboard/dashboard.js:230 | the j-th value is the converted cell of the j-th accepted row, so there are at most as many values as rows |
| `Histogram.HistogramChart` | dashboard/dashboard.js:228-289 | the value domain is absent only when no cell converts; otherwise it is attained and contains every value; bins and counts run along different axes as the orientation says |
| `Scatter.PointRows` | dashboard/dashboard.js:332-335 | a row becomes a point iff both its cells convert under unary `+`; points keep row order |
| `Scatter.RawPoints` | dashboard/dashboard.js:332-335 | the j-th point holds the first and second column values of the j-th plottable row, and there are at most as many points as rows |
| `Scatter.SwapAll` | dashboard/dashboard.js:344-348 | swapping mirrors every point and keeps their number and order |
| `Scatter.SwapAllTwice` | dashboard/dashboard.js:344-348 | swapping twice restores the points |
| `Scatter.XDomain` | dashboard/dashboard.js:358-360 | the x domain is absent only when there are no points; otherwise its ends are the least and greatest x of the points |
| `Scatter.YDomain` | dashboard/dashboard.js:362-365 | the y domain is absent only when there are no points; otherwise its ends are the least and greatest y of the points |
| `Scatter.Frame` | dashboard/dashboard.js:358-365 | each axis domain is absent only when there are no points; otherwise both of its ends are attained by some point's coordinate on that axis and it contains every such coordinate |
| `Scatter.AssignAxes` | dashboard/dashboard.js:338-365 | with 'firstY' the labels trade places and every point is mirrored; with any other option points and labels are unchanged; each domain's ends are the least and greatest coordinate on its axis |
| `Scatter.ScatterPlot` | dashboard/dashboard.js:330-335 | a scatter plot never has more points than the dataset has rows |
| `Scatter.FirstYPlotsSecondColumnOnX` | dashboard/dashboard.js:338-349 | under 'firstY' the x label is the second column and every point's x is that column's value in its row, and likewise y with the first column |
| `ObjectCounting.Incremented` | dashboard/dashboard.js:132 | `(freqMap[cat] \|\| 0) + 1`: an own count n gives n+1; an own non-empty text gets "1" appended; an absent ordinary name gives 1; an inherited method gives its source text followed by "1"; "__proto__" gives "[object Object]1" |
| `ObjectCounting.BumpAsWritten` | dashboard/dashboard.js:132 | one counting step as written stores the incremented value under the cell's name (nothing is stored through "__proto__"), leaves every other property unchanged, and adds at most one property |
| `ObjectCounting.TallyAsWritten` | dashboard/dashboard.js:129-133 | the object built as written never holds a "__proto__" property and has at most one property per row |
| `ObjectCounting.Assign` | dashboard/dashboard.js:132 | storing a value under a name sets that name (unless it is "__proto__", which stays unset) and leaves every other property as it was |
| `ObjectCounting.BumpAgrees` | dashboard/dashboard.js:132 | for a cell that names no inherited property, one counting step on the object matches one step of the intended count |
| `ObjectCounting.TallyAgrees` | dashboard/dashboard.js:129-133 | when no cell names an inherited property, the object holds exactly the intended frequency table |
| `ObjectCounting.ToStringIsMiscounted` | dashboard/dashboard.js:132 | a single "toString" cell is stored as text, not as the count 1 |
| `ObjectCounting.ConstructorReadsObject` | dashboard/dashboard.js:132 | a single "constructor" cell reads the inherited `Object` function, so its count is that function's text followed by "1" |
| `ObjectCounting.ProtoIsDropped` | dashboard/dashboard.js:132 | a "__proto__" cell is never stored, so two rows yield counts summing to one |

## Findings

| source | as written | input that shows it | evidently intended | confidence | as-written member | corrected member |
|---|---|---|---|---|---|---|
| dashboard/dashboard.js:129-133 | `freqMap` is the object literal `{}`, which inherits from `Object.prototype`; `(freqMap[cat] \|\| 0) + 1` reads an inherited method for names such as "toString" and concatenates text; assigning through "__proto__" is ignored | a category column holding "toString" gets a text count: the method's source text followed by "1", in V8 "function toString() { [native code] }1" (other engines lay the text out differently); the rows ["__proto__", "a"] give a table whose counts sum to 1 | every distinct cell string gets its row count, e.g. an object without a prototype | high (not executed) | `ObjectCounting.ToStringIsMiscounted`, `ObjectCounting.ProtoIsDropped` | `FrequencyTable.FrequencyTableOf` |

The chart model (`ChartSelection.UpdateChart`) uses the corrected table.
`ObjectCounting.TallyAgrees` proves the corrected and the as-written tables
are the same whenever no cell names an inherited property.

## Left out

- ChartSelection.EmptyDataDrawsEmptyBars: describes `updateChart` as a function of the rows. On the page an empty file makes `Object.keys(dataset[0])` throw at line 20 before `updateChart` is first called, so no chart is drawn; the model does not include the loading code that makes this state unreachable.
- ObjectCounting.NativeSource: the text a built-in method converts to is engine-specific; the model uses V8's one-line form.
- Loading the CSV with `d3.csv` and its error path (lines 16-33): asynchronous I/O. The model takes the loaded rows as its input.
- Populating the dropdowns and binding events (lines 38-70, 77-82): DOM plumbing. The selected columns, the axis option and the orientation flag are fields of `ChartSelection.Controls`. The radio buttons' initial value lives in the HTML, which is not part of this model.
- Histogram binning with `d3.histogram().thresholds(10)` (lines 244-248), and the count domain `[0, max bin length]` built from it (lines 251-253, 281-283): d3 chooses "nice" thresholds in library code that is not modelled.
- Pixel mapping by `d3.scaleLinear` / `d3.scaleBand`, margins, bar geometry, SVG marks, axes, titles and label text: floating-point layout inside d3.
- The enumeration order of `Object.keys` (line 136), which moves integer-like keys to the front. The tables are kept in insertion order, and no contract mentions their order.
- The concrete behaviour of `parseFloat` and unary `+`: both are parameters. Only the cases named in `ParseFloatLaws` and `UnaryPlusLaws` are pinned down. Numbers are reals, so `Infinity`, which unary `+` accepts, is not represented.
- Filtering.Defined: its own contract only bounds the length. `Filtering.DefinedAtKeptPositions` states what it keeps.
- Scatter.ScatterPlot: its own contract only bounds the number of points. The per-point and per-label statements are on `Scatter.RawPoints`, `Scatter.AssignAxes` and `Scatter.FirstYPlotsSecondColumnOnX`.
- FrequencyTable.Tally: the order of entries is not stated, for the reason above.
