/**
 `updateChart`: classify both selected columns and draw a scatter plot, a
 histogram or a bar chart accordingly.
 */
module ChartSelection {
  import opened Cells
  import opened TypeDetection
  import Orientation
  import FrequencyTable
  import Histogram
  import Scatter
  import Filtering

  datatype ChartKind = ScatterKind | HistogramKind | BarKind

  /** The `if / else if / else` of `updateChart`. */
  function SelectChart(type1: ColumnType, type2: ColumnType): (k: ChartKind)
    ensures k == ScatterKind <==> type1 == Numeric && type2 == Numeric
    ensures k == HistogramKind <==> type1 == Numeric && type2 == Categorical
    ensures k == BarKind <==> type1 == Categorical
  {
    match (type1, type2)
    case (Numeric, Numeric) => ScatterKind
    case (Numeric, Categorical) => HistogramKind
    case (Categorical, _) => BarKind
  }

  /** When the first column is categorical the second one has no say. */
  lemma CategoricalFirstIgnoresSecond(type2: ColumnType, type2': ColumnType)
    ensures SelectChart(Categorical, type2) == SelectChart(Categorical, type2') == BarKind
  {
  }

  /** What the page's controls hold when `updateChart` runs. */
  datatype Controls = Controls(var1: string, var2: string, axisOption: string, orientation: string)

  /** The chart `updateChart` hands to the drawing code. */
  datatype Chart =
    | DrawScatter(scatter: Scatter.ScatterData)
    | DrawHistogram(histogram: Histogram.HistogramData)
    | DrawBars(bars: FrequencyTable.BarLayout)

  /** `updateChart`, with `parseFloat` and unary `+` supplied by the caller. */
  function UpdateChart(data: Dataset, c: Controls, parseFloat: Converter, plus: Converter): (chart: Chart)
    ensures var t1, t2 := ColumnTypeOf(data, c.var1, parseFloat), ColumnTypeOf(data, c.var2, parseFloat);
      && (chart.DrawScatter? <==> t1 == Numeric && t2 == Numeric)
      && (chart.DrawHistogram? <==> t1 == Numeric && t2 == Categorical)
      && (chart.DrawBars? <==> t1 == Categorical)
    ensures chart.DrawScatter? ==> chart.scatter == Scatter.ScatterPlot(data, c.var1, c.var2, c.axisOption, plus)
    ensures chart.DrawHistogram? ==> chart.histogram == Histogram.HistogramChart(data, c.var1, plus, c.orientation)
    ensures chart.DrawBars? ==> chart.bars == FrequencyTable.BarChart(data, c.var1, c.orientation)
  {
    var type1 := ColumnTypeOf(data, c.var1, parseFloat);
    var type2 := ColumnTypeOf(data, c.var2, parseFloat);
    match SelectChart(type1, type2)
    case ScatterKind => DrawScatter(Scatter.ScatterPlot(data, c.var1, c.var2, c.axisOption, plus))
    case HistogramKind => DrawHistogram(Histogram.HistogramChart(data, c.var1, plus, c.orientation))
    case BarKind => DrawBars(FrequencyTable.BarChart(data, c.var1, c.orientation))
  }

  /** When both columns are numeric the orientation button changes nothing: `drawScatterPlot` never reads the flag. */
  lemma ScatterIgnoresOrientation(data: Dataset, c: Controls, parseFloat: Converter, plus: Converter)
    requires ColumnTypeOf(data, c.var1, parseFloat) == Numeric
    requires ColumnTypeOf(data, c.var2, parseFloat) == Numeric
    ensures UpdateChart(data, c.(orientation := Orientation.Toggle(c.orientation)), parseFloat, plus)
      == UpdateChart(data, c, parseFloat, plus)
  {
  }

  /**
   With no rows every column is categorical, so `updateChart`, taken as a
   function of the rows, gives an empty bar chart with no count maximum. The
   page never reaches this state: for an empty file `Object.keys(dataset[0])`
   throws during loading, before `updateChart` is first called.
   */
  lemma EmptyDataDrawsEmptyBars(c: Controls, parseFloat: Converter, plus: Converter)
    ensures var chart := UpdateChart([], c, parseFloat, plus);
      chart.DrawBars? && chart.bars.table == [] && chart.bars.countMax.None?
  {
  }

  /**
   The classifier and the histogram convert differently: a column of "12abc"
   cells is numeric to `parseFloat`, yet unary `+` rejects every cell, so the
   histogram has no values and no domain.
   */
  lemma NumericColumnWithoutValues(parseFloat: Converter, plus: Converter, axisOption: string, orientation: string)
    requires ParseFloatLaws(parseFloat) && UnaryPlusLaws(plus)
    ensures var row := map["v" := "12abc", "name" := "abc"];
      var data := seq(SampleLimit, _ => row);
      var chart := UpdateChart(data, Controls("v", "name", axisOption, orientation), parseFloat, plus);
      && ColumnTypeOf(data, "v", parseFloat) == Numeric
      && chart.DrawHistogram?
      && chart.histogram.values == []
      && chart.histogram.valueDomain.None?
  {
    var row := map["v" := "12abc", "name" := "abc"];
    var data := seq(SampleLimit, _ => row);
    assert forall i :: 0 <= i < |data| ==> data[i] == row;
    AllParse(data, "v", parseFloat, SampleLimit);
    NoneParse(data, "name", parseFloat, SampleLimit);
    Filtering.NothingDefined(Histogram.Converted(data, "v", plus));
  }
}
