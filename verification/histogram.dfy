/**
 The data behind the histogram: every cell goes through unary `+`, NaN results
 are dropped, and the value axis gets the domain `[d3.min, d3.max]` of what is
 left. The binning itself is d3's and is not modelled.
 */
module Histogram {
  import opened Cells
  import opened Filtering
  import opened Orientation

  /** `dataset.map(d => +d[column])`. */
  function Converted(data: Dataset, col: string, plus: Converter): seq<Option<real>>
  {
    seq(|data|, i requires 0 <= i < |data| => Convert(plus, Lookup(data[i], col)))
  }

  /** The rows whose cell unary `+` accepts: in row order, none missed. */
  function ValueRows(data: Dataset, col: string, plus: Converter): (rows: seq<nat>)
    ensures Increasing(rows)
    ensures forall j :: 0 <= j < |rows| ==> rows[j] < |data| && Convert(plus, Lookup(data[rows[j]], col)).Some?
    ensures forall i :: 0 <= i < |data| && Convert(plus, Lookup(data[i], col)).Some? ==> i in rows
  {
    KeptPositions(Converted(data, col, plus))
  }

  /**
   `values`: the j-th value is the converted cell of the j-th accepted row, so
   the list holds exactly the accepted cells in row order.
   */
  function HistogramValues(data: Dataset, col: string, plus: Converter): (vs: seq<real>)
    ensures |vs| == |ValueRows(data, col, plus)| <= |data|
    ensures forall j :: 0 <= j < |vs| ==>
      Convert(plus, Lookup(data[ValueRows(data, col, plus)[j]], col)) == Some(vs[j])
  {
    var xs := Converted(data, col, plus);
    DefinedAtKeptPositions(xs);
    Defined(xs)
  }

  /**
   The histogram's scales: the value domain, which the bins cover, and the
   screen axes the bins and their counts run along.
   */
  datatype HistogramData = HistogramData(
    values: seq<real>,
    valueDomain: Option<(real, real)>,
    binAxis: ScreenAxis,
    countAxis: ScreenAxis)

  /** `drawHistogram` up to the binning. */
  function HistogramChart(data: Dataset, col: string, plus: Converter, orientation: string): (h: HistogramData)
    ensures h.values == HistogramValues(data, col, plus)
    ensures h.valueDomain.None? <==> h.values == []
    ensures h.valueDomain.Some? ==>
      && h.valueDomain.value.0 in h.values
      && h.valueDomain.value.1 in h.values
      && forall v :: v in h.values ==> h.valueDomain.value.0 <= v <= h.valueDomain.value.1
    ensures h.binAxis != h.countAxis
    ensures h.binAxis == XAxis <==> orientation == Vertical
  {
    var vs := HistogramValues(data, col, plus);
    HistogramData(vs, Extent(vs), BandAxis(orientation), CountAxis(orientation))
  }
}
