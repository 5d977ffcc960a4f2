/**
 The data behind the scatter plot: each row becomes a point when both of its
 cells convert under unary `+`, and the 'firstY' axis option puts the second
 column on x and the first on y, values and labels alike.
 */
module Scatter {
  import opened Cells
  import opened Filtering

  datatype Point = Point(x: real, y: real)

  /** The radio value that puts the first variable on the y axis. */
  const FirstY: string := "firstY"

  /** `{xVal, yVal}` kept only when neither is NaN. */
  function PointOf(x: Option<real>, y: Option<real>): Option<Point>
  {
    if x.Some? && y.Some? then Some(Point(x.value, y.value)) else None
  }

  /** `dataset.map(d => ({xVal: +d[var1], yVal: +d[var2]}))`, with NaN points marked. */
  function Candidates(data: Dataset, var1: string, var2: string, plus: Converter): seq<Option<Point>>
  {
    seq(|data|, i requires 0 <= i < |data| =>
      PointOf(Convert(plus, Lookup(data[i], var1)), Convert(plus, Lookup(data[i], var2))))
  }

  /** Both cells of row `i` convert. */
  predicate Plottable(data: Dataset, var1: string, var2: string, plus: Converter, i: nat)
    requires i < |data|
  {
    Convert(plus, Lookup(data[i], var1)).Some? && Convert(plus, Lookup(data[i], var2)).Some?
  }

  /** The rows that become points: in row order, none missed. */
  function PointRows(data: Dataset, var1: string, var2: string, plus: Converter): (rows: seq<nat>)
    ensures Increasing(rows)
    ensures forall j :: 0 <= j < |rows| ==> rows[j] < |data| && Plottable(data, var1, var2, plus, rows[j])
    ensures forall i :: 0 <= i < |data| && Plottable(data, var1, var2, plus, i) ==> i in rows
  {
    KeptPositions(Candidates(data, var1, var2, plus))
  }

  /** `points` before the axis option: the j-th point comes from the j-th plottable row, x from `var1`, y from `var2`. */
  function RawPoints(data: Dataset, var1: string, var2: string, plus: Converter): (ps: seq<Point>)
    ensures |ps| == |PointRows(data, var1, var2, plus)| <= |data|
    ensures forall j :: 0 <= j < |ps| ==>
      var row := data[PointRows(data, var1, var2, plus)[j]];
      Convert(plus, Lookup(row, var1)) == Some(ps[j].x) && Convert(plus, Lookup(row, var2)) == Some(ps[j].y)
  {
    var cs := Candidates(data, var1, var2, plus);
    DefinedAtKeptPositions(cs);
    Defined(cs)
  }

  /** The swap loop of the 'firstY' branch. */
  function SwapAll(ps: seq<Point>): (qs: seq<Point>)
    ensures |qs| == |ps|
    ensures forall j :: 0 <= j < |ps| ==> qs[j].x == ps[j].y && qs[j].y == ps[j].x
  {
    if ps == [] then [] else [Point(ps[0].y, ps[0].x)] + SwapAll(ps[1..])
  }

  lemma {:induction false} SwapAllTwice(ps: seq<Point>)
    ensures SwapAll(SwapAll(ps)) == ps
  {
    var qs := SwapAll(SwapAll(ps));
    assert |qs| == |ps|;
    assert forall j :: 0 <= j < |ps| ==> qs[j] == ps[j];
  }

  function Xs(ps: seq<Point>): (xs: seq<real>)
    ensures |xs| == |ps| && forall j :: 0 <= j < |ps| ==> xs[j] == ps[j].x
  {
    if ps == [] then [] else [ps[0].x] + Xs(ps[1..])
  }

  function Ys(ps: seq<Point>): (ys: seq<real>)
    ensures |ys| == |ps| && forall j :: 0 <= j < |ps| ==> ys[j] == ps[j].y
  {
    if ps == [] then [] else [ps[0].y] + Ys(ps[1..])
  }

  /** The points, the axis labels and the two `d3.extent` domains. */
  datatype ScatterData = ScatterData(
    points: seq<Point>,
    xLabel: string,
    yLabel: string,
    xDomain: Option<(real, real)>,
    yDomain: Option<(real, real)>)

  /** `d3.extent(points, d => d.xVal)`: the least and greatest x, absent when there are no points. */
  function XDomain(ps: seq<Point>): (d: Option<(real, real)>)
    ensures d.None? <==> ps == []
    ensures d.Some? ==> forall j :: 0 <= j < |ps| ==> d.value.0 <= ps[j].x <= d.value.1
    ensures d.Some? ==>
      (exists j :: 0 <= j < |ps| && ps[j].x == d.value.0) && (exists j :: 0 <= j < |ps| && ps[j].x == d.value.1)
  {
    var xs := Xs(ps);
    assert forall j :: 0 <= j < |ps| ==> ps[j].x == xs[j] && xs[j] in xs;
    assert forall v :: v in xs ==> exists j :: 0 <= j < |ps| && ps[j].x == v;
    Extent(xs)
  }

  /** `d3.extent(points, d => d.yVal)`: the least and greatest y, absent when there are no points. */
  function YDomain(ps: seq<Point>): (d: Option<(real, real)>)
    ensures d.None? <==> ps == []
    ensures d.Some? ==> forall j :: 0 <= j < |ps| ==> d.value.0 <= ps[j].y <= d.value.1
    ensures d.Some? ==>
      (exists j :: 0 <= j < |ps| && ps[j].y == d.value.0) && (exists j :: 0 <= j < |ps| && ps[j].y == d.value.1)
  {
    var ys := Ys(ps);
    assert forall j :: 0 <= j < |ps| ==> ps[j].y == ys[j] && ys[j] in ys;
    assert forall v :: v in ys ==> exists j :: 0 <= j < |ps| && ps[j].y == v;
    Extent(ys)
  }

  /** Fits the scales: each axis gets the `d3.extent` of its coordinates, the least and greatest of them. */
  function Frame(ps: seq<Point>, xLabel: string, yLabel: string): (s: ScatterData)
    ensures s.points == ps && s.xLabel == xLabel && s.yLabel == yLabel
    ensures s.xDomain.None? <==> ps == []
    ensures s.yDomain.None? <==> ps == []
    ensures s.xDomain.Some? ==> forall j :: 0 <= j < |ps| ==> s.xDomain.value.0 <= ps[j].x <= s.xDomain.value.1
    ensures s.yDomain.Some? ==> forall j :: 0 <= j < |ps| ==> s.yDomain.value.0 <= ps[j].y <= s.yDomain.value.1
    ensures s.xDomain.Some? ==>
      (exists j :: 0 <= j < |ps| && ps[j].x == s.xDomain.value.0) && (exists j :: 0 <= j < |ps| && ps[j].x == s.xDomain.value.1)
    ensures s.yDomain.Some? ==>
      (exists j :: 0 <= j < |ps| && ps[j].y == s.yDomain.value.0) && (exists j :: 0 <= j < |ps| && ps[j].y == s.yDomain.value.1)
  {
    ScatterData(ps, xLabel, yLabel, XDomain(ps), YDomain(ps))
  }

  /**
   The axis assignment and scale fitting of `drawScatterPlot`: with 'firstY'
   every point is mirrored and the labels trade places; with any other option
   points and labels are left as they are.
   */
  function AssignAxes(raw: seq<Point>, var1: string, var2: string, axisOption: string): (s: ScatterData)
    ensures |s.points| == |raw|
    ensures axisOption == FirstY ==>
      && s.xLabel == var2 && s.yLabel == var1
      && forall j :: 0 <= j < |raw| ==> s.points[j] == Point(raw[j].y, raw[j].x)
    ensures axisOption != FirstY ==> s.xLabel == var1 && s.yLabel == var2 && s.points == raw
    ensures s.xDomain.None? <==> raw == []
    ensures s.yDomain.None? <==> raw == []
    ensures s.xDomain.Some? ==> forall j :: 0 <= j < |s.points| ==> s.xDomain.value.0 <= s.points[j].x <= s.xDomain.value.1
    ensures s.yDomain.Some? ==> forall j :: 0 <= j < |s.points| ==> s.yDomain.value.0 <= s.points[j].y <= s.yDomain.value.1
    ensures s.xDomain.Some? ==>
      && (exists j :: 0 <= j < |s.points| && s.points[j].x == s.xDomain.value.0)
      && (exists j :: 0 <= j < |s.points| && s.points[j].x == s.xDomain.value.1)
    ensures s.yDomain.Some? ==>
      && (exists j :: 0 <= j < |s.points| && s.points[j].y == s.yDomain.value.0)
      && (exists j :: 0 <= j < |s.points| && s.points[j].y == s.yDomain.value.1)
  {
    if axisOption == FirstY then Frame(SwapAll(raw), var2, var1)
    else Frame(raw, var1, var2)
  }

  /** `drawScatterPlot` without the drawing. */
  function ScatterPlot(data: Dataset, var1: string, var2: string, axisOption: string, plus: Converter): (s: ScatterData)
    ensures |s.points| <= |data|
  {
    AssignAxes(RawPoints(data, var1, var2, plus), var1, var2, axisOption)
  }

  /**
   Under 'firstY' the j-th point's x is the second column's value in the j-th
   plottable row and its y the first column's, so values follow their labels.
   */
  lemma FirstYPlotsSecondColumnOnX(data: Dataset, var1: string, var2: string, plus: Converter)
    ensures var s := ScatterPlot(data, var1, var2, FirstY, plus);
      var rows := PointRows(data, var1, var2, plus);
      && |s.points| == |rows|
      && s.xLabel == var2 && s.yLabel == var1
      && forall j :: 0 <= j < |rows| ==>
        Convert(plus, Lookup(data[rows[j]], var2)) == Some(s.points[j].x)
        && Convert(plus, Lookup(data[rows[j]], var1)) == Some(s.points[j].y)
  {
    var raw := RawPoints(data, var1, var2, plus);
    var s := AssignAxes(raw, var1, var2, FirstY);
    var rows := PointRows(data, var1, var2, plus);
    assert s == ScatterPlot(data, var1, var2, FirstY, plus);
    forall j | 0 <= j < |rows|
      ensures Convert(plus, Lookup(data[rows[j]], var2)) == Some(s.points[j].x)
      ensures Convert(plus, Lookup(data[rows[j]], var1)) == Some(s.points[j].y)
    {
      assert s.points[j] == Point(raw[j].y, raw[j].x);
    }
  }
}
