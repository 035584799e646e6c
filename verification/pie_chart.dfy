/** `drawChart` as a pure function from the data, the settings, the canvas
    size and the font's text measurement to the sequence of drawing calls it
    issues: one white background rectangle, then, per loop iteration, the
    slice's wedge path followed by its legend line. */
module PieChart {
  import opened PieData
  import opened PieLayout
  import opened PieSlices

  /** One drawing call. `Slice` is the closed path from `center` along the
      arc of `rect` from `start` through `sweep` degrees, filled with `color`;
      `Legend` is the text drawn at `pos` in the legend paint: black, at the
      legend font size `size`. The slice colour is handed to the legend
      routine but never used by it, so it is not part of a legend call. */
  datatype DrawOp =
    | Background(width: int, height: int)
    | Slice(start: real, sweep: real, color: Color, rect: Rect, center: Point)
    | Legend(text: string, size: int, pos: Point)

  /** The wedge path: moved to the square's centre, arc along the square
      from the wedge's start through its sweep, filled with its colour. */
  function DrawSlice(w: Wedge, chartRect: Rect): (op: DrawOp)
    ensures op.Slice? && op.rect == chartRect
    ensures op.start == w.start && op.start + op.sweep == w.start + w.sweep && op.color == w.color
    ensures 2.0 * op.center.x == 2.0 * chartRect.x + chartRect.width
    ensures 2.0 * op.center.y == 2.0 * chartRect.y + chartRect.height
  {
    Slice(w.start, w.sweep, w.color, chartRect, Point(chartRect.MidX(), chartRect.MidY()))
  }

  /** The legend line of iteration `iter`: the wedge's text in the legend
      font size at that iteration's anchor. */
  function DrawLegendEntry(w: Wedge, iter: nat, s: Settings, chartRect: Rect): (op: DrawOp)
    ensures op.Legend? && op.text == w.text && op.size == s.legendFontSize
    ensures op.pos == GetLegendTextPosition(s, iter, chartRect)
  {
    Legend(w.text, s.legendFontSize, GetLegendTextPosition(s, iter, chartRect))
  }

  /** The drawing calls of the loop from iteration `iter` on: each wedge's
      slice immediately followed by its legend line. */
  function Render(w: seq<Wedge>, s: Settings, chartRect: Rect, iter: nat): (ops: seq<DrawOp>)
    ensures |ops| == 2 * |w|
    ensures forall j :: 0 <= j < |w| ==>
              && ops[2 * j] == DrawSlice(w[j], chartRect)
              && ops[2 * j + 1] == DrawLegendEntry(w[j], iter + j, s, chartRect)
    decreases |w|
  {
    if |w| == 0 then []
    else [DrawSlice(w[0], chartRect), DrawLegendEntry(w[0], iter, s, chartRect)]
         + Render(w[1..], s, chartRect, iter + 1)
  }

  /** The chart: background, then the slices of the points in descending
      order of value, each with its legend line. The total is taken over the
      data as given; the legend width is measured on the data as given. */
  function DrawChart(data: seq<DataPoint>, s: Settings, width: int, height: int,
                     measure: string -> real): (trace: seq<DrawOp>)
    requires |data| > 0
    requires |s.palette| > 0
    requires Sum(data) != 0.0
    ensures |trace| == 1 + 2 * SliceCount(|data|, s.maxSlicesToShow)
    ensures trace[0] == Background(width, height)
  {
    var ordered := OrderByValue(data);
    var totalAmount := Sum(data);
    var chartRect := GetChartRect(data, s, width, height, measure);
    [Background(width, height)]
    + Render(Wedges(ordered, totalAmount, s.maxSlicesToShow, s.palette), s, chartRect, 0)
  }

  /** The loop's iterations, as `DrawChart` runs them. */
  function ChartWedges(data: seq<DataPoint>, s: Settings): seq<Wedge>
    requires |s.palette| > 0
    requires Sum(data) != 0.0
  {
    Wedges(OrderByValue(data), Sum(data), s.maxSlicesToShow, s.palette)
  }

  /** Position `1 + 2j` of the trace is iteration `j`'s slice and position
      `2 + 2j` its legend line. */
  lemma {:induction false} TraceEntry(data: seq<DataPoint>, s: Settings, width: int, height: int,
                                      measure: string -> real, j: nat)
    requires |data| > 0
    requires |s.palette| > 0
    requires Sum(data) != 0.0
    requires j < SliceCount(|data|, s.maxSlicesToShow)
    ensures var trace := DrawChart(data, s, width, height, measure);
            var r := GetChartRect(data, s, width, height, measure);
            var w := ChartWedges(data, s);
            && |w| == SliceCount(|data|, s.maxSlicesToShow)
            && trace[1 + 2 * j] == DrawSlice(w[j], r)
            && trace[2 + 2 * j] == DrawLegendEntry(w[j], j, s, r)
  {
    var trace := DrawChart(data, s, width, height, measure);
    var r := GetChartRect(data, s, width, height, measure);
    var w := ChartWedges(data, s);
    var ops := Render(w, s, r, 0);
    assert trace == [Background(width, height)] + ops;
    assert trace[1 + 2 * j] == ops[2 * j];
    assert trace[2 + 2 * j] == ops[2 * j + 1];
  }

  /** The trace interleaves the calls: after the background, position
      `1 + 2j` is slice `j`, drawn on the chart square from its centre, and
      position `2 + 2j` is legend line `j` at its anchor in the legend font
      size; the slice is filled with palette colour `j % |palette|`. */
  lemma {:induction false} TraceShape(data: seq<DataPoint>, s: Settings, width: int, height: int,
                   measure: string -> real, j: nat)
    requires |data| > 0
    requires |s.palette| > 0
    requires Sum(data) != 0.0
    requires j < SliceCount(|data|, s.maxSlicesToShow)
    ensures var trace := DrawChart(data, s, width, height, measure);
            var r := GetChartRect(data, s, width, height, measure);
            var c := s.palette[j % |s.palette|];
            var w := ChartWedges(data, s);
            && trace[1 + 2 * j] == Slice(w[j].start, w[j].sweep, c, r, Point(r.MidX(), r.MidY()))
            && trace[2 + 2 * j] == Legend(w[j].text, s.legendFontSize, GetLegendTextPosition(s, j, r))
  {
    TraceEntry(data, s, width, height, measure, j);
    ColorAtIsModulo(s.palette, j);
  }

  /** Where each slice of the trace starts: at the sweep of the larger
      points before it, so the first one at 0. */
  lemma {:induction false} TraceStarts(data: seq<DataPoint>, s: Settings, width: int, height: int,
                                       measure: string -> real, j: nat)
    requires |data| > 0
    requires |s.palette| > 0
    requires Sum(data) != 0.0
    requires j < SliceCount(|data|, s.maxSlicesToShow)
    ensures var trace := DrawChart(data, s, width, height, measure);
            && trace[1 + 2 * j].Slice?
            && trace[1 + 2 * j].start == Angle(Sum(OrderByValue(data)[..j]), Sum(data))
            && trace[1].Slice? && trace[1].start == 0.0
  {
    TraceEntry(data, s, width, height, measure, 0);
    TraceEntry(data, s, width, height, measure, j);
    WedgeEntry(OrderByValue(data), Sum(data), s.maxSlicesToShow, s.palette, j);
  }

  /** Each slice of the trace starts where the previous one ends. */
  lemma {:induction false} TraceChain(data: seq<DataPoint>, s: Settings, width: int, height: int,
                                      measure: string -> real, j: nat)
    requires |data| > 0
    requires |s.palette| > 0
    requires Sum(data) != 0.0
    requires j + 1 < SliceCount(|data|, s.maxSlicesToShow)
    ensures var trace := DrawChart(data, s, width, height, measure);
            && trace[1 + 2 * j].Slice? && trace[3 + 2 * j].Slice?
            && trace[3 + 2 * j].start == trace[1 + 2 * j].start + trace[1 + 2 * j].sweep
  {
    var w := ChartWedges(data, s);
    var r := GetChartRect(data, s, width, height, measure);
    TraceEntry(data, s, width, height, measure, j);
    TraceEntry(data, s, width, height, measure, j + 1);
    assert w[j + 1].start == w[j].start + w[j].sweep;
  }

  /** What each slice of the trace shows: unless it is the aggregating
      iteration it is ordered point `j`, with sweep `value / total * 360`
      and the point's label on its legend line; the aggregating iteration's
      legend line reads "Other". */
  lemma {:induction false} TraceSweeps(data: seq<DataPoint>, s: Settings, width: int, height: int,
                                       measure: string -> real, j: nat)
    requires |data| > 0
    requires |s.palette| > 0
    requires Sum(data) != 0.0
    requires j < SliceCount(|data|, s.maxSlicesToShow)
    ensures var trace := DrawChart(data, s, width, height, measure);
            var ordered := OrderByValue(data);
            && trace[1 + 2 * j].Slice? && trace[2 + 2 * j].Legend?
            && (Aggregates(j, s.maxSlicesToShow) ==> trace[2 + 2 * j].text == OtherLabel)
            && (!Aggregates(j, s.maxSlicesToShow) ==>
                  && trace[1 + 2 * j].sweep == Angle(ordered[j].value, Sum(data))
                  && trace[2 + 2 * j].text == ordered[j].name)
  {
    TraceEntry(data, s, width, height, measure, j);
    WedgeEntry(OrderByValue(data), Sum(data), s.maxSlicesToShow, s.palette, j);
  }

  /** The sum of the sweeps of the slice calls of a trace. */
  function SweepTotal(ops: seq<DrawOp>): real {
    if |ops| == 0 then 0.0
    else (if ops[0].Slice? then ops[0].sweep else 0.0) + SweepTotal(ops[1..])
  }

  lemma {:induction false} RenderSweepTotal(w: seq<Wedge>, s: Settings, chartRect: Rect, iter: nat)
    ensures SweepTotal(Render(w, s, chartRect, iter)) == SweepSum(w)
    decreases |w|
  {
    if |w| > 0 {
      var ops := Render(w, s, chartRect, iter);
      var rest := Render(w[1..], s, chartRect, iter + 1);
      RenderSweepTotal(w[1..], s, chartRect, iter + 1);
      assert ops[1..][1..] == rest;
    }
  }

  /** With a positive total the slices close the circle: their sweeps add up
      to 360 degrees, whatever the slice limit. This rests on the ordered
      points being a permutation of the data, so that the total taken over
      the data is the total of the ordered list. */
  lemma {:induction false} TraceSweepsTotal360(data: seq<DataPoint>, s: Settings, width: int, height: int,
                                               measure: string -> real)
    requires |data| > 0
    requires |s.palette| > 0
    requires Sum(data) > 0.0
    ensures SweepTotal(DrawChart(data, s, width, height, measure)) == 360.0
  {
    var ordered := OrderByValue(data);
    OrderKeepsTotal(data);
    OrderByValueIsStableSort(data);
    var w := ChartWedges(data, s);
    WedgesClose(ordered, s.maxSlicesToShow, s.palette);
    var r := GetChartRect(data, s, width, height, measure);
    var trace := DrawChart(data, s, width, height, measure);
    RenderSweepTotal(w, s, r, 0);
    assert trace == [Background(width, height)] + Render(w, s, r, 0);
    assert trace[1..] == Render(w, s, r, 0);
  }

  /** The slice call just before the final legend line draws the last wedge. */
  lemma {:induction false} TraceLastSlice(data: seq<DataPoint>, s: Settings, width: int, height: int,
                                          measure: string -> real)
    requires |data| > 0
    requires |s.palette| > 0
    requires Sum(data) != 0.0
    ensures var trace := DrawChart(data, s, width, height, measure);
            var w := ChartWedges(data, s);
            && |w| > 0
            && trace[|trace| - 2] == DrawSlice(w[|w| - 1], GetChartRect(data, s, width, height, measure))
  {
    var w := ChartWedges(data, s);
    TraceIsRender(data, s, width, height, measure);
    RenderLastSlice(Background(width, height), w, s, GetChartRect(data, s, width, height, measure));
  }

  /** The trace is the background followed by the rendering of the loop's
      wedges, of which there is at least one. */
  lemma {:induction false} TraceIsRender(data: seq<DataPoint>, s: Settings, width: int, height: int,
                                         measure: string -> real)
    requires |data| > 0
    requires |s.palette| > 0
    requires Sum(data) != 0.0
    ensures |ChartWedges(data, s)| == SliceCount(|data|, s.maxSlicesToShow) > 0
    ensures DrawChart(data, s, width, height, measure)
            == [Background(width, height)]
               + Render(ChartWedges(data, s), s, GetChartRect(data, s, width, height, measure), 0)
  {
    assert |OrderByValue(data)| == |data|;
  }

  /** Behind any first call, the second-to-last call of a rendering is the
      last wedge's slice. */
  lemma {:induction false} RenderLastSlice(first: DrawOp, w: seq<Wedge>, s: Settings, chartRect: Rect)
    requires |w| > 0
    ensures var t := [first] + Render(w, s, chartRect, 0);
            t[|t| - 2] == DrawSlice(w[|w| - 1], chartRect)
  {
    var ops := Render(w, s, chartRect, 0);
    var m := |w| - 1;
    assert ops[2 * m] == DrawSlice(w[m], chartRect);
    assert ([first] + ops)[2 * m + 1] == ops[2 * m];
  }

  /** With a positive total the last slice of the trace ends at 360 degrees. */
  lemma {:induction false} TraceLastSliceEndsAt360(data: seq<DataPoint>, s: Settings, width: int, height: int,
                                                   measure: string -> real)
    requires |data| > 0
    requires |s.palette| > 0
    requires Sum(data) > 0.0
    ensures var trace := DrawChart(data, s, width, height, measure);
            && |trace| >= 3
            && trace[|trace| - 2].Slice?
            && trace[|trace| - 2].start + trace[|trace| - 2].sweep == 360.0
  {
    var ordered := OrderByValue(data);
    var w := ChartWedges(data, s);
    OrderKeepsTotal(data);
    OrderByValueIsStableSort(data);
    WedgesClose(ordered, s.maxSlicesToShow, s.palette);
    assert w[|w| - 1].start + w[|w| - 1].sweep == 360.0;
    TraceLastSlice(data, s, width, height, measure);
  }
}
