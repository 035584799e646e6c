/** Where the chart goes on the canvas: the legend column's width, the square
    the pie is inscribed in, and the anchor of each legend line. Coordinates
    are reals standing for the `float` values of the drawing library. */
module PieLayout {
  import StableSort
  import opened PieData

  /** A rectangle given by its top-left corner and its size. */
  datatype Rect = Rect(x: real, y: real, width: real, height: real) {
    function MidX(): real { x + width / 2.0 }
    function MidY(): real { y + height / 2.0 }
  }

  datatype Point = Point(x: real, y: real)

  /** `j` is the first index whose label has the maximal UTF-16 length. */
  ghost predicate IsFirstLongest(data: seq<DataPoint>, j: int) {
    && 0 <= j < |data|
    && (forall k :: 0 <= k < |data| ==> Utf16Length(data[k].name) <= Utf16Length(data[j].name))
    && (forall k :: 0 <= k < j ==> Utf16Length(data[k].name) < Utf16Length(data[j].name))
  }

  /** The label the legend width is measured on: the head of the data
      stably sorted by descending label length. */
  function LongestLabel(data: seq<DataPoint>): (longest: string)
    requires |data| > 0
    ensures exists j :: IsFirstLongest(data, j) && longest == data[j].name
  {
    StableSort.SortHeadIsFirstMaximal(data, LabelLength);
    StableSort.Sort(data, LabelLength)[0].name
  }

  /** A label of two emoji is four UTF-16 code units long, so it is measured
      rather than a three-letter label, although it has fewer characters. */
  lemma {:induction false} LongestLabelCountsSurrogatePairs()
    ensures LongestLabel([DataPoint("\U{1F600}\U{1F600}", 1.0), DataPoint("abc", 1.0)])
            == "\U{1F600}\U{1F600}"
  {
    var data := [DataPoint("\U{1F600}\U{1F600}", 1.0), DataPoint("abc", 1.0)];
    assert Utf16Length(data[0].name) == 4;
    assert Utf16Length(data[1].name) == 3;
  }

  /** Width reserved for the legend: the measured width of the longest label
      (by UTF-16 length, not by measured width) plus one font size and two
      legend paddings. `measure` is the font's text measurement. */
  function DetermineLegendWidth(data: seq<DataPoint>, s: Settings, measure: string -> real): (w: real)
    requires |data| > 0
    ensures exists j :: IsFirstLongest(data, j)
                        && w == measure(data[j].name) + s.legendFontSize as real + 2.0 * s.legendPadding as real
  {
    measure(LongestLabel(data)) + s.legendFontSize as real + (s.legendPadding * 2) as real
  }

  /** The width left for the pie once the paddings and the legend are taken off. */
  function AvailableWidth(data: seq<DataPoint>, s: Settings, width: int, measure: string -> real): real
    requires |data| > 0
  {
    (width - s.padding * 2) as real - DetermineLegendWidth(data, s, measure)
  }

  /** The height left for the pie once the paddings are taken off. */
  function AvailableHeight(s: Settings, height: int): real {
    (height - s.padding * 2) as real
  }

  /** The pie's bounding square: left-aligned after the padding, as large as
      both available extents allow, and centred in the band from 0 to
      `height - 2 * padding` (the top padding is not added to `y`). */
  function GetChartRect(data: seq<DataPoint>, s: Settings, width: int, height: int,
                        measure: string -> real): (r: Rect)
    requires |data| > 0
    ensures r.x == s.padding as real
    ensures r.width == r.height
    ensures r.width <= AvailableWidth(data, s, width, measure)
    ensures r.width <= AvailableHeight(s, height)
    ensures r.width == AvailableWidth(data, s, width, measure) || r.width == AvailableHeight(s, height)
    ensures 2.0 * r.y + r.width == AvailableHeight(s, height)
    ensures r.MidY() == AvailableHeight(s, height) / 2.0
    ensures (height as real - (r.y + r.height)) - r.y == 2.0 * s.padding as real
  {
    var chartWidth := AvailableWidth(data, s, width, measure);
    var chartHeight := AvailableHeight(s, height);
    var box := if chartWidth < chartHeight then chartWidth else chartHeight;
    var yPos := (chartHeight - box) / 2.0;
    Rect(s.padding as real, yPos, box, box)
  }

  /** Anchor of the legend line for loop iteration `iter`: a column that
      depends only on the chart square's width, and rows one font size apart
      starting `legendPadding` below twice the padding. */
  function GetLegendTextPosition(s: Settings, iter: int, chartRect: Rect): (p: Point)
    ensures p.x - chartRect.width == (s.padding + 2 * s.legendPadding + s.legendFontSize) as real
    ensures p.y - (iter * s.legendFontSize) as real == (2 * s.padding + s.legendPadding) as real
  {
    var x := s.padding as real + chartRect.width + (s.legendPadding * 2) as real + s.legendFontSize as real;
    var y := s.padding * 2 + (s.legendPadding + iter * s.legendFontSize);
    Point(x, y as real)
  }

  /** Consecutive legend lines share their column and are one font size apart. */
  lemma {:induction false} LegendRowStep(s: Settings, chartRect: Rect, i: int)
    ensures GetLegendTextPosition(s, i + 1, chartRect).x == GetLegendTextPosition(s, i, chartRect).x
    ensures GetLegendTextPosition(s, i + 1, chartRect).y
            == GetLegendTextPosition(s, i, chartRect).y + s.legendFontSize as real
  {
    assert (i + 1) * s.legendFontSize == i * s.legendFontSize + s.legendFontSize;
  }

  /** All legend lines share one column, and with a positive font size later
      lines sit strictly lower. */
  lemma {:induction false} LegendRows(s: Settings, chartRect: Rect, i: int, j: int)
    requires i < j
    ensures GetLegendTextPosition(s, i, chartRect).x == GetLegendTextPosition(s, j, chartRect).x
    ensures s.legendFontSize > 0 ==>
              GetLegendTextPosition(s, i, chartRect).y < GetLegendTextPosition(s, j, chartRect).y
    decreases j - i
  {
    LegendRowStep(s, chartRect, j - 1);
    if i < j - 1 {
      LegendRows(s, chartRect, i, j - 1);
    }
  }

  /** The legend column starts `2 * legendPadding + legendFontSize` to the
      right of the pie's square, and the first line sits `legendPadding`
      below twice the padding. */
  lemma {:induction false} LegendBesideChart(data: seq<DataPoint>, s: Settings, width: int, height: int,
                          measure: string -> real, iter: int)
    requires |data| > 0
    ensures var r := GetChartRect(data, s, width, height, measure);
            var p := GetLegendTextPosition(s, iter, r);
            && p.x == r.x + r.width + 2.0 * s.legendPadding as real + s.legendFontSize as real
            && p.y == (2 * s.padding + s.legendPadding) as real + (iter * s.legendFontSize) as real
  {
  }
}
