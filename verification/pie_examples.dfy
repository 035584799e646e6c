/** Worked examples: the sample data set of the demo program and two small
    hand-computed charts. */
module PieExamples {
  import StableSort
  import opened PieData
  import opened PieSlices
  import opened PieChart

  /** The demo program's data set, in the order it is listed. */
  const SampleData: seq<DataPoint> := [
    DataPoint("Flower", 805.23),
    DataPoint("Pre-Roll", 400.0),
    DataPoint("Misc", 23.94),
    DataPoint("Topicals", 198.23),
    DataPoint("Edibles", 600.23),
    DataPoint("Vapes", 2457.23),
    DataPoint("Pet", 54.04)]

  /** The demo data set by descending value. */
  const SampleOrdered: seq<DataPoint> := [
    DataPoint("Vapes", 2457.23),
    DataPoint("Flower", 805.23),
    DataPoint("Edibles", 600.23),
    DataPoint("Pre-Roll", 400.0),
    DataPoint("Topicals", 198.23),
    DataPoint("Pet", 54.04),
    DataPoint("Misc", 23.94)]

  lemma SampleOrderedSorted()
    ensures StableSort.SortedDesc(SampleOrdered, Value)
  {
  }

  lemma SampleOrderedDistinct()
    ensures StableSort.DistinctKeys(SampleOrdered, Value)
  {
  }

  lemma SampleDataDistinct()
    ensures StableSort.DistinctKeys(SampleData, Value)
  {
  }

  lemma SamplePermutation()
    ensures multiset(SampleOrdered) == multiset(SampleData)
  {
    var d := SampleData;
    assert SampleOrdered == [d[5], d[0], d[4], d[1], d[3], d[6], d[2]];
    DemoReordering(d);
  }

  /** The demo's reordering of seven items keeps every item. */
  lemma DemoReordering<T>(d: seq<T>)
    requires |d| == 7
    ensures multiset([d[5], d[0], d[4], d[1], d[3], d[6], d[2]]) == multiset(d)
  {
    assert d == [d[0]] + [d[1]] + [d[2]] + [d[3]] + [d[4]] + [d[5]] + [d[6]];
    assert [d[5], d[0], d[4], d[1], d[3], d[6], d[2]]
           == [d[5]] + [d[0]] + [d[4]] + [d[1]] + [d[3]] + [d[6]] + [d[2]];
  }

  /** The demo data, stably sorted by value, gives the order of its slices. */
  lemma {:induction false} SampleOrder()
    ensures OrderByValue(SampleData) == SampleOrdered
  {
    SampleOrderedSorted();
    SampleOrderedDistinct();
    SampleDataDistinct();
    SamplePermutation();
    StableSort.DistinctKeyClasses(SampleOrdered, SampleData, Value);
    StableSort.StableSortUnique(SampleData, SampleOrdered, Value);
  }

  /** The demo's settings: the defaults with at most five slices. */
  const SampleSettings: Settings := DefaultSettings.(maxSlicesToShow := 5)

  lemma SampleTotal()
    ensures Sum(SampleData) == 4538.9
  {
  }

  /** The demo chart on a 500 x 500 canvas: Vapes, Flower, Edibles and
      Pre-Roll get their own slices and the last three points are drawn as
      one "Other" slice whose sweep is what the first four leave of 360
      degrees; the first five palette colours are used in order. */
  lemma {:induction false} SampleChart(measure: string -> real)
    ensures var trace := DrawChart(SampleData, SampleSettings, 500, 500, measure);
            && |trace| == 11
            && trace[0] == Background(500, 500)
            && trace[2].Legend? && trace[2].text == "Vapes"
            && trace[4].Legend? && trace[4].text == "Flower"
            && trace[6].Legend? && trace[6].text == "Edibles"
            && trace[8].Legend? && trace[8].text == "Pre-Roll"
            && trace[10].Legend? && trace[10].text == "Other"
            && trace[1].Slice? && trace[3].Slice? && trace[5].Slice? && trace[7].Slice? && trace[9].Slice?
            && trace[9].sweep == 360.0 - (trace[1].sweep + trace[3].sweep + trace[5].sweep + trace[7].sweep)
            && trace[1].color == "ADF7FF" && trace[3].color == "6EEB83" && trace[5].color == "E4FF1A"
            && trace[7].color == "FFB800" && trace[9].color == "FF5714"
  {
    SampleTotal();
    SampleLargest();
    SevenPointChart(SampleData, measure);
  }

  /** The labels of the four largest demo points. */
  lemma {:induction false} SampleLargest()
    ensures OrderByValue(SampleData)[0].name == "Vapes" && OrderByValue(SampleData)[1].name == "Flower"
    ensures OrderByValue(SampleData)[2].name == "Edibles" && OrderByValue(SampleData)[3].name == "Pre-Roll"
  {
    SampleOrder();
    var o := OrderByValue(SampleData);
    assert o[0] == SampleOrdered[0] && o[1] == SampleOrdered[1];
    assert o[2] == SampleOrdered[2] && o[3] == SampleOrdered[3];
  }

  /** The demo chart's shape for any seven points whose four largest carry
      the demo's labels. */
  lemma {:induction false} SevenPointChart(data: seq<DataPoint>, measure: string -> real)
    requires |data| == 7
    requires Sum(data) > 0.0
    requires OrderByValue(data)[0].name == "Vapes" && OrderByValue(data)[1].name == "Flower"
    requires OrderByValue(data)[2].name == "Edibles" && OrderByValue(data)[3].name == "Pre-Roll"
    ensures var trace := DrawChart(data, SampleSettings, 500, 500, measure);
            && |trace| == 11
            && trace[0] == Background(500, 500)
            && trace[2].Legend? && trace[2].text == "Vapes"
            && trace[4].Legend? && trace[4].text == "Flower"
            && trace[6].Legend? && trace[6].text == "Edibles"
            && trace[8].Legend? && trace[8].text == "Pre-Roll"
            && trace[10].Legend? && trace[10].text == "Other"
            && trace[1].Slice? && trace[3].Slice? && trace[5].Slice? && trace[7].Slice? && trace[9].Slice?
            && trace[9].sweep == 360.0 - (trace[1].sweep + trace[3].sweep + trace[5].sweep + trace[7].sweep)
            && trace[1].color == "ADF7FF" && trace[3].color == "6EEB83" && trace[5].color == "E4FF1A"
            && trace[7].color == "FFB800" && trace[9].color == "FF5714"
  {
    SampleLabels(data, measure);
    SampleClosure(data, measure);
    SampleColors(data, measure);
  }

  /** The legend lines of a seven-point chart under the demo settings: the
      four largest points by label, then "Other". */
  lemma {:induction false} SampleLabels(data: seq<DataPoint>, measure: string -> real)
    requires |data| == 7
    requires Sum(data) != 0.0
    requires OrderByValue(data)[0].name == "Vapes" && OrderByValue(data)[1].name == "Flower"
    requires OrderByValue(data)[2].name == "Edibles" && OrderByValue(data)[3].name == "Pre-Roll"
    ensures var trace := DrawChart(data, SampleSettings, 500, 500, measure);
            && |trace| == 11
            && trace[2].Legend? && trace[2].text == "Vapes"
            && trace[4].Legend? && trace[4].text == "Flower"
            && trace[6].Legend? && trace[6].text == "Edibles"
            && trace[8].Legend? && trace[8].text == "Pre-Roll"
            && trace[10].Legend? && trace[10].text == "Other"
  {
    var s := SampleSettings;
    TraceSweeps(data, s, 500, 500, measure, 0);
    TraceSweeps(data, s, 500, 500, measure, 1);
    TraceSweeps(data, s, 500, 500, measure, 2);
    TraceSweeps(data, s, 500, 500, measure, 3);
    TraceSweeps(data, s, 500, 500, measure, 4);
  }

  /** In a seven-point chart under the demo settings with a positive total,
      the "Other" slice takes what the first four leave. */
  lemma {:induction false} SampleClosure(data: seq<DataPoint>, measure: string -> real)
    requires |data| == 7
    requires Sum(data) > 0.0
    ensures var trace := DrawChart(data, SampleSettings, 500, 500, measure);
            && |trace| == 11
            && trace[1].Slice? && trace[3].Slice? && trace[5].Slice? && trace[7].Slice? && trace[9].Slice?
            && trace[9].sweep == 360.0 - (trace[1].sweep + trace[3].sweep + trace[5].sweep + trace[7].sweep)
  {
    var s := SampleSettings;
    TraceStarts(data, s, 500, 500, measure, 0);
    TraceChain(data, s, 500, 500, measure, 0);
    TraceChain(data, s, 500, 500, measure, 1);
    TraceChain(data, s, 500, 500, measure, 2);
    TraceChain(data, s, 500, 500, measure, 3);
    TraceLastSliceEndsAt360(data, s, 500, 500, measure);
  }

  /** A seven-point chart under the demo settings fills its five slices
      with the first five palette colours, in order. */
  lemma {:induction false} SampleColors(data: seq<DataPoint>, measure: string -> real)
    requires |data| == 7
    requires Sum(data) > 0.0
    ensures var trace := DrawChart(data, SampleSettings, 500, 500, measure);
            && |trace| == 11
            && trace[1].Slice? && trace[1].color == "ADF7FF"
            && trace[3].Slice? && trace[3].color == "6EEB83"
            && trace[5].Slice? && trace[5].color == "E4FF1A"
            && trace[7].Slice? && trace[7].color == "FFB800"
            && trace[9].Slice? && trace[9].color == "FF5714"
  {
    var s := SampleSettings;
    assert |s.palette| == 10;
    assert s.palette[0] == "ADF7FF" && s.palette[1] == "6EEB83" && s.palette[2] == "E4FF1A";
    assert s.palette[3] == "FFB800" && s.palette[4] == "FF5714";
    TraceShape(data, s, 500, 500, measure, 0);
    TraceShape(data, s, 500, 500, measure, 1);
    TraceShape(data, s, 500, 500, measure, 2);
    TraceShape(data, s, 500, 500, measure, 3);
    TraceShape(data, s, 500, 500, measure, 4);
  }

  /** Without a slice limit, values 60, 30 and 10 give the wedges 0-216,
      216-324 and 324-360 degrees. */
  lemma {:induction false} ThreeSlices(measure: string -> real)
    ensures var data := [DataPoint("A", 60.0), DataPoint("B", 30.0), DataPoint("C", 10.0)];
            var trace := DrawChart(data, DefaultSettings, 400, 300, measure);
            && |trace| == 7
            && trace[1].Slice? && trace[1].start == 0.0 && trace[1].sweep == 216.0
            && trace[3].Slice? && trace[3].start == 216.0 && trace[3].sweep == 108.0
            && trace[5].Slice? && trace[5].start == 324.0 && trace[5].sweep == 36.0
  {
    var data := [DataPoint("A", 60.0), DataPoint("B", 30.0), DataPoint("C", 10.0)];
    var s := DefaultSettings;
    assert StableSort.SortedDesc(data, Value);
    StableSort.StableSortUnique(data, data, Value);
    assert Sum(data) == 100.0;
    assert Angle(60.0, 100.0) == 216.0 && Angle(30.0, 100.0) == 108.0 && Angle(10.0, 100.0) == 36.0;
    TraceSweeps(data, s, 400, 300, measure, 0);
    TraceSweeps(data, s, 400, 300, measure, 1);
    TraceSweeps(data, s, 400, 300, measure, 2);
    TraceStarts(data, s, 400, 300, measure, 0);
    TraceChain(data, s, 400, 300, measure, 0);
    TraceChain(data, s, 400, 300, measure, 1);
  }

  /** Four equal values with at most two slices: stability keeps the first
      point first, it gets its quarter and "Other" the remaining 270 degrees. */
  lemma {:induction false} EqualValuesTwoSlices(data: seq<DataPoint>, measure: string -> real)
    requires |data| == 4
    requires forall i :: 0 <= i < |data| ==> data[i].value == 10.0
    ensures Sum(data) == 40.0
            && var trace := DrawChart(data, DefaultSettings.(maxSlicesToShow := 2), 400, 300, measure);
            && |trace| == 5
            && trace[1].Slice? && trace[1].start == 0.0 && trace[1].sweep == 90.0
            && trace[2].Legend? && trace[2].text == data[0].name
            && trace[3].Slice? && trace[3].start == 90.0 && trace[3].sweep == 270.0
            && trace[4].Legend? && trace[4].text == "Other"
  {
    var s := DefaultSettings.(maxSlicesToShow := 2);
    assert StableSort.SortedDesc(data, Value);
    StableSort.StableSortUnique(data, data, Value);
    assert Sum(data[3..]) == 10.0;
    assert Sum(data[2..]) == 20.0 by { assert data[2..][1..] == data[3..]; }
    assert Sum(data[1..]) == 30.0 by { assert data[1..][1..] == data[2..]; }
    assert Angle(10.0, 40.0) == 90.0;
    TraceSweeps(data, s, 400, 300, measure, 0);
    TraceSweeps(data, s, 400, 300, measure, 1);
    TraceStarts(data, s, 400, 300, measure, 0);
    TraceChain(data, s, 400, 300, measure, 0);
    TraceLastSliceEndsAt360(data, s, 400, 300, measure);
  }
}
