/** The slice loop of the pie chart: for each ordered data point, its start
    angle, sweep, colour and legend text, with the "Other" aggregation that
    replaces the tail once the slice limit is reached. Angles are degrees,
    clockwise from 3 o'clock. */
module PieSlices {
  import StableSort
  import opened PieData

  /** What one loop iteration decides before it draws: the text of the
      legend line, the wedge's start angle and sweep, and its colour. */
  datatype Wedge = Wedge(text: string, start: real, sweep: real, color: Color)

  const OtherLabel: string := "Other"

  /** The sweep, in degrees, of a value out of `total`. */
  function Angle(v: real, total: real): real
    requires total != 0.0
  {
    v / total * 360.0
  }

  lemma {:induction false} AngleAdd(a: real, b: real, total: real)
    requires total != 0.0
    ensures Angle(a + b, total) == Angle(a, total) + Angle(b, total)
  {
  }

  /** The whole total sweeps the full circle. */
  lemma {:induction false} AngleWhole(total: real)
    requires total != 0.0
    ensures Angle(total, total) == 360.0
  {
    assert total / total == 1.0;
  }

  /** Two parts that make up the whole total sweep the full circle together. */
  lemma {:induction false} AnglePartsClose(a: real, b: real, total: real)
    requires total != 0.0
    requires a + b == total
    ensures Angle(a, total) + Angle(b, total) == 360.0
  {
    AngleAdd(a, b, total);
    AngleWhole(total);
  }

  /** Only a zero value has a zero sweep. */
  lemma {:induction false} AngleZero(v: real, total: real)
    requires total != 0.0
    ensures Angle(v, total) == 0.0 <==> v == 0.0
  {
    if v != 0.0 {
      assert v / total != 0.0;
    }
  }

  /** Palette colour of slice `i`: the palette is used cyclically, entry
      `i` for the first `|palette|` slices, then from the start again. */
  function ColorAt(palette: seq<Color>, i: nat): (c: Color)
    requires |palette| > 0
    ensures c in palette
    ensures i < |palette| ==> c == palette[i]
    decreases i
  {
    if i < |palette| then palette[i] else ColorAt(palette, i - |palette|)
  }

  /** The cyclic colour is the entry at `i mod |palette|`. */
  lemma {:induction false} ColorAtIsModulo(palette: seq<Color>, i: nat)
    requires |palette| > 0
    ensures ColorAt(palette, i) == palette[i % |palette|]
    decreases i
  {
    if i >= |palette| {
      ColorAtIsModulo(palette, i - |palette|);
      ModStep(i, |palette|);
    }
  }

  /** Taking `n` off a number of at least `n` keeps its remainder mod `n`. */
  lemma {:induction false} ModStep(i: int, n: int)
    requires i >= n > 0
    ensures (i - n) % n == i % n
  {
    var q, r := i / n, i % n;
    var q', r' := (i - n) / n, (i - n) % n;
    assert (q - q' - 1) * n == r' - r;
    if q - q' - 1 >= 1 { MulAtLeast(q - q' - 1, n); }
    if q - q' - 1 <= -1 { MulAtLeast(q' + 1 - q, n); }
  }

  /** The one nonlinear step of `ModStep`, which the solver does not find
      on its own. */
  lemma {:induction false} MulAtLeast(d: int, n: int)
    requires d >= 1 && n > 0
    ensures d * n >= n
  {
  }

  /** Each wedge starts where the one before it ends. The two indices are
      deliberate: the quantifier then fires only on pairs of wedges already
      in view, where a single index `j` with `w[j + 1]` would make each
      instance produce the next one's trigger. */
  ghost predicate Chained(w: seq<Wedge>) {
    forall j, k :: 0 <= j < k < |w| && k == j + 1 ==> w[k].start == w[j].start + w[j].sweep
  }

  /** Iteration `i` is the one that aggregates the tail into "Other". */
  predicate Aggregates(i: nat, maxSlices: int) {
    i > 0 && i + 1 == maxSlices
  }

  /** How many slices the loop draws for `n` points. */
  function SliceCount(n: nat, maxSlices: int): nat {
    if 2 <= maxSlices <= n then maxSlices else n
  }

  /** The sweep the aggregation branch first computes, from the points
      `ordered[i .. |ordered| - 1]`: the tail starting at `i` WITHOUT the last
      point. */
  function TailAngle(ordered: seq<DataPoint>, total: real, i: nat): real
    requires total != 0.0
    requires i < |ordered|
  {
    Angle(Sum(ordered[i .. |ordered| - 1]), total)
  }

  /** The loop from iteration `i` on, `curRad` being the angle reached so far.
      A normal iteration gives point `i` its proportional sweep; the
      aggregating one labels the wedge "Other", replaces its sweep by
      `360 - curRad` unless that tail sweep plus `curRad` is zero, and ends
      the loop. */
  function SliceRun(ordered: seq<DataPoint>, total: real, maxSlices: int, palette: seq<Color>,
                    i: nat, curRad: real): (r: seq<Wedge>)
    requires total != 0.0
    requires |palette| > 0
    requires i <= |ordered|
    ensures |r| == if i < maxSlices && 2 <= maxSlices <= |ordered| then maxSlices - i else |ordered| - i
    ensures |r| > 0 ==> r[0].start == curRad
    ensures forall j :: 0 <= j < |r| ==> r[j].color == ColorAt(palette, i + j)
    ensures Chained(r)
    decreases |ordered| - i
  {
    if i == |ordered| then []
    else
      var radian := Angle(ordered[i].value, total);
      var color := ColorAt(palette, i);
      if Aggregates(i, maxSlices) then
        var tail := TailAngle(ordered, total, i);
        var sweep := if tail + curRad != 0.0 then 360.0 - curRad else tail;
        [Wedge(OtherLabel, curRad, sweep, color)]
      else
        [Wedge(ordered[i].name, curRad, radian, color)]
        + SliceRun(ordered, total, maxSlices, palette, i + 1, curRad + radian)
  }

  /** The whole loop over the ordered points. */
  function Wedges(ordered: seq<DataPoint>, total: real, maxSlices: int, palette: seq<Color>): (w: seq<Wedge>)
    requires total != 0.0
    requires |palette| > 0
    ensures |w| == SliceCount(|ordered|, maxSlices)
    ensures |w| > 0 ==> w[0].start == 0.0
    ensures forall j :: 0 <= j < |w| ==> w[j].color == ColorAt(palette, j)
    ensures Chained(w)
  {
    SliceRun(ordered, total, maxSlices, palette, 0, 0.0)
  }

  /** Closed form of wedge `j` of a run started at iteration `i`: it starts
      at `curRad` plus the sweep of the points before it, and it is either
      point `i + j` with its proportional sweep or, at the aggregating
      iteration, the last wedge, labelled "Other". */
  lemma {:induction false} SliceRunEntry(ordered: seq<DataPoint>, total: real, maxSlices: int,
                                         palette: seq<Color>, i: nat, curRad: real, j: nat)
    requires total != 0.0
    requires |palette| > 0
    requires i <= |ordered|
    requires j < |SliceRun(ordered, total, maxSlices, palette, i, curRad)|
    ensures var r := SliceRun(ordered, total, maxSlices, palette, i, curRad);
            && i + j < |ordered|
            && r[j].start == curRad + Angle(Sum(ordered[i .. i + j]), total)
            && (Aggregates(i + j, maxSlices) ==>
                  && j == |r| - 1
                  && r[j].text == OtherLabel
                  && r[j].sweep == (if TailAngle(ordered, total, i + j) + r[j].start != 0.0
                                    then 360.0 - r[j].start
                                    else TailAngle(ordered, total, i + j)))
            && (!Aggregates(i + j, maxSlices) ==>
                  && r[j].text == ordered[i + j].name
                  && r[j].sweep == Angle(ordered[i + j].value, total))
    decreases j
  {
    if j == 0 {
      assert Sum(ordered[i .. i]) == 0.0;
      AngleZero(0.0, total);
    } else {
      var radian := Angle(ordered[i].value, total);
      SliceRunTail(ordered, total, maxSlices, palette, i, curRad, j);
      SliceRunEntry(ordered, total, maxSlices, palette, i + 1, curRad + radian, j - 1);
      var s := ordered[i .. i + j];
      assert s[1..] == ordered[i + 1 .. i + j];
      assert Sum(s) == ordered[i].value + Sum(s[1..]);
      AngleAdd(ordered[i].value, Sum(s[1..]), total);
    }
  }

  /** Past its first wedge, a run is the run started one iteration later. */
  lemma {:induction false} SliceRunTail(ordered: seq<DataPoint>, total: real, maxSlices: int,
                                        palette: seq<Color>, i: nat, curRad: real, j: nat)
    requires total != 0.0
    requires |palette| > 0
    requires i <= |ordered|
    requires 0 < j < |SliceRun(ordered, total, maxSlices, palette, i, curRad)|
    ensures i < |ordered| && !Aggregates(i, maxSlices)
    ensures var rest := SliceRun(ordered, total, maxSlices, palette, i + 1, curRad + Angle(ordered[i].value, total));
            && j - 1 < |rest|
            && SliceRun(ordered, total, maxSlices, palette, i, curRad)[j] == rest[j - 1]
  {
    var r := SliceRun(ordered, total, maxSlices, palette, i, curRad);
    var radian := Angle(ordered[i].value, total);
    var rest := SliceRun(ordered, total, maxSlices, palette, i + 1, curRad + radian);
    assert r == [Wedge(ordered[i].name, curRad, radian, ColorAt(palette, i))] + rest;
  }

  /** Wedge `j` of the whole loop: it starts at the sweep of the `j` largest
      points, takes the cyclic palette colour `j`, and is point `j`
      with its proportional sweep unless `j` is the aggregating iteration. */
  lemma {:induction false} WedgeEntry(ordered: seq<DataPoint>, total: real, maxSlices: int, palette: seq<Color>, j: nat)
    requires total != 0.0
    requires |palette| > 0
    requires j < SliceCount(|ordered|, maxSlices)
    ensures var w := Wedges(ordered, total, maxSlices, palette);
            && w[j].start == Angle(Sum(ordered[..j]), total)
            && w[j].color == ColorAt(palette, j)
            && (Aggregates(j, maxSlices) <==> (2 <= maxSlices <= |ordered| && j == maxSlices - 1))
            && (Aggregates(j, maxSlices) ==> w[j].text == OtherLabel)
            && (!Aggregates(j, maxSlices) ==>
                  w[j].text == ordered[j].name && w[j].sweep == Angle(ordered[j].value, total))
  {
    SliceRunEntry(ordered, total, maxSlices, palette, 0, 0.0, j);
    assert ordered[0 .. j] == ordered[..j];
  }

  /** The sum of the sweeps of a wedge list. */
  function SweepSum(w: seq<Wedge>): real {
    if |w| == 0 then 0.0 else w[0].sweep + SweepSum(w[1..])
  }

  /** Wedges that each start where the previous one ends sweep, together,
      from the first start to the last end. */
  lemma {:induction false} ChainedSweepSum(w: seq<Wedge>)
    requires |w| > 0
    requires Chained(w)
    ensures w[0].start + SweepSum(w) == w[|w| - 1].start + w[|w| - 1].sweep
    decreases |w|
  {
    if |w| > 1 {
      ChainedSweepSum(w[1..]);
    }
  }

  /** With a positive total and the points in descending order, all points
      but the last add up to a positive amount. */
  lemma {:induction false} AllButLastPositive(ordered: seq<DataPoint>)
    requires |ordered| >= 2
    requires StableSort.SortedDesc(ordered, Value)
    requires Sum(ordered) > 0.0
    ensures Sum(ordered[..|ordered| - 1]) > 0.0
  {
    var n := |ordered|;
    SumSplit(ordered, n - 1);
    assert ordered[n - 1..] == [ordered[n - 1]];
    if ordered[n - 1].value > 0.0 {
      var front := ordered[..n - 1];
      forall i | 0 <= i < |front|
        ensures front[i].value > 0.0
      {
        assert Value(ordered[i]) >= Value(ordered[n - 1]);
      }
      SumPositive(front);
    }
  }

  /** The tail sweep the aggregation branch computes leaves out the last
      point's sweep: `GetRange(i, Count - i - 1)` stops one short. */
  lemma {:induction false} TailAngleSkipsLast(ordered: seq<DataPoint>, total: real, i: nat)
    requires total != 0.0
    requires i < |ordered|
    ensures TailAngle(ordered, total, i) + Angle(ordered[|ordered| - 1].value, total)
            == Angle(Sum(ordered[i..]), total)
  {
    var n := |ordered|;
    var t := ordered[i..];
    SumSplit(t, |t| - 1);
    assert t[..|t| - 1] == ordered[i .. n - 1];
    assert t[|t| - 1..] == [ordered[n - 1]];
    AngleAdd(Sum(ordered[i .. n - 1]), ordered[n - 1].value, total);
  }

  /** The guard `radian + curRad != 0` of the aggregation branch always
      passes on ordered data with a positive total, so the "Other" sweep is
      always `360 - curRad`. */
  lemma {:induction false} OtherGuardPasses(ordered: seq<DataPoint>, i: nat)
    requires 0 < i < |ordered|
    requires StableSort.SortedDesc(ordered, Value)
    requires Sum(ordered) > 0.0
    ensures TailAngle(ordered, Sum(ordered), i) + Angle(Sum(ordered[..i]), Sum(ordered)) != 0.0
  {
    var n := |ordered|;
    var total := Sum(ordered);
    var front := ordered[..n - 1];
    AllButLastPositive(ordered);
    SumSplit(front, i);
    assert front[..i] == ordered[..i];
    assert front[i..] == ordered[i .. n - 1];
    AngleAdd(Sum(ordered[i .. n - 1]), Sum(ordered[..i]), total);
    AngleZero(Sum(front), total);
  }

  /** With the slice limit in effect (2 <= maxSlices <= Count), the last
      wedge is "Other" and sweeps exactly the share of every point from
      `maxSlices - 1` on, the last point included, up to 360 degrees. */
  lemma {:induction false} OtherWedge(ordered: seq<DataPoint>, maxSlices: int, palette: seq<Color>)
    requires |palette| > 0
    requires StableSort.SortedDesc(ordered, Value)
    requires Sum(ordered) > 0.0
    requires 2 <= maxSlices <= |ordered|
    ensures var total := Sum(ordered);
            var w := Wedges(ordered, total, maxSlices, palette);
            && |w| == maxSlices
            && w[maxSlices - 1].text == OtherLabel
            && w[maxSlices - 1].sweep == 360.0 - w[maxSlices - 1].start
            && w[maxSlices - 1].sweep == Angle(Sum(ordered[maxSlices - 1..]), total)
  {
    var total := Sum(ordered);
    var k := maxSlices - 1;
    var w := Wedges(ordered, total, maxSlices, palette);
    OtherWedgeReplacesSweep(ordered, maxSlices, palette);
    SumSplit(ordered, k);
    RestOfCircle(w[k].start, w[k].sweep, Sum(ordered[..k]), Sum(ordered[k..]), total);
  }

  /** What is left of the circle after the share of `front` is the share
      of the rest of the total. */
  lemma {:induction false} RestOfCircle(start: real, sweep: real, front: real, rest: real, total: real)
    requires total != 0.0
    requires front + rest == total
    requires start == Angle(front, total)
    requires sweep == 360.0 - start
    ensures sweep == Angle(rest, total)
  {
    AnglePartsClose(front, rest, total);
  }

  /** The "Other" wedge starts at the sweep of the points before it, and
      the guard replaces its sweep by what is left of the circle. */
  lemma {:induction false} OtherWedgeReplacesSweep(ordered: seq<DataPoint>, maxSlices: int, palette: seq<Color>)
    requires |palette| > 0
    requires StableSort.SortedDesc(ordered, Value)
    requires Sum(ordered) > 0.0
    requires 2 <= maxSlices <= |ordered|
    ensures var total := Sum(ordered);
            var w := Wedges(ordered, total, maxSlices, palette);
            var k := maxSlices - 1;
            && |w| == maxSlices
            && w[k].text == OtherLabel
            && w[k].start == Angle(Sum(ordered[..k]), total)
            && w[k].sweep == 360.0 - w[k].start
  {
    var total := Sum(ordered);
    var k := maxSlices - 1;
    SliceRunEntry(ordered, total, maxSlices, palette, 0, 0.0, k);
    assert ordered[0 .. k] == ordered[..k];
    OtherGuardPasses(ordered, k);
  }

  /** Without aggregation the last wedge is the last point's own share and
      ends where the whole total does, at 360 degrees. */
  lemma {:induction false} LastProportionalWedgeCloses(ordered: seq<DataPoint>, maxSlices: int, palette: seq<Color>)
    requires |ordered| > 0
    requires |palette| > 0
    requires Sum(ordered) != 0.0
    requires !(2 <= maxSlices <= |ordered|)
    ensures var w := Wedges(ordered, Sum(ordered), maxSlices, palette);
            && |w| == |ordered|
            && w[|w| - 1].start + w[|w| - 1].sweep == 360.0
  {
    var total := Sum(ordered);
    var n := |ordered|;
    var w := Wedges(ordered, total, maxSlices, palette);
    WedgeEntry(ordered, total, maxSlices, palette, n - 1);
    assert w[n - 1].start == Angle(Sum(ordered[..n - 1]), total);
    assert w[n - 1].sweep == Angle(ordered[n - 1].value, total);
    SumPrefixStep(ordered, n - 1);
    assert ordered[..n] == ordered;
    AnglePartsClose(Sum(ordered[..n - 1]), ordered[n - 1].value, total);
  }

  /** The wedges close the circle: with a positive total (taken over the
      same points) and the points in descending order, the last wedge ends
      at 360 degrees and the sweeps add up to 360, with or without
      aggregation. */
  lemma {:induction false} WedgesClose(ordered: seq<DataPoint>, maxSlices: int, palette: seq<Color>)
    requires |ordered| > 0
    requires |palette| > 0
    requires StableSort.SortedDesc(ordered, Value)
    requires Sum(ordered) > 0.0
    ensures var w := Wedges(ordered, Sum(ordered), maxSlices, palette);
            && |w| > 0
            && w[|w| - 1].start + w[|w| - 1].sweep == 360.0
            && SweepSum(w) == 360.0
  {
    var w := Wedges(ordered, Sum(ordered), maxSlices, palette);
    if 2 <= maxSlices <= |ordered| {
      OtherWedge(ordered, maxSlices, palette);
    } else {
      LastProportionalWedgeCloses(ordered, maxSlices, palette);
    }
    ChainedSweepSum(w);
  }

  /** `MaxSlicesToShow == 1` aggregates nothing: the `i > 0` guard skips the
      only iteration that could. Every point gets its own wedge. */
  lemma {:induction false} MaxOneDrawsEverySlice(ordered: seq<DataPoint>, total: real, palette: seq<Color>)
    requires total != 0.0
    requires |palette| > 0
    ensures var w := Wedges(ordered, total, 1, palette);
            && |w| == |ordered|
            && forall j :: 0 <= j < |w| ==>
                 w[j].text == ordered[j].name && w[j].sweep == Angle(ordered[j].value, total)
  {
    var w := Wedges(ordered, total, 1, palette);
    forall j | 0 <= j < |w|
      ensures w[j].text == ordered[j].name && w[j].sweep == Angle(ordered[j].value, total)
    {
      WedgeEntry(ordered, total, 1, palette, j);
    }
  }

  /** `MaxSlicesToShow == Count` draws as many wedges as points, yet labels
      the last one "Other" although it stands for the last point alone; its
      sweep is still that point's share. */
  lemma {:induction false} MaxEqualsCountRelabelsLast(ordered: seq<DataPoint>, palette: seq<Color>)
    requires |ordered| >= 2
    requires |palette| > 0
    requires StableSort.SortedDesc(ordered, Value)
    requires Sum(ordered) > 0.0
    ensures var n := |ordered|;
            var w := Wedges(ordered, Sum(ordered), n, palette);
            && |w| == n
            && w[n - 1].text == OtherLabel
            && w[n - 1].sweep == Angle(ordered[n - 1].value, Sum(ordered))
  {
    var n := |ordered|;
    OtherWedge(ordered, n, palette);
    assert ordered[n - 1..] == [ordered[n - 1]];
  }
}
