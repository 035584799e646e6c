/** The pie chart's input: data points, the chart settings, the total of the
    values and the value ordering the slices are drawn in. */
module PieData {
  import StableSort

  /** A palette entry: the hex string the chart hands to the colour parser. */
  type Color = string

  /** One category of the chart; `name` is the source's `Label`. Values are
      not required to be non-negative: the chart itself never checks them. */
  datatype DataPoint = DataPoint(name: string, value: real)

  /** The chart's public settings that take part in the layout. */
  datatype Settings = Settings(
    maxSlicesToShow: int,   // 0 (or anything outside 2..Count) draws every slice
    padding: int,
    legendFontSize: int,
    legendPadding: int,
    palette: seq<Color>)

  /** The settings a freshly constructed chart starts with. */
  const DefaultSettings: Settings := Settings(
    0, 5, 20, 5,
    ["ADF7FF", "6EEB83", "E4FF1A", "FFB800", "FF5714",
     "1BC537", "B88400", "0F6C1E", "FFB699", "001214"])

  /** The key of the slice ordering. */
  function Value(d: DataPoint): real {
    d.value
  }

  /** Length of a string in UTF-16 code units, the unit .NET's `Length`
      counts: a character outside the Basic Multilingual Plane is stored as a
      surrogate pair and counts twice. */
  function Utf16Length(s: string): (n: nat)
    ensures |s| <= n <= 2 * |s|
  {
    if |s| == 0 then 0
    else (if s[0] as int >= 0x1_0000 then 2 else 1) + Utf16Length(s[1..])
  }

  /** The UTF-16 length is the character count exactly when every character
      lies in the Basic Multilingual Plane. */
  lemma {:induction false} Utf16LengthIsCountIffBmp(s: string)
    ensures Utf16Length(s) == |s| <==> forall i :: 0 <= i < |s| ==> s[i] as int < 0x1_0000
    decreases |s|
  {
    if |s| > 0 {
      Utf16LengthIsCountIffBmp(s[1..]);
      if forall i :: 0 <= i < |s| ==> s[i] as int < 0x1_0000 {
        assert forall i :: 0 <= i < |s[1..]| ==> s[1..][i] as int < 0x1_0000 by {
          forall i | 0 <= i < |s[1..]| ensures s[1..][i] as int < 0x1_0000 {
            assert s[1..][i] == s[i + 1];
          }
        }
      } else if s[0] as int < 0x1_0000 {
        var i :| 0 <= i < |s| && s[i] as int >= 0x1_0000;
        assert s[1..][i - 1] == s[i];
      }
    }
  }

  /** The key used to find the longest legend label: its `Length`, in
      UTF-16 code units. */
  function LabelLength(d: DataPoint): real {
    Utf16Length(d.name) as real
  }

  /** Sum of the values, folded from the right. LINQ's `Sum` folds from the
      left; over the reals both give the same total. */
  function Sum(s: seq<DataPoint>): real {
    if |s| == 0 then 0.0 else s[0].value + Sum(s[1..])
  }

  /** The data points in the order the slices are drawn: a stable sort by
      descending value (see `OrderByValueIsStableSort`). */
  function OrderByValue(data: seq<DataPoint>): (ordered: seq<DataPoint>)
    ensures |ordered| == |data|
  {
    StableSort.Sort(data, Value)
  }

  /** The drawing order is a permutation of the data, by descending value,
      with points of equal value in their input order (`StableSortUnique`
      shows no other arrangement has these properties). */
  lemma {:induction false} OrderByValueIsStableSort(data: seq<DataPoint>)
    ensures multiset(OrderByValue(data)) == multiset(data)
    ensures StableSort.SortedDesc(OrderByValue(data), Value)
    ensures forall v :: StableSort.KeyClass(OrderByValue(data), Value, v) == StableSort.KeyClass(data, Value, v)
  {
    StableSort.SortPermutes(data, Value);
    StableSort.SortSorted(data, Value);
    StableSort.SortKeepsKeyClasses(data, Value);
  }

  lemma {:induction false} SumConcat(a: seq<DataPoint>, b: seq<DataPoint>)
    ensures Sum(a + b) == Sum(a) + Sum(b)
    decreases |a|
  {
    if |a| == 0 {
      assert a + b == b;
    } else {
      assert (a + b)[0] == a[0];
      assert (a + b)[1..] == a[1..] + b;
      SumConcat(a[1..], b);
    }
  }

  /** Extending a prefix by one element adds that element's value. */
  lemma {:induction false} SumPrefixStep(s: seq<DataPoint>, i: nat)
    requires i < |s|
    ensures Sum(s[..i + 1]) == Sum(s[..i]) + s[i].value
  {
    assert s[..i + 1] == s[..i] + [s[i]];
    SumConcat(s[..i], [s[i]]);
  }

  /** Splitting a sequence splits its sum. */
  lemma {:induction false} SumSplit(s: seq<DataPoint>, i: nat)
    requires i <= |s|
    ensures Sum(s) == Sum(s[..i]) + Sum(s[i..])
  {
    assert s == s[..i] + s[i..];
    SumConcat(s[..i], s[i..]);
  }

  /** Taking point `j` out of a sequence takes its value off the sum. */
  lemma {:induction false} SumRemove(s: seq<DataPoint>, j: nat)
    requires j < |s|
    ensures Sum(s) == s[j].value + Sum(s[..j] + s[j + 1..])
  {
    assert s == s[..j] + [s[j]] + s[j + 1..];
    SumConcat(s[..j] + [s[j]], s[j + 1..]);
    SumConcat(s[..j], [s[j]]);
    SumConcat(s[..j], s[j + 1..]);
  }

  /** Taking point `j` out of a sequence takes it out of its multiset. */
  lemma {:induction false} MultisetRemove(s: seq<DataPoint>, j: nat)
    requires j < |s|
    ensures multiset(s[..j] + s[j + 1..]) == multiset(s) - multiset{s[j]}
  {
    assert s == s[..j] + [s[j]] + s[j + 1..];
  }

  /** Matching the head of `a` with an equal point of `b` leaves two
      permutations of each other. */
  lemma {:induction false} PermutationTail(a: seq<DataPoint>, b: seq<DataPoint>, j: nat)
    requires multiset(a) == multiset(b)
    requires |a| > 0 && j < |b| && b[j] == a[0]
    ensures multiset(a[1..]) == multiset(b[..j] + b[j + 1..])
  {
    MultisetRemove(b, j);
    assert a == [a[0]] + a[1..];
    assert multiset(a[1..]) == multiset(a) - multiset{a[0]};
  }

  /** The total does not depend on the order of the points, so the total
      taken over the unsorted data is also the total of the ordered list. */
  lemma {:induction false} SumPermutation(a: seq<DataPoint>, b: seq<DataPoint>)
    requires multiset(a) == multiset(b)
    ensures Sum(a) == Sum(b)
    decreases |a|
  {
    if |a| == 0 {
      assert |b| == |multiset(b)| == 0;
    } else {
      assert a[0] in multiset(b);
      var j :| 0 <= j < |b| && b[j] == a[0];
      PermutationTail(a, b, j);
      SumPermutation(a[1..], b[..j] + b[j + 1..]);
      SumRemove(b, j);
    }
  }

  /** Ordering the points keeps their total. */
  lemma {:induction false} OrderKeepsTotal(data: seq<DataPoint>)
    ensures Sum(OrderByValue(data)) == Sum(data)
  {
    OrderByValueIsStableSort(data);
    SumPermutation(OrderByValue(data), data);
  }

  /** If every value is positive, so is the sum of a non-empty sequence. */
  lemma {:induction false} SumPositive(s: seq<DataPoint>)
    requires |s| > 0
    requires forall i :: 0 <= i < |s| ==> s[i].value > 0.0
    ensures Sum(s) > 0.0
    decreases |s|
  {
    if |s| > 1 {
      SumPositive(s[1..]);
    }
  }
}
