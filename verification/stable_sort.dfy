/** A stable sort in descending order of a real-valued key: the behaviour of
    LINQ's `OrderByDescending(key).ToList()`, which the pie chart uses both to
    order its data points by value and to pick the longest legend label.

    Stability is stated without indices: a sort is stable exactly when, for
    every key value `v`, the elements whose key is `v` appear in the output in
    the same order as in the input (`KeyClass`). Together with sortedness this
    determines the output completely (`StableSortUnique`). */
module StableSort {

  /** `s` lists its elements by non-increasing key. */
  ghost predicate SortedDesc<T>(s: seq<T>, key: T -> real) {
    forall i, j :: 0 <= i < j < |s| ==> key(s[i]) >= key(s[j])
  }

  /** The elements of `s` whose key is `v`, in their order in `s`. */
  function KeyClass<T>(s: seq<T>, key: T -> real, v: real): seq<T> {
    if |s| == 0 then []
    else (if key(s[0]) == v then [s[0]] else []) + KeyClass(s[1..], key, v)
  }

  /** Puts `x` in front of the first element whose key is not greater than its own. */
  function Insert<T>(x: T, s: seq<T>, key: T -> real): (r: seq<T>)
    ensures |r| == |s| + 1
  {
    if |s| == 0 || key(x) >= key(s[0]) then [x] + s
    else [s[0]] + Insert(x, s[1..], key)
  }

  /** Insertion sort from the back: the head of the input is placed in front
      of every element of equal key, which is what keeps the sort stable. Its
      properties are the lemmas `SortPermutes`, `SortSorted` and
      `SortKeepsKeyClasses` below. */
  function Sort<T>(s: seq<T>, key: T -> real): (r: seq<T>)
    ensures |r| == |s|
    decreases |s|
  {
    if |s| == 0 then [] else Insert(s[0], Sort(s[1..], key), key)
  }

  /** The sort rearranges its input: same elements, same multiplicities. */
  lemma {:induction false} SortPermutes<T>(s: seq<T>, key: T -> real)
    ensures multiset(Sort(s, key)) == multiset(s)
    decreases |s|
  {
    if |s| > 0 {
      SortPermutes(s[1..], key);
      InsertPermutes(s[0], Sort(s[1..], key), key);
      assert s == [s[0]] + s[1..];
    }
  }

  /** The sort lists its output by non-increasing key. */
  lemma {:induction false} SortSorted<T>(s: seq<T>, key: T -> real)
    ensures SortedDesc(Sort(s, key), key)
    decreases |s|
  {
    if |s| > 0 {
      SortSorted(s[1..], key);
      InsertSorted(s[0], Sort(s[1..], key), key);
    }
  }

  /** The sort is stable: elements of equal key keep their input order. */
  lemma {:induction false} SortKeepsKeyClasses<T>(s: seq<T>, key: T -> real)
    ensures forall v :: KeyClass(Sort(s, key), key, v) == KeyClass(s, key, v)
    decreases |s|
  {
    if |s| > 0 {
      SortKeepsKeyClasses(s[1..], key);
      InsertKeyClass(s[0], Sort(s[1..], key), key);
    }
  }

  lemma {:induction false} InsertPermutes<T>(x: T, s: seq<T>, key: T -> real)
    ensures multiset(Insert(x, s, key)) == multiset(s) + multiset{x}
    decreases |s|
  {
    if |s| == 0 || key(x) >= key(s[0]) {
    } else {
      InsertPermutes(x, s[1..], key);
      assert s == [s[0]] + s[1..];
    }
  }

  lemma {:induction false} InsertSorted<T>(x: T, s: seq<T>, key: T -> real)
    requires SortedDesc(s, key)
    ensures SortedDesc(Insert(x, s, key), key)
    decreases |s|
  {
    if |s| == 0 || key(x) >= key(s[0]) {
    } else {
      var t := Insert(x, s[1..], key);
      InsertSorted(x, s[1..], key);
      InsertPermutes(x, s[1..], key);
      forall j | 0 <= j < |t|
        ensures key(s[0]) >= key(t[j])
      {
        assert t[j] in multiset(t);
        if t[j] != x {
          assert t[j] in multiset(s[1..]);
          var p :| 0 <= p < |s[1..]| && s[1..][p] == t[j];
          assert s[1 + p] == t[j];
        }
      }
    }
  }

  /** The key class of a sequence with a given head. */
  lemma {:induction false} KeyClassCons<T>(x: T, s: seq<T>, key: T -> real, v: real)
    ensures KeyClass([x] + s, key, v) == (if key(x) == v then [x] else []) + KeyClass(s, key, v)
  {
    assert ([x] + s)[0] == x;
    assert ([x] + s)[1..] == s;
  }

  lemma {:induction false} InsertKeyClass<T>(x: T, s: seq<T>, key: T -> real)
    ensures forall v :: KeyClass(Insert(x, s, key), key, v)
                        == (if key(x) == v then [x] else []) + KeyClass(s, key, v)
    decreases |s|
  {
    forall v
      ensures KeyClass(Insert(x, s, key), key, v)
              == (if key(x) == v then [x] else []) + KeyClass(s, key, v)
    {
      InsertKeyClassAt(x, s, key, v);
    }
  }

  lemma {:induction false} InsertKeyClassAt<T>(x: T, s: seq<T>, key: T -> real, v: real)
    ensures KeyClass(Insert(x, s, key), key, v)
            == (if key(x) == v then [x] else []) + KeyClass(s, key, v)
    decreases |s|
  {
    var px := if key(x) == v then [x] else [];
    if |s| == 0 || key(x) >= key(s[0]) {
      KeyClassCons(x, s, key, v);
    } else {
      var p0 := if key(s[0]) == v then [s[0]] else [];
      var t := Insert(x, s[1..], key);
      InsertKeyClassAt(x, s[1..], key, v);
      KeyClassCons(s[0], t, key, v);
      KeyClassCons(s[0], s[1..], key, v);
      assert s == [s[0]] + s[1..];
      assert p0 == [] || px == [];
      assert p0 + (px + KeyClass(s[1..], key, v)) == px + (p0 + KeyClass(s[1..], key, v));
    }
  }

  /** Every element of a key class carries that key and comes from the sequence. */
  lemma {:induction false} KeyClassMembers<T>(s: seq<T>, key: T -> real, v: real)
    ensures |KeyClass(s, key, v)| > 0 ==>
              exists j :: (0 <= j < |s| && key(s[j]) == v && s[j] == KeyClass(s, key, v)[0]
                           && forall i :: 0 <= i < j ==> key(s[i]) != v)
    decreases |s|
  {
    if |s| > 0 && key(s[0]) != v {
      KeyClassMembers(s[1..], key, v);
      if |KeyClass(s, key, v)| > 0 {
        var j :| 0 <= j < |s[1..]| && key(s[1..][j]) == v && s[1..][j] == KeyClass(s[1..], key, v)[0]
                 && forall i :: 0 <= i < j ==> key(s[1..][i]) != v;
        assert s[1 + j] == s[1..][j];
        forall i | 0 <= i < 1 + j
          ensures key(s[i]) != v
        {
          if i > 0 { assert s[i] == s[1..][i - 1]; }
        }
      }
    }
  }

  lemma {:induction false} KeyClassOfHead<T>(s: seq<T>, key: T -> real)
    requires |s| > 0
    ensures KeyClass(s, key, key(s[0])) == [s[0]] + KeyClass(s[1..], key, key(s[0]))
  {
  }

  /** Sortedness and the key classes determine a sequence: there is only one
      stable descending sort of a given input. */
  lemma {:induction false} SortedClassesDetermine<T>(a: seq<T>, b: seq<T>, key: T -> real)
    requires SortedDesc(a, key) && SortedDesc(b, key)
    requires forall v :: KeyClass(a, key, v) == KeyClass(b, key, v)
    ensures a == b
    decreases |a| + |b|
  {
    if |a| == 0 && |b| == 0 {
    } else if |a| == 0 {
      KeyClassOfHead(b, key);
      assert false;
    } else if |b| == 0 {
      KeyClassOfHead(a, key);
      assert false;
    } else {
      var m, m' := key(a[0]), key(b[0]);
      KeyClassMembers(b, key, m);
      KeyClassMembers(a, key, m');
      assert KeyClass(a, key, m)[0] == a[0];
      assert KeyClass(b, key, m')[0] == b[0];
      assert m == m';
      assert a[0] == b[0];
      forall v
        ensures KeyClass(a[1..], key, v) == KeyClass(b[1..], key, v)
      {
        var pre := if m == v then [a[0]] else [];
        assert KeyClass(a, key, v) == pre + KeyClass(a[1..], key, v);
        assert KeyClass(b, key, v) == pre + KeyClass(b[1..], key, v);
        assert KeyClass(a[1..], key, v) == KeyClass(a, key, v)[|pre|..];
        assert KeyClass(b[1..], key, v) == KeyClass(b, key, v)[|pre|..];
      }
      SortedClassesDetermine(a[1..], b[1..], key);
      assert a == [a[0]] + a[1..];
      assert b == [b[0]] + b[1..];
    }
  }

  /** `Sort` is THE stable descending sort: every sorted arrangement that keeps
      each key class in input order is equal to it. */
  lemma {:induction false} StableSortUnique<T>(s: seq<T>, r: seq<T>, key: T -> real)
    requires SortedDesc(r, key)
    requires forall v :: KeyClass(r, key, v) == KeyClass(s, key, v)
    ensures r == Sort(s, key)
  {
    SortSorted(s, key);
    SortKeepsKeyClasses(s, key);
    SortedClassesDetermine(r, Sort(s, key), key);
  }

  /** No two elements of `s` share a key. */
  ghost predicate DistinctKeys<T>(s: seq<T>, key: T -> real) {
    forall i, j :: 0 <= i < j < |s| ==> key(s[i]) != key(s[j])
  }

  lemma {:induction false} KeyClassOfDistinct<T>(s: seq<T>, key: T -> real, v: real)
    requires DistinctKeys(s, key)
    ensures (forall j :: 0 <= j < |s| ==> key(s[j]) != v) ==> KeyClass(s, key, v) == []
    ensures forall j :: 0 <= j < |s| && key(s[j]) == v ==> KeyClass(s, key, v) == [s[j]]
    decreases |s|
  {
    if |s| > 0 {
      KeyClassOfDistinct(s[1..], key, v);
      forall j | 0 <= j < |s| && key(s[j]) == v
        ensures KeyClass(s, key, v) == [s[j]]
      {
        if j == 0 {
          assert forall i :: 0 <= i < |s[1..]| ==> key(s[1..][i]) != v by {
            forall i | 0 <= i < |s[1..]|
              ensures key(s[1..][i]) != v
            {
              assert s[1..][i] == s[i + 1];
            }
          }
        } else {
          assert s[1..][j - 1] == s[j];
        }
      }
      if forall j :: 0 <= j < |s| ==> key(s[j]) != v {
        assert forall i :: 0 <= i < |s[1..]| ==> key(s[1..][i]) != v by {
          forall i | 0 <= i < |s[1..]|
            ensures key(s[1..][i]) != v
          {
            assert s[1..][i] == s[i + 1];
          }
        }
      }
    }
  }

  /** Without equal keys, stability is automatic: any two arrangements of
      the same elements have the same key classes. */
  lemma {:induction false} DistinctKeyClasses<T>(a: seq<T>, b: seq<T>, key: T -> real)
    requires DistinctKeys(a, key) && DistinctKeys(b, key)
    requires multiset(a) == multiset(b)
    ensures forall v :: KeyClass(a, key, v) == KeyClass(b, key, v)
  {
    forall v
      ensures KeyClass(a, key, v) == KeyClass(b, key, v)
    {
      KeyClassOfDistinct(a, key, v);
      KeyClassOfDistinct(b, key, v);
      if j :| 0 <= j < |a| && key(a[j]) == v {
        assert a[j] in multiset(b);
        var p :| 0 <= p < |b| && b[p] == a[j];
      } else {
        forall p | 0 <= p < |b|
          ensures key(b[p]) != v
        {
          assert b[p] in multiset(a);
        }
      }
    }
  }

  /** The head of the sorted sequence is the FIRST element of maximal key,
      which is what `OrderByDescending(...).FirstOrDefault()` selects. */
  lemma {:induction false} SortHeadIsFirstMaximal<T>(s: seq<T>, key: T -> real)
    requires |s| > 0
    ensures |Sort(s, key)| == |s|
    ensures exists j :: 0 <= j < |s| && Sort(s, key)[0] == s[j]
                        && (forall k :: 0 <= k < |s| ==> key(s[k]) <= key(s[j]))
                        && (forall k :: 0 <= k < j ==> key(s[k]) < key(s[j]))
  {
    var r := Sort(s, key);
    SortPermutes(s, key);
    SortSorted(s, key);
    SortKeepsKeyClasses(s, key);
    var m := key(r[0]);
    forall k | 0 <= k < |s|
      ensures key(s[k]) <= m
    {
      assert s[k] in multiset(r);
      var p :| 0 <= p < |r| && r[p] == s[k];
      if p > 0 { assert key(r[0]) >= key(r[p]); }
    }
    assert KeyClass(r, key, m)[0] == r[0];
    assert KeyClass(s, key, m) == KeyClass(r, key, m);
    KeyClassMembers(s, key, m);
    var j :| 0 <= j < |s| && key(s[j]) == m && s[j] == KeyClass(s, key, m)[0]
             && forall i :: 0 <= i < j ==> key(s[i]) != m;
    assert r[0] == s[j];
  }
}
