/**
 * Stage 4 of `create_cltv_c`: `pd.qcut(cltv, 4, labels=["D", "C", "B", "A"])`.
 * The edges are the 0, 25, 50, 75 and 100 % quantiles of the values, found by
 * linear interpolation in the sorted values; the bins are right-closed and the
 * lowest edge belongs to the first bin; coinciding edges are an error.
 */
module Segmentation {
  import opened Wrappers

  /** The quartile labels, lowest first. */
  datatype Segment = D | C | B | A

  /** Position of a label in the order D < C < B < A. */
  function Rank(s: Segment): nat {
    match s
    case D => 0
    case C => 1
    case B => 2
    case A => 3
  }

  predicate Sorted(v: seq<real>) {
    forall i, j :: 0 <= i <= j < |v| ==> v[i] <= v[j]
  }

  /** Puts one value into a sorted sequence, before the first larger-or-equal element. */
  function Insert(x: real, v: seq<real>): (r: seq<real>)
    ensures |r| == |v| + 1
  {
    if v == [] then [x]
    else if x <= v[0] then [x] + v
    else [v[0]] + Insert(x, v[1..])
  }

  /** Insertion sort: the values in ascending order. */
  function SortValues(v: seq<real>): (r: seq<real>)
    ensures |r| == |v|
  {
    if v == [] then [] else Insert(v[0], SortValues(v[1..]))
  }

  /** Inserting adds exactly the one value. */
  lemma {:induction false} InsertCounts(x: real, v: seq<real>)
    ensures multiset(Insert(x, v)) == multiset(v) + multiset{x}
  {
    if v != [] && x > v[0] {
      InsertCounts(x, v[1..]);
      assert v == [v[0]] + v[1..];
    }
  }

  /** A lower bound of the value and of the sequence bounds every element after insertion. */
  lemma {:induction false} InsertAbove(lo: real, x: real, v: seq<real>)
    requires lo <= x && forall k :: 0 <= k < |v| ==> lo <= v[k]
    ensures forall k :: 0 <= k < |Insert(x, v)| ==> lo <= Insert(x, v)[k]
  {
    if v != [] && x > v[0] {
      InsertAbove(lo, x, v[1..]);
      var rest := Insert(x, v[1..]);
      forall k | 0 <= k < |Insert(x, v)|
        ensures lo <= Insert(x, v)[k]
      {
        if k > 0 {
          assert Insert(x, v)[k] == rest[k - 1];
        }
      }
    }
  }

  /** Inserting into a sorted sequence keeps it sorted and adds exactly the one value. */
  lemma {:induction false} InsertSorted(x: real, v: seq<real>)
    requires Sorted(v)
    ensures Sorted(Insert(x, v))
    ensures multiset(Insert(x, v)) == multiset(v) + multiset{x}
  {
    InsertCounts(x, v);
    if v != [] && x > v[0] {
      InsertSorted(x, v[1..]);
      var rest := Insert(x, v[1..]);
      InsertAbove(v[0], x, v[1..]);
      var r := [v[0]] + rest;
      assert Insert(x, v) == r;
      forall i, j | 0 <= i <= j < |r|
        ensures r[i] <= r[j]
      {
        if i > 0 {
          assert r[i] == rest[i - 1] && r[j] == rest[j - 1];
        } else if j > 0 {
          assert r[j] == rest[j - 1];
        }
      }
    }
  }

  /** Sorting yields a sorted permutation of its input. */
  lemma {:induction false} SortValuesSorted(v: seq<real>)
    ensures Sorted(SortValues(v))
    ensures multiset(SortValues(v)) == multiset(v)
  {
    if v != [] {
      SortValuesSorted(v[1..]);
      InsertSorted(v[0], SortValues(v[1..]));
      assert v == [v[0]] + v[1..];
    }
  }

  /** Where the k-th quartile falls: 4·h = (n - 1)·k lies inside the sorted values. */
  lemma QuantilePosition(n: nat, k: nat)
    requires n > 0 && k <= 4
    ensures 0 <= (n - 1) * k / 4 < n
    ensures (n - 1) * k % 4 != 0 ==> (n - 1) * k / 4 + 1 < n
  {
    var m := n - 1;
    if k == 0 {
    } else if k == 1 {
    } else if k == 2 {
      assert m * 2 == m + m;
    } else if k == 3 {
      assert m * 3 == m + m + m;
    } else {
      assert m * 4 == m + m + m + m;
    }
  }

  /**
   * The k/4 quantile of sorted values v: at position h = (n - 1)·k/4, the value
   * v[⌊h⌋] when h is whole, otherwise the linear interpolation
   * v[⌊h⌋] + (v[⌊h⌋ + 1] - v[⌊h⌋])·(h - ⌊h⌋).
   */
  function Quantile(v: seq<real>, k: nat): real
    requires |v| > 0 && k <= 4
  {
    var h := (|v| - 1) * k;
    QuantilePosition(|v|, k);
    var lo := h / 4;
    if h % 4 == 0 then v[lo]
    else Interpolate(v[lo], v[lo + 1], (h % 4) as real / 4.0)
  }

  /** The point a fraction t of the way from a to b. */
  function Interpolate(a: real, b: real, t: real): real {
    a + (b - a) * t
  }

  /** The five bin edges of a quartile cut of sorted values. */
  function Edges(v: seq<real>): (e: seq<real>)
    requires |v| > 0
    ensures |e| == 5
  {
    [Quantile(v, 0), Quantile(v, 1), Quantile(v, 2), Quantile(v, 3), Quantile(v, 4)]
  }

  /** Two of the edges coincide (the uniqueness test qcut applies). */
  predicate HasDuplicates(e: seq<real>) {
    exists i, j :: 0 <= i < j < |e| && e[i] == e[j]
  }

  function Below(a: real, x: real): nat {
    if a < x then 1 else 0
  }

  /**
   * The 1-based bin of x: the number of edges strictly below x (where a
   * left-sided binary search would insert x), except that a value equal to the
   * lowest edge goes into the first bin.
   */
  function BinIndex(x: real, e: seq<real>): nat
    requires |e| == 5
  {
    if x == e[0] then 1
    else Below(e[0], x) + Below(e[1], x) + Below(e[2], x) + Below(e[3], x) + Below(e[4], x)
  }

  /** The label of the bin x falls in. */
  function Label(x: real, e: seq<real>): Segment
    requires |e| == 5 && 1 <= BinIndex(x, e) <= 4
  {
    [D, C, B, A][BinIndex(x, e) - 1]
  }

  /** Every value lies between the first and the last of its sorted copy. */
  lemma WithinSorted(values: seq<real>, v: seq<real>)
    requires Sorted(v) && multiset(v) == multiset(values) && |v| > 0
    ensures forall x :: x in values ==> v[0] <= x <= v[|v| - 1]
  {
    forall x | x in values
      ensures v[0] <= x <= v[|v| - 1]
    {
      assert x in multiset(values);
      assert x in v;
    }
  }

  /** The outer edges are the smallest and the largest of the sorted values. */
  lemma OuterEdges(v: seq<real>)
    requires |v| > 0
    ensures Edges(v)[0] == v[0] && Edges(v)[4] == v[|v| - 1]
  {
    assert (|v| - 1) * 0 == 0;
    assert (|v| - 1) * 4 / 4 == |v| - 1 && (|v| - 1) * 4 % 4 == 0;
  }

  /** A value between the outer edges falls in one of the four bins. */
  lemma BinInRange(x: real, e: seq<real>)
    requires |e| == 5 && e[0] <= x <= e[4]
    ensures 1 <= BinIndex(x, e) <= 4
    ensures x == e[0] ==> BinIndex(x, e) == 1
  {
    if x != e[0] {
      assert Below(e[0], x) == 1 && Below(e[4], x) == 0;
    }
  }

  /** Every value of the column falls in one of the four bins of its own edges. */
  lemma ColumnInRange(values: seq<real>)
    requires |values| > 0
    ensures forall i :: 0 <= i < |values| ==> 1 <= BinIndex(values[i], Edges(SortValues(values))) <= 4
  {
    var v := SortValues(values);
    SortValuesSorted(values);
    WithinSorted(values, v);
    OuterEdges(v);
    forall i | 0 <= i < |values|
      ensures 1 <= BinIndex(values[i], Edges(v)) <= 4
    {
      assert values[i] in values;
      BinInRange(values[i], Edges(v));
    }
  }

  /** `pd.qcut(values, 4, labels=["D", "C", "B", "A"])`. */
  function QCut(values: seq<real>): (r: Result<seq<Segment>, Failure>)
    requires |values| > 0
    ensures r.Ok? ==> |r.value| == |values|
  {
    var v := SortValues(values);
    var e := Edges(v);
    if HasDuplicates(e) then Err(DuplicateBinEdges)
    else
      ColumnInRange(values);
      Ok(Labels(values, e))
  }

  /** The label of each value, given edges that place every value in a bin. */
  function Labels(values: seq<real>, e: seq<real>): (r: seq<Segment>)
    requires |e| == 5 && forall i :: 0 <= i < |values| ==> 1 <= BinIndex(values[i], e) <= 4
    ensures |r| == |values| && forall i :: 0 <= i < |values| ==> r[i] == Label(values[i], e)
  {
    seq(|values|, i requires 0 <= i < |values| => Label(values[i], e))
  }

  /** On success, each value gets the label of the bin it falls in. */
  lemma QCutLabels(values: seq<real>)
    requires |values| > 0 && QCut(values).Ok?
    ensures var e := Edges(SortValues(values));
            forall i :: 0 <= i < |values| ==>
              1 <= BinIndex(values[i], e) <= 4 && QCut(values).value[i] == Label(values[i], e)
  {
    ColumnInRange(values);
  }

  /** The labels' ranks follow the bins: rank = bin - 1. */
  lemma RankOfLabel(x: real, e: seq<real>)
    requires |e| == 5 && 1 <= BinIndex(x, e) <= 4
    ensures Rank(Label(x, e)) == BinIndex(x, e) - 1
  {
  }

  /** Between two consecutive quartiles of sorted values. */
  lemma QuantileStep(v: seq<real>, k: nat)
    requires |v| > 0 && k < 4 && Sorted(v)
    ensures Quantile(v, k) <= Quantile(v, k + 1)
  {
    var m := |v| - 1;
    var h1, h2 := m * k, m * (k + 1);
    assert h2 == h1 + m;
    QuantilePosition(|v|, k);
    QuantilePosition(|v|, k + 1);
    var lo1, lo2 := h1 / 4, h2 / 4;
    assert lo1 <= lo2;
    QuantileBounds(v, k);
    QuantileBounds(v, k + 1);
    if lo1 == lo2 && h1 % 4 != 0 {
      assert h2 % 4 == h1 % 4 + m;
      var d := v[lo1 + 1] - v[lo1];
      assert d >= 0.0;
      FractionGrows(d, h1 % 4, h2 % 4);
    }
  }

  /** The interpolated quantile lies between the two values around it. */
  lemma QuantileBounds(v: seq<real>, k: nat)
    requires |v| > 0 && k <= 4 && Sorted(v)
    ensures var h := (|v| - 1) * k;
            && 0 <= h / 4 < |v|
            && v[h / 4] <= Quantile(v, k)
            && (h % 4 != 0 ==> h / 4 + 1 < |v| && Quantile(v, k) <= v[h / 4 + 1])
  {
    var h := (|v| - 1) * k;
    QuantilePosition(|v|, k);
    var lo, r := h / 4, h % 4;
    if r != 0 {
      assert Quantile(v, k) == Interpolate(v[lo], v[lo + 1], r as real / 4.0);
      InterpolatedBetween(v, lo, r);
    }
  }

  /** Interpolating a quarter-step fraction between neighbours stays between them. */
  lemma InterpolatedBetween(v: seq<real>, lo: nat, r: int)
    requires Sorted(v) && lo + 1 < |v| && 0 < r < 4
    ensures v[lo] <= Interpolate(v[lo], v[lo + 1], r as real / 4.0) <= v[lo + 1]
  {
    var d := v[lo + 1] - v[lo];
    assert d >= 0.0;
    FractionBounds(d, r);
  }

  /** 0 <= d·(r/4) <= d for a fraction r/4 with 0 < r < 4. */
  lemma FractionBounds(d: real, r: int)
    requires d >= 0.0 && 0 < r < 4
    ensures 0.0 <= d * (r as real / 4.0) <= d
  {
    if r == 1 {
      assert r as real / 4.0 == 0.25;
    } else if r == 2 {
      assert r as real / 4.0 == 0.5;
    } else {
      assert r as real / 4.0 == 0.75;
    }
  }

  /** A larger fraction of a non-negative gap is no smaller. */
  lemma FractionGrows(d: real, r1: int, r2: int)
    requires d >= 0.0 && 0 <= r1 <= r2 < 4
    ensures d * (r1 as real / 4.0) <= d * (r2 as real / 4.0)
  {
    var f1, f2 := r1 as real / 4.0, r2 as real / 4.0;
    assert f1 <= f2;
    assert d * f2 - d * f1 == d * (f2 - f1);
  }

  /** The edges of sorted values run from their minimum to their maximum without decreasing. */
  lemma EdgesOrdered(v: seq<real>)
    requires |v| > 0 && Sorted(v)
    ensures Edges(v)[0] == v[0] && Edges(v)[4] == v[|v| - 1]
    ensures forall i, j :: 0 <= i <= j < 5 ==> Edges(v)[i] <= Edges(v)[j]
  {
    QuantileStep(v, 0);
    QuantileStep(v, 1);
    QuantileStep(v, 2);
    QuantileStep(v, 3);
    assert (|v| - 1) * 4 / 4 == |v| - 1;
  }

  /** Non-decreasing edges are free of duplicates exactly when they strictly increase. */
  lemma DistinctIffIncreasing(e: seq<real>)
    requires |e| == 5
    requires forall i, j :: 0 <= i <= j < 5 ==> e[i] <= e[j]
    ensures !HasDuplicates(e) <==> e[0] < e[1] < e[2] < e[3] < e[4]
  {
    if e[0] == e[1] {
      assert HasDuplicates(e) by { assert e[0] == e[1]; }
    } else if e[1] == e[2] {
      assert HasDuplicates(e) by { assert e[1] == e[2]; }
    } else if e[2] == e[3] {
      assert HasDuplicates(e) by { assert e[2] == e[3]; }
    } else if e[3] == e[4] {
      assert HasDuplicates(e) by { assert e[3] == e[4]; }
    }
  }

  /** The cut succeeds exactly when the five edges are strictly increasing. */
  lemma QCutSucceedsIffEdgesIncrease(values: seq<real>)
    requires |values| > 0
    ensures var e := Edges(SortValues(values));
            QCut(values).Ok? <==> e[0] < e[1] < e[2] < e[3] < e[4]
  {
    var v := SortValues(values);
    SortValuesSorted(values);
    EdgesOrdered(v);
    DistinctIffIncreasing(Edges(v));
  }

  /** A value further right never lands in a lower bin. */
  lemma BinIndexMonotone(x: real, y: real, e: seq<real>)
    requires |e| == 5 && e[0] <= x <= y
    ensures BinIndex(x, e) <= BinIndex(y, e)
  {
    if x == e[0] && y != e[0] {
      assert Below(e[0], y) == 1;
    }
  }

  /**
   * Labels are monotone in the value: a customer with a larger cltv never gets
   * an earlier label in the order D < C < B < A, and equal values share a label.
   */
  lemma LabelsMonotone(values: seq<real>, i: nat, j: nat)
    requires |values| > 0 && QCut(values).Ok?
    requires i < |values| && j < |values| && values[i] <= values[j]
    ensures Rank(QCut(values).value[i]) <= Rank(QCut(values).value[j])
  {
    var v := SortValues(values);
    var e := Edges(v);
    QCutLabels(values);
    SortValuesSorted(values);
    WithinSorted(values, v);
    OuterEdges(v);
    assert values[i] in values;
    BinIndexMonotone(values[i], values[j], e);
    RankOfLabel(values[i], e);
    RankOfLabel(values[j], e);
  }

  /** The smallest value is labelled D and the largest A. */
  lemma ExtremesLabelled(values: seq<real>, i: nat)
    requires |values| > 0 && QCut(values).Ok? && i < |values|
    ensures (forall j :: 0 <= j < |values| ==> values[i] <= values[j]) ==> QCut(values).value[i] == D
    ensures (forall j :: 0 <= j < |values| ==> values[j] <= values[i]) ==> QCut(values).value[i] == A
  {
    var v := SortValues(values);
    var e := Edges(v);
    SortValuesSorted(values);
    EdgesOrdered(v);
    WithinSorted(values, v);
    QCutSucceedsIffEdgesIncrease(values);
    assert values[i] in values;
    assert v[0] in multiset(values) && v[|v| - 1] in multiset(values);
    var lo :| 0 <= lo < |values| && values[lo] == v[0];
    var hi :| 0 <= hi < |values| && values[hi] == v[|v| - 1];
    if forall j :: 0 <= j < |values| ==> values[i] <= values[j] {
      assert values[i] <= values[lo];
      assert BinIndex(values[i], e) == 1;
    }
    if forall j :: 0 <= j < |values| ==> values[j] <= values[i] {
      assert values[hi] <= values[i];
      assert BinIndex(values[i], e) == 4;
    }
  }

  /** A column whose values are all equal (one customer, say) cannot be cut. */
  lemma ConstantColumnFails(values: seq<real>)
    requires |values| > 0
    requires forall i :: 0 <= i < |values| ==> values[i] == values[0]
    ensures QCut(values) == Err(DuplicateBinEdges)
  {
    var v := SortValues(values);
    SortValuesSorted(values);
    EdgesOrdered(v);
    assert v[0] in multiset(values) && v[|v| - 1] in multiset(values);
    assert v[0] == values[0] && v[|v| - 1] == values[0];
    assert Edges(v)[0] == Edges(v)[1];
  }

  /** The four sample values are already in order. */
  lemma SortFour()
    ensures SortValues([10.0, 20.0, 30.0, 40.0]) == [10.0, 20.0, 30.0, 40.0]
  {
    var values := [10.0, 20.0, 30.0, 40.0];
    assert SortValues([40.0]) == [40.0];
    assert Insert(30.0, [40.0]) == [30.0, 40.0];
    assert SortValues([30.0, 40.0]) == [30.0, 40.0];
    assert Insert(20.0, [30.0, 40.0]) == [20.0, 30.0, 40.0];
    assert SortValues([20.0, 30.0, 40.0]) == [20.0, 30.0, 40.0];
    assert Insert(10.0, [20.0, 30.0, 40.0]) == values;
    assert values[1..] == [20.0, 30.0, 40.0];
  }

  /** The quartiles of 10, 20, 30, 40 are 10, 17.5, 25, 32.5 and 40. */
  lemma EdgesFour()
    ensures Edges([10.0, 20.0, 30.0, 40.0]) == [10.0, 17.5, 25.0, 32.5, 40.0]
  {
    var values := [10.0, 20.0, 30.0, 40.0];
    assert Quantile(values, 0) == 10.0;
    assert Quantile(values, 1) == 17.5;
    assert Quantile(values, 2) == 25.0;
    assert Quantile(values, 3) == 32.5;
    assert Quantile(values, 4) == 40.0;
  }

  /** Four customers with cltv 10, 20, 30, 40 get D, C, B and A. */
  lemma FourDistinctValues()
    ensures QCut([10.0, 20.0, 30.0, 40.0]) == Ok([D, C, B, A])
  {
    var values := [10.0, 20.0, 30.0, 40.0];
    SortFour();
    EdgesFour();
    var e := Edges(SortValues(values));
    assert e == [10.0, 17.5, 25.0, 32.5, 40.0];
    assert !HasDuplicates(e);
    assert BinIndex(10.0, e) == 1 && BinIndex(20.0, e) == 2;
    assert BinIndex(30.0, e) == 3 && BinIndex(40.0, e) == 4;
    assert QCut(values).Ok?;
    QCutLabels(values);
    var r := QCut(values).value;
    assert |r| == 4 && r[0] == D && r[1] == C && r[2] == B && r[3] == A;
    assert r == [D, C, B, A];
  }

  /** A map that keeps the strict order of any two values. */
  ghost predicate Increasing(f: real -> real) {
    forall a, b :: a < b ==> f(a) < f(b)
  }

  /** A map that commutes with the linear interpolation the quantiles use. */
  ghost predicate Affine(f: real -> real) {
    forall a, b, t :: f(Interpolate(a, b, t)) == Interpolate(f(a), f(b), t)
  }

  /** Every element mapped by f. */
  function Map(f: real -> real, v: seq<real>): (r: seq<real>)
    ensures |r| == |v| && forall i :: 0 <= i < |v| ==> r[i] == f(v[i])
  {
    seq(|v|, i requires 0 <= i < |v| => f(v[i]))
  }

  /** The mapped sequence is the mapped head followed by the mapped tail. */
  lemma MapFront(f: real -> real, v: seq<real>)
    requires |v| > 0
    ensures Map(f, v) == [f(v[0])] + Map(f, v[1..])
  {
    var l, r := Map(f, v), [f(v[0])] + Map(f, v[1..]);
    assert |l| == |r|;
    forall i | 0 <= i < |l|
      ensures l[i] == r[i]
    {
      if i > 0 {
        assert r[i] == Map(f, v[1..])[i - 1];
      }
    }
  }

  /** An increasing map keeps and reflects comparisons. */
  lemma IncreasingCompare(f: real -> real, a: real, b: real)
    requires Increasing(f)
    ensures f(a) < f(b) <==> a < b
    ensures f(a) == f(b) <==> a == b
  {
    if a < b {
      assert f(a) < f(b);
    } else if b < a {
      assert f(b) < f(a);
    }
  }

  /** Inserting commutes with an increasing map. */
  lemma {:induction false} InsertMapped(f: real -> real, x: real, v: seq<real>)
    requires Increasing(f)
    ensures Insert(f(x), Map(f, v)) == Map(f, Insert(x, v))
  {
    var u := Insert(x, v);
    MapFront(f, u);
    if v == [] {
      assert Map(f, u[1..]) == [];
    } else {
      MapFront(f, v);
      IncreasingCompare(f, v[0], x);
      if x > v[0] {
        InsertMapped(f, x, v[1..]);
        assert u[1..] == Insert(x, v[1..]);
      } else {
        assert u[1..] == v;
      }
    }
  }

  /** Sorting commutes with an increasing map. */
  lemma {:induction false} SortMapped(f: real -> real, v: seq<real>)
    requires Increasing(f)
    ensures SortValues(Map(f, v)) == Map(f, SortValues(v))
  {
    if v != [] {
      MapFront(f, v);
      SortMapped(f, v[1..]);
      InsertMapped(f, v[0], SortValues(v[1..]));
    }
  }

  /** Interpolating between mapped neighbours is mapping the interpolation. */
  lemma InterpolateMapped(f: real -> real, v: seq<real>, lo: nat, t: real)
    requires Affine(f) && lo + 1 < |v|
    ensures Interpolate(Map(f, v)[lo], Map(f, v)[lo + 1], t) == f(Interpolate(v[lo], v[lo + 1], t))
  {
  }

  /** The quantiles of mapped values are the mapped quantiles. */
  lemma QuantileMapped(f: real -> real, v: seq<real>, q: nat)
    requires Affine(f) && |v| > 0 && q <= 4
    ensures Quantile(Map(f, v), q) == f(Quantile(v, q))
  {
    var w := Map(f, v);
    var h := (|v| - 1) * q;
    assert h == (|w| - 1) * q;
    QuantilePosition(|v|, q);
    var lo, t := h / 4, (h % 4) as real / 4.0;
    if h % 4 == 0 {
      assert Quantile(w, q) == w[lo];
    } else {
      assert Quantile(w, q) == Interpolate(w[lo], w[lo + 1], t);
      InterpolateMapped(f, v, lo, t);
    }
  }

  /** The edges of mapped values are the mapped edges. */
  lemma EdgesMapped(f: real -> real, v: seq<real>)
    requires Affine(f) && |v| > 0
    ensures Edges(Map(f, v)) == Map(f, Edges(v))
  {
    QuantileMapped(f, v, 0);
    QuantileMapped(f, v, 1);
    QuantileMapped(f, v, 2);
    QuantileMapped(f, v, 3);
    QuantileMapped(f, v, 4);
    var l, r := Edges(Map(f, v)), Map(f, Edges(v));
  }

  /** An increasing map neither creates nor removes coinciding edges. */
  lemma DuplicatesMapped(f: real -> real, e: seq<real>)
    requires Increasing(f) && |e| == 5
    ensures HasDuplicates(Map(f, e)) <==> HasDuplicates(e)
  {
    var fe := Map(f, e);
    forall i, j | 0 <= i < j < 5
      ensures fe[i] == fe[j] <==> e[i] == e[j]
    {
      IncreasingCompare(f, e[i], e[j]);
    }
  }

  /** An increasing map leaves every bin unchanged. */
  lemma BinIndexMapped(f: real -> real, x: real, e: seq<real>)
    requires Increasing(f) && |e| == 5
    ensures BinIndex(f(x), Map(f, e)) == BinIndex(x, e)
  {
    var fe := Map(f, e);
    forall i | 0 <= i < 5
      ensures fe[i] == f(e[i])
    {
    }
    IncreasingCompare(f, e[0], x);
    IncreasingCompare(f, e[1], x);
    IncreasingCompare(f, e[2], x);
    IncreasingCompare(f, e[3], x);
    IncreasingCompare(f, e[4], x);
  }

  /**
   * The cut depends only on the order of the values and on the interpolation
   * between them: mapping every value by an increasing affine map gives the same
   * labels, or the same failure.
   */
  lemma QCutMapInvariant(f: real -> real, values: seq<real>)
    requires Increasing(f) && Affine(f) && |values| > 0
    ensures QCut(Map(f, values)) == QCut(values)
  {
    var xs := Map(f, values);
    var e := Edges(SortValues(values));
    SortedEdgesMapped(f, values);
    DuplicatesMapped(f, e);
    if !HasDuplicates(e) {
      ColumnInRange(values);
      LabelsMapped(f, values, e);
    }
  }

  /** The edges of the mapped column are the mapped edges of the column. */
  lemma SortedEdgesMapped(f: real -> real, values: seq<real>)
    requires Increasing(f) && Affine(f) && |values| > 0
    ensures Edges(SortValues(Map(f, values))) == Map(f, Edges(SortValues(values)))
  {
    SortMapped(f, values);
    EdgesMapped(f, SortValues(values));
  }

  /** Mapped values against mapped edges get the same labels. */
  lemma LabelsMapped(f: real -> real, values: seq<real>, e: seq<real>)
    requires Increasing(f) && |e| == 5
    requires forall i :: 0 <= i < |values| ==> 1 <= BinIndex(values[i], e) <= 4
    ensures forall i :: 0 <= i < |values| ==> BinIndex(Map(f, values)[i], Map(f, e)) == BinIndex(values[i], e)
    ensures Labels(Map(f, values), Map(f, e)) == Labels(values, e)
  {
    var xs, fe := Map(f, values), Map(f, e);
    forall i | 0 <= i < |values|
      ensures BinIndex(xs[i], fe) == BinIndex(values[i], e)
    {
      BinIndexMapped(f, values[i], e);
    }
    var l, r := Labels(xs, fe), Labels(values, e);
    forall i | 0 <= i < |values|
      ensures l[i] == r[i]
    {
    }
    assert l == r;
  }

  /** Multiplication by k, as a map. */
  function Times(k: real): real -> real {
    x => k * x
  }

  /** Multiplying by a positive factor is an increasing affine map. */
  lemma PositiveScaling(k: real)
    requires k > 0.0
    ensures Increasing(Times(k)) && Affine(Times(k))
  {
    var f := Times(k);
    forall a: real, b: real | a < b
      ensures f(a) < f(b)
    {
      assert k * b - k * a == k * (b - a);
    }
    forall a: real, b: real, t: real
      ensures f(Interpolate(a, b, t)) == Interpolate(f(a), f(b), t)
    {
      assert k * (a + (b - a) * t) == k * a + (k * b - k * a) * t;
    }
  }
}
