/**
 * Stage 2 of `create_cltv_c`: `groupby('Customer ID')` over the cleaned lines,
 * giving per customer the number of distinct invoices, the units bought and
 * the money spent.
 */
module Aggregation {
  import opened Cleaning

  /** A count that is at least one. */
  type Positive = n: int | n >= 1 witness 1

  /** One row of the grouped frame, with the columns renamed as `create_cltv_c` does. */
  datatype Aggregate = Aggregate(
    customerId: int,
    totalTransaction: Positive,
    totalUnit: int,
    totalPrice: real)

  /** The distinct customer ids among the lines (the group keys). */
  function Customers(lines: seq<Line>): set<int> {
    set l | l in lines :: l.customerId
  }

  /** The lines of one group. */
  function LinesOf(lines: seq<Line>, c: int): (mine: seq<Line>)
    ensures forall l :: l in mine <==> l in lines && l.customerId == c
  {
    Filter(lines, (l: Line) => l.customerId == c)
  }

  /** The distinct invoice ids among some lines (`nunique` of the `Invoice` column). */
  function Invoices(lines: seq<Line>): set<string> {
    set l | l in lines :: l.invoice
  }

  /** `Quantity.sum()`. */
  function SumQuantity(lines: seq<Line>): int {
    if lines == [] then 0 else lines[0].quantity + SumQuantity(lines[1..])
  }

  /** `TotalPrice.sum()`. */
  function SumPrice(lines: seq<Line>): real {
    if lines == [] then 0.0 else lines[0].totalPrice + SumPrice(lines[1..])
  }

  /** A customer that owns a line owns at least one invoice. */
  lemma CustomerHasInvoice(lines: seq<Line>, c: int)
    requires c in Customers(lines)
    ensures |Invoices(LinesOf(lines, c))| >= 1
  {
    var l :| l in lines && l.customerId == c;
    assert l.invoice in Invoices(LinesOf(lines, c));
  }

  /** The aggregate row of customer `c`. */
  function Summarize(lines: seq<Line>, c: int): (a: Aggregate)
    requires c in Customers(lines)
  {
    var mine := LinesOf(lines, c);
    CustomerHasInvoice(lines, c);
    Aggregate(c, |Invoices(mine)|, SumQuantity(mine), SumPrice(mine))
  }

  /** Distinct invoices never outnumber the lines they come from. */
  lemma {:induction false} InvoicesAtMostLines(lines: seq<Line>)
    ensures |Invoices(lines)| <= |lines|
  {
    if lines != [] {
      InvoicesAtMostLines(lines[1..]);
      assert Invoices(lines) == {lines[0].invoice} + Invoices(lines[1..]) by {
        assert lines == [lines[0]] + lines[1..];
      }
    }
  }

  /**
   * `total_transaction` counts distinct invoices, not lines: it lies between 1
   * and the customer's number of lines.
   */
  lemma TransactionsAreDistinctInvoices(lines: seq<Line>, c: int)
    requires c in Customers(lines)
    ensures Summarize(lines, c).totalTransaction == |Invoices(LinesOf(lines, c))|
    ensures 1 <= Summarize(lines, c).totalTransaction <= |LinesOf(lines, c)|
  {
    InvoicesAtMostLines(LinesOf(lines, c));
  }

  /** With every quantity at least one, units bought are at least the lines. */
  lemma {:induction false} UnitsAtLeastLines(lines: seq<Line>)
    requires forall l :: l in lines ==> l.quantity > 0
    ensures SumQuantity(lines) >= |lines|
  {
    if lines != [] {
      assert lines[0] in lines;
      UnitsAtLeastLines(lines[1..]);
    }
  }

  /**
   * After cleaning every quantity is positive, so each customer bought at least
   * as many units as they have distinct invoices, and in particular some.
   */
  lemma UnitsAtLeastTransactions(lines: seq<Line>, c: int)
    requires forall l :: l in lines ==> l.quantity > 0
    requires c in Customers(lines)
    ensures Summarize(lines, c).totalUnit >= Summarize(lines, c).totalTransaction >= 1
  {
    UnitsAtLeastLines(LinesOf(lines, c));
    TransactionsAreDistinctInvoices(lines, c);
  }

  /** Strictly increasing: the order pandas gives the group keys. */
  predicate Ascending(ids: seq<int>) {
    forall i, j :: 0 <= i < j < |ids| ==> ids[i] < ids[j]
  }

  /** Adds one key to an ascending list of keys. */
  function InsertId(c: int, ids: seq<int>): (r: seq<int>)
    requires Ascending(ids)
    ensures Ascending(r)
    ensures forall x :: x in r <==> x in ids || x == c
  {
    if ids == [] then [c]
    else if c < ids[0] then [c] + ids
    else if c == ids[0] then ids
    else
      var rest := InsertId(c, ids[1..]);
      assert forall x :: x in ids[1..] ==> ids[0] < x;
      assert forall k :: 0 <= k < |rest| ==> rest[k] in rest;
      [ids[0]] + rest
  }

  /** The group keys of `groupby('Customer ID')`, ascending and without repeats. */
  function CustomerIds(lines: seq<Line>): (ids: seq<int>)
    ensures Ascending(ids)
    ensures forall c :: c in ids <==> c in Customers(lines)
  {
    if lines == [] then []
    else
      assert lines == [lines[0]] + lines[1..];
      InsertId(lines[0].customerId, CustomerIds(lines[1..]))
  }

  /** An ascending list holds as many distinct keys as it is long. */
  lemma {:induction false} AscendingCard(ids: seq<int>)
    requires Ascending(ids)
    ensures |set x | x in ids| == |ids|
  {
    if ids != [] {
      AscendingCard(ids[1..]);
      assert (set x | x in ids) == {ids[0]} + (set x | x in ids[1..]) by {
        assert ids == [ids[0]] + ids[1..];
      }
    }
  }

  /** The aggregate rows for the given keys, in their order. */
  function Table(lines: seq<Line>, ids: seq<int>): (t: seq<Aggregate>)
    requires forall c :: c in ids ==> c in Customers(lines)
    ensures |t| == |ids|
    ensures forall i :: 0 <= i < |ids| ==> t[i] == Summarize(lines, ids[i])
  {
    if ids == [] then [] else [Summarize(lines, ids[0])] + Table(lines, ids[1..])
  }

  /** The grouped frame `cltv_c` with columns total_transaction, total_unit, total_price. */
  function GroupByCustomer(lines: seq<Line>): (t: seq<Aggregate>)
  {
    Table(lines, CustomerIds(lines))
  }

  /** Row i of the grouped frame belongs to the i-th key. */
  lemma GroupKeys(lines: seq<Line>)
    ensures var t, ids := GroupByCustomer(lines), CustomerIds(lines);
            |t| == |ids| && forall i :: 0 <= i < |t| ==> t[i].customerId == ids[i]
  {
  }

  /**
   * The grouped frame has exactly one row per distinct customer, in ascending
   * key order.
   */
  lemma GroupByCustomerKeys(lines: seq<Line>)
    ensures |GroupByCustomer(lines)| == |Customers(lines)|
    ensures forall i, j :: 0 <= i < j < |GroupByCustomer(lines)| ==>
              GroupByCustomer(lines)[i].customerId < GroupByCustomer(lines)[j].customerId
    ensures forall c :: c in Customers(lines) <==>
              exists i :: 0 <= i < |GroupByCustomer(lines)| && GroupByCustomer(lines)[i].customerId == c
  {
    var ids := CustomerIds(lines);
    var t := GroupByCustomer(lines);
    GroupKeys(lines);
    AscendingCard(ids);
    assert (set x | x in ids) == Customers(lines);
    forall c | c in Customers(lines)
      ensures exists i :: 0 <= i < |t| && t[i].customerId == c
    {
      var i :| 0 <= i < |ids| && ids[i] == c;
      assert t[i].customerId == c;
    }
  }

  /** Each row of the grouped frame aggregates exactly its customer's lines. */
  lemma GroupByCustomerRows(lines: seq<Line>)
    ensures forall i :: 0 <= i < |GroupByCustomer(lines)| ==>
              var a := GroupByCustomer(lines)[i];
              a.customerId in Customers(lines) && a == Summarize(lines, a.customerId)
  {
    GroupKeys(lines);
  }

  /**
   * The grouped frame has exactly one row per distinct customer, in ascending
   * key order, and each row aggregates exactly that customer's lines.
   */
  lemma GroupByCustomerShape(lines: seq<Line>)
    ensures |GroupByCustomer(lines)| == |Customers(lines)|
    ensures forall i, j :: 0 <= i < j < |GroupByCustomer(lines)| ==>
              GroupByCustomer(lines)[i].customerId < GroupByCustomer(lines)[j].customerId
    ensures forall c :: c in Customers(lines) <==>
              exists i :: 0 <= i < |GroupByCustomer(lines)| && GroupByCustomer(lines)[i].customerId == c
    ensures forall i :: 0 <= i < |GroupByCustomer(lines)| ==>
              var a := GroupByCustomer(lines)[i];
              a.customerId in Customers(lines) && a == Summarize(lines, a.customerId)
  {
    GroupByCustomerKeys(lines);
    GroupByCustomerRows(lines);
  }

  /** Σ total_price over a grouped frame. */
  function TotalPriceSum(t: seq<Aggregate>): real {
    if t == [] then 0.0 else t[0].totalPrice + TotalPriceSum(t[1..])
  }

  /** Σ total_unit over a grouped frame. */
  function TotalUnitSum(t: seq<Aggregate>): int {
    if t == [] then 0 else t[0].totalUnit + TotalUnitSum(t[1..])
  }

  /** Σ over the keys of the money spent by each key's lines (no membership needed). */
  function PriceByIds(lines: seq<Line>, ids: seq<int>): real {
    if ids == [] then 0.0 else SumPrice(LinesOf(lines, ids[0])) + PriceByIds(lines, ids[1..])
  }

  /** Σ over the keys of the units bought by each key's lines. */
  function UnitsByIds(lines: seq<Line>, ids: seq<int>): int {
    if ids == [] then 0 else SumQuantity(LinesOf(lines, ids[0])) + UnitsByIds(lines, ids[1..])
  }

  lemma {:induction false} TableSums(lines: seq<Line>, ids: seq<int>)
    requires forall c :: c in ids ==> c in Customers(lines)
    ensures TotalPriceSum(Table(lines, ids)) == PriceByIds(lines, ids)
    ensures TotalUnitSum(Table(lines, ids)) == UnitsByIds(lines, ids)
  {
    if ids != [] {
      TableSums(lines, ids[1..]);
      var t := Table(lines, ids);
      assert t[1..] == Table(lines, ids[1..]);
    }
  }

  /** The lines of one group, when one more line is put in front. */
  lemma LinesOfCons(l: Line, rest: seq<Line>, c: int)
    ensures LinesOf([l] + rest, c) == (if l.customerId == c then [l] else []) + LinesOf(rest, c)
  {
    assert ([l] + rest)[0] == l;
    assert ([l] + rest)[1..] == rest;
  }

  /** Putting one line in front adds its amounts to the one key it belongs to. */
  lemma {:induction false} ByIdsCons(l: Line, rest: seq<Line>, ids: seq<int>)
    requires Ascending(ids)
    ensures PriceByIds([l] + rest, ids)
            == (if l.customerId in ids then l.totalPrice else 0.0) + PriceByIds(rest, ids)
    ensures UnitsByIds([l] + rest, ids)
            == (if l.customerId in ids then l.quantity else 0) + UnitsByIds(rest, ids)
  {
    if ids != [] {
      ByIdsCons(l, rest, ids[1..]);
      LinesOfCons(l, rest, ids[0]);
      var mine := LinesOf(rest, ids[0]);
      if l.customerId == ids[0] {
        assert ([l] + mine)[1..] == mine;
        assert l.customerId !in ids[1..];
      } else {
        assert l.customerId in ids <==> l.customerId in ids[1..];
      }
    }
  }

  /** Summing per key over keys that cover every line sums every line once. */
  lemma {:induction false} ByIdsCover(lines: seq<Line>, ids: seq<int>)
    requires Ascending(ids)
    requires forall c :: c in Customers(lines) ==> c in ids
    ensures PriceByIds(lines, ids) == SumPrice(lines)
    ensures UnitsByIds(lines, ids) == SumQuantity(lines)
  {
    if lines == [] {
      EmptyByIds(ids);
    } else {
      var l, rest := lines[0], lines[1..];
      assert lines == [l] + rest;
      assert Customers(lines) == {l.customerId} + Customers(rest);
      ByIdsCover(rest, ids);
      ByIdsCons(l, rest, ids);
    }
  }

  lemma {:induction false} EmptyByIds(ids: seq<int>)
    ensures PriceByIds([], ids) == 0.0 && UnitsByIds([], ids) == 0
  {
    if ids != [] {
      EmptyByIds(ids[1..]);
    }
  }

  /**
   * Conservation: the grouped frame's total_price column sums to the sum of
   * TotalPrice over the cleaned lines, and total_unit to the sum of quantities.
   */
  lemma Conservation(lines: seq<Line>)
    ensures TotalPriceSum(GroupByCustomer(lines)) == SumPrice(lines)
    ensures TotalUnitSum(GroupByCustomer(lines)) == SumQuantity(lines)
  {
    var ids := CustomerIds(lines);
    TableSums(lines, ids);
    ByIdsCover(lines, ids);
  }
}
