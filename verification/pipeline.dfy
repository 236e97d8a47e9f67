/**
 * `create_cltv_c(dataframe, profit=0.10)`: the four stages chained, from the raw
 * invoice lines to one scored and segmented row per customer.
 */
module Cltv {
  import opened Wrappers
  import opened Cleaning
  import opened Aggregation
  import opened Metrics
  import opened Segmentation

  /** The default profit rate. */
  const DefaultProfit: real := 0.10

  /** A row of the returned frame: the grouped and derived columns, then `segment`. */
  datatype CustomerRow = CustomerRow(scored: Scored, segment: Segment)

  /** The `cltv` column of a scored frame. */
  function CltvColumn(s: seq<Scored>): (c: seq<real>)
    ensures |c| == |s| && forall i :: 0 <= i < |s| ==> c[i] == s[i].cltv
  {
    seq(|s|, i requires 0 <= i < |s| => s[i].cltv)
  }

  /** `cltv_c["segment"] = labels`: the labels attached row by row. */
  function Attach(s: seq<Scored>, labels: seq<Segment>): (rows: seq<CustomerRow>)
    requires |labels| == |s|
    ensures |rows| == |s|
    ensures forall i :: 0 <= i < |s| ==> rows[i] == CustomerRow(s[i], labels[i])
  {
    seq(|s|, i requires 0 <= i < |s| => CustomerRow(s[i], labels[i]))
  }

  /** The whole function; each stage's failure stops the run. */
  function CreateCltvC(rows: seq<Row>, profit: real := DefaultProfit): (r: Result<seq<CustomerRow>, Failure>)
  {
    var table := GroupByCustomer(Clean(rows));
    var derived := Derive(table, profit);
    if derived.Err? then Err(derived.error)
    else
      DeriveFailures(table, profit);
      var labels := QCut(CltvColumn(derived.value));
      if labels.Err? then Err(labels.error)
      else Ok(Attach(derived.value, labels.value))
  }

  /** The scored frame the last stage cuts. */
  function Scores(rows: seq<Row>, profit: real): Result<seq<Scored>, Failure> {
    Derive(GroupByCustomer(Clean(rows)), profit)
  }

  /** What a successful run is made of, stage by stage. */
  lemma Stages(rows: seq<Row>, profit: real)
    requires CreateCltvC(rows, profit).Ok?
    ensures var table := GroupByCustomer(Clean(rows));
            && |table| > 0 && ChurnRate(table) != 0.0
            && Derive(table, profit) == Ok(ScoreAll(table, |table|, ChurnRate(table), profit))
            && var s := Derive(table, profit).value;
               && QCut(CltvColumn(s)).Ok?
               && CreateCltvC(rows, profit).value == Attach(s, QCut(CltvColumn(s)).value)
  {
    DeriveFailures(GroupByCustomer(Clean(rows)), profit);
  }

  /** The grouped frame is empty exactly when no line survives cleaning. */
  lemma NoCustomersIffNothingKept(rows: seq<Row>)
    ensures |GroupByCustomer(Clean(rows))| == 0 <==> forall r :: r in rows ==> !Kept(r)
  {
    var lines := Clean(rows);
    GroupByCustomerShape(lines);
    CleanKeepsExactly(rows);
    if exists r :: r in rows && Kept(r) {
      var r :| r in rows && Kept(r);
      assert ToLine(r).customerId in Customers(lines);
    } else {
      CleanIsOneSelection(rows);
      FilterNone(rows, Kept);
      assert lines == [];
    }
  }

  /**
   * The run fails for an empty population exactly when no invoice line is
   * un-cancelled, has a positive quantity and is complete.
   */
  lemma EmptyPopulationIffNothingKept(rows: seq<Row>, profit: real)
    ensures CreateCltvC(rows, profit) == Err(EmptyPopulation) <==> forall r :: r in rows ==> !Kept(r)
  {
    var table := GroupByCustomer(Clean(rows));
    NoCustomersIffNothingKept(rows);
    DeriveFailures(table, profit);
  }

  /**
   * The run fails for a zero churn rate exactly when some line is kept and every
   * customer has more than one distinct invoice.
   */
  lemma ZeroChurnIffEveryoneReturns(rows: seq<Row>, profit: real)
    ensures CreateCltvC(rows, profit) == Err(ZeroChurn) <==>
              && Clean(rows) != []
              && forall c :: c in Customers(Clean(rows)) ==> |Invoices(LinesOf(Clean(rows), c))| > 1
  {
    var lines := Clean(rows);
    var table := GroupByCustomer(lines);
    GroupByCustomerShape(lines);
    DeriveFailures(table, profit);
    if lines != [] {
      assert lines[0].customerId in Customers(lines);
      assert |table| > 0;
    }
    var every := forall c :: c in Customers(lines) ==> |Invoices(LinesOf(lines, c))| > 1;
    var allRows := forall i :: 0 <= i < |table| ==> table[i].totalTransaction > 1;
    if every {
      forall i | 0 <= i < |table|
        ensures table[i].totalTransaction > 1
      {
        assert table[i] == Summarize(lines, table[i].customerId);
      }
    }
    if allRows {
      forall c | c in Customers(lines)
        ensures |Invoices(LinesOf(lines, c))| > 1
      {
        var i :| 0 <= i < |table| && table[i].customerId == c;
        assert table[i] == Summarize(lines, c);
      }
    }
  }

  /** The quartile cut fails exactly when the five edges of the cltv column are not strictly increasing. */
  lemma DuplicateEdgesIff(rows: seq<Row>, profit: real)
    ensures CreateCltvC(rows, profit) == Err(DuplicateBinEdges) <==>
              && Scores(rows, profit).Ok?
              && var e := Edges(SortValues(CltvColumn(Scores(rows, profit).value)));
                 !(e[0] < e[1] < e[2] < e[3] < e[4])
  {
    var s := Scores(rows, profit);
    DeriveFailures(GroupByCustomer(Clean(rows)), profit);
    if s.Ok? {
      QCutSucceedsIffEdgesIncrease(CltvColumn(s.value));
    }
  }

  /** The grouped columns of a successful run are the grouped frame itself. */
  lemma OutputAggregates(rows: seq<Row>, profit: real)
    requires CreateCltvC(rows, profit).Ok?
    ensures AggregatesOf(CreateCltvC(rows, profit).value) == GroupByCustomer(Clean(rows))
  {
    Stages(rows, profit);
  }

  /**
   * A successful run returns one row per customer who kept a line, in ascending
   * customer id order.
   */
  lemma OutputOnePerCustomer(rows: seq<Row>, profit: real)
    requires CreateCltvC(rows, profit).Ok?
    ensures var out, lines := CreateCltvC(rows, profit).value, Clean(rows);
            && |out| == |Customers(lines)| > 0
            && (forall i, j :: 0 <= i < j < |out| ==>
                  out[i].scored.agg.customerId < out[j].scored.agg.customerId)
            && (forall c :: c in Customers(lines) <==>
                  exists i :: 0 <= i < |out| && out[i].scored.agg.customerId == c)
  {
    var lines := Clean(rows);
    var out := CreateCltvC(rows, profit).value;
    OutputAggregates(rows, profit);
    Stages(rows, profit);
    var table := AggregatesOf(out);
    GroupByCustomerShape(lines);
    forall c | c in Customers(lines)
      ensures exists i :: 0 <= i < |out| && out[i].scored.agg.customerId == c
    {
      var i :| 0 <= i < |table| && table[i].customerId == c;
      assert out[i].scored.agg.customerId == c;
    }
  }

  /**
   * Each row of a successful run aggregates exactly its customer's kept lines,
   * with total_unit >= total_transaction >= 1.
   */
  lemma OutputRowsAggregate(rows: seq<Row>, profit: real, i: nat)
    requires CreateCltvC(rows, profit).Ok?
    requires i < |CreateCltvC(rows, profit).value|
    ensures var a, lines := CreateCltvC(rows, profit).value[i].scored.agg, Clean(rows);
            && a.customerId in Customers(lines)
            && a == Summarize(lines, a.customerId)
            && a.totalUnit >= a.totalTransaction >= 1
  {
    var lines := Clean(rows);
    var out := CreateCltvC(rows, profit).value;
    OutputAggregates(rows, profit);
    var table := AggregatesOf(out);
    assert out[i].scored.agg == table[i];
    GroupByCustomerShape(lines);
    UnitsAtLeastTransactions(lines, table[i].customerId);
  }

  /**
   * A successful run scores every customer with the same two population-wide
   * scalars: n, the number of customers, and the churn rate, which is not 0.
   */
  lemma OutputScored(rows: seq<Row>, profit: real)
    requires CreateCltvC(rows, profit).Ok?
    ensures var out, table := CreateCltvC(rows, profit).value, GroupByCustomer(Clean(rows));
            && |out| == |table| > 0 && ChurnRate(table) != 0.0
            && forall i :: 0 <= i < |out| ==>
                 out[i].scored == Score(table[i], |table|, ChurnRate(table), profit)
  {
    Stages(rows, profit);
  }

  /**
   * The money and the units of the kept lines are all accounted for: the
   * total_price column sums to Σ Quantity × Price over the kept lines and
   * total_unit to Σ Quantity.
   */
  lemma OutputConservation(rows: seq<Row>, profit: real)
    requires CreateCltvC(rows, profit).Ok?
    ensures var out := CreateCltvC(rows, profit).value;
            && TotalPriceSum(AggregatesOf(out)) == SumPrice(Clean(rows))
            && TotalUnitSum(AggregatesOf(out)) == SumQuantity(Clean(rows))
  {
    var table := GroupByCustomer(Clean(rows));
    Stages(rows, profit);
    var out := CreateCltvC(rows, profit).value;
    assert AggregatesOf(out) == table;
    Conservation(Clean(rows));
  }

  /** The grouped columns of the returned frame. */
  function AggregatesOf(out: seq<CustomerRow>): (t: seq<Aggregate>)
    ensures |t| == |out| && forall i :: 0 <= i < |out| ==> t[i] == out[i].scored.agg
  {
    seq(|out|, i requires 0 <= i < |out| => out[i].scored.agg)
  }

  /**
   * Segments follow cltv: a customer whose cltv is at least another's never gets
   * an earlier label in the order D < C < B < A; the lowest cltv is labelled D
   * and the highest A.
   */
  lemma SegmentsFollowCltv(rows: seq<Row>, profit: real, i: nat, j: nat)
    requires CreateCltvC(rows, profit).Ok?
    requires i < |CreateCltvC(rows, profit).value| && j < |CreateCltvC(rows, profit).value|
    ensures var out := CreateCltvC(rows, profit).value;
            && (out[i].scored.cltv <= out[j].scored.cltv ==> Rank(out[i].segment) <= Rank(out[j].segment))
            && ((forall m :: 0 <= m < |out| ==> out[i].scored.cltv <= out[m].scored.cltv) ==> out[i].segment == D)
            && ((forall m :: 0 <= m < |out| ==> out[m].scored.cltv <= out[i].scored.cltv) ==> out[i].segment == A)
  {
    var table := GroupByCustomer(Clean(rows));
    Stages(rows, profit);
    var s := Derive(table, profit).value;
    var column := CltvColumn(s);
    var out := CreateCltvC(rows, profit).value;
    if column[i] <= column[j] {
      LabelsMonotone(column, i, j);
    }
    ExtremesLabelled(column, i);
  }

  /** Scaling the profit rate by k > 0 changes no failure into success or another failure. */
  lemma ProfitRescalingKeepsFailure(rows: seq<Row>, profit: real, k: real)
    requires k > 0.0
    ensures CreateCltvC(rows, profit).Err? <==> CreateCltvC(rows, k * profit).Err?
    ensures CreateCltvC(rows, profit).Err? ==> CreateCltvC(rows, k * profit) == CreateCltvC(rows, profit)
  {
    var table := GroupByCustomer(Clean(rows));
    ProfitScaling(table, profit, k);
    DeriveFailures(table, profit);
    if Derive(table, profit).Ok? {
      CutRescaled(table, profit, k);
    }
  }

  /**
   * Scaling the profit rate by k > 0 changes no segment: a successful run
   * returns the same customers, in the same order, with the same labels.
   */
  lemma ProfitRescalingKeepsSegments(rows: seq<Row>, profit: real, k: real)
    requires k > 0.0 && CreateCltvC(rows, profit).Ok?
    ensures CreateCltvC(rows, k * profit).Ok?
    ensures var base, scaled := CreateCltvC(rows, profit).value, CreateCltvC(rows, k * profit).value;
            && |scaled| == |base|
            && forall i :: 0 <= i < |base| ==>
                 && scaled[i].segment == base[i].segment
                 && scaled[i].scored.agg == base[i].scored.agg
  {
    RunRescaled(rows, profit, k);
    ScoredRescaled(GroupByCustomer(Clean(rows)), profit, k);
  }

  /** Both runs attach the same labels to their own scored frames. */
  lemma RunRescaled(rows: seq<Row>, profit: real, k: real)
    requires k > 0.0 && CreateCltvC(rows, profit).Ok?
    ensures Scores(rows, profit).Ok? && Scores(rows, k * profit).Ok?
    ensures var labels := QCut(CltvColumn(Scores(rows, profit).value));
            && labels.Ok?
            && |labels.value| == |Scores(rows, profit).value| == |Scores(rows, k * profit).value|
            && CreateCltvC(rows, profit) == Ok(Attach(Scores(rows, profit).value, labels.value))
            && CreateCltvC(rows, k * profit) == Ok(Attach(Scores(rows, k * profit).value, labels.value))
  {
    var table := GroupByCustomer(Clean(rows));
    DeriveFailures(table, profit);
    CutRescaled(table, profit, k);
    DeriveFailures(table, k * profit);
    StagesSucceed(rows, k * profit);
  }

  /** The scored frame for k × profit, against the one for profit. */
  lemma ScoredRescaled(table: seq<Aggregate>, profit: real, k: real)
    requires Derive(table, profit).Ok?
    ensures Derive(table, k * profit).Ok?
    ensures var s, ks := Derive(table, profit).value, Derive(table, k * profit).value;
            && |s| == |ks| > 0
            && forall i :: 0 <= i < |s| ==>
                 && ks[i].agg == s[i].agg
                 && ks[i].profitMargin == k * s[i].profitMargin
                 && ks[i].cltv == k * s[i].cltv
  {
    ProfitScaling(table, profit, k);
    DeriveFailures(table, profit);
  }

  /** The cut of the cltv column for k × profit, k > 0, is the cut for profit. */
  lemma CutRescaled(table: seq<Aggregate>, profit: real, k: real)
    requires k > 0.0 && Derive(table, profit).Ok?
    ensures Derive(table, k * profit).Ok?
    ensures QCut(CltvColumn(Derive(table, k * profit).value)) == QCut(CltvColumn(Derive(table, profit).value))
  {
    ScoredRescaled(table, profit, k);
    var s, ks := Derive(table, profit).value, Derive(table, k * profit).value;
    var f := Times(k);
    PositiveScaling(k);
    var column, scaled := CltvColumn(s), CltvColumn(ks);
    var mapped := Map(f, column);
    assert |scaled| == |mapped|;
    forall i | 0 <= i < |scaled|
      ensures scaled[i] == mapped[i]
    {
      assert mapped[i] == f(column[i]);
    }
    assert scaled == mapped;
    QCutMapInvariant(f, column);
  }

  /** When both the metric stage and the cut succeed, so does the run. */
  lemma StagesSucceed(rows: seq<Row>, profit: real)
    requires Scores(rows, profit).Ok?
    requires QCut(CltvColumn(Scores(rows, profit).value)).Ok?
    ensures CreateCltvC(rows, profit)
            == Ok(Attach(Scores(rows, profit).value, QCut(CltvColumn(Scores(rows, profit).value)).value))
  {
    DeriveFailures(GroupByCustomer(Clean(rows)), profit);
  }
}
