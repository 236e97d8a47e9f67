/**
 * Stage 3 of `create_cltv_c`: the population-wide scalars (customer count,
 * repeat rate, churn rate) and then the per-customer columns avg_order_value,
 * purchase_frequency, profit_margin, customer_value and cltv.
 */
module Metrics {
  import opened Wrappers
  import opened Aggregation

  /** A row of `cltv_c` once every derived column has been added. */
  datatype Scored = Scored(
    agg: Aggregate,
    avgOrderValue: real,
    purchaseFrequency: real,
    profitMargin: real,
    customerValue: real,
    cltv: real)

  /** Number of customers with more than one distinct invoice. */
  function RepeatCount(t: seq<Aggregate>): (k: nat)
    ensures k <= |t|
  {
    if t == [] then 0 else (if t[0].totalTransaction > 1 then 1 else 0) + RepeatCount(t[1..])
  }

  /** Number of customers with exactly one distinct invoice. */
  function OneTimeCount(t: seq<Aggregate>): nat {
    if t == [] then 0 else (if t[0].totalTransaction == 1 then 1 else 0) + OneTimeCount(t[1..])
  }

  /** `cltv_c[cltv_c.total_transaction > 1].shape[0] / cltv_c.shape[0]`. */
  function RepeatRate(t: seq<Aggregate>): real
    requires |t| > 0
  {
    RepeatCount(t) as real / |t| as real
  }

  /** `1 - repeat_rate`. */
  function ChurnRate(t: seq<Aggregate>): real
    requires |t| > 0
  {
    1.0 - RepeatRate(t)
  }

  /** The per-customer columns, in the order `create_cltv_c` adds them. */
  function Score(a: Aggregate, n: nat, churn: real, profit: real): (s: Scored)
    requires n > 0 && churn != 0.0
  {
    var avgOrderValue := a.totalPrice / a.totalTransaction as real;
    var purchaseFrequency := a.totalTransaction as real / n as real;
    var profitMargin := a.totalPrice * profit;
    var customerValue := avgOrderValue * purchaseFrequency;
    var cltv := (customerValue / churn) * profitMargin;
    Scored(a, avgOrderValue, purchaseFrequency, profitMargin, customerValue, cltv)
  }

  /** Every row scored with the same population-wide scalars. */
  function ScoreAll(t: seq<Aggregate>, n: nat, churn: real, profit: real): (s: seq<Scored>)
    requires n > 0 && churn != 0.0
    ensures |s| == |t|
    ensures forall i :: 0 <= i < |t| ==> s[i] == Score(t[i], n, churn, profit)
  {
    if t == [] then [] else [Score(t[0], n, churn, profit)] + ScoreAll(t[1..], n, churn, profit)
  }

  /**
   * Two passes: first the scalars over the whole frame, then every row. An empty
   * frame stops at the repeat rate (the true division 0 / 0 of two Python integers
   * raises ZeroDivisionError); a churn rate of 0 stops at
   * the CLTV division.
   */
  function Derive(t: seq<Aggregate>, profit: real): (r: Result<seq<Scored>, Failure>)
  {
    if |t| == 0 then Err(EmptyPopulation)
    else
      var churn := ChurnRate(t);
      if churn == 0.0 then Err(ZeroChurn)
      else Ok(ScoreAll(t, |t|, churn, profit))
  }

  /** Every customer is either a repeat or a one-time customer. */
  lemma {:induction false} CountsPartition(t: seq<Aggregate>)
    ensures RepeatCount(t) + OneTimeCount(t) == |t|
  {
    if t != [] {
      CountsPartition(t[1..]);
    }
  }

  /** Everyone is a repeat customer exactly when the repeat count is the whole frame. */
  lemma {:induction false} AllRepeat(t: seq<Aggregate>)
    ensures RepeatCount(t) == |t| <==> forall i :: 0 <= i < |t| ==> t[i].totalTransaction > 1
  {
    if t != [] {
      AllRepeat(t[1..]);
      assert forall i :: 1 <= i < |t| ==> t[i] == t[1..][i - 1];
    }
  }

  /** Both rates are proportions. */
  lemma RatesAreProportions(t: seq<Aggregate>)
    requires |t| > 0
    ensures 0.0 <= RepeatRate(t) <= 1.0
    ensures 0.0 <= ChurnRate(t) <= 1.0
  {
    var n := |t| as real;
    assert RepeatCount(t) as real <= n;
    assert RepeatRate(t) * n == RepeatCount(t) as real;
  }

  /**
   * Since every customer has at least one invoice, the churn rate is the share of
   * customers who bought exactly once.
   */
  lemma ChurnIsOneTimeShare(t: seq<Aggregate>)
    requires |t| > 0
    ensures ChurnRate(t) == OneTimeCount(t) as real / |t| as real
  {
    CountsPartition(t);
    assert RepeatCount(t) as real + OneTimeCount(t) as real == |t| as real;
    Complement(|t| as real, RepeatCount(t) as real);
  }

  /** 1 - a / n == (n - a) / n. */
  lemma Complement(n: real, a: real)
    requires n > 0.0
    ensures 1.0 - a / n == (n - a) / n
  {
    var q, r := a / n, (n - a) / n;
    assert q * n == a && r * n == n - a;
    var d := 1.0 - q - r;
    assert d * n == 0.0;
    assert d == 0.0;
  }

  /** The churn rate is 0 exactly when every customer bought more than once. */
  lemma ZeroChurnIffAllRepeat(t: seq<Aggregate>)
    requires |t| > 0
    ensures ChurnRate(t) == 0.0 <==> forall i :: 0 <= i < |t| ==> t[i].totalTransaction > 1
  {
    AllRepeat(t);
    var n := |t| as real;
    assert RepeatRate(t) * n == RepeatCount(t) as real;
  }

  /** The two ways the metric stage fails, and nothing else. */
  lemma DeriveFailures(t: seq<Aggregate>, profit: real)
    ensures Derive(t, profit) == Err(EmptyPopulation) <==> |t| == 0
    ensures Derive(t, profit) == Err(ZeroChurn) <==>
              |t| > 0 && forall i :: 0 <= i < |t| ==> t[i].totalTransaction > 1
    ensures Derive(t, profit).Ok? <==> |t| > 0 && exists i :: 0 <= i < |t| && t[i].totalTransaction == 1
    ensures Derive(t, profit).Ok? ==> |Derive(t, profit).value| == |t| > 0
  {
    if |t| > 0 {
      ZeroChurnIffAllRepeat(t);
    }
  }

  /** customer_value = avg_order_value × purchase_frequency simplifies to total_price / n. */
  lemma CustomerValueIsRevenueShare(a: Aggregate, n: nat, churn: real, profit: real)
    requires n > 0 && churn != 0.0
    ensures Score(a, n, churn, profit).customerValue == a.totalPrice / n as real
  {
    var p, tx, m := a.totalPrice, a.totalTransaction as real, n as real;
    calc {
      (p / tx) * (tx / m);
      (p * tx) / (tx * m);
      p / m;
    }
  }

  /** cltv = total_price² × profit / (n × churn_rate). */
  lemma CltvClosedForm(a: Aggregate, n: nat, churn: real, profit: real)
    requires n > 0 && churn != 0.0
    ensures Score(a, n, churn, profit).cltv
            == a.totalPrice * a.totalPrice * profit / (n as real * churn)
  {
    CustomerValueIsRevenueShare(a, n, churn, profit);
    var p, m := a.totalPrice, n as real;
    calc {
      ((p / m) / churn) * (p * profit);
      (p / (m * churn)) * (p * profit);
      p * p * profit / (m * churn);
    }
  }

  /** With a non-negative profit rate and a churn rate in (0, 1], cltv is never negative. */
  lemma CltvNonNegative(t: seq<Aggregate>, profit: real)
    requires profit >= 0.0 && Derive(t, profit).Ok?
    ensures forall i :: 0 <= i < |t| ==> Derive(t, profit).value[i].cltv >= 0.0
  {
    RatesAreProportions(t);
    var churn := ChurnRate(t);
    forall i | 0 <= i < |t|
      ensures Derive(t, profit).value[i].cltv >= 0.0
    {
      CltvClosedForm(t[i], |t|, churn, profit);
      var p := t[i].totalPrice;
      assert p * p >= 0.0;
      assert p * p * profit >= 0.0;
      assert |t| as real * churn > 0.0;
    }
  }

  /** Σ purchase_frequency over a scored frame. */
  function FrequencySum(s: seq<Scored>): real {
    if s == [] then 0.0 else s[0].purchaseFrequency + FrequencySum(s[1..])
  }

  /** Σ total_transaction over a grouped frame. */
  function TransactionSum(t: seq<Aggregate>): int {
    if t == [] then 0 else t[0].totalTransaction + TransactionSum(t[1..])
  }

  lemma {:induction false} FrequencySumOfScoreAll(t: seq<Aggregate>, n: nat, churn: real, profit: real)
    requires n > 0 && churn != 0.0
    ensures FrequencySum(ScoreAll(t, n, churn, profit)) == TransactionSum(t) as real / n as real
  {
    if t != [] {
      FrequencySumOfScoreAll(t[1..], n, churn, profit);
      var m := n as real;
      var x, y := t[0].totalTransaction as real, TransactionSum(t[1..]) as real;
      assert x / m + y / m == (x + y) / m;
    }
  }

  /** Each customer has at least one invoice, so the transactions add up to at least n. */
  lemma {:induction false} TransactionSumBound(t: seq<Aggregate>)
    ensures TransactionSum(t) >= |t|
    ensures TransactionSum(t) == |t| <==> forall i :: 0 <= i < |t| ==> t[i].totalTransaction == 1
  {
    if t != [] {
      TransactionSumBound(t[1..]);
      assert forall i :: 1 <= i < |t| ==> t[i] == t[1..][i - 1];
    }
  }

  /**
   * purchase_frequency divides by the number of customers, not the number of
   * transactions, so it sums to the mean number of transactions per customer.
   */
  lemma PurchaseFrequencySum(t: seq<Aggregate>, profit: real)
    requires Derive(t, profit).Ok?
    ensures FrequencySum(Derive(t, profit).value) == TransactionSum(t) as real / |t| as real
  {
    FrequencySumOfScoreAll(t, |t|, ChurnRate(t), profit);
  }

  /** The purchase frequencies sum to at least 1, and to exactly 1 only when everyone bought once. */
  lemma PurchaseFrequencySumAtLeastOne(t: seq<Aggregate>, profit: real)
    requires Derive(t, profit).Ok?
    ensures FrequencySum(Derive(t, profit).value) >= 1.0
    ensures FrequencySum(Derive(t, profit).value) == 1.0 <==>
              forall i :: 0 <= i < |t| ==> t[i].totalTransaction == 1
  {
    PurchaseFrequencySum(t, profit);
    TransactionSumBound(t);
    MeanAtLeastOne(TransactionSum(t) as real, |t| as real);
  }

  /** A total of at least n, divided by n, is at least 1, and exactly 1 only for a total of n. */
  lemma MeanAtLeastOne(x: real, n: real)
    requires n > 0.0 && x >= n
    ensures x / n >= 1.0
    ensures x / n == 1.0 <==> x == n
  {
    var q := x / n;
    assert q * n == x;
    assert (q - 1.0) * n == x - n;
    if x == n {
      assert (q - 1.0) * n == 0.0;
    }
  }

  /** One row scored with k × profit, against the same row scored with profit. */
  lemma ScoreRescaled(a: Aggregate, n: nat, churn: real, profit: real, k: real)
    requires n > 0 && churn != 0.0
    ensures Score(a, n, churn, k * profit).profitMargin == k * Score(a, n, churn, profit).profitMargin
    ensures Score(a, n, churn, k * profit).cltv == k * Score(a, n, churn, profit).cltv
    ensures var base, scaled := Score(a, n, churn, profit), Score(a, n, churn, k * profit);
            && scaled.agg == base.agg
            && scaled.avgOrderValue == base.avgOrderValue
            && scaled.purchaseFrequency == base.purchaseFrequency
            && scaled.customerValue == base.customerValue
  {
    var p, cv := a.totalPrice, Score(a, n, churn, profit).customerValue;
    assert p * (k * profit) == k * (p * profit);
    var c := cv / churn;
    assert c * (k * (p * profit)) == k * (c * (p * profit));
  }

  /**
   * Scaling the profit rate by k scales every profit_margin and cltv by k and
   * leaves every other column, and whether the stage fails, unchanged.
   */
  lemma ProfitScaling(t: seq<Aggregate>, profit: real, k: real)
    ensures Derive(t, k * profit).Err? ==> Derive(t, k * profit) == Derive(t, profit)
    ensures Derive(t, profit).Err? ==> Derive(t, k * profit) == Derive(t, profit)
    ensures Derive(t, profit).Ok? ==>
              var base, scaled := Derive(t, profit).value, Derive(t, k * profit).value;
              && |scaled| == |base|
              && forall i :: 0 <= i < |base| ==>
                   && scaled[i].profitMargin == k * base[i].profitMargin
                   && scaled[i].cltv == k * base[i].cltv
                   && scaled[i].agg == base[i].agg
                   && scaled[i].avgOrderValue == base[i].avgOrderValue
                   && scaled[i].purchaseFrequency == base[i].purchaseFrequency
                   && scaled[i].customerValue == base[i].customerValue
  {
    if Derive(t, profit).Ok? {
      var base, scaled := Derive(t, profit).value, Derive(t, k * profit).value;
      var churn := ChurnRate(t);
      forall i | 0 <= i < |base|
        ensures scaled[i].profitMargin == k * base[i].profitMargin
        ensures scaled[i].cltv == k * base[i].cltv
        ensures scaled[i].agg == base[i].agg
        ensures scaled[i].avgOrderValue == base[i].avgOrderValue
        ensures scaled[i].purchaseFrequency == base[i].purchaseFrequency
        ensures scaled[i].customerValue == base[i].customerValue
      {
        ScoreRescaled(t[i], |t|, churn, profit, k);
      }
    }
  }
}
