/**
 * Stage 1 of `create_cltv_c`: dropping cancelled, non-positive and incomplete
 * invoice lines, then adding the line total `TotalPrice = Quantity * Price`.
 */
module Cleaning {
  import opened Wrappers

  /** One invoice line as it comes from the spreadsheet; every cell may be missing. */
  datatype Row = Row(
    invoice: Option<string>,
    stockCode: Option<string>,
    description: Option<string>,
    quantity: Option<int>,
    invoiceDate: Option<string>,
    price: Option<real>,
    customerId: Option<int>,
    country: Option<string>)

  /** A line that survived cleaning: every cell present, plus the derived `TotalPrice`. */
  datatype Line = Line(
    invoice: string,
    stockCode: string,
    description: string,
    quantity: int,
    invoiceDate: string,
    price: real,
    customerId: int,
    country: string,
    totalPrice: real)

  /** Boolean-mask selection of a data frame: keeps the elements satisfying `p`, in order. */
  function Filter<T(!new)>(s: seq<T>, p: T -> bool): (r: seq<T>)
    ensures |r| <= |s|
    ensures forall x :: x in r <==> x in s && p(x)
  {
    if s == [] then []
    else if p(s[0]) then [s[0]] + Filter(s[1..], p)
    else Filter(s[1..], p)
  }

  /** Selection distributes over concatenation: it keeps the input order. */
  lemma {:induction false} FilterAppend<T(!new)>(s: seq<T>, t: seq<T>, p: T -> bool)
    ensures Filter(s + t, p) == Filter(s, p) + Filter(t, p)
  {
    if s == [] {
      assert s + t == t;
    } else {
      assert (s + t)[0] == s[0];
      assert (s + t)[1..] == s[1..] + t;
      FilterAppend(s[1..], t, p);
    }
  }

  /** A selection that no element passes is empty. */
  lemma {:induction false} FilterNone<T(!new)>(s: seq<T>, p: T -> bool)
    requires forall x :: x in s ==> !p(x)
    ensures Filter(s, p) == []
  {
    if s != [] {
      FilterNone(s[1..], p);
    }
  }

  /**
   * `~Invoice.str.contains('C', na=False)`: the invoice text holds no 'C' at any
   * position (case-sensitive); a missing invoice is kept here.
   */
  predicate NotCancelled(r: Row) {
    r.invoice.None? || 'C' !in r.invoice.value
  }

  /** `Quantity > 0`; a missing quantity compares false and is dropped. */
  predicate PositiveQuantity(r: Row) {
    r.quantity.Some? && r.quantity.value > 0
  }

  /** `dropna()`: a row survives only when none of its cells is missing. */
  predicate Complete(r: Row) {
    && r.invoice.Some? && r.stockCode.Some? && r.description.Some?
    && r.quantity.Some? && r.invoiceDate.Some? && r.price.Some?
    && r.customerId.Some? && r.country.Some?
  }

  /** The three cleaning conditions taken together. */
  predicate Kept(r: Row) {
    NotCancelled(r) && PositiveQuantity(r) && Complete(r)
  }

  /** A complete row with its `TotalPrice` column added. */
  function ToLine(r: Row): (l: Line)
    requires Complete(r)
  {
    Line(r.invoice.value, r.stockCode.value, r.description.value, r.quantity.value,
         r.invoiceDate.value, r.price.value, r.customerId.value, r.country.value,
         (r.quantity.value as real) * r.price.value)
  }

  /** `dataframe["TotalPrice"] = dataframe["Quantity"] * dataframe["Price"]`, row by row. */
  function WithTotalPrice(rows: seq<Row>): (lines: seq<Line>)
    requires forall r :: r in rows ==> Complete(r)
    ensures |lines| == |rows|
    ensures forall i :: 0 <= i < |rows| ==> lines[i] == ToLine(rows[i])
  {
    seq(|rows|, i requires 0 <= i < |rows| => ToLine(rows[i]))
  }

  /** The cleaning stage as `create_cltv_c` runs it: three selections, then the new column. */
  function Clean(rows: seq<Row>): (lines: seq<Line>)
    ensures |lines| <= |rows|
    ensures forall l :: l in lines ==>
              && 'C' !in l.invoice
              && l.quantity > 0
              && l.totalPrice == (l.quantity as real) * l.price
  {
    var notCancelled := Filter(rows, NotCancelled);
    var positive := Filter(notCancelled, PositiveQuantity);
    var complete := Filter(positive, Complete);
    SelectedRowsAreKept(rows);
    KeptRowsMakeCleanLines(complete);
    WithTotalPrice(complete)
  }

  /** A kept row yields a line with no 'C' in its invoice, a positive quantity and its line total. */
  lemma LineOfKeptRow(r: Row)
    requires Kept(r)
    ensures var l := ToLine(r);
            && 'C' !in l.invoice
            && l.quantity > 0
            && l.totalPrice == (l.quantity as real) * l.price
  {
  }

  /** The rows that survive the three selections pass all three tests. */
  lemma SelectedRowsAreKept(rows: seq<Row>)
    ensures forall r :: r in Filter(Filter(Filter(rows, NotCancelled), PositiveQuantity), Complete) ==> Kept(r)
  {
    var notCancelled := Filter(rows, NotCancelled);
    var positive := Filter(notCancelled, PositiveQuantity);
    forall r | r in Filter(positive, Complete)
      ensures Kept(r)
    {
      assert r in positive && Complete(r);
      assert r in notCancelled && PositiveQuantity(r);
    }
  }

  /** Kept rows yield lines with no 'C' in the invoice, a positive quantity and their line total. */
  lemma KeptRowsMakeCleanLines(kept: seq<Row>)
    requires forall r :: r in kept ==> Complete(r) && Kept(r)
    ensures forall l :: l in WithTotalPrice(kept) ==>
              && 'C' !in l.invoice
              && l.quantity > 0
              && l.totalPrice == (l.quantity as real) * l.price
  {
    var lines := WithTotalPrice(kept);
    forall l | l in lines
      ensures 'C' !in l.invoice && l.quantity > 0 && l.totalPrice == (l.quantity as real) * l.price
    {
      var i :| 0 <= i < |lines| && lines[i] == l;
      assert kept[i] in kept;
      LineOfKeptRow(kept[i]);
    }
  }

  /** The three successive selections keep exactly the rows that pass all three tests. */
  lemma {:induction false} StagesAreOneSelection(rows: seq<Row>)
    ensures Filter(Filter(Filter(rows, NotCancelled), PositiveQuantity), Complete)
            == Filter(rows, Kept)
  {
    if rows != [] {
      StagesAreOneSelection(rows[1..]);
      var a := Filter(rows[1..], NotCancelled);
      if NotCancelled(rows[0]) {
        assert ([rows[0]] + a)[1..] == a;
        var b := Filter(a, PositiveQuantity);
        if PositiveQuantity(rows[0]) {
          assert ([rows[0]] + b)[1..] == b;
        }
      }
    }
  }

  /** Cleaning is the one-pass selection by `Kept`, followed by the new column. */
  lemma CleanIsOneSelection(rows: seq<Row>)
    ensures Clean(rows) == WithTotalPrice(Filter(rows, Kept))
  {
    StagesAreOneSelection(rows);
  }

  /** A row is kept exactly when it passes all three tests. */
  lemma CleanKeepsExactly(rows: seq<Row>)
    ensures forall r :: r in rows && Kept(r) ==> ToLine(r) in Clean(rows)
    ensures forall l :: l in Clean(rows) ==> exists r :: r in rows && Kept(r) && l == ToLine(r)
  {
    CleanIsOneSelection(rows);
    var kept := Filter(rows, Kept);
    forall r | r in rows && Kept(r)
      ensures ToLine(r) in Clean(rows)
    {
      var i :| 0 <= i < |kept| && kept[i] == r;
      assert Clean(rows)[i] == ToLine(r);
    }
    forall l | l in Clean(rows)
      ensures exists r :: r in rows && Kept(r) && l == ToLine(r)
    {
      var i :| 0 <= i < |Clean(rows)| && Clean(rows)[i] == l;
      assert kept[i] in kept;
    }
  }

  /** Cleaning works line by line and keeps the input order. */
  lemma CleanAppend(a: seq<Row>, b: seq<Row>)
    ensures Clean(a + b) == Clean(a) + Clean(b)
  {
    CleanIsOneSelection(a);
    CleanIsOneSelection(b);
    CleanIsOneSelection(a + b);
    FilterAppend(a, b, Kept);
    var ka, kb := Filter(a, Kept), Filter(b, Kept);
    var whole, left, right := WithTotalPrice(ka + kb), WithTotalPrice(ka), WithTotalPrice(kb);
    assert |whole| == |left + right|;
    forall i | 0 <= i < |whole|
      ensures whole[i] == (left + right)[i]
    {
      if i < |ka| {
        assert (ka + kb)[i] == ka[i];
      } else {
        assert (ka + kb)[i] == kb[i - |ka|];
      }
    }
  }

  /** A table in which no line has a positive quantity cleans to nothing. */
  lemma CleanWithoutPositiveQuantity(rows: seq<Row>)
    requires forall r :: r in rows ==> r.quantity.None? || r.quantity.value <= 0
    ensures Clean(rows) == []
  {
    CleanIsOneSelection(rows);
    FilterNone(rows, Kept);
  }
}
