# CLTV scoring (`create_cltv_c`) in Dafny

A model of `create_cltv_c(dataframe, profit=0.10)` from `CLTV_konu_tekrar.py`.
The function takes a table of retail invoice lines, computes a customer-lifetime
value (cltv) for every customer, and labels the customers with the quartile
segments D, C, B and A. The model is pure: each pandas stage is a function over
sequences of records. Lemmas state what each stage guarantees and how the stages
compose.

| module | file | stage |
|---|---|---|
| `Wrappers` | `wrappers.dfy` | `Option`, `Result` and the three ways a run can fail |
| `Cleaning` | `cleaning.dfy` | drop cancelled, non-positive and incomplete lines; add `TotalPrice` |
| `Aggregation` | `aggregation.dfy` | `groupby('Customer ID')`: distinct invoices, unit sum and price sum per customer, keys ascending |
| `Metrics` | `metrics.dfy` | customer count, repeat and churn rates; avg_order_value, purchase_frequency, profit_margin, customer_value, cltv |
| `Segmentation` | `segmentation.dfy` | `pd.qcut(cltv, 4, labels=[D, C, B, A])`: interpolated quartile edges, right-closed bins, lowest edge included, duplicate edges rejected |
| `Cltv` | `pipeline.dfy` | the four stages chained (`CreateCltvC`) and end-to-end properties |

A run either returns one `CustomerRow` per customer or fails in one of three ways:

- `EmptyPopulation`: no line survives cleaning. The repeat rate is then the
  true division `0 / 0` of two Python integers, which raises ZeroDivisionError.
- `ZeroChurn`: every customer has more than one distinct invoice. The churn rate
  is then 0.0, and the division at line 161 makes every cltv +inf, -inf or NaN.
  Five quartile edges drawn from those values cannot all differ, so `qcut` at
  line 163 raises the same "bin edges must be unique" ValueError as for
  `DuplicateBinEdges`. The source does not tell the two failures apart; the
  model reports this one a stage earlier, under its own name.
- `DuplicateBinEdges`: two quartile edges coincide, which `qcut` rejects.

Some behaviour of the code differs from what its comments and its usual
description suggest. The model follows the code:

- The cancellation filter drops an invoice containing `'C'` anywhere in its text.
  It is not a prefix test, although the comments at lines 25 and 50 say that cancelled invoices start with C.
  An invoice that is missing passes this filter and is dropped by `dropna`.
- `purchase_frequency` divides by the number of customers, not by the number of
  invoices. The column therefore sums to the mean number of invoices per
  customer. That mean is at least 1, and exactly 1 only when everyone bought
  once (`Metrics.PurchaseFrequencySumAtLeastOne`).
- `qcut` has no minimum number of customers. It fails exactly when two of the
  five interpolated edges coincide (`Cltv.DuplicateEdgesIff`).

## Model

| member | source | states |
|---|---|---|
| Cleaning.Filter | CLTV_konu_tekrar.py:141-142 | a boolean-mask selection keeps exactly the elements that pass the test, and never more elements than the input |
| Cleaning.FilterAppend | CLTV_konu_tekrar.py:141-142 | selection distributes over concatenation, so kept rows stay in input order |
| Cleaning.Clean | CLTV_konu_tekrar.py:141-144 | every surviving line has no 'C' in its invoice, a positive quantity and TotalPrice = Quantity × Price; no line is added |
| Cleaning.LineOfKeptRow | CLTV_konu_tekrar.py:141-144 | a row that passes the three tests becomes a line with no 'C', a positive quantity and its line total |
| Cleaning.SelectedRowsAreKept | CLTV_konu_tekrar.py:141-143 | every row surviving the three successive selections passes all three tests |
| Cleaning.KeptRowsMakeCleanLines | CLTV_konu_tekrar.py:143-144 | adding TotalPrice to rows that pass all tests yields only clean lines |
| Cleaning.StagesAreOneSelection | CLTV_konu_tekrar.py:141-143 | the three successive selections equal one selection by the conjunction of the three tests |
| Cleaning.CleanIsOneSelection | CLTV_konu_tekrar.py:141-144 | cleaning is the one-pass selection of kept rows followed by the TotalPrice column |
| Cleaning.CleanKeepsExactly | CLTV_konu_tekrar.py:141-144 | a row is kept if and only if it passes all three tests: every kept row's line appears in the result, and every result line comes from a kept row |
| Cleaning.CleanAppend | CLTV_konu_tekrar.py:141-144 | cleaning works line by line and keeps order: cleaning a + b is cleaning a followed by cleaning b |
| Cleaning.CleanWithoutPositiveQuantity | CLTV_konu_tekrar.py:142 | a table with no positive quantity cleans to nothing |
| Aggregation.LinesOf | CLTV_konu_tekrar.py:145 | a group holds exactly the lines with that customer id |
| Aggregation.CustomerHasInvoice | CLTV_konu_tekrar.py:145-146 | a customer owning a line has at least one distinct invoice |
| Aggregation.InvoicesAtMostLines | CLTV_konu_tekrar.py:145 | distinct invoices (`nunique`) never outnumber the lines |
| Aggregation.TransactionsAreDistinctInvoices | CLTV_konu_tekrar.py:145-148 | total_transaction is the number of distinct invoices of the customer's lines, and 1 ≤ total_transaction ≤ the customer's line count |
| Aggregation.UnitsAtLeastLines | CLTV_konu_tekrar.py:146 | with every quantity positive, the unit sum is at least the line count |
| Aggregation.UnitsAtLeastTransactions | CLTV_konu_tekrar.py:145-148 | after cleaning, total_unit ≥ total_transaction ≥ 1 for every customer |
| Aggregation.InsertId | CLTV_konu_tekrar.py:145 | adding a key to ascending keys keeps them ascending and adds exactly that key |
| Aggregation.CustomerIds | CLTV_konu_tekrar.py:145 | the group keys are ascending, without repeats, and are exactly the customer ids present |
| Aggregation.AscendingCard | CLTV_konu_tekrar.py:145 | strictly ascending keys are as many as their distinct values |
| Aggregation.Table | CLTV_konu_tekrar.py:145-148 | row i of the table is the aggregate of the i-th key |
| Aggregation.GroupByCustomerKeys | CLTV_konu_tekrar.py:145-148 | the grouped frame has one row per distinct customer, in ascending id order, and an id appears exactly when the customer owns a line |
| Aggregation.GroupByCustomerRows | CLTV_konu_tekrar.py:145-148 | each grouped row belongs to a present customer and aggregates exactly that customer's lines |
| Aggregation.GroupByCustomerShape | CLTV_konu_tekrar.py:145-148 | the two facts above together: one ascending row per customer, each aggregating exactly its lines |
| Aggregation.TableSums | CLTV_konu_tekrar.py:146-147 | summing a table's columns equals summing each key's own lines |
| Aggregation.LinesOfCons | CLTV_konu_tekrar.py:145 | putting a line in front adds it to its own customer's group only |
| Aggregation.ByIdsCons | CLTV_konu_tekrar.py:146-147 | putting a line in front adds its price and quantity to exactly one key's sums |
| Aggregation.ByIdsCover | CLTV_konu_tekrar.py:146-147 | per-key sums over keys covering every line add up to the sums over all lines |
| Aggregation.Conservation | CLTV_konu_tekrar.py:144-147 | Σ total_price over customers equals Σ TotalPrice over lines, and Σ total_unit equals Σ Quantity |
| Metrics.RepeatCount | CLTV_konu_tekrar.py:154 | the number of repeat customers never exceeds the customer count |
| Metrics.ScoreAll | CLTV_konu_tekrar.py:150-161 | every row is scored with the same two population-wide scalars, and the row order is kept |
| Metrics.CountsPartition | CLTV_konu_tekrar.py:154-155 | every customer is either a repeat customer or a one-time customer, never both |
| Metrics.AllRepeat | CLTV_konu_tekrar.py:154 | the repeat count is the whole frame exactly when every customer has more than one invoice |
| Metrics.RatesAreProportions | CLTV_konu_tekrar.py:154-155 | repeat_rate and churn_rate both lie in [0, 1] |
| Metrics.ChurnIsOneTimeShare | CLTV_konu_tekrar.py:154-155 | churn_rate equals the share of customers with exactly one invoice |
| Metrics.ZeroChurnIffAllRepeat | CLTV_konu_tekrar.py:154-155 | churn_rate is 0 if and only if every customer has more than one invoice |
| Metrics.DeriveFailures | CLTV_konu_tekrar.py:150-161 | the metric stage fails on an empty frame (the 0 / 0 at line 154) and on a zero churn rate, and in no other case: it succeeds exactly when the frame is non-empty and some customer bought once, and then returns one row per customer |
| Metrics.CustomerValueIsRevenueShare | CLTV_konu_tekrar.py:150-159 | customer_value = avg_order_value × purchase_frequency simplifies to total_price / n, whatever the invoice count |
| Metrics.CltvClosedForm | CLTV_konu_tekrar.py:157-161 | cltv = total_price² × profit / (n × churn_rate) |
| Metrics.CltvNonNegative | CLTV_konu_tekrar.py:157-161 | with profit ≥ 0, every cltv is non-negative |
| Metrics.FrequencySumOfScoreAll | CLTV_konu_tekrar.py:152 | the purchase_frequency column sums to Σ total_transaction / n |
| Metrics.TransactionSumBound | CLTV_konu_tekrar.py:145 | the transactions add up to at least n, and to exactly n only when everyone bought once |
| Metrics.PurchaseFrequencySum | CLTV_konu_tekrar.py:152 | on a successful stage, Σ purchase_frequency = Σ total_transaction / n |
| Metrics.PurchaseFrequencySumAtLeastOne | CLTV_konu_tekrar.py:152 | Σ purchase_frequency ≥ 1, with equality if and only if every customer bought once |
| Metrics.ScoreRescaled | CLTV_konu_tekrar.py:150-161 | scoring one row with k × profit scales profit_margin and cltv by k and leaves every other column unchanged |
| Metrics.ProfitScaling | CLTV_konu_tekrar.py:150-161 | scaling profit by k scales every profit_margin and cltv by k, changes no other column, and does not change whether or how the stage fails |
| Segmentation.InsertCounts | CLTV_konu_tekrar.py:163 | inserting adds exactly one copy of the value |
| Segmentation.InsertAbove | CLTV_konu_tekrar.py:163 | a lower bound of the value and of the sequence bounds the result of inserting |
| Segmentation.InsertSorted | CLTV_konu_tekrar.py:163 | inserting into sorted values keeps them sorted and adds exactly the one value |
| Segmentation.SortValuesSorted | CLTV_konu_tekrar.py:163 | sorting returns a sorted permutation of the cltv column |
| Segmentation.WithinSorted | CLTV_konu_tekrar.py:163 | every value lies between the minimum and the maximum of its sorted copy |
| Segmentation.OuterEdges | CLTV_konu_tekrar.py:163 | the 0 % and 100 % edges are the minimum and the maximum value |
| Segmentation.BinInRange | CLTV_konu_tekrar.py:163 | a value between the outer edges falls in bin 1 to 4, with the lowest edge in bin 1 |
| Segmentation.ColumnInRange | CLTV_konu_tekrar.py:163 | every value of the column falls in one of the four bins of its own edges |
| Segmentation.QCut | CLTV_konu_tekrar.py:163 | on success, one label is returned per value |
| Segmentation.QCutLabels | CLTV_konu_tekrar.py:163 | on success, each value lies in bin 1 to 4 and carries that bin's label |
| Segmentation.QuantileStep | CLTV_konu_tekrar.py:163 | consecutive quartiles of sorted values do not decrease |
| Segmentation.QuantileBounds | CLTV_konu_tekrar.py:163 | an interpolated quartile lies between the two sorted values around its position |
| Segmentation.InterpolatedBetween | CLTV_konu_tekrar.py:163 | interpolating a quarter step between neighbouring sorted values stays between them |
| Segmentation.EdgesOrdered | CLTV_konu_tekrar.py:163 | the five edges run from the minimum to the maximum without decreasing |
| Segmentation.DistinctIffIncreasing | CLTV_konu_tekrar.py:163 | non-decreasing edges have no duplicate if and only if they strictly increase |
| Segmentation.QCutSucceedsIffEdgesIncrease | CLTV_konu_tekrar.py:163 | the cut succeeds if and only if the five edges strictly increase |
| Segmentation.BinIndexMonotone | CLTV_konu_tekrar.py:163 | a larger value never falls in a lower bin |
| Segmentation.LabelsMonotone | CLTV_konu_tekrar.py:163 | labels are monotone in cltv: a value at least another's never gets an earlier label in D < C < B < A |
| Segmentation.ExtremesLabelled | CLTV_konu_tekrar.py:163 | the minimum value is labelled D and the maximum is labelled A |
| Segmentation.ConstantColumnFails | CLTV_konu_tekrar.py:163 | a column with a single distinct value always fails with duplicate edges |
| Segmentation.FourDistinctValues | CLTV_konu_tekrar.py:163 | cltv values 10, 20, 30, 40 are labelled D, C, B, A |
| Segmentation.InsertMapped | CLTV_konu_tekrar.py:163 | an increasing map commutes with sorted insertion |
| Segmentation.SortMapped | CLTV_konu_tekrar.py:163 | an increasing map commutes with sorting |
| Segmentation.QuantileMapped | CLTV_konu_tekrar.py:163 | an affine map commutes with each interpolated quartile |
| Segmentation.EdgesMapped | CLTV_konu_tekrar.py:163 | the edges of mapped sorted values are the mapped edges |
| Segmentation.DuplicatesMapped | CLTV_konu_tekrar.py:163 | an increasing map neither creates nor removes coinciding edges |
| Segmentation.BinIndexMapped | CLTV_konu_tekrar.py:163 | an increasing map keeps every value in its bin |
| Segmentation.SortedEdgesMapped | CLTV_konu_tekrar.py:163 | the edges of a mapped column are the mapped edges of the column |
| Segmentation.LabelsMapped | CLTV_konu_tekrar.py:163 | mapped values against mapped edges get the same bins and the same labels |
| Segmentation.QCutMapInvariant | CLTV_konu_tekrar.py:163 | an increasing affine map of the cltv column gives the same labels, or the same failure |
| Segmentation.PositiveScaling | CLTV_konu_tekrar.py:157-161 | multiplication by k > 0 is increasing and commutes with interpolation |
| Cltv.Stages | CLTV_konu_tekrar.py:138-165 | a successful run has customers and a non-zero churn rate, scores every customer with them, and attaches the successful cut of the cltv column |
| Cltv.StagesSucceed | CLTV_konu_tekrar.py:138-165 | when the metric stage and the cut succeed, the run returns the scored rows with their labels |
| Cltv.NoCustomersIffNothingKept | CLTV_konu_tekrar.py:141-148 | the grouped frame is empty if and only if no row passes all three cleaning tests |
| Cltv.EmptyPopulationIffNothingKept | CLTV_konu_tekrar.py:141-154 | the run fails at the 0 / 0 repeat rate if and only if no row passes all three cleaning tests |
| Cltv.ZeroChurnIffEveryoneReturns | CLTV_konu_tekrar.py:141-161 | the run fails for a zero churn rate if and only if some line is kept and every customer has more than one distinct invoice |
| Cltv.DuplicateEdgesIff | CLTV_konu_tekrar.py:138-165 | the run fails at qcut if and only if scoring succeeds and the five cltv edges are not strictly increasing |
| Cltv.OutputAggregates | CLTV_konu_tekrar.py:145-165 | the grouped columns of a successful run are the grouped frame of the cleaned lines |
| Cltv.OutputOnePerCustomer | CLTV_konu_tekrar.py:138-165 | a successful run returns one row per customer who kept a line, at least one, in ascending customer id order |
| Cltv.OutputRowsAggregate | CLTV_konu_tekrar.py:141-148 | each output row aggregates exactly its customer's kept lines, with total_unit ≥ total_transaction ≥ 1 |
| Cltv.OutputScored | CLTV_konu_tekrar.py:150-161 | every output row is scored with the same customer count and the same non-zero churn rate |
| Cltv.OutputConservation | CLTV_konu_tekrar.py:144-148 | the output's total_price sums to Σ Quantity × Price over the kept lines, and total_unit to Σ Quantity |
| Cltv.SegmentsFollowCltv | CLTV_konu_tekrar.py:161-163 | in the output, a larger cltv never gets an earlier segment; the lowest cltv is D and the highest is A |
| Cltv.ProfitRescalingKeepsFailure | CLTV_konu_tekrar.py:138-165 | scaling profit by k > 0 turns no failure into success or into another failure, and no success into a failure |
| Cltv.ProfitRescalingKeepsSegments | CLTV_konu_tekrar.py:138-165 | scaling profit by k > 0 returns the same customers, in the same order, with the same segments |
| Cltv.RunRescaled | CLTV_konu_tekrar.py:157-165 | both runs attach one and the same label column to their own scored rows |
| Cltv.ScoredRescaled | CLTV_konu_tekrar.py:157-161 | the scored frame for k × profit has the same aggregates, with profit_margin and cltv multiplied by k |
| Cltv.CutRescaled | CLTV_konu_tekrar.py:161-163 | the cut of the cltv column for k × profit, k > 0, equals the cut for profit |

## Left out

- Loading the Excel workbook, the display options and every call that only shows
  data (`head`, `describe`, `shape`, `sort_values`, the per-segment summary after
  the cut): they are I/O or inspection.
- The unused `MinMaxScaler` import: it is a foreign library and has no effect.
- The top-level walk through the same pipeline (lines 46-129). It duplicates
  `create_cltv_c`, with profit fixed at 0.10.
- Floating point: prices, rates and cltv are exact `real`s, so IEEE rounding is
  not modelled. The infinite and NaN cltv values of a zero churn rate never
  reach the model: it stops with `ZeroChurn` where the source goes on to fail
  in `qcut` with the duplicate-edge ValueError.
- In-place updates: `dropna(inplace=True)` and the columns added to `cltv_c` one
  at a time are folded into record constructors (`Line`, `Aggregate`, `Scored`,
  `CustomerRow`). The copy and aliasing behaviour of pandas is not modelled.
- Invoice ids are text and customer ids are integers. In a column that mixes
  text and numbers, a numeric invoice id is kept by the cancellation filter, as
  its digit text is here, but `nunique` would count the number `489434` and the
  text `"489434"` as two invoices; the model sees one. When no invoice in the
  column is text, `.str` at line 141 raises AttributeError; the model has only
  text ids and never takes that failure.
- The `category` dtype of the `segment` column is modelled as the enumeration
  `Segment`, ordered D < C < B < A.
- Cltv.ProfitRescalingKeepsSegments: states that segments and aggregates are
  unchanged but not the factor k on the output's profit_margin and cltv. That
  factor is proved on the scored frame (`Metrics.ProfitScaling`,
  `Cltv.ScoredRescaled`).
