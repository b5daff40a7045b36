/** The price of one fill slice, recovered from the broker's cumulative quantity and average. */
module FillSlices {
  /** Cumulative fields of one broker report. */
  datatype Report = Report(quantity: real, average: real)

  /** A slice handed on to the position book. */
  datatype Slice = Slice(quantity: real, price: real)

  function Cost(r: Report): real {
    r.quantity * r.average
  }

  function Quotient(x: real, d: real): (q: real)
    requires d != 0.0
    ensures q * d == x
  {
    x / d
  }

  /** The inferred price; a report that adds no quantity keeps the reported average. */
  function DeltaPrice(prior: Report, next: Report): real {
    var delta := next.quantity - prior.quantity;
    if delta <= 0.0 then next.average
    else
      var price := Quotient(Cost(next) - Cost(prior), delta);
      if price < 0.0 then 0.0 else price
  }

  function SliceOf(prior: Report, next: Report): Slice {
    Slice(next.quantity - prior.quantity, DeltaPrice(prior, next))
  }

  /** A report that adds no quantity hands nothing on. */
  function Slices(reports: seq<Report>): seq<Slice>
    requires reports != []
  {
    if |reports| == 1 then []
    else
      (if reports[0].quantity < reports[1].quantity then [SliceOf(reports[0], reports[1])] else []) +
      Slices(reports[1..])
  }

  function TotalQuantity(slices: seq<Slice>): real {
    if slices == [] then 0.0 else slices[0].quantity + TotalQuantity(slices[1..])
  }

  function TotalCost(slices: seq<Slice>): real {
    if slices == [] then 0.0 else slices[0].quantity * slices[0].price + TotalCost(slices[1..])
  }

  ghost predicate Growing(reports: seq<Report>) {
    forall i :: 0 < i < |reports| ==> reports[i - 1].quantity < reports[i].quantity
  }

  ghost predicate CostNeverFalls(reports: seq<Report>) {
    forall i :: 0 < i < |reports| ==> Cost(reports[i - 1]) <= Cost(reports[i])
  }

  /** What the clamp adds over a run of reports: the sum of the falls of the cumulative cost. */
  function Falls(reports: seq<Report>): (fall: real)
    requires reports != []
    ensures fall >= 0.0
  {
    if |reports| == 1 then 0.0
    else
      var drop := Cost(reports[0]) - Cost(reports[1]);
      (if drop > 0.0 then drop else 0.0) + Falls(reports[1..])
  }

  /** One slice is worth the change of the cumulative cost, or nothing when that cost fell. */
  lemma SliceCost(prior: Report, next: Report)
    requires prior.quantity < next.quantity
    ensures var s := SliceOf(prior, next);
            s.price >= 0.0 &&
            s.quantity * s.price ==
              if Cost(next) >= Cost(prior) then Cost(next) - Cost(prior) else 0.0
  {
    var delta := next.quantity - prior.quantity;
    var price := Quotient(Cost(next) - Cost(prior), delta);
    assert price * delta == Cost(next) - Cost(prior);
    if price < 0.0 {
      assert price * delta < 0.0;
    } else {
      assert price * delta >= 0.0;
    }
  }

  /** The sum of the falls of the cumulative quantity. */
  function Shrinkage(reports: seq<Report>): (fall: real)
    requires reports != []
    ensures fall >= 0.0
  {
    if |reports| == 1 then 0.0
    else
      var drop := reports[0].quantity - reports[1].quantity;
      (if drop > 0.0 then drop else 0.0) + Shrinkage(reports[1..])
  }

  lemma {:induction false} QuantityAccounted(reports: seq<Report>)
    requires reports != []
    ensures TotalQuantity(Slices(reports)) ==
            reports[|reports| - 1].quantity - reports[0].quantity + Shrinkage(reports)
    decreases |reports|
  {
    if |reports| > 1 {
      var rest := reports[1..];
      QuantityAccounted(rest);
      if reports[0].quantity < reports[1].quantity {
        assert Slices(reports)[1..] == Slices(rest);
      } else {
        assert Slices(reports) == Slices(rest);
      }
    }
  }

  ghost predicate NeverShrinks(reports: seq<Report>) {
    forall i :: 0 < i < |reports| ==> reports[i - 1].quantity <= reports[i].quantity
  }

  lemma {:induction false} NoShrinkageExactly(reports: seq<Report>)
    requires reports != []
    ensures Shrinkage(reports) == 0.0 <==> NeverShrinks(reports)
    decreases |reports|
  {
    if |reports| > 1 {
      var rest := reports[1..];
      NoShrinkageExactly(rest);
      assert forall i :: 0 < i < |rest| ==> rest[i - 1] == reports[i] && rest[i] == reports[i + 1];
      if NeverShrinks(reports) {
        assert reports[1 - 1].quantity <= reports[1].quantity;
      } else {
        var i :| 0 < i < |reports| && !(reports[i - 1].quantity <= reports[i].quantity);
        if i > 1 {
          assert rest[i - 1 - 1] == reports[i - 1] && rest[i - 1] == reports[i];
        }
      }
    }
  }

  /**
   * The slice quantities add up to the growth of the cumulative quantity exactly when that
   * quantity never shrinks; otherwise to more.
   */
  lemma QuantityConserved(reports: seq<Report>)
    requires reports != []
    ensures var growth := reports[|reports| - 1].quantity - reports[0].quantity;
            TotalQuantity(Slices(reports)) >= growth &&
            (TotalQuantity(Slices(reports)) == growth <==> NeverShrinks(reports))
  {
    QuantityAccounted(reports);
    NoShrinkageExactly(reports);
  }

  lemma TotalCostSplits(slices: seq<Slice>, rest: seq<Slice>, slice: Slice)
    requires slices == [slice] + rest
    ensures TotalCost(slices) == slice.quantity * slice.price + TotalCost(rest)
  {
    assert slices[1..] == rest;
  }

  lemma FirstSliceCost(reports: seq<Report>)
    requires |reports| > 1 && reports[0].quantity < reports[1].quantity
    ensures var gain := Cost(reports[1]) - Cost(reports[0]);
            TotalCost(Slices(reports)) == (if gain >= 0.0 then gain else 0.0) + TotalCost(Slices(reports[1..]))
  {
    SliceCost(reports[0], reports[1]);
    TotalCostSplits(Slices(reports), Slices(reports[1..]), SliceOf(reports[0], reports[1]));
  }

  lemma GrowsOn(reports: seq<Report>)
    requires |reports| > 1 && Growing(reports)
    ensures reports[0].quantity < reports[1].quantity && Growing(reports[1..])
  {
    assert reports[1 - 1].quantity < reports[1].quantity;
    assert forall i :: 0 < i < |reports[1..]| ==>
        reports[1..][i - 1] == reports[i] && reports[1..][i] == reports[i + 1];
  }

  /**
   * Slice costs add up to the growth of the cumulative cost plus every fall of it, which the
   * clamp at zero hides.
   */
  lemma {:induction false} CostAccounted(reports: seq<Report>)
    requires reports != [] && Growing(reports)
    ensures TotalCost(Slices(reports)) ==
            Cost(reports[|reports| - 1]) - Cost(reports[0]) + Falls(reports)
    decreases |reports|
  {
    if |reports| > 1 {
      GrowsOn(reports);
      CostAccounted(reports[1..]);
      FirstSliceCost(reports);
    }
  }

  lemma {:induction false} NoFallsExactly(reports: seq<Report>)
    requires reports != []
    ensures Falls(reports) == 0.0 <==> CostNeverFalls(reports)
    decreases |reports|
  {
    if |reports| > 1 {
      var rest := reports[1..];
      NoFallsExactly(rest);
      assert forall i :: 0 < i < |rest| ==> rest[i - 1] == reports[i] && rest[i] == reports[i + 1];
      if CostNeverFalls(reports) {
        assert Cost(reports[1 - 1]) <= Cost(reports[1]);
      } else {
        var i :| 0 < i < |reports| && !(Cost(reports[i - 1]) <= Cost(reports[i]));
        if i > 1 {
          assert rest[i - 1 - 1] == reports[i - 1] && rest[i - 1] == reports[i];
        }
      }
    }
  }

  /**
   * Slice quantity times slice price sums to final cost minus initial cost exactly when the
   * cumulative cost never falls; otherwise the sum is too large.
   */
  lemma CostConservedExactly(reports: seq<Report>)
    requires reports != [] && Growing(reports)
    ensures var gain := Cost(reports[|reports| - 1]) - Cost(reports[0]);
            TotalCost(Slices(reports)) >= gain &&
            (TotalCost(Slices(reports)) == gain <==> CostNeverFalls(reports))
  {
    CostAccounted(reports);
    NoFallsExactly(reports);
  }

  // ---- the inference undoes the broker's averaging ----

  /** What the broker reports after one more trade. */
  function Averaged(prior: Report, trade: Slice): Report
    requires prior.quantity + trade.quantity != 0.0
  {
    var quantity := prior.quantity + trade.quantity;
    Report(quantity, Quotient(Cost(prior) + trade.quantity * trade.price, quantity))
  }

  ghost predicate RealTrades(trades: seq<Slice>) {
    forall t :: t in trades ==> t.quantity > 0.0 && t.price >= 0.0
  }

  /** Every report the broker sends while the trades come in, the first one included. */
  function ReportsOf(prior: Report, trades: seq<Slice>): (reports: seq<Report>)
    requires prior.quantity >= 0.0 && RealTrades(trades)
    ensures |reports| == |trades| + 1 && reports[0] == prior
    decreases |trades|
  {
    if trades == [] then [prior]
    else
      assert trades[0] in trades;
      [prior] + ReportsOf(Averaged(prior, trades[0]), trades[1..])
  }

  lemma SliceIsTheTrade(prior: Report, trade: Slice)
    requires prior.quantity >= 0.0 && trade.quantity > 0.0 && trade.price >= 0.0
    ensures SliceOf(prior, Averaged(prior, trade)) == trade
  {
    var next := Averaged(prior, trade);
    var d := trade.quantity;
    assert next.quantity - prior.quantity == d;
    assert Cost(next) - Cost(prior) == trade.quantity * trade.price;
    assert Quotient(trade.quantity * trade.price, d) == trade.price;
  }

  /** From the broker's running averages the slices recover each trade, quantity and price. */
  lemma {:induction false} SlicesRecoverTrades(prior: Report, trades: seq<Slice>)
    requires prior.quantity >= 0.0 && RealTrades(trades)
    ensures Slices(ReportsOf(prior, trades)) == trades
    decreases |trades|
  {
    if trades != [] {
      assert trades[0] in trades;
      var next := Averaged(prior, trades[0]);
      var rest := ReportsOf(next, trades[1..]);
      assert ReportsOf(prior, trades)[1..] == rest;
      SliceIsTheTrade(prior, trades[0]);
      SlicesRecoverTrades(next, trades[1..]);
    }
  }
}
