/** The fills summary (scripts/calc_balances.py): the reporting period from
    the command line, and the quote spent on BUY fills, received from SELL
    fills, the fees of both and the net base quantity. */
module CalcBalances {
  import opened Wrappers
  import opened Text

  const SecondsPerDay: int := 86400

  /** `_period_from_args`: a truthy day count replaces both bounds by the
      last `days` days up to `now`; otherwise the bounds pass through. */
  function PeriodFromArgs(tsFrom: Option<int>, tsTo: Option<int>, lastDays: Option<int>, now: int)
    : (r: (Option<int>, Option<int>))
    ensures lastDays.Some? && lastDays.value != 0 ==>
              r.0 == Some(now - lastDays.value * SecondsPerDay) && r.1 == Some(now)
    ensures lastDays.None? || lastDays.value == 0 ==> r == (tsFrom, tsTo)
  {
    if lastDays.Some? && lastDays.value != 0 then (Some(now - lastDays.value * SecondsPerDay), Some(now))
    else (tsFrom, tsTo)
  }

  /** A positive day count gives a window ending now, `days` days long. */
  lemma PeriodIsWindow(tsFrom: Option<int>, tsTo: Option<int>, days: int, now: int)
    requires days > 0
    ensures var r := PeriodFromArgs(tsFrom, tsTo, Some(days), now);
            r.0.Some? && r.1.Some? && r.0.value < r.1.value && r.1.value - r.0.value == days * SecondsPerDay
  {
  }

  /** One selected fill row; NULL columns are `None`. */
  datatype Row = Row(side: Option<string>, price: Option<real>, qty: Option<real>, fee: Option<real>)

  /** `str(side or "").upper()`; the other columns are `float(x or 0.0)`. */
  function SideOf(r: Row): string { Upper(r.side.GetOr("")) }
  function PriceOf(r: Row): real { r.price.GetOr(0.0) }
  function QtyOf(r: Row): real { r.qty.GetOr(0.0) }
  function FeeOf(r: Row): real { r.fee.GetOr(0.0) }

  /** Quote notional of the rows of one side. */
  function SideNotional(rows: seq<Row>, side: string): real {
    if rows == [] then 0.0
    else
      var r := rows[|rows| - 1];
      SideNotional(rows[..|rows| - 1], side) + (if SideOf(r) == side then PriceOf(r) * QtyOf(r) else 0.0)
  }

  /** Base quantity of the rows of one side. */
  function SideQty(rows: seq<Row>, side: string): real {
    if rows == [] then 0.0
    else
      var r := rows[|rows| - 1];
      SideQty(rows[..|rows| - 1], side) + (if SideOf(r) == side then QtyOf(r) else 0.0)
  }

  /** Fees of the rows of one side. */
  function SideFee(rows: seq<Row>, side: string): real {
    if rows == [] then 0.0
    else
      var r := rows[|rows| - 1];
      SideFee(rows[..|rows| - 1], side) + (if SideOf(r) == side then FeeOf(r) else 0.0)
  }

  datatype Aggregates = Aggregates(inFromSells: real, outToBuys: real, feeTotal: real, baseNet: real, netAfterFee: real)

  /** What `calc_aggregates` reports: the net quote after fees is received
      minus spent minus fees. */
  predicate Summarises(rows: seq<Row>, a: Aggregates) {
    && a.inFromSells == SideNotional(rows, "SELL")
    && a.outToBuys == SideNotional(rows, "BUY")
    && a.feeTotal == SideFee(rows, "BUY") + SideFee(rows, "SELL")
    && a.baseNet == SideQty(rows, "BUY") - SideQty(rows, "SELL")
    && a.netAfterFee == a.inFromSells - a.outToBuys - a.feeTotal
  }

  /** The accumulation loop of `calc_aggregates` over the rows the query
      returned: only BUY and SELL rows, in any case, contribute. */
  method CalcAggregates(rows: seq<Row>) returns (a: Aggregates)
    ensures Summarises(rows, a)
  {
    var inSells, outBuys, fees, baseNet := 0.0, 0.0, 0.0, 0.0;
    for i := 0 to |rows|
      invariant inSells == SideNotional(rows[..i], "SELL")
      invariant outBuys == SideNotional(rows[..i], "BUY")
      invariant fees == SideFee(rows[..i], "BUY") + SideFee(rows[..i], "SELL")
      invariant baseNet == SideQty(rows[..i], "BUY") - SideQty(rows[..i], "SELL")
    {
      assert rows[..i + 1][..i] == rows[..i];
      var side := SideOf(rows[i]);
      var price, qty, fee := PriceOf(rows[i]), QtyOf(rows[i]), FeeOf(rows[i]);
      if side == "BUY" {
        outBuys := outBuys + price * qty;
        baseNet := baseNet + qty;
        fees := fees + fee;
      } else if side == "SELL" {
        inSells := inSells + price * qty;
        baseNet := baseNet - qty;
        fees := fees + fee;
      }
    }
    assert rows[..|rows|] == rows;
    a := Aggregates(inSells, outBuys, fees, baseNet, inSells - outBuys - fees);
  }

  lemma {:induction false} SideSumsAppend(a: seq<Row>, b: seq<Row>, side: string)
    ensures SideNotional(a + b, side) == SideNotional(a, side) + SideNotional(b, side)
    ensures SideQty(a + b, side) == SideQty(a, side) + SideQty(b, side)
    ensures SideFee(a + b, side) == SideFee(a, side) + SideFee(b, side)
    decreases |b|
  {
    if b == [] {
      assert a + b == a;
    } else {
      var pre := b[..|b| - 1];
      assert (a + b)[..|a + b| - 1] == a + pre;
      assert (a + b)[|a + b| - 1] == b[|b| - 1];
      SideSumsAppend(a, pre, side);
    }
  }

  /** The summary of a period split in two is the sum of the summaries of
      the halves, so the order in which fills are read does not matter to
      how periods combine. */
  lemma AggregatesAdditive(a: seq<Row>, b: seq<Row>, x: Aggregates, y: Aggregates, z: Aggregates)
    requires Summarises(a, x) && Summarises(b, y) && Summarises(a + b, z)
    ensures z.inFromSells == x.inFromSells + y.inFromSells && z.outToBuys == x.outToBuys + y.outToBuys
    ensures z.feeTotal == x.feeTotal + y.feeTotal && z.baseNet == x.baseNet + y.baseNet
    ensures z.netAfterFee == x.netAfterFee + y.netAfterFee
  {
    SideSumsAppend(a, b, "BUY");
    SideSumsAppend(a, b, "SELL");
  }

  /** With non-negative prices and quantities the quote flows are
      non-negative. */
  lemma {:induction false} NotionalNonNegative(rows: seq<Row>, side: string)
    requires forall i :: 0 <= i < |rows| ==> PriceOf(rows[i]) >= 0.0 && QtyOf(rows[i]) >= 0.0
    ensures SideNotional(rows, side) >= 0.0
  {
    if rows != [] {
      var r := rows[|rows| - 1];
      assert PriceOf(r) * QtyOf(r) >= 0.0;
      NotionalNonNegative(rows[..|rows| - 1], side);
    }
  }
}
