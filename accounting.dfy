/** The position accountant: replay of the fill history into a lot-less
    weighted-average cost position (accounting.py, and the identical loop of
    `recompute_position` in sync.py), plus the equity and PnL formulas. */
module Accounting {
  import opened Wrappers
  import opened Numbers
  import opened Text
  import opened Ledger

  /** The tolerance below which a quantity counts as zero (`1e-12`). */
  const QtyEps: real := 0.000000000001

  /** One fill as the replay sees it: whether it counts as a BUY, and its numbers. */
  datatype Leg = Leg(buy: bool, qty: real, price: real, fee: real)

  /** The replay's two accumulators. */
  datatype Book = Book(qty: real, cost: real)

  /** One iteration of the replay loop. A BUY adds quantity and cost (fee
      included); a SELL against a flat or negative book resets it; otherwise
      at most the held quantity is sold at the running average cost. */
  function Apply(b: Book, l: Leg): Book {
    if l.buy then Book(b.qty + l.qty, b.cost + l.qty * l.price + l.fee)
    else if b.qty <= 0.0 then Book(0.0, 0.0)
    else
      var sellQ := Min(b.qty, l.qty);
      var avg := if b.qty > QtyEps then b.cost / b.qty else 0.0;
      Book(b.qty - sellQ, b.cost - avg * sellQ)
  }

  function Replay(legs: seq<Leg>): Book {
    if legs == [] then Book(0.0, 0.0)
    else Apply(Replay(legs[..|legs| - 1]), legs[|legs| - 1])
  }

  lemma ReplayStep(legs: seq<Leg>, i: nat)
    requires i < |legs|
    ensures Replay(legs[..i + 1]) == Apply(Replay(legs[..i]), legs[i])
  {
    assert legs[..i + 1][..i] == legs[..i];
  }

  /** The final `avg = cost/qty if qty > 1e-12 else 0`. */
  function AvgOf(b: Book): real {
    if b.qty > QtyEps then b.cost / b.qty else 0.0
  }

  /** accounting.py reads the side case-insensitively. */
  function DictLeg(f: Fill): Leg {
    Leg(Upper(f.side) == BUY, f.qty, f.price, f.fee)
  }

  /** sync.py compares the stored side with "BUY" exactly. */
  function LedgerLeg(f: Fill): Leg {
    Leg(f.side == BUY, f.qty, f.price, f.fee)
  }

  function DictLegs(fs: seq<Fill>): (r: seq<Leg>)
    ensures |r| == |fs| && forall i :: 0 <= i < |fs| ==> r[i] == DictLeg(fs[i])
  {
    seq(|fs|, i requires 0 <= i < |fs| => DictLeg(fs[i]))
  }

  function LedgerLegs(fs: seq<Fill>): (r: seq<Leg>)
    ensures |r| == |fs| && forall i :: 0 <= i < |fs| ==> r[i] == LedgerLeg(fs[i])
  {
    seq(|fs|, i requires 0 <= i < |fs| => LedgerLeg(fs[i]))
  }

  /** The replay loop shared by `compute_position_from_fills` and
      `recompute_position`: the two accumulators after every leg in order. */
  method ReplayLoop(legs: seq<Leg>) returns (qty: real, cost: real)
    ensures Book(qty, cost) == Replay(legs)
  {
    qty, cost := 0.0, 0.0;
    var i := 0;
    while i < |legs|
      invariant 0 <= i <= |legs|
      invariant Book(qty, cost) == Replay(legs[..i])
    {
      var l := legs[i];
      ghost var before := Book(qty, cost);
      if l.buy {
        qty := qty + l.qty;
        cost := cost + l.qty * l.price + l.fee;
      } else if qty <= 0.0 {
        qty := 0.0;
        cost := 0.0;
      } else {
        var sellQ := Min(qty, l.qty);
        var a := if qty > QtyEps then cost / qty else 0.0;
        cost := cost - a * sellQ;
        qty := qty - sellQ;
      }
      assert Book(qty, cost) == Apply(before, l);
      ReplayStep(legs, i);
      i := i + 1;
    }
    assert legs[..|legs|] == legs;
  }

  /** `compute_position_from_fills`: the replay of the fills in the order
      given, reading each side case-insensitively, returning `(qty, avg)`. */
  method ComputePositionFromFills(fills: seq<Fill>) returns (qty: real, avg: real)
    ensures qty == Replay(DictLegs(fills)).qty
    ensures avg == AvgOf(Replay(DictLegs(fills)))
  {
    var cost;
    qty, cost := ReplayLoop(DictLegs(fills));
    avg := if qty > QtyEps then cost / qty else 0.0;
  }

  // ---------------------------------------------------------------------
  // Properties of the replay

  /** The oversell clamp: a SELL of `q >= 0` leaves `max(0, held - q)`; the
      excess is dropped, never recorded as a short. */
  lemma SellClampsAtZero(b: Book, l: Leg)
    requires !l.buy && l.qty >= 0.0
    ensures Apply(b, l).qty == Max(0.0, b.qty - l.qty)
    ensures Apply(b, l).qty >= 0.0
  {
  }

  predicate NonNegQtys(legs: seq<Leg>) {
    forall i :: 0 <= i < |legs| ==> legs[i].qty >= 0.0
  }

  /** The position never goes negative when the exchange reports
      non-negative quantities. */
  lemma {:induction false} ReplayQtyNonNegative(legs: seq<Leg>)
    requires NonNegQtys(legs)
    ensures Replay(legs).qty >= 0.0
  {
    if legs != [] {
      var pre := legs[..|legs| - 1];
      assert NonNegQtys(pre);
      ReplayQtyNonNegative(pre);
    }
  }

  function BoughtQty(legs: seq<Leg>): real {
    if legs == [] then 0.0
    else BoughtQty(legs[..|legs| - 1]) + (if legs[|legs| - 1].buy then legs[|legs| - 1].qty else 0.0)
  }

  function BoughtCost(legs: seq<Leg>): real {
    if legs == [] then 0.0
    else
      var l := legs[|legs| - 1];
      BoughtCost(legs[..|legs| - 1]) + (if l.buy then l.qty * l.price + l.fee else 0.0)
  }

  /** The held quantity never exceeds the total bought. */
  lemma {:induction false} ReplayQtyAtMostBought(legs: seq<Leg>)
    requires NonNegQtys(legs)
    ensures 0.0 <= Replay(legs).qty <= BoughtQty(legs)
  {
    if legs != [] {
      var pre := legs[..|legs| - 1];
      assert NonNegQtys(pre);
      ReplayQtyAtMostBought(pre);
    }
  }

  predicate AllBuys(legs: seq<Leg>) {
    forall i :: 0 <= i < |legs| ==> legs[i].buy
  }

  /** For BUY-only history the replay is the plain totals, so
      `avg = sum(q*p + fee) / sum(q)`. */
  lemma {:induction false} AllBuysTotals(legs: seq<Leg>)
    requires AllBuys(legs)
    ensures Replay(legs) == Book(BoughtQty(legs), BoughtCost(legs))
    ensures BoughtQty(legs) > QtyEps ==> AvgOf(Replay(legs)) == BoughtCost(legs) / BoughtQty(legs)
  {
    if legs != [] {
      var pre := legs[..|legs| - 1];
      assert AllBuys(pre);
      AllBuysTotals(pre);
    }
  }

  /** A SELL that leaves a non-zero position keeps the average cost: the cost
      is reduced by exactly `avg * sell_q`. */
  lemma PartialSellKeepsAvg(b: Book, l: Leg)
    requires !l.buy && l.qty >= 0.0
    requires b.qty > QtyEps
    requires Apply(b, l).qty > QtyEps
    ensures AvgOf(Apply(b, l)) == AvgOf(b)
  {
    var sellQ := Min(b.qty, l.qty);
    var avg := b.cost / b.qty;
    var rest := b.qty - sellQ;
    assert Apply(b, l) == Book(rest, b.cost - avg * sellQ);
    assert b.cost == avg * b.qty;
    assert b.cost - avg * sellQ == avg * rest;
    assert (avg * rest) / rest == avg;
  }

  predicate NonNegLegs(legs: seq<Leg>) {
    forall i :: 0 <= i < |legs| ==> legs[i].qty >= 0.0 && legs[i].price >= 0.0 && legs[i].fee >= 0.0
  }

  lemma SellKeepsCostNonNeg(b: Book, l: Leg)
    requires !l.buy && l.qty >= 0.0 && b.qty >= 0.0 && b.cost >= 0.0
    ensures Apply(b, l).cost >= 0.0
  {
    if b.qty > QtyEps {
      var sellQ := Min(b.qty, l.qty);
      var avg := b.cost / b.qty;
      assert avg >= 0.0;
      assert avg * sellQ <= avg * b.qty;
      assert avg * b.qty == b.cost;
    }
  }

  /** One leg with non-negative numbers keeps both accumulators
      non-negative. */
  lemma ApplyNonNegative(b: Book, l: Leg)
    requires b.qty >= 0.0 && b.cost >= 0.0 && l.qty >= 0.0 && l.price >= 0.0 && l.fee >= 0.0
    ensures Apply(b, l).qty >= 0.0 && Apply(b, l).cost >= 0.0
  {
    if l.buy {
      NonNegMul(l.qty, l.price);
    } else {
      SellKeepsCostNonNeg(b, l);
    }
  }

  /** With non-negative quantities, prices and fees the cost basis, and so
      the average, is never negative. */
  lemma {:induction false} ReplayCostNonNegative(legs: seq<Leg>)
    requires NonNegLegs(legs)
    ensures Replay(legs).qty >= 0.0 && Replay(legs).cost >= 0.0
    ensures AvgOf(Replay(legs)) >= 0.0
  {
    if legs != [] {
      var pre := legs[..|legs| - 1];
      assert NonNegLegs(pre);
      ReplayCostNonNegative(pre);
      ApplyNonNegative(Replay(pre), legs[|legs| - 1]);
    }
    var r := Replay(legs);
    if r.qty > QtyEps {
      assert r.cost / r.qty >= 0.0;
    }
  }

  /** The worked example of the design: BUY 10 @ 1.0, SELL 4 @ 1.5 gives
      (6, 1.0); a further SELL 10 @ 2.0 gives (0, 0). */
  lemma OversellExample()
    ensures var h := [Leg(true, 10.0, 1.0, 0.0), Leg(false, 4.0, 1.5, 0.0)];
            Replay(h) == Book(6.0, 6.0) && AvgOf(Replay(h)) == 1.0
    ensures var h := [Leg(true, 10.0, 1.0, 0.0), Leg(false, 4.0, 1.5, 0.0), Leg(false, 10.0, 2.0, 0.0)];
            Replay(h) == Book(0.0, 0.0) && AvgOf(Replay(h)) == 0.0
  {
    var h2 := [Leg(true, 10.0, 1.0, 0.0), Leg(false, 4.0, 1.5, 0.0)];
    var h3 := h2 + [Leg(false, 10.0, 2.0, 0.0)];
    assert h2[..1] == [Leg(true, 10.0, 1.0, 0.0)];
    assert Replay(h2[..1]) == Book(10.0, 10.0);
    assert h3[..2] == h2;
  }

  predicate UpperSides(fs: seq<Fill>) {
    forall i :: 0 <= i < |fs| ==> Upper(fs[i].side) == fs[i].side
  }

  /** sync.py's replay and accounting.py's agree on fills whose side is
      already upper case, which is how `sync_trades` stores every side. */
  lemma LedgerAndDictReplayAgree(fs: seq<Fill>)
    requires UpperSides(fs)
    ensures Replay(LedgerLegs(fs)) == Replay(DictLegs(fs))
    ensures AvgOf(Replay(LedgerLegs(fs))) == AvgOf(Replay(DictLegs(fs)))
  {
    assert LedgerLegs(fs) == DictLegs(fs);
  }

  // ---------------------------------------------------------------------
  // Equity and PnL

  datatype Equity = Equity(total: real, cash: real)

  /** `estimate_equity_usd`: start capital plus the unrealised gain at the
      last price (only when both the average and the last price are known,
      that is non-zero), and the cash left after the position's value and the
      BUY reserve, never negative. */
  function EstimateEquityUsd(start: real, lastPrice: Option<real>, qty: real, avg: real, reserve: real): (r: Equity)
    ensures var last := lastPrice.GetOr(0.0);
            (avg != 0.0 && last != 0.0 ==> r.total - start == (last - avg) * qty) &&
            (avg == 0.0 || last == 0.0 ==> r.total == start)
    ensures r.cash >= 0.0
    ensures r.cash >= r.total - lastPrice.GetOr(0.0) * qty - reserve
    ensures r.cash > 0.0 ==> r.cash + lastPrice.GetOr(0.0) * qty + reserve == r.total
  {
    var last := lastPrice.GetOr(0.0);
    var positionVal := last * qty;
    var total := if avg != 0.0 && last != 0.0 then start + (last - avg) * qty else start;
    Equity(total, Max(0.0, total - positionVal - reserve))
  }

  datatype Pnl = Pnl(absUsd: real, pct: real)

  const PctFloor: real := 0.000000001

  /** `compute_pnl` (and the window PnL of reports/core.py): the gain of
      `qty` from the reference price to the last price, and that gain as a
      percentage of the position's value, whose base is floored at 1e-9. */
  function ComputePnl(last: real, qty: real, ref: Option<real>): (r: Option<Pnl>)
    ensures r.None? <==> ref.None?
    ensures r.Some? ==> r.value.absUsd == (last - ref.value) * qty
    ensures r.Some? ==> r.value.pct * Max(PctFloor, last * qty) == r.value.absUsd * 100.0
  {
    match ref
    case None => None
    case Some(p) =>
      var absUsd := (last - p) * qty;
      var base := Max(PctFloor, last * qty);
      assert base > 0.0;
      assert (absUsd / base) * base == absUsd;
      Some(Pnl(absUsd, (absUsd / base) * 100.0))
  }
}
