/** The manual "sell at average + 1%" script (avg1.py): with a position on
    the pair, every SELL is cancelled on the exchange and in the ledger, and
    one SELL for the sellable quantity is placed at round(avg * 1.01, 6),
    provided it reaches the minimum notional. */
module Avg1 {
  import opened Numbers
  import opened Text
  import opened Ledger

  /** How a run ends. `Crashed` is an exception the script does not catch:
      a division by a zero target price, or the placement raising. */
  datatype Avg1Outcome =
    | NoPosition
    | NoFreeQty
    | BelowMin
    | Crashed
    | Placed(id: string, price: real, qty: real)

  /** `pos.qty if pos else 0.0` */
  function PosQty(positions: map<string, Position>, pair: string): real {
    if pair in positions then positions[pair].qty else 0.0
  }

  /** `pos.avg if pos else 0.0` */
  function PosAvg(positions: map<string, Position>, pair: string): real {
    if pair in positions then positions[pair].avg else 0.0
  }

  /** AVG + 1%, rounded to six decimals. */
  function TargetPrice(avg: real): (r: real)
    ensures avg > 0.0 ==> r >= 0.0
    ensures OnGrid6(r)
  {
    Round6(avg * 1.01)
  }

  // ===================================================================
  // Remote cancels

  /** Whether a row of the exchange's open-order list gets a cancel: the
      symbol is the pair, the side is SELL in any case, and it has an id. */
  predicate CancelsRemotely(o: Listed, pair: string) {
    o.symbol == pair && Upper(o.side) == SELL && o.orderId != ""
  }

  /** The ids sent to `cancel_order`, in list order. */
  function SellCancelIds(ex: seq<Listed>, pair: string): (r: seq<string>)
    ensures |r| <= |ex|
    ensures forall id :: id in r <==> exists k :: 0 <= k < |ex| && CancelsRemotely(ex[k], pair) && ex[k].orderId == id
  {
    if ex == [] then []
    else
      var pre := SellCancelIds(ex[..|ex| - 1], pair);
      var o := ex[|ex| - 1];
      assert forall k :: 0 <= k < |ex| - 1 ==> ex[..|ex| - 1][k] == ex[k];
      if CancelsRemotely(o, pair) then pre + [o.orderId] else pre
  }

  /** The remote cancel loop; a failing cancel is ignored, so every
      qualifying row is attempted. */
  method RemoteSellCancels(ex: seq<Listed>, pair: string) returns (sent: seq<string>)
    ensures sent == SellCancelIds(ex, pair)
  {
    sent := [];
    for i := 0 to |ex|
      invariant sent == SellCancelIds(ex[..i], pair)
    {
      assert ex[..i + 1][..i] == ex[..i];
      if CancelsRemotely(ex[i], pair) {
        sent := sent + [ex[i].orderId];
      }
    }
    assert ex[..|ex|] == ex;
  }

  /** The local SELL reset touches only the pair's open SELLs (NEW or
      PARTIALLY_FILLED): BUYs, other pairs and closed rows are kept. */
  lemma CancelSellsOnly(orders: map<string, Order>, pair: string, now: int, id: string)
    requires id in orders
    ensures var r := CancelOpenSide(orders, pair, SELL, now);
            var o := orders[id];
            id in r &&
            (o.pair == pair && o.side == SELL && IsOpenStatus(o.status) ==> r[id] == o.(status := CANCELED, updated := now)) &&
            (o.pair != pair || o.side != SELL || !IsOpenStatus(o.status) ==> r[id] == o)
  {
  }

  // ===================================================================
  // Quantity

  datatype QtyChoice = NoQty | TooSmall | ZeroPrice | Qty(q: real)

  /** A quantity on the six-decimal grid below `y` is at most `floor6(y)`. */
  lemma GridBelowFloor(q: real, y: real)
    requires OnGrid6(q) && q < y
    ensures q <= Floor6(y)
  {
    Floor6OfGrid(q);
    Floor6Monotone(q, y);
  }

  lemma BelowQuotient(q: real, price: real, min: real)
    requires price > 0.0 && q * price < min
    ensures q < min / price
  {
    assert (min / price) * price == min;
  }

  /** The retry `min(qty, floor6(MIN / price))` of a quantity on the grid
      whose notional is short gives the same quantity back. */
  lemma RetryKeepsQty(q: real, price: real, minUsd: real)
    requires OnGrid6(q) && price > 0.0 && q * price < minUsd
    ensures Min(q, Floor6(minUsd / price)) == q
  {
    BelowQuotient(q, price, minUsd);
    GridBelowFloor(q, minUsd / price);
  }

  /** The quantity step: floor6(min(position, free)), skipped when not
      positive; when its notional is below the minimum the script tries
      `min(qty, floor6(MIN / price))`, which can never raise the quantity,
      and skips if the notional is still short. */
  function ChooseQty(posQty: real, free: real, price: real, minUsd: real): (r: QtyChoice)
    requires price >= 0.0
    ensures var q := Floor6(Min(posQty, free));
            && (r.NoQty? <==> q <= 0.0)
            && (r.ZeroPrice? <==> q > 0.0 && q * price < minUsd && price == 0.0)
            && (r.TooSmall? <==> q > 0.0 && q * price < minUsd && price > 0.0)
            && (r.Qty? <==> q > 0.0 && q * price >= minUsd)
            && (r.Qty? ==> r.q == q)
    ensures r.Qty? ==> 0.0 < r.q <= posQty && r.q <= free && OnGrid6(r.q) && r.q * price >= minUsd
  {
    var q := Floor6(Min(posQty, free));
    if q <= 0.0 then NoQty
    else if q * price < minUsd then
      if price == 0.0 then ZeroPrice
      else
        var q2 := Min(q, Floor6(minUsd / price));
        RetryKeepsQty(q, price, minUsd);
        if q2 * price < minUsd then TooSmall else Qty(q2)
    else Qty(q)
  }

  // ===================================================================
  // The run

  /** The ledger effect of a run, with the free base balance already read:
      nothing without a position; otherwise the open SELLs of the pair are
      cancelled and at most one SELL is recorded at the target. */
  function Avg1(orders: map<string, Order>, positions: map<string, Position>, pair: string, free: real,
                minUsd: real, reply: Reply, nowS: int): (r: (map<string, Order>, Avg1Outcome))
    ensures r.1.NoPosition? <==> PosQty(positions, pair) <= 0.0 || PosAvg(positions, pair) <= 0.0
    ensures r.1.NoPosition? ==> r.0 == orders
  {
    var pq, pa := PosQty(positions, pair), PosAvg(positions, pair);
    if pq <= 0.0 || pa <= 0.0 then (orders, NoPosition)
    else
      var target := TargetPrice(pa);
      var cleared := CancelOpenSide(orders, pair, SELL, nowS);
      match ChooseQty(pq, free, target, minUsd)
      case NoQty => (cleared, NoFreeQty)
      case TooSmall => (cleared, BelowMin)
      case ZeroPrice => (cleared, Crashed)
      case Qty(q) =>
        if reply.Raise? then (cleared, Crashed)
        else
          var id := PlacedId(reply.orderId, "SELL_", nowS);
          (cleared[id := PlacedOrder(id, pair, SELL, target, q, 0.0, "MANUAL_AVG1", nowS)], Placed(id, target, q))
  }

  /** `main` of avg1.py: `ex` is the exchange's open-order list, `bals` the
      account's balances and `reply` the answer to the one placement. */
  method Avg1Run(db: Store, pair: string, base: string, minUsd: real, ex: seq<Listed>, bals: seq<Balance>,
                 reply: Reply, nowS: int)
    returns (out: Avg1Outcome, sent: seq<string>)
    requires db.Valid()
    modifies db`orders
    ensures db.Valid()
    ensures (db.orders, out) == Avg1(old(db.orders), db.positions, pair, LastFree(bals, base), minUsd, reply, nowS)
    ensures sent == if out.NoPosition? then [] else SellCancelIds(ex, pair)
  {
    var pq, pa := PosQty(db.positions, pair), PosAvg(db.positions, pair);
    if pq <= 0.0 || pa <= 0.0 {
      return NoPosition, [];
    }
    var target := TargetPrice(pa);
    sent := RemoteSellCancels(ex, pair);
    db.orders := CancelOpenSide(db.orders, pair, SELL, nowS);
    var free := LastFree(bals, base);
    var choice := ChooseQty(pq, free, target, minUsd);
    match choice {
      case NoQty => out := NoFreeQty;
      case TooSmall => out := BelowMin;
      case ZeroPrice => out := Crashed;
      case Qty(q) =>
        if reply.Raise? {
          out := Crashed;
        } else {
          var id := PlacedId(reply.orderId, "SELL_", nowS);
          db.orders := db.orders[id := PlacedOrder(id, pair, SELL, target, q, 0.0, "MANUAL_AVG1", nowS)];
          out := Placed(id, target, q);
        }
    }
  }

  /** With a position, every open SELL of the pair is cancelled, every other
      row is kept, and the only open SELL of the pair left is the one placed. */
  lemma Avg1Frame(orders: map<string, Order>, positions: map<string, Position>, pair: string, free: real,
                  minUsd: real, reply: Reply, nowS: int)
    ensures var r := Avg1(orders, positions, pair, free, minUsd, reply, nowS);
            !r.1.NoPosition? ==>
              r.0.Keys == orders.Keys + (if r.1.Placed? then {r.1.id} else {}) &&
              (forall id :: id in orders && !(r.1.Placed? && id == r.1.id) ==>
                 r.0[id] == if IsOpenOrderOf(orders[id], pair, SELL) then orders[id].(status := CANCELED, updated := nowS)
                            else orders[id]) &&
              (forall id :: id in r.0 && IsOpenOrderOf(r.0[id], pair, SELL) ==> r.1.Placed? && id == r.1.id)
  {
  }

  /** A SELL is placed exactly when there is a position, the quantity step
      keeps a quantity and the exchange acknowledges; it is a NEW SELL at
      round(avg * 1.01, 6), of at most min(position, free), reaching the
      minimum notional, with nothing reserved. */
  lemma Avg1PlacesAtTarget(orders: map<string, Order>, positions: map<string, Position>, pair: string, free: real,
                           minUsd: real, reply: Reply, nowS: int)
    ensures var r := Avg1(orders, positions, pair, free, minUsd, reply, nowS);
            r.1.Placed? <==>
              PosQty(positions, pair) > 0.0 && PosAvg(positions, pair) > 0.0 &&
              ChooseQty(PosQty(positions, pair), free, TargetPrice(PosAvg(positions, pair)), minUsd).Qty? &&
              reply.Ack?
    ensures var r := Avg1(orders, positions, pair, free, minUsd, reply, nowS);
            r.1.Placed? ==>
              r.1.price == TargetPrice(PosAvg(positions, pair)) &&
              0.0 < r.1.qty <= PosQty(positions, pair) && r.1.qty <= free && r.1.qty * r.1.price >= minUsd &&
              r.1.id == PlacedId(reply.orderId, "SELL_", nowS) &&
              r.0[r.1.id] == PlacedOrder(r.1.id, pair, SELL, r.1.price, r.1.qty, 0.0, "MANUAL_AVG1", nowS)
  {
  }
}
