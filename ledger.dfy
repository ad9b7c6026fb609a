/** The local ledger: the four tables of the trading database (orders, fills,
    position, capital) with their primary keys, and the order statuses the
    scripts write. Every script receives the same `Store` and changes it in
    place, as the Python scripts share one SQLAlchemy session. */
module Ledger {
  import opened Text

  const NEW: string := "NEW"
  const PARTIALLY_FILLED: string := "PARTIALLY_FILLED"
  const FILLED: string := "FILLED"
  const CANCELED: string := "CANCELED"
  const BUY: string := "BUY"
  const SELL: string := "SELL"

  /** `Order.status.in_(("NEW", "PARTIALLY_FILLED"))` */
  predicate IsOpenStatus(s: string) {
    s == NEW || s == PARTIALLY_FILLED
  }

  datatype Order = Order(
    id: string, pair: string, side: string,
    price: real, qty: real, filledQty: real,
    status: string, created: int, updated: int,
    paper: bool, reserved: real, mode: string)

  datatype Fill = Fill(
    id: string, orderId: string, pair: string, side: string,
    price: real, qty: real, fee: real, ts: int, mode: string)

  datatype Position = Position(pair: string, qty: real, avg: real, updated: int)

  datatype Capital = Capital(
    pair: string, limitUsd: real, availableUsd: real, realizedPnl: real, updated: int)

  /** What the exchange answers to a placement: an acknowledgement carrying
      the `orderId` field (empty when absent), or an exception. */
  datatype Reply = Ack(orderId: string) | Raise

  /** One row of the exchange's open-order list, as the cancel loops read
      it: order id, symbol and side ("" when absent). */
  datatype Listed = Listed(orderId: string, symbol: string, side: string)

  /** One row of the exchange account's `balances` list. */
  datatype Balance = Balance(asset: string, free: real)

  function FillIds(fs: seq<Fill>): set<string> {
    set i | 0 <= i < |fs| :: fs[i].id
  }

  predicate DistinctIds(fs: seq<Fill>) {
    forall i, j :: 0 <= i < j < |fs| ==> fs[i].id != fs[j].id
  }

  /** An order that the open-order queries of the scripts select. */
  predicate IsOpenOrderOf(o: Order, pair: string, side: string) {
    o.pair == pair && o.side == side && IsOpenStatus(o.status)
  }

  /** The rows of the four tables, each keyed by its primary key
      (`Order.id`, `Fill.id`, `Position.pair`, `Capital.pair`). The fills table
      is kept in insertion order; its key is the fill id. */
  class Store {
    var orders: map<string, Order>
    var fills: seq<Fill>
    var positions: map<string, Position>
    var capital: map<string, Capital>

    ghost predicate Valid()
      reads this
    {
      (forall id :: id in orders ==> orders[id].id == id) &&
      DistinctIds(fills) &&
      (forall p :: p in positions ==> positions[p].pair == p) &&
      (forall p :: p in capital ==> capital[p].pair == p)
    }

    constructor Empty()
      ensures Valid()
      ensures orders == map[] && fills == [] && positions == map[] && capital == map[]
    {
      orders, fills, positions, capital := map[], [], map[], map[];
    }
  }

  /** Keys of the orders map stay the orders' own ids. */
  predicate KeyedById(orders: map<string, Order>) {
    forall id :: id in orders ==> orders[id].id == id
  }

  /** The local part of `cancel_all_buys` (buckets.py) and of the SELL reset in
      avg1.py: every open order of `side` on `pair` becomes CANCELED with
      `updated = now`, whatever the exchange answered to the remote cancels. */
  function CancelOpenSide(orders: map<string, Order>, pair: string, side: string, now: int): (r: map<string, Order>)
    ensures r.Keys == orders.Keys
    ensures forall id :: id in r ==> !IsOpenOrderOf(r[id], pair, side)
    ensures forall id :: id in orders && !IsOpenOrderOf(orders[id], pair, side) ==> r[id] == orders[id]
    ensures forall id :: id in orders && IsOpenOrderOf(orders[id], pair, side) ==>
              r[id] == orders[id].(status := CANCELED, updated := now)
    ensures KeyedById(orders) ==> KeyedById(r)
  {
    map id | id in orders ::
      if IsOpenOrderOf(orders[id], pair, side) then orders[id].(status := CANCELED, updated := now)
      else orders[id]
  }

  /** Lookup of `{b["asset"]: b for b in balances}.get(asset)["free"]`: the
      last row for the asset wins; a missing asset gives 0. */
  function LastFree(bals: seq<Balance>, asset: string): (r: real)
    ensures r == 0.0 || exists i :: 0 <= i < |bals| && bals[i].asset == asset && r == bals[i].free
  {
    if bals == [] then 0.0
    else if bals[|bals| - 1].asset == asset then bals[|bals| - 1].free
    else LastFree(bals[..|bals| - 1], asset)
  }

  /** The id recorded for an acknowledged placement: the exchange's
      `orderId`, or, when the answer has none, `prefix` and the clock. */
  function PlacedId(orderId: string, prefix: string, nowS: int): (r: string)
    ensures orderId != "" ==> r == orderId
    ensures orderId == "" ==> r == prefix + IntToString(nowS)
  {
    if orderId != "" then orderId else prefix + IntToString(nowS)
  }

  /** The row the scripts write for an order they have just placed: NEW,
      nothing filled, live (not paper), created and updated now. */
  function PlacedOrder(id: string, pair: string, side: string, price: real, qty: real,
                       reserved: real, mode: string, nowS: int): (o: Order)
    ensures o.id == id && o.pair == pair && o.side == side && o.status == NEW
    ensures o.price == price && o.qty == qty && o.filledQty == 0.0 && o.reserved == reserved
    ensures o.mode == mode && o.created == nowS && o.updated == nowS && !o.paper
  {
    Order(id, pair, side, price, qty, 0.0, NEW, nowS, nowS, false, reserved, mode)
  }
}
