/** The SELL planner (sell.py): the sellable quantity is the smaller of the
    position and the free base balance, split into a tranche at the channel
    top and one half-way to it, both priced at least avg * (1 + gain) and
    moved up by a micro-shift while a level is taken; tranches below the
    minimum notional are folded into the other one, or replaced by one order
    at the midpoint. Each order is validated, sent and recorded. */
module Sell {
  import opened Wrappers
  import opened Numbers
  import opened Text
  import opened Ledger

  /** The configuration constants the planner reads. */
  datatype SellConfig = SellConfig(
    minUsd: real,      // MIN_ORDER_USD
    split: real,       // SELL_SPLIT, the share of the upper tranche
    minGain: real,     // SELL_MIN_GAIN
    microShift: real)  // SELL_MICROSHIFT

  /** The base asset whose free balance bounds a sale; the script names it. */
  const BaseAsset: string := "KAS"

  datatype Tranche = Tranche(price: real, qty: real)

  // ===================================================================
  // Prices

  datatype SellPrices = SellPrices(mid: real, upper: real)

  /** `build_sell_prices`: the midpoint between last and upper (upper
      replaced by last when not positive) and upper itself, each raised to
      at least avg * (1 + gain). */
  function BuildSellPrices(avg: real, last: real, upper: real, minGain: real): (r: SellPrices)
    ensures var floor := avg * (1.0 + minGain);
            r.mid >= floor && r.upper >= floor
    ensures var u := if upper <= 0.0 then last else upper;
            r.upper == Max(u, avg * (1.0 + minGain)) && r.mid == Max((last + u) / 2.0, avg * (1.0 + minGain))
    ensures upper > 0.0 && last <= upper ==> r.mid <= r.upper
  {
    var u := if upper <= 0.0 then last else upper;
    var floor := avg * (1.0 + minGain);
    SellPrices(Max((last + u) / 2.0, floor), Max(u, floor))
  }

  /** The price after `j` micro-shifts. */
  function ShiftBy(p: real, step: real, j: nat): real {
    if j == 0 then p else ShiftBy(p, step, j - 1) + step
  }

  lemma {:induction false} ShiftByFirst(p: real, step: real, j: nat)
    ensures ShiftBy(p + step, step, j) == ShiftBy(p, step, j + 1)
  {
    if j > 0 {
      ShiftByFirst(p, step, j - 1);
    }
  }

  /** j micro-shifts add j * step. */
  lemma {:induction false} ShiftByLinear(p: real, step: real, j: nat)
    ensures ShiftBy(p, step, j) == p + (j as real) * step
  {
    if j > 0 {
      ShiftByLinear(p, step, j - 1);
      assert ((j - 1) as real) * step + step == (j as real) * step;
    }
  }

  /** How many micro-shifts `shift_if_taken` applies with `fuel` tries left:
      it stops at the first price whose 6-decimal rounding is not taken. */
  function ShiftSteps(p: real, taken: set<real>, step: real, fuel: nat): (k: nat)
    decreases fuel
    ensures k <= fuel
    ensures k == 0 <==> fuel == 0 || Round6(p) !in taken
    ensures k < fuel ==> Round6(ShiftBy(p, step, k)) !in taken
    ensures forall j: nat :: j < k ==> Round6(ShiftBy(p, step, j)) in taken
  {
    if fuel == 0 || Round6(p) !in taken then 0
    else
      var k := ShiftSteps(p + step, taken, step, fuel - 1);
      ShiftByFirst(p, step, k);
      forall j: nat | j < k + 1 ensures Round6(ShiftBy(p, step, j)) in taken {
        if j > 0 {
          ShiftByFirst(p, step, j - 1);
        }
      }
      1 + k
  }

  /** The price `shift_if_taken` returns. */
  function ShiftedPrice(p: real, taken: set<real>, step: real): real {
    ShiftBy(p, step, ShiftSteps(p, taken, step, 3))
  }

  /** `shift_if_taken` never lowers the price for a non-negative step. */
  lemma ShiftedPriceUp(p: real, taken: set<real>, step: real)
    requires step >= 0.0
    ensures ShiftedPrice(p, taken, step) >= p
  {
    ShiftByUp(p, step, ShiftSteps(p, taken, step, 3));
  }

  lemma {:induction false} ShiftByUp(p: real, step: real, j: nat)
    requires step >= 0.0
    ensures ShiftBy(p, step, j) >= p
  {
    if j > 0 {
      ShiftByUp(p, step, j - 1);
    }
  }

  /** `shift_if_taken`: at most three micro-shifts up, stopping at a free
      level; an untaken price is returned unchanged. */
  method ShiftIfTaken(price: real, taken: set<real>, step: real) returns (p: real)
    ensures p == ShiftedPrice(price, taken, step)
    ensures Round6(price) !in taken ==> p == price
  {
    p := price;
    var i := 0;
    while i < 3
      invariant 0 <= i <= 3
      invariant p == ShiftBy(price, step, i)
      invariant ShiftSteps(price, taken, step, 3) == i + ShiftSteps(p, taken, step, 3 - i)
    {
      if Round6(p) !in taken {
        return;
      }
      ShiftByFirst(price, step, i);
      p := p + step;
      i := i + 1;
    }
  }

  // ===================================================================
  // Tranches

  /** `notional_ok` */
  predicate NotionalOk(t: Tranche, minUsd: real) {
    t.price * t.qty >= minUsd && t.qty > 0.0
  }

  function Clamp01(x: real): (r: real)
    ensures 0.0 <= r <= 1.0
    ensures 0.0 <= x <= 1.0 ==> r == x
  {
    Min(Max(x, 0.0), 1.0)
  }

  datatype Split = Split(qUpper: real, qMid: real)

  lemma Floor6Between(x: real)
    requires x >= 0.0
    ensures 0.0 <= Floor6(x) <= x
  {
    Floor6Sign(x);
  }

  lemma ShareOf(a: real, s: real)
    requires a >= 0.0 && 0.0 <= s <= 1.0
    ensures 0.0 <= a * s <= a
  {
    assert a * s <= a * 1.0;
  }

  /** The split of the sellable quantity: floor6(sellable * split) on the
      upper tranche, floor6 of the rest on the mid one. Both are on the
      6-decimal grid, not negative, and together at most the sellable
      quantity. */
  function SplitQty(sellable: real, split: real): (r: Split)
    requires sellable >= 0.0
    ensures r.qUpper >= 0.0 && r.qMid >= 0.0 && r.qUpper + r.qMid <= sellable
    ensures r.qUpper == UpperShare(sellable, split) && r.qMid == Floor6(sellable - r.qUpper)
  {
    var qu := UpperShare(sellable, split);
    Floor6Between(sellable - qu);
    Split(qu, Floor6(sellable - qu))
  }

  /** floor6(sellable * clamp(split, 0, 1)) */
  function UpperShare(sellable: real, split: real): (r: real)
    requires sellable >= 0.0
    ensures 0.0 <= r <= sellable && OnGrid6(r)
  {
    var s := Clamp01(split);
    ShareOf(sellable, s);
    Floor6Between(sellable * s);
    Floor6(sellable * s)
  }

  /** The fold: when exactly one tranche fails the notional check, its
      quantity moves (re-floored) into the other and it becomes 0. */
  function Fold(pMid: real, pUpper: real, s: Split, minUsd: real): (r: Split)
    ensures !NotionalOk(Tranche(pMid, s.qMid), minUsd) && NotionalOk(Tranche(pUpper, s.qUpper), minUsd) ==>
              r == Split(Floor6(s.qUpper + s.qMid), 0.0)
    ensures NotionalOk(Tranche(pMid, s.qMid), minUsd) && !NotionalOk(Tranche(pUpper, s.qUpper), minUsd) ==>
              r == Split(0.0, Floor6(s.qMid + s.qUpper))
    ensures NotionalOk(Tranche(pMid, s.qMid), minUsd) == NotionalOk(Tranche(pUpper, s.qUpper), minUsd) ==> r == s
    ensures r.qUpper + r.qMid <= s.qUpper + s.qMid
    ensures s.qUpper >= 0.0 && s.qMid >= 0.0 ==> r.qUpper >= 0.0 && r.qMid >= 0.0
  {
    var okMid := NotionalOk(Tranche(pMid, s.qMid), minUsd);
    var okUp := NotionalOk(Tranche(pUpper, s.qUpper), minUsd);
    Floor6Sign(s.qUpper + s.qMid);
    if !okMid && okUp then Split(Floor6(s.qUpper + s.qMid), 0.0)
    else if !okUp && okMid then Split(0.0, Floor6(s.qMid + s.qUpper))
    else s
  }

  function SumQty(ts: seq<Tranche>): real {
    if ts == [] then 0.0 else SumQty(ts[..|ts| - 1]) + ts[|ts| - 1].qty
  }

  lemma SumQtyShort(a: Tranche, b: Tranche)
    ensures SumQty([a]) == a.qty
    ensures SumQty([a, b]) == a.qty + b.qty
  {
    assert [a, b][..1] == [a];
  }

  /** The orders `main` hands to `place_limit_sell`, from the (shifted)
      prices and the sellable quantity: one merged order when both tranches
      fail, else the upper then the mid tranche after the fold, each only
      when it passes the notional check. */
  function Tranches(pMid: real, pUpper: real, sellable: real, split: real, minUsd: real): (r: seq<Tranche>)
    requires sellable >= 0.0
    ensures |r| <= 2
    ensures forall k :: 0 <= k < |r| ==> NotionalOk(r[k], minUsd) && OnGrid6(r[k].qty)
    ensures forall k :: 0 <= k < |r| ==> r[k].price == pMid || r[k].price == pUpper
    ensures SumQty(r) <= sellable
    ensures var s := SplitQty(sellable, split);
            !NotionalOk(Tranche(pMid, s.qMid), minUsd) && !NotionalOk(Tranche(pUpper, s.qUpper), minUsd) ==>
              r == (if NotionalOk(Tranche(pMid, Floor6(sellable)), minUsd) then [Tranche(pMid, Floor6(sellable))] else [])
    ensures var s := SplitQty(sellable, split);
            var f := Fold(pMid, pUpper, s, minUsd);
            NotionalOk(Tranche(pMid, s.qMid), minUsd) || NotionalOk(Tranche(pUpper, s.qUpper), minUsd) ==>
              r == (if NotionalOk(Tranche(pUpper, f.qUpper), minUsd) then [Tranche(pUpper, f.qUpper)] else []) +
                   (if NotionalOk(Tranche(pMid, f.qMid), minUsd) then [Tranche(pMid, f.qMid)] else [])
  {
    var s := SplitQty(sellable, split);
    var okMid := NotionalOk(Tranche(pMid, s.qMid), minUsd);
    var okUp := NotionalOk(Tranche(pUpper, s.qUpper), minUsd);
    if !okMid && !okUp then
      var one := Tranche(pMid, Floor6(sellable));
      Floor6Sign(sellable);
      if NotionalOk(one, minUsd) then
        assert SumQty([one]) == one.qty;
        [one]
      else []
    else
      var f := Fold(pMid, pUpper, s, minUsd);
      var up := Tranche(pUpper, f.qUpper);
      var mid := Tranche(pMid, f.qMid);
      Floor6Sign(sellable * Clamp01(split));
      Floor6Sign(sellable - s.qUpper);
      Floor6Sign(s.qUpper + s.qMid);
      assert OnGrid6(f.qUpper) && OnGrid6(f.qMid) by {
        Floor6Sign(s.qUpper + s.qMid);
      }
      var r := (if NotionalOk(up, minUsd) then [up] else []) + (if NotionalOk(mid, minUsd) then [mid] else []);
      assert SumQty(r) <= f.qUpper + f.qMid by {
        SumQtyShort(up, mid);
        SumQtyShort(mid, up);
      }
      r
  }

  /** A tranche on the grid that passes the notional check still passes when
      a non-negative quantity is added to it and the sum is floored. */
  lemma GrowPasses(p: real, q: real, extra: real, minUsd: real)
    requires p >= 0.0 && extra >= 0.0 && OnGrid6(q) && NotionalOk(Tranche(p, q), minUsd)
    ensures Floor6(q + extra) >= q && NotionalOk(Tranche(p, Floor6(q + extra)), minUsd)
  {
    var f := Floor6(q + extra);
    Floor6OfGrid(q);
    Floor6Monotone(q, q + extra);
    NonNegMul(p, f - q);
    assert p * f == p * q + p * (f - q);
  }

  /** A tranche that passes the notional check still passes after the other
      one is folded into it, and the emptied tranche is not placed. */
  lemma FoldPasses(pMid: real, pUpper: real, s: Split, minUsd: real)
    requires pMid >= 0.0 && pUpper >= 0.0 && s.qUpper >= 0.0 && s.qMid >= 0.0
    requires OnGrid6(s.qUpper) && OnGrid6(s.qMid)
    ensures var f := Fold(pMid, pUpper, s, minUsd);
            var okMid := NotionalOk(Tranche(pMid, s.qMid), minUsd);
            var okUp := NotionalOk(Tranche(pUpper, s.qUpper), minUsd);
            && (okUp && !okMid ==> NotionalOk(Tranche(pUpper, f.qUpper), minUsd) && !NotionalOk(Tranche(pMid, f.qMid), minUsd) &&
                                    f.qUpper >= s.qUpper)
            && (okMid && !okUp ==> NotionalOk(Tranche(pMid, f.qMid), minUsd) && !NotionalOk(Tranche(pUpper, f.qUpper), minUsd) &&
                                    f.qMid >= s.qMid)
  {
    var okMid := NotionalOk(Tranche(pMid, s.qMid), minUsd);
    var okUp := NotionalOk(Tranche(pUpper, s.qUpper), minUsd);
    if okUp && !okMid {
      GrowPasses(pUpper, s.qUpper, s.qMid, minUsd);
    } else if okMid && !okUp {
      GrowPasses(pMid, s.qMid, s.qUpper, minUsd);
    }
  }

  /** Whenever one tranche of the split passes the notional check,
      something is placed: both tranches as split when both pass, otherwise
      the whole (re-floored) quantity on the tranche that passes, which never
      drops below what that tranche had. */
  lemma TranchesFold(pMid: real, pUpper: real, sellable: real, split: real, minUsd: real)
    requires sellable >= 0.0 && pMid >= 0.0 && pUpper >= 0.0
    ensures var s := SplitQty(sellable, split);
            var r := Tranches(pMid, pUpper, sellable, split, minUsd);
            var okMid := NotionalOk(Tranche(pMid, s.qMid), minUsd);
            var okUp := NotionalOk(Tranche(pUpper, s.qUpper), minUsd);
            && (okMid && okUp ==> r == [Tranche(pUpper, s.qUpper), Tranche(pMid, s.qMid)])
            && (okUp && !okMid ==> r == [Tranche(pUpper, Floor6(s.qUpper + s.qMid))] &&
                                    Floor6(s.qUpper + s.qMid) >= s.qUpper)
            && (okMid && !okUp ==> r == [Tranche(pMid, Floor6(s.qMid + s.qUpper))] &&
                                    Floor6(s.qMid + s.qUpper) >= s.qMid)
  {
    var s := SplitQty(sellable, split);
    FoldPasses(pMid, pUpper, s, minUsd);
  }

  // ===================================================================
  // Placement

  /** The validation of `place_limit_sell`: price and quantity (clamped at
      zero) must be positive, the notional of the quantity BEFORE rounding
      must reach the minimum, and the floor6 of the quantity must be positive;
      that floor6 is what is sent. */
  function SellQty(price: real, qty: real, minUsd: real): (r: Option<real>)
    ensures r.None? <==> price <= 0.0 || qty <= 0.0 || price * qty < minUsd || qty < Tick6
    ensures r.Some? ==> r.value == Floor6(qty) && 0.0 < r.value <= qty && price * qty >= minUsd
  {
    var p := Max(0.0, price);
    var q := Max(0.0, qty);
    if p <= 0.0 || q <= 0.0 then None
    else if p * q < minUsd then None
    else
      Floor6Sign(q);
      var fq := Floor6(q);
      if fq <= 0.0 then None else Some(fq)
  }

  /** The notional check comes before the rounding, so a quantity whose
      rounded notional is below the minimum can still be accepted. `main`
      only passes quantities already on the grid, where the two agree. */
  lemma SellNotionalCheckedBeforeFloor()
    ensures var r := SellQty(10.0, 1.0000005, 10.000001);
            r == Some(1.0) && 10.0 * r.value < 10.000001
  {
    assert Floor6(1.0000005) == 1.0 by {
      assert (1.0000005 * Scale6).Floor == 1000000;
    }
  }

  /** On the grid `place_limit_sell` sends the quantity it is given. */
  lemma SellQtyOnGrid(t: Tranche, minUsd: real)
    requires NotionalOk(t, minUsd) && OnGrid6(t.qty) && t.price > 0.0
    ensures SellQty(t.price, t.qty, minUsd) == Some(t.qty)
  {
    Floor6OfGrid(t.qty);
    Floor6Sign(t.qty);
  }

  function SellPlaced(orders: map<string, Order>, pair: string, t: Tranche, minUsd: real, reply: Reply, nowS: int): map<string, Order> {
    match SellQty(t.price, t.qty, minUsd)
    case None => orders
    case Some(q) =>
      match reply
      case Raise => orders
      case Ack(oid) =>
        var id := PlacedId(oid, "SELL_", nowS);
        orders[id := PlacedOrder(id, pair, SELL, t.price, q, 0.0, "GRID", nowS)]
  }

  method PlaceLimitSell(db: Store, pair: string, t: Tranche, minUsd: real, reply: Reply, nowS: int) returns (ok: bool)
    requires db.Valid()
    modifies db`orders
    ensures db.Valid()
    ensures ok <==> SellQty(t.price, t.qty, minUsd).Some? && reply.Ack?
    ensures db.orders == SellPlaced(old(db.orders), pair, t, minUsd, reply, nowS)
  {
    var price := Max(0.0, t.price);
    var qty := Max(0.0, t.qty);
    if price <= 0.0 || qty <= 0.0 {
      return false;
    }
    if price * qty < minUsd {
      return false;
    }
    qty := Floor6(qty);
    if qty <= 0.0 {
      return false;
    }
    if reply.Raise? {
      return false;
    }
    var id := PlacedId(reply.orderId, "SELL_", nowS);
    db.orders := db.orders[id := PlacedOrder(id, pair, SELL, price, qty, 0.0, "GRID", nowS)];
    ok := true;
  }

  function SellsPlaced(orders: map<string, Order>, pair: string, ts: seq<Tranche>, minUsd: real, replies: seq<Reply>, nowS: int): map<string, Order>
    requires |replies| == |ts|
  {
    if ts == [] then orders
    else
      var n := |ts| - 1;
      SellPlaced(SellsPlaced(orders, pair, ts[..n], minUsd, replies[..n], nowS), pair, ts[n], minUsd, replies[n], nowS)
  }

  // ===================================================================
  // One run

  /** `get_position`: quantity and average of the pair, zeros without a row. */
  function PositionOf(positions: map<string, Position>, pair: string): (real, real) {
    if pair in positions then (positions[pair].qty, positions[pair].avg) else (0.0, 0.0)
  }

  /** `exchange_free_base`: the free balance of the first row whose asset
      upper-cases to the base asset, 0 when there is none. */
  function FreeBase(bals: seq<Balance>): (r: real)
    ensures r == 0.0 || exists i :: 0 <= i < |bals| && Upper(bals[i].asset) == BaseAsset && r == bals[i].free
  {
    if bals == [] then 0.0
    else if Upper(bals[0].asset) == BaseAsset then bals[0].free
    else
      var r := FreeBase(bals[1..]);
      assert forall i :: 0 <= i < |bals| - 1 ==> bals[1..][i] == bals[i + 1];
      r
  }

  /** `open_prices`: the 6-decimal prices of the pair's open SELL rows. */
  function OpenSellPrices(orders: map<string, Order>, pair: string): set<real> {
    set id | id in orders && IsOpenOrderOf(orders[id], pair, SELL) :: Round6(orders[id].price)
  }

  /** Everything `main` hands to `place_limit_sell` in one run: nothing
      without a position or free base, else the tranches at the shifted prices. */
  function SellPlan(cfg: SellConfig, pos: (real, real), freeBase: real, last: real, upper: real, taken: set<real>): (r: seq<Tranche>)
    ensures pos.0 <= 0.0 || freeBase <= 0.0 ==> r == []
    ensures forall k :: 0 <= k < |r| ==> NotionalOk(r[k], cfg.minUsd) && OnGrid6(r[k].qty)
    ensures cfg.microShift >= 0.0 ==> forall k :: 0 <= k < |r| ==> r[k].price >= pos.1 * (1.0 + cfg.minGain)
    ensures SumQty(r) <= Max(0.0, Min(pos.0, freeBase))
    ensures |r| <= 2
    ensures var prices := BuildSellPrices(pos.1, last, upper, cfg.minGain);
            pos.0 > 0.0 && freeBase > 0.0 ==>
              r == Tranches(ShiftedPrice(prices.mid, taken, cfg.microShift), ShiftedPrice(prices.upper, taken, cfg.microShift),
                            Min(pos.0, freeBase), cfg.split, cfg.minUsd)
  {
    if pos.0 <= 0.0 || freeBase <= 0.0 then []
    else
      var sellable := Min(pos.0, freeBase);
      var prices := BuildSellPrices(pos.1, last, upper, cfg.minGain);
      var pMid := ShiftedPrice(prices.mid, taken, cfg.microShift);
      var pUpper := ShiftedPrice(prices.upper, taken, cfg.microShift);
      var r := Tranches(pMid, pUpper, sellable, cfg.split, cfg.minUsd);
      if cfg.microShift >= 0.0 then
        ShiftedPriceUp(prices.mid, taken, cfg.microShift);
        ShiftedPriceUp(prices.upper, taken, cfg.microShift);
        r
      else r
  }

  /** The shape of every SELL row `main` writes: a NEW GRID SELL of the pair
      with a positive quantity on the grid, worth at least the minimum. */
  predicate IsGridSell(o: Order, pair: string, minUsd: real) {
    o.pair == pair && o.side == SELL && o.status == NEW && o.filledQty == 0.0 && o.reserved == 0.0 &&
    o.mode == "GRID" && o.qty > 0.0 && o.price * o.qty >= minUsd
  }

  /** One placement writes at most one row, a valid GRID SELL carrying the
      tranche's price and quantity. */
  lemma SellPlacedRow(orders: map<string, Order>, pair: string, t: Tranche, minUsd: real, reply: Reply, nowS: int)
    requires NotionalOk(t, minUsd) && OnGrid6(t.qty)
    ensures var r := SellPlaced(orders, pair, t, minUsd, reply, nowS);
            orders.Keys <= r.Keys &&
            forall id :: id in r ==> (id in orders && r[id] == orders[id]) ||
                                     (IsGridSell(r[id], pair, minUsd) && r[id].price == t.price && r[id].qty == t.qty)
    ensures KeyedById(orders) ==> KeyedById(SellPlaced(orders, pair, t, minUsd, reply, nowS))
  {
    if t.price > 0.0 {
      SellQtyOnGrid(t, minUsd);
    }
  }

  /** Every row the placement loop writes is a valid GRID SELL at a planned
      price and quantity; no row is removed and others are untouched. */
  lemma {:induction false} SellsPlacedRows(orders: map<string, Order>, pair: string, ts: seq<Tranche>, minUsd: real, replies: seq<Reply>, nowS: int)
    requires |replies| == |ts|
    requires forall k :: 0 <= k < |ts| ==> NotionalOk(ts[k], minUsd) && OnGrid6(ts[k].qty)
    ensures var r := SellsPlaced(orders, pair, ts, minUsd, replies, nowS);
            orders.Keys <= r.Keys &&
            forall id :: id in r ==> (id in orders && r[id] == orders[id]) ||
                                     (IsGridSell(r[id], pair, minUsd) && Tranche(r[id].price, r[id].qty) in ts)
    ensures KeyedById(orders) ==> KeyedById(SellsPlaced(orders, pair, ts, minUsd, replies, nowS))
  {
    if ts != [] {
      var n := |ts| - 1;
      var pre := ts[..n];
      assert forall k :: 0 <= k < |pre| ==> pre[k] == ts[k];
      SellsPlacedRows(orders, pair, pre, minUsd, replies[..n], nowS);
      var mid := SellsPlaced(orders, pair, pre, minUsd, replies[..n], nowS);
      SellPlacedRow(mid, pair, ts[n], minUsd, replies[n], nowS);
      assert forall u :: u in pre ==> u in ts;
    }
  }

  method PlaceSells(db: Store, pair: string, ts: seq<Tranche>, minUsd: real, replies: seq<Reply>, nowS: int)
    requires db.Valid() && |replies| == |ts|
    modifies db`orders
    ensures db.Valid()
    ensures db.orders == SellsPlaced(old(db.orders), pair, ts, minUsd, replies, nowS)
  {
    var i := 0;
    while i < |ts|
      invariant 0 <= i <= |ts|
      invariant db.Valid()
      invariant db.orders == SellsPlaced(old(db.orders), pair, ts[..i], minUsd, replies[..i], nowS)
    {
      assert ts[..i + 1][..i] == ts[..i] && replies[..i + 1][..i] == replies[..i];
      var _ := PlaceLimitSell(db, pair, ts[i], minUsd, replies[i], nowS);
      i := i + 1;
    }
    assert ts[..|ts|] == ts && replies[..|replies|] == replies;
  }

  /** One run of sell.py against the store. */
  method SellTick(db: Store, cfg: SellConfig, pair: string, last: real, upper: real,
                  balances: seq<Balance>, replies: seq<Reply>, nowS: int)
    requires db.Valid()
    requires |replies| == |SellPlan(cfg, PositionOf(db.positions, pair), FreeBase(balances), last, upper,
                                     OpenSellPrices(db.orders, pair))|
    modifies db`orders
    ensures db.Valid()
    ensures var plan := SellPlan(cfg, PositionOf(db.positions, pair), FreeBase(balances), last, upper,
                                 OpenSellPrices(old(db.orders), pair));
            db.orders == SellsPlaced(old(db.orders), pair, plan, cfg.minUsd, replies, nowS)
  {
    var pos := PositionOf(db.positions, pair);
    var free := FreeBase(balances);
    if pos.0 <= 0.0 || free <= 0.0 {
      return;
    }
    var sellable := Min(pos.0, free);
    var prices := BuildSellPrices(pos.1, last, upper, cfg.minGain);
    var taken := OpenSellPrices(db.orders, pair);
    var pMid := ShiftIfTaken(prices.mid, taken, cfg.microShift);
    var pUpper := ShiftIfTaken(prices.upper, taken, cfg.microShift);
    var plan := Tranches(pMid, pUpper, sellable, cfg.split, cfg.minUsd);
    PlaceSells(db, pair, plan, cfg.minUsd, replies, nowS);
  }
}
