/** Consolidation (consolidate.py): when one side has more open orders than
    its limit, the farthest ones are cancelled and consecutive pairs of them
    are replaced by one merged order each. "Farthest" means the lowest BUY
    prices and the highest SELL prices. */
module Consolidate {
  import opened Numbers
  import opened Text
  import opened Ledger

  // ===================================================================
  // Pairing

  /** Consecutive pairs (items[0], items[1]), (items[2], items[3]), ...; an
      odd trailing item is dropped. */
  function Pairs<T>(items: seq<T>): (r: seq<(T, T)>)
    ensures |r| == |items| / 2
    decreases |items|
  {
    if |items| < 2 then [] else [(items[0], items[1])] + Pairs(items[2..])
  }

  /** The shape of the pairing: floor(n/2) pairs, the i-th made of items
      2i and 2i+1. */
  lemma {:induction false} PairsShape<T>(items: seq<T>)
    ensures |Pairs(items)| == |items| / 2
    ensures forall i :: 0 <= i < |items| / 2 ==> Pairs(items)[i] == (items[2 * i], items[2 * i + 1])
    decreases |items|
  {
    if |items| >= 2 {
      var rest := items[2..];
      PairsShape(rest);
      forall i | 1 <= i < |items| / 2
        ensures Pairs(items)[i] == (items[2 * i], items[2 * i + 1])
      {
        assert Pairs(items)[i] == Pairs(rest)[i - 1];
        assert rest[2 * (i - 1)] == items[2 * i] && rest[2 * (i - 1) + 1] == items[2 * i + 1];
      }
    }
  }

  /** `_pairwise`: walks the list with one iterator, taking two items at a
      time and stopping when the second is missing. */
  method Pairwise<T>(items: seq<T>) returns (out: seq<(T, T)>)
    ensures out == Pairs(items)
    ensures |out| == |items| / 2
    ensures forall i :: 0 <= i < |out| ==> out[i] == (items[2 * i], items[2 * i + 1])
  {
    out := [];
    var i := 0;
    while i + 1 < |items|
      invariant 0 <= i <= |items|
      invariant out + Pairs(items[i..]) == Pairs(items)
      decreases |items| - i
    {
      assert items[i..][2..] == items[i + 2..];
      out := out + [(items[i], items[i + 1])];
      i := i + 2;
    }
    assert |items[i..]| < 2;
    PairsShape(items);
  }

  // ===================================================================
  // The open-order listing

  /** The sort key of `_load_open`: ascending price for BUY, descending
      for SELL. */
  function Rank(o: Order, side: string): real {
    if side == BUY then o.price else -o.price
  }

  predicate Ranked(r: seq<Order>, side: string) {
    forall i, j :: 0 <= i < j < |r| ==> Rank(r[i], side) <= Rank(r[j], side)
  }

  predicate DistinctOrderIds(r: seq<Order>) {
    forall i, j :: 0 <= i < j < |r| ==> r[i].id != r[j].id
  }

  lemma RankedCons(a: Order, rest: seq<Order>, side: string)
    ensures Ranked([a] + rest, side) <==> Ranked(rest, side) && forall x :: x in rest ==> Rank(a, side) <= Rank(x, side)
  {
    var s := [a] + rest;
    assert forall k :: 0 <= k < |rest| ==> s[k + 1] == rest[k];
    if Ranked(rest, side) && forall x :: x in rest ==> Rank(a, side) <= Rank(x, side) {
      forall i, j | 0 <= i < j < |s| ensures Rank(s[i], side) <= Rank(s[j], side) {
        assert s[j] == rest[j - 1];
        if i > 0 { assert s[i] == rest[i - 1]; }
      }
    }
    if Ranked(s, side) {
      forall x | x in rest ensures Rank(a, side) <= Rank(x, side) {
        var k :| 0 <= k < |rest| && rest[k] == x;
        assert s[k + 1] == x && s[0] == a;
        assert Rank(s[0], side) <= Rank(s[k + 1], side);
      }
      forall i, j | 0 <= i < j < |rest| ensures Rank(rest[i], side) <= Rank(rest[j], side) {
        assert s[i + 1] == rest[i] && s[j + 1] == rest[j];
      }
    }
  }

  lemma DistinctCons(a: Order, rest: seq<Order>)
    ensures DistinctOrderIds([a] + rest) <==> DistinctOrderIds(rest) && forall x :: x in rest ==> x.id != a.id
  {
    var s := [a] + rest;
    assert forall k :: 0 <= k < |rest| ==> s[k + 1] == rest[k];
    if DistinctOrderIds(rest) && forall x :: x in rest ==> x.id != a.id {
      forall i, j | 0 <= i < j < |s| ensures s[i].id != s[j].id {
        assert s[j] == rest[j - 1];
        if i > 0 { assert s[i] == rest[i - 1]; }
      }
    }
    if DistinctOrderIds(s) {
      forall x | x in rest ensures x.id != a.id {
        var k :| 0 <= k < |rest| && rest[k] == x;
        assert s[k + 1] == x && s[0] == a;
        assert s[0].id != s[k + 1].id;
      }
      forall i, j | 0 <= i < j < |rest| ensures rest[i].id != rest[j].id {
        assert s[i + 1] == rest[i] && s[j + 1] == rest[j];
      }
    }
  }

  /** One step of the ordered listing: `o` goes before the first order
      that does not rank below it. */
  function InsertRanked(r: seq<Order>, o: Order, side: string): (s: seq<Order>)
    ensures |s| == |r| + 1
    ensures forall x :: x in s <==> x in r || x == o
    decreases |r|
  {
    if r == [] then [o]
    else if Rank(o, side) <= Rank(r[0], side) then [o] + r
    else
      assert forall x :: x in r <==> x == r[0] || x in r[1..];
      [r[0]] + InsertRanked(r[1..], o, side)
  }

  lemma {:induction false} InsertRankedKeeps(r: seq<Order>, o: Order, side: string)
    ensures Ranked(r, side) ==> Ranked(InsertRanked(r, o, side), side)
    ensures DistinctOrderIds(r) && (forall x :: x in r ==> x.id != o.id) ==> DistinctOrderIds(InsertRanked(r, o, side))
    decreases |r|
  {
    if r != [] {
      assert r == [r[0]] + r[1..];
      RankedCons(r[0], r[1..], side);
      DistinctCons(r[0], r[1..]);
      if Rank(o, side) <= Rank(r[0], side) {
        RankedCons(o, r, side);
        DistinctCons(o, r);
      } else {
        var rest := InsertRanked(r[1..], o, side);
        InsertRankedKeeps(r[1..], o, side);
        RankedCons(r[0], rest, side);
        DistinctCons(r[0], rest);
      }
    }
  }

  /** `_load_open(side)`: the open orders of the pair on one side, each once,
      in the order of the query. Orders of equal price may come in any
      order. */
  predicate OpenListing(orders: map<string, Order>, pair: string, side: string, r: seq<Order>) {
    (forall k :: 0 <= k < |r| ==> r[k].id in orders && orders[r[k].id] == r[k] && IsOpenOrderOf(r[k], pair, side)) &&
    (forall id :: id in orders && IsOpenOrderOf(orders[id], pair, side) ==> orders[id] in r) &&
    DistinctOrderIds(r) &&
    Ranked(r, side)
  }

  function OpenIdsOf(orders: map<string, Order>, pair: string, side: string): set<string> {
    set id | id in orders && IsOpenOrderOf(orders[id], pair, side)
  }

  /** `_load_open` */
  method LoadOpen(db: Store, pair: string, side: string) returns (r: seq<Order>)
    requires db.Valid()
    ensures OpenListing(db.orders, pair, side, r)
    ensures |r| == |OpenIdsOf(db.orders, pair, side)|
  {
    var open := OpenIdsOf(db.orders, pair, side);
    var left := open;
    r := [];
    while left != {}
      invariant left <= open
      invariant forall x :: x in r ==> x.id in open - left && db.orders[x.id] == x
      invariant forall id :: id in open - left ==> db.orders[id] in r
      invariant DistinctOrderIds(r) && Ranked(r, side)
      invariant |r| + |left| == |open|
      decreases |left|
    {
      var id :| id in left;
      var o := db.orders[id];
      assert o.id == id;
      InsertRankedKeeps(r, o, side);
      r := InsertRanked(r, o, side);
      left := left - {id};
    }
  }

  // ===================================================================
  // Cancelling

  function IdsOf(r: seq<Order>): set<string> {
    set k | 0 <= k < |r| :: r[k].id
  }

  /** The local part of `_cancel_orders`: each listed order that is still
      open becomes CANCELED with `updated = now`; every other row is left
      alone, whatever the exchange answered. */
  function CancelIds(orders: map<string, Order>, ids: set<string>, now: int): (r: map<string, Order>)
    ensures r.Keys == orders.Keys
    ensures forall id :: id in ids && id in orders && IsOpenStatus(orders[id].status) ==>
              r[id] == orders[id].(status := CANCELED, updated := now)
    ensures forall id :: id in orders && (id !in ids || !IsOpenStatus(orders[id].status)) ==> r[id] == orders[id]
    ensures KeyedById(orders) ==> KeyedById(r)
  {
    map id | id in orders ::
      if id in ids && IsOpenStatus(orders[id].status) then orders[id].(status := CANCELED, updated := now)
      else orders[id]
  }

  /** Cancelling one more id on top of the ones done. */
  lemma CancelOneMore(orders: map<string, Order>, ids: set<string>, id: string, now: int)
    ensures var cur := CancelIds(orders, ids, now);
            CancelIds(orders, ids + {id}, now) ==
            if id in cur && IsOpenStatus(cur[id].status) then cur[id := cur[id].(status := CANCELED, updated := now)]
            else cur
  {
  }

  /** `_cancel_orders` */
  method CancelOrders(db: Store, listed: seq<Order>, nowS: int)
    requires db.Valid()
    modifies db`orders
    ensures db.Valid()
    ensures db.orders == CancelIds(old(db.orders), IdsOf(listed), nowS)
  {
    for i := 0 to |listed|
      invariant db.orders == CancelIds(old(db.orders), IdsOf(listed[..i]), nowS)
      invariant db.Valid()
    {
      var id := listed[i].id;
      assert IdsOf(listed[..i + 1]) == IdsOf(listed[..i]) + {id} by {
        assert forall k :: 0 <= k < i ==> listed[..i + 1][k] == listed[..i][k];
        assert listed[..i + 1][i].id == id;
      }
      CancelOneMore(old(db.orders), IdsOf(listed[..i]), id, nowS);
      if id in db.orders && IsOpenStatus(db.orders[id].status) {
        db.orders := db.orders[id := db.orders[id].(status := CANCELED, updated := nowS)];
      }
    }
    assert listed[..|listed|] == listed;
  }

  // ===================================================================
  // Placing a merged order

  /** What one placement did: nothing (rejected before any request), a row
      recorded under `id`, or an exception from the exchange, which the
      consolidation does not catch. */
  datatype Placement = Skipped | Placed(id: string) | Crashed

  /** The id of a merged order: `DRY_<SIDE>_<now>` in a dry run, else the
      exchange's `orderId`, or `<SIDE>_<now>` when it has none. */
  function MergedId(side: string, dry: bool, oid: string, nowS: int): (r: string)
    ensures dry ==> r == "DRY_" + side + "_" + IntToString(nowS)
    ensures !dry && oid != "" ==> r == oid
    ensures !dry && oid == "" ==> r == side + "_" + IntToString(nowS)
  {
    if dry then "DRY_" + side + "_" + IntToString(nowS) else PlacedId(oid, side + "_", nowS)
  }

  function AckId(reply: Reply): string {
    if reply.Ack? then reply.orderId else ""
  }

  /** `_place_buy`: rejected when the size is under the minimum, the price
      is not positive or the floored quantity is not positive; otherwise a
      NEW CONSOLIDATE BUY reserving the size is merged in. */
  function BuyMerge(orders: map<string, Order>, pair: string, price: real, usd: real, minUsd: real,
                    dry: bool, reply: Reply, nowS: int): (r: (map<string, Order>, Placement))
    ensures r.1.Skipped? <==> usd < minUsd || price <= 0.0 || Floor6(usd / price) <= 0.0
    ensures r.1.Crashed? <==> !r.1.Skipped? && !dry && reply.Raise?
    ensures !r.1.Placed? ==> r.0 == orders
    ensures r.1.Placed? ==> r.1.id == MergedId(BUY, dry, AckId(reply), nowS)
    ensures r.1.Placed? ==> r.0 == orders[r.1.id := PlacedOrder(r.1.id, pair, BUY, price, Floor6(usd / price), usd, "CONSOLIDATE", nowS)]
    ensures r.1.Placed? ==> 0.0 < Floor6(usd / price)
  {
    if usd < minUsd || price <= 0.0 then (orders, Skipped)
    else
      var q := Floor6(usd / price);
      if q <= 0.0 then (orders, Skipped)
      else if !dry && reply.Raise? then (orders, Crashed)
      else
        var id := MergedId(BUY, dry, AckId(reply), nowS);
        (orders[id := PlacedOrder(id, pair, BUY, price, q, usd, "CONSOLIDATE", nowS)], Placed(id))
  }

  /** `_place_sell`: the quantity is floored first; rejected when it or the
      price is not positive. There is no minimum-notional check. */
  function SellMerge(orders: map<string, Order>, pair: string, price: real, qty: real,
                     dry: bool, reply: Reply, nowS: int): (r: (map<string, Order>, Placement))
    ensures r.1.Skipped? <==> Floor6(qty) <= 0.0 || price <= 0.0
    ensures r.1.Crashed? <==> !r.1.Skipped? && !dry && reply.Raise?
    ensures !r.1.Placed? ==> r.0 == orders
    ensures r.1.Placed? ==> r.1.id == MergedId(SELL, dry, AckId(reply), nowS)
    ensures r.1.Placed? ==> r.0 == orders[r.1.id := PlacedOrder(r.1.id, pair, SELL, price, Floor6(qty), 0.0, "CONSOLIDATE", nowS)]
    ensures r.1.Placed? ==> 0.0 < Floor6(qty) <= qty
  {
    var q := Floor6(qty);
    if q <= 0.0 || price <= 0.0 then (orders, Skipped)
    else if !dry && reply.Raise? then (orders, Crashed)
    else
      var id := MergedId(SELL, dry, AckId(reply), nowS);
      (orders[id := PlacedOrder(id, pair, SELL, price, q, 0.0, "CONSOLIDATE", nowS)], Placed(id))
  }

  method PlaceBuy(db: Store, pair: string, price: real, usd: real, minUsd: real, dry: bool, reply: Reply, nowS: int)
    returns (p: Placement)
    requires db.Valid()
    modifies db`orders
    ensures db.Valid()
    ensures (db.orders, p) == BuyMerge(old(db.orders), pair, price, usd, minUsd, dry, reply, nowS)
  {
    if usd < minUsd || price <= 0.0 {
      return Skipped;
    }
    var qty := Floor6(usd / price);
    if qty <= 0.0 {
      return Skipped;
    }
    var oid := "";
    if !dry {
      if reply.Raise? {
        return Crashed;
      }
      oid := reply.orderId;
    }
    var id := MergedId(BUY, dry, oid, nowS);
    db.orders := db.orders[id := PlacedOrder(id, pair, BUY, price, qty, usd, "CONSOLIDATE", nowS)];
    p := Placed(id);
  }

  method PlaceSell(db: Store, pair: string, price: real, qty: real, dry: bool, reply: Reply, nowS: int)
    returns (p: Placement)
    requires db.Valid()
    modifies db`orders
    ensures db.Valid()
    ensures (db.orders, p) == SellMerge(old(db.orders), pair, price, qty, dry, reply, nowS)
  {
    var q := Floor6(qty);
    if q <= 0.0 || price <= 0.0 {
      return Skipped;
    }
    var oid := "";
    if !dry {
      if reply.Raise? {
        return Crashed;
      }
      oid := reply.orderId;
    }
    var id := MergedId(SELL, dry, oid, nowS);
    db.orders := db.orders[id := PlacedOrder(id, pair, SELL, price, q, 0.0, "CONSOLIDATE", nowS)];
    p := Placed(id);
  }

  // ===================================================================
  // Open SELLs at a price

  const Tolerance: real := 0.000001

  /** `_nearest_existing_at_price`: the open SELLs of the pair priced within
      the relative tolerance of `price`, bounds included. */
  function DupIds(orders: map<string, Order>, pair: string, price: real): (r: set<string>)
    ensures r <= orders.Keys
    ensures forall id :: id in r <==> id in orders && IsOpenOrderOf(orders[id], pair, SELL) &&
                                      price * (1.0 - Tolerance) <= orders[id].price <= price * (1.0 + Tolerance)
  {
    set id | id in orders && IsOpenOrderOf(orders[id], pair, SELL) &&
             price * (1.0 - Tolerance) <= orders[id].price <= price * (1.0 + Tolerance)
  }

  ghost function Pick(s: set<string>): string
    requires s != {}
  {
    var x :| x in s; x
  }

  /** The total quantity of a set of rows. */
  ghost function QtyOver(orders: map<string, Order>, ids: set<string>): real
    requires ids <= orders.Keys
    decreases ids
  {
    if ids == {} then 0.0
    else
      var x := Pick(ids);
      orders[x].qty + QtyOver(orders, ids - {x})
  }

  /** The total does not depend on the order the rows are visited in. */
  lemma {:induction false} QtyOverRemove(orders: map<string, Order>, ids: set<string>, x: string)
    requires ids <= orders.Keys && x in ids
    ensures QtyOver(orders, ids) == orders[x].qty + QtyOver(orders, ids - {x})
    decreases ids
  {
    var y := Pick(ids);
    if y != x {
      QtyOverRemove(orders, ids - {y}, x);
      QtyOverRemove(orders, ids - {x}, y);
      assert ids - {y} - {x} == ids - {x} - {y};
    }
  }

  lemma {:induction false} QtyOverNonNegative(orders: map<string, Order>, ids: set<string>)
    requires ids <= orders.Keys
    requires forall id :: id in ids ==> orders[id].qty >= 0.0
    ensures QtyOver(orders, ids) >= 0.0
    decreases ids
  {
    if ids != {} {
      QtyOverNonNegative(orders, ids - {Pick(ids)});
    }
  }

  // ===================================================================
  // The two consolidation passes

  /** The limits of one side: enabled, the open count above which the pass
      runs, how many far orders to cancel and how many merged orders to
      place. */
  datatype SideConfig = SideConfig(enabled: bool, limitOver: nat, toCancel: nat, placeCount: nat)

  /** The report of one pass. */
  datatype Outcome =
    | Disabled
    | WithinLimit(open: nat)
    | Merged(canceled: nat, pairs: nat, placed: nat, crashed: bool)

  /** How many far orders a pass cancels and how many merged orders it
      places for `n` open orders: at most two cancelled orders per merged
      one. */
  function PassCounts(n: nat, cfg: SideConfig): (r: (nat, nat))
    ensures r.0 <= n && r.0 <= cfg.toCancel && (r.0 == n || r.0 == cfg.toCancel)
    ensures r.1 <= cfg.placeCount && 2 * r.1 <= r.0 && (r.1 == cfg.placeCount || r.1 == r.0 / 2)
  {
    var toCancel := if cfg.toCancel <= n then cfg.toCancel else n;
    var placeCnt := if cfg.placeCount <= toCancel / 2 then cfg.placeCount else toCancel / 2;
    (toCancel, placeCnt)
  }

  /** `sum(price * qty for o in far)` */
  function Notional(far: seq<Order>): real {
    if far == [] then 0.0 else Notional(far[..|far| - 1]) + far[|far| - 1].price * far[|far| - 1].qty
  }

  /** The size of each merged BUY: the cancelled notional shared by the
      merged orders. */
  function PerOrderUsd(total: real, placeCnt: nat): (r: real)
    ensures placeCnt == 0 ==> r == 0.0
    ensures placeCnt > 0 && total >= 0.0 ==> r >= 0.0
  {
    if placeCnt > 0 then total / placeCnt as real else 0.0
  }

  /** The state of a pass's placement loop. */
  datatype Progress = Progress(orders: map<string, Order>, placed: nat, crashed: bool)

  function Mid(a: Order, b: Order): real {
    (a.price + b.price) / 2.0
  }

  /** The BUY loop from the k-th pair on: each pair becomes one BUY at its
      midpoint sized `usd`; an exception ends the pass. */
  function BuysFrom(st: Progress, pairs: seq<(Order, Order)>, replies: seq<Reply>, k: nat, pair: string,
                    usd: real, minUsd: real, dry: bool, nowS: int): Progress
    requires |replies| == |pairs| && k <= |pairs|
    decreases |pairs| - k
  {
    if k == |pairs| then st
    else
      var m := BuyMerge(st.orders, pair, Mid(pairs[k].0, pairs[k].1), usd, minUsd, dry, replies[k], nowS);
      if m.1.Crashed? then st.(crashed := true)
      else BuysFrom(Progress(m.0, st.placed + (if m.1.Placed? then 1 else 0), false), pairs, replies, k + 1,
                    pair, usd, minUsd, dry, nowS)
  }

  lemma BuysStep(st: Progress, pairs: seq<(Order, Order)>, replies: seq<Reply>, k: nat, pair: string,
                 usd: real, minUsd: real, dry: bool, nowS: int, m: (map<string, Order>, Placement))
    requires |replies| == |pairs| && k < |pairs|
    requires m == BuyMerge(st.orders, pair, Mid(pairs[k].0, pairs[k].1), usd, minUsd, dry, replies[k], nowS)
    ensures m.1.Crashed? ==> BuysFrom(st, pairs, replies, k, pair, usd, minUsd, dry, nowS) == st.(crashed := true)
    ensures !m.1.Crashed? ==>
              (BuysFrom(st, pairs, replies, k, pair, usd, minUsd, dry, nowS) ==
               BuysFrom(Progress(m.0, st.placed + (if m.1.Placed? then 1 else 0), false), pairs, replies, k + 1,
                        pair, usd, minUsd, dry, nowS))
  {
  }

  /** The target of a merged SELL: the pair's midpoint, raised to the
      profit guard. */
  function SellTarget(a: Order, b: Order, minSell: real): (r: real)
    ensures r >= minSell && r >= Mid(a, b)
    ensures r == Mid(a, b) || r == minSell
  {
    Max(Mid(a, b), minSell)
  }

  /** One pair of the SELL loop: the open SELLs already at the target are
      cancelled and their quantity joins the pair's; the sum, floored, is
      placed at the target unless it is not positive. */
  ghost function SellPairStep(orders: map<string, Order>, a: Order, b: Order, pair: string, minSell: real,
                              dry: bool, reply: Reply, nowS: int): (map<string, Order>, Placement)
  {
    var target := SellTarget(a, b, minSell);
    var dups := DupIds(orders, pair, target);
    var cleared := CancelIds(orders, dups, nowS);
    var qty := Floor6(a.qty + b.qty + QtyOver(orders, dups));
    if qty <= 0.0 then (cleared, Skipped) else SellMerge(cleared, pair, target, qty, dry, reply, nowS)
  }

  /** The SELL loop from the k-th pair on; a placement that raises ends it. */
  ghost function SellsFrom(st: Progress, pairs: seq<(Order, Order)>, replies: seq<Reply>, k: nat, pair: string,
                           minSell: real, dry: bool, nowS: int): Progress
    requires |replies| == |pairs| && k <= |pairs|
    decreases |pairs| - k
  {
    if k == |pairs| then st
    else
      var m := SellPairStep(st.orders, pairs[k].0, pairs[k].1, pair, minSell, dry, replies[k], nowS);
      if m.1.Crashed? then Progress(m.0, st.placed, true)
      else SellsFrom(Progress(m.0, st.placed + (if m.1.Placed? then 1 else 0), false), pairs, replies, k + 1,
                     pair, minSell, dry, nowS)
  }

  /** `SellPairStep` given the duplicates' cancellation and quantity. */
  lemma SellPairStepAfter(orders: map<string, Order>, a: Order, b: Order, pair: string, minSell: real,
                          dry: bool, reply: Reply, nowS: int, cleared: map<string, Order>, extra: real)
    requires var dups := DupIds(orders, pair, SellTarget(a, b, minSell));
             cleared == CancelIds(orders, dups, nowS) && extra == QtyOver(orders, dups)
    ensures var qty := Floor6(a.qty + b.qty + extra);
            SellPairStep(orders, a, b, pair, minSell, dry, reply, nowS) ==
            if qty <= 0.0 then (cleared, Skipped)
            else SellMerge(cleared, pair, SellTarget(a, b, minSell), qty, dry, reply, nowS)
  {
  }

  lemma SellsStep(st: Progress, pairs: seq<(Order, Order)>, replies: seq<Reply>, k: nat, pair: string,
                  minSell: real, dry: bool, nowS: int, m: (map<string, Order>, Placement))
    requires |replies| == |pairs| && k < |pairs|
    requires m == SellPairStep(st.orders, pairs[k].0, pairs[k].1, pair, minSell, dry, replies[k], nowS)
    ensures m.1.Crashed? ==> SellsFrom(st, pairs, replies, k, pair, minSell, dry, nowS) == Progress(m.0, st.placed, true)
    ensures !m.1.Crashed? ==>
              (SellsFrom(st, pairs, replies, k, pair, minSell, dry, nowS) ==
               SellsFrom(Progress(m.0, st.placed + (if m.1.Placed? then 1 else 0), false), pairs, replies, k + 1,
                         pair, minSell, dry, nowS))
  {
  }

  lemma AbsorbOne(orig: map<string, Order>, pair: string, target: real, dups: set<string>, left: set<string>,
                  id: string, cur: map<string, Order>, nowS: int)
    requires dups == DupIds(orig, pair, target) && left <= dups && id in left
    requires cur == CancelIds(orig, dups - left, nowS)
    ensures id in cur && cur[id] == orig[id]
    ensures CancelIds(orig, dups - (left - {id}), nowS) == cur[id := cur[id].(status := CANCELED, updated := nowS)]
  {
    CancelOneMore(orig, dups - left, id, nowS);
    assert (dups - left) + {id} == dups - (left - {id});
  }

  /** The duplicate loop of `consolidate_sells`: every open SELL at the
      target is cancelled (whatever the exchange answers) and its quantity
      is collected. The rows come in the order of the query, which does not
      change the total. */
  method AbsorbDups(db: Store, pair: string, target: real, nowS: int) returns (extra: real)
    requires db.Valid()
    modifies db`orders
    ensures db.Valid()
    ensures extra == QtyOver(old(db.orders), DupIds(old(db.orders), pair, target))
    ensures db.orders == CancelIds(old(db.orders), DupIds(old(db.orders), pair, target), nowS)
  {
    var orig := db.orders;
    var dups := DupIds(orig, pair, target);
    var left := dups;
    var cur := orig;
    extra := 0.0;
    while left != {}
      invariant left <= dups
      invariant extra + QtyOver(orig, left) == QtyOver(orig, dups)
      invariant cur == CancelIds(orig, dups - left, nowS)
      decreases |left|
    {
      var id :| id in left;
      QtyOverRemove(orig, left, id);
      AbsorbOne(orig, pair, target, dups, left, id, cur, nowS);
      extra := extra + cur[id].qty;
      cur := cur[id := cur[id].(status := CANCELED, updated := nowS)];
      left := left - {id};
    }
    assert dups - left == dups;
    assert KeyedById(orig);
    db.orders := cur;
  }

  /** Where the SELL loop ends from one of its states: at once after a
      placement that raised, else after the remaining pairs. */
  ghost function SellsRest(orders: map<string, Order>, placed: nat, crashed: bool, pairs: seq<(Order, Order)>,
                           replies: seq<Reply>, k: nat, pair: string, minSell: real, dry: bool, nowS: int): Progress
    requires |replies| == |pairs| && k <= |pairs|
  {
    if crashed then Progress(orders, placed, true)
    else SellsFrom(Progress(orders, placed, false), pairs, replies, k, pair, minSell, dry, nowS)
  }

  lemma SellsRestStep(orders: map<string, Order>, placed: nat, pairs: seq<(Order, Order)>, replies: seq<Reply>,
                      k: nat, pair: string, minSell: real, dry: bool, nowS: int, m: (map<string, Order>, Placement))
    requires |replies| == |pairs| && k < |pairs|
    requires m == SellPairStep(orders, pairs[k].0, pairs[k].1, pair, minSell, dry, replies[k], nowS)
    ensures SellsRest(orders, placed, false, pairs, replies, k, pair, minSell, dry, nowS) ==
            SellsRest(m.0, placed + (if m.1.Placed? then 1 else 0), m.1.Crashed?, pairs, replies, k + 1,
                      pair, minSell, dry, nowS)
  {
    SellsStep(Progress(orders, placed, false), pairs, replies, k, pair, minSell, dry, nowS, m);
  }

  /** One pair of the placement loop of `consolidate_sells`. */
  method MergeSellPair(db: Store, a: Order, b: Order, pair: string, minSell: real, dry: bool, reply: Reply, nowS: int)
    returns (p: Placement)
    requires db.Valid()
    modifies db`orders
    ensures db.Valid()
    ensures (db.orders, p) == SellPairStep(old(db.orders), a, b, pair, minSell, dry, reply, nowS)
  {
    var target := SellTarget(a, b, minSell);
    var extra := AbsorbDups(db, pair, target, nowS);
    var qty := Floor6(a.qty + b.qty + extra);
    SellPairStepAfter(old(db.orders), a, b, pair, minSell, dry, reply, nowS, db.orders, extra);
    p := Skipped;
    if qty > 0.0 {
      p := PlaceSell(db, pair, target, qty, dry, reply, nowS);
    }
  }

  /** The placement loop of `consolidate_sells`; a placement that raises
      ends it. */
  method PlaceMergedSells(db: Store, pairs: seq<(Order, Order)>, rs: seq<Reply>, pair: string,
                          minSell: real, dry: bool, nowS: int) returns (placed: nat, crashed: bool)
    requires db.Valid() && |rs| == |pairs|
    modifies db`orders
    ensures db.Valid()
    ensures SellsFrom(Progress(old(db.orders), 0, false), pairs, rs, 0, pair, minSell, dry, nowS) ==
            Progress(db.orders, placed, crashed)
  {
    ghost var st0 := Progress(db.orders, 0, false);
    placed, crashed := 0, false;
    var i := 0;
    while i < |pairs| && !crashed
      invariant 0 <= i <= |pairs| && db.Valid()
      invariant SellsRest(db.orders, placed, crashed, pairs, rs, i, pair, minSell, dry, nowS) ==
                SellsFrom(st0, pairs, rs, 0, pair, minSell, dry, nowS)
      decreases |pairs| - i
    {
      ghost var before := db.orders;
      var p := MergeSellPair(db, pairs[i].0, pairs[i].1, pair, minSell, dry, rs[i], nowS);
      SellsRestStep(before, placed, pairs, rs, i, pair, minSell, dry, nowS, (db.orders, p));
      if p.Placed? {
        placed := placed + 1;
      }
      crashed := p.Crashed?;
      i := i + 1;
    }
  }

  /** The profit guard of the SELL pass: avg * (1 + gain) when the stored
      position has a positive average, else 0. */
  function MinSellPrice(positions: map<string, Position>, pair: string, minGain: real): (r: real)
    ensures pair in positions && positions[pair].avg > 0.0 ==> r == positions[pair].avg * (1.0 + minGain)
    ensures !(pair in positions && positions[pair].avg > 0.0) ==> r == 0.0
  {
    var avg := if pair in positions then positions[pair].avg else 0.0;
    if avg > 0.0 then avg * (1.0 + minGain) else 0.0
  }

  /** The placement loop of `consolidate_buys`. */
  method PlaceMergedBuys(db: Store, pairs: seq<(Order, Order)>, rs: seq<Reply>, pair: string,
                         usd: real, minUsd: real, dry: bool, nowS: int) returns (placed: nat, crashed: bool)
    requires db.Valid() && |rs| == |pairs|
    modifies db`orders
    ensures db.Valid()
    ensures BuysFrom(Progress(old(db.orders), 0, false), pairs, rs, 0, pair, usd, minUsd, dry, nowS) ==
            Progress(db.orders, placed, crashed)
  {
    ghost var st0 := Progress(db.orders, 0, false);
    placed := 0;
    var i := 0;
    while i < |pairs|
      invariant 0 <= i <= |pairs| && db.Valid()
      invariant BuysFrom(Progress(db.orders, placed, false), pairs, rs, i, pair, usd, minUsd, dry, nowS) ==
                BuysFrom(st0, pairs, rs, 0, pair, usd, minUsd, dry, nowS)
      decreases |pairs| - i
    {
      var a, b := pairs[i].0, pairs[i].1;
      ghost var cur := Progress(db.orders, placed, false);
      var p := PlaceBuy(db, pair, Mid(a, b), usd, minUsd, dry, rs[i], nowS);
      BuysStep(cur, pairs, rs, i, pair, usd, minUsd, dry, nowS, (db.orders, p));
      if p.Crashed? {
        return placed, true;
      }
      if p.Placed? {
        placed := placed + 1;
      }
      i := i + 1;
    }
    crashed := false;
  }

  /** `consolidate_buys`. `opens` is the listing the query returned, and
      `replies` the exchange's answer to each merged placement. */
  method ConsolidateBuys(db: Store, pair: string, cfg: SideConfig, minUsd: real, dry: bool,
                         replies: seq<Reply>, nowS: int) returns (out: Outcome, opens: seq<Order>)
    requires db.Valid()
    requires |replies| >= cfg.placeCount
    modifies db`orders
    ensures db.Valid()
    ensures !cfg.enabled ==> out == Disabled && db.orders == old(db.orders)
    ensures cfg.enabled ==> OpenListing(old(db.orders), pair, BUY, opens)
    ensures cfg.enabled && |opens| <= cfg.limitOver ==> out == WithinLimit(|opens|) && db.orders == old(db.orders)
    ensures cfg.enabled && |opens| > cfg.limitOver ==>
              var (tc, pc) := PassCounts(|opens|, cfg);
              var far := opens[..tc];
              var usd := PerOrderUsd(Notional(far), pc);
              var r := BuysFrom(Progress(CancelIds(old(db.orders), IdsOf(far), nowS), 0, false),
                                Pairs(far)[..pc], replies[..pc], 0, pair, usd, minUsd, dry, nowS);
              out == Merged(tc, pc, r.placed, r.crashed) && db.orders == r.orders
  {
    opens := [];
    if !cfg.enabled {
      return Disabled, opens;
    }
    opens := LoadOpen(db, pair, BUY);
    var n := |opens|;
    if n <= cfg.limitOver {
      return WithinLimit(n), opens;
    }
    var (tc, pc) := PassCounts(n, cfg);
    var far := opens[..tc];
    CancelOrders(db, far, nowS);
    var usd := PerOrderUsd(Notional(far), pc);
    var all := Pairwise(far);
    var pairs := all[..pc];
    var rs := replies[..pc];
    var placed, crashed := PlaceMergedBuys(db, pairs, rs, pair, usd, minUsd, dry, nowS);
    out := Merged(tc, pc, placed, crashed);
  }

  /** `consolidate_sells`. `opens` is the listing the query returned, and
      `replies` the exchange's answer to each merged placement. */
  method ConsolidateSells(db: Store, pair: string, cfg: SideConfig, minGain: real, dry: bool,
                          replies: seq<Reply>, nowS: int) returns (out: Outcome, opens: seq<Order>)
    requires db.Valid()
    requires |replies| >= cfg.placeCount
    modifies db`orders
    ensures db.Valid()
    ensures !cfg.enabled ==> out == Disabled && db.orders == old(db.orders)
    ensures cfg.enabled ==> OpenListing(old(db.orders), pair, SELL, opens)
    ensures cfg.enabled && |opens| <= cfg.limitOver ==> out == WithinLimit(|opens|) && db.orders == old(db.orders)
    ensures cfg.enabled && |opens| > cfg.limitOver ==>
              var (tc, pc) := PassCounts(|opens|, cfg);
              var far := opens[..tc];
              var r := SellsFrom(Progress(CancelIds(old(db.orders), IdsOf(far), nowS), 0, false),
                                 Pairs(far)[..pc], replies[..pc], 0, pair, MinSellPrice(old(db.positions), pair, minGain),
                                 dry, nowS);
              out == Merged(tc, pc, r.placed, r.crashed) && db.orders == r.orders
  {
    opens := [];
    if !cfg.enabled {
      return Disabled, opens;
    }
    var minSell := MinSellPrice(db.positions, pair, minGain);
    opens := LoadOpen(db, pair, SELL);
    var n := |opens|;
    if n <= cfg.limitOver {
      return WithinLimit(n), opens;
    }
    var (tc, pc) := PassCounts(n, cfg);
    var far := opens[..tc];
    CancelOrders(db, far, nowS);
    var all := Pairwise(far);
    var placed, crashed := PlaceMergedSells(db, all[..pc], replies[..pc], pair, minSell, dry, nowS);
    out := Merged(tc, pc, placed, crashed);
  }

  // ===================================================================
  // What a pass promises

  /** A merged BUY as `_place_buy` records it. */
  predicate IsMergedBuy(o: Order, pair: string, usd: real) {
    o.pair == pair && o.side == BUY && o.status == NEW && o.mode == "CONSOLIDATE" &&
    o.reserved == usd && o.qty > 0.0 && o.filledQty == 0.0
  }

  /** `to` keeps every row of `from`, and every row it adds or changes is a
      merged BUY of the pair sized `usd`. */
  predicate BuyWrites(from: map<string, Order>, to: map<string, Order>, pair: string, usd: real) {
    from.Keys <= to.Keys &&
    forall id :: id in to && (id !in from || to[id] != from[id]) ==> IsMergedBuy(to[id], pair, usd)
  }

  lemma BuyWritesTrans(x: map<string, Order>, y: map<string, Order>, z: map<string, Order>, pair: string, usd: real)
    requires BuyWrites(x, y, pair, usd) && BuyWrites(y, z, pair, usd)
    ensures BuyWrites(x, z, pair, usd)
  {
  }

  lemma BuyMergeWrites(orders: map<string, Order>, pair: string, price: real, usd: real, minUsd: real,
                       dry: bool, reply: Reply, nowS: int)
    ensures BuyWrites(orders, BuyMerge(orders, pair, price, usd, minUsd, dry, reply, nowS).0, pair, usd)
  {
  }

  /** The BUY loop places at most one order per pair, and every row it
      writes is a merged BUY of the pair sized `usd`. */
  lemma {:induction false} BuysWrite(st: Progress, pairs: seq<(Order, Order)>, replies: seq<Reply>, k: nat, pair: string,
                                     usd: real, minUsd: real, dry: bool, nowS: int)
    requires |replies| == |pairs| && k <= |pairs|
    ensures var r := BuysFrom(st, pairs, replies, k, pair, usd, minUsd, dry, nowS);
            st.placed <= r.placed <= st.placed + (|pairs| - k) && st.orders.Keys <= r.orders.Keys
    ensures var r := BuysFrom(st, pairs, replies, k, pair, usd, minUsd, dry, nowS);
            forall id :: id in r.orders && (id !in st.orders || r.orders[id] != st.orders[id]) ==>
              IsMergedBuy(r.orders[id], pair, usd)
    decreases |pairs| - k
  {
    if k < |pairs| {
      var m := BuyMerge(st.orders, pair, Mid(pairs[k].0, pairs[k].1), usd, minUsd, dry, replies[k], nowS);
      BuysStep(st, pairs, replies, k, pair, usd, minUsd, dry, nowS, m);
      if !m.1.Crashed? {
        var next := Progress(m.0, st.placed + (if m.1.Placed? then 1 else 0), false);
        BuysWrite(next, pairs, replies, k + 1, pair, usd, minUsd, dry, nowS);
        BuyMergeWrites(st.orders, pair, Mid(pairs[k].0, pairs[k].1), usd, minUsd, dry, replies[k], nowS);
        BuyWritesTrans(st.orders, m.0, BuysFrom(next, pairs, replies, k + 1, pair, usd, minUsd, dry, nowS).orders,
                       pair, usd);
      }
    }
  }

  lemma SharedWithinTotal(placed: nat, placeCnt: nat, total: real)
    requires placed <= placeCnt && placeCnt > 0 && total >= 0.0
    ensures placed as real * PerOrderUsd(total, placeCnt) <= total
  {
    var u := PerOrderUsd(total, placeCnt);
    assert u * placeCnt as real == total;
    assert u >= 0.0;
    assert placed as real * u <= placeCnt as real * u;
  }

  /** The BUY pass places at most floor(to_cancel / 2) orders, and what the
      merged orders reserve together never exceeds the notional that was
      cancelled. */
  lemma MergedBuysWithinCancelled(orders: map<string, Order>, far: seq<Order>, placeCnt: nat, replies: seq<Reply>,
                                  pair: string, minUsd: real, dry: bool, nowS: int)
    requires 2 * placeCnt <= |far| && |replies| == placeCnt
    ensures var usd := PerOrderUsd(Notional(far), placeCnt);
            var r := BuysFrom(Progress(orders, 0, false), Pairs(far)[..placeCnt], replies, 0, pair, usd, minUsd, dry, nowS);
            r.placed <= placeCnt <= |far| / 2 &&
            (Notional(far) >= 0.0 ==> r.placed as real * usd <= Notional(far))
  {
    var usd := PerOrderUsd(Notional(far), placeCnt);
    BuysWrite(Progress(orders, 0, false), Pairs(far)[..placeCnt], replies, 0, pair, usd, minUsd, dry, nowS);
    var r := BuysFrom(Progress(orders, 0, false), Pairs(far)[..placeCnt], replies, 0, pair, usd, minUsd, dry, nowS);
    if Notional(far) >= 0.0 && placeCnt > 0 {
      SharedWithinTotal(r.placed, placeCnt, Notional(far));
    }
  }

  /** A merged SELL as `_place_sell` records it, at or above the guard. */
  predicate IsMergedSell(o: Order, pair: string, minSell: real) {
    o.pair == pair && o.side == SELL && o.status == NEW && o.mode == "CONSOLIDATE" &&
    o.reserved == 0.0 && o.qty > 0.0 && o.filledQty == 0.0 && o.price >= minSell
  }

  /** Every row that differs between `from` and `to` is a SELL of the pair
      that is now CANCELED, or a merged SELL at or above the guard. */
  ghost predicate SellWrites(from: map<string, Order>, to: map<string, Order>, pair: string, minSell: real) {
    from.Keys <= to.Keys &&
    forall id :: id in to && (id !in from || to[id] != from[id]) ==>
      IsMergedSell(to[id], pair, minSell) ||
      (to[id].pair == pair && to[id].side == SELL && to[id].status == CANCELED)
  }

  lemma SellWritesTrans(x: map<string, Order>, y: map<string, Order>, z: map<string, Order>, pair: string, minSell: real)
    requires SellWrites(x, y, pair, minSell) && SellWrites(y, z, pair, minSell)
    ensures SellWrites(x, z, pair, minSell)
  {
    forall id | id in z && (id !in x || z[id] != x[id])
      ensures IsMergedSell(z[id], pair, minSell) || (z[id].pair == pair && z[id].side == SELL && z[id].status == CANCELED)
    {
      if id in y && z[id] == y[id] {
        assert id !in x || y[id] != x[id];
      }
    }
  }

  /** Cancelling the duplicates at a target only cancels SELLs of the pair. */
  lemma CancelDupsWrites(orders: map<string, Order>, pair: string, target: real, minSell: real, nowS: int)
    ensures SellWrites(orders, CancelIds(orders, DupIds(orders, pair, target), nowS), pair, minSell)
  {
    var dups := DupIds(orders, pair, target);
    var cleared := CancelIds(orders, dups, nowS);
    forall id | id in cleared && (id !in orders || cleared[id] != orders[id])
      ensures cleared[id].pair == pair && cleared[id].side == SELL && cleared[id].status == CANCELED
    {
      assert id in dups && IsOpenStatus(orders[id].status);
    }
  }

  /** A merged SELL at or above the guard is the only row a placement
      writes. */
  lemma MergeWrites(orders: map<string, Order>, pair: string, target: real, minSell: real, qty: real,
                    dry: bool, reply: Reply, nowS: int)
    requires target >= minSell
    ensures SellWrites(orders, SellMerge(orders, pair, target, qty, dry, reply, nowS).0, pair, minSell)
  {
  }

  /** One pair's worth: the duplicates cancelled and the merged row. */
  lemma SellStepWrites(orders: map<string, Order>, a: Order, b: Order, pair: string, minSell: real,
                       dry: bool, reply: Reply, nowS: int)
    ensures SellWrites(orders, SellPairStep(orders, a, b, pair, minSell, dry, reply, nowS).0, pair, minSell)
  {
    var target := SellTarget(a, b, minSell);
    var dups := DupIds(orders, pair, target);
    var cleared := CancelIds(orders, dups, nowS);
    CancelDupsWrites(orders, pair, target, minSell, nowS);
    var extra := QtyOver(orders, dups);
    SellPairStepAfter(orders, a, b, pair, minSell, dry, reply, nowS, cleared, extra);
    var qty := Floor6(a.qty + b.qty + extra);
    if qty > 0.0 {
      MergeWrites(cleared, pair, target, minSell, qty, dry, reply, nowS);
      SellWritesTrans(orders, cleared, SellMerge(cleared, pair, target, qty, dry, reply, nowS).0, pair, minSell);
    }
  }

  /** The SELL loop places at most one order per pair, and every row it
      changes is a SELL of the pair that is now CANCELED, or a merged SELL
      priced at or above the guard. */
  lemma {:induction false} SellsWrite(st: Progress, pairs: seq<(Order, Order)>, replies: seq<Reply>, k: nat, pair: string,
                                      minSell: real, dry: bool, nowS: int)
    requires |replies| == |pairs| && k <= |pairs|
    ensures var r := SellsFrom(st, pairs, replies, k, pair, minSell, dry, nowS);
            st.placed <= r.placed <= st.placed + (|pairs| - k) && SellWrites(st.orders, r.orders, pair, minSell)
    decreases |pairs| - k
  {
    if k < |pairs| {
      var m := SellPairStep(st.orders, pairs[k].0, pairs[k].1, pair, minSell, dry, replies[k], nowS);
      SellStepWrites(st.orders, pairs[k].0, pairs[k].1, pair, minSell, dry, replies[k], nowS);
      SellsStep(st, pairs, replies, k, pair, minSell, dry, nowS, m);
      if !m.1.Crashed? {
        var next := Progress(m.0, st.placed + (if m.1.Placed? then 1 else 0), false);
        SellsWrite(next, pairs, replies, k + 1, pair, minSell, dry, nowS);
        SellWritesTrans(st.orders, m.0, SellsFrom(next, pairs, replies, k + 1, pair, minSell, dry, nowS).orders,
                        pair, minSell);
      }
    }
  }

  /** The quantity of a merged SELL is at least the floored quantity of its
      pair: the open SELLs already at the target only add to it. */
  lemma MergedSellQtyAtLeastPair(orders: map<string, Order>, a: Order, b: Order, pair: string, minSell: real)
    requires forall id :: id in orders ==> orders[id].qty >= 0.0
    ensures var dups := DupIds(orders, pair, SellTarget(a, b, minSell));
            Floor6(a.qty + b.qty) <= Floor6(a.qty + b.qty + QtyOver(orders, dups))
  {
    var dups := DupIds(orders, pair, SellTarget(a, b, minSell));
    QtyOverNonNegative(orders, dups);
    Floor6Monotone(a.qty + b.qty, a.qty + b.qty + QtyOver(orders, dups));
  }
}
