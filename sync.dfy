/** The reconciler (sync.py): exchange trades merged into the fills table,
    exchange open orders upserted into the orders table, per-order filled
    quantities rewritten from the fills, orders the exchange no longer lists
    closed, the cash balance overwritten, and the position replayed from the
    fills. The exchange's answers, and the clock, are parameters. */
module Sync {
  import opened Wrappers
  import opened Numbers
  import opened Text
  import opened Ledger
  import opened Accounting

  /** A failed commit: two pending rows of one batch share a primary key. */
  datatype DbError = UniqueViolation

  // ===================================================================
  // Trades -> fills

  /** One row of `my_trades`; absent string fields are "", an absent time 0. */
  datatype Trade = Trade(
    id: string, tradeId: string, orderId: string, side: string, isBuyer: bool,
    price: real, qty: real, commission: real, time: int)

  /** The fill id: `id`, else `tradeId`, else `orderId`, else "". */
  function TradeFillId(t: Trade): (r: string)
    ensures r == "" <==> t.id == "" && t.tradeId == "" && t.orderId == ""
    ensures r == t.id || r == t.tradeId || r == t.orderId
  {
    if t.id != "" then t.id else if t.tradeId != "" then t.tradeId else t.orderId
  }

  /** The stored side: the reported side upper-cased, or, when none is
      reported, BUY or SELL from `isBuyer`. Always upper case. */
  function TradeSide(t: Trade): (r: string)
    ensures Upper(r) == r
    ensures t.side == "" ==> r == (if t.isBuyer then BUY else SELL)
    ensures t.side != "" ==> r == Upper(t.side)
  {
    UpperIdempotent(t.side);
    if Upper(t.side) != "" then Upper(t.side) else if t.isBuyer then BUY else SELL
  }

  /** The Fill row built from a trade; `ts` is the trade time in whole
      seconds (the batch end time when the trade has none). */
  function TradeToFill(t: Trade, pair: string, endMs: int): (f: Fill)
    ensures f.id == TradeFillId(t) && f.orderId == t.orderId && f.pair == pair
    ensures f.side == TradeSide(t)
    ensures var ms := if t.time != 0 then t.time else endMs;
            f.ts * 1000 <= ms < f.ts * 1000 + 1000
    ensures f.price == t.price && f.qty == t.qty && f.fee == t.commission
  {
    var ms := if t.time != 0 then t.time else endMs;
    Fill(TradeFillId(t), t.orderId, pair, TradeSide(t), t.price, t.qty, t.commission, ms / 1000, "")
  }

  /** The rows `sync_trades` adds to the session, in trade order. The
      existence check runs against committed rows only (the session does not
      autoflush), so a trade whose id repeats an earlier trade of the same
      batch is added again. */
  function PendingFills(committed: seq<Fill>, trades: seq<Trade>, pair: string, endMs: int): (r: seq<Fill>)
    ensures |r| <= |trades|
    ensures forall k :: 0 <= k < |r| ==>
              r[k].id != "" && r[k].id !in FillIds(committed) && r[k].pair == pair && Upper(r[k].side) == r[k].side
  {
    if trades == [] then []
    else
      var pre := PendingFills(committed, trades[..|trades| - 1], pair, endMs);
      var t := trades[|trades| - 1];
      var fid := TradeFillId(t);
      if fid == "" || fid in FillIds(committed) then pre else pre + [TradeToFill(t, pair, endMs)]
  }

  lemma PendingFillsStep(committed: seq<Fill>, trades: seq<Trade>, i: nat, pair: string, endMs: int)
    requires i < |trades|
    ensures var pre := PendingFills(committed, trades[..i], pair, endMs);
            var fid := TradeFillId(trades[i]);
            PendingFills(committed, trades[..i + 1], pair, endMs) ==
              if fid == "" || fid in FillIds(committed) then pre else pre + [TradeToFill(trades[i], pair, endMs)]
  {
    assert trades[..i + 1][..i] == trades[..i];
  }

  lemma DistinctAppend(a: seq<Fill>, b: seq<Fill>)
    requires DistinctIds(a) && DistinctIds(b)
    requires forall k :: 0 <= k < |b| ==> b[k].id !in FillIds(a)
    ensures DistinctIds(a + b)
  {
    forall i, j | 0 <= i < j < |a + b| ensures (a + b)[i].id != (a + b)[j].id {
      if i < |a| && j >= |a| {
        assert a[i].id in FillIds(a);
        assert (a + b)[j] == b[j - |a|];
      }
    }
  }

  /** `sync_trades`: every trade with a non-empty id not already committed
      is added; the batch is committed when it adds anything. If two added
      rows share an id the commit fails and nothing is stored. On success
      the count returned is the number of rows added. */
  method SyncTrades(db: Store, trades: seq<Trade>, pair: string, endMs: int) returns (r: Result<nat, DbError>)
    requires db.Valid()
    modifies db`fills
    ensures db.Valid()
    ensures var pending := PendingFills(old(db.fills), trades, pair, endMs);
            if DistinctIds(pending) then r == Ok(|pending|) && db.fills == old(db.fills) + pending
            else r == Err(UniqueViolation) && db.fills == old(db.fills)
  {
    var pending: seq<Fill> := [];
    var i := 0;
    while i < |trades|
      invariant 0 <= i <= |trades|
      invariant db.fills == old(db.fills)
      invariant pending == PendingFills(db.fills, trades[..i], pair, endMs)
    {
      var t := trades[i];
      var fid := TradeFillId(t);
      PendingFillsStep(db.fills, trades, i, pair, endMs);
      if fid != "" && fid !in FillIds(db.fills) {
        pending := pending + [TradeToFill(t, pair, endMs)];
      }
      i := i + 1;
    }
    assert trades[..|trades|] == trades;
    if |pending| > 0 {
      if !DistinctIds(pending) {
        return Err(UniqueViolation);
      }
      DistinctAppend(db.fills, pending);
      db.fills := db.fills + pending;
    }
    r := Ok(|pending|);
  }

  /** Every trade with a non-empty id ends up committed or pending. */
  lemma {:induction false} TradeIdsCovered(committed: seq<Fill>, trades: seq<Trade>, pair: string, endMs: int)
    ensures forall k :: 0 <= k < |trades| && TradeFillId(trades[k]) != "" ==>
              TradeFillId(trades[k]) in FillIds(committed) + FillIds(PendingFills(committed, trades, pair, endMs))
  {
    if trades != [] {
      var pre := trades[..|trades| - 1];
      var t := trades[|trades| - 1];
      TradeIdsCovered(committed, pre, pair, endMs);
      var p := PendingFills(committed, pre, pair, endMs);
      var fid := TradeFillId(t);
      var all := PendingFills(committed, trades, pair, endMs);
      assert FillIds(p) <= FillIds(all) by {
        forall x | x in FillIds(p) ensures x in FillIds(all) {
          var k :| 0 <= k < |p| && p[k].id == x;
          assert all[k] == p[k];
        }
      }
      if fid != "" && fid !in FillIds(committed) {
        assert all[|all| - 1].id == fid;
      }
      forall k | 0 <= k < |trades| && TradeFillId(trades[k]) != ""
        ensures TradeFillId(trades[k]) in FillIds(committed) + FillIds(all)
      {
        if k < |pre| {
          assert trades[k] == pre[k];
        }
      }
    }
  }

  /** Nothing is added when every trade id is already stored. */
  lemma {:induction false} NothingPendingWhenStored(committed: seq<Fill>, trades: seq<Trade>, pair: string, endMs: int)
    requires forall k :: 0 <= k < |trades| && TradeFillId(trades[k]) != "" ==> TradeFillId(trades[k]) in FillIds(committed)
    ensures PendingFills(committed, trades, pair, endMs) == []
  {
    if trades != [] {
      var pre := trades[..|trades| - 1];
      forall k | 0 <= k < |pre| && TradeFillId(pre[k]) != "" ensures TradeFillId(pre[k]) in FillIds(committed) {
        assert pre[k] == trades[k];
      }
      NothingPendingWhenStored(committed, pre, pair, endMs);
    }
  }

  lemma FillIdsAppend(a: seq<Fill>, b: seq<Fill>)
    ensures FillIds(a + b) == FillIds(a) + FillIds(b)
  {
    forall x | x in FillIds(a) + FillIds(b) ensures x in FillIds(a + b) {
      if x in FillIds(a) {
        var k :| 0 <= k < |a| && a[k].id == x;
        assert (a + b)[k] == a[k];
      } else {
        var k :| 0 <= k < |b| && b[k].id == x;
        assert (a + b)[|a| + k] == b[k];
      }
    }
  }

  /** Idempotence of `sync_trades`: replaying the same trades after a
      committed import adds no row. */
  lemma SyncTradesReplayAddsNothing(committed: seq<Fill>, trades: seq<Trade>, pair: string, endMs: int)
    ensures var after := committed + PendingFills(committed, trades, pair, endMs);
            PendingFills(after, trades, pair, endMs) == []
  {
    var pending := PendingFills(committed, trades, pair, endMs);
    TradeIdsCovered(committed, trades, pair, endMs);
    FillIdsAppend(committed, pending);
    NothingPendingWhenStored(committed + pending, trades, pair, endMs);
  }

  // ===================================================================
  // Open orders -> orders

  /** One row of `open_orders`; absent times are 0. */
  datatype ExOrder = ExOrder(
    orderId: string, side: string, price: real, origQty: real, executedQty: real,
    status: string, time: int, updateTime: int)

  /** `_index_by(items, "orderId")`: items keyed by non-empty order id, a
      later item replacing an earlier one with the same id. */
  function IndexByOrderId(items: seq<ExOrder>): (r: map<string, ExOrder>)
    ensures r.Keys == set k | 0 <= k < |items| && items[k].orderId != "" :: items[k].orderId
  {
    if items == [] then map[]
    else
      var pre := items[..|items| - 1];
      var it := items[|items| - 1];
      var m := IndexByOrderId(pre);
      assert forall k :: 0 <= k < |pre| ==> pre[k] == items[k];
      if it.orderId != "" then m[it.orderId := it] else m
  }

  /** The last item listed with a given id is the one the index keeps. */
  lemma {:induction false} IndexByLastWins(items: seq<ExOrder>, k: nat)
    requires k < |items| && items[k].orderId != ""
    requires forall j :: k < j < |items| ==> items[j].orderId != items[k].orderId
    ensures IndexByOrderId(items)[items[k].orderId] == items[k]
  {
    if k < |items| - 1 {
      var pre := items[..|items| - 1];
      assert pre[k] == items[k];
      IndexByLastWins(pre, k);
    }
  }

  /** The session state while upserting: the orders (committed rows with
      their in-place updates, plus pending new rows), the ids of the new rows,
      and whether a pending row's id was created twice. */
  datatype Upsert = Upsert(orders: map<string, Order>, added: set<string>, clash: bool)

  function SecondsOr(ms: int, nowMs: int): int {
    (if ms != 0 then ms else nowMs) / 1000
  }

  function NewExOrder(it: ExOrder, pair: string, nowMs: int): Order {
    Order(it.orderId, pair, Upper(it.side), it.price, it.origQty, it.executedQty, it.status,
          SecondsOr(it.time, nowMs), SecondsOr(it.updateTime, nowMs), false, 0.0, "")
  }

  function RefreshedOrder(o: Order, it: ExOrder, nowMs: int): Order {
    var upd := SecondsOr(it.updateTime, nowMs);
    o.(price := it.price, qty := it.origQty, status := it.status,
       updated := if o.updated >= upd then o.updated else upd, filledQty := it.executedQty)
  }

  /** One iteration of the upsert loop: the existence query sees committed
      rows only, so an id first created in this batch is created again. */
  function UpsertStep(u: Upsert, it: ExOrder, pair: string, nowMs: int): Upsert {
    var oid := it.orderId;
    if oid in u.added then u.(clash := true)
    else if oid in u.orders then u.(orders := u.orders[oid := RefreshedOrder(u.orders[oid], it, nowMs)])
    else Upsert(u.orders[oid := NewExOrder(it, pair, nowMs)], u.added + {oid}, u.clash)
  }

  function UpsertAll(u: Upsert, items: seq<ExOrder>, pair: string, nowMs: int): Upsert {
    if items == [] then u
    else UpsertStep(UpsertAll(u, items[..|items| - 1], pair, nowMs), items[|items| - 1], pair, nowMs)
  }

  lemma UpsertAllStep(u: Upsert, items: seq<ExOrder>, i: nat, pair: string, nowMs: int)
    requires i < |items|
    ensures UpsertAll(u, items[..i + 1], pair, nowMs) == UpsertStep(UpsertAll(u, items[..i], pair, nowMs), items[i], pair, nowMs)
  {
    assert items[..i + 1][..i] == items[..i];
  }

  function ListedIds(items: seq<ExOrder>): set<string> {
    set k | 0 <= k < |items| :: items[k].orderId
  }

  lemma ListedIdsSnoc(items: seq<ExOrder>)
    requires items != []
    ensures ListedIds(items) == ListedIds(items[..|items| - 1]) + {items[|items| - 1].orderId}
  {
    var pre := items[..|items| - 1];
    forall x | x in ListedIds(items) ensures x in ListedIds(pre) + {items[|items| - 1].orderId} {
      var k :| 0 <= k < |items| && items[k].orderId == x;
      if k < |pre| { assert pre[k] == items[k]; }
    }
    forall x | x in ListedIds(pre) ensures x in ListedIds(items) {
      var k :| 0 <= k < |pre| && pre[k].orderId == x;
      assert items[k] == pre[k];
    }
  }

  /** One iteration adds the listed id and touches no other row. */
  lemma UpsertStepFrame(u: Upsert, it: ExOrder, pair: string, nowMs: int)
    requires u.added <= u.orders.Keys
    ensures var r := UpsertStep(u, it, pair, nowMs);
            r.orders.Keys == u.orders.Keys + {it.orderId} && r.added <= r.orders.Keys &&
            (forall id :: id in u.orders && id != it.orderId ==> r.orders[id] == u.orders[id])
  {
  }

  /** Upserting never loses a row and touches only listed ids. */
  lemma {:induction false} UpsertFrame(u: Upsert, items: seq<ExOrder>, pair: string, nowMs: int)
    requires u.added <= u.orders.Keys
    ensures var r := UpsertAll(u, items, pair, nowMs);
            r.orders.Keys == u.orders.Keys + ListedIds(items) &&
            r.added <= r.orders.Keys &&
            (forall id :: id in u.orders && id !in ListedIds(items) ==> r.orders[id] == u.orders[id])
  {
    if items != [] {
      var pre := items[..|items| - 1];
      UpsertFrame(u, pre, pair, nowMs);
      ListedIdsSnoc(items);
      UpsertStepFrame(UpsertAll(u, pre, pair, nowMs), items[|items| - 1], pair, nowMs);
    }
  }

  predicate ListedOnceAt(items: seq<ExOrder>, k: nat)
    requires k < |items|
  {
    forall j :: 0 <= j < |items| && j != k ==> items[j].orderId != items[k].orderId
  }

  /** After the upsert an order listed once by the exchange carries the
      exchange's price, quantity, status and executed quantity; an existing
      row keeps `updated = max(old, new)`, a new row is created with the
      exchange's fields. */
  lemma {:induction false} UpsertListedOnce(u: Upsert, items: seq<ExOrder>, k: nat, pair: string, nowMs: int)
    requires u.added <= u.orders.Keys
    requires k < |items| && ListedOnceAt(items, k)
    requires items[k].orderId !in u.added
    ensures var oid := items[k].orderId;
            var r := UpsertAll(u, items, pair, nowMs);
            oid in r.orders &&
            r.orders[oid] == (if oid in u.orders then RefreshedOrder(u.orders[oid], items[k], nowMs)
                              else NewExOrder(items[k], pair, nowMs))
  {
    var oid := items[k].orderId;
    var pre := items[..|items| - 1];
    if k == |items| - 1 {
      assert oid !in ListedIds(pre) by {
        forall j | 0 <= j < |pre| ensures pre[j].orderId != oid {
          assert pre[j] == items[j];
        }
      }
      UpsertFrame(u, pre, pair, nowMs);
      UpsertAddedFrame(u, pre, pair, nowMs, oid);
    } else {
      assert pre[k] == items[k];
      assert ListedOnceAt(pre, k) by {
        forall j | 0 <= j < |pre| && j != k ensures pre[j].orderId != pre[k].orderId {
          assert pre[j] == items[j];
        }
      }
      UpsertListedOnce(u, pre, k, pair, nowMs);
      assert items[|items| - 1].orderId != oid;
    }
  }

  /** An id the batch never lists is never recorded as a new row. */
  lemma {:induction false} UpsertAddedFrame(u: Upsert, items: seq<ExOrder>, pair: string, nowMs: int, oid: string)
    requires oid !in ListedIds(items) && oid !in u.added
    ensures oid !in UpsertAll(u, items, pair, nowMs).added
  {
    if items != [] {
      var pre := items[..|items| - 1];
      assert oid !in ListedIds(pre) by {
        forall j | 0 <= j < |pre| ensures pre[j].orderId != oid {
          assert pre[j] == items[j];
        }
      }
      UpsertAddedFrame(u, pre, pair, nowMs, oid);
    }
  }

  /** Sum of the quantities of the fills of `pair` that belong to order
      `oid` with the given side: one group of `_fills_by_order`. */
  function FillSum(fills: seq<Fill>, pair: string, oid: string, side: string): real {
    if fills == [] then 0.0
    else
      var f := fills[|fills| - 1];
      FillSum(fills[..|fills| - 1], pair, oid, side) +
        (if f.pair == pair && f.orderId == oid && f.side == side then f.qty else 0.0)
  }

  /** The order ids `_fills_by_order` reports: non-empty ids of fills of `pair`. */
  function FilledOrderIds(fills: seq<Fill>, pair: string): set<string> {
    set k | 0 <= k < |fills| && fills[k].pair == pair && fills[k].orderId != "" :: fills[k].orderId
  }

  const FillEps: real := 0.000000000001

  function AbsR(x: real): real { if x >= 0.0 then x else -x }

  /** The filled-quantity reconciliation: an order that has fills gets the
      sum of its own side's fills whenever it differs by more than 1e-12
      (the fills are ground truth); every other order is untouched. */
  function ReconcileFilled(orders: map<string, Order>, fills: seq<Fill>, pair: string, nowS: int): (r: map<string, Order>)
    ensures r.Keys == orders.Keys
    ensures forall id :: id in orders && id in FilledOrderIds(fills, pair) ==>
              AbsR(r[id].filledQty - FillSum(fills, pair, id, orders[id].side)) <= FillEps
    ensures forall id :: id in orders && id !in FilledOrderIds(fills, pair) ==> r[id] == orders[id]
    ensures forall id :: id in orders ==>
              r[id] == orders[id] || r[id] == orders[id].(filledQty := r[id].filledQty, updated := nowS)
    ensures KeyedById(orders) ==> KeyedById(r)
  {
    map id | id in orders ::
      var o := orders[id];
      var exp := FillSum(fills, pair, id, o.side);
      if id in FilledOrderIds(fills, pair) && AbsR(o.filledQty - exp) > FillEps
      then o.(filledQty := exp, updated := nowS) else o
  }

  const RemainderEps: real := 0.000000000001

  /** The inferred final status of an order that left the exchange's list. */
  function ClosedStatus(o: Order): string {
    if Max(0.0, o.qty - o.filledQty) <= RemainderEps then FILLED else CANCELED
  }

  /** Closing: every order that was open before the call and is not listed
      any more becomes FILLED when nothing (up to 1e-12) remains, else
      CANCELED; every other order is untouched. */
  function CloseUnlisted(orders: map<string, Order>, wasOpen: set<string>, listed: set<string>, nowS: int): (r: map<string, Order>)
    ensures r.Keys == orders.Keys
    ensures forall id :: id in orders && id in wasOpen && id !in listed ==>
              r[id] == orders[id].(status := r[id].status, updated := nowS) &&
              (r[id].status == FILLED <==> Max(0.0, orders[id].qty - orders[id].filledQty) <= RemainderEps) &&
              (r[id].status == FILLED || r[id].status == CANCELED)
    ensures forall id :: id in orders && (id !in wasOpen || id in listed) ==> r[id] == orders[id]
    ensures KeyedById(orders) ==> KeyedById(r)
  {
    map id | id in orders ::
      if id in wasOpen && id !in listed then orders[id].(status := ClosedStatus(orders[id]), updated := nowS)
      else orders[id]
  }

  /** `local_open`: the ids of the pair's open orders before the call. */
  function OpenIds(orders: map<string, Order>, pair: string): set<string> {
    set id | id in orders && orders[id].pair == pair && IsOpenStatus(orders[id].status)
  }

  /** The new orders table after a successful `sync_open_orders`. */
  function SyncedOrders(orders: map<string, Order>, upserted: map<string, Order>, fills: seq<Fill>,
                        items: seq<ExOrder>, pair: string, nowS: int): map<string, Order>
  {
    CloseUnlisted(ReconcileFilled(upserted, fills, pair, nowS), OpenIds(orders, pair),
                  IndexByOrderId(items).Keys, nowS)
  }

  /** `sync_open_orders`: upsert, commit (which fails when the listing
      creates one new id twice), reconcile filled quantities, close what the
      exchange no longer lists. */
  method SyncOpenOrders(db: Store, items: seq<ExOrder>, pair: string, nowMs: int, nowS: int)
    returns (r: Option<DbError>)
    requires db.Valid()
    modifies db`orders
    ensures db.Valid()
    ensures var u := UpsertAll(Upsert(old(db.orders), {}, false), items, pair, nowMs);
            if u.clash then r == Some(UniqueViolation) && db.orders == old(db.orders)
            else r == None && db.orders == SyncedOrders(old(db.orders), u.orders, db.fills, items, pair, nowS)
  {
    var wasOpen := OpenIds(db.orders, pair);
    var listed := IndexByOrderId(items).Keys;
    var u := Upsert(db.orders, {}, false);
    ghost var u0 := u;
    var i := 0;
    while i < |items|
      invariant 0 <= i <= |items|
      invariant db.orders == old(db.orders)
      invariant u == UpsertAll(u0, items[..i], pair, nowMs)
    {
      UpsertAllStep(u0, items, i, pair, nowMs);
      var it := items[i];
      var oid := it.orderId;
      if oid in u.added {
        u := u.(clash := true);
      } else if oid in u.orders {
        u := u.(orders := u.orders[oid := RefreshedOrder(u.orders[oid], it, nowMs)]);
      } else {
        u := Upsert(u.orders[oid := NewExOrder(it, pair, nowMs)], u.added + {oid}, u.clash);
      }
      i := i + 1;
    }
    assert items[..|items|] == items;
    if u.clash {
      return Some(UniqueViolation);
    }
    UpsertKeyed(u0, items, pair, nowMs);
    var reconciled := ReconcileFilled(u.orders, db.fills, pair, nowS);
    db.orders := CloseUnlisted(reconciled, wasOpen, listed, nowS);
    r := None;
  }

  lemma {:induction false} UpsertKeyed(u: Upsert, items: seq<ExOrder>, pair: string, nowMs: int)
    requires KeyedById(u.orders)
    ensures KeyedById(UpsertAll(u, items, pair, nowMs).orders)
  {
    if items != [] {
      UpsertKeyed(u, items[..|items| - 1], pair, nowMs);
    }
  }

  /** After a successful call no order of the pair that was open before
      and is missing from the exchange's list is still open, and the only
      statuses such orders receive are FILLED and CANCELED. */
  lemma UnlistedOpenOrdersClosed(orders: map<string, Order>, upserted: map<string, Order>, fills: seq<Fill>,
                                 items: seq<ExOrder>, pair: string, nowS: int, id: string)
    requires orders.Keys <= upserted.Keys
    requires id in OpenIds(orders, pair) && id !in IndexByOrderId(items).Keys
    ensures var r := SyncedOrders(orders, upserted, fills, items, pair, nowS);
            id in r && (r[id].status == FILLED || r[id].status == CANCELED) && !IsOpenStatus(r[id].status)
  {
  }

  // ===================================================================
  // Balance -> capital

  /** The Capital row after `sync_balance`: only the available cash and the
      update time change; a missing row is created with limit 1000 and no
      realised PnL. */
  function SyncedCapital(capital: map<string, Capital>, pair: string, avail: real, nowS: int): (r: Capital)
    ensures r.availableUsd == avail && r.updated == nowS
    ensures pair in capital ==> r == capital[pair].(availableUsd := avail, updated := nowS)
    ensures pair !in capital ==> r.pair == pair && r.limitUsd == 1000.0 && r.realizedPnl == 0.0
  {
    if pair in capital then capital[pair].(availableUsd := avail, updated := nowS)
    else Capital(pair, 1000.0, avail, 0.0, nowS)
  }

  /** `sync_balance`: the free balance of the quote asset (0 when the
      exchange does not list it) becomes the pair's available cash. */
  method SyncBalance(db: Store, balances: seq<Balance>, quote: string, pair: string, nowS: int)
    requires db.Valid()
    modifies db`capital
    ensures db.Valid()
    ensures db.capital == old(db.capital)[pair := SyncedCapital(old(db.capital), pair, LastFree(balances, quote), nowS)]
  {
    var avail := LastFree(balances, quote);
    db.capital := db.capital[pair := SyncedCapital(db.capital, pair, avail, nowS)];
  }

  // ===================================================================
  // Position from fills

  /** The query's ordering: by `ts`, then by `id`. */
  predicate FillLe(a: Fill, b: Fill) {
    a.ts < b.ts || (a.ts == b.ts && StrLe(a.id, b.id))
  }

  predicate SortedByTsId(s: seq<Fill>) {
    forall k :: 0 <= k < |s| - 1 ==> FillLe(s[k], s[k + 1])
  }

  function InsertFill(f: Fill, s: seq<Fill>): (r: seq<Fill>)
    ensures multiset(r) == multiset(s) + multiset{f}
    ensures |r| == |s| + 1
    ensures r[0] == f || (s != [] && r[0] == s[0])
  {
    if s == [] then [f]
    else if FillLe(f, s[0]) then [f] + s
    else
      assert s == [s[0]] + s[1..];
      [s[0]] + InsertFill(f, s[1..])
  }

  lemma {:induction false} InsertFillSorted(f: Fill, s: seq<Fill>)
    requires SortedByTsId(s)
    ensures SortedByTsId(InsertFill(f, s))
  {
    if s != [] && !FillLe(f, s[0]) {
      StrLeTotal(f.id, s[0].id);
      assert FillLe(s[0], f);
      var t := s[1..];
      assert SortedByTsId(t);
      InsertFillSorted(f, t);
    }
  }

  /** The fills in the order of `ORDER BY ts ASC, id ASC`: a permutation of
      the input, sorted by the key. */
  function SortFills(s: seq<Fill>): (r: seq<Fill>)
    ensures multiset(r) == multiset(s)
    ensures SortedByTsId(r)
  {
    if s == [] then []
    else
      assert s == [s[0]] + s[1..];
      InsertFillSorted(s[0], SortFills(s[1..]));
      InsertFill(s[0], SortFills(s[1..]))
  }

  function PairFills(fills: seq<Fill>, pair: string): (r: seq<Fill>)
    ensures forall k :: 0 <= k < |r| ==> r[k].pair == pair
    ensures forall f :: f in fills && f.pair == pair ==> f in r
    ensures forall f :: f in r ==> f in fills
  {
    if fills == [] then []
    else
      var pre := PairFills(fills[..|fills| - 1], pair);
      var f := fills[|fills| - 1];
      assert forall g :: g in fills ==> g in fills[..|fills| - 1] || g == f;
      if f.pair == pair then pre + [f] else pre
  }

  /** The fills `recompute_position` replays. */
  function ReplayedFills(fills: seq<Fill>, pair: string): seq<Fill> {
    SortFills(PairFills(fills, pair))
  }

  /** `recompute_position`: replay the pair's fills in (ts, id) order, and
      overwrite or create the pair's Position row with the result. */
  method RecomputePosition(db: Store, pair: string, nowS: int) returns (qty: real, avg: real)
    requires db.Valid()
    modifies db`positions
    ensures db.Valid()
    ensures var b := Replay(LedgerLegs(ReplayedFills(db.fills, pair)));
            qty == b.qty && avg == AvgOf(b)
    ensures db.positions == old(db.positions)[pair := Position(pair, qty, avg, nowS)]
  {
    var cost;
    qty, cost := ReplayLoop(LedgerLegs(ReplayedFills(db.fills, pair)));
    avg := if qty > QtyEps then cost / qty else 0.0;
    db.positions := db.positions[pair := Position(pair, qty, avg, nowS)];
  }

  /** The position written by `recompute_position` is never short when the
      exchange reports non-negative quantities, and its average is 0
      whenever its quantity is within 1e-12 of zero. */
  lemma RecomputedPositionSane(fills: seq<Fill>, pair: string)
    requires forall k :: 0 <= k < |fills| ==> fills[k].qty >= 0.0
    ensures var b := Replay(LedgerLegs(ReplayedFills(fills, pair)));
            b.qty >= 0.0 && (b.qty <= QtyEps ==> AvgOf(b) == 0.0)
  {
    var rs := ReplayedFills(fills, pair);
    var ps := PairFills(fills, pair);
    forall k | 0 <= k < |rs| ensures rs[k].qty >= 0.0 {
      assert rs[k] in multiset(rs);
      assert rs[k] in ps;
    }
    ReplayQtyNonNegative(LedgerLegs(rs));
  }

  /** Every fill `sync_trades` stores has an upper-case side, so the
      position replay of sync.py and that of accounting.py agree on it. */
  lemma ImportedFillsReplayAlike(committed: seq<Fill>, trades: seq<Trade>, pair: string, endMs: int)
    requires Accounting.UpperSides(committed)
    ensures var fs := committed + PendingFills(committed, trades, pair, endMs);
            Replay(LedgerLegs(fs)) == Replay(DictLegs(fs))
  {
    var fs := committed + PendingFills(committed, trades, pair, endMs);
    assert Accounting.UpperSides(fs) by {
      forall k | 0 <= k < |fs| ensures Upper(fs[k].side) == fs[k].side {
        if k >= |committed| {
          assert fs[k] == PendingFills(committed, trades, pair, endMs)[k - |committed|];
        }
      }
    }
    LedgerAndDictReplayAgree(fs);
  }

  // ===================================================================
  // Command-line window and open-order limit

  /** The `--window` argument: absent, a number, or text. */
  datatype WindowArg = NoWindow | Minutes(n: int) | WindowText(s: string)

  function ClampMinutes(m: int): (r: int)
    ensures 1 <= r <= 1440
    ensures 1 <= m <= 1440 ==> r == m
  {
    if m < 1 then 1 else if m > 1440 then 1440 else m
  }

  predicate IsDigit(c: char) { '0' <= c <= '9' }

  function DigitsValue(s: string): (r: nat)
    requires forall k :: 0 <= k < |s| ==> IsDigit(s[k])
  {
    if s == [] then 0
    else
      var d := s[|s| - 1];
      assert IsDigit(d);
      DigitsValue(s[..|s| - 1]) * 10 + (d as int - '0' as int)
  }

  predicate AllDigits(s: string) {
    forall k :: 0 <= k < |s| ==> IsDigit(s[k])
  }

  /** Digits with single underscores between digits, as `int()` accepts them. */
  predicate UnderscoredDigits(s: string) {
    s != [] && IsDigit(s[0]) && IsDigit(s[|s| - 1]) &&
    (forall k :: 0 <= k < |s| ==> IsDigit(s[k]) || s[k] == '_') &&
    (forall k :: 0 <= k < |s| - 1 ==> !(s[k] == '_' && s[k + 1] == '_'))
  }

  function DropUnderscores(s: string): (r: string)
    ensures (forall k :: 0 <= k < |s| ==> IsDigit(s[k]) || s[k] == '_') ==> AllDigits(r)
  {
    if s == [] then []
    else
      var rest := DropUnderscores(s[1..]);
      if s[0] == '_' then rest else [s[0]] + rest
  }

  /** Python's `int(text)` in base 10: surrounding white space, an optional
      sign, and digits (single underscores allowed between them). */
  function ParseInt(text: string): Option<int> {
    var t := Strip(text);
    var neg := t != [] && t[0] == '-';
    var body := if t != [] && (t[0] == '-' || t[0] == '+') then t[1..] else t;
    if !UnderscoredDigits(body) then None
    else
      var v: int := DigitsValue(DropUnderscores(body));
      Some(if neg then -v else v)
  }

  /** The units of `[smhd]`. */
  predicate IsUnit(c: char) {
    c == 's' || c == 'm' || c == 'h' || c == 'd'
  }

  /** Minutes for a number with a unit; seconds round up to whole minutes. */
  function UnitMinutes(num: nat, unit: char): (r: int)
    requires IsUnit(unit)
    ensures unit == 's' ==> (r - 1) * 60 < num <= r * 60
    ensures unit == 'm' ==> r == num
    ensures unit == 'h' ==> r == num * 60
    ensures unit == 'd' ==> r == num * 1440
  {
    if unit == 's' then (num + 59) / 60
    else if unit == 'm' then num
    else if unit == 'h' then num * 60
    else num * 1440
  }

  /** The fallback `re.fullmatch(r"(\d+)([smhd]?)", text.strip().lower())`:
      the number and the unit ('m' when none is given). */
  function MatchWithUnit(text: string): (r: Option<(nat, char)>)
    ensures r.Some? ==> IsUnit(r.value.1)
  {
    var s := Lower(Strip(text));
    if s == [] then None
    else if AllDigits(s) then Some((DigitsValue(s), 'm'))
    else if IsUnit(s[|s| - 1]) && |s| >= 2 && AllDigits(s[..|s| - 1]) then Some((DigitsValue(s[..|s| - 1]), s[|s| - 1]))
    else None
  }

  /** `_parse_window_to_minutes` as written: an absent argument returns the
      configured default unclamped. */
  function ParseWindowAsWritten(val: WindowArg, default: int): int {
    match val
    case NoWindow => default
    case Minutes(n) => ClampMinutes(n)
    case WindowText(s) =>
      match ParseInt(s)
      case Some(n) => ClampMinutes(n)
      case None =>
        match MatchWithUnit(s)
        case None => ClampMinutes(default)
        case Some(m) => ClampMinutes(UnitMinutes(m.0, m.1))
  }

  /** The docstring promises 1..1440, which fails for an absent argument
      when the configured default lies outside that range. */
  lemma ParseWindowAsWrittenEscapesRange()
    ensures ParseWindowAsWritten(NoWindow, 2000) == 2000
    ensures !(1 <= ParseWindowAsWritten(NoWindow, 2000) <= 1440)
  {
  }

  /** The window parser with the default clamped like every other case:
      always 1..1440. */
  function ParseWindowToMinutes(val: WindowArg, default: int): (r: int)
    ensures 1 <= r <= 1440
    ensures val.NoWindow? ==> r == ClampMinutes(default)
    ensures val != NoWindow ==> r == ParseWindowAsWritten(val, default)
  {
    match val
    case NoWindow => ClampMinutes(default)
    case _ => ParseWindowAsWritten(val, default)
  }

  /** "90s" rounds up to two minutes. */
  lemma ParseWindowSeconds()
    ensures ParseWindowToMinutes(WindowText("90s"), 30) == 2
  {
    StripUnpadded("90s");
    assert Lower("90s") == "90s";
    assert "90s"[..2] == "90" && "90"[..1] == "9";
    assert DigitsValue("90") == 90;
    ParseWindowWithUnit("90s", 30);
  }

  /** "2h" is 120 minutes. */
  lemma ParseWindowHours()
    ensures ParseWindowToMinutes(WindowText("2h"), 30) == 120
  {
    StripUnpadded("2h");
    assert Lower("2h") == "2h";
    assert "2h"[..1] == "2";
    assert DigitsValue("2") == 2;
    ParseWindowWithUnit("2h", 30);
  }

  /** "3d" is clamped to one day. */
  lemma ParseWindowDays()
    ensures ParseWindowToMinutes(WindowText("3d"), 30) == 1440
  {
    StripUnpadded("3d");
    assert Lower("3d") == "3d";
    assert "3d"[..1] == "3";
    assert DigitsValue("3") == 3;
    ParseWindowWithUnit("3d", 30);
  }

  /** Text that is neither a number nor a number with a unit gives the
      clamped default. */
  lemma ParseWindowUnparsable(s: string, default: int)
    requires ParseInt(s) == None && MatchWithUnit(s) == None
    ensures ParseWindowToMinutes(WindowText(s), default) == ClampMinutes(default)
  {
  }

  predicate NoDigit(s: string) {
    forall k :: 0 <= k < |s| ==> !IsDigit(s[k])
  }

  lemma StripNoDigit(s: string)
    requires NoDigit(s)
    ensures NoDigit(Strip(s))
  {
    var t := Strip(s);
    forall k | 0 <= k < |t| ensures !IsDigit(t[k]) {
      assert t[k] in t;
    }
  }

  lemma ParseIntNoDigit(s: string)
    requires NoDigit(Strip(s))
    ensures ParseInt(s) == None
  {
    var t := Strip(s);
    var body := if t != [] && (t[0] == '-' || t[0] == '+') then t[1..] else t;
    if body != [] {
      assert !IsDigit(body[0]) by {
        if t != [] && (t[0] == '-' || t[0] == '+') {
          assert body[0] == t[1];
        }
      }
    }
  }

  lemma MatchNoDigit(s: string)
    requires NoDigit(Strip(s))
    ensures MatchWithUnit(s) == None
  {
    var t := Strip(s);
    var u := Lower(t);
    if u != [] {
      assert u[0] == LowerChar(t[0]);
      assert !IsDigit(u[0]);
      if |u| >= 2 {
        assert u[..|u| - 1][0] == u[0];
      }
    }
  }

  /** Text without a single digit is unparsable, so it always falls back to
      the clamped default. */
  lemma ParseWindowNoDigits(s: string, default: int)
    requires NoDigit(s)
    ensures ParseInt(s) == None && MatchWithUnit(s) == None
    ensures ParseWindowToMinutes(WindowText(s), default) == ClampMinutes(default)
  {
    StripNoDigit(s);
    ParseIntNoDigit(s);
    MatchNoDigit(s);
  }

  lemma {:induction false} DropUnderscoresDigits(s: string)
    requires AllDigits(s)
    ensures DropUnderscores(s) == s
  {
    if s != [] {
      assert AllDigits(s[1..]) by {
        assert forall k :: 0 <= k < |s| - 1 ==> s[1..][k] == s[k + 1];
      }
      DropUnderscoresDigits(s[1..]);
      assert s == [s[0]] + s[1..];
    }
  }

  /** Text whose `strip()` is a plain run of digits is read by `int()` as
      that number of minutes, and the unit pattern reads it the same way,
      with unit 'm'. */
  lemma ParseWindowDigits(s: string, default: int)
    requires Strip(s) != [] && AllDigits(Strip(s))
    ensures ParseInt(s) == Some(DigitsValue(Strip(s)))
    ensures MatchWithUnit(s) == Some((DigitsValue(Strip(s)), 'm'))
    ensures ParseWindowToMinutes(WindowText(s), default) == ClampMinutes(DigitsValue(Strip(s)))
  {
    ParseIntDigits(s);
    MatchDigits(s);
  }

  lemma ParseIntDigits(s: string)
    requires Strip(s) != [] && AllDigits(Strip(s))
    ensures ParseInt(s) == Some(DigitsValue(Strip(s)))
  {
    var t := Strip(s);
    assert IsDigit(t[0]);
    assert UnderscoredDigits(t);
    DropUnderscoresDigits(t);
  }

  lemma MatchDigits(s: string)
    requires Strip(s) != [] && AllDigits(Strip(s))
    ensures MatchWithUnit(s) == Some((DigitsValue(Strip(s)), 'm'))
  {
    var t := Strip(s);
    assert forall k :: 0 <= k < |t| ==> LowerChar(t[k]) == t[k];
    assert Lower(t) == t;
  }

  /** Text whose `strip().lower()` is digits followed by one unit letter:
      `int()` rejects it, and the unit pattern reads the number and that
      unit. */
  lemma ParseWindowWithUnit(s: string, default: int)
    requires var t := Lower(Strip(s)); |t| >= 2 && AllDigits(t[..|t| - 1]) && IsUnit(t[|t| - 1])
    ensures ParseInt(s) == None
    ensures var t := Lower(Strip(s)); MatchWithUnit(s) == Some((DigitsValue(t[..|t| - 1]), t[|t| - 1]))
    ensures var t := Lower(Strip(s));
            ParseWindowToMinutes(WindowText(s), default) == ClampMinutes(UnitMinutes(DigitsValue(t[..|t| - 1]), t[|t| - 1]))
  {
    ParseIntWithUnit(s);
    MatchWithUnitDigits(s);
  }

  lemma ParseIntWithUnit(s: string)
    requires var t := Lower(Strip(s)); |t| >= 2 && IsUnit(t[|t| - 1])
    ensures ParseInt(s) == None
  {
    var t := Strip(s);
    assert Lower(t)[|t| - 1] == LowerChar(t[|t| - 1]);
    assert !IsDigit(t[|t| - 1]);
    var body := if t[0] == '-' || t[0] == '+' then t[1..] else t;
    assert body != [] && body[|body| - 1] == t[|t| - 1];
  }

  lemma MatchWithUnitDigits(s: string)
    requires var t := Lower(Strip(s)); |t| >= 2 && AllDigits(t[..|t| - 1]) && IsUnit(t[|t| - 1])
    ensures var t := Lower(Strip(s)); MatchWithUnit(s) == Some((DigitsValue(t[..|t| - 1]), t[|t| - 1]))
  {
    var t := Lower(Strip(s));
    assert !IsDigit(t[|t| - 1]);
  }

  /** For example "x" with a default of 5000 falls back to 1440. */
  lemma ParseWindowGarbage()
    ensures ParseWindowToMinutes(WindowText("x"), 5000) == 1440
  {
    ParseWindowNoDigits("x", 5000);
  }

  /** `max(10, min(2000, open_limit))` */
  function ClampOpenLimit(n: int): (r: int)
    ensures 10 <= r <= 2000
    ensures 10 <= n <= 2000 ==> r == n
    ensures n < 10 ==> r == 10
    ensures n > 2000 ==> r == 2000
  {
    if n > 2000 then 2000 else if n < 10 then 10 else n
  }
}
