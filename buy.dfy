/** The BUY planner (buy.py): where the last price sits against the 24h
    channel picks one of three ladders, the ladder is fitted to the
    available cash, and each planned order is validated, sent, and recorded
    as a NEW BUY row. The random micro-shift of each level is a parameter. */
module Buy {
  import opened Wrappers
  import opened Numbers
  import opened Text
  import opened Ledger
  import opened Budget

  /** The configuration constants the planner reads. */
  datatype BuyConfig = BuyConfig(
    minUsd: real,               // MIN_ORDER_USD
    belowOffsets: seq<real>,    // BUY_BELOW_OFFSETS
    levels: seq<real>,          // BUY_INCHANNEL_LEVELS
    belowUsd: real,             // BUY_SIZE_BELOW_FIXED_USD
    inchMinUsd: real,           // BUY_SIZE_INCH_MIN_USD
    inchMaxUsd: real,           // BUY_SIZE_INCH_MAX_USD
    aboveUsd: real)             // BUY_SIZE_ABOVE_FIXED_USD

  // ===================================================================
  // Ladders

  /** Above the channel: one order half-way between last and upper, one at
      upper, both of the fixed size; nothing unless both prices are positive. */
  function BuildAbove(last: real, upper: real, size: real): (r: seq<Cand>)
    ensures !(last > 0.0 && upper > 0.0) ==> r == []
    ensures last > 0.0 && upper > 0.0 ==>
              |r| == 2 && r[0] == Cand((last + upper) / 2.0, size) && r[1] == Cand(upper, size)
    ensures last > upper > 0.0 ==> upper < r[0].price < last
  {
    if !(last > 0.0 && upper > 0.0) then [] else [Cand((last + upper) / 2.0, size), Cand(upper, size)]
  }

  /** x * (1 - a) * (1 - b): a price moved down by a fraction and then by a
      micro-shift. */
  function Discounted(x: real, a: real, b: real): real {
    x * (1.0 - a) * (1.0 - b)
  }

  /** Below the channel: one order per configured offset, at
      last * (1 - offset) * (1 - shift), all of the fixed size. */
  function BuildBelow(last: real, offsets: seq<real>, shift: nat -> real, size: real): (r: seq<Cand>)
    ensures |r| == |offsets|
    ensures forall i :: 0 <= i < |r| ==> r[i].usd == size
    ensures forall i :: 0 <= i < |r| ==> r[i].price == Discounted(last, offsets[i], shift(i))
  {
    seq(|offsets|, i requires 0 <= i < |offsets| => Cand(Discounted(last, offsets[i], shift(i)), size))
  }

  /** A shift drawn from [lo, hi] with 0 <= lo <= hi < 1. */
  predicate ShiftsIn(shift: nat -> real, n: nat, lo: real, hi: real) {
    0.0 <= lo <= hi < 1.0 && forall i: nat :: i < n ==> lo <= shift(i) <= hi
  }

  lemma Shrink(y: real, b: real)
    requires y > 0.0 && 0.0 <= b < 1.0
    ensures 0.0 < y * (1.0 - b) <= y
  {
    assert y * (1.0 - b) == y - y * b;
  }

  lemma ScaleDownBelow(x: real, a: real, b: real)
    requires x > 0.0 && 0.0 <= a < 1.0 && 0.0 <= b < 1.0
    ensures 0.0 < Discounted(x, a, b) <= x
  {
    var y := x * (1.0 - a);
    Shrink(x, a);
    Shrink(y, b);
    assert Discounted(x, a, b) == y * (1.0 - b);
  }

  /** With offsets in [0, 1) and shifts in [0, 1), every below-channel order
      is priced above zero and no higher than the last price. */
  lemma BelowPricesUnderLast(last: real, offsets: seq<real>, shift: nat -> real, size: real, lo: real, hi: real)
    requires last > 0.0
    requires forall i :: 0 <= i < |offsets| ==> 0.0 <= offsets[i] < 1.0
    requires ShiftsIn(shift, |offsets|, lo, hi)
    ensures forall c :: c in BuildBelow(last, offsets, shift, size) ==> 0.0 < c.price <= last
  {
    var r := BuildBelow(last, offsets, shift, size);
    forall c | c in r ensures 0.0 < c.price <= last {
      var i :| 0 <= i < |r| && r[i] == c;
      ScaleDownBelow(last, offsets[i], shift(i));
    }
  }

  function MaxOf(xs: seq<real>): (m: real)
    requires xs != []
    ensures m in xs
    ensures forall i :: 0 <= i < |xs| ==> xs[i] <= m
  {
    if |xs| == 1 then xs[0]
    else
      var m := MaxOf(xs[..|xs| - 1]);
      assert forall i :: 0 <= i < |xs| - 1 ==> xs[..|xs| - 1][i] == xs[i];
      if xs[|xs| - 1] > m then xs[|xs| - 1] else m
  }

  /** `max(levels) or 1` */
  function MaxLevel(levels: seq<real>): (m: real)
    requires levels != []
    ensures m != 0.0
  {
    if MaxOf(levels) == 0.0 then 1.0 else MaxOf(levels)
  }

  /** In-channel size of a level: MAX - (MAX - MIN) * lvl / max_lvl,
      never below zero. */
  function InChannelSize(lvl: real, maxLvl: real, minUsd: real, maxUsd: real): (r: real)
    requires maxLvl != 0.0
    ensures r >= 0.0
  {
    Max(0.0, maxUsd - (maxUsd - minUsd) * (lvl / maxLvl))
  }

  /** In the channel: one order per level, at last * (1 - 0.001 * lvl)
      * (1 - shift), sized by `InChannelSize`. */
  function BuildInChannel(last: real, levels: seq<real>, shift: nat -> real, minUsd: real, maxUsd: real): (r: seq<Cand>)
    ensures |r| == |levels|
    ensures forall i :: 0 <= i < |r| ==>
              r[i].price == Discounted(last, 0.001 * levels[i], shift(i)) &&
              r[i].usd == InChannelSize(levels[i], MaxLevel(levels), minUsd, maxUsd) &&
              r[i].usd >= 0.0
  {
    if levels == [] then []
    else
      var maxLvl := MaxLevel(levels);
      seq(|levels|, i requires 0 <= i < |levels| =>
        Cand(Discounted(last, 0.001 * levels[i], shift(i)), InChannelSize(levels[i], maxLvl, minUsd, maxUsd)))
  }

  lemma InChannelSizeAtMax(lvl: real, maxLvl: real, minUsd: real, maxUsd: real)
    requires lvl == maxLvl && maxLvl != 0.0
    ensures InChannelSize(lvl, maxLvl, minUsd, maxUsd) == Max(0.0, minUsd)
  {
    assert lvl / maxLvl == 1.0;
  }

  lemma InChannelSizeMonotone(li: real, lj: real, maxLvl: real, minUsd: real, maxUsd: real)
    requires 0.0 <= minUsd <= maxUsd
    requires 0.0 < li <= lj <= maxLvl
    ensures InChannelSize(lj, maxLvl, minUsd, maxUsd) <= InChannelSize(li, maxLvl, minUsd, maxUsd)
    ensures minUsd <= InChannelSize(lj, maxLvl, minUsd, maxUsd) <= maxUsd
  {
    var d := maxUsd - minUsd;
    var fi, fj := li / maxLvl, lj / maxLvl;
    assert fi <= fj by {
      assert li / maxLvl <= lj / maxLvl;
    }
    assert 0.0 < fj <= 1.0;
    assert d * fi <= d * fj;
    assert d * fj <= d * 1.0;
  }

  /** The level equal to the largest one gets exactly the MIN size (when
      MIN is not negative): the deepest level is the smallest order. */
  lemma DeepestLevelGetsMin(last: real, levels: seq<real>, shift: nat -> real, minUsd: real, maxUsd: real, i: nat)
    requires i < |levels| && levels[i] == MaxOf(levels) && MaxOf(levels) != 0.0
    requires minUsd >= 0.0
    ensures BuildInChannel(last, levels, shift, minUsd, maxUsd)[i].usd == minUsd
  {
    InChannelSizeAtMax(levels[i], MaxLevel(levels), minUsd, maxUsd);
  }

  /** With MIN <= MAX and positive levels, a deeper level never gets a
      larger order, and every size lies between MIN and MAX. */
  lemma InChannelSizesShrinkWithDepth(last: real, levels: seq<real>, shift: nat -> real, minUsd: real, maxUsd: real, i: nat, j: nat)
    requires 0.0 <= minUsd <= maxUsd
    requires forall k :: 0 <= k < |levels| ==> levels[k] > 0.0
    requires i < |levels| && j < |levels| && levels[i] <= levels[j]
    ensures var r := BuildInChannel(last, levels, shift, minUsd, maxUsd);
            r[j].usd <= r[i].usd && minUsd <= r[j].usd <= maxUsd
  {
    var m := MaxLevel(levels);
    assert levels[j] <= MaxOf(levels);
    InChannelSizeMonotone(levels[i], levels[j], m, minUsd, maxUsd);
  }

  // ===================================================================
  // Regime and budget

  datatype Regime = Above | Below | InChannel

  /** Above when last > upper, below when last < lower, in the channel
      otherwise, and in the channel whenever a channel bound is not positive. */
  function ChooseRegime(last: real, lower: real, upper: real): (r: Regime)
    ensures r == Above <==> lower > 0.0 && upper > 0.0 && last > upper
    ensures r == Below <==> lower > 0.0 && upper > 0.0 && last < lower && !(last > upper)
    ensures r == InChannel <==> !(lower > 0.0 && upper > 0.0) || lower <= last <= upper
  {
    if lower > 0.0 && upper > 0.0 then
      if last > upper then Above else if last < lower then Below else InChannel
    else InChannel
  }

  function Candidates(cfg: BuyConfig, last: real, lower: real, upper: real, shift: nat -> real): seq<Cand> {
    match ChooseRegime(last, lower, upper)
    case Above => BuildAbove(last, upper, cfg.aboveUsd)
    case Below => BuildBelow(last, cfg.belowOffsets, shift, cfg.belowUsd)
    case InChannel => BuildInChannel(last, cfg.levels, shift, cfg.inchMinUsd, cfg.inchMaxUsd)
  }

  /** What `main` decides to place: nothing, the single all-budget order at
      the above-channel midpoint, or a fitted ladder. */
  datatype BuyPlan = NoBuy | Single(price: real, usd: real) | Ladder(cands: seq<Cand>)

  function PlanBuys(cfg: BuyConfig, last: real, lower: real, upper: real, avail: real, shift: nat -> real): (r: BuyPlan)
    ensures avail <= 0.0 ==> r == NoBuy
    ensures (forall c :: c in Candidates(cfg, last, lower, upper, shift) ==> c.usd < cfg.minUsd) ==> r == NoBuy
    ensures r.Single? ==>
              ChooseRegime(last, lower, upper) == Above && r.price == (last + upper) / 2.0 &&
              r.usd == avail && cfg.minUsd <= avail < TotalUsd(DropBelow(Candidates(cfg, last, lower, upper, shift), cfg.minUsd))
    ensures r.Ladder? ==> r.cands != []
    ensures r.Ladder? && cfg.minUsd > 0.0 ==> AllAtLeast(r.cands, cfg.minUsd) && TotalUsd(r.cands) <= avail
    ensures r.Ladder? ==> forall c :: c in r.cands ==>
              exists d :: d in Candidates(cfg, last, lower, upper, shift) && d.price == c.price
    ensures var orders := DropBelow(Candidates(cfg, last, lower, upper, shift), cfg.minUsd);
            avail > 0.0 && orders != [] && ChooseRegime(last, lower, upper) == Above &&
            cfg.minUsd <= avail < TotalUsd(orders) ==>
              r == Single((last + upper) / 2.0, avail)
    ensures var orders := DropBelow(Candidates(cfg, last, lower, upper, shift), cfg.minUsd);
            var fitted := FitToBudget(orders, avail, cfg.minUsd);
            avail > 0.0 && orders != [] &&
            !(ChooseRegime(last, lower, upper) == Above && cfg.minUsd <= avail < TotalUsd(orders)) ==>
              r == (if fitted == [] then NoBuy else Ladder(fitted))
  {
    if avail <= 0.0 then NoBuy
    else
      var orders := DropBelow(Candidates(cfg, last, lower, upper, shift), cfg.minUsd);
      if orders == [] then NoBuy
      else
        var need := TotalUsd(orders);
        if ChooseRegime(last, lower, upper) == Above && avail < need && avail >= cfg.minUsd then
          Single((last + upper) / 2.0, avail)
        else
          var fitted := FitToBudget(orders, avail, cfg.minUsd);
          if fitted == [] then NoBuy
          else
            assert forall c :: c in fitted ==> exists d :: d in orders && d.price == c.price by {
              forall c | c in fitted ensures exists d :: d in orders && d.price == c.price {
                FitKeepsPrices(orders, avail, cfg.minUsd, c);
              }
            }
            if cfg.minUsd > 0.0 then
              FitWithinBudget(orders, avail, cfg.minUsd);
              Ladder(fitted)
            else Ladder(fitted)
  }

  // ===================================================================
  // Placement

  /** The validation of `place_limit_buy`: the clamped price must be
      positive and the clamped size at least the minimum, and the quantity
      floor6(usd / price) must be positive. The quantity never buys more than
      the size allows, and misses it by less than one tick. */
  function BuyQty(price: real, usd: real, minUsd: real): (r: Option<real>)
    ensures r.None? <==> price <= 0.0 || Max(0.0, usd) < minUsd || Max(0.0, usd) / price < Tick6
    ensures r.Some? ==> price > 0.0 && usd >= minUsd && usd > 0.0
    ensures r.Some? ==> 0.0 < r.value && r.value * price <= usd && usd / price < r.value + Tick6
  {
    var p := Max(0.0, price);
    var u := Max(0.0, usd);
    if p <= 0.0 || u < minUsd then None
    else
      var q := Floor6(u / p);
      Floor6Sign(u / p);
      if q <= 0.0 then None
      else
        assert q * p <= (u / p) * p;
        Some(q)
  }

  /** The orders table after one `place_limit_buy`: unchanged when the
      validation fails or the exchange raises, otherwise merged with a NEW
      GRID BUY that reserves the (clamped) size. */
  function BuyPlaced(orders: map<string, Order>, pair: string, c: Cand, minUsd: real, reply: Reply, nowS: int): map<string, Order> {
    match BuyQty(c.price, c.usd, minUsd)
    case None => orders
    case Some(q) =>
      match reply
      case Raise => orders
      case Ack(oid) =>
        var id := PlacedId(oid, "BUY_", nowS);
        orders[id := PlacedOrder(id, pair, BUY, c.price, q, Max(0.0, c.usd), "GRID", nowS)]
  }

  method PlaceLimitBuy(db: Store, pair: string, c: Cand, minUsd: real, reply: Reply, nowS: int) returns (ok: bool)
    requires db.Valid()
    modifies db`orders
    ensures db.Valid()
    ensures ok <==> BuyQty(c.price, c.usd, minUsd).Some? && reply.Ack?
    ensures db.orders == BuyPlaced(old(db.orders), pair, c, minUsd, reply, nowS)
  {
    var price := Max(0.0, c.price);
    var usd := Max(0.0, c.usd);
    if price <= 0.0 || usd < minUsd {
      return false;
    }
    var qty := Floor6(usd / price);
    if qty <= 0.0 {
      return false;
    }
    if reply.Raise? {
      return false;
    }
    var id := PlacedId(reply.orderId, "BUY_", nowS);
    db.orders := db.orders[id := PlacedOrder(id, pair, BUY, price, qty, usd, "GRID", nowS)];
    ok := true;
  }

  /** The orders table after placing the candidates in order, with the
      exchange's answer to each. */
  function BuysPlaced(orders: map<string, Order>, pair: string, cs: seq<Cand>, minUsd: real, replies: seq<Reply>, nowS: int): map<string, Order>
    requires |replies| == |cs|
  {
    if cs == [] then orders
    else
      var n := |cs| - 1;
      BuyPlaced(BuysPlaced(orders, pair, cs[..n], minUsd, replies[..n], nowS), pair, cs[n], minUsd, replies[n], nowS)
  }

  /** A row the BUY planner writes: a NEW GRID BUY of the pair, nothing
      filled, whose quantity is positive and costs no more than it reserves,
      reserving at least the minimum. */
  predicate IsGridBuy(o: Order, pair: string, minUsd: real) {
    o.pair == pair && o.side == BUY && o.status == NEW && o.filledQty == 0.0 && o.mode == "GRID" &&
    o.qty > 0.0 && o.price > 0.0 && o.qty * o.price <= o.reserved && o.reserved >= minUsd
  }

  /** `r` keeps every row of `orders` and the rows it changes or adds are
      valid GRID BUYs. */
  predicate BuyWrites(orders: map<string, Order>, r: map<string, Order>, pair: string, minUsd: real) {
    orders.Keys <= r.Keys &&
    forall id :: id in r ==> (id in orders && r[id] == orders[id]) || IsGridBuy(r[id], pair, minUsd)
  }

  lemma BuyWritesTrans(a: map<string, Order>, b: map<string, Order>, c: map<string, Order>, pair: string, minUsd: real)
    requires BuyWrites(a, b, pair, minUsd) && BuyWrites(b, c, pair, minUsd)
    ensures BuyWrites(a, c, pair, minUsd)
  {
  }

  /** One placement writes at most one valid GRID BUY, under its own id. */
  lemma BuyPlacedRows(orders: map<string, Order>, pair: string, c: Cand, minUsd: real, reply: Reply, nowS: int)
    ensures BuyWrites(orders, BuyPlaced(orders, pair, c, minUsd, reply, nowS), pair, minUsd)
    ensures KeyedById(orders) ==> KeyedById(BuyPlaced(orders, pair, c, minUsd, reply, nowS))
  {
    var r := BuyPlaced(orders, pair, c, minUsd, reply, nowS);
    if BuyQty(c.price, c.usd, minUsd).Some? && reply.Ack? {
      var q := BuyQty(c.price, c.usd, minUsd).value;
      var id := PlacedId(reply.orderId, "BUY_", nowS);
      assert r == orders[id := PlacedOrder(id, pair, BUY, c.price, q, Max(0.0, c.usd), "GRID", nowS)];
      assert IsGridBuy(r[id], pair, minUsd);
    }
  }

  /** Placing never removes a row; every row it writes is a valid GRID BUY;
      all other rows are untouched. */
  lemma {:induction false} BuysPlacedRows(orders: map<string, Order>, pair: string, cs: seq<Cand>, minUsd: real, replies: seq<Reply>, nowS: int)
    requires |replies| == |cs|
    ensures var r := BuysPlaced(orders, pair, cs, minUsd, replies, nowS);
            orders.Keys <= r.Keys &&
            forall id :: id in r ==> (id in orders && r[id] == orders[id]) || IsGridBuy(r[id], pair, minUsd)
    ensures KeyedById(orders) ==> KeyedById(BuysPlaced(orders, pair, cs, minUsd, replies, nowS))
  {
    if cs != [] {
      var n := |cs| - 1;
      var mid := BuysPlaced(orders, pair, cs[..n], minUsd, replies[..n], nowS);
      BuysPlacedRows(orders, pair, cs[..n], minUsd, replies[..n], nowS);
      assert BuyWrites(orders, mid, pair, minUsd);
      BuyPlacedRows(mid, pair, cs[n], minUsd, replies[n], nowS);
      BuyWritesTrans(orders, mid, BuyPlaced(mid, pair, cs[n], minUsd, replies[n], nowS), pair, minUsd);
    }
  }

  method PlaceBuys(db: Store, pair: string, cs: seq<Cand>, minUsd: real, replies: seq<Reply>, nowS: int)
    requires db.Valid() && |replies| == |cs|
    modifies db`orders
    ensures db.Valid()
    ensures db.orders == BuysPlaced(old(db.orders), pair, cs, minUsd, replies, nowS)
  {
    var i := 0;
    while i < |cs|
      invariant 0 <= i <= |cs|
      invariant db.Valid()
      invariant db.orders == BuysPlaced(old(db.orders), pair, cs[..i], minUsd, replies[..i], nowS)
    {
      assert cs[..i + 1][..i] == cs[..i] && replies[..i + 1][..i] == replies[..i];
      var _ := PlaceLimitBuy(db, pair, cs[i], minUsd, replies[i], nowS);
      i := i + 1;
    }
    assert cs[..|cs|] == cs && replies[..|replies|] == replies;
  }

  /** `get_capital`: the pair's available cash, 0 without a Capital row. */
  function AvailableUsd(capital: map<string, Capital>, pair: string): real {
    if pair in capital then capital[pair].availableUsd else 0.0
  }

  /** The number of exchange answers a plan consumes. */
  function PlanSize(p: BuyPlan): nat {
    match p
    case NoBuy => 0
    case Single(_, _) => 1
    case Ladder(cs) => |cs|
  }

  function PlanCands(p: BuyPlan): seq<Cand> {
    match p
    case NoBuy => []
    case Single(price, usd) => [Cand(price, usd)]
    case Ladder(cs) => cs
  }

  /** One run of buy.py against the store: plan from the channel and the
      cash, then place the plan. */
  method BuyTick(db: Store, cfg: BuyConfig, pair: string, last: real, lower: real, upper: real,
                 shift: nat -> real, replies: seq<Reply>, nowS: int)
    requires db.Valid()
    requires |replies| == PlanSize(PlanBuys(cfg, last, lower, upper, AvailableUsd(db.capital, pair), shift))
    modifies db`orders
    ensures db.Valid()
    ensures var plan := PlanBuys(cfg, last, lower, upper, AvailableUsd(old(db.capital), pair), shift);
            db.orders == BuysPlaced(old(db.orders), pair, PlanCands(plan), cfg.minUsd, replies, nowS)
  {
    var avail := AvailableUsd(db.capital, pair);
    var plan := PlanBuys(cfg, last, lower, upper, avail, shift);
    PlaceBuys(db, pair, PlanCands(plan), cfg.minUsd, replies, nowS);
  }

  /** When the cash covers every candidate that reaches the minimum, all of
      them are placed unchanged, whatever the regime. */
  lemma PlanBuysAffordable(cfg: BuyConfig, last: real, lower: real, upper: real, avail: real, shift: nat -> real)
    requires avail > 0.0
    requires DropBelow(Candidates(cfg, last, lower, upper, shift), cfg.minUsd) != []
    requires TotalUsd(DropBelow(Candidates(cfg, last, lower, upper, shift), cfg.minUsd)) <= avail
    ensures PlanBuys(cfg, last, lower, upper, avail, shift) ==
            Ladder(DropBelow(Candidates(cfg, last, lower, upper, shift), cfg.minUsd))
  {
  }

  /** When the cash is short and the single-order rule does not apply, the
      ladder is the candidates scaled by avail / need, keeping the ones that
      still reach the minimum, in order. */
  lemma PlanBuysScaled(cfg: BuyConfig, last: real, lower: real, upper: real, avail: real, shift: nat -> real)
    requires avail > 0.0
    requires var orders := DropBelow(Candidates(cfg, last, lower, upper, shift), cfg.minUsd);
             orders != [] && TotalUsd(orders) > avail &&
             !(ChooseRegime(last, lower, upper) == Above && cfg.minUsd <= avail)
    ensures var orders := DropBelow(Candidates(cfg, last, lower, upper, shift), cfg.minUsd);
            var scaled := DropBelow(Scaled(orders, avail / TotalUsd(orders)), cfg.minUsd);
            PlanBuys(cfg, last, lower, upper, avail, shift) == (if scaled == [] then NoBuy else Ladder(scaled))
  {
  }

  /** What one run reserves: every planned order is at least the minimum
      and, single order or ladder, the plan never reserves more than the
      available cash. */
  lemma PlanWithinCash(cfg: BuyConfig, last: real, lower: real, upper: real, avail: real, shift: nat -> real)
    requires cfg.minUsd > 0.0
    ensures var cs := PlanCands(PlanBuys(cfg, last, lower, upper, avail, shift));
            AllAtLeast(cs, cfg.minUsd) && TotalUsd(cs) <= Max(0.0, avail)
  {
    var plan := PlanBuys(cfg, last, lower, upper, avail, shift);
    if plan.Single? {
      assert TotalUsd([Cand(plan.price, plan.usd)]) == plan.usd;
    }
  }
}
