/** The bucket ladder (buckets.py): every open BUY is cancelled, a grid of K
    prices between a floor N and a top just under the last price is built
    with a power-law skew towards N, sizes run from S_top at the top to
    S_bottom at the bottom, and the ladder is fitted to a share of the free
    quote balance and placed until the budget is (almost) spent. The power
    function and the random micro-shift of each level are parameters. */
module Buckets {
  import opened Numbers
  import opened Text
  import opened Ledger
  import opened Budget

  // ===================================================================
  // Cancelling the BUY side

  /** The ids `cancel_all_buys` sends cancels for: the listed orders whose
      side upper-cases to BUY. */
  function BuyListed(ex: seq<Listed>): (r: seq<string>)
    ensures |r| <= |ex|
    ensures forall id :: id in r ==> exists k :: 0 <= k < |ex| && Upper(ex[k].side) == BUY && ex[k].orderId == id
  {
    if ex == [] then []
    else
      var pre := BuyListed(ex[..|ex| - 1]);
      var o := ex[|ex| - 1];
      assert forall k :: 0 <= k < |ex| - 1 ==> ex[..|ex| - 1][k] == ex[k];
      if Upper(o.side) == BUY then pre + [o.orderId] else pre
  }

  /** `cancel_all_buys`, without its wait for the exchange to settle: a
      cancel is attempted for every listed BUY and counted whatever the
      answer; locally every open BUY of the pair becomes CANCELED. */
  method CancelAllBuys(db: Store, pair: string, ex: seq<Listed>, nowS: int) returns (canceled: nat)
    requires db.Valid()
    modifies db`orders
    ensures db.Valid()
    ensures canceled == |BuyListed(ex)|
    ensures db.orders == CancelOpenSide(old(db.orders), pair, BUY, nowS)
  {
    var buyIds := BuyListed(ex);
    canceled := 0;
    for i := 0 to |buyIds|
      invariant canceled == i
    {
      canceled := canceled + 1;
    }
    db.orders := CancelOpenSide(db.orders, pair, BUY, nowS);
  }

  /** The local cancel of `cancel_all_buys` touches only the pair's open
      BUYs (NEW or PARTIALLY_FILLED): SELLs, other pairs and closed rows are
      kept as they are. */
  lemma CancelBuysOnly(orders: map<string, Order>, pair: string, now: int, id: string)
    requires id in orders
    ensures var r := CancelOpenSide(orders, pair, BUY, now);
            var o := orders[id];
            id in r &&
            (o.pair == pair && o.side == BUY && IsOpenStatus(o.status) ==> r[id] == o.(status := CANCELED, updated := now)) &&
            (o.pair != pair || o.side != BUY || !IsOpenStatus(o.status) ==> r[id] == o)
  {
  }

  // ===================================================================
  // Grid and sizes

  /** The powers t ** e used by the grid: for t in (0, 1) and e >= 1 the
      result stays in (0, 1), and grows with t. */
  ghost predicate PowLike(pow: (real, real) -> real) {
    (forall t: real, e: real :: 0.0 < t < 1.0 && e >= 1.0 ==> 0.0 < pow(t, e) < 1.0) &&
    (forall a: real, b: real, e: real :: 0.0 < a <= b < 1.0 && e >= 1.0 ==> pow(a, e) <= pow(b, e))
  }

  /** The centre of the i-th of K intervals of [0, 1]. */
  function Centre(i: int, k: int): real
    requires k > 0
  {
    (i as real + 0.5) / (k as real)
  }

  lemma MulMono(a: real, u: real, v: real)
    requires a >= 0.0 && u <= v
    ensures a * u <= a * v
  {
    assert a * v - a * u == a * (v - u);
  }

  lemma DivInside(x: real, y: real)
    requires 0.0 < x < y
    ensures 0.0 < x / y < 1.0
  {
    var q := x / y;
    assert q * y == x;
    if q >= 1.0 {
      MulMono(y, 1.0, q);
    }
  }

  lemma CentreInside(i: int, k: int)
    requires k > 0 && 0 <= i < k
    ensures 0.0 < Centre(i, k) < 1.0
  {
    DivInside(i as real + 0.5, k as real);
  }

  lemma CentreGrows(i: int, j: int, k: int)
    requires k > 0 && i <= j
    ensures Centre(i, k) <= Centre(j, k)
  {
    var ci, cj := Centre(i, k), Centre(j, k);
    assert ci * (k as real) == i as real + 0.5;
    assert cj * (k as real) == j as real + 0.5;
    if cj < ci {
      MulMono(k as real, cj, ci);
    }
  }

  /** `max(lo, min(hi, v))` */
  function Clamp(lo: real, hi: real, v: real): (r: real)
    requires lo <= hi
    ensures lo <= r <= hi
    ensures lo <= v <= hi ==> r == v
  {
    Max(lo, Min(hi, v))
  }

  /** The unclamped i-th level: N + (top - N) * t_i ** max(1, skew), moved
      down by the micro-shift. */
  function GridLevel(n: real, top: real, k: int, skew: real, pow: (real, real) -> real, shift: real, i: int): real
    requires k > 0
  {
    Lerp(n, top, pow(Centre(i, k), Max(1.0, skew))) * (1.0 - shift)
  }

  /** The i-th level clamped into [N, top] with its own micro-shift. */
  function GridAt(n: real, top: real, k: int, skew: real, pow: (real, real) -> real, shift: nat -> real, i: int): (r: real)
    requires k > 0 && 0 <= i && n <= top
    ensures n <= r <= top
  {
    Clamp(n, top, GridLevel(n, top, k, skew, pow, shift(i), i))
  }

  /** `build_grid`: nothing when K <= 0 or top <= N, else K levels, each
      clamped into [N, top]. */
  function BuildGrid(n: real, top: real, k: int, skew: real, pow: (real, real) -> real, shift: nat -> real): (r: seq<real>)
    ensures k <= 0 || top <= n ==> r == []
    ensures k > 0 && top > n ==> |r| == k
    ensures forall i :: 0 <= i < |r| ==> n <= r[i] <= top
    ensures k > 0 && top > n ==> forall i :: 0 <= i < k ==> r[i] == GridAt(n, top, k, skew, pow, shift, i)
  {
    if k <= 0 || top <= n then []
    else seq(k, i requires 0 <= i < k => GridAt(n, top, k, skew, pow, shift, i))
  }

  /** `a + (b - a) * w` */
  function Lerp(a: real, b: real, w: real): real {
    a + (b - a) * w
  }

  lemma LerpBetween(lo: real, hi: real, w: real)
    requires lo <= hi && 0.0 < w < 1.0
    ensures lo <= Lerp(lo, hi, w) <= hi
  {
    NonNegMul(hi - lo, w);
    NonNegMul(hi - lo, 1.0 - w);
    assert hi - Lerp(lo, hi, w) == (hi - lo) * (1.0 - w);
  }

  lemma LerpMono(lo: real, hi: real, u: real, v: real)
    requires lo <= hi && u <= v
    ensures Lerp(lo, hi, u) <= Lerp(lo, hi, v)
  {
    MulMono(hi - lo, u, v);
  }

  /** The weight of the i-th size: (1 - t_i) ** max(1, skew). */
  function SizeWeight(k: int, skew: real, pow: (real, real) -> real, i: int): real
    requires k > 0
  {
    pow(1.0 - Centre(i, k), Max(1.0, skew))
  }

  lemma SizeWeightInside(k: int, skew: real, pow: (real, real) -> real, i: int)
    requires PowLike(pow) && k > 0 && 0 <= i < k
    ensures 0.0 < SizeWeight(k, skew, pow, i) < 1.0
  {
    CentreInside(i, k);
  }

  lemma SizeWeightShrinks(k: int, skew: real, pow: (real, real) -> real, i: int, j: int)
    requires PowLike(pow) && k > 0 && 0 <= i <= j < k
    ensures SizeWeight(k, skew, pow, j) <= SizeWeight(k, skew, pow, i)
  {
    CentreInside(i, k);
    CentreInside(j, k);
    CentreGrows(i, j, k);
  }

  /** The i-th size: S_top + (S_bottom - S_top) * (1 - t_i) ** max(1, skew),
      never below zero. */
  function SizeAt(k: int, sBottom: real, sTop: real, skew: real, pow: (real, real) -> real, i: int): real
    requires k > 0
  {
    Max(0.0, Lerp(sTop, sBottom, SizeWeight(k, skew, pow, i)))
  }

  /** `build_sizes` */
  function BuildSizes(k: int, sBottom: real, sTop: real, skew: real, pow: (real, real) -> real): (r: seq<real>)
    ensures k <= 0 ==> r == []
    ensures k > 0 ==> |r| == k
    ensures forall i :: 0 <= i < |r| ==> r[i] >= 0.0
    ensures k > 0 ==> forall i :: 0 <= i < k ==> r[i] == SizeAt(k, sBottom, sTop, skew, pow, i)
  {
    if k <= 0 then [] else seq(k, i requires 0 <= i < k => SizeAt(k, sBottom, sTop, skew, pow, i))
  }

  /** With 0 <= S_top <= S_bottom each size lies between S_top and
      S_bottom. */
  lemma SizesBetween(k: int, sBottom: real, sTop: real, skew: real, pow: (real, real) -> real, i: int)
    requires PowLike(pow) && k > 0 && 0 <= i < k
    requires 0.0 <= sTop <= sBottom
    ensures sTop <= BuildSizes(k, sBottom, sTop, skew, pow)[i] <= sBottom
  {
    SizeWeightInside(k, skew, pow, i);
    LerpBetween(sTop, sBottom, SizeWeight(k, skew, pow, i));
  }

  /** With S_top <= S_bottom sizes never grow along the grid: the bottom
      of the grid gets the larger orders. */
  lemma SizesNonIncreasing(k: int, sBottom: real, sTop: real, skew: real, pow: (real, real) -> real, i: int, j: int)
    requires PowLike(pow) && k > 0 && 0 <= i <= j < k
    requires sTop <= sBottom
    ensures BuildSizes(k, sBottom, sTop, skew, pow)[j] <= BuildSizes(k, sBottom, sTop, skew, pow)[i]
  {
    SizeWeightShrinks(k, skew, pow, i, j);
    LerpMono(sTop, sBottom, SizeWeight(k, skew, pow, j), SizeWeight(k, skew, pow, i));
  }

  /** The micro-shift can reorder neighbouring levels, so the grid is not
      always increasing: with the identity as power, N = 1, top = 2 and
      K = 10000, levels 5000 and 5001 come out inverted when the first gets
      the smallest shift (0.00005) and the second the largest (0.00025). */
  lemma GridNotAlwaysIncreasing()
    ensures var pow := (t: real, e: real) => t;
            var shift := (i: nat) => if i == 5000 then 0.00005 else 0.00025;
            var g := BuildGrid(1.0, 2.0, 10000, 1.0, pow, shift);
            g[5001] < g[5000]
  {
    var pow := (t: real, e: real) => t;
    var shift := (i: nat) => if i == 5000 then 0.00005 else 0.00025;
    assert GridLevel(1.0, 2.0, 10000, 1.0, pow, shift(5000), 5000) == 1.50005 * 0.99995;
    assert GridLevel(1.0, 2.0, 10000, 1.0, pow, shift(5001), 5001) == 1.50015 * 0.99975;
  }

  // ===================================================================
  // Placing the ladder

  /** The state of the placement loop. `crashed` records the division by
      zero a zero price raises; the orders placed before it stay committed. */
  datatype Run = Run(orders: map<string, Order>, placed: nat, spent: real, crashed: bool)

  /** The BUCKET BUY row written for one acknowledged placement. */
  function BucketRow(orders: map<string, Order>, pair: string, c: Cand, q: real, oid: string, nowS: int): map<string, Order> {
    var id := PlacedId(oid, "B_", nowS);
    orders[id := PlacedOrder(id, pair, BUY, c.price, q, c.usd, "BUCKET", nowS)]
  }

  lemma BucketRowKeyed(orders: map<string, Order>, pair: string, c: Cand, q: real, oid: string, nowS: int)
    requires KeyedById(orders)
    ensures KeyedById(BucketRow(orders, pair, c, q, oid, nowS))
  {
  }

  /** One candidate of the placement loop: the state after it, and whether
      the loop goes on. Candidates under the minimum, without a quantity or
      whose placement raises are passed over; a zero price raises; an
      acknowledged placement is recorded and stops the loop once 0.999 of
      the budget is spent. */
  function LadderStep(st: Run, c: Cand, reply: Reply, pair: string, minUsd: real, budget: real, nowS: int): (Run, bool) {
    if c.usd < minUsd then (st, true)
    else if c.price == 0.0 then (st.(crashed := true), false)
    else
      var q := Floor6(c.usd / c.price);
      if q <= 0.0 || reply.Raise? then (st, true)
      else
        var next := Run(BucketRow(st.orders, pair, c, q, reply.orderId, nowS), st.placed + 1, st.spent + c.usd, false);
        (next, next.spent < budget * 0.999)
  }

  /** The rest of the placement loop from state `st` over the remaining
      candidates, with the exchange's answer to each. */
  function LadderFrom(st: Run, cs: seq<Cand>, replies: seq<Reply>, pair: string, minUsd: real, budget: real, nowS: int): Run
    requires |replies| == |cs|
    decreases |cs|
  {
    if cs == [] then st
    else
      var s := LadderStep(st, cs[0], replies[0], pair, minUsd, budget, nowS);
      if s.1 then LadderFrom(s.0, cs[1..], replies[1..], pair, minUsd, budget, nowS) else s.0
  }

  /** A candidate that is under the minimum, rounds to no quantity or
      whose placement raises is passed over. */
  lemma LadderSkips(st: Run, cs: seq<Cand>, replies: seq<Reply>, pair: string, minUsd: real, budget: real, nowS: int)
    requires |replies| == |cs| && cs != []
    requires cs[0].usd < minUsd || (cs[0].price != 0.0 && (Floor6(cs[0].usd / cs[0].price) <= 0.0 || replies[0].Raise?))
    ensures LadderFrom(st, cs, replies, pair, minUsd, budget, nowS) == LadderFrom(st, cs[1..], replies[1..], pair, minUsd, budget, nowS)
  {
  }

  lemma LadderStepPlaces(st: Run, c: Cand, reply: Reply, q: real, oid: string, next: Run,
                          pair: string, minUsd: real, budget: real, nowS: int)
    requires c.usd >= minUsd && c.price != 0.0 && q == Floor6(c.usd / c.price) && q > 0.0
    requires reply == Ack(oid)
    requires next == Run(BucketRow(st.orders, pair, c, q, oid, nowS), st.placed + 1, st.spent + c.usd, false)
    ensures LadderStep(st, c, reply, pair, minUsd, budget, nowS) == (next, next.spent < budget * 0.999)
  {
  }

  /** An acknowledged placement is recorded, then the loop stops or goes on. */
  lemma LadderPlaces(st: Run, cs: seq<Cand>, replies: seq<Reply>, q: real, oid: string, next: Run,
                      pair: string, minUsd: real, budget: real, nowS: int)
    requires |replies| == |cs| && cs != []
    requires cs[0].usd >= minUsd && cs[0].price != 0.0 && q == Floor6(cs[0].usd / cs[0].price) && q > 0.0
    requires replies[0] == Ack(oid)
    requires next == Run(BucketRow(st.orders, pair, cs[0], q, oid, nowS), st.placed + 1, st.spent + cs[0].usd, false)
    ensures next.spent >= budget * 0.999 ==> LadderFrom(st, cs, replies, pair, minUsd, budget, nowS) == next
    ensures next.spent < budget * 0.999 ==>
              LadderFrom(st, cs, replies, pair, minUsd, budget, nowS) == LadderFrom(next, cs[1..], replies[1..], pair, minUsd, budget, nowS)
  {
    LadderStepPlaces(st, cs[0], replies[0], q, oid, next, pair, minUsd, budget, nowS);
  }

  /** The pairs `place_ladder` works on: the first min(len(prices),
      len(sizes)) of them. */
  function LadderCands(prices: seq<real>, sizes: seq<real>): (r: seq<Cand>)
    ensures |r| == if |prices| <= |sizes| then |prices| else |sizes|
    ensures forall i :: 0 <= i < |r| ==> r[i] == Cand(prices[i], sizes[i])
  {
    var k := if |prices| <= |sizes| then |prices| else |sizes|;
    seq(k, i requires 0 <= i < k => Cand(prices[i], sizes[i]))
  }

  /** What `place_ladder` sends: nothing for empty inputs or a budget that
      is not positive, else the fitted candidates. */
  function LadderPlan(prices: seq<real>, sizes: seq<real>, budget: real, minUsd: real): (r: seq<Cand>)
    ensures prices == [] || sizes == [] || budget <= 0.0 ==> r == []
    ensures minUsd > 0.0 ==> AllAtLeast(r, minUsd) && TotalUsd(r) <= Max(0.0, budget)
    ensures |r| <= |prices| && |r| <= |sizes|
    ensures prices != [] && sizes != [] && budget > 0.0 ==>
              r == FitToBudget(DropBelow(LadderCands(prices, sizes), minUsd), budget, minUsd)
  {
    if prices == [] || sizes == [] || budget <= 0.0 then []
    else
      var filt := DropBelow(LadderCands(prices, sizes), minUsd);
      if minUsd > 0.0 then
        FitWithinBudget(filt, budget, minUsd);
        FitToBudget(filt, budget, minUsd)
      else FitToBudget(filt, budget, minUsd)
  }

  /** When the candidates of at least the minimum fit in the budget, they
      are the ladder, unscaled. */
  lemma LadderPlanAffordable(prices: seq<real>, sizes: seq<real>, budget: real, minUsd: real)
    requires prices != [] && sizes != [] && budget > 0.0
    requires TotalUsd(DropBelow(LadderCands(prices, sizes), minUsd)) <= budget
    ensures LadderPlan(prices, sizes, budget, minUsd) == DropBelow(LadderCands(prices, sizes), minUsd)
  {
  }

  /** When they need more than the budget, every size is scaled by
      budget / need and only the scaled candidates that still reach the
      minimum are kept, in order. */
  lemma LadderPlanScaled(prices: seq<real>, sizes: seq<real>, budget: real, minUsd: real)
    requires prices != [] && sizes != [] && budget > 0.0
    requires TotalUsd(DropBelow(LadderCands(prices, sizes), minUsd)) > budget
    ensures var filt := DropBelow(LadderCands(prices, sizes), minUsd);
            LadderPlan(prices, sizes, budget, minUsd) == DropBelow(Scaled(filt, budget / TotalUsd(filt)), minUsd)
  {
  }

  function TotalFront(cs: seq<Cand>): real
    decreases |cs|
  {
    if cs == [] then 0.0 else cs[0].usd + TotalFront(cs[1..])
  }

  lemma {:induction false} TotalFrontIsTotal(cs: seq<Cand>)
    ensures TotalFront(cs) == TotalUsd(cs)
    decreases |cs|
  {
    if cs != [] {
      TotalFrontIsTotal(cs[1..]);
      TotalFrontSplit(cs);
    }
  }

  lemma {:induction false} TotalFrontSplit(cs: seq<Cand>)
    requires cs != []
    ensures TotalUsd(cs) == cs[0].usd + TotalUsd(cs[1..])
    decreases |cs|
  {
    if |cs| > 1 {
      var pre := cs[..|cs| - 1];
      TotalFrontSplit(pre);
      assert pre[1..] == cs[1..][..|cs| - 2];
      assert pre[0] == cs[0];
    } else {
      assert cs[1..] == [];
    }
  }

  /** The counters of the loop: at most one placement per candidate, and
      the amount spent grows by at most the candidates' total. A placement
      that is skipped, rejected or raises counts in neither. */
  lemma {:induction false} LadderCounters(st: Run, cs: seq<Cand>, replies: seq<Reply>, pair: string, minUsd: real, budget: real, nowS: int)
    requires |replies| == |cs|
    requires AllAtLeast(cs, 0.0)
    ensures var r := LadderFrom(st, cs, replies, pair, minUsd, budget, nowS);
            st.placed <= r.placed <= st.placed + |cs| && st.spent <= r.spent <= st.spent + TotalFront(cs)
    decreases |cs|
  {
    if cs != [] {
      assert AllAtLeast(cs[1..], 0.0) by {
        forall k | 0 <= k < |cs[1..]| ensures cs[1..][k].usd >= 0.0 {
          assert cs[1..][k] == cs[k + 1];
        }
      }
      assert cs[0].usd >= 0.0;
      var c := cs[0];
      if c.usd >= minUsd && c.price != 0.0 && Floor6(c.usd / c.price) > 0.0 && replies[0].Ack? {
        var next := Run(BucketRow(st.orders, pair, c, Floor6(c.usd / c.price), replies[0].orderId, nowS),
                        st.placed + 1, st.spent + c.usd, false);
        LadderCounters(next, cs[1..], replies[1..], pair, minUsd, budget, nowS);
      } else {
        LadderCounters(st, cs[1..], replies[1..], pair, minUsd, budget, nowS);
      }
    }
  }

  /** The loop stops as soon as the amount spent reaches 0.999 of the
      budget: whatever follows such a placement is never sent. */
  lemma LadderBreaksAtBudget(st: Run, c: Cand, rest: seq<Cand>, oid: string, replies: seq<Reply>,
                             pair: string, minUsd: real, budget: real, nowS: int)
    requires |replies| == |rest|
    requires c.usd >= minUsd && c.price != 0.0 && Floor6(c.usd / c.price) > 0.0
    requires st.spent + c.usd >= budget * 0.999
    ensures LadderFrom(st, [c] + rest, [Ack(oid)] + replies, pair, minUsd, budget, nowS) ==
            LadderFrom(st, [c], [Ack(oid)], pair, minUsd, budget, nowS)
  {
  }

  /** When every placement raises, nothing is recorded or counted. */
  lemma {:induction false} LadderAllRaise(st: Run, cs: seq<Cand>, replies: seq<Reply>, pair: string, minUsd: real, budget: real, nowS: int)
    requires |replies| == |cs|
    requires forall k :: 0 <= k < |replies| ==> replies[k] == Raise
    ensures var r := LadderFrom(st, cs, replies, pair, minUsd, budget, nowS);
            r.orders == st.orders && r.placed == st.placed && r.spent == st.spent
    decreases |cs|
  {
    if cs != [] {
      assert forall k :: 0 <= k < |replies[1..]| ==> replies[1..][k] == replies[k + 1];
      LadderAllRaise(st, cs[1..], replies[1..], pair, minUsd, budget, nowS);
    }
  }

  /** A row as `place_ladder` records it. */
  predicate IsBucketRow(o: Order, pair: string, minUsd: real) {
    o.side == BUY && o.status == NEW && o.mode == "BUCKET" && o.pair == pair && o.qty > 0.0 && o.reserved >= minUsd
  }

  /** No row of `from` is lost, and every row that differs is a BUCKET BUY
      of the pair. */
  predicate BucketWrites(from: map<string, Order>, to: map<string, Order>, pair: string, minUsd: real) {
    from.Keys <= to.Keys &&
    forall id :: id in to ==> (id in from && to[id] == from[id]) || IsBucketRow(to[id], pair, minUsd)
  }

  lemma BucketWritesTrans(x: map<string, Order>, y: map<string, Order>, z: map<string, Order>, pair: string, minUsd: real)
    requires BucketWrites(x, y, pair, minUsd) && BucketWrites(y, z, pair, minUsd)
    ensures BucketWrites(x, z, pair, minUsd)
  {
  }

  /** One candidate writes at most one BUCKET BUY and keeps rows keyed. */
  lemma LadderStepRows(st: Run, c: Cand, reply: Reply, pair: string, minUsd: real, budget: real, nowS: int)
    ensures BucketWrites(st.orders, LadderStep(st, c, reply, pair, minUsd, budget, nowS).0.orders, pair, minUsd)
    ensures KeyedById(st.orders) ==> KeyedById(LadderStep(st, c, reply, pair, minUsd, budget, nowS).0.orders)
  {
  }

  /** The rows the loop writes are NEW BUCKET BUYs of the pair; no row is
      removed and the others are untouched. */
  lemma {:induction false} LadderRows(st: Run, cs: seq<Cand>, replies: seq<Reply>, pair: string, minUsd: real, budget: real, nowS: int)
    requires |replies| == |cs|
    ensures var r := LadderFrom(st, cs, replies, pair, minUsd, budget, nowS);
            st.orders.Keys <= r.orders.Keys &&
            forall id :: id in r.orders ==> (id in st.orders && r.orders[id] == st.orders[id]) ||
                                            IsBucketRow(r.orders[id], pair, minUsd)
    ensures KeyedById(st.orders) ==> KeyedById(LadderFrom(st, cs, replies, pair, minUsd, budget, nowS).orders)
    decreases |cs|
  {
    if cs != [] {
      var s := LadderStep(st, cs[0], replies[0], pair, minUsd, budget, nowS);
      LadderStepRows(st, cs[0], replies[0], pair, minUsd, budget, nowS);
      if s.1 {
        LadderRows(s.0, cs[1..], replies[1..], pair, minUsd, budget, nowS);
        BucketWritesTrans(st.orders, s.0.orders, LadderFrom(s.0, cs[1..], replies[1..], pair, minUsd, budget, nowS).orders,
                          pair, minUsd);
      }
    }
  }

  /** One candidate of `place_ladder`'s loop: the orders table after it,
      the counters, and whether the loop goes on. */
  method PlaceRung(orders0: map<string, Order>, pair: string, c: Cand, reply: Reply, minUsd: real, budget: real,
                   nowS: int, placed0: nat, spent0: real)
    returns (orders: map<string, Order>, placed: nat, spent: real, crashed: bool, go: bool)
    ensures (Run(orders, placed, spent, crashed), go) ==
            LadderStep(Run(orders0, placed0, spent0, false), c, reply, pair, minUsd, budget, nowS)
  {
    orders, placed, spent, crashed, go := orders0, placed0, spent0, false, true;
    if c.usd >= minUsd {
      if c.price == 0.0 {
        crashed, go := true, false;
      } else {
        var qty := Floor6(c.usd / c.price);
        if qty > 0.0 && reply.Ack? {
          orders := BucketRow(orders, pair, c, qty, reply.orderId, nowS);
          placed, spent := placed + 1, spent + c.usd;
          go := spent < budget * 0.999;
        }
      }
    }
  }

  /** `place_ladder`: returns (placed, spent); the orders table gets one
      BUCKET BUY row per acknowledged placement. */
  method PlaceLadder(db: Store, pair: string, prices: seq<real>, sizes: seq<real>, budget: real, minUsd: real,
                     replies: seq<Reply>, nowS: int) returns (placed: nat, spent: real, crashed: bool)
    requires db.Valid()
    requires |replies| == |LadderPlan(prices, sizes, budget, minUsd)|
    modifies db`orders
    ensures db.Valid()
    ensures var r := LadderFrom(Run(old(db.orders), 0, 0.0, false), LadderPlan(prices, sizes, budget, minUsd),
                                replies, pair, minUsd, budget, nowS);
            db.orders == r.orders && placed == r.placed && spent == r.spent && crashed == r.crashed
  {
    var cs := LadderPlan(prices, sizes, budget, minUsd);
    ghost var st0 := Run(db.orders, 0, 0.0, false);
    placed, spent, crashed := 0, 0.0, false;
    var i := 0;
    while i < |cs|
      invariant 0 <= i <= |cs|
      invariant db.Valid() && !crashed
      invariant LadderFrom(Run(db.orders, placed, spent, false), cs[i..], replies[i..], pair, minUsd, budget, nowS) ==
                LadderFrom(st0, cs, replies, pair, minUsd, budget, nowS)
      decreases |cs| - i
    {
      ghost var cur := Run(db.orders, placed, spent, false);
      assert cs[i..][0] == cs[i] && replies[i..][0] == replies[i];
      assert cs[i..][1..] == cs[i + 1..] && replies[i..][1..] == replies[i + 1..];
      var orders, go;
      orders, placed, spent, crashed, go := PlaceRung(db.orders, pair, cs[i], replies[i], minUsd, budget, nowS, placed, spent);
      LadderStepRows(cur, cs[i], replies[i], pair, minUsd, budget, nowS);
      db.orders := orders;
      if !go {
        return;
      }
      i := i + 1;
    }
    assert cs[i..] == [];
  }

  /** What one run spends: within the budget handed to `place_ladder`, at
      most one order per candidate and per grid level. */
  lemma LadderWithinBudget(prices: seq<real>, sizes: seq<real>, budget: real, minUsd: real,
                           replies: seq<Reply>, orders: map<string, Order>, pair: string, nowS: int)
    requires minUsd > 0.0
    requires |replies| == |LadderPlan(prices, sizes, budget, minUsd)|
    ensures var cs := LadderPlan(prices, sizes, budget, minUsd);
            var r := LadderFrom(Run(orders, 0, 0.0, false), cs, replies, pair, minUsd, budget, nowS);
            r.spent <= Max(0.0, budget) && r.placed <= |cs| && r.placed <= |prices|
  {
    var cs := LadderPlan(prices, sizes, budget, minUsd);
    assert AllAtLeast(cs, 0.0);
    LadderCounters(Run(orders, 0, 0.0, false), cs, replies, pair, minUsd, budget, nowS);
    TotalFrontIsTotal(cs);
  }

  // ===================================================================
  // The range

  /** The top/floor adjustment of `main`: top = 0.99 * last; when that is
      not above N, 0.997 * last; when still not above N, N moves to
      0.995 * top. For a positive N the range is non-empty exactly when the
      last price is positive. */
  function AdjustRange(last: real, n: real): (r: (real, real))
    ensures r.1 == (if last * 0.99 > n then last * 0.99 else last * 0.997)
    ensures r.0 == (if r.1 <= n then r.1 * 0.995 else n)
    ensures last > 0.0 ==> r.0 < r.1
    ensures n > 0.0 ==> (r.0 < r.1 <==> last > 0.0)
  {
    var top := last * 0.99;
    if top <= n then
      var top2 := last * 0.997;
      if top2 <= n then (top2 * 0.995, top2) else (n, top2)
    else (n, top)
  }

  /** `get_free_usdc`: the free quote balance (last row wins), never negative. */
  function FreeQuote(bals: seq<Balance>, quote: string): (r: real)
    ensures r >= 0.0
    ensures r == Max(0.0, LastFree(bals, quote))
  {
    Max(0.0, LastFree(bals, quote))
  }

  /** M percent of the free balance: the budget of one run. */
  function PercentOf(free: real, mPercent: real): (r: real)
    ensures free >= 0.0 && mPercent >= 0.0 ==> 0.0 <= r
    ensures free >= 0.0 && 0.0 <= mPercent <= 100.0 ==> r <= free
  {
    if free >= 0.0 && 0.0 <= mPercent <= 100.0 then
      MulMono(free, mPercent / 100.0, 1.0);
      MulMono(free, 0.0, mPercent / 100.0);
      free * (mPercent / 100.0)
    else free * (mPercent / 100.0)
  }

  /** One run of buckets.py after its argument check (M > 0, K > 0, N > 0):
      cancel the BUY side, then build and place the ladder with M percent
      of the free quote balance. */
  method BucketsRun(db: Store, pair: string, quote: string, mPercent: real, n: real, k: int, skew: real,
                    sBottom: real, sTop: real, pow: (real, real) -> real, shift: nat -> real,
                    ex: seq<Listed>, bals: seq<Balance>, last: real, minUsd: real, replies: seq<Reply>, nowS: int)
    returns (canceled: nat, placed: nat, spent: real, crashed: bool)
    requires db.Valid()
    requires mPercent > 0.0 && k > 0 && n > 0.0
    requires |replies| == |LadderPlan(BuildGrid(AdjustRange(last, n).0, AdjustRange(last, n).1, k, skew, pow, shift),
                                      BuildSizes(k, sBottom, sTop, skew, pow), PercentOf(FreeQuote(bals, quote), mPercent), minUsd)|
    modifies db`orders
    ensures db.Valid()
    ensures canceled == |BuyListed(ex)|
    ensures var r := LadderFrom(Run(CancelOpenSide(old(db.orders), pair, BUY, nowS), 0, 0.0, false),
                                LadderPlan(BuildGrid(AdjustRange(last, n).0, AdjustRange(last, n).1, k, skew, pow, shift),
                                           BuildSizes(k, sBottom, sTop, skew, pow), PercentOf(FreeQuote(bals, quote), mPercent), minUsd),
                                replies, pair, minUsd, PercentOf(FreeQuote(bals, quote), mPercent), nowS);
            db.orders == r.orders && placed == r.placed && spent == r.spent && crashed == r.crashed
  {
    canceled := CancelAllBuys(db, pair, ex, nowS);
    var budget := PercentOf(FreeQuote(bals, quote), mPercent);
    var prices := BuildGrid(AdjustRange(last, n).0, AdjustRange(last, n).1, k, skew, pow, shift);
    var sizes := BuildSizes(k, sBottom, sTop, skew, pow);
    placed, spent, crashed := PlaceLadder(db, pair, prices, sizes, budget, minUsd, replies, nowS);
  }
}
