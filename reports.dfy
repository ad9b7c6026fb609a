/** The arithmetic of the report (reports/core.py): the 24-hour channel from
    the minute candles, the windowed and total PnL blocks, and the synthetic
    position rebuilt from the order table's per-side sums. */
module Reports {
  import opened Wrappers
  import opened Numbers
  import opened Accounting

  // ===================================================================
  // Channel

  /** One row of the candle table as the channel reads it: min, max and mid,
      each possibly NULL. */
  datatype Candle = Candle(min: Option<real>, max: Option<real>, mid: Option<real>)

  datatype Column = MinCol | MaxCol | MidCol

  function Get(c: Candle, col: Column): Option<real> {
    match col
    case MinCol => c.min
    case MaxCol => c.max
    case MidCol => c.mid
  }

  /** `[float(r[col]) for r in candles if r[col] is not None]` */
  function Present(cs: seq<Candle>, col: Column): (r: seq<real>)
    ensures |r| <= |cs|
    ensures forall x :: x in r <==> exists i :: 0 <= i < |cs| && Get(cs[i], col) == Some(x)
  {
    if cs == [] then []
    else
      var pre := Present(cs[..|cs| - 1], col);
      assert forall i :: 0 <= i < |cs| - 1 ==> cs[..|cs| - 1][i] == cs[i];
      match Get(cs[|cs| - 1], col)
      case Some(x) => pre + [x]
      case None => pre
  }

  function SeqMin(xs: seq<real>): (r: real)
    requires xs != []
    ensures r in xs && forall x :: x in xs ==> r <= x
  {
    if |xs| == 1 then xs[0]
    else
      var m := SeqMin(xs[1..]);
      assert forall x :: x in xs ==> x == xs[0] || x in xs[1..];
      if xs[0] <= m then xs[0] else m
  }

  function SeqMax(xs: seq<real>): (r: real)
    requires xs != []
    ensures r in xs && forall x :: x in xs ==> x <= r
  {
    if |xs| == 1 then xs[0]
    else
      var m := SeqMax(xs[1..]);
      assert forall x :: x in xs ==> x == xs[0] || x in xs[1..];
      if xs[0] >= m then xs[0] else m
  }

  function Sum(xs: seq<real>): real {
    if xs == [] then 0.0 else Sum(xs[..|xs| - 1]) + xs[|xs| - 1]
  }

  /** `statistics.mean`, on exact values. */
  function Mean(xs: seq<real>): real
    requires xs != []
  {
    Sum(xs) / (|xs| as real)
  }

  lemma {:induction false} SumBetween(xs: seq<real>, lo: real, hi: real)
    requires forall x :: x in xs ==> lo <= x <= hi
    ensures (|xs| as real) * lo <= Sum(xs) <= (|xs| as real) * hi
  {
    if xs != [] {
      var pre := xs[..|xs| - 1];
      assert forall x :: x in pre ==> x in xs;
      assert xs[|xs| - 1] in xs;
      SumBetween(pre, lo, hi);
      assert (|xs| as real) * lo == (|pre| as real) * lo + lo;
      assert (|xs| as real) * hi == (|pre| as real) * hi + hi;
    }
  }

  lemma DivBetween(s: real, n: real, lo: real, hi: real)
    requires n > 0.0 && n * lo <= s <= n * hi
    ensures lo <= s / n <= hi
  {
    assert (s / n) * n == s;
  }

  /** The mean of values in [lo, hi] lies in [lo, hi]. */
  lemma MeanBetween(xs: seq<real>, lo: real, hi: real)
    requires xs != []
    requires forall x :: x in xs ==> lo <= x <= hi
    ensures lo <= Mean(xs) <= hi
  {
    SumBetween(xs, lo, hi);
    DivBetween(Sum(xs), |xs| as real, lo, hi);
  }

  datatype Channel = Channel(lower: real, upper: real, mid: real, spread: real)

  /** The band mid +- spread / 4, each bound clipped at 0. */
  function Band(mid: real, spread: real): (r: (real, real))
    requires spread >= 0.0
    ensures 0.0 <= r.0 <= r.1
    ensures mid >= 0.0 ==> r.0 <= mid <= r.1
    ensures mid >= spread / 4.0 ==> r.1 - r.0 == spread / 2.0
  {
    (Max(0.0, mid - spread / 4.0), Max(0.0, mid + spread / 4.0))
  }

  /** The channel of the present columns: spread is the non-negative range
      from the lowest min to the highest max, mid the mean of the mids or the
      centre of the range when none is set, and the band lies around mid. */
  function ChannelOf(mins: seq<real>, maxs: seq<real>, mids: seq<real>): (r: Channel)
    requires mins != [] && maxs != []
    ensures r.spread == Max(0.0, SeqMax(maxs) - SeqMin(mins)) && 0.0 <= r.spread
    ensures r.mid == (if mids != [] then Mean(mids) else (SeqMin(mins) + SeqMax(maxs)) / 2.0)
    ensures (r.lower, r.upper) == Band(r.mid, r.spread) && 0.0 <= r.lower <= r.upper
  {
    var mn, mx := SeqMin(mins), SeqMax(maxs);
    var mid := if mids != [] then Mean(mids) else (mn + mx) / 2.0;
    var spread := Max(0.0, mx - mn);
    var band := Band(mid, spread);
    Channel(band.0, band.1, mid, spread)
  }

  /** `compute_channel_24h`: no channel without candles, or without any
      min or any max; otherwise the channel of the present columns. */
  function Channel24h(cs: seq<Candle>): (r: Option<Channel>)
    ensures r.None? <==> cs == [] || Present(cs, MinCol) == [] || Present(cs, MaxCol) == []
    ensures r.Some? ==> r.value == ChannelOf(Present(cs, MinCol), Present(cs, MaxCol), Present(cs, MidCol))
  {
    if cs == [] then None
    else
      var mins, maxs := Present(cs, MinCol), Present(cs, MaxCol);
      if mins == [] || maxs == [] then None
      else Some(ChannelOf(mins, maxs, Present(cs, MidCol)))
  }

  /** A candle with all three columns set and its mid inside [min, max]. */
  predicate WellFormed(c: Candle) {
    c.min.Some? && c.max.Some? && c.mid.Some? && c.min.value <= c.mid.value <= c.max.value
  }

  /** Over well-formed candles every mid lies between the lowest min and
      the highest max. */
  lemma MidsInRange(cs: seq<Candle>)
    requires forall i :: 0 <= i < |cs| ==> WellFormed(cs[i])
    requires Present(cs, MinCol) != [] && Present(cs, MaxCol) != []
    ensures forall x :: x in Present(cs, MidCol) ==>
              SeqMin(Present(cs, MinCol)) <= x <= SeqMax(Present(cs, MaxCol))
  {
    var mins, maxs := Present(cs, MinCol), Present(cs, MaxCol);
    forall x | x in Present(cs, MidCol) ensures SeqMin(mins) <= x <= SeqMax(maxs) {
      var i :| 0 <= i < |cs| && Get(cs[i], MidCol) == Some(x);
      assert Get(cs[i], MinCol) == Some(cs[i].min.value);
      assert cs[i].min.value in mins;
      assert Get(cs[i], MaxCol) == Some(cs[i].max.value);
      assert cs[i].max.value in maxs;
    }
  }

  /** Over well-formed candles with non-negative prices there is a channel,
      and its mid lies inside the 24-hour range and inside the band. */
  lemma ChannelBracketsMid(cs: seq<Candle>)
    requires cs != []
    requires forall i :: 0 <= i < |cs| ==> WellFormed(cs[i]) && cs[i].min.value >= 0.0
    ensures var r := Channel24h(cs);
            r.Some? &&
            SeqMin(Present(cs, MinCol)) <= r.value.mid <= SeqMax(Present(cs, MaxCol)) &&
            r.value.lower <= r.value.mid <= r.value.upper
  {
    var mins, maxs, mids := Present(cs, MinCol), Present(cs, MaxCol), Present(cs, MidCol);
    assert Get(cs[0], MinCol) == Some(cs[0].min.value);
    assert cs[0].min.value in mins;
    assert Get(cs[0], MaxCol) == Some(cs[0].max.value);
    assert cs[0].max.value in maxs;
    assert Get(cs[0], MidCol) == Some(cs[0].mid.value);
    assert cs[0].mid.value in mids;
    MidsInRange(cs);
    var mn, mx := SeqMin(mins), SeqMax(maxs);
    MeanBetween(mids, mn, mx);
    var i :| 0 <= i < |cs| && Get(cs[i], MinCol) == Some(mn);
    assert mn >= 0.0;
  }

  // ===================================================================
  // PnL

  /** `_pnl_win(p0)`: no figure without the reference price or the last
      price; otherwise the change in value of the position since p0 and
      that change relative to the current value (floored at 1e-9), the
      same formula as `compute_pnl`. */
  function WindowPnl(lastPx: Option<real>, qty: real, p0: Option<real>): (r: Option<Pnl>)
    ensures r.None? <==> p0.None? || lastPx.None?
    ensures r.Some? ==>
              var base := Max(PctFloor, lastPx.value * qty);
              && r.value.absUsd == (lastPx.value - p0.value) * qty
              && base >= PctFloor
              && r.value.pct * base == r.value.absUsd * 100.0
              && (r.value.pct >= 0.0 <==> r.value.absUsd >= 0.0)
  {
    if lastPx.None? then None else ComputePnl(lastPx.value, qty, p0)
  }

  /** A position priced above its reference shows a gain in both figures;
      when its value exceeds the floor the percentage is the relative price
      change. */
  lemma WindowPnlIsPriceChange(lastPx: real, qty: real, p0: real)
    requires qty > 0.0 && lastPx > 0.0 && lastPx * qty >= PctFloor
    ensures var r := WindowPnl(Some(lastPx), qty, Some(p0));
            r.Some? && r.value.pct == (lastPx - p0) / lastPx * 100.0 &&
            (lastPx > p0 ==> r.value.absUsd > 0.0 && r.value.pct > 0.0)
  {
    var r := WindowPnl(Some(lastPx), qty, Some(p0));
    var d := lastPx - p0;
    assert Max(PctFloor, lastPx * qty) == lastPx * qty;
    assert (d * qty) / (lastPx * qty) == d / lastPx by {
      assert (d / lastPx) * (lastPx * qty) == d * qty;
    }
    if lastPx > p0 {
      assert d * qty > 0.0;
    }
  }

  datatype PnlBlocks = PnlBlocks(
    hour: Option<Pnl>, day: Option<Pnl>, totalAbs: real, totalPct: real)

  /** `calc_pnl_blocks`: the one-hour and 24-hour windows, and the total
      against the average price (0 without a last price or with a zero
      average) relative to the starting capital, floored at 1e-9. */
  function CalcPnlBlocks(lastPx: Option<real>, qty: real, avg: real, px1h: Option<real>, px24h: Option<real>,
                         startCapital: real): (r: PnlBlocks)
    ensures r.hour == WindowPnl(lastPx, qty, px1h) && r.day == WindowPnl(lastPx, qty, px24h)
    ensures lastPx.None? || avg == 0.0 ==> r.totalAbs == 0.0
    ensures lastPx.Some? && avg != 0.0 ==> r.totalAbs == (lastPx.value - avg) * qty
    ensures r.totalPct * Max(PctFloor, startCapital) == r.totalAbs * 100.0
  {
    var totalAbs := if lastPx.Some? && avg != 0.0 then (lastPx.value - avg) * qty else 0.0;
    var cap := Max(PctFloor, startCapital);
    PnlBlocks(WindowPnl(lastPx, qty, px1h), WindowPnl(lastPx, qty, px24h), totalAbs, totalAbs / cap * 100.0)
  }

  // ===================================================================
  // Synthetic position

  /** The smallest divisor of the synthetic average. */
  const QtyFloor: real := 0.000000000001

  /** The part of `fetch_position_from_orders` after the query: the
      position is what was bought minus what was sold, with the net cost
      per unit as its average, clipped at 0; no position gives (0, 0). */
  function SyntheticPosition(boughtQty: real, boughtVal: real, soldQty: real, soldVal: real): (r: (real, real))
    ensures r.0 >= 0.0 && r.1 >= 0.0
    ensures r.0 == Max(0.0, boughtQty - soldQty)
    ensures r.0 == 0.0 ==> r.1 == 0.0
    ensures r.0 > 0.0 ==> r.1 * Max(r.0, QtyFloor) == Max(0.0, boughtVal - soldVal)
  {
    var qty := boughtQty - soldQty;
    var cost := boughtVal - soldVal;
    if qty > 0.0 then (qty, Max(0.0, cost / Max(qty, QtyFloor)))
    else (0.0, 0.0)
  }

  /** For a position of at least the divisor floor, average times quantity
      is the net cost, and the average is the net cost per unit. */
  lemma SyntheticCostRecovered(boughtQty: real, boughtVal: real, soldQty: real, soldVal: real)
    requires boughtQty - soldQty >= QtyFloor && boughtVal >= soldVal
    ensures var r := SyntheticPosition(boughtQty, boughtVal, soldQty, soldVal);
            r.1 * r.0 == boughtVal - soldVal && r.1 == (boughtVal - soldVal) / (boughtQty - soldQty)
  {
    var r := SyntheticPosition(boughtQty, boughtVal, soldQty, soldVal);
    assert Max(r.0, QtyFloor) == r.0;
  }
}
