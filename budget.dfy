/** Budget fitting shared by the BUY planner (buy.py) and the bucket ladder
    (buckets.py): candidates below the minimum order size are dropped, and
    when the remaining candidates need more than the budget their sizes are
    scaled by budget/need and the ones that fall below the minimum are
    dropped again. */
module Budget {

  /** A planned order: a price and a size in quote currency (USD). */
  datatype Cand = Cand(price: real, usd: real)

  function TotalUsd(cs: seq<Cand>): real {
    if cs == [] then 0.0 else TotalUsd(cs[..|cs| - 1]) + cs[|cs| - 1].usd
  }

  lemma TotalUsdAppend(cs: seq<Cand>, c: Cand)
    ensures TotalUsd(cs + [c]) == TotalUsd(cs) + c.usd
  {
    assert (cs + [c])[..|cs|] == cs;
  }

  predicate AllAtLeast(cs: seq<Cand>, min: real) {
    forall k :: 0 <= k < |cs| ==> cs[k].usd >= min
  }

  /** `[(p, s) for (p, s) in cs if s >= min]` */
  function DropBelow(cs: seq<Cand>, min: real): (r: seq<Cand>)
    ensures AllAtLeast(r, min)
    ensures |r| <= |cs|
    ensures forall c :: c in r <==> c in cs && c.usd >= min
  {
    if cs == [] then []
    else
      var pre := DropBelow(cs[..|cs| - 1], min);
      var c := cs[|cs| - 1];
      assert forall d :: d in cs <==> d in cs[..|cs| - 1] || d == c;
      if c.usd >= min then pre + [c] else pre
  }

  /** Dropping candidates of non-negative size never raises the total. */
  lemma {:induction false} DropBelowTotal(cs: seq<Cand>, min: real)
    requires AllAtLeast(cs, 0.0)
    ensures TotalUsd(DropBelow(cs, min)) <= TotalUsd(cs)
    ensures AllAtLeast(cs, min) ==> DropBelow(cs, min) == cs
  {
    if cs != [] {
      var pre := cs[..|cs| - 1];
      var c := cs[|cs| - 1];
      assert AllAtLeast(pre, 0.0);
      DropBelowTotal(pre, min);
      if c.usd >= min {
        TotalUsdAppend(DropBelow(pre, min), c);
      }
      if AllAtLeast(cs, min) {
        assert AllAtLeast(pre, min);
        assert cs == pre + [c];
      }
    }
  }

  /** `[(p, s * k) for (p, s) in cs]` */
  function Scaled(cs: seq<Cand>, k: real): (r: seq<Cand>)
    ensures |r| == |cs|
    ensures forall i :: 0 <= i < |cs| ==> r[i].price == cs[i].price && r[i].usd == cs[i].usd * k
  {
    seq(|cs|, i requires 0 <= i < |cs| => Cand(cs[i].price, cs[i].usd * k))
  }

  lemma {:induction false} ScaledTotal(cs: seq<Cand>, k: real)
    ensures TotalUsd(Scaled(cs, k)) == TotalUsd(cs) * k
  {
    if cs != [] {
      var pre := cs[..|cs| - 1];
      ScaledTotal(pre, k);
      var a, b := Scaled(cs, k)[..|cs| - 1], Scaled(pre, k);
      forall i | 0 <= i < |pre| ensures a[i] == b[i] {
        assert pre[i] == cs[i];
        assert a[i].price == b[i].price && a[i].usd == b[i].usd;
      }
      assert a == b;
    }
  }

  /** The fit shared by both planners; `cs` is already free of candidates
      below the minimum. */
  function FitToBudget(cs: seq<Cand>, budget: real, min: real): (r: seq<Cand>)
    ensures |r| <= |cs|
    ensures TotalUsd(cs) <= budget || TotalUsd(cs) <= 0.0 ==> r == cs
    ensures TotalUsd(cs) > budget && TotalUsd(cs) > 0.0 ==>
              r == DropBelow(Scaled(cs, budget / TotalUsd(cs)), min)
  {
    var need := TotalUsd(cs);
    if need > budget && need > 0.0 then DropBelow(Scaled(cs, budget / need), min) else cs
  }

  /** The promise of both planners: with a positive minimum and a positive
      budget, every fitted candidate is at least the minimum and together
      they stay within the budget. */
  lemma FitWithinBudget(cs: seq<Cand>, budget: real, min: real)
    requires min > 0.0 && budget > 0.0
    requires AllAtLeast(cs, min)
    ensures AllAtLeast(FitToBudget(cs, budget, min), min)
    ensures TotalUsd(FitToBudget(cs, budget, min)) <= budget
  {
    var need := TotalUsd(cs);
    if need > budget && need > 0.0 {
      var k := budget / need;
      var sc := Scaled(cs, k);
      ScaledTotal(cs, k);
      assert TotalUsd(sc) == budget;
      assert AllAtLeast(sc, 0.0) by {
        forall i | 0 <= i < |sc| ensures sc[i].usd >= 0.0 {
          assert cs[i].usd >= min;
        }
      }
      DropBelowTotal(sc, min);
    }
  }

  /** Scaling keeps prices and the order of the candidates. */
  lemma FitKeepsPrices(cs: seq<Cand>, budget: real, min: real, c: Cand)
    requires c in FitToBudget(cs, budget, min)
    ensures exists d :: d in cs && d.price == c.price
  {
    var need := TotalUsd(cs);
    if need > budget && need > 0.0 {
      var sc := Scaled(cs, budget / need);
      assert c in sc;
      var i :| 0 <= i < |sc| && sc[i] == c;
      assert cs[i] in cs;
    }
  }
}
