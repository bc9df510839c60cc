/** The purchase the search in bruteforce.py is meant to find: a quantity of each stock, none negative,
    whose total cost does not exceed the limit and whose total gain is the largest such. `Best` chooses
    the quantity of the last of the first `k` stocks from 0 to limit / price and the earlier quantities
    by recursion on the limit that is left. */
module OptimalPurchase {
  import opened CommonFunctions

  /** A purchase list that buys no negative quantity and costs no more than the limit. */
  predicate Feasible(purchases: seq<int>, limit: int, names: seq<string>, stocks: map<string, Stock>)
  {
    Priced(purchases, names, stocks) &&
    (forall j :: 0 <= j < |purchases| ==> purchases[j] >= 0) &&
    TotalCost(purchases, names, stocks) <= limit
  }

  /** Multiplying by a non-negative factor keeps the order. */
  lemma MulMonotone(a: int, b: int, c: int)
    requires a <= b && c >= 0
    ensures a * c <= b * c
  {
    var diff := b - a;
    assert b * c == a * c + diff * c;
    assert diff * c >= 0;
  }

  /** q units at that price fit in the limit exactly when q is at most limit / price. */
  lemma UnitsWithin(q: int, price: int, limit: int)
    requires price > 0 && q >= 0
    ensures q * price <= limit <==> q <= limit / price
  {
    var d := limit / price;
    assert d * price <= limit < d * price + price;
    if q <= d {
      MulMonotone(q, d, price);
    } else {
      MulMonotone(d + 1, q, price);
      assert (d + 1) * price == d * price + price;
    }
  }

  /** The best purchase of the first `k` stocks within `limit`. */
  function Best(limit: int, k: nat, names: seq<string>, stocks: map<string, Stock>): (v: seq<int>)
    requires limit >= 0 && k <= |names| && PositivePrices(names, stocks)
    ensures |v| == k && Feasible(v, limit, names, stocks)
    decreases k, 1
  {
    if k == 0 then [] else BestFrom(limit, k, names, stocks, 0)
  }

  /** The best purchase of the first `k` stocks within `limit` whose last quantity is at least `q`;
      a smaller quantity wins a tie. */
  function BestFrom(limit: int, k: nat, names: seq<string>, stocks: map<string, Stock>, q: nat): (v: seq<int>)
    requires limit >= 0 && 1 <= k <= |names| && PositivePrices(names, stocks)
    requires q <= limit / stocks[names[k - 1]].price
    ensures |v| == k && Feasible(v, limit, names, stocks)
    decreases k, 0, limit / stocks[names[k - 1]].price - q
  {
    var price := stocks[names[k - 1]].price;
    UnitsWithin(q, price, limit);
    var earlier := Best(limit - q * price, k - 1, names, stocks);
    var candidate := earlier + [q];
    TotalsSnoc(earlier, q, names, stocks);
    if q == limit / price then candidate
    else
      var later := BestFrom(limit, k, names, stocks, q + 1);
      if TotalGain(later, names, stocks) > TotalGain(candidate, names, stocks) then later else candidate
  }

  /** BestFrom(q0) gains at least as much as the best purchase ending in any quantity q from q0 on. */
  lemma {:induction false} BestFromCovers(limit: int, k: nat, names: seq<string>, stocks: map<string, Stock>,
                                          q0: nat, q: nat)
    requires limit >= 0 && 1 <= k <= |names| && PositivePrices(names, stocks)
    requires q0 <= q <= limit / stocks[names[k - 1]].price
    ensures var price := stocks[names[k - 1]].price;
            q * price <= limit &&
            TotalGain(Best(limit - q * price, k - 1, names, stocks) + [q], names, stocks)
              <= TotalGain(BestFrom(limit, k, names, stocks, q0), names, stocks)
    decreases q - q0
  {
    UnitsWithin(q, stocks[names[k - 1]].price, limit);
    if q0 < q {
      BestFromCovers(limit, k, names, stocks, q0 + 1, q);
    }
  }

  /** No feasible purchase of the first `k` stocks gains more than Best. */
  lemma {:induction false} BestIsOptimal(limit: int, k: nat, names: seq<string>, stocks: map<string, Stock>,
                                         v: seq<int>)
    requires limit >= 0 && k <= |names| && PositivePrices(names, stocks)
    requires |v| == k && Feasible(v, limit, names, stocks)
    ensures TotalGain(v, names, stocks) <= TotalGain(Best(limit, k, names, stocks), names, stocks)
    decreases k
  {
    if k > 0 {
      var price := stocks[names[k - 1]].price;
      var w, q := v[..k - 1], v[k - 1];
      assert v == w + [q];
      TotalsSnoc(w, q, names, stocks);
      TotalCostNonNegative(w, names, stocks);
      assert q * price <= limit;
      UnitsWithin(q, price, limit);
      BestIsOptimal(limit - q * price, k - 1, names, stocks, w);
      TotalsSnoc(Best(limit - q * price, k - 1, names, stocks), q, names, stocks);
      BestFromCovers(limit, k, names, stocks, 0, q);
    }
  }
}
