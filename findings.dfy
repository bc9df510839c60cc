/** How the search as written in bruteforce.py compares with the best purchase it is meant to find. */
module Findings {
  import opened CommonFunctions
  import opened BruteForce
  import opened OptimalPurchase

  /** A frame never reports a gain above the best feasible purchase, when it starts from a list that buys
      no negative quantity and fits within the limit. */
  lemma SearchNeverBeatsOptimum(limit: int, index: nat, names: seq<string>, stocks: map<string, Stock>,
                                purchases: seq<int>)
    requires Searchable(index, names, stocks, purchases) && limit >= 0
    requires forall j :: 0 <= j < |purchases| ==> purchases[j] >= 0
    requires TotalCost(purchases[index := 0], names, stocks) <= limit
    ensures Search(limit, index, names, stocks, purchases).bestGain
            <= TotalGain(Best(limit, |names|, names, stocks), names, stocks)
  {
    var r := Search(limit, index, names, stocks, purchases);
    var zeros := seq(|names|, _ => 0);
    NothingBought(zeros, names, stocks);
    BestIsOptimal(limit, |names|, names, stocks, zeros);
    if r.bestList != [] {
      RecordedWithinLimit(limit, index, names, stocks, purchases);
      LeafFrame(limit, index, names, stocks, purchases);
      var k :| Tried(limit, index, names, stocks, purchases, k) && r.bestList == purchases[index := k];
      BestIsOptimal(limit, |names|, names, stocks, r.bestList);
    }
  }

  /** One stock priced exactly at the limit: the frame never writes a quantity, because the strict test
      `remaining_limit > stock_price` fails already for quantity 0, and it reports a gain of 0, although
      one unit fits within the limit and gains limit * gain (for instance 100 * 5 = 500). */
  lemma ExactSpendIsNeverTried(name: string, limit: int, gain: int)
    requires limit > 0 && gain > 0
    ensures var names, stocks := [name], map[name := Stock(limit, gain)];
            Search(limit, 0, names, stocks, [0]).bestGain == 0 &&
            Feasible([1], limit, names, stocks) && TotalGain([1], names, stocks) == limit * gain > 0 &&
            TotalGain(Best(limit, 1, names, stocks), names, stocks) >= limit * gain
  {
    var names, stocks := [name], map[name := Stock(limit, gain)];
    assert Search(limit, 0, names, stocks, [0]).bestGain == 0 by {
      NothingWrittenAtLimit(limit, 0, names, stocks, [0]);
    }
    assert Feasible([1], limit, names, stocks) && TotalGain([1], names, stocks) == limit * gain > 0 by {
      var one: seq<int> := [1];
      assert one == [] + [1];
      TotalsSnoc([], 1, names, stocks);
      assert StockGain(1, name, stocks).value == limit * gain;
      assert TotalGain(one, names, stocks) == limit * gain;
      assert limit * gain > 0;
    }
    BestIsOptimal(limit, 1, names, stocks, [1]);
  }

  /** Two stocks: every frame but the last keeps its own best (0, []), so the outer frame reports a gain
      of 0 although one unit of the first stock fits within the limit and gains price * gain (for
      instance, with prices 100, gains 5 and a limit of 500, a gain of 500). */
  lemma OuterFrameReportsNothing(first: string, second: string, price: int, gain: int, limit: int)
    requires first != second && 0 < price <= limit && gain > 0
    ensures var names := [first, second];
            var stocks := map[first := Stock(price, gain), second := Stock(price, gain)];
            Search(limit, 0, names, stocks, [0, 0]).bestGain == 0 &&
            Feasible([1, 0], limit, names, stocks) && TotalGain([1, 0], names, stocks) == price * gain > 0 &&
            TotalGain(Best(limit, 2, names, stocks), names, stocks) >= price * gain
  {
    var names := [first, second];
    var stocks := map[first := Stock(price, gain), second := Stock(price, gain)];
    assert Feasible([1, 0], limit, names, stocks) && TotalGain([1, 0], names, stocks) == price * gain > 0 by {
      var one: seq<int> := [1];
      var oneThenNone: seq<int> := [1, 0];
      assert one == [] + [1] && oneThenNone == one + [0];
      TotalsSnoc([], 1, names, stocks);
      TotalsSnoc(one, 0, names, stocks);
      assert StockGain(1, first, stocks).value == price * gain;
      assert StockGain(0, second, stocks).value == 0;
      assert TotalCost(oneThenNone, names, stocks) == price;
      assert TotalGain(oneThenNone, names, stocks) == price * gain;
      assert price * gain > 0;
    }
    BestIsOptimal(limit, 2, names, stocks, [1, 0]);
  }
}
