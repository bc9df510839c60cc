/** `BruteForceCalculation.brute_force_calculation` (bruteforce.py): a recursive backtracking search over
    one shared purchase list. The frame for position `index` loops over the quantities 0, 1, ... of that
    stock. Each quantity that passes the strict test (remaining limit above the price) is written into
    the shared list, and the frame recurses into the next position (or, at the last position, scores the
    full list and keeps the best one found). The frame sets its own position back to 0 before it returns.

    `Search`, `Sweep` and `Step` describe one frame, its `for` loop and one iteration of that loop as
    functions of the list on entry; `BruteForceCalculation` is the in-place method, proved to leave the
    list and return the best-so-far that these functions give. */
module BruteForce {
  import opened CommonFunctions

  /** What a frame leaves behind: the shared purchase list, and its own best gain and best list. */
  datatype Frame = Frame(purchases: seq<int>, bestGain: int, bestList: seq<int>)

  /** The variables of a frame's loop. */
  datatype LoopState = LoopState(purchases: seq<int>, remaining: int, bestGain: int, bestList: seq<int>)

  /** What the search needs of its arguments: a valid position, a list with one quantity per stock, and
      stocks that are in the dictionary with positive prices (the loop divides by the price). */
  predicate Searchable(index: nat, names: seq<string>, stocks: map<string, Stock>, purchases: seq<int>)
  {
    index < |names| == |purchases| && PositivePrices(names, stocks)
  }

  /** A best-so-far pair is either the initial (0, []) or a copy of a full purchase list, agreeing with
      `purchases` before `index`, whose total gain is the recorded (positive) best gain. */
  predicate Recorded(bestGain: int, bestList: seq<int>, purchases: seq<int>, index: nat,
                     names: seq<string>, stocks: map<string, Stock>)
    requires |purchases| == |names| && PositivePrices(names, stocks)
  {
    (bestList == [] && bestGain == 0) ||
    (|bestList| == |purchases| && bestGain > 0 && TotalGain(bestList, names, stocks) == bestGain &&
     forall j :: 0 <= j < index && j < |purchases| ==> bestList[j] == purchases[j])
  }

  /** One frame: its loop runs from the state (list on entry, remaining = the full limit, best = (0, []))
      over the quantities 0 .. limit / price, then the frame resets its position to 0. */
  function Search(limit: int, index: nat, names: seq<string>, stocks: map<string, Stock>,
                  purchases: seq<int>): (r: Frame)
    requires Searchable(index, names, stocks, purchases)
    ensures |r.purchases| == |purchases| && r.purchases[index] == 0
    ensures forall j :: 0 <= j < index ==> r.purchases[j] == purchases[j]
    ensures forall j :: index < j < |purchases| ==> r.purchases[j] == purchases[j] || r.purchases[j] == 0
    ensures Recorded(r.bestGain, r.bestList, purchases, index, names, stocks)
    ensures index < |names| - 1 ==> r.bestGain == 0 && r.bestList == []
    decreases |names| - index, 2
  {
    var price := stocks[names[index]].price;
    var st := Sweep(limit, index, names, stocks, 0, limit / price + 1, LoopState(purchases, limit, 0, []));
    Frame(st.purchases[index := 0], st.bestGain, st.bestList)
  }

  /** The frame's loop from quantity `q` up to (not including) `count`. */
  function Sweep(limit: int, index: nat, names: seq<string>, stocks: map<string, Stock>,
                 q: nat, count: int, st: LoopState): (r: LoopState)
    requires Searchable(index, names, stocks, st.purchases)
    requires Recorded(st.bestGain, st.bestList, st.purchases, index, names, stocks)
    ensures |r.purchases| == |st.purchases|
    ensures forall j :: 0 <= j < index ==> r.purchases[j] == st.purchases[j]
    ensures forall j :: index < j < |st.purchases| ==> r.purchases[j] == st.purchases[j] || r.purchases[j] == 0
    ensures r.bestGain >= st.bestGain
    ensures Recorded(r.bestGain, r.bestList, st.purchases, index, names, stocks)
    ensures index < |names| - 1 ==> r.bestGain == st.bestGain && r.bestList == st.bestList
    decreases |names| - index, 1, count - q
  {
    if q >= count then st
    else Sweep(limit, index, names, stocks, q + 1, count, Step(limit, index, names, stocks, q, st))
  }

  /** One iteration of the loop, for quantity `q`. Nothing happens unless the remaining limit is strictly
      above the price. Otherwise `q` is written at `index`, the remaining limit is recomputed from the
      whole list, and either the next position is searched or, at the last position, the list is scored
      and replaces the best so far when its gain is strictly larger. */
  function Step(limit: int, index: nat, names: seq<string>, stocks: map<string, Stock>,
                q: nat, st: LoopState): (r: LoopState)
    requires Searchable(index, names, stocks, st.purchases)
    requires Recorded(st.bestGain, st.bestList, st.purchases, index, names, stocks)
    ensures |r.purchases| == |st.purchases|
    ensures forall j :: 0 <= j < index ==> r.purchases[j] == st.purchases[j]
    ensures forall j :: index < j < |st.purchases| ==> r.purchases[j] == st.purchases[j] || r.purchases[j] == 0
    ensures r.bestGain >= st.bestGain
    ensures Recorded(r.bestGain, r.bestList, st.purchases, index, names, stocks)
    ensures index < |names| - 1 ==> r.bestGain == st.bestGain && r.bestList == st.bestList
    decreases |names| - index, 0
  {
    var price := stocks[names[index]].price;
    if st.remaining > price then
      var written := st.purchases[index := q];
      var remaining := RemainingLimit(limit, written, names, stocks);
      if index < |names| - 1 then
        var child := Search(limit, index + 1, names, stocks, written);
        LoopState(child.purchases, remaining, st.bestGain, st.bestList)
      else
        var currentGain := TotalGain(written, names, stocks);
        if currentGain > st.bestGain then LoopState(written, remaining, currentGain, written)
        else LoopState(written, remaining, st.bestGain, st.bestList)
    else
      st
  }

  /** The frame for `index`, in place on the shared array. It returns its own best gain and best list,
      which the recursive calls discard, as the source does. */
  method BruteForceCalculation(limit: int, index: nat, names: seq<string>, stocks: map<string, Stock>,
                               purchases: array<int>) returns (bestGain: int, bestList: seq<int>)
    requires Searchable(index, names, stocks, purchases[..])
    modifies purchases
    ensures var r := Search(limit, index, names, stocks, old(purchases[..]));
            purchases[..] == r.purchases && bestGain == r.bestGain && bestList == r.bestList
    ensures purchases[index] == 0
    ensures forall j :: 0 <= j < index ==> purchases[j] == old(purchases[j])
    decreases |names| - index
  {
    bestGain := 0;
    bestList := [];
    var remaining := limit;
    var stockName := StockName(index, names).value;
    var price := Price(stockName, stocks).value;
    var count := remaining / price + 1;
    ghost var start := LoopState(purchases[..], limit, 0, []);
    var q := 0;
    while q < count
      invariant purchases[..index] == old(purchases[..index])
      invariant Recorded(bestGain, bestList, purchases[..], index, names, stocks)
      invariant Sweep(limit, index, names, stocks, q, count, LoopState(purchases[..], remaining, bestGain, bestList))
                == Sweep(limit, index, names, stocks, 0, count, start)
    {
      ghost var before := LoopState(purchases[..], remaining, bestGain, bestList);
      assert Sweep(limit, index, names, stocks, q, count, before)
             == Sweep(limit, index, names, stocks, q + 1, count, Step(limit, index, names, stocks, q, before));
      if remaining > price {
        purchases[index] := q;
        ghost var written := purchases[..];
        assert written == before.purchases[index := q];
        remaining := CalculateRemainingLimit(limit, purchases[..], names, stocks);
        if index < |names| - 1 {
          var childGain, childList := BruteForceCalculation(limit, index + 1, names, stocks, purchases);
          assert purchases[..] == Search(limit, index + 1, names, stocks, written).purchases;
        } else {
          var currentGain := CalculateTotalGain(purchases[..], names, stocks);
          if currentGain > bestGain {
            bestGain := currentGain;
            bestList := purchases[..];
          }
        }
      }
      ghost var after := LoopState(purchases[..], remaining, bestGain, bestList);
      assert after == Step(limit, index, names, stocks, q, before);
      assert after.purchases[..index] == before.purchases[..index];
      RecordedOnPrefix(bestGain, bestList, before.purchases, after.purchases, index, names, stocks);
      q := q + 1;
    }
    ghost var final := LoopState(purchases[..], remaining, bestGain, bestList);
    assert final == Sweep(limit, index, names, stocks, 0, count, start);
    purchases[index] := 0;
    assert purchases[..] == final.purchases[index := 0];
  }

  /** Recorded looks only at the positions before `index`. */
  lemma RecordedOnPrefix(bestGain: int, bestList: seq<int>, purchases: seq<int>, other: seq<int>, index: nat,
                         names: seq<string>, stocks: map<string, Stock>)
    requires |purchases| == |other| == |names| && PositivePrices(names, stocks)
    requires index <= |purchases| && purchases[..index] == other[..index]
    requires Recorded(bestGain, bestList, purchases, index, names, stocks)
    ensures Recorded(bestGain, bestList, other, index, names, stocks)
  {
  }

  /** Whether the frame at `index` writes quantity `q` into the list (given that the positions after
      `index` hold 0, as the recursion leaves them): `q` is within the loop's range 0 .. limit / price,
      the first test, made against the full limit, passes (price < limit), and for q >= 1 the test made
      against the limit left after q - 1 units passes, i.e. q units together with the rest of the list
      cost strictly less than the limit. */
  predicate Tried(limit: int, index: nat, names: seq<string>, stocks: map<string, Stock>,
                  purchases: seq<int>, q: int)
    requires Searchable(index, names, stocks, purchases)
  {
    var price := stocks[names[index]].price;
    0 <= q <= limit / price && price < limit &&
    (q == 0 || TotalCost(purchases[index := 0], names, stocks) + q * price < limit)
  }

  /** Total gain of the list with quantity `q` at `index`. */
  function GainWith(index: nat, names: seq<string>, stocks: map<string, Stock>, purchases: seq<int>, q: int): (r: int)
    requires Searchable(index, names, stocks, purchases)
  {
    TotalGain(purchases[index := q], names, stocks)
  }

  /** Among the quantities below `bound` that are tried, `bestGain` is at least each one's gain, and a
      non-empty `bestList` is the list with the first quantity that reaches `bestGain`. */
  ghost predicate FirstBest(limit: int, index: nat, names: seq<string>, stocks: map<string, Stock>,
                            purchases: seq<int>, bound: int, bestGain: int, bestList: seq<int>)
    requires Searchable(index, names, stocks, purchases)
  {
    (forall k :: 0 <= k < bound && Tried(limit, index, names, stocks, purchases, k) ==>
       GainWith(index, names, stocks, purchases, k) <= bestGain) &&
    (bestList != [] ==>
       exists k :: 0 <= k < bound && Tried(limit, index, names, stocks, purchases, k) &&
         bestList == purchases[index := k] &&
         forall j :: 0 <= j < k ==> GainWith(index, names, stocks, purchases, j) < bestGain)
  }

  /** The quantities a frame writes form a range starting at 0: once the test fails it keeps failing. */
  lemma TriedIsARange(limit: int, index: nat, names: seq<string>, stocks: map<string, Stock>,
                      purchases: seq<int>, q: int, k: int)
    requires Searchable(index, names, stocks, purchases)
    requires Tried(limit, index, names, stocks, purchases, q) && 0 <= k <= q
    ensures Tried(limit, index, names, stocks, purchases, k)
  {
  }

  /** The loop of the frame at the last position, from quantity `q` on, keeps FirstBest over all the
      quantities it has seen. */
  lemma {:induction false} LeafSweep(limit: int, index: nat, names: seq<string>, stocks: map<string, Stock>,
                                     purchases: seq<int>, q: nat, count: int, st: LoopState)
    requires Searchable(index, names, stocks, purchases) && index == |names| - 1
    requires count == limit / stocks[names[index]].price + 1
    requires |st.purchases| == |purchases| && st.purchases[..index] == purchases[..index]
    requires Recorded(st.bestGain, st.bestList, st.purchases, index, names, stocks)
    requires q < count ==>
      (st.remaining > stocks[names[index]].price <==> Tried(limit, index, names, stocks, purchases, q))
    requires FirstBest(limit, index, names, stocks, purchases, q, st.bestGain, st.bestList)
    ensures var r := Sweep(limit, index, names, stocks, q, count, st);
            FirstBest(limit, index, names, stocks, purchases, count, r.bestGain, r.bestList)
    decreases count - q
  {
    var price := stocks[names[index]].price;
    if q < count {
      var next := Step(limit, index, names, stocks, q, st);
      assert st.purchases[index := q] == purchases[index := q];
      if st.remaining > price {
        TotalsUpdate(purchases, index, q, names, stocks);
        assert next.remaining == limit - (TotalCost(purchases[index := 0], names, stocks) + q * price);
        assert (q + 1) * price == q * price + price;
        forall j | 0 <= j <= q
          ensures Tried(limit, index, names, stocks, purchases, j)
        {
          TriedIsARange(limit, index, names, stocks, purchases, q, j);
        }
      } else if q + 1 < count && Tried(limit, index, names, stocks, purchases, q + 1) {
        TriedIsARange(limit, index, names, stocks, purchases, q + 1, q);
      }
      assert next.purchases[..index] == purchases[..index];
      LeafSweep(limit, index, names, stocks, purchases, q + 1, count, next);
    }
  }

  /** The frame at the last position scores every quantity it writes and reports the largest total gain
      found, if it is positive, with the list of the first quantity that reaches it (a later list with
      an equal gain does not replace it). */
  lemma LeafFrame(limit: int, index: nat, names: seq<string>, stocks: map<string, Stock>, purchases: seq<int>)
    requires Searchable(index, names, stocks, purchases) && index == |names| - 1
    ensures var r := Search(limit, index, names, stocks, purchases);
            (forall k :: Tried(limit, index, names, stocks, purchases, k) ==>
               GainWith(index, names, stocks, purchases, k) <= r.bestGain) &&
            (r.bestList != [] ==>
               exists k :: Tried(limit, index, names, stocks, purchases, k) &&
                 r.bestList == purchases[index := k] &&
                 forall j :: 0 <= j < k ==> GainWith(index, names, stocks, purchases, j) < r.bestGain)
  {
    var count := limit / stocks[names[index]].price + 1;
    LeafSweep(limit, index, names, stocks, purchases, 0, count, LoopState(purchases, limit, 0, []));
    forall k | Tried(limit, index, names, stocks, purchases, k)
      ensures k < count
    {
    }
  }

  /** Whatever a frame reports stays within the limit, provided the list it starts from (with its own
      position at 0) does. */
  lemma RecordedWithinLimit(limit: int, index: nat, names: seq<string>, stocks: map<string, Stock>,
                            purchases: seq<int>)
    requires Searchable(index, names, stocks, purchases)
    requires TotalCost(purchases[index := 0], names, stocks) <= limit
    ensures var r := Search(limit, index, names, stocks, purchases);
            r.bestList != [] ==> TotalCost(r.bestList, names, stocks) <= limit
  {
    var r := Search(limit, index, names, stocks, purchases);
    if index == |names| - 1 && r.bestList != [] {
      LeafFrame(limit, index, names, stocks, purchases);
      var k :| Tried(limit, index, names, stocks, purchases, k) && r.bestList == purchases[index := k];
      TotalsUpdate(purchases, index, k, names, stocks);
    }
  }

  /** A frame that starts from a list holding 0 from its position on (as `main` starts from all zeros)
      hands the list back exactly as it found it. */
  lemma SearchRestoresCleanList(limit: int, index: nat, names: seq<string>, stocks: map<string, Stock>,
                                purchases: seq<int>)
    requires Searchable(index, names, stocks, purchases)
    requires forall j :: index <= j < |purchases| ==> purchases[j] == 0
    ensures Search(limit, index, names, stocks, purchases).purchases == purchases
  {
  }

  /** While the remaining limit is not above the price, every iteration of the loop leaves its state
      as it is. */
  lemma {:induction false} SweepIdle(limit: int, index: nat, names: seq<string>, stocks: map<string, Stock>,
                                     q: nat, count: int, st: LoopState)
    requires Searchable(index, names, stocks, st.purchases)
    requires Recorded(st.bestGain, st.bestList, st.purchases, index, names, stocks)
    requires st.remaining <= stocks[names[index]].price
    ensures Sweep(limit, index, names, stocks, q, count, st) == st
    decreases count - q
  {
    if q < count {
      assert Step(limit, index, names, stocks, q, st) == st;
      SweepIdle(limit, index, names, stocks, q + 1, count, st);
    }
  }

  /** A frame whose stock costs at least the limit writes no quantity, not even 0, and never searches
      the later positions: it hands back the list with only its own position reset to 0, and reports
      (0, []). */
  lemma NothingWrittenAtLimit(limit: int, index: nat, names: seq<string>, stocks: map<string, Stock>,
                              purchases: seq<int>)
    requires Searchable(index, names, stocks, purchases)
    requires stocks[names[index]].price >= limit
    ensures Search(limit, index, names, stocks, purchases) == Frame(purchases[index := 0], 0, [])
  {
    var price := stocks[names[index]].price;
    SweepIdle(limit, index, names, stocks, 0, limit / price + 1, LoopState(purchases, limit, 0, []));
  }
}
