# Brute-force stock purchase search, in Dafny

This project models `bruteforce.py`. That file searches for the stock purchase that gives the largest
predicted gain without going over a spending limit. It has two classes:

- `CommonFunctions` looks stocks up (a name by position, a price and a predicted gain by name) and
  scores a purchase list. A purchase list holds one quantity per stock, in the order of the list of
  stock names.
- `BruteForceCalculation.brute_force_calculation` is a recursive backtracking search over one shared
  purchase list. Each frame loops over the quantities `0 .. limit / price` of its stock. It writes a
  quantity into the list only when it passes the strict test at line 191 (remaining limit above the
  price), then recurses into the next stock or, at the last stock, scores the whole list and keeps a
  best-so-far. A frame whose stock costs at least the limit writes nothing and never recurses. Before it
  returns, a frame sets its own position back to 0.

The model has four modules, one file each:

- `CommonFunctions` (`common_functions.dfy`) holds the lookups and the scoring. The stocks dictionary is
  a `map<string, Stock>` whose price and predicted gain are already integers. The lookups return a
  `Result` that carries Python's `KeyError` or `IndexError`. The totals are recursive functions, and the
  source's accumulating loops are methods proved equal to them.
- `BruteForce` (`brute_force.dfy`) holds the search. `Search`, `Sweep` and `Step` describe a frame, its
  loop and one iteration as functions of the list on entry. `BruteForceCalculation` is the recursive
  method over an `array<int>`, proved to leave the array and return the best-so-far that `Search` gives.
- `OptimalPurchase` (`optimal_purchase.dfy`) holds the purchase the search is meant to find, proved
  optimal.
- `Findings` (`findings.dfy`) compares the search as written with that optimum.

Where the model departs from the code:

- Line 185 calls the `CommonFunctions` instance itself, which raises `TypeError` in Python. The model
  reads the price there as `get_stock_price` does, which is evidently what was meant.
- In the source, `best_gain` and `best_list` are locals of each frame. They are printed and then
  discarded, and the method returns nothing. The model's method returns its own frame's pair, and the
  recursive calls ignore it, as the source does.
- Python's `int(remaining_limit/stock_price + 1)` is float division truncated toward zero. The model uses
  integer division `limit / price + 1`. For a non-negative limit the two agree. For a negative limit both
  give an empty range.

## Model

| member | source | states |
|---|---|---|
| `CommonFunctions.StockNames` | bruteforce.py:25-33 | the names list holds every key of the dictionary exactly once |
| `CommonFunctions.StockName` | bruteforce.py:61-72 | fails with `IndexError` exactly when the index is outside `-len .. len-1`; otherwise gives the name at that position, counting a negative index from the end |
| `CommonFunctions.Price` | bruteforce.py:35-46 | fails with `KeyError` exactly when the name is not a key; otherwise gives that stock's price |
| `CommonFunctions.PredictedGain` | bruteforce.py:48-59 | fails with `KeyError` exactly when the name is not a key; otherwise gives that stock's predicted gain |
| `CommonFunctions.StockGain` | bruteforce.py:74-88 | fails exactly when the name is not a key; otherwise gives quantity × price × predicted gain |
| `CommonFunctions.StockGainSign` | bruteforce.py:86-88 | quantity 0 gains 0; with non-negative quantity, price and gain the gain is non-negative and grows with the quantity |
| `CommonFunctions.RemainingLimit` | bruteforce.py:108-124 | the remaining limit is non-negative exactly when the total cost fits within the limit, and it is at most the limit exactly when the cost is non-negative |
| `CommonFunctions.TotalsSnoc` | bruteforce.py:102-106 | appending one purchase adds its cost and its gain to the totals |
| `CommonFunctions.TotalCostNonNegative` | bruteforce.py:139-142 | with non-negative quantities and prices the total cost is non-negative |
| `CommonFunctions.TotalGainNonNegative` | bruteforce.py:102-106 | with non-negative quantities, prices and gains the total gain is non-negative |
| `CommonFunctions.NothingBought` | bruteforce.py:139-142 | an all-zero purchase list costs 0 and gains 0 |
| `CommonFunctions.TotalsUpdate` | bruteforce.py:193-196 | changing the quantity at one position changes cost and gain only by that stock's price and gain times the new quantity |
| `CommonFunctions.CalculateTotalCost` | bruteforce.py:126-142 | the loop's accumulated total is the sum over the list of quantity × price |
| `CommonFunctions.CalculateTotalGain` | bruteforce.py:90-106 | the loop's accumulated gain is the sum over the list of each purchase's stock gain |
| `CommonFunctions.CalculateRemainingLimit` | bruteforce.py:108-124 | returns the initial limit minus the total cost of the purchases |
| `BruteForce.Search` | bruteforce.py:153-225 | a frame leaves its own position at 0, the earlier positions unchanged, each later position unchanged or 0; its best is (0, []) or a full list agreeing with the entry list before `index` whose total gain is the positive best gain; every frame but the last reports (0, []) |
| `BruteForce.Sweep` | bruteforce.py:188-217 | the loop keeps the same frame conditions, and its best gain never decreases |
| `BruteForce.Step` | bruteforce.py:190-215 | one iteration keeps the frame conditions; the best gain is replaced only by a strictly larger gain at the last position |
| `BruteForce.BruteForceCalculation` | bruteforce.py:153-225 | the in-place method leaves the array and returns the best gain and list that `Search` gives for the array on entry; its own position ends at 0 and earlier positions are unchanged |
| `BruteForce.TriedIsARange` | bruteforce.py:188-196 | the quantities a frame writes form a range starting at 0: once the strict test fails it keeps failing |
| `BruteForce.LeafSweep` | bruteforce.py:188-215 | from any quantity on, the last frame's loop keeps the best gain at least the gain of every written quantity, and keeps the first list that reaches it |
| `BruteForce.LeafFrame` | bruteforce.py:188-215 | the last frame's best gain is at least the gain of every quantity it writes; a non-empty best list is the list with one written quantity, the first to reach that gain (ties keep the earlier list) |
| `BruteForce.RecordedWithinLimit` | bruteforce.py:181-196 | a reported best list costs no more than the limit when the entry list, with its own position at 0, does |
| `BruteForce.SearchRestoresCleanList` | bruteforce.py:223-225 | a frame started from a list that is 0 from its position on hands back the same list |
| `BruteForce.SweepIdle` | bruteforce.py:188-191 | while the remaining limit is not above the price, the loop leaves the list, the remaining limit and the best-so-far as they are |
| `BruteForce.NothingWrittenAtLimit` | bruteforce.py:188-225 | a frame whose stock's price is at least the limit writes no quantity and searches no later position: it hands back the entry list with only its own position reset to 0, and reports gain 0 and an empty list |
| `OptimalPurchase.Best` | bruteforce.py:161-163 | the intended result is a purchase list with no negative quantity whose total cost is within the limit |
| `OptimalPurchase.BestFrom` | bruteforce.py:187-188 | choosing the last stock's quantity from `q` to `limit / price` keeps the purchase feasible |
| `OptimalPurchase.BestIsOptimal` | bruteforce.py:161-163 | no feasible purchase list gains more than `Best` |
| `Findings.SearchNeverBeatsOptimum` | bruteforce.py:153-225 | a frame started from a non-negative list within the limit never reports more than the optimum |
| `Findings.ExactSpendIsNeverTried` | bruteforce.py:188-191 | one stock priced exactly at the limit: the search reports 0, while buying one unit fits within the limit and the optimum gains at least limit × gain |
| `Findings.OuterFrameReportsNothing` | bruteforce.py:176-215 | two stocks: the outer frame reports 0, while one unit of the first stock fits within the limit and the optimum gains at least price × gain |

## Left out

- `CommonFunctions.csv_to_dict` (bruteforce.py:9-22) reads a CSV file. It is file I/O. The dictionary is a parameter of the model.
- The string-to-integer conversions `int(...)` of the CSV fields are not modelled. The dictionary's values are integers already.
- `main` and the `DATASET_FILE` constant are not modelled: they are plumbing.
- The `print` calls at lines 220-221 are not modelled. They are output only, and `best_gain/100` is a float display conversion.
- `StockNames` gives the keys in some order. The model does not capture Python's insertion order of dictionary keys, because a Dafny map has no order.
- The `TypeError` raised at line 185 is not modelled. The price is read as `get_stock_price` reads it.
- The `KeyError` and `IndexError` that the scoring functions and the search raise on a name that is not a key, or on a position or purchase list that does not line up with the names list, are preconditions there (`Priced`, `Searchable`). For the search these are:
  - an empty dictionary, or a position past the last stock (line 184);
  - a purchase list shorter than the names list (line 193 or 225, once the recursion reaches a position past its end);
  - a purchase list longer than the names list (line 141, reached from line 196). This raises only once a quantity is written: a frame whose stock costs at least the limit writes nothing, so on a longer list it returns normally, which the model does not cover.

  Only the lookups model these errors as results.
- The search's position is a `nat`, so a negative position is not modelled. The source searches one: `get_stock_name(-1, …)` gives the last name, line 193 writes `purchase_list[-1]`, and line 200 recurses into position 0. No caller passes one: `main` passes 0 and the recursion passes `index + 1`.
- A price of 0 or below is a precondition of the search. With 0, line 188 divides by zero. With a negative price, Python's truncating float division gives a different loop range, which the model does not reproduce.
- Float rounding in `remaining_limit/stock_price` for very large values is not modelled.
- `optimized.py` is not modelled: `optimized_calculation` has an empty body, so the file does not parse.

## Findings

| source | as written | input that shows it | evidently intended | confidence | as-written member | corrected member |
|---|---|---|---|---|---|---|
| bruteforce.py:188-196 | the test `remaining_limit > stock_price` is strict. For quantity 0 it is made against the full limit, so a stock priced at or above the limit writes nothing, not even 0, and a purchase that spends the limit exactly is never tried | one stock priced 100 with predicted gain 5, limit 100: the search reports gain 0, although one unit costs 100 and gains 500 | every purchase list whose total cost is within the limit is considered | medium, not executed | `Findings.ExactSpendIsNeverTried` (about `BruteForce.Search`) | `OptimalPurchase.Best`, proved by `OptimalPurchase.BestIsOptimal` |
| bruteforce.py:176-215 | `best_gain` and `best_list` are locals of each frame and are never passed back, so only frames at the last stock ever record anything, and the outer frame reports nothing | two stocks priced 100 with predicted gain 5, limit 500: the outer frame reports gain 0, although one unit of the first stock gains 500 | the outer call yields the best purchase over all stocks | high, not executed | `Findings.OuterFrameReportsNothing` (about `BruteForce.Search`) | `OptimalPurchase.Best`, proved by `OptimalPurchase.BestIsOptimal` |
