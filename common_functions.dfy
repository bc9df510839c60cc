/** Lookups and scoring helpers of the stock purchase search (class CommonFunctions in bruteforce.py).
    The stocks dictionary is a map from a stock's name to its price and predicted gain, both already
    integers (the CSV fields hold them as text). A purchase list gives one quantity per stock and lines
    up, position by position, with the list of stock names. */
module CommonFunctions {

  datatype Stock = Stock(price: int, predictedGain: int)

  /** The two Python exceptions the lookups raise. */
  datatype Error = KeyError(key: string) | IndexError(index: int)

  datatype Result<T> = Ok(value: T) | Err(error: Error)

  /** Every position of the names list that the purchase list reaches names a stock of the dictionary. */
  predicate Priced(purchases: seq<int>, names: seq<string>, stocks: map<string, Stock>)
  {
    |purchases| <= |names| && forall j :: 0 <= j < |purchases| ==> names[j] in stocks
  }

  /** Every name of the list is a key of the dictionary and has a positive price. */
  predicate PositivePrices(names: seq<string>, stocks: map<string, Stock>)
  {
    forall j :: 0 <= j < |names| ==> names[j] in stocks && stocks[names[j]].price > 0
  }

  /** `list(stock_dict.keys())`: every key exactly once. */
  ghost function StockNames(stocks: map<string, Stock>): (names: seq<string>)
    ensures |names| == |stocks|
    ensures forall n :: n in names <==> n in stocks
    decreases |stocks|
  {
    if stocks == map[] then []
    else
      var n :| n in stocks;
      var rest := stocks - {n};
      assert stocks.Keys == rest.Keys + {n};
      [n] + StockNames(rest)
  }

  /** `stock_names_list[stock_index]`; like a Python list, a negative index counts from the end. */
  function StockName(index: int, names: seq<string>): (r: Result<string>)
    ensures r.Ok? <==> -|names| <= index < |names|
    ensures r.Err? ==> r.error == IndexError(index)
    ensures r.Ok? ==> r.value in names
    ensures r.Ok? && 0 <= index ==> r.value == names[index]
    ensures r.Ok? && index < 0 ==> r.value == names[|names| + index]
  {
    if 0 <= index < |names| then Ok(names[index])
    else if -|names| <= index < 0 then Ok(names[|names| + index])
    else Err(IndexError(index))
  }

  /** `stock_dict[stock_name]['Cout']` */
  function Price(name: string, stocks: map<string, Stock>): (r: Result<int>)
    ensures r.Ok? <==> name in stocks
    ensures r.Err? ==> r.error == KeyError(name)
    ensures r.Ok? ==> r.value == stocks[name].price
  {
    if name in stocks then Ok(stocks[name].price) else Err(KeyError(name))
  }

  /** `stock_dict[stock_name]['Benefice']` */
  function PredictedGain(name: string, stocks: map<string, Stock>): (r: Result<int>)
    ensures r.Ok? <==> name in stocks
    ensures r.Err? ==> r.error == KeyError(name)
    ensures r.Ok? ==> r.value == stocks[name].predictedGain
  {
    if name in stocks then Ok(stocks[name].predictedGain) else Err(KeyError(name))
  }

  /** Gain of buying `quantity` units of one stock: quantity times price times predicted gain
      (the gain column is a rate in hundredths, so the product is in hundredths of the currency). */
  function StockGain(quantity: int, name: string, stocks: map<string, Stock>): (r: Result<int>)
    ensures r.Ok? <==> name in stocks
    ensures r.Err? ==> r.error == KeyError(name)
    ensures r.Ok? ==> r.value == quantity * stocks[name].price * stocks[name].predictedGain
  {
    match Price(name, stocks)
    case Err(e) => Err(e)
    case Ok(price) => Ok(quantity * price * PredictedGain(name, stocks).value)
  }

  /** Buying nothing gains nothing; with non-negative quantity, price and gain the gain is non-negative,
      and it grows with the quantity. */
  lemma StockGainSign(q: int, r: int, name: string, stocks: map<string, Stock>)
    requires name in stocks
    ensures StockGain(0, name, stocks).value == 0
    ensures 0 <= q && stocks[name].price >= 0 && stocks[name].predictedGain >= 0
            ==> StockGain(q, name, stocks).value >= 0
    ensures 0 <= q <= r && stocks[name].price >= 0 && stocks[name].predictedGain >= 0
            ==> StockGain(q, name, stocks).value <= StockGain(r, name, stocks).value
  {
  }

  /** Sum over the purchase list of quantity times price (the accumulation of calculate_total_cost). */
  function TotalCost(purchases: seq<int>, names: seq<string>, stocks: map<string, Stock>): (r: int)
    requires Priced(purchases, names, stocks)
  {
    if purchases == [] then 0
    else
      var k := |purchases| - 1;
      TotalCost(purchases[..k], names, stocks) + purchases[k] * stocks[names[k]].price
  }

  /** Sum over the purchase list of the gain of each purchase (the accumulation of calculate_total_gain). */
  function TotalGain(purchases: seq<int>, names: seq<string>, stocks: map<string, Stock>): (r: int)
    requires Priced(purchases, names, stocks)
  {
    if purchases == [] then 0
    else
      var k := |purchases| - 1;
      TotalGain(purchases[..k], names, stocks) + StockGain(purchases[k], names[k], stocks).value
  }

  /** `calculate_remaining_limit`: the limit left after the purchases; it is non-negative exactly when
      the purchases fit within the limit. */
  function RemainingLimit(limit: int, purchases: seq<int>, names: seq<string>, stocks: map<string, Stock>): (r: int)
    requires Priced(purchases, names, stocks)
    ensures r >= 0 <==> TotalCost(purchases, names, stocks) <= limit
    ensures r <= limit <==> TotalCost(purchases, names, stocks) >= 0
  {
    limit - TotalCost(purchases, names, stocks)
  }

  /** Appending one purchase adds its cost and its gain. */
  lemma TotalsSnoc(w: seq<int>, q: int, names: seq<string>, stocks: map<string, Stock>)
    requires Priced(w + [q], names, stocks)
    ensures TotalCost(w + [q], names, stocks) == TotalCost(w, names, stocks) + q * stocks[names[|w|]].price
    ensures TotalGain(w + [q], names, stocks) == TotalGain(w, names, stocks) + StockGain(q, names[|w|], stocks).value
  {
  }

  /** With non-negative quantities and prices nothing costs less than zero. */
  lemma {:induction false} TotalCostNonNegative(purchases: seq<int>, names: seq<string>, stocks: map<string, Stock>)
    requires Priced(purchases, names, stocks)
    requires forall j :: 0 <= j < |purchases| ==> purchases[j] >= 0 && stocks[names[j]].price >= 0
    ensures TotalCost(purchases, names, stocks) >= 0
  {
    if purchases != [] {
      var k := |purchases| - 1;
      TotalCostNonNegative(purchases[..k], names, stocks);
      assert purchases[k] * stocks[names[k]].price >= 0;
    }
  }

  /** With non-negative quantities, prices and predicted gains nothing gains less than zero. */
  lemma {:induction false} TotalGainNonNegative(purchases: seq<int>, names: seq<string>, stocks: map<string, Stock>)
    requires Priced(purchases, names, stocks)
    requires forall j :: 0 <= j < |purchases| ==>
      purchases[j] >= 0 && stocks[names[j]].price >= 0 && stocks[names[j]].predictedGain >= 0
    ensures TotalGain(purchases, names, stocks) >= 0
  {
    if purchases != [] {
      var k := |purchases| - 1;
      TotalGainNonNegative(purchases[..k], names, stocks);
      StockGainSign(purchases[k], purchases[k], names[k], stocks);
    }
  }

  /** A purchase list of zeros buys nothing: it costs nothing and gains nothing. */
  lemma {:induction false} NothingBought(purchases: seq<int>, names: seq<string>, stocks: map<string, Stock>)
    requires Priced(purchases, names, stocks)
    requires forall j :: 0 <= j < |purchases| ==> purchases[j] == 0
    ensures TotalCost(purchases, names, stocks) == 0
    ensures TotalGain(purchases, names, stocks) == 0
  {
    if purchases != [] {
      var k := |purchases| - 1;
      NothingBought(purchases[..k], names, stocks);
      StockGainSign(0, 0, names[k], stocks);
    }
  }

  /** Changing the quantity at one position changes the totals by that stock's price and gain alone:
      the totals are the cost and gain with that position at zero, plus those of the new quantity. */
  lemma {:induction false} TotalsUpdate(purchases: seq<int>, i: int, q: int, names: seq<string>, stocks: map<string, Stock>)
    requires Priced(purchases, names, stocks) && 0 <= i < |purchases|
    ensures TotalCost(purchases[i := q], names, stocks)
            == TotalCost(purchases[i := 0], names, stocks) + q * stocks[names[i]].price
    ensures TotalGain(purchases[i := q], names, stocks)
            == TotalGain(purchases[i := 0], names, stocks) + StockGain(q, names[i], stocks).value
  {
    var k := |purchases| - 1;
    StockGainSign(0, 0, names[k], stocks);
    if i == k {
      assert purchases[i := q][..k] == purchases[..k] == purchases[i := 0][..k];
    } else {
      assert purchases[i := q][..k] == purchases[..k][i := q];
      assert purchases[i := 0][..k] == purchases[..k][i := 0];
      TotalsUpdate(purchases[..k], i, q, names, stocks);
    }
  }

  /** `calculate_total_cost`: the loop over the purchase list that accumulates quantity times price. */
  method CalculateTotalCost(purchases: seq<int>, names: seq<string>, stocks: map<string, Stock>) returns (total: int)
    requires Priced(purchases, names, stocks)
    ensures total == TotalCost(purchases, names, stocks)
  {
    total := 0;
    for i := 0 to |purchases|
      invariant total == TotalCost(purchases[..i], names, stocks)
    {
      assert purchases[..i + 1][..i] == purchases[..i];
      total := total + purchases[i] * stocks[names[i]].price;
    }
    assert purchases[..|purchases|] == purchases;
  }

  /** `calculate_total_gain`: the loop over the purchase list that accumulates each purchase's gain. */
  method CalculateTotalGain(purchases: seq<int>, names: seq<string>, stocks: map<string, Stock>) returns (gain: int)
    requires Priced(purchases, names, stocks)
    ensures gain == TotalGain(purchases, names, stocks)
  {
    gain := 0;
    for i := 0 to |purchases|
      invariant gain == TotalGain(purchases[..i], names, stocks)
    {
      assert purchases[..i + 1][..i] == purchases[..i];
      var name := names[i];
      var stockGain := StockGain(purchases[i], name, stocks);
      gain := gain + stockGain.value;
    }
    assert purchases[..|purchases|] == purchases;
  }

  /** `calculate_remaining_limit`: the initial limit minus the total cost of the purchases. */
  method CalculateRemainingLimit(limit: int, purchases: seq<int>, names: seq<string>, stocks: map<string, Stock>)
    returns (remaining: int)
    requires Priced(purchases, names, stocks)
    ensures remaining == RemainingLimit(limit, purchases, names, stocks)
  {
    var totalCost := CalculateTotalCost(purchases, names, stocks);
    remaining := limit - totalCost;
  }
}
