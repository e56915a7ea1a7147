/**
 * The dashboard state of QuantDesk (`App` in frontend/src/App.js): the
 * watchlist and the selected row, the clamped choice of the selected stock,
 * and the chart series that joins the price history to the model's 14-day
 * forecast, with the price range its axis is drawn over.
 */
module Dashboard {
  import opened Text

  // ---------------------------------------------------------------------
  // Watchlist and selection
  // ---------------------------------------------------------------------

  const DefaultWatchlist: seq<string> :=
    ["NVDA", "AAPL", "TSLA", "AMZN", "MSFT", "META", "GOOGL", "NFLX", "AMD", "COIN"]

  predicate NoDup<T(==)>(xs: seq<T>) {
    forall i, j :: 0 <= i < j < |xs| ==> xs[i] != xs[j]
  }

  /** `w.filter(s => s !== symbol)` */
  function Without(w: seq<string>, symbol: string): (r: seq<string>)
    ensures symbol !in r
    ensures forall s :: s in r <==> s in w && s != symbol
    ensures |r| <= |w|
  {
    if w == [] then []
    else (if w[0] == symbol then [] else [w[0]]) + Without(w[1..], symbol)
  }

  /** Filtering keeps the relative order of what stays, so a list without duplicates keeps none. */
  lemma {:induction false} WithoutNoDup(w: seq<string>, symbol: string)
    requires NoDup(w)
    ensures NoDup(Without(w, symbol))
  {
    if w != [] {
      var rest := Without(w[1..], symbol);
      assert NoDup(w[1..]) by {
        forall i, j | 0 <= i < j < |w[1..]| ensures w[1..][i] != w[1..][j] {
          assert w[1..][i] == w[i + 1] && w[1..][j] == w[j + 1];
        }
      }
      WithoutNoDup(w[1..], symbol);
      if w[0] != symbol {
        assert w[0] !in w[1..] by {
          forall k | 0 <= k < |w[1..]| ensures w[1..][k] != w[0] {
            assert w[1..][k] == w[k + 1];
          }
        }
        assert w[0] !in rest;
        var r := [w[0]] + rest;
        forall i, j | 0 <= i < j < |r| ensures r[i] != r[j] {
          if i == 0 {
            assert r[j] == rest[j - 1] && rest[j - 1] in rest;
          } else {
            assert r[i] == rest[i - 1] && r[j] == rest[j - 1];
          }
        }
      }
    }
  }

  /** Removing a symbol that is not listed changes nothing. */
  lemma {:induction false} WithoutAbsent(w: seq<string>, symbol: string)
    requires symbol !in w
    ensures Without(w, symbol) == w
  {
    if w != [] {
      WithoutAbsent(w[1..], symbol);
      assert w == [w[0]] + w[1..];
    }
  }

  class Watchlist {
    var symbols: seq<string>
    /** The selected row of the stock list. */
    var idx: nat

    predicate Valid()
      reads this
    {
      NoDup(symbols)
    }

    constructor ()
      ensures symbols == DefaultWatchlist && idx == 0 && Valid()
    {
      symbols := DefaultWatchlist;
      idx := 0;
    }

    /** `addToWatchlist(symbol)`: appended only when not already listed. */
    method Add(symbol: string)
      requires Valid()
      modifies this
      ensures symbols == if symbol in old(symbols) then old(symbols) else old(symbols) + [symbol]
      ensures idx == old(idx) && Valid()
    {
      if symbol !in symbols {
        symbols := symbols + [symbol];
        forall i, j | 0 <= i < j < |symbols| ensures symbols[i] != symbols[j] {
          if j == |symbols| - 1 {
            assert symbols[i] == old(symbols)[i] && old(symbols)[i] in old(symbols);
          } else {
            assert symbols[i] == old(symbols)[i] && symbols[j] == old(symbols)[j];
          }
        }
      }
    }

    /** `removeFromWatchlist(symbol)`: every occurrence goes, and the selection returns to the first row. */
    method Remove(symbol: string)
      requires Valid()
      modifies this
      ensures symbols == Without(old(symbols), symbol) && idx == 0 && Valid()
    {
      WithoutNoDup(symbols, symbol);
      symbols := Without(symbols, symbol);
      idx := 0;
    }

    /** A click on row `i` of the stock list. */
    method Select(i: nat)
      modifies this
      ensures idx == i && symbols == old(symbols)
    {
      idx := i;
    }
  }

  /** Adding a symbol twice lists it once; removing it afterwards restores the list and selects the first row. */
  method AddTwiceThenRemove(symbol: string, row: nat)
    returns (afterAdds: seq<string>, afterRemove: seq<string>, idx: nat)
    requires symbol !in DefaultWatchlist
    ensures afterAdds == DefaultWatchlist + [symbol] && NoDup(afterAdds)
    ensures afterRemove == DefaultWatchlist && idx == 0
  {
    var w := new Watchlist();
    w.Select(row);
    w.Add(symbol);
    w.Add(symbol);
    afterAdds := w.symbols;
    w.Remove(symbol);
    afterRemove, idx := w.symbols, w.idx;
    WithoutAbsent(DefaultWatchlist, symbol);
    assert Without(DefaultWatchlist + [symbol], symbol) == DefaultWatchlist by {
      WithoutAppend(DefaultWatchlist, symbol);
    }
  }

  lemma {:induction false} WithoutAppend(w: seq<string>, symbol: string)
    ensures Without(w + [symbol], symbol) == Without(w, symbol)
  {
    if w == [] {
      assert Without([symbol], symbol) == [] + Without([], symbol);
    } else {
      WithoutAppend(w[1..], symbol);
      assert (w + [symbol])[1..] == w[1..] + [symbol];
    }
  }

  /** A single symbol survives exactly when it is not the one removed. */
  lemma WithoutOne(x: string, symbol: string)
    ensures Without([x], symbol) == if x == symbol then [] else [x]
  {
    assert [x][1..] == [];
  }

  /** Removal keeps the order of what stays: it distributes over concatenation. */
  lemma {:induction false} WithoutConcat(a: seq<string>, b: seq<string>, symbol: string)
    ensures Without(a + b, symbol) == Without(a, symbol) + Without(b, symbol)
  {
    if a == [] {
      assert a + b == b;
    } else {
      WithoutConcat(a[1..], b, symbol);
      WithoutCons(a, b, symbol);
    }
  }

  /** One step of WithoutConcat: the first symbol is decided on its own. */
  lemma WithoutCons(a: seq<string>, b: seq<string>, symbol: string)
    requires a != []
    requires Without(a[1..] + b, symbol) == Without(a[1..], symbol) + Without(b, symbol)
    ensures Without(a + b, symbol) == Without(a, symbol) + Without(b, symbol)
  {
    ConsAppend(a, b);
    WithoutUnfold(a + b, symbol);
    WithoutUnfold(a, symbol);
    AppendAssoc(Without([a[0]], symbol), Without(a[1..], symbol), Without(b, symbol));
  }

  /** Proof helper: one unfolding of Without, with the first symbol on its own. */
  lemma WithoutUnfold(w: seq<string>, symbol: string)
    requires w != []
    ensures Without(w, symbol) == Without([w[0]], symbol) + Without(w[1..], symbol)
  {
    WithoutOne(w[0], symbol);
  }

  /** `stocks[Math.min(idx, stocks.length - 1)]`: the selected row, clamped to the last; nothing when empty. */
  function SelectedStock<T>(stocks: seq<T>, idx: nat): (r: Option<T>)
    ensures r.None? <==> stocks == []
    ensures idx < |stocks| ==> r == Some(stocks[idx])
    ensures 0 < |stocks| <= idx ==> r == Some(stocks[|stocks| - 1])
  {
    if stocks == [] then None
    else if idx < |stocks| - 1 then Some(stocks[idx])
    else Some(stocks[|stocks| - 1])
  }

  // ---------------------------------------------------------------------
  // Chart series
  // ---------------------------------------------------------------------

  /** A point of the chart: the actual price, the model's price, or both at the join. */
  datatype ChartPoint = ChartPoint(date: string, price: Option<real>, predicted: Option<real>)

  /** A point of the ML server's forecast. */
  datatype ForecastPoint = ForecastPoint(date: string, predicted: real)

  /** The forecast point as drawn: no actual price. */
  function ForecastChartPoint(f: ForecastPoint): ChartPoint {
    ChartPoint(f.date, None, Some(f.predicted))
  }

  /**
   * `chartData`: the history alone while the forecast is off or absent;
   * otherwise the history with its predictions cleared, followed by the
   * forecast without prices. The one point the join changes is the first
   * forecast point, which starts from the last historical price so that the
   * forecast line begins where the price line ends.
   */
  function ChartData(history: seq<ChartPoint>, showForecast: bool, forecast: Option<seq<ForecastPoint>>)
    : (r: seq<ChartPoint>)
    ensures !showForecast || forecast.None? ==> r == history
    ensures showForecast && forecast.Some? ==>
      |r| == |history| + |forecast.value| &&
      (forall k :: 0 <= k < |history| ==> r[k] == history[k].(predicted := None)) &&
      (forall k :: 0 <= k < |forecast.value| ==>
        r[|history| + k].date == forecast.value[k].date && r[|history| + k].price.None?) &&
      (forall k :: 0 < k < |forecast.value| ==> r[|history| + k].predicted == Some(forecast.value[k].predicted)) &&
      (|forecast.value| > 0 ==>
         r[|history|].predicted ==
         if |history| > 0 then history[|history| - 1].price else Some(forecast.value[0].predicted))
  {
    if !showForecast || forecast.None? then history
    else
      var f := forecast.value;
      var hist := seq(|history|, k requires 0 <= k < |history| => history[k].(predicted := None));
      var fc := seq(|f|, k requires 0 <= k < |f| => ForecastChartPoint(f[k]));
      var joined := if |fc| > 0 && |hist| > 0 then [fc[0].(predicted := hist[|hist| - 1].price)] + fc[1..] else fc;
      hist + joined
  }

  /** `d.price ?? d.predicted` */
  function Shown(p: ChartPoint): Option<real> {
    if p.price.Some? then p.price else p.predicted
  }

  /** `chartData.map(d => d.price ?? d.predicted).filter(v => v != null)` */
  function AllPrices(chart: seq<ChartPoint>): (r: seq<real>)
    ensures |r| <= |chart|
    ensures forall v :: v in r <==> exists k :: 0 <= k < |chart| && Shown(chart[k]) == Some(v)
  {
    if chart == [] then []
    else
      var rest := AllPrices(chart[1..]);
      assert forall k :: 1 <= k < |chart| ==> chart[k] == chart[1..][k - 1];
      (if Shown(chart[0]).Some? then [Shown(chart[0]).value] else []) + rest
  }

  /** `Math.min(...xs)` on a non-empty list. */
  function MinOf(xs: seq<real>): (m: real)
    requires xs != []
    ensures m in xs && forall v :: v in xs ==> m <= v
  {
    if |xs| == 1 then xs[0]
    else
      var m := MinOf(xs[1..]);
      assert forall v :: v in xs ==> v == xs[0] || v in xs[1..];
      if xs[0] <= m then xs[0] else m
  }

  /** `Math.max(...xs)` on a non-empty list. */
  function MaxOf(xs: seq<real>): (m: real)
    requires xs != []
    ensures m in xs && forall v :: v in xs ==> v <= m
  {
    if |xs| == 1 then xs[0]
    else
      var m := MaxOf(xs[1..]);
      assert forall v :: v in xs ==> v == xs[0] || v in xs[1..];
      if xs[0] >= m then xs[0] else m
  }

  /** `minPrice`: 0 when nothing is shown. */
  function MinPrice(chart: seq<ChartPoint>): real {
    var xs := AllPrices(chart);
    if xs == [] then 0.0 else MinOf(xs)
  }

  /** `maxPrice`: 0 when nothing is shown. */
  function MaxPrice(chart: seq<ChartPoint>): real {
    var xs := AllPrices(chart);
    if xs == [] then 0.0 else MaxOf(xs)
  }

  /**
   * Every value the chart shows lies within [minPrice, maxPrice], both bounds
   * are shown values, and both are 0 when nothing is shown.
   */
  lemma PriceRangeBounds(chart: seq<ChartPoint>)
    ensures forall k :: 0 <= k < |chart| && Shown(chart[k]).Some? ==>
      MinPrice(chart) <= Shown(chart[k]).value <= MaxPrice(chart)
    ensures (forall k :: 0 <= k < |chart| ==> Shown(chart[k]).None?) ==> MinPrice(chart) == 0.0 == MaxPrice(chart)
    ensures (exists k :: 0 <= k < |chart| && Shown(chart[k]).Some?) ==>
      (exists k :: 0 <= k < |chart| && Shown(chart[k]) == Some(MinPrice(chart))) &&
      (exists k :: 0 <= k < |chart| && Shown(chart[k]) == Some(MaxPrice(chart)))
  {
    var xs := AllPrices(chart);
    forall k | 0 <= k < |chart| && Shown(chart[k]).Some?
      ensures MinPrice(chart) <= Shown(chart[k]).value <= MaxPrice(chart)
    {
      assert Shown(chart[k]).value in xs;
    }
    if exists k :: 0 <= k < |chart| && Shown(chart[k]).Some? {
      var k :| 0 <= k < |chart| && Shown(chart[k]).Some?;
      assert Shown(chart[k]).value in xs;
      var lo := MinOf(xs);
      var hi := MaxOf(xs);
      assert lo in xs && hi in xs;
      var i :| 0 <= i < |chart| && Shown(chart[i]) == Some(lo);
      var j :| 0 <= j < |chart| && Shown(chart[j]) == Some(hi);
    }
  }
}
