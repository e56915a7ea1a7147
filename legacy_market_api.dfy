/**
 * The earlier market-data server (FINAL_YEAR_PROJECT_BCA-main/backend/server.py).
 * Its `get_stocks` and its days table are the same code as the current
 * server's and are modelled once, by `MarketApi`. What differs is
 * `get_history`, which answers an empty list both for no data and for an
 * exception, and the way `search` computes the name before filtering.
 */
module LegacyMarketApi {
  import opened Text
  import opened MarketApi

  /**
   * `get_history(symbol)`: no bars and any exception both answer `[]`, never
   * an error object; otherwise one point per bar, labelled as the current
   * server labels them.
   */
  method GetHistory(symbol: string, days: Option<int>, fetch: HistoryFetch)
    returns (request: (string, string), points: seq<HistoryPoint>)
    ensures request == PeriodFor(if days.Some? then days.value else 90)
    ensures fetch.HistoryRaised? ==> points == []
    ensures fetch.Bars? ==> points == Points(fetch.bars, request.1)
  {
    var n := if days.Some? then days.value else 90;
    request := PeriodFor(n);
    match fetch {
      case HistoryRaised(_) =>
        points := [];
      case Bars(bars) =>
        if bars == [] {
          return request, [];
        }
        var data := [];
        for k := 0 to |bars|
          invariant data == Points(bars[..k], request.1)
        {
          assert bars[..k + 1][..k] == bars[..k];
          var fmt := DateFormat(request.1);
          data := data + [HistoryPoint(Strftime(bars[k].time, fmt), bars[k].close, bars[k].volume)];
        }
        assert bars[..|bars|] == bars;
        points := data;
    }
  }

  /** `x.get("longname") or x.get("shortname")`: absent when neither is a non-empty string. */
  function NameOf(r: RawQuote): (name: Option<string>)
    ensures Truthy(name) <==> Truthy(r.longname) || Truthy(r.shortname)
  {
    if Truthy(r.longname) then r.longname else r.shortname
  }

  /**
   * `search()`: `[]` for a blank query or an exception; otherwise the quotes
   * with a symbol and a name, capped at eight. Filtering on the name first
   * keeps exactly the hits the current server keeps, with the same fields.
   */
  method Search(q: Option<string>, fetch: SearchFetch) returns (hits: seq<Hit>)
    ensures Trim(if q.Some? then q.value else "", PySpace) == [] ==> hits == []
    ensures fetch.SearchRaised? ==> hits == []
    ensures Trim(if q.Some? then q.value else "", PySpace) != [] && fetch.Quotes? ==>
      hits == FirstHits(Hits(fetch.quotes))
  {
    var query := Trim(if q.Some? then q.value else "", PySpace);
    if query == [] {
      return [];
    }
    match fetch {
      case SearchRaised =>
        hits := [];
      case Quotes(quotes) =>
        var found := CollectHits(quotes);
        hits := FirstHits(found);
    }
  }

  /**
   * The loop of the earlier `search()`: the name is computed first, and a
   * quote is kept when it has a symbol and a name. It keeps exactly the
   * current server's hits.
   */
  method CollectHits(quotes: seq<RawQuote>) returns (found: seq<Hit>)
    ensures found == Hits(quotes)
  {
    found := [];
    for k := 0 to |quotes|
      invariant found == Hits(quotes[..k])
    {
      HitsStep(quotes, k);
      var x := quotes[k];
      var sym := x.symbol;
      var name := NameOf(x);
      if Truthy(sym) && Truthy(name) {
        found := found + [Hit(sym.value, name.value, if x.quoteType.Some? then x.quoteType.value else "")];
      }
    }
    assert quotes[..|quotes|] == quotes;
  }
}
