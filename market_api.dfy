/**
 * Request shaping of the QuantDesk market-data server (backend/server.py):
 * the symbol list of `/api/stocks` and the order of its results, the
 * days-to-(period, interval) table and the date labels of
 * `/api/history/<symbol>`, and the hit filter of `/api/search`. The quote
 * provider's answers enter as inputs: the fetched quotes in completion order,
 * the history bars or the exception, the raw search results or the exception.
 */
module MarketApi {
  import opened Text

  const DefaultSymbols: seq<string> :=
    ["NVDA", "AAPL", "TSLA", "AMZN", "MSFT", "META", "GOOGL", "NFLX", "AMD", "COIN"]

  // ---------------------------------------------------------------------
  // The requested symbols
  // ---------------------------------------------------------------------

  /** `[s.strip().upper() for s in pieces if s.strip()]` */
  function NormalizeSymbols(pieces: seq<string>): (r: seq<string>)
    ensures |r| <= |pieces|
  {
    if pieces == [] then []
    else
      var s := Trim(pieces[0], PySpace);
      (if s != [] then [Upper(s)] else []) + NormalizeSymbols(pieces[1..])
  }

  /** Every kept symbol is non-blank, stripped and upper case. */
  lemma {:induction false} NormalizeSymbolsNormalized(pieces: seq<string>)
    ensures forall k :: 0 <= k < |NormalizeSymbols(pieces)| ==> Normalized(NormalizeSymbols(pieces)[k])
  {
    if pieces != [] {
      NormalizeSymbolsNormalized(pieces[1..]);
      NormalizeUnfold(pieces);
      var s := Trim(pieces[0], PySpace);
      TrimIsInfix(pieces[0], PySpace);
      UpperKeepsEnds(s);
    }
  }

  /** A single piece yields its stripped, upper-cased text, or nothing when it is blank. */
  lemma NormalizeOne(p: string)
    ensures NormalizeSymbols([p]) ==
      (if Trim(p, PySpace) == [] then [] else [Upper(Trim(p, PySpace))])
  {
    assert [p][1..] == [];
  }

  /** Each piece is normalised on its own, in order: normalising distributes over concatenation. */
  lemma {:induction false} NormalizeAppend(a: seq<string>, b: seq<string>)
    ensures NormalizeSymbols(a + b) == NormalizeSymbols(a) + NormalizeSymbols(b)
  {
    if a == [] {
      assert a + b == b;
    } else {
      NormalizeAppend(a[1..], b);
      NormalizeCons(a, b);
    }
  }

  /** One step of NormalizeAppend: the first piece is normalised on its own. */
  lemma NormalizeCons(a: seq<string>, b: seq<string>)
    requires a != []
    requires NormalizeSymbols(a[1..] + b) == NormalizeSymbols(a[1..]) + NormalizeSymbols(b)
    ensures NormalizeSymbols(a + b) == NormalizeSymbols(a) + NormalizeSymbols(b)
  {
    ConsAppend(a, b);
    NormalizeUnfold(a + b);
    NormalizeUnfold(a);
    AppendAssoc(NormalizeSymbols([a[0]]), NormalizeSymbols(a[1..]), NormalizeSymbols(b));
  }

  /** Proof helper: one unfolding of NormalizeSymbols, with the first piece on its own. */
  lemma NormalizeUnfold(pieces: seq<string>)
    requires pieces != []
    ensures NormalizeSymbols(pieces) == NormalizeSymbols([pieces[0]]) + NormalizeSymbols(pieces[1..])
  {
    NormalizeOne(pieces[0]);
  }

  /** Non-blank, no white space at either end, upper case. */
  predicate Normalized(s: string) {
    s != [] && !PySpace(s[0]) && !PySpace(s[|s| - 1]) && Upper(s) == s
  }

  lemma UpperKeepsEnds(s: string)
    ensures s != [] && !PySpace(s[0]) && !PySpace(s[|s| - 1]) ==> Normalized(Upper(s))
  {
    UpperIdempotent(s);
  }

  /** `request.args.get("symbols", ",".join(DEFAULT_SYMBOLS)).split(",")`, normalised. */
  function RequestedSymbols(param: Option<string>): seq<string> {
    NormalizeSymbols(Split(if param.Some? then param.value else Join(DefaultSymbols, ','), ','))
  }

  /** Normalising symbols that are already normalised changes nothing. */
  lemma {:induction false} NormalizeFixed(symbols: seq<string>)
    requires forall k :: 0 <= k < |symbols| ==> Normalized(symbols[k])
    ensures NormalizeSymbols(symbols) == symbols
  {
    if symbols != [] {
      NormalizeFixed(symbols[1..]);
      NormalizeHead(symbols);
    }
  }

  /** A normalised first symbol is kept as it is. */
  lemma NormalizeHead(symbols: seq<string>)
    requires symbols != [] && Normalized(symbols[0])
    ensures NormalizeSymbols(symbols) == [symbols[0]] + NormalizeSymbols(symbols[1..])
  {
    TrimFixed(symbols[0], PySpace);
  }

  /** Normalising twice is normalising once. */
  lemma NormalizeIdempotent(pieces: seq<string>)
    ensures NormalizeSymbols(NormalizeSymbols(pieces)) == NormalizeSymbols(pieces)
  {
    NormalizeSymbolsNormalized(pieces);
    NormalizeFixed(NormalizeSymbols(pieces));
  }

  /**
   * The dashboard sends `watchlist.join(",")`: a list of normalised symbols
   * joined with commas is read back as the same list.
   */
  lemma JoinedListReadBack(symbols: seq<string>)
    requires |symbols| >= 1
    requires forall k :: 0 <= k < |symbols| ==> Normalized(symbols[k]) && ',' !in symbols[k]
    ensures RequestedSymbols(Some(Join(symbols, ','))) == symbols
  {
    SplitJoin(symbols, ',');
    NormalizeFixed(symbols);
  }

  /** A word of capital letters is a normalised symbol without a comma. */
  lemma CapitalWord(s: string)
    requires s != [] && forall i :: 0 <= i < |s| ==> 'A' <= s[i] <= 'Z'
    ensures Normalized(s) && ',' !in s
  {
    assert Upper(s) == s;
  }

  lemma DefaultSymbolsNormalized()
    ensures forall k :: 0 <= k < |DefaultSymbols| ==> Normalized(DefaultSymbols[k]) && ',' !in DefaultSymbols[k]
  {
    forall k | 0 <= k < |DefaultSymbols|
      ensures Normalized(DefaultSymbols[k]) && ',' !in DefaultSymbols[k]
    {
      var w := DefaultSymbols[k];
      forall i | 0 <= i < |w| ensures 'A' <= w[i] <= 'Z' {
        if k == 0 { assert w == "NVDA"; }
        else if k == 1 { assert w == "AAPL"; }
        else if k == 2 { assert w == "TSLA"; }
        else if k == 3 { assert w == "AMZN"; }
        else if k == 4 { assert w == "MSFT"; }
        else if k == 5 { assert w == "META"; }
        else if k == 6 { assert w == "GOOGL"; }
        else if k == 7 { assert w == "NFLX"; }
        else if k == 8 { assert w == "AMD"; }
        else { assert w == "COIN"; }
      }
      CapitalWord(w);
    }
  }

  /** Without a `symbols` parameter the default watchlist is requested. */
  lemma DefaultRequest()
    ensures RequestedSymbols(None) == DefaultSymbols
  {
    DefaultSymbolsNormalized();
    JoinedListReadBack(DefaultSymbols);
  }

  // ---------------------------------------------------------------------
  // /api/stocks: keeping and ordering the fetched quotes
  // ---------------------------------------------------------------------

  datatype Quote = Quote(symbol: string, price: real, changePct: real)

  /**
   * `order.get(symbol, 99)` with `order = {s: i for i, s in enumerate(symbols)}`:
   * the last position of the symbol in the request, 99 when it was not requested.
   */
  function OrderKey(symbols: seq<string>, symbol: string): nat {
    if symbol !in symbols then 99
    else if symbols[|symbols| - 1] == symbol then |symbols| - 1
    else OrderKey(symbols[..|symbols| - 1], symbol)
  }

  /** The key of a requested symbol is its last position in the request; any other symbol sorts under 99. */
  lemma {:induction false} OrderKeyPosition(symbols: seq<string>, symbol: string)
    ensures var r := OrderKey(symbols, symbol);
      if symbol in symbols
      then r < |symbols| && symbols[r] == symbol && forall j :: r < j < |symbols| ==> symbols[j] != symbol
      else r == 99
  {
    if symbol in symbols && symbols[|symbols| - 1] != symbol {
      var init := symbols[..|symbols| - 1];
      assert symbols == init + [symbols[|symbols| - 1]];
      OrderKeyPosition(init, symbol);
    }
  }

  function Key(symbols: seq<string>, q: Quote): nat {
    OrderKey(symbols, q.symbol)
  }

  predicate SortedBy(symbols: seq<string>, s: seq<Quote>) {
    forall i, j :: 0 <= i < j < |s| ==> Key(symbols, s[i]) <= Key(symbols, s[j])
  }

  /** Inserts `q` after the trailing run of elements whose key exceeds its own. */
  function Insert(symbols: seq<string>, q: Quote, s: seq<Quote>): (r: seq<Quote>)
    ensures multiset(r) == multiset(s) + multiset{q}
    ensures SortedBy(symbols, s) ==> SortedBy(symbols, r)
  {
    if s == [] then [q]
    else
      var last := s[|s| - 1];
      var init := s[..|s| - 1];
      assert s == init + [last];
      if Key(symbols, last) <= Key(symbols, q) then s + [q]
      else
        var front := Insert(symbols, q, init);
        if SortedBy(symbols, s) then
          SortedPrefix(symbols, init, last);
          SortedAppend(symbols, q, init, last, front);
          front + [last]
        else front + [last]
  }

  lemma SortedPrefix(symbols: seq<string>, init: seq<Quote>, last: Quote)
    requires SortedBy(symbols, init + [last])
    ensures SortedBy(symbols, init)
  {
    var s := init + [last];
    forall i, j | 0 <= i < j < |init| ensures Key(symbols, init[i]) <= Key(symbols, init[j]) {
      assert s[i] == init[i] && s[j] == init[j];
    }
  }

  /** Putting `last` back after the insertion into `init` keeps the order. */
  lemma SortedAppend(symbols: seq<string>, q: Quote, init: seq<Quote>, last: Quote, front: seq<Quote>)
    requires SortedBy(symbols, init + [last]) && Key(symbols, q) < Key(symbols, last)
    requires SortedBy(symbols, front) && multiset(front) == multiset(init) + multiset{q}
    ensures SortedBy(symbols, front + [last])
  {
    var s := init + [last];
    forall i | 0 <= i < |front| ensures Key(symbols, front[i]) <= Key(symbols, last) {
      assert front[i] in multiset(front);
      if front[i] != q {
        assert front[i] in multiset(init);
        var j :| 0 <= j < |init| && init[j] == front[i];
        assert s[j] == init[j] && s[|init|] == last;
      }
    }
    var r := front + [last];
    forall i, j | 0 <= i < j < |r| ensures Key(symbols, r[i]) <= Key(symbols, r[j]) {
      if j < |front| {
        assert r[i] == front[i] && r[j] == front[j];
      }
    }
  }

  /** `results.sort(key=...)`: Python's sort is stable, modelled as insertion in input order. */
  function SortByKey(symbols: seq<string>, xs: seq<Quote>): (r: seq<Quote>)
    ensures multiset(r) == multiset(xs)
    ensures SortedBy(symbols, r)
  {
    if xs == [] then []
    else
      assert xs == xs[..|xs| - 1] + [xs[|xs| - 1]];
      Insert(symbols, xs[|xs| - 1], SortByKey(symbols, xs[..|xs| - 1]))
  }

  /** The elements of `s` that sort under key `v`, in their order in `s`. */
  function KeyFilter(symbols: seq<string>, s: seq<Quote>, v: nat): (r: seq<Quote>)
    ensures forall x :: x in r <==> x in s && Key(symbols, x) == v
  {
    if s == [] then []
    else
      var last := s[|s| - 1];
      assert forall x :: x in s <==> x in s[..|s| - 1] || x == last by {
        assert s == s[..|s| - 1] + [last];
      }
      KeyFilter(symbols, s[..|s| - 1], v) + (if Key(symbols, last) == v then [last] else [])
  }

  lemma {:induction false} InsertFilter(symbols: seq<string>, q: Quote, s: seq<Quote>, v: nat)
    ensures KeyFilter(symbols, Insert(symbols, q, s), v) ==
      KeyFilter(symbols, s, v) + (if Key(symbols, q) == v then [q] else [])
  {
    if s != [] {
      var last := s[|s| - 1];
      var init := s[..|s| - 1];
      assert s == init + [last];
      if Key(symbols, last) <= Key(symbols, q) {
        KeyFilterSnoc(symbols, s, q, v);
      } else {
        InsertFilter(symbols, q, init, v);
        KeyFilterSnoc(symbols, Insert(symbols, q, init), last, v);
        KeyFilterSnoc(symbols, init, last, v);
        SwapOneSided(KeyFilter(symbols, init, v),
          if Key(symbols, q) == v then [q] else [], if Key(symbols, last) == v then [last] else []);
      }
    } else {
      assert [q][..0] == [];
    }
  }

  /** Proof helper for InsertFilter: two additions of which at least one is empty commute. */
  lemma SwapOneSided(a: seq<Quote>, x: seq<Quote>, y: seq<Quote>)
    requires x == [] || y == []
    ensures a + x + y == a + y + x
  {
    if x == [] {
      assert a + x == a;
    } else {
      assert a + y == a;
    }
  }

  /** Appending a quote appends it to its own key's filter and to no other. */
  lemma KeyFilterSnoc(symbols: seq<string>, s: seq<Quote>, x: Quote, v: nat)
    ensures KeyFilter(symbols, s + [x], v) == KeyFilter(symbols, s, v) + (if Key(symbols, x) == v then [x] else [])
  {
    assert (s + [x])[..|s|] == s;
  }

  /** Stability: the quotes that share a key keep the order they arrived in. */
  lemma {:induction false} SortStable(symbols: seq<string>, xs: seq<Quote>, v: nat)
    ensures KeyFilter(symbols, SortByKey(symbols, xs), v) == KeyFilter(symbols, xs, v)
  {
    if xs != [] {
      SortStable(symbols, xs[..|xs| - 1], v);
      InsertFilter(symbols, xs[|xs| - 1], SortByKey(symbols, xs[..|xs| - 1]), v);
    }
  }

  /** Removing the last element removes it from its own key's filter only. */
  lemma FilterInit(symbols: seq<string>, s: seq<Quote>, v: nat)
    requires s != []
    ensures var f := KeyFilter(symbols, s, v);
      if Key(symbols, s[|s| - 1]) == v
      then f != [] && f[|f| - 1] == s[|s| - 1] && KeyFilter(symbols, s[..|s| - 1], v) == f[..|f| - 1]
      else KeyFilter(symbols, s[..|s| - 1], v) == f
  {
    var f := KeyFilter(symbols, s, v);
    if Key(symbols, s[|s| - 1]) == v {
      assert f[..|f| - 1] == KeyFilter(symbols, s[..|s| - 1], v);
    }
  }

  /** In a sorted list no key exceeds the last one's. */
  lemma LastKeyIsMax(symbols: seq<string>, s: seq<Quote>, x: Quote)
    requires SortedBy(symbols, s) && x in s
    ensures Key(symbols, x) <= Key(symbols, s[|s| - 1])
  {
    var i :| 0 <= i < |s| && s[i] == x;
    if i < |s| - 1 {
      assert Key(symbols, s[i]) <= Key(symbols, s[|s| - 1]);
    }
  }

  /** Two sorted lists that agree key by key end in the same element. */
  lemma SameLast(symbols: seq<string>, s: seq<Quote>, t: seq<Quote>)
    requires s != [] && t != [] && SortedBy(symbols, s) && SortedBy(symbols, t)
    requires forall v: nat :: KeyFilter(symbols, s, v) == KeyFilter(symbols, t, v)
    ensures s[|s| - 1] == t[|t| - 1]
  {
    var ls, lt := s[|s| - 1], t[|t| - 1];
    var m, n := Key(symbols, ls), Key(symbols, lt);
    assert ls in KeyFilter(symbols, s, m);
    assert lt in KeyFilter(symbols, t, n);
    LastKeyIsMax(symbols, t, ls);
    LastKeyIsMax(symbols, s, lt);
    assert m == n;
    FilterInit(symbols, s, m);
    FilterInit(symbols, t, m);
  }

  lemma LastInOwnFilter(symbols: seq<string>, s: seq<Quote>)
    requires s != []
    ensures KeyFilter(symbols, s, Key(symbols, s[|s| - 1])) != []
  {
    assert s[|s| - 1] in KeyFilter(symbols, s, Key(symbols, s[|s| - 1]));
  }

  /** Dropping the common last element keeps two lists in agreement key by key. */
  lemma InitsAgree(symbols: seq<string>, s': seq<Quote>, t': seq<Quote>, x: Quote)
    requires forall v: nat :: KeyFilter(symbols, s' + [x], v) == KeyFilter(symbols, t' + [x], v)
    ensures forall v: nat :: KeyFilter(symbols, s', v) == KeyFilter(symbols, t', v)
  {
    forall v: nat ensures KeyFilter(symbols, s', v) == KeyFilter(symbols, t', v) {
      var s, t := s' + [x], t' + [x];
      assert s[..|s| - 1] == s' && t[..|t| - 1] == t';
      FilterInit(symbols, s, v);
      FilterInit(symbols, t, v);
    }
  }

  /** When two lists agree key by key and one is empty, so is the other. */
  lemma BothEmpty(symbols: seq<string>, s: seq<Quote>, t: seq<Quote>)
    requires s == [] || t == []
    requires forall v: nat :: KeyFilter(symbols, s, v) == KeyFilter(symbols, t, v)
    ensures s == [] && t == []
  {
    if s != [] {
      LastInOwnFilter(symbols, s);
    } else if t != [] {
      LastInOwnFilter(symbols, t);
    }
  }

  lemma SortedInit(symbols: seq<string>, s: seq<Quote>, x: Quote)
    requires SortedBy(symbols, s + [x])
    ensures SortedBy(symbols, s)
  {
    forall i, j | 0 <= i < j < |s| ensures Key(symbols, s[i]) <= Key(symbols, s[j]) {
      assert (s + [x])[i] == s[i] && (s + [x])[j] == s[j];
    }
  }

  /** Two sorted lists that agree key by key are equal. */
  lemma {:induction false} SortedUnique(symbols: seq<string>, s: seq<Quote>, t: seq<Quote>)
    requires SortedBy(symbols, s) && SortedBy(symbols, t)
    requires forall v: nat :: KeyFilter(symbols, s, v) == KeyFilter(symbols, t, v)
    ensures s == t
    decreases |s| + |t|
  {
    if s == [] || t == [] {
      BothEmpty(symbols, s, t);
    } else {
      var s', t' := s[..|s| - 1], t[..|t| - 1];
      assert s == s' + [s[|s| - 1]] && t == t' + [t[|t| - 1]];
      SameLast(symbols, s, t);
      InitsAgree(symbols, s', t', s[|s| - 1]);
      SortedInit(symbols, s', s[|s| - 1]);
      SortedInit(symbols, t', t[|t| - 1]);
      SortedUnique(symbols, s', t');
    }
  }

  /** The fetched quotes, `None` for a failed fetch, kept in completion order. */
  function Fetched(completions: seq<Option<Quote>>): (r: seq<Quote>)
    ensures |r| <= |completions|
    ensures forall q :: q in r <==> Some(q) in completions
  {
    if completions == [] then []
    else
      var last := completions[|completions| - 1];
      assert forall o :: o in completions <==> o in completions[..|completions| - 1] || o == last by {
        assert completions == completions[..|completions| - 1] + [last];
      }
      Fetched(completions[..|completions| - 1]) + (if last.Some? then [last.value] else [])
  }

  /** A single completion yields its quote, or nothing when the fetch failed. */
  lemma FetchedOne(o: Option<Quote>)
    ensures Fetched([o]) == if o.Some? then [o.value] else []
  {
    assert [o][..0] == [];
  }

  /** Proof helper: one more completion adds at most its own quote, at the end. */
  lemma FetchedSnoc(s: seq<Option<Quote>>, o: Option<Quote>)
    ensures Fetched(s + [o]) == Fetched(s) + (if o.Some? then [o.value] else [])
  {
    assert (s + [o])[..|s|] == s;
  }

  /** Each completion contributes at most its own quote, in completion order: Fetched distributes over concatenation. */
  lemma {:induction false} FetchedAppend(a: seq<Option<Quote>>, b: seq<Option<Quote>>)
    ensures Fetched(a + b) == Fetched(a) + Fetched(b)
    decreases |b|
  {
    if b == [] {
      assert a + b == a;
    } else {
      var init := b[..|b| - 1];
      var o := b[|b| - 1];
      assert b == init + [o];
      assert a + b == (a + init) + [o];
      FetchedAppend(a, init);
      FetchedSnoc(a + init, o);
      FetchedSnoc(init, o);
      AppendAssoc(Fetched(a), Fetched(init), if o.Some? then [o.value] else []);
    }
  }

  /** No two quotes sort under the same key: each requested position has at most one quote. */
  predicate DistinctKeys(symbols: seq<string>, s: seq<Quote>) {
    forall i, j :: 0 <= i < j < |s| ==> Key(symbols, s[i]) != Key(symbols, s[j])
  }

  /**
   * `get_stocks()` after the fetches: the quotes that came back, in
   * completion order, then stably sorted by their position in the request.
   */
  method GetStocks(symbols: seq<string>, completions: seq<Option<Quote>>) returns (results: seq<Quote>)
    ensures results == SortByKey(symbols, Fetched(completions))
    ensures |results| <= |completions|
  {
    var kept := [];
    for k := 0 to |completions|
      invariant kept == Fetched(completions[..k])
    {
      assert completions[..k + 1][..k] == completions[..k];
      var r := completions[k];
      if r.Some? {
        kept := kept + [r.value];
      }
    }
    assert completions[..|completions|] == completions;
    results := SortByKey(symbols, kept);
    assert |results| == |multiset(results)| == |multiset(kept)| == |kept|;
  }

  lemma {:induction false} FilterOfDistinct(symbols: seq<string>, a: seq<Quote>, b: seq<Quote>, v: nat)
    requires DistinctKeys(symbols, a) && DistinctKeys(symbols, b)
    requires forall x :: x in a <==> x in b
    ensures KeyFilter(symbols, a, v) == KeyFilter(symbols, b, v)
  {
    AtMostOne(symbols, a, v);
    AtMostOne(symbols, b, v);
    SameShortLists(KeyFilter(symbols, a, v), KeyFilter(symbols, b, v));
  }

  /** Two lists of at most one element with the same members are equal. */
  lemma SameShortLists(x: seq<Quote>, y: seq<Quote>)
    requires |x| <= 1 && |y| <= 1
    requires forall e :: e in x <==> e in y
    ensures x == y
  {
    if x != [] {
      HeadIn(x);
    }
    if y != [] {
      HeadIn(y);
    }
  }

  /** Proof helper: the first element of a non-empty list is in it. */
  lemma HeadIn(x: seq<Quote>)
    requires x != []
    ensures x[0] in x
  {
  }

  lemma {:induction false} NoneUnderKey(symbols: seq<string>, s: seq<Quote>, v: nat)
    requires forall x :: x in s ==> Key(symbols, x) != v
    ensures KeyFilter(symbols, s, v) == []
  {
    if s != [] {
      assert s[|s| - 1] in s;
      NoneUnderKey(symbols, s[..|s| - 1], v);
    }
  }

  lemma {:induction false} AtMostOne(symbols: seq<string>, s: seq<Quote>, v: nat)
    requires DistinctKeys(symbols, s)
    ensures |KeyFilter(symbols, s, v)| <= 1
  {
    if s != [] {
      var init := s[..|s| - 1];
      assert DistinctKeys(symbols, init) by {
        forall i, j | 0 <= i < j < |init| ensures Key(symbols, init[i]) != Key(symbols, init[j]) {
          assert init[i] == s[i] && init[j] == s[j];
        }
      }
      AtMostOne(symbols, init, v);
      if Key(symbols, s[|s| - 1]) == v {
        forall x | x in init ensures Key(symbols, x) != v {
          var i :| 0 <= i < |init| && init[i] == x;
          assert s[i] == x;
        }
        NoneUnderKey(symbols, init, v);
      }
    }
  }

  /** Every quote names a requested symbol, and no symbol is quoted twice. */
  predicate OnePerSymbol(symbols: seq<string>, s: seq<Quote>) {
    (forall i :: 0 <= i < |s| ==> s[i].symbol in symbols) &&
    (forall i, j :: 0 <= i < j < |s| ==> s[i].symbol != s[j].symbol)
  }

  lemma OnePerSymbolDistinctKeys(symbols: seq<string>, s: seq<Quote>)
    requires OnePerSymbol(symbols, s)
    ensures DistinctKeys(symbols, s)
  {
    forall i, j | 0 <= i < j < |s| ensures Key(symbols, s[i]) != Key(symbols, s[j]) {
      OrderKeyPosition(symbols, s[i].symbol);
      OrderKeyPosition(symbols, s[j].symbol);
    }
  }

  /**
   * `fetch_one` labels each quote with the symbol it was asked for: with
   * distinct requested symbols, the response does not depend on the order in
   * which the parallel fetches completed.
   */
  lemma OrderIndependent(symbols: seq<string>, c1: seq<Option<Quote>>, c2: seq<Option<Quote>>)
    requires multiset(c1) == multiset(c2)
    requires OnePerSymbol(symbols, Fetched(c1)) && OnePerSymbol(symbols, Fetched(c2))
    ensures SortByKey(symbols, Fetched(c1)) == SortByKey(symbols, Fetched(c2))
  {
    var a, b := Fetched(c1), Fetched(c2);
    OnePerSymbolDistinctKeys(symbols, a);
    OnePerSymbolDistinctKeys(symbols, b);
    assert forall o :: o in c1 <==> o in c2 by {
      forall o ensures o in c1 <==> o in c2 {
        assert o in c1 <==> o in multiset(c1);
        assert o in c2 <==> o in multiset(c2);
      }
    }
    forall v: nat ensures KeyFilter(symbols, SortByKey(symbols, a), v) == KeyFilter(symbols, SortByKey(symbols, b), v) {
      SortStable(symbols, a, v);
      SortStable(symbols, b, v);
      FilterOfDistinct(symbols, a, b, v);
    }
    SortedUnique(symbols, SortByKey(symbols, a), SortByKey(symbols, b));
  }

  // ---------------------------------------------------------------------
  // /api/history/<symbol>
  // ---------------------------------------------------------------------

  /** The (period, interval) asked of the provider for a `days` window. */
  function PeriodFor(days: int): (string, string) {
    if days <= 7 then ("7d", "1h")
    else if days <= 30 then ("1mo", "1d")
    else if days <= 90 then ("3mo", "1d")
    else ("1y", "1d")
  }

  /** The calendar days a provider period spans. */
  function PeriodDays(period: string): nat {
    if period == "7d" then 7
    else if period == "1mo" then 30
    else if period == "3mo" then 90
    else 365
  }

  const Periods: seq<string> := ["7d", "1mo", "3mo", "1y"]

  /**
   * The table picks the shortest period that covers the window (up to a
   * year), and hourly bars exactly for windows of a week or less.
   */
  lemma PeriodTable(days: int)
    ensures var (period, interval) := PeriodFor(days);
      period in Periods &&
      (days <= 365 ==> days <= PeriodDays(period)) &&
      (forall p :: p in Periods && PeriodDays(p) < PeriodDays(period) ==> PeriodDays(p) < days) &&
      (period == "1y" <==> days > 90) &&
      (interval == "1h" <==> days <= 7) &&
      (interval == "1h" || interval == "1d")
  {
  }

  /** `"%b %d" if interval == "1d" else "%b %d %H:%M"` */
  function DateFormat(interval: string): string {
    if interval == "1d" then "%b %d" else "%b %d %H:%M"
  }

  datatype Stamp = Stamp(month: nat, day: nat, hour: nat, minute: nat)
  datatype Clock = Clock(hour: nat, minute: nat)

  /** A formatted date: month and day, and the time of day when the format asks for it. */
  datatype DateLabel = DateLabel(month: nat, day: nat, time: Option<Clock>)

  /** `ts.strftime(fmt)` for the two formats the server uses. */
  function Strftime(ts: Stamp, fmt: string): DateLabel {
    DateLabel(ts.month, ts.day, if EndsWith(fmt, "%H:%M") then Some(Clock(ts.hour, ts.minute)) else None)
  }

  /** Only hourly bars, those of windows of a week or less, are labelled with the time of day. */
  lemma TimeShownIffHourly(days: int, ts: Stamp)
    ensures Strftime(ts, DateFormat(PeriodFor(days).1)).time.Some? <==> days <= 7
  {
    var daily := "%b %d";
    var hourly := "%b %d %H:%M";
    assert !EndsWith(daily, "%H:%M") by {
      assert daily[|daily| - 1] == 'd';
    }
    assert EndsWith(hourly, "%H:%M") by {
      assert hourly[|hourly| - 5..] == "%H:%M";
    }
  }

  /** One provider bar: its timestamp, close and `int(row["Volume"])`. */
  datatype Bar = Bar(time: Stamp, close: real, volume: int)

  datatype HistoryPoint = HistoryPoint(date: DateLabel, price: real, volume: int)

  /** The points built from the bars, one per bar, in the provider's order. */
  function Points(bars: seq<Bar>, interval: string): (r: seq<HistoryPoint>)
    ensures |r| == |bars|
    ensures forall k :: 0 <= k < |r| ==>
      r[k] == HistoryPoint(Strftime(bars[k].time, DateFormat(interval)), bars[k].close, bars[k].volume)
  {
    if bars == [] then []
    else
      var b := bars[|bars| - 1];
      Points(bars[..|bars| - 1], interval) + [HistoryPoint(Strftime(b.time, DateFormat(interval)), b.close, b.volume)]
  }

  /** What the provider's history call did: raised, or returned bars. */
  datatype HistoryFetch = HistoryRaised(message: string) | Bars(bars: seq<Bar>)

  datatype HistoryReply = HistoryError(error: string, status: nat) | History(points: seq<HistoryPoint>)

  /**
   * `get_history(symbol)`: the request asks for the table's (period,
   * interval), 90 days by default; no bars is a 404 naming the upper-cased
   * symbol, an exception a 500 carrying its message.
   */
  method GetHistory(symbol: string, days: Option<int>, fetch: HistoryFetch)
    returns (request: (string, string), reply: HistoryReply)
    ensures request == PeriodFor(if days.Some? then days.value else 90)
    ensures fetch.HistoryRaised? ==> reply == HistoryError(fetch.message, 500)
    ensures fetch.Bars? && fetch.bars == [] ==> reply == HistoryError("No data for " + Upper(symbol), 404)
    ensures fetch.Bars? && fetch.bars != [] ==> reply == History(Points(fetch.bars, request.1))
  {
    var sym := Upper(symbol);
    var n := if days.Some? then days.value else 90;
    request := PeriodFor(n);
    match fetch {
      case HistoryRaised(message) =>
        reply := HistoryError(message, 500);
      case Bars(bars) =>
        if bars == [] {
          reply := HistoryError("No data for " + sym, 404);
        } else {
          var data := [];
          for k := 0 to |bars|
            invariant data == Points(bars[..k], request.1)
          {
            assert bars[..k + 1][..k] == bars[..k];
            var fmt := DateFormat(request.1);
            data := data + [HistoryPoint(Strftime(bars[k].time, fmt), bars[k].close, bars[k].volume)];
          }
          assert bars[..|bars|] == bars;
          reply := History(data);
        }
    }
  }

  // ---------------------------------------------------------------------
  // /api/search
  // ---------------------------------------------------------------------

  /** One entry of the provider's `quotes`, each key possibly absent. */
  datatype RawQuote = RawQuote(symbol: Option<string>, longname: Option<string>, shortname: Option<string>, quoteType: Option<string>)

  datatype Hit = Hit(symbol: string, name: string, kind: string)

  /** What the provider's search did: raised, or returned its quotes (`results.quotes or []`). */
  datatype SearchFetch = SearchRaised | Quotes(quotes: seq<RawQuote>)

  const MaxHits: nat := 8

  /** A hit needs a symbol and a long or a short name. */
  predicate IsHit(r: RawQuote) {
    Truthy(r.symbol) && (Truthy(r.longname) || Truthy(r.shortname))
  }

  function HitOf(r: RawQuote): (h: Hit)
    requires IsHit(r)
    ensures h.symbol != [] && h.name != []
  {
    Hit(r.symbol.value,
        if Truthy(r.longname) then r.longname.value else r.shortname.value,
        if r.quoteType.Some? then r.quoteType.value else "")
  }

  /** The hits among the quotes, in the provider's order. */
  function Hits(quotes: seq<RawQuote>): (r: seq<Hit>)
    ensures |r| <= |quotes|
    ensures forall k :: 0 <= k < |r| ==> r[k].symbol != [] && r[k].name != []
  {
    if quotes == [] then []
    else
      var q := quotes[|quotes| - 1];
      Hits(quotes[..|quotes| - 1]) + (if IsHit(q) then [HitOf(q)] else [])
  }

  /** The filter keeps the provider's order: the hits of a concatenation are the concatenated hits. */
  lemma {:induction false} HitsAppend(a: seq<RawQuote>, b: seq<RawQuote>)
    ensures Hits(a + b) == Hits(a) + Hits(b)
    decreases |b|
  {
    if b == [] {
      assert a + b == a;
    } else {
      var b' := b[..|b| - 1];
      assert (a + b)[..|a + b| - 1] == a + b';
      HitsAppend(a, b');
    }
  }

  /** A quote is reported exactly when it passes the filter (up to equal hits). */
  lemma {:induction false} HitsMembers(quotes: seq<RawQuote>, h: Hit)
    ensures h in Hits(quotes) <==> exists r :: r in quotes && IsHit(r) && HitOf(r) == h
  {
    if quotes != [] {
      var init := quotes[..|quotes| - 1];
      var q := quotes[|quotes| - 1];
      assert quotes == init + [q];
      HitsMembers(init, h);
      if h in Hits(init) {
        var r :| r in init && IsHit(r) && HitOf(r) == h;
        assert r in quotes;
      }
      if exists r :: r in quotes && IsHit(r) && HitOf(r) == h {
        var r :| r in quotes && IsHit(r) && HitOf(r) == h;
        if r != q {
          assert r in init;
        }
      }
    }
  }

  /** One more quote adds its hit, if it is one, at the end. */
  lemma HitsStep(quotes: seq<RawQuote>, k: nat)
    requires k < |quotes|
    ensures Hits(quotes[..k + 1]) ==
      Hits(quotes[..k]) + (if IsHit(quotes[k]) then [HitOf(quotes[k])] else [])
  {
    assert quotes[..k + 1][..k] == quotes[..k];
  }

  /** `hits[:8]` */
  function FirstHits(hits: seq<Hit>): (r: seq<Hit>)
    ensures |r| <= MaxHits && r <= hits
    ensures |hits| <= MaxHits ==> r == hits
  {
    if |hits| <= MaxHits then hits else hits[..MaxHits]
  }

  /**
   * `search()`: a blank query answers `[]` without asking the provider; an
   * exception answers `[]`; otherwise the first eight hits in the
   * provider's order.
   */
  method Search(q: Option<string>, fetch: SearchFetch) returns (hits: seq<Hit>)
    ensures Trim(if q.Some? then q.value else "", PySpace) == [] ==> hits == []
    ensures fetch.SearchRaised? ==> hits == []
    ensures Trim(if q.Some? then q.value else "", PySpace) != [] && fetch.Quotes? ==>
      hits == FirstHits(Hits(fetch.quotes))
    ensures |hits| <= MaxHits
  {
    var query := Trim(if q.Some? then q.value else "", PySpace);
    if query == [] {
      return [];
    }
    match fetch {
      case SearchRaised =>
        hits := [];
      case Quotes(quotes) =>
        var found := CollectHits(quotes);
        hits := FirstHits(found);
    }
  }

  /** The loop of `search()` over the provider's quotes. */
  method CollectHits(quotes: seq<RawQuote>) returns (found: seq<Hit>)
    ensures found == Hits(quotes)
  {
    found := [];
    for k := 0 to |quotes|
      invariant found == Hits(quotes[..k])
    {
      HitsStep(quotes, k);
      var r := quotes[k];
      if Truthy(r.symbol) && (Truthy(r.longname) || Truthy(r.shortname)) {
        var name := if Truthy(r.longname) then r.longname.value else r.shortname.value;
        var kind := if r.quoteType.Some? then r.quoteType.value else "";
        found := found + [Hit(r.symbol.value, name, kind)];
      }
    }
    assert quotes[..|quotes|] == quotes;
  }
}
