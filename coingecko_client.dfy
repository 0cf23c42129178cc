/** The CoinGecko client's local logic (backend/api/coingecko_client.py):
    the symbol-to-ID table, the requests that an unknown symbol never
    makes, the gainers/losers ranking over a fetched market list, and the
    two list-building loops over fetched responses. The HTTP session, the
    rate-limit acquire and the retry on status 429 are not modelled; a
    fetched response is an argument, with None standing for an empty or
    missing body. */
module CoinGecko {
  import opened Wrappers
  import opened Strings

  // ---------------------------------------------------------------------
  // Symbols

  /** `SYMBOL_TO_ID`. */
  const SymbolToId: map<string, string> := map[
    "BTC" := "bitcoin",
    "ETH" := "ethereum",
    "SOL" := "solana",
    "BNB" := "binancecoin",
    "AVAX" := "avalanche-2",
    "LINK" := "chainlink",
    "MATIC" := "matic-network",
    "DOT" := "polkadot",
    "ADA" := "cardano",
    "XRP" := "ripple",
    "INJ" := "injective-protocol",
    "SEI" := "sei-network",
    "ARB" := "arbitrum",
    "OP" := "optimism",
    "TIA" := "celestia",
    "SUI" := "sui"]

  /** `get_coin_id`: the table entry for the upper-cased symbol. */
  function GetCoinId(symbol: string): (r: Option<string>)
    ensures r.Some? <==> Upper(symbol) in SymbolToId
    ensures r.Some? ==> r.value == SymbolToId[Upper(symbol)]
  {
    if Upper(symbol) in SymbolToId then Some(SymbolToId[Upper(symbol)]) else None
  }

  /** The table's symbols, in the order the source lists them. */
  const TableSymbols: seq<string> := ["BTC", "ETH", "SOL", "BNB", "AVAX", "LINK", "MATIC", "DOT",
                                      "ADA", "XRP", "INJ", "SEI", "ARB", "OP", "TIA", "SUI"]

  /** The table holds exactly sixteen distinct symbols. */
  lemma SymbolCount(symbol: string)
    ensures |TableSymbols| == 16
    ensures forall i, j :: 0 <= i < j < |TableSymbols| ==> TableSymbols[i] != TableSymbols[j]
    ensures symbol in SymbolToId <==> symbol in TableSymbols
  {
  }

  /** No two symbols share an ID. */
  lemma IdsDistinct(a: string, b: string)
    requires a in SymbolToId && b in SymbolToId && a != b
    ensures SymbolToId[a] != SymbolToId[b]
  {
  }

  /** Lookups ignore the case of the symbol. */
  lemma CaseInsensitive(symbol: string)
    ensures GetCoinId(symbol) == GetCoinId(Upper(symbol))
  {
    UpperIdempotent(symbol);
  }

  /** Lower-case symbols resolve like their upper-case forms. */
  lemma LowerCaseLookup()
    ensures GetCoinId("btc") == Some("bitcoin")
    ensures GetCoinId("Sui") == Some("sui")
    ensures GetCoinId("DOGE") == None
  {
    assert Upper("btc") == "BTC";
    assert Upper("Sui") == "SUI";
    assert Upper("DOGE") == "DOGE";
  }

  /** The endpoint `get_coin_data` requests; None means it returns None
      before acquiring a token or sending anything. */
  function CoinDataRequest(symbol: string): (r: Option<string>)
    ensures r.None? <==> GetCoinId(symbol).None?
    ensures r.Some? ==> r.value == "coins/" + GetCoinId(symbol).value
  {
    match GetCoinId(symbol)
    case None => None
    case Some(id) => Some("coins/" + id)
  }

  /** The endpoint `get_historical_prices` requests; None means it returns
      [] before acquiring a token or sending anything. */
  function HistoricalRequest(symbol: string): (r: Option<string>)
    ensures r.None? <==> GetCoinId(symbol).None?
    ensures r.Some? ==> r.value == "coins/" + GetCoinId(symbol).value + "/market_chart"
  {
    match GetCoinId(symbol)
    case None => None
    case Some(id) => Some("coins/" + id + "/market_chart")
  }

  // ---------------------------------------------------------------------
  // Gainers and losers

  /** The keys of one `coins/markets` entry that the ranking reads. */
  datatype MarketEntry = MarketEntry(symbol: string, name: Option<string>, change24h: Option<real>,
                                     currentPrice: Option<real>)

  /** The sort key: the 24h change, 0 when the key is missing. */
  function ChangeKey(e: MarketEntry): real {
    e.change24h.GetOr(0.0)
  }

  /** `a` may precede `b` in the order: by descending change when `desc`
      (`reverse=True`), by ascending change otherwise. */
  predicate InOrder(desc: bool, a: MarketEntry, b: MarketEntry) {
    if desc then ChangeKey(a) >= ChangeKey(b) else ChangeKey(a) <= ChangeKey(b)
  }

  predicate Sorted(desc: bool, s: seq<MarketEntry>) {
    forall i, j :: 0 <= i < j < |s| ==> InOrder(desc, s[i], s[j])
  }

  /** Inserts `x` after every element that may precede it, so equal keys
      keep their original order. */
  function Insert(desc: bool, s: seq<MarketEntry>, x: MarketEntry): (r: seq<MarketEntry>)
    ensures multiset(r) == multiset(s) + multiset{x}
  {
    if s == [] then [x]
    else if InOrder(desc, s[0], x) then
      assert s == [s[0]] + s[1..];
      [s[0]] + Insert(desc, s[1..], x)
    else
      [x] + s
  }

  lemma {:induction false} InsertSorted(desc: bool, s: seq<MarketEntry>, x: MarketEntry)
    requires Sorted(desc, s)
    ensures Sorted(desc, Insert(desc, s, x))
  {
    if s != [] && InOrder(desc, s[0], x) {
      var rest := Insert(desc, s[1..], x);
      InsertSorted(desc, s[1..], x);
      assert InOrder(desc, s[0], rest[0]) by {
        if s[1..] != [] && InOrder(desc, s[1], x) {
          assert rest[0] == s[1];
        } else {
          assert rest[0] == x;
        }
      }
      var r := [s[0]] + rest;
      forall i, j | 0 <= i < j < |r|
        ensures InOrder(desc, r[i], r[j])
      {
        if i == 0 && j > 1 {
          assert InOrder(desc, rest[0], rest[j - 1]);
        }
      }
    }
  }

  /** Python's stable `sorted`, as an insertion sort. */
  function Sort(desc: bool, xs: seq<MarketEntry>): (r: seq<MarketEntry>)
    ensures multiset(r) == multiset(xs)
  {
    if xs == [] then []
    else
      assert xs == xs[..|xs| - 1] + [xs[|xs| - 1]];
      Insert(desc, Sort(desc, xs[..|xs| - 1]), xs[|xs| - 1])
  }

  lemma {:induction false} SortSorted(desc: bool, xs: seq<MarketEntry>)
    ensures Sorted(desc, Sort(desc, xs))
  {
    if xs != [] {
      SortSorted(desc, xs[..|xs| - 1]);
      InsertSorted(desc, Sort(desc, xs[..|xs| - 1]), xs[|xs| - 1]);
    }
  }

  /** One output entry of `get_top_gainers_losers`; the change is copied
      as fetched (None when missing), not the sort key. */
  datatype Mover = Mover(symbol: string, name: Option<string>, change24h: Option<real>, price: Option<real>)

  function MoverOf(e: MarketEntry): (m: Mover)
    ensures m.symbol == Upper(e.symbol) && m.name == e.name
    ensures m.change24h == e.change24h && m.price == e.currentPrice
  {
    Mover(Upper(e.symbol), e.name, e.change24h, e.currentPrice)
  }

  function Movers(es: seq<MarketEntry>): (r: seq<Mover>)
    ensures |r| == |es|
    ensures forall i :: 0 <= i < |es| ==> r[i] == MoverOf(es[i])
  {
    seq(|es|, i requires 0 <= i < |es| => MoverOf(es[i]))
  }

  datatype GainersLosers = GainersLosers(gainers: seq<Mover>, losers: seq<Mover>)

  /** The entries ranked first: `sorted(...)[:limit]`. */
  function Top(desc: bool, data: seq<MarketEntry>, limit: int): (r: seq<MarketEntry>)
    ensures |r| <= |data|
    ensures 0 <= limit ==> |r| == if limit < |data| then limit else |data|
    ensures forall i :: 0 <= i < |r| ==> r[i] in data
  {
    var all := Sort(desc, data);
    var r := Take(all, limit);
    assert forall i :: 0 <= i < |r| ==> r[i] == all[i] && all[i] in multiset(all);
    r
  }

  /** `get_top_gainers_losers` over the fetched list. */
  function TopGainersLosers(data: seq<MarketEntry>, limit: int): (r: GainersLosers)
    ensures data == [] ==> r == GainersLosers([], [])
    ensures r.gainers == Movers(Top(true, data, limit))
    ensures r.losers == Movers(Top(false, data, limit))
  {
    if data == [] then GainersLosers([], [])
    else GainersLosers(Movers(Top(true, data, limit)), Movers(Top(false, data, limit)))
  }

  /** The first `limit` entries (all of them if fewer) are ranked, in
      order, and none is outranked by an entry left out. The kept and the
      dropped entries together are exactly the fetched list. */
  lemma TopIsBest(desc: bool, data: seq<MarketEntry>, limit: nat)
    ensures var all := Sort(desc, data);
      var top := Top(desc, data, limit);
      && |top| == (if limit < |data| then limit else |data|)
      && Sorted(desc, top)
      && (forall i, j :: 0 <= i < |top| <= j < |all| ==> InOrder(desc, top[i], all[j]))
      && multiset(top) + multiset(all[|top|..]) == multiset(data)
  {
    var all := Sort(desc, data);
    var top := Top(desc, data, limit);
    SortSorted(desc, data);
    assert multiset(all) == multiset(data);
    assert |all| == |data| by {
      assert |multiset(all)| == |multiset(data)|;
    }
    assert top == all[..|top|];
    assert all == top + all[|top|..];
  }

  /** Every gainer's change is at least every excluded entry's change, and
      every loser's at most. */
  lemma GainersBeatTheRest(data: seq<MarketEntry>, limit: nat)
    ensures var all := Sort(true, data);
      var top := Top(true, data, limit);
      forall i, j :: 0 <= i < |top| <= j < |all| ==> ChangeKey(top[i]) >= ChangeKey(all[j])
    ensures var all := Sort(false, data);
      var top := Top(false, data, limit);
      forall i, j :: 0 <= i < |top| <= j < |all| ==> ChangeKey(top[i]) <= ChangeKey(all[j])
  {
    TopIsBest(true, data, limit);
    TopIsBest(false, data, limit);
  }

  // ---------------------------------------------------------------------
  // Trending coins and historical prices

  /** The `item` object of one trending entry (None when the key is
      missing, which reads as an empty object). */
  datatype TrendingItem = TrendingItem(symbol: Option<string>, name: Option<string>,
                                       marketCapRank: Option<int>, priceBtc: Option<real>)

  datatype TrendingCoin = TrendingCoin(symbol: Option<string>, name: Option<string>,
                                       marketCapRank: Option<int>, priceBtc: Option<real>)

  function TrendingOf(item: Option<TrendingItem>): (c: TrendingCoin)
    ensures item.None? ==> c == TrendingCoin(None, None, None, None)
    ensures item.Some? ==> c.symbol == item.value.symbol && c.name == item.value.name
                           && c.marketCapRank == item.value.marketCapRank && c.priceBtc == item.value.priceBtc
  {
    match item
    case None => TrendingCoin(None, None, None, None)
    case Some(i) => TrendingCoin(i.symbol, i.name, i.marketCapRank, i.priceBtc)
  }

  /** `get_trending_coins`: the first ten entries of the response's
      `coins` list, in order. */
  method GetTrendingCoins(coins: Option<seq<Option<TrendingItem>>>) returns (trending: seq<TrendingCoin>)
    ensures coins.None? ==> trending == []
    ensures coins.Some? ==> |trending| == (if |coins.value| < 10 then |coins.value| else 10)
    ensures coins.Some? ==> forall i :: 0 <= i < |trending| ==> trending[i] == TrendingOf(coins.value[i])
  {
    trending := [];
    if coins.None? {
      return;
    }
    var top := Take(coins.value, 10);
    var i := 0;
    while i < |top|
      invariant 0 <= i <= |top|
      invariant |trending| == i
      invariant forall k :: 0 <= k < i ==> trending[k] == TrendingOf(top[k])
    {
      trending := trending + [TrendingOf(top[i])];
      i := i + 1;
    }
  }

  /** One point of a price history: the time in seconds (the response gives
      milliseconds) and the price. */
  datatype PricePoint = PricePoint(seconds: real, price: real)

  /** `get_historical_prices`: nothing for an unknown symbol or a response
      without `prices`; otherwise one point per `[timestamp, price]` pair,
      in order. */
  method GetHistoricalPrices(symbol: string, prices: Option<seq<(real, real)>>) returns (points: seq<PricePoint>)
    ensures HistoricalRequest(symbol).None? || prices.None? ==> points == []
    ensures HistoricalRequest(symbol).Some? && prices.Some? ==>
              |points| == |prices.value|
              && forall i :: 0 <= i < |points| ==>
                   points[i] == PricePoint(prices.value[i].0 / 1000.0, prices.value[i].1)
  {
    points := [];
    if HistoricalRequest(symbol).None? || prices.None? {
      return;
    }
    var data := prices.value;
    var i := 0;
    while i < |data|
      invariant 0 <= i <= |data|
      invariant |points| == i
      invariant forall k :: 0 <= k < i ==> points[k] == PricePoint(data[k].0 / 1000.0, data[k].1)
    {
      var (timestamp, price) := data[i];
      points := points + [PricePoint(timestamp / 1000.0, price)];
      i := i + 1;
    }
  }
}
