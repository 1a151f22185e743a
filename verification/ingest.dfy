/**
  The ingest server (backend/server1.js): for every symbol of a fixed
  watch-list it takes the provider's daily series and inserts each day's
  bar only when no bar with the same (symbol, date) is stored yet.
  The provider's answer for a symbol is a parameter: `None` when the reply
  has no 'Time Series (Daily)' member or the request failed.
 */
module Ingest {
  import opened Wrappers
  import opened StockBars
  import Server

  /** One day of the provider's series, its values already parsed (prices in cents). */
  datatype DailyEntry = DailyEntry(date: string, open: int, high: int, low: int, close: int, volume: int)

  /** The `topStocks` list, in order (23 symbols). */
  const TopStocks: seq<string> := [
    "GOOGL", "AMZN", "FB",
    "TSLA", "NVDA", "BRK.B", "JPM", "JNJ",
    "V", "PG", "UNH", "HD", "MA",
    "DIS", "PYPL", "ADBE", "CMCSA", "NFLX",
    "KO", "VZ", "PFE", "MRK", "ABT"
  ]

  function ToBar(symbol: string, d: DailyEntry): StockBar
  {
    StockBar(symbol, d.date, d.open, d.high, d.low, d.close, d.volume)
  }

  /** One iteration of the loop: insert the day's bar if its key is absent. */
  function StoreDay(bars: seq<StockBar>, symbol: string, d: DailyEntry): seq<StockBar>
  {
    if HasKey(bars, symbol, d.date) then bars else bars + [ToBar(symbol, d)]
  }

  /** The whole loop over a series, in the series' order. */
  function StoreSeries(bars: seq<StockBar>, symbol: string, series: seq<DailyEntry>): seq<StockBar>
    decreases |series|
  {
    if series == [] then bars else StoreSeries(StoreDay(bars, symbol, series[0]), symbol, series[1..])
  }

  /** fetchAndStoreHistoricData for one symbol, given the provider's answer. */
  function StoreResponse(bars: seq<StockBar>, symbol: string, response: Option<seq<DailyEntry>>): seq<StockBar>
  {
    if response.None? then bars else StoreSeries(bars, symbol, response.value)
  }

  /** The load-top-stocks loop: one symbol after another, in list order. */
  function LoadAll(bars: seq<StockBar>, symbols: seq<string>, fetch: string -> Option<seq<DailyEntry>>): seq<StockBar>
    decreases |symbols|
  {
    if symbols == [] then bars else LoadAll(StoreResponse(bars, symbols[0], fetch(symbols[0])), symbols[1..], fetch)
  }

  /** Rows are only appended: the stored bars before a step are a prefix after it. */
  lemma {:induction false} StoreSeriesAppends(bars: seq<StockBar>, symbol: string, series: seq<DailyEntry>)
    ensures var r := StoreSeries(bars, symbol, series);
            |bars| <= |r| && r[..|bars|] == bars
    decreases |series|
  {
    if series != [] {
      var next := StoreDay(bars, symbol, series[0]);
      StoreSeriesAppends(next, symbol, series[1..]);
      assert next[..|bars|] == bars;
    }
  }

  /** Every appended bar belongs to the symbol and to a date of the series. */
  lemma {:induction false} StoreSeriesAddsOnlySeries(bars: seq<StockBar>, symbol: string, series: seq<DailyEntry>)
    ensures var r := StoreSeries(bars, symbol, series);
            forall k :: |bars| <= k < |r| ==>
              r[k].symbol == symbol && exists d :: d in series && r[k] == ToBar(symbol, d)
    decreases |series|
  {
    if series != [] {
      var next := StoreDay(bars, symbol, series[0]);
      StoreSeriesAddsOnlySeries(next, symbol, series[1..]);
      StoreSeriesAppends(next, symbol, series[1..]);
      var r := StoreSeries(bars, symbol, series);
      forall k | |bars| <= k < |r|
        ensures r[k].symbol == symbol && exists d :: d in series && r[k] == ToBar(symbol, d)
      {
        if k < |next| {
          assert r[k] == next[k] == ToBar(symbol, series[0]);
          assert series[0] in series;
        } else {
          var d :| d in series[1..] && r[k] == ToBar(symbol, d);
          assert d in series;
        }
      }
    }
  }

  lemma {:induction false} StoreDayKeepsUnique(bars: seq<StockBar>, symbol: string, d: DailyEntry)
    requires UniqueKeys(bars)
    ensures UniqueKeys(StoreDay(bars, symbol, d))
    ensures HasKey(StoreDay(bars, symbol, d), symbol, d.date)
  {
    if !HasKey(bars, symbol, d.date) {
      var r := bars + [ToBar(symbol, d)];
      assert r[|bars|].symbol == symbol && r[|bars|].date == d.date;
    }
  }

  /** Unique (symbol, date) keys before a run are unique after it. */
  lemma {:induction false} StoreSeriesKeepsUnique(bars: seq<StockBar>, symbol: string, series: seq<DailyEntry>)
    requires UniqueKeys(bars)
    ensures UniqueKeys(StoreSeries(bars, symbol, series))
    decreases |series|
  {
    if series != [] {
      StoreDayKeepsUnique(bars, symbol, series[0]);
      StoreSeriesKeepsUnique(StoreDay(bars, symbol, series[0]), symbol, series[1..]);
    }
  }

  lemma HasKeyPrefix(bars: seq<StockBar>, r: seq<StockBar>, symbol: string, date: string)
    requires |bars| <= |r| && r[..|bars|] == bars
    requires HasKey(bars, symbol, date)
    ensures HasKey(r, symbol, date)
  {
    var i :| 0 <= i < |bars| && bars[i].symbol == symbol && bars[i].date == date;
    assert r[i] == bars[i];
  }

  /** After the run every date of the series has a stored bar for (symbol, date). */
  lemma {:induction false} StoreSeriesCoversSeries(bars: seq<StockBar>, symbol: string, series: seq<DailyEntry>)
    ensures forall d :: d in series ==> HasKey(StoreSeries(bars, symbol, series), symbol, d.date)
    decreases |series|
  {
    if series != [] {
      var next := StoreDay(bars, symbol, series[0]);
      var r := StoreSeries(bars, symbol, series);
      StoreSeriesCoversSeries(next, symbol, series[1..]);
      StoreSeriesAppends(next, symbol, series[1..]);
      if !HasKey(bars, symbol, series[0].date) {
        assert next[|bars|].symbol == symbol && next[|bars|].date == series[0].date;
      }
      HasKeyPrefix(next, r, symbol, series[0].date);
      forall d | d in series
        ensures HasKey(r, symbol, d.date)
      {
        if d != series[0] {
          assert d in series[1..];
        }
      }
    }
  }

  /** A bar whose key was stored already is neither modified nor duplicated. */
  lemma ExistingBarsUntouched(bars: seq<StockBar>, symbol: string, series: seq<DailyEntry>, i: nat)
    requires UniqueKeys(bars)
    requires i < |bars|
    ensures var r := StoreSeries(bars, symbol, series);
            && i < |r| && r[i] == bars[i]
            && forall j :: 0 <= j < |r| && j != i ==> r[j].symbol != bars[i].symbol || r[j].date != bars[i].date
  {
    StoreSeriesAppends(bars, symbol, series);
    StoreSeriesKeepsUnique(bars, symbol, series);
  }

  /** Loading a list of symbols is loading its first part, then the rest: one at a time, in order. */
  lemma {:induction false} LoadAllInOrder(bars: seq<StockBar>, s1: seq<string>, s2: seq<string>, fetch: string -> Option<seq<DailyEntry>>)
    ensures LoadAll(bars, s1 + s2, fetch) == LoadAll(LoadAll(bars, s1, fetch), s2, fetch)
    decreases |s1|
  {
    if s1 != [] {
      assert (s1 + s2)[0] == s1[0];
      assert (s1 + s2)[1..] == s1[1..] + s2;
      LoadAllInOrder(StoreResponse(bars, s1[0], fetch(s1[0])), s1[1..], s2, fetch);
    } else {
      assert s1 + s2 == s2;
    }
  }

  lemma {:induction false} LoadAllKeepsUnique(bars: seq<StockBar>, symbols: seq<string>, fetch: string -> Option<seq<DailyEntry>>)
    requires UniqueKeys(bars)
    ensures UniqueKeys(LoadAll(bars, symbols, fetch))
    decreases |symbols|
  {
    if symbols != [] {
      var resp := fetch(symbols[0]);
      if resp.Some? {
        StoreSeriesKeepsUnique(bars, symbols[0], resp.value);
      }
      LoadAllKeepsUnique(StoreResponse(bars, symbols[0], resp), symbols[1..], fetch);
    }
  }

  lemma {:induction false} LoadAllAppends(bars: seq<StockBar>, symbols: seq<string>, fetch: string -> Option<seq<DailyEntry>>)
    ensures var r := LoadAll(bars, symbols, fetch);
            |bars| <= |r| && r[..|bars|] == bars
    decreases |symbols|
  {
    if symbols != [] {
      var resp := fetch(symbols[0]);
      var next := StoreResponse(bars, symbols[0], resp);
      if resp.Some? {
        StoreSeriesAppends(bars, symbols[0], resp.value);
      }
      LoadAllAppends(next, symbols[1..], fetch);
      var r := LoadAll(bars, symbols, fetch);
      assert r[..|bars|] == r[..|next|][..|bars|];
    }
  }

  /**
    fetchAndStoreHistoricData: the lookup-then-save loop over the series,
    run against the shared `stocks` collection.
   */
  method FetchAndStoreHistoricData(store: Server.Store, symbol: string, response: Option<seq<DailyEntry>>)
    requires store.Valid()
    modifies store
    ensures store.Valid()
    ensures store.stocks == StoreResponse(old(store.stocks), symbol, response)
    ensures response.None? ==> store.stocks == old(store.stocks)
    ensures response.Some? ==> forall d :: d in response.value ==> HasKey(store.stocks, symbol, d.date)
    ensures |old(store.stocks)| <= |store.stocks| && store.stocks[..|old(store.stocks)|] == old(store.stocks)
    ensures store.users == old(store.users) && store.transactions == old(store.transactions)
  {
    if response.None? {
      return;
    }
    var timeSeries := response.value;
    var i := 0;
    while i < |timeSeries|
      invariant 0 <= i <= |timeSeries|
      invariant store.Valid()
      invariant StoreSeries(store.stocks, symbol, timeSeries[i..]) == StoreSeries(old(store.stocks), symbol, timeSeries)
      invariant store.users == old(store.users) && store.transactions == old(store.transactions)
    {
      var dailyData := timeSeries[i];
      StoreDayKeepsUnique(store.stocks, symbol, dailyData);
      if !HasKey(store.stocks, symbol, dailyData.date) {
        store.stocks := store.stocks + [ToBar(symbol, dailyData)];
      }
      assert timeSeries[i..][1..] == timeSeries[i + 1..];
      i := i + 1;
    }
    assert timeSeries[i..] == [];
    StoreSeriesCoversSeries(old(store.stocks), symbol, timeSeries);
    StoreSeriesAppends(old(store.stocks), symbol, timeSeries);
  }

  /** GET /api/load-top-stocks: the watch-list, one symbol at a time, in order. */
  method LoadTopStocks(store: Server.Store, fetch: string -> Option<seq<DailyEntry>>)
    requires store.Valid()
    modifies store
    ensures store.Valid()
    ensures store.stocks == LoadAll(old(store.stocks), TopStocks, fetch)
    ensures store.users == old(store.users) && store.transactions == old(store.transactions)
  {
    var i := 0;
    while i < |TopStocks|
      invariant 0 <= i <= |TopStocks|
      invariant store.Valid()
      invariant LoadAll(store.stocks, TopStocks[i..], fetch) == LoadAll(old(store.stocks), TopStocks, fetch)
      invariant store.users == old(store.users) && store.transactions == old(store.transactions)
    {
      var symbol := TopStocks[i];
      FetchAndStoreHistoricData(store, symbol, fetch(symbol));
      assert TopStocks[i..][1..] == TopStocks[i + 1..];
      i := i + 1;
    }
  }
}
