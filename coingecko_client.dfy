/** domashna1/service/coingecko_client.py: the ranked coin list, page by page,
    and a coin's daily price history from a start date on. */
module CoinGecko {
  import opened Common
  import opened Calendar
  import opened Selection

  /** A record of the `/coins/markets` reply, field by field. */
  datatype RawCoin = RawCoin(
    id: Field<string>,
    symbol: Field<string>,
    name: Field<string>,
    marketCap: Field<Amount>,
    marketCapRank: Field<int>)

  /** The `/market_chart` reply: `[timestamp, price]` pairs under "prices" and the
      second element of each pair under "total_volumes" (a missing list is empty). */
  datatype Chart = Chart(prices: seq<(int, Amount)>, volumes: seq<Option<Amount>>)

  /** The CoinGecko REST API; `None` is a request that raised or answered with an
      error status.
      - `markets(perPage, page)`: one page of the ranking;
      - `chart(coinId)`: the full price history of a coin. */
  datatype GeckoApi = GeckoApi(
    markets: (int, int) -> Option<seq<RawCoin>>,
    chart: string -> Option<Chart>)

  /** A row of `fetch_daily_data`'s result. */
  datatype DailyRow = DailyRow(coinId: string, date: string, price: Amount, volume: Option<Amount>)

  // ---------------------------------------------------------------------------
  // get_top_coins

  /** The coins a page contributes: none when its request fails. */
  function PageOrEmpty(api: GeckoApi, perPage: int, page: int): seq<RawCoin>
  {
    match api.markets(perPage, page)
    case None => []
    case Some(coins) => coins
  }

  /** Pages 1 to `pages`, concatenated in page order. */
  function TopCoins(api: GeckoApi, perPage: int, pages: int): seq<RawCoin>
    decreases pages
  {
    if pages <= 0 then [] else TopCoins(api, perPage, pages - 1) + PageOrEmpty(api, perPage, pages)
  }

  /** Every coin of every page that was fetched is in the result. */
  lemma {:induction false} TopCoinsHasPage(api: GeckoApi, perPage: int, pages: int, page: int)
    requires 1 <= page <= pages && api.markets(perPage, page).Some?
    ensures forall c :: c in api.markets(perPage, page).value ==> c in TopCoins(api, perPage, pages)
    decreases pages
  {
    if page < pages {
      TopCoinsHasPage(api, perPage, pages - 1, page);
    }
  }

  /** With pages of at most `perPage` coins, at most `perPage * pages` coins come back. */
  lemma {:induction false} TopCoinsBound(api: GeckoApi, perPage: int, pages: int)
    requires perPage >= 0
    requires forall p :: api.markets(perPage, p).Some? ==> |api.markets(perPage, p).value| <= perPage
    ensures |TopCoins(api, perPage, pages)| <= if pages <= 0 then 0 else perPage * pages
    decreases pages
  {
    if pages > 0 {
      TopCoinsBound(api, perPage, pages - 1);
      assert |PageOrEmpty(api, perPage, pages)| <= perPage;
      MulStep(perPage, pages - 1);
    }
  }

  /** One more page adds `perPage` to the bound. */
  lemma MulStep(a: int, b: int)
    ensures a * (b + 1) == a * b + a
  {
  }

  // ---------------------------------------------------------------------------
  // fetch_daily_data

  /** Every price timestamp of the first `n` points can be dated. */
  predicate DatedUpTo(prices: seq<(int, Amount)>, n: nat)
    requires n <= |prices|
  {
    forall k :: 0 <= k < n ==> DatedAt(prices, k)
  }

  /** The `k`-th price timestamp can be dated. */
  predicate DatedAt(prices: seq<(int, Amount)>, k: nat)
    requires k < |prices|
  {
    DateOfMs(prices[k].0).Ok?
  }

  /** A price point on or after the start day. */
  function OnOrAfter(startDay: int): ((int, Amount)) -> bool
  {
    (pt: (int, Amount)) => pt.0 / MsPerDay >= startDay
  }

  /** The row built from the `i`-th price: its date, the price, and the volume at
      the same position when the volume list is long enough. */
  function RowAt(coinId: string, chart: Chart, i: nat): DailyRow
    requires i < |chart.prices| && DatedAt(chart.prices, i)
  {
    DailyRow(coinId, DateOfMs(chart.prices[i].0).value, chart.prices[i].1,
             if i < |chart.volumes| then chart.volumes[i] else None)
  }

  /** The rows built from the first `n` prices, skipping those before the start. */
  function DailyPrefix(coinId: string, chart: Chart, startDay: int, n: nat): seq<DailyRow>
    requires n <= |chart.prices| && DatedUpTo(chart.prices, n)
  {
    if n == 0 then []
    else DailyPrefix(coinId, chart, startDay, n - 1) +
         (if OnOrAfter(startDay)(chart.prices[n - 1]) then [RowAt(coinId, chart, n - 1)] else [])
  }

  /** One more price: its row is appended when it is on or after the start day. */
  lemma DailyPrefixStep(coinId: string, chart: Chart, startDay: int, i: nat, day: int)
    requires i < |chart.prices| && DatedUpTo(chart.prices, i) && DayOfMs(chart.prices[i].0) == Ok(day)
    ensures DatedUpTo(chart.prices, i + 1)
    ensures DailyPrefix(coinId, chart, startDay, i + 1) ==
        DailyPrefix(coinId, chart, startDay, i) + (if day >= startDay then [RowAt(coinId, chart, i)] else [])
  {
    assert DatedAt(chart.prices, i);
  }

  /** `fetch_daily_data` as a function of the reply: nothing for a failed request
      or an empty price list; an undatable timestamp raises; otherwise the rows. */
  function DailyData(api: GeckoApi, coinId: string, start: Date): Result<seq<DailyRow>>
    requires ValidDate(start)
  {
    match api.chart(coinId)
    case None => Ok([])
    case Some(chart) =>
      if chart.prices == [] then Ok([])
      else if !DatedUpTo(chart.prices, |chart.prices|) then Err(ValueError)
      else Ok(DailyPrefix(coinId, chart, DayNumber(start), |chart.prices|))
  }

  /** Row `k` is the row built from the price at the `k`-th kept position. */
  predicate RowsMatch(coinId: string, chart: Chart, rows: seq<DailyRow>, kept: seq<nat>)
  {
    |rows| == |kept| &&
    forall k :: 0 <= k < |kept| ==>
      kept[k] < |chart.prices| && DatedAt(chart.prices, kept[k]) && rows[k] == RowAt(coinId, chart, kept[k])
  }

  /** The rows are exactly those of the prices on or after the start day, in
      their order, each with the volume at the price's own position. */
  lemma {:induction false} DailyPrefixKept(coinId: string, chart: Chart, startDay: int, n: nat)
    requires n <= |chart.prices| && DatedUpTo(chart.prices, n)
    ensures RowsMatch(coinId, chart, DailyPrefix(coinId, chart, startDay, n), Kept(chart.prices[..n], OnOrAfter(startDay)))
  {
    if n > 0 {
      DailyPrefixKept(coinId, chart, startDay, n - 1);
      KeptStep(coinId, chart, startDay, n);
    }
  }

  /** One more price extends the matched rows and positions together. */
  lemma KeptStep(coinId: string, chart: Chart, startDay: int, n: nat)
    requires 0 < n <= |chart.prices| && DatedUpTo(chart.prices, n)
    requires RowsMatch(coinId, chart, DailyPrefix(coinId, chart, startDay, n - 1), Kept(chart.prices[..n - 1], OnOrAfter(startDay)))
    ensures RowsMatch(coinId, chart, DailyPrefix(coinId, chart, startDay, n), Kept(chart.prices[..n], OnOrAfter(startDay)))
  {
    KeptPrefix(chart.prices, n, OnOrAfter(startDay));
    if OnOrAfter(startDay)(chart.prices[n - 1]) {
      AppendMatch(coinId, chart, DailyPrefix(coinId, chart, startDay, n - 1), Kept(chart.prices[..n - 1], OnOrAfter(startDay)), n - 1);
    }
  }

  /** Appending a matching row and position keeps rows and positions matched. */
  lemma AppendMatch(coinId: string, chart: Chart, rows: seq<DailyRow>, kept: seq<nat>, i: nat)
    requires i < |chart.prices| && DatedAt(chart.prices, i)
    requires RowsMatch(coinId, chart, rows, kept)
    ensures RowsMatch(coinId, chart, rows + [RowAt(coinId, chart, i)], kept + [i])
  {
  }

  /** The result of `fetch_daily_data`, when it succeeds, holds one row for each
      price dated on or after the start day and no other, in the reply's order,
      each dated on or after the start day. */
  lemma DailyDataExact(api: GeckoApi, coinId: string, start: Date)
    requires ValidDate(start) && api.chart(coinId).Some?
    requires DailyData(api, coinId, start).Ok?
    ensures var chart := api.chart(coinId).value;
      var kept := Kept(chart.prices, OnOrAfter(DayNumber(start)));
      var rows := DailyData(api, coinId, start).value;
      |rows| == |kept| &&
      (forall k :: 0 <= k < |kept| ==> DatedAt(chart.prices, kept[k]) && rows[k] == RowAt(coinId, chart, kept[k])) &&
      (forall i :: 0 <= i < |chart.prices| ==> (i in kept <==> chart.prices[i].0 / MsPerDay >= DayNumber(start)))
  {
    var chart := api.chart(coinId).value;
    if chart.prices != [] {
      assert chart.prices[..|chart.prices|] == chart.prices;
      DailyPrefixKept(coinId, chart, DayNumber(start), |chart.prices|);
    }
  }

  /** `CoinGeckoClient()`: it holds no state beyond the base URL. */
  datatype CoinGeckoClient = CoinGeckoClient
  {
    /** `get_top_coins`: asks for pages 1 to `pages` in order, skipping any page
        whose request fails, and concatenates the rest. */
    method GetTopCoins(api: GeckoApi, perPage: int := 250, pages: int := 4)
      returns (allCoins: seq<RawCoin>, requested: seq<int>)
      ensures allCoins == TopCoins(api, perPage, pages)
      ensures |requested| == (if pages <= 0 then 0 else pages)
      ensures forall k :: 0 <= k < |requested| ==> requested[k] == k + 1
    {
      allCoins := [];
      requested := [];
      var page := 1;
      while page < pages + 1
        invariant 1 <= page && (pages >= 1 ==> page <= pages + 1) && (pages < 1 ==> page == 1)
        invariant allCoins == TopCoins(api, perPage, page - 1)
        invariant |requested| == page - 1 && forall k :: 0 <= k < |requested| ==> requested[k] == k + 1
      {
        requested := requested + [page];
        var reply := api.markets(perPage, page);
        if reply.Some? {
          allCoins := allCoins + reply.value;
        }
        page := page + 1;
      }
    }

    /** One pass of the loop of `fetch_daily_data`: the `i`-th price is dated,
        and its row is appended when it is on or after the start day. */
    method AppendPrice(coinId: string, chart: Chart, startDay: int, i: nat, rows: seq<DailyRow>) returns (r: Result<seq<DailyRow>>)
      requires i < |chart.prices| && DatedUpTo(chart.prices, i)
      requires rows == DailyPrefix(coinId, chart, startDay, i)
      ensures DatedAt(chart.prices, i) ==> DatedUpTo(chart.prices, i + 1) && r == Ok(DailyPrefix(coinId, chart, startDay, i + 1))
      ensures !DatedAt(chart.prices, i) ==> r == Err(ValueError)
    {
      var day := DayOfMs(chart.prices[i].0);
      if day.Err? {
        assert !DatedAt(chart.prices, i);
        return Err(day.error);
      }
      assert DatedAt(chart.prices, i);
      DailyPrefixStep(coinId, chart, startDay, i, day.value);
      if day.value >= startDay {
        var volume := if i < |chart.volumes| then chart.volumes[i] else None;
        return Ok(rows + [DailyRow(coinId, DateOfMs(chart.prices[i].0).value, chart.prices[i].1, volume)]);
      }
      assert rows + [] == rows;
      return Ok(rows);
    }

    /** The loop of `fetch_daily_data` over a non-empty reply. */
    method ChartRows(coinId: string, chart: Chart, start: Date) returns (r: Result<seq<DailyRow>>)
      requires ValidDate(start)
      ensures DatedUpTo(chart.prices, |chart.prices|) ==> r == Ok(DailyPrefix(coinId, chart, DayNumber(start), |chart.prices|))
      ensures !DatedUpTo(chart.prices, |chart.prices|) ==> r == Err(ValueError)
    {
      var rows: seq<DailyRow> := [];
      var i := 0;
      while i < |chart.prices|
        invariant 0 <= i <= |chart.prices| && DatedUpTo(chart.prices, i)
        invariant rows == DailyPrefix(coinId, chart, DayNumber(start), i)
      {
        var next := AppendPrice(coinId, chart, DayNumber(start), i, rows);
        if next.Err? {
          return next;
        }
        rows := next.value;
        i := i + 1;
      }
      r := Ok(rows);
    }

    /** `fetch_daily_data`: the coin's daily rows from the start day on. */
    method FetchDailyData(api: GeckoApi, coinId: string, start: Date) returns (r: Result<seq<DailyRow>>)
      requires ValidDate(start)
      ensures r == DailyData(api, coinId, start)
    {
      var reply := api.chart(coinId);
      if reply.None? || reply.value.prices == [] {
        return Ok([]);
      }
      r := ChartRows(coinId, reply.value, start);
    }
  }
}
