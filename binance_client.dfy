/** domashna1/service/binance_client.py: the list of trading pairs Binance
    supports (read from a cache file or the exchange-info endpoint), paginated
    daily candles, and the 24-hour ticker. */
module Binance {
  import opened Common
  import opened Text
  import opened Calendar
  import opened Db

  /** A daily candle as the klines endpoint returns it (open time in ms). */
  datatype Kline = Kline(openTime: int, open: Amount, high: Amount, low: Amount, close: Amount, volume: Amount)

  /** The Binance REST API as the client sees it. `None` is a request that raised
      or answered with an error status.
      - `exchangeInfo`: the "symbol" entry of each record under "symbols" (`None`
        for a record without one; a reply without "symbols" is the empty list);
      - `klines(pair, startTime)`: one page of daily candles from `startTime` on;
      - `ticker(pair)`: the 24-hour statistics object. */
  datatype BinanceApi = BinanceApi(
    exchangeInfo: Option<seq<Option<string>>>,
    klines: (string, int) -> Option<seq<Kline>>,
    ticker: string -> Option<map<string, Amount>>)

  /** What the endpoint guarantees and the pagination relies on: a page asked for
      from `startTime` holds no candle that opened before it. */
  ghost predicate KlinesFromCursor(api: BinanceApi)
  {
    forall pair: string, start: int ::
      api.klines(pair, start).Some? ==>
        forall k :: 0 <= k < |api.klines(pair, start).value| ==> api.klines(pair, start).value[k].openTime >= start
  }

  /** The cache file `binance_symbols.json`: absent, unreadable (or not a JSON
      list), or the set of pairs its JSON list holds. */
  datatype CacheFile = Absent | Unreadable | Cached(pairs: set<string>)

  /** What `_load_supported_pairs` leaves behind: the pairs, the cache file
      afterwards, and whether it asked the exchange-info endpoint. */
  datatype Loaded = Loaded(pairs: set<string>, cache: CacheFile, requested: bool)

  /** `_load_supported_pairs`: a readable cache wins; otherwise the exchange-info
      endpoint is asked (a failed request gives the empty set and writes nothing),
      and its pairs are written back to the cache unless writing fails. A record
      without a "symbol" entry raises `KeyError` out of the constructor. */
  function LoadSupportedPairs(cache: CacheFile, info: Option<seq<Option<string>>>, writeFails: bool): (r: Result<Loaded>)
    ensures cache.Cached? ==> r == Ok(Loaded(cache.pairs, cache, false))
    ensures !cache.Cached? && info.None? ==> r == Ok(Loaded({}, cache, true))
    ensures !cache.Cached? && info.Some? ==>
              (r.Err? <==> exists i :: 0 <= i < |info.value| && info.value[i].None?)
    ensures r.Err? ==> r.error == KeyError("symbol")
    ensures !cache.Cached? && r.Ok? && info.Some? ==>
              r.value.requested &&
              (forall p :: p in r.value.pairs <==> exists i :: 0 <= i < |info.value| && info.value[i] == Some(p)) &&
              r.value.cache == (if writeFails then cache else Cached(r.value.pairs))
  {
    if cache.Cached? then Ok(Loaded(cache.pairs, cache, false))
    else match info
      case None => Ok(Loaded({}, cache, true))
      case Some(records) =>
        if exists i :: 0 <= i < |records| && records[i].None? then Err(KeyError("symbol"))
        else
          var pairs := set i | 0 <= i < |records| :: records[i].value;
          Ok(Loaded(pairs, if writeFails then cache else Cached(pairs), true))
  }

  /** Once the pairs have been written to the cache, the next client reads the
      same pairs from it and never asks the endpoint. */
  lemma CacheRoundTrip(cache: CacheFile, info: Option<seq<Option<string>>>, info': Option<seq<Option<string>>>, w: bool)
    requires LoadSupportedPairs(cache, info, false).Ok?
    requires info.Some? || cache.Cached?
    ensures var first := LoadSupportedPairs(cache, info, false).value;
            LoadSupportedPairs(first.cache, info', w) == Ok(Loaded(first.pairs, first.cache, false))
  {
  }

  /** A second client built after one that loaded its pairs loads the same pairs:
      from the cache the first one wrote, or, when nothing was written, from the
      same endpoint again. */
  lemma ReloadSucceeds(cache: CacheFile, info: Option<seq<Option<string>>>, w: bool)
    requires LoadSupportedPairs(cache, info, w).Ok?
    ensures var first := LoadSupportedPairs(cache, info, w).value;
            LoadSupportedPairs(first.cache, info, w).Ok? && LoadSupportedPairs(first.cache, info, w).value.pairs == first.pairs
  {
  }

  /** A history row built from a candle: `float` of each price, the candle's UTC
      date as `%Y-%m-%d`, and the base symbol. `utcfromtimestamp` raises for a
      time outside years 1 to 9999. */
  function RowOf(base: string, k: Kline): Result<HistoryRow>
  {
    match DateOfMs(k.openTime)
    case Err(e) => Err(e)
    case Ok(date) => Ok(HistoryRow(base, date, k.open, k.high, k.low, k.close, k.volume))
  }

  predicate PageDated(page: seq<Kline>)
  {
    forall k :: 0 <= k < |page| ==> DateOfMs(page[k].openTime).Ok?
  }

  /** The rows of one page, in page order, or the error of the first candle that
      cannot be dated. */
  function RowsOf(base: string, page: seq<Kline>): (r: Result<seq<HistoryRow>>)
    ensures r.Ok? <==> PageDated(page)
    ensures r.Err? ==> r.error == ValueError
    ensures r.Ok? ==> |r.value| == |page|
    ensures r.Ok? ==> forall k :: 0 <= k < |page| ==> Ok(r.value[k]) == RowOf(base, page[k])
  {
    if PageDated(page) then Ok(seq(|page|, k requires 0 <= k < |page| => RowOf(base, page[k]).value))
    else
      var k :| 0 <= k < |page| && DateOfMs(page[k].openTime).Err?;
      Err(DateOfMs(page[k].openTime).error)
  }

  /** The outcome of paging: the rows (or the escaping error) and the start
      times of the requests made, in order. */
  datatype Fetched = Fetched(rows: Result<seq<HistoryRow>>, cursors: seq<int>)

  /** `rows` and `cursors` already collected, followed by what is fetched next. */
  function Then(rows: seq<HistoryRow>, cursors: seq<int>, next: Fetched): Fetched
  {
    Fetched(if next.rows.Ok? then Ok(rows + next.rows.value) else next.rows, cursors + next.cursors)
  }

  /** The pagination of `fetch_ohlcv` from `cursor` on, as a recursion on the
      cursor: ask for a page while the cursor is before now; stop at a failed or
      empty page; otherwise keep its rows and continue one day after its last
      candle. */
  function Paginate(api: BinanceApi, pair: string, cursor: int, nowMs: int): Fetched
    requires KlinesFromCursor(api)
    decreases nowMs - cursor
  {
    if cursor >= nowMs then Fetched(Ok([]), [])
    else match api.klines(pair, cursor)
      case None => Fetched(Ok([]), [cursor])
      case Some(page) =>
        if page == [] then Fetched(Ok([]), [cursor])
        else match RowsOf(StripUsdt(pair), page)
          case Err(e) => Fetched(Err(e), [cursor])
          case Ok(rows) =>
            assert page[|page| - 1].openTime >= cursor;
            Then(rows, [cursor], Paginate(api, pair, NextCursor(page), nowMs))
  }

  /** The day after a page's last candle, where the next request starts. */
  function NextCursor(page: seq<Kline>): int
    requires page != []
  {
    page[|page| - 1].openTime + MsPerDay
  }

  /** One step of the pagination: a non-empty, datable page is followed by the
      pages from the day after its last candle. */
  lemma PaginateStep(api: BinanceApi, pair: string, cursor: int, nowMs: int)
    requires KlinesFromCursor(api) && cursor < nowMs
    requires api.klines(pair, cursor).Some? && api.klines(pair, cursor).value != []
    requires RowsOf(StripUsdt(pair), api.klines(pair, cursor).value).Ok?
    ensures NextCursor(api.klines(pair, cursor).value) >= cursor + MsPerDay
    ensures Paginate(api, pair, cursor, nowMs) ==
              Then(RowsOf(StripUsdt(pair), api.klines(pair, cursor).value).value, [cursor],
                   Paginate(api, pair, NextCursor(api.klines(pair, cursor).value), nowMs))
  {
    var p := api.klines(pair, cursor).value;
    assert p[|p| - 1].openTime >= cursor;
  }

  /** A paging step that makes one request and nothing more. */
  predicate Stops(api: BinanceApi, pair: string, cursor: int)
  {
    match api.klines(pair, cursor)
    case None => true
    case Some(page) => page == [] || RowsOf(StripUsdt(pair), page).Err?
  }

  /** A step that makes one request and no more: a failed or empty page ends
      the paging, and an undatable candle raises. */
  lemma PaginateStops(api: BinanceApi, pair: string, cursor: int, nowMs: int)
    requires KlinesFromCursor(api) && cursor < nowMs && Stops(api, pair, cursor)
    ensures Paginate(api, pair, cursor, nowMs) ==
              Fetched(if api.klines(pair, cursor).Some? && api.klines(pair, cursor).value != [] then Err(ValueError) else Ok([]),
                      [cursor])
  {
  }

  lemma ThenNothing(f: Fetched)
    ensures Then([], [], f) == f
    ensures f.rows.Ok? ==> Then(f.rows.value, f.cursors, Fetched(Ok([]), [])) == f
  {
    assert [] + f.cursors == f.cursors;
    assert f.cursors + [] == f.cursors;
    if f.rows.Ok? {
      assert [] + f.rows.value == f.rows.value;
      assert f.rows.value + [] == f.rows.value;
    }
  }

  lemma ThenLast(rows: seq<HistoryRow>, cursors: seq<int>, c: int, last: Result<seq<HistoryRow>>)
    requires last == Ok([]) || last.Err?
    ensures Then(rows, cursors, Fetched(last, [c])) == Fetched(if last.Ok? then Ok(rows) else last, cursors + [c])
  {
    if last.Ok? {
      assert rows + [] == rows;
    }
  }

  lemma ThenAssociates(rows: seq<HistoryRow>, cursors: seq<int>, page: seq<HistoryRow>, c: int, rest: Fetched)
    ensures Then(rows, cursors, Then(page, [c], rest)) == Then(rows + page, cursors + [c], rest)
  {
    assert cursors + ([c] + rest.cursors) == cursors + [c] + rest.cursors;
    if rest.rows.Ok? {
      assert rows + (page + rest.rows.value) == rows + page + rest.rows.value;
    }
  }

  /** The rows appended for a page are the page's rows. */
  lemma AppendedPage(prior: seq<HistoryRow>, results: seq<HistoryRow>, base: string, page: seq<Kline>)
    requires |results| == |prior| + |page| && results[..|prior|] == prior
    requires forall k :: 0 <= k < |page| ==> Ok(results[|prior| + k]) == RowOf(base, page[k])
    ensures RowsOf(base, page).Ok? && results == prior + RowsOf(base, page).value
  {
    assert PageDated(page) by {
      forall k | 0 <= k < |page| ensures DateOfMs(page[k].openTime).Ok? {
        assert RowOf(base, page[k]).Ok?;
      }
    }
    var rows := RowsOf(base, page).value;
    assert forall k :: 0 <= k < |page| ==> results[|prior| + k] == rows[k];
    assert results == prior + rows;
  }

  /** Every request starts at or after the first cursor and before now, each one
      at least a day after the one before. */
  lemma {:induction false} CursorsAdvance(api: BinanceApi, pair: string, cursor: int, nowMs: int)
    requires KlinesFromCursor(api)
    ensures var cs := Paginate(api, pair, cursor, nowMs).cursors;
      (forall i :: 0 <= i < |cs| ==> cursor <= cs[i] < nowMs) &&
      (forall i, j :: 0 <= i < j < |cs| ==> cs[i] + MsPerDay * (j - i) <= cs[j]) &&
      (cs != [] ==> cs[0] == cursor)
    decreases nowMs - cursor
  {
    if cursor < nowMs && !Stops(api, pair, cursor) {
      var p := api.klines(pair, cursor).value;
      PaginateStep(api, pair, cursor, nowMs);
      var next := NextCursor(p);
      CursorsAdvance(api, pair, next, nowMs);
      var rest := Paginate(api, pair, next, nowMs).cursors;
      var cs := Paginate(api, pair, cursor, nowMs).cursors;
      assert cs == [cursor] + rest;
      Spaced(cursor, rest, cs);
    }
  }

  /** Putting a cursor at least a day before a spaced sequence keeps it spaced. */
  lemma Spaced(c: int, rest: seq<int>, cs: seq<int>)
    requires cs == [c] + rest
    requires rest != [] ==> rest[0] >= c + MsPerDay
    requires forall i, j :: 0 <= i < j < |rest| ==> rest[i] + MsPerDay * (j - i) <= rest[j]
    ensures forall i, j :: 0 <= i < j < |cs| ==> cs[i] + MsPerDay * (j - i) <= cs[j]
  {
    forall i, j | 0 <= i < j < |cs| ensures cs[i] + MsPerDay * (j - i) <= cs[j] {
      if i == 0 {
        assert cs[j] == rest[j - 1];
        if j > 1 {
          assert rest[0] + MsPerDay * (j - 1) <= rest[j - 1];
        }
      } else {
        assert cs[i] == rest[i - 1] && cs[j] == rest[j - 1];
      }
    }
  }

  /** There are at most as many requests as days in the window. */
  lemma RequestCount(api: BinanceApi, pair: string, cursor: int, nowMs: int)
    requires KlinesFromCursor(api)
    ensures |Paginate(api, pair, cursor, nowMs).cursors| <=
              if cursor >= nowMs then 0 else (nowMs - cursor - 1) / MsPerDay + 1
  {
    CursorsAdvance(api, pair, cursor, nowMs);
    var cs := Paginate(api, pair, cursor, nowMs).cursors;
    if cs != [] {
      var n := |cs| - 1;
      assert cs[0] + MsPerDay * n <= cs[n];
      assert MsPerDay * n <= nowMs - cursor - 1;
      assert n <= (nowMs - cursor - 1) / MsPerDay;
    }
  }

  /** Every row of a page carries the base symbol it was built with. */
  lemma PageCarriesBase(base: string, page: seq<Kline>)
    requires RowsOf(base, page).Ok?
    ensures forall r :: r in RowsOf(base, page).value ==> r.symbol == base
  {
    var rows := RowsOf(base, page).value;
    forall k | 0 <= k < |rows| ensures rows[k].symbol == base {
      assert Ok(rows[k]) == RowOf(base, page[k]);
    }
  }

  /** Every fetched row carries the base symbol `pair.replace("USDT", "")`. */
  lemma {:induction false} RowsCarryBase(api: BinanceApi, pair: string, cursor: int, nowMs: int)
    requires KlinesFromCursor(api)
    requires Paginate(api, pair, cursor, nowMs).rows.Ok?
    ensures forall r :: r in Paginate(api, pair, cursor, nowMs).rows.value ==> r.symbol == StripUsdt(pair)
    decreases nowMs - cursor
  {
    if cursor < nowMs && !Stops(api, pair, cursor) {
      var p := api.klines(pair, cursor).value;
      PaginateStep(api, pair, cursor, nowMs);
      PageCarriesBase(StripUsdt(pair), p);
      RowsCarryBase(api, pair, NextCursor(p), nowMs);
    }
  }

  /** A candle's date is a formatted date no earlier than the day of any time
      the candle opened at or after. */
  lemma RowDateFrom(base: string, k: Kline, cursor: int)
    requires RowOf(base, k).Ok? && k.openTime >= cursor
    ensures IsDateText(RowOf(base, k).value.date)
    ensures DayOfText(RowOf(base, k).value.date) >= cursor / MsPerDay
  {
    var n := k.openTime / MsPerDay;
    var d := FromDayNumber(n);
    ParseFormatRoundTrip(d);
  }

  /** The rows of a page asked for from `cursor` are dated no earlier than its day. */
  lemma PageDatedFrom(base: string, page: seq<Kline>, cursor: int)
    requires RowsOf(base, page).Ok?
    requires forall k :: 0 <= k < |page| ==> page[k].openTime >= cursor
    ensures forall r :: r in RowsOf(base, page).value ==> IsDateText(r.date) && DayOfText(r.date) >= cursor / MsPerDay
  {
    var rows := RowsOf(base, page).value;
    forall k | 0 <= k < |rows| ensures IsDateText(rows[k].date) && DayOfText(rows[k].date) >= cursor / MsPerDay {
      assert Ok(rows[k]) == RowOf(base, page[k]);
      RowDateFrom(base, page[k], cursor);
    }
  }

  /** Every fetched row is dated, and no earlier than the day of the first cursor:
      paging from the day after a watermark never fetches that day again. */
  lemma {:induction false} RowsDatedFrom(api: BinanceApi, pair: string, cursor: int, nowMs: int)
    requires KlinesFromCursor(api)
    requires Paginate(api, pair, cursor, nowMs).rows.Ok?
    ensures forall r :: r in Paginate(api, pair, cursor, nowMs).rows.value ==>
              IsDateText(r.date) && DayOfText(r.date) >= cursor / MsPerDay
    decreases nowMs - cursor
  {
    if cursor < nowMs && !Stops(api, pair, cursor) {
      var p := api.klines(pair, cursor).value;
      PaginateStep(api, pair, cursor, nowMs);
      PageDatedFrom(StripUsdt(pair), p, cursor);
      var next := NextCursor(p);
      RowsDatedFrom(api, pair, next, nowMs);
      assert next / MsPerDay >= cursor / MsPerDay;
    }
  }

  /** `d.get(key, 0)`. */
  function GetOr0(d: map<string, Amount>, key: string): Amount
  {
    if key in d then d[key] else 0.0
  }

  /** The row the ticker's numbers make. */
  function TickerRow(d: map<string, Amount>): StatsRow
  {
    StatsRow(GetOr0(d, "lastPrice"), GetOr0(d, "highPrice"), GetOr0(d, "lowPrice"),
             GetOr0(d, "volume"), GetOr0(d, "quoteVolume"))
  }

  /** The client after construction: it only ever reads its set of pairs. */
  datatype BinanceClient = BinanceClient(supportedPairs: set<string>)
  {
    predicate IsSupported(pair: string)
    {
      pair in supportedPairs
    }

    /** `fetch_ohlcv`: nothing is requested for an unsupported pair; otherwise the
        candles from `startMs` until `nowMs`, page by page. An undatable candle
        raises out of the method. Also returns the start times requested. */
    method FetchOhlcv(api: BinanceApi, pair: string, startMs: int, nowMs: int)
      returns (r: Result<seq<HistoryRow>>, requested: seq<int>)
      requires KlinesFromCursor(api)
      ensures !IsSupported(pair) ==> r == Ok([]) && requested == []
      ensures IsSupported(pair) ==>
                r == Paginate(api, pair, startMs, nowMs).rows && requested == Paginate(api, pair, startMs, nowMs).cursors
    {
      if !IsSupported(pair) {
        return Ok([]), [];
      }
      var results: seq<HistoryRow> := [];
      requested := [];
      var cursor := startMs;
      ThenNothing(Paginate(api, pair, cursor, nowMs));
      while cursor < nowMs
        invariant Then(results, requested, Paginate(api, pair, cursor, nowMs)) == Paginate(api, pair, startMs, nowMs)
        decreases nowMs - cursor
      {
        ghost var before := requested;
        requested := requested + [cursor];
        var reply := api.klines(pair, cursor);
        if reply.None? || reply.value == [] {
          PaginateStops(api, pair, cursor, nowMs);
          ThenLast(results, before, cursor, Ok([]));
          return Ok(results), requested;
        }
        var page := reply.value;
        var rows := PageRows(StripUsdt(pair), page);
        if rows.Err? {
          PaginateStops(api, pair, cursor, nowMs);
          ThenLast(results, before, cursor, rows);
          return rows, requested;
        }
        PaginateStep(api, pair, cursor, nowMs);
        ThenAssociates(results, before, rows.value, cursor, Paginate(api, pair, NextCursor(page), nowMs));
        results := results + rows.value;
        cursor := NextCursor(page);
      }
      ThenNothing(Fetched(Ok(results), requested));
      r := Ok(results);
    }

    /** The inner loop of `fetch_ohlcv`: one row per candle, in page order; the
        first candle that cannot be dated raises out of the method. */
    method PageRows(base: string, page: seq<Kline>) returns (r: Result<seq<HistoryRow>>)
      ensures r == RowsOf(base, page)
    {
      var rows: seq<HistoryRow> := [];
      var i := 0;
      while i < |page|
        invariant 0 <= i <= |page| && |rows| == i
        invariant forall k :: 0 <= k < i ==> Ok(rows[k]) == RowOf(base, page[k])
      {
        var date := DateOfMs(page[i].openTime);
        if date.Err? {
          assert !PageDated(page);
          return Err(date.error);
        }
        rows := rows + [HistoryRow(base, date.value, page[i].open, page[i].high, page[i].low, page[i].close, page[i].volume)];
        i := i + 1;
      }
      AppendedPage([], rows, base, page);
      r := Ok(rows);
    }

    /** `fetch_daily_stats`: `None` for an unsupported pair (nothing requested)
        or a failed request; otherwise the pair and the ticker's numbers, each
        read as 0 when the reply lacks it. */
    function FetchDailyStats(api: BinanceApi, pair: string): (r: Option<StatsDict>)
      ensures r.Some? <==> IsSupported(pair) && api.ticker(pair).Some?
      ensures r.Some? ==>
                StatsRowOf(r.value) == Ok((pair, TickerRow(api.ticker(pair).value)))
    {
      if !IsSupported(pair) then None
      else match api.ticker(pair)
        case None => None
        case Some(d) =>
          Some(StatsDict(Some(pair), map[
            "last_price" := GetOr0(d, "lastPrice"),
            "high_24h" := GetOr0(d, "highPrice"),
            "low_24h" := GetOr0(d, "lowPrice"),
            "volume_24h" := GetOr0(d, "volume"),
            "liquidity" := GetOr0(d, "quoteVolume")]))
    }
  }

  /** `BinanceClient()`: loads the supported pairs; a `KeyError` escapes. */
  function NewBinanceClient(cache: CacheFile, info: Option<seq<Option<string>>>, writeFails: bool): (r: Result<(BinanceClient, CacheFile)>)
    ensures r.Ok? <==> LoadSupportedPairs(cache, info, writeFails).Ok?
    ensures r.Ok? ==> r.value.0.supportedPairs == LoadSupportedPairs(cache, info, writeFails).value.pairs
    ensures r.Ok? ==> r.value.1 == LoadSupportedPairs(cache, info, writeFails).value.cache
  {
    match LoadSupportedPairs(cache, info, writeFails)
    case Err(e) => Err(e)
    case Ok(loaded) => Ok((BinanceClient(loaded.pairs), loaded.cache))
  }
}
