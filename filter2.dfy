/** domashna1/pipeline/filter2_check_last_date.py: for each coin, resume its
    daily candles on Binance from the day after the last stored date (or ten
    years back), append them to `history`, and store the 24-hour statistics. */
module Filter2 {
  import opened Common
  import opened Text
  import opened Calendar
  import opened CoinModel
  import opened Db
  import opened Binance
  import opened ThreadPool

  /** The dictionary `_process_single_coin` returns. */
  datatype HistoryResult = HistoryResult(symbol: string, pair: string, ohlcvCount: nat, dailyStats: Option<StatsDict>)

  /** The result of a coin that is skipped or whose processing raised inside the `try`. */
  function Skipped(symbol: string): HistoryResult
  {
    HistoryResult(symbol, symbol + Quote, 0, None)
  }

  /** How far back a coin without history starts: `timedelta(days=3650)`. */
  const LookbackDays: int := 3650

  /** Which store operations fail for one coin: opening the connection (raises
      out of the worker), the watermark query, the history insert and the
      statistics statement (each logged and swallowed by the store). */
  datatype CoinFaults = CoinFaults(openFails: bool, queryFails: bool, insertFails: bool, statsFails: bool)

  /** The two tables the filter writes. */
  datatype Tables = Tables(history: seq<HistoryRow>, dailyStats: map<string, StatsRow>)

  /** A coin's result, the tables afterwards, and the candle start times requested. */
  datatype Outcome = Outcome(result: Result<HistoryResult>, tables: Tables, requested: seq<int>)

  /** The start of the fetch in ms: ten years before now for a coin without
      history, else midnight of the day after its watermark. `strptime` rejects
      a stored date that is not `%Y-%m-%d`; stepping outside years 1 to 9999
      overflows. */
  function StartMs(last: Option<string>, nowMs: int): (r: Result<int>)
    ensures last.None? && r.Ok? ==> r.value == nowMs - LookbackDays * MsPerDay
    ensures last.Some? && IsDateText(last.value) && DayOfText(last.value) < MaxDay ==>
              r == Ok((DayOfText(last.value) + 1) * MsPerDay)
    ensures last.Some? && !IsDateText(last.value) && r.Ok? ==> ParseDate(last.value).Ok?
    ensures last.Some? && ParseDate(last.value).Ok? && DayNumber(ParseDate(last.value).value) < MaxDay ==>
              r == Ok((DayNumber(ParseDate(last.value).value) + 1) * MsPerDay)
    ensures last.Some? && ParseDate(last.value).Err? ==> r == Err(ParseDate(last.value).error)
    ensures last.None? && (nowMs - LookbackDays * MsPerDay) / MsPerDay >= MinDay ==> r == Ok(nowMs - LookbackDays * MsPerDay)
    ensures last.None? && (nowMs - LookbackDays * MsPerDay) / MsPerDay < MinDay ==> r == Err(OverflowError)
    ensures last.Some? && ParseDate(last.value).Ok? && DayNumber(ParseDate(last.value).value) >= MaxDay ==> r == Err(OverflowError)
  {
    match last
    case None =>
      var t := nowMs - LookbackDays * MsPerDay;
      if t / MsPerDay < MinDay then Err(OverflowError) else Ok(t)
    case Some(text) =>
      match ParseDate(text)
      case Err(e) => Err(e)
      case Ok(d) =>
        if DayNumber(d) + 1 > MaxDay then Err(OverflowError) else Ok((DayNumber(d) + 1) * MsPerDay)
  }

  /** The `try` block of `_process_single_coin` for a supported or unsupported
      pair, on an open connection. Any exception inside it yields the skipped
      result; the tables keep whatever was written before it. */
  function SyncBody(binance: BinanceClient, api: BinanceApi, nowMs: int, f: CoinFaults, t: Tables, symbol: string): Outcome
    requires KlinesFromCursor(api)
  {
    var pair := symbol + Quote;
    if !binance.IsSupported(pair) then Outcome(Ok(Skipped(symbol)), t, [])
    else
      var last := if f.queryFails then None else LastDate(t.history, symbol);
      match StartMs(last, nowMs)
      case Err(_) => Outcome(Ok(Skipped(symbol)), t, [])
      case Ok(start) =>
        var fetched := Paginate(api, pair, start, nowMs);
        if fetched.rows.Err? then Outcome(Ok(Skipped(symbol)), t, fetched.cursors)
        else
          var rows := fetched.rows.value;
          var history := if rows != [] && !f.insertFails then t.history + rows else t.history;
          var stats := binance.FetchDailyStats(api, pair);
          var dailyStats := if stats.Some? && !f.statsFails then t.dailyStats[pair := TickerRow(api.ticker(pair).value)] else t.dailyStats;
          Outcome(Ok(HistoryResult(symbol, pair, |rows|, stats)), Tables(history, dailyStats), fetched.cursors)
  }

  /** `_process_single_coin`: `coin.symbol.upper()` raises `AttributeError` for a
      coin without a symbol, and a failing `Database()` raises before the `try`. */
  function SyncCoin(binance: BinanceClient, api: BinanceApi, nowMs: int, f: CoinFaults, t: Tables, coin: Coin): Outcome
    requires KlinesFromCursor(api)
  {
    if coin.symbol.None? then Outcome(Err(AttributeError("upper")), t, [])
    else if f.openFails then Outcome(Err(SqliteError), t, [])
    else SyncBody(binance, api, nowMs, f, t, Upper(coin.symbol.value))
  }

  // ---------------------------------------------------------------------------
  // What one coin does to the store

  /** An unsupported pair requests nothing, writes nothing and reports zero candles. */
  lemma SyncUnsupported(binance: BinanceClient, api: BinanceApi, nowMs: int, f: CoinFaults, t: Tables, coin: Coin)
    requires KlinesFromCursor(api)
    requires coin.symbol.Some? && !f.openFails && !binance.IsSupported(Upper(coin.symbol.value) + Quote)
    ensures SyncCoin(binance, api, nowMs, f, t, coin) == Outcome(Ok(Skipped(Upper(coin.symbol.value))), t, [])
  {
  }

  /** A coin only ever adds rows at the end of `history`, all carrying the base
      symbol of its pair, and only ever replaces the statistics row of its own
      pair, with the ticker's numbers. The result names the upper-cased symbol
      and its USDT pair, and raises only for a missing symbol or a failed open. */
  lemma SyncTouchesOnlyItsCoin(binance: BinanceClient, api: BinanceApi, nowMs: int, f: CoinFaults, t: Tables, coin: Coin)
    requires KlinesFromCursor(api)
    ensures var o := SyncCoin(binance, api, nowMs, f, t, coin);
      && |t.history| <= |o.tables.history|
      && o.tables.history[..|t.history|] == t.history
      && (coin.symbol.Some? ==>
            forall i :: |t.history| <= i < |o.tables.history| ==>
              o.tables.history[i].symbol == StripUsdt(Upper(coin.symbol.value) + Quote))
      && (o.tables.dailyStats == t.dailyStats ||
          (coin.symbol.Some? &&
           var pair := Upper(coin.symbol.value) + Quote;
           api.ticker(pair).Some? && o.tables.dailyStats == t.dailyStats[pair := TickerRow(api.ticker(pair).value)]))
      && (o.result.Err? <==> coin.symbol.None? || f.openFails)
      && (o.result.Ok? ==> o.result.value.symbol == Upper(coin.symbol.value) &&
                           o.result.value.pair == o.result.value.symbol + Quote)
  {
    var o := SyncCoin(binance, api, nowMs, f, t, coin);
    if coin.symbol.Some? && !f.openFails {
      var symbol := Upper(coin.symbol.value);
      var pair := symbol + Quote;
      var last := if f.queryFails then None else LastDate(t.history, symbol);
      if binance.IsSupported(pair) && StartMs(last, nowMs).Ok? {
        var start := StartMs(last, nowMs).value;
        if Paginate(api, pair, start, nowMs).rows.Ok? {
          RowsCarryBase(api, pair, start, nowMs);
          var rows := Paginate(api, pair, start, nowMs).rows.value;
          if rows != [] && !f.insertFails {
            assert o.tables.history == t.history + rows;
            forall i | |t.history| <= i < |o.tables.history|
              ensures o.tables.history[i].symbol == StripUsdt(pair)
            {
              assert o.tables.history[i] == rows[i - |t.history|];
            }
          }
        }
      }
    }
  }

  /** The count a result reports is the number of rows the coin appended, unless
      the insert failed (then the rows are counted but not stored). */
  lemma SyncCountsAppended(binance: BinanceClient, api: BinanceApi, nowMs: int, f: CoinFaults, t: Tables, coin: Coin)
    requires KlinesFromCursor(api)
    requires !f.insertFails
    ensures var o := SyncCoin(binance, api, nowMs, f, t, coin);
      |o.tables.history| == |t.history| + (if o.result.Ok? then o.result.value.ohlcvCount else 0)
  {
  }

  /** A coin never moves any symbol's watermark backwards. */
  lemma SyncWatermarkMonotone(binance: BinanceClient, api: BinanceApi, nowMs: int, f: CoinFaults, t: Tables, coin: Coin, symbol: string)
    requires KlinesFromCursor(api)
    ensures WatermarkLe(LastDate(t.history, symbol), LastDate(SyncCoin(binance, api, nowMs, f, t, coin).tables.history, symbol))
  {
    var h := SyncCoin(binance, api, nowMs, f, t, coin).tables.history;
    SyncTouchesOnlyItsCoin(binance, api, nowMs, f, t, coin);
    assert h == t.history + h[|t.history|..];
    WatermarkMonotone(t.history, h[|t.history|..], symbol);
  }

  /** The rows a coin appends are none, or the rows paged from the start its
      watermark gives. */
  lemma SyncAppends(binance: BinanceClient, api: BinanceApi, nowMs: int, f: CoinFaults, t: Tables, symbol: string)
    requires KlinesFromCursor(api)
    ensures var o := SyncBody(binance, api, nowMs, f, t, symbol);
      var last := if f.queryFails then None else LastDate(t.history, symbol);
      o.tables.history == t.history ||
      (StartMs(last, nowMs).Ok? && Paginate(api, symbol + Quote, StartMs(last, nowMs).value, nowMs).rows.Ok? &&
       o.tables.history == t.history + Paginate(api, symbol + Quote, StartMs(last, nowMs).value, nowMs).rows.value)
  {
  }

  /** Paging from the day after day `m` yields only formatted dates later than `m`. */
  lemma RowsAfterDay(api: BinanceApi, pair: string, m: int, nowMs: int)
    requires KlinesFromCursor(api)
    requires Paginate(api, pair, (m + 1) * MsPerDay, nowMs).rows.Ok?
    ensures forall r :: r in Paginate(api, pair, (m + 1) * MsPerDay, nowMs).rows.value ==>
              IsDateText(r.date) && DayOfText(r.date) > m
  {
    RowsDatedFrom(api, pair, (m + 1) * MsPerDay, nowMs);
    assert (m + 1) * MsPerDay / MsPerDay == m + 1;
  }

  /** Every row from position `from` on is a formatted date later than every
      stored day of `symbol` before `from`. */
  predicate LaterThanStored(h: seq<HistoryRow>, from: nat, symbol: string)
    requires from <= |h|
  {
    forall j, i :: from <= j < |h| && 0 <= i < from && h[i].symbol == symbol ==>
      IsDateText(h[j].date) && IsDateText(h[i].date) && DayOfText(h[i].date) < DayOfText(h[j].date)
  }

  /** The stored dates of `symbol` are all formatted dates. */
  predicate DatedRows(h: seq<HistoryRow>, symbol: string)
  {
    forall i :: 0 <= i < |h| && h[i].symbol == symbol ==> IsDateText(h[i].date)
  }

  /** Appending rows all later than day `m`, the latest stored day of `symbol`,
      puts them after every stored day of it. */
  lemma AppendedAfter(h: seq<HistoryRow>, rows: seq<HistoryRow>, symbol: string, m: int)
    requires DatedRows(h, symbol)
    requires forall i :: 0 <= i < |h| && h[i].symbol == symbol ==> DayOfText(h[i].date) <= m
    requires forall r :: r in rows ==> IsDateText(r.date) && DayOfText(r.date) > m
    ensures LaterThanStored(h + rows, |h|, symbol)
  {
    var h' := h + rows;
    forall j, i | |h| <= j < |h'| && 0 <= i < |h| && h'[i].symbol == symbol
      ensures IsDateText(h'[j].date) && IsDateText(h'[i].date) && DayOfText(h'[i].date) < DayOfText(h'[j].date)
    {
      assert h'[j] == rows[j - |h|];
      assert rows[j - |h|] in rows;
      assert h'[i] == h[i];
    }
  }

  /** The `try` block reads the watermark and resumes after it. */
  lemma SyncBodyResumes(binance: BinanceClient, api: BinanceApi, nowMs: int, f: CoinFaults, t: Tables, symbol: string)
    requires KlinesFromCursor(api)
    requires !f.queryFails && DatedRows(t.history, symbol)
    ensures var h := SyncBody(binance, api, nowMs, f, t, symbol).tables.history;
      |t.history| <= |h| && LaterThanStored(h, |t.history|, symbol)
  {
    var h := SyncBody(binance, api, nowMs, f, t, symbol).tables.history;
    LastDateIsLatestDay(t.history, symbol);
    var last := LastDate(t.history, symbol);
    SyncAppends(binance, api, nowMs, f, t, symbol);
    if h != t.history && last.Some? {
      var m := DayOfText(last.value);
      var start := StartMs(last, nowMs).value;
      assert start == (m + 1) * MsPerDay;
      RowsAfterDay(api, symbol + Quote, m, nowMs);
      AppendedAfter(t.history, Paginate(api, symbol + Quote, start, nowMs).rows.value, symbol, m);
    }
  }

  /** Resumption: when the stored dates of a coin are well-formed and its
      watermark was read, every row appended for it is strictly later than every
      day already stored for it, so no stored day is fetched again. */
  lemma SyncResumesAfterWatermark(binance: BinanceClient, api: BinanceApi, nowMs: int, f: CoinFaults, t: Tables, coin: Coin)
    requires KlinesFromCursor(api)
    requires coin.symbol.Some? && !f.queryFails && DatedRows(t.history, Upper(coin.symbol.value))
    ensures var h := SyncCoin(binance, api, nowMs, f, t, coin).tables.history;
      |t.history| <= |h| && LaterThanStored(h, |t.history|, Upper(coin.symbol.value))
  {
    if !f.openFails {
      SyncBodyResumes(binance, api, nowMs, f, t, Upper(coin.symbol.value));
    }
  }

  /** The rows a coin appends are stored under its upper-cased symbol exactly
      when that symbol does not contain "USDT": they carry the base of the pair,
      which is the symbol only then. */
  lemma SyncRowsKey(binance: BinanceClient, api: BinanceApi, nowMs: int, f: CoinFaults, t: Tables, coin: Coin)
    requires KlinesFromCursor(api)
    requires coin.symbol.Some?
    ensures var h := SyncCoin(binance, api, nowMs, f, t, coin).tables.history;
      forall i :: |t.history| <= i < |h| ==> (h[i].symbol == Upper(coin.symbol.value) <==> !ContainsUsdt(Upper(coin.symbol.value)))
  {
    SyncTouchesOnlyItsCoin(binance, api, nowMs, f, t, coin);
    BaseOfPairExactly(Upper(coin.symbol.value));
  }

  /** A coin whose upper-cased symbol contains "USDT" stores its rows under
      another key than the one its watermark is read from, so a sync leaves that
      watermark as it was: with none stored, every run starts ten years back
      and appends again the days it stored before. */
  lemma UsdtSymbolKeepsWatermark(binance: BinanceClient, api: BinanceApi, nowMs: int, f: CoinFaults, t: Tables, coin: Coin)
    requires KlinesFromCursor(api)
    requires coin.symbol.Some? && ContainsUsdt(Upper(coin.symbol.value))
    ensures LastDate(SyncCoin(binance, api, nowMs, f, t, coin).tables.history, Upper(coin.symbol.value)) ==
            LastDate(t.history, Upper(coin.symbol.value))
  {
    SyncTouchesOnlyItsCoin(binance, api, nowMs, f, t, coin);
    SyncRowsKey(binance, api, nowMs, f, t, coin);
    GrownByOthers(t.history, SyncCoin(binance, api, nowMs, f, t, coin).tables.history, Upper(coin.symbol.value));
  }

  // ---------------------------------------------------------------------------
  // process: every coin in completion order

  /** The position of the first coin without a symbol. */
  function FirstWithoutSymbol(coins: seq<Coin>): (r: Option<nat>)
    ensures r.Some? ==> r.value < |coins| && coins[r.value].symbol.None? &&
                        forall k :: 0 <= k < r.value ==> coins[k].symbol.Some?
    ensures r.None? <==> forall k :: 0 <= k < |coins| ==> coins[k].symbol.Some?
  {
    if coins == [] then None
    else if coins[0].symbol.None? then Some(0)
    else match FirstWithoutSymbol(coins[1..])
      case None => None
      case Some(j) => Some(j + 1)
  }

  /** How many coins the dictionary comprehension submits: each coin is submitted
      before its symbol is upper-cased, so the first coin without one is submitted
      and then the comprehension raises. */
  function Submitted(coins: seq<Coin>): (n: nat)
    ensures n <= |coins|
  {
    match FirstWithoutSymbol(coins)
    case None => |coins|
    case Some(j) => j + 1
  }

  /** The workers run in `order`: each coin's outcome and the tables after it. */
  function RunAll(binance: BinanceClient, api: BinanceApi, nowMs: int, faults: nat -> CoinFaults,
                  t: Tables, coins: seq<Coin>, order: seq<nat>): (seq<Result<HistoryResult>>, Tables)
    requires KlinesFromCursor(api)
    requires forall k :: 0 <= k < |order| ==> order[k] < |coins|
  {
    if order == [] then ([], t)
    else
      var before := RunAll(binance, api, nowMs, faults, t, coins, order[..|order| - 1]);
      var i := order[|order| - 1];
      var o := SyncCoin(binance, api, nowMs, faults(i), before.1, coins[i]);
      (before.0 + [o.result], o.tables)
  }

  /** `results.append(future.result())` in completion order: the first worker
      that raised re-raises its exception. */
  function Collect(results: seq<Result<HistoryResult>>): (r: Result<seq<HistoryResult>>)
    ensures r.Ok? <==> forall k :: 0 <= k < |results| ==> results[k].Ok?
    ensures r.Ok? ==> |r.value| == |results| && forall k :: 0 <= k < |results| ==> results[k] == Ok(r.value[k])
    ensures r.Err? ==> exists k :: 0 <= k < |results| && results[k] == Err(r.error)
  {
    if results == [] then Ok([])
    else match Collect(results[..|results| - 1])
      case Err(e) => Err(e)
      case Ok(init) =>
        var last := results[|results| - 1];
        if last.Err? then Err(last.error) else Ok(init + [last.value])
  }

  /** A worker that raised after all earlier ones returned decides the outcome. */
  lemma {:induction false} CollectStopsAt(results: seq<Result<HistoryResult>>, j: nat)
    requires j < |results| && Collect(results[..j]).Ok? && results[j].Err?
    ensures Collect(results) == Err(results[j].error)
  {
    if j < |results| - 1 {
      var init := results[..|results| - 1];
      assert init[..j] == results[..j];
      CollectStopsAt(init, j);
    } else {
      assert results[..|results| - 1] == results[..j];
    }
  }

  /** The whole run: the workers run even when the comprehension raised, since
      leaving the `with` block waits for them. */
  function ProcessSpec(binance: BinanceClient, api: BinanceApi, nowMs: int, faults: nat -> CoinFaults,
                       t: Tables, coins: seq<Coin>, order: seq<nat>): (Result<seq<HistoryResult>>, Tables)
    requires KlinesFromCursor(api)
    requires IsOrder(order, Submitted(coins))
  {
    var run := RunAll(binance, api, nowMs, faults, t, coins, order);
    (if FirstWithoutSymbol(coins).Some? then Err(AttributeError("upper")) else Collect(run.0), run.1)
  }

  /** Every worker reports on the coin it was given, in completion order. */
  lemma {:induction false} RunAllResults(binance: BinanceClient, api: BinanceApi, nowMs: int, faults: nat -> CoinFaults,
                                         t: Tables, coins: seq<Coin>, order: seq<nat>)
    requires KlinesFromCursor(api)
    requires forall k :: 0 <= k < |order| ==> order[k] < |coins|
    ensures var rs := RunAll(binance, api, nowMs, faults, t, coins, order).0;
      |rs| == |order| &&
      forall k :: 0 <= k < |order| && rs[k].Ok? ==>
        coins[order[k]].symbol.Some? &&
        rs[k].value.symbol == Upper(coins[order[k]].symbol.value) &&
        rs[k].value.pair == rs[k].value.symbol + Quote
  {
    if order != [] {
      var init := order[..|order| - 1];
      RunAllResults(binance, api, nowMs, faults, t, coins, init);
      var before := RunAll(binance, api, nowMs, faults, t, coins, init);
      var i := order[|order| - 1];
      SyncTouchesOnlyItsCoin(binance, api, nowMs, faults(i), before.1, coins[i]);
    }
  }

  /** When `process` returns, it returns one result per coin, in completion
      order, each naming that coin's upper-cased symbol and its USDT pair. */
  lemma ProcessOneResultPerCoin(binance: BinanceClient, api: BinanceApi, nowMs: int, faults: nat -> CoinFaults,
                                t: Tables, coins: seq<Coin>, order: seq<nat>)
    requires KlinesFromCursor(api)
    requires IsOrder(order, Submitted(coins))
    requires ProcessSpec(binance, api, nowMs, faults, t, coins, order).0.Ok?
    ensures var rs := ProcessSpec(binance, api, nowMs, faults, t, coins, order).0.value;
      |rs| == |coins| &&
      forall k :: 0 <= k < |rs| ==>
        rs[k].symbol == Upper(coins[order[k]].symbol.value) && rs[k].pair == rs[k].symbol + Quote
  {
    RunAllResults(binance, api, nowMs, faults, t, coins, order);
  }

  /** `history` only grows: whatever the order and faults, the rows stored before
      the run are still there, first and unchanged. */
  lemma {:induction false} RunAllKeepsHistory(binance: BinanceClient, api: BinanceApi, nowMs: int, faults: nat -> CoinFaults,
                                              t: Tables, coins: seq<Coin>, order: seq<nat>)
    requires KlinesFromCursor(api)
    requires forall k :: 0 <= k < |order| ==> order[k] < |coins|
    ensures var h := RunAll(binance, api, nowMs, faults, t, coins, order).1.history;
      |t.history| <= |h| && h[..|t.history|] == t.history
  {
    if order != [] {
      var init := order[..|order| - 1];
      RunAllKeepsHistory(binance, api, nowMs, faults, t, coins, init);
      var before := RunAll(binance, api, nowMs, faults, t, coins, init);
      var i := order[|order| - 1];
      SyncTouchesOnlyItsCoin(binance, api, nowMs, faults(i), before.1, coins[i]);
      var h := RunAll(binance, api, nowMs, faults, t, coins, order).1.history;
      assert h[..|before.1.history|] == before.1.history;
      assert h[..|t.history|] == before.1.history[..|t.history|];
    }
  }

  // ---------------------------------------------------------------------------
  // The filter object

  /** `Filter2FetchHistory(binance_client)`. */
  class Filter2FetchHistory {
    const binance: BinanceClient

    constructor (binance: BinanceClient)
      ensures this.binance == binance
    {
      this.binance := binance;
    }

    /** The `try` block, on an open connection. */
    method SyncWith(db: Database, api: BinanceApi, symbol: string, nowMs: int, f: CoinFaults)
      returns (r: HistoryResult, requested: seq<int>)
      requires KlinesFromCursor(api) && db.isOpen
      modifies db.file`history, db.file`dailyStats
      ensures Outcome(Ok(r), Tables(db.file.history, db.file.dailyStats), requested) ==
                SyncBody(binance, api, nowMs, f, Tables(old(db.file.history), old(db.file.dailyStats)), symbol)
    {
      var pair := symbol + Quote;
      if !binance.IsSupported(pair) {
        return Skipped(symbol), [];
      }
      var last := db.GetLastDate(symbol, f.queryFails);
      var start := StartMs(last.value, nowMs);
      if start.Err? {
        return Skipped(symbol), [];
      }
      var rows;
      rows, requested := binance.FetchOhlcv(api, pair, start.value, nowMs);
      if rows.Err? {
        return Skipped(symbol), requested;
      }
      if rows.value != [] {
        db.InsertHistoryRows(rows.value, f.insertFails);
      }
      var stats := binance.FetchDailyStats(api, pair);
      if stats.Some? {
        var saved := db.SaveDailyStats(stats.value, f.statsFails);
        assert saved == Ok(());
      }
      r := HistoryResult(symbol, pair, |rows.value|, stats);
    }

    /** `_process_single_coin`: the connection is closed whatever the `try` did. */
    method ProcessSingleCoin(api: BinanceApi, file: CryptoDb, coin: Coin, nowMs: int, f: CoinFaults)
      returns (r: Result<HistoryResult>, requested: seq<int>)
      requires KlinesFromCursor(api)
      modifies file`history, file`dailyStats
      ensures Outcome(r, Tables(file.history, file.dailyStats), requested) ==
                SyncCoin(binance, api, nowMs, f, Tables(old(file.history), old(file.dailyStats)), coin)
    {
      if coin.symbol.None? {
        return Err(AttributeError("upper")), [];
      }
      var symbol := Upper(coin.symbol.value);
      if f.openFails {
        return Err(SqliteError), [];
      }
      var db := new Database(file);
      var result;
      result, requested := SyncWith(db, api, symbol, nowMs, f);
      db.Close();
      r := Ok(result);
    }

    /** The dictionary comprehension of `process`: coins are submitted one by one
        until one without a symbol raises after its submission. */
    method SubmitAll(coins: seq<Coin>) returns (submitted: nat, raised: bool)
      ensures submitted == Submitted(coins)
      ensures raised <==> FirstWithoutSymbol(coins).Some?
    {
      submitted := 0;
      raised := false;
      while submitted < |coins| && !raised
        invariant 0 <= submitted <= |coins|
        invariant forall k :: 0 <= k < submitted && !(raised && k == submitted - 1) ==> coins[k].symbol.Some?
        invariant raised ==> 0 < submitted && coins[submitted - 1].symbol.None?
      {
        submitted := submitted + 1;
        if coins[submitted - 1].symbol.None? {
          raised := true;
        }
      }
    }

    /** The `as_completed` loop of `process`: results are appended in completion
        order, and the first worker that raised re-raises. */
    method CollectResults(results: seq<Result<HistoryResult>>) returns (r: Result<seq<HistoryResult>>)
      ensures r == Collect(results)
    {
      var collected: seq<HistoryResult> := [];
      var j := 0;
      while j < |results|
        invariant 0 <= j <= |results|
        invariant Collect(results[..j]) == Ok(collected)
      {
        assert results[..j + 1][..j] == results[..j];
        if results[j].Err? {
          CollectStopsAt(results, j);
          return Err(results[j].error);
        }
        collected := collected + [results[j].value];
        j := j + 1;
      }
      assert results[..j] == results;
      r := Ok(collected);
    }

    /** `process`: submits the coins (stopping after the first without a symbol),
        runs the workers in `order`, then collects their results. */
    method Process(api: BinanceApi, file: CryptoDb, coins: seq<Coin>, order: seq<nat>, nowMs: int, faults: nat -> CoinFaults)
      returns (r: Result<seq<HistoryResult>>)
      requires KlinesFromCursor(api)
      requires IsOrder(order, Submitted(coins))
      modifies file`history, file`dailyStats
      ensures (r, Tables(file.history, file.dailyStats)) ==
                ProcessSpec(binance, api, nowMs, faults, Tables(old(file.history), old(file.dailyStats)), coins, order)
    {
      var submitted, raised := SubmitAll(coins);

      // Leaving the `with` block waits for every submitted worker.
      ghost var t0 := Tables(file.history, file.dailyStats);
      var results: seq<Result<HistoryResult>> := [];
      var k := 0;
      while k < |order|
        invariant 0 <= k <= |order|
        invariant (results, Tables(file.history, file.dailyStats)) == RunAll(binance, api, nowMs, faults, t0, coins, order[..k])
      {
        assert order[..k + 1][..k] == order[..k];
        var res, _ := ProcessSingleCoin(api, file, coins[order[k]], nowMs, faults(order[k]));
        results := results + [res];
        k := k + 1;
      }
      assert order[..k] == order;
      if raised {
        return Err(AttributeError("upper"));
      }
      r := CollectResults(results);
    }
  }
}
