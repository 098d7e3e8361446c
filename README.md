# FreeCoinCryptoBase ingestion core, modelled in Dafny

This project models the ingestion pipeline of FreeCoinCryptoBase and proves properties of the model. The pipeline has three stages:

- **Stage 1** fetches the top coins by market cap from CoinGecko. It keeps the records that have a market cap and all required keys, and upserts them into the `coins` table.
- **Stage 2** does the incremental history sync. A pool of workers does one coin each:
  - it reads the coin's last stored date (the watermark) from the `history` table;
  - it fetches daily Binance candles from the day after the watermark, or from 3650 days ago when there is none, paging forward;
  - it appends the rows and saves the pair's 24-hour ticker into `daily_stats`.
- **Stage 3** is the gap-fill pass. It re-checks each coin's watermark.

The model also covers the orchestrator that runs the three stages, the generic `Pipeline` runner, the rule-based scoring of technical indicators, the strategy factory and the LSTM window preparation.

Each source file is one Dafny module:

| module | file | source |
|---|---|---|
| `Common` | `common.dfy` | Python's `None`, exceptions and absent dictionary keys |
| `Text` | `text.dfy` | `str.upper`, `str.replace("USDT", "")`, the SQL `MAX` order on text, decimal digits |
| `Calendar` | `calendar.dfy` | proleptic Gregorian dates, `"%Y-%m-%d"` formatting and parsing, millisecond timestamps |
| `CoinModel` | `coin.dfy` | `model/coin.py` |
| `Db` | `db.dfy` | `data/db.py` |
| `CoinRepositoryModel` | `coin_repository.dfy` | `data/coin_repository.py` |
| `Binance` | `binance_client.dfy` | `service/binance_client.py` |
| `CoinGecko` | `coingecko_client.dfy` | `service/coingecko_client.py` |
| `Filter1` | `filter1.dfy` | stage 1, built on `Selection` (`selection.dfy`, which indexes the records a filter keeps) |
| `Filter2` | `filter2.dfy` | stage 2 |
| `Filter3` | `filter3.dfy` | stage 3 |
| `ThreadPool` | `thread_pool.dfy` | completion orders of a worker pool |
| `PipelineRunner` | `pipeline_runner.dfy` | `pipeline/pipeline_runner.py` |
| `RunPipeline` | `run_pipeline.dfy` | `run_pipeline.py` |
| `TechAnalysis` | `tech_analysis.dfy` | `domashna3/tech_analiza.py` |
| `StrategyFactory` | `strategy_factory.dfy` | `domashna4/strategy_pattern/factory.py` |
| `Lstm` | `lstm.dfy` | `lstm/lstm.py` |

The modelling choices:

- **The SQLite file** is a class `CryptoDb` with three fields: the `coins` rows in rowid order, the `history` rows in insertion order, and the `daily_stats` map. A connection is a class `Database` that points to the file and is open or closed. The code's `INSERT OR REPLACE` is modelled as follows:
  - on `coins`, it deletes the row with the same non-null id and appends the new one;
  - on `history`, whose only key is an autoincrement id, it always appends;
  - on `daily_stats`, it overwrites the entry for the same symbol.
- **External inputs become values.** The network, the cache file, the clock and SQLite's failures are parameters of the operations:
  - each HTTP endpoint is a function of its parameters, returning `None` when the request fails. In particular, when the pair cache was not written, the stage-3 client's second `exchangeInfo` request gets the same reply as the stage-2 client's, which is why stage 3 never fails the run (`Binance.ReloadSucceeds`);
  - the cache file is a value that goes in and comes out;
  - "now" is a number of milliseconds;
  - a failing SQLite call is a boolean per call or per coin.
- **Each worker pool runs its workers one at a time**, in a completion order given as a parameter. Any permutation of the submitted coins is a valid order. The results are collected in that order.
- **Exceptions become `Err` values.** The model raises exactly where the code raises: `coin.symbol.upper()` on a `None` symbol, a missing dictionary key, a malformed date, a failing connection.

The code, followed as written, differs from what its names and comments suggest in five places. The model keeps the code's behaviour and proves it:

- **History rows are never replaced.** `history` has no unique key besides its autoincrement id, so a re-sync that overlaps stored days appends a second copy of each row (`Db.ReinsertDuplicates`).
- **History rows and stats use different keys.** A history row carries the base symbol (`"BTC"`, the pair with `"USDT"` removed), while `daily_stats` is keyed by the full pair (`"BTCUSDT"`).
- **Stage 3 never adds rows.** It looks up the watermark under the pair, which finds nothing for a usual symbol. When a watermark is found, `datetime.combine` receives a `str` and raises `TypeError`, which the `try` block catches. Every coin ends as "added 0", and the store is only read (`Filter3.FillAddsNothing`, `Filter3.FillMissesBaseHistory`).
- **A symbol containing `"USDT"` never resumes.** Stage 2 reads the watermark under the upper-cased symbol but stores rows under the pair with every `"USDT"` removed. For a symbol such as `"AUSDT"` the rows go under `"A"`, the watermark under `"AUSDT"` never moves, and every run fetches ten years again and appends a second copy of each stored day (`Filter2.SyncRowsKey`, `Filter2.UsdtSymbolKeepsWatermark`).
- **Stage 2 can fail as a whole.** It has no `try` around `coin.symbol.upper()` in its submission loop, and `future.result()` re-raises a worker's exception. So a coin without a symbol, or a connection that cannot be opened, fails the whole stage. Coins submitted before that point have already been processed.

## Model

| member | source | states |
|---|---|---|
| `CoinModel.ConstructorDefaults` | domashna1/model/coin.py:2-7 | a coin built from id, symbol and name has no market cap and no rank, and keeps the three given fields |
| `CoinModel.ReprOmitsNameAndCap` | domashna1/model/coin.py:9-11 | the debug text does not depend on the name or the market cap |
| `CoinModel.ReprShowsRank` | domashna1/model/coin.py:9-11 | the debug text ends with the rank's decimal text followed by `)`, and that text reads back as the rank |
| `Text.Upper` | domashna1/pipeline/filter2_check_last_date.py:23 | on ASCII text, upper-casing keeps the length and maps each lower-case letter `a`-`z` to its capital and every other character to itself |
| `Text.UpperIdempotent` | domashna1/pipeline/filter2_check_last_date.py:23-24 | upper-cased text is upper case and upper-casing it again changes nothing |
| `Text.StripUsdtIdentity` | domashna1/service/binance_client.py:91 | removing `"USDT"` from text that does not contain it gives the text back |
| `Text.StripUsdtSuffix` | domashna1/service/binance_client.py:91 | removing `"USDT"` from `x + "USDT"` gives the same as removing it from `x`, however the suffix overlaps `x` |
| `Text.BaseOfPair` | domashna1/service/binance_client.py:91 | the base symbol of a pair `symbol + "USDT"` is the symbol, when the symbol does not contain `"USDT"` |
| `Text.BaseOfPairExactly` | domashna1/service/binance_client.py:91 | the base of `symbol + "USDT"` is the symbol exactly when the symbol does not contain `"USDT"` |
| `Text.StripUsdtShortens` | domashna1/service/binance_client.py:91 | removing `"USDT"` from text that contains it shortens the text by at least four characters |
| `Text.LexLeTotal` | domashna1/data/db.py:60-64 | the text order that `MAX(date)` uses is total |
| `Text.LexLeAntisymmetric` | domashna1/data/db.py:60-64 | that order is antisymmetric, so the maximum is unique |
| `Text.LexLeTransitive` | domashna1/data/db.py:60-64 | that order is transitive |
| `Text.FixedDigitsOrder` | domashna1/service/binance_client.py:95 | zero-padded numbers of the same width compare as text exactly as they compare as numbers |
| `Text.NatTextRoundTrip` | domashna1/model/coin.py:11 | the decimal text of a natural number reads back as that number |
| `Text.IntTextRoundTrip` | domashna1/model/coin.py:11 | the decimal text of an integer, with its sign, reads back as that integer |
| `Calendar.FromDayNumber` | domashna1/service/binance_client.py:95 | every day number between years 1 and 9999 is the day number of exactly one valid date |
| `Calendar.DayNumberRoundTrip` | domashna1/pipeline/filter2_check_last_date.py:39 | counting a date's days and converting back gives the same date |
| `Calendar.DayNumberOrder` | domashna1/pipeline/filter2_check_last_date.py:39 | day numbers order dates as (year, month, day) does |
| `Calendar.FormatOrder` | domashna1/data/db.py:60-64 | `"%Y-%m-%d"` texts compare as text exactly as their days compare, and distinct dates give distinct texts |
| `Calendar.ParseDate` | domashna1/pipeline/filter2_check_last_date.py:39 | `strptime` returns only valid dates and otherwise raises `ValueError` |
| `Calendar.ParseFormatRoundTrip` | domashna1/pipeline/filter2_check_last_date.py:39 | parsing a formatted date gives the date back |
| `Calendar.DateOfMs` | domashna1/service/binance_client.py:95 | formatting a timestamp succeeds exactly when its day lies in years 1 to 9999, and gives ten characters |
| `Calendar.DayOfMs` | domashna1/service/coingecko_client.py:62 | a timestamp's day is its floored division by one day, and its text is that day's date |
| `Calendar.DateOfMsWithinDay` | domashna1/service/binance_client.py:95 | every millisecond of a day formats as that day's date |
| `Db.StatsRowOf` | domashna1/data/db.py:89-104 | the stats row is saved exactly when all six keys are present; the first missing key raises `KeyError` |
| `Db.MaxDateIsMaximum` | domashna1/data/db.py:56-67 | the watermark is absent exactly when the symbol has no rows; otherwise it is one of the symbol's dates and no date of the symbol is greater |
| `Db.WatermarkMonotone` | domashna1/data/db.py:76-84 | appending rows never lowers any symbol's watermark |
| `Db.WatermarkOtherSymbols` | domashna1/data/db.py:76-84 | appending rows of other symbols leaves a symbol's watermark unchanged |
| `Db.GrownByOthers` | domashna1/data/db.py:76-84 | a history that only grew by rows of other symbols keeps a symbol's watermark |
| `Db.DateTextOrder` | domashna1/data/db.py:60-64 | on date texts, the text maximum is the latest day |
| `Db.LastDateIsLatestDay` | domashna1/data/db.py:56-67 | when the symbol's dates are date texts, the watermark is the latest day stored for it |
| `Db.ReinsertDuplicates` | domashna1/data/db.py:30-40 | inserting the same rows again adds a second copy of each, since the only key is the autoincrement id |
| `Db.CryptoDb.constructor` | domashna1/data/db.py:15-51 | a new file has empty tables |
| `Db.Database.constructor` | domashna1/data/db.py:11-13 | a new connection is open on its file |
| `Db.Database.GetLastDate` | domashna1/data/db.py:56-71 | on an open connection, returns the watermark; a query error reads as `None`; a closed connection raises |
| `Db.Database.InsertHistoryRows` | domashna1/data/db.py:76-87 | appends the rows unless the connection is closed or the write fails, in which case nothing changes |
| `Db.Database.SaveDailyStats` | domashna1/data/db.py:89-107 | a missing key raises `KeyError`; otherwise the pair's entry is replaced unless the write fails |
| `Db.Database.Close` | domashna1/data/db.py:109-114 | the connection is closed afterwards |
| `CoinRepositoryModel.DeleteIdEffect` | domashna1/data/coin_repository.py:16-19 | replacing by id removes exactly the rows with that id and keeps the rows without an id |
| `CoinRepositoryModel.UpsertEffect` | domashna1/data/coin_repository.py:16-19 | after one upsert, the id's only row is the new coin; rows with a `NULL` id accumulate |
| `CoinRepositoryModel.UpsertAllById` | domashna1/data/coin_repository.py:21-27 | after a batch, each id holds the batch's last coin with that id, or its old rows when the batch has none |
| `CoinRepositoryModel.UpsertAllWithoutId` | domashna1/data/coin_repository.py:21-27 | the batch's coins without an id are appended after the old ones |
| `CoinRepositoryModel.UpsertAllKeepsKey` | domashna1/data/coin_repository.py:17 | the id stays a key: a table with at most one row per id keeps that property |
| `CoinRepositoryModel.Listing` | domashna1/data/coin_repository.py:40-43 | the listing has one coin per row, with id, symbol and name and no market data |
| `CoinRepositoryModel.SavedThenListed` | domashna1/data/coin_repository.py:11-43 | a saved coin that is the last of its id in the batch is listed afterwards |
| `CoinRepositoryModel.CoinRepository.constructor` | domashna1/data/coin_repository.py:8-9 | the repository opens a connection on the file |
| `CoinRepositoryModel.CoinRepository.SaveAll` | domashna1/data/coin_repository.py:11-34 | on an open connection, upserts the batch, or leaves the table unchanged when the write fails and is rolled back |
| `CoinRepositoryModel.CoinRepository.GetAllSymbols` | domashna1/data/coin_repository.py:36-50 | returns the listing of the table, or the empty list on a query error |
| `Binance.LoadSupportedPairs` | domashna1/service/binance_client.py:25-53 | a readable cache is used as is; otherwise the exchange list is fetched (empty on failure) and gives exactly the listed pairs; the cache is written unless the write fails; a record without `symbol` raises `KeyError` |
| `Binance.CacheRoundTrip` | domashna1/service/binance_client.py:25-53 | a second client loads the same pairs from the cache the first one wrote, without a request |
| `Binance.RowsOf` | domashna1/service/binance_client.py:91-105 | a page converts row by row; it fails with `ValueError` exactly when an open time is outside years 1 to 9999 |
| `Binance.PaginateStep` | domashna1/service/binance_client.py:72-108 | a non-empty page contributes its rows, and the next cursor is at least one day after the current one |
| `Binance.PaginateStops` | domashna1/service/binance_client.py:80-89 | a failed request or an empty page ends the fetch with the rows gathered so far |
| `Binance.CursorsAdvance` | domashna1/service/binance_client.py:72-108 | the cursors start at the start time, stay below now and advance by at least one day per request |
| `Binance.RequestCount` | domashna1/service/binance_client.py:72-108 | at most one request per day between start and now |
| `Binance.RowsCarryBase` | domashna1/service/binance_client.py:91-98 | every fetched row carries the pair's base symbol |
| `Binance.RowsDatedFrom` | domashna1/service/binance_client.py:93-99 | every fetched row is a date text on or after the start day |
| `Binance.BinanceClient.FetchOhlcv` | domashna1/service/binance_client.py:58-112 | an unsupported pair gives no rows and no request; otherwise the rows and requests are those of the pagination |
| `Binance.BinanceClient.PageRows` | domashna1/service/binance_client.py:92-105 | the rows of one page are those of the page specification: each kline in order, under the base symbol, dated by its UTC day; a timestamp outside years 1 to 9999 fails the page with `ValueError` |
| `Binance.BinanceClient.FetchDailyStats` | domashna1/service/binance_client.py:114-134 | returns a snapshot exactly when the pair is supported and the request succeeds; it is saved under the pair with absent values read as 0 |
| `Binance.NewBinanceClient` | domashna1/service/binance_client.py:15-23 | the client exists exactly when loading the pairs succeeds, and holds those pairs |
| `Binance.ReloadSucceeds` | domashna1/service/binance_client.py:15-36 | a client built after one that loaded its pairs loads the same pairs, from the written cache or from the endpoint again |
| `CoinGecko.TopCoinsHasPage` | domashna1/service/coingecko_client.py:18-34 | every coin of every page that was fetched is in the result |
| `CoinGecko.TopCoinsBound` | domashna1/service/coingecko_client.py:14-37 | the result holds at most `per_page * pages` coins |
| `CoinGecko.DailyDataExact` | domashna1/service/coingecko_client.py:52-76 | the rows are exactly the price points on or after the start day, in order, each with its own date and price and its volume when one exists at that index |
| `CoinGecko.CoinGeckoClient.GetTopCoins` | domashna1/service/coingecko_client.py:14-37 | requests pages 1 to `pages` once each and returns their coins in page order |
| `CoinGecko.CoinGeckoClient.FetchDailyData` | domashna1/service/coingecko_client.py:39-76 | its loop returns the rows that the daily-data specification describes |
| `CoinGecko.CoinGeckoClient.ChartRows` | domashna1/service/coingecko_client.py:59-73 | when every timestamp can be dated the result is the rows of all price points on or after the start day; otherwise `ValueError` |
| `CoinGecko.CoinGeckoClient.AppendPrice` | domashna1/service/coingecko_client.py:61-73 | one price point appends exactly its own row when it is on or after the start day, leaves the rows as they were before it, or raises `ValueError` when its timestamp cannot be dated |
| `Filter1.ValidCoinsExact` | domashna1/pipeline/filter1_fetch_coins.py:31-47 | the coins are exactly the records with a truthy market cap and the keys `id`, `symbol`, `name`, in order, each built from its record |
| `Filter1.ValidCoinsHaveCap` | domashna1/pipeline/filter1_fetch_coins.py:34-35 | every kept coin has a non-zero market cap, and a record is kept exactly when it has one and all keys |
| `Filter1.Filter1FetchCoins.constructor` | domashna1/pipeline/filter1_fetch_coins.py:13-20 | the filter uses the given repository |
| `Filter1.Filter1FetchCoins.Process` | domashna1/pipeline/filter1_fetch_coins.py:22-58 | returns the valid coins of the four 250-coin pages, and upserts them into `coins` unless saving fails |
| `Filter2.StartMs` | domashna1/pipeline/filter2_check_last_date.py:35-39 | without a watermark, start 3650 days before now, and `OverflowError` exactly when that is before year 1; with one that `strptime` accepts, including non-padded forms such as `2024-1-5`, start at midnight of the next day, and `OverflowError` when there is no next day (`9999-12-31`); a watermark it rejects raises its error |
| `Filter2.SyncUnsupported` | domashna1/pipeline/filter2_check_last_date.py:29-31 | an unsupported pair yields a zero-count result without touching the store or the network |
| `Filter2.SyncTouchesOnlyItsCoin` | domashna1/pipeline/filter2_check_last_date.py:21-62 | one coin only appends rows carrying its base symbol and only sets its own pair's stats; it raises exactly when the symbol is `None` or the connection cannot be opened |
| `Filter2.SyncCountsAppended` | domashna1/pipeline/filter2_check_last_date.py:42-53 | when the insert does not fail, the reported count is the number of rows appended |
| `Filter2.SyncWatermarkMonotone` | domashna1/pipeline/filter2_check_last_date.py:42-44 | no symbol's watermark goes down |
| `Filter2.SyncResumesAfterWatermark` | domashna1/pipeline/filter2_check_last_date.py:33-44 | when the watermark query does not fail, every appended row is strictly later than every day stored before under the coin's upper-cased symbol; for a symbol without `"USDT"` that is where its rows go (`Filter2.SyncRowsKey`), so such a sync never refetches a stored day |
| `Filter2.SyncRowsKey` | domashna1/pipeline/filter2_check_last_date.py:23-44 | the rows a coin appends are stored under its upper-cased symbol exactly when that symbol does not contain `"USDT"` |
| `Filter2.UsdtSymbolKeepsWatermark` | domashna1/pipeline/filter2_check_last_date.py:33-44 | for a symbol containing `"USDT"`, a sync leaves the watermark read under that symbol as it was, so a coin with none stored starts ten years back on every run |
| `Filter2.Collect` | domashna1/pipeline/filter2_check_last_date.py:76-77 | results are gathered in completion order, and the first worker exception propagates |
| `Filter2.CollectStopsAt` | domashna1/pipeline/filter2_check_last_date.py:76-77 | the exception raised is the first one in completion order |
| `Filter2.RunAllResults` | domashna1/pipeline/filter2_check_last_date.py:70-77 | there is one outcome per completed worker, naming its coin's upper-cased symbol and pair |
| `Filter2.ProcessOneResultPerCoin` | domashna1/pipeline/filter2_check_last_date.py:64-83 | a returned list has exactly one result per coin, in completion order |
| `Filter2.RunAllKeepsHistory` | domashna1/pipeline/filter2_check_last_date.py:64-83 | stored history is never changed or removed, only extended |
| `Filter2.Filter2FetchHistory.constructor` | domashna1/pipeline/filter2_check_last_date.py:18-19 | the filter uses the given client |
| `Filter2.Filter2FetchHistory.SyncWith` | domashna1/pipeline/filter2_check_last_date.py:28-55 | the `try` block does what the sync specification says, on the store |
| `Filter2.Filter2FetchHistory.ProcessSingleCoin` | domashna1/pipeline/filter2_check_last_date.py:21-62 | one worker does what the per-coin specification says, on the store |
| `Filter2.Filter2FetchHistory.SubmitAll` | domashna1/pipeline/filter2_check_last_date.py:71-74 | the comprehension submits every coin up to and including the first without a symbol, and raises exactly when there is such a coin |
| `Filter2.Filter2FetchHistory.CollectResults` | domashna1/pipeline/filter2_check_last_date.py:76-77 | the results are collected in completion order, and the first worker that raised re-raises its exception |
| `Filter2.Filter2FetchHistory.Process` | domashna1/pipeline/filter2_check_last_date.py:64-83 | the stage does what the stage specification says, on the store |
| `Filter3.FillAddsNothing` | domashna1/pipeline/filter3_fetch_missing_data.py:18-56 | every coin that returns reports 0 rows added; a coin raises exactly when its connection fails or it has no symbol |
| `Filter3.FillMissesBaseHistory` | domashna1/pipeline/filter3_fetch_missing_data.py:28-31 | the watermark is looked up under the pair, so history stored under base symbols is never found |
| `Filter3.ToCoins` | domashna1/pipeline/filter3_fetch_missing_data.py:60 | dictionaries become coins with their symbol, coins stay; a dictionary without `symbol` raises `KeyError` |
| `Filter3.Returned` | domashna1/pipeline/filter3_fetch_missing_data.py:68-74 | never more results than workers, each the value of a worker that returned, and one per worker when every worker returned |
| `Filter3.ReturnedExact` | domashna1/pipeline/filter3_fetch_missing_data.py:68-74 | the results are exactly the values of the workers that returned, in completion order: a failed worker is dropped and every other result is kept |
| `Filter3.FillAllResults` | domashna1/pipeline/filter3_fetch_missing_data.py:58-77 | the stage returns at most one result per input, all "added 0", and exactly one per input when every connection opens and every symbol is present |
| `Filter3.Filter3FillMissing.constructor` | domashna1/pipeline/filter3_fetch_missing_data.py:15-16 | the filter uses the given client |
| `Filter3.Filter3FillMissing.FillWith` | domashna1/pipeline/filter3_fetch_missing_data.py:23-53 | the `try` block reports 0 added on every path; its path follows support and the watermark query |
| `Filter3.Filter3FillMissing.ProcessSingle` | domashna1/pipeline/filter3_fetch_missing_data.py:18-56 | one worker does what the per-coin specification says |
| `Filter3.Filter3FillMissing.ConvertItems` | domashna1/pipeline/filter3_fetch_missing_data.py:60 | each dictionary becomes a coin holding only its symbol and each coin is kept as it is; the first dictionary without "symbol" raises `KeyError` |
| `Filter3.Filter3FillMissing.Process` | domashna1/pipeline/filter3_fetch_missing_data.py:58-77 | the stage does what the stage specification says |
| `PipelineRunner.RunPrefixStops` | domashna1/pipeline/pipeline_runner.py:10-18 | once a filter raises, no later filter runs |
| `PipelineRunner.RunChains` | domashna1/pipeline/pipeline_runner.py:10-18 | the first filter gets no argument and each later one gets its predecessor's output; a run that returns ran every filter and returns the last output |
| `PipelineRunner.Pipeline.constructor` | domashna1/pipeline/pipeline_runner.py:7-8 | the pipeline keeps its filters |
| `PipelineRunner.Pipeline.Run` | domashna1/pipeline/pipeline_runner.py:10-18 | the loop does what the chaining specification says |
| `RunPipeline.AsItems` | domashna1/run_pipeline.py:30 | stage 3 receives one dictionary per stage-2 result, holding its symbol |
| `RunPipeline.HistoryStage` | domashna1/run_pipeline.py:22-24 | stage 2 leaves the result and the tables its specification gives, keeps all stored history and returns one result per coin |
| `RunPipeline.FillStage` | domashna1/run_pipeline.py:28-30 | stage 3 returns at most one result per stage-2 result, and exactly one each when every connection opens |
| `RunPipeline.Run` | domashna1/run_pipeline.py:12-36 | the run upserts the valid coins; it fails exactly when the repository cannot open, Binance's pairs cannot be loaded, or stage 2 re-raises, each with that error; otherwise the history and stats tables are those stage 2 leaves; a run that completes logs F1 = the coin count, F2 = F1 and F3 <= F2, with F3 = F2 when every stage-3 connection opens |
| `TechAnalysis.SafeFloat` | domashna3/tech_analiza.py:106-112 | a value is read exactly when the key holds a number, or a non-empty series whose last value is a number; the value is that number, or that last value |
| `TechAnalysis.Oscillator` | domashna3/tech_analiza.py:129-154 | an oscillator votes +1 below the buy level, -1 above the sell level, 0 in between, and does not vote when missing |
| `TechAnalysis.Above` | domashna3/tech_analiza.py:137-138 | a comparison votes +1 when strictly above and -1 otherwise, and only when both values exist |
| `TechAnalysis.BandPoints` | domashna3/tech_analiza.py:165-169 | with all three values defined, the Bollinger bands give +1 exactly when the close is below the lower band, -1 exactly when it is not and is above the upper band, and 0 otherwise |
| `TechAnalysis.VolumePoints` | domashna3/tech_analiza.py:170-172 | volume gives +1 exactly when it exceeds a positive volume average |
| `TechAnalysis.MaPointsBounds` | domashna3/tech_analiza.py:158-172 | the moving-average points lie between -4 and 5 |
| `TechAnalysis.BreakdownShape` | domashna3/tech_analiza.py:129-174 | the breakdown ends with `MAs`, doubled when ADX is strong; `RSI` and `MACD` appear exactly when their inputs exist |
| `TechAnalysis.SumValuesConcat` | domashna3/tech_analiza.py:176 | the sum of the breakdown's values adds over concatenation |
| `TechAnalysis.VotesBounds` | domashna3/tech_analiza.py:129-154 | the four oscillator votes sum to between -4 and 4 |
| `TechAnalysis.ScoreBounds` | domashna3/tech_analiza.py:129-177 | the total score lies between -12 and 14 |
| `TechAnalysis.SignalOf` | domashna3/tech_analiza.py:191-193 | `BUY` exactly at score >= 2, `SELL` exactly at <= -2, `HOLD` otherwise |
| `TechAnalysis.AddVotes` | domashna3/tech_analiza.py:129-154 | the if-chain builds the votes that the breakdown specification gives |
| `TechAnalysis.AccumulateMaPoints` | domashna3/tech_analiza.py:158-172 | the accumulation gives the moving-average points, within -4 and 5 |
| `TechAnalysis.RuleScoreRow` | domashna3/tech_analiza.py:103-177 | returns the breakdown of the row's indicators and its sum, between -12 and 14 |
| `TechAnalysis.GenerateSignals` | domashna3/tech_analiza.py:180-195 | one score, breakdown and signal per row, in order, each the row's rule score and its signal |
| `StrategyFactory.Create` | domashna4/strategy_pattern/factory.py:7-14 | `"RSI"`, `"SMA"` and `"MACD"` give their strategies (case-sensitive); every other name raises `ValueError` |
| `StrategyFactory.CreateByName` | domashna4/strategy_pattern/factory.py:7-14 | each strategy is built from its own name and from no other |
| `Lstm.PrepareData` | lstm/lstm.py:9-14 | `len(series) - window` samples (none when the series is shorter); sample `k` is the window starting at `k`, and its target is the value right after it |

## Left out

- **HTTP, JSON, logging, `time.sleep` and timers.** They are not modelled. The responses are the parameters described above, and decoding errors of a response body are not modelled.
- **Concurrency is only modelled as an order.** Workers run one after another in a given completion order, so interleavings inside a worker are not modelled. The model does not prove that stage 2's final store is the same for every completion order.
- **Time zones.** The naive local time of `datetime.now()` and `strptime` is taken as UTC.
- **Floating point.** Prices and volumes are reals. In the technical analysis, `NaN` is an absent value and infinities are not modelled.
- **The SQL text and table creation.** These are replaced by the table operations above. A failing `CREATE TABLE` is only logged and is not modelled.
- **The `filter_base.Filter` base class.** `domashna1/pipeline/filter_base.py` is not part of this model; `Filter1` is modelled without it.
- **Stage 1's `except` around `get_top_coins`.** The client catches every exception itself, so that branch cannot be taken.
- **Stage 3's fetch.** Lines 33-49 after `datetime.combine` are never reached, so they are not modelled; `save_history_batch`, which they call, does not exist on `Database`.
- **The connection of a stage-3 coin without a symbol.** `Database()` runs before `.upper()` raises, and that connection is never closed. The model does not track open connections after a worker ends.
- **The `__main__` block** of `pipeline_runner.py`, which runs stages 1 and 2 only.
- **`max_workers`.** The pool size only bounds concurrency and is not modelled.
- Text.Upper: only ASCII letters are upper-cased. Python's `str.upper()` also maps other cased letters and can change the length (`'ß'` becomes `"SS"`, `'ſ'` becomes `'S'`); symbols with such letters are not modelled.
- **Binance's klines start at the cursor.** `Binance.Paginate` and the lemmas about it, `Binance.BinanceClient.FetchOhlcv`, the stage-2 members (`Filter2.SyncCoin`, `Filter2.ProcessSpec`, `Filter2.Filter2FetchHistory.Process` and the lemmas about them) and `RunPipeline.HistoryStage` and `RunPipeline.Run` require `KlinesFromCursor`: every candle of a reply opens at or after the requested `startTime`. The code has no guard against a reply that breaks this; if a page's last open time lies more than a day before the cursor, `start_ts` moves backwards (domashna1/service/binance_client.py:107-108) and the loop need not end. Such replies are not modelled.
- TechAnalysis.SafeFloat: a series whose last element cannot be converted to `float` raises in the code; the model only has numbers and `NaN` in series.
- **`add_indicators`, `resample_ohlcv`, `load_price`, `analyze` and `latest_summary`.** These compute with pandas, `ta` and yfinance and are not modelled.
- **The strategies and the LSTM model.** The strategies' own behaviour and the training and prediction in `run_lstm_prediction` are not modelled.
- Lstm.PrepareData: the window is a natural number; a negative window, which Python would slice from the end, is not modelled.
- **Numpy's conversion to arrays.** `prepare_data` returns lists of windows, not arrays of them.
