/** domashna1/run_pipeline.py: the three filters, each built with its default
    collaborators, run one after another on the same database file. */
module RunPipeline {
  import opened Common
  import opened CoinModel
  import opened Db
  import opened CoinRepositoryModel
  import opened CoinGecko
  import opened Binance
  import opened ThreadPool
  import opened Filter1
  import opened Filter2
  import opened Filter3

  /** Everything outside the program that a run depends on: both APIs, the clock,
      which store operations fail, and the order in which each pool's workers
      complete. */
  datatype Env = Env(
    gecko: GeckoApi,
    binance: BinanceApi,
    nowMs: int,
    repositoryOpenFails: bool,
    saveFails: bool,
    cacheWriteFails: bool,
    order2: seq<nat>,
    faults2: nat -> CoinFaults,
    order3: seq<nat>,
    faults3: nat -> FillFaults)

  /** The three lengths the run logs at the end. */
  datatype Summary = Summary(coins: nat, afterHistory: nat, afterFill: nat)

  /** The coins stage 1 returns. */
  function Stage1Coins(env: Env): seq<Coin>
  {
    ValidCoins(TopCoins(env.gecko, 250, 4))
  }

  /** Stage 3 is handed stage 2's result dictionaries; each has a "symbol" entry. */
  function AsItems(results: seq<HistoryResult>): (items: seq<Item>)
    ensures |items| == |results|
    ensures forall k :: 0 <= k < |results| ==> items[k] == DictItem(Present(results[k].symbol))
  {
    seq(|results|, k requires 0 <= k < |results| => DictItem(Present(results[k].symbol)))
  }

  /** Stage 2 as the run sees it: the rows stored before stay first and
      unchanged, and a returned list has one result per coin. */
  method HistoryStage(f2: Filter2FetchHistory, env: Env, file: CryptoDb, coins: seq<Coin>)
    returns (results: Result<seq<HistoryResult>>)
    requires KlinesFromCursor(env.binance)
    requires IsOrder(env.order2, Submitted(coins))
    modifies file`history, file`dailyStats
    ensures (results, Filter2.Tables(file.history, file.dailyStats)) ==
              ProcessSpec(f2.binance, env.binance, env.nowMs, env.faults2,
                          Filter2.Tables(old(file.history), old(file.dailyStats)), coins, env.order2)
    ensures |old(file.history)| <= |file.history| && file.history[..|old(file.history)|] == old(file.history)
    ensures results.Ok? ==> |results.value| == |coins|
  {
    ghost var t0 := Filter2.Tables(file.history, file.dailyStats);
    results := f2.Process(env.binance, file, coins, env.order2, env.nowMs, env.faults2);
    RunAllKeepsHistory(f2.binance, env.binance, env.nowMs, env.faults2, t0, coins, env.order2);
    if results.Ok? {
      ProcessOneResultPerCoin(f2.binance, env.binance, env.nowMs, env.faults2, t0, coins, env.order2);
    }
  }

  /** Stage 2 of a run as a function of the tables before it: the error of
      loading Binance's pairs, or the stage's result and the tables after it. */
  function HistorySpec(env: Env, cache: CacheFile, t: Filter2.Tables): Result<(Result<seq<HistoryResult>>, Filter2.Tables)>
    requires KlinesFromCursor(env.binance)
    requires IsOrder(env.order2, Submitted(Stage1Coins(env)))
  {
    match NewBinanceClient(cache, env.binance.exchangeInfo, env.cacheWriteFails)
    case Err(e) => Err(e)
    case Ok(client) => Ok(ProcessSpec(client.0, env.binance, env.nowMs, env.faults2, t, Stage1Coins(env), env.order2))
  }

  /** Stage 3 as the run sees it: handed stage 2's dictionaries, it never raises,
      returns at most one result per dictionary, and exactly one per dictionary
      when every connection opens. */
  method FillStage(f3: Filter3FillMissing, env: Env, file: CryptoDb, results: seq<HistoryResult>)
    returns (filled: seq<FillResult>)
    requires IsOrder(env.order3, |results|)
    ensures |filled| <= |results|
    ensures (forall k :: 0 <= k < |results| ==> !env.faults3(k).openFails) ==> |filled| == |results|
  {
    var items := AsItems(results);
    assert forall k :: 0 <= k < |items| ==> ToCoin(items[k]) == Ok(Coin(None, Some(results[k].symbol), None));
    var r := f3.Process(file, items, env.order3, env.faults3);
    FillAllResults(f3.binance, file.history, env.faults3, items, env.order3);
    filled := r.value;
  }

  /** `run_pipeline`: stage 1 is called without an argument, stage 2 with stage 1's
      coins, stage 3 with stage 2's results; nothing is caught, so the first
      exception (opening the repository's connection, loading Binance's pairs,
      or one re-raised by stage 2) ends the run. The cache file is threaded
      through the two Binance clients. */
  method Run(env: Env, file: CryptoDb, cache: CacheFile) returns (r: Result<Summary>, cacheAfter: CacheFile)
    requires KlinesFromCursor(env.binance)
    requires IsOrder(env.order2, Submitted(Stage1Coins(env)))
    requires IsOrder(env.order3, |Stage1Coins(env)|)
    modifies file`coins, file`history, file`dailyStats
    ensures env.repositoryOpenFails ==> r == Err(SqliteError) && file.coins == old(file.coins)
    ensures !env.repositoryOpenFails ==>
              file.coins == if env.saveFails then old(file.coins) else UpsertAll(old(file.coins), Stage1Coins(env))
    ensures env.repositoryOpenFails ==> file.history == old(file.history) && file.dailyStats == old(file.dailyStats)
    ensures !env.repositoryOpenFails ==>
              var s := HistorySpec(env, cache, Filter2.Tables(old(file.history), old(file.dailyStats)));
              (s.Err? ==> r == Err(s.error) && file.history == old(file.history) && file.dailyStats == old(file.dailyStats)) &&
              (s.Ok? ==> Filter2.Tables(file.history, file.dailyStats) == s.value.1 &&
                         (s.value.0.Err? ==> r == Err(s.value.0.error)) &&
                         (s.value.0.Ok? ==> r.Ok? && r.value.afterHistory == |s.value.0.value|))
    ensures |old(file.history)| <= |file.history| && file.history[..|old(file.history)|] == old(file.history)
    ensures r.Ok? ==> r.value.coins == |Stage1Coins(env)| && r.value.afterHistory == r.value.coins
    ensures r.Ok? ==> r.value.afterFill <= r.value.afterHistory
    ensures r.Ok? && (forall k :: 0 <= k < r.value.afterHistory ==> !env.faults3(k).openFails) ==>
              r.value.afterFill == r.value.afterHistory
  {
    cacheAfter := cache;
    if env.repositoryOpenFails {
      return Err(SqliteError), cacheAfter;
    }
    var repository := new CoinRepository(file);
    var f1 := new Filter1FetchCoins(repository);
    var coins := f1.Process(env.gecko, env.saveFails);

    var client2 := NewBinanceClient(cacheAfter, env.binance.exchangeInfo, env.cacheWriteFails);
    if client2.Err? {
      return Err(client2.error), cacheAfter;
    }
    cacheAfter := client2.value.1;
    var f2 := new Filter2FetchHistory(client2.value.0);
    var results := HistoryStage(f2, env, file, coins);
    if results.Err? {
      return Err(results.error), cacheAfter;
    }

    // The stage-3 client reloads the pairs the stage-2 client loaded.
    ReloadSucceeds(cache, env.binance.exchangeInfo, env.cacheWriteFails);
    var client3 := NewBinanceClient(cacheAfter, env.binance.exchangeInfo, env.cacheWriteFails);
    cacheAfter := client3.value.1;
    var f3 := new Filter3FillMissing(client3.value.0);
    var filled := FillStage(f3, env, file, results.value);
    r := Ok(Summary(|coins|, |results.value|, |filled|));
  }
}
