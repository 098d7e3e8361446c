/** domashna1/pipeline/filter3_fetch_missing_data.py: meant to fill gaps after
    the last stored date, it never reaches its fetch. It looks the watermark up
    under the pair (stored rows carry the base symbol), and when one is found,
    `datetime.combine` is handed the date string and raises `TypeError`, which
    the `try` turns into "added 0". */
module Filter3 {
  import opened Common
  import opened Text
  import opened CoinModel
  import opened Db
  import opened Binance
  import opened ThreadPool
  import opened Selection

  /** The dictionary `_process_single` returns. */
  datatype FillResult = FillResult(coin: string, added: nat)

  /** An element of `process`'s input: a `Coin`, or a dictionary whose "symbol"
      entry is absent, `null`, or a string. */
  datatype Item = CoinItem(coin: Coin) | DictItem(symbol: Field<string>)

  /** Which store operations fail for one coin: opening the connection, which
      raises out of the worker, and the watermark query, which reads as `None`. */
  datatype FillFaults = FillFaults(openFails: bool, queryFails: bool)

  /** How the `try` block ends for a symbol, on an open connection. */
  datatype FillPath =
    | Unsupported      // the pair is not listed
    | NoWatermark      // nothing stored under the pair, or the query failed
    | CombineRaised    // `datetime.combine(<str>, time.min)` raised `TypeError`

  /** The path the `try` block takes. */
  function FillPathOf(binance: BinanceClient, history: seq<HistoryRow>, queryFails: bool, symbol: string): FillPath
  {
    var pair := symbol + Quote;
    if !binance.IsSupported(pair) then Unsupported
    else if queryFails || LastDate(history, pair).None? then NoWatermark
    else CombineRaised
  }

  /** `_process_single`: `Database()` and `coin.symbol.upper()` come before the
      `try`, so their exceptions escape the worker. Every path inside the `try`
      returns "added 0". */
  function FillCoin(binance: BinanceClient, history: seq<HistoryRow>, f: FillFaults, coin: Coin): Result<FillResult>
  {
    if f.openFails then Err(SqliteError)
    else if coin.symbol.None? then Err(AttributeError("upper"))
    else
      var symbol := Upper(coin.symbol.value);
      match FillPathOf(binance, history, f.queryFails, symbol)
      case Unsupported => Ok(FillResult(symbol, 0))
      case NoWatermark => Ok(FillResult(symbol, 0))
      case CombineRaised => Ok(FillResult(symbol, 0))
  }

  /** No coin is ever reported as having rows added, and a coin raises only
      when its connection cannot be opened or it has no symbol. */
  lemma FillAddsNothing(binance: BinanceClient, history: seq<HistoryRow>, f: FillFaults, coin: Coin)
    ensures var r := FillCoin(binance, history, f, coin);
      (r.Ok? <==> !f.openFails && coin.symbol.Some?) &&
      (r.Ok? ==> r.value == FillResult(Upper(coin.symbol.value), 0))
  {
  }

  /** A coin is looked up under its pair, so a watermark is only ever found for a
      pair under which rows were stored; rows written by the ingestion carry the
      base symbol, so for a symbol without "USDT" in it nothing is found, and
      the coin ends as "no watermark" even though its base symbol has history. */
  lemma FillMissesBaseHistory(binance: BinanceClient, history: seq<HistoryRow>, symbol: string)
    requires binance.IsSupported(symbol + Quote)
    requires forall i :: 0 <= i < |history| ==> !ContainsUsdt(history[i].symbol)
    ensures FillPathOf(binance, history, false, symbol) == NoWatermark
  {
    MaxDateIsMaximum(history, symbol + Quote);
    if MaxDateOf(history, symbol + Quote).Some? {
      var k :| 0 <= k < |history| && history[k].symbol == symbol + Quote;
      assert UsdtAt(history[k].symbol, |symbol|);
    }
  }

  /** `Coin(symbol=c["symbol"], id=None, ...)` for a dictionary; a `Coin` as is. */
  function ToCoin(item: Item): Result<Coin>
  {
    match item
    case CoinItem(c) => Ok(c)
    case DictItem(Missing) => Err(KeyError("symbol"))
    case DictItem(Null) => Ok(Coin(None, None, None))
    case DictItem(Present(s)) => Ok(Coin(None, Some(s), None))
  }

  /** The list comprehension: the first dictionary without "symbol" raises. */
  function ToCoins(items: seq<Item>): (r: Result<seq<Coin>>)
    ensures r.Ok? <==> forall k :: 0 <= k < |items| ==> ToCoin(items[k]).Ok?
    ensures r.Ok? ==> |r.value| == |items| && forall k :: 0 <= k < |items| ==> ToCoin(items[k]) == Ok(r.value[k])
    ensures r.Err? ==> r.error == KeyError("symbol")
  {
    if items == [] then Ok([])
    else match ToCoins(items[..|items| - 1])
      case Err(e) => Err(e)
      case Ok(init) =>
        match ToCoin(items[|items| - 1])
        case Err(e) => Err(e)
        case Ok(c) => Ok(init + [c])
  }

  /** The values of the workers that returned, in completion order; the others
      are logged and dropped. */
  function Returned(results: seq<Result<FillResult>>): (r: seq<FillResult>)
    ensures |r| <= |results|
    ensures (forall k :: 0 <= k < |results| ==> results[k].Ok?) ==> |r| == |results|
    ensures forall x :: x in r ==> Ok(x) in results
  {
    if results == [] then []
    else
      var init := Returned(results[..|results| - 1]);
      var last := results[|results| - 1];
      assert forall x :: Ok(x) in results[..|results| - 1] ==> Ok(x) in results;
      if last.Ok? then init + [last.value] else init
  }

  /** The workers' outcomes in completion order. */
  function RunFills(binance: BinanceClient, history: seq<HistoryRow>, faults: nat -> FillFaults,
                    coins: seq<Coin>, order: seq<nat>): (r: seq<Result<FillResult>>)
    requires forall k :: 0 <= k < |order| ==> order[k] < |coins|
    ensures |r| == |order|
    ensures forall k :: 0 <= k < |order| ==> r[k] == FillCoin(binance, history, faults(order[k]), coins[order[k]])
  {
    seq(|order|, k requires 0 <= k < |order| => FillCoin(binance, history, faults(order[k]), coins[order[k]]))
  }

  /** One more outcome: its result is kept exactly when the worker returned. */
  lemma ReturnedSnoc(outcomes: seq<Result<FillResult>>, res: Result<FillResult>)
    ensures Returned(outcomes + [res]) == Returned(outcomes) + (if res.Ok? then [res.value] else [])
  {
    assert (outcomes + [res])[..|outcomes|] == outcomes;
    if !res.Ok? {
      assert Returned(outcomes) + [] == Returned(outcomes);
    }
  }

  /** A worker that returned a result rather than raising. */
  predicate Returns(res: Result<FillResult>)
  {
    res.Ok?
  }

  /** Result `k` is the value of the `k`-th worker that returned. */
  predicate ResultsMatch(outcomes: seq<Result<FillResult>>, rs: seq<FillResult>, kept: seq<nat>)
  {
    |rs| == |kept| &&
    forall k :: 0 <= k < |kept| ==> kept[k] < |outcomes| && outcomes[kept[k]].Ok? && rs[k] == outcomes[kept[k]].value
  }

  /** The results kept are exactly the values of the workers that returned, in
      completion order; together with `Kept`'s contract, no returned value is
      dropped and no failure contributes one. */
  lemma {:induction false} ReturnedExact(outcomes: seq<Result<FillResult>>)
    ensures ResultsMatch(outcomes, Returned(outcomes), Kept(outcomes, Returns))
  {
    if outcomes != [] {
      var init, last := outcomes[..|outcomes| - 1], outcomes[|outcomes| - 1];
      assert outcomes == init + [last];
      ReturnedExact(init);
      ReturnedSnoc(init, last);
      KeptSnoc(init, last, Returns);
      AppendResult(init, last, Returned(init), Kept(init, Returns));
    }
  }

  /** Matched results stay matched once a returned worker's value and position
      are appended. */
  lemma AppendResult(init: seq<Result<FillResult>>, last: Result<FillResult>, rs: seq<FillResult>, kept: seq<nat>)
    requires ResultsMatch(init, rs, kept)
    ensures ResultsMatch(init + [last], rs + (if last.Ok? then [last.value] else []), kept + (if Returns(last) then [|init|] else []))
  {
    var outcomes := init + [last];
    forall k | 0 <= k < |kept|
      ensures kept[k] < |outcomes| && outcomes[kept[k]].Ok? && rs[k] == outcomes[kept[k]].value
    {
      assert outcomes[kept[k]] == init[kept[k]];
    }
  }

  /** Running one more worker appends its outcome. */
  lemma RunFillsStep(binance: BinanceClient, history: seq<HistoryRow>, faults: nat -> FillFaults,
                     coins: seq<Coin>, order: seq<nat>, k: nat)
    requires k < |order| && forall j :: 0 <= j < |order| ==> order[j] < |coins|
    ensures RunFills(binance, history, faults, coins, order[..k + 1]) ==
            RunFills(binance, history, faults, coins, order[..k]) + [FillCoin(binance, history, faults(order[k]), coins[order[k]])]
  {
  }

  /** `process` as a function of its input. */
  function FillAll(binance: BinanceClient, history: seq<HistoryRow>, faults: nat -> FillFaults,
                   items: seq<Item>, order: seq<nat>): Result<seq<FillResult>>
    requires IsOrder(order, |items|)
  {
    match ToCoins(items)
    case Err(e) => Err(e)
    case Ok(coins) => Ok(Returned(RunFills(binance, history, faults, coins, order)))
  }

  /** `process` returns at most one result per input, each "added 0"; when every
      connection opens and every input has a symbol it returns exactly one per
      input. */
  lemma FillAllResults(binance: BinanceClient, history: seq<HistoryRow>, faults: nat -> FillFaults,
                       items: seq<Item>, order: seq<nat>)
    requires IsOrder(order, |items|)
    requires FillAll(binance, history, faults, items, order).Ok?
    ensures var rs := FillAll(binance, history, faults, items, order).value;
      |rs| <= |items| &&
      (forall x :: x in rs ==> x.added == 0) &&
      ((forall k :: 0 <= k < |items| ==> !faults(k).openFails && ToCoin(items[k]).value.symbol.Some?) ==> |rs| == |items|)
  {
    var coins := ToCoins(items).value;
    var run := RunFills(binance, history, faults, coins, order);
    forall x | x in Returned(run) ensures x.added == 0 {
      var k :| 0 <= k < |run| && run[k] == Ok(x);
      FillAddsNothing(binance, history, faults(order[k]), coins[order[k]]);
    }
    if forall k :: 0 <= k < |items| ==> !faults(k).openFails && ToCoin(items[k]).value.symbol.Some? {
      forall k | 0 <= k < |run| ensures run[k].Ok? {
        FillAddsNothing(binance, history, faults(order[k]), coins[order[k]]);
      }
    }
  }

  /** `Filter3FillMissing(binance_client)`. */
  class Filter3FillMissing {
    const binance: BinanceClient

    constructor (binance: BinanceClient)
      ensures this.binance == binance
    {
      this.binance := binance;
    }

    /** The `try` block, on an open connection; the store is read, never written. */
    method FillWith(db: Database, symbol: string, queryFails: bool) returns (r: FillResult)
      requires db.isOpen
      ensures r == FillResult(symbol, 0)
      ensures match FillPathOf(binance, db.file.history, queryFails, symbol)
              case Unsupported => !binance.IsSupported(symbol + Quote)
              case NoWatermark => binance.IsSupported(symbol + Quote)
              case CombineRaised => binance.IsSupported(symbol + Quote) && !queryFails
    {
      var pair := symbol + Quote;
      if !binance.IsSupported(pair) {
        return FillResult(symbol, 0);
      }
      var last := db.GetLastDate(pair, queryFails);
      if last.value.None? {
        return FillResult(symbol, 0);
      }
      // `datetime.combine(last_date, time.min)` with a `str` raises `TypeError`,
      // caught by the `except`: the rest of the block is never reached.
      r := FillResult(symbol, 0);
    }

    /** `_process_single`: the connection is closed on every path of the `try`. */
    method ProcessSingle(file: CryptoDb, coin: Coin, f: FillFaults) returns (r: Result<FillResult>)
      ensures r == FillCoin(binance, file.history, f, coin)
    {
      if f.openFails {
        return Err(SqliteError);
      }
      var db := new Database(file);
      if coin.symbol.None? {
        return Err(AttributeError("upper"));
      }
      var symbol := Upper(coin.symbol.value);
      var result := FillWith(db, symbol, f.queryFails);
      db.Close();
      r := Ok(result);
    }

    /** The list comprehension at the head of `process`, as a loop. */
    method ConvertItems(items: seq<Item>) returns (r: Result<seq<Coin>>)
      ensures r == ToCoins(items)
    {
      var coins: seq<Coin> := [];
      var i := 0;
      while i < |items|
        invariant 0 <= i <= |items|
        invariant ToCoins(items[..i]) == Ok(coins)
      {
        assert items[..i + 1][..i] == items[..i];
        var c := ToCoin(items[i]);
        if c.Err? {
          assert ToCoins(items[..i + 1]).Err?;
          assert ToCoins(items).Err? by { assert !ToCoin(items[i]).Ok?; }
          return Err(c.error);
        }
        coins := coins + [c.value];
        i := i + 1;
      }
      assert items[..i] == items;
      r := Ok(coins);
    }

    /** `process`: converts dictionaries to coins, runs the workers in `order`,
        and keeps the results of those that returned. */
    method Process(file: CryptoDb, items: seq<Item>, order: seq<nat>, faults: nat -> FillFaults)
      returns (r: Result<seq<FillResult>>)
      requires IsOrder(order, |items|)
      ensures r == FillAll(binance, file.history, faults, items, order)
    {
      var converted := ConvertItems(items);
      if converted.Err? {
        return Err(converted.error);
      }
      var coins := converted.value;
      ghost var outcomes: seq<Result<FillResult>> := [];
      var results: seq<FillResult> := [];
      var k := 0;
      while k < |order|
        invariant 0 <= k <= |order|
        invariant outcomes == RunFills(binance, file.history, faults, coins, order[..k])
        invariant results == Returned(outcomes)
      {
        var res := ProcessSingle(file, coins[order[k]], faults(order[k]));
        RunFillsStep(binance, file.history, faults, coins, order, k);
        ReturnedSnoc(outcomes, res);
        outcomes := outcomes + [res];
        if res.Ok? {
          results := results + [res.value];
        }
        k := k + 1;
      }
      assert order[..k] == order;
      r := Ok(results);
    }
  }
}
