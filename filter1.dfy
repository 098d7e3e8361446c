/** domashna1/pipeline/filter1_fetch_coins.py: the first filter turns the
    CoinGecko ranking into `Coin`s, skipping incomplete records, and upserts them. */
module Filter1 {
  import opened Common
  import opened CoinModel
  import opened Db
  import opened CoinRepositoryModel
  import opened CoinGecko
  import opened Selection

  /** `c.get("market_cap")` is truthy: present, not null and not zero. */
  predicate HasMarketCap(r: RawCoin)
  {
    r.marketCap.Present? && r.marketCap.value != 0.0
  }

  /** `c["id"]`, `c["symbol"]` and `c["name"]` do not raise `KeyError`. */
  predicate HasKeys(r: RawCoin)
  {
    !r.id.Missing? && !r.symbol.Missing? && !r.name.Missing?
  }

  /** A record the filter keeps. */
  predicate Keeps(r: RawCoin)
  {
    HasMarketCap(r) && HasKeys(r)
  }

  /** A present JSON field read with `c[key]`: `null` reads as `None`. */
  function Read<T>(f: Field<T>): Option<T>
    requires !f.Missing?
  {
    if f.Null? then None else Some(f.value)
  }

  /** `c.get(key)`: an absent or null field reads as `None`. */
  function Get<T>(f: Field<T>): Option<T>
  {
    if f.Present? then Some(f.value) else None
  }

  /** The coin built from a kept record. */
  function CoinOf(r: RawCoin): Coin
    requires Keeps(r)
  {
    Coin(Read(r.id), Read(r.symbol), Read(r.name), Some(r.marketCap.value), Get(r.marketCapRank))
  }

  /** The coins the loop builds from the first records, in order. */
  function ValidCoins(raw: seq<RawCoin>): seq<Coin>
  {
    if raw == [] then []
    else ValidCoins(raw[..|raw| - 1]) + (if Keeps(raw[|raw| - 1]) then [CoinOf(raw[|raw| - 1])] else [])
  }

  /** Coin `k` is built from the record at the `k`-th kept position. */
  predicate CoinsMatch(raw: seq<RawCoin>, coins: seq<Coin>, kept: seq<nat>)
  {
    |coins| == |kept| &&
    forall k :: 0 <= k < |kept| ==> kept[k] < |raw| && Keeps(raw[kept[k]]) && coins[k] == CoinOf(raw[kept[k]])
  }

  /** The filter's output is the coin of each kept record and of no other, in the
      ranking's order. */
  lemma {:induction false} ValidCoinsExact(raw: seq<RawCoin>)
    ensures CoinsMatch(raw, ValidCoins(raw), Kept(raw, Keeps))
  {
    if raw != [] {
      var init := raw[..|raw| - 1];
      assert raw == init + [raw[|raw| - 1]];
      ValidCoinsExact(init);
      ValidCoinsSnoc(init, raw[|raw| - 1]);
    }
  }

  /** One more record extends the matched coins and positions together. */
  lemma ValidCoinsSnoc(init: seq<RawCoin>, r: RawCoin)
    requires CoinsMatch(init, ValidCoins(init), Kept(init, Keeps))
    ensures CoinsMatch(init + [r], ValidCoins(init + [r]), Kept(init + [r], Keeps))
  {
    var raw := init + [r];
    assert raw[..|raw| - 1] == init;
    assert ValidCoins(raw) == ValidCoins(init) + (if Keeps(r) then [CoinOf(r)] else []);
    KeptSnoc(init, r, Keeps);
    AppendCoin(init, r, ValidCoins(init), Kept(init, Keeps));
  }

  /** Matching coins stay matched once a record's coin and position are
      appended when it is kept. */
  lemma AppendCoin(init: seq<RawCoin>, r: RawCoin, coins: seq<Coin>, kept: seq<nat>)
    requires CoinsMatch(init, coins, kept)
    ensures CoinsMatch(init + [r], coins + (if Keeps(r) then [CoinOf(r)] else []), kept + (if Keeps(r) then [|init|] else []))
  {
    var raw := init + [r];
    forall k | 0 <= k < |kept|
      ensures kept[k] < |raw| && Keeps(raw[kept[k]]) && coins[k] == CoinOf(raw[kept[k]])
    {
      assert raw[kept[k]] == init[kept[k]];
    }
  }

  /** Every coin the filter returns has a non-zero market capitalisation, and a
      record is among the kept ones exactly when it has one and its id, symbol and
      name keys. */
  lemma ValidCoinsHaveCap(raw: seq<RawCoin>)
    ensures forall c :: c in ValidCoins(raw) ==> c.marketCap.Some? && c.marketCap.value != 0.0
    ensures forall i :: 0 <= i < |raw| ==> (i in Kept(raw, Keeps) <==> HasMarketCap(raw[i]) && HasKeys(raw[i]))
  {
    ValidCoinsExact(raw);
    var kept := Kept(raw, Keeps);
    forall c | c in ValidCoins(raw) ensures c.marketCap.Some? && c.marketCap.value != 0.0 {
      var k :| 0 <= k < |ValidCoins(raw)| && ValidCoins(raw)[k] == c;
      assert Keeps(raw[kept[k]]);
    }
  }

  /** `Filter1FetchCoins(client, repository)`. */
  class Filter1FetchCoins {
    const client: CoinGeckoClient
    const repository: CoinRepository

    constructor (repository: CoinRepository)
      ensures this.repository == repository
    {
      client := CoinGeckoClient;
      this.repository := repository;
    }

    /** `process`: fetches the ranking (250 coins a page, 4 pages), keeps the
        complete records with a market capitalisation, saves them, and returns
        them whether or not saving succeeded. */
    method Process(api: GeckoApi, saveFails: bool) returns (coins: seq<Coin>)
      modifies repository.db.file`coins
      ensures coins == ValidCoins(TopCoins(api, 250, 4))
      ensures repository.db.file.coins ==
                if repository.db.isOpen && !saveFails then UpsertAll(old(repository.db.file.coins), coins)
                else old(repository.db.file.coins)
    {
      var raw, _ := client.GetTopCoins(api);
      coins := [];
      var i := 0;
      while i < |raw|
        invariant 0 <= i <= |raw|
        invariant coins == ValidCoins(raw[..i])
      {
        assert raw[..i + 1][..i] == raw[..i];
        var c := raw[i];
        if HasMarketCap(c) && HasKeys(c) {
          coins := coins + [Coin(Read(c.id), Read(c.symbol), Read(c.name), Some(c.marketCap.value), Get(c.marketCapRank))];
        }
        i := i + 1;
      }
      assert raw[..i] == raw;
      var _ := repository.SaveAll(coins, saveFails);
    }
  }
}
