/** domashna1/data/coin_repository.py: the `coins` table, written by `save_all`
    and listed by `get_all_symbols`. */
module CoinRepositoryModel {
  import opened Common
  import opened CoinModel
  import opened Db

  // ---------------------------------------------------------------------------
  // INSERT OR REPLACE INTO coins, keyed by the TEXT primary key `id`

  /** The rows whose id is `x`. */
  function RowsWithId(t: seq<Coin>, x: string): (r: seq<Coin>)
    ensures |r| <= |t|
    ensures forall i :: 0 <= i < |r| ==> r[i].id == Some(x) && r[i] in t
  {
    if t == [] then []
    else (if t[0].id == Some(x) then [t[0]] else []) + RowsWithId(t[1..], x)
  }

  /** The rows without an id: SQL NULL never equals a key, so they never conflict. */
  function RowsWithoutId(t: seq<Coin>): (r: seq<Coin>)
    ensures forall i :: 0 <= i < |r| ==> r[i].id.None? && r[i] in t
  {
    if t == [] then []
    else (if t[0].id.None? then [t[0]] else []) + RowsWithoutId(t[1..])
  }

  /** The table with the row keyed `x` deleted. */
  function DeleteId(t: seq<Coin>, x: string): (r: seq<Coin>)
    ensures |r| <= |t|
  {
    if t == [] then []
    else (if t[0].id == Some(x) then [] else [t[0]]) + DeleteId(t[1..], x)
  }

  /** One `INSERT OR REPLACE`: a conflicting row is deleted and the new row gets
      a fresh rowid, so it comes last. */
  function Upsert(t: seq<Coin>, c: Coin): seq<Coin>
  {
    match c.id
    case None => t + [c]
    case Some(x) => DeleteId(t, x) + [c]
  }

  /** `executemany` of the statement over a batch, row by row. */
  function UpsertAll(t: seq<Coin>, batch: seq<Coin>): seq<Coin>
    decreases batch
  {
    if batch == [] then t else UpsertAll(Upsert(t, batch[0]), batch[1..])
  }

  /** The last coin of the batch keyed `x`, if any. */
  function LastWithId(batch: seq<Coin>, x: string): (r: Option<Coin>)
    ensures r.Some? ==> r.value.id == Some(x) && r.value in batch
    ensures r.None? <==> forall i :: 0 <= i < |batch| ==> batch[i].id != Some(x)
  {
    if batch == [] then None
    else if batch[|batch| - 1].id == Some(x) then Some(batch[|batch| - 1])
    else LastWithId(batch[..|batch| - 1], x)
  }

  /** The primary key holds: no id is stored twice. */
  ghost predicate UniqueIds(t: seq<Coin>)
  {
    forall x :: |RowsWithId(t, x)| <= 1
  }

  lemma {:induction false} RowsWithIdConcat(a: seq<Coin>, b: seq<Coin>, x: string)
    ensures RowsWithId(a + b, x) == RowsWithId(a, x) + RowsWithId(b, x)
  {
    if a == [] {
      assert a + b == b;
    } else {
      assert (a + b)[1..] == a[1..] + b;
      RowsWithIdConcat(a[1..], b, x);
    }
  }

  lemma {:induction false} RowsWithoutIdConcat(a: seq<Coin>, b: seq<Coin>)
    ensures RowsWithoutId(a + b) == RowsWithoutId(a) + RowsWithoutId(b)
  {
    if a == [] {
      assert a + b == b;
    } else {
      assert (a + b)[1..] == a[1..] + b;
      RowsWithoutIdConcat(a[1..], b);
    }
  }

  lemma {:induction false} DeleteIdEffect(t: seq<Coin>, y: string, x: string)
    ensures RowsWithId(DeleteId(t, y), x) == if x == y then [] else RowsWithId(t, x)
    ensures RowsWithoutId(DeleteId(t, y)) == RowsWithoutId(t)
  {
    if t != [] {
      DeleteIdEffect(t[1..], y, x);
      var head := if t[0].id == Some(y) then [] else [t[0]];
      RowsWithIdConcat(head, DeleteId(t[1..], y), x);
      RowsWithoutIdConcat(head, DeleteId(t[1..], y));
    }
  }

  /** One upsert: the rows keyed like the new coin become that coin alone, and
      rows without an id only ever gain the new coin at the end. */
  lemma UpsertEffect(t: seq<Coin>, c: Coin, x: string)
    ensures RowsWithId(Upsert(t, c), x) == if c.id == Some(x) then [c] else RowsWithId(t, x)
    ensures RowsWithoutId(Upsert(t, c)) == RowsWithoutId(t) + (if c.id.None? then [c] else [])
  {
    match c.id
    case None =>
      RowsWithIdConcat(t, [c], x);
      RowsWithoutIdConcat(t, [c]);
    case Some(y) =>
      DeleteIdEffect(t, y, x);
      RowsWithIdConcat(DeleteId(t, y), [c], x);
      RowsWithoutIdConcat(DeleteId(t, y), [c]);
  }

  /** After a batch, the rows keyed `x` are the batch's last coin keyed `x` alone,
      or, when the batch has no such coin, the rows keyed `x` before it. */
  lemma {:induction false} UpsertAllById(t: seq<Coin>, batch: seq<Coin>, x: string)
    ensures RowsWithId(UpsertAll(t, batch), x) ==
              match LastWithId(batch, x)
              case Some(c) => [c]
              case None => RowsWithId(t, x)
    decreases batch
  {
    if batch != [] {
      var t' := Upsert(t, batch[0]);
      UpsertEffect(t, batch[0], x);
      UpsertAllById(t', batch[1..], x);
      LastWithIdCons(batch, x);
    }
  }

  /** The last coin keyed `x` of a non-empty batch is found in its tail, or
      else is its head. */
  lemma {:induction false} LastWithIdCons(batch: seq<Coin>, x: string)
    requires batch != []
    ensures LastWithId(batch, x) ==
              if LastWithId(batch[1..], x).Some? then LastWithId(batch[1..], x)
              else if batch[0].id == Some(x) then Some(batch[0])
              else None
  {
    if |batch| > 1 {
      var init := batch[..|batch| - 1];
      assert batch[1..][..|batch[1..]| - 1] == init[1..];
      assert batch[1..][|batch[1..]| - 1] == batch[|batch| - 1];
      assert init[0] == batch[0];
      if batch[|batch| - 1].id != Some(x) {
        LastWithIdCons(init, x);
      }
    }
  }

  /** Coins without an id are all kept, in order, after the ones already there. */
  lemma {:induction false} UpsertAllWithoutId(t: seq<Coin>, batch: seq<Coin>)
    ensures RowsWithoutId(UpsertAll(t, batch)) == RowsWithoutId(t) + RowsWithoutId(batch)
    decreases batch
  {
    if batch != [] {
      var head, tail := batch[0], batch[1..];
      var t' := Upsert(t, head);
      var kept := if head.id.None? then [head] else [];
      assert RowsWithoutId(t') == RowsWithoutId(t) + kept by { UpsertEffect(t, head, ""); }
      calc {
        RowsWithoutId(UpsertAll(t, batch));
        RowsWithoutId(UpsertAll(t', tail));
        { UpsertAllWithoutId(t', tail); }
        RowsWithoutId(t') + RowsWithoutId(tail);
        RowsWithoutId(t) + kept + RowsWithoutId(tail);
        RowsWithoutId(t) + (kept + RowsWithoutId(tail));
        RowsWithoutId(t) + RowsWithoutId(batch);
      }
    }
  }

  /** `save_all` keeps the primary key: after any batch no id is stored twice. */
  lemma UpsertAllKeepsKey(t: seq<Coin>, batch: seq<Coin>)
    requires UniqueIds(t)
    ensures UniqueIds(UpsertAll(t, batch))
  {
    forall x ensures |RowsWithId(UpsertAll(t, batch), x)| <= 1 {
      UpsertAllById(t, batch, x);
    }
  }

  // ---------------------------------------------------------------------------
  // SELECT id, symbol, name FROM coins

  /** The coins `get_all_symbols` builds from the table's rows, in rowid order:
      id, symbol and name only. */
  function Listing(t: seq<Coin>): (r: seq<Coin>)
    ensures |r| == |t|
    ensures forall i :: 0 <= i < |t| ==>
              r[i].id == t[i].id && r[i].symbol == t[i].symbol && r[i].name == t[i].name &&
              r[i].marketCap.None? && r[i].marketCapRank.None?
  {
    seq(|t|, i requires 0 <= i < |t| => Coin(t[i].id, t[i].symbol, t[i].name))
  }

  /** Round trip: after `save_all` succeeds, listing the table yields, for every
      id in the batch, the id, symbol and name of the batch's last coin with it. */
  lemma SavedThenListed(t: seq<Coin>, batch: seq<Coin>, k: nat, x: string)
    requires k < |batch| && batch[k].id == Some(x)
    requires forall j :: k < j < |batch| ==> batch[j].id != Some(x)
    ensures Coin(Some(x), batch[k].symbol, batch[k].name) in Listing(UpsertAll(t, batch))
  {
    var u := UpsertAll(t, batch);
    LastWithIdAt(batch, k, x);
    UpsertAllById(t, batch, x);
    assert RowsWithId(u, x) == [batch[k]];
    assert RowsWithId(u, x)[0] == batch[k];
    var i :| 0 <= i < |u| && u[i] == batch[k];
    assert Listing(u)[i] == Coin(Some(x), batch[k].symbol, batch[k].name);
  }

  /** The last coin keyed `x` is the one at the last position keyed `x`. */
  lemma {:induction false} LastWithIdAt(batch: seq<Coin>, k: nat, x: string)
    requires k < |batch| && batch[k].id == Some(x)
    requires forall j :: k < j < |batch| ==> batch[j].id != Some(x)
    ensures LastWithId(batch, x) == Some(batch[k])
  {
    if k < |batch| - 1 {
      LastWithIdAt(batch[..|batch| - 1], k, x);
    }
  }

  // ---------------------------------------------------------------------------
  // The repository object

  /** `CoinRepository()`: owns one connection to the file. */
  class CoinRepository {
    const db: Database

    constructor (file: CryptoDb)
      ensures db.file == file && db.isOpen
    {
      db := new Database(file);
    }

    /** `save_all`: one `executemany` over the batch, then `commit`; any failure
        rolls the whole batch back and is reported, never raised. The cursor is
        taken before the `try`, so only a closed connection raises. */
    method SaveAll(coins: seq<Coin>, fails: bool) returns (r: Result<()>)
      modifies db.file`coins
      ensures !db.isOpen ==> r == Err(SqliteError) && db.file.coins == old(db.file.coins)
      ensures db.isOpen ==> r == Ok(())
      ensures db.isOpen ==>
                db.file.coins == if fails then old(db.file.coins) else UpsertAll(old(db.file.coins), coins)
    {
      if !db.isOpen {
        return Err(SqliteError);
      }
      var table := db.file.coins;
      var i := 0;
      while i < |coins|
        invariant 0 <= i <= |coins|
        invariant UpsertAll(table, coins[i..]) == UpsertAll(db.file.coins, coins)
      {
        assert coins[i..][1..] == coins[i + 1..];
        table := Upsert(table, coins[i]);
        i := i + 1;
      }
      assert coins[i..] == [];
      if !fails {
        db.file.coins := table;
      }
      r := Ok(());
    }

    /** `get_all_symbols`: every row of the table as a coin with id, symbol and
        name; a failing query is reported and yields the empty list. */
    method GetAllSymbols(fails: bool) returns (r: Result<seq<Coin>>)
      ensures !db.isOpen ==> r == Err(SqliteError)
      ensures db.isOpen && fails ==> r == Ok([])
      ensures db.isOpen && !fails ==> r == Ok(Listing(db.file.coins))
    {
      if !db.isOpen {
        return Err(SqliteError);
      }
      if fails {
        return Ok([]);
      }
      r := Ok(Listing(db.file.coins));
    }
  }
}
