/** The SQLite store of domashna1/data/db.py: the file `crypto.db` with its three
    tables, and the `Database` connection handle that reads and writes them. */
module Db {
  import opened Common
  import opened Text
  import opened Calendar
  import opened CoinModel

  /** A row of the `history` table. The table's only key is an autoincrement id,
      so a row's id is its position in the table. */
  datatype HistoryRow = HistoryRow(
    symbol: string,
    date: string,
    open: Amount,
    high: Amount,
    low: Amount,
    close: Amount,
    volume: Amount)

  /** A row of the `daily_stats` table, without its key `symbol`. */
  datatype StatsRow = StatsRow(
    lastPrice: Amount,
    high24h: Amount,
    low24h: Amount,
    volume24h: Amount,
    liquidity: Amount)

  /** The dictionary `save_daily_stats` receives: an optional "symbol" entry and
      the numeric entries. */
  datatype StatsDict = StatsDict(symbol: Option<string>, numbers: map<string, Amount>)

  /** The keys `save_daily_stats` reads, in the order it reads them. */
  const StatsKeys: seq<string> := ["symbol", "last_price", "high_24h", "low_24h", "volume_24h", "liquidity"]

  predicate HasKey(d: StatsDict, k: string)
  {
    if k == "symbol" then d.symbol.Some? else k in d.numbers
  }

  /** The position of the first key of `keys` missing from `d`, if any. */
  function FirstMissing(d: StatsDict, keys: seq<string>): (r: Option<nat>)
    ensures r.Some? ==> r.value < |keys| && !HasKey(d, keys[r.value])
    ensures r.Some? ==> forall i :: 0 <= i < r.value ==> HasKey(d, keys[i])
    ensures r.None? <==> forall i :: 0 <= i < |keys| ==> HasKey(d, keys[i])
  {
    if keys == [] then None
    else if !HasKey(d, keys[0]) then Some(0)
    else match FirstMissing(d, keys[1..])
      case None => None
      case Some(j) => Some(j + 1)
  }

  /** The parameter tuple `save_daily_stats` builds: `stats[k]` for each key in
      turn, raising `KeyError` on the first key that is missing. */
  function StatsRowOf(d: StatsDict): (r: Result<(string, StatsRow)>)
    ensures r.Ok? <==> forall i :: 0 <= i < |StatsKeys| ==> HasKey(d, StatsKeys[i])
    ensures r.Ok? <==> d.symbol.Some? && "last_price" in d.numbers && "high_24h" in d.numbers &&
                       "low_24h" in d.numbers && "volume_24h" in d.numbers && "liquidity" in d.numbers
    ensures r.Ok? ==> r.value.0 == d.symbol.value
    ensures r.Ok? ==> r.value.1 == StatsRow(d.numbers["last_price"], d.numbers["high_24h"],
                                            d.numbers["low_24h"], d.numbers["volume_24h"], d.numbers["liquidity"])
    ensures r.Err? ==> exists j :: 0 <= j < |StatsKeys| && r.error == KeyError(StatsKeys[j]) && !HasKey(d, StatsKeys[j]) &&
                                   forall i :: 0 <= i < j ==> HasKey(d, StatsKeys[i])
  {
    match FirstMissing(d, StatsKeys)
    case Some(j) => Err(KeyError(StatsKeys[j]))
    case None =>
      assert HasKey(d, StatsKeys[0]) && HasKey(d, StatsKeys[1]) && HasKey(d, StatsKeys[2]);
      assert HasKey(d, StatsKeys[3]) && HasKey(d, StatsKeys[4]) && HasKey(d, StatsKeys[5]);
      Ok((d.symbol.value, StatsRow(d.numbers["last_price"], d.numbers["high_24h"],
                                   d.numbers["low_24h"], d.numbers["volume_24h"], d.numbers["liquidity"])))
  }

  // ---------------------------------------------------------------------------
  // SELECT MAX(date) FROM history WHERE symbol = ?

  /** `MAX(date)` over the rows of `symbol`, comparing TEXT byte-wise; `None`
      (SQL NULL) when the symbol has no row. */
  function MaxDateOf(h: seq<HistoryRow>, symbol: string): Option<string>
  {
    if h == [] then None
    else
      var rest := MaxDateOf(h[..|h| - 1], symbol);
      var row := h[|h| - 1];
      if row.symbol != symbol then rest
      else match rest
        case None => Some(row.date)
        case Some(m) => Some(LexMax(m, row.date))
  }

  /** What `get_last_date` reports for a table: the maximum date, with an empty
      maximum reported as `None` as well. */
  function LastDate(h: seq<HistoryRow>, symbol: string): Option<string>
  {
    match MaxDateOf(h, symbol)
    case None => None
    case Some(m) => if m == "" then None else Some(m)
  }

  /** `MAX` is the maximum: the symbol has no row exactly when it is NULL, and
      otherwise it is the date of one of the symbol's rows and no row of the symbol
      sorts after it. */
  lemma {:induction false} MaxDateIsMaximum(h: seq<HistoryRow>, symbol: string)
    ensures MaxDateOf(h, symbol).None? <==> forall i :: 0 <= i < |h| ==> h[i].symbol != symbol
    ensures MaxDateOf(h, symbol).Some? ==>
              (exists i :: 0 <= i < |h| && h[i].symbol == symbol && h[i].date == MaxDateOf(h, symbol).value)
    ensures MaxDateOf(h, symbol).Some? ==>
              forall i :: 0 <= i < |h| && h[i].symbol == symbol ==> LexLe(h[i].date, MaxDateOf(h, symbol).value)
  {
    if h != [] {
      var init := h[..|h| - 1];
      var row := h[|h| - 1];
      MaxDateIsMaximum(init, symbol);
      assert forall i :: 0 <= i < |init| ==> init[i] == h[i];
      if row.symbol == symbol {
        match MaxDateOf(init, symbol)
        case None =>
          LexLeReflexive(row.date);
          assert h[|h| - 1].date == row.date;
        case Some(m) =>
          var top := LexMax(m, row.date);
          LexLeTotal(m, row.date);
          LexLeReflexive(top);
          forall i | 0 <= i < |h| && h[i].symbol == symbol
            ensures LexLe(h[i].date, top)
          {
            if i < |init| {
              LexLeTransitive(h[i].date, m, top);
            }
          }
          if top == m {
            var k :| 0 <= k < |init| && init[k].symbol == symbol && init[k].date == m;
            assert h[k].date == top;
          } else {
            assert h[|h| - 1].date == top;
          }
      }
    }
  }

  /** The order on watermarks: no watermark is below every watermark. */
  predicate WatermarkLe(a: Option<string>, b: Option<string>)
  {
    a.None? || (b.Some? && LexLe(a.value, b.value))
  }

  /** Appending rows never moves a symbol's watermark backwards. */
  lemma WatermarkMonotone(h: seq<HistoryRow>, rows: seq<HistoryRow>, symbol: string)
    ensures WatermarkLe(LastDate(h, symbol), LastDate(h + rows, symbol))
  {
    MaxDateIsMaximum(h, symbol);
    MaxDateIsMaximum(h + rows, symbol);
    if MaxDateOf(h, symbol).Some? {
      var m := MaxDateOf(h, symbol).value;
      var k :| 0 <= k < |h| && h[k].symbol == symbol && h[k].date == m;
      assert (h + rows)[k] == h[k];
      var m' := MaxDateOf(h + rows, symbol).value;
      assert LexLe(m, m');
      if m != "" {
        assert m' != "";
      }
    }
  }

  /** Rows of other symbols leave a symbol's watermark where it is. */
  lemma {:induction false} WatermarkOtherSymbols(h: seq<HistoryRow>, rows: seq<HistoryRow>, symbol: string)
    requires forall i :: 0 <= i < |rows| ==> rows[i].symbol != symbol
    ensures MaxDateOf(h + rows, symbol) == MaxDateOf(h, symbol)
    ensures LastDate(h + rows, symbol) == LastDate(h, symbol)
  {
    if rows != [] {
      var init := rows[..|rows| - 1];
      assert (h + rows)[..|h + rows| - 1] == h + init;
      assert (h + rows)[|h + rows| - 1] == rows[|rows| - 1];
      WatermarkOtherSymbols(h, init, symbol);
    } else {
      assert h + rows == h;
    }
  }

  /** A date column value as the ingestion writes it: `%Y-%m-%d` of a valid date. */
  predicate IsDateText(t: string)
  {
    ParseDate(t).Ok? && FormatDate(ParseDate(t).value) == t
  }

  /** The day number of a formatted date. */
  function DayOfText(t: string): int
    requires IsDateText(t)
  {
    DayNumber(ParseDate(t).value)
  }

  /** A history that only grew by rows of other symbols keeps a symbol's watermark. */
  lemma GrownByOthers(h: seq<HistoryRow>, h': seq<HistoryRow>, symbol: string)
    requires |h| <= |h'| && h'[..|h|] == h
    requires forall i :: |h| <= i < |h'| ==> h'[i].symbol != symbol
    ensures LastDate(h', symbol) == LastDate(h, symbol)
  {
    var rows := h'[|h|..];
    assert h' == h + rows;
    forall i | 0 <= i < |rows| ensures rows[i].symbol != symbol {
      assert rows[i] == h'[|h| + i];
    }
    WatermarkOtherSymbols(h, rows, symbol);
  }

  /** Between formatted dates, the byte-wise order is the order of days. */
  lemma DateTextOrder(a: string, b: string)
    requires IsDateText(a) && IsDateText(b)
    ensures LexLe(a, b) <==> DayOfText(a) <= DayOfText(b)
  {
    FormatOrder(ParseDate(a).value, ParseDate(b).value);
  }

  /** A formatted date is never empty. */
  lemma DateTextNonEmpty(t: string)
    requires IsDateText(t)
    ensures |t| == 10
  {
  }

  /** When every stored date of a symbol is a formatted date, the byte-wise
      maximum `get_last_date` returns is the chronologically latest day. */
  lemma LastDateIsLatestDay(h: seq<HistoryRow>, symbol: string)
    requires forall i :: 0 <= i < |h| && h[i].symbol == symbol ==> IsDateText(h[i].date)
    ensures LastDate(h, symbol).None? <==> forall i :: 0 <= i < |h| ==> h[i].symbol != symbol
    ensures LastDate(h, symbol).Some? ==> IsDateText(LastDate(h, symbol).value)
    ensures LastDate(h, symbol).Some? ==>
              forall i :: 0 <= i < |h| && h[i].symbol == symbol ==> DayOfText(h[i].date) <= DayOfText(LastDate(h, symbol).value)
  {
    MaxDateIsMaximum(h, symbol);
    if MaxDateOf(h, symbol).Some? {
      var m := MaxDateOf(h, symbol).value;
      var k :| 0 <= k < |h| && h[k].symbol == symbol && h[k].date == m;
      assert IsDateText(m);
      DateTextNonEmpty(m);
      assert LastDate(h, symbol) == Some(m);
      forall i | 0 <= i < |h| && h[i].symbol == symbol
        ensures DayOfText(h[i].date) <= DayOfText(m)
      {
        DateTextOrder(h[i].date, m);
      }
    }
  }

  /** `INSERT OR REPLACE` into `history` never replaces anything: inserting the
      same batch twice stores each of its rows twice. */
  lemma ReinsertDuplicates(h: seq<HistoryRow>, rows: seq<HistoryRow>, row: HistoryRow)
    ensures multiset(h + rows + rows)[row] == multiset(h)[row] + 2 * multiset(rows)[row]
  {
  }

  // ---------------------------------------------------------------------------
  // The database file and its connections

  /** The file `crypto.db`: what every connection to it reads and writes.
      `coins` is kept in rowid order. */
  class CryptoDb {
    var coins: seq<Coin>
    var history: seq<HistoryRow>
    var dailyStats: map<string, StatsRow>

    /** A fresh file, as `create_tables` leaves it. */
    constructor ()
      ensures coins == [] && history == [] && dailyStats == map[]
    {
      coins := [];
      history := [];
      dailyStats := map[];
    }
  }

  /** `Database()`: a connection to the file. `create_tables` only creates what
      is missing, so an existing file keeps its contents. Opening can fail; the
      callers model that failure, which happens before a handle exists. */
  class Database {
    const file: CryptoDb
    var isOpen: bool

    constructor (file: CryptoDb)
      ensures this.file == file && isOpen
    {
      this.file := file;
      isOpen := true;
    }

    /** `get_last_date`: the watermark of `symbol`. A failing query is logged and
        reads as `None`. The cursor is taken before the `try`, so on a closed
        connection the error escapes. */
    method GetLastDate(symbol: string, fails: bool) returns (r: Result<Option<string>>)
      ensures !isOpen ==> r == Err(SqliteError)
      ensures isOpen && fails ==> r == Ok(None)
      ensures isOpen && !fails ==> r == Ok(LastDate(file.history, symbol))
    {
      if !isOpen {
        return Err(SqliteError);
      }
      if fails {
        return Ok(None);
      }
      var m := MaxDateOf(file.history, symbol);
      if m.Some? && m.value != "" {
        r := Ok(Some(m.value));
      } else {
        r := Ok(None);
      }
    }

    /** `insert_history_rows`: appends the whole batch in one transaction; a
        failing transaction is rolled back and logged. */
    method InsertHistoryRows(rows: seq<HistoryRow>, fails: bool)
      modifies file`history
      ensures file.history == if isOpen && !fails then old(file.history) + rows else old(file.history)
    {
      if isOpen && !fails {
        file.history := file.history + rows;
      }
    }

    /** `save_daily_stats`: stores one row per symbol, replacing the previous one.
        A missing key raises `KeyError` out of the method; a failing statement is
        rolled back and logged. */
    method SaveDailyStats(stats: StatsDict, fails: bool) returns (r: Result<()>)
      modifies file`dailyStats
      ensures StatsRowOf(stats).Err? && isOpen ==> r == Err(StatsRowOf(stats).error)
      ensures StatsRowOf(stats).Err? || !isOpen || fails ==> file.dailyStats == old(file.dailyStats)
      ensures StatsRowOf(stats).Ok? || !isOpen ==> r == Ok(())
      ensures StatsRowOf(stats).Ok? && isOpen && !fails ==>
                file.dailyStats == old(file.dailyStats)[StatsRowOf(stats).value.0 := StatsRowOf(stats).value.1]
    {
      if !isOpen {
        return Ok(());
      }
      var params := StatsRowOf(stats);
      if params.Err? {
        return Err(params.error);
      }
      if !fails {
        file.dailyStats := file.dailyStats[params.value.0 := params.value.1];
      }
      r := Ok(());
    }

    /** `close`. */
    method Close()
      modifies this`isOpen
      ensures !isOpen
    {
      isOpen := false;
    }
  }
}
