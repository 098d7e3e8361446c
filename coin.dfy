/** The `Coin` record of domashna1/model/coin.py: an asset of the ranked universe. */
module CoinModel {
  import opened Common
  import opened Text

  /** `Coin(id, symbol, name, market_cap=None, market_cap_rank=None)`: the constructor
      keeps its five arguments as they are, with no validation and no change of case;
      the last two default to `None`. Being a value, two coins built from the same
      arguments are equal. */
  datatype Coin = Coin(
    id: Option<string>,
    symbol: Option<string>,
    name: Option<string>,
    marketCap: Option<Amount> := None,
    marketCapRank: Option<int> := None)

  /** `str(x)` of an optional string in an f-string: the text itself, or "None". */
  function ShowText(x: Option<string>): string
  {
    match x
    case None => "None"
    case Some(s) => s
  }

  /** `str(x)` of an optional integer: its decimal rendering, or "None". */
  function ShowInt(x: Option<int>): string
  {
    match x
    case None => "None"
    case Some(i) => IntText(i)
  }

  /** `Coin.__repr__`. */
  function Repr(c: Coin): string
  {
    "Coin(id='" + ShowText(c.id) + "', symbol='" + ShowText(c.symbol) + "', rank=" + ShowInt(c.marketCapRank) + ")"
  }

  /** The constructor's defaults: a coin built from id, symbol and name alone has
      neither capitalisation nor rank. */
  lemma ConstructorDefaults(id: Option<string>, symbol: Option<string>, name: Option<string>)
    ensures Coin(id, symbol, name) == Coin(id, symbol, name, None, None)
    ensures Coin(id, symbol, name).id == id && Coin(id, symbol, name).symbol == symbol
    ensures Coin(id, symbol, name).name == name
  {
  }

  /** `__repr__` shows id, symbol and rank only: coins differing only in name or
      market cap look alike. */
  lemma ReprOmitsNameAndCap(c: Coin, name: Option<string>, cap: Option<Amount>)
    ensures Repr(c.(name := name, marketCap := cap)) == Repr(c)
  {
  }

  /** The rank printed at the end of `__repr__` reads back as the coin's rank. */
  lemma ReprShowsRank(c: Coin, i: int)
    requires c.marketCapRank == Some(i)
    ensures var s := Repr(c); var t := IntText(i);
      |s| > |t| && s[|s| - |t| - 1..|s| - 1] == t && s[|s| - 1] == ')' && IntValue(t) == i
  {
    IntTextRoundTrip(i);
    var s := Repr(c);
    var t := IntText(i);
    var head := "Coin(id='" + ShowText(c.id) + "', symbol='" + ShowText(c.symbol) + "', rank=";
    assert s == head + t + ")";
    assert s[|s| - |t| - 1..|s| - 1] == (head + t + ")")[|head|..|head| + |t|];
  }
}
