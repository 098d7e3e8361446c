/** domashna4/strategy_pattern/factory.py: `StrategyFactory.create` maps a
    strategy name to a new strategy object. */
module StrategyFactory {
  import opened Common

  /** The three strategies (their bodies are not part of this model). */
  datatype Strategy = RSIStrategy | SMAStrategy | MACDStrategy

  /** The name under which the factory builds each strategy. */
  function Name(s: Strategy): string
  {
    match s
    case RSIStrategy => "RSI"
    case SMAStrategy => "SMA"
    case MACDStrategy => "MACD"
  }

  /** `create`: an exact, case-sensitive match on the name; anything else raises
      `ValueError`. */
  function Create(strategyType: string): (r: Result<Strategy>)
    ensures r == Ok(RSIStrategy) <==> strategyType == "RSI"
    ensures r == Ok(SMAStrategy) <==> strategyType == "SMA"
    ensures r == Ok(MACDStrategy) <==> strategyType == "MACD"
    ensures r.Err? <==> strategyType != "RSI" && strategyType != "SMA" && strategyType != "MACD"
    ensures r.Err? ==> r.error == ValueError
  {
    if strategyType == "RSI" then Ok(RSIStrategy)
    else if strategyType == "SMA" then Ok(SMAStrategy)
    else if strategyType == "MACD" then Ok(MACDStrategy)
    else Err(ValueError)
  }

  /** Every strategy is built from its name, and only from it. */
  lemma CreateByName(s: Strategy, strategyType: string)
    ensures Create(Name(s)) == Ok(s)
    ensures Create(strategyType) == Ok(s) ==> strategyType == Name(s)
  {
  }
}
