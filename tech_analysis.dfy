/** domashna3/tech_analiza.py: the rule-based score of one row of indicators
    and the BUY / SELL / HOLD signal of every row of a frame. The indicators
    themselves (pandas and `ta`) are inputs; `NaN` and unconvertible cells are
    `None`. */
module TechAnalysis {
  import opened Common

  /** A scalar cell: a number (anything `float()` accepts, by its value), `NaN`,
      or something `float()` rejects. */
  datatype Scalar = Real(x: real) | NotANumber | Unconvertible

  /** A cell of a row: a scalar, or a `Series` (a duplicated column) whose
      elements are numbers or `NaN`. */
  datatype Cell = ScalarCell(s: Scalar) | SeriesCell(values: seq<Option<real>>)

  /** A row of the indicator frame, by column name. */
  type Row = map<string, Cell>

  /** `SignalConfig`: the thresholds, with their defaults. */
  datatype SignalConfig = SignalConfig(
    rsiBuy: int := 30,
    rsiSell: int := 70,
    stochBuy: int := 20,
    stochSell: int := 80,
    cciBuy: int := -100,
    cciSell: int := 100,
    adxTrend: int := 20)

  /** `safe_float(row.get(key))`: a missing column reads `None`, which `float()`
      rejects; a `Series` gives its last element, or `NaN` when empty. */
  function SafeFloat(row: Row, key: string): (r: Option<real>)
    ensures r.Some? <==>
              (key in row &&
               ((row[key].ScalarCell? && row[key].s.Real?) ||
                (row[key].SeriesCell? && row[key].values != [] && row[key].values[|row[key].values| - 1].Some?)))
    ensures r.Some? && row[key].ScalarCell? ==> r.value == row[key].s.x
    ensures r.Some? && row[key].SeriesCell? ==> r == row[key].values[|row[key].values| - 1]
  {
    if key !in row then None
    else match row[key]
      case ScalarCell(s) => if s.Real? then Some(s.x) else None
      case SeriesCell(vs) => if vs == [] then None else vs[|vs| - 1]
  }

  /** The fourteen values the rule reads, each `None` for `NaN`. */
  datatype Indicators = Indicators(
    rsi: Option<real>, macd: Option<real>, macdSignal: Option<real>, stochK: Option<real>,
    cci: Option<real>, adx: Option<real>, ema: Option<real>, sma: Option<real>, wma: Option<real>,
    bbLower: Option<real>, bbUpper: Option<real>, volMa: Option<real>, close: Option<real>,
    volume: Option<real>)

  function IndicatorsOf(row: Row): Indicators
  {
    Indicators(
      SafeFloat(row, "RSI_14"), SafeFloat(row, "MACD"), SafeFloat(row, "MACD_SIGNAL"),
      SafeFloat(row, "STOCH_%K"), SafeFloat(row, "CCI_20"), SafeFloat(row, "ADX_14"),
      SafeFloat(row, "EMA_20"), SafeFloat(row, "SMA_20"), SafeFloat(row, "WMA_20"),
      SafeFloat(row, "BB_LOWER"), SafeFloat(row, "BB_UPPER"), SafeFloat(row, "VOL_MA_20"),
      SafeFloat(row, "Close"), SafeFloat(row, "Volume"))
  }

  // ---------------------------------------------------------------------------
  // The components

  /** An oscillator's vote: +1 below the buy threshold, -1 above the sell
      threshold, 0 between them (both comparisons strict); none for `NaN`. */
  function Oscillator(v: Option<real>, buy: int, sell: int): (r: Option<int>)
    ensures r.None? <==> v.None?
    ensures r.Some? ==> -1 <= r.value <= 1
    ensures r == Some(1) <==> v.Some? && v.value < buy as real
    ensures r == Some(-1) <==> v.Some? && !(v.value < buy as real) && v.value > sell as real
  {
    match v
    case None => None
    case Some(x) => if x < buy as real then Some(1) else if x > sell as real then Some(-1) else Some(0)
  }

  /** A comparison vote: +1 when `a > b`, else -1; none unless both are defined. */
  function Above(a: Option<real>, b: Option<real>): (r: Option<int>)
    ensures r.Some? <==> a.Some? && b.Some?
    ensures r.Some? ==> (r.value == 1 <==> a.value > b.value) && (r.value == -1 <==> a.value <= b.value)
  {
    if a.Some? && b.Some? then Some(if a.value > b.value then 1 else -1) else None
  }

  /** A vote counting 0 when it is not cast. */
  function OrZero(v: Option<int>): int
  {
    if v.Some? then v.value else 0
  }

  /** The Bollinger vote: +1 below the lower band, -1 above the upper band, 0
      inside them or when any of the three is undefined. */
  function BandPoints(ind: Indicators): (p: int)
    ensures -1 <= p <= 1
    ensures p == 1 <==> ind.bbLower.Some? && ind.bbUpper.Some? && ind.close.Some? && ind.close.value < ind.bbLower.value
    ensures p == -1 <==> ind.bbLower.Some? && ind.bbUpper.Some? && ind.close.Some? &&
                         !(ind.close.value < ind.bbLower.value) && ind.close.value > ind.bbUpper.value
  {
    if ind.bbLower.Some? && ind.bbUpper.Some? && ind.close.Some? then
      if ind.close.value < ind.bbLower.value then 1
      else if ind.close.value > ind.bbUpper.value then -1
      else 0
    else 0
  }

  /** The volume vote: +1 when volume exceeds a positive moving average, never negative. */
  function VolumePoints(ind: Indicators): (p: int)
    ensures 0 <= p <= 1
    ensures p == 1 <==> ind.volMa.Some? && ind.volMa.value > 0.0 && ind.volume.Some? && ind.volume.value > ind.volMa.value
  {
    if ind.volMa.Some? && ind.volMa.value > 0.0 && ind.volume.Some? && ind.volume.value > ind.volMa.value then 1 else 0
  }

  /** `ma_points`: close against EMA, close against SMA, WMA against EMA, the
      bands and the volume. */
  function MaPoints(ind: Indicators): int
  {
    OrZero(Above(ind.close, ind.ema)) + OrZero(Above(ind.close, ind.sma)) + OrZero(Above(ind.wma, ind.ema)) +
    BandPoints(ind) + VolumePoints(ind)
  }

  /** `adx_strong`: a trend when ADX is defined and at least the threshold. */
  predicate AdxStrong(ind: Indicators, cfg: SignalConfig)
  {
    ind.adx.Some? && ind.adx.value >= cfg.adxTrend as real
  }

  /** A breakdown entry present only when its vote is cast. */
  function Entry(key: string, v: Option<int>): seq<(string, int)>
  {
    if v.Some? then [(key, v.value)] else []
  }

  /** The oscillator and MACD entries of `score_breakdown`, in insertion order:
      RSI, MACD, STOCH and CCI, each when defined. */
  function Votes(ind: Indicators, cfg: SignalConfig): seq<(string, int)>
  {
    Entry("RSI", Oscillator(ind.rsi, cfg.rsiBuy, cfg.rsiSell)) +
    Entry("MACD", Above(ind.macd, ind.macdSignal)) +
    Entry("STOCH", Oscillator(ind.stochK, cfg.stochBuy, cfg.stochSell)) +
    Entry("CCI", Oscillator(ind.cci, cfg.cciBuy, cfg.cciSell))
  }

  /** The "MAs" entry: the moving-average points, doubled in a strong trend. */
  function MasValue(ind: Indicators, cfg: SignalConfig): int
  {
    if AdxStrong(ind, cfg) then 2 * MaPoints(ind) else MaPoints(ind)
  }

  /** `score_breakdown`: the votes, then "MAs" always. */
  function Breakdown(ind: Indicators, cfg: SignalConfig): seq<(string, int)>
  {
    Votes(ind, cfg) + [("MAs", MasValue(ind, cfg))]
  }

  /** `sum(score_breakdown.values())`. */
  function SumValues(b: seq<(string, int)>): int
  {
    if b == [] then 0 else SumValues(b[..|b| - 1]) + b[|b| - 1].1
  }

  lemma {:induction false} SumValuesConcat(a: seq<(string, int)>, b: seq<(string, int)>)
    ensures SumValues(a + b) == SumValues(a) + SumValues(b)
    decreases |b|
  {
    if b == [] {
      assert a + b == a;
    } else {
      assert (a + b)[..|a + b| - 1] == a + b[..|b| - 1];
      SumValuesConcat(a, b[..|b| - 1]);
    }
  }

  // ---------------------------------------------------------------------------
  // What the rule promises

  /** Before doubling, the moving-average points lie in [-4, 5]: the volume can
      only add. */
  lemma MaPointsBounds(ind: Indicators)
    ensures -4 <= MaPoints(ind) <= 5
  {
  }

  /** The breakdown always holds "MAs", last, doubled exactly when the trend is
      strong; each of the other keys appears once at most, when its indicator is
      defined. */
  lemma BreakdownShape(ind: Indicators, cfg: SignalConfig)
    ensures var b := Breakdown(ind, cfg);
      b[|b| - 1] == ("MAs", if AdxStrong(ind, cfg) then 2 * MaPoints(ind) else MaPoints(ind))
    ensures (exists k :: 0 <= k < |Breakdown(ind, cfg)| && Breakdown(ind, cfg)[k].0 == "RSI") <==> ind.rsi.Some?
    ensures (exists k :: 0 <= k < |Breakdown(ind, cfg)| && Breakdown(ind, cfg)[k].0 == "MACD") <==> ind.macd.Some? && ind.macdSignal.Some?
    ensures |Breakdown(ind, cfg)| <= 5
  {
    var b := Breakdown(ind, cfg);
    if ind.rsi.Some? {
      assert b[0].0 == "RSI";
    }
    if ind.macd.Some? && ind.macdSignal.Some? {
      var k := if ind.rsi.Some? then 1 else 0;
      assert b[k].0 == "MACD";
    }
  }

  /** An entry adds its vote, or nothing. */
  lemma SumEntry(prefix: seq<(string, int)>, key: string, v: Option<int>)
    ensures SumValues(prefix + Entry(key, v)) == SumValues(prefix) + OrZero(v)
  {
    if v.None? {
      assert prefix + Entry(key, v) == prefix;
    }
  }

  /** The votes sum to the four components, each in [-1, 1]. */
  lemma VotesBounds(ind: Indicators, cfg: SignalConfig)
    ensures -4 <= SumValues(Votes(ind, cfg)) <= 4
  {
    var v1, v2 := Oscillator(ind.rsi, cfg.rsiBuy, cfg.rsiSell), Above(ind.macd, ind.macdSignal);
    var v3, v4 := Oscillator(ind.stochK, cfg.stochBuy, cfg.stochSell), Oscillator(ind.cci, cfg.cciBuy, cfg.cciSell);
    var rsi, macd, stoch := Entry("RSI", v1), Entry("MACD", v2), Entry("STOCH", v3);
    assert SumValues(Votes(ind, cfg)) == OrZero(v1) + OrZero(v2) + OrZero(v3) + OrZero(v4) by {
      SumEntry([], "RSI", v1);
      assert [] + rsi == rsi;
      SumEntry(rsi, "MACD", v2);
      SumEntry(rsi + macd, "STOCH", v3);
      SumEntry(rsi + macd + stoch, "CCI", v4);
    }
    assert -1 <= OrZero(v1) <= 1 && -1 <= OrZero(v2) <= 1 && -1 <= OrZero(v3) <= 1 && -1 <= OrZero(v4) <= 1;
  }

  /** The total score, the sum of the breakdown, lies in [-12, 14]. */
  lemma ScoreBounds(ind: Indicators, cfg: SignalConfig)
    ensures -12 <= SumValues(Breakdown(ind, cfg)) <= 14
  {
    VotesBounds(ind, cfg);
    MaPointsBounds(ind);
    SumValuesConcat(Votes(ind, cfg), [("MAs", MasValue(ind, cfg))]);
    assert SumValues([("MAs", MasValue(ind, cfg))]) == MasValue(ind, cfg);
  }

  /** The frame's `SIGNAL` column. */
  datatype Signal = Buy | Sell | Hold

  function SignalOf(score: int): (s: Signal)
    ensures s == Buy <==> score >= 2
    ensures s == Sell <==> score <= -2
    ensures s == Hold <==> -2 < score < 2
  {
    if score >= 2 then Buy else if score <= -2 then Sell else Hold
  }

  /** The oscillator and MACD part of `rule_score_row`: each defined indicator
      adds its entry in turn. */
  method AddVotes(ind: Indicators, cfg: SignalConfig) returns (breakdown: seq<(string, int)>)
    ensures breakdown == Votes(ind, cfg)
  {
    breakdown := [];
    if ind.rsi.Some? {
      if ind.rsi.value < cfg.rsiBuy as real {
        breakdown := breakdown + [("RSI", 1)];
      } else if ind.rsi.value > cfg.rsiSell as real {
        breakdown := breakdown + [("RSI", -1)];
      } else {
        breakdown := breakdown + [("RSI", 0)];
      }
    }
    ghost var rsi := breakdown;
    assert rsi == Entry("RSI", Oscillator(ind.rsi, cfg.rsiBuy, cfg.rsiSell));
    if ind.macd.Some? && ind.macdSignal.Some? {
      breakdown := breakdown + [("MACD", if ind.macd.value > ind.macdSignal.value then 1 else -1)];
    }
    assert breakdown == rsi + Entry("MACD", Above(ind.macd, ind.macdSignal));
    ghost var macd := breakdown;
    if ind.stochK.Some? {
      if ind.stochK.value < cfg.stochBuy as real {
        breakdown := breakdown + [("STOCH", 1)];
      } else if ind.stochK.value > cfg.stochSell as real {
        breakdown := breakdown + [("STOCH", -1)];
      } else {
        breakdown := breakdown + [("STOCH", 0)];
      }
    }
    assert breakdown == macd + Entry("STOCH", Oscillator(ind.stochK, cfg.stochBuy, cfg.stochSell));
    ghost var stoch := breakdown;
    if ind.cci.Some? {
      if ind.cci.value < cfg.cciBuy as real {
        breakdown := breakdown + [("CCI", 1)];
      } else if ind.cci.value > cfg.cciSell as real {
        breakdown := breakdown + [("CCI", -1)];
      } else {
        breakdown := breakdown + [("CCI", 0)];
      }
    }
    assert breakdown == stoch + Entry("CCI", Oscillator(ind.cci, cfg.cciBuy, cfg.cciSell));
  }

  /** The accumulation of `ma_points`. */
  method AccumulateMaPoints(ind: Indicators) returns (maPoints: int)
    ensures maPoints == MaPoints(ind)
    ensures -4 <= maPoints <= 5
  {
    maPoints := 0;
    if ind.close.Some? && ind.ema.Some? {
      maPoints := maPoints + (if ind.close.value > ind.ema.value then 1 else -1);
    }
    if ind.close.Some? && ind.sma.Some? {
      maPoints := maPoints + (if ind.close.value > ind.sma.value then 1 else -1);
    }
    if ind.wma.Some? && ind.ema.Some? {
      maPoints := maPoints + (if ind.wma.value > ind.ema.value then 1 else -1);
    }
    if ind.bbLower.Some? && ind.bbUpper.Some? && ind.close.Some? {
      if ind.close.value < ind.bbLower.value {
        maPoints := maPoints + 1;
      } else if ind.close.value > ind.bbUpper.value {
        maPoints := maPoints - 1;
      }
    }
    if ind.volMa.Some? && ind.volMa.value > 0.0 && ind.volume.Some? {
      if ind.volume.value > ind.volMa.value {
        maPoints := maPoints + 1;
      }
    }
  }

  /** `rule_score_row`: reads the fourteen indicators, fills the breakdown,
      adds "MAs" (doubled in a strong trend) and sums the breakdown. */
  method RuleScoreRow(row: Row, cfg: SignalConfig) returns (total: int, breakdown: seq<(string, int)>)
    ensures breakdown == Breakdown(IndicatorsOf(row), cfg)
    ensures total == SumValues(breakdown)
    ensures -12 <= total <= 14
  {
    var ind := IndicatorsOf(row);
    breakdown := AddVotes(ind, cfg);
    var adxStrong := ind.adx.Some? && ind.adx.value >= cfg.adxTrend as real;
    var maPoints := AccumulateMaPoints(ind);
    breakdown := breakdown + [("MAs", if adxStrong then 2 * maPoints else maPoints)];
    total := SumValues(breakdown);
    ScoreBounds(ind, cfg);
  }

  /** `generate_signals`: one score and one breakdown per row, in row order, and
      the signal of each score. */
  method GenerateSignals(rows: seq<Row>, cfg: SignalConfig := SignalConfig())
    returns (scores: seq<int>, details: seq<seq<(string, int)>>, signals: seq<Signal>)
    ensures |scores| == |rows| && |details| == |rows| && |signals| == |rows|
    ensures forall k :: 0 <= k < |rows| ==>
              details[k] == Breakdown(IndicatorsOf(rows[k]), cfg) &&
              scores[k] == SumValues(details[k]) &&
              signals[k] == SignalOf(scores[k])
  {
    scores := [];
    details := [];
    var k := 0;
    while k < |rows|
      invariant 0 <= k <= |rows|
      invariant |scores| == k && |details| == k
      invariant forall j :: 0 <= j < k ==>
                  details[j] == Breakdown(IndicatorsOf(rows[j]), cfg) && scores[j] == SumValues(details[j])
    {
      var s, br := RuleScoreRow(rows[k], cfg);
      scores := scores + [s];
      details := details + [br];
      k := k + 1;
    }
    signals := seq(|scores|, j requires 0 <= j < |scores| => SignalOf(scores[j]));
  }
}
