/** The configuration values the trading core reads, with the defaults the
    configuration object starts from. Loading overrides from a file is not
    part of this model. */
module Settings {
  import opened Wrappers

  /** Periods of the Ichimoku lines and the displacement of the cloud. */
  datatype IchimokuParams = IchimokuParams(
    tenkanPeriod: int,
    kijunPeriod: int,
    senkouSpanBPeriod: int,
    displacement: int)
  {
    /** Rolling windows of at least one candle and a non-negative shift. */
    predicate WellFormed() {
      tenkanPeriod >= 1 && kijunPeriod >= 1 && senkouSpanBPeriod >= 1 && displacement >= 0
    }
  }

  datatype Config = Config(
    symbol: string,
    timeframes: map<string, int>,       // timeframe name -> candle duration in seconds
    defaultTimeframe: string,
    maxPositionSize: real,
    riskPerTrade: real,
    maxOpenTrades: int,
    useStopLoss: bool,
    stopLossPct: real,
    takeProfitPct: real,
    useTrailingStop: bool,
    trailingStopPct: real,
    enabledStrategies: seq<string>,
    ichimoku: IchimokuParams,
    pivotLookback: Option<int>)          // PIVOT_POINT['lookback_period'], if set

  function DefaultTimeframes(): map<string, int> {
    map["1m" := 60, "5m" := 300, "15m" := 900, "1h" := 3600, "4h" := 14400, "1d" := 86400]
  }

  /** The values the configuration object is constructed with. */
  function Default(): (c: Config)
    ensures c.ichimoku.WellFormed()
    ensures c.defaultTimeframe in c.timeframes
  {
    Config(
      "BTCUSDT",
      DefaultTimeframes(),
      "5m",
      0.01, 0.01, 3,
      true, 0.02, 0.04,
      true, 0.01,
      ["ichimoku", "pivot_point", "vwap", "gap", "pullback",
       "range", "reversal", "breakout", "momentum", "scalping"],
      IchimokuParams(9, 26, 52, 26),
      Some(1))
  }
}
