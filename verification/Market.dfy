/** Values the replay engine exchanges with the strategy: bars, signals and the
    configuration both sides read. Prices are exact reals. Times are whole ticks
    of a clock fine enough for every timestamp; durations are given in the same ticks. */
module Market {
  import opened Sequences

  /** Ticker symbols, already upper-cased. */
  type Symbol = string

  datatype Direction = Bullish | Bearish

  datatype Session = PreMarketSession | RegularSession | ClosedSession

  /** One closed one-minute bar of one symbol. */
  datatype Bar = Bar(symbol: Symbol, open: real, high: real, low: real, close: real, volume: real)

  /** All bars sharing one timestamp: the engine's unit of replay. */
  datatype Minute = Minute(time: int, bars: seq<Bar>)

  /** A bar together with the time at which it was fed to the market-state buffers. */
  datatype Fed = Fed(time: int, bar: Bar)

  datatype Signal = Signal(
    ticker: Symbol,
    signalType: string,
    direction: Direction,
    session: Session,
    price: real,
    stop: Option<real>,
    target: Option<real>,
    riskReward: Option<real>,
    atr: Option<real>,
    pivotResistance: Option<real>,
    pivotSupport: Option<real>,
    confluence: Option<int>,
    trendAligned: Option<bool>,
    htfSma: Option<real>)

  datatype QuantConfig = QuantConfig(
    atrStopMultiplier: real,
    atrRewardMultiplier: real,
    minRiskReward: real,
    cooldownSeconds: int,
    lossLockoutSeconds: int,
    throttleMaxSignals: int,
    maxCandidateAge: real,
    confluenceScoreMin: int,
    independentConfirmation: bool,
    trendGateEnabled: bool,
    regimeGate: bool)
}
