/** The replay engine as a state machine (talonx_backtest/engine.py): what one bar, one
    throttle flush, one end-of-day sweep and a whole run do to the engine's state. The
    mutable engine in Engine.dfy is proved to compute exactly these transitions. */
module Replay {
  import opened Sequences
  import opened Market
  import opened Geometry
  import opened Execution
  import opened Simulator

  datatype Reason =
    | LowVolatility | LowVolatilityRegime
    | UsMarketSessionClosed | OpeningBlackout | ClosingBlackout | LossLockout | Cooldown
    | LowConfluence | LowRiskReward | HtfDataUnavailable | TrendGate | PremarketLiquidity
    | Throttle | ExpiredInThrottleQueue | FinalRevalidationDataUnavailable | RrDegradedDuringThrottle
    | NoActivePosition | PostEodFlattenNoNewEntry | GeometryInvalidatedAtFill

  datatype Rejection = Rejection(ticker: Symbol, reason: Reason, count: nat, time: int)

  datatype PendingEntry = PendingEntry(signal: Signal, score: real)

  datatype Blackout = NoBlackout | Opening | Closing

  /** What the indicator and strategy code makes of one symbol's fed history. */
  datatype Evaluation = WarmingUp | Ready(gateFails: bool, blackout: Blackout, signals: seq<Signal>)

  /** Foreign code the engine consults: the strategy reads only bars already fed, the score
      ranks candidates, and the calendar gives New York dates and seconds of the day. */
  datatype Strategy = Strategy(
    evaluate: (Symbol, seq<Fed>) -> Evaluation,
    score: Signal -> real,
    etDate: int -> int,
    etSecond: int -> int)

  datatype EngineConfig = EngineConfig(
    quant: QuantConfig, execution: ExecutionConfig, eodFlattenEnabled: bool, flattenSecond: int)

  /** What identifies a position from opening to closing. */
  datatype Ticket = Ticket(symbol: Symbol, entryTime: int, entryRaw: real, stop: Option<real>, target: Option<real>, signal: Signal)

  function PositionTicket(p: Position): Ticket { Ticket(p.symbol, p.entryTime, p.entryRaw, p.stop, p.target, p.signal) }

  function TradeTicket(t: Trade): Ticket { Ticket(t.symbol, t.entryTime, t.entryRaw, t.stop, t.target, t.signal) }

  /** Things the engine does that leave no entry of their own in its ledgers. The journal is a
      history variable of the model; nothing in the engine reads it. A skipped bar is named by its
      place among its symbol's bars. */
  datatype Event =
    | Published(time: int, signal: Signal, holding: Option<Ticket>, entryWaiting: bool, exitWaiting: bool)
    | Entered(ticket: Ticket, origin: Signal)
    | SkippedWhileOpen(time: int, symbol: Symbol, at: nat)
    | DroppedBesideSibling(count: nat)

  datatype EngineState = EngineState(
    book: Book,
    pendingEntry: map<Symbol, PendingEntry>,
    pendingExit: map<Symbol, Signal>,
    cooldownUntil: map<Symbol, int>,
    lockoutUntil: map<Symbol, int>,
    flattened: set<int>,
    trades: seq<Trade>,
    rejections: seq<Rejection>,
    generated: nat,
    published: nat,
    barsProcessed: nat,
    warmupBars: nat,
    market: map<Symbol, seq<Fed>>,
    lastClose: map<Symbol, real>,
    lastTime: map<Symbol, int>,
    journal: seq<Event>)

  const INITIAL := EngineState(EMPTY_BOOK, map[], map[], map[], map[], {}, [], [], 0, 0, 0, 0, map[], map[], map[], [])

  // ------------------------------------------------------------------- ledgers

  function Reject(st: EngineState, s: Symbol, reason: Reason, count: nat, time: int): EngineState {
    st.(rejections := st.rejections + [Rejection(s, reason, count, time)])
  }

  function Note(st: EngineState, e: Event): EngineState { st.(journal := st.journal + [e]) }

  /** Books a trade; a losing one locks its symbol out. */
  function Record(cfg: EngineConfig, st: EngineState, t: Trade, time: int): EngineState {
    st.(trades := st.trades + [t],
        lockoutUntil := if t.netPnl < 0.0 then st.lockoutUntil[t.symbol := time + cfg.quant.lossLockoutSeconds]
                        else st.lockoutUntil)
  }

  function RecordIfAny(cfg: EngineConfig, st: EngineState, t: Option<Trade>, time: int): EngineState {
    if t.Some? then Record(cfg, st, t.value, time) else st
  }

  predicate Active(until: map<Symbol, int>, s: Symbol, now: int) { s in until && now < until[s] }

  // ---------------------------------------------------- lifecycle of one bar

  /** A scheduled alert exit is resolved first, at this bar's open. */
  function FillExit(cfg: EngineConfig, st: EngineState, bar: Bar, time: int): EngineState {
    var s := bar.symbol;
    if s !in st.pendingExit then st
    else
      var st' := st.(pendingExit := st.pendingExit - {s});
      if s in st.book.positions then
        var (book, t) := Closed(cfg.execution, st.book, s, time, bar.open, SignalExit, Some(st.pendingExit[s]));
        RecordIfAny(cfg, st'.(book := book), t, time)
      else Reject(st', s, NoActivePosition, 1, time)
  }

  function ExamineBar(cfg: EngineConfig, st: EngineState, bar: Bar, time: int): EngineState {
    var (book, t) := Examined(cfg.execution, st.book, bar.symbol, time, bar.high, bar.low);
    RecordIfAny(cfg, st.(book := book), t, time)
  }

  function CheckRatio(geometry: Option<TradeGeometry>, floor: real): Option<TradeGeometry> {
    if geometry.None? || geometry.value.riskReward.None? || geometry.value.riskReward.value < floor then None
    else geometry
  }

  /** Keeps levels that still enclose the fill, re-anchors them when a gap has put the fill
      outside, and refuses the fill when even the re-anchored trade would not qualify. */
  function FinalizeFillGeometry(qc: QuantConfig, signal: Signal, fill: real): Option<Signal> {
    if signal.stop.None? || signal.target.None? then Some(signal)
    else if Brackets(signal.direction, signal.stop.value, fill, signal.target.value) then Some(signal)
    else
      match CheckRatio(CalculateTradeGeometry(fill, signal.atr, signal.direction, signal.pivotResistance,
                                              signal.pivotSupport, qc), qc.minRiskReward)
      case None => None
      case Some(g) => Some(signal.(stop := Some(g.stop), target := Some(g.target)))
  }

  function Enter(cfg: EngineConfig, st: EngineState, pending: PendingEntry, signal: Signal, bar: Bar, time: int): EngineState {
    var p := NewPosition(cfg.execution, signal, time, bar.open, Some(pending.score));
    Note(st.(book := Opened(st.book, p)), Entered(PositionTicket(p), pending.signal))
  }

  /** A scheduled entry is resolved next. While a position is open it is dropped without any
      record, and that bar is then not examined for a stop or target either. */
  function FillEntry(strat: Strategy, cfg: EngineConfig, st: EngineState, bar: Bar, time: int): EngineState {
    var s := bar.symbol;
    if s !in st.pendingEntry then ExamineBar(cfg, st, bar, time)
    else
      var pending := st.pendingEntry[s];
      var st' := st.(pendingEntry := st.pendingEntry - {s});
      if strat.etDate(time) in st.flattened then Reject(st', s, PostEodFlattenNoNewEntry, 1, time)
      else if s in st.book.positions then Note(st', SkippedWhileOpen(time, s, |History(st.market, s)|))
      else match FinalizeFillGeometry(cfg.quant, pending.signal, bar.open)
        case None => Reject(st', s, GeometryInvalidatedAtFill, 1, time)
        case Some(signal) => ExamineBar(cfg, Enter(cfg, st', pending, signal, bar, time), bar, time)
  }

  /** The bars of one symbol fed so far. */
  function History(market: map<Symbol, seq<Fed>>, s: Symbol): seq<Fed> { if s in market then market[s] else [] }

  function FeedMarketState(st: EngineState, bar: Bar, time: int): EngineState {
    var s := bar.symbol;
    st.(market := st.market[s := History(st.market, s) + [Fed(time, bar)]],
        lastClose := st.lastClose[s := bar.close],
        lastTime := st.lastTime[s := time])
  }

  // -------------------------------------------------- screening of candidates

  predicate ConfluenceEligible(qc: QuantConfig, s: Signal) {
    var c := if s.confluence.Some? then s.confluence.value else 0;
    if qc.independentConfirmation then c >= 1 else c >= qc.confluenceScoreMin
  }

  predicate TrendGateApplicable(qc: QuantConfig, s: Signal) {
    qc.trendGateEnabled && s.direction.Bullish? && s.session.RegularSession?
  }

  /** The gates a candidate passes one after another, in this order. */
  datatype Gate = BlackoutGate | RatioGate | HtfGate | TrendAlignmentGate | PremarketGate

  predicate Passes(qc: QuantConfig, g: Gate, s: Signal) {
    match g
    case BlackoutGate => !s.direction.Bullish?
    case RatioGate => s.riskReward.Some? && s.riskReward.value >= qc.minRiskReward
    case HtfGate => !(TrendGateApplicable(qc, s) && s.htfSma.None?)
    case TrendAlignmentGate => s.trendAligned != Some(false)
    case PremarketGate => !s.session.PreMarketSession?
  }

  function GateReason(g: Gate): Reason {
    match g
    case BlackoutGate => ClosingBlackout
    case RatioGate => LowRiskReward
    case HtfGate => HtfDataUnavailable
    case TrendAlignmentGate => TrendGate
    case PremarketGate => PremarketLiquidity
  }

  function Passing(qc: QuantConfig, g: Gate): Signal -> bool { s => Passes(qc, g, s) }

  function Kept(qc: QuantConfig, g: Gate, signals: seq<Signal>): seq<Signal> { Filter(signals, Passing(qc, g)) }

  /** Drops the candidates a gate refuses, with one rejection that counts them. */
  function Sieve(cfg: EngineConfig, st: EngineState, g: Gate, signals: seq<Signal>, s: Symbol, time: int)
    : (EngineState, seq<Signal>)
  {
    var kept := Kept(cfg.quant, g, signals);
    (if |kept| < |signals| then Reject(st, s, GateReason(g), |signals| - |kept|, time) else st, kept)
  }

  function SieveAll(cfg: EngineConfig, st: EngineState, gates: seq<Gate>, signals: seq<Signal>, s: Symbol, time: int)
    : (EngineState, seq<Signal>)
    decreases |gates|
  {
    if gates == [] then (st, signals)
    else
      var (st', kept) := Sieve(cfg, st, gates[0], signals, s, time);
      SieveAll(cfg, st', gates[1..], kept, s, time)
  }

  const LATE_GATES := [RatioGate, HtfGate, TrendAlignmentGate, PremarketGate]

  function Confluent(qc: QuantConfig): Signal -> bool { s => ConfluenceEligible(qc, s) }

  function Eligible(qc: QuantConfig, signals: seq<Signal>): seq<Signal> { Filter(signals, Confluent(qc)) }

  /** Confluence: siblings of an eligible candidate that are not eligible themselves vanish
      without a rejection. */
  function ScreenConfluence(cfg: EngineConfig, st: EngineState, signals: seq<Signal>, s: Symbol, time: int)
    : (EngineState, seq<Signal>)
  {
    var eligible := Eligible(cfg.quant, signals);
    if eligible == [] then (Reject(st, s, LowConfluence, |signals|, time), [])
    else SieveAll(cfg, Note(st, DroppedBesideSibling(|signals| - |eligible|)), LATE_GATES, eligible, s, time)
  }

  function ScreenClocks(cfg: EngineConfig, st: EngineState, signals: seq<Signal>, s: Symbol, time: int)
    : (EngineState, seq<Signal>)
  {
    if signals == [] then (st, [])
    else if Active(st.lockoutUntil, s, time) then (Reject(st, s, LossLockout, |signals|, time), [])
    else if Active(st.cooldownUntil, s, time) then (Reject(st, s, Cooldown, |signals|, time), [])
    else ScreenConfluence(cfg, st, signals, s, time)
  }

  function ScreenSession(cfg: EngineConfig, st: EngineState, blackout: Blackout, signals: seq<Signal>, s: Symbol, time: int)
    : (EngineState, seq<Signal>)
    requires signals != []
  {
    if signals[0].session.ClosedSession? then (Reject(st, s, UsMarketSessionClosed, |signals|, time), [])
    else match blackout
      case Opening => (Reject(st, s, OpeningBlackout, |signals|, time), [])
      case Closing =>
        var (st', kept) := Sieve(cfg, st, BlackoutGate, signals, s, time);
        ScreenClocks(cfg, st', kept, s, time)
      case NoBlackout => ScreenClocks(cfg, st, signals, s, time)
  }

  /** The strategy stamps every signal with the symbol it was asked about. */
  function Stamped(signals: seq<Signal>, s: Symbol): (stamped: seq<Signal>)
    ensures |stamped| == |signals|
    ensures forall x :: x in stamped ==> x.ticker == s
  {
    if signals == [] then [] else [signals[0].(ticker := s)] + Stamped(signals[1..], s)
  }

  /** Everything from the indicators to the throttle queue, for a bar already fed. */
  function Screen(strat: Strategy, cfg: EngineConfig, st: EngineState, s: Symbol, time: int): (EngineState, seq<Signal>)
    requires s in st.market
  {
    match strat.evaluate(s, st.market[s])
    case WarmingUp => (st, [])
    case Ready(gateFails, blackout, raw) =>
      if gateFails then
        (Reject(st, s, if cfg.quant.regimeGate then LowVolatilityRegime else LowVolatility, 1, time), [])
      else
        var signals := Stamped(raw, s);
        if signals == [] then (st, [])
        else ScreenSession(cfg, st.(generated := st.generated + |signals|), blackout, signals, s, time)
  }

  function Lifecycle(strat: Strategy, cfg: EngineConfig, st: EngineState, bar: Bar, time: int): EngineState {
    FillEntry(strat, cfg, FillExit(cfg, st.(barsProcessed := st.barsProcessed + 1), bar, time), bar, time)
  }

  function ProcessBar(strat: Strategy, cfg: EngineConfig, st: EngineState, bar: Bar, time: int): (EngineState, seq<Signal>) {
    Screen(strat, cfg, FeedMarketState(Lifecycle(strat, cfg, st, bar, time), bar, time), bar.symbol, time)
  }

  /** The bars of one minute in order, with the candidates they leave for the throttle. */
  function ProcessBars(strat: Strategy, cfg: EngineConfig, st: EngineState, bars: seq<Bar>, time: int): (EngineState, seq<Signal>) {
    if bars == [] then (st, [])
    else
      var (st1, before) := ProcessBars(strat, cfg, st, bars[..|bars| - 1], time);
      var (st2, found) := ProcessBar(strat, cfg, st1, bars[|bars| - 1], time);
      (st2, before + found)
  }

  // ------------------------------------------------------------------ throttle

  datatype Scored = Scored(signal: Signal, score: real)

  function ScoreAll(strat: Strategy, signals: seq<Signal>): (scored: seq<Scored>)
    ensures |scored| == |signals|
    ensures forall i :: 0 <= i < |signals| ==> scored[i] == Scored(signals[i], strat.score(signals[i]))
  {
    if signals == [] then [] else [Scored(signals[0], strat.score(signals[0]))] + ScoreAll(strat, signals[1..])
  }

  predicate Outranks(a: Scored, b: Scored) { a.score >= b.score }

  function Ranked(strat: Strategy, candidates: seq<Signal>): seq<Scored> {
    StableSort(ScoreAll(strat, candidates), Outranks)
  }

  /** Where Python's `xs[:n]` ends: a negative bound counts from the end. */
  function SliceEnd(length: nat, n: int): (end: nat)
    ensures end <= length
  {
    if n >= 0 then (if n <= length then n else length)
    else if length + n >= 0 then length + n else 0
  }

  /** The signal re-priced against the latest close, or why it may no longer publish. */
  datatype Revalidation = Valid(signal: Signal) | Refused(reason: Reason)

  function Revalidate(cfg: EngineConfig, st: EngineState, signal: Signal): Revalidation {
    var qc := cfg.quant;
    var s := signal.ticker;
    if 0.0 > qc.maxCandidateAge then Refused(ExpiredInThrottleQueue)
    else if s !in st.lastClose || signal.atr.None? || signal.pivotResistance.None? || signal.pivotSupport.None? then
      Refused(FinalRevalidationDataUnavailable)
    else
      var price := st.lastClose[s];
      match CheckRatio(CalculateTradeGeometry(price, signal.atr, signal.direction, signal.pivotResistance,
                                              signal.pivotSupport, qc), qc.minRiskReward)
      case None => Refused(RrDegradedDuringThrottle)
      case Some(g) =>
        Valid(signal.(price := price, stop := Some(g.stop), target := Some(g.target), riskReward := g.riskReward))
  }

  function Holding(st: EngineState, s: Symbol): Option<Ticket> {
    if s in st.book.positions then Some(PositionTicket(st.book.positions[s])) else None
  }

  /** What the journal says of a publication: the signal, what its symbol held, and which instructions
      of that symbol were already waiting. */
  function Publication(st: EngineState, signal: Signal, time: int): Event {
    Published(time, signal, Holding(st, signal.ticker), signal.ticker in st.pendingEntry, signal.ticker in st.pendingExit)
  }

  /** A bullish signal schedules an entry; a bearish one schedules an exit only while long. */
  function Route(st: EngineState, signal: Signal, score: real, time: int): EngineState {
    var s := signal.ticker;
    if signal.direction.Bullish? then st.(pendingEntry := st.pendingEntry[s := PendingEntry(signal, score)])
    else if s in st.book.positions then st.(pendingExit := st.pendingExit[s := signal])
    else Reject(st, s, NoActivePosition, 1, time)
  }

  /** One released candidate: cooldown, revalidation, then publication. */
  function Release(cfg: EngineConfig, st: EngineState, c: Scored, time: int): EngineState {
    var s := c.signal.ticker;
    if Active(st.cooldownUntil, s, time) then Reject(st, s, Cooldown, 1, time)
    else match Revalidate(cfg, st, c.signal)
      case Refused(reason) => Reject(st, s, reason, 1, time)
      case Valid(signal) =>
        var st' := Note(st, Publication(st, signal, time));
        Route(st'.(published := st'.published + 1,
                   cooldownUntil := st'.cooldownUntil[s := time + cfg.quant.cooldownSeconds]),
              signal, c.score, time)
  }

  function ReleaseAll(cfg: EngineConfig, st: EngineState, released: seq<Scored>, time: int): EngineState {
    if released == [] then st
    else Release(cfg, ReleaseAll(cfg, st, released[..|released| - 1], time), released[|released| - 1], time)
  }

  /** How many of the dropped candidates belong to each ticker, tickers in order of first appearance. */
  datatype TickerCount = TickerCount(ticker: Symbol, count: nat)

  function Bump(counts: seq<TickerCount>, s: Symbol): seq<TickerCount> {
    if counts == [] then [TickerCount(s, 1)]
    else if counts[0].ticker == s then [counts[0].(count := counts[0].count + 1)] + counts[1..]
    else [counts[0]] + Bump(counts[1..], s)
  }

  function CountByTicker(dropped: seq<Scored>): seq<TickerCount> {
    if dropped == [] then []
    else Bump(CountByTicker(dropped[..|dropped| - 1]), dropped[|dropped| - 1].signal.ticker)
  }

  function RejectThrottled(st: EngineState, counts: seq<TickerCount>, time: int): EngineState {
    if counts == [] then st
    else
      var last := counts[|counts| - 1];
      Reject(RejectThrottled(st, counts[..|counts| - 1], time), last.ticker, Throttle, last.count, time)
  }

  function Flush(strat: Strategy, cfg: EngineConfig, st: EngineState, candidates: seq<Signal>, time: int): EngineState {
    var ranked := Ranked(strat, candidates);
    var end := SliceEnd(|ranked|, cfg.quant.throttleMaxSignals);
    RejectThrottled(ReleaseAll(cfg, st, ranked[..end], time), CountByTicker(ranked[end..]), time)
  }

  // ------------------------------------------------------------- end of day

  function ForceClose(cfg: EngineConfig, st: EngineState, s: Symbol, time: int): EngineState {
    if s !in st.lastClose then st
    else
      var (book, t) := Closed(cfg.execution, st.book, s, time, st.lastClose[s], EndOfSession, None);
      RecordIfAny(cfg, st.(book := book), t, time)
  }

  function ForceCloseAll(cfg: EngineConfig, st: EngineState, symbols: seq<Symbol>, time: int): EngineState {
    if symbols == [] then st
    else ForceClose(cfg, ForceCloseAll(cfg, st, symbols[..|symbols| - 1], time), symbols[|symbols| - 1], time)
  }

  predicate FlattenDue(strat: Strategy, cfg: EngineConfig, st: EngineState, time: int) {
    cfg.eodFlattenEnabled && strat.etSecond(time) >= cfg.flattenSecond && strat.etDate(time) !in st.flattened
  }

  /** Once per New York date, at or after the configured time, every open position is closed. */
  function FlattenIfDue(strat: Strategy, cfg: EngineConfig, st: EngineState, time: int): EngineState {
    if !FlattenDue(strat, cfg, st, time) then st
    else ForceCloseAll(cfg, st.(flattened := st.flattened + {strat.etDate(time)}), st.book.order, time)
  }

  // -------------------------------------------------------------------- runs

  function Step(strat: Strategy, cfg: EngineConfig, st: EngineState, m: Minute): EngineState {
    var (st1, candidates) := ProcessBars(strat, cfg, st, m.bars, m.time);
    var st2 := if candidates == [] then st1 else Flush(strat, cfg, st1, candidates, m.time);
    FlattenIfDue(strat, cfg, st2, m.time)
  }

  function Play(strat: Strategy, cfg: EngineConfig, st: EngineState, minutes: seq<Minute>): EngineState {
    if minutes == [] then st
    else Step(strat, cfg, Play(strat, cfg, st, minutes[..|minutes| - 1]), minutes[|minutes| - 1])
  }

  /** Pre-roll feeds the market-state buffers and nothing else. */
  function WarmupBar(st: EngineState, bar: Bar, time: int): EngineState {
    FeedMarketState(st, bar, time).(warmupBars := st.warmupBars + 1)
  }

  function WarmupBars(st: EngineState, bars: seq<Bar>, time: int): EngineState {
    if bars == [] then st
    else WarmupBar(WarmupBars(st, bars[..|bars| - 1], time), bars[|bars| - 1], time)
  }

  function Warmup(st: EngineState, minutes: seq<Minute>): EngineState {
    if minutes == [] then st
    else
      var last := minutes[|minutes| - 1];
      WarmupBars(Warmup(st, minutes[..|minutes| - 1]), last.bars, last.time)
  }

  /** Positions still open when the data runs out leave at their own symbol's last close; no
      lockout is armed. */
  function CloseAtDataEnd(cfg: EngineConfig, st: EngineState, s: Symbol): EngineState {
    if s !in st.lastClose || s !in st.lastTime then st
    else
      var (book, t) := Closed(cfg.execution, st.book, s, st.lastTime[s], st.lastClose[s], DataEnd, None);
      if t.Some? then st.(book := book, trades := st.trades + [t.value]) else st
  }

  function CloseAllAtDataEnd(cfg: EngineConfig, st: EngineState, symbols: seq<Symbol>): EngineState {
    if symbols == [] then st
    else CloseAtDataEnd(cfg, CloseAllAtDataEnd(cfg, st, symbols[..|symbols| - 1]), symbols[|symbols| - 1])
  }

  function FinishRun(cfg: EngineConfig, st: EngineState): EngineState { CloseAllAtDataEnd(cfg, st, st.book.order) }

  /** Timestamps ascend strictly, as grouping a sorted frame by timestamp makes them. */
  predicate Chronological(minutes: seq<Minute>) {
    forall i, j :: 0 <= i < j < |minutes| ==> minutes[i].time < minutes[j].time
  }

  /** Sorted and de-duplicated data: one bar per symbol and timestamp. */
  predicate OneBarPerSymbol(bars: seq<Bar>) {
    forall i, j :: 0 <= i < j < |bars| ==> bars[i].symbol != bars[j].symbol
  }

  predicate Deduplicated(minutes: seq<Minute>) {
    forall i :: 0 <= i < |minutes| ==> OneBarPerSymbol(minutes[i].bars)
  }

  datatype RunResult = Completed(state: EngineState) | WarmupNotEarlier

  /** A whole run on a fresh engine. Pre-roll must end before the evaluation data begins. */
  function Run(strat: Strategy, cfg: EngineConfig, warmup: seq<Minute>, minutes: seq<Minute>): RunResult {
    if warmup != [] && minutes != [] && warmup[|warmup| - 1].time >= minutes[0].time then WarmupNotEarlier
    else if minutes == [] then Completed(INITIAL)
    else Completed(FinishRun(cfg, Play(strat, cfg, Warmup(INITIAL, warmup), minutes)))
  }
}
