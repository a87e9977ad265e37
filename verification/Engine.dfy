/** The mutable replay engine (talonx_backtest/engine.py, BacktestEngine), method by method. Every
    method is proved to take its fields from one engine state to the next exactly as the
    transition of the same name in Replay.dfy does. */
module Engine {
  import opened Sequences
  import opened Market
  import opened Geometry
  import opened Execution
  import opened Simulator
  import opened Replay
  import Spec = Replay

  /** Whatever is scheduled has both protective levels and is filed under its own ticker. */
  ghost predicate PlansEquipped(pending: map<Symbol, PendingEntry>) {
    forall s :: s in pending ==>
      pending[s].signal.stop.Some? && pending[s].signal.target.Some? && pending[s].signal.ticker == s
  }

  ghost predicate BookEquipped(b: Book) {
    forall s :: s in b.positions ==> b.positions[s].stop.Some? && b.positions[s].target.Some?
  }

  lemma ExaminedEquipped(cfg: ExecutionConfig, b: Book, s: Symbol, time: int, high: real, low: real)
    requires BookEquipped(b)
    ensures BookEquipped(Examined(cfg, b, s, time, high, low).0)
  {
    hide CloseTrade;
  }

  lemma ClosedEquipped(cfg: ExecutionConfig, b: Book, s: Symbol, time: int, price: real, reason: ExitReason, sig: Option<Signal>)
    requires BookEquipped(b)
    ensures BookEquipped(Closed(cfg, b, s, time, price, reason, sig).0)
  {
    hide CloseTrade;
  }

  lemma OpenedEquipped(cfg: ExecutionConfig, b: Book, signal: Signal, time: int, price: real, score: Option<real>)
    requires BookEquipped(b) && signal.stop.Some? && signal.target.Some?
    ensures BookEquipped(Opened(b, NewPosition(cfg, signal, time, price, score)))
  {
    hide EntryCost, RiskOf;
  }

  lemma FinalizedEquipped(qc: QuantConfig, signal: Signal, fill: real)
    requires signal.stop.Some? && signal.target.Some?
    ensures
      var f := FinalizeFillGeometry(qc, signal, fill);
      f.Some? ==> f.value.stop.Some? && f.value.target.Some? && f.value.ticker == signal.ticker
  {
    hide CheckRatio, Brackets;
  }

  lemma RevalidatedEquipped(cfg: EngineConfig, st: EngineState, signal: Signal)
    ensures
      var r := Spec.Revalidate(cfg, st, signal);
      r.Valid? ==> r.signal.stop.Some? && r.signal.target.Some? && r.signal.ticker == signal.ticker
  {
    hide CheckRatio;
  }

  lemma {:induction false} SieveNothing(cfg: EngineConfig, st: EngineState, gates: seq<Gate>, s: Symbol, time: int)
    ensures SieveAll(cfg, st, gates, [], s, time) == (st, [])
    decreases |gates|
  {
    if gates != [] {
      SieveNothing(cfg, st, gates[1..], s, time);
    }
  }

  /** Splits a list by a predicate, both parts in their original order. */
  method Partition<T(!new)>(xs: seq<T>, keep: T -> bool) returns (kept: seq<T>, dropped: seq<T>)
    ensures kept == Filter(xs, keep) && dropped == Filter(xs, Not(keep))
    ensures |kept| + |dropped| == |xs|
  {
    kept, dropped := [], [];
    for i := 0 to |xs|
      invariant kept == Filter(xs[..i], keep) && dropped == Filter(xs[..i], Not(keep))
    {
      assert xs[..i + 1] == xs[..i] + [xs[i]];
      FilterSnoc(xs[..i], xs[i], keep);
      FilterSnoc(xs[..i], xs[i], Not(keep));
      if keep(xs[i]) {
        kept := kept + [xs[i]];
      } else {
        dropped := dropped + [xs[i]];
      }
    }
    assert xs[..|xs|] == xs;
    FilterPartition(xs, keep);
  }

  class BacktestEngine {
    const strategy: Strategy
    const config: EngineConfig
    const simulator: TradeSimulator
    var pendingEntry: map<Symbol, PendingEntry>
    var pendingExit: map<Symbol, Signal>
    var cooldownUntil: map<Symbol, int>
    var lockoutUntil: map<Symbol, int>
    var flattened: set<int>
    var trades: seq<Trade>
    var rejections: seq<Rejection>
    var generated: nat
    var published: nat
    var barsProcessed: nat
    var warmupBars: nat
    var market: map<Symbol, seq<Fed>>
    var lastClose: map<Symbol, real>
    var lastTime: map<Symbol, int>
    ghost var journal: seq<Event>

    ghost predicate Valid()
      reads this, simulator, simulator.Owned()
    {
      && simulator.Valid() && simulator.config == config.execution
      && (forall s :: s in simulator.open ==> simulator.open[s].stop.Some? && simulator.open[s].target.Some?)
      && PlansEquipped(pendingEntry)
    }

    ghost function State(): EngineState
      reads this, simulator
    {
      EngineState(simulator.book, pendingEntry, pendingExit, cooldownUntil, lockoutUntil, flattened, trades, rejections,
                  generated, published, barsProcessed, warmupBars, market, lastClose, lastTime, journal)
    }

    constructor (strategy: Strategy, config: EngineConfig)
      ensures State() == INITIAL && this.strategy == strategy && this.config == config
      ensures fresh(simulator) && simulator.Owned() == {}
      ensures Valid()
    {
      this.strategy := strategy;
      this.config := config;
      simulator := new TradeSimulator(config.execution);
      pendingEntry, pendingExit, cooldownUntil, lockoutUntil := map[], map[], map[], map[];
      flattened, trades, rejections := {}, [], [];
      generated, published, barsProcessed, warmupBars := 0, 0, 0, 0;
      market, lastClose, lastTime := map[], map[], map[];
      journal := [];
    }

    method Reject(s: Symbol, reason: Reason, count: nat, time: int)
      requires Valid()
      modifies `rejections
      ensures State() == Spec.Reject(old(State()), s, reason, count, time)
      ensures Valid()
    {
      rejections := rejections + [Rejection(s, reason, count, time)];
    }

    ghost method NoteEvent(e: Event)
      requires Valid()
      modifies `journal
      ensures State() == Note(old(State()), e)
      ensures Valid()
    {
      journal := journal + [e];
    }

    ghost method NoteSkip(s: Symbol, time: int)
      requires Valid()
      modifies `journal
      ensures State() == Note(old(State()), SkippedWhileOpen(time, s, |Spec.History(old(State()).market, s)|))
      ensures Valid()
    {
      NoteEvent(SkippedWhileOpen(time, s, |Spec.History(market, s)|));
    }

    method AppendTrade(trade: Option<Trade>)
      requires Valid()
      modifies `trades
      ensures State() == if trade.Some? then old(State()).(trades := old(State()).trades + [trade.value]) else old(State())
      ensures Valid()
    {
      if trade.Some? {
        trades := trades + [trade.value];
      }
    }

    method MaybeArmLossLockout(trade: Trade, time: int)
      requires Valid()
      modifies `lockoutUntil
      ensures
        var st := old(State());
        State() == st.(lockoutUntil := if trade.netPnl < 0.0 then st.lockoutUntil[trade.symbol := time + config.quant.lossLockoutSeconds]
                                       else st.lockoutUntil)
      ensures Valid()
    {
      if trade.netPnl < 0.0 {
        lockoutUntil := lockoutUntil[trade.symbol := time + config.quant.lossLockoutSeconds];
      }
    }

    /** Books a trade, if there is one, and arms the loss lockout when it lost money. */
    method BookTrade(trade: Option<Trade>, time: int)
      requires Valid()
      modifies `trades, `lockoutUntil
      ensures State() == RecordIfAny(config, old(State()), trade, time)
      ensures Valid()
    {
      hide State, Valid;
      AppendTrade(trade);
      if trade.Some? {
        MaybeArmLossLockout(trade.value, time);
      }
    }

    // ------------------------------------------------------------ small queries

    predicate HasOpen(s: Symbol)
      requires Valid()
      reads this, simulator, simulator.Owned()
      ensures HasOpen(s) == (s in State().book.positions)
    {
      s in simulator.open
    }

    function PriceOf(s: Symbol): (price: Option<real>)
      reads this, simulator
      ensures price == if s in State().lastClose then Some(State().lastClose[s]) else None
    {
      if s in lastClose then Some(lastClose[s]) else None
    }

    function TimeOf(s: Symbol): (time: Option<int>)
      reads this, simulator
      ensures time == if s in State().lastTime then Some(State().lastTime[s]) else None
    {
      if s in lastTime then Some(lastTime[s]) else None
    }

    function OpenSymbols(): (symbols: seq<Symbol>)
      requires Valid()
      reads this, simulator, simulator.Owned()
      ensures symbols == State().book.order
    {
      simulator.order
    }

    predicate DateFlattened(date: int)
      reads this, simulator
      ensures DateFlattened(date) == (date in State().flattened)
    {
      date in flattened
    }

    predicate OnCooldown(s: Symbol, now: int)
      reads this, simulator
      ensures OnCooldown(s, now) == Active(State().cooldownUntil, s, now)
    {
      s in cooldownUntil && now < cooldownUntil[s]
    }

    // --------------------------------------------------------- lifecycle of a bar

    method CountBar()
      requires Valid()
      modifies `barsProcessed
      ensures State() == old(State()).(barsProcessed := old(State()).barsProcessed + 1)
      ensures Valid()
    {
      barsProcessed := barsProcessed + 1;
    }

    method TakeExit(s: Symbol) returns (signal: Option<Signal>)
      requires Valid()
      modifies `pendingExit
      ensures
        var st := old(State());
        if s in st.pendingExit then signal == Some(st.pendingExit[s]) && State() == st.(pendingExit := st.pendingExit - {s})
        else signal == None && State() == st
      ensures Valid()
    {
      if s !in pendingExit {
        return None;
      }
      signal := Some(pendingExit[s]);
      pendingExit := pendingExit - {s};
    }

    method TakeEntry(s: Symbol) returns (pending: Option<PendingEntry>)
      requires Valid()
      modifies `pendingEntry
      ensures
        var st := old(State());
        if s in st.pendingEntry then pending == Some(st.pendingEntry[s]) && State() == st.(pendingEntry := st.pendingEntry - {s})
        else pending == None && State() == st
      ensures pending.Some? ==>
        pending.value.signal.stop.Some? && pending.value.signal.target.Some? && pending.value.signal.ticker == s
      ensures Valid()
    {
      if s !in pendingEntry {
        return None;
      }
      pending := Some(pendingEntry[s]);
      pendingEntry := pendingEntry - {s};
    }

    method CloseBook(s: Symbol, time: int, price: real, reason: ExitReason, exitSignal: Option<Signal>)
      returns (trade: Option<Trade>)
      requires Valid()
      modifies simulator
      ensures
        var (book, t) := Closed(config.execution, old(State()).book, s, time, price, reason, exitSignal);
        trade == t && State() == old(State()).(book := book)
      ensures trade.None? ==> State() == old(State())
      ensures Valid() && simulator.Owned() <= old(simulator.Owned())
    {
      hide CloseTrade;
      ClosedEquipped(config.execution, simulator.book, s, time, price, reason, exitSignal);
      trade := simulator.Close(s, time, price, reason, exitSignal);
    }

    /** Closes whatever is open for the symbol, books the trade and arms the lockout. */
    method CloseOpen(s: Symbol, time: int, price: real, reason: ExitReason, exitSignal: Option<Signal>)
      requires Valid()
      modifies this, simulator
      ensures
        var st := old(State());
        var (book, t) := Closed(config.execution, st.book, s, time, price, reason, exitSignal);
        State() == RecordIfAny(config, st.(book := book), t, time)
      ensures Valid() && simulator.Owned() <= old(simulator.Owned())
    {
      hide RecordIfAny, Closed, State, Valid;
      var trade := CloseBook(s, time, price, reason, exitSignal);
      BookTrade(trade, time);
    }

    method ResolveExit(bar: Bar, time: int)
      requires Valid()
      modifies this, simulator
      ensures State() == FillExit(config, old(State()), bar, time)
      ensures Valid() && simulator.Owned() <= old(simulator.Owned())
    {
      hide State, Valid, RecordIfAny, Closed, Spec.Reject, HasOpen;
      var s := bar.symbol;
      var signal := TakeExit(s);
      if signal.Some? && HasOpen(s) {
        CloseOpen(s, time, bar.open, SignalExit, signal);
      } else if signal.Some? {
        Reject(s, NoActivePosition, 1, time);
      }
    }

    method ExamineOpen(bar: Bar, time: int)
      requires Valid()
      modifies this, simulator, simulator.Owned()
      ensures State() == ExamineBar(config, old(State()), bar, time)
      ensures Valid() && simulator.Owned() <= old(simulator.Owned())
    {
      hide RecordIfAny, Examined;
      ExaminedEquipped(config.execution, simulator.book, bar.symbol, time, bar.high, bar.low);
      assert bar.symbol in simulator.open ==> bar.symbol in simulator.book.positions;
      var trade := simulator.CheckExit(bar.symbol, time, bar.high, bar.low);
      BookTrade(trade, time);
    }

    /** Reconciles a planned entry with the price it would actually fill at. */
    method FinalizeFill(signal: Signal, fill: real, time: int) returns (finalized: Option<Signal>)
      requires Valid()
      modifies `rejections
      ensures Valid() && finalized == FinalizeFillGeometry(config.quant, signal, fill)
      ensures State() == if finalized.None? then Spec.Reject(old(State()), signal.ticker, GeometryInvalidatedAtFill, 1, time)
                         else old(State())
    {
      if signal.stop.None? || signal.target.None? {
        return Some(signal);
      }
      if Brackets(signal.direction, signal.stop.value, fill, signal.target.value) {
        return Some(signal);
      }
      var geometry := CalculateTradeGeometry(fill, signal.atr, signal.direction, signal.pivotResistance, signal.pivotSupport,
                                             config.quant);
      if geometry.None? || geometry.value.riskReward.None? || geometry.value.riskReward.value < config.quant.minRiskReward {
        Reject(signal.ticker, GeometryInvalidatedAtFill, 1, time);
        return None;
      }
      return Some(signal.(stop := Some(geometry.value.stop), target := Some(geometry.value.target)));
    }

    method FillAt(signal: Signal, time: int, price: real, score: Option<real>)
      requires Valid() && signal.stop.Some? && signal.target.Some?
      modifies simulator
      ensures State() == old(State()).(book := Opened(old(State()).book, NewPosition(config.execution, signal, time, price, score)))
      ensures Valid() && fresh(simulator.Owned() - old(simulator.Owned()))
    {
      hide NewPosition;
      OpenedEquipped(config.execution, simulator.book, signal, time, price, score);
      simulator.OpenAt(signal, time, price, score);
    }

    method OpenAt(pending: PendingEntry, signal: Signal, bar: Bar, time: int)
      requires Valid() && signal.stop.Some? && signal.target.Some?
      modifies this, simulator
      ensures State() == Enter(config, old(State()), pending, signal, bar, time)
      ensures Valid() && fresh(simulator.Owned() - old(simulator.Owned()))
    {
      hide State, Valid, NewPosition, Opened;
      FillAt(signal, time, bar.open, Some(pending.score));
      ghost var p := NewPosition(config.execution, signal, time, bar.open, Some(pending.score));
      NoteEvent(Entered(PositionTicket(p), pending.signal));
    }

    method ResolveEntry(bar: Bar, time: int)
      requires Valid()
      modifies this, simulator, simulator.Owned()
      ensures State() == FillEntry(strategy, config, old(State()), bar, time)
      ensures Valid() && fresh(simulator.Owned() - old(simulator.Owned()))
    {
      hide State, Valid, ExamineBar, FinalizeFillGeometry, Enter, Spec.Reject, HasOpen, DateFlattened, Note;
      var s := bar.symbol;
      var pending := TakeEntry(s);
      if pending.None? {
        ExamineOpen(bar, time);
      } else if DateFlattened(strategy.etDate(time)) {
        Reject(s, PostEodFlattenNoNewEntry, 1, time);
      } else if HasOpen(s) {
        NoteSkip(s, time);
      } else {
        FinalizedEquipped(config.quant, pending.value.signal, bar.open);
        var signal := FinalizeFill(pending.value.signal, bar.open, time);
        if signal.Some? {
          OpenAt(pending.value, signal.value, bar, time);
          ExamineOpen(bar, time);
        }
      }
    }

    method FeedBuffers(bar: Bar, time: int)
      requires Valid()
      modifies `market
      ensures
        var s, st := bar.symbol, old(State());
        State() == st.(market := st.market[s := (if s in st.market then st.market[s] else []) + [Fed(time, bar)]])
      ensures Valid()
    {
      var s := bar.symbol;
      market := market[s := (if s in market then market[s] else []) + [Fed(time, bar)]];
    }

    method RememberLast(bar: Bar, time: int)
      requires Valid()
      modifies `lastClose, `lastTime
      ensures
        var s, st := bar.symbol, old(State());
        State() == st.(lastClose := st.lastClose[s := bar.close], lastTime := st.lastTime[s := time])
      ensures Valid()
    {
      lastClose := lastClose[bar.symbol := bar.close];
      lastTime := lastTime[bar.symbol := time];
    }

    method FeedBar(bar: Bar, time: int)
      requires Valid()
      modifies `market, `lastClose, `lastTime
      ensures State() == FeedMarketState(old(State()), bar, time)
      ensures Valid()
    {
      hide State, Valid;
      FeedBuffers(bar, time);
      RememberLast(bar, time);
    }

    function History(s: Symbol): (fed: seq<Fed>)
      requires s in State().market
      reads this, simulator
      ensures fed == State().market[s]
    {
      market[s]
    }

    method CountGenerated(count: nat)
      requires Valid()
      modifies `generated
      ensures State() == old(State()).(generated := old(State()).generated + count)
      ensures Valid()
    {
      generated := generated + count;
    }

    // ---------------------------------------------------------------- screening

    method ApplyGate(g: Gate, signals: seq<Signal>, s: Symbol, time: int) returns (kept: seq<Signal>)
      requires Valid()
      modifies `rejections
      ensures var r := Sieve(config, old(State()), g, signals, s, time); State() == r.0 && kept == r.1
      ensures Valid()
    {
      hide Filter, Passes;
      var qc := config.quant;
      var dropped;
      kept, dropped := Partition(signals, Passing(qc, g));
      if dropped != [] {
        Reject(s, GateReason(g), |dropped|, time);
      }
    }

    method ApplyLateGates(signals: seq<Signal>, s: Symbol, time: int) returns (survivors: seq<Signal>)
      requires Valid()
      modifies `rejections
      ensures var r := SieveAll(config, old(State()), LATE_GATES, signals, s, time); State() == r.0 && survivors == r.1
      ensures Valid()
    {
      hide Sieve;
      ghost var was := State();
      survivors := signals;
      for i := 0 to 4
        invariant Valid()
        invariant SieveAll(config, State(), LATE_GATES[i..], survivors, s, time) == SieveAll(config, was, LATE_GATES, signals, s, time)
      {
        ghost var before := State();
        ghost var entering := survivors;
        assert LATE_GATES[i..][0] == LATE_GATES[i] && LATE_GATES[i..][1..] == LATE_GATES[i + 1..];
        survivors := ApplyGate(LATE_GATES[i], survivors, s, time);
        assert SieveAll(config, before, LATE_GATES[i..], entering, s, time)
            == SieveAll(config, State(), LATE_GATES[i + 1..], survivors, s, time);
        if survivors == [] {
          SieveNothing(config, State(), LATE_GATES[i + 1..], s, time);
          return;
        }
      }
    }

    /** Confluence and everything after it; ineligible siblings of an eligible candidate vanish. */
    method SelectConfluent(signals: seq<Signal>, s: Symbol, time: int) returns (survivors: seq<Signal>)
      requires Valid()
      modifies `rejections, `journal
      ensures var r := ScreenConfluence(config, old(State()), signals, s, time); State() == r.0 && survivors == r.1
      ensures Valid()
    {
      hide SieveAll, Filter, Spec.Reject, Note;
      var qualifying, others := Partition(signals, Confluent(config.quant));
      assert simulator.book == old(simulator.book);
      assert Valid();
      if qualifying == [] {
        Reject(s, LowConfluence, |signals|, time);
        return [];
      }
      NoteEvent(DroppedBesideSibling(|others|));
      survivors := ApplyLateGates(qualifying, s, time);
    }

    method ScreenCandidates(blackout: Blackout, found: seq<Signal>, s: Symbol, time: int) returns (survivors: seq<Signal>)
      requires Valid() && found != []
      modifies `rejections, `journal
      ensures var r := ScreenSession(config, old(State()), blackout, found, s, time); State() == r.0 && survivors == r.1
      ensures Valid()
    {
      hide ScreenConfluence, Sieve, Spec.Reject;
      var signals := found;
      survivors := [];
      if signals[0].session.ClosedSession? {
        Reject(s, UsMarketSessionClosed, |signals|, time);
        return;
      }
      if blackout.Opening? {
        Reject(s, OpeningBlackout, |signals|, time);
        return;
      }
      if blackout.Closing? {
        signals := ApplyGate(BlackoutGate, signals, s, time);
        if signals == [] {
          return;
        }
      }
      if Active(lockoutUntil, s, time) {
        Reject(s, Spec.LossLockout, |signals|, time);
        return;
      }
      if Active(cooldownUntil, s, time) {
        Reject(s, Cooldown, |signals|, time);
        return;
      }
      survivors := SelectConfluent(signals, s, time);
    }

    method ScreenBar(s: Symbol, time: int) returns (survivors: seq<Signal>)
      requires Valid() && s in State().market
      modifies `rejections, `journal, `generated
      ensures var r := Screen(strategy, config, old(State()), s, time); State() == r.0 && survivors == r.1
      ensures Valid()
    {
      hide State, Valid, ScreenSession, Spec.Reject;
      survivors := [];
      var e := strategy.evaluate(s, History(s));
      if e.WarmingUp? {
        return;
      }
      if e.gateFails {
        Reject(s, if config.quant.regimeGate then LowVolatilityRegime else LowVolatility, 1, time);
        return;
      }
      var signals := Stamped(e.signals, s);
      if signals == [] {
        return;
      }
      CountGenerated(|signals|);
      survivors := ScreenCandidates(e.blackout, signals, s, time);
    }

    /** One bar: scheduled instructions and the exit check first, then the market state, then screening. */
    method ProcessSymbolBar(bar: Bar, time: int) returns (survivors: seq<Signal>)
      requires Valid()
      modifies this, simulator, simulator.Owned()
      ensures var r := ProcessBar(strategy, config, old(State()), bar, time); State() == r.0 && survivors == r.1
      ensures Valid() && fresh(simulator.Owned() - old(simulator.Owned()))
    {
      hide State, Valid, FillExit, FillEntry, Screen;
      CountBar();
      ResolveExit(bar, time);
      ResolveEntry(bar, time);
      FeedBar(bar, time);
      survivors := ScreenBar(bar.symbol, time);
    }

    // ----------------------------------------------------------------- throttle

    /** Re-prices a candidate against the latest close, or records why it may no longer publish. */
    method Revalidate(signal: Signal, time: int) returns (revalidated: Option<Signal>)
      requires Valid()
      modifies `rejections
      ensures
        match Spec.Revalidate(config, old(State()), signal)
        case Refused(reason) => revalidated == None && State() == Spec.Reject(old(State()), signal.ticker, reason, 1, time)
        case Valid(s) => revalidated == Some(s) && State() == old(State())
      ensures Valid()
    {
      var qc := config.quant;
      var s := signal.ticker;
      if 0.0 > qc.maxCandidateAge {
        Reject(s, ExpiredInThrottleQueue, 1, time);
        return None;
      }
      if s !in lastClose || signal.atr.None? || signal.pivotResistance.None? || signal.pivotSupport.None? {
        Reject(s, FinalRevalidationDataUnavailable, 1, time);
        return None;
      }
      var price := lastClose[s];
      var geometry := CalculateTradeGeometry(price, signal.atr, signal.direction, signal.pivotResistance, signal.pivotSupport, qc);
      if geometry.None? || geometry.value.riskReward.None? || geometry.value.riskReward.value < qc.minRiskReward {
        Reject(s, RrDegradedDuringThrottle, 1, time);
        return None;
      }
      return Some(signal.(price := price, stop := Some(geometry.value.stop), target := Some(geometry.value.target),
                          riskReward := geometry.value.riskReward));
    }

    method ReleaseCandidate(c: Scored, time: int)
      requires Valid()
      modifies this
      ensures State() == Release(config, old(State()), c, time)
      ensures Valid()
    {
      hide Spec.Revalidate, Route, Holding, Spec.Reject, Note, State, Valid;
      var s := c.signal.ticker;
      if OnCooldown(s, time) {
        Reject(s, Cooldown, 1, time);
        return;
      }
      RevalidatedEquipped(config, State(), c.signal);
      var revalidated := Revalidate(c.signal, time);
      if revalidated.None? {
        return;
      }
      NoteEvent(Publication(State(), revalidated.value, time));
      CountPublished();
      ArmCooldown(s, time);
      RouteSignal(revalidated.value, c.score, time);
    }

    method CountPublished()
      requires Valid()
      modifies `published
      ensures State() == old(State()).(published := old(State()).published + 1)
      ensures Valid()
    {
      published := published + 1;
    }

    method ArmCooldown(s: Symbol, time: int)
      requires Valid()
      modifies `cooldownUntil
      ensures State() == old(State()).(cooldownUntil := old(State()).cooldownUntil[s := time + config.quant.cooldownSeconds])
      ensures Valid()
    {
      cooldownUntil := cooldownUntil[s := time + config.quant.cooldownSeconds];
    }

    /** A bullish signal schedules an entry; a bearish one schedules an exit only while long. */
    method RouteSignal(signal: Signal, score: real, time: int)
      requires Valid() && signal.stop.Some? && signal.target.Some?
      modifies `pendingEntry, `pendingExit, `rejections
      ensures State() == Route(old(State()), signal, score, time)
      ensures Valid()
    {
      var s := signal.ticker;
      if signal.direction.Bullish? {
        pendingEntry := pendingEntry[s := PendingEntry(signal, score)];
      } else if s in simulator.open {
        pendingExit := pendingExit[s := signal];
      } else {
        Reject(s, NoActivePosition, 1, time);
      }
    }

    method FlushThrottle(candidates: seq<Signal>, time: int)
      requires Valid()
      modifies this
      ensures State() == Flush(strategy, config, old(State()), candidates, time)
      ensures Valid()
    {
      hide Release, Ranked, Spec.Reject, Bump;
      var scored := Ranked(strategy, candidates);
      var end := SliceEnd(|scored|, config.quant.throttleMaxSignals);
      var released, dropped := scored[..end], scored[end..];
      for i := 0 to |released|
        invariant Valid() && State() == ReleaseAll(config, old(State()), released[..i], time)
      {
        assert released[..i + 1][..i] == released[..i];
        ReleaseCandidate(released[i], time);
      }
      assert released[..|released|] == released;
      var byTicker: seq<TickerCount> := [];
      for i := 0 to |dropped|
        invariant byTicker == CountByTicker(dropped[..i])
      {
        assert dropped[..i + 1][..i] == dropped[..i];
        byTicker := Bump(byTicker, dropped[i].signal.ticker);
      }
      assert dropped[..|dropped|] == dropped;
      ghost var afterRelease := State();
      for i := 0 to |byTicker|
        invariant Valid() && State() == RejectThrottled(afterRelease, byTicker[..i], time)
      {
        assert byTicker[..i + 1][..i] == byTicker[..i];
        Reject(byTicker[i].ticker, Throttle, byTicker[i].count, time);
      }
      assert byTicker[..|byTicker|] == byTicker;
    }

    // ---------------------------------------------------- end of day, end of data

    method MarkFlattened(date: int)
      requires Valid()
      modifies `flattened
      ensures State() == old(State()).(flattened := old(State()).flattened + {date})
      ensures Valid()
    {
      flattened := flattened + {date};
    }

    method FlattenSymbol(s: Symbol, time: int)
      requires Valid()
      modifies this, simulator
      ensures State() == ForceClose(config, old(State()), s, time)
      ensures Valid() && simulator.Owned() <= old(simulator.Owned())
    {
      hide State, Valid, RecordIfAny, Closed, PriceOf;
      var price := PriceOf(s);
      if price.Some? {
        CloseOpen(s, time, price.value, EndOfSession, None);
      }
    }

    method MaybeEodFlatten(time: int)
      requires Valid()
      modifies this, simulator
      ensures State() == if config.eodFlattenEnabled then FlattenIfDue(strategy, config, old(State()), time) else old(State())
      ensures Valid() && simulator.Owned() <= old(simulator.Owned())
    {
      hide State, Valid, ForceClose, DateFlattened, OpenSymbols;
      if !config.eodFlattenEnabled || strategy.etSecond(time) < config.flattenSecond {
        return;
      }
      var date := strategy.etDate(time);
      if DateFlattened(date) {
        return;
      }
      MarkFlattened(date);
      var symbols := OpenSymbols();
      ghost var was := State();
      for i := 0 to |symbols|
        invariant Valid() && simulator.Owned() <= old(simulator.Owned())
        invariant State() == ForceCloseAll(config, was, symbols[..i], time)
      {
        assert symbols[..i + 1][..i] == symbols[..i];
        FlattenSymbol(symbols[i], time);
      }
      assert symbols[..|symbols|] == symbols;
    }

    method FinalizeSymbol(s: Symbol)
      requires Valid()
      modifies this, simulator
      ensures State() == CloseAtDataEnd(config, old(State()), s)
      ensures Valid() && simulator.Owned() <= old(simulator.Owned())
    {
      hide State, Valid, Closed, PriceOf, TimeOf;
      var price, time := PriceOf(s), TimeOf(s);
      if price.Some? && time.Some? {
        var trade := CloseBook(s, time.value, price.value, DataEnd, None);
        AppendTrade(trade);
      }
    }

    method FinalizeAtDataEnd()
      requires Valid()
      modifies this, simulator
      ensures State() == FinishRun(config, old(State()))
      ensures Valid() && simulator.Owned() <= old(simulator.Owned())
    {
      hide State, Valid, CloseAtDataEnd, OpenSymbols;
      var symbols := OpenSymbols();
      for i := 0 to |symbols|
        invariant Valid() && simulator.Owned() <= old(simulator.Owned())
        invariant State() == CloseAllAtDataEnd(config, old(State()), symbols[..i])
      {
        assert symbols[..i + 1][..i] == symbols[..i];
        FinalizeSymbol(symbols[i]);
      }
      assert symbols[..|symbols|] == symbols;
    }

    // ---------------------------------------------------------------------- runs

    method CountWarmupBar()
      requires Valid()
      modifies `warmupBars
      ensures State() == old(State()).(warmupBars := old(State()).warmupBars + 1)
      ensures Valid()
    {
      warmupBars := warmupBars + 1;
    }

    method WarmupSymbolBar(bar: Bar, time: int)
      requires Valid()
      modifies `market, `lastClose, `lastTime, `warmupBars
      ensures State() == WarmupBar(old(State()), bar, time)
      ensures Valid()
    {
      hide State, Valid;
      FeedBar(bar, time);
      CountWarmupBar();
    }

    method WarmupMinute(m: Minute)
      requires Valid()
      modifies `market, `lastClose, `lastTime, `warmupBars
      ensures State() == WarmupBars(old(State()), m.bars, m.time)
      ensures Valid()
    {
      hide WarmupBar;
      for i := 0 to |m.bars|
        invariant Valid() && State() == WarmupBars(old(State()), m.bars[..i], m.time)
      {
        assert m.bars[..i + 1][..i] == m.bars[..i];
        WarmupSymbolBar(m.bars[i], m.time);
      }
      assert m.bars[..|m.bars|] == m.bars;
    }

    method ReplayMinute(m: Minute)
      requires Valid()
      modifies this, simulator, simulator.Owned()
      ensures State() == Step(strategy, config, old(State()), m)
      ensures Valid() && fresh(simulator.Owned() - old(simulator.Owned()))
    {
      hide ProcessBar, Flush, ForceCloseAll;
      var candidates: seq<Signal> := [];
      for i := 0 to |m.bars|
        invariant Valid() && fresh(simulator.Owned() - old(simulator.Owned()))
        invariant (State(), candidates) == ProcessBars(strategy, config, old(State()), m.bars[..i], m.time)
      {
        assert m.bars[..i + 1][..i] == m.bars[..i];
        var found := ProcessSymbolBar(m.bars[i], m.time);
        candidates := candidates + found;
      }
      assert m.bars[..|m.bars|] == m.bars;
      if candidates != [] {
        FlushThrottle(candidates, m.time);
      }
      MaybeEodFlatten(m.time);
    }

    /** A whole run. On a fresh engine this computes `Run`, so every theorem about runs is a theorem
        about this method. */
    method Run(warmup: seq<Minute>, minutes: seq<Minute>) returns (completed: bool)
      requires Valid()
      modifies this, simulator, simulator.Owned()
      ensures old(State()) == INITIAL ==>
        Spec.Run(strategy, config, warmup, minutes) == if completed then Completed(State()) else WarmupNotEarlier
      ensures Valid()
    {
      hide Step, WarmupBars, FinishRun;
      if warmup != [] && minutes != [] && warmup[|warmup| - 1].time >= minutes[0].time {
        return false;
      }
      completed := true;
      if minutes == [] {
        return;
      }
      hide Warmup, Play;
      WarmupAll(warmup);
      ReplayAll(minutes);
      FinalizeAtDataEnd();
    }

    method WarmupAll(warmup: seq<Minute>)
      requires Valid()
      modifies this
      ensures State() == Warmup(old(State()), warmup)
      ensures Valid() && simulator.Owned() == old(simulator.Owned())
    {
      hide WarmupBars;
      for i := 0 to |warmup|
        invariant Valid() && simulator.Owned() == old(simulator.Owned())
        invariant State() == Warmup(old(State()), warmup[..i])
      {
        assert warmup[..i + 1][..i] == warmup[..i];
        WarmupMinute(warmup[i]);
      }
      assert warmup[..|warmup|] == warmup;
    }

    method ReplayAll(minutes: seq<Minute>)
      requires Valid()
      modifies this, simulator, simulator.Owned()
      ensures State() == Play(strategy, config, old(State()), minutes)
      ensures Valid() && fresh(simulator.Owned() - old(simulator.Owned()))
    {
      hide Step;
      ghost var start := State();
      for i := 0 to |minutes|
        invariant Valid() && fresh(simulator.Owned() - old(simulator.Owned()))
        invariant State() == Play(strategy, config, start, minutes[..i])
      {
        assert minutes[..i + 1][..i] == minutes[..i];
        ReplayMinute(minutes[i]);
      }
      assert minutes[..|minutes|] == minutes;
    }
  }
}
