/** When a symbol is held: exactly when its trades lie strictly one after another, and what a bar does when
    its instructions collide. */
module ReplayIntervals {
  import opened Sequences
  import opened Market
  import opened Execution
  import opened Simulator
  import opened Replay
  import opened ReplayFrames
  import opened ReplayLedger
  import opened ReplayDay
  import opened ReplayRuns
  import opened ReplayCollisions
  import opened ReplaySkips

  /** Each symbol's trades follow one another with a gap: the next enters after the last has left. */
  ghost predicate InSequence(trades: seq<Trade>) {
    forall i, j :: 0 <= i < j < |trades| && trades[i].symbol == trades[j].symbol ==> trades[i].exitTime < trades[j].entryTime
  }

  ghost predicate BeforeOpen(trades: seq<Trade>, b: Book) {
    forall i :: 0 <= i < |trades| && trades[i].symbol in b.positions ==>
      trades[i].exitTime < b.positions[trades[i].symbol].entryTime
  }

  ghost predicate Intervals(trades: seq<Trade>, b: Book) { InSequence(trades) && BeforeOpen(trades, b) }

  /** Within the minute at `time` only the symbols in `done` have left yet. */
  ghost predicate Settled(trades: seq<Trade>, done: set<Symbol>, time: int) {
    forall i :: 0 <= i < |trades| ==> trades[i].exitTime <= time && (trades[i].exitTime == time ==> trades[i].symbol in done)
  }

  /** The book `b'` and trade `t` that come out of examining or closing what `b` holds for `s`. */
  ghost predicate Leaves(b: Book, b': Book, t: Option<Trade>, s: Symbol, time: int) {
    && SameElsewhere(b, b', s)
    && (s in b'.positions ==> t.None? && s in b.positions && b'.positions[s].entryTime == b.positions[s].entryTime)
    && (t.Some? ==> s in b.positions && t.value.symbol == s && t.value.exitTime == time
                    && t.value.entryTime == b.positions[s].entryTime)
  }

  function Booked(trades: seq<Trade>, t: Option<Trade>): seq<Trade> { if t.Some? then trades + [t.value] else trades }

  lemma LeaveKeepsIntervals(trades: seq<Trade>, b: Book, b': Book, t: Option<Trade>, s: Symbol, time: int)
    requires Intervals(trades, b) && Leaves(b, b', t, s, time)
    ensures Intervals(Booked(trades, t), b')
    ensures forall done :: Settled(trades, done, time) ==> Settled(Booked(trades, t), done + {s}, time)
  {
  }

  lemma ClosedLeaves(cfg: ExecutionConfig, b: Book, s: Symbol, time: int, price: real, reason: ExitReason, sig: Option<Signal>)
    requires WellFormed(b)
    ensures var (b', t) := Closed(cfg, b, s, time, price, reason, sig); Leaves(b, b', t, s, time)
  {
  }

  lemma ExaminedLeaves(cfg: ExecutionConfig, b: Book, s: Symbol, time: int, high: real, low: real)
    requires WellFormed(b)
    ensures var (b', t) := Examined(cfg, b, s, time, high, low); Leaves(b, b', t, s, time)
  {
  }

  lemma ExamineTimes(cfg: ExecutionConfig, p: Position, time: int, high: real, low: real)
    ensures
      var (p', t) := Examine(cfg, p, time, high, low);
      p'.entryTime == p.entryTime
      && (t.Some? ==> t.value.symbol == p.symbol && t.value.entryTime == p.entryTime && t.value.exitTime == time)
  {
  }

  // ------------------------------------------------------------------- one bar

  lemma ExamineKeepsIntervals(cfg: EngineConfig, st: EngineState, bar: Bar, time: int, done: set<Symbol>)
    requires WellFormed(st.book) && Intervals(st.trades, st.book) && Settled(st.trades, done, time)
    ensures
      var st' := ExamineBar(cfg, st, bar, time);
      Intervals(st'.trades, st'.book) && Settled(st'.trades, done + {bar.symbol}, time)
  {
    hide Examined, Intervals, Settled, Leaves;
    var (book, t) := Examined(cfg.execution, st.book, bar.symbol, time, bar.high, bar.low);
    ExaminedLeaves(cfg.execution, st.book, bar.symbol, time, bar.high, bar.low);
    LeaveKeepsIntervals(st.trades, st.book, book, t, bar.symbol, time);
  }

  lemma FillExitKeepsIntervals(cfg: EngineConfig, st: EngineState, bar: Bar, time: int, done: set<Symbol>)
    requires WellFormed(st.book) && Intervals(st.trades, st.book) && Settled(st.trades, done, time)
    ensures
      var st' := FillExit(cfg, st, bar, time);
      && Intervals(st'.trades, st'.book) && Settled(st'.trades, done + {bar.symbol}, time)
      && (bar.symbol !in st.pendingExit ==> st' == st)
      && (bar.symbol !in st.book.positions ==> st'.trades == st.trades)
  {
    hide Closed, Intervals, Leaves;
    var s := bar.symbol;
    if s in st.pendingExit && s in st.book.positions {
      var (book, t) := Closed(cfg.execution, st.book, s, time, bar.open, SignalExit, Some(st.pendingExit[s]));
      ClosedLeaves(cfg.execution, st.book, s, time, bar.open, SignalExit, Some(st.pendingExit[s]));
      LeaveKeepsIntervals(st.trades, st.book, book, t, s, time);
    }
  }

  lemma OpenKeepsIntervals(trades: seq<Trade>, b: Book, p: Position, done: set<Symbol>, time: int)
    requires Intervals(trades, b) && Settled(trades, done, time) && p.symbol !in done && p.entryTime == time
    ensures Intervals(trades, Opened(b, p))
  {
  }

  lemma FillEntryKeepsIntervals(strat: Strategy, cfg: EngineConfig, st: EngineState, bar: Bar, time: int, done: set<Symbol>)
    requires WellFormed(st.book) && Intervals(st.trades, st.book) && Settled(st.trades, done, time)
    requires bar.symbol in st.pendingEntry ==> st.pendingEntry[bar.symbol].signal.ticker == bar.symbol
    requires
      bar.symbol in st.pendingEntry ==>
        || bar.symbol !in done || strat.etDate(time) in st.flattened
        || FinalizeFillGeometry(cfg.quant, st.pendingEntry[bar.symbol].signal, bar.open).None?
    ensures
      var st' := FillEntry(strat, cfg, st, bar, time);
      Intervals(st'.trades, st'.book) && Settled(st'.trades, done + {bar.symbol}, time)
  {
    hide ExamineBar, Enter, FinalizeFillGeometry, Intervals, WellFormed, Settled, Reject, Note;
    var s := bar.symbol;
    if s !in st.pendingEntry {
      ExamineKeepsIntervals(cfg, st, bar, time, done);
    } else {
      var pending := st.pendingEntry[s];
      var st' := st.(pendingEntry := st.pendingEntry - {s});
      var signal := FinalizeFillGeometry(cfg.quant, pending.signal, bar.open);
      SettledWidens(st.trades, done, s, time);
      RefusalsTradeNothing(st', s, PostEodFlattenNoNewEntry, time, |History(st.market, s)|);
      RefusalsTradeNothing(st', s, GeometryInvalidatedAtFill, time, |History(st.market, s)|);
      FinalizeKeepsTicker(cfg.quant, pending.signal, bar.open);
      if signal.Some? && strat.etDate(time) !in st.flattened {
        EnterKeepsIntervals(cfg, st', pending, signal.value, bar, time, done);
      }
    }
  }

  lemma RefusalsTradeNothing(st: EngineState, s: Symbol, reason: Reason, time: int, at: nat)
    ensures Reject(st, s, reason, 1, time).trades == st.trades && Reject(st, s, reason, 1, time).book == st.book
    ensures Note(st, SkippedWhileOpen(time, s, at)).trades == st.trades && Note(st, SkippedWhileOpen(time, s, at)).book == st.book
  {
  }

  lemma EnterKeepsIntervals(cfg: EngineConfig, st: EngineState, pending: PendingEntry, signal: Signal, bar: Bar, time: int,
                            done: set<Symbol>)
    requires WellFormed(st.book) && Intervals(st.trades, st.book) && Settled(st.trades, done, time)
    requires bar.symbol !in done && signal.ticker == bar.symbol
    ensures
      var st' := ExamineBar(cfg, Enter(cfg, st, pending, signal, bar, time), bar, time);
      Intervals(st'.trades, st'.book) && Settled(st'.trades, done + {bar.symbol}, time)
  {
    hide ExamineBar, NewPosition, Intervals, Opened, WellFormed, Settled;
    var p := NewPosition(cfg.execution, signal, time, bar.open, Some(pending.score));
    NewPositionTicket(cfg.execution, signal, time, bar.open, Some(pending.score));
    OpenKeepsIntervals(st.trades, st.book, p, done, time);
    OpenedWellFormed(st.book, p);
    ExamineKeepsIntervals(cfg, Enter(cfg, st, pending, signal, bar, time), bar, time, done);
  }

  lemma SettledWidens(trades: seq<Trade>, done: set<Symbol>, s: Symbol, time: int)
    requires Settled(trades, done, time)
    ensures Settled(trades, done + {s}, time)
  {
  }

  lemma OpenedWellFormed(b: Book, p: Position)
    requires WellFormed(b)
    ensures WellFormed(Opened(b, p))
  {
  }

  lemma LedgerShape(st: EngineState, before: int, announced: int)
    requires LedgerInv(st, before, announced)
    ensures WellFormed(st.book) && TickersMatch(st.pendingEntry)
  {
  }

  lemma ProcessBarKeepsIntervals(strat: Strategy, cfg: EngineConfig, st: EngineState, bar: Bar, time: int, done: set<Symbol>)
    requires LedgerInv(st, time + 1, time) && !Collides(strat, cfg, st, bar, time)
    requires bar.symbol in st.pendingEntry ==> bar.symbol !in done
    requires Intervals(st.trades, st.book) && Settled(st.trades, done, time)
    ensures
      var st' := ProcessBar(strat, cfg, st, bar, time).0;
      Intervals(st'.trades, st'.book) && Settled(st'.trades, done + {bar.symbol}, time)
  {
    hide FillExit, FillEntry, Screen, LedgerInv, WellFormed, Intervals, Settled, FinalizeFillGeometry;
    var s := bar.symbol;
    LedgerShape(st, time + 1, time);
    var st0 := st.(barsProcessed := st.barsProcessed + 1);
    LedgerFrame(st, st0, time + 1, time);
    var st1 := FillExit(cfg, st0, bar, time);
    FillExitFrame(cfg, st0, bar, time);
    FillExitKeepsIntervals(cfg, st0, bar, time, done);
    FillExitKeepsLedger(cfg, st0, bar, time);
    LedgerShape(st1, time + 1, time);
    var left := if s in st.pendingExit && s in st.book.positions then done + {s} else done;
    FillEntryKeepsIntervals(strat, cfg, st1, bar, time, left);
    assert left + {s} == done + {s};
    var st2 := FeedMarketState(Lifecycle(strat, cfg, st, bar, time), bar, time);
    ScreenQuiet(strat, cfg, st2, s, time);
  }

  function Symbols(bars: seq<Bar>): set<Symbol> { set i | 0 <= i < |bars| :: bars[i].symbol }

  lemma SymbolsSnoc(bars: seq<Bar>)
    requires bars != []
    ensures Symbols(bars) == Symbols(bars[..|bars| - 1]) + {bars[|bars| - 1].symbol}
  {
    var front := bars[..|bars| - 1];
    forall x | x in Symbols(bars) ensures x in Symbols(front) + {bars[|bars| - 1].symbol} {
      var i :| 0 <= i < |bars| && bars[i].symbol == x;
      assert i < |front| ==> front[i].symbol == x;
    }
    forall x | x in Symbols(front) ensures x in Symbols(bars) {
      var i :| 0 <= i < |front| && front[i].symbol == x;
      assert bars[i].symbol == x;
    }
  }

  /** A symbol that has had a bar this minute has no entry waiting any more. */
  lemma {:induction false} SeenSymbolsHaveNoEntry(strat: Strategy, cfg: EngineConfig, st: EngineState, bars: seq<Bar>, time: int)
    requires TickersMatch(st.pendingEntry)
    ensures
      var st' := ProcessBars(strat, cfg, st, bars, time).0;
      TickersMatch(st'.pendingEntry) && forall s :: s in Symbols(bars) ==> s !in st'.pendingEntry
  {
    hide ProcessBar;
    if bars != [] {
      var front := bars[..|bars| - 1];
      SeenSymbolsHaveNoEntry(strat, cfg, st, front, time);
      ProcessBarResolves(strat, cfg, ProcessBars(strat, cfg, st, front, time).0, bars[|bars| - 1], time);
      SymbolsSnoc(bars);
      hide Symbols;
    }
  }

  lemma NoCollisionFront(strat: Strategy, cfg: EngineConfig, st: EngineState, bars: seq<Bar>, time: int)
    requires NoCollisionIn(strat, cfg, st, bars, time) && bars != []
    ensures
      var front := bars[..|bars| - 1];
      && NoCollisionIn(strat, cfg, st, front, time)
      && !Collides(strat, cfg, ProcessBars(strat, cfg, st, front, time).0, bars[|bars| - 1], time)
  {
    hide Collides, ProcessBars;
    var front := bars[..|bars| - 1];
    forall i | 0 <= i < |front| ensures !Collides(strat, cfg, ProcessBars(strat, cfg, st, front[..i], time).0, front[i], time) {
      assert front[..i] == bars[..i];
    }
  }

  lemma {:induction false} ProcessBarsKeepsIntervals(strat: Strategy, cfg: EngineConfig, st: EngineState, bars: seq<Bar>, time: int)
    requires LedgerInv(st, time + 1, time) && NoCollisionIn(strat, cfg, st, bars, time)
    requires Intervals(st.trades, st.book) && Settled(st.trades, {}, time)
    ensures
      var st' := ProcessBars(strat, cfg, st, bars, time).0;
      Intervals(st'.trades, st'.book) && Settled(st'.trades, Symbols(bars), time)
  {
    hide ProcessBar, LedgerInv, Intervals, Settled, NoCollisionIn, Collides;
    if bars == [] {
      assert Symbols(bars) == {};
    } else {
      var front := bars[..|bars| - 1];
      var bar := bars[|bars| - 1];
      NoCollisionFront(strat, cfg, st, bars, time);
      ProcessBarsKeepsIntervals(strat, cfg, st, front, time);
      ProcessBarsKeepsLedger(strat, cfg, st, front, time);
      LedgerShape(st, time + 1, time);
      SeenSymbolsHaveNoEntry(strat, cfg, st, front, time);
      ProcessBarKeepsIntervals(strat, cfg, ProcessBars(strat, cfg, st, front, time).0, bar, time, Symbols(front));
      SymbolsSnoc(bars);
    }
  }

  // -------------------------------------------------------------------- one run

  lemma {:induction false} ForceCloseAllKeepsIntervals(cfg: EngineConfig, st: EngineState, symbols: seq<Symbol>, time: int)
    requires LedgerInv(st, time + 1, time + 1) && Intervals(st.trades, st.book)
    ensures var st' := ForceCloseAll(cfg, st, symbols, time); Intervals(st'.trades, st'.book)
  {
    hide LedgerInv, Intervals, Closed, Leaves, WellFormed;
    if symbols != [] {
      var front := symbols[..|symbols| - 1];
      var s := symbols[|symbols| - 1];
      ForceCloseAllKeepsIntervals(cfg, st, front, time);
      ForceCloseAllKeepsLedger(cfg, st, front, time);
      var st1 := ForceCloseAll(cfg, st, front, time);
      LedgerShape(st1, time + 1, time + 1);
      if s in st1.lastClose {
        var (book, t) := Closed(cfg.execution, st1.book, s, time, st1.lastClose[s], EndOfSession, None);
        ClosedLeaves(cfg.execution, st1.book, s, time, st1.lastClose[s], EndOfSession, None);
        LeaveKeepsIntervals(st1.trades, st1.book, book, t, s, time);
      }
    }
  }

  lemma {:induction false} CloseAllAtDataEndKeepsIntervals(cfg: EngineConfig, st: EngineState, symbols: seq<Symbol>, before: int)
    requires LedgerInv(st, before, before) && Priced(st) && Intervals(st.trades, st.book)
    ensures var st' := CloseAllAtDataEnd(cfg, st, symbols); Intervals(st'.trades, st'.book)
  {
    hide LedgerInv, Intervals, Closed, Leaves, WellFormed, Priced;
    if symbols != [] {
      var front := symbols[..|symbols| - 1];
      var s := symbols[|symbols| - 1];
      CloseAllAtDataEndKeepsIntervals(cfg, st, front, before);
      CloseAllAtDataEndKeepsLedger(cfg, st, front, before);
      var st1 := CloseAllAtDataEnd(cfg, st, front);
      LedgerShape(st1, before, before);
      if s in st1.lastClose && s in st1.lastTime {
        var (book, t) := Closed(cfg.execution, st1.book, s, st1.lastTime[s], st1.lastClose[s], DataEnd, None);
        ClosedLeaves(cfg.execution, st1.book, s, st1.lastTime[s], st1.lastClose[s], DataEnd, None);
        LeaveKeepsIntervals(st1.trades, st1.book, book, t, s, st1.lastTime[s]);
      }
    }
  }

  lemma StepKeepsIntervals(strat: Strategy, cfg: EngineConfig, st: EngineState, m: Minute)
    requires LedgerInv(st, m.time, m.time)
    requires NoCollisionIn(strat, cfg, st, m.bars, m.time)
    requires Intervals(st.trades, st.book) && Settled(st.trades, {}, m.time)
    ensures var st' := Step(strat, cfg, st, m); Intervals(st'.trades, st'.book)
  {
    hide LedgerInv, ProcessBars, Flush, ForceCloseAll, NoCollisionIn, Intervals, Settled;
    LedgerWeaken(st, m.time, m.time, m.time + 1, m.time);
    ProcessBarsKeepsIntervals(strat, cfg, st, m.bars, m.time);
    ProcessBarsKeepsLedger(strat, cfg, st, m.bars, m.time);
    var (st1, candidates) := ProcessBars(strat, cfg, st, m.bars, m.time);
    LedgerWeaken(st1, m.time + 1, m.time, m.time + 1, m.time + 1);
    FlushThrottleOnly(strat, cfg, st1, candidates, m.time);
    FlushKeepsLedger(strat, cfg, st1, candidates, m.time);
    var st2 := if candidates == [] then st1 else Flush(strat, cfg, st1, candidates, m.time);
    if FlattenDue(strat, cfg, st2, m.time) {
      var st3 := st2.(flattened := st2.flattened + {strat.etDate(m.time)});
      LedgerFrame(st2, st3, m.time + 1, m.time + 1);
      ForceCloseAllKeepsIntervals(cfg, st3, st2.book.order, m.time);
    }
  }

  lemma NoCollisionBefore(strat: Strategy, cfg: EngineConfig, warmup: seq<Minute>, minutes: seq<Minute>)
    requires NoCollision(strat, cfg, warmup, minutes) && minutes != []
    ensures
      var front, m := minutes[..|minutes| - 1], minutes[|minutes| - 1];
      && NoCollision(strat, cfg, warmup, front)
      && NoCollisionIn(strat, cfg, Play(strat, cfg, Warmup(INITIAL, warmup), front), m.bars, m.time)
  {
    ReachedFront(strat, cfg, warmup, minutes);
    var front := minutes[..|minutes| - 1];
    assert Reached(strat, cfg, warmup, front, |front|) == Play(strat, cfg, Warmup(INITIAL, warmup), front) by {
      assert front[..|front|] == front;
    }
    hide Play, Reached, NoCollisionIn, Warmup;
  }

  lemma {:induction false} PlayKeepsIntervals(strat: Strategy, cfg: EngineConfig, warmup: seq<Minute>, minutes: seq<Minute>)
    requires Chronological(minutes) && NoCollision(strat, cfg, warmup, minutes)
    ensures var st := Play(strat, cfg, Warmup(INITIAL, warmup), minutes); Intervals(st.trades, st.book)
  {
    hide LedgerInv, Step, Priced, NoCollision, NoCollisionIn;
    WarmupMarketOnly(INITIAL, warmup);
    if minutes != [] {
      var front := minutes[..|minutes| - 1];
      var m := minutes[|minutes| - 1];
      NoCollisionBefore(strat, cfg, warmup, minutes);
      PlayKeepsIntervals(strat, cfg, warmup, front);
      PlayTimes(strat, cfg, warmup, front);
      var st := Play(strat, cfg, Warmup(INITIAL, warmup), front);
      PlayLedgerBefore(strat, cfg, warmup, front, m.time);
      assert Settled(st.trades, {}, m.time);
      StepKeepsIntervals(strat, cfg, st, m);
    }
  }

  /** The ledger invariant at any time after the timestamps played so far. */
  lemma PlayLedgerBefore(strat: Strategy, cfg: EngineConfig, warmup: seq<Minute>, minutes: seq<Minute>, time: int)
    requires Chronological(minutes) && (minutes != [] ==> minutes[|minutes| - 1].time < time)
    ensures LedgerInv(Play(strat, cfg, Warmup(INITIAL, warmup), minutes), time, time)
  {
    hide LedgerInv, Step, Priced;
    if minutes == [] {
      WarmedUpSound(warmup, time);
    } else {
      PlayKeepsLedger(strat, cfg, warmup, minutes);
      var last := minutes[|minutes| - 1].time;
      LedgerWeaken(Play(strat, cfg, Warmup(INITIAL, warmup), minutes), last + 1, last + 1, time, time);
    }
  }

  lemma SoundTradesRunForward(trades: seq<Trade>, journal: seq<Event>)
    requires TradesSound(trades, journal)
    ensures forall i :: 0 <= i < |trades| ==> trades[i].entryTime <= trades[i].exitTime
  {
    hide HonestBracketExit, Announced;
    assert forall i :: 0 <= i < |trades| ==> trades[i] in trades && SoundTrade(trades[i], journal);
  }

  /** The trades of each symbol lie one after another in ledger order, with a gap in between. */
  ghost predicate Disjoint(ts: seq<Trade>) {
    && (forall i :: 0 <= i < |ts| ==> ts[i].entryTime <= ts[i].exitTime)
    && (forall i, j :: 0 <= i < j < |ts| && ts[i].symbol == ts[j].symbol ==> ts[i].exitTime < ts[j].entryTime)
  }

  /** Every finished run without a collision has disjoint trades. */
  lemma CollisionFreeIsDisjoint(strat: Strategy, cfg: EngineConfig, warmup: seq<Minute>, minutes: seq<Minute>)
    requires Chronological(minutes) && NoCollision(strat, cfg, warmup, minutes)
    ensures var r := Run(strat, cfg, warmup, minutes); r.Completed? ==> Disjoint(r.state.trades)
  {
    hide LedgerInv, Play, Priced, EntriesSound, Announced, HonestBracketExit, TradesSound, NoCollision;
    if minutes != [] {
      var st := Play(strat, cfg, Warmup(INITIAL, warmup), minutes);
      var before := minutes[|minutes| - 1].time + 1;
      PlayKeepsLedger(strat, cfg, warmup, minutes);
      PlayKeepsIntervals(strat, cfg, warmup, minutes);
      CloseAllAtDataEndKeepsIntervals(cfg, st, st.book.order, before);
      EveryOpeningBecomesOneTrade(strat, cfg, warmup, minutes);
      if Run(strat, cfg, warmup, minutes).Completed? {
        SoundTradesRunForward(FinishRun(cfg, st).trades, FinishRun(cfg, st).journal);
      }
    }
  }

  // ------------------------------------------- a collision leaves touching trades

  /** The trade that a collision closes and the opening it makes at the same instant. */
  ghost predicate Touching(trades: seq<Trade>, journal: seq<Event>, t: Trade, e: Event) {
    && t in trades && e in journal && e.Entered?
    && t.symbol == e.ticket.symbol && t.exitTime == e.ticket.entryTime && t.entryTime < e.ticket.entryTime
  }

  lemma TouchingPersists(trades: seq<Trade>, journal: seq<Event>, trades': seq<Trade>, journal': seq<Event>, t: Trade, e: Event)
    requires Touching(trades, journal, t, e) && trades <= trades' && journal <= journal'
    ensures Touching(trades', journal', t, e)
  {
  }

  lemma {:induction false} OpeningTicket(journal: seq<Event>, e: Event)
    requires e in journal && e.Entered?
    ensures e.ticket in EnteredTickets(journal)
  {
    var front, last := journal[..|journal| - 1], journal[|journal| - 1];
    if e != last {
      assert e in front;
      OpeningTicket(front, e);
    }
  }

  lemma {:induction false} TicketTrade(trades: seq<Trade>, k: Ticket)
    requires k in TradeTickets(trades)
    ensures exists j :: 0 <= j < |trades| && TradeTicket(trades[j]) == k
  {
    var front, last := trades[..|trades| - 1], trades[|trades| - 1];
    if k in TradeTickets(front) {
      TicketTrade(front, k);
      var j :| 0 <= j < |front| && TradeTicket(front[j]) == k;
      assert trades[j] == front[j];
    } else {
      assert TradeTicket(trades[|trades| - 1]) == k;
    }
  }

  /** In a finished run that marks a collision two trades of one symbol touch. */
  lemma TouchingIsNotDisjoint(trades: seq<Trade>, journal: seq<Event>, t: Trade, e: Event)
    requires Touching(trades, journal, t, e) && multiset(TradeTickets(trades)) == multiset(EnteredTickets(journal))
    ensures !Disjoint(trades)
  {
    OpeningTicket(journal, e);
    assert e.ticket in multiset(EnteredTickets(journal));
    assert e.ticket in multiset(TradeTickets(trades));
    TicketTrade(trades, e.ticket);
    var i :| 0 <= i < |trades| && trades[i] == t;
    var j :| 0 <= j < |trades| && TradeTicket(trades[j]) == e.ticket;
    assert i != j;
  }

  /** An entry that opens writes itself into the journal at once, with the bar's time, and books nothing yet. */
  lemma EntryOpens(strat: Strategy, cfg: EngineConfig, st: EngineState, bar: Bar, time: int)
    requires bar.symbol in st.pendingEntry && bar.symbol !in st.book.positions && strat.etDate(time) !in st.flattened
    requires FinalizeFillGeometry(cfg.quant, st.pendingEntry[bar.symbol].signal, bar.open).Some?
    ensures
      var pending := st.pendingEntry[bar.symbol];
      var st' := FillEntry(strat, cfg, st, bar, time);
      && st.trades <= st'.trades && |st'.journal| == |st.journal| + 1 && st.journal <= st'.journal
      && st'.journal[|st.journal|].Entered? && st'.journal[|st.journal|].ticket.entryTime == time
      && st'.journal[|st.journal|].ticket.symbol == pending.signal.ticker
  {
    hide ExamineBar, FinalizeFillGeometry, NewPosition, Opened, Grows;
    var pending := st.pendingEntry[bar.symbol];
    var st1 := st.(pendingEntry := st.pendingEntry - {bar.symbol});
    var signal := FinalizeFillGeometry(cfg.quant, pending.signal, bar.open).value;
    FinalizeKeepsTicker(cfg.quant, pending.signal, bar.open);
    NewPositionTicket(cfg.execution, signal, time, bar.open, Some(pending.score));
    ExamineFrame(cfg, Enter(cfg, st1, pending, signal, bar, time), bar, time);
    FillEntryGrows(strat, cfg, st, bar, time);
    GrowsExtends(st, FillEntry(strat, cfg, st, bar, time), time);
  }

  lemma GrowsExtends(st: EngineState, st': EngineState, time: int)
    requires Grows(st, st', time)
    ensures st.trades <= st'.trades && st.journal <= st'.journal
  {
  }

  lemma EntryKeepsQuiet(strat: Strategy, cfg: EngineConfig, st: EngineState, bar: Bar, time: int)
    requires bar.symbol !in st.book.positions
    requires
      || bar.symbol !in st.pendingEntry || strat.etDate(time) in st.flattened
      || FinalizeFillGeometry(cfg.quant, st.pendingEntry[bar.symbol].signal, bar.open).None?
    ensures FillEntry(strat, cfg, st, bar, time).journal == st.journal
  {
    hide ExamineBar, FinalizeFillGeometry;
    ExamineFrame(cfg, st, bar, time);
  }

  /** A bar that meets a collision leaves both marks. */
  lemma CollisionTouches(strat: Strategy, cfg: EngineConfig, st: EngineState, bar: Bar, time: int)
    requires Collides(strat, cfg, st, bar, time) && TickersMatch(st.pendingEntry)
    requires st.book.positions[bar.symbol].symbol == bar.symbol && st.book.positions[bar.symbol].entryTime < time
    ensures
      var st' := ProcessBar(strat, cfg, st, bar, time).0;
      exists t, e :: Touching(st'.trades, st'.journal, t, e)
  {
    hide CloseTrade, FinalizeFillGeometry, FillExit, FillEntry, Screen;
    var st0 := st.(barsProcessed := st.barsProcessed + 1);
    var st1 := FillExit(cfg, st0, bar, time);
    ExitFilled(cfg, st0, bar, time);
    EntryOpens(strat, cfg, st1, bar, time);
    var st2 := FillEntry(strat, cfg, st1, bar, time);
    var t, e := st1.trades[|st.trades|], st2.journal[|st.journal|];
    assert Touching(st2.trades, st2.journal, t, e);
    ScreenQuiet(strat, cfg, FeedMarketState(st2, bar, time), bar.symbol, time);
    assert Touching(ProcessBar(strat, cfg, st, bar, time).0.trades, ProcessBar(strat, cfg, st, bar, time).0.journal, t, e);
  }

  /** Bars of other symbols leave what is held for `s` alone. */
  lemma {:induction false} OtherBarsKeepPosition(strat: Strategy, cfg: EngineConfig, st: EngineState, bars: seq<Bar>, time: int, s: Symbol)
    requires TickersMatch(st.pendingEntry) && s !in Symbols(bars)
    ensures
      var st' := ProcessBars(strat, cfg, st, bars, time).0;
      && TickersMatch(st'.pendingEntry)
      && (s in st'.book.positions <==> s in st.book.positions)
      && (s in st.book.positions ==> st'.book.positions[s] == st.book.positions[s])
  {
    hide ProcessBar;
    if bars != [] {
      var front, bar := bars[..|bars| - 1], bars[|bars| - 1];
      SymbolsSnoc(bars);
      OtherBarsKeepPosition(strat, cfg, st, front, time, s);
      OneBarElsewhere(strat, cfg, ProcessBars(strat, cfg, st, front, time).0, bar, time);
    }
  }

  lemma OneBarElsewhere(strat: Strategy, cfg: EngineConfig, st: EngineState, bar: Bar, time: int)
    requires TickersMatch(st.pendingEntry)
    ensures
      var st' := ProcessBar(strat, cfg, st, bar, time).0;
      SameElsewhere(st.book, st'.book, bar.symbol) && TickersMatch(st'.pendingEntry)
  {
    hide Lifecycle, Screen;
    LifecycleFrame(strat, cfg, st, bar, time);
    ScreenQuiet(strat, cfg, FeedMarketState(Lifecycle(strat, cfg, st, bar, time), bar, time), bar.symbol, time);
  }

  lemma MinuteTouches(strat: Strategy, cfg: EngineConfig, st: EngineState, m: Minute, i: nat)
    requires LedgerInv(st, m.time, m.time) && i < |m.bars|
    requires Collides(strat, cfg, ProcessBars(strat, cfg, st, m.bars[..i], m.time).0, m.bars[i], m.time)
    ensures var st' := Step(strat, cfg, st, m); exists t, e :: Touching(st'.trades, st'.journal, t, e)
  {
    hide ProcessBar, LedgerInv, Flush, FlattenIfDue, Collides, Touching, WellFormed;
    var bars, bar := m.bars[..i], m.bars[i];
    LedgerShape(st, m.time, m.time);
    var st1 := ProcessBars(strat, cfg, st, bars, m.time).0;
    SeenSymbolsHaveNoEntry(strat, cfg, st, bars, m.time);
    CollidingIsHeld(strat, cfg, st1, bar, m.time);
    OtherBarsKeepPosition(strat, cfg, st, bars, m.time, bar.symbol);
    HeldBefore(st, m.time, m.time, bar.symbol);
    CollisionTouches(strat, cfg, st1, bar, m.time);
    var st2 := ProcessBar(strat, cfg, st1, bar, m.time).0;
    var t, e :| Touching(st2.trades, st2.journal, t, e);
    assert m.bars[..i + 1][..i] == bars;
    assert st2 == ProcessBars(strat, cfg, st, m.bars[..i + 1], m.time).0;
    RestOfMinuteExtends(strat, cfg, st, m, i + 1);
    var st' := Step(strat, cfg, st, m);
    TouchingPersists(st2.trades, st2.journal, st'.trades, st'.journal, t, e);
  }

  lemma CollidingIsHeld(strat: Strategy, cfg: EngineConfig, st: EngineState, bar: Bar, time: int)
    requires Collides(strat, cfg, st, bar, time)
    ensures bar.symbol in st.book.positions && bar.symbol in st.pendingEntry
  {
  }

  lemma HeldBefore(st: EngineState, before: int, announced: int, s: Symbol)
    requires LedgerInv(st, before, announced)
    ensures s in st.book.positions ==> st.book.positions[s].symbol == s && st.book.positions[s].entryTime < before
  {
    PendingFacts(st, s, before, announced);
  }

  lemma {:induction false} BarsExtend(strat: Strategy, cfg: EngineConfig, st: EngineState, bars: seq<Bar>, time: int, i: nat)
    requires i <= |bars|
    ensures
      var early, late := ProcessBars(strat, cfg, st, bars[..i], time).0, ProcessBars(strat, cfg, st, bars, time).0;
      early.trades <= late.trades && early.journal <= late.journal
    decreases |bars|
  {
    hide ProcessBar;
    if i == |bars| {
      assert bars[..i] == bars;
    } else {
      var front := bars[..|bars| - 1];
      assert front[..i] == bars[..i];
      BarsExtend(strat, cfg, st, front, time, i);
      ProcessBarGrows(strat, cfg, ProcessBars(strat, cfg, st, front, time).0, bars[|bars| - 1], time);
    }
  }

  lemma RestOfMinuteExtends(strat: Strategy, cfg: EngineConfig, st: EngineState, m: Minute, i: nat)
    requires i <= |m.bars|
    ensures
      var early, late := ProcessBars(strat, cfg, st, m.bars[..i], m.time).0, Step(strat, cfg, st, m);
      early.trades <= late.trades && early.journal <= late.journal
  {
    hide ProcessBars, Flush, ForceCloseAll;
    BarsExtend(strat, cfg, st, m.bars, m.time, i);
    var (st1, candidates) := ProcessBars(strat, cfg, st, m.bars, m.time);
    FlushGrows(strat, cfg, st1, candidates, m.time);
    var st2 := if candidates == [] then st1 else Flush(strat, cfg, st1, candidates, m.time);
    ForceCloseAllGrows(cfg, st2.(flattened := st2.flattened + {strat.etDate(m.time)}), st2.book.order, m.time);
  }

  lemma StepTouches(strat: Strategy, cfg: EngineConfig, warmup: seq<Minute>, minutes: seq<Minute>, k: nat)
    requires Chronological(minutes) && k < |minutes|
    requires !NoCollisionIn(strat, cfg, Reached(strat, cfg, warmup, minutes, k), minutes[k].bars, minutes[k].time)
    ensures
      var st' := Play(strat, cfg, Warmup(INITIAL, warmup), minutes[..k + 1]);
      exists t, e :: Touching(st'.trades, st'.journal, t, e)
  {
    hide LedgerInv, Step, Collides, Touching, Warmup, ProcessBars, Play;
    var m, st := minutes[k], Reached(strat, cfg, warmup, minutes, k);
    var i :| 0 <= i < |m.bars| && Collides(strat, cfg, ProcessBars(strat, cfg, st, m.bars[..i], m.time).0, m.bars[i], m.time);
    hide NoCollisionIn;
    PlayLedgerBefore(strat, cfg, warmup, minutes[..k], m.time);
    MinuteTouches(strat, cfg, st, m, i);
    PlayOneMore(strat, cfg, warmup, minutes, k);
  }

  lemma PlayOneMore(strat: Strategy, cfg: EngineConfig, warmup: seq<Minute>, minutes: seq<Minute>, k: nat)
    requires k < |minutes|
    ensures Play(strat, cfg, Warmup(INITIAL, warmup), minutes[..k + 1])
         == Step(strat, cfg, Reached(strat, cfg, warmup, minutes, k), minutes[k])
  {
    hide Step, Warmup;
    assert minutes[..k + 1][..k] == minutes[..k];
  }

  lemma CollisionIsNotDisjoint(strat: Strategy, cfg: EngineConfig, warmup: seq<Minute>, minutes: seq<Minute>)
    requires Chronological(minutes) && !NoCollision(strat, cfg, warmup, minutes)
    ensures var r := Run(strat, cfg, warmup, minutes); r.Completed? ==> !Disjoint(r.state.trades)
  {
    hide LedgerInv, Play, Warmup, NoCollisionIn, Reached, Priced, EntriesSound, TradesSound, Touching, Disjoint;
    var k :| 0 <= k < |minutes|
             && !NoCollisionIn(strat, cfg, Reached(strat, cfg, warmup, minutes, k), minutes[k].bars, minutes[k].time);
    StepTouches(strat, cfg, warmup, minutes, k);
    var st1 := Play(strat, cfg, Warmup(INITIAL, warmup), minutes[..k + 1]);
    var t, e :| Touching(st1.trades, st1.journal, t, e);
    PlayExtends(strat, cfg, Warmup(INITIAL, warmup), minutes, k + 1);
    var last := Play(strat, cfg, Warmup(INITIAL, warmup), minutes);
    TouchingPersists(st1.trades, st1.journal, last.trades, last.journal, t, e);
    TouchingToTheEnd(strat, cfg, warmup, minutes, t, e);
  }

  lemma TouchingToTheEnd(strat: Strategy, cfg: EngineConfig, warmup: seq<Minute>, minutes: seq<Minute>, t: Trade, e: Event)
    requires Chronological(minutes) && minutes != []
    requires var st := Play(strat, cfg, Warmup(INITIAL, warmup), minutes); Touching(st.trades, st.journal, t, e)
    ensures var r := Run(strat, cfg, warmup, minutes); r.Completed? ==> !Disjoint(r.state.trades)
  {
    hide LedgerInv, Play, Warmup, Priced, EntriesSound, TradesSound, Touching, Disjoint, CloseAllAtDataEnd;
    var last := Play(strat, cfg, Warmup(INITIAL, warmup), minutes);
    PlayKeepsLedger(strat, cfg, warmup, minutes);
    CloseAllAtDataEndKeepsLedger(cfg, last, last.book.order, minutes[|minutes| - 1].time + 1);
    EveryOpeningBecomesOneTrade(strat, cfg, warmup, minutes);
    var end := FinishRun(cfg, last);
    TouchingPersists(last.trades, last.journal, end.trades, end.journal, t, e);
    if Run(strat, cfg, warmup, minutes).Completed? {
      TouchingIsNotDisjoint(end.trades, end.journal, t, e);
    }
  }

  /** The trades of a finished run hold their symbol over disjoint intervals, in ledger order, if and only
      if no bar met a collision. */
  lemma TradesNeverOverlapExactly(strat: Strategy, cfg: EngineConfig, warmup: seq<Minute>, minutes: seq<Minute>)
    requires Chronological(minutes)
    ensures
      var r := Run(strat, cfg, warmup, minutes);
      r.Completed? ==> (Disjoint(r.state.trades) <==> NoCollision(strat, cfg, warmup, minutes))
  {
    hide NoCollision, Disjoint, Run;
    if NoCollision(strat, cfg, warmup, minutes) {
      CollisionFreeIsDisjoint(strat, cfg, warmup, minutes);
    } else {
      CollisionIsNotDisjoint(strat, cfg, warmup, minutes);
    }
  }

  /** So under a configuration that cannot collide, in particular with a positive cooldown, they always do. */
  lemma TradesNeverOverlap(strat: Strategy, cfg: EngineConfig, warmup: seq<Minute>, minutes: seq<Minute>)
    requires Chronological(minutes) && (!CanCollide(cfg.quant) || (AlwaysFlattens(cfg) && RealClock(strat)))
    ensures var r := Run(strat, cfg, warmup, minutes); r.Completed? ==> Disjoint(r.state.trades)
  {
    hide NoCollision, CanCollide, RealClock, AlwaysFlattens;
    if CanCollide(cfg.quant) {
      SweptMinutesNeverCollide(strat, cfg, warmup, minutes);
    } else {
      ConfigPreventsCollisions(strat, cfg, warmup, minutes);
    }
    CollisionFreeIsDisjoint(strat, cfg, warmup, minutes);
  }

  // ------------------------------------------------- when instructions collide

  /** A bar that strikes an open position's bracket leaves it open exactly when an entry was also
      scheduled for the symbol: the entry is consumed and the bar goes unexamined. */
  lemma StruckPositionSurvivesExactly(strat: Strategy, cfg: EngineConfig, st: EngineState, bar: Bar, time: int)
    requires bar.symbol in st.book.positions && bar.symbol !in st.pendingExit
    requires
      var p := st.book.positions[bar.symbol];
      p.stop.Some? && p.target.Some? && Strikes(p, Tick(time, bar.high, bar.low))
    ensures bar.symbol in Lifecycle(strat, cfg, st, bar, time).book.positions <==> bar.symbol in st.pendingEntry
    ensures bar.symbol in st.pendingEntry ==> Lifecycle(strat, cfg, st, bar, time).book == st.book
  {
    hide CloseTrade, FinalizeFillGeometry, NewPosition, RecordIfAny, Reject, FillExit;
    var st0 := st.(barsProcessed := st.barsProcessed + 1);
    FillExitLeavesNothing(cfg, st0, bar, time);
    if bar.symbol !in st.pendingEntry {
      StruckIsClosed(cfg, st0, bar, time);
    } else {
      RejectKeepsBook(st0.(pendingEntry := st0.pendingEntry - {bar.symbol}), bar.symbol, time);
    }
  }

  lemma RejectKeepsBook(st: EngineState, s: Symbol, time: int)
    ensures Reject(st, s, PostEodFlattenNoNewEntry, 1, time).book == st.book
  {
  }

  lemma StruckIsClosed(cfg: EngineConfig, st: EngineState, bar: Bar, time: int)
    requires bar.symbol in st.book.positions
    requires
      var p := st.book.positions[bar.symbol];
      p.stop.Some? && p.target.Some? && Strikes(p, Tick(time, bar.high, bar.low))
    ensures bar.symbol !in ExamineBar(cfg, st, bar, time).book.positions
  {
    hide CloseTrade, RecordIfAny;
    var (book, t) := Examined(cfg.execution, st.book, bar.symbol, time, bar.high, bar.low);
    RecordFields(cfg, st.(book := book), t, time);
  }

  lemma UnexaminedOnlyIfStruck(cfg: ExecutionConfig, p: Position, time: int, high: real, low: real)
    requires p.stop.Some? && p.target.Some?
    ensures
      var (p', t) := Examine(cfg, p, time, high, low);
      p'.stop == p.stop && p'.target == p.target && p'.direction == p.direction
      && (t.None? ==> !Strikes(p', Tick(time, high, low)))
  {
  }

  /** Whatever survives an examined bar has not been struck by it. */
  lemma ExaminedSurvivesUnstruck(cfg: EngineConfig, st: EngineState, bar: Bar, time: int)
    requires PositionsSound(st.book, time + 1)
    ensures
      var b := ExamineBar(cfg, st, bar, time).book;
      bar.symbol in b.positions ==>
        var p := b.positions[bar.symbol];
        p.stop.Some? && p.target.Some? && !Strikes(p, Tick(time, bar.high, bar.low))
  {
    hide CloseTrade, UpdateExcursion, CheckBarForExit, RecordIfAny;
    var s := bar.symbol;
    var (book, t) := Examined(cfg.execution, st.book, s, time, bar.high, bar.low);
    RecordFields(cfg, st.(book := book), t, time);
    if s in st.book.positions {
      UnexaminedOnlyIfStruck(cfg.execution, st.book.positions[s], time, bar.high, bar.low);
    }
  }

  /** What holds of the symbol's position after its entry stage. */
  ghost predicate StruckOnlyIfSkipped(before: EngineState, b: Book, bar: Bar, time: int) {
    var s := bar.symbol;
    s in b.positions ==>
      && b.positions[s].stop.Some? && b.positions[s].target.Some?
      && (Strikes(b.positions[s], Tick(time, bar.high, bar.low)) ==>
            s in before.pendingEntry && s in before.book.positions && b.positions[s] == before.book.positions[s])
  }

  lemma EntryStageExamines(strat: Strategy, cfg: EngineConfig, st: EngineState, bar: Bar, time: int)
    requires LedgerInv(st, time + 1, time) && bar.symbol !in st.pendingExit
    ensures StruckOnlyIfSkipped(st, FillEntry(strat, cfg, st, bar, time).book, bar, time)
  {
    hide ExamineBar, Enter, FinalizeFillGeometry, LedgerInv, Strikes, Announced, PositionsSound, EntryPlan;
    var s := bar.symbol;
    PositionsStaySound(st, time + 1, time);
    if s !in st.pendingEntry {
      ExaminedSurvivesUnstruck(cfg, st, bar, time);
    } else if strat.etDate(time) !in st.flattened && s !in st.book.positions {
      var pending := st.pendingEntry[s];
      var signal := FinalizeFillGeometry(cfg.quant, pending.signal, bar.open);
      if signal.Some? {
        EnteredIsExamined(cfg, st, signal.value, bar, time);
      }
    }
  }

  lemma EnteredIsExamined(cfg: EngineConfig, st: EngineState, signal: Signal, bar: Bar, time: int)
    requires LedgerInv(st, time + 1, time) && bar.symbol !in st.pendingExit && bar.symbol !in st.book.positions
    requires bar.symbol in st.pendingEntry
    requires FinalizeFillGeometry(cfg.quant, st.pendingEntry[bar.symbol].signal, bar.open) == Some(signal)
    ensures
      var s := bar.symbol;
      var entered := Enter(cfg, st.(pendingEntry := st.pendingEntry - {s}), st.pendingEntry[s], signal, bar, time);
      StruckOnlyIfSkipped(st, ExamineBar(cfg, entered, bar, time).book, bar, time)
  {
    hide ExamineBar, Enter, FinalizeFillGeometry, LedgerInv, Strikes, Announced, PositionsSound;
    var s := bar.symbol;
    var pending := st.pendingEntry[s];
    var st' := st.(pendingEntry := st.pendingEntry - {s});
    LedgerFrame(st, st', time + 1, time);
    PendingFacts(st, s, time + 1, time);
    FinalizedEncloses(cfg.quant, pending.signal, bar.open);
    EnterKeepsLedger(cfg, st', pending, signal, bar, time);
    var entered := Enter(cfg, st', pending, signal, bar, time);
    PositionsStaySound(entered, time + 1, time);
    ExaminedSurvivesUnstruck(cfg, entered, bar, time);
  }

  /** No position outlives a bar that strikes its bracket, be it the bar of its own entry, unless that bar
      went to an entry scheduled while the position was already open. */
  lemma OnlySkippedBarsLeaveStruckPositions(strat: Strategy, cfg: EngineConfig, st: EngineState, bar: Bar, time: int)
    requires LedgerInv(st, time + 1, time)
    ensures StruckOnlyIfSkipped(st, Lifecycle(strat, cfg, st, bar, time).book, bar, time)
  {
    hide FillExit, FillEntry, LedgerInv, Strikes;
    var st0 := st.(barsProcessed := st.barsProcessed + 1);
    LedgerFrame(st, st0, time + 1, time);
    FillExitFrame(cfg, st0, bar, time);
    FillExitKeepsLedger(cfg, st0, bar, time);
    FillExitLeavesNothing(cfg, st0, bar, time);
    EntryStageExamines(strat, cfg, FillExit(cfg, st0, bar, time), bar, time);
  }

  lemma PositionsStaySound(st: EngineState, before: int, announced: int)
    requires LedgerInv(st, before, announced)
    ensures PositionsSound(st.book, before)
    ensures forall s :: s in st.book.positions ==> st.book.positions[s].stop.Some? && st.book.positions[s].target.Some?
  {
  }

  lemma FillExitLeavesNothing(cfg: EngineConfig, st: EngineState, bar: Bar, time: int)
    ensures
      var st' := FillExit(cfg, st, bar, time);
      && (bar.symbol in st.pendingExit ==> bar.symbol !in st'.book.positions)
      && (bar.symbol !in st.pendingExit ==> st' == st)
  {
    hide RecordIfAny, CloseTrade;
    if bar.symbol in st.pendingExit && bar.symbol in st.book.positions {
      var sig := Some(st.pendingExit[bar.symbol]);
      var (book, t) := Closed(cfg.execution, st.book, bar.symbol, time, bar.open, SignalExit, sig);
      RecordFields(cfg, st.(pendingExit := st.pendingExit - {bar.symbol}, book := book), t, time);
    }
  }

  /** How a symbol comes to have both instructions: a bearish and a bullish candidate of one symbol, released
      in the same flush in either order, both publish exactly when the cooldown is not positive. */
  lemma BothScheduledExactly(cfg: EngineConfig, st: EngineState, a: Scored, b: Scored, time: int)
    requires
      var s := a.signal.ticker;
      s == b.signal.ticker && s in st.book.positions && Unscheduled(st, s) && !Active(st.cooldownUntil, s, time)
    requires a.signal.direction != b.signal.direction
    requires Revalidate(cfg, st, a.signal).Valid? && Revalidate(cfg, st, b.signal).Valid?
    ensures
      var st' := ReleaseAll(cfg, st, [a, b], time);
      (a.signal.ticker in st'.pendingEntry && a.signal.ticker in st'.pendingExit) <==> cfg.quant.cooldownSeconds <= 0
  {
    hide CheckRatio, PositionTicket;
    var s := a.signal.ticker;
    assert [a, b][..1] == [a] && [a][..0] == [];
    var st1 := Release(cfg, st, a, time);
    assert ReleaseAll(cfg, st, [a], time) == st1;
    assert st1.lastClose == st.lastClose && st1.book == st.book;
    assert a.signal.direction.Bearish? ==> s in st1.pendingExit && st1.pendingEntry == st.pendingEntry;
    assert a.signal.direction.Bullish? ==> s in st1.pendingEntry && st1.pendingExit == st.pendingExit;
    assert st1.cooldownUntil[s] == time + cfg.quant.cooldownSeconds;
    assert Revalidate(cfg, st1, b.signal) == Revalidate(cfg, st, b.signal);
  }

  /** A bar that closes a position on a signal opens the symbol again at the very same time exactly
      when an entry was scheduled too, the date is not flattened and the fill still qualifies. */
  lemma ReentersAtExitExactly(strat: Strategy, cfg: EngineConfig, st: EngineState, bar: Bar, time: int)
    requires bar.symbol in st.book.positions && bar.symbol in st.pendingExit
    ensures
      var s := bar.symbol;
      var st' := Lifecycle(strat, cfg, st, bar, time);
      && |st'.trades| > |st.trades| && st'.trades[|st.trades|].reason == SignalExit && st'.trades[|st.trades|].exitTime == time
      && ((|st'.journal| > |st.journal| && st'.journal[|st.journal|].Entered? && st'.journal[|st.journal|].ticket.entryTime == time)
          <==> s in st.pendingEntry && strat.etDate(time) !in st.flattened
               && FinalizeFillGeometry(cfg.quant, st.pendingEntry[s].signal, bar.open).Some?)
  {
    hide CloseTrade, FinalizeFillGeometry, FillExit, FillEntry, Grows;
    var st0 := st.(barsProcessed := st.barsProcessed + 1);
    var st1 := FillExit(cfg, st0, bar, time);
    ExitFilled(cfg, st0, bar, time);
    FillEntryGrows(strat, cfg, st1, bar, time);
    GrowsExtends(st1, FillEntry(strat, cfg, st1, bar, time), time);
    if bar.symbol in st.pendingEntry && strat.etDate(time) !in st.flattened
       && FinalizeFillGeometry(cfg.quant, st.pendingEntry[bar.symbol].signal, bar.open).Some? {
      EntryOpens(strat, cfg, st1, bar, time);
    } else {
      EntryKeepsQuiet(strat, cfg, st1, bar, time);
    }
  }
}
