/** The position ledger over any run: what every trade and every open position is, where it
    came from, and that nothing opened is ever lost or closed twice. */
module ReplayLedger {
  import opened Sequences
  import opened Market
  import opened Geometry
  import opened Execution
  import opened Simulator
  import opened Replay
  import opened ReplayFrames

  // ------------------------------------------------------- tickets of the book

  function TicketsInOrder(positions: map<Symbol, Position>, order: seq<Symbol>): seq<Ticket>
    requires forall s :: s in order ==> s in positions
  {
    if order == [] then [] else [PositionTicket(positions[order[0]])] + TicketsInOrder(positions, order[1..])
  }

  ghost function BookTickets(b: Book): multiset<Ticket>
    requires WellFormed(b)
  {
    multiset(TicketsInOrder(b.positions, b.order))
  }

  lemma {:induction false} TicketsAgree(p: map<Symbol, Position>, q: map<Symbol, Position>, order: seq<Symbol>)
    requires forall s :: s in order ==> s in p && s in q && PositionTicket(p[s]) == PositionTicket(q[s])
    ensures TicketsInOrder(p, order) == TicketsInOrder(q, order)
  {
    if order != [] {
      TicketsAgree(p, q, order[1..]);
    }
  }

  lemma {:induction false} WithoutAbsent(order: seq<Symbol>, s: Symbol)
    requires s !in order
    ensures Without(order, s) == order
  {
    if order != [] {
      WithoutAbsent(order[1..], s);
    }
  }

  lemma {:induction false} TicketsWithout(p: map<Symbol, Position>, order: seq<Symbol>, s: Symbol)
    requires (forall x :: x in order ==> x in p) && NoDuplicates(order) && s in order
    ensures multiset(TicketsInOrder(p, order))
         == multiset(TicketsInOrder(p, Without(order, s))) + multiset{PositionTicket(p[s])}
  {
    if order[0] == s {
      WithoutAbsent(order[1..], s);
    } else {
      assert NoDuplicates(order[1..]);
      TicketsWithout(p, order[1..], s);
      var rest := Without(order[1..], s);
      assert Without(order, s) == [order[0]] + rest;
      assert ([order[0]] + rest)[1..] == rest;
    }
  }

  /** Removing a symbol takes exactly its own ticket out of the book. */
  lemma RemovedTicket(b: Book, s: Symbol)
    requires WellFormed(b) && s in b.positions
    ensures WellFormed(Removed(b, s))
    ensures BookTickets(b) == BookTickets(Removed(b, s)) + multiset{PositionTicket(b.positions[s])}
  {
    WithoutKeepsDistinct(b.order, s);
    TicketsWithout(b.positions, b.order, s);
    TicketsAgree(b.positions, b.positions - {s}, Without(b.order, s));
  }

  lemma {:induction false} TicketsAppend(p: map<Symbol, Position>, order: seq<Symbol>, s: Symbol)
    requires s in p && forall x :: x in order ==> x in p
    ensures TicketsInOrder(p, order + [s]) == TicketsInOrder(p, order) + [PositionTicket(p[s])]
  {
    if order != [] {
      assert (order + [s])[1..] == order[1..] + [s];
      TicketsAppend(p, order[1..], s);
    }
  }

  lemma OpenedTicket(b: Book, p: Position)
    requires WellFormed(b) && p.symbol !in b.positions
    ensures WellFormed(Opened(b, p))
    ensures BookTickets(Opened(b, p)) == BookTickets(b) + multiset{PositionTicket(p)}
  {
    var b' := Opened(b, p);
    TicketsAppend(b'.positions, b.order, p.symbol);
    TicketsAgree(b.positions, b'.positions, b.order);
  }

  lemma ReplacedTicket(b: Book, s: Symbol, p: Position)
    requires WellFormed(b) && s in b.positions && PositionTicket(p) == PositionTicket(b.positions[s])
    ensures WellFormed(b.(positions := b.positions[s := p]))
    ensures BookTickets(b.(positions := b.positions[s := p])) == BookTickets(b)
  {
    TicketsAgree(b.positions, b.positions[s := p], b.order);
  }

  // -------------------------------------------------------------- the invariant

  function EnteredTickets(journal: seq<Event>): seq<Ticket> {
    if journal == [] then []
    else
      var last := journal[|journal| - 1];
      var before := EnteredTickets(journal[..|journal| - 1]);
      if last.Entered? then before + [last.ticket] else before
  }

  function TradeTickets(trades: seq<Trade>): seq<Ticket> {
    if trades == [] then []
    else TradeTickets(trades[..|trades| - 1]) + [TradeTicket(trades[|trades| - 1])]
  }

  /** Everything ever opened is either closed, as exactly one trade, or still open, with its
      symbol, fill, levels and signal unchanged. */
  ghost predicate Conserved(st: EngineState) {
    && WellFormed(st.book)
    && multiset(EnteredTickets(st.journal)) == multiset(TradeTickets(st.trades)) + BookTickets(st.book)
  }

  /** A long whose protective levels enclose its own fill and whose entry costs were charged. */
  predicate SoundPosition(p: Position, before: int) {
    p.direction.Bullish? && Bracketed(p) && ExcursionsOk(p) && EntryCharged(p) && p.entryTime < before
  }

  ghost predicate PositionsSound(b: Book, before: int) {
    WellFormed(b) && forall s :: s in b.positions ==> SoundPosition(b.positions[s], before)
  }

  predicate EntryPlan(p: PendingEntry, s: Symbol) {
    p.signal.ticker == s && p.signal.direction.Bullish? && p.signal.stop.Some? && p.signal.target.Some?
  }

  ghost predicate PendingsSound(st: EngineState) {
    && (forall s :: s in st.pendingEntry ==> EntryPlan(st.pendingEntry[s], s))
    && (forall s :: s in st.pendingExit ==> st.pendingExit[s].ticker == s && st.pendingExit[s].direction.Bearish?)
  }

  /** `signal` was published before `before`, while the symbol held `holding`. */
  ghost predicate Announced(journal: seq<Event>, signal: Signal, holding: Option<Ticket>, before: int) {
    exists e :: e in journal && e.Published? && e.signal == signal && e.time < before && (holding.None? || e.holding == holding)
  }

  ghost predicate PendingsAnnounced(st: EngineState, before: int) {
    && (forall s :: s in st.pendingEntry ==> Announced(st.journal, st.pendingEntry[s].signal, None, before))
    && (forall s :: s in st.pendingExit && s in st.book.positions ==>
          Announced(st.journal, st.pendingExit[s], Some(PositionTicket(st.book.positions[s])), before))
  }

  /** What each closed trade promises. */
  ghost predicate SoundTrade(t: Trade, journal: seq<Event>) {
    && t.direction.Bullish? && t.entryTime <= t.exitTime
    && HonestBracketExit(t)
    && NetWithinGross(t)
    && (t.reason.SignalExit? ==>
          t.exitSignal.Some? && t.exitSignal.value.direction.Bearish?
          && Announced(journal, t.exitSignal.value, Some(TradeTicket(t)), t.exitTime))
  }

  /** What each opening promises: it fills an earlier bullish publication and is enclosed by its levels. */
  ghost predicate SoundEntry(e: Event, journal: seq<Event>)
    requires e.Entered?
  {
    var k := e.ticket;
    && e.origin.direction.Bullish? && e.origin.ticker == k.symbol && k.signal.direction.Bullish?
    && k.stop.Some? && k.target.Some? && k.stop.value < k.entryRaw < k.target.value
    && Announced(journal, e.origin, None, k.entryTime)
  }

  ghost predicate TradesSound(trades: seq<Trade>, journal: seq<Event>) {
    forall t :: t in trades ==> SoundTrade(t, journal)
  }

  ghost predicate EntriesSound(entries: seq<Event>, journal: seq<Event>) {
    forall e :: e in entries && e.Entered? ==> SoundEntry(e, journal)
  }

  ghost predicate LedgerInv(st: EngineState, before: int, announced: int) {
    && Conserved(st)
    && PositionsSound(st.book, before)
    && PendingsSound(st)
    && PendingsAnnounced(st, announced)
    && TradesSound(st.trades, st.journal)
    && EntriesSound(st.journal, st.journal)
  }

  /** The ledger looks only at the book, the trades, the journal and the pending instructions. */
  lemma LedgerFrame(st: EngineState, st': EngineState, before: int, announced: int)
    requires LedgerInv(st, before, announced)
    requires st'.book == st.book && st'.trades == st.trades && st'.journal == st.journal
    requires forall s :: s in st'.pendingEntry ==> s in st.pendingEntry && st'.pendingEntry[s] == st.pendingEntry[s]
    requires forall s :: s in st'.pendingExit ==> s in st.pendingExit && st'.pendingExit[s] == st.pendingExit[s]
    ensures LedgerInv(st', before, announced)
  {
    hide SoundPosition, SoundTrade, SoundEntry, Announced;
  }

  lemma PendingFacts(st: EngineState, s: Symbol, before: int, announced: int)
    requires LedgerInv(st, before, announced)
    ensures s in st.book.positions ==> st.book.positions[s].entryTime < before
    ensures s in st.pendingEntry ==>
      EntryPlan(st.pendingEntry[s], s) && Announced(st.journal, st.pendingEntry[s].signal, None, announced)
    ensures s in st.pendingExit ==>
      && st.pendingExit[s].direction.Bearish?
      && (s in st.book.positions ==>
            Announced(st.journal, st.pendingExit[s], Some(PositionTicket(st.book.positions[s])), announced))
  {
    hide SoundTrade, SoundEntry, Conserved;
  }

  lemma AnnouncedGrows(journal: seq<Event>, journal': seq<Event>, signal: Signal, holding: Option<Ticket>, before: int, before': int)
    requires journal <= journal' && before <= before'
    requires Announced(journal, signal, holding, before)
    ensures Announced(journal', signal, holding, before')
  {
  }

  /** Promises made against a journal survive its extension. */
  lemma PromisesGrow(st: EngineState, journal': seq<Event>, before: int, before': int)
    requires st.journal <= journal' && before <= before'
    requires PendingsAnnounced(st, before) && TradesSound(st.trades, st.journal) && EntriesSound(st.journal, st.journal)
    ensures PendingsAnnounced(st.(journal := journal'), before')
    ensures TradesSound(st.trades, journal')
    ensures EntriesSound(st.journal, journal')
  {
  }

  // ------------------------------------------------------- the primitive effects

  /** A trade that closes the position `p` of a sound book. */
  ghost predicate ClosesSoundly(t: Trade, p: Position, journal: seq<Event>) {
    t.symbol == p.symbol && TradeTicket(t) == PositionTicket(p) && SoundTrade(t, journal)
  }

  /** A close moves one ticket from the open positions to the trades. */
  lemma LeaveConserves(cfg: EngineConfig, st: EngineState, s: Symbol, t: Trade, time: int)
    requires Conserved(st) && s in st.book.positions && TradeTicket(t) == PositionTicket(st.book.positions[s])
    requires st.book.positions[s].symbol == s
    ensures Conserved(Record(cfg, st.(book := Removed(st.book, s)), t, time))
  {
    RemovedTicket(st.book, s);
    var st' := Record(cfg, st.(book := Removed(st.book, s)), t, time);
    assert st'.trades[..|st.trades|] == st.trades;
    assert TradeTickets(st'.trades) == TradeTickets(st.trades) + [TradeTicket(t)];
  }

  lemma LeaveKeepsLedger(cfg: EngineConfig, st: EngineState, s: Symbol, t: Trade, time: int, before: int, announced: int)
    requires LedgerInv(st, before, announced) && s in st.book.positions
    requires ClosesSoundly(t, st.book.positions[s], st.journal)
    ensures LedgerInv(Record(cfg, st.(book := Removed(st.book, s)), t, time), before, announced)
  {
    LeaveConserves(cfg, st, s, t, time);
    hide Conserved, SoundTrade, SoundEntry, SoundPosition, Announced, PositionTicket, TradeTicket;
  }

  lemma ClosedSoundly(cfg: EngineConfig, st: EngineState, s: Symbol, time: int, price: real, reason: ExitReason,
                      sig: Option<Signal>, before: int, announced: int)
    requires LedgerInv(st, before, announced)
    requires s in st.book.positions ==> st.book.positions[s].entryTime <= time
    requires reason == EndOfSession || reason == DataEnd || reason == SignalExit
    requires reason == SignalExit ==>
      && sig.Some? && sig.value.direction.Bearish?
      && (s in st.book.positions ==> Announced(st.journal, sig.value, Some(PositionTicket(st.book.positions[s])), time))
    ensures
      var (book, t) := Closed(cfg.execution, st.book, s, time, price, reason, sig);
      LedgerInv(RecordIfAny(cfg, st.(book := book), t, time), before, announced)
  {
    hide Record;
    if s in st.book.positions {
      var t := CloseTrade(cfg.execution, st.book.positions[s], time, price, reason, sig);
      CloseTradeFacts(cfg.execution, st.book.positions[s], time, price, reason, sig);
      ChargedClose(cfg.execution, st.book.positions[s], time, price, reason, sig);
      hide CloseTrade, NetWithinGross;
      assert SoundTrade(t, st.journal);
      LeaveKeepsLedger(cfg, st, s, t, time, before, announced);
    }
  }

  lemma CloseTradeFacts(cfg: ExecutionConfig, p: Position, time: int, price: real, reason: ExitReason, sig: Option<Signal>)
    ensures
      var t := CloseTrade(cfg, p, time, price, reason, sig);
      && t.symbol == p.symbol && TradeTicket(t) == PositionTicket(p) && t.direction == p.direction
      && t.entryTime == p.entryTime && t.exitTime == time && t.reason == reason && t.exitSignal == sig
      && (reason != StopHit && reason != TargetHit ==> HonestBracketExit(t))
  {
  }

  /** A scheduled exit closes the held position at the bar's open and touches nothing of the entry. */
  lemma ExitFilled(cfg: EngineConfig, st: EngineState, bar: Bar, time: int)
    requires bar.symbol in st.book.positions && bar.symbol in st.pendingExit
    ensures
      var p := st.book.positions[bar.symbol];
      var t := CloseTrade(cfg.execution, p, time, bar.open, SignalExit, Some(st.pendingExit[bar.symbol]));
      var st' := FillExit(cfg, st, bar, time);
      && st'.trades == st.trades + [t] && bar.symbol !in st'.book.positions
      && st'.pendingEntry == st.pendingEntry && st'.flattened == st.flattened && st'.journal == st.journal
      && t.symbol == p.symbol && t.entryTime == p.entryTime && t.exitTime == time && t.reason == SignalExit
  {
    hide CloseTrade;
    CloseTradeFacts(cfg.execution, st.book.positions[bar.symbol], time, bar.open, SignalExit, Some(st.pendingExit[bar.symbol]));
  }

  lemma ExaminedFacts(cfg: ExecutionConfig, p: Position, time: int, high: real, low: real, before: int)
    requires SoundPosition(p, before)
    ensures
      var (p', t) := Examine(cfg, p, time, high, low);
      && SoundPosition(p', before) && PositionTicket(p') == PositionTicket(p) && p'.symbol == p.symbol
      && (t.Some? ==>
            && t.value.symbol == p.symbol && TradeTicket(t.value) == PositionTicket(p)
            && t.value.direction.Bullish? && HonestBracketExit(t.value) && NetWithinGross(t.value)
            && t.value.exitTime == time && t.value.reason != SignalExit)
  {
    BracketExitIsHonest(cfg, p, time, high, low);
    ExaminedCharged(cfg, p, time, high, low);
  }

  lemma ExaminedCharged(cfg: ExecutionConfig, p: Position, time: int, high: real, low: real)
    requires EntryCharged(p) && Bracketed(p)
    ensures
      var (p', t) := Examine(cfg, p, time, high, low);
      EntryCharged(p') && (t.Some? ==> NetWithinGross(t.value))
  {
    var p' := UpdateExcursion(p, high, low);
    ChargedClose(cfg, p', time, p.stop.value, StopHit, None);
    ChargedClose(cfg, p', time, p.target.value, TargetHit, None);
    hide CloseTrade, NetWithinGross;
  }

  lemma ExamineKeepsLedger(cfg: EngineConfig, st: EngineState, bar: Bar, time: int, announced: int)
    requires LedgerInv(st, time + 1, announced)
    ensures LedgerInv(ExamineBar(cfg, st, bar, time), time + 1, announced)
  {
    hide Record, Examine, SoundPosition, PendingsSound, TradesSound, EntriesSound, PendingsAnnounced;
    var s := bar.symbol;
    if s in st.book.positions {
      var p := st.book.positions[s];
      var (p', t) := Examine(cfg.execution, p, time, bar.high, bar.low);
      ExaminedFacts(cfg.execution, p, time, bar.high, bar.low, time + 1);
      if t.Some? {
        LeaveKeepsLedger(cfg, st, s, t.value, time, time + 1, announced);
      } else {
        TrackKeepsLedger(st, s, p', time + 1, announced);
      }
    }
  }

  lemma TrackKeepsLedger(st: EngineState, s: Symbol, p: Position, before: int, announced: int)
    requires LedgerInv(st, before, announced) && s in st.book.positions
    requires SoundPosition(p, before) && p.symbol == s && PositionTicket(p) == PositionTicket(st.book.positions[s])
    ensures LedgerInv(st.(book := st.book.(positions := st.book.positions[s := p])), before, announced)
  {
    hide SoundPosition, Announced, TradesSound, EntriesSound;
    ReplacedTicket(st.book, s, p);
  }

  lemma FillExitKeepsLedger(cfg: EngineConfig, st: EngineState, bar: Bar, time: int)
    requires LedgerInv(st, time + 1, time)
    ensures LedgerInv(FillExit(cfg, st, bar, time), time + 1, time)
  {
    hide RecordIfAny, LedgerInv, Announced;
    var s := bar.symbol;
    if s in st.pendingExit {
      var st' := st.(pendingExit := st.pendingExit - {s});
      LedgerFrame(st, st', time + 1, time);
      PendingFacts(st, s, time + 1, time);
      if s in st.book.positions {
        ClosedSoundly(cfg, st', s, time, bar.open, SignalExit, Some(st.pendingExit[s]), time + 1, time);
      } else {
        LedgerFrame(st', Reject(st', s, NoActivePosition, 1, time), time + 1, time);
      }
    }
  }

  /** After reconciliation with the fill, a planned long is always enclosed by its levels. */
  lemma FinalizedEncloses(qc: QuantConfig, signal: Signal, fill: real)
    requires signal.direction.Bullish? && signal.stop.Some? && signal.target.Some?
    ensures
      var f := FinalizeFillGeometry(qc, signal, fill);
      f.Some? ==>
        && f.value == signal.(stop := f.value.stop, target := f.value.target)
        && f.value.stop.Some? && f.value.target.Some? && f.value.stop.value < fill < f.value.target.value
  {
  }

  lemma NewPositionSound(cfg: ExecutionConfig, signal: Signal, time: int, fill: real, score: Option<real>)
    requires signal.direction.Bullish? && signal.stop.Some? && signal.target.Some?
    requires signal.stop.value < fill < signal.target.value
    ensures SoundPosition(NewPosition(cfg, signal, time, fill, score), time + 1)
  {
    NewPositionCharged(cfg, signal, time, fill, score);
    hide EntryCharged;
  }

  lemma OpenedSound(b: Book, p: Position, before: int)
    requires PositionsSound(b, before) && SoundPosition(p, before) && p.symbol !in b.positions
    ensures PositionsSound(Opened(b, p), before)
    ensures BookTickets(Opened(b, p)) == BookTickets(b) + multiset{PositionTicket(p)}
  {
    hide SoundPosition;
    OpenedTicket(b, p);
  }

  lemma EntriesExtend(journal: seq<Event>, e: Event)
    requires EntriesSound(journal, journal + [e]) && e.Entered? && SoundEntry(e, journal + [e])
    ensures EntriesSound(journal + [e], journal + [e])
    ensures EnteredTickets(journal + [e]) == EnteredTickets(journal) + [e.ticket]
  {
  }

  lemma OpenedPendings(st: EngineState, p: Position, time: int)
    requires PendingsAnnounced(st, time) && p.symbol !in st.pendingExit
    ensures PendingsAnnounced(st.(book := Opened(st.book, p)), time)
  {
    hide Announced;
  }

  lemma OpenedConserved(st: EngineState, p: Position, origin: Signal)
    requires Conserved(st) && p.symbol !in st.book.positions
    ensures Conserved(Note(st.(book := Opened(st.book, p)), Entered(PositionTicket(p), origin)))
  {
    var e := Entered(PositionTicket(p), origin);
    assert (st.journal + [e])[..|st.journal|] == st.journal;
    assert EnteredTickets(st.journal + [e]) == EnteredTickets(st.journal) + [e.ticket];
    OpenedTicket(st.book, p);
  }

  /** The journal entry of a new position keeps every promise and adds its own. */
  lemma EntryNoted(st: EngineState, p: Position, origin: Signal, time: int)
    requires LedgerInv(st, time + 1, time)
    requires SoundPosition(p, time + 1) && p.entryTime == time && p.symbol !in st.book.positions
    requires p.signal.direction.Bullish? && origin.direction.Bullish? && origin.ticker == p.symbol
    requires Announced(st.journal, origin, None, time)
    requires p.symbol !in st.pendingExit
    ensures LedgerInv(Note(st.(book := Opened(st.book, p)), Entered(PositionTicket(p), origin)), time + 1, time)
  {
    var e := Entered(PositionTicket(p), origin);
    var journal' := st.journal + [e];
    PromisesGrow(st, journal', time, time);
    OpenedPendings(st.(journal := journal'), p, time);
    AnnouncedGrows(st.journal, journal', origin, None, time, time);
    EntryIsSound(journal', p, origin, time);
    EntriesExtend(st.journal, e);
    OpenedConserved(st, p, origin);
    OpenedSound(st.book, p, time + 1);
    hide PositionsSound, TradesSound, EntriesSound, Conserved, PendingsAnnounced, Opened;
  }

  lemma EntryIsSound(journal: seq<Event>, p: Position, origin: Signal, time: int)
    requires SoundPosition(p, time + 1) && p.entryTime == time && Announced(journal, origin, None, time)
    requires p.signal.direction.Bullish? && origin.direction.Bullish? && origin.ticker == p.symbol
    ensures SoundEntry(Entered(PositionTicket(p), origin), journal)
  {
    SoundPositionLevels(p, time + 1);
    hide SoundPosition, Announced;
  }

  lemma SoundPositionLevels(p: Position, before: int)
    requires SoundPosition(p, before)
    ensures p.stop.Some? && p.target.Some? && p.stop.value < p.entryRaw < p.target.value
  {
  }

  lemma EnterKeepsLedger(cfg: EngineConfig, st: EngineState, pending: PendingEntry, signal: Signal, bar: Bar, time: int)
    requires LedgerInv(st, time + 1, time)
    requires bar.symbol !in st.book.positions && bar.symbol !in st.pendingExit
    requires EntryPlan(pending, bar.symbol) && Announced(st.journal, pending.signal, None, time)
    requires signal == pending.signal.(stop := signal.stop, target := signal.target)
    requires signal.stop.Some? && signal.target.Some? && signal.stop.value < bar.open < signal.target.value
    ensures LedgerInv(Enter(cfg, st, pending, signal, bar, time), time + 1, time)
  {
    var p := NewPosition(cfg.execution, signal, time, bar.open, Some(pending.score));
    NewPositionSound(cfg.execution, signal, time, bar.open, Some(pending.score));
    NewPositionTicket(cfg.execution, signal, time, bar.open, Some(pending.score));
    hide NewPosition, SoundPosition, LedgerInv, Announced;
    EntryNoted(st, p, pending.signal, time);
  }

  lemma NewPositionTicket(cfg: ExecutionConfig, signal: Signal, time: int, fill: real, score: Option<real>)
    ensures
      var p := NewPosition(cfg, signal, time, fill, score);
      && p.symbol == signal.ticker && p.entryTime == time && p.signal == signal
      && PositionTicket(p) == Ticket(signal.ticker, time, fill, signal.stop, signal.target, signal)
  {
  }

  lemma FillEntryKeepsLedger(strat: Strategy, cfg: EngineConfig, st: EngineState, bar: Bar, time: int)
    requires LedgerInv(st, time + 1, time) && bar.symbol !in st.pendingExit
    ensures LedgerInv(FillEntry(strat, cfg, st, bar, time), time + 1, time)
  {
    hide ExamineBar, Enter, FinalizeFillGeometry, LedgerInv, Announced;
    var s := bar.symbol;
    if s !in st.pendingEntry {
      ExamineKeepsLedger(cfg, st, bar, time, time);
    } else {
      var pending := st.pendingEntry[s];
      var st' := st.(pendingEntry := st.pendingEntry - {s});
      PendingFacts(st, s, time + 1, time);
      LedgerFrame(st, st', time + 1, time);
      if strat.etDate(time) in st.flattened {
        LedgerFrame(st', Reject(st', s, PostEodFlattenNoNewEntry, 1, time), time + 1, time);
      } else if s in st.book.positions {
        NoteKeepsLedger(st', SkippedWhileOpen(time, s, |History(st.market, s)|), time + 1, time);
      } else {
        var signal := FinalizeFillGeometry(cfg.quant, pending.signal, bar.open);
        FinalizedEncloses(cfg.quant, pending.signal, bar.open);
        if signal.Some? {
          EnterKeepsLedger(cfg, st', pending, signal.value, bar, time);
          ExamineKeepsLedger(cfg, Enter(cfg, st', pending, signal.value, bar, time), bar, time, time);
        } else {
          LedgerFrame(st', Reject(st', s, GeometryInvalidatedAtFill, 1, time), time + 1, time);
        }
      }
    }
  }

  lemma NoteKeepsLedger(st: EngineState, e: Event, before: int, announced: int)
    requires LedgerInv(st, before, announced) && !e.Entered?
    ensures LedgerInv(Note(st, e), before, announced)
  {
    var st' := Note(st, e);
    PromisesGrow(st, st'.journal, announced, announced);
    assert st'.journal[..|st.journal|] == st.journal;
    assert EnteredTickets(st'.journal) == EnteredTickets(st.journal);
  }

  lemma {:induction false} SameEntries(journal: seq<Event>, journal': seq<Event>)
    requires OnlyDropNotes(journal, journal')
    ensures EnteredTickets(journal') == EnteredTickets(journal)
  {
    if |journal'| > |journal| {
      SameEntries(journal, journal'[..|journal'| - 1]);
    } else {
      assert journal' == journal;
    }
  }

  lemma QuietKeepsLedger(st: EngineState, st': EngineState, time: int, before: int, announced: int)
    requires LedgerInv(st, before, announced) && Quiet(st, st', time)
    ensures LedgerInv(st', before, announced)
  {
    SameEntries(st.journal, st'.journal);
    PromisesGrow(st, st'.journal, announced, announced);
    assert st' == st.(rejections := st'.rejections, generated := st'.generated, journal := st'.journal);
    forall e | e in st'.journal && e.Entered? ensures SoundEntry(e, st'.journal) {
      assert e in st.journal;
    }
  }

  lemma ProcessBarKeepsLedger(strat: Strategy, cfg: EngineConfig, st: EngineState, bar: Bar, time: int)
    requires LedgerInv(st, time + 1, time)
    ensures LedgerInv(ProcessBar(strat, cfg, st, bar, time).0, time + 1, time)
  {
    hide FillExit, FillEntry, Screen, LedgerInv, Quiet;
    var st0 := st.(barsProcessed := st.barsProcessed + 1);
    LedgerFrame(st, st0, time + 1, time);
    var st1 := FillExit(cfg, st0, bar, time);
    FillExitKeepsLedger(cfg, st0, bar, time);
    FillExitFrame(cfg, st0, bar, time);
    var st2 := FillEntry(strat, cfg, st1, bar, time);
    FillEntryKeepsLedger(strat, cfg, st1, bar, time);
    var st3 := FeedMarketState(st2, bar, time);
    LedgerFrame(st2, st3, time + 1, time);
    ScreenQuiet(strat, cfg, st3, bar.symbol, time);
    QuietKeepsLedger(st3, Screen(strat, cfg, st3, bar.symbol, time).0, time, time + 1, time);
  }

  lemma {:induction false} ProcessBarsKeepsLedger(strat: Strategy, cfg: EngineConfig, st: EngineState, bars: seq<Bar>, time: int)
    requires LedgerInv(st, time + 1, time)
    ensures LedgerInv(ProcessBars(strat, cfg, st, bars, time).0, time + 1, time)
  {
    hide ProcessBar, LedgerInv;
    if bars != [] {
      ProcessBarsKeepsLedger(strat, cfg, st, bars[..|bars| - 1], time);
      ProcessBarKeepsLedger(strat, cfg, ProcessBars(strat, cfg, st, bars[..|bars| - 1], time).0, bars[|bars| - 1], time);
    }
  }

  // ------------------------------------------------------------------ throttle

  lemma RevalidatedPlan(cfg: EngineConfig, st: EngineState, signal: Signal)
    ensures
      var r := Revalidate(cfg, st, signal);
      r.Valid? ==>
        && r.signal.ticker == signal.ticker && r.signal.direction == signal.direction
        && r.signal.stop.Some? && r.signal.target.Some? && signal.ticker in st.lastClose
        && Brackets(signal.direction, r.signal.stop.value, r.signal.price, r.signal.target.value)
  {
  }

  lemma ScheduleEntryKeepsLedger(st: EngineState, signal: Signal, score: real, time: int)
    requires LedgerInv(st, time + 1, time + 1)
    requires EntryPlan(PendingEntry(signal, score), signal.ticker) && Announced(st.journal, signal, None, time + 1)
    ensures LedgerInv(st.(pendingEntry := st.pendingEntry[signal.ticker := PendingEntry(signal, score)]), time + 1, time + 1)
  {
    hide SoundPosition, TradesSound, EntriesSound, Announced, BookTickets;
  }

  lemma ScheduleExitKeepsLedger(st: EngineState, signal: Signal, time: int)
    requires LedgerInv(st, time + 1, time + 1)
    requires signal.direction.Bearish? && signal.ticker in st.book.positions
    requires Announced(st.journal, signal, Some(PositionTicket(st.book.positions[signal.ticker])), time + 1)
    ensures LedgerInv(st.(pendingExit := st.pendingExit[signal.ticker := signal]), time + 1, time + 1)
  {
    hide SoundPosition, TradesSound, EntriesSound, Announced, BookTickets;
  }

  lemma RouteKeepsLedger(st: EngineState, signal: Signal, score: real, time: int)
    requires LedgerInv(st, time + 1, time + 1)
    requires signal.stop.Some? && signal.target.Some?
    requires Publication(st, signal, time) in st.journal
    ensures LedgerInv(Route(st, signal, score, time), time + 1, time + 1)
  {
    hide LedgerInv;
    var s := signal.ticker;
    assert Announced(st.journal, signal, None, time + 1);
    if signal.direction.Bullish? {
      ScheduleEntryKeepsLedger(st, signal, score, time);
    } else if s in st.book.positions {
      assert Announced(st.journal, signal, Holding(st, s), time + 1);
      ScheduleExitKeepsLedger(st, signal, time);
    } else {
      LedgerFrame(st, Reject(st, s, NoActivePosition, 1, time), time + 1, time + 1);
    }
  }

  lemma ReleaseKeepsLedger(cfg: EngineConfig, st: EngineState, c: Scored, time: int)
    requires LedgerInv(st, time + 1, time + 1)
    ensures LedgerInv(Release(cfg, st, c, time), time + 1, time + 1)
  {
    RevalidatedPlan(cfg, st, c.signal);
    hide Route, Revalidate, LedgerInv;
    var s := c.signal.ticker;
    var r := Revalidate(cfg, st, c.signal);
    if Active(st.cooldownUntil, s, time) {
      LedgerFrame(st, Reject(st, s, Cooldown, 1, time), time + 1, time + 1);
    } else if r.Refused? {
      LedgerFrame(st, Reject(st, s, r.reason, 1, time), time + 1, time + 1);
    } else {
      var e := Publication(st, r.signal, time);
      var noted := Note(st, e);
      NoteKeepsLedger(st, e, time + 1, time + 1);
      var armed := noted.(published := noted.published + 1,
                          cooldownUntil := noted.cooldownUntil[s := time + cfg.quant.cooldownSeconds]);
      LedgerFrame(noted, armed, time + 1, time + 1);
      RouteKeepsLedger(armed, r.signal, c.score, time);
    }
  }

  lemma {:induction false} ReleaseAllKeepsLedger(cfg: EngineConfig, st: EngineState, released: seq<Scored>, time: int)
    requires LedgerInv(st, time + 1, time + 1)
    ensures LedgerInv(ReleaseAll(cfg, st, released, time), time + 1, time + 1)
  {
    hide LedgerInv, Release;
    if released != [] {
      ReleaseAllKeepsLedger(cfg, st, released[..|released| - 1], time);
      ReleaseKeepsLedger(cfg, ReleaseAll(cfg, st, released[..|released| - 1], time), released[|released| - 1], time);
    }
  }

  lemma FlushKeepsLedger(strat: Strategy, cfg: EngineConfig, st: EngineState, candidates: seq<Signal>, time: int)
    requires LedgerInv(st, time + 1, time + 1)
    ensures LedgerInv(Flush(strat, cfg, st, candidates, time), time + 1, time + 1)
  {
    hide LedgerInv, ReleaseAll, RejectThrottled;
    var ranked := Ranked(strat, candidates);
    var end := SliceEnd(|ranked|, cfg.quant.throttleMaxSignals);
    var st1 := ReleaseAll(cfg, st, ranked[..end], time);
    ReleaseAllKeepsLedger(cfg, st, ranked[..end], time);
    RejectThrottledQuiet(st1, CountByTicker(ranked[end..]), time);
    QuietKeepsLedger(st1, RejectThrottled(st1, CountByTicker(ranked[end..]), time), time, time + 1, time + 1);
  }

  // --------------------------------------------------- end of day, end of data

  lemma {:induction false} ForceCloseAllKeepsLedger(cfg: EngineConfig, st: EngineState, symbols: seq<Symbol>, time: int)
    requires LedgerInv(st, time + 1, time + 1)
    ensures LedgerInv(ForceCloseAll(cfg, st, symbols, time), time + 1, time + 1)
  {
    hide LedgerInv, Closed, RecordIfAny;
    if symbols != [] {
      ForceCloseAllKeepsLedger(cfg, st, symbols[..|symbols| - 1], time);
      var st1 := ForceCloseAll(cfg, st, symbols[..|symbols| - 1], time);
      var s := symbols[|symbols| - 1];
      if s in st1.lastClose {
        PendingFacts(st1, s, time + 1, time + 1);
        ClosedSoundly(cfg, st1, s, time, st1.lastClose[s], EndOfSession, None, time + 1, time + 1);
      }
    }
  }

  lemma LedgerWeaken(st: EngineState, before: int, announced: int, before': int, announced': int)
    requires LedgerInv(st, before, announced) && before <= before' && announced <= announced'
    ensures LedgerInv(st, before', announced')
  {
    hide Conserved, TradesSound, EntriesSound;
  }

  /** Every minute keeps the ledger. */
  lemma StepKeepsLedger(strat: Strategy, cfg: EngineConfig, st: EngineState, m: Minute)
    requires LedgerInv(st, m.time, m.time)
    ensures LedgerInv(Step(strat, cfg, st, m), m.time + 1, m.time + 1)
  {
    hide LedgerInv, ProcessBars, Flush, ForceCloseAll;
    LedgerWeaken(st, m.time, m.time, m.time + 1, m.time);
    ProcessBarsKeepsLedger(strat, cfg, st, m.bars, m.time);
    var (st1, candidates) := ProcessBars(strat, cfg, st, m.bars, m.time);
    LedgerWeaken(st1, m.time + 1, m.time, m.time + 1, m.time + 1);
    FlushKeepsLedger(strat, cfg, st1, candidates, m.time);
    var st2 := if candidates == [] then st1 else Flush(strat, cfg, st1, candidates, m.time);
    if FlattenDue(strat, cfg, st2, m.time) {
      var st3 := st2.(flattened := st2.flattened + {strat.etDate(m.time)});
      LedgerFrame(st2, st3, m.time + 1, m.time + 1);
      ForceCloseAllKeepsLedger(cfg, st3, st2.book.order, m.time);
    }
  }
}
