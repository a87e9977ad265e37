/** What the steps of the replay may touch: ledgers only grow, entries carry the time of the
    step that made them, and screening leaves all trading state alone. */
module ReplayFrames {
  import opened Sequences
  import opened Market
  import opened Execution
  import opened Simulator
  import opened Replay

  // ------------------------------------------------------ append-only ledgers

  predicate StampedAt(e: Event, time: int) {
    && (e.Published? ==> e.time == time)
    && (e.Entered? ==> e.ticket.entryTime == time)
  }

  ghost predicate TradesGrow(xs: seq<Trade>, ys: seq<Trade>, time: int) {
    xs <= ys && forall i :: |xs| <= i < |ys| ==> ys[i].exitTime == time && ys[i].reason != DataEnd
  }

  ghost predicate RejectionsGrow(xs: seq<Rejection>, ys: seq<Rejection>, time: int) {
    xs <= ys && forall i :: |xs| <= i < |ys| ==> ys[i].time == time
  }

  ghost predicate JournalGrows(xs: seq<Event>, ys: seq<Event>, time: int) {
    xs <= ys && forall i :: |xs| <= i < |ys| ==> StampedAt(ys[i], time)
  }

  /** Ledgers are extended, never rewritten, by entries of the given time. */
  ghost predicate Grows(st: EngineState, st': EngineState, time: int) {
    && TradesGrow(st.trades, st'.trades, time)
    && RejectionsGrow(st.rejections, st'.rejections, time)
    && JournalGrows(st.journal, st'.journal, time)
    && st.flattened <= st'.flattened
  }

  lemma GrowsTransitive(a: EngineState, b: EngineState, c: EngineState, time: int)
    requires Grows(a, b, time) && Grows(b, c, time)
    ensures Grows(a, c, time)
  {
  }

  /** Nothing is skipped. */
  ghost predicate NoSkips(journal: seq<Event>, journal': seq<Event>) {
    journal <= journal' && forall i :: |journal| <= i < |journal'| ==> !journal'[i].SkippedWhileOpen?
  }

  // ------------------------------------------------------------------ screening

  /** Reasons recorded for candidates that never publish, or for a bar that produced none. */
  predicate PrePublication(r: Reason) {
    !r.NoActivePosition? && !r.PostEodFlattenNoNewEntry? && !r.GeometryInvalidatedAtFill?
  }

  ghost predicate OnlyPrePublication(xs: seq<Rejection>, ys: seq<Rejection>, time: int) {
    xs <= ys && forall i :: |xs| <= i < |ys| ==> ys[i].time == time && PrePublication(ys[i].reason)
  }

  ghost predicate OnlyDropNotes(xs: seq<Event>, ys: seq<Event>) {
    xs <= ys && forall i :: |xs| <= i < |ys| ==> ys[i].DroppedBesideSibling?
  }

  /** Only pre-publication rejections, the generated count and the drop notes may change. */
  ghost predicate Quiet(st: EngineState, st': EngineState, time: int) {
    && st' == st.(rejections := st'.rejections, generated := st'.generated, journal := st'.journal)
    && OnlyPrePublication(st.rejections, st'.rejections, time)
    && OnlyDropNotes(st.journal, st'.journal)
  }

  lemma QuietTransitive(a: EngineState, b: EngineState, c: EngineState, time: int)
    requires Quiet(a, b, time) && Quiet(b, c, time)
    ensures Quiet(a, c, time)
  {
  }

  lemma QuietReject(st: EngineState, s: Symbol, reason: Reason, count: nat, time: int)
    requires PrePublication(reason)
    ensures Quiet(st, Reject(st, s, reason, count, time), time)
  {
  }

  lemma SieveQuiet(cfg: EngineConfig, st: EngineState, g: Gate, signals: seq<Signal>, s: Symbol, time: int)
    ensures Quiet(st, Sieve(cfg, st, g, signals, s, time).0, time)
    ensures forall c :: c in Sieve(cfg, st, g, signals, s, time).1 ==> c in signals
  {
    QuietReject(st, s, GateReason(g), |signals| - |Kept(cfg.quant, g, signals)|, time);
  }

  lemma {:induction false} SieveAllQuiet(cfg: EngineConfig, st: EngineState, gates: seq<Gate>, signals: seq<Signal>, s: Symbol, time: int)
    ensures Quiet(st, SieveAll(cfg, st, gates, signals, s, time).0, time)
    ensures forall c :: c in SieveAll(cfg, st, gates, signals, s, time).1 ==> c in signals
    decreases |gates|
  {
    if gates != [] {
      var (st', kept) := Sieve(cfg, st, gates[0], signals, s, time);
      SieveQuiet(cfg, st, gates[0], signals, s, time);
      SieveAllQuiet(cfg, st', gates[1..], kept, s, time);
      QuietTransitive(st, st', SieveAll(cfg, st, gates, signals, s, time).0, time);
    }
  }

  /** The facts a candidate carries into the throttle: its symbol, and that neither clock held it back. */
  predicate Cleared(st: EngineState, c: Signal, s: Symbol, time: int) {
    c.ticker == s && !Active(st.lockoutUntil, s, time) && !Active(st.cooldownUntil, s, time)
  }

  lemma ScreenConfluenceQuiet(cfg: EngineConfig, st: EngineState, signals: seq<Signal>, s: Symbol, time: int)
    ensures
      var (st', found) := ScreenConfluence(cfg, st, signals, s, time);
      Quiet(st, st', time) && forall c :: c in found ==> c in signals
  {
    hide SieveAll, Confluent;
    var eligible := Eligible(cfg.quant, signals);
    if eligible == [] {
      QuietReject(st, s, LowConfluence, |signals|, time);
    } else {
      var noted := Note(st, DroppedBesideSibling(|signals| - |eligible|));
      QuietNote(st, |signals| - |eligible|, time);
      SieveAllQuiet(cfg, noted, LATE_GATES, eligible, s, time);
      QuietTransitive(st, noted, SieveAll(cfg, noted, LATE_GATES, eligible, s, time).0, time);
    }
    hide Quiet, Reject;
  }

  lemma QuietNote(st: EngineState, count: nat, time: int)
    ensures Quiet(st, Note(st, DroppedBesideSibling(count)), time)
  {
  }

  lemma ScreenClocksQuiet(cfg: EngineConfig, st: EngineState, signals: seq<Signal>, s: Symbol, time: int)
    requires forall c :: c in signals ==> c.ticker == s
    ensures
      var (st', found) := ScreenClocks(cfg, st, signals, s, time);
      Quiet(st, st', time) && forall c :: c in found ==> Cleared(st, c, s, time)
  {
    if signals == [] {
    } else if Active(st.lockoutUntil, s, time) {
      QuietReject(st, s, LossLockout, |signals|, time);
    } else if Active(st.cooldownUntil, s, time) {
      QuietReject(st, s, Cooldown, |signals|, time);
    } else {
      ScreenConfluenceQuiet(cfg, st, signals, s, time);
    }
  }

  lemma ScreenSessionQuiet(cfg: EngineConfig, st: EngineState, blackout: Blackout, signals: seq<Signal>, s: Symbol, time: int)
    requires signals != [] && forall c :: c in signals ==> c.ticker == s
    ensures
      var (st', found) := ScreenSession(cfg, st, blackout, signals, s, time);
      Quiet(st, st', time) && forall c :: c in found ==> Cleared(st, c, s, time)
  {
    if signals[0].session.ClosedSession? {
      QuietReject(st, s, UsMarketSessionClosed, |signals|, time);
    } else if blackout.Opening? {
      QuietReject(st, s, OpeningBlackout, |signals|, time);
    } else if blackout.Closing? {
      var (st', kept) := Sieve(cfg, st, BlackoutGate, signals, s, time);
      SieveQuiet(cfg, st, BlackoutGate, signals, s, time);
      ScreenClocksQuiet(cfg, st', kept, s, time);
      QuietTransitive(st, st', ScreenClocks(cfg, st', kept, s, time).0, time);
    } else {
      ScreenClocksQuiet(cfg, st, signals, s, time);
    }
  }

  /** From the indicators to the throttle queue nothing but bookkeeping changes. */
  lemma ScreenQuiet(strat: Strategy, cfg: EngineConfig, st: EngineState, s: Symbol, time: int)
    requires s in st.market
    ensures
      var (st', found) := Screen(strat, cfg, st, s, time);
      Quiet(st, st', time) && forall c :: c in found ==> Cleared(st, c, s, time)
  {
    hide ScreenSession;
    var e := strat.evaluate(s, st.market[s]);
    if e.Ready? && e.gateFails {
      QuietReject(st, s, if cfg.quant.regimeGate then LowVolatilityRegime else LowVolatility, 1, time);
    } else if e.Ready? {
      var signals := Stamped(e.signals, s);
      if signals != [] {
        var st1 := st.(generated := st.generated + |signals|);
        assert Quiet(st, st1, time);
        ScreenSessionQuiet(cfg, st1, e.blackout, signals, s, time);
        QuietTransitive(st, st1, ScreenSession(cfg, st1, e.blackout, signals, s, time).0, time);
      }
    }
  }

  // ------------------------------------------- a bar touches its own symbol only

  /** Two books that differ at most in what they hold for `s`. */
  ghost predicate SameElsewhere(b: Book, b': Book, s: Symbol) {
    forall x :: x != s ==> (x in b'.positions <==> x in b.positions)
                           && (x in b.positions ==> b'.positions[x] == b.positions[x])
  }

  lemma RecordFields(cfg: EngineConfig, st: EngineState, t: Option<Trade>, time: int)
    ensures
      var st' := RecordIfAny(cfg, st, t, time);
      st' == st.(trades := st'.trades, lockoutUntil := st'.lockoutUntil)
  {
  }

  lemma ClosedElsewhere(cfg: ExecutionConfig, b: Book, s: Symbol, time: int, price: real, reason: ExitReason, sig: Option<Signal>)
    ensures
      var (b', t) := Closed(cfg, b, s, time, price, reason, sig);
      SameElsewhere(b, b', s) && s !in b'.positions
  {
    hide CloseTrade;
  }

  lemma ExaminedElsewhere(cfg: ExecutionConfig, b: Book, s: Symbol, time: int, high: real, low: real)
    ensures
      var b' := Examined(cfg, b, s, time, high, low).0;
      SameElsewhere(b, b', s) && (s in b'.positions ==> s in b.positions)
  {
    hide Examine;
  }

  /** Resolving a scheduled exit removes that instruction and touches no other. */
  lemma FillExitFrame(cfg: EngineConfig, st: EngineState, bar: Bar, time: int)
    ensures
      var st' := FillExit(cfg, st, bar, time);
      && st' == st.(pendingExit := st.pendingExit - {bar.symbol}, book := st'.book, trades := st'.trades,
                    lockoutUntil := st'.lockoutUntil, rejections := st'.rejections)
      && SameElsewhere(st.book, st'.book, bar.symbol)
      && (bar.symbol in st'.book.positions ==> bar.symbol in st.book.positions)
  {
    hide RecordIfAny, Closed;
    var s := bar.symbol;
    if s in st.pendingExit && s in st.book.positions {
      var (book, t) := Closed(cfg.execution, st.book, s, time, bar.open, SignalExit, Some(st.pendingExit[s]));
      RecordFields(cfg, st.(pendingExit := st.pendingExit - {s}, book := book), t, time);
      ClosedElsewhere(cfg.execution, st.book, s, time, bar.open, SignalExit, Some(st.pendingExit[s]));
    } else if s !in st.pendingExit {
      assert st.pendingExit - {s} == st.pendingExit;
    }
  }

  lemma ExamineFrame(cfg: EngineConfig, st: EngineState, bar: Bar, time: int)
    ensures
      var st' := ExamineBar(cfg, st, bar, time);
      && st' == st.(book := st'.book, trades := st'.trades, lockoutUntil := st'.lockoutUntil)
      && SameElsewhere(st.book, st'.book, bar.symbol)
      && (bar.symbol in st'.book.positions ==> bar.symbol in st.book.positions)
  {
    hide RecordIfAny, Examined;
    var (book, t) := Examined(cfg.execution, st.book, bar.symbol, time, bar.high, bar.low);
    ExaminedElsewhere(cfg.execution, st.book, bar.symbol, time, bar.high, bar.low);
    RecordFields(cfg, st.(book := book), t, time);
  }

  /** What resolving the entry of `bar` may change in the engine. */
  ghost predicate EntryStageOf(st: EngineState, st': EngineState, s: Symbol) {
    && st' == st.(pendingEntry := st.pendingEntry - {s}, book := st'.book, trades := st'.trades,
                  lockoutUntil := st'.lockoutUntil, rejections := st'.rejections, journal := st'.journal)
    && SameElsewhere(st.book, st'.book, s)
  }

  lemma UnscheduledFrame(strat: Strategy, cfg: EngineConfig, st: EngineState, bar: Bar, time: int)
    requires bar.symbol !in st.pendingEntry
    ensures
      var st' := FillEntry(strat, cfg, st, bar, time);
      EntryStageOf(st, st', bar.symbol) && (bar.symbol in st'.book.positions ==> bar.symbol in st.book.positions)
  {
    hide ExamineBar;
    ExamineFrame(cfg, st, bar, time);
    assert st.pendingEntry - {bar.symbol} == st.pendingEntry;
  }

  lemma FilledFrame(strat: Strategy, cfg: EngineConfig, st: EngineState, bar: Bar, time: int)
    requires bar.symbol in st.pendingEntry && st.pendingEntry[bar.symbol].signal.ticker == bar.symbol
    requires strat.etDate(time) !in st.flattened && bar.symbol !in st.book.positions
    ensures EntryStageOf(st, FillEntry(strat, cfg, st, bar, time), bar.symbol)
  {
    hide ExamineBar, Enter, FinalizeFillGeometry, SameElsewhere;
    var s := bar.symbol;
    var pending := st.pendingEntry[s];
    var st' := st.(pendingEntry := st.pendingEntry - {s});
    var signal := FinalizeFillGeometry(cfg.quant, pending.signal, bar.open);
    FinalizeKeepsTicker(cfg.quant, pending.signal, bar.open);
    if signal.Some? {
      EnteredFrame(cfg, st', pending, signal.value, bar, time);
    } else {
      SameBooks(st.book, s);
    }
  }

  lemma SameBooks(b: Book, s: Symbol)
    ensures SameElsewhere(b, b, s)
  {
  }

  /** Resolving a scheduled entry removes that instruction; only on a date not yet flattened can it open. */
  lemma FillEntryFrame(strat: Strategy, cfg: EngineConfig, st: EngineState, bar: Bar, time: int)
    requires bar.symbol in st.pendingEntry ==> st.pendingEntry[bar.symbol].signal.ticker == bar.symbol
    ensures
      var st' := FillEntry(strat, cfg, st, bar, time);
      && EntryStageOf(st, st', bar.symbol)
      && (bar.symbol in st'.book.positions ==> bar.symbol in st.book.positions || strat.etDate(time) !in st.flattened)
  {
    if bar.symbol !in st.pendingEntry {
      UnscheduledFrame(strat, cfg, st, bar, time);
    } else if strat.etDate(time) !in st.flattened && bar.symbol !in st.book.positions {
      FilledFrame(strat, cfg, st, bar, time);
    }
  }

  lemma EnteredFrame(cfg: EngineConfig, st: EngineState, pending: PendingEntry, signal: Signal, bar: Bar, time: int)
    requires signal.ticker == bar.symbol
    ensures
      var st' := ExamineBar(cfg, Enter(cfg, st, pending, signal, bar, time), bar, time);
      && st' == st.(book := st'.book, trades := st'.trades, lockoutUntil := st'.lockoutUntil, journal := st'.journal)
      && SameElsewhere(st.book, st'.book, bar.symbol)
  {
    hide ExamineBar, Enter;
    EnterFrame(cfg, st, pending, signal, bar, time);
    ExamineFrame(cfg, Enter(cfg, st, pending, signal, bar, time), bar, time);
  }

  lemma FinalizeKeepsTicker(qc: QuantConfig, signal: Signal, fill: real)
    ensures
      var f := FinalizeFillGeometry(qc, signal, fill);
      f.Some? ==> f.value == signal.(stop := f.value.stop, target := f.value.target)
  {
  }

  lemma EnterFrame(cfg: EngineConfig, st: EngineState, pending: PendingEntry, signal: Signal, bar: Bar, time: int)
    requires signal.ticker == bar.symbol
    ensures
      var st' := Enter(cfg, st, pending, signal, bar, time);
      && st' == st.(book := st'.book, journal := st'.journal)
      && SameElsewhere(st.book, st'.book, bar.symbol)
  {
    hide EntryCost, RiskOf;
  }

  predicate TickersMatch(pending: map<Symbol, PendingEntry>) {
    forall s :: s in pending ==> pending[s].signal.ticker == s
  }

  lemma LifecycleFrame(strat: Strategy, cfg: EngineConfig, st: EngineState, bar: Bar, time: int)
    requires TickersMatch(st.pendingEntry)
    ensures
      var st' := Lifecycle(strat, cfg, st, bar, time);
      && st' == st.(pendingEntry := st.pendingEntry - {bar.symbol}, pendingExit := st.pendingExit - {bar.symbol},
                    book := st'.book, trades := st'.trades, lockoutUntil := st'.lockoutUntil,
                    rejections := st'.rejections, journal := st'.journal, barsProcessed := st.barsProcessed + 1)
      && SameElsewhere(st.book, st'.book, bar.symbol)
      && (bar.symbol in st'.book.positions ==> bar.symbol in st.book.positions || strat.etDate(time) !in st.flattened)
  {
    hide FillExit, FillEntry;
    var st0 := st.(barsProcessed := st.barsProcessed + 1);
    FillExitFrame(cfg, st0, bar, time);
    FillEntryFrame(strat, cfg, FillExit(cfg, st0, bar, time), bar, time);
  }

  // ------------------------------------------------------------ every step grows

  lemma RecordGrows(cfg: EngineConfig, st: EngineState, book: Book, t: Option<Trade>, time: int)
    requires t.Some? ==> t.value.exitTime == time && t.value.reason != DataEnd
    ensures Grows(st, RecordIfAny(cfg, st.(book := book), t, time), time)
  {
  }

  lemma ExaminedTime(cfg: ExecutionConfig, b: Book, s: Symbol, time: int, high: real, low: real)
    ensures
      var r := Examined(cfg, b, s, time, high, low).1;
      r.Some? ==> r.value.exitTime == time && r.value.reason != DataEnd && r.value.reason != SignalExit
  {
  }

  lemma ExamineGrows(cfg: EngineConfig, st: EngineState, bar: Bar, time: int)
    ensures Grows(st, ExamineBar(cfg, st, bar, time), time)
  {
    var (book, t) := Examined(cfg.execution, st.book, bar.symbol, time, bar.high, bar.low);
    ExaminedTime(cfg.execution, st.book, bar.symbol, time, bar.high, bar.low);
    RecordGrows(cfg, st, book, t, time);
  }

  lemma CloseGrows(cfg: EngineConfig, st: EngineState, s: Symbol, time: int, price: real, reason: ExitReason, sig: Option<Signal>)
    requires reason != DataEnd
    ensures
      var (book, t) := Closed(cfg.execution, st.book, s, time, price, reason, sig);
      Grows(st, RecordIfAny(cfg, st.(book := book), t, time), time)
  {
    var (book, t) := Closed(cfg.execution, st.book, s, time, price, reason, sig);
    RecordGrows(cfg, st, book, t, time);
  }

  lemma FillExitGrows(cfg: EngineConfig, st: EngineState, bar: Bar, time: int)
    ensures Grows(st, FillExit(cfg, st, bar, time), time)
  {
    var s := bar.symbol;
    if s in st.pendingExit {
      var st' := st.(pendingExit := st.pendingExit - {s});
      CloseGrows(cfg, st', s, time, bar.open, SignalExit, Some(st.pendingExit[s]));
    }
  }

  lemma EnterGrows(cfg: EngineConfig, st: EngineState, pending: PendingEntry, signal: Signal, bar: Bar, time: int)
    ensures Grows(st, Enter(cfg, st, pending, signal, bar, time), time)
  {
  }

  lemma RejectGrows(st: EngineState, st': EngineState, s: Symbol, reason: Reason, time: int)
    requires SameLedgers(st, st')
    ensures Grows(st, Reject(st', s, reason, 1, time), time)
  {
  }

  lemma NoteGrows(st: EngineState, st': EngineState, e: Event, time: int)
    requires SameLedgers(st, st') && StampedAt(e, time)
    ensures Grows(st, Note(st', e), time)
  {
  }

  predicate SameLedgers(st: EngineState, st': EngineState) {
    st'.trades == st.trades && st'.rejections == st.rejections && st'.journal == st.journal && st'.flattened == st.flattened
  }

  lemma FilledGrows(cfg: EngineConfig, st: EngineState, st': EngineState, pending: PendingEntry, signal: Signal, bar: Bar, time: int)
    requires SameLedgers(st, st')
    ensures Grows(st, ExamineBar(cfg, Enter(cfg, st', pending, signal, bar, time), bar, time), time)
  {
    var entered := Enter(cfg, st', pending, signal, bar, time);
    EnterGrows(cfg, st', pending, signal, bar, time);
    hide Enter, ExamineBar;
    ExamineGrows(cfg, entered, bar, time);
    GrowsTransitive(st', entered, ExamineBar(cfg, entered, bar, time), time);
  }

  lemma FillEntryGrows(strat: Strategy, cfg: EngineConfig, st: EngineState, bar: Bar, time: int)
    ensures Grows(st, FillEntry(strat, cfg, st, bar, time), time)
  {
    hide ExamineBar, Enter, FinalizeFillGeometry, Reject, Note, Grows;
    var s := bar.symbol;
    if s !in st.pendingEntry {
      ExamineGrows(cfg, st, bar, time);
    } else {
      var pending := st.pendingEntry[s];
      var st' := st.(pendingEntry := st.pendingEntry - {s});
      var signal := FinalizeFillGeometry(cfg.quant, pending.signal, bar.open);
      RejectGrows(st, st', s, PostEodFlattenNoNewEntry, time);
      RejectGrows(st, st', s, GeometryInvalidatedAtFill, time);
      NoteGrows(st, st', SkippedWhileOpen(time, s, |History(st.market, s)|), time);
      if signal.Some? {
        FilledGrows(cfg, st, st', pending, signal.value, bar, time);
      }
    }
  }

  lemma LifecycleGrows(strat: Strategy, cfg: EngineConfig, st: EngineState, bar: Bar, time: int)
    ensures Grows(st, Lifecycle(strat, cfg, st, bar, time), time)
  {
    hide FillExit, FillEntry;
    var st0 := st.(barsProcessed := st.barsProcessed + 1);
    var st1 := FillExit(cfg, st0, bar, time);
    FillExitGrows(cfg, st0, bar, time);
    FillEntryGrows(strat, cfg, st1, bar, time);
    GrowsTransitive(st, st1, Lifecycle(strat, cfg, st, bar, time), time);
  }

  lemma ProcessBarGrows(strat: Strategy, cfg: EngineConfig, st: EngineState, bar: Bar, time: int)
    ensures Grows(st, ProcessBar(strat, cfg, st, bar, time).0, time)
  {
    var st1 := Lifecycle(strat, cfg, st, bar, time);
    var st2 := FeedMarketState(st1, bar, time);
    LifecycleGrows(strat, cfg, st, bar, time);
    assert Grows(st, st2, time);
    ScreenQuiet(strat, cfg, st2, bar.symbol, time);
    GrowsTransitive(st, st2, ProcessBar(strat, cfg, st, bar, time).0, time);
  }

  lemma {:induction false} ProcessBarsGrows(strat: Strategy, cfg: EngineConfig, st: EngineState, bars: seq<Bar>, time: int)
    ensures Grows(st, ProcessBars(strat, cfg, st, bars, time).0, time)
  {
    if bars != [] {
      var front := bars[..|bars| - 1];
      ProcessBarsGrows(strat, cfg, st, front, time);
      var st1 := ProcessBars(strat, cfg, st, front, time).0;
      ProcessBarGrows(strat, cfg, st1, bars[|bars| - 1], time);
      GrowsTransitive(st, st1, ProcessBars(strat, cfg, st, bars, time).0, time);
    }
  }

  lemma RouteGrows(st: EngineState, signal: Signal, score: real, time: int)
    ensures Grows(st, Route(st, signal, score, time), time)
  {
    var s := signal.ticker;
    if signal.direction.Bullish? {
      var st' := st.(pendingEntry := st.pendingEntry[s := PendingEntry(signal, score)]);
      assert Grows(st, st', time);
    } else if s in st.book.positions {
      var st' := st.(pendingExit := st.pendingExit[s := signal]);
      assert Grows(st, st', time);
    } else {
      assert Grows(st, Reject(st, s, NoActivePosition, 1, time), time);
    }
  }

  lemma ReleaseGrows(cfg: EngineConfig, st: EngineState, c: Scored, time: int)
    ensures Grows(st, Release(cfg, st, c, time), time)
  {
    hide Route, Revalidate;
    var s := c.signal.ticker;
    var r := Revalidate(cfg, st, c.signal);
    if !Active(st.cooldownUntil, s, time) && r.Valid? {
      var noted := Note(st, Publication(st, r.signal, time));
      assert Grows(st, noted, time);
      var st' := noted.(published := noted.published + 1,
                        cooldownUntil := noted.cooldownUntil[s := time + cfg.quant.cooldownSeconds]);
      RouteGrows(st', r.signal, c.score, time);
      GrowsTransitive(st, st', Route(st', r.signal, c.score, time), time);
    }
  }

  lemma {:induction false} ReleaseAllGrows(cfg: EngineConfig, st: EngineState, released: seq<Scored>, time: int)
    ensures Grows(st, ReleaseAll(cfg, st, released, time), time)
  {
    if released != [] {
      var front := released[..|released| - 1];
      ReleaseAllGrows(cfg, st, front, time);
      var st1 := ReleaseAll(cfg, st, front, time);
      ReleaseGrows(cfg, st1, released[|released| - 1], time);
      GrowsTransitive(st, st1, ReleaseAll(cfg, st, released, time), time);
    }
  }

  lemma {:induction false} RejectThrottledQuiet(st: EngineState, counts: seq<TickerCount>, time: int)
    ensures Quiet(st, RejectThrottled(st, counts, time), time)
    ensures RejectThrottled(st, counts, time).journal == st.journal
    ensures RejectThrottled(st, counts, time).generated == st.generated
  {
    if counts != [] {
      RejectThrottledQuiet(st, counts[..|counts| - 1], time);
      QuietTransitive(st, RejectThrottled(st, counts[..|counts| - 1], time), RejectThrottled(st, counts, time), time);
    }
  }

  lemma FlushGrows(strat: Strategy, cfg: EngineConfig, st: EngineState, candidates: seq<Signal>, time: int)
    ensures Grows(st, Flush(strat, cfg, st, candidates, time), time)
  {
    var ranked := Ranked(strat, candidates);
    var end := SliceEnd(|ranked|, cfg.quant.throttleMaxSignals);
    var st1 := ReleaseAll(cfg, st, ranked[..end], time);
    ReleaseAllGrows(cfg, st, ranked[..end], time);
    RejectThrottledQuiet(st1, CountByTicker(ranked[end..]), time);
    GrowsTransitive(st, st1, Flush(strat, cfg, st, candidates, time), time);
  }

  lemma {:induction false} ForceCloseAllGrows(cfg: EngineConfig, st: EngineState, symbols: seq<Symbol>, time: int)
    ensures Grows(st, ForceCloseAll(cfg, st, symbols, time), time)
  {
    if symbols != [] {
      var front := symbols[..|symbols| - 1];
      ForceCloseAllGrows(cfg, st, front, time);
      var st1 := ForceCloseAll(cfg, st, front, time);
      var s := symbols[|symbols| - 1];
      if s in st1.lastClose {
        CloseGrows(cfg, st1, s, time, st1.lastClose[s], EndOfSession, None);
      }
      GrowsTransitive(st, st1, ForceCloseAll(cfg, st, symbols, time), time);
    }
  }

  /** One minute extends the ledgers only with entries of that minute. */
  lemma StepGrows(strat: Strategy, cfg: EngineConfig, st: EngineState, m: Minute)
    ensures Grows(st, Step(strat, cfg, st, m), m.time)
  {
    var (st1, candidates) := ProcessBars(strat, cfg, st, m.bars, m.time);
    ProcessBarsGrows(strat, cfg, st, m.bars, m.time);
    var st2 := if candidates == [] then st1 else Flush(strat, cfg, st1, candidates, m.time);
    if candidates != [] {
      FlushGrows(strat, cfg, st1, candidates, m.time);
    }
    GrowsTransitive(st, st1, st2, m.time);
    if FlattenDue(strat, cfg, st2, m.time) {
      var st3 := st2.(flattened := st2.flattened + {strat.etDate(m.time)});
      ForceCloseAllGrows(cfg, st3, st2.book.order, m.time);
      GrowsTransitive(st, st2, st3, m.time);
      GrowsTransitive(st, st3, Step(strat, cfg, st, m), m.time);
    }
  }
}
