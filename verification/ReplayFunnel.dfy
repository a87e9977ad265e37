/** The candidate funnel: every generated signal is published, refused for a recorded reason, or
    dropped beside an eligible sibling, and no signal is counted twice. */
module ReplayFunnel {
  import opened Sequences
  import opened Market
  import opened Execution
  import opened Simulator
  import opened Replay
  import opened ReplayFrames
  import opened ReplayLedger
  import opened ReplayDay
  import opened ReplayRuns
  import opened ReplayInstructions

  /** Reasons that turn generated signals away before publication. A bar refused by the volatility
      gate has generated none. */
  predicate TurnsSignalsAway(r: Reason) { PrePublication(r) && !r.LowVolatility? && !r.LowVolatilityRegime? }

  function TurnedAway(r: Rejection): int { if TurnsSignalsAway(r.reason) then r.count else 0 }

  function Vanished(e: Event): int { if e.DroppedBesideSibling? then e.count else 0 }

  /** Generated signals whose fate is still undecided. */
  function Undecided(st: EngineState): int {
    st.generated - st.published - Tally(st.rejections, TurnedAway) - Tally(st.journal, Vanished)
  }

  lemma RejectDecides(st: EngineState, s: Symbol, reason: Reason, count: nat, time: int)
    ensures Undecided(Reject(st, s, reason, count, time))
         == Undecided(st) - (if TurnsSignalsAway(reason) then count else 0)
  {
  }

  lemma NoteDecides(st: EngineState, e: Event)
    ensures Undecided(Note(st, e)) == Undecided(st) - Vanished(e)
  {
  }

  lemma SameUndecided(st: EngineState, st': EngineState)
    requires st'.generated == st.generated && st'.published == st.published
    requires st'.rejections == st.rejections && st'.journal == st.journal
    ensures Undecided(st') == Undecided(st)
  {
  }

  // --------------------------------------------------------------- the lifecycle

  lemma FillExitUndecided(cfg: EngineConfig, st: EngineState, bar: Bar, time: int)
    ensures Undecided(FillExit(cfg, st, bar, time)) == Undecided(st)
  {
    hide RecordIfAny, Closed, Undecided;
    var s := bar.symbol;
    if s in st.pendingExit {
      var st' := st.(pendingExit := st.pendingExit - {s});
      SameUndecided(st, st');
      if s in st.book.positions {
        var (book, t) := Closed(cfg.execution, st.book, s, time, bar.open, SignalExit, Some(st.pendingExit[s]));
        RecordFields(cfg, st'.(book := book), t, time);
        SameUndecided(st, FillExit(cfg, st, bar, time));
      } else {
        RejectDecides(st', s, NoActivePosition, 1, time);
      }
    }
  }

  lemma FillEntryUndecided(strat: Strategy, cfg: EngineConfig, st: EngineState, bar: Bar, time: int)
    ensures Undecided(FillEntry(strat, cfg, st, bar, time)) == Undecided(st)
  {
    hide ExamineBar, FinalizeFillGeometry, NewPosition, Opened, Undecided, Reject, Note;
    var s := bar.symbol;
    if s !in st.pendingEntry {
      ExamineFrame(cfg, st, bar, time);
      SameUndecided(st, ExamineBar(cfg, st, bar, time));
    } else {
      var pending := st.pendingEntry[s];
      var st' := st.(pendingEntry := st.pendingEntry - {s});
      var signal := FinalizeFillGeometry(cfg.quant, pending.signal, bar.open);
      SameUndecided(st, st');
      if strat.etDate(time) in st.flattened {
        RejectDecides(st', s, PostEodFlattenNoNewEntry, 1, time);
      } else if s in st.book.positions {
        NoteDecides(st', SkippedWhileOpen(time, s, |History(st.market, s)|));
      } else if signal.None? {
        RejectDecides(st', s, GeometryInvalidatedAtFill, 1, time);
      } else {
        var p := NewPosition(cfg.execution, signal.value, time, bar.open, Some(pending.score));
        var filled := st'.(book := Opened(st'.book, p));
        SameUndecided(st', filled);
        NoteDecides(filled, Entered(PositionTicket(p), pending.signal));
        var entered := Enter(cfg, st', pending, signal.value, bar, time);
        ExamineFrame(cfg, entered, bar, time);
        SameUndecided(entered, ExamineBar(cfg, entered, bar, time));
      }
    }
  }

  lemma LifecycleUndecided(strat: Strategy, cfg: EngineConfig, st: EngineState, bar: Bar, time: int)
    ensures Undecided(Lifecycle(strat, cfg, st, bar, time)) == Undecided(st)
  {
    hide FillExit, FillEntry;
    var st0 := st.(barsProcessed := st.barsProcessed + 1);
    FillExitUndecided(cfg, st0, bar, time);
    FillEntryUndecided(strat, cfg, FillExit(cfg, st0, bar, time), bar, time);
  }

  // ------------------------------------------------------------------ screening

  lemma {:induction false} SieveAllDecides(cfg: EngineConfig, st: EngineState, gates: seq<Gate>, signals: seq<Signal>, s: Symbol, time: int)
    ensures
      var (st', found) := SieveAll(cfg, st, gates, signals, s, time);
      Undecided(st') - |found| == Undecided(st) - |signals|
    decreases |gates|
  {
    hide Undecided, Kept;
    if gates != [] {
      var (st', kept) := Sieve(cfg, st, gates[0], signals, s, time);
      SieveDecides(cfg, st, gates[0], signals, s, time);
      SieveAllDecides(cfg, st', gates[1..], kept, s, time);
    }
  }

  lemma SieveDecides(cfg: EngineConfig, st: EngineState, g: Gate, signals: seq<Signal>, s: Symbol, time: int)
    ensures
      var (st', kept) := Sieve(cfg, st, g, signals, s, time);
      Undecided(st') - |kept| == Undecided(st) - |signals|
  {
    hide Undecided, Filter;
    RejectDecides(st, s, GateReason(g), |signals| - |Kept(cfg.quant, g, signals)|, time);
  }

  lemma ScreenConfluenceDecides(cfg: EngineConfig, st: EngineState, signals: seq<Signal>, s: Symbol, time: int)
    ensures
      var (st', found) := ScreenConfluence(cfg, st, signals, s, time);
      Undecided(st') - |found| == Undecided(st) - |signals|
  {
    hide Undecided, SieveAll, Note, Filter;
    var eligible := Eligible(cfg.quant, signals);
    if eligible == [] {
      RejectDecides(st, s, LowConfluence, |signals|, time);
    } else {
      var e := DroppedBesideSibling(|signals| - |eligible|);
      NoteDecides(st, e);
      SieveAllDecides(cfg, Note(st, e), LATE_GATES, eligible, s, time);
    }
  }

  lemma ScreenClocksDecides(cfg: EngineConfig, st: EngineState, signals: seq<Signal>, s: Symbol, time: int)
    ensures
      var (st', found) := ScreenClocks(cfg, st, signals, s, time);
      Undecided(st') - |found| == Undecided(st) - |signals|
  {
    hide Undecided, ScreenConfluence;
    RejectDecides(st, s, LossLockout, |signals|, time);
    RejectDecides(st, s, Cooldown, |signals|, time);
    ScreenConfluenceDecides(cfg, st, signals, s, time);
  }

  lemma ScreenSessionDecides(cfg: EngineConfig, st: EngineState, blackout: Blackout, signals: seq<Signal>, s: Symbol, time: int)
    requires signals != []
    ensures
      var (st', found) := ScreenSession(cfg, st, blackout, signals, s, time);
      Undecided(st') - |found| == Undecided(st) - |signals|
  {
    hide Undecided, ScreenClocks, Sieve;
    RejectDecides(st, s, UsMarketSessionClosed, |signals|, time);
    RejectDecides(st, s, OpeningBlackout, |signals|, time);
    if blackout.Closing? {
      var (st', kept) := Sieve(cfg, st, BlackoutGate, signals, s, time);
      SieveDecides(cfg, st, BlackoutGate, signals, s, time);
      ScreenClocksDecides(cfg, st', kept, s, time);
    } else {
      ScreenClocksDecides(cfg, st, signals, s, time);
    }
  }

  /** Screening a bar leaves undecided exactly the candidates it hands to the throttle. */
  lemma ScreenDecides(strat: Strategy, cfg: EngineConfig, st: EngineState, s: Symbol, time: int)
    requires s in st.market
    ensures
      var (st', found) := Screen(strat, cfg, st, s, time);
      Undecided(st') - |found| == Undecided(st)
  {
    hide ScreenSession, Reject;
    var e := strat.evaluate(s, st.market[s]);
    if e.Ready? && e.gateFails {
      RejectDecides(st, s, if cfg.quant.regimeGate then LowVolatilityRegime else LowVolatility, 1, time);
    } else if e.Ready? {
      var signals := Stamped(e.signals, s);
      if signals != [] {
        ScreenSessionDecides(cfg, st.(generated := st.generated + |signals|), e.blackout, signals, s, time);
      }
    }
  }

  /** What a candidate has been through when it reaches the throttle. */
  ghost predicate PassedEveryGate(qc: QuantConfig, c: Signal) {
    ConfluenceEligible(qc, c) && forall g :: g in LATE_GATES ==> Passes(qc, g, c)
  }

  lemma {:induction false} SievedPass(cfg: EngineConfig, st: EngineState, gates: seq<Gate>, signals: seq<Signal>, s: Symbol, time: int, c: Signal)
    requires c in SieveAll(cfg, st, gates, signals, s, time).1
    ensures c in signals && forall g :: g in gates ==> Passes(cfg.quant, g, c)
    decreases |gates|
  {
    hide Passes;
    if gates != [] {
      var (st', kept) := Sieve(cfg, st, gates[0], signals, s, time);
      SievedPass(cfg, st', gates[1..], kept, s, time, c);
      assert Passing(cfg.quant, gates[0])(c);
      assert gates == [gates[0]] + gates[1..];
    }
  }

  /** Candidates reach the throttle only from the strategy's own output for an open session, through
      every gate in turn, never long in the closing blackout and never at all in the opening one. */
  lemma CandidatesPassedEveryGate(strat: Strategy, cfg: EngineConfig, st: EngineState, s: Symbol, time: int, c: Signal)
    requires s in st.market && c in Screen(strat, cfg, st, s, time).1
    ensures
      var e := strat.evaluate(s, st.market[s]);
      && e.Ready? && !e.gateFails && c in Stamped(e.signals, s) && c.ticker == s
      && PassedEveryGate(cfg.quant, c)
      && !e.blackout.Opening? && (e.blackout.Closing? ==> !c.direction.Bullish?)
      && !Stamped(e.signals, s)[0].session.ClosedSession?
  {
    hide PassedEveryGate, ScreenClocks, Sieve, Passes;
    var e := strat.evaluate(s, st.market[s]);
    var signals := Stamped(e.signals, s);
    var st1 := st.(generated := st.generated + |signals|);
    if e.blackout.Closing? {
      var (st2, kept) := Sieve(cfg, st1, BlackoutGate, signals, s, time);
      ClockedPassEveryGate(cfg, st2, kept, s, time, c);
      KeptPasses(cfg, st1, BlackoutGate, signals, s, time, c);
      BlackoutRefusesLongs(cfg.quant, c);
    } else {
      ClockedPassEveryGate(cfg, st1, signals, s, time, c);
    }
  }

  lemma KeptPasses(cfg: EngineConfig, st: EngineState, g: Gate, signals: seq<Signal>, s: Symbol, time: int, c: Signal)
    requires c in Sieve(cfg, st, g, signals, s, time).1
    ensures c in signals && Passes(cfg.quant, g, c)
  {
    assert Passing(cfg.quant, g)(c);
  }

  /** What comes through the clocks and the confluence stage has passed every gate. */
  lemma ClockedPassEveryGate(cfg: EngineConfig, st: EngineState, signals: seq<Signal>, s: Symbol, time: int, c: Signal)
    requires c in ScreenClocks(cfg, st, signals, s, time).1
    ensures c in signals && PassedEveryGate(cfg.quant, c)
  {
    hide Passes, SieveAll, ConfluenceEligible;
    var eligible := Eligible(cfg.quant, signals);
    SievedPass(cfg, Note(st, DroppedBesideSibling(|signals| - |eligible|)), LATE_GATES, eligible, s, time, c);
    assert Confluent(cfg.quant)(c);
  }

  lemma BlackoutRefusesLongs(qc: QuantConfig, c: Signal)
    ensures Passes(qc, BlackoutGate, c) <==> !c.direction.Bullish?
  {
  }

  lemma {:induction false} ProcessBarsDecides(strat: Strategy, cfg: EngineConfig, st: EngineState, bars: seq<Bar>, time: int)
    ensures
      var (st', candidates) := ProcessBars(strat, cfg, st, bars, time);
      Undecided(st') - |candidates| == Undecided(st)
  {
    hide Lifecycle, Screen, Undecided;
    if bars != [] {
      var front := bars[..|bars| - 1];
      var bar := bars[|bars| - 1];
      ProcessBarsDecides(strat, cfg, st, front, time);
      var st1 := ProcessBars(strat, cfg, st, front, time).0;
      LifecycleUndecided(strat, cfg, st1, bar, time);
      var st2 := FeedMarketState(Lifecycle(strat, cfg, st1, bar, time), bar, time);
      SameUndecided(Lifecycle(strat, cfg, st1, bar, time), st2);
      ScreenDecides(strat, cfg, st2, bar.symbol, time);
    }
  }

  // ------------------------------------------------------------------- throttle

  lemma RouteDecides(st: EngineState, signal: Signal, score: real, time: int)
    ensures Undecided(Route(st, signal, score, time)) == Undecided(st)
  {
    hide Undecided, Reject;
    var s := signal.ticker;
    if signal.direction.Bullish? {
      SameUndecided(st, st.(pendingEntry := st.pendingEntry[s := PendingEntry(signal, score)]));
    } else if s in st.book.positions {
      SameUndecided(st, st.(pendingExit := st.pendingExit[s := signal]));
    } else {
      RejectDecides(st, s, NoActivePosition, 1, time);
    }
  }

  lemma RevalidationTurnsAway(cfg: EngineConfig, st: EngineState, signal: Signal)
    ensures var r := Revalidate(cfg, st, signal); r.Refused? ==> TurnsSignalsAway(r.reason)
  {
    hide CheckRatio;
  }

  /** Each released candidate is decided exactly once. */
  lemma ReleaseDecides(cfg: EngineConfig, st: EngineState, c: Scored, time: int)
    ensures Undecided(Release(cfg, st, c, time)) == Undecided(st) - 1
  {
    hide Revalidate, Route, Tally, Reject;
    var s := c.signal.ticker;
    var r := Revalidate(cfg, st, c.signal);
    RevalidationTurnsAway(cfg, st, c.signal);
    if Active(st.cooldownUntil, s, time) {
      RejectDecides(st, s, Cooldown, 1, time);
    } else if r.Refused? {
      RejectDecides(st, s, r.reason, 1, time);
    } else {
      var noted := Note(st, Publication(st, r.signal, time));
      NoteDecides(st, Publication(st, r.signal, time));
      RouteDecides(noted.(published := noted.published + 1,
                          cooldownUntil := noted.cooldownUntil[s := time + cfg.quant.cooldownSeconds]),
                   r.signal, c.score, time);
    }
  }

  lemma {:induction false} ReleaseAllDecides(cfg: EngineConfig, st: EngineState, released: seq<Scored>, time: int)
    ensures Undecided(ReleaseAll(cfg, st, released, time)) == Undecided(st) - |released|
  {
    hide Release, Undecided;
    if released != [] {
      ReleaseAllDecides(cfg, st, released[..|released| - 1], time);
      ReleaseDecides(cfg, ReleaseAll(cfg, st, released[..|released| - 1], time), released[|released| - 1], time);
    }
  }

  function CountOf(c: TickerCount): int { c.count }

  lemma {:induction false} TallyFromFront<T>(xs: seq<T>, weight: T -> int)
    requires xs != []
    ensures Tally(xs, weight) == weight(xs[0]) + Tally(xs[1..], weight)
  {
    assert xs == [xs[0]] + xs[1..];
    TallyConcat([xs[0]], xs[1..], weight);
    assert [xs[0]][..0] == [];
  }

  lemma {:induction false} BumpAddsOne(counts: seq<TickerCount>, s: Symbol)
    ensures Tally(Bump(counts, s), CountOf) == Tally(counts, CountOf) + 1
  {
    if counts == [] {
      assert [TickerCount(s, 1)][..0] == [];
    } else {
      TallyFromFront(counts, CountOf);
      TallyFromFront(Bump(counts, s), CountOf);
      if counts[0].ticker != s {
        assert Bump(counts, s)[1..] == Bump(counts[1..], s);
        BumpAddsOne(counts[1..], s);
      }
    }
  }

  /** The per-ticker counts add up to the number of dropped candidates. */
  lemma {:induction false} CountsCoverDropped(dropped: seq<Scored>)
    ensures Tally(CountByTicker(dropped), CountOf) == |dropped|
  {
    if dropped != [] {
      CountsCoverDropped(dropped[..|dropped| - 1]);
      BumpAddsOne(CountByTicker(dropped[..|dropped| - 1]), dropped[|dropped| - 1].signal.ticker);
    }
  }

  function Names(counts: seq<TickerCount>): set<Symbol> {
    if counts == [] then {} else {counts[0].ticker} + Names(counts[1..])
  }

  /** One entry per ticker. */
  predicate DistinctTickers(counts: seq<TickerCount>) {
    counts == [] || (counts[0].ticker !in Names(counts[1..]) && DistinctTickers(counts[1..]))
  }

  function Reported(counts: seq<TickerCount>, s: Symbol): nat {
    if counts == [] then 0 else if counts[0].ticker == s then counts[0].count else Reported(counts[1..], s)
  }

  lemma {:induction false} BumpCounts(counts: seq<TickerCount>, s: Symbol, x: Symbol)
    requires DistinctTickers(counts)
    ensures Names(Bump(counts, s)) == Names(counts) + {s} && DistinctTickers(Bump(counts, s))
    ensures Reported(Bump(counts, s), x) == Reported(counts, x) + (if x == s then 1 else 0)
  {
    if counts != [] {
      var rest := if counts[0].ticker == s then counts[1..] else Bump(counts[1..], s);
      assert Bump(counts, s)[1..] == rest;
      if counts[0].ticker != s {
        BumpCounts(counts[1..], s, x);
      }
    }
  }

  function OfTicker(s: Symbol): Scored -> bool { (c: Scored) => c.signal.ticker == s }

  /** Each ticker is reported once, with the number of its own dropped candidates. */
  lemma {:induction false} CountsAreExact(dropped: seq<Scored>, s: Symbol)
    ensures DistinctTickers(CountByTicker(dropped))
    ensures Reported(CountByTicker(dropped), s) == |Filter(dropped, OfTicker(s))|
  {
    if dropped != [] {
      var front := dropped[..|dropped| - 1];
      var last := dropped[|dropped| - 1];
      assert dropped == front + [last];
      CountsAreExact(front, s);
      BumpCounts(CountByTicker(front), last.signal.ticker, s);
      FilterConcat(front, [last], OfTicker(s));
      assert [last][1..] == [];
    }
  }

  lemma {:induction false} RejectThrottledDecides(st: EngineState, counts: seq<TickerCount>, time: int)
    ensures Undecided(RejectThrottled(st, counts, time)) == Undecided(st) - Tally(counts, CountOf)
  {
    hide Undecided, Reject;
    if counts != [] {
      var last := counts[|counts| - 1];
      RejectThrottledDecides(st, counts[..|counts| - 1], time);
      RejectDecides(RejectThrottled(st, counts[..|counts| - 1], time), last.ticker, Throttle, last.count, time);
    }
  }

  /** A flush decides every candidate handed to it. */
  lemma FlushDecides(strat: Strategy, cfg: EngineConfig, st: EngineState, candidates: seq<Signal>, time: int)
    ensures Undecided(Flush(strat, cfg, st, candidates, time)) == Undecided(st) - |candidates|
  {
    hide Undecided, Ranked, ReleaseAll, RejectThrottled, CountByTicker;
    var ranked := Ranked(strat, candidates);
    RankedMembers(strat, candidates);
    var end := SliceEnd(|ranked|, cfg.quant.throttleMaxSignals);
    ReleaseAllDecides(cfg, st, ranked[..end], time);
    RejectThrottledDecides(ReleaseAll(cfg, st, ranked[..end], time), CountByTicker(ranked[end..]), time);
    CountsCoverDropped(ranked[end..]);
  }

  lemma StepDecides(strat: Strategy, cfg: EngineConfig, st: EngineState, m: Minute)
    ensures Undecided(Step(strat, cfg, st, m)) == Undecided(st)
  {
    hide Undecided, ProcessBars, Flush, ForceCloseAll;
    ProcessBarsDecides(strat, cfg, st, m.bars, m.time);
    var (st1, candidates) := ProcessBars(strat, cfg, st, m.bars, m.time);
    FlushDecides(strat, cfg, st1, candidates, m.time);
    var st2 := if candidates == [] then st1 else Flush(strat, cfg, st1, candidates, m.time);
    if FlattenDue(strat, cfg, st2, m.time) {
      var st3 := st2.(flattened := st2.flattened + {strat.etDate(m.time)});
      ForceCloseAllBook(cfg, st3, st2.book.order, m.time);
      SameUndecided(st2, ForceCloseAll(cfg, st3, st2.book.order, m.time));
    }
  }

  lemma {:induction false} PlayDecides(strat: Strategy, cfg: EngineConfig, warmup: seq<Minute>, minutes: seq<Minute>)
    ensures Undecided(Play(strat, cfg, Warmup(INITIAL, warmup), minutes)) == 0
  {
    hide Step;
    WarmupMarketOnly(INITIAL, warmup);
    if minutes != [] {
      PlayDecides(strat, cfg, warmup, minutes[..|minutes| - 1]);
      StepDecides(strat, cfg, Play(strat, cfg, Warmup(INITIAL, warmup), minutes[..|minutes| - 1]), minutes[|minutes| - 1]);
    }
  }

  /** In every run the signals generated are exactly those published, those counted under a
      pre-publication reason, and those dropped beside an eligible sibling. */
  lemma FunnelBalances(strat: Strategy, cfg: EngineConfig, warmup: seq<Minute>, minutes: seq<Minute>)
    requires Chronological(minutes)
    ensures
      var r := Run(strat, cfg, warmup, minutes);
      r.Completed? ==>
        r.state.generated
        == r.state.published + Tally(r.state.rejections, TurnedAway) + Tally(r.state.journal, Vanished)
  {
    hide LedgerInv, Play, Priced;
    if minutes != [] {
      var st := Play(strat, cfg, Warmup(INITIAL, warmup), minutes);
      PlayDecides(strat, cfg, warmup, minutes);
      PlayKeepsLedger(strat, cfg, warmup, minutes);
      CloseAllAtDataEndKeepsLedger(cfg, st, st.book.order, minutes[|minutes| - 1].time + 1);
    }
  }
}
