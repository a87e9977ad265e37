/** End-of-day safety: once a New York date has been flattened nothing is open and nothing
    opens for the rest of it. */
module ReplayDay {
  import opened Sequences
  import opened Market
  import opened Execution
  import opened Simulator
  import opened Replay
  import opened ReplayFrames
  import opened ReplayLedger

  // --------------------------------------------- every open symbol has a price

  /** The sweep and the end of data can always price what is open, no earlier than its entry. */
  ghost predicate Priced(st: EngineState) {
    forall s :: s in st.book.positions ==>
      s in st.lastClose && s in st.lastTime && st.book.positions[s].entryTime <= st.lastTime[s]
  }

  lemma LedgerTickers(st: EngineState, before: int, announced: int)
    requires LedgerInv(st, before, announced)
    ensures TickersMatch(st.pendingEntry)
    ensures forall s :: s in st.book.positions ==> st.book.positions[s].entryTime < before
    ensures forall s :: s in st.book.positions <==> s in st.book.order
  {
    hide SoundTrade, SoundEntry, Announced, Bracketed, BookTickets;
  }

  lemma ProcessBarPriced(strat: Strategy, cfg: EngineConfig, st: EngineState, bar: Bar, time: int)
    requires LedgerInv(st, time + 1, time) && Priced(st)
    ensures Priced(ProcessBar(strat, cfg, st, bar, time).0)
  {
    hide LedgerInv, Lifecycle, Screen;
    var st1 := Lifecycle(strat, cfg, st, bar, time);
    LedgerTickers(st, time + 1, time);
    LifecycleFrame(strat, cfg, st, bar, time);
    ProcessBarKeepsLedger(strat, cfg, st, bar, time);
    var st2 := FeedMarketState(st1, bar, time);
    ScreenQuiet(strat, cfg, st2, bar.symbol, time);
    var st3 := ProcessBar(strat, cfg, st, bar, time).0;
    assert st3.book == st1.book && st3.lastClose == st2.lastClose && st3.lastTime == st2.lastTime;
    LedgerTickers(st3, time + 1, time);
  }

  lemma {:induction false} ProcessBarsPriced(strat: Strategy, cfg: EngineConfig, st: EngineState, bars: seq<Bar>, time: int)
    requires LedgerInv(st, time + 1, time) && Priced(st)
    ensures Priced(ProcessBars(strat, cfg, st, bars, time).0)
  {
    hide ProcessBar, LedgerInv, Priced;
    if bars != [] {
      var front := bars[..|bars| - 1];
      ProcessBarsPriced(strat, cfg, st, front, time);
      ProcessBarsKeepsLedger(strat, cfg, st, front, time);
      ProcessBarPriced(strat, cfg, ProcessBars(strat, cfg, st, front, time).0, bars[|bars| - 1], time);
    }
  }

  /** The throttle publishes and schedules; it never touches positions, prices or flattened dates. */
  ghost predicate ThrottleOnly(st: EngineState, st': EngineState) {
    st' == st.(pendingEntry := st'.pendingEntry, pendingExit := st'.pendingExit, cooldownUntil := st'.cooldownUntil,
               published := st'.published, rejections := st'.rejections, journal := st'.journal)
  }

  lemma ReleaseThrottleOnly(cfg: EngineConfig, st: EngineState, c: Scored, time: int)
    ensures ThrottleOnly(st, Release(cfg, st, c, time))
  {
    hide Revalidate, Route;
    var r := Revalidate(cfg, st, c.signal);
    if r.Valid? {
      var noted := Note(st, Publication(st, r.signal, time));
      RouteThrottleOnly(noted.(published := noted.published + 1,
                               cooldownUntil := noted.cooldownUntil[c.signal.ticker := time + cfg.quant.cooldownSeconds]),
                        r.signal, c.score, time);
    }
  }

  lemma RouteThrottleOnly(st: EngineState, signal: Signal, score: real, time: int)
    ensures ThrottleOnly(st, Route(st, signal, score, time))
  {
    var s := signal.ticker;
    if signal.direction.Bullish? {
      var st' := st.(pendingEntry := st.pendingEntry[s := PendingEntry(signal, score)]);
      assert ThrottleOnly(st, st');
    } else if s in st.book.positions {
      var st' := st.(pendingExit := st.pendingExit[s := signal]);
      assert ThrottleOnly(st, st');
    }
  }

  lemma {:induction false} ReleaseAllThrottleOnly(cfg: EngineConfig, st: EngineState, released: seq<Scored>, time: int)
    ensures ThrottleOnly(st, ReleaseAll(cfg, st, released, time))
  {
    hide Release;
    if released != [] {
      ReleaseAllThrottleOnly(cfg, st, released[..|released| - 1], time);
      ReleaseThrottleOnly(cfg, ReleaseAll(cfg, st, released[..|released| - 1], time), released[|released| - 1], time);
    }
  }

  lemma FlushThrottleOnly(strat: Strategy, cfg: EngineConfig, st: EngineState, candidates: seq<Signal>, time: int)
    ensures ThrottleOnly(st, Flush(strat, cfg, st, candidates, time))
  {
    hide ReleaseAll, RejectThrottled;
    var ranked := Ranked(strat, candidates);
    var end := SliceEnd(|ranked|, cfg.quant.throttleMaxSignals);
    ReleaseAllThrottleOnly(cfg, st, ranked[..end], time);
    RejectThrottledQuiet(ReleaseAll(cfg, st, ranked[..end], time), CountByTicker(ranked[end..]), time);
  }

  /** The sweep removes each listed symbol that has a price, and touches no other. */
  lemma {:induction false} ForceCloseAllBook(cfg: EngineConfig, st: EngineState, symbols: seq<Symbol>, time: int)
    ensures
      var st' := ForceCloseAll(cfg, st, symbols, time);
      && st' == st.(book := st'.book, trades := st'.trades, lockoutUntil := st'.lockoutUntil)
      && (forall x :: x in st'.book.positions ==>
            x in st.book.positions && st'.book.positions[x] == st.book.positions[x] && (x in symbols ==> x !in st.lastClose))
  {
    hide Closed, RecordIfAny;
    if symbols != [] {
      var front := symbols[..|symbols| - 1];
      ForceCloseAllBook(cfg, st, front, time);
      var st1 := ForceCloseAll(cfg, st, front, time);
      var s := symbols[|symbols| - 1];
      if s in st1.lastClose {
        var (book, t) := Closed(cfg.execution, st1.book, s, time, st1.lastClose[s], EndOfSession, None);
        ClosedElsewhere(cfg.execution, st1.book, s, time, st1.lastClose[s], EndOfSession, None);
        RecordFields(cfg, st1.(book := book), t, time);
      }
      assert symbols == front + [s];
    }
  }

  lemma StepPriced(strat: Strategy, cfg: EngineConfig, st: EngineState, m: Minute)
    requires LedgerInv(st, m.time, m.time) && Priced(st)
    ensures Priced(Step(strat, cfg, st, m))
  {
    hide LedgerInv, ProcessBars, Flush, ForceCloseAll;
    LedgerWeaken(st, m.time, m.time, m.time + 1, m.time);
    ProcessBarsPriced(strat, cfg, st, m.bars, m.time);
    var (st1, candidates) := ProcessBars(strat, cfg, st, m.bars, m.time);
    FlushThrottleOnly(strat, cfg, st1, candidates, m.time);
    var st2 := if candidates == [] then st1 else Flush(strat, cfg, st1, candidates, m.time);
    if FlattenDue(strat, cfg, st2, m.time) {
      ForceCloseAllBook(cfg, st2.(flattened := st2.flattened + {strat.etDate(m.time)}), st2.book.order, m.time);
    }
  }

  // ------------------------------------------------------------- flattened dates

  /** Later instants never fall on an earlier calendar date. */
  ghost predicate CalendarMonotone(strat: Strategy) {
    forall a, b :: a <= b ==> strat.etDate(a) <= strat.etDate(b)
  }

  /** A calendar as clocks show it: dates never go back, and seconds of the day stay within a day. */
  ghost predicate RealClock(strat: Strategy) {
    CalendarMonotone(strat) && forall t :: 0 <= strat.etSecond(t) < 86400
  }

  /** A flatten time of midnight: under any real clock the sweep is due on the first bar of every date. */
  predicate AlwaysFlattens(cfg: EngineConfig) { cfg.eodFlattenEnabled && cfg.flattenSecond <= 0 }

  ghost predicate DayInv(strat: Strategy, st: EngineState, last: int) {
    && (forall d :: d in st.flattened ==> d <= strat.etDate(last))
    && (strat.etDate(last) in st.flattened ==> st.book.positions == map[])
  }

  lemma {:induction false} NoEntryOnFlattenedDate(strat: Strategy, cfg: EngineConfig, st: EngineState, bars: seq<Bar>, time: int)
    requires LedgerInv(st, time + 1, time)
    ensures
      var st' := ProcessBars(strat, cfg, st, bars, time).0;
      && st'.flattened == st.flattened
      && (strat.etDate(time) in st.flattened ==> forall s :: s in st'.book.positions ==> s in st.book.positions)
  {
    hide LedgerInv, ProcessBar;
    if bars != [] {
      var front := bars[..|bars| - 1];
      NoEntryOnFlattenedDate(strat, cfg, st, front, time);
      ProcessBarsKeepsLedger(strat, cfg, st, front, time);
      NoEntryInBar(strat, cfg, ProcessBars(strat, cfg, st, front, time).0, bars[|bars| - 1], time);
    }
  }

  lemma NoEntryInBar(strat: Strategy, cfg: EngineConfig, st: EngineState, bar: Bar, time: int)
    requires LedgerInv(st, time + 1, time)
    ensures
      var st' := ProcessBar(strat, cfg, st, bar, time).0;
      && st'.flattened == st.flattened
      && (strat.etDate(time) in st.flattened ==> forall s :: s in st'.book.positions ==> s in st.book.positions)
  {
    hide LedgerInv, Lifecycle, Screen;
    LedgerTickers(st, time + 1, time);
    LifecycleFrame(strat, cfg, st, bar, time);
    var st2 := FeedMarketState(Lifecycle(strat, cfg, st, bar, time), bar, time);
    ScreenQuiet(strat, cfg, st2, bar.symbol, time);
  }

  lemma StepKeepsDay(strat: Strategy, cfg: EngineConfig, st: EngineState, m: Minute, last: int)
    requires CalendarMonotone(strat) && last < m.time
    requires LedgerInv(st, m.time, m.time) && Priced(st) && DayInv(strat, st, last)
    ensures DayInv(strat, Step(strat, cfg, st, m), m.time)
    ensures Step(strat, cfg, st, m).flattened
         == st.flattened + if cfg.eodFlattenEnabled && strat.etSecond(m.time) >= cfg.flattenSecond then {strat.etDate(m.time)} else {}
  {
    hide LedgerInv, ProcessBars, Flush, ForceCloseAll;
    var today := strat.etDate(m.time);
    assert strat.etDate(last) <= today;
    LedgerWeaken(st, m.time, m.time, m.time + 1, m.time);
    NoEntryOnFlattenedDate(strat, cfg, st, m.bars, m.time);
    ProcessBarsPriced(strat, cfg, st, m.bars, m.time);
    ProcessBarsKeepsLedger(strat, cfg, st, m.bars, m.time);
    var (st1, candidates) := ProcessBars(strat, cfg, st, m.bars, m.time);
    LedgerTickers(st1, m.time + 1, m.time);
    FlushThrottleOnly(strat, cfg, st1, candidates, m.time);
    var st2 := if candidates == [] then st1 else Flush(strat, cfg, st1, candidates, m.time);
    if today in st.flattened {
      assert st2.book.positions == map[];
    } else if FlattenDue(strat, cfg, st2, m.time) {
      var st3 := st2.(flattened := st2.flattened + {today});
      ForceCloseAllBook(cfg, st3, st2.book.order, m.time);
      assert ForceCloseAll(cfg, st3, st2.book.order, m.time).book.positions == map[];
    }
  }
}
