/** Configurations under which no bar ever meets an open position with an entry waiting: every minute is
    swept, or nothing is ever published. */
module ReplaySkips {
  import opened Market
  import opened Execution
  import opened Simulator
  import opened Replay
  import opened ReplayFrames
  import opened ReplayDay
  import opened ReplayRuns
  import opened ReplayCollisions
  import opened ReplayStrikes

  /** No open position has an entry waiting. */
  ghost predicate NoneHeldAndWaiting(st: EngineState) {
    forall s :: s in st.book.positions ==> s !in st.pendingEntry
  }

  // ------------------------------------------------------------------ through a minute

  lemma EntryStaysApart(strat: Strategy, cfg: EngineConfig, st: EngineState, bar: Bar, time: int)
    requires NoneHeldAndWaiting(st)
    ensures NoSkips(st.journal, FillEntry(strat, cfg, st, bar, time).journal)
  {
    var s := bar.symbol;
    hide ExamineBar, FinalizeFillGeometry, Enter;
    if s !in st.pendingEntry {
      ExamineFrame(cfg, st, bar, time);
    } else {
      var pending := st.pendingEntry[s];
      var signal := FinalizeFillGeometry(cfg.quant, pending.signal, bar.open);
      if signal.Some? && strat.etDate(time) !in st.flattened {
        var st1 := st.(pendingEntry := st.pendingEntry - {s});
        EnterSkipsNothing(cfg, st1, pending, signal.value, bar, time);
        ExamineFrame(cfg, Enter(cfg, st1, pending, signal.value, bar, time), bar, time);
      }
    }
  }

  lemma EnterSkipsNothing(cfg: EngineConfig, st: EngineState, pending: PendingEntry, signal: Signal, bar: Bar, time: int)
    ensures NoSkips(st.journal, Enter(cfg, st, pending, signal, bar, time).journal)
  {
    hide NewPosition, Opened, PositionTicket;
  }

  lemma LifecycleSkipsNothing(strat: Strategy, cfg: EngineConfig, st: EngineState, bar: Bar, time: int)
    requires NoneHeldAndWaiting(st)
    ensures NoSkips(st.journal, Lifecycle(strat, cfg, st, bar, time).journal)
  {
    var st0 := st.(barsProcessed := st.barsProcessed + 1);
    LifecycleStages(strat, cfg, st, bar, time);
    FillExitFrame(cfg, st0, bar, time);
    hide FillExit, FillEntry, Lifecycle, NoSkips;
    EntryStaysApart(strat, cfg, FillExit(cfg, st0, bar, time), bar, time);
  }

  lemma LifecycleStaysApart(strat: Strategy, cfg: EngineConfig, st: EngineState, bar: Bar, time: int)
    requires TickersMatch(st.pendingEntry) && NoneHeldAndWaiting(st)
    ensures
      var st' := Lifecycle(strat, cfg, st, bar, time);
      TickersMatch(st'.pendingEntry) && NoneHeldAndWaiting(st')
  {
    LifecycleFrame(strat, cfg, st, bar, time);
    hide Lifecycle;
  }

  /** Resolving a bar consumes its own symbol's entry first, so it brings no open position and entry together. */
  lemma BarStaysApart(strat: Strategy, cfg: EngineConfig, st: EngineState, bar: Bar, time: int)
    requires TickersMatch(st.pendingEntry) && NoneHeldAndWaiting(st)
    ensures
      var st' := ProcessBar(strat, cfg, st, bar, time).0;
      TickersMatch(st'.pendingEntry) && NoneHeldAndWaiting(st') && NoSkips(st.journal, st'.journal)
  {
    LifecycleStaysApart(strat, cfg, st, bar, time);
    LifecycleSkipsNothing(strat, cfg, st, bar, time);
    ScreenedAside(strat, cfg, st, bar, time);
    hide Lifecycle, ProcessBar, TickersMatch;
  }

  lemma {:induction false} BarsStayApart(strat: Strategy, cfg: EngineConfig, st: EngineState, bars: seq<Bar>, time: int)
    requires TickersMatch(st.pendingEntry) && NoneHeldAndWaiting(st)
    ensures
      var st' := ProcessBars(strat, cfg, st, bars, time).0;
      TickersMatch(st'.pendingEntry) && NoneHeldAndWaiting(st') && NoSkips(st.journal, st'.journal)
  {
    hide ProcessBar, TickersMatch, NoneHeldAndWaiting;
    if bars != [] {
      var front := bars[..|bars| - 1];
      BarsStayApart(strat, cfg, st, front, time);
      BarStaysApart(strat, cfg, ProcessBars(strat, cfg, st, front, time).0, bars[|bars| - 1], time);
    }
  }

  lemma StepSkipsNothing(strat: Strategy, cfg: EngineConfig, st: EngineState, m: Minute)
    requires TickersMatch(st.pendingEntry) && NoneHeldAndWaiting(st)
    ensures NoSkips(st.journal, Step(strat, cfg, st, m).journal)
  {
    BarsStayApart(strat, cfg, st, m.bars, m.time);
    hide ProcessBars, Flush, FlattenIfDue, TickersMatch, NoneHeldAndWaiting;
    var (st1, candidates) := ProcessBars(strat, cfg, st, m.bars, m.time);
    FlushSkips(strat, cfg, st1, candidates, m.time);
    var st2 := if candidates == [] then st1 else Flush(strat, cfg, st1, candidates, m.time);
    SweepAside(strat, cfg, st2, m.time);
  }

  lemma SweepAside(strat: Strategy, cfg: EngineConfig, st: EngineState, time: int)
    ensures
      var st' := FlattenIfDue(strat, cfg, st, time);
      st'.journal == st.journal && st'.pendingEntry == st.pendingEntry && st'.pendingExit == st.pendingExit
  {
    hide ForceCloseAll;
    ForceCloseAllBook(cfg, st.(flattened := st.flattened + {strat.etDate(time)}), st.book.order, time);
  }

  // ------------------------------------------------------------------- swept every minute

  /** When the flatten time is midnight no position outlives its minute. */
  lemma SweptEveryMinute(strat: Strategy, cfg: EngineConfig, warmup: seq<Minute>, minutes: seq<Minute>)
    requires RealClock(strat) && AlwaysFlattens(cfg) && Chronological(minutes)
    ensures Play(strat, cfg, Warmup(INITIAL, warmup), minutes).book.positions == map[]
  {
    if minutes == [] {
      WarmupMarketOnly(INITIAL, warmup);
    } else {
      assert minutes[..|minutes|] == minutes;
      assert strat.etSecond(minutes[|minutes| - 1].time) >= cfg.flattenSecond;
      hide Play;
      FlatAfterSweep(strat, cfg, warmup, minutes, |minutes|);
    }
  }

  lemma ApartNeverCollides(strat: Strategy, cfg: EngineConfig, st: EngineState, bars: seq<Bar>, time: int)
    requires TickersMatch(st.pendingEntry) && NoneHeldAndWaiting(st)
    ensures NoCollisionIn(strat, cfg, st, bars, time)
  {
    hide ProcessBars, FinalizeFillGeometry;
    forall i | 0 <= i < |bars| ensures !Collides(strat, cfg, ProcessBars(strat, cfg, st, bars[..i], time).0, bars[i], time) {
      BarsStayApart(strat, cfg, st, bars[..i], time);
    }
  }

  lemma SweptMinutesNeverCollide(strat: Strategy, cfg: EngineConfig, warmup: seq<Minute>, minutes: seq<Minute>)
    requires RealClock(strat) && AlwaysFlattens(cfg) && Chronological(minutes)
    ensures NoCollision(strat, cfg, warmup, minutes)
  {
    hide Play, Warmup, TickersMatch, NoCollisionIn, RealClock, AlwaysFlattens;
    forall k | 0 <= k < |minutes|
      ensures NoCollisionIn(strat, cfg, Reached(strat, cfg, warmup, minutes, k), minutes[k].bars, minutes[k].time)
    {
      SweptEveryMinute(strat, cfg, warmup, minutes[..k]);
      RunTickersMatch(strat, cfg, warmup, minutes[..k]);
      ApartNeverCollides(strat, cfg, Reached(strat, cfg, warmup, minutes, k), minutes[k].bars, minutes[k].time);
    }
  }

  // ------------------------------------------------------------------- nothing published

  lemma SilentStep(strat: Strategy, cfg: EngineConfig, st: EngineState, m: Minute)
    requires !(CanPublish(cfg.quant) && LetsThrough(cfg.quant, 1)) && st.pendingEntry == map[]
    ensures Step(strat, cfg, st, m).pendingEntry == map[]
  {
    ProcessBarsResolve(strat, cfg, st, m.bars, m.time);
    hide ProcessBars, Flush, FlattenIfDue, Ranked, ReleaseAll, CanPublish, SamePublications;
    var (st1, candidates) := ProcessBars(strat, cfg, st, m.bars, m.time);
    assert st1.pendingEntry == map[];
    FlushSplits(strat, cfg, st1, candidates, m.time);
    var ranked := Ranked(strat, candidates);
    var released := ranked[..SliceEnd(|ranked|, cfg.quant.throttleMaxSignals)];
    SilentFlush(cfg, st1, released, m.time);
    SweepAside(strat, cfg, if candidates == [] then st1 else Flush(strat, cfg, st1, candidates, m.time), m.time);
  }

  lemma SilentFlush(cfg: EngineConfig, st: EngineState, released: seq<Scored>, time: int)
    requires released == [] || !CanPublish(cfg.quant)
    ensures ReleaseAll(cfg, st, released, time).pendingEntry == st.pendingEntry
  {
    if released != [] {
      SilentReleases(cfg, st, released, time);
    }
  }

  /** Whether every minute ends with no position, or with no entry waiting, whatever the data. */
  predicate NeverSkips(cfg: EngineConfig) {
    AlwaysFlattens(cfg) || !CanPublish(cfg.quant) || !LetsThrough(cfg.quant, 1)
  }

  lemma {:induction false} SilentRun(strat: Strategy, cfg: EngineConfig, warmup: seq<Minute>, minutes: seq<Minute>)
    requires !(CanPublish(cfg.quant) && LetsThrough(cfg.quant, 1))
    ensures Play(strat, cfg, Warmup(INITIAL, warmup), minutes).pendingEntry == map[]
  {
    if minutes == [] {
      WarmupMarketOnly(INITIAL, warmup);
    } else {
      hide Step, Warmup, CanPublish, LetsThrough;
      SilentRun(strat, cfg, warmup, minutes[..|minutes| - 1]);
      SilentStep(strat, cfg, Play(strat, cfg, Warmup(INITIAL, warmup), minutes[..|minutes| - 1]), minutes[|minutes| - 1]);
    }
  }

  lemma RunStaysApart(strat: Strategy, cfg: EngineConfig, warmup: seq<Minute>, minutes: seq<Minute>)
    requires NeverSkips(cfg) && RealClock(strat) && Chronological(minutes)
    ensures NoneHeldAndWaiting(Play(strat, cfg, Warmup(INITIAL, warmup), minutes))
  {
    hide Play, Warmup, CanPublish, LetsThrough, RealClock, AlwaysFlattens, Chronological;
    if AlwaysFlattens(cfg) {
      SweptEveryMinute(strat, cfg, warmup, minutes);
    } else {
      SilentRun(strat, cfg, warmup, minutes);
    }
  }

  /** Under such a configuration and a real clock no run skips a bar. */
  lemma {:induction false} RunSkipsNothing(strat: Strategy, cfg: EngineConfig, warmup: seq<Minute>, minutes: seq<Minute>)
    requires NeverSkips(cfg) && RealClock(strat) && Chronological(minutes)
    ensures NoSkips([], Play(strat, cfg, Warmup(INITIAL, warmup), minutes).journal)
  {
    if minutes == [] {
      WarmupMarketOnly(INITIAL, warmup);
    } else {
      hide Step, Warmup, CanPublish, LetsThrough, TickersMatch, RealClock, AlwaysFlattens, NeverSkips;
      var front := minutes[..|minutes| - 1];
      RunSkipsNothing(strat, cfg, warmup, front);
      RunTickersMatch(strat, cfg, warmup, front);
      RunStaysApart(strat, cfg, warmup, front);
      hide NoneHeldAndWaiting;
      StepSkipsNothing(strat, cfg, Play(strat, cfg, Warmup(INITIAL, warmup), front), minutes[|minutes| - 1]);
    }
  }
}
