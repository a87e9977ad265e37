/** When instructions of one symbol meet: a publication that finds one waiting replaces it or joins
    it, and which configurations rule both out. */
module ReplayCollisions {
  import opened Sequences
  import opened Market
  import opened Geometry
  import opened Execution
  import opened Simulator
  import opened Replay
  import opened ReplayFrames
  import opened ReplayRuns
  import opened ReplayInstructions

  /** A publication of a symbol whose opposite instruction is still waiting: both wait from then on. */
  predicate Crosses(e: Event) {
    e.Published? && if e.signal.direction.Bullish? then e.exitWaiting else e.holding.Some? && e.entryWaiting
  }

  /** A publication that takes the place of an instruction of its own kind. */
  predicate Replaces(e: Event) {
    e.Published? && if e.signal.direction.Bullish? then e.entryWaiting else e.holding.Some? && e.exitWaiting
  }

  predicate NoCrossing(journal: seq<Event>) { forall e :: e in journal ==> !Crosses(e) }

  predicate NothingReplaced(journal: seq<Event>) { forall e :: e in journal ==> !Replaces(e) }

  /** No publication found any instruction of its symbol waiting. */
  predicate Unobstructed(journal: seq<Event>) {
    forall e :: e in journal && e.Published? ==> !e.entryWaiting && !e.exitWaiting
  }

  // ----------------------------------------------------------- the plain accounts

  /** Every publication was filled, refused, dropped, or is still waiting. */
  ghost predicate PlainlyAccounted(st: EngineState) {
    && Tally(st.journal, BullishPublication)
       == Tally(st.journal, Fill) + Refusals(st, PostEodFlattenNoNewEntry) + Refusals(st, GeometryInvalidatedAtFill)
          + Tally(st.journal, Skip) + |st.pendingEntry|
    && Tally(st.journal, BearishPublication)
       == Tally(st.trades, SignalExitTrade) + Refusals(st, NoActivePosition) + |st.pendingExit|
  }

  lemma {:induction false} TallyOfNone<T(!new)>(xs: seq<T>, weight: T -> int)
    requires forall x :: weight(x) >= 0
    ensures Tally(xs, weight) >= 0
    ensures Tally(xs, weight) == 0 <==> forall x :: x in xs ==> weight(x) == 0
  {
    if xs != [] {
      var front, last := xs[..|xs| - 1], xs[|xs| - 1];
      assert xs == front + [last];
      TallyOfNone(front, weight);
      TallyAppend(front, last, weight);
    }
  }

  /** No published signal goes without a fate of its own exactly when no publication replaced one that
      was still waiting. */
  lemma PlainlyAccountedExactly(strat: Strategy, cfg: EngineConfig, warmup: seq<Minute>, minutes: seq<Minute>)
    ensures
      var st := Play(strat, cfg, Warmup(INITIAL, warmup), minutes);
      PlainlyAccounted(st) <==> NothingReplaced(st.journal)
  {
    hide Play, Warmup, Tally, Refusals;
    var st := Play(strat, cfg, Warmup(INITIAL, warmup), minutes);
    EveryPublicationAccountedFor(strat, cfg, warmup, minutes);
    TallyOfNone(st.journal, ReplacedEntry);
    TallyOfNone(st.journal, ReplacedExit);
    assert forall e :: Replaces(e) <==> ReplacedEntry(e) != 0 || ReplacedExit(e) != 0;
  }

  // ---------------------------------------------------------------- one bar, one minute

  ghost predicate Unscheduled(st: EngineState, s: Symbol) { s !in st.pendingEntry && s !in st.pendingExit }

  /** `ys` continues `xs` without publishing anything. */
  predicate SamePublications(xs: seq<Event>, ys: seq<Event>) {
    xs <= ys && forall i :: |xs| <= i < |ys| ==> !ys[i].Published?
  }

  lemma SamePublicationsAgree(xs: seq<Event>, ys: seq<Event>)
    requires SamePublications(xs, ys)
    ensures NoCrossing(ys) <==> NoCrossing(xs)
    ensures Unobstructed(ys) <==> Unobstructed(xs)
  {
    forall e | e in ys && e.Published? ensures e in xs {
      var i :| 0 <= i < |ys| && ys[i] == e;
    }
    forall e | e in xs ensures e in ys {
      var i :| 0 <= i < |xs| && xs[i] == e;
      assert ys[i] == e;
    }
  }

  lemma EnteredPublishesNothing(cfg: EngineConfig, st: EngineState, pending: PendingEntry, signal: Signal, bar: Bar, time: int)
    ensures SamePublications(st.journal, ExamineBar(cfg, Enter(cfg, st, pending, signal, bar, time), bar, time).journal)
  {
    hide NewPosition, Opened, ExamineBar;
    ExamineFrame(cfg, Enter(cfg, st, pending, signal, bar, time), bar, time);
  }

  lemma RefusalsPublishNothing(st: EngineState, s: Symbol, reason: Reason, time: int, at: nat)
    ensures SamePublications(st.journal, Reject(st, s, reason, 1, time).journal)
    ensures SamePublications(st.journal, Note(st, SkippedWhileOpen(time, s, at)).journal)
  {
  }

  lemma FillEntryPublishesNothing(strat: Strategy, cfg: EngineConfig, st: EngineState, bar: Bar, time: int)
    ensures SamePublications(st.journal, FillEntry(strat, cfg, st, bar, time).journal)
  {
    hide ExamineBar, Enter, FinalizeFillGeometry, Reject, Note;
    var s := bar.symbol;
    if s !in st.pendingEntry {
      ExamineFrame(cfg, st, bar, time);
    } else {
      var pending := st.pendingEntry[s];
      var st' := st.(pendingEntry := st.pendingEntry - {s});
      var signal := FinalizeFillGeometry(cfg.quant, pending.signal, bar.open);
      hide SamePublications;
      RefusalsPublishNothing(st', s, PostEodFlattenNoNewEntry, time, |History(st.market, s)|);
      RefusalsPublishNothing(st', s, GeometryInvalidatedAtFill, time, |History(st.market, s)|);
      if signal.Some? {
        EnteredPublishesNothing(cfg, st', pending, signal.value, bar, time);
      }
    }
  }

  lemma LifecyclePublishesNothing(strat: Strategy, cfg: EngineConfig, st: EngineState, bar: Bar, time: int)
    ensures SamePublications(st.journal, Lifecycle(strat, cfg, st, bar, time).journal)
  {
    hide FillExit, FillEntry;
    var st0 := st.(barsProcessed := st.barsProcessed + 1);
    FillExitFrame(cfg, st0, bar, time);
    FillEntryPublishesNothing(strat, cfg, FillExit(cfg, st0, bar, time), bar, time);
  }

  /** A bar resolves the instructions of its own symbol, publishes nothing and leaves the cooldowns alone. */
  lemma ProcessBarResolves(strat: Strategy, cfg: EngineConfig, st: EngineState, bar: Bar, time: int)
    requires TickersMatch(st.pendingEntry)
    ensures
      var (st', found) := ProcessBar(strat, cfg, st, bar, time);
      && st'.pendingEntry == st.pendingEntry - {bar.symbol} && st'.pendingExit == st.pendingExit - {bar.symbol}
      && st'.cooldownUntil == st.cooldownUntil && SamePublications(st.journal, st'.journal)
      && (forall c :: c in found ==> c.ticker == bar.symbol)
  {
    hide Lifecycle, Screen;
    LifecycleFrame(strat, cfg, st, bar, time);
    LifecyclePublishesNothing(strat, cfg, st, bar, time);
    var st2 := FeedMarketState(Lifecycle(strat, cfg, st, bar, time), bar, time);
    ScreenQuiet(strat, cfg, st2, bar.symbol, time);
  }

  lemma {:induction false} ProcessBarsResolve(strat: Strategy, cfg: EngineConfig, st: EngineState, bars: seq<Bar>, time: int)
    requires TickersMatch(st.pendingEntry)
    ensures
      var (st', candidates) := ProcessBars(strat, cfg, st, bars, time);
      && TickersMatch(st'.pendingEntry) && st'.cooldownUntil == st.cooldownUntil && SamePublications(st.journal, st'.journal)
      && (forall s :: s in st'.pendingEntry ==> s in st.pendingEntry) && (forall s :: s in st'.pendingExit ==> s in st.pendingExit)
      && (forall c :: c in candidates ==> Unscheduled(st', c.ticker))
  {
    hide ProcessBar;
    if bars != [] {
      var front := bars[..|bars| - 1];
      ProcessBarsResolve(strat, cfg, st, front, time);
      ProcessBarResolves(strat, cfg, ProcessBars(strat, cfg, st, front, time).0, bars[|bars| - 1], time);
    }
  }

  // --------------------------------------------------------------- one instruction

  ghost predicate Agrees(st: EngineState) { OneInstruction(st) <==> NoCrossing(st.journal) }

  lemma RouteSchedules(cfg: EngineConfig, st: EngineState, signal: Signal, score: real, time: int)
    ensures
      var st' := Route(Armed(cfg, st, signal, time), signal, score, time);
      var s := signal.ticker;
      && st'.journal == st.journal + [Publication(st, signal, time)]
      && st'.pendingEntry == (if signal.direction.Bullish? then st.pendingEntry[s := PendingEntry(signal, score)] else st.pendingEntry)
      && st'.pendingExit == (if signal.direction.Bearish? && s in st.book.positions then st.pendingExit[s := signal] else st.pendingExit)
      && st'.cooldownUntil == st.cooldownUntil[s := time + cfg.quant.cooldownSeconds]
  {
    hide PositionTicket, Reject;
    RejectFields(Armed(cfg, st, signal, time), signal.ticker, NoActivePosition, 1, time);
  }

  lemma RouteJoins(cfg: EngineConfig, st: EngineState, signal: Signal, score: real, time: int)
    ensures
      var st' := Route(Armed(cfg, st, signal, time), signal, score, time);
      var e := Publication(st, signal, time);
      && st'.journal == st.journal + [e]
      && (TickersMatch(st.pendingEntry) ==> TickersMatch(st'.pendingEntry))
      && (OneInstruction(st') <==> OneInstruction(st) && !Crosses(e))
  {
    RouteSchedules(cfg, st, signal, score, time);
    hide PositionTicket, Route, Armed;
    var s := signal.ticker;
    var st' := Route(Armed(cfg, st, signal, time), signal, score, time);
    assert forall x :: x != s ==> (x in st'.pendingEntry <==> x in st.pendingEntry) && (x in st'.pendingExit <==> x in st.pendingExit);
    assert Crosses(Publication(st, signal, time)) ==> s in st'.pendingEntry && s in st'.pendingExit;
  }

  lemma ReleaseJoins(cfg: EngineConfig, st: EngineState, c: Scored, time: int)
    requires TickersMatch(st.pendingEntry) && Agrees(st)
    ensures var st' := Release(cfg, st, c, time); TickersMatch(st'.pendingEntry) && Agrees(st')
  {
    hide Revalidate, Release, Route, Armed, Crosses;
    ReleaseCases(cfg, st, c, time);
    var r := Revalidate(cfg, st, c.signal);
    if !Active(st.cooldownUntil, c.signal.ticker, time) && r.Valid? {
      RouteJoins(cfg, st, r.signal, c.score, time);
    }
  }

  lemma {:induction false} ReleaseAllJoins(cfg: EngineConfig, st: EngineState, released: seq<Scored>, time: int)
    requires TickersMatch(st.pendingEntry) && Agrees(st)
    ensures var st' := ReleaseAll(cfg, st, released, time); TickersMatch(st'.pendingEntry) && Agrees(st')
  {
    hide Release, Agrees, TickersMatch;
    if released != [] {
      ReleaseAllJoins(cfg, st, released[..|released| - 1], time);
      ReleaseJoins(cfg, ReleaseAll(cfg, st, released[..|released| - 1], time), released[|released| - 1], time);
    }
  }

  lemma SameInstructions(st: EngineState, st': EngineState)
    requires st'.pendingEntry == st.pendingEntry && st'.pendingExit == st.pendingExit && SamePublications(st.journal, st'.journal)
    ensures Agrees(st') <==> Agrees(st)
    ensures Unobstructed(st'.journal) <==> Unobstructed(st.journal)
  {
    SamePublicationsAgree(st.journal, st'.journal);
  }

  lemma QuietPublishesNothing(st: EngineState, st': EngineState, time: int)
    requires Quiet(st, st', time)
    ensures SamePublications(st.journal, st'.journal) && st'.pendingEntry == st.pendingEntry && st'.pendingExit == st.pendingExit
  {
  }

  lemma FlushSplits(strat: Strategy, cfg: EngineConfig, st: EngineState, candidates: seq<Signal>, time: int)
    ensures
      var ranked := Ranked(strat, candidates);
      var st1 := ReleaseAll(cfg, st, ranked[..SliceEnd(|ranked|, cfg.quant.throttleMaxSignals)], time);
      var st' := Flush(strat, cfg, st, candidates, time);
      SamePublications(st1.journal, st'.journal) && st'.pendingEntry == st1.pendingEntry && st'.pendingExit == st1.pendingExit
  {
    hide ReleaseAll, RejectThrottled, Ranked, Quiet;
    var ranked := Ranked(strat, candidates);
    var end := SliceEnd(|ranked|, cfg.quant.throttleMaxSignals);
    var st1 := ReleaseAll(cfg, st, ranked[..end], time);
    RejectThrottledQuiet(st1, CountByTicker(ranked[end..]), time);
    QuietPublishesNothing(st1, RejectThrottled(st1, CountByTicker(ranked[end..]), time), time);
  }

  lemma {:induction false} ForceCloseAllFrame(cfg: EngineConfig, st: EngineState, symbols: seq<Symbol>, time: int)
    ensures
      var st' := ForceCloseAll(cfg, st, symbols, time);
      st'.pendingEntry == st.pendingEntry && st'.pendingExit == st.pendingExit && st'.journal == st.journal
  {
    hide Closed, RecordIfAny;
    if symbols != [] {
      var st1 := ForceCloseAll(cfg, st, symbols[..|symbols| - 1], time);
      ForceCloseAllFrame(cfg, st, symbols[..|symbols| - 1], time);
      var s := symbols[|symbols| - 1];
      if s in st1.lastClose {
        var (book, t) := Closed(cfg.execution, st1.book, s, time, st1.lastClose[s], EndOfSession, None);
        RecordFields(cfg, st1.(book := book), t, time);
      }
    }
  }

  lemma FlattenKeepsInstructions(strat: Strategy, cfg: EngineConfig, st: EngineState, time: int)
    ensures
      var st' := FlattenIfDue(strat, cfg, st, time);
      st'.pendingEntry == st.pendingEntry && st'.pendingExit == st.pendingExit && st'.journal == st.journal
  {
    hide ForceCloseAll;
    ForceCloseAllFrame(cfg, st.(flattened := st.flattened + {strat.etDate(time)}), st.book.order, time);
  }

  lemma StepJoins(strat: Strategy, cfg: EngineConfig, st: EngineState, m: Minute)
    requires TickersMatch(st.pendingEntry)
    ensures
      var st' := Step(strat, cfg, st, m);
      TickersMatch(st'.pendingEntry) && (OneInstruction(st) && NoCrossing(st.journal) ==> Agrees(st'))
  {
    hide ProcessBars, ReleaseAll, Flush, FlattenIfDue, Ranked, NoCrossing;
    ProcessBarsResolve(strat, cfg, st, m.bars, m.time);
    var (st1, candidates) := ProcessBars(strat, cfg, st, m.bars, m.time);
    SamePublicationsAgree(st.journal, st1.journal);
    var st2 := if candidates == [] then st1 else Flush(strat, cfg, st1, candidates, m.time);
    FlattenKeepsInstructions(strat, cfg, st2, m.time);
    if candidates != [] {
      FlushKeepsTickers(strat, cfg, st1, candidates, m.time);
    }
    SameInstructions(st2, FlattenIfDue(strat, cfg, st2, m.time));
  }

  lemma FlushKeepsTickers(strat: Strategy, cfg: EngineConfig, st: EngineState, candidates: seq<Signal>, time: int)
    requires TickersMatch(st.pendingEntry)
    ensures
      var st' := Flush(strat, cfg, st, candidates, time);
      TickersMatch(st'.pendingEntry) && (Agrees(st) ==> Agrees(st'))
  {
    hide ReleaseAll, Flush, Ranked, Agrees, TickersMatch;
    FlushSplits(strat, cfg, st, candidates, time);
    var ranked := Ranked(strat, candidates);
    var released := ranked[..SliceEnd(|ranked|, cfg.quant.throttleMaxSignals)];
    ReleaseAllTickers(cfg, st, released, time);
    var st1 := ReleaseAll(cfg, st, released, time);
    if Agrees(st) {
      ReleaseAllJoins(cfg, st, released, time);
      SameInstructions(st1, Flush(strat, cfg, st, candidates, time));
    }
  }

  lemma {:induction false} ReleaseAllTickers(cfg: EngineConfig, st: EngineState, released: seq<Scored>, time: int)
    requires TickersMatch(st.pendingEntry)
    ensures TickersMatch(ReleaseAll(cfg, st, released, time).pendingEntry)
  {
    hide Release, Revalidate, Route, Armed;
    if released != [] {
      var front, c := released[..|released| - 1], released[|released| - 1];
      ReleaseAllTickers(cfg, st, front, time);
      var st1 := ReleaseAll(cfg, st, front, time);
      ReleaseCases(cfg, st1, c, time);
      var r := Revalidate(cfg, st1, c.signal);
      if r.Valid? {
        RouteJoins(cfg, st1, r.signal, c.score, time);
      }
    }
  }

  /** The state after the first `k` timestamps. */
  ghost function Reached(strat: Strategy, cfg: EngineConfig, warmup: seq<Minute>, minutes: seq<Minute>, k: nat): EngineState
    requires k <= |minutes|
  {
    Play(strat, cfg, Warmup(INITIAL, warmup), minutes[..k])
  }

  ghost predicate AlwaysOneInstruction(strat: Strategy, cfg: EngineConfig, warmup: seq<Minute>, minutes: seq<Minute>) {
    forall k :: 0 <= k <= |minutes| ==> OneInstruction(Reached(strat, cfg, warmup, minutes, k))
  }

  lemma ReachedFront(strat: Strategy, cfg: EngineConfig, warmup: seq<Minute>, minutes: seq<Minute>)
    requires minutes != []
    ensures
      var front := minutes[..|minutes| - 1];
      && (forall k :: 0 <= k <= |front| ==> Reached(strat, cfg, warmup, minutes, k) == Reached(strat, cfg, warmup, front, k))
      && Reached(strat, cfg, warmup, minutes, |minutes|)
         == Step(strat, cfg, Play(strat, cfg, Warmup(INITIAL, warmup), front), minutes[|minutes| - 1])
  {
    hide Step;
    var front := minutes[..|minutes| - 1];
    assert minutes[..|minutes|] == minutes;
    forall k | 0 <= k <= |front| ensures Reached(strat, cfg, warmup, minutes, k) == Reached(strat, cfg, warmup, front, k) {
      assert minutes[..k] == front[..k];
    }
  }

  lemma AlwaysSnoc(strat: Strategy, cfg: EngineConfig, warmup: seq<Minute>, minutes: seq<Minute>)
    requires minutes != []
    ensures
      var front := minutes[..|minutes| - 1];
      var st := Play(strat, cfg, Warmup(INITIAL, warmup), front);
      && (AlwaysOneInstruction(strat, cfg, warmup, minutes)
          <==> AlwaysOneInstruction(strat, cfg, warmup, front) && OneInstruction(Step(strat, cfg, st, minutes[|minutes| - 1])))
      && (AlwaysOneInstruction(strat, cfg, warmup, front) ==> OneInstruction(st))
  {
    hide Step, Play, Warmup, Reached, OneInstruction;
    var front := minutes[..|minutes| - 1];
    ReachedFront(strat, cfg, warmup, minutes);
    ReachedAll(strat, cfg, warmup, front);
    if AlwaysOneInstruction(strat, cfg, warmup, minutes) {
      assert OneInstruction(Reached(strat, cfg, warmup, minutes, |minutes|));
      forall k | 0 <= k <= |front| ensures OneInstruction(Reached(strat, cfg, warmup, front, k)) {
        assert OneInstruction(Reached(strat, cfg, warmup, minutes, k));
      }
    }
  }

  lemma ReachedAll(strat: Strategy, cfg: EngineConfig, warmup: seq<Minute>, minutes: seq<Minute>)
    ensures Reached(strat, cfg, warmup, minutes, |minutes|) == Play(strat, cfg, Warmup(INITIAL, warmup), minutes)
  {
    assert minutes[..|minutes|] == minutes;
  }

  lemma CrossingStep(always: bool, st: EngineState, st': EngineState)
    requires (always <==> NoCrossing(st.journal)) && (always ==> OneInstruction(st)) && st.journal <= st'.journal
    requires OneInstruction(st) && NoCrossing(st.journal) ==> Agrees(st')
    ensures always && OneInstruction(st') <==> NoCrossing(st'.journal)
  {
    hide OneInstruction, Crosses;
    forall e | e in st.journal ensures e in st'.journal {
      var i :| 0 <= i < |st.journal| && st.journal[i] == e;
      assert st'.journal[i] == e;
    }
  }

  /** At no timestamp does a symbol have both instructions waiting if and only if no publication ever
      crossed a waiting instruction of its symbol. */
  lemma {:induction false} OneInstructionExactly(strat: Strategy, cfg: EngineConfig, warmup: seq<Minute>, minutes: seq<Minute>)
    ensures
      var st := Play(strat, cfg, Warmup(INITIAL, warmup), minutes);
      && (AlwaysOneInstruction(strat, cfg, warmup, minutes) <==> NoCrossing(st.journal))
      && TickersMatch(st.pendingEntry)
  {
    if minutes == [] {
      WarmupMarketOnly(INITIAL, warmup);
      assert Reached(strat, cfg, warmup, minutes, 0) == Warmup(INITIAL, warmup);
    } else {
      hide Step, Warmup, Reached, OneInstruction, TickersMatch, NoCrossing, AlwaysOneInstruction, Agrees;
      var front, m := minutes[..|minutes| - 1], minutes[|minutes| - 1];
      OneInstructionExactly(strat, cfg, warmup, front);
      AlwaysSnoc(strat, cfg, warmup, minutes);
      var st := Play(strat, cfg, Warmup(INITIAL, warmup), front);
      StepJoins(strat, cfg, st, m);
      StepGrows(strat, cfg, st, m);
      CrossingStep(AlwaysOneInstruction(strat, cfg, warmup, front), st, Step(strat, cfg, st, m));
    }
  }

  // --------------------------------------------- configurations that keep them apart

  /** A candidate whose levels hold up survives its revalidation. */
  predicate CanPublish(qc: QuantConfig) { qc.maxCandidateAge >= 0.0 && qc.atrStopMultiplier > 0.0 }

  /** The throttle can release this many candidates; a negative limit counts from the end. */
  predicate LetsThrough(qc: QuantConfig, count: nat) { qc.throttleMaxSignals < 0 || qc.throttleMaxSignals >= count }

  /** Instructions can meet only if one flush can publish twice for a symbol: there is no positive
      cooldown, the throttle lets two candidates through, and candidates can be published at all. */
  predicate CanCollide(qc: QuantConfig) { qc.cooldownSeconds <= 0 && LetsThrough(qc, 2) && CanPublish(qc) }

  lemma ValidNeeds(cfg: EngineConfig, st: EngineState, signal: Signal)
    ensures Revalidate(cfg, st, signal).Valid? ==> CanPublish(cfg.quant)
  {
    if signal.atr.Some? && signal.atr.value > 0.0 {
      SignOfProduct(cfg.quant.atrStopMultiplier, signal.atr.value);
    }
  }

  /** Where nothing revalidates nothing is published. */
  lemma {:induction false} SilentReleases(cfg: EngineConfig, st: EngineState, released: seq<Scored>, time: int)
    requires !CanPublish(cfg.quant)
    ensures
      var st' := ReleaseAll(cfg, st, released, time);
      st'.journal == st.journal && st'.pendingEntry == st.pendingEntry
  {
    hide Release, Revalidate, Route, Armed;
    if released != [] {
      var front, c := released[..|released| - 1], released[|released| - 1];
      SilentReleases(cfg, st, front, time);
      var st1 := ReleaseAll(cfg, st, front, time);
      ReleaseCases(cfg, st1, c, time);
      ValidNeeds(cfg, st1, c.signal);
    }
  }

  /** A single release of a symbol with nothing waiting finds nothing waiting. */
  lemma SingleRelease(cfg: EngineConfig, st: EngineState, c: Scored, time: int)
    requires Unobstructed(st.journal) && Unscheduled(st, c.signal.ticker)
    ensures Unobstructed(Release(cfg, st, c, time).journal)
  {
    hide Revalidate, Release, Route, Armed;
    ReleaseCases(cfg, st, c, time);
    var r := Revalidate(cfg, st, c.signal);
    if !Active(st.cooldownUntil, c.signal.ticker, time) && r.Valid? {
      RouteSchedules(cfg, st, r.signal, c.score, time);
    }
  }

  lemma FewReleases(cfg: EngineConfig, st: EngineState, released: seq<Scored>, time: int)
    requires Unobstructed(st.journal) && |released| <= 1 && forall c :: c in released ==> Unscheduled(st, c.signal.ticker)
    ensures Unobstructed(ReleaseAll(cfg, st, released, time).journal)
  {
    hide Release, Unobstructed;
    if released != [] {
      assert released[..0] == [];
      SingleRelease(cfg, st, released[0], time);
    }
  }

  /** A symbol with an instruction waiting is on cooldown, so nothing can publish over it. */
  ghost predicate Guarded(st: EngineState, s: Symbol, time: int) {
    !Unscheduled(st, s) ==> Active(st.cooldownUntil, s, time)
  }

  lemma ReleaseIsGuarded(cfg: EngineConfig, st: EngineState, c: Scored, time: int, others: set<Symbol>)
    requires cfg.quant.cooldownSeconds > 0 && Unobstructed(st.journal)
    requires c.signal.ticker in others && forall s :: s in others ==> Guarded(st, s, time)
    ensures
      var st' := Release(cfg, st, c, time);
      Unobstructed(st'.journal) && forall s :: s in others ==> Guarded(st', s, time)
  {
    hide Revalidate, Release, Route, Armed;
    ReleaseCases(cfg, st, c, time);
    var r := Revalidate(cfg, st, c.signal);
    if !Active(st.cooldownUntil, c.signal.ticker, time) && r.Valid? {
      RouteJoins(cfg, st, r.signal, c.score, time);
      RouteSchedules(cfg, st, r.signal, c.score, time);
    }
  }

  lemma {:induction false} ReleaseAllGuarded(cfg: EngineConfig, st: EngineState, released: seq<Scored>, time: int, others: set<Symbol>)
    requires cfg.quant.cooldownSeconds > 0 && Unobstructed(st.journal)
    requires forall s :: s in others ==> Guarded(st, s, time)
    requires forall c :: c in released ==> c.signal.ticker in others
    ensures
      var st' := ReleaseAll(cfg, st, released, time);
      Unobstructed(st'.journal) && forall s :: s in others ==> Guarded(st', s, time)
  {
    hide Release, Guarded, Unobstructed;
    if released != [] {
      var front := released[..|released| - 1];
      ReleaseAllGuarded(cfg, st, front, time, others);
      ReleaseIsGuarded(cfg, ReleaseAll(cfg, st, front, time), released[|released| - 1], time, others);
    }
  }

  lemma FlushGuarded(strat: Strategy, cfg: EngineConfig, st: EngineState, candidates: seq<Signal>, time: int)
    requires !CanCollide(cfg.quant) && Unobstructed(st.journal)
    requires forall c :: c in candidates ==> Unscheduled(st, c.ticker)
    ensures Unobstructed(Flush(strat, cfg, st, candidates, time).journal)
  {
    hide ReleaseAll, Flush, Ranked, Unobstructed;
    FlushSplits(strat, cfg, st, candidates, time);
    RankedMembers(strat, candidates);
    var ranked := Ranked(strat, candidates);
    var released := ranked[..SliceEnd(|ranked|, cfg.quant.throttleMaxSignals)];
    if cfg.quant.cooldownSeconds > 0 {
      var others := set c | c in candidates :: c.ticker;
      ReleaseAllGuarded(cfg, st, released, time, others);
    } else if 0 <= cfg.quant.throttleMaxSignals <= 1 {
      FewReleases(cfg, st, released, time);
    } else {
      SilentReleases(cfg, st, released, time);
    }
    SamePublicationsAgree(ReleaseAll(cfg, st, released, time).journal, Flush(strat, cfg, st, candidates, time).journal);
  }

  lemma StepGuarded(strat: Strategy, cfg: EngineConfig, st: EngineState, m: Minute)
    requires !CanCollide(cfg.quant) && TickersMatch(st.pendingEntry) && Unobstructed(st.journal)
    ensures Unobstructed(Step(strat, cfg, st, m).journal)
  {
    hide ProcessBars, Flush, FlattenIfDue, Unobstructed, CanCollide;
    ProcessBarsResolve(strat, cfg, st, m.bars, m.time);
    var (st1, candidates) := ProcessBars(strat, cfg, st, m.bars, m.time);
    SamePublicationsAgree(st.journal, st1.journal);
    var st2 := if candidates == [] then st1 else Flush(strat, cfg, st1, candidates, m.time);
    if candidates != [] {
      FlushGuarded(strat, cfg, st1, candidates, m.time);
    }
    FlattenKeepsInstructions(strat, cfg, st2, m.time);
  }

  lemma {:induction false} RunsUnobstructed(strat: Strategy, cfg: EngineConfig, warmup: seq<Minute>, minutes: seq<Minute>)
    requires !CanCollide(cfg.quant)
    ensures Unobstructed(Play(strat, cfg, Warmup(INITIAL, warmup), minutes).journal)
  {
    if minutes == [] {
      WarmupMarketOnly(INITIAL, warmup);
    } else {
      hide Step, Warmup, AlwaysOneInstruction, TickersMatch, CanCollide;
      var front := minutes[..|minutes| - 1];
      RunsUnobstructed(strat, cfg, warmup, front);
      OneInstructionExactly(strat, cfg, warmup, front);
      StepGuarded(strat, cfg, Play(strat, cfg, Warmup(INITIAL, warmup), front), minutes[|minutes| - 1]);
    }
  }

  lemma UnobstructedMeans(journal: seq<Event>)
    requires Unobstructed(journal)
    ensures NothingReplaced(journal) && NoCrossing(journal)
  {
  }

  /** Under a configuration that cannot collide, in particular with a positive cooldown, no publication of
      any run finds an instruction of its symbol waiting, so nothing is replaced, and at no timestamp
      does a symbol have two instructions waiting. */
  lemma InstructionsStayApart(strat: Strategy, cfg: EngineConfig, warmup: seq<Minute>, minutes: seq<Minute>)
    requires !CanCollide(cfg.quant)
    ensures
      var st := Play(strat, cfg, Warmup(INITIAL, warmup), minutes);
      && Unobstructed(st.journal) && NothingReplaced(st.journal) && NoCrossing(st.journal)
      && PlainlyAccounted(st) && AlwaysOneInstruction(strat, cfg, warmup, minutes) && OneInstruction(st)
  {
    RunsUnobstructed(strat, cfg, warmup, minutes);
    OneInstructionExactly(strat, cfg, warmup, minutes);
    PlainlyAccountedExactly(strat, cfg, warmup, minutes);
    UnobstructedMeans(Play(strat, cfg, Warmup(INITIAL, warmup), minutes).journal);
    ReachedAll(strat, cfg, warmup, minutes);
    hide Play, Warmup, Reached, PlainlyAccounted, OneInstruction, CanCollide, Unobstructed, NothingReplaced, NoCrossing;
    assert AlwaysOneInstruction(strat, cfg, warmup, minutes) ==> OneInstruction(Reached(strat, cfg, warmup, minutes, |minutes|));
  }

  // ------------------------------------------------------------ collisions at a bar

  /** The bar's symbol is held, both its instructions wait, and the entry would be filled: the bar closes
      the position and opens the next one at the same instant. */
  predicate Collides(strat: Strategy, cfg: EngineConfig, st: EngineState, bar: Bar, time: int) {
    var s := bar.symbol;
    && s in st.book.positions && s in st.pendingExit && s in st.pendingEntry
    && strat.etDate(time) !in st.flattened && FinalizeFillGeometry(cfg.quant, st.pendingEntry[s].signal, bar.open).Some?
  }

  ghost predicate NoCollisionIn(strat: Strategy, cfg: EngineConfig, st: EngineState, bars: seq<Bar>, time: int) {
    forall i :: 0 <= i < |bars| ==> !Collides(strat, cfg, ProcessBars(strat, cfg, st, bars[..i], time).0, bars[i], time)
  }

  /** No bar of the run meets such a collision. */
  ghost predicate NoCollision(strat: Strategy, cfg: EngineConfig, warmup: seq<Minute>, minutes: seq<Minute>) {
    forall k :: 0 <= k < |minutes| ==>
      NoCollisionIn(strat, cfg, Reached(strat, cfg, warmup, minutes, k), minutes[k].bars, minutes[k].time)
  }

  lemma OneInstructionNoCollision(strat: Strategy, cfg: EngineConfig, st: EngineState, bars: seq<Bar>, time: int)
    requires TickersMatch(st.pendingEntry) && OneInstruction(st)
    ensures NoCollisionIn(strat, cfg, st, bars, time)
  {
    hide ProcessBars, FinalizeFillGeometry;
    forall i | 0 <= i < |bars| ensures !Collides(strat, cfg, ProcessBars(strat, cfg, st, bars[..i], time).0, bars[i], time) {
      ProcessBarsResolve(strat, cfg, st, bars[..i], time);
    }
  }

  lemma ConfigPreventsCollisions(strat: Strategy, cfg: EngineConfig, warmup: seq<Minute>, minutes: seq<Minute>)
    requires !CanCollide(cfg.quant)
    ensures NoCollision(strat, cfg, warmup, minutes)
  {
    hide Play, Warmup, OneInstruction, TickersMatch, NoCollisionIn, CanCollide;
    forall k | 0 <= k < |minutes|
      ensures NoCollisionIn(strat, cfg, Reached(strat, cfg, warmup, minutes, k), minutes[k].bars, minutes[k].time)
    {
      InstructionsStayApart(strat, cfg, warmup, minutes[..k]);
      OneInstructionExactly(strat, cfg, warmup, minutes[..k]);
      OneInstructionNoCollision(strat, cfg, Reached(strat, cfg, warmup, minutes, k), minutes[k].bars, minutes[k].time);
    }
  }
}
