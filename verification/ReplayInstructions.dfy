/** Scheduled instructions, the accounting of published signals, and when instructions collide. */
module ReplayInstructions {
  import opened Sequences
  import opened Market
  import opened Execution
  import opened Simulator
  import opened Replay
  import opened ReplayFrames
  import opened ReplayLedger
  import opened ReplayRuns

  // -------------------------------------------------------------------- weights

  function BullishPublication(e: Event): int { if e.Published? && e.signal.direction.Bullish? then 1 else 0 }
  function BearishPublication(e: Event): int { if e.Published? && e.signal.direction.Bearish? then 1 else 0 }
  function Fill(e: Event): int { if e.Entered? then 1 else 0 }
  function Skip(e: Event): int { if e.SkippedWhileOpen? then 1 else 0 }
  /** A publication that takes the place of an instruction of its own kind still waiting. */
  function ReplacedEntry(e: Event): int { if e.Published? && e.signal.direction.Bullish? && e.entryWaiting then 1 else 0 }
  function ReplacedExit(e: Event): int {
    if e.Published? && e.signal.direction.Bearish? && e.holding.Some? && e.exitWaiting then 1 else 0
  }
  function SignalExitTrade(t: Trade): int { if t.reason.SignalExit? then 1 else 0 }
  function CountFor(reason: Reason): Rejection -> int { (r: Rejection) => if r.reason == reason then r.count else 0 }

  function Refusals(st: EngineState, reason: Reason): int { Tally(st.rejections, CountFor(reason)) }

  /** Every bullish publication is accounted for: filled, refused after the sweep, refused for its
      geometry, dropped because a position was open, replaced by a later one, or still waiting. */
  ghost predicate EntriesBalance(st: EngineState) {
    Tally(st.journal, BullishPublication)
    == Tally(st.journal, Fill) + Refusals(st, PostEodFlattenNoNewEntry) + Refusals(st, GeometryInvalidatedAtFill)
       + Tally(st.journal, Skip) + |st.pendingEntry| + Tally(st.journal, ReplacedEntry)
  }

  /** Every bearish publication is accounted for: it closed a long, found none, was replaced by a later
      one, or is still waiting. */
  ghost predicate ExitsBalance(st: EngineState) {
    Tally(st.journal, BearishPublication)
    == Tally(st.trades, SignalExitTrade) + Refusals(st, NoActivePosition) + |st.pendingExit| + Tally(st.journal, ReplacedExit)
  }

  ghost predicate PublishedBalance(st: EngineState) {
    st.published == Tally(st.journal, BullishPublication) + Tally(st.journal, BearishPublication)
  }

  ghost predicate Accounted(st: EngineState) {
    EntriesBalance(st) && ExitsBalance(st) && PublishedBalance(st)
  }

  /** No symbol has more than one instruction waiting. */
  ghost predicate OneInstruction(st: EngineState) {
    forall s :: !(s in st.pendingEntry && s in st.pendingExit)
  }

  // ------------------------------------------------------------- lifecycle steps

  lemma RejectTallies(st: EngineState, s: Symbol, reason: Reason, time: int)
    ensures forall counted :: Refusals(Reject(st, s, reason, 1, time), counted)
                           == Refusals(st, counted) + (if reason == counted then 1 else 0)
  {
  }

  lemma NoteTallies(journal: seq<Event>, e: Event)
    ensures Tally(journal + [e], BullishPublication) == Tally(journal, BullishPublication) + BullishPublication(e)
    ensures Tally(journal + [e], BearishPublication) == Tally(journal, BearishPublication) + BearishPublication(e)
    ensures Tally(journal + [e], Fill) == Tally(journal, Fill) + Fill(e)
    ensures Tally(journal + [e], Skip) == Tally(journal, Skip) + Skip(e)
    ensures Tally(journal + [e], ReplacedEntry) == Tally(journal, ReplacedEntry) + ReplacedEntry(e)
    ensures Tally(journal + [e], ReplacedExit) == Tally(journal, ReplacedExit) + ReplacedExit(e)
  {
  }

  lemma RecordTally(cfg: EngineConfig, st: EngineState, t: Option<Trade>, time: int)
    ensures
      var st' := RecordIfAny(cfg, st, t, time);
      && st' == st.(trades := st'.trades, lockoutUntil := st'.lockoutUntil)
      && Tally(st'.trades, SignalExitTrade) == Tally(st.trades, SignalExitTrade)
           + (if t.Some? && t.value.reason.SignalExit? then 1 else 0)
  {
  }

  /** A scheduled exit consumed with one signal exit or one refusal, and nothing else counted. */
  ghost predicate ExitTallied(st: EngineState, st': EngineState, s: Symbol) {
    && st'.pendingExit == st.pendingExit - {s} && st'.pendingEntry == st.pendingEntry
    && st'.journal == st.journal && st'.published == st.published
    && Refusals(st', PostEodFlattenNoNewEntry) == Refusals(st, PostEodFlattenNoNewEntry)
    && Refusals(st', GeometryInvalidatedAtFill) == Refusals(st, GeometryInvalidatedAtFill)
    && Tally(st'.trades, SignalExitTrade) + Refusals(st', NoActivePosition)
       == Tally(st.trades, SignalExitTrade) + Refusals(st, NoActivePosition) + 1
  }

  lemma ExitConsumed(st: EngineState, st': EngineState, s: Symbol)
    requires Accounted(st) && s in st.pendingExit && ExitTallied(st, st', s)
    ensures Accounted(st')
  {
  }

  lemma SignalExitTallies(cfg: EngineConfig, st: EngineState, bar: Bar, time: int)
    requires bar.symbol in st.pendingExit && bar.symbol in st.book.positions
    ensures ExitTallied(st, FillExit(cfg, st, bar, time), bar.symbol)
  {
    hide RecordIfAny, CloseTrade, Tally, Refusals;
    var s := bar.symbol;
    var sig := Some(st.pendingExit[s]);
    var st' := st.(pendingExit := st.pendingExit - {s});
    var (book, t) := Closed(cfg.execution, st.book, s, time, bar.open, SignalExit, sig);
    CloseTradeFacts(cfg.execution, st.book.positions[s], time, bar.open, SignalExit, sig);
    RecordTally(cfg, st'.(book := book), t, time);
    SameRefusals(st, RecordIfAny(cfg, st'.(book := book), t, time));
  }

  lemma NoPositionTallies(cfg: EngineConfig, st: EngineState, bar: Bar, time: int)
    requires bar.symbol in st.pendingExit && bar.symbol !in st.book.positions
    ensures ExitTallied(st, FillExit(cfg, st, bar, time), bar.symbol)
  {
    hide Tally, Refusals;
    var st' := st.(pendingExit := st.pendingExit - {bar.symbol});
    SameRefusals(st, st');
    RejectTallies(st', bar.symbol, NoActivePosition, time);
  }

  lemma FillExitAccounts(cfg: EngineConfig, st: EngineState, bar: Bar, time: int)
    requires Accounted(st)
    ensures Accounted(FillExit(cfg, st, bar, time))
  {
    hide Accounted, ExitTallied, Refusals, Tally, Closed, RecordIfAny;
    if bar.symbol in st.pendingExit {
      if bar.symbol in st.book.positions {
        SignalExitTallies(cfg, st, bar, time);
      } else {
        NoPositionTallies(cfg, st, bar, time);
      }
      ExitConsumed(st, FillExit(cfg, st, bar, time), bar.symbol);
    }
  }

  lemma RejectFields(st: EngineState, s: Symbol, reason: Reason, count: nat, time: int)
    ensures Reject(st, s, reason, count, time) == st.(rejections := Reject(st, s, reason, count, time).rejections)
  {
  }

  lemma ExamineAccounts(cfg: EngineConfig, st: EngineState, bar: Bar, time: int)
    requires Accounted(st)
    ensures Accounted(ExamineBar(cfg, st, bar, time))
  {
    hide RecordIfAny, Examined, Tally;
    var (book, t) := Examined(cfg.execution, st.book, bar.symbol, time, bar.high, bar.low);
    ExaminedTime(cfg.execution, st.book, bar.symbol, time, bar.high, bar.low);
    RecordTally(cfg, st.(book := book), t, time);
  }

  /** Consuming a scheduled entry balances when it books one opening, one skip or one refusal. */
  lemma EntryConsumed(st: EngineState, st': EngineState, s: Symbol)
    requires Accounted(st) && s in st.pendingEntry
    requires st'.pendingEntry == st.pendingEntry - {s} && st'.pendingExit == st.pendingExit
    requires st'.trades == st.trades && st'.published == st.published
    requires Tally(st'.journal, BullishPublication) == Tally(st.journal, BullishPublication)
    requires Tally(st'.journal, BearishPublication) == Tally(st.journal, BearishPublication)
    requires Tally(st'.journal, ReplacedEntry) == Tally(st.journal, ReplacedEntry)
    requires Tally(st'.journal, ReplacedExit) == Tally(st.journal, ReplacedExit)
    requires Refusals(st', NoActivePosition) == Refusals(st, NoActivePosition)
    requires
      Tally(st'.journal, Fill) + Tally(st'.journal, Skip)
      + Refusals(st', PostEodFlattenNoNewEntry) + Refusals(st', GeometryInvalidatedAtFill)
      == Tally(st.journal, Fill) + Tally(st.journal, Skip)
         + Refusals(st, PostEodFlattenNoNewEntry) + Refusals(st, GeometryInvalidatedAtFill) + 1
    ensures Accounted(st')
  {
  }

  lemma NotedEntryConsumed(st: EngineState, st': EngineState, s: Symbol, e: Event)
    requires Accounted(st) && s in st.pendingEntry && (e.Entered? || e.SkippedWhileOpen?)
    requires st' == st.(pendingEntry := st.pendingEntry - {s}, journal := st.journal + [e], book := st'.book)
    ensures Accounted(st')
  {
  }

  lemma RefusedEntryConsumed(st: EngineState, s: Symbol, reason: Reason, time: int)
    requires Accounted(st) && s in st.pendingEntry && (reason.PostEodFlattenNoNewEntry? || reason.GeometryInvalidatedAtFill?)
    ensures Accounted(Reject(st.(pendingEntry := st.pendingEntry - {s}), s, reason, 1, time))
  {
    hide Tally, Accounted, Refusals;
    var st' := st.(pendingEntry := st.pendingEntry - {s});
    SameRefusals(st, st');
    RejectTallies(st', s, reason, time);
    EntryConsumed(st, Reject(st', s, reason, 1, time), s);
  }

  lemma FillEntryAccounts(strat: Strategy, cfg: EngineConfig, st: EngineState, bar: Bar, time: int)
    requires Accounted(st)
    ensures Accounted(FillEntry(strat, cfg, st, bar, time))
  {
    hide ExamineBar, FinalizeFillGeometry, NewPosition, Opened, Accounted, Reject;
    var s := bar.symbol;
    if s !in st.pendingEntry {
      ExamineAccounts(cfg, st, bar, time);
    } else {
      var pending := st.pendingEntry[s];
      var st' := st.(pendingEntry := st.pendingEntry - {s});
      var signal := FinalizeFillGeometry(cfg.quant, pending.signal, bar.open);
      if strat.etDate(time) in st.flattened {
        RefusedEntryConsumed(st, s, PostEodFlattenNoNewEntry, time);
      } else if s in st.book.positions {
        NotedEntryConsumed(st, Note(st', SkippedWhileOpen(time, s, |History(st.market, s)|)), s, SkippedWhileOpen(time, s, |History(st.market, s)|));
      } else if signal.None? {
        RefusedEntryConsumed(st, s, GeometryInvalidatedAtFill, time);
      } else {
        var p := NewPosition(cfg.execution, signal.value, time, bar.open, Some(pending.score));
        var entered := Enter(cfg, st', pending, signal.value, bar, time);
        NotedEntryConsumed(st, entered, s, Entered(PositionTicket(p), pending.signal));
        ExamineAccounts(cfg, entered, bar, time);
      }
    }
  }

  lemma QuietTallies(st: EngineState, st': EngineState, time: int)
    requires Quiet(st, st', time)
    ensures forall r :: !PrePublication(r) ==> Refusals(st', r) == Refusals(st, r)
    ensures Tally(st'.journal, BullishPublication) == Tally(st.journal, BullishPublication)
    ensures Tally(st'.journal, BearishPublication) == Tally(st.journal, BearishPublication)
    ensures Tally(st'.journal, Fill) == Tally(st.journal, Fill)
    ensures Tally(st'.journal, Skip) == Tally(st.journal, Skip)
    ensures Tally(st'.journal, ReplacedEntry) == Tally(st.journal, ReplacedEntry)
    ensures Tally(st'.journal, ReplacedExit) == Tally(st.journal, ReplacedExit)
  {
    forall r | !PrePublication(r) ensures Refusals(st', r) == Refusals(st, r) {
      TallyIgnores(st.rejections, st'.rejections, CountFor(r));
    }
    TallyIgnores(st.journal, st'.journal, BullishPublication);
    TallyIgnores(st.journal, st'.journal, BearishPublication);
    TallyIgnores(st.journal, st'.journal, Fill);
    TallyIgnores(st.journal, st'.journal, Skip);
    TallyIgnores(st.journal, st'.journal, ReplacedEntry);
    TallyIgnores(st.journal, st'.journal, ReplacedExit);
  }

  lemma QuietAccounts(st: EngineState, st': EngineState, time: int)
    requires Accounted(st) && Quiet(st, st', time)
    ensures Accounted(st')
  {
    hide Refusals, Tally;
    QuietTallies(st, st', time);
  }

  lemma ProcessBarAccounts(strat: Strategy, cfg: EngineConfig, st: EngineState, bar: Bar, time: int)
    requires Accounted(st)
    ensures Accounted(ProcessBar(strat, cfg, st, bar, time).0)
  {
    hide FillExit, FillEntry, Screen, Refusals, Tally;
    var st0 := st.(barsProcessed := st.barsProcessed + 1);
    assert Accounted(st0) by { SameAccounts(st, st0); }
    FillExitAccounts(cfg, st0, bar, time);
    FillEntryAccounts(strat, cfg, FillExit(cfg, st0, bar, time), bar, time);
    var st1 := Lifecycle(strat, cfg, st, bar, time);
    var st2 := FeedMarketState(st1, bar, time);
    SameAccounts(st1, st2);
    ScreenQuiet(strat, cfg, st2, bar.symbol, time);
    QuietAccounts(st2, Screen(strat, cfg, st2, bar.symbol, time).0, time);
  }

  lemma SameAccounts(st: EngineState, st': EngineState)
    requires Accounted(st)
    requires st'.journal == st.journal && st'.rejections == st.rejections && st'.published == st.published
    requires st'.pendingEntry == st.pendingEntry && st'.pendingExit == st.pendingExit
    requires Tally(st'.trades, SignalExitTrade) == Tally(st.trades, SignalExitTrade)
    ensures Accounted(st')
  {
  }

  lemma {:induction false} ProcessBarsAccounts(strat: Strategy, cfg: EngineConfig, st: EngineState, bars: seq<Bar>, time: int)
    requires Accounted(st)
    ensures Accounted(ProcessBars(strat, cfg, st, bars, time).0)
  {
    hide ProcessBar, Accounted;
    if bars != [] {
      var front := bars[..|bars| - 1];
      ProcessBarsAccounts(strat, cfg, st, front, time);
      ProcessBarAccounts(strat, cfg, ProcessBars(strat, cfg, st, front, time).0, bars[|bars| - 1], time);
    }
  }

  // ------------------------------------------------------------------ publication

  /** A publication adds one to its side of the ledger and one to what waits, was replaced or was
      refused there. */
  lemma BullishScheduled(st: EngineState, st': EngineState, s: Symbol, p: PendingEntry, e: Event)
    requires Accounted(st) && e.Published? && e.signal.direction.Bullish? && (e.entryWaiting <==> s in st.pendingEntry)
    requires st'.pendingEntry == st.pendingEntry[s := p] && st'.pendingExit == st.pendingExit
    requires st'.journal == st.journal + [e] && st'.published == st.published + 1
    requires st'.trades == st.trades && st'.rejections == st.rejections
    ensures Accounted(st')
  {
    hide Tally, Refusals;
    NoteTallies(st.journal, e);
    SameRefusals(st, st');
    InsertSize(st.pendingEntry, s, p);
  }

  lemma BearishScheduled(st: EngineState, st': EngineState, s: Symbol, e: Event)
    requires Accounted(st) && e.Published? && e.signal.direction.Bearish?
    requires e.holding.Some? && (e.exitWaiting <==> s in st.pendingExit)
    requires st'.pendingExit == st.pendingExit[s := e.signal] && st'.pendingEntry == st.pendingEntry
    requires st'.journal == st.journal + [e] && st'.published == st.published + 1
    requires st'.trades == st.trades && st'.rejections == st.rejections
    ensures Accounted(st')
  {
    hide Tally, Refusals;
    NoteTallies(st.journal, e);
    SameRefusals(st, st');
    InsertSize(st.pendingExit, s, e.signal);
  }

  lemma BearishRefused(st: EngineState, armed: EngineState, s: Symbol, e: Event, time: int)
    requires Accounted(st) && e.Published? && e.signal.direction.Bearish? && e.holding.None?
    requires armed == st.(journal := st.journal + [e], published := st.published + 1, cooldownUntil := armed.cooldownUntil)
    ensures Accounted(Reject(armed, s, NoActivePosition, 1, time))
  {
    hide Tally, Refusals;
    NoteTallies(st.journal, e);
    SameRefusals(st, armed);
    RejectTallies(armed, s, NoActivePosition, time);
  }

  /** The state between noting a publication and routing its signal. */
  function Armed(cfg: EngineConfig, st: EngineState, signal: Signal, time: int): EngineState {
    var noted := Note(st, Publication(st, signal, time));
    noted.(published := noted.published + 1,
           cooldownUntil := noted.cooldownUntil[signal.ticker := time + cfg.quant.cooldownSeconds])
  }

  lemma PublishAccounts(cfg: EngineConfig, st: EngineState, signal: Signal, score: real, time: int)
    requires Accounted(st)
    ensures Accounted(Route(Armed(cfg, st, signal, time), signal, score, time))
  {
    hide Accounted, Reject, PositionTicket;
    var s := signal.ticker;
    var e := Publication(st, signal, time);
    var armed := Armed(cfg, st, signal, time);
    if signal.direction.Bullish? {
      BullishScheduled(st, Route(armed, signal, score, time), s, PendingEntry(signal, score), e);
    } else if s in st.book.positions {
      BearishScheduled(st, Route(armed, signal, score, time), s, e);
    } else {
      BearishRefused(st, armed, s, e, time);
    }
  }

  lemma SameRefusals(st: EngineState, st': EngineState)
    requires st'.rejections == st.rejections
    ensures forall r :: Refusals(st', r) == Refusals(st, r)
  {
  }

  lemma RejectAccounts(st: EngineState, s: Symbol, reason: Reason, time: int)
    requires Accounted(st) && PrePublication(reason)
    ensures Accounted(Reject(st, s, reason, 1, time))
  {
    QuietReject(st, s, reason, 1, time);
    QuietAccounts(st, Reject(st, s, reason, 1, time), time);
  }

  lemma RevalidationRefusal(cfg: EngineConfig, st: EngineState, signal: Signal)
    ensures var r := Revalidate(cfg, st, signal); r.Refused? ==> PrePublication(r.reason)
    ensures var r := Revalidate(cfg, st, signal); r.Valid? ==> r.signal.ticker == signal.ticker
  {
    hide CheckRatio;
  }

  /** A release publishes and routes, or books one refusal and nothing else. */
  lemma ReleaseCases(cfg: EngineConfig, st: EngineState, c: Scored, time: int)
    ensures
      var r, st' := Revalidate(cfg, st, c.signal), Release(cfg, st, c, time);
      if Active(st.cooldownUntil, c.signal.ticker, time) then st' == Reject(st, c.signal.ticker, Cooldown, 1, time)
      else if r.Refused? then st' == Reject(st, c.signal.ticker, r.reason, 1, time) && PrePublication(r.reason)
      else st' == Route(Armed(cfg, st, r.signal, time), r.signal, c.score, time) && r.signal.ticker == c.signal.ticker
  {
    hide Revalidate, Reject, Route;
    RevalidationRefusal(cfg, st, c.signal);
  }

  lemma ReleaseAccounts(cfg: EngineConfig, st: EngineState, c: Scored, time: int)
    requires Accounted(st)
    ensures Accounted(Release(cfg, st, c, time))
  {
    hide Revalidate, Accounted, Reject, Release, Route, Armed;
    var s := c.signal.ticker;
    var r := Revalidate(cfg, st, c.signal);
    ReleaseCases(cfg, st, c, time);
    if Active(st.cooldownUntil, s, time) {
      RejectAccounts(st, s, Cooldown, time);
    } else if r.Refused? {
      RejectAccounts(st, s, r.reason, time);
    } else {
      PublishAccounts(cfg, st, r.signal, c.score, time);
    }
  }

  lemma {:induction false} ReleaseAllAccounts(cfg: EngineConfig, st: EngineState, released: seq<Scored>, time: int)
    requires Accounted(st)
    ensures Accounted(ReleaseAll(cfg, st, released, time))
  {
    hide Release, Accounted;
    if released != [] {
      var front := released[..|released| - 1];
      ReleaseAllAccounts(cfg, st, front, time);
      ReleaseAccounts(cfg, ReleaseAll(cfg, st, front, time), released[|released| - 1], time);
    }
  }

  lemma RankedMembers(strat: Strategy, candidates: seq<Signal>)
    ensures forall c :: c in Ranked(strat, candidates) ==> c.signal in candidates && c.score == strat.score(c.signal)
    ensures |Ranked(strat, candidates)| == |candidates|
    ensures multiset(Ranked(strat, candidates)) == multiset(ScoreAll(strat, candidates))
    ensures SortedBy(Ranked(strat, candidates), Outranks)
  {
    var scored := ScoreAll(strat, candidates);
    SortIsSortedPermutation(scored, Outranks);
    forall c | c in Ranked(strat, candidates) ensures c.signal in candidates && c.score == strat.score(c.signal) {
      assert c in multiset(Ranked(strat, candidates));
      assert c in scored;
    }
  }

  lemma FlushAccounts(strat: Strategy, cfg: EngineConfig, st: EngineState, candidates: seq<Signal>, time: int)
    requires Accounted(st)
    ensures Accounted(Flush(strat, cfg, st, candidates, time))
  {
    hide ReleaseAll, RejectThrottled, Accounted, Ranked;
    var ranked := Ranked(strat, candidates);
    var end := SliceEnd(|ranked|, cfg.quant.throttleMaxSignals);
    ReleaseAllAccounts(cfg, st, ranked[..end], time);
    var st1 := ReleaseAll(cfg, st, ranked[..end], time);
    RejectThrottledQuiet(st1, CountByTicker(ranked[end..]), time);
    QuietAccounts(st1, RejectThrottled(st1, CountByTicker(ranked[end..]), time), time);
  }

  lemma {:induction false} ForceCloseAllAccounts(cfg: EngineConfig, st: EngineState, symbols: seq<Symbol>, time: int)
    requires Accounted(st)
    ensures Accounted(ForceCloseAll(cfg, st, symbols, time))
  {
    hide Accounted, ForceClose;
    if symbols != [] {
      var front := symbols[..|symbols| - 1];
      ForceCloseAllAccounts(cfg, st, front, time);
      ForceCloseAccounts(cfg, ForceCloseAll(cfg, st, front, time), symbols[|symbols| - 1], time);
    }
  }

  lemma ForceCloseAccounts(cfg: EngineConfig, st: EngineState, s: Symbol, time: int)
    requires Accounted(st)
    ensures Accounted(ForceClose(cfg, st, s, time))
  {
    hide Accounted, RecordIfAny, CloseTrade, Tally;
    if s in st.lastClose {
      var (book, t) := Closed(cfg.execution, st.book, s, time, st.lastClose[s], EndOfSession, None);
      if s in st.book.positions {
        CloseTradeFacts(cfg.execution, st.book.positions[s], time, st.lastClose[s], EndOfSession, None);
      }
      RecordTally(cfg, st.(book := book), t, time);
      SameAccounts(st, RecordIfAny(cfg, st.(book := book), t, time));
    }
  }

  lemma StepAccounts(strat: Strategy, cfg: EngineConfig, st: EngineState, m: Minute)
    requires Accounted(st)
    ensures Accounted(Step(strat, cfg, st, m))
  {
    hide ProcessBars, Flush, ForceCloseAll, Accounted;
    ProcessBarsAccounts(strat, cfg, st, m.bars, m.time);
    var (st1, candidates) := ProcessBars(strat, cfg, st, m.bars, m.time);
    var st2 := if candidates == [] then st1 else Flush(strat, cfg, st1, candidates, m.time);
    if candidates != [] {
      FlushAccounts(strat, cfg, st1, candidates, m.time);
    }
    if FlattenDue(strat, cfg, st2, m.time) {
      var st3 := st2.(flattened := st2.flattened + {strat.etDate(m.time)});
      SameAccounts(st2, st3);
      ForceCloseAllAccounts(cfg, st3, st2.book.order, m.time);
    }
  }

  lemma NothingToAccountFor(warmup: seq<Minute>)
    ensures Accounted(Warmup(INITIAL, warmup))
  {
    WarmupMarketOnly(INITIAL, warmup);
  }

  /** At every timestamp of every run each published signal has met exactly one fate on its own side of
      the ledger, where being replaced by a later publication of the same symbol and direction is one. */
  lemma {:induction false} EveryPublicationAccountedFor(strat: Strategy, cfg: EngineConfig, warmup: seq<Minute>, minutes: seq<Minute>)
    ensures Accounted(Play(strat, cfg, Warmup(INITIAL, warmup), minutes))
  {
    hide Step, Accounted, Warmup;
    NothingToAccountFor(warmup);
    if minutes != [] {
      var front := minutes[..|minutes| - 1];
      EveryPublicationAccountedFor(strat, cfg, warmup, front);
      StepAccounts(strat, cfg, Play(strat, cfg, Warmup(INITIAL, warmup), front), minutes[|minutes| - 1]);
    }
  }
}
