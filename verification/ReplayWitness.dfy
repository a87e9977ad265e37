/** Runs from a fresh engine under a real clock, for every configuration that admits them, that reach what
    the collision results speak of: a bar skipped for a waiting entry, an instruction replaced, both
    instructions waiting, and trades that touch; and that no other configuration has such runs. */
module ReplayWitness {
  import opened Sequences
  import opened Market
  import opened Execution
  import opened Replay
  import opened ReplayFrames
  import opened ReplayLedger
  import opened ReplayDay
  import opened ReplayInstructions
  import opened ReplayCollisions
  import opened ReplayStrikes
  import opened ReplaySkips
  import opened ReplayIntervals

  const SYM: Symbol := "S"

  /** A ratio that every configuration accepts, and the ATR that gives it to a short. */
  function Ratio(qc: QuantConfig): real { if qc.minRiskReward >= 1.0 then qc.minRiskReward else 1.0 }
  function ShortRisk(qc: QuantConfig): real { 10.0 / Ratio(qc) }
  function Atr(qc: QuantConfig): real { if qc.atrStopMultiplier > 0.0 then ShortRisk(qc) / qc.atrStopMultiplier else 1.0 }
  function Target(qc: QuantConfig): real { 100.0 + 10.0 * Ratio(qc) }
  function Confluence(qc: QuantConfig): int { if qc.confluenceScoreMin >= 1 then qc.confluenceScoreMin else 1 }

  function Bull(qc: QuantConfig): Signal {
    Signal(SYM, "breakout", Bullish, RegularSession, 100.0, Some(90.0), Some(Target(qc)), Some(Ratio(qc)),
           Some(Atr(qc)), Some(Target(qc)), Some(90.0), Some(Confluence(qc)), None, Some(1.0))
  }

  function Bear(qc: QuantConfig): Signal {
    Bull(qc).(signalType := "breakdown", direction := Bearish, stop := Some(100.0 + ShortRisk(qc)), target := Some(90.0))
  }

  /** Candidates a negative throttle limit cuts off again. */
  function Padding(qc: QuantConfig): seq<Signal> {
    seq(if qc.throttleMaxSignals < 0 then -qc.throttleMaxSignals else 0, i => Bull(qc))
  }

  const DAY := 86400

  /** `first` on the first bar, `second` on the second, nothing later; dates change every 86400 seconds. */
  function Scripted(cfg: EngineConfig, first: seq<Signal>, second: seq<Signal>): Strategy {
    Strategy((s: Symbol, fed: seq<Fed>) => Ready(false, NoBlackout, Script(cfg.quant, first, second, |fed|)),
             (x: Signal) => 0.0, (t: int) => t / DAY, (t: int) => t % DAY)
  }

  function Script(qc: QuantConfig, first: seq<Signal>, second: seq<Signal>, n: nat): seq<Signal> {
    if n == 1 then first + Padding(qc) else if n == 2 then second + Padding(qc) else []
  }

  /** A bar around 100, far from both levels, and one that falls through the stop. */
  const CALM := Bar(SYM, 100.0, 101.0, 99.0, 100.0, 1.0)
  const CRASH := Bar(SYM, 100.0, 101.0, 80.0, 85.0, 1.0)

  predicate Held(qc: QuantConfig, p: Position) { p.direction.Bullish? && p.stop == Some(90.0) && p.target == Some(Target(qc)) }

  /** The minutes of the runs start days of their own, far enough apart for any cooldown to have ended. */
  function Days(qc: QuantConfig): int { if qc.cooldownSeconds >= 1 then qc.cooldownSeconds else 1 }

  function Gap(qc: QuantConfig): int { DAY * Days(qc) }

  /** The date of minute number `n`, counting from 0. */
  function DateOf(qc: QuantConfig, n: nat): int { n * Days(qc) }

  lemma DateRises(qc: QuantConfig, n: nat)
    ensures DateOf(qc, n) < DateOf(qc, n + 1)
  {
  }

  lemma DayStarts(k: int)
    ensures (DAY * k) / DAY == k && (DAY * k) % DAY == 0
  {
  }

  lemma ScriptedClock(cfg: EngineConfig, first: seq<Signal>, second: seq<Signal>)
    ensures
      var strat := Scripted(cfg, first, second);
      && RealClock(strat)
      && strat.etDate(0) == DateOf(cfg.quant, 0) && strat.etSecond(0) == 0
      && strat.etDate(Gap(cfg.quant)) == DateOf(cfg.quant, 1) && strat.etSecond(Gap(cfg.quant)) == 0
      && strat.etDate(2 * Gap(cfg.quant)) == DateOf(cfg.quant, 2) && strat.etSecond(2 * Gap(cfg.quant)) == 0
  {
    DayStarts(Days(cfg.quant));
    DayStarts(2 * Days(cfg.quant));
    hide Days, Script;
  }

  /** Where the symbol stands after `n` calm bars; its cooldown, if any, ends by `clear`. */
  ghost predicate Stage(qc: QuantConfig, st: EngineState, n: nat, held: bool, entry: bool, exit: bool, clear: int) {
    && (if n == 0 then SYM !in st.market else SYM in st.market && |st.market[SYM]| == n)
    && (n > 0 ==> SYM in st.lastClose && st.lastClose[SYM] == 100.0)
    && (SYM in st.book.positions <==> held) && (held ==> Held(qc, st.book.positions[SYM]))
    && (SYM in st.pendingEntry <==> entry) && (entry ==> st.pendingEntry[SYM].signal == Bull(qc))
    && (SYM in st.pendingExit <==> exit)
    && SYM !in st.lockoutUntil && (SYM in st.cooldownUntil ==> st.cooldownUntil[SYM] <= clear)
    && (!held ==> st.book.order == []) && (forall d :: d in st.flattened ==> d < DateOf(qc, n))
  }

  // ---------------------------------------------------------------------- arithmetic

  lemma Divided(x: real, m: real)
    requires m != 0.0
    ensures m * (x / m) == x
  {
  }

  lemma Positive(x: real, m: real)
    requires x > 0.0 && m > 0.0
    ensures x / m > 0.0
  {
  }

  lemma Inverse(k: real)
    requires k > 0.0
    ensures 10.0 / k > 0.0 && 10.0 / (10.0 / k) == k
  {
    var d := 10.0 / k;
    assert d * k == 10.0;
  }

  lemma LevelsAreApart(qc: QuantConfig)
    ensures Ratio(qc) >= 1.0 && Ratio(qc) >= qc.minRiskReward && ShortRisk(qc) > 0.0 && Target(qc) >= 110.0
    ensures 10.0 / ShortRisk(qc) == Ratio(qc) && (Target(qc) - 100.0) / 10.0 == Ratio(qc)
    ensures qc.atrStopMultiplier > 0.0 ==> Atr(qc) > 0.0 && qc.atrStopMultiplier * Atr(qc) == ShortRisk(qc)
  {
    Inverse(Ratio(qc));
    if qc.atrStopMultiplier > 0.0 {
      Divided(ShortRisk(qc), qc.atrStopMultiplier);
      Positive(ShortRisk(qc), qc.atrStopMultiplier);
    }
  }

  // -------------------------------------------------------------------- one calm bar

  lemma CalmExamine(cfg: EngineConfig, st: EngineState, n: nat, held: bool, exit: bool, clear: int, time: int)
    requires Stage(cfg.quant, st, n, held, false, exit, clear)
    ensures Stage(cfg.quant, ExamineBar(cfg, st, CALM, time), n, held, false, exit, clear)
  {
    LevelsAreApart(cfg.quant);
    hide CloseTrade, Target;
  }

  lemma FillStays(qc: QuantConfig)
    ensures FinalizeFillGeometry(qc, Bull(qc), 100.0) == Some(Bull(qc))
  {
    LevelsAreApart(qc);
    hide Target, Ratio, Atr, Confluence;
  }

  lemma HeldWhenNew(qc: QuantConfig, cfg: ExecutionConfig, time: int, score: Option<real>)
    ensures Held(qc, NewPosition(cfg, Bull(qc), time, 100.0, score))
  {
    hide Target, Ratio, Atr, Confluence, EntryCost, RiskOf;
  }

  lemma EnteredStage(cfg: EngineConfig, st: EngineState, n: nat, pending: PendingEntry, clear: int, time: int)
    requires Stage(cfg.quant, st, n, false, false, false, clear)
    ensures Stage(cfg.quant, Enter(cfg, st, pending, Bull(cfg.quant), CALM, time), n, true, false, false, clear)
  {
    NewPositionTicket(cfg.execution, Bull(cfg.quant), time, 100.0, Some(pending.score));
    HeldWhenNew(cfg.quant, cfg.execution, time, Some(pending.score));
    assert Bull(cfg.quant).ticker == SYM;
    hide NewPosition, PositionTicket, Bull, Held;
  }

  lemma CalmEntry(strat: Strategy, cfg: EngineConfig, st: EngineState, n: nat, clear: int, time: int)
    requires Stage(cfg.quant, st, n, false, true, false, clear) && strat.etDate(time) == DateOf(cfg.quant, n)
    ensures Stage(cfg.quant, FillEntry(strat, cfg, st, CALM, time), n, true, false, false, clear)
  {
    var pending := st.pendingEntry[SYM];
    var st1 := st.(pendingEntry := st.pendingEntry - {SYM});
    FillStays(cfg.quant);
    hide Bull, Held;
    assert Stage(cfg.quant, st1, n, false, false, false, clear);
    EnteredStage(cfg, st1, n, pending, clear, time);
    hide Enter, ExamineBar, FinalizeFillGeometry;
    CalmExamine(cfg, Enter(cfg, st1, pending, Bull(cfg.quant), CALM, time), n, true, false, clear, time);
  }

  lemma CalmLifecycle(strat: Strategy, cfg: EngineConfig, st: EngineState, n: nat, held: bool, entry: bool, clear: int, time: int)
    requires Stage(cfg.quant, st, n, held, entry, false, clear) && !(held && entry) && strat.etDate(time) == DateOf(cfg.quant, n)
    ensures Stage(cfg.quant, Lifecycle(strat, cfg, st, CALM, time), n, held || entry, false, false, clear)
  {
    hide ExamineBar, Bull, Held;
    var st0 := st.(barsProcessed := st.barsProcessed + 1);
    assert Stage(cfg.quant, st0, n, held, entry, false, clear);
    assert FillExit(cfg, st0, CALM, time) == st0;
    if entry {
      CalmEntry(strat, cfg, st0, n, clear, time);
      hide FillEntry;
    } else {
      CalmExamine(cfg, st0, n, held, false, clear, time);
    }
  }

  lemma CalmFeed(qc: QuantConfig, st: EngineState, n: nat, held: bool, clear: int, time: int)
    requires Stage(qc, st, n, held, false, false, clear)
    ensures Stage(qc, FeedMarketState(st, CALM, time), n + 1, held, false, false, clear)
  {
    hide Bull, Held, DateOf;
    DateRises(qc, n);
  }

  // ------------------------------------------------------------------------ screening

  predicate Scriptable(qc: QuantConfig, xs: seq<Signal>) { forall i :: 0 <= i < |xs| ==> xs[i] == Bull(qc) || xs[i] == Bear(qc) }

  lemma Tickers(qc: QuantConfig)
    ensures Bull(qc).ticker == SYM && Bear(qc).ticker == SYM
    ensures Bull(qc).session.RegularSession? && Bear(qc).session.RegularSession?
    ensures Bull(qc).direction.Bullish? && Bear(qc).direction.Bearish?
    ensures Bull(qc).(ticker := SYM) == Bull(qc) && Bear(qc).(ticker := SYM) == Bear(qc)
  {
    hide Target, Ratio, ShortRisk, Atr, Confluence;
  }

  lemma {:induction false} StampedStays(qc: QuantConfig, xs: seq<Signal>)
    requires Scriptable(qc, xs)
    ensures Stamped(xs, SYM) == xs
  {
    hide Bull, Bear;
    if xs != [] {
      Tickers(qc);
      StampedStays(qc, xs[1..]);
    }
  }

  lemma PassesLate(qc: QuantConfig, g: Gate, x: Signal)
    requires g != BlackoutGate && (x == Bull(qc) || x == Bear(qc))
    ensures Passes(qc, g, x) && ConfluenceEligible(qc, x)
  {
    LevelsAreApart(qc);
    hide Target, Ratio, ShortRisk, Atr;
  }

  lemma {:induction false} GatesPass(cfg: EngineConfig, st: EngineState, gates: seq<Gate>, xs: seq<Signal>, time: int)
    requires Scriptable(cfg.quant, xs) && forall g :: g in gates ==> g != BlackoutGate
    ensures SieveAll(cfg, st, gates, xs, SYM, time) == (st, xs)
  {
    hide Passes, Bull, Bear;
    if gates != [] {
      assert gates[0] in gates && forall g :: g in gates[1..] ==> g in gates;
      forall x | x in xs ensures Passing(cfg.quant, gates[0])(x) { PassesLate(cfg.quant, gates[0], x); }
      FilterAll(xs, Passing(cfg.quant, gates[0]));
      GatesPass(cfg, st, gates[1..], xs, time);
    }
  }

  lemma ConfluencePasses(cfg: EngineConfig, st: EngineState, xs: seq<Signal>, time: int)
    requires Scriptable(cfg.quant, xs) && xs != []
    ensures ScreenConfluence(cfg, st, xs, SYM, time) == (Note(st, DroppedBesideSibling(0)), xs)
  {
    hide ConfluenceEligible, Bull, Bear;
    forall x | x in xs ensures Confluent(cfg.quant)(x) { PassesLate(cfg.quant, RatioGate, x); }
    FilterAll(xs, Confluent(cfg.quant));
    GatesPass(cfg, Note(st, DroppedBesideSibling(0)), LATE_GATES, xs, time);
    hide SieveAll, Filter;
  }

  lemma SessionPasses(cfg: EngineConfig, st: EngineState, n: nat, held: bool, clear: int, time: int, xs: seq<Signal>)
    requires Stage(cfg.quant, st, n, held, false, false, clear) && clear <= time && Scriptable(cfg.quant, xs) && xs != []
    ensures ScreenSession(cfg, st, NoBlackout, xs, SYM, time) == (Note(st, DroppedBesideSibling(0)), xs)
  {
    Tickers(cfg.quant);
    ConfluencePasses(cfg, st, xs, time);
    hide ScreenConfluence, Bull, Bear, Held;
  }

  lemma ScreensTo(strat: Strategy, cfg: EngineConfig, st: EngineState, time: int, xs: seq<Signal>)
    requires SYM in st.market && strat.evaluate(SYM, st.market[SYM]) == Ready(false, NoBlackout, xs) && Stamped(xs, SYM) == xs
    ensures Screen(strat, cfg, st, SYM, time)
         == if xs == [] then (st, []) else ScreenSession(cfg, st.(generated := st.generated + |xs|), NoBlackout, xs, SYM, time)
  {
    hide ScreenSession, Stamped, Reject;
  }

  lemma NotedStage(qc: QuantConfig, st: EngineState, generated: nat, n: nat, held: bool, clear: int)
    requires Stage(qc, st, n, held, false, false, clear)
    ensures Stage(qc, st.(generated := generated), n, held, false, false, clear)
    ensures Stage(qc, Note(st.(generated := generated), DroppedBesideSibling(0)), n, held, false, false, clear)
  {
    hide Bull, Held;
  }

  /** Every scripted candidate passes all gates once the clocks are clear. */
  lemma ScreenPasses(cfg: EngineConfig, first: seq<Signal>, second: seq<Signal>, st: EngineState, n: nat, held: bool, clear: int, time: int)
    requires Stage(cfg.quant, st, n, held, false, false, clear) && n > 0 && clear <= time
    requires Scriptable(cfg.quant, Script(cfg.quant, first, second, n))
    ensures
      var (st', found) := Screen(Scripted(cfg, first, second), cfg, st, SYM, time);
      found == Script(cfg.quant, first, second, n) && Stage(cfg.quant, st', n, held, false, false, clear)
  {
    var xs := Script(cfg.quant, first, second, n);
    StampedStays(cfg.quant, xs);
    ScreensTo(Scripted(cfg, first, second), cfg, st, time, xs);
    NotedStage(cfg.quant, st, st.generated + |xs|, n, held, clear);
    hide Screen, Scripted, Scriptable, Bull, Held, Script;
    if xs != [] {
      SessionPasses(cfg, st.(generated := st.generated + |xs|), n, held, clear, time, xs);
    }
    hide ScreenSession;
  }

  lemma CalmBar(cfg: EngineConfig, first: seq<Signal>, second: seq<Signal>, st: EngineState, n: nat, held: bool, entry: bool, clear: int, time: int)
    requires Stage(cfg.quant, st, n, held, entry, false, clear) && !(held && entry) && clear <= time
    requires Scripted(cfg, first, second).etDate(time) == DateOf(cfg.quant, n)
    requires Scriptable(cfg.quant, Script(cfg.quant, first, second, n + 1))
    ensures
      var (st', found) := ProcessBars(Scripted(cfg, first, second), cfg, st, [CALM], time);
      found == Script(cfg.quant, first, second, n + 1) && Stage(cfg.quant, st', n + 1, held || entry, false, false, clear)
  {
    var strat := Scripted(cfg, first, second);
    CalmLifecycle(strat, cfg, st, n, held, entry, clear, time);
    var st1 := Lifecycle(strat, cfg, st, CALM, time);
    CalmFeed(cfg.quant, st1, n, held || entry, clear, time);
    hide Stage, Lifecycle, Script, Scripted, Screen;
    assert SYM in FeedMarketState(st1, CALM, time).market;
    ScreenPasses(cfg, first, second, FeedMarketState(st1, CALM, time), n + 1, held || entry, clear, time);
    OneBarMinute(strat, cfg, st, CALM, time);
    hide FeedMarketState;
  }

  lemma OneBarMinute(strat: Strategy, cfg: EngineConfig, st: EngineState, bar: Bar, time: int)
    ensures ProcessBars(strat, cfg, st, [bar], time) == ProcessBar(strat, cfg, st, bar, time)
  {
    hide ProcessBar;
    assert [bar][..0] == [];
    var found := ProcessBar(strat, cfg, st, bar, time).1;
    assert [] + found == found;
  }

  // ----------------------------------------------------------------------- the throttle

  lemma SameQuotient(a: real, b: real, x: real, y: real)
    requires a == x && b == y && y != 0.0
    ensures a / b == x / y
  {
  }

  lemma BullLevels(qc: QuantConfig, atr: real, target: real)
    requires atr > 0.0 && qc.atrStopMultiplier * atr > 0.0 && target > 100.0
    ensures Geometry.CalculateTradeGeometry(100.0, Some(atr), Bullish, Some(target), Some(90.0), qc)
         == Some(Geometry.TradeGeometry(90.0, target, 10.0, Some((target - 100.0) / 10.0)))
  {
    SameQuotient(target - 100.0, 100.0 - 90.0, target - 100.0, 10.0);
  }

  lemma BearLevels(qc: QuantConfig, atr: real, resistance: Option<real>)
    requires atr > 0.0 && qc.atrStopMultiplier * atr > 0.0
    ensures
      var risk := qc.atrStopMultiplier * atr;
      var g := Geometry.CalculateTradeGeometry(100.0, Some(atr), Bearish, resistance, Some(90.0), qc);
      && g.Some? && g.value.stop == 100.0 + risk && g.value.target == 90.0 && g.value.risk == risk
      && g.value.riskReward.Some? && g.value.riskReward.value == (100.0 - 90.0) / risk
  {
  }

  lemma BullStays(cfg: EngineConfig, st: EngineState)
    requires CanPublish(cfg.quant) && SYM in st.lastClose && st.lastClose[SYM] == 100.0
    ensures Revalidate(cfg, st, Bull(cfg.quant)) == Valid(Bull(cfg.quant))
  {
    LevelsAreApart(cfg.quant);
    BullLevels(cfg.quant, Atr(cfg.quant), Target(cfg.quant));
    hide Target, Ratio, ShortRisk, Atr, Confluence, Geometry.CalculateTradeGeometry;
  }

  lemma BearStays(cfg: EngineConfig, st: EngineState)
    requires CanPublish(cfg.quant) && SYM in st.lastClose && st.lastClose[SYM] == 100.0
    ensures Revalidate(cfg, st, Bear(cfg.quant)) == Valid(Bear(cfg.quant))
  {
    LevelsAreApart(cfg.quant);
    BearLevels(cfg.quant, Atr(cfg.quant), Bear(cfg.quant).pivotResistance);
    SameQuotient(100.0 - 90.0, cfg.quant.atrStopMultiplier * Atr(cfg.quant), 10.0, ShortRisk(cfg.quant));
    hide Target, Ratio, ShortRisk, Atr, Confluence, Geometry.CalculateTradeGeometry;
  }

  lemma ReleaseBull(cfg: EngineConfig, st: EngineState, n: nat, held: bool, entry: bool, exit: bool, clear: int, time: int)
    requires CanPublish(cfg.quant) && Stage(cfg.quant, st, n, held, entry, exit, clear) && n > 0 && clear <= time
    ensures
      var st' := Release(cfg, st, Scored(Bull(cfg.quant), 0.0), time);
      && Stage(cfg.quant, st', n, held, true, exit, time + cfg.quant.cooldownSeconds)
      && (entry ==> !NothingReplaced(st'.journal))
  {
    BullStays(cfg, st);
    Tickers(cfg.quant);
    RouteSchedules(cfg, st, Bull(cfg.quant), 0.0, time);
    hide Revalidate, Bull, Held, PositionTicket;
    var e := Publication(st, Bull(cfg.quant), time);
    assert entry ==> Replaces(e) && e in (st.journal + [e]);
  }

  lemma ReleaseBear(cfg: EngineConfig, st: EngineState, n: nat, clear: int, time: int)
    requires CanPublish(cfg.quant) && Stage(cfg.quant, st, n, true, false, false, clear) && n > 0 && clear <= time
    ensures
      Stage(cfg.quant, Release(cfg, st, Scored(Bear(cfg.quant), 0.0), time), n, true, false, true, time + cfg.quant.cooldownSeconds)
  {
    BearStays(cfg, st);
    Tickers(cfg.quant);
    hide Revalidate, Bull, Bear, Held, PositionTicket;
  }

  function Scores(xs: seq<Signal>): (scored: seq<Scored>)
    ensures |scored| == |xs| && forall i :: 0 <= i < |xs| ==> scored[i] == Scored(xs[i], 0.0)
  {
    seq(|xs|, i requires 0 <= i < |xs| => Scored(xs[i], 0.0))
  }

  lemma RankedKeepOrder(cfg: EngineConfig, first: seq<Signal>, second: seq<Signal>, xs: seq<Signal>)
    ensures Ranked(Scripted(cfg, first, second), xs) == Scores(xs)
  {
    assert ScoreAll(Scripted(cfg, first, second), xs) == Scores(xs);
    SortOfSorted(Scores(xs), Outranks);
    hide ScoreAll, Scores, StableSort;
  }

  lemma ScoresOfLead(lead: seq<Signal>, rest: seq<Signal>)
    ensures Scores(lead + rest)[..|lead|] == Scores(lead)
  {
    assert forall i :: 0 <= i < |lead| ==> (lead + rest)[i] == lead[i];
  }

  lemma SliceAtPadding(qc: QuantConfig, count: nat)
    requires LetsThrough(qc, count)
    ensures SliceEnd(count + |Padding(qc)|, qc.throttleMaxSignals) == count
  {
    hide Bull;
  }

  /** With equal scores the throttle keeps the order and releases exactly the candidates before the padding. */
  lemma FlushReleases(cfg: EngineConfig, first: seq<Signal>, second: seq<Signal>, st: EngineState, lead: seq<Signal>, time: int)
    requires LetsThrough(cfg.quant, |lead|)
    ensures
      var st1 := ReleaseAll(cfg, st, Scores(lead), time);
      var st' := Flush(Scripted(cfg, first, second), cfg, st, lead + Padding(cfg.quant), time);
      Quiet(st1, st', time)
  {
    var xs := lead + Padding(cfg.quant);
    RankedKeepOrder(cfg, first, second, xs);
    SliceAtPadding(cfg.quant, |lead|);
    ScoresOfLead(lead, Padding(cfg.quant));
    hide ReleaseAll, RejectThrottled, CountByTicker, Ranked, Quiet, Padding, Scripted, SliceEnd, Scores;
    RejectThrottledQuiet(ReleaseAll(cfg, st, Scores(lead), time), CountByTicker(Scores(xs)[|lead|..]), time);
  }

  lemma QuietStage(qc: QuantConfig, st: EngineState, st': EngineState, n: nat, held: bool, entry: bool, exit: bool, clear: int, time: int)
    requires Stage(qc, st, n, held, entry, exit, clear) && Quiet(st, st', time)
    ensures Stage(qc, st', n, held, entry, exit, clear)
    ensures !NothingReplaced(st.journal) ==> !NothingReplaced(st'.journal)
  {
    hide Bull, Held, Replaces;
    assert forall e :: e in st.journal ==> e in st'.journal;
  }

  lemma FlushBull(cfg: EngineConfig, first: seq<Signal>, second: seq<Signal>, st: EngineState, n: nat, held: bool, clear: int, time: int)
    requires CanPublish(cfg.quant) && LetsThrough(cfg.quant, 1)
    requires Stage(cfg.quant, st, n, held, false, false, clear) && n > 0 && clear <= time
    ensures
      var st' := Flush(Scripted(cfg, first, second), cfg, st, [Bull(cfg.quant)] + Padding(cfg.quant), time);
      Stage(cfg.quant, st', n, held, true, false, time + cfg.quant.cooldownSeconds)
  {
    var bull := Bull(cfg.quant);
    hide Flush, Release, Stage, Scripted, Quiet, Bull;
    FlushReleases(cfg, first, second, st, [bull], time);
    ReleaseBull(cfg, st, n, held, false, false, clear, time);
    OneRelease(cfg, st, bull, time);
    QuietStage(cfg.quant, Release(cfg, st, Scored(bull, 0.0), time), Flush(Scripted(cfg, first, second), cfg, st, [bull] + Padding(cfg.quant), time),
               n, held, true, false, time + cfg.quant.cooldownSeconds, time);
  }

  lemma OneRelease(cfg: EngineConfig, st: EngineState, x: Signal, time: int)
    ensures ReleaseAll(cfg, st, Scores([x]), time) == Release(cfg, st, Scored(x, 0.0), time)
  {
    hide Release;
    assert Scores([x]) == [Scored(x, 0.0)] && [Scored(x, 0.0)][..0] == [];
  }

  lemma TwoReleases(cfg: EngineConfig, st: EngineState, x: Signal, y: Signal, time: int)
    ensures ReleaseAll(cfg, st, Scores([x, y]), time) == Release(cfg, Release(cfg, st, Scored(x, 0.0), time), Scored(y, 0.0), time)
  {
    hide Release;
    var a, b := Scored(x, 0.0), Scored(y, 0.0);
    assert Scores([x, y]) == [a, b] && [a, b][..1] == [a] && [a][..0] == [];
    assert ReleaseAll(cfg, st, [a], time) == Release(cfg, st, a, time);
  }

  /** Two bullish candidates of one flush: the second replaces the first one's entry. */
  lemma FlushTwice(cfg: EngineConfig, first: seq<Signal>, second: seq<Signal>, st: EngineState, n: nat, clear: int, time: int)
    requires CanCollide(cfg.quant) && Stage(cfg.quant, st, n, false, false, false, clear) && n > 0 && clear <= time
    ensures
      var bull := Bull(cfg.quant);
      var st' := Flush(Scripted(cfg, first, second), cfg, st, [bull, bull] + Padding(cfg.quant), time);
      Stage(cfg.quant, st', n, false, true, false, time + cfg.quant.cooldownSeconds) && !NothingReplaced(st'.journal)
  {
    var bull := Bull(cfg.quant);
    hide Flush, Release, Stage, Scripted, Quiet, Bull, NothingReplaced;
    FlushReleases(cfg, first, second, st, [bull, bull], time);
    TwoReleases(cfg, st, bull, bull, time);
    ReleaseBull(cfg, st, n, false, false, false, clear, time);
    var st1 := Release(cfg, st, Scored(bull, 0.0), time);
    ReleaseBull(cfg, st1, n, false, true, false, time + cfg.quant.cooldownSeconds, time);
    QuietStage(cfg.quant, Release(cfg, st1, Scored(bull, 0.0), time),
               Flush(Scripted(cfg, first, second), cfg, st, [bull, bull] + Padding(cfg.quant), time),
               n, false, true, false, time + cfg.quant.cooldownSeconds, time);
  }

  /** A bearish and a bullish candidate of one flush: both instructions wait. */
  lemma FlushBoth(cfg: EngineConfig, first: seq<Signal>, second: seq<Signal>, st: EngineState, n: nat, clear: int, time: int)
    requires CanCollide(cfg.quant) && Stage(cfg.quant, st, n, true, false, false, clear) && n > 0 && clear <= time
    ensures
      var st' := Flush(Scripted(cfg, first, second), cfg, st, [Bear(cfg.quant), Bull(cfg.quant)] + Padding(cfg.quant), time);
      Stage(cfg.quant, st', n, true, true, true, time + cfg.quant.cooldownSeconds)
  {
    var bear, bull := Bear(cfg.quant), Bull(cfg.quant);
    hide Flush, Release, Stage, Scripted, Quiet, Bull, Bear;
    FlushReleases(cfg, first, second, st, [bear, bull], time);
    TwoReleases(cfg, st, bear, bull, time);
    ReleaseBear(cfg, st, n, clear, time);
    var st1 := Release(cfg, st, Scored(bear, 0.0), time);
    ReleaseBull(cfg, st1, n, true, false, true, time + cfg.quant.cooldownSeconds, time);
    QuietStage(cfg.quant, Release(cfg, st1, Scored(bull, 0.0), time),
               Flush(Scripted(cfg, first, second), cfg, st, [bear, bull] + Padding(cfg.quant), time),
               n, true, true, true, time + cfg.quant.cooldownSeconds, time);
  }

  // ------------------------------------------------------------------------- the runs

  const FIRST := Minute(0, [CALM])

  function Second(qc: QuantConfig): Minute { Minute(Gap(qc), [CALM]) }
  function Third(qc: QuantConfig): Minute { Minute(2 * Gap(qc), [CALM]) }

  lemma MinuteIs(cfg: EngineConfig, first: seq<Signal>, second: seq<Signal>, st: EngineState, m: Minute)
    requires Script(cfg.quant, first, second, if SYM in st.market then |st.market[SYM]| + 1 else 1) != []
    requires m.bars == [CALM]
    requires
      ProcessBars(Scripted(cfg, first, second), cfg, st, [CALM], m.time).1
      == Script(cfg.quant, first, second, if SYM in st.market then |st.market[SYM]| + 1 else 1)
    ensures
      var (st1, found) := ProcessBars(Scripted(cfg, first, second), cfg, st, [CALM], m.time);
      Step(Scripted(cfg, first, second), cfg, st, m)
      == FlattenIfDue(Scripted(cfg, first, second), cfg, Flush(Scripted(cfg, first, second), cfg, st1, found, m.time), m.time)
  {
    hide ProcessBars, Flush, FlattenIfDue, Script;
  }

  /** The sweep at the end of a minute finds nothing open, or is not due before the day's end of trading. */
  lemma SweptStage(cfg: EngineConfig, strat: Strategy, st: EngineState, n: nat, held: bool, entry: bool, exit: bool, clear: int, time: int)
    requires Stage(cfg.quant, st, n + 1, held, entry, exit, clear) && (held ==> !AlwaysFlattens(cfg))
    requires strat.etDate(time) == DateOf(cfg.quant, n) && strat.etSecond(time) == 0
    ensures
      var st' := FlattenIfDue(strat, cfg, st, time);
      Stage(cfg.quant, st', n + 1, held, entry, exit, clear) && st'.journal == st.journal
  {
    hide Bull, Held, DateOf;
    DateRises(cfg.quant, n);
  }


  lemma BullsScriptable(qc: QuantConfig, lead: seq<Signal>)
    requires Scriptable(qc, lead)
    ensures Scriptable(qc, lead + Padding(qc))
  {
    hide Bull, Bear;
  }

  /** After a first minute that starts from nothing. */
  lemma FirstMinute(cfg: EngineConfig, first: seq<Signal>, second: seq<Signal>)
    requires first != [] && Scriptable(cfg.quant, first)
    ensures
      var strat := Scripted(cfg, first, second);
      var st := ProcessBars(strat, cfg, INITIAL, [CALM], 0).0;
      && Stage(cfg.quant, st, 1, false, false, false, 0)
      && Step(strat, cfg, INITIAL, FIRST) == FlattenIfDue(strat, cfg, Flush(strat, cfg, st, first + Padding(cfg.quant), 0), 0)
  {
    ScriptedClock(cfg, first, second);
    assert Stage(cfg.quant, INITIAL, 0, false, false, false, 0);
    BullsScriptable(cfg.quant, first);
    CalmBar(cfg, first, second, INITIAL, 0, false, false, 0, 0);
    MinuteIs(cfg, first, second, INITIAL, FIRST);
    hide ProcessBars, Flush, FlattenIfDue, Step, Stage, Scripted, Scriptable, Padding;
  }

  lemma SecondMinute(cfg: EngineConfig, first: seq<Signal>, second: seq<Signal>, st: EngineState)
    requires second != [] && Scriptable(cfg.quant, second)
    requires Stage(cfg.quant, st, 1, false, true, false, cfg.quant.cooldownSeconds)
    ensures
      var strat := Scripted(cfg, first, second);
      var st1 := ProcessBars(strat, cfg, st, [CALM], Gap(cfg.quant)).0;
      && Stage(cfg.quant, st1, 2, true, false, false, cfg.quant.cooldownSeconds)
      && Step(strat, cfg, st, Second(cfg.quant))
         == FlattenIfDue(strat, cfg, Flush(strat, cfg, st1, second + Padding(cfg.quant), Gap(cfg.quant)), Gap(cfg.quant))
  {
    ScriptedClock(cfg, first, second);
    BullsScriptable(cfg.quant, second);
    CalmBar(cfg, first, second, st, 1, false, true, cfg.quant.cooldownSeconds, Gap(cfg.quant));
    MinuteIs(cfg, first, second, st, Second(cfg.quant));
    hide ProcessBars, Flush, FlattenIfDue, Step, Scripted, Scriptable, Padding, Bull, Held;
  }

  lemma GapCoversCooldown(qc: QuantConfig)
    ensures qc.cooldownSeconds <= Gap(qc) && 0 < Gap(qc) && Second(qc).time == Gap(qc)
  {
  }

  lemma TwoMinutes(strat: Strategy, cfg: EngineConfig)
    ensures Play(strat, cfg, INITIAL, [FIRST]) == Step(strat, cfg, INITIAL, FIRST)
    ensures Play(strat, cfg, INITIAL, [FIRST, Second(cfg.quant)]) == Step(strat, cfg, Step(strat, cfg, INITIAL, FIRST), Second(cfg.quant))
  {
    hide Step;
    assert [FIRST, Second(cfg.quant)][..1] == [FIRST] && [FIRST][..0] == [];
    assert Play(strat, cfg, INITIAL, [FIRST]) == Step(strat, cfg, INITIAL, FIRST);
  }

  lemma AreScriptable(qc: QuantConfig)
    ensures Scriptable(qc, [Bull(qc)]) && Scriptable(qc, [Bull(qc), Bull(qc)]) && Scriptable(qc, [Bear(qc), Bull(qc)])
  {
    hide Bull, Bear;
  }

  /** Unless every minute is swept: a first candidate's entry is filled a minute later, and the second
      candidate of that minute leaves an entry waiting while the position is open. */
  lemma HeldWithEntryWaiting(cfg: EngineConfig)
    requires CanPublish(cfg.quant) && LetsThrough(cfg.quant, 1) && !AlwaysFlattens(cfg)
    ensures
      var bulls := [Bull(cfg.quant)];
      var st := Play(Scripted(cfg, bulls, bulls), cfg, INITIAL, [FIRST, Second(cfg.quant)]);
      Stage(cfg.quant, st, 2, true, true, false, Gap(cfg.quant) + cfg.quant.cooldownSeconds)
  {
    var bulls := [Bull(cfg.quant)];
    var strat := Scripted(cfg, bulls, bulls);
    AreScriptable(cfg.quant);
    ScriptedClock(cfg, bulls, bulls);
    hide *;
    FirstMinute(cfg, bulls, bulls);
    var open := ProcessBars(strat, cfg, INITIAL, [CALM], 0).0;
    FlushBull(cfg, bulls, bulls, open, 1, false, 0, 0);
    SweptStage(cfg, strat, Flush(strat, cfg, open, bulls + Padding(cfg.quant), 0), 0, false, true, false, cfg.quant.cooldownSeconds, 0);
    var st := Step(strat, cfg, INITIAL, FIRST);
    GapCoversCooldown(cfg.quant);
    SecondMinute(cfg, bulls, bulls, st);
    var later := ProcessBars(strat, cfg, st, [CALM], Gap(cfg.quant)).0;
    FlushBull(cfg, bulls, bulls, later, 2, true, cfg.quant.cooldownSeconds, Gap(cfg.quant));
    SweptStage(cfg, strat, Flush(strat, cfg, later, bulls + Padding(cfg.quant), Gap(cfg.quant)), 1, true, true, false,
               Gap(cfg.quant) + cfg.quant.cooldownSeconds, Gap(cfg.quant));
    TwoMinutes(strat, cfg);
  }

  /** So under every configuration that publishes at all and does not sweep every minute, whatever its
      cooldown and costs, a bar of some run falls through the stop of an open position and leaves it open. */
  lemma StruckPositionSurvives(cfg: EngineConfig)
    requires CanPublish(cfg.quant) && LetsThrough(cfg.quant, 1) && !AlwaysFlattens(cfg)
    ensures
      var bulls := [Bull(cfg.quant)];
      var strat := Scripted(cfg, bulls, bulls);
      var st := Play(strat, cfg, INITIAL, [FIRST, Second(cfg.quant)]);
      && RealClock(strat)
      && SYM in st.book.positions && st.book.positions[SYM].stop.Some? && st.book.positions[SYM].target.Some?
      && Strikes(st.book.positions[SYM], Tick(2 * Gap(cfg.quant), CRASH.high, CRASH.low))
      && Lifecycle(strat, cfg, st, CRASH, 2 * Gap(cfg.quant)).book == st.book
  {
    HeldWithEntryWaiting(cfg);
    ScriptedClock(cfg, [Bull(cfg.quant)], [Bull(cfg.quant)]);
    var strat := Scripted(cfg, [Bull(cfg.quant)], [Bull(cfg.quant)]);
    var st := Play(strat, cfg, INITIAL, [FIRST, Second(cfg.quant)]);
    hide Play, Lifecycle, Bull, Scripted, Gap, DateOf, RealClock;
    StruckPositionSurvivesExactly(strat, cfg, st, CRASH, 2 * Gap(cfg.quant));
  }

  /** The strategy that makes a colliding configuration collide. */
  function Colliding(cfg: EngineConfig): Strategy {
    Scripted(cfg, [Bull(cfg.quant), Bull(cfg.quant)], [Bear(cfg.quant), Bull(cfg.quant)])
  }

  lemma CollidingClock(cfg: EngineConfig)
    ensures RealClock(Colliding(cfg)) && Colliding(cfg).etDate(2 * Gap(cfg.quant)) == DateOf(cfg.quant, 2)
  {
    ScriptedClock(cfg, [Bull(cfg.quant), Bull(cfg.quant)], [Bear(cfg.quant), Bull(cfg.quant)]);
    hide Scripted, RealClock, Gap, DateOf;
  }

  /** The first minute replaces the first candidate's entry and leaves the second one's waiting. */
  lemma ReplacedAtFirst(cfg: EngineConfig, first: seq<Signal>, second: seq<Signal>)
    requires CanCollide(cfg.quant) && first == [Bull(cfg.quant), Bull(cfg.quant)]
    ensures
      var st := Step(Scripted(cfg, first, second), cfg, INITIAL, FIRST);
      Stage(cfg.quant, st, 1, false, true, false, cfg.quant.cooldownSeconds) && !NothingReplaced(st.journal)
  {
    var strat := Scripted(cfg, first, second);
    AreScriptable(cfg.quant);
    ScriptedClock(cfg, first, second);
    hide *;
    FirstMinute(cfg, first, second);
    var open := ProcessBars(strat, cfg, INITIAL, [CALM], 0).0;
    FlushTwice(cfg, first, second, open, 1, 0, 0);
    SweptStage(cfg, strat, Flush(strat, cfg, open, first + Padding(cfg.quant), 0), 0, false, true, false, cfg.quant.cooldownSeconds, 0);
  }

  /** In the second minute that entry is filled, and a bearish and a bullish candidate leave both
      instructions waiting; the position stays open unless the minute is swept. */
  lemma BothScheduled(cfg: EngineConfig, first: seq<Signal>, second: seq<Signal>)
    requires CanCollide(cfg.quant) && first == [Bull(cfg.quant), Bull(cfg.quant)] && second == [Bear(cfg.quant), Bull(cfg.quant)]
    ensures
      var strat := Scripted(cfg, first, second);
      var st := Step(strat, cfg, Step(strat, cfg, INITIAL, FIRST), Second(cfg.quant));
      && SYM in st.pendingEntry && SYM in st.pendingExit
      && (!AlwaysFlattens(cfg) ==> Stage(cfg.quant, st, 2, true, true, true, Gap(cfg.quant) + cfg.quant.cooldownSeconds))
  {
    var strat := Scripted(cfg, first, second);
    AreScriptable(cfg.quant);
    ScriptedClock(cfg, first, second);
    hide *;
    ReplacedAtFirst(cfg, first, second);
    var st := Step(strat, cfg, INITIAL, FIRST);
    GapCoversCooldown(cfg.quant);
    SecondMinute(cfg, first, second, st);
    var later := ProcessBars(strat, cfg, st, [CALM], Gap(cfg.quant)).0;
    FlushBoth(cfg, first, second, later, 2, cfg.quant.cooldownSeconds, Gap(cfg.quant));
    var flushed := Flush(strat, cfg, later, second + Padding(cfg.quant), Gap(cfg.quant));
    TwoWaiting(cfg.quant, flushed, Gap(cfg.quant) + cfg.quant.cooldownSeconds);
    SweepAside(strat, cfg, flushed, Gap(cfg.quant));
    if !AlwaysFlattens(cfg) {
      SweptStage(cfg, strat, flushed, 1, true, true, true, Gap(cfg.quant) + cfg.quant.cooldownSeconds, Gap(cfg.quant));
    }
  }

  lemma TwoWaiting(qc: QuantConfig, st: EngineState, clear: int)
    requires Stage(qc, st, 2, true, true, true, clear)
    ensures SYM in st.pendingEntry && SYM in st.pendingExit
  {
  }

  /** The first minute replaces an instruction; the second leaves both waiting, and the position open
      exactly when not every minute is swept. */
  lemma BothWaiting(cfg: EngineConfig)
    requires CanCollide(cfg.quant)
    ensures !NothingReplaced(Play(Colliding(cfg), cfg, INITIAL, [FIRST]).journal)
    ensures
      var st := Play(Colliding(cfg), cfg, INITIAL, [FIRST, Second(cfg.quant)]);
      && SYM in st.pendingEntry && SYM in st.pendingExit && (SYM in st.book.positions <==> !AlwaysFlattens(cfg))
      && (!AlwaysFlattens(cfg) ==> Stage(cfg.quant, st, 2, true, true, true, Gap(cfg.quant) + cfg.quant.cooldownSeconds))
  {
    var first, second := [Bull(cfg.quant), Bull(cfg.quant)], [Bear(cfg.quant), Bull(cfg.quant)];
    ReplacedAtFirst(cfg, first, second);
    BothScheduled(cfg, first, second);
    TwoMinutes(Colliding(cfg), cfg);
    hide Play, Step, Colliding, NothingReplaced, DateOf, Bull, Held;
    if AlwaysFlattens(cfg) {
      CollidingClock(cfg);
      TwoInOrder(cfg.quant);
      SweptEveryMinute(Colliding(cfg), cfg, [], [FIRST, Second(cfg.quant)]);
    }
  }

  lemma TwoInOrder(qc: QuantConfig)
    ensures Chronological([FIRST]) && Chronological([FIRST, Second(qc)])
  {
  }

  lemma CrossesInTwoMinutes(cfg: EngineConfig)
    requires CanCollide(cfg.quant)
    ensures !NoCrossing(Play(Colliding(cfg), cfg, INITIAL, [FIRST, Second(cfg.quant)]).journal)
  {
    var minutes := [FIRST, Second(cfg.quant)];
    BothWaiting(cfg);
    hide Play, Stage, Colliding, NoCrossing;
    OneInstructionExactly(Colliding(cfg), cfg, [], minutes);
    ReachedAll(Colliding(cfg), cfg, [], minutes);
    hide Reached;
    assert !OneInstruction(Reached(Colliding(cfg), cfg, [], minutes, |minutes|));
  }

  lemma MeetsCollision(cfg: EngineConfig, st: EngineState, time: int, clear: int)
    requires Stage(cfg.quant, st, 2, true, true, true, clear) && Colliding(cfg).etDate(time) == DateOf(cfg.quant, 2)
    ensures !NoCollisionIn(Colliding(cfg), cfg, st, [CALM], time)
  {
    assert [CALM][..0] == [];
    assert ProcessBars(Colliding(cfg), cfg, st, [CALM][..0], time).0 == st;
    FillStays(cfg.quant);
    hide FinalizeFillGeometry, ProcessBars, Bull, Held, Colliding, DateOf;
    assert Collides(Colliding(cfg), cfg, ProcessBars(Colliding(cfg), cfg, st, [CALM][..0], time).0, [CALM][0], time);
  }

  function ThreeMinutes(qc: QuantConfig): seq<Minute> { [FIRST, Second(qc), Third(qc)] }

  lemma ThirdMinuteBegins(strat: Strategy, cfg: EngineConfig)
    ensures Reached(strat, cfg, [], ThreeMinutes(cfg.quant), 2) == Play(strat, cfg, INITIAL, [FIRST, Second(cfg.quant)])
  {
    hide Play;
    assert ThreeMinutes(cfg.quant)[..2] == [FIRST, Second(cfg.quant)];
  }

  lemma RunMeetsCollision(cfg: EngineConfig)
    requires CanCollide(cfg.quant) && !AlwaysFlattens(cfg)
    ensures !NoCollision(Colliding(cfg), cfg, [], ThreeMinutes(cfg.quant))
  {
    hide Play, Stage, Colliding, NoCollisionIn, Reached, AlwaysFlattens, DateOf;
    BothWaiting(cfg);
    CollidingClock(cfg);
    ThirdMinuteBegins(Colliding(cfg), cfg);
    var minutes := ThreeMinutes(cfg.quant);
    MeetsCollision(cfg, Reached(Colliding(cfg), cfg, [], minutes, 2), minutes[2].time, Gap(cfg.quant) + cfg.quant.cooldownSeconds);
  }

  lemma ThreeMinutesRun(strat: Strategy, cfg: EngineConfig)
    ensures Run(strat, cfg, [], ThreeMinutes(cfg.quant)).Completed? && Chronological(ThreeMinutes(cfg.quant))
  {
    hide Play, FinishRun;
  }

  // ------------------------------------------------------ which configurations collide

  /** Some run of this strategy's data, under a real clock, has trades of one symbol that touch or overlap. */
  ghost predicate TradesTouch(strat: Strategy, cfg: EngineConfig, minutes: seq<Minute>) {
    RealClock(strat) && Chronological(minutes) && var r := Run(strat, cfg, [], minutes); r.Completed? && !Disjoint(r.state.trades)
  }

  ghost predicate Crossed(strat: Strategy, cfg: EngineConfig, minutes: seq<Minute>) {
    RealClock(strat) && Chronological(minutes) && !NoCrossing(Play(strat, cfg, Warmup(INITIAL, []), minutes).journal)
  }

  ghost predicate Replaced(strat: Strategy, cfg: EngineConfig, minutes: seq<Minute>) {
    RealClock(strat) && Chronological(minutes) && !NothingReplaced(Play(strat, cfg, Warmup(INITIAL, []), minutes).journal)
  }

  /** Every configuration that can collide does, for one and the same strategy: an instruction is replaced,
      two wait for one symbol, and, unless every minute is swept, trades touch. */
  lemma EveryCollidingConfigCollides(cfg: EngineConfig)
    requires CanCollide(cfg.quant)
    ensures Replaced(Colliding(cfg), cfg, [FIRST]) && Crossed(Colliding(cfg), cfg, [FIRST, Second(cfg.quant)])
    ensures !AlwaysFlattens(cfg) ==> TradesTouch(Colliding(cfg), cfg, ThreeMinutes(cfg.quant))
  {
    BothWaiting(cfg);
    CollidingClock(cfg);
    TwoInOrder(cfg.quant);
    CrossesInTwoMinutes(cfg);
    ThreeMinutesRun(Colliding(cfg), cfg);
    hide Play, Run, Disjoint, NoCollision, Colliding, Chronological, ThreeMinutes, NoCrossing, NothingReplaced, Stage, RealClock, AlwaysFlattens;
    if !AlwaysFlattens(cfg) {
      RunMeetsCollision(cfg);
      TradesNeverOverlapExactly(Colliding(cfg), cfg, [], ThreeMinutes(cfg.quant));
    }
  }

  lemma OthersNeverCross(strat: Strategy, cfg: EngineConfig, minutes: seq<Minute>)
    requires !CanCollide(cfg.quant)
    ensures !Crossed(strat, cfg, minutes) && !Replaced(strat, cfg, minutes)
  {
    hide Play, Warmup, CanCollide, Unobstructed, NothingReplaced, NoCrossing, PlainlyAccounted, AlwaysOneInstruction, OneInstruction,
         RealClock, Chronological;
    InstructionsStayApart(strat, cfg, [], minutes);
  }

  lemma OthersNeverTouch(strat: Strategy, cfg: EngineConfig, minutes: seq<Minute>)
    requires !CanCollide(cfg.quant) || AlwaysFlattens(cfg)
    ensures !TradesTouch(strat, cfg, minutes)
  {
    hide Run, Disjoint, Chronological, CanCollide, AlwaysFlattens, RealClock;
    if Chronological(minutes) && RealClock(strat) {
      TradesNeverOverlap(strat, cfg, [], minutes);
    }
  }

  /** What a caller can read off the configuration, for strategies under real clocks: an instruction can be
      crossed, or one replaced, by some strategy and data if and only if there is no positive cooldown, the
      throttle lets two candidates through and candidates can be published at all; trades of one symbol can
      touch if and only if, besides, the flatten time is not midnight, which sweeps every minute. */
  lemma CollisionsPossibleExactly(cfg: EngineConfig)
    ensures CanCollide(cfg.quant) && !AlwaysFlattens(cfg) <==> exists strat: Strategy, minutes: seq<Minute> :: TradesTouch(strat, cfg, minutes)
    ensures CanCollide(cfg.quant) <==> exists strat: Strategy, minutes: seq<Minute> :: Crossed(strat, cfg, minutes)
    ensures CanCollide(cfg.quant) <==> exists strat: Strategy, minutes: seq<Minute> :: Replaced(strat, cfg, minutes)
  {
    hide CanCollide, AlwaysFlattens, TradesTouch, Crossed, Replaced, Colliding;
    if CanCollide(cfg.quant) {
      EveryCollidingConfigCollides(cfg);
    } else {
      forall strat: Strategy, minutes: seq<Minute> ensures !Crossed(strat, cfg, minutes) && !Replaced(strat, cfg, minutes) {
        OthersNeverCross(strat, cfg, minutes);
      }
    }
    if !CanCollide(cfg.quant) || AlwaysFlattens(cfg) {
      forall strat: Strategy, minutes: seq<Minute> ensures !TradesTouch(strat, cfg, minutes) {
        OthersNeverTouch(strat, cfg, minutes);
      }
    }
  }

  // --------------------------------------------------------- which configurations skip

  /** Some bar of this run met an open position with an entry waiting and went unexamined. */
  ghost predicate SkipsSome(strat: Strategy, cfg: EngineConfig, minutes: seq<Minute>) {
    && RealClock(strat) && Chronological(minutes)
    && exists e :: e in Play(strat, cfg, Warmup(INITIAL, []), minutes).journal && e.SkippedWhileOpen?
  }

  function Falling(qc: QuantConfig): seq<Minute> { [FIRST, Second(qc), Minute(2 * Gap(qc), [CRASH])] }

  lemma FallingMinutes(strat: Strategy, cfg: EngineConfig)
    ensures
      var st := Play(strat, cfg, INITIAL, [FIRST, Second(cfg.quant)]);
      && Chronological(Falling(cfg.quant)) && Chronological([] + [FIRST, Second(cfg.quant)])
      && Play(strat, cfg, INITIAL, Falling(cfg.quant)) == Step(strat, cfg, st, Minute(2 * Gap(cfg.quant), [CRASH]))
  {
    GapCoversCooldown(cfg.quant);
    hide Step, Gap;
    assert Falling(cfg.quant)[..2] == [FIRST, Second(cfg.quant)] && [] + [FIRST, Second(cfg.quant)] == [FIRST, Second(cfg.quant)];
  }

  lemma NotedByMinute(strat: Strategy, cfg: EngineConfig, st: EngineState, bar: Bar, time: int, e: Event)
    requires e in Lifecycle(strat, cfg, st, bar, time).journal
    ensures e in Step(strat, cfg, st, Minute(time, [bar])).journal
  {
    hide Lifecycle, Screen, FlattenIfDue, Flush, ProcessBars;
    OneBarMinute(strat, cfg, st, bar, time);
    var fed := FeedMarketState(Lifecycle(strat, cfg, st, bar, time), bar, time);
    ScreenQuiet(strat, cfg, fed, bar.symbol, time);
    QuietSkips(fed, ProcessBar(strat, cfg, st, bar, time).0, time);
    var (st1, candidates) := ProcessBars(strat, cfg, st, [bar], time);
    FlushSkips(strat, cfg, st1, candidates, time);
    var st2 := if candidates == [] then st1 else Flush(strat, cfg, st1, candidates, time);
    SweepAside(strat, cfg, st2, time);
  }

  lemma SkipsWhileFalling(cfg: EngineConfig)
    requires !NeverSkips(cfg)
    ensures SkipsSome(Scripted(cfg, [Bull(cfg.quant)], [Bull(cfg.quant)]), cfg, Falling(cfg.quant))
  {
    var bulls := [Bull(cfg.quant)];
    var strat := Scripted(cfg, bulls, bulls);
    var st, time := Play(strat, cfg, INITIAL, [FIRST, Second(cfg.quant)]), 2 * Gap(cfg.quant);
    HeldWithEntryWaiting(cfg);
    ScriptedClock(cfg, bulls, bulls);
    FallingMinutes(strat, cfg);
    hide Play, Step, Lifecycle, Scripted, Bull, Held, Falling, Gap, DateOf, PositionsStand, TradesLeft, QuotesKnown, SkipsKnown, CalendarMonotone;
    CalendarOf(strat);
    RunWatched(strat, cfg, [], [FIRST, Second(cfg.quant)]);
    SkippedExactly(strat, cfg, st, CRASH, time);
    NotedByMinute(strat, cfg, st, CRASH, time, SkippedWhileOpen(time, SYM, |History(st.market, SYM)|));
  }

  lemma CalendarOf(strat: Strategy)
    requires RealClock(strat)
    ensures CalendarMonotone(strat)
  {
  }

  /** A bar can be skipped for a waiting entry, under some strategy, real clock and data, if and only if
      candidates can be published, the throttle lets one through, and not every minute is swept. */
  lemma SkipsPossibleExactly(cfg: EngineConfig)
    ensures CanPublish(cfg.quant) && LetsThrough(cfg.quant, 1) && !AlwaysFlattens(cfg) <==>
      exists strat: Strategy, minutes: seq<Minute> :: SkipsSome(strat, cfg, minutes)
  {
    if !NeverSkips(cfg) {
      SkipsWhileFalling(cfg);
    } else {
      forall strat: Strategy, minutes: seq<Minute> ensures !SkipsSome(strat, cfg, minutes) {
        hide Play, RealClock, Chronological;
        if RealClock(strat) && Chronological(minutes) {
          RunSkipsNothing(strat, cfg, [], minutes);
        }
      }
    }
  }
}
