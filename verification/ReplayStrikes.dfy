/** Where every trade of a run leaves: a position is followed bar by bar from the one that filled it, and
    leaves on the first bar that strikes its bracket, unless an instruction, a sweep or the end of the
    data comes first. A bar goes unexamined only when the journal says that it was skipped. */
module ReplayStrikes {
  import opened Sequences
  import opened Market
  import opened Execution
  import opened Simulator
  import opened Replay
  import opened ReplayFrames
  import opened ReplayLedger
  import opened ReplayDay
  import opened ReplayRuns

  // ------------------------------------------------------------------ what is watched

  /** What a position and the trade it becomes share. */
  datatype Plan = Plan(symbol: Symbol, direction: Direction, entryTime: int, entryRaw: real, stop: Option<real>, target: Option<real>)

  function PositionPlan(p: Position): Plan { Plan(p.symbol, p.direction, p.entryTime, p.entryRaw, p.stop, p.target) }
  function TradePlan(t: Trade): Plan { Plan(t.symbol, t.direction, t.entryTime, t.entryRaw, t.stop, t.target) }

  /** The bar reaches one of the two levels. */
  predicate Struck(p: Plan, bar: Bar) {
    p.stop.Some? && p.target.Some?
    && if p.direction.Bullish? then bar.high >= p.target.value || bar.low <= p.stop.value
       else bar.low <= p.target.value || bar.high >= p.stop.value
  }

  /** The symbol's bar number `at` met an open position with an entry waiting. */
  predicate Skipped(journal: seq<Event>, s: Symbol, f: Fed, at: nat) { SkippedWhileOpen(f.time, s, at) in journal }

  /** The position was filled at the open of bar `e`, the first of its symbol at that time. */
  ghost predicate FilledAt(p: Plan, fed: seq<Fed>, e: nat) {
    && e < |fed| && fed[e].time == p.entryTime && fed[e].bar.open == p.entryRaw
    && forall j :: 0 <= j < e ==> fed[j].time < p.entryTime
  }

  /** No bar from `from` up to `to` strikes, except skipped ones. */
  ghost predicate Unstruck(p: Plan, fed: seq<Fed>, journal: seq<Event>, from: nat, to: nat) {
    && from <= to <= |fed|
    && forall j :: from <= j < to && Struck(p, fed[j].bar) ==> Skipped(journal, p.symbol, fed[j], j)
  }

  ghost predicate Stands(p: Plan, fed: seq<Fed>, journal: seq<Event>, to: nat) {
    exists e: nat :: FilledAt(p, fed, e) && Unstruck(p, fed, journal, e, to)
  }

  /** The level that a struck bar settles on, by the same-bar rule. */
  predicate SettledBy(cfg: ExecutionConfig, t: Trade, f: Fed) {
    && t.stop.Some? && t.target.Some? && f.time == t.exitTime
    && var touch := CheckBarForExit(t.direction, t.stop.value, t.target.value, f.bar.high, f.bar.low, cfg.sameBar);
       && touch.Some? && t.reason == ReasonOf(touch.value)
       && t.exitRaw == if touch.value.StopTouch? then t.stop.value else t.target.value
  }

  /** Bar `x` is where the trade leaves: struck by it, at its open on a signal, or, after the bar before
      `x`, at that bar's close in a sweep or at the end of the data. */
  ghost predicate ExitAt(cfg: ExecutionConfig, t: Trade, fed: seq<Fed>, journal: seq<Event>, e: nat, x: nat) {
    match t.reason
    case StopHit => x < |fed| && SettledBy(cfg, t, fed[x]) && !Skipped(journal, t.symbol, fed[x], x)
    case TargetHit => x < |fed| && SettledBy(cfg, t, fed[x]) && !Skipped(journal, t.symbol, fed[x], x)
    case SignalExit => e < x < |fed| && fed[x].time == t.exitTime && fed[x].bar.open == t.exitRaw
    case EndOfSession =>
      && e < x <= |fed| && fed[x - 1].time <= t.exitTime && fed[x - 1].bar.close == t.exitRaw
      && (x < |fed| ==> t.exitTime < fed[x].time)
    case DataEnd => e < x == |fed| && fed[x - 1].time == t.exitTime && fed[x - 1].bar.close == t.exitRaw
  }

  ghost predicate LeavesAt(cfg: ExecutionConfig, t: Trade, fed: seq<Fed>, journal: seq<Event>, e: nat, x: nat) {
    FilledAt(TradePlan(t), fed, e) && Unstruck(TradePlan(t), fed, journal, e, x) && ExitAt(cfg, t, fed, journal, e, x)
  }

  /** From its entry bar on, nothing struck the trade before it left, except bars that were skipped. */
  ghost predicate LeavesOnFirstStrike(cfg: ExecutionConfig, t: Trade, fed: seq<Fed>, journal: seq<Event>) {
    exists e: nat, x: nat :: LeavesAt(cfg, t, fed, journal, e, x)
  }

  // ------------------------------------------------------------------- more of the same

  /** Later entries of the journal skip no bar of `s` before number `n`. */
  ghost predicate SkipsFrom(journal: seq<Event>, journal': seq<Event>, s: Symbol, n: nat) {
    && journal <= journal'
    && forall i :: |journal| <= i < |journal'| && journal'[i].SkippedWhileOpen? && journal'[i].symbol == s ==> journal'[i].at >= n
  }

  lemma StandsLonger(p: Plan, fed: seq<Fed>, fed': seq<Fed>, journal: seq<Event>, journal': seq<Event>, to: nat)
    requires Stands(p, fed, journal, to) && fed <= fed' && journal <= journal'
    ensures Stands(p, fed', journal', to)
  {
    var e: nat :| FilledAt(p, fed, e) && Unstruck(p, fed, journal, e, to);
    hide Struck;
    UnstruckLonger(p, fed, fed', journal, journal', e, to);
    assert FilledAt(p, fed', e);
  }

  lemma UnstruckLonger(p: Plan, fed: seq<Fed>, fed': seq<Fed>, journal: seq<Event>, journal': seq<Event>, e: nat, to: nat)
    requires Unstruck(p, fed, journal, e, to) && fed <= fed' && journal <= journal'
    ensures Unstruck(p, fed', journal', e, to)
  {
    hide Struck;
    forall j | e <= j < to && Struck(p, fed'[j].bar) ensures Skipped(journal', p.symbol, fed'[j], j) {
      assert fed'[j] == fed[j] && Skipped(journal, p.symbol, fed[j], j);
    }
  }

  /** A trade stays where it left when bars and journal go on, unless later bars belong before its sweep. */
  lemma LeavesStill(cfg: ExecutionConfig, t: Trade, fed: seq<Fed>, fed': seq<Fed>, journal: seq<Event>, journal': seq<Event>)
    requires LeavesOnFirstStrike(cfg, t, fed, journal) && fed <= fed' && SkipsFrom(journal, journal', t.symbol, |fed|)
    requires !t.reason.DataEnd?
    requires t.reason.EndOfSession? ==> forall j :: |fed| <= j < |fed'| ==> t.exitTime < fed'[j].time
    ensures LeavesOnFirstStrike(cfg, t, fed', journal')
  {
    var e: nat, x: nat :| LeavesAt(cfg, t, fed, journal, e, x);
    hide Struck, SettledBy;
    UnstruckLonger(TradePlan(t), fed, fed', journal, journal', e, x);
    assert FilledAt(TradePlan(t), fed', e);
    assert ExitAt(cfg, t, fed', journal', e, x);
    assert LeavesAt(cfg, t, fed', journal', e, x);
  }

  // --------------------------------------------------------------------- the invariant

  /** Every position has stood, from its entry bar on, through the bars of `upto`. */
  ghost predicate PositionsStand(st: EngineState, fed: map<Symbol, seq<Fed>>, upto: map<Symbol, seq<Fed>>) {
    forall s :: s in st.book.positions ==>
      && st.book.positions[s].symbol == s
      && Stands(PositionPlan(st.book.positions[s]), History(fed, s), st.journal, |History(upto, s)|)
  }

  ghost predicate TradesLeft(cfg: ExecutionConfig, st: EngineState, fed: map<Symbol, seq<Fed>>) {
    forall t :: t in st.trades ==> LeavesOnFirstStrike(cfg, t, History(fed, t.symbol), st.journal)
  }

  /** Only bars already fed have been skipped. */
  ghost predicate SkipsKnown(journal: seq<Event>, fed: map<Symbol, seq<Fed>>) {
    forall e :: e in journal && e.SkippedWhileOpen? ==> e.at < |History(fed, e.symbol)|
  }

  /** The last close and time kept of a symbol are those of its last bar. */
  predicate QuoteIs(st: EngineState, s: Symbol, fed: seq<Fed>) {
    s in st.lastClose || s in st.lastTime ==>
      && fed != [] && s in st.lastClose && s in st.lastTime
      && st.lastClose[s] == fed[|fed| - 1].bar.close && st.lastTime[s] == fed[|fed| - 1].time
  }

  ghost predicate QuotesKnown(st: EngineState) {
    forall s :: QuoteIs(st, s, History(st.market, s))
  }

  /** Nothing has closed at the end of the data, and sweeps lie in the past. */
  ghost predicate SweptBefore(trades: seq<Trade>, time: int) {
    forall t :: t in trades ==> !t.reason.DataEnd? && (t.reason.EndOfSession? ==> t.exitTime < time)
  }

  /** A waiting entry has seen no bar of its symbol at this time. */
  ghost predicate EntriesFresh(st: EngineState, time: int) {
    forall s, f :: s in st.pendingEntry && f in History(st.market, s) ==> f.time < time
  }

  ghost predicate Watched(cfg: EngineConfig, st: EngineState) {
    && PositionsStand(st, st.market, st.market) && TradesLeft(cfg.execution, st, st.market)
    && SkipsKnown(st.journal, st.market) && QuotesKnown(st)
  }

  ghost predicate Dated(strat: Strategy, st: EngineState, time: int) {
    && TickersMatch(st.pendingEntry) && EntriesFresh(st, time) && SweptBefore(st.trades, time)
    && (strat.etDate(time) in st.flattened ==> st.book.positions == map[])
  }

  // --------------------------------------------------------------------------- one bar

  function WithBar(market: map<Symbol, seq<Fed>>, bar: Bar, time: int): map<Symbol, seq<Fed>> {
    market[bar.symbol := History(market, bar.symbol) + [Fed(time, bar)]]
  }

  lemma WithBarHistory(market: map<Symbol, seq<Fed>>, bar: Bar, time: int, s: Symbol)
    ensures
      var fed := History(WithBar(market, bar, time), s);
      && fed == History(market, s) + (if s == bar.symbol then [Fed(time, bar)] else []) && History(market, s) <= fed
  {
  }

  lemma PositionsMeetBar(st: EngineState, bar: Bar, time: int)
    requires PositionsStand(st, st.market, st.market)
    ensures PositionsStand(st, WithBar(st.market, bar, time), st.market)
  {
    hide Stands, History, WithBar;
    forall s | s in st.book.positions
      ensures Stands(PositionPlan(st.book.positions[s]), History(WithBar(st.market, bar, time), s), st.journal, |History(st.market, s)|)
    {
      WithBarHistory(st.market, bar, time, s);
      StandsLonger(PositionPlan(st.book.positions[s]), History(st.market, s), History(WithBar(st.market, bar, time), s),
                   st.journal, st.journal, |History(st.market, s)|);
    }
  }

  /** Trades already left are not touched by one more bar, nor by skipping it. */
  lemma TradesMeetBar(cfg: ExecutionConfig, st: EngineState, st': EngineState, bar: Bar, time: int)
    requires TradesLeft(cfg, st, st.market) && SweptBefore(st.trades, time) && st'.trades == st.trades
    requires forall s :: SkipsFrom(st.journal, st'.journal, s, |History(st.market, s)|)
    ensures TradesLeft(cfg, st', WithBar(st.market, bar, time))
  {
    hide LeavesOnFirstStrike, History, WithBar, SkipsFrom;
    forall t | t in st'.trades ensures LeavesOnFirstStrike(cfg, t, History(WithBar(st.market, bar, time), t.symbol), st'.journal) {
      WithBarHistory(st.market, bar, time, t.symbol);
      LeavesStill(cfg, t, History(st.market, t.symbol), History(WithBar(st.market, bar, time), t.symbol), st.journal, st'.journal);
    }
  }

  /** Journal entries other than skips leave trades where they left. */
  lemma TradesNoted(cfg: ExecutionConfig, st: EngineState, st': EngineState, fed: map<Symbol, seq<Fed>>)
    requires TradesLeft(cfg, st, fed) && st'.trades == st.trades && (forall t :: t in st.trades ==> !t.reason.DataEnd?)
    requires forall s :: SkipsFrom(st.journal, st'.journal, s, |History(fed, s)|)
    ensures TradesLeft(cfg, st', fed)
  {
    hide LeavesOnFirstStrike, History, SkipsFrom;
    forall t | t in st'.trades ensures LeavesOnFirstStrike(cfg, t, History(fed, t.symbol), st'.journal) {
      LeavesStill(cfg, t, History(fed, t.symbol), History(fed, t.symbol), st.journal, st'.journal);
    }
  }

  /** Only the position of one symbol has to be looked at again. */
  lemma OthersStand(st: EngineState, st': EngineState, s: Symbol, fed: map<Symbol, seq<Fed>>, upto: map<Symbol, seq<Fed>>,
                    upto': map<Symbol, seq<Fed>>)
    requires PositionsStand(st, fed, upto) && SameElsewhere(st.book, st'.book, s) && st.journal <= st'.journal
    requires forall x :: x != s ==> History(upto', x) == History(upto, x)
    requires s in st'.book.positions ==>
      && st'.book.positions[s].symbol == s
      && Stands(PositionPlan(st'.book.positions[s]), History(fed, s), st'.journal, |History(upto', s)|)
    ensures PositionsStand(st', fed, upto')
  {
    hide Stands, History;
    forall x | x in st'.book.positions && x != s
      ensures st'.book.positions[x].symbol == x
      ensures Stands(PositionPlan(st'.book.positions[x]), History(fed, x), st'.journal, |History(upto', x)|)
    {
      assert x in st.book.positions && st'.book.positions[x] == st.book.positions[x];
      StandsLonger(PositionPlan(st.book.positions[x]), History(fed, x), History(fed, x), st.journal, st'.journal, |History(upto, x)|);
    }
  }

  lemma TradeJoins(cfg: ExecutionConfig, st: EngineState, st': EngineState, t: Trade, fed: map<Symbol, seq<Fed>>)
    requires TradesLeft(cfg, st, fed) && st'.trades == st.trades + [t] && st'.journal == st.journal
    requires LeavesOnFirstStrike(cfg, t, History(fed, t.symbol), st.journal)
    ensures TradesLeft(cfg, st', fed)
  {
    hide LeavesOnFirstStrike;
  }

  // ------------------------------------------------------------------- scheduled exits

  lemma SignalLeaves(cfg: ExecutionConfig, p: Position, bar: Bar, time: int, sig: Option<Signal>, before: seq<Fed>, journal: seq<Event>)
    requires Stands(PositionPlan(p), before, journal, |before|)
    ensures LeavesOnFirstStrike(cfg, CloseTrade(cfg, p, time, bar.open, SignalExit, sig), before + [Fed(time, bar)], journal)
  {
    var e: nat :| FilledAt(PositionPlan(p), before, e) && Unstruck(PositionPlan(p), before, journal, e, |before|);
    var t, fed := CloseTrade(cfg, p, time, bar.open, SignalExit, sig), before + [Fed(time, bar)];
    ClosePlan(cfg, p, time, bar.open, SignalExit, sig);
    hide CloseTrade, Struck;
    UnstruckLonger(PositionPlan(p), before, fed, journal, journal, e, |before|);
    assert LeavesAt(cfg, t, fed, journal, e, |before|);
  }

  lemma ClosePlan(cfg: ExecutionConfig, p: Position, time: int, price: real, reason: ExitReason, sig: Option<Signal>)
    ensures
      var t := CloseTrade(cfg, p, time, price, reason, sig);
      TradePlan(t) == PositionPlan(p) && t.symbol == p.symbol && t.exitTime == time && t.exitRaw == price && t.reason == reason
  {
    hide Gain, InR, ExitCost;
  }

  lemma ExitFilledWatched(cfg: EngineConfig, st: EngineState, bar: Bar, time: int)
    requires bar.symbol in st.pendingExit && bar.symbol in st.book.positions
    requires PositionsStand(st, st.market, st.market) && TradesLeft(cfg.execution, st, WithBar(st.market, bar, time))
    requires SweptBefore(st.trades, time)
    ensures
      var st' := FillExit(cfg, st, bar, time);
      TradesLeft(cfg.execution, st', WithBar(st.market, bar, time)) && SweptBefore(st'.trades, time)
  {
    var p, sig := st.book.positions[bar.symbol], Some(st.pendingExit[bar.symbol]);
    WithBarHistory(st.market, bar, time, bar.symbol);
    ExitFilled(cfg, st, bar, time);
    SignalLeaves(cfg.execution, p, bar, time, sig, History(st.market, bar.symbol), st.journal);
    hide Stands, LeavesOnFirstStrike, History, WithBar, CloseTrade, FillExit;
    var t := CloseTrade(cfg.execution, p, time, bar.open, SignalExit, sig);
    TradeJoins(cfg.execution, st, FillExit(cfg, st, bar, time), t, WithBar(st.market, bar, time));
  }

  lemma FillExitWatched(cfg: EngineConfig, st: EngineState, bar: Bar, time: int)
    requires PositionsStand(st, st.market, st.market) && TradesLeft(cfg.execution, st, st.market) && SweptBefore(st.trades, time)
    ensures
      var st' := FillExit(cfg, st, bar, time);
      var fed := WithBar(st.market, bar, time);
      PositionsStand(st', fed, st.market) && TradesLeft(cfg.execution, st', fed) && SweptBefore(st'.trades, time)
  {
    var s, fed := bar.symbol, WithBar(st.market, bar, time);
    PositionsMeetBar(st, bar, time);
    TradesMeetBar(cfg.execution, st, st, bar, time);
    FillExitFrame(cfg, st, bar, time);
    hide Stands, LeavesOnFirstStrike, History, WithBar, CloseTrade, TradesLeft;
    var st' := FillExit(cfg, st, bar, time);
    if s in st.pendingExit && s in st.book.positions {
      ExitFilledWatched(cfg, st, bar, time);
      ExitFilled(cfg, st, bar, time);
      hide FillExit;
      OthersStand(st, st', s, fed, st.market, st.market);
    } else {
      ExitIdle(cfg, st, bar, time);
      TradesNoted(cfg.execution, st, st', fed);
    }
  }

  lemma ExitIdle(cfg: EngineConfig, st: EngineState, bar: Bar, time: int)
    requires bar.symbol !in st.pendingExit || bar.symbol !in st.book.positions
    ensures var st' := FillExit(cfg, st, bar, time); st'.trades == st.trades && st'.book == st.book && st'.journal == st.journal
  {
  }

  // --------------------------------------------------------------------- the exit check

  lemma ExamineSettles(cfg: ExecutionConfig, p: Position, bar: Bar, time: int)
    ensures
      var (p', t) := Examine(cfg, p, time, bar.high, bar.low);
      && PositionPlan(p') == PositionPlan(p) && (t.Some? <==> Struck(PositionPlan(p), bar))
      && (t.Some? ==> TradePlan(t.value) == PositionPlan(p) && SettledBy(cfg, t.value, Fed(time, bar))
                      && (t.value.reason.StopHit? || t.value.reason.TargetHit?))
  {
    hide Gain, InR, ExitCost;
  }

  /** One more bar either strikes the position, which leaves on it, or does not. */
  lemma ExaminedStands(cfg: ExecutionConfig, p: Position, bar: Bar, time: int, fed: seq<Fed>, journal: seq<Event>, n: nat)
    requires n + 1 == |fed| && fed[n] == Fed(time, bar) && Stands(PositionPlan(p), fed, journal, n)
    requires !Skipped(journal, p.symbol, fed[n], n)
    ensures
      var (p', t) := Examine(cfg, p, time, bar.high, bar.low);
      && (t.None? ==> Stands(PositionPlan(p'), fed, journal, n + 1))
      && (t.Some? ==> LeavesOnFirstStrike(cfg, t.value, fed, journal))
  {
    var e: nat :| FilledAt(PositionPlan(p), fed, e) && Unstruck(PositionPlan(p), fed, journal, e, n);
    var (p', t) := Examine(cfg, p, time, bar.high, bar.low);
    ExamineSettles(cfg, p, bar, time);
    hide Examine, Struck, SettledBy;
    if t.Some? {
      assert LeavesAt(cfg, t.value, fed, journal, e, n);
    } else {
      assert Unstruck(PositionPlan(p'), fed, journal, e, n + 1);
    }
  }

  lemma ExamineCases(cfg: EngineConfig, st: EngineState, bar: Bar, time: int)
    ensures
      var s, st' := bar.symbol, ExamineBar(cfg, st, bar, time);
      if s in st.book.positions then
        var (p', t) := Examine(cfg.execution, st.book.positions[s], time, bar.high, bar.low);
        if t.Some? then st'.trades == st.trades + [t.value] && s !in st'.book.positions
        else st'.trades == st.trades && s in st'.book.positions && st'.book.positions[s] == p'
      else st'.trades == st.trades && s !in st'.book.positions
  {
    hide Examine;
  }

  lemma UnskippedAt(journal: seq<Event>, market: map<Symbol, seq<Fed>>, s: Symbol, f: Fed)
    requires SkipsKnown(journal, market)
    ensures !Skipped(journal, s, f, |History(market, s)|)
  {
    hide History;
  }

  /** The examined symbol: its position leaves on this bar or stands through it. */
  lemma HeldExamined(cfg: EngineConfig, st: EngineState, bar: Bar, time: int)
    requires bar.symbol in st.book.positions && st.book.positions[bar.symbol].symbol == bar.symbol
    requires SkipsKnown(st.journal, st.market)
    requires
      Stands(PositionPlan(st.book.positions[bar.symbol]), History(WithBar(st.market, bar, time), bar.symbol), st.journal,
             |History(st.market, bar.symbol)|)
    ensures
      var s := bar.symbol;
      var fed := History(WithBar(st.market, bar, time), s);
      var (p', t) := Examine(cfg.execution, st.book.positions[s], time, bar.high, bar.low);
      && (t.None? ==> p'.symbol == s && Stands(PositionPlan(p'), fed, st.journal, |fed|))
      && (t.Some? ==> t.value.symbol == s && LeavesOnFirstStrike(cfg.execution, t.value, fed, st.journal)
                      && (t.value.reason.StopHit? || t.value.reason.TargetHit?))
  {
    var s, p := bar.symbol, st.book.positions[bar.symbol];
    WithBarHistory(st.market, bar, time, s);
    UnskippedAt(st.journal, st.market, s, Fed(time, bar));
    ExamineSettles(cfg.execution, p, bar, time);
    hide Stands, LeavesOnFirstStrike, History, WithBar, Examine, SkipsKnown, Skipped, Struck, SettledBy;
    ExaminedStands(cfg.execution, p, bar, time, History(WithBar(st.market, bar, time), s), st.journal, |History(st.market, s)|);
  }

  lemma ExamineWatched(cfg: EngineConfig, st: EngineState, bar: Bar, time: int, fed: map<Symbol, seq<Fed>>)
    requires fed == WithBar(st.market, bar, time) && PositionsStand(st, fed, st.market) && TradesLeft(cfg.execution, st, fed)
    requires SkipsKnown(st.journal, st.market) && SweptBefore(st.trades, time)
    ensures
      var st' := ExamineBar(cfg, st, bar, time);
      && PositionsStand(st', fed, fed) && TradesLeft(cfg.execution, st', fed) && SweptBefore(st'.trades, time)
      && st'.journal == st.journal
  {
    var s, st' := bar.symbol, ExamineBar(cfg, st, bar, time);
    forall x | x != s ensures History(fed, x) == History(st.market, x) { WithBarHistory(st.market, bar, time, x); }
    ExamineFrame(cfg, st, bar, time);
    ExamineCases(cfg, st, bar, time);
    hide Stands, LeavesOnFirstStrike, History, WithBar, Examine, SkipsKnown, ExamineBar, TradesLeft;
    if s in st.book.positions {
      HeldExamined(cfg, st, bar, time);
      var t := Examine(cfg.execution, st.book.positions[s], time, bar.high, bar.low).1;
      if t.Some? {
        TradeJoins(cfg.execution, st, st', t.value, fed);
      } else {
        TradesUntouched(cfg.execution, st, st', fed);
      }
    } else {
      TradesUntouched(cfg.execution, st, st', fed);
    }
    OthersStand(st, st', s, fed, st.market, fed);
  }

  lemma TradesUntouched(cfg: ExecutionConfig, st: EngineState, st': EngineState, fed: map<Symbol, seq<Fed>>)
    requires TradesLeft(cfg, st, fed) && st'.trades == st.trades && st'.journal == st.journal
    ensures TradesLeft(cfg, st', fed)
  {
    hide LeavesOnFirstStrike, History;
  }

  // ----------------------------------------------------------------- scheduled entries

  lemma NewPlan(cfg: ExecutionConfig, signal: Signal, time: int, price: real, score: Option<real>)
    ensures
      PositionPlan(NewPosition(cfg, signal, time, price, score))
      == Plan(signal.ticker, signal.direction, time, price, signal.stop, signal.target)
  {
    hide EntryCost, RiskOf;
  }

  /** A fill stands from its own bar on, which is still to be examined. */
  lemma FillStands(p: Plan, bar: Bar, time: int, before: seq<Fed>, journal: seq<Event>)
    requires p.entryTime == time && p.entryRaw == bar.open && forall f :: f in before ==> f.time < time
    ensures Stands(p, before + [Fed(time, bar)], journal, |before|)
  {
    var fed := before + [Fed(time, bar)];
    assert forall j :: 0 <= j < |before| ==> fed[j] == before[j] && before[j] in before;
    assert FilledAt(p, fed, |before|);
    assert Unstruck(p, fed, journal, |before|, |before|);
  }

  lemma PlainNote(journal: seq<Event>, e: Event, fed: map<Symbol, seq<Fed>>)
    requires !e.SkippedWhileOpen?
    ensures forall s, n :: SkipsFrom(journal, journal + [e], s, n)
    ensures SkipsKnown(journal, fed) ==> SkipsKnown(journal + [e], fed)
  {
    hide History;
  }

  lemma EnterWatched(cfg: EngineConfig, st: EngineState, pending: PendingEntry, signal: Signal, bar: Bar, time: int,
                     fed: map<Symbol, seq<Fed>>)
    requires fed == WithBar(st.market, bar, time) && signal.ticker == bar.symbol
    requires forall f :: f in History(st.market, bar.symbol) ==> f.time < time
    requires PositionsStand(st, fed, st.market) && TradesLeft(cfg.execution, st, fed)
    requires SkipsKnown(st.journal, st.market) && SweptBefore(st.trades, time)
    ensures
      var st' := Enter(cfg, st, pending, signal, bar, time);
      && PositionsStand(st', fed, st.market) && TradesLeft(cfg.execution, st', fed) && SkipsKnown(st'.journal, st.market)
      && st'.trades == st.trades && st'.market == st.market
  {
    var s := bar.symbol;
    var p := NewPosition(cfg.execution, signal, time, bar.open, Some(pending.score));
    var st' := Enter(cfg, st, pending, signal, bar, time);
    WithBarHistory(st.market, bar, time, s);
    EnterFrame(cfg, st, pending, signal, bar, time);
    NewPlan(cfg.execution, signal, time, bar.open, Some(pending.score));
    hide Stands, LeavesOnFirstStrike, History, WithBar, NewPosition, TradesLeft, SkipsKnown, SkipsFrom, PositionTicket;
    assert st'.book.positions[s] == p && p.symbol == s;
    PlainNote(st.journal, Entered(PositionTicket(p), pending.signal), st.market);
    FillStands(PositionPlan(p), bar, time, History(st.market, s), st'.journal);
    TradesNoted(cfg.execution, st, st', fed);
    OthersStand(st, st', s, fed, st.market, st.market);
  }

  // ------------------------------------------------------------------------- skipped bars

  /** The skip is noted under the very place the bar takes, so the position still stands. */
  lemma SkipWatched(cfg: EngineConfig, st: EngineState, st': EngineState, bar: Bar, time: int)
    requires PositionsStand(st, st.market, st.market) && TradesLeft(cfg.execution, st, st.market) && SweptBefore(st.trades, time)
    requires bar.symbol in st.book.positions && st'.book == st.book && st'.trades == st.trades
    requires st'.journal == st.journal + [SkippedWhileOpen(time, bar.symbol, |History(st.market, bar.symbol)|)]
    ensures
      var fed := WithBar(st.market, bar, time);
      PositionsStand(st', fed, fed) && TradesLeft(cfg.execution, st', fed)
  {
    var s, fed := bar.symbol, WithBar(st.market, bar, time);
    forall x ensures History(fed, x) == History(st.market, x) + (if x == s then [Fed(time, bar)] else []) {
      WithBarHistory(st.market, bar, time, x);
    }
    hide LeavesOnFirstStrike, History, WithBar, Stands;
    TradesMeetBar(cfg.execution, st, st', bar, time);
    PositionsMeetBar(st, bar, time);
    SkippedStands(PositionPlan(st.book.positions[s]), bar, time, History(st.market, s), st.journal);
    OthersStand(st, st', s, fed, st.market, fed);
  }

  lemma SkippedStands(p: Plan, bar: Bar, time: int, before: seq<Fed>, journal: seq<Event>)
    requires Stands(p, before, journal, |before|)
    ensures
      var journal' := journal + [SkippedWhileOpen(time, p.symbol, |before|)];
      Stands(p, before + [Fed(time, bar)], journal', |before| + 1)
  {
    var e: nat :| FilledAt(p, before, e) && Unstruck(p, before, journal, e, |before|);
    var fed, journal' := before + [Fed(time, bar)], journal + [SkippedWhileOpen(time, p.symbol, |before|)];
    hide Struck;
    UnstruckLonger(p, before, fed, journal, journal', e, |before|);
    assert FilledAt(p, fed, e);
    assert SkippedWhileOpen(time, p.symbol, |before|) in journal';
    assert Unstruck(p, fed, journal', e, |before| + 1);
  }

  // ---------------------------------------------------------------- the lifecycle of a bar

  ghost predicate AfterBar(cfg: EngineConfig, st: EngineState, fed: map<Symbol, seq<Fed>>, time: int) {
    && PositionsStand(st, fed, fed) && TradesLeft(cfg.execution, st, fed) && SkipsKnown(st.journal, fed) && SweptBefore(st.trades, time)
  }

  lemma SkipsGrow(journal: seq<Event>, market: map<Symbol, seq<Fed>>, bar: Bar, time: int)
    requires SkipsKnown(journal, market)
    ensures SkipsKnown(journal, WithBar(market, bar, time))
    ensures SkipsKnown(journal + [SkippedWhileOpen(time, bar.symbol, |History(market, bar.symbol)|)], WithBar(market, bar, time))
  {
    forall s ensures |History(market, s)| <= |History(WithBar(market, bar, time), s)| { WithBarHistory(market, bar, time, s); }
    WithBarHistory(market, bar, time, bar.symbol);
    hide History, WithBar;
  }

  lemma UnfilledWatched(cfg: EngineConfig, st: EngineState, st': EngineState, bar: Bar, time: int)
    requires PositionsStand(st, WithBar(st.market, bar, time), st.market) && TradesLeft(cfg.execution, st, WithBar(st.market, bar, time))
    requires SkipsKnown(st.journal, st.market) && SweptBefore(st.trades, time)
    requires bar.symbol !in st.book.positions && st'.book == st.book && st'.trades == st.trades && st'.journal == st.journal
    ensures AfterBar(cfg, st', WithBar(st.market, bar, time), time)
  {
    var fed := WithBar(st.market, bar, time);
    SkipsGrow(st.journal, st.market, bar, time);
    forall x | x != bar.symbol ensures History(fed, x) == History(st.market, x) { WithBarHistory(st.market, bar, time, x); }
    hide LeavesOnFirstStrike, History, WithBar, Stands, SkipsKnown;
    OthersStand(st, st', bar.symbol, fed, st.market, fed);
  }

  lemma FilledWatched(cfg: EngineConfig, st: EngineState, pending: PendingEntry, signal: Signal, bar: Bar, time: int)
    requires signal.ticker == bar.symbol
    requires forall f :: f in History(st.market, bar.symbol) ==> f.time < time
    requires PositionsStand(st, WithBar(st.market, bar, time), st.market) && TradesLeft(cfg.execution, st, WithBar(st.market, bar, time))
    requires SkipsKnown(st.journal, st.market) && SweptBefore(st.trades, time)
    ensures AfterBar(cfg, ExamineBar(cfg, Enter(cfg, st, pending, signal, bar, time), bar, time), WithBar(st.market, bar, time), time)
  {
    var fed := WithBar(st.market, bar, time);
    EnterWatched(cfg, st, pending, signal, bar, time, fed);
    hide PositionsStand, TradesLeft, SkipsKnown, SweptBefore, Enter, ExamineBar, WithBar, History;
    var entered := Enter(cfg, st, pending, signal, bar, time);
    ExamineWatched(cfg, entered, bar, time, fed);
    SkipsGrow(entered.journal, st.market, bar, time);
  }

  /** What the entry stage may count on once the exit stage is over. */
  ghost predicate EntryReady(strat: Strategy, cfg: EngineConfig, st: EngineState, bar: Bar, time: int) {
    && (bar.symbol in st.pendingEntry ==>
          st.pendingEntry[bar.symbol].signal.ticker == bar.symbol && forall f :: f in History(st.market, bar.symbol) ==> f.time < time)
    && (bar.symbol in st.book.positions ==>
          PositionsStand(st, st.market, st.market) && TradesLeft(cfg.execution, st, st.market) && strat.etDate(time) !in st.flattened)
    && PositionsStand(st, WithBar(st.market, bar, time), st.market) && TradesLeft(cfg.execution, st, WithBar(st.market, bar, time))
    && SkipsKnown(st.journal, st.market) && SweptBefore(st.trades, time)
  }

  lemma FlatEntryWatched(strat: Strategy, cfg: EngineConfig, st: EngineState, bar: Bar, time: int)
    requires EntryReady(strat, cfg, st, bar, time) && bar.symbol in st.pendingEntry && bar.symbol !in st.book.positions
    ensures AfterBar(cfg, FillEntry(strat, cfg, st, bar, time), WithBar(st.market, bar, time), time)
  {
    var pending := st.pendingEntry[bar.symbol];
    var st1 := st.(pendingEntry := st.pendingEntry - {bar.symbol});
    var signal := FinalizeFillGeometry(cfg.quant, pending.signal, bar.open);
    FinalizeKeepsTicker(cfg.quant, pending.signal, bar.open);
    hide PositionsStand, TradesLeft, SkipsKnown, SweptBefore, Enter, ExamineBar, WithBar, History, FinalizeFillGeometry, AfterBar;
    SameBookWatched(cfg, st, st1, WithBar(st.market, bar, time), st.market);
    if signal.Some? && strat.etDate(time) !in st.flattened {
      FilledWatched(cfg, st1, pending, signal.value, bar, time);
    } else {
      UnfilledWatched(cfg, st, FillEntry(strat, cfg, st, bar, time), bar, time);
    }
  }

  lemma FillEntryWatched(strat: Strategy, cfg: EngineConfig, st: EngineState, bar: Bar, time: int)
    requires EntryReady(strat, cfg, st, bar, time)
    ensures AfterBar(cfg, FillEntry(strat, cfg, st, bar, time), WithBar(st.market, bar, time), time)
  {
    var s := bar.symbol;
    var fed := WithBar(st.market, bar, time);
    SkipsGrow(st.journal, st.market, bar, time);
    hide PositionsStand, TradesLeft, SkipsKnown, SweptBefore, Enter, ExamineBar, WithBar, History, FinalizeFillGeometry;
    if s !in st.pendingEntry {
      ExamineWatched(cfg, st, bar, time, fed);
    } else {
      if s in st.book.positions {
        SkippedCase(strat, cfg, st, bar, time);
        hide FillEntry;
        SkipWatched(cfg, st, FillEntry(strat, cfg, st, bar, time), bar, time);
        SkippedOnlyNotes(st, FillEntry(strat, cfg, st, bar, time), time);
      } else {
        FlatEntryWatched(strat, cfg, st, bar, time);
      }
    }
  }

  lemma SkippedCase(strat: Strategy, cfg: EngineConfig, st: EngineState, bar: Bar, time: int)
    requires bar.symbol in st.pendingEntry && bar.symbol in st.book.positions && strat.etDate(time) !in st.flattened
    ensures
      var st' := FillEntry(strat, cfg, st, bar, time);
      && st'.book == st.book && st'.trades == st.trades
      && st'.journal == st.journal + [SkippedWhileOpen(time, bar.symbol, |History(st.market, bar.symbol)|)]
  {
    hide History;
  }

  lemma SkippedOnlyNotes(st: EngineState, st': EngineState, time: int)
    requires SweptBefore(st.trades, time) && st'.trades == st.trades
    ensures SweptBefore(st'.trades, time)
  {
  }

  lemma SameBookWatched(cfg: EngineConfig, st: EngineState, st': EngineState, fed: map<Symbol, seq<Fed>>, upto: map<Symbol, seq<Fed>>)
    requires PositionsStand(st, fed, upto) && TradesLeft(cfg.execution, st, fed)
    requires st'.book == st.book && st'.trades == st.trades && st'.journal == st.journal
    ensures PositionsStand(st', fed, upto) && TradesLeft(cfg.execution, st', fed)
  {
    hide LeavesOnFirstStrike, Stands, History;
  }

  lemma HeldThroughExit(cfg: EngineConfig, st: EngineState, bar: Bar, time: int)
    requires bar.symbol in FillExit(cfg, st, bar, time).book.positions
    ensures FillExit(cfg, st, bar, time) == st
  {
    if bar.symbol in st.pendingExit && bar.symbol in st.book.positions {
      ExitFilled(cfg, st, bar, time);
    }
    hide RecordIfAny, Closed;
  }

  lemma ExitStageWatched(strat: Strategy, cfg: EngineConfig, st: EngineState, bar: Bar, time: int)
    requires PositionsStand(st, st.market, st.market) && TradesLeft(cfg.execution, st, st.market)
    requires SkipsKnown(st.journal, st.market) && Dated(strat, st, time)
    ensures EntryReady(strat, cfg, FillExit(cfg, st, bar, time), bar, time) && FillExit(cfg, st, bar, time).market == st.market
  {
    hide PositionsStand, TradesLeft, SkipsKnown, SweptBefore, WithBar, History;
    FillExitWatched(cfg, st, bar, time);
    FillExitFrame(cfg, st, bar, time);
    var st1 := FillExit(cfg, st, bar, time);
    if bar.symbol in st1.book.positions {
      HeldThroughExit(cfg, st, bar, time);
    }
    hide FillExit;
  }

  lemma CountedBar(strat: Strategy, cfg: EngineConfig, st: EngineState, time: int)
    requires Watched(cfg, st) && Dated(strat, st, time)
    ensures
      var st' := st.(barsProcessed := st.barsProcessed + 1);
      && PositionsStand(st', st.market, st.market) && TradesLeft(cfg.execution, st', st.market)
      && SkipsKnown(st'.journal, st.market) && Dated(strat, st', time)
  {
    hide SkipsKnown, SweptBefore, History, QuotesKnown, TickersMatch, LeavesOnFirstStrike, Stands;
  }

  lemma LifecycleStages(strat: Strategy, cfg: EngineConfig, st: EngineState, bar: Bar, time: int)
    ensures
      Lifecycle(strat, cfg, st, bar, time)
      == FillEntry(strat, cfg, FillExit(cfg, st.(barsProcessed := st.barsProcessed + 1), bar, time), bar, time)
  {
    hide FillExit, FillEntry;
  }

  lemma LifecycleWatched(strat: Strategy, cfg: EngineConfig, st: EngineState, bar: Bar, time: int)
    requires Watched(cfg, st) && Dated(strat, st, time)
    ensures AfterBar(cfg, Lifecycle(strat, cfg, st, bar, time), WithBar(st.market, bar, time), time)
  {
    hide *;
    CountedBar(strat, cfg, st, time);
    LifecycleStages(strat, cfg, st, bar, time);
    var st0 := st.(barsProcessed := st.barsProcessed + 1);
    ExitStageWatched(strat, cfg, st0, bar, time);
    FillEntryWatched(strat, cfg, FillExit(cfg, st0, bar, time), bar, time);
  }

  lemma EntrySkips(strat: Strategy, cfg: EngineConfig, st: EngineState, bar: Bar, time: int, at: nat)
    requires SkippedWhileOpen(time, bar.symbol, at) !in st.journal && at == |History(st.market, bar.symbol)|
    ensures SkippedWhileOpen(time, bar.symbol, at) in FillEntry(strat, cfg, st, bar, time).journal <==>
      bar.symbol in st.pendingEntry && bar.symbol in st.book.positions && strat.etDate(time) !in st.flattened
  {
    var s := bar.symbol;
    hide ExamineBar, Enter, FinalizeFillGeometry, History;
    if s !in st.pendingEntry {
      ExamineFrame(cfg, st, bar, time);
    } else if strat.etDate(time) !in st.flattened && s !in st.book.positions {
      var pending := st.pendingEntry[s];
      var signal := FinalizeFillGeometry(cfg.quant, pending.signal, bar.open);
      if signal.Some? {
        var st1 := st.(pendingEntry := st.pendingEntry - {s});
        EnterNotes(cfg, st1, pending, signal.value, bar, time);
        ExamineFrame(cfg, Enter(cfg, st1, pending, signal.value, bar, time), bar, time);
      }
    }
  }

  lemma EnterNotes(cfg: EngineConfig, st: EngineState, pending: PendingEntry, signal: Signal, bar: Bar, time: int)
    ensures forall e: Event :: e.SkippedWhileOpen? ==> (e in Enter(cfg, st, pending, signal, bar, time).journal <==> e in st.journal)
  {
    hide NewPosition, Opened, PositionTicket;
  }

  /** A bar is skipped exactly when it meets an open position that no exit is about to leave and an entry
      waiting for the same symbol, on a date not flattened. */
  lemma SkippedExactly(strat: Strategy, cfg: EngineConfig, st: EngineState, bar: Bar, time: int)
    requires SkipsKnown(st.journal, st.market)
    ensures
      var s := bar.symbol;
      Skipped(Lifecycle(strat, cfg, st, bar, time).journal, s, Fed(time, bar), |History(st.market, s)|) <==>
        s in st.book.positions && s !in st.pendingExit && s in st.pendingEntry && strat.etDate(time) !in st.flattened
  {
    var st0 := st.(barsProcessed := st.barsProcessed + 1);
    LifecycleStages(strat, cfg, st, bar, time);
    FillExitFrame(cfg, st0, bar, time);
    var st1 := FillExit(cfg, st0, bar, time);
    if bar.symbol in st.book.positions && bar.symbol in st.pendingExit {
      ExitFilled(cfg, st0, bar, time);
    } else {
      ExitIdle(cfg, st0, bar, time);
    }
    hide FillExit, FillEntry, Lifecycle, History;
    EntrySkips(strat, cfg, st1, bar, time, |History(st.market, bar.symbol)|);
  }

  // ------------------------------------------------------------------- feeding, screening

  lemma FedQuotes(st: EngineState, bar: Bar, time: int)
    requires QuotesKnown(st)
    ensures QuotesKnown(FeedMarketState(st, bar, time))
  {
    var st' := FeedMarketState(st, bar, time);
    forall s ensures QuoteIs(st', s, History(st'.market, s)) {
      WithBarHistory(st.market, bar, time, s);
      assert QuoteIs(st, s, History(st.market, s));
    }
  }

  lemma FedWatched(cfg: EngineConfig, st: EngineState, bar: Bar, time: int)
    requires AfterBar(cfg, st, WithBar(st.market, bar, time), time) && QuotesKnown(st)
    ensures Watched(cfg, FeedMarketState(st, bar, time))
  {
    FedQuotes(st, bar, time);
    var st' := FeedMarketState(st, bar, time);
    assert st'.market == WithBar(st.market, bar, time);
    hide QuotesKnown, WithBar, History, Stands, LeavesOnFirstStrike, SkipsKnown;
    SameBookWatched(cfg, st, st', st'.market, st'.market);
  }

  lemma NoSkipsKnown(journal: seq<Event>, journal': seq<Event>, fed: map<Symbol, seq<Fed>>)
    requires NoSkips(journal, journal') && SkipsKnown(journal, fed)
    ensures SkipsKnown(journal', fed) && forall s, n :: SkipsFrom(journal, journal', s, n)
  {
    hide History;
    forall e | e in journal' && e.SkippedWhileOpen? ensures e in journal {
      var i :| 0 <= i < |journal'| && journal'[i] == e;
    }
  }

  /** Everything but bars, positions, trades and prices may change. */
  lemma AsideWatched(cfg: EngineConfig, st: EngineState, st': EngineState, time: int)
    requires Watched(cfg, st) && SweptBefore(st.trades, time) && NoSkips(st.journal, st'.journal)
    requires st'.book == st.book && st'.trades == st.trades && st'.market == st.market
    requires st'.lastClose == st.lastClose && st'.lastTime == st.lastTime
    ensures Watched(cfg, st')
  {
    NoSkipsKnown(st.journal, st'.journal, st.market);
    hide History, Stands, LeavesOnFirstStrike, SkipsKnown, SkipsFrom;
    TradesNoted(cfg.execution, st, st', st.market);
    AllStand(st, st', st.market);
  }

  lemma AllStand(st: EngineState, st': EngineState, fed: map<Symbol, seq<Fed>>)
    requires PositionsStand(st, fed, fed) && st'.book == st.book && st.journal <= st'.journal
    ensures PositionsStand(st', fed, fed)
  {
    hide Stands, History;
    forall s | s in st'.book.positions ensures Stands(PositionPlan(st'.book.positions[s]), History(fed, s), st'.journal, |History(fed, s)|) {
      StandsLonger(PositionPlan(st.book.positions[s]), History(fed, s), History(fed, s), st.journal, st'.journal, |History(fed, s)|);
    }
  }

  lemma QuietSkips(st: EngineState, st': EngineState, time: int)
    requires Quiet(st, st', time)
    ensures NoSkips(st.journal, st'.journal)
  {
  }

  /** Feeding and screening leave everything else as the lifecycle left it, and skip nothing. */
  lemma ScreenedAside(strat: Strategy, cfg: EngineConfig, st: EngineState, bar: Bar, time: int)
    ensures
      var st1, st' := Lifecycle(strat, cfg, st, bar, time), ProcessBar(strat, cfg, st, bar, time).0;
      && st'.book == st1.book && st'.pendingEntry == st1.pendingEntry && st'.trades == st1.trades
      && st'.flattened == st1.flattened && NoSkips(st1.journal, st'.journal)
  {
    hide Lifecycle, Screen, NoSkips;
    var st2 := FeedMarketState(Lifecycle(strat, cfg, st, bar, time), bar, time);
    ScreenQuiet(strat, cfg, st2, bar.symbol, time);
    QuietSkips(st2, ProcessBar(strat, cfg, st, bar, time).0, time);
  }

  lemma ProcessBarDated(strat: Strategy, cfg: EngineConfig, st: EngineState, bar: Bar, time: int)
    requires Dated(strat, st, time) && SweptBefore(ProcessBar(strat, cfg, st, bar, time).0.trades, time)
    ensures Dated(strat, ProcessBar(strat, cfg, st, bar, time).0, time)
  {
    hide Lifecycle, Screen, SweptBefore, History;
    LifecycleFrame(strat, cfg, st, bar, time);
    var st2 := FeedMarketState(Lifecycle(strat, cfg, st, bar, time), bar, time);
    forall s | s != bar.symbol ensures History(st2.market, s) == History(st.market, s) { WithBarHistory(st.market, bar, time, s); }
    ScreenQuiet(strat, cfg, st2, bar.symbol, time);
  }

  lemma ProcessBarWatched(strat: Strategy, cfg: EngineConfig, st: EngineState, bar: Bar, time: int)
    requires Watched(cfg, st) && Dated(strat, st, time)
    ensures
      var st' := ProcessBar(strat, cfg, st, bar, time).0;
      Watched(cfg, st') && SweptBefore(st'.trades, time)
  {
    LifecycleWatched(strat, cfg, st, bar, time);
    LifecycleFrame(strat, cfg, st, bar, time);
    var st1 := Lifecycle(strat, cfg, st, bar, time);
    var st2 := FeedMarketState(st1, bar, time);
    hide Lifecycle, Screen, SweptBefore, History, PositionsStand, TradesLeft, SkipsKnown, WithBar, NoSkips, TickersMatch, EntriesFresh;
    FedWatched(cfg, st1, bar, time);
    ScreenQuiet(strat, cfg, st2, bar.symbol, time);
    QuietSkips(st2, ProcessBar(strat, cfg, st, bar, time).0, time);
    hide QuotesKnown;
    AsideWatched(cfg, st2, ProcessBar(strat, cfg, st, bar, time).0, time);
  }

  lemma {:induction false} ProcessBarsWatched(strat: Strategy, cfg: EngineConfig, st: EngineState, bars: seq<Bar>, time: int)
    requires Watched(cfg, st) && Dated(strat, st, time)
    ensures var st' := ProcessBars(strat, cfg, st, bars, time).0; Watched(cfg, st') && Dated(strat, st', time)
  {
    hide Watched, Dated, ProcessBar, SweptBefore;
    if bars != [] {
      var front := bars[..|bars| - 1];
      ProcessBarsWatched(strat, cfg, st, front, time);
      var st1 := ProcessBars(strat, cfg, st, front, time).0;
      ProcessBarWatched(strat, cfg, st1, bars[|bars| - 1], time);
      ProcessBarDated(strat, cfg, st1, bars[|bars| - 1], time);
    }
  }

  // ------------------------------------------------------------------------ the throttle

  lemma RouteSkips(st: EngineState, signal: Signal, score: real, time: int)
    ensures Route(st, signal, score, time).journal == st.journal
  {
    var s := signal.ticker;
    hide Reject;
    if signal.direction.Bullish? {
      assert Route(st, signal, score, time) == st.(pendingEntry := st.pendingEntry[s := PendingEntry(signal, score)]);
    } else if s in st.book.positions {
      assert Route(st, signal, score, time) == st.(pendingExit := st.pendingExit[s := signal]);
    } else {
      RejectNotes(st, s, NoActivePosition, time);
    }
  }

  lemma RejectNotes(st: EngineState, s: Symbol, reason: Reason, time: int)
    ensures Reject(st, s, reason, 1, time).journal == st.journal
  {
  }

  lemma ReleaseSkips(cfg: EngineConfig, st: EngineState, c: Scored, time: int)
    ensures NoSkips(st.journal, Release(cfg, st, c, time).journal)
  {
    hide Revalidate, Route;
    var r := Revalidate(cfg, st, c.signal);
    if r.Valid? {
      var noted := Note(st, Publication(st, r.signal, time));
      RouteSkips(noted.(published := noted.published + 1,
                        cooldownUntil := noted.cooldownUntil[c.signal.ticker := time + cfg.quant.cooldownSeconds]),
                 r.signal, c.score, time);
    }
  }

  lemma {:induction false} ReleaseAllSkips(cfg: EngineConfig, st: EngineState, released: seq<Scored>, time: int)
    ensures NoSkips(st.journal, ReleaseAll(cfg, st, released, time).journal)
  {
    hide Release;
    if released != [] {
      ReleaseAllSkips(cfg, st, released[..|released| - 1], time);
      ReleaseSkips(cfg, ReleaseAll(cfg, st, released[..|released| - 1], time), released[|released| - 1], time);
    }
  }

  lemma FlushSkips(strat: Strategy, cfg: EngineConfig, st: EngineState, candidates: seq<Signal>, time: int)
    ensures NoSkips(st.journal, Flush(strat, cfg, st, candidates, time).journal)
  {
    hide ReleaseAll, RejectThrottled, NoSkips;
    var ranked := Ranked(strat, candidates);
    var end := SliceEnd(|ranked|, cfg.quant.throttleMaxSignals);
    ReleaseAllSkips(cfg, st, ranked[..end], time);
    RejectThrottledQuiet(ReleaseAll(cfg, st, ranked[..end], time), CountByTicker(ranked[end..]), time);
  }

  lemma FlushWatched(strat: Strategy, cfg: EngineConfig, st: EngineState, candidates: seq<Signal>, time: int)
    requires Watched(cfg, st) && SweptBefore(st.trades, time)
    ensures var st' := Flush(strat, cfg, st, candidates, time); Watched(cfg, st') && st'.trades == st.trades
  {
    FlushThrottleOnly(strat, cfg, st, candidates, time);
    FlushSkips(strat, cfg, st, candidates, time);
    hide Flush, Watched, NoSkips, SweptBefore;
    AsideWatched(cfg, st, Flush(strat, cfg, st, candidates, time), time);
  }

  // --------------------------------------------------------------------------- the sweep

  lemma QuoteLeaves(cfg: ExecutionConfig, p: Position, time: int, reason: ExitReason, fed: seq<Fed>, journal: seq<Event>)
    requires fed != [] && Stands(PositionPlan(p), fed, journal, |fed|)
    requires (reason == EndOfSession && fed[|fed| - 1].time <= time) || (reason == DataEnd && fed[|fed| - 1].time == time)
    ensures LeavesOnFirstStrike(cfg, CloseTrade(cfg, p, time, fed[|fed| - 1].bar.close, reason, None), fed, journal)
  {
    var e: nat :| FilledAt(PositionPlan(p), fed, e) && Unstruck(PositionPlan(p), fed, journal, e, |fed|);
    ClosePlan(cfg, p, time, fed[|fed| - 1].bar.close, reason, None);
    hide CloseTrade, Struck;
    assert LeavesAt(cfg, CloseTrade(cfg, p, time, fed[|fed| - 1].bar.close, reason, None), fed, journal, e, |fed|);
  }

  ghost predicate HistoryBefore(market: map<Symbol, seq<Fed>>, time: int) {
    forall s, f :: f in History(market, s) ==> f.time < time
  }

  ghost predicate HistoryBy(market: map<Symbol, seq<Fed>>, time: int) {
    forall s, f :: f in History(market, s) ==> f.time <= time
  }

  lemma ForceCloseWatched(cfg: EngineConfig, st: EngineState, s: Symbol, time: int)
    requires Watched(cfg, st) && HistoryBy(st.market, time) && SweptBefore(st.trades, time + 1)
    ensures var st' := ForceClose(cfg, st, s, time); Watched(cfg, st') && st'.market == st.market && SweptBefore(st'.trades, time + 1)
  {
    var st' := ForceClose(cfg, st, s, time);
    hide Stands, LeavesOnFirstStrike, History, CloseTrade, SkipsKnown;
    ForceCloseFrame(cfg, st, s, time);
    if s in st.lastClose && s in st.book.positions {
      var fed := History(st.market, s);
      assert fed[|fed| - 1] in fed;
      var t := CloseTrade(cfg.execution, st.book.positions[s], time, st.lastClose[s], EndOfSession, None);
      ClosePlan(cfg.execution, st.book.positions[s], time, st.lastClose[s], EndOfSession, None);
      QuoteLeaves(cfg.execution, st.book.positions[s], time, EndOfSession, fed, st.journal);
      TradeJoins(cfg.execution, st, st', t, st.market);
      hide ForceClose;
      OthersStand(st, st', s, st.market, st.market, st.market);
    }
  }

  lemma ForceCloseFrame(cfg: EngineConfig, st: EngineState, s: Symbol, time: int)
    ensures
      var st' := ForceClose(cfg, st, s, time);
      && st' == st.(book := st'.book, trades := st'.trades, lockoutUntil := st'.lockoutUntil)
      && SameElsewhere(st.book, st'.book, s) && (s in st.lastClose ==> s !in st'.book.positions)
      && (s in st.lastClose && s in st.book.positions ==>
            st'.trades == st.trades + [CloseTrade(cfg.execution, st.book.positions[s], time, st.lastClose[s], EndOfSession, None)])
      && (s !in st.lastClose || s !in st.book.positions ==> st'.trades == st.trades && st'.book == st.book)
  {
    hide CloseTrade;
    if s in st.lastClose {
      ClosedElsewhere(cfg.execution, st.book, s, time, st.lastClose[s], EndOfSession, None);
    }
  }

  lemma {:induction false} ForceCloseAllWatched(cfg: EngineConfig, st: EngineState, symbols: seq<Symbol>, time: int)
    requires Watched(cfg, st) && HistoryBy(st.market, time) && SweptBefore(st.trades, time + 1)
    ensures
      var st' := ForceCloseAll(cfg, st, symbols, time);
      Watched(cfg, st') && st'.market == st.market && SweptBefore(st'.trades, time + 1)
  {
    hide Watched, HistoryBy, SweptBefore, ForceClose;
    if symbols != [] {
      ForceCloseAllWatched(cfg, st, symbols[..|symbols| - 1], time);
      ForceCloseWatched(cfg, ForceCloseAll(cfg, st, symbols[..|symbols| - 1], time), symbols[|symbols| - 1], time);
    }
  }

  // -------------------------------------------------------- the histories are the data

  function BarsIn(bars: seq<Bar>, time: int, s: Symbol): seq<Fed> {
    if bars == [] then []
    else
      var last := bars[|bars| - 1];
      BarsIn(bars[..|bars| - 1], time, s) + if last.symbol == s then [Fed(time, last)] else []
  }

  /** One symbol's bars in the data, in order. */
  function BarsOf(minutes: seq<Minute>, s: Symbol): seq<Fed> {
    if minutes == [] then []
    else
      var last := minutes[|minutes| - 1];
      BarsOf(minutes[..|minutes| - 1], s) + BarsIn(last.bars, last.time, s)
  }

  lemma {:induction false} BarsInTimes(bars: seq<Bar>, time: int, s: Symbol)
    ensures forall f :: f in BarsIn(bars, time, s) ==> f.time == time
  {
    if bars != [] {
      BarsInTimes(bars[..|bars| - 1], time, s);
    }
  }

  lemma {:induction false} BarsOfTimes(minutes: seq<Minute>, s: Symbol)
    requires Chronological(minutes) && minutes != []
    ensures forall f :: f in BarsOf(minutes, s) ==> f.time <= minutes[|minutes| - 1].time
  {
    var front, last := minutes[..|minutes| - 1], minutes[|minutes| - 1];
    BarsInTimes(last.bars, last.time, s);
    if front != [] {
      BarsOfTimes(front, s);
      assert front[|front| - 1].time < last.time;
    }
  }

  lemma {:induction false} ProcessBarsFeed(strat: Strategy, cfg: EngineConfig, st: EngineState, bars: seq<Bar>, time: int, s: Symbol)
    requires TickersMatch(st.pendingEntry)
    ensures
      var st' := ProcessBars(strat, cfg, st, bars, time).0;
      TickersMatch(st'.pendingEntry) && History(st'.market, s) == History(st.market, s) + BarsIn(bars, time, s)
  {
    hide ProcessBar, History;
    if bars != [] {
      var front := bars[..|bars| - 1];
      ProcessBarsFeed(strat, cfg, st, front, time, s);
      ProcessBarFeeds(strat, cfg, ProcessBars(strat, cfg, st, front, time).0, bars[|bars| - 1], time, s);
    }
  }

  lemma ProcessBarFeeds(strat: Strategy, cfg: EngineConfig, st: EngineState, bar: Bar, time: int, s: Symbol)
    requires TickersMatch(st.pendingEntry)
    ensures
      var st' := ProcessBar(strat, cfg, st, bar, time).0;
      && TickersMatch(st'.pendingEntry)
      && History(st'.market, s) == History(st.market, s) + (if bar.symbol == s then [Fed(time, bar)] else [])
  {
    hide Lifecycle, Screen, History;
    LifecycleFrame(strat, cfg, st, bar, time);
    var st2 := FeedMarketState(Lifecycle(strat, cfg, st, bar, time), bar, time);
    WithBarHistory(st.market, bar, time, s);
    assert st2.market == WithBar(st.market, bar, time);
    ScreenQuiet(strat, cfg, st2, bar.symbol, time);
  }

  lemma StepFeeds(strat: Strategy, cfg: EngineConfig, st: EngineState, m: Minute, s: Symbol)
    requires TickersMatch(st.pendingEntry)
    ensures History(Step(strat, cfg, st, m).market, s) == History(st.market, s) + BarsIn(m.bars, m.time, s)
  {
    ProcessBarsFeed(strat, cfg, st, m.bars, m.time, s);
    hide ProcessBars, Flush, ForceCloseAll, History, BarsIn, TickersMatch;
    var (st1, candidates) := ProcessBars(strat, cfg, st, m.bars, m.time);
    FlushThrottleOnly(strat, cfg, st1, candidates, m.time);
    var st2 := if candidates == [] then st1 else Flush(strat, cfg, st1, candidates, m.time);
    ForceCloseAllBook(cfg, st2.(flattened := st2.flattened + {strat.etDate(m.time)}), st2.book.order, m.time);
  }

  lemma {:induction false} WarmupBarsFeed(st: EngineState, bars: seq<Bar>, time: int, s: Symbol)
    requires QuotesKnown(st)
    ensures var st' := WarmupBars(st, bars, time); QuotesKnown(st') && History(st'.market, s) == History(st.market, s) + BarsIn(bars, time, s)
  {
    hide QuotesKnown, History;
    if bars != [] {
      var front, bar := bars[..|bars| - 1], bars[|bars| - 1];
      WarmupBarsFeed(st, front, time, s);
      var st1 := WarmupBars(st, front, time);
      FedQuotes(st1, bar, time);
      SameQuotes(FeedMarketState(st1, bar, time), WarmupBar(st1, bar, time));
      WithBarHistory(st1.market, bar, time, s);
    }
  }

  lemma SameQuotes(st: EngineState, st': EngineState)
    requires QuotesKnown(st) && st'.market == st.market && st'.lastClose == st.lastClose && st'.lastTime == st.lastTime
    ensures QuotesKnown(st')
  {
    hide History;
    forall s ensures QuoteIs(st', s, History(st'.market, s)) { assert QuoteIs(st, s, History(st.market, s)); }
  }

  lemma {:induction false} WarmupFeeds(warmup: seq<Minute>, s: Symbol)
    ensures var st := Warmup(INITIAL, warmup); QuotesKnown(st) && History(st.market, s) == BarsOf(warmup, s)
  {
    if warmup != [] {
      WarmupFeeds(warmup[..|warmup| - 1], s);
      var last := warmup[|warmup| - 1];
      WarmupBarsFeed(Warmup(INITIAL, warmup[..|warmup| - 1]), last.bars, last.time, s);
    }
  }

  lemma DataSnoc(warmup: seq<Minute>, minutes: seq<Minute>, s: Symbol)
    requires minutes != []
    ensures
      var m := minutes[|minutes| - 1];
      BarsOf(warmup + minutes, s) == BarsOf(warmup + minutes[..|minutes| - 1], s) + BarsIn(m.bars, m.time, s)
  {
    var all := warmup + minutes;
    assert all[..|all| - 1] == warmup + minutes[..|minutes| - 1] && all[|all| - 1] == minutes[|minutes| - 1];
  }

  /** What the engine has been fed of a symbol is exactly what the data holds of it, in order. */
  lemma {:induction false} MarketIsTheData(strat: Strategy, cfg: EngineConfig, warmup: seq<Minute>, minutes: seq<Minute>, s: Symbol)
    requires Chronological(minutes)
    ensures History(Play(strat, cfg, Warmup(INITIAL, warmup), minutes).market, s) == BarsOf(warmup + minutes, s)
  {
    hide Step, Warmup, History, LedgerInv, TickersMatch, BarsOf, BarsIn;
    if minutes == [] {
      WarmupFeeds(warmup, s);
      assert warmup + minutes == warmup;
    } else {
      var front, m := minutes[..|minutes| - 1], minutes[|minutes| - 1];
      MarketIsTheData(strat, cfg, warmup, front, s);
      DataSnoc(warmup, minutes, s);
      RunTickersMatch(strat, cfg, warmup, front);
      StepFeeds(strat, cfg, Play(strat, cfg, Warmup(INITIAL, warmup), front), m, s);
    }
  }

  lemma WarmupTickersMatch(strat: Strategy, cfg: EngineConfig, warmup: seq<Minute>)
    ensures TickersMatch(Play(strat, cfg, Warmup(INITIAL, warmup), []).pendingEntry)
  {
    WarmupMarketOnly(INITIAL, warmup);
    hide Warmup;
  }

  lemma RunTickersMatch(strat: Strategy, cfg: EngineConfig, warmup: seq<Minute>, minutes: seq<Minute>)
    requires Chronological(minutes)
    ensures TickersMatch(Play(strat, cfg, Warmup(INITIAL, warmup), minutes).pendingEntry)
  {
    hide *;
    if minutes == [] {
      WarmupTickersMatch(strat, cfg, warmup);
    } else {
      PlayKeepsLedger(strat, cfg, warmup, minutes);
      var now := minutes[|minutes| - 1].time;
      LedgerTickers(Play(strat, cfg, Warmup(INITIAL, warmup), minutes), now + 1, now + 1);
    }
  }

  // ---------------------------------------------------------------------- whole runs

  lemma BarsOfMinute(market: map<Symbol, seq<Fed>>, market': map<Symbol, seq<Fed>>, bars: seq<Bar>, time: int)
    requires HistoryBefore(market, time)
    requires forall s :: History(market', s) == History(market, s) + BarsIn(bars, time, s)
    ensures HistoryBy(market', time)
  {
    hide History;
    forall s, f | f in History(market', s) ensures f.time <= time {
      BarsInTimes(bars, time, s);
      if f !in History(market, s) {
        assert f in BarsIn(bars, time, s);
      }
    }
  }

  lemma StepWatched(strat: Strategy, cfg: EngineConfig, st: EngineState, m: Minute)
    requires Watched(cfg, st) && Dated(strat, st, m.time)
    requires HistoryBefore(st.market, m.time)
    ensures var st' := Step(strat, cfg, st, m); Watched(cfg, st') && SweptBefore(st'.trades, m.time + 1)
  {
    ProcessBarsWatched(strat, cfg, st, m.bars, m.time);
    var (st1, candidates) := ProcessBars(strat, cfg, st, m.bars, m.time);
    forall s ensures History(st1.market, s) == History(st.market, s) + BarsIn(m.bars, m.time, s) {
      ProcessBarsFeed(strat, cfg, st, m.bars, m.time, s);
    }
    hide ProcessBars, Flush, ForceCloseAll, History, BarsIn, TickersMatch, Watched, EntriesFresh, HistoryBy;
    BarsOfMinute(st.market, st1.market, m.bars, m.time);
    if candidates != [] {
      FlushWatched(strat, cfg, st1, candidates, m.time);
      FlushThrottleOnly(strat, cfg, st1, candidates, m.time);
    }
    var st2 := if candidates == [] then st1 else Flush(strat, cfg, st1, candidates, m.time);
    assert SweptBefore(st2.trades, m.time + 1);
    if FlattenDue(strat, cfg, st2, m.time) {
      var st3 := st2.(flattened := st2.flattened + {strat.etDate(m.time)});
      hide SweptBefore;
      FlaggedWatched(cfg, st2, st3);
      ForceCloseAllWatched(cfg, st3, st2.book.order, m.time);
    }
  }

  lemma FlaggedWatched(cfg: EngineConfig, st: EngineState, st': EngineState)
    requires Watched(cfg, st) && st' == st.(flattened := st'.flattened)
    ensures Watched(cfg, st')
  {
    hide SkipsKnown, History, Stands, LeavesOnFirstStrike;
    SameBookWatched(cfg, st, st', st.market, st.market);
    SameQuotes(st, st');
  }

  lemma WarmupWatched(cfg: EngineConfig, warmup: seq<Minute>)
    ensures Watched(cfg, Warmup(INITIAL, warmup))
  {
    WarmupMarketOnly(INITIAL, warmup);
    WarmupFeeds(warmup, "");
    hide QuotesKnown;
  }

  lemma FedBefore(strat: Strategy, cfg: EngineConfig, warmup: seq<Minute>, minutes: seq<Minute>)
    requires Chronological(warmup + minutes) && minutes != []
    ensures
      HistoryBefore(Play(strat, cfg, Warmup(INITIAL, warmup), minutes[..|minutes| - 1]).market, minutes[|minutes| - 1].time)
  {
    hide Play, Warmup, History;
    var front, m := minutes[..|minutes| - 1], minutes[|minutes| - 1];
    var earlier := warmup + front;
    assert warmup + minutes == earlier + [m];
    ChronologicalFront(earlier, m);
    forall s, f | f in History(Play(strat, cfg, Warmup(INITIAL, warmup), front).market, s) ensures f.time < m.time {
      ChronologicalBack(warmup, front);
      MarketIsTheData(strat, cfg, warmup, front, s);
      if earlier != [] {
        BarsOfTimes(earlier, s);
      }
    }
  }

  lemma ChronologicalFront(earlier: seq<Minute>, m: Minute)
    requires Chronological(earlier + [m])
    ensures Chronological(earlier) && (earlier != [] ==> earlier[|earlier| - 1].time < m.time)
  {
    var all := earlier + [m];
    forall i, j | 0 <= i < j < |earlier| ensures earlier[i].time < earlier[j].time { assert all[i] == earlier[i] && all[j] == earlier[j]; }
    if earlier != [] {
      assert all[|earlier| - 1] == earlier[|earlier| - 1] && all[|earlier|] == m;
    }
  }

  lemma ChronologicalBack(warmup: seq<Minute>, minutes: seq<Minute>)
    requires Chronological(warmup + minutes)
    ensures Chronological(minutes)
  {
    var all := warmup + minutes;
    forall i, j | 0 <= i < j < |minutes| ensures minutes[i].time < minutes[j].time {
      assert all[|warmup| + i] == minutes[i] && all[|warmup| + j] == minutes[j];
    }
  }

  lemma SweptEarlier(trades: seq<Trade>, time: int, time': int)
    requires SweptBefore(trades, time) && time <= time'
    ensures SweptBefore(trades, time')
  {
  }

  lemma StartsDated(strat: Strategy, cfg: EngineConfig, warmup: seq<Minute>, minutes: seq<Minute>)
    requires CalendarMonotone(strat) && Chronological(warmup + minutes) && minutes != []
    requires
      var front := minutes[..|minutes| - 1];
      front != [] ==> SweptBefore(Play(strat, cfg, Warmup(INITIAL, warmup), front).trades, front[|front| - 1].time + 1)
    ensures Dated(strat, Play(strat, cfg, Warmup(INITIAL, warmup), minutes[..|minutes| - 1]), minutes[|minutes| - 1].time)
  {
    ChronologicalBack(warmup, minutes);
    var front, m := minutes[..|minutes| - 1], minutes[|minutes| - 1];
    FedBefore(strat, cfg, warmup, minutes);
    RunTickersMatch(strat, cfg, warmup, front);
    if front == [] {
      WarmupMarketOnly(INITIAL, warmup);
    } else {
      hide Play, Warmup, History, TickersMatch, HistoryBefore, SweptBefore;
      PlayKeepsDay(strat, cfg, warmup, front);
      assert front[|front| - 1].time < m.time;
      SweptEarlier(Play(strat, cfg, Warmup(INITIAL, warmup), front).trades, front[|front| - 1].time + 1, m.time);
    }
    hide Play, Warmup, History, TickersMatch;
  }

  /** At every point of a run all positions still stand and all trades left where they should have. */
  lemma {:induction false} RunWatched(strat: Strategy, cfg: EngineConfig, warmup: seq<Minute>, minutes: seq<Minute>)
    requires CalendarMonotone(strat) && Chronological(warmup + minutes)
    ensures
      var st := Play(strat, cfg, Warmup(INITIAL, warmup), minutes);
      Watched(cfg, st) && (minutes != [] ==> SweptBefore(st.trades, minutes[|minutes| - 1].time + 1))
  {
    hide Step, Warmup, Watched, SweptBefore, Dated, History;
    if minutes == [] {
      WarmupWatched(cfg, warmup);
    } else {
      var front, m := minutes[..|minutes| - 1], minutes[|minutes| - 1];
      assert warmup + minutes == (warmup + front) + [m];
      ChronologicalFront(warmup + front, m);
      RunWatched(strat, cfg, warmup, front);
      StartsDated(strat, cfg, warmup, minutes);
      FedBefore(strat, cfg, warmup, minutes);
      StepWatched(strat, cfg, Play(strat, cfg, Warmup(INITIAL, warmup), front), m);
    }
  }

  // ----------------------------------------------------------------------- end of data

  lemma DataEndWatched(cfg: EngineConfig, st: EngineState, s: Symbol)
    requires Watched(cfg, st)
    ensures var st' := CloseAtDataEnd(cfg, st, s); Watched(cfg, st') && st'.market == st.market && st'.journal == st.journal
  {
    var st' := CloseAtDataEnd(cfg, st, s);
    DataEndFrame(cfg, st, s);
    hide Stands, LeavesOnFirstStrike, History, CloseTrade, SkipsKnown, CloseAtDataEnd;
    if s in st.lastClose && s in st.lastTime && s in st.book.positions {
      var fed := History(st.market, s);
      assert QuoteIs(st, s, fed);
      var t := CloseTrade(cfg.execution, st.book.positions[s], st.lastTime[s], st.lastClose[s], DataEnd, None);
      ClosePlan(cfg.execution, st.book.positions[s], st.lastTime[s], st.lastClose[s], DataEnd, None);
      QuoteLeaves(cfg.execution, st.book.positions[s], st.lastTime[s], DataEnd, fed, st.journal);
      TradeJoins(cfg.execution, st, st', t, st.market);
      OthersStand(st, st', s, st.market, st.market, st.market);
      SameQuotes(st, st');
    }
  }

  lemma DataEndFrame(cfg: EngineConfig, st: EngineState, s: Symbol)
    ensures
      var st' := CloseAtDataEnd(cfg, st, s);
      && st' == st.(book := st'.book, trades := st'.trades) && SameElsewhere(st.book, st'.book, s)
      && (if s in st.lastClose && s in st.lastTime && s in st.book.positions then
            && s !in st'.book.positions
            && st'.trades == st.trades + [CloseTrade(cfg.execution, st.book.positions[s], st.lastTime[s], st.lastClose[s], DataEnd, None)]
          else st' == st)
  {
    hide CloseTrade;
    if s in st.lastClose && s in st.lastTime {
      ClosedElsewhere(cfg.execution, st.book, s, st.lastTime[s], st.lastClose[s], DataEnd, None);
    }
  }

  lemma {:induction false} AllDataEndWatched(cfg: EngineConfig, st: EngineState, symbols: seq<Symbol>)
    requires Watched(cfg, st)
    ensures var st' := CloseAllAtDataEnd(cfg, st, symbols); Watched(cfg, st') && st'.market == st.market && st'.journal == st.journal
  {
    hide Watched, CloseAtDataEnd;
    if symbols != [] {
      AllDataEndWatched(cfg, st, symbols[..|symbols| - 1]);
      DataEndWatched(cfg, CloseAllAtDataEnd(cfg, st, symbols[..|symbols| - 1]), symbols[|symbols| - 1]);
    }
  }

  // ------------------------------------------------------------------------- theorems

  /** At every timestamp of every run, no bar since an open position's entry bar, that one included, has
      struck it, except bars that were skipped because an entry was waiting. */
  lemma OpenPositionsStand(strat: Strategy, cfg: EngineConfig, warmup: seq<Minute>, minutes: seq<Minute>, k: nat, s: Symbol)
    requires CalendarMonotone(strat) && Chronological(warmup + minutes) && k <= |minutes|
    ensures
      var st := Play(strat, cfg, Warmup(INITIAL, warmup), minutes[..k]);
      var fed := BarsOf(warmup + minutes[..k], s);
      s in st.book.positions ==> Stands(PositionPlan(st.book.positions[s]), fed, st.journal, |fed|)
  {
    assert warmup + minutes == (warmup + minutes[..k]) + minutes[k..];
    ChronologicalPrefix(warmup + minutes[..k], minutes[k..]);
    RunWatched(strat, cfg, warmup, minutes[..k]);
    ChronologicalBack(warmup, minutes[..k]);
    MarketIsTheData(strat, cfg, warmup, minutes[..k], s);
    hide Play, Warmup, History, Stands, TradesLeft, SkipsKnown, QuotesKnown;
  }

  lemma ChronologicalPrefix(xs: seq<Minute>, ys: seq<Minute>)
    requires Chronological(xs + ys)
    ensures Chronological(xs)
  {
    forall i, j | 0 <= i < j < |xs| ensures xs[i].time < xs[j].time { assert (xs + ys)[i] == xs[i] && (xs + ys)[j] == xs[j]; }
  }

  /** Every trade of a finished run, from its entry bar on, leaves on the first of its symbol's bars that
      strikes its bracket and was not skipped for a waiting entry, at the level the same-bar rule gives;
      or before any does, on a signal at a bar's open, or at the last close in a sweep or at the end. */
  lemma TradesLeaveOnFirstStrike(strat: Strategy, cfg: EngineConfig, warmup: seq<Minute>, minutes: seq<Minute>)
    requires CalendarMonotone(strat) && Chronological(warmup + minutes)
    ensures
      var r := Run(strat, cfg, warmup, minutes);
      r.Completed? ==> forall t :: t in r.state.trades ==>
        LeavesOnFirstStrike(cfg.execution, t, BarsOf(warmup + minutes, t.symbol), r.state.journal)
  {
    if minutes != [] {
      var st := Play(strat, cfg, Warmup(INITIAL, warmup), minutes);
      RunWatched(strat, cfg, warmup, minutes);
      AllDataEndWatched(cfg, st, st.book.order);
      ChronologicalBack(warmup, minutes);
      hide Play, Warmup, History, LeavesOnFirstStrike, PositionsStand, SkipsKnown, QuotesKnown, CloseAllAtDataEnd;
      forall t | t in FinishRun(cfg, st).trades
        ensures LeavesOnFirstStrike(cfg.execution, t, BarsOf(warmup + minutes, t.symbol), FinishRun(cfg, st).journal)
      {
        MarketIsTheData(strat, cfg, warmup, minutes, t.symbol);
      }
    }
  }
}
