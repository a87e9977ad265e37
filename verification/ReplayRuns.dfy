/** Theorems about whole replay runs: the position ledger, end-of-day safety, and the absence
    of look-ahead. */
module ReplayRuns {
  import opened Sequences
  import opened Market
  import opened Execution
  import opened Simulator
  import opened Replay
  import opened ReplayFrames
  import opened ReplayLedger
  import opened ReplayDay

  // ------------------------------------------------------------------- warm-up

  lemma {:induction false} WarmupBarsMarketOnly(st: EngineState, bars: seq<Bar>, time: int)
    ensures
      var st' := WarmupBars(st, bars, time);
      st' == st.(market := st'.market, lastClose := st'.lastClose, lastTime := st'.lastTime, warmupBars := st.warmupBars + |bars|)
  {
    if bars != [] {
      WarmupBarsMarketOnly(st, bars[..|bars| - 1], time);
    }
  }

  /** Pre-roll leaves every piece of trading state exactly as it was: no instruction, position,
      clock, ledger entry or evaluation counter can come out of it. */
  lemma {:induction false} WarmupMarketOnly(st: EngineState, minutes: seq<Minute>)
    ensures
      var st' := Warmup(st, minutes);
      st' == st.(market := st'.market, lastClose := st'.lastClose, lastTime := st'.lastTime, warmupBars := st'.warmupBars)
  {
    if minutes != [] {
      var last := minutes[|minutes| - 1];
      WarmupMarketOnly(st, minutes[..|minutes| - 1]);
      WarmupBarsMarketOnly(Warmup(st, minutes[..|minutes| - 1]), last.bars, last.time);
    }
  }

  // ------------------------------------------------------------- the invariant

  /** The first instant after the data seen so far. */
  function After(minutes: seq<Minute>, start: int): int {
    if minutes == [] then start else minutes[|minutes| - 1].time + 1
  }

  lemma WarmedUpSound(warmup: seq<Minute>, start: int)
    ensures
      var st := Warmup(INITIAL, warmup);
      LedgerInv(st, start, start) && Priced(st) && st.flattened == {} && st.trades == [] && st.rejections == [] && st.journal == []
  {
    WarmupMarketOnly(INITIAL, warmup);
    var st := Warmup(INITIAL, warmup);
    assert BookTickets(st.book) == multiset{};
  }

  lemma {:induction false} PlayKeepsLedger(strat: Strategy, cfg: EngineConfig, warmup: seq<Minute>, minutes: seq<Minute>)
    requires Chronological(minutes) && minutes != []
    ensures
      var st := Play(strat, cfg, Warmup(INITIAL, warmup), minutes);
      var now := minutes[|minutes| - 1].time;
      LedgerInv(st, now + 1, now + 1) && Priced(st)
  {
    hide LedgerInv, Step, Priced;
    var st0 := Warmup(INITIAL, warmup);
    var front := minutes[..|minutes| - 1];
    var m := minutes[|minutes| - 1];
    if front == [] {
      WarmedUpSound(warmup, m.time);
      StepKeepsLedger(strat, cfg, st0, m);
      StepPriced(strat, cfg, st0, m);
    } else {
      PlayKeepsLedger(strat, cfg, warmup, front);
      var st := Play(strat, cfg, st0, front);
      var before := front[|front| - 1].time + 1;
      LedgerWeaken(st, before, before, m.time, m.time);
      StepKeepsLedger(strat, cfg, st, m);
      StepPriced(strat, cfg, st, m);
    }
  }

  // ---------------------------------------------------------------- end of data

  lemma CloseAtDataEndKeepsLedger(cfg: EngineConfig, st: EngineState, s: Symbol, before: int)
    requires LedgerInv(st, before, before) && Priced(st)
    ensures
      var st' := CloseAtDataEnd(cfg, st, s);
      && LedgerInv(st', before, before) && Priced(st') && s !in st'.book.positions
      && (forall x :: x in st'.book.positions ==> x in st.book.positions)
      && st' == st.(book := st'.book, trades := st'.trades)
      && st.trades <= st'.trades
      && (forall i :: |st.trades| <= i < |st'.trades| ==> st'.trades[i].reason == DataEnd)
  {
    hide LedgerInv, CloseTrade;
    if s in st.book.positions {
      var (book, t) := Closed(cfg.execution, st.book, s, st.lastTime[s], st.lastClose[s], DataEnd, None);
      ClosedElsewhere(cfg.execution, st.book, s, st.lastTime[s], st.lastClose[s], DataEnd, None);
      CloseTradeFacts(cfg.execution, st.book.positions[s], st.lastTime[s], st.lastClose[s], DataEnd, None);
      ClosedSoundly(cfg, st, s, st.lastTime[s], st.lastClose[s], DataEnd, None, before, before);
      LedgerFrame(RecordIfAny(cfg, st.(book := book), t, st.lastTime[s]), CloseAtDataEnd(cfg, st, s), before, before);
    }
  }

  lemma {:induction false} CloseAllAtDataEndKeepsLedger(cfg: EngineConfig, st: EngineState, symbols: seq<Symbol>, before: int)
    requires LedgerInv(st, before, before) && Priced(st)
    ensures
      var st' := CloseAllAtDataEnd(cfg, st, symbols);
      && LedgerInv(st', before, before) && Priced(st')
      && (forall x :: x in st'.book.positions ==> x in st.book.positions && x !in symbols)
      && st' == st.(book := st'.book, trades := st'.trades)
      && st.trades <= st'.trades
      && (forall i :: |st.trades| <= i < |st'.trades| ==> st'.trades[i].reason == DataEnd)
  {
    hide LedgerInv, CloseAtDataEnd, Priced;
    if symbols != [] {
      var front := symbols[..|symbols| - 1];
      CloseAllAtDataEndKeepsLedger(cfg, st, front, before);
      CloseAtDataEndKeepsLedger(cfg, CloseAllAtDataEnd(cfg, st, front), symbols[|symbols| - 1], before);
      assert symbols == front + [symbols[|symbols| - 1]];
      var st1, st' := CloseAllAtDataEnd(cfg, st, front), CloseAllAtDataEnd(cfg, st, symbols);
      forall i | |st.trades| <= i < |st'.trades| ensures st'.trades[i].reason == DataEnd {
        if i < |st1.trades| { assert st'.trades[i] == st1.trades[i]; }
      }
    }
  }

  // ------------------------------------------------------- theorem: the ledger

  /** At every timestamp of every run, whatever has been opened is exactly what has been closed
      plus what is still open; every position is a long enclosed by its own levels; every trade
      reports an honest result; every signal exit closes the very position that was held when
      the signal was published, strictly earlier; every entry fills an earlier bullish publication. */
  lemma PositionLedgerAtEveryStep(strat: Strategy, cfg: EngineConfig, warmup: seq<Minute>, minutes: seq<Minute>, k: nat)
    requires Chronological(minutes) && 0 < k <= |minutes|
    ensures
      var st := Play(strat, cfg, Warmup(INITIAL, warmup), minutes[..k]);
      && Conserved(st)
      && PositionsSound(st.book, minutes[k - 1].time + 1)
      && TradesSound(st.trades, st.journal)
      && EntriesSound(st.journal, st.journal)
  {
    PlayKeepsLedger(strat, cfg, warmup, minutes[..k]);
  }

  /** When the data ends nothing is open, and the trades are the openings: each opening has
      become exactly one trade with its own fill, levels and signal. */
  lemma EveryOpeningBecomesOneTrade(strat: Strategy, cfg: EngineConfig, warmup: seq<Minute>, minutes: seq<Minute>)
    requires Chronological(minutes)
    ensures
      var r := Run(strat, cfg, warmup, minutes);
      r.Completed? ==>
        && r.state.book.positions == map[]
        && multiset(TradeTickets(r.state.trades)) == multiset(EnteredTickets(r.state.journal))
        && TradesSound(r.state.trades, r.state.journal)
        && EntriesSound(r.state.journal, r.state.journal)
  {
    if minutes != [] {
      var st := Play(strat, cfg, Warmup(INITIAL, warmup), minutes);
      var before := minutes[|minutes| - 1].time + 1;
      PlayKeepsLedger(strat, cfg, warmup, minutes);
      LedgerTickers(st, before, before);
      CloseAllAtDataEndKeepsLedger(cfg, st, st.book.order, before);
      NothingOpen(FinishRun(cfg, st).book);
    }
  }

  lemma NothingOpen(b: Book)
    requires WellFormed(b) && forall s :: s !in b.positions
    ensures b.positions == map[] && BookTickets(b) == multiset{}
  {
  }

  // --------------------------------------------------- theorem: end-of-day safety

  /** Whether some minute so far lies on `date` at or after the configured time. */
  ghost predicate SweepReached(strat: Strategy, cfg: EngineConfig, minutes: seq<Minute>, date: int) {
    cfg.eodFlattenEnabled
    && exists i :: 0 <= i < |minutes| && strat.etDate(minutes[i].time) == date && strat.etSecond(minutes[i].time) >= cfg.flattenSecond
  }

  lemma {:induction false} PlayKeepsDay(strat: Strategy, cfg: EngineConfig, warmup: seq<Minute>, minutes: seq<Minute>)
    requires CalendarMonotone(strat) && Chronological(minutes) && minutes != []
    ensures
      var st := Play(strat, cfg, Warmup(INITIAL, warmup), minutes);
      && DayInv(strat, st, minutes[|minutes| - 1].time)
      && forall d :: d in st.flattened <==> SweepReached(strat, cfg, minutes, d)
  {
    hide LedgerInv, Step, Priced;
    var st0 := Warmup(INITIAL, warmup);
    var front := minutes[..|minutes| - 1];
    var m := minutes[|minutes| - 1];
    assert minutes == front + [m];
    var st := Play(strat, cfg, st0, front);
    if front == [] {
      WarmedUpSound(warmup, m.time);
      StepKeepsDay(strat, cfg, st0, m, m.time - 1);
    } else {
      PlayKeepsDay(strat, cfg, warmup, front);
      PlayKeepsLedger(strat, cfg, warmup, front);
      var last := front[|front| - 1].time;
      LedgerWeaken(st, last + 1, last + 1, m.time, m.time);
      StepKeepsDay(strat, cfg, st, m, last);
    }
    var st' := Play(strat, cfg, st0, minutes);
    assert st' == Step(strat, cfg, st, m);
    assert forall d :: d in st.flattened <==> SweepReached(strat, cfg, front, d);
    forall d ensures d in st'.flattened <==> SweepReached(strat, cfg, minutes, d) {
      SweepExtends(strat, cfg, front, m, d);
    }
  }

  lemma SweepExtends(strat: Strategy, cfg: EngineConfig, front: seq<Minute>, m: Minute, d: int)
    ensures SweepReached(strat, cfg, front + [m], d) <==>
      SweepReached(strat, cfg, front, d)
      || (cfg.eodFlattenEnabled && strat.etDate(m.time) == d && strat.etSecond(m.time) >= cfg.flattenSecond)
  {
    var minutes := front + [m];
    if SweepReached(strat, cfg, front, d) {
      var i :| 0 <= i < |front| && strat.etDate(front[i].time) == d && strat.etSecond(front[i].time) >= cfg.flattenSecond;
      assert minutes[i] == front[i];
    }
    if cfg.eodFlattenEnabled && strat.etDate(m.time) == d && strat.etSecond(m.time) >= cfg.flattenSecond {
      assert minutes[|front|] == m;
    }
  }

  /** After any timestamp whose date has reached the sweep, no symbol holds a position: nothing
      survives the sweep and nothing opens for the rest of that date. */
  lemma FlatAfterSweep(strat: Strategy, cfg: EngineConfig, warmup: seq<Minute>, minutes: seq<Minute>, k: nat)
    requires CalendarMonotone(strat) && Chronological(minutes) && 0 < k <= |minutes|
    requires SweepReached(strat, cfg, minutes[..k], strat.etDate(minutes[k - 1].time))
    ensures Play(strat, cfg, Warmup(INITIAL, warmup), minutes[..k]).book.positions == map[]
  {
    PlayKeepsDay(strat, cfg, warmup, minutes[..k]);
  }

  // ------------------------------------------------------ theorem: no look-ahead

  lemma {:induction false} PlayExtends(strat: Strategy, cfg: EngineConfig, st0: EngineState, minutes: seq<Minute>, k: nat)
    requires Chronological(minutes) && k <= |minutes|
    ensures
      var early, late := Play(strat, cfg, st0, minutes[..k]), Play(strat, cfg, st0, minutes);
      && early.trades <= late.trades && early.rejections <= late.rejections && early.journal <= late.journal
      && (forall i :: |early.trades| <= i < |late.trades| ==>
            k < |minutes| && late.trades[i].exitTime >= minutes[k].time && late.trades[i].reason != DataEnd)
      && (forall i :: |early.rejections| <= i < |late.rejections| ==>
            k < |minutes| && late.rejections[i].time >= minutes[k].time)
    decreases |minutes|
  {
    hide Step;
    if k == |minutes| {
      assert minutes[..k] == minutes;
    } else {
      var front := minutes[..|minutes| - 1];
      var m := minutes[|minutes| - 1];
      assert front[..k] == minutes[..k];
      PlayExtends(strat, cfg, st0, front, k);
      var early, mid := Play(strat, cfg, st0, minutes[..k]), Play(strat, cfg, st0, front);
      var late := Play(strat, cfg, st0, minutes);
      StepGrows(strat, cfg, mid, m);
      assert late == Step(strat, cfg, mid, m);
      forall i | |early.trades| <= i < |late.trades|
        ensures late.trades[i].exitTime >= minutes[k].time && late.trades[i].reason != DataEnd
      {
        if i < |mid.trades| { assert late.trades[i] == mid.trades[i]; }
      }
      forall i | |early.rejections| <= i < |late.rejections| ensures late.rejections[i].time >= minutes[k].time {
        if i < |mid.rejections| { assert late.rejections[i] == mid.rejections[i]; }
      }
    }
  }

  lemma {:induction false} PlayTimes(strat: Strategy, cfg: EngineConfig, warmup: seq<Minute>, minutes: seq<Minute>)
    requires Chronological(minutes)
    ensures
      var st := Play(strat, cfg, Warmup(INITIAL, warmup), minutes);
      && (minutes == [] ==> st.trades == [] && st.rejections == [])
      && (forall t :: t in st.trades ==> t.reason != DataEnd && t.exitTime <= minutes[|minutes| - 1].time)
      && (forall r :: r in st.rejections ==> r.time <= minutes[|minutes| - 1].time)
  {
    hide Step;
    WarmupMarketOnly(INITIAL, warmup);
    if minutes != [] {
      var front := minutes[..|minutes| - 1];
      var m := minutes[|minutes| - 1];
      PlayTimes(strat, cfg, warmup, front);
      var mid := Play(strat, cfg, Warmup(INITIAL, warmup), front);
      StepGrows(strat, cfg, mid, m);
      var st := Play(strat, cfg, Warmup(INITIAL, warmup), minutes);
      forall t | t in st.trades ensures t.reason != DataEnd && t.exitTime <= m.time {
        var i :| 0 <= i < |st.trades| && st.trades[i] == t;
        if i < |mid.trades| { assert mid.trades[i] == t; }
      }
      forall r | r in st.rejections ensures r.time <= m.time {
        var i :| 0 <= i < |st.rejections| && st.rejections[i] == r;
        if i < |mid.rejections| { assert mid.rejections[i] == r; }
      }
    }
  }

  /** Trades settled by `now` for a reason other than the data running out. */
  function SettledBy(now: int): Trade -> bool { (t: Trade) => t.exitTime <= now && t.reason != DataEnd }

  function RecordedBy(now: int): Rejection -> bool { (r: Rejection) => r.time <= now }

  /** How the finished ledgers continue those of the first `k` minutes. */
  lemma FinalLedgers(strat: Strategy, cfg: EngineConfig, warmup: seq<Minute>, minutes: seq<Minute>, k: nat)
    requires Chronological(minutes) && 0 < k <= |minutes|
    ensures
      var st0 := Warmup(INITIAL, warmup);
      var early := Play(strat, cfg, st0, minutes[..k]);
      var final := FinishRun(cfg, Play(strat, cfg, st0, minutes));
      var now := minutes[k - 1].time;
      && early.trades <= final.trades && early.rejections <= final.rejections
      && (forall t :: t in early.trades ==> SettledBy(now)(t))
      && (forall r :: r in early.rejections ==> RecordedBy(now)(r))
      && (forall i :: |early.trades| <= i < |final.trades| ==> !SettledBy(now)(final.trades[i]))
      && (forall i :: |early.rejections| <= i < |final.rejections| ==> !RecordedBy(now)(final.rejections[i]))
  {
    hide Play, LedgerInv, Priced;
    var st0 := Warmup(INITIAL, warmup);
    var early, late := Play(strat, cfg, st0, minutes[..k]), Play(strat, cfg, st0, minutes);
    PlayExtends(strat, cfg, st0, minutes, k);
    PlayTimes(strat, cfg, warmup, minutes[..k]);
    PlayKeepsLedger(strat, cfg, warmup, minutes);
    CloseAllAtDataEndKeepsLedger(cfg, late, late.book.order, minutes[|minutes| - 1].time + 1);
    var final := FinishRun(cfg, late);
    forall i | |early.trades| <= i < |final.trades| ensures !SettledBy(minutes[k - 1].time)(final.trades[i]) {
      if i < |late.trades| { assert final.trades[i] == late.trades[i]; }
    }
  }

  /** What a run had settled and refused by the end of its first `k` minutes. */
  lemma LedgersUpTo(strat: Strategy, cfg: EngineConfig, warmup: seq<Minute>, minutes: seq<Minute>, k: nat)
    requires Chronological(minutes) && 0 < k <= |minutes|
    ensures
      var r := Run(strat, cfg, warmup, minutes);
      var early := Play(strat, cfg, Warmup(INITIAL, warmup), minutes[..k]);
      var now := minutes[k - 1].time;
      r.Completed? ==>
        && Filter(r.state.trades, SettledBy(now)) == early.trades
        && Filter(r.state.rejections, RecordedBy(now)) == early.rejections
  {
    hide Play, FinishRun, SettledBy, RecordedBy;
    var st0 := Warmup(INITIAL, warmup);
    var early := Play(strat, cfg, st0, minutes[..k]);
    var final := FinishRun(cfg, Play(strat, cfg, st0, minutes));
    var now := minutes[k - 1].time;
    FinalLedgers(strat, cfg, warmup, minutes, k);
    assert final.trades[..|early.trades|] == early.trades;
    assert final.rejections[..|early.rejections|] == early.rejections;
    SplitFilter(final.trades, |early.trades|, SettledBy(now));
    SplitFilter(final.rejections, |early.rejections|, RecordedBy(now));
  }

  /** A filter that keeps a prefix whole and nothing after it returns that prefix. */
  lemma SplitFilter<T(!new)>(xs: seq<T>, n: nat, keep: T -> bool)
    requires n <= |xs|
    requires forall x :: x in xs[..n] ==> keep(x)
    requires forall i :: n <= i < |xs| ==> !keep(xs[i])
    ensures Filter(xs, keep) == xs[..n]
  {
    assert xs == xs[..n] + xs[n..];
    FilterConcat(xs[..n], xs[n..], keep);
    FilterAll(xs[..n], keep);
    forall x | x in xs[n..] ensures !keep(x) {
      var i :| 0 <= i < |xs[n..]| && xs[n..][i] == x;
    }
    FilterNone(xs[n..], keep);
  }

  /** No look-ahead: two runs whose data agree on the first `k` minutes have settled exactly the
      same trades and recorded exactly the same rejections by then, whatever follows. */
  lemma NoLookAhead(strat: Strategy, cfg: EngineConfig, warmup: seq<Minute>, one: seq<Minute>, other: seq<Minute>, k: nat)
    requires Chronological(one) && Chronological(other) && 0 < k <= |one| && k <= |other|
    requires one[..k] == other[..k]
    ensures
      var r, r' := Run(strat, cfg, warmup, one), Run(strat, cfg, warmup, other);
      var now := one[k - 1].time;
      && (r.Completed? <==> r'.Completed?)
      && (r.Completed? ==>
            && Filter(r.state.trades, SettledBy(now)) == Filter(r'.state.trades, SettledBy(now))
            && Filter(r.state.rejections, RecordedBy(now)) == Filter(r'.state.rejections, RecordedBy(now)))
  {
    hide Play, Filter, FinishRun;
    assert one[0] == one[..k][0] && other[0] == other[..k][0];
    assert one[k - 1] == one[..k][k - 1] && other[k - 1] == other[..k][k - 1];
    LedgersUpTo(strat, cfg, warmup, one, k);
    LedgersUpTo(strat, cfg, warmup, other, k);
  }
}
