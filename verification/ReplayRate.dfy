/** How often signals are published: cooldown spacing, the throttle's bound and ranking, and the
    silence that follows a loss. */
module ReplayRate {
  import opened Sequences
  import opened Market
  import opened Geometry
  import opened Execution
  import opened Simulator
  import opened Replay
  import opened ReplayFrames
  import opened ReplayLedger
  import opened ReplayDay
  import opened ReplayRuns
  import opened ReplayInstructions
  import opened ReplayCollisions
  import opened ReplayIntervals

  predicate IsPublication(e: Event) { e.Published? }

  /** Everything published so far, in order. */
  function Publications(st: EngineState): (events: seq<Event>)
    ensures forall e :: e in events ==> e.Published?
  {
    Filter(st.journal, IsPublication)
  }

  // --------------------------------------------------- who publishes, who does not

  lemma NotedPublications(st: EngineState, e: Event)
    ensures Publications(Note(st, e)) == Publications(st) + (if e.Published? then [e] else [])
  {
    FilterConcat(st.journal, [e], IsPublication);
    assert [e][1..] == [];
  }

  lemma SamePublicationsFilter(st: EngineState, st': EngineState)
    requires SamePublications(st.journal, st'.journal)
    ensures Publications(st') == Publications(st)
  {
    var added := st'.journal[|st.journal|..];
    assert st'.journal == st.journal + added;
    FilterConcat(st.journal, added, IsPublication);
    forall e | e in added ensures !IsPublication(e) {
      var i :| 0 <= i < |added| && added[i] == e;
      assert st'.journal[|st.journal| + i] == e;
    }
    FilterNone(added, IsPublication);
  }

  lemma QuietAddsNoPublication(st: EngineState, st': EngineState, time: int)
    requires Quiet(st, st', time)
    ensures Publications(st') == Publications(st)
  {
    QuietPublishesNothing(st, st', time);
    SamePublicationsFilter(st, st');
  }

  lemma QuietClocks(st: EngineState, st': EngineState, time: int)
    requires Quiet(st, st', time)
    ensures st'.cooldownUntil == st.cooldownUntil && st'.lockoutUntil == st.lockoutUntil && st'.trades == st.trades
  {
  }

  // ----------------------------------------------------------------- qualification

  /** A publishable signal: its levels enclose its price and its ratio clears the minimum. */
  ghost predicate Qualified(cfg: EngineConfig, e: Event)
    requires e.Published?
  {
    && e.signal.stop.Some? && e.signal.target.Some? && e.signal.riskReward.Some?
    && e.signal.riskReward.value >= cfg.quant.minRiskReward
    && Brackets(e.signal.direction, e.signal.stop.value, e.signal.price, e.signal.target.value)
  }

  lemma RevalidatedQualifies(cfg: EngineConfig, st: EngineState, signal: Signal, time: int)
    ensures var r := Revalidate(cfg, st, signal); r.Valid? ==> Qualified(cfg, Publication(st, r.signal, time))
  {
    if signal.ticker in st.lastClose {
      GatedGeometryBrackets(st.lastClose[signal.ticker], signal.atr, signal.direction, signal.pivotResistance,
                            signal.pivotSupport, cfg.quant);
    }
  }

  // ------------------------------------------------------------ cooldown spacing

  /** Every publication so far holds its symbol's clock for a full cooldown. */
  ghost predicate Cooling(cfg: EngineConfig, published: seq<Event>, cooldownUntil: map<Symbol, int>, time: int) {
    forall e :: e in published && e.Published? ==>
      && e.time <= time && e.signal.ticker in cooldownUntil
      && cooldownUntil[e.signal.ticker] >= e.time + cfg.quant.cooldownSeconds
  }

  /** Publications of one symbol lie at least a cooldown apart. */
  ghost predicate Spaced(cfg: EngineConfig, published: seq<Event>) {
    forall i, j :: 0 <= i < j < |published| && published[i].Published? && published[j].Published?
                   && published[i].signal.ticker == published[j].signal.ticker ==>
      published[j].time >= published[i].time + cfg.quant.cooldownSeconds
  }

  ghost predicate RateInv(cfg: EngineConfig, st: EngineState, time: int) {
    Cooling(cfg, Publications(st), st.cooldownUntil, time) && Spaced(cfg, Publications(st))
  }

  lemma PublicationSpaced(cfg: EngineConfig, published: seq<Event>, cooldownUntil: map<Symbol, int>, e: Event)
    requires e.Published? && Cooling(cfg, published, cooldownUntil, e.time) && Spaced(cfg, published)
    requires !Active(cooldownUntil, e.signal.ticker, e.time)
    ensures Spaced(cfg, published + [e])
    ensures Cooling(cfg, published + [e], cooldownUntil[e.signal.ticker := e.time + cfg.quant.cooldownSeconds], e.time)
  {
  }

  lemma RoutePublishesNothing(st: EngineState, signal: Signal, score: real, time: int)
    ensures Publications(Route(st, signal, score, time)) == Publications(st)
    ensures Route(st, signal, score, time).cooldownUntil == st.cooldownUntil
  {
    hide Filter;
    var s := signal.ticker;
    if signal.direction.Bullish? {
      assert Route(st, signal, score, time) == st.(pendingEntry := st.pendingEntry[s := PendingEntry(signal, score)]);
    } else if s in st.book.positions {
      assert Route(st, signal, score, time) == st.(pendingExit := st.pendingExit[s := signal]);
    }
  }

  /** A release publishes at most one signal, of this instant, and only a signal off cooldown. */
  lemma ReleasePublishes(cfg: EngineConfig, st: EngineState, c: Scored, time: int)
    ensures
      var st' := Release(cfg, st, c, time);
      || (Publications(st') == Publications(st) && st'.cooldownUntil == st.cooldownUntil)
      || exists e: Event ::
           && e.Published? && e.time == time && e.signal.ticker == c.signal.ticker
           && !Active(st.cooldownUntil, c.signal.ticker, time) && Qualified(cfg, e)
           && Publications(st') == Publications(st) + [e]
           && st'.cooldownUntil == st.cooldownUntil[c.signal.ticker := time + cfg.quant.cooldownSeconds]
  {
    hide Revalidate, Route, Filter, Qualified;
    RevalidationRefusal(cfg, st, c.signal);
    RevalidatedQualifies(cfg, st, c.signal, time);
    var s := c.signal.ticker;
    var r := Revalidate(cfg, st, c.signal);
    if !Active(st.cooldownUntil, s, time) && r.Valid? {
      var e := Publication(st, r.signal, time);
      NotedPublications(st, e);
      var noted := Note(st, e);
      var armed := noted.(published := noted.published + 1,
                          cooldownUntil := noted.cooldownUntil[s := time + cfg.quant.cooldownSeconds]);
      assert Publications(armed) == Publications(noted);
      RoutePublishesNothing(armed, r.signal, c.score, time);
    }
  }

  lemma ReleaseKeepsRate(cfg: EngineConfig, st: EngineState, c: Scored, time: int)
    requires RateInv(cfg, st, time)
    ensures RateInv(cfg, Release(cfg, st, c, time), time)
  {
    hide Release, Filter, Publications, Cooling, Spaced;
    ReleasePublishes(cfg, st, c, time);
    var st' := Release(cfg, st, c, time);
    if !(Publications(st') == Publications(st) && st'.cooldownUntil == st.cooldownUntil) {
      var e: Event :|
        && e.Published? && e.time == time && e.signal.ticker == c.signal.ticker
        && !Active(st.cooldownUntil, c.signal.ticker, time) && Qualified(cfg, e)
        && Publications(st') == Publications(st) + [e]
        && st'.cooldownUntil == st.cooldownUntil[c.signal.ticker := time + cfg.quant.cooldownSeconds];
      PublicationSpaced(cfg, Publications(st), st.cooldownUntil, e);
    }
  }

  /** What a batch of releases adds to the publications: at most one each, all of this instant, and
      only for released tickers. */
  lemma {:induction false} ReleaseAllPublishes(cfg: EngineConfig, st: EngineState, released: seq<Scored>, time: int)
    ensures
      var before, after := Publications(st), Publications(ReleaseAll(cfg, st, released, time));
      && before <= after && |after| <= |before| + |released|
      && (forall i :: |before| <= i < |after| ==>
            after[i].Published? && after[i].time == time && Qualified(cfg, after[i])
            && exists c :: c in released && c.signal.ticker == after[i].signal.ticker)
    ensures RateInv(cfg, st, time) ==> RateInv(cfg, ReleaseAll(cfg, st, released, time), time)
  {
    hide Release, RateInv, Publications, Qualified;
    if released != [] {
      var front := released[..|released| - 1];
      var c := released[|released| - 1];
      assert released == front + [c];
      ReleaseAllPublishes(cfg, st, front, time);
      var st1 := ReleaseAll(cfg, st, front, time);
      ReleasePublishes(cfg, st1, c, time);
      if RateInv(cfg, st, time) {
        ReleaseKeepsRate(cfg, st1, c, time);
      }
      var before, mid, after := Publications(st), Publications(st1), Publications(ReleaseAll(cfg, st, released, time));
      forall i | |before| <= i < |after|
        ensures after[i].Published? && after[i].time == time && Qualified(cfg, after[i])
                && exists d :: d in released && d.signal.ticker == after[i].signal.ticker
      {
        if i < |mid| {
          assert after[i] == mid[i];
          var d :| d in front && d.signal.ticker == mid[i].signal.ticker;
          assert d in released;
        } else {
          assert c in released;
        }
      }
    }
  }

  lemma ProcessBarsPublishNothing(strat: Strategy, cfg: EngineConfig, st: EngineState, bars: seq<Bar>, time: int)
    requires LedgerInv(st, time + 1, time)
    ensures
      var st' := ProcessBars(strat, cfg, st, bars, time).0;
      Publications(st') == Publications(st) && st'.cooldownUntil == st.cooldownUntil
  {
    LedgerTickers(st, time + 1, time);
    hide ProcessBars, LedgerInv, Publications, SamePublications;
    ProcessBarsResolve(strat, cfg, st, bars, time);
    SamePublicationsFilter(st, ProcessBars(strat, cfg, st, bars, time).0);
  }

  /** `e` publishes a qualified signal at `time`, for a ticker that left a candidate. */
  ghost predicate PublishedFrom(cfg: EngineConfig, e: Event, candidates: seq<Signal>, time: int) {
    e.Published? && e.time == time && Qualified(cfg, e) && exists c :: c in candidates && c.ticker == e.signal.ticker
  }

  /** What one flush of the throttle may add to the publications. */
  ghost predicate AddsWithinThrottle(cfg: EngineConfig, before: seq<Event>, after: seq<Event>, candidates: seq<Signal>, time: int) {
    && before <= after && |after| <= |before| + SliceEnd(|candidates|, cfg.quant.throttleMaxSignals)
    && (forall i :: |before| <= i < |after| ==> PublishedFrom(cfg, after[i], candidates, time))
  }

  /** One minute publishes only at its own instant, within the throttle, and only candidates' tickers. */
  lemma StepPublishes(strat: Strategy, cfg: EngineConfig, st: EngineState, m: Minute)
    requires LedgerInv(st, m.time, m.time)
    ensures
      var candidates := ProcessBars(strat, cfg, st, m.bars, m.time).1;
      AddsWithinThrottle(cfg, Publications(st), Publications(Step(strat, cfg, st, m)), candidates, m.time)
    ensures RateInv(cfg, st, m.time) ==> RateInv(cfg, Step(strat, cfg, st, m), m.time)
  {
    hide LedgerInv, ProcessBars, Flush, ForceCloseAll, Filter, Cooling, Spaced, PublishedFrom;
    LedgerWeaken(st, m.time, m.time, m.time + 1, m.time);
    ProcessBarsPublishNothing(strat, cfg, st, m.bars, m.time);
    var (st1, candidates) := ProcessBars(strat, cfg, st, m.bars, m.time);
    var st2 := if candidates == [] then st1 else Flush(strat, cfg, st1, candidates, m.time);
    if candidates != [] {
      FlushPublishes(strat, cfg, st1, candidates, m.time);
    }
    if FlattenDue(strat, cfg, st2, m.time) {
      ForceCloseAllBook(cfg, st2.(flattened := st2.flattened + {strat.etDate(m.time)}), st2.book.order, m.time);
    }
  }

  lemma FlushPublishes(strat: Strategy, cfg: EngineConfig, st: EngineState, candidates: seq<Signal>, time: int)
    ensures
      AddsWithinThrottle(cfg, Publications(st), Publications(Flush(strat, cfg, st, candidates, time)), candidates, time)
    ensures RateInv(cfg, st, time) ==> RateInv(cfg, Flush(strat, cfg, st, candidates, time), time)
  {
    hide ReleaseAll, RejectThrottled, Cooling, Spaced, Ranked, Quiet, Publications, Qualified;
    var ranked := Ranked(strat, candidates);
    var end := SliceEnd(|ranked|, cfg.quant.throttleMaxSignals);
    RankedMembers(strat, candidates);
    ReleaseAllPublishes(cfg, st, ranked[..end], time);
    var st1 := ReleaseAll(cfg, st, ranked[..end], time);
    RejectThrottledQuiet(st1, CountByTicker(ranked[end..]), time);
    var st2 := RejectThrottled(st1, CountByTicker(ranked[end..]), time);
    QuietAddsNoPublication(st1, st2, time);
    QuietClocks(st1, st2, time);
    var before, after := Publications(st), Publications(st2);
    forall i | |before| <= i < |after| ensures PublishedFrom(cfg, after[i], candidates, time) {
      var d :| d in ranked[..end] && d.signal.ticker == after[i].signal.ticker;
      assert d in ranked;
      assert d.signal in candidates;
    }
  }

  predicate PublishedAt(time: int, e: Event) { e.Published? && e.time == time }

  /** The publications of one instant. */
  function AtTime(published: seq<Event>, time: int): seq<Event> {
    Filter(published, (e: Event) => PublishedAt(time, e))
  }

  ghost predicate Throttled(cfg: EngineConfig, published: seq<Event>) {
    forall time :: |AtTime(published, time)| <= cfg.quant.throttleMaxSignals
  }

  /** A minute's publications are the only ones of its instant. */
  lemma MinuteThrottled(cfg: EngineConfig, before: seq<Event>, after: seq<Event>, now: int)
    requires Throttled(cfg, before) && before <= after && |after| <= |before| + cfg.quant.throttleMaxSignals
    requires forall e :: e in before && e.Published? ==> e.time < now
    requires forall i :: |before| <= i < |after| ==> after[i].Published? && after[i].time == now
    ensures Throttled(cfg, after)
  {
    var added := after[|before|..];
    assert after == before + added;
    assert forall e :: e in added ==> e.Published? && e.time == now;
    forall time ensures |AtTime(after, time)| <= cfg.quant.throttleMaxSignals {
      AtTimeConcat(before, added, time);
      if time == now {
        NoneAtTime(before, time);
      } else {
        NoneAtTime(added, time);
      }
    }
  }

  lemma AtTimeConcat(before: seq<Event>, added: seq<Event>, time: int)
    ensures AtTime(before + added, time) == AtTime(before, time) + AtTime(added, time)
    ensures |AtTime(added, time)| <= |added|
  {
    FilterConcat(before, added, (e: Event) => PublishedAt(time, e));
  }

  lemma NoneAtTime(published: seq<Event>, time: int)
    requires forall e :: e in published && e.Published? ==> e.time != time
    ensures AtTime(published, time) == []
  {
    FilterNone(published, (e: Event) => PublishedAt(time, e));
  }

  lemma {:induction false} PlayKeepsRate(strat: Strategy, cfg: EngineConfig, warmup: seq<Minute>, minutes: seq<Minute>)
    requires Chronological(minutes)
    ensures
      var st := Play(strat, cfg, Warmup(INITIAL, warmup), minutes);
      && (minutes == [] ==> Publications(st) == [])
      && (forall e :: e in Publications(st) ==> Qualified(cfg, e))
      && (minutes != [] ==> RateInv(cfg, st, minutes[|minutes| - 1].time))
      && (cfg.quant.throttleMaxSignals >= 0 ==> Throttled(cfg, Publications(st)))
  {
    hide LedgerInv, Step, Priced, Spaced, Qualified;
    WarmupMarketOnly(INITIAL, warmup);
    if minutes != [] {
      hide AtTime;
      var front := minutes[..|minutes| - 1];
      var m := minutes[|minutes| - 1];
      PlayKeepsRate(strat, cfg, warmup, front);
      var st := Play(strat, cfg, Warmup(INITIAL, warmup), front);
      if front == [] {
        WarmedUpSound(warmup, m.time);
        assert RateInv(cfg, st, m.time) by { NothingSpaced(cfg); }
      } else {
        PlayKeepsLedger(strat, cfg, warmup, front);
        var last := front[|front| - 1].time;
        LedgerWeaken(st, last + 1, last + 1, m.time, m.time);
        assert RateInv(cfg, st, m.time);
      }
      StepPublishes(strat, cfg, st, m);
      AddedQualify(cfg, Publications(st), Publications(Step(strat, cfg, st, m)));
      if cfg.quant.throttleMaxSignals >= 0 {
        MinuteThrottled(cfg, Publications(st), Publications(Step(strat, cfg, st, m)), m.time);
      }
    }
  }

  lemma AddedQualify(cfg: EngineConfig, before: seq<Event>, after: seq<Event>)
    requires (forall e :: e in before ==> e.Published? && Qualified(cfg, e)) && before <= after
    requires forall i :: |before| <= i < |after| ==> after[i].Published? && Qualified(cfg, after[i])
    ensures forall e :: e in after ==> e.Published? && Qualified(cfg, e)
  {
    hide Qualified;
    forall e | e in after ensures e.Published? && Qualified(cfg, e) {
      var i :| 0 <= i < |after| && after[i] == e;
      if i < |before| { assert before[i] == e; }
    }
  }

  lemma NothingSpaced(cfg: EngineConfig)
    ensures Spaced(cfg, [])
    ensures cfg.quant.throttleMaxSignals >= 0 ==> Throttled(cfg, [])
  {
  }

  /** In every run each published signal's levels enclose its price at no less than the minimum ratio,
      two publications of one symbol are at least the cooldown apart, and with a non-negative limit no
      instant publishes more than the throttle allows. */
  lemma PublicationsSpacedAndThrottled(strat: Strategy, cfg: EngineConfig, warmup: seq<Minute>, minutes: seq<Minute>)
    requires Chronological(minutes)
    ensures
      var r := Run(strat, cfg, warmup, minutes);
      r.Completed? ==>
        && (forall e :: e in Publications(r.state) ==> Qualified(cfg, e))
        && Spaced(cfg, Publications(r.state))
        && (cfg.quant.throttleMaxSignals >= 0 ==> Throttled(cfg, Publications(r.state)))
  {
    hide LedgerInv, Play, Priced, Spaced, AtTime, Cooling, Qualified;
    if minutes == [] {
      NothingSpaced(cfg);
    } else {
      var st := Play(strat, cfg, Warmup(INITIAL, warmup), minutes);
      PlayKeepsRate(strat, cfg, warmup, minutes);
      PlayKeepsLedger(strat, cfg, warmup, minutes);
      CloseAllAtDataEndKeepsLedger(cfg, st, st.book.order, minutes[|minutes| - 1].time + 1);
    }
  }

  // ------------------------------------------------------------------ the ranking

  /** No dropped candidate outscores a released one. */
  lemma ReleasedOutrankDropped(strat: Strategy, candidates: seq<Signal>, limit: int, a: Scored, b: Scored)
    requires
      var ranked := Ranked(strat, candidates);
      var end := SliceEnd(|ranked|, limit);
      a in ranked[..end] && b in ranked[end..]
    ensures a.score >= b.score
  {
    hide Ranked;
    var ranked := Ranked(strat, candidates);
    var end := SliceEnd(|ranked|, limit);
    RankedMembers(strat, candidates);
    var i :| 0 <= i < end && ranked[i] == a;
    var j :| 0 <= j < |ranked[end..]| && ranked[end..][j] == b;
    assert Outranks(ranked[i], ranked[end + j]);
  }

  function ScoresExactly(score: real): Scored -> bool { (c: Scored) => c.score == score }

  /** Candidates that score alike stay in the order in which they arrived. */
  lemma TiesKeepArrivalOrder(strat: Strategy, candidates: seq<Signal>, score: real)
    ensures Filter(Ranked(strat, candidates), ScoresExactly(score)) == Filter(ScoreAll(strat, candidates), ScoresExactly(score))
  {
    var scored := ScoreAll(strat, candidates);
    SortCommutesWithFilter(scored, Outranks, ScoresExactly(score));
    var alike := Filter(scored, ScoresExactly(score));
    forall i, j | 0 <= i < j < |alike| ensures Outranks(alike[i], alike[j]) {
      assert alike[i] in alike && alike[j] in alike;
    }
    SortOfSorted(alike, Outranks);
  }

  // ---------------------------------------------------------- silence after a loss

  predicate Losing(t: Trade) { t.netPnl < 0.0 && t.reason != DataEnd }

  /** Every losing trade still holds its symbol's lockout for the configured time. */
  ghost predicate Locked(cfg: EngineConfig, trades: seq<Trade>, lockoutUntil: map<Symbol, int>, time: int) {
    forall t :: t in trades ==>
      && t.exitTime <= time
      && (Losing(t) ==> t.symbol in lockoutUntil && lockoutUntil[t.symbol] >= t.exitTime + cfg.quant.lossLockoutSeconds)
  }

  /** Whether a publication of `s` at `time` respects every loss so far. */
  ghost predicate Quieted(cfg: EngineConfig, trades: seq<Trade>, s: Symbol, time: int) {
    forall t :: t in trades && Losing(t) && t.symbol == s ==> !(t.exitTime < time < t.exitTime + cfg.quant.lossLockoutSeconds)
  }

  ghost predicate AllQuieted(cfg: EngineConfig, trades: seq<Trade>, published: seq<Event>) {
    forall e :: e in published && e.Published? ==> Quieted(cfg, trades, e.signal.ticker, e.time)
  }

  lemma RecordLocks(cfg: EngineConfig, st: EngineState, t: Option<Trade>, time: int)
    requires Locked(cfg, st.trades, st.lockoutUntil, time)
    requires t.Some? ==> t.value.exitTime == time
    ensures var st' := RecordIfAny(cfg, st, t, time); Locked(cfg, st'.trades, st'.lockoutUntil, time)
  {
  }

  lemma CloseLocks(cfg: EngineConfig, st: EngineState, s: Symbol, time: int, price: real, reason: ExitReason, sig: Option<Signal>)
    requires Locked(cfg, st.trades, st.lockoutUntil, time)
    ensures
      var (book, t) := Closed(cfg.execution, st.book, s, time, price, reason, sig);
      var st' := RecordIfAny(cfg, st.(book := book), t, time);
      Locked(cfg, st'.trades, st'.lockoutUntil, time)
  {
    hide RecordIfAny, CloseTrade, Locked;
    var (book, t) := Closed(cfg.execution, st.book, s, time, price, reason, sig);
    if s in st.book.positions {
      CloseTradeFacts(cfg.execution, st.book.positions[s], time, price, reason, sig);
    }
    RecordLocks(cfg, st.(book := book), t, time);
  }

  lemma ExamineLocks(cfg: EngineConfig, st: EngineState, bar: Bar, time: int)
    requires Locked(cfg, st.trades, st.lockoutUntil, time)
    ensures var st' := ExamineBar(cfg, st, bar, time); Locked(cfg, st'.trades, st'.lockoutUntil, time)
  {
    hide RecordIfAny, Examine, Locked;
    var (book, t) := Examined(cfg.execution, st.book, bar.symbol, time, bar.high, bar.low);
    if bar.symbol in st.book.positions {
      ExamineTimes(cfg.execution, st.book.positions[bar.symbol], time, bar.high, bar.low);
    }
    RecordLocks(cfg, st.(book := book), t, time);
  }

  lemma FillExitLocks(cfg: EngineConfig, st: EngineState, bar: Bar, time: int)
    requires Locked(cfg, st.trades, st.lockoutUntil, time)
    ensures var st' := FillExit(cfg, st, bar, time); Locked(cfg, st'.trades, st'.lockoutUntil, time)
  {
    hide RecordIfAny, Closed, Locked;
    var s := bar.symbol;
    if s in st.pendingExit && s in st.book.positions {
      CloseLocks(cfg, st.(pendingExit := st.pendingExit - {s}), s, time, bar.open, SignalExit, Some(st.pendingExit[s]));
    }
  }

  lemma LifecycleLocks(strat: Strategy, cfg: EngineConfig, st: EngineState, bar: Bar, time: int)
    requires Locked(cfg, st.trades, st.lockoutUntil, time)
    ensures var st' := Lifecycle(strat, cfg, st, bar, time); Locked(cfg, st'.trades, st'.lockoutUntil, time)
  {
    hide FillExit, ExamineBar, FinalizeFillGeometry, NewPosition, Opened, Locked;
    var st0 := st.(barsProcessed := st.barsProcessed + 1);
    var s := bar.symbol;
    FillExitLocks(cfg, st0, bar, time);
    var st1 := FillExit(cfg, st0, bar, time);
    if s !in st1.pendingEntry {
      ExamineLocks(cfg, st1, bar, time);
    } else if strat.etDate(time) !in st1.flattened && s !in st1.book.positions {
      var pending := st1.pendingEntry[s];
      var signal := FinalizeFillGeometry(cfg.quant, pending.signal, bar.open);
      if signal.Some? {
        ExamineLocks(cfg, Enter(cfg, st1.(pendingEntry := st1.pendingEntry - {s}), pending, signal.value, bar, time), bar, time);
      }
    }
  }

  lemma ClearedIsQuieted(cfg: EngineConfig, st: EngineState, c: Signal, s: Symbol, time: int)
    requires Locked(cfg, st.trades, st.lockoutUntil, time) && Cleared(st, c, s, time)
    ensures Quieted(cfg, st.trades, c.ticker, time)
  {
  }

  /** Trades of this very instant cannot silence a candidate of the same instant. */
  lemma GrowthKeepsQuiet(cfg: EngineConfig, trades: seq<Trade>, trades': seq<Trade>, s: Symbol, time: int)
    requires Quieted(cfg, trades, s, time) && TradesGrow(trades, trades', time)
    ensures Quieted(cfg, trades', s, time)
  {
  }

  lemma {:induction false} ProcessBarsLocks(strat: Strategy, cfg: EngineConfig, st: EngineState, bars: seq<Bar>, time: int)
    requires Locked(cfg, st.trades, st.lockoutUntil, time)
    ensures
      var (st', candidates) := ProcessBars(strat, cfg, st, bars, time);
      && Locked(cfg, st'.trades, st'.lockoutUntil, time)
      && forall c :: c in candidates ==> Quieted(cfg, st'.trades, c.ticker, time)
  {
    hide Lifecycle, Screen, Locked, Quieted, Quiet, Cleared, RejectionsGrow, JournalGrows;
    if bars != [] {
      var front := bars[..|bars| - 1];
      var bar := bars[|bars| - 1];
      ProcessBarsLocks(strat, cfg, st, front, time);
      var (st1, earlier) := ProcessBars(strat, cfg, st, front, time);
      LifecycleLocks(strat, cfg, st1, bar, time);
      LifecycleGrows(strat, cfg, st1, bar, time);
      var st2 := FeedMarketState(Lifecycle(strat, cfg, st1, bar, time), bar, time);
      ScreenQuiet(strat, cfg, st2, bar.symbol, time);
      var (st3, found) := Screen(strat, cfg, st2, bar.symbol, time);
      QuietClocks(st2, st3, time);
      forall c | c in found ensures Quieted(cfg, st3.trades, c.ticker, time) {
        ClearedIsQuieted(cfg, st2, c, bar.symbol, time);
      }
      forall c | c in earlier ensures Quieted(cfg, st3.trades, c.ticker, time) {
        GrowthKeepsQuiet(cfg, st1.trades, st3.trades, c.ticker, time);
      }
    }
  }

  lemma {:induction false} ForceCloseAllLocks(cfg: EngineConfig, st: EngineState, symbols: seq<Symbol>, time: int)
    requires Locked(cfg, st.trades, st.lockoutUntil, time)
    ensures var st' := ForceCloseAll(cfg, st, symbols, time); Locked(cfg, st'.trades, st'.lockoutUntil, time)
  {
    hide Locked, Closed, RecordIfAny;
    if symbols != [] {
      var front := symbols[..|symbols| - 1];
      ForceCloseAllLocks(cfg, st, front, time);
      var st1 := ForceCloseAll(cfg, st, front, time);
      var s := symbols[|symbols| - 1];
      if s in st1.lastClose {
        CloseLocks(cfg, st1, s, time, st1.lastClose[s], EndOfSession, None);
      }
    }
  }

  lemma StepLocks(strat: Strategy, cfg: EngineConfig, st: EngineState, m: Minute)
    requires Locked(cfg, st.trades, st.lockoutUntil, m.time)
    ensures var st' := Step(strat, cfg, st, m); Locked(cfg, st'.trades, st'.lockoutUntil, m.time)
  {
    hide ProcessBars, Flush, ForceCloseAll, Locked;
    ProcessBarsLocks(strat, cfg, st, m.bars, m.time);
    var (st1, candidates) := ProcessBars(strat, cfg, st, m.bars, m.time);
    FlushThrottleOnly(strat, cfg, st1, candidates, m.time);
    var st2 := if candidates == [] then st1 else Flush(strat, cfg, st1, candidates, m.time);
    if FlattenDue(strat, cfg, st2, m.time) {
      ForceCloseAllLocks(cfg, st2.(flattened := st2.flattened + {strat.etDate(m.time)}), st2.book.order, m.time);
    }
  }

  /** Publications of earlier instants are not silenced by trades of this one, and those of this
      instant went through the lockout gate. */
  lemma StepQuieted(strat: Strategy, cfg: EngineConfig, st: EngineState, m: Minute)
    requires LedgerInv(st, m.time, m.time) && Locked(cfg, st.trades, st.lockoutUntil, m.time)
    requires AllQuieted(cfg, st.trades, Publications(st))
    requires forall e :: e in Publications(st) ==> e.time < m.time
    ensures var st' := Step(strat, cfg, st, m); AllQuieted(cfg, st'.trades, Publications(st'))
  {
    hide LedgerInv, Locked, Publications, RateInv, RejectionsGrow, JournalGrows, Step, Quieted, ProcessBars;
    var st' := Step(strat, cfg, st, m);
    var before, after := Publications(st), Publications(st');
    var (st1, candidates) := ProcessBars(strat, cfg, st, m.bars, m.time);
    ProcessBarsLocks(strat, cfg, st, m.bars, m.time);
    ProcessBarsGrows(strat, cfg, st, m.bars, m.time);
    StepAddsTrades(strat, cfg, st, m);
    StepPublishes(strat, cfg, st, m);
    StepGrows(strat, cfg, st, m);
    forall e | e in after && e.Published? ensures Quieted(cfg, st'.trades, e.signal.ticker, e.time) {
      var i :| 0 <= i < |after| && after[i] == e;
      if i < |before| {
        assert before[i] == e;
        EarlierStaysQuiet(cfg, st.trades, st'.trades, e.signal.ticker, e.time, m.time);
      } else {
        var c :| c in candidates && c.ticker == e.signal.ticker;
        GrowthKeepsQuiet(cfg, st1.trades, st'.trades, c.ticker, m.time);
      }
    }
  }

  lemma EarlierStaysQuiet(cfg: EngineConfig, trades: seq<Trade>, trades': seq<Trade>, s: Symbol, time: int, now: int)
    requires Quieted(cfg, trades, s, time) && TradesGrow(trades, trades', now) && time <= now
    ensures Quieted(cfg, trades', s, time)
  {
  }

  lemma StepAddsTrades(strat: Strategy, cfg: EngineConfig, st: EngineState, m: Minute)
    ensures TradesGrow(ProcessBars(strat, cfg, st, m.bars, m.time).0.trades, Step(strat, cfg, st, m).trades, m.time)
  {
    hide ProcessBars, Flush, ForceCloseAll, RejectionsGrow, JournalGrows;
    var (st1, candidates) := ProcessBars(strat, cfg, st, m.bars, m.time);
    FlushThrottleOnly(strat, cfg, st1, candidates, m.time);
    var st2 := if candidates == [] then st1 else Flush(strat, cfg, st1, candidates, m.time);
    if FlattenDue(strat, cfg, st2, m.time) {
      ForceCloseAllGrows(cfg, st2.(flattened := st2.flattened + {strat.etDate(m.time)}), st2.book.order, m.time);
    }
  }

  lemma {:induction false} PlayQuieted(strat: Strategy, cfg: EngineConfig, warmup: seq<Minute>, minutes: seq<Minute>)
    requires Chronological(minutes)
    ensures
      var st := Play(strat, cfg, Warmup(INITIAL, warmup), minutes);
      && AllQuieted(cfg, st.trades, Publications(st))
      && (minutes != [] ==> Locked(cfg, st.trades, st.lockoutUntil, minutes[|minutes| - 1].time))
  {
    hide LedgerInv, Step, Priced, Spaced, Quieted, Throttled;
    WarmupMarketOnly(INITIAL, warmup);
    if minutes != [] {
      var front := minutes[..|minutes| - 1];
      var m := minutes[|minutes| - 1];
      PlayQuieted(strat, cfg, warmup, front);
      PlayKeepsRate(strat, cfg, warmup, front);
      var st := Play(strat, cfg, Warmup(INITIAL, warmup), front);
      if front == [] {
        WarmedUpSound(warmup, m.time);
      } else {
        PlayKeepsLedger(strat, cfg, warmup, front);
        var last := front[|front| - 1].time;
        LedgerWeaken(st, last + 1, last + 1, m.time, m.time);
      }
      StepLocks(strat, cfg, st, m);
      StepQuieted(strat, cfg, st, m);
    }
  }

  /** In every run no signal of a symbol is published strictly between a losing close at `t`, other
      than one forced by the end of data, and `t` plus the loss lockout. */
  lemma SilentAfterLoss(strat: Strategy, cfg: EngineConfig, warmup: seq<Minute>, minutes: seq<Minute>, t: Trade, e: Event)
    requires Chronological(minutes)
    requires Run(strat, cfg, warmup, minutes).Completed?
    requires
      var st := Run(strat, cfg, warmup, minutes).state;
      t in st.trades && t.netPnl < 0.0 && t.reason != DataEnd && e in st.journal && e.Published? && e.signal.ticker == t.symbol
    ensures !(t.exitTime < e.time < t.exitTime + cfg.quant.lossLockoutSeconds)
  {
    hide LedgerInv, Play, Priced, Locked;
    if minutes != [] {
      var st := Play(strat, cfg, Warmup(INITIAL, warmup), minutes);
      PlayQuieted(strat, cfg, warmup, minutes);
      PlayKeepsLedger(strat, cfg, warmup, minutes);
      CloseAllAtDataEndKeepsLedger(cfg, st, st.book.order, minutes[|minutes| - 1].time + 1);
      var final := FinishRun(cfg, st);
      var i :| 0 <= i < |final.trades| && final.trades[i] == t;
      assert i < |st.trades| && st.trades[i] == t;
      assert e in Publications(st);
    }
  }
}
