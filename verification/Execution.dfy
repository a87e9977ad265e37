/** Simulated execution: costs, the same-bar stop/target rule, excursions and the
    arithmetic of a closed trade (talonx_backtest/execution.py). Everything here is a
    value; the mutable simulator is in Simulator.dfy. */
module Execution {
  import opened Sequences
  import opened Market
  import opened Geometry

  datatype SameBarRule = StopFirst | TargetFirst

  datatype ExecutionConfig = ExecutionConfig(
    entrySlippageBps: real, exitSlippageBps: real, spreadBps: real, sameBar: SameBarRule)

  datatype Side = Entry | Exit

  datatype Touch = StopTouch | TargetTouch

  datatype ExitReason = StopHit | TargetHit | EndOfSession | DataEnd | SignalExit

  datatype Position = Position(
    symbol: Symbol, direction: Direction, signal: Signal, entryTime: int,
    entryRaw: real, entryNet: real, stop: Option<real>, target: Option<real>,
    risk: Option<real>, mfe: real, mae: real, score: Option<real>)

  datatype Trade = Trade(
    symbol: Symbol, direction: Direction, signal: Signal, entryTime: int, entryRaw: real,
    stop: Option<real>, target: Option<real>, executionRr: Option<real>, score: Option<real>,
    exitTime: int, exitRaw: real, reason: ExitReason, exitSignal: Option<Signal>,
    grossR: Option<real>, netR: Option<real>, grossPnl: real, netPnl: real,
    holdingSeconds: int, mfePrice: real, maePrice: real, mfeR: Option<real>, maeR: Option<real>)

  // -------------------------------------------------------------------- costs

  /** Moves a price against the trader by `bps` basis points; non-positive costs are ignored. */
  function ApplyCost(price: real, direction: Direction, side: Side, bps: real): real {
    if bps <= 0.0 then price
    else
      var factor := bps / 10000.0;
      if side.Entry? == direction.Bullish? then price * (1.0 + factor) else price * (1.0 - factor)
  }

  function EntryCost(raw: real, direction: Direction, cfg: ExecutionConfig): real {
    ApplyCost(raw, direction, Entry, cfg.entrySlippageBps + cfg.spreadBps / 2.0)
  }

  function ExitCost(raw: real, direction: Direction, cfg: ExecutionConfig): real {
    ApplyCost(raw, direction, Exit, cfg.exitSlippageBps + cfg.spreadBps / 2.0)
  }

  function Sign(direction: Direction): real {
    if direction.Bullish? then 1.0 else -1.0
  }

  /** What an adjusted price does to the holder's profit, in the position's own direction. */
  function Harm(price: real, direction: Direction, side: Side, bps: real): real {
    var drift := (ApplyCost(price, direction, side, bps) - price) * Sign(direction);
    if side.Entry? then drift else -drift
  }

  /** A cost never helps the trader exactly when it is not charged or the price is not negative. */
  lemma CostHurtsExactly(price: real, direction: Direction, side: Side, bps: real)
    ensures Harm(price, direction, side, bps) >= 0.0 <==> bps <= 0.0 || price >= 0.0
  {
    if bps > 0.0 {
      ProductSign(price, bps / 10000.0);
      assert Harm(price, direction, side, bps) == price * (bps / 10000.0);
    }
  }

  lemma ProductSign(x: real, f: real)
    requires f > 0.0
    ensures x * f >= 0.0 <==> x >= 0.0
  {
  }

  // ------------------------------------------------------------ exit decision

  /** Which bracket level, if any, one bar's range strikes; the rule settles a bar that strikes both. */
  function CheckBarForExit(direction: Direction, stop: real, target: real, high: real, low: real, rule: SameBarRule)
    : Option<Touch>
  {
    var hitTarget := if direction.Bullish? then high >= target else low <= target;
    var hitStop := if direction.Bullish? then low <= stop else high >= stop;
    if hitTarget && hitStop then Some(if rule.StopFirst? then StopTouch else TargetTouch)
    else if hitStop then Some(StopTouch)
    else if hitTarget then Some(TargetTouch)
    else None
  }

  function Max(a: real, b: real): real { if a >= b then a else b }
  function Min(a: real, b: real): real { if a <= b then a else b }

  function UpdateExcursion(p: Position, high: real, low: real): Position {
    if p.direction.Bullish? then p.(mfe := Max(p.mfe, high), mae := Min(p.mae, low))
    else p.(mfe := Min(p.mfe, low), mae := Max(p.mae, high))
  }

  // ---------------------------------------------------------- opening, closing

  function RiskOf(entryRaw: real, stop: Option<real>): Option<real> {
    match stop
    case None => None
    case Some(level) => if Distance(entryRaw, level) <= 0.0 then None else Some(Distance(entryRaw, level))
  }

  function NewPosition(cfg: ExecutionConfig, signal: Signal, time: int, entryRaw: real, score: Option<real>): Position {
    Position(signal.ticker, signal.direction, signal, time, entryRaw,
             EntryCost(entryRaw, signal.direction, cfg), signal.stop, signal.target,
             RiskOf(entryRaw, signal.stop), entryRaw, entryRaw, score)
  }

  function InR(amount: real, risk: Option<real>): Option<real> {
    match risk
    case Some(r) => if r == 0.0 then None else Some(amount / r)
    case None => None
  }

  /** Profit of a price move for the holder. */
  function Gain(p: Position, price: real): real { (price - p.entryRaw) * Sign(p.direction) }

  function CloseTrade(cfg: ExecutionConfig, p: Position, time: int, exitRaw: real, reason: ExitReason,
                      exitSignal: Option<Signal>): Trade
  {
    var gross := Gain(p, exitRaw);
    var net := (ExitCost(exitRaw, p.direction, cfg) - p.entryNet) * Sign(p.direction);
    Trade(p.symbol, p.direction, p.signal, p.entryTime, p.entryRaw, p.stop, p.target,
          if p.target.Some? then InR(Distance(p.target.value, p.entryRaw), p.risk) else None, p.score,
          time, exitRaw, reason, exitSignal,
          InR(gross, p.risk), InR(net, p.risk), gross, net, time - p.entryTime, p.mfe, p.mae,
          InR(Gain(p, p.mfe), p.risk), InR(Gain(p, p.mae), p.risk))
  }

  function ReasonOf(touch: Touch): ExitReason { if touch.StopTouch? then StopHit else TargetHit }

  /** One examined bar: the whole range counts towards the excursion before the exit decision. */
  function Examine(cfg: ExecutionConfig, p: Position, time: int, high: real, low: real): (Position, Option<Trade>) {
    var p' := UpdateExcursion(p, high, low);
    if p'.stop.None? || p'.target.None? then (p', None)
    else match CheckBarForExit(p'.direction, p'.stop.value, p'.target.value, high, low, cfg.sameBar)
      case None => (p', None)
      case Some(touch) =>
        (p', Some(CloseTrade(cfg, p', time, if touch.StopTouch? then p'.stop.value else p'.target.value,
                             ReasonOf(touch), None)))
  }

  // --------------------------------------------------------- what a trade means

  /** An open position whose levels enclose its own entry price. */
  predicate Bracketed(p: Position) {
    && p.stop.Some? && p.target.Some?
    && Brackets(p.direction, p.stop.value, p.entryRaw, p.target.value)
    && p.risk == Some(Distance(p.entryRaw, p.stop.value))
  }

  /** Excursions contain the entry price. */
  predicate ExcursionsOk(p: Position) {
    (p.mae - p.entryRaw) * Sign(p.direction) <= 0.0 <= (p.mfe - p.entryRaw) * Sign(p.direction)
  }

  /** The result a finished bracket trade must report. */
  ghost predicate HonestBracketExit(t: Trade) {
    && (t.reason.StopHit? ==> t.grossR == Some(-1.0))
    && (t.reason.TargetHit? ==> t.grossR == t.executionRr && t.grossR.Some? && t.grossR.value > 0.0)
    && (t.reason.StopHit? || t.reason.TargetHit? ==>
          && t.maeR.Some? && t.mfeR.Some? && t.grossR.Some?
          && t.maeR.value <= t.grossR.value <= t.mfeR.value)
  }

  lemma DivideOrder(a: real, b: real, r: real)
    requires r > 0.0
    ensures a <= b <==> a / r <= b / r
  {
  }

  lemma DivideSelf(r: real)
    requires r != 0.0
    ensures r / r == 1.0 && (-r) / r == -1.0
  {
  }

  lemma DividePositive(a: real, r: real)
    requires r > 0.0 && a > 0.0
    ensures a / r > 0.0
  {
  }

  /** However a trade is closed, its gross result lies within its recorded excursion exactly when the exit
      price does. Only levels struck by an examined bar are sure to: closes on a signal, at the end of a
      session or of the data may be priced outside every examined bar. */
  lemma ResultWithinExcursionExactly(cfg: ExecutionConfig, p: Position, time: int, exitRaw: real, reason: ExitReason,
                                     exitSignal: Option<Signal>)
    requires p.risk.Some? && p.risk.value > 0.0
    ensures
      var t := CloseTrade(cfg, p, time, exitRaw, reason, exitSignal);
      && t.maeR.Some? && t.grossR.Some? && t.mfeR.Some?
      && (t.maeR.value <= t.grossR.value <= t.mfeR.value <==> Gain(p, p.mae) <= Gain(p, exitRaw) <= Gain(p, p.mfe))
      && t.grossR.value == Gain(p, exitRaw) / p.risk.value
  {
    InPositiveRisk(Gain(p, exitRaw), p.risk);
    InPositiveRisk(Gain(p, p.mae), p.risk);
    InPositiveRisk(Gain(p, p.mfe), p.risk);
    DivideOrder(Gain(p, p.mae), Gain(p, exitRaw), p.risk.value);
    DivideOrder(Gain(p, exitRaw), Gain(p, p.mfe), p.risk.value);
    CloseFigures(cfg, p, time, exitRaw, reason, exitSignal);
    hide CloseTrade, Gain, InR;
  }

  lemma InPositiveRisk(amount: real, risk: Option<real>)
    requires risk.Some? && risk.value > 0.0
    ensures InR(amount, risk) == Some(amount / risk.value)
  {
  }

  lemma CloseFigures(cfg: ExecutionConfig, p: Position, time: int, exitRaw: real, reason: ExitReason, exitSignal: Option<Signal>)
    ensures
      var t := CloseTrade(cfg, p, time, exitRaw, reason, exitSignal);
      t.grossR == InR(Gain(p, exitRaw), p.risk) && t.maeR == InR(Gain(p, p.mae), p.risk) && t.mfeR == InR(Gain(p, p.mfe), p.risk)
  {
    hide InR, Gain, ExitCost;
  }

  lemma GainOfLevels(p: Position)
    requires Bracketed(p)
    ensures p.risk.value > 0.0
    ensures Gain(p, p.stop.value) == -p.risk.value
    ensures Gain(p, p.target.value) == Distance(p.target.value, p.entryRaw) > 0.0
  {
  }

  /** A struck level lies inside the excursion, because the whole bar was counted first. */
  lemma StruckLevelWithinExcursion(p: Position, high: real, low: real, rule: SameBarRule)
    requires Bracketed(p) && ExcursionsOk(p)
    ensures
      var p' := UpdateExcursion(p, high, low);
      var touch := CheckBarForExit(p.direction, p.stop.value, p.target.value, high, low, rule);
      touch.Some? ==>
        var level := if touch.value.StopTouch? then p.stop.value else p.target.value;
        Gain(p', p'.mae) <= Gain(p', level) <= Gain(p', p'.mfe)
  {
    var p' := UpdateExcursion(p, high, low);
    if p.direction.Bullish? {
      assert forall x :: Gain(p', x) == x - p.entryRaw;
    } else {
      assert forall x :: Gain(p', x) == p.entryRaw - x;
    }
  }

  /** A stop exit loses exactly one unit of risk, a target exit earns exactly the
      reward-to-risk available at the fill, and both lie inside the recorded excursion. */
  lemma BracketExitIsHonest(cfg: ExecutionConfig, p: Position, time: int, high: real, low: real)
    requires Bracketed(p) && ExcursionsOk(p)
    ensures var r := Examine(cfg, p, time, high, low).1; r.Some? ==> HonestBracketExit(r.value)
  {
    var p' := UpdateExcursion(p, high, low);
    var touch := CheckBarForExit(p.direction, p.stop.value, p.target.value, high, low, cfg.sameBar);
    if touch.Some? {
      var level := if touch.value.StopTouch? then p.stop.value else p.target.value;
      StruckLevelWithinExcursion(p, high, low, cfg.sameBar);
      GainOfLevels(p');
      ResultWithinExcursionExactly(cfg, p', time, level, ReasonOf(touch.value), None);
      DivideSelf(p.risk.value);
      DividePositive(Distance(p.target.value, p.entryRaw), p.risk.value);
    }
  }

  /** The price paid is no better than the raw fill, unless the fill is negative. */
  predicate EntryCharged(p: Position) {
    p.entryRaw >= 0.0 ==> (p.entryNet - p.entryRaw) * Sign(p.direction) >= 0.0
  }

  /** Costs did not improve this trade, in money or in R, unless one of its raw prices is negative. */
  predicate NetWithinGross(t: Trade) {
    t.entryRaw >= 0.0 && t.exitRaw >= 0.0 ==>
      t.netPnl <= t.grossPnl && (t.grossR.Some? <==> t.netR.Some?) && (t.grossR.Some? ==> t.netR.value <= t.grossR.value)
  }

  lemma ChargedClose(cfg: ExecutionConfig, p: Position, time: int, exitRaw: real, reason: ExitReason, exitSignal: Option<Signal>)
    requires EntryCharged(p) && (p.risk.Some? ==> p.risk.value > 0.0)
    ensures NetWithinGross(CloseTrade(cfg, p, time, exitRaw, reason, exitSignal))
  {
    CostHurtsExactly(exitRaw, p.direction, Exit, cfg.exitSlippageBps + cfg.spreadBps / 2.0);
    var t := CloseTrade(cfg, p, time, exitRaw, reason, exitSignal);
    if p.entryRaw >= 0.0 && exitRaw >= 0.0 {
      assert t.netPnl <= t.grossPnl;
      if p.risk.Some? {
        DivideOrder(t.netPnl, t.grossPnl, p.risk.value);
      }
    }
  }

  lemma NewPositionCharged(cfg: ExecutionConfig, signal: Signal, time: int, entryRaw: real, score: Option<real>)
    ensures EntryCharged(NewPosition(cfg, signal, time, entryRaw, score))
  {
    CostHurtsExactly(entryRaw, signal.direction, Entry, cfg.entrySlippageBps + cfg.spreadBps / 2.0);
  }

  /** Costs never improve a trade whose prices are not negative, in money or in R. */
  lemma NetNeverBeatsGross(cfg: ExecutionConfig, signal: Signal, entryTime: int, entryRaw: real, score: Option<real>,
                           mfe: real, mae: real, time: int, exitRaw: real, reason: ExitReason, exitSignal: Option<Signal>)
    ensures
      var p := NewPosition(cfg, signal, entryTime, entryRaw, score).(mfe := mfe, mae := mae);
      NetWithinGross(CloseTrade(cfg, p, time, exitRaw, reason, exitSignal))
  {
    NewPositionCharged(cfg, signal, entryTime, entryRaw, score);
    var p := NewPosition(cfg, signal, entryTime, entryRaw, score).(mfe := mfe, mae := mae);
    ChargedClose(cfg, p, time, exitRaw, reason, exitSignal);
  }

  // --------------------------------------------- one position over many bars

  datatype Tick = Tick(time: int, high: real, low: real)

  datatype Outcome = StillOpen(position: Position) | ClosedAt(index: nat, position: Position, trade: Trade)

  /** Examines the bars from `from` on, in order, until one closes the position. */
  function Watch(cfg: ExecutionConfig, p: Position, bars: seq<Tick>, from: nat): Outcome
    requires from <= |bars|
    decreases |bars| - from
  {
    if from == |bars| then StillOpen(p)
    else
      var (p', r) := Examine(cfg, p, bars[from].time, bars[from].high, bars[from].low);
      if r.Some? then ClosedAt(from, p', r.value) else Watch(cfg, p', bars, from + 1)
  }

  predicate Strikes(p: Position, bar: Tick)
    requires p.stop.Some? && p.target.Some?
  {
    if p.direction.Bullish? then bar.high >= p.target.value || bar.low <= p.stop.value
    else bar.low <= p.target.value || bar.high >= p.stop.value
  }

  predicate SamePlan(p: Position, q: Position) {
    q == p.(mfe := q.mfe, mae := q.mae)
  }

  /** The position leaves on the first bar that strikes either level, at that level, and never otherwise. */
  lemma {:induction false} ExitsOnFirstStrike(cfg: ExecutionConfig, p: Position, bars: seq<Tick>, from: nat)
    requires from <= |bars| && p.stop.Some? && p.target.Some?
    ensures
      match Watch(cfg, p, bars, from)
      case StillOpen(q) => SamePlan(p, q) && forall j :: from <= j < |bars| ==> !Strikes(p, bars[j])
      case ClosedAt(i, q, t) =>
        && from <= i < |bars| && SamePlan(p, q)
        && Strikes(p, bars[i]) && (forall j :: from <= j < i ==> !Strikes(p, bars[j]))
        && t.exitTime == bars[i].time
        && ((t.reason == StopHit && t.exitRaw == p.stop.value) || (t.reason == TargetHit && t.exitRaw == p.target.value))
    decreases |bars| - from
  {
    if from < |bars| {
      var (p', r) := Examine(cfg, p, bars[from].time, bars[from].high, bars[from].low);
      assert SamePlan(p, p');
      assert r.Some? <==> Strikes(p, bars[from]);
      if r.None? {
        ExitsOnFirstStrike(cfg, p', bars, from + 1);
        assert forall j :: from < j < |bars| ==> Strikes(p, bars[j]) == Strikes(p', bars[j]);
      }
    }
  }

  /** Whether price `a` is at least as good for the holder as price `b`. */
  predicate AtLeastAsGood(d: Direction, a: real, b: real) {
    if d.Bullish? then a >= b else a <= b
  }

  function BestOf(d: Direction, bar: Tick): real { if d.Bullish? then bar.high else bar.low }
  function WorstOf(d: Direction, bar: Tick): real { if d.Bullish? then bar.low else bar.high }

  /** `best` and `worst` are the extremes of the starting prices and the bars from `from` up to `last`. */
  ghost predicate IsExcursionOver(d: Direction, best: real, worst: real, best0: real, worst0: real, bars: seq<Tick>, from: nat, last: nat) {
    && from <= last <= |bars|
    && AtLeastAsGood(d, best, best0) && AtLeastAsGood(d, worst0, worst)
    && (forall j :: from <= j < last ==> AtLeastAsGood(d, best, BestOf(d, bars[j])) && AtLeastAsGood(d, WorstOf(d, bars[j]), worst))
    && (best == best0 || exists j :: from <= j < last && BestOf(d, bars[j]) == best)
    && (worst == worst0 || exists j :: from <= j < last && WorstOf(d, bars[j]) == worst)
  }

  /** For either direction, the excursion prices are the best and the worst of what was recorded
      before and of every bar examined, the whole exit bar included. */
  lemma {:induction false} ExcursionIsTheExtreme(cfg: ExecutionConfig, p: Position, bars: seq<Tick>, from: nat)
    requires from <= |bars|
    ensures
      var out := Watch(cfg, p, bars, from);
      var last := if out.ClosedAt? then out.index + 1 else |bars|;
      && IsExcursionOver(p.direction, out.position.mfe, out.position.mae, p.mfe, p.mae, bars, from, last)
      && (out.ClosedAt? ==> out.trade.mfePrice == out.position.mfe && out.trade.maePrice == out.position.mae)
    decreases |bars| - from
  {
    if from < |bars| {
      var (p', r) := Examine(cfg, p, bars[from].time, bars[from].high, bars[from].low);
      if r.None? {
        ExcursionIsTheExtreme(cfg, p', bars, from + 1);
      }
    }
  }

  /** A trade opened at `entryRaw` and watched from its first bar reports as its excursion the best and
      the worst of the entry price and of all bars up to and including the one that closed it. */
  lemma ExcursionCountsFromEntry(cfg: ExecutionConfig, signal: Signal, time: int, entryRaw: real, score: Option<real>, bars: seq<Tick>)
    ensures
      var out := Watch(cfg, NewPosition(cfg, signal, time, entryRaw, score), bars, 0);
      out.ClosedAt? ==>
        IsExcursionOver(signal.direction, out.trade.mfePrice, out.trade.maePrice, entryRaw, entryRaw, bars, 0, out.index + 1)
  {
    ExcursionIsTheExtreme(cfg, NewPosition(cfg, signal, time, entryRaw, score), bars, 0);
  }

  /** Switching the same-bar rule to stop-first never moves the exit bar and never raises the gross result. */
  lemma {:induction false} StopFirstIsConservative(cfg: ExecutionConfig, p: Position, bars: seq<Tick>, from: nat)
    requires from <= |bars| && Bracketed(p) && ExcursionsOk(p)
    ensures
      match (Watch(cfg.(sameBar := StopFirst), p, bars, from), Watch(cfg.(sameBar := TargetFirst), p, bars, from))
      case (StillOpen(q), StillOpen(q')) => q == q'
      case (ClosedAt(i, q, t), ClosedAt(i', q', t')) =>
        i == i' && q == q' && t.grossR.Some? && t'.grossR.Some? && t.grossR.value <= t'.grossR.value
      case _ => false
    decreases |bars| - from
  {
    if from < |bars| {
      var b := bars[from];
      var (p', r) := Examine(cfg.(sameBar := StopFirst), p, b.time, b.high, b.low);
      OneBarIsConservative(cfg, p, b);
      hide Examine, Bracketed, ExcursionsOk;
      if r.None? {
        StopFirstIsConservative(cfg, p', bars, from + 1);
      }
    }
  }

  lemma OneBarIsConservative(cfg: ExecutionConfig, p: Position, b: Tick)
    requires Bracketed(p) && ExcursionsOk(p)
    ensures
      var (p', r) := Examine(cfg.(sameBar := StopFirst), p, b.time, b.high, b.low);
      var (q', s) := Examine(cfg.(sameBar := TargetFirst), p, b.time, b.high, b.low);
      && p' == q' && Bracketed(p') && ExcursionsOk(p') && (r.None? <==> s.None?)
      && (r.Some? ==> r.value.grossR.Some? && s.value.grossR.Some? && r.value.grossR.value <= s.value.grossR.value)
  {
    BracketExitIsHonest(cfg.(sameBar := StopFirst), p, b.time, b.high, b.low);
    BracketExitIsHonest(cfg.(sameBar := TargetFirst), p, b.time, b.high, b.low);
    SameStrike(cfg, p, b);
    hide Examine, Bracketed, ExcursionsOk;
  }

  /** The rules agree on whether a bar strikes; when they do not agree on the level, stop-first takes the stop. */
  lemma SameTouch(p: Position, b: Tick)
    requires p.stop.Some? && p.target.Some?
    ensures
      var first := CheckBarForExit(p.direction, p.stop.value, p.target.value, b.high, b.low, StopFirst);
      var second := CheckBarForExit(p.direction, p.stop.value, p.target.value, b.high, b.low, TargetFirst);
      (first.None? <==> second.None?) && (first == Some(TargetTouch) ==> second == Some(TargetTouch))
  {
  }

  lemma CloseReason(cfg: ExecutionConfig, p: Position, time: int, exitRaw: real, reason: ExitReason, exitSignal: Option<Signal>)
    ensures
      var t := CloseTrade(cfg, p, time, exitRaw, reason, exitSignal);
      && t.reason == reason
      && t.executionRr == if p.target.Some? then InR(Distance(p.target.value, p.entryRaw), p.risk) else None
  {
    hide InR, Gain, ExitCost, Distance;
  }

  lemma SameStrike(cfg: ExecutionConfig, p: Position, b: Tick)
    requires Bracketed(p) && ExcursionsOk(p)
    ensures
      var (p', r) := Examine(cfg.(sameBar := StopFirst), p, b.time, b.high, b.low);
      var (q', s) := Examine(cfg.(sameBar := TargetFirst), p, b.time, b.high, b.low);
      && p' == q' && Bracketed(p') && ExcursionsOk(p') && (r.None? <==> s.None?)
      && (r.Some? ==>
            && (r.value.reason.StopHit? || r.value.reason.TargetHit?) && (s.value.reason.StopHit? || s.value.reason.TargetHit?)
            && r.value.executionRr == s.value.executionRr && (r.value.reason.TargetHit? ==> s.value.reason.TargetHit?))
  {
    SameTouch(p, b);
    var p' := UpdateExcursion(p, b.high, b.low);
    ExcursionGrows(p, b);
    var first, second := cfg.(sameBar := StopFirst), cfg.(sameBar := TargetFirst);
    CloseReason(first, p', b.time, p.stop.value, StopHit, None);
    CloseReason(first, p', b.time, p.target.value, TargetHit, None);
    CloseReason(second, p', b.time, p.stop.value, StopHit, None);
    CloseReason(second, p', b.time, p.target.value, TargetHit, None);
    hide CloseTrade, CheckBarForExit, UpdateExcursion, Bracketed, ExcursionsOk, InR, Distance;
  }

  lemma ExcursionGrows(p: Position, b: Tick)
    requires Bracketed(p) && ExcursionsOk(p)
    ensures
      var p' := UpdateExcursion(p, b.high, b.low);
      && Bracketed(p') && ExcursionsOk(p')
      && p'.stop == p.stop && p'.stop.Some? && p'.target == p.target && p'.target.Some? && p'.direction == p.direction
  {
  }
}
