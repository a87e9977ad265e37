/** The open-position book and the mutable simulator that owns it
    (talonx_backtest/execution.py, OpenPosition and TradeSimulator). */
module Simulator {
  import opened Sequences
  import opened Market
  import opened Execution

  // ------------------------------------------------------------ specification

  /** One position per symbol, with the order in which the symbols were first opened. */
  datatype Book = Book(positions: map<Symbol, Position>, order: seq<Symbol>)

  const EMPTY_BOOK := Book(map[], [])

  function Without(order: seq<Symbol>, s: Symbol): (rest: seq<Symbol>)
    ensures forall x :: x in rest <==> x in order && x != s
    ensures |rest| <= |order|
  {
    if order == [] then []
    else if order[0] == s then Without(order[1..], s)
    else [order[0]] + Without(order[1..], s)
  }

  lemma {:induction false} WithoutKeepsDistinct(order: seq<Symbol>, s: Symbol)
    requires NoDuplicates(order)
    ensures NoDuplicates(Without(order, s))
  {
    if order != [] {
      WithoutKeepsDistinct(order[1..], s);
      var rest := Without(order[1..], s);
      assert order[0] !in rest;
      forall i, j | 0 <= i < j < |[order[0]] + rest| ensures ([order[0]] + rest)[i] != ([order[0]] + rest)[j] {
        assert ([order[0]] + rest)[j] == rest[j - 1] && rest[j - 1] in rest;
      }
    }
  }

  ghost predicate WellFormed(b: Book) {
    && NoDuplicates(b.order)
    && (forall s :: s in b.positions <==> s in b.order)
    && (forall s :: s in b.positions ==> b.positions[s].symbol == s)
  }

  function Opened(b: Book, p: Position): Book {
    Book(b.positions[p.symbol := p], if p.symbol in b.positions then b.order else b.order + [p.symbol])
  }

  function Removed(b: Book, s: Symbol): Book {
    Book(b.positions - {s}, Without(b.order, s))
  }

  function Replaced(b: Book, p: Position): Book {
    b.(positions := b.positions[p.symbol := p])
  }

  lemma RemovedForgets(b: Book, s: Symbol, p: Position)
    requires p.symbol == s
    ensures Removed(Replaced(b, p), s) == Removed(b, s)
  {
  }

  /** The book and the trade, if any, after one examined bar of `s`. */
  function Examined(cfg: ExecutionConfig, b: Book, s: Symbol, time: int, high: real, low: real): (Book, Option<Trade>) {
    if s !in b.positions then (b, None)
    else
      var (p, t) := Examine(cfg, b.positions[s], time, high, low);
      if t.Some? then (Removed(b, s), t) else (b.(positions := b.positions[s := p]), None)
  }

  /** The book and the trade after an unconditional close of `s`, if it is open. */
  function Closed(cfg: ExecutionConfig, b: Book, s: Symbol, time: int, price: real, reason: ExitReason,
                  exitSignal: Option<Signal>): (Book, Option<Trade>)
  {
    if s !in b.positions then (b, None)
    else (Removed(b, s), Some(CloseTrade(cfg, b.positions[s], time, price, reason, exitSignal)))
  }

  // ------------------------------------------------------ the simulator itself

  class OpenPosition {
    const symbol: Symbol
    const direction: Direction
    const signal: Signal
    const entryTime: int
    const entryRaw: real
    const entryNet: real
    const stop: Option<real>
    const target: Option<real>
    const risk: Option<real>
    var mfe: real
    var mae: real
    const score: Option<real>

    function Value(): Position
      reads this
    {
      Position(symbol, direction, signal, entryTime, entryRaw, entryNet, stop, target, risk, mfe, mae, score)
    }

    constructor (cfg: ExecutionConfig, signal: Signal, time: int, entryRaw: real, score: Option<real>)
      ensures Value() == NewPosition(cfg, signal, time, entryRaw, score)
    {
      symbol := signal.ticker;
      direction := signal.direction;
      this.signal := signal;
      entryTime := time;
      this.entryRaw := entryRaw;
      entryNet := EntryCost(entryRaw, signal.direction, cfg);
      stop := signal.stop;
      target := signal.target;
      risk := RiskOf(entryRaw, signal.stop);
      mfe := entryRaw;
      mae := entryRaw;
      this.score := score;
    }

    method RecordExcursion(high: real, low: real)
      modifies this
      ensures Value() == UpdateExcursion(old(Value()), high, low)
    {
      if direction.Bullish? {
        mfe := Max(mfe, high);
        mae := Min(mae, low);
      } else {
        mfe := Min(mfe, low);
        mae := Max(mae, high);
      }
    }
  }

  class TradeSimulator {
    const config: ExecutionConfig
    var open: map<Symbol, OpenPosition>
    var order: seq<Symbol>
    ghost var book: Book

    /** The position objects the simulator currently owns. */
    ghost function Owned(): set<OpenPosition>
      reads this
    {
      set s | s in open :: open[s]
    }

    /** `book` is what the objects hold; keys agree with the positions they hold, so no position is
        shared between symbols. */
    ghost predicate Valid()
      reads this, Owned()
    {
      && (forall s :: s in open ==> open[s].symbol == s)
      && (forall s :: s in open <==> s in order)
      && NoDuplicates(order)
      && book.order == order
      && book.positions.Keys == open.Keys
      && (forall s :: s in open ==> book.positions[s] == open[s].Value())
    }

    constructor (config: ExecutionConfig)
      ensures Valid() && this.config == config
      ensures book == EMPTY_BOOK && Owned() == {}
    {
      this.config := config;
      open := map[];
      order := [];
      book := EMPTY_BOOK;
    }

    /** Fills at `entryRaw`; a symbol that is already open has its position replaced. */
    method OpenAt(signal: Signal, time: int, entryRaw: real, score: Option<real>)
      requires Valid()
      modifies this
      ensures Valid() && fresh(Owned() - old(Owned()))
      ensures book == Opened(old(book), NewPosition(config, signal, time, entryRaw, score))
    {
      var p := new OpenPosition(config, signal, time, entryRaw, score);
      hide NewPosition;
      Hold(p);
    }

    method Hold(p: OpenPosition)
      requires Valid()
      modifies this
      ensures Valid() && Owned() <= old(Owned()) + {p}
      ensures book == Opened(old(book), old(p.Value()))
    {
      if p.symbol !in open {
        order := order + [p.symbol];
      }
      open := open[p.symbol := p];
      book := Opened(book, p.Value());
    }

    method Pop(s: Symbol)
      requires Valid() && s in open
      modifies this
      ensures Valid() && Owned() <= old(Owned())
      ensures book == Removed(old(book), s)
    {
      WithoutKeepsDistinct(order, s);
      order := Without(order, s);
      open := open - {s};
      book := Removed(book, s);
      assert Owned() <= old(Owned());
    }

    /** Counts one bar's range towards the excursion of an open position. */
    method Track(s: Symbol, high: real, low: real)
      requires Valid() && s in open
      modifies `book, Owned()
      ensures Valid()
      ensures book == Replaced(old(book), UpdateExcursion(old(open[s].Value()), high, low))
    {
      open[s].RecordExcursion(high, low);
      book := Replaced(book, open[s].Value());
    }

    /** Feeds one bar to the symbol's position and closes it if the bar strikes its bracket. */
    method CheckExit(s: Symbol, time: int, high: real, low: real) returns (trade: Option<Trade>)
      requires Valid()
      requires s in open ==> open[s].stop.Some? && open[s].target.Some?
      modifies this, Owned()
      ensures Valid() && Owned() <= old(Owned())
      ensures (book, trade) == Examined(config, old(book), s, time, high, low)
    {
      if s !in open {
        return None;
      }
      var p := open[s];
      Track(s, high, low);
      var touch := CheckBarForExit(p.direction, p.stop.value, p.target.value, high, low, config.sameBar);
      if touch.None? {
        return None;
      }
      var level := if touch.value.StopTouch? then p.stop.value else p.target.value;
      trade := Some(CloseTrade(config, p.Value(), time, level, ReasonOf(touch.value), None));
      Pop(s);
      RemovedForgets(old(book), s, UpdateExcursion(old(open[s].Value()), high, low));
    }

    /** Closes for a reason other than a struck level: a signal, the end of session, or the end of data. */
    method Close(s: Symbol, time: int, price: real, reason: ExitReason, exitSignal: Option<Signal>)
      returns (trade: Option<Trade>)
      requires Valid()
      modifies this
      ensures Valid() && Owned() <= old(Owned())
      ensures (book, trade) == Closed(config, old(book), s, time, price, reason, exitSignal)
    {
      if s !in open {
        return None;
      }
      var t := CloseTrade(config, open[s].Value(), time, price, reason, exitSignal);
      Pop(s);
      trade := Some(t);
    }
  }
}
