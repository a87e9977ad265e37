/** What a backtest reports about its trades: the one-pass drawdown, the equity curve and the
    per-bucket breakdown (talonx_backtest/metrics.py, reports.py, analysis.py). */
module Metrics {
  import opened Sequences

  /** A trade as the reports see it: closed at some time or not, with a result in R if it had a risk. */
  datatype Scored = Scored(id: string, exitTime: Option<int>, r: Option<real>)

  function Sum(xs: seq<real>): real { if xs == [] then 0.0 else Sum(xs[..|xs| - 1]) + xs[|xs| - 1] }

  function OrZero(r: Option<real>): real { if r.Some? then r.value else 0.0 }

  function Results(trades: seq<Scored>): seq<real> { seq(|trades|, i requires 0 <= i < |trades| => OrZero(trades[i].r)) }

  function IsClosed(): Scored -> bool { (t: Scored) => t.exitTime.Some? }
  function HasResult(): Scored -> bool { (t: Scored) => t.r.Some? }
  function Counts(): Scored -> bool { (t: Scored) => t.r.Some? && t.exitTime.Some? }

  /** Trades in the order in which they were realised; open ones sort first and are filtered out before. */
  predicate ExitsBy(a: Scored, b: Scored) { a.exitTime.None? || (b.exitTime.Some? && a.exitTime.value <= b.exitTime.value) }

  function InExitOrder(trades: seq<Scored>): seq<Scored> { StableSort(trades, ExitsBy) }

  lemma ExitOrderIsOrder()
    ensures TotalPreorder(ExitsBy)
  {
  }

  lemma ExitOrderKeepsLength(trades: seq<Scored>)
    ensures |InExitOrder(trades)| == |trades|
  {
    ExitOrderIsOrder();
    hide ExitsBy;
    SortIsSortedPermutation(trades, ExitsBy);
  }

  // ------------------------------------------------------------ drawdown, one pass

  function Max(a: real, b: real): real { if a >= b then a else b }
  function Min(a: real, b: real): real { if a <= b then a else b }

  /** Running total, highest running total so far, and deepest fall from it so far. */
  datatype Running = Running(cumulative: real, peak: real, worst: real)

  const START := Running(0.0, 0.0, 0.0)

  function Advance(s: Running, r: real): Running {
    var cumulative := s.cumulative + r;
    var peak := Max(s.peak, cumulative);
    Running(cumulative, peak, Min(s.worst, cumulative - peak))
  }

  function OnePass(xs: seq<real>): Running {
    if xs == [] then START else Advance(OnePass(xs[..|xs| - 1]), xs[|xs| - 1])
  }

  // ------------------------------------------------------- the worst contiguous run

  /** The running total after the first `i` results. */
  function At(xs: seq<real>, i: nat): real
    requires i <= |xs|
  {
    Sum(xs[..i])
  }

  function Change(xs: seq<real>, i: nat, j: nat): real
    requires i <= j <= |xs|
  {
    At(xs, j) - At(xs, i)
  }

  lemma AtFront(xs: seq<real>)
    requires xs != []
    ensures forall i :: 0 <= i < |xs| ==> At(xs, i) == At(xs[..|xs| - 1], i)
    ensures At(xs, |xs|) == Sum(xs)
  {
    forall i | 0 <= i < |xs| ensures At(xs, i) == At(xs[..|xs| - 1], i) {
      assert xs[..i] == xs[..|xs| - 1][..i];
    }
    assert xs[..|xs|] == xs;
  }

  lemma {:induction false} SumConcat(xs: seq<real>, ys: seq<real>)
    ensures Sum(xs + ys) == Sum(xs) + Sum(ys)
  {
    if ys == [] {
      assert xs + ys == xs;
    } else {
      var front := ys[..|ys| - 1];
      assert (xs + ys)[..|xs + ys| - 1] == xs + front;
      SumConcat(xs, front);
    }
  }

  /** The running total changes over a run by the sum of the run's own results. */
  lemma ChangeIsRunSum(xs: seq<real>, i: nat, j: nat)
    requires i <= j <= |xs|
    ensures Change(xs, i, j) == Sum(xs[i..j])
  {
    assert xs[..j] == xs[..i] + xs[i..j];
    SumConcat(xs[..i], xs[i..j]);
  }

  /** `v` is the least sum of any contiguous run of results, the empty run included. */
  ghost predicate IsWorstRun(xs: seq<real>, v: real) {
    && (exists i, j :: 0 <= i <= j <= |xs| && Sum(xs[i..j]) == v)
    && (forall i, j :: 0 <= i <= j <= |xs| ==> Sum(xs[i..j]) >= v)
  }

  /** The same in terms of the running total. */
  ghost predicate IsWorstChange(xs: seq<real>, v: real) {
    && (exists i, j :: 0 <= i <= j <= |xs| && Change(xs, i, j) == v)
    && (forall i, j :: 0 <= i <= j <= |xs| ==> Change(xs, i, j) >= v)
  }

  lemma WorstChangeIsWorstRun(xs: seq<real>, v: real)
    ensures IsWorstChange(xs, v) <==> IsWorstRun(xs, v)
  {
    hide Sum, Change;
    forall i, j | 0 <= i <= j <= |xs| ensures Change(xs, i, j) == Sum(xs[i..j]) { ChangeIsRunSum(xs, i, j); }
  }

  ghost predicate IsPeak(xs: seq<real>, v: real) {
    && (exists i :: 0 <= i <= |xs| && At(xs, i) == v)
    && (forall i :: 0 <= i <= |xs| ==> At(xs, i) <= v)
  }

  lemma {:induction false} OnePassRuns(xs: seq<real>)
    ensures
      var s := OnePass(xs);
      && s.cumulative == Sum(xs) && IsPeak(xs, s.peak) && IsWorstChange(xs, s.worst)
      && s.cumulative <= s.peak && s.worst <= s.cumulative - s.peak && s.worst <= 0.0
  {
    if xs == [] {
      assert At(xs, 0) == 0.0 && Change(xs, 0, 0) == 0.0;
    } else {
      var front := xs[..|xs| - 1];
      OnePassRuns(front);
      PeakStep(xs, OnePass(front).peak, OnePass(xs).peak);
      hide IsPeak, IsWorstChange;
      WorstStep(xs, OnePass(front), OnePass(xs));
    }
  }

  lemma PeakStep(xs: seq<real>, peak: real, peak': real)
    requires xs != [] && IsPeak(xs[..|xs| - 1], peak) && peak' == Max(peak, Sum(xs))
    ensures IsPeak(xs, peak')
  {
    hide At, Sum;
    var front := xs[..|xs| - 1];
    AtFront(xs);
    var i :| 0 <= i <= |front| && At(front, i) == peak;
    assert At(xs, i) == peak;
  }

  lemma WorstStep(xs: seq<real>, s: Running, s': Running)
    requires xs != [] && IsWorstChange(xs[..|xs| - 1], s.worst) && s'.cumulative == Sum(xs) && IsPeak(xs, s'.peak)
    requires s'.worst == Min(s.worst, s'.cumulative - s'.peak)
    ensures IsWorstChange(xs, s'.worst)
  {
    hide At, Sum;
    var front, n := xs[..|xs| - 1], |xs|;
    AtFront(xs);
    forall i, j | 0 <= i <= j <= n ensures Change(xs, i, j) >= s'.worst {
      if j < n {
        assert Change(xs, i, j) == Change(front, i, j);
      } else {
        assert At(xs, i) <= s'.peak;
      }
    }
    if s'.worst == s.worst {
      var i, j :| 0 <= i <= j <= |front| && Change(front, i, j) == s.worst;
      assert Change(xs, i, j) == s.worst;
    } else {
      var i :| 0 <= i <= n && At(xs, i) == s'.peak;
      assert Change(xs, i, n) == s'.worst;
    }
  }

  /** One pass over the results finds the total, the highest running total and the worst run. */
  lemma OnePassFacts(xs: seq<real>)
    ensures
      var s := OnePass(xs);
      && s.cumulative == Sum(xs) && IsPeak(xs, s.peak) && IsWorstRun(xs, s.worst)
      && s.cumulative <= s.peak && s.worst <= s.cumulative - s.peak && s.worst <= 0.0
  {
    OnePassRuns(xs);
    WorstChangeIsWorstRun(xs, OnePass(xs).worst);
  }

  /** Drawdown of the trades that have a result and an exit, or nothing when there is none. */
  method MaxDrawdownR(trades: seq<Scored>) returns (drawdown: Option<real>)
    ensures drawdown.None? <==> Filter(trades, Counts()) == []
    ensures
      var results := Results(InExitOrder(Filter(trades, Counts())));
      drawdown.Some? ==> drawdown.value == OnePass(results).worst && IsWorstRun(results, drawdown.value) && drawdown.value <= 0.0
  {
    hide Filter, IsWorstRun, IsPeak, Sum, StableSort;
    var ordered := InExitOrder(Filter(trades, Counts()));
    ExitOrderKeepsLength(Filter(trades, Counts()));
    if ordered == [] {
      return None;
    }
    ghost var results := Results(ordered);
    var cumulative, peak, worst := 0.0, 0.0, 0.0;
    for i := 0 to |ordered|
      invariant Running(cumulative, peak, worst) == OnePass(results[..i])
    {
      assert results[..i + 1][..i] == results[..i];
      cumulative := cumulative + OrZero(ordered[i].r);
      peak := Max(peak, cumulative);
      worst := Min(worst, cumulative - peak);
    }
    assert results[..|results|] == results;
    OnePassFacts(results);
    return Some(worst);
  }

  // ------------------------------------------------------------------ equity curve

  /** Running totals, one per closed trade; a trade without a result moves nothing. */
  function Curve(xs: seq<real>): seq<real> {
    if xs == [] then [] else Curve(xs[..|xs| - 1]) + [Sum(xs)]
  }

  method EquityCurve(trades: seq<Scored>) returns (rows: seq<real>)
    ensures rows == Curve(Results(InExitOrder(Filter(trades, IsClosed()))))
  {
    hide Filter;
    var ordered := InExitOrder(Filter(trades, IsClosed()));
    ghost var results := Results(ordered);
    rows := [];
    var cumulative := 0.0;
    for i := 0 to |ordered|
      invariant rows == Curve(results[..i]) && cumulative == Sum(results[..i])
    {
      assert results[..i + 1][..i] == results[..i];
      cumulative := cumulative + OrZero(ordered[i].r);
      rows := rows + [cumulative];
    }
    assert results[..|results|] == results;
  }

  /** `v` is the deepest fall of a curve that starts at zero. */
  ghost predicate IsDeepestFall(curve: seq<real>, v: real) {
    var points := [0.0] + curve;
    && (exists i, j :: 0 <= i <= j < |points| && points[j] - points[i] == v)
    && (forall i, j :: 0 <= i <= j < |points| ==> points[j] - points[i] >= v)
  }

  lemma {:induction false} CurvePoints(xs: seq<real>, j: nat)
    requires j <= |xs|
    ensures |Curve(xs)| == |xs| && ([0.0] + Curve(xs))[j] == At(xs, j)
  {
    if xs == [] {
      assert At(xs, 0) == 0.0;
    } else {
      hide At, Sum;
      AtFront(xs);
      CurvePoints(xs[..|xs| - 1], if j < |xs| then j else 0);
    }
  }

  lemma CurveFall(xs: seq<real>, v: real)
    ensures IsWorstRun(xs, v) <==> IsDeepestFall(Curve(xs), v)
  {
    WorstChangeIsWorstRun(xs, v);
    hide At, Curve, IsWorstRun;
    var points := [0.0] + Curve(xs);
    CurvePoints(xs, 0);
    forall j | 0 <= j <= |xs| ensures points[j] == At(xs, j) { CurvePoints(xs, j); }
    assert forall i, j :: 0 <= i <= j <= |xs| ==> Change(xs, i, j) == points[j] - points[i];
    if IsWorstChange(xs, v) {
      var i, j :| 0 <= i <= j <= |xs| && Change(xs, i, j) == v;
      assert points[j] - points[i] == v;
    }
    if IsDeepestFall(Curve(xs), v) {
      var i, j :| 0 <= i <= j < |points| && points[j] - points[i] == v;
      assert Change(xs, i, j) == v;
    }
  }

  lemma ResultsSnoc(trades: seq<Scored>, t: Scored)
    ensures Results(trades + [t]) == Results(trades) + [OrZero(t.r)]
  {
  }

  lemma OnePassSnoc(xs: seq<real>, r: real)
    ensures OnePass(xs + [r]) == Advance(OnePass(xs), r)
    ensures Sum(xs + [r]) == Sum(xs) + r
  {
  }

  /** Trades without a result change neither the drawdown nor the total. */
  lemma {:induction false} BlanksDoNotMatter(trades: seq<Scored>)
    ensures OnePass(Results(Filter(trades, HasResult()))) == OnePass(Results(trades))
  {
    if trades != [] {
      hide Advance, OnePass, Sum, Results;
      var front, t := trades[..|trades| - 1], trades[|trades| - 1];
      assert trades == front + [t];
      BlanksDoNotMatter(front);
      FilterSnoc(front, t, HasResult());
      ResultsSnoc(front, t);
      OnePassSnoc(Results(front), OrZero(t.r));
      if t.r.Some? {
        ResultsSnoc(Filter(front, HasResult()), t);
        OnePassSnoc(Results(Filter(front, HasResult())), t.r.value);
      } else {
        OnePassFacts(Results(front));
        ZeroAdvance(OnePass(Results(front)));
        assert Filter(front, HasResult()) + [] == Filter(front, HasResult());
      }
    }
  }

  lemma ZeroAdvance(s: Running)
    requires s.cumulative <= s.peak && s.worst <= s.cumulative - s.peak
    ensures Advance(s, 0.0) == s
  {
  }

  /** The reported drawdown is the deepest fall of the reported equity curve, although the curve also
      carries the closed trades that have no result. */
  lemma DrawdownIsCurveFall(trades: seq<Scored>)
    ensures
      var drawdown := OnePass(Results(InExitOrder(Filter(trades, Counts())))).worst;
      IsDeepestFall(Curve(Results(InExitOrder(Filter(trades, IsClosed())))), drawdown)
  {
    hide OnePass, Curve, Results, IsDeepestFall, IsWorstRun;
    var closed := Filter(trades, IsClosed());
    ExitOrderIsOrder();
    CountsIsClosedWithResult(trades);
    SortCommutesWithFilter(closed, ExitsBy, HasResult());
    BlanksDoNotMatter(InExitOrder(closed));
    OnePassFacts(Results(InExitOrder(closed)));
    CurveFall(Results(InExitOrder(closed)), OnePass(Results(InExitOrder(closed))).worst);
  }

  lemma {:induction false} CountsIsClosedWithResult(trades: seq<Scored>)
    ensures Filter(trades, Counts()) == Filter(Filter(trades, IsClosed()), HasResult())
  {
    if trades != [] {
      CountsIsClosedWithResult(trades[1..]);
      if trades[0].exitTime.Some? {
        assert ([trades[0]] + Filter(trades[1..], IsClosed()))[1..] == Filter(trades[1..], IsClosed());
      }
    }
  }

  lemma {:induction false} InsertTotal(t: Scored, trades: seq<Scored>)
    ensures Sum(Results(Insert(t, trades, ExitsBy))) == OrZero(t.r) + Sum(Results(trades))
  {
    if trades == [] || ExitsBy(t, trades[0]) {
      assert Results([t] + trades) == [OrZero(t.r)] + Results(trades);
      SumConcat([OrZero(t.r)], Results(trades));
      SumOne(OrZero(t.r));
      if trades == [] { assert [t] + trades == [t]; }
    } else {
      InsertTotal(t, trades[1..]);
      var rest := Insert(t, trades[1..], ExitsBy);
      assert Results([trades[0]] + rest) == [OrZero(trades[0].r)] + Results(rest);
      assert Results(trades) == [OrZero(trades[0].r)] + Results(trades[1..]);
      SumConcat([OrZero(trades[0].r)], Results(rest));
      SumConcat([OrZero(trades[0].r)], Results(trades[1..]));
    }
  }

  lemma SumOne(r: real)
    ensures Sum([r]) == r
  {
  }

  /** The order in which trades are realised does not change their total. */
  lemma {:induction false} SortKeepsTotal(trades: seq<Scored>)
    ensures Sum(Results(InExitOrder(trades))) == Sum(Results(trades))
  {
    if trades != [] {
      SortKeepsTotal(trades[1..]);
      InsertTotal(trades[0], InExitOrder(trades[1..]));
      assert Results(trades) == [OrZero(trades[0].r)] + Results(trades[1..]);
      SumConcat([OrZero(trades[0].r)], Results(trades[1..]));
      SumOne(OrZero(trades[0].r));
    }
  }

  lemma SortedNonEmpty(trades: seq<Scored>)
    requires trades != []
    ensures Results(InExitOrder(trades)) != []
  {
  }

  lemma SomeResult(trades: seq<Scored>)
    ensures Filter(trades, HasResult()) == [] <==> forall t :: t in trades ==> t.r.None?
  {
    if t :| t in trades && t.r.Some? {
      assert t in Filter(trades, HasResult());
    }
    if Filter(trades, HasResult()) != [] {
      assert Filter(trades, HasResult())[0] in Filter(trades, HasResult());
    }
  }

  /** The reported total: none when no trade has a result. */
  function TotalR(trades: seq<Scored>): Option<real> {
    var counted := Filter(trades, HasResult());
    if counted == [] then None else Some(Sum(Results(counted)))
  }

  /** When every trade is closed, the last point of the equity curve is the reported total; when no total
      is reported the curve, which still has a point for every trade, ends at zero. */
  lemma CurveEndsAtTotal(trades: seq<Scored>)
    requires trades != [] && forall t :: t in trades ==> t.exitTime.Some?
    ensures
      var curve := Curve(Results(InExitOrder(Filter(trades, IsClosed()))));
      && curve != []
      && (TotalR(trades).Some? ==> curve[|curve| - 1] == TotalR(trades).value)
      && (TotalR(trades).None? ==> curve[|curve| - 1] == 0.0)
      && (TotalR(trades).None? <==> forall t :: t in trades ==> t.r.None?)
  {
    assert Results([]) == [] && Sum([]) == 0.0;
    SomeResult(trades);
    hide Sum, Curve, OnePass, Filter, Results, InExitOrder, IsPeak, IsWorstRun;
    FilterAll(trades, IsClosed());
    SortedNonEmpty(trades);
    var results := Results(InExitOrder(trades));
    CurvePoints(results, |results|);
    AtFront(results);
    SortKeepsTotal(trades);
    BlanksDoNotMatter(trades);
    OnePassFacts(Results(trades));
    OnePassFacts(Results(Filter(trades, HasResult())));
  }

  // -------------------------------------------------------------------- breakdowns

  function InBucket(keyOf: Scored -> Option<string>, k: string): Scored -> bool { (t: Scored) => keyOf(t) == Some(k) }

  function Keyless(keyOf: Scored -> Option<string>): Scored -> bool { (t: Scored) => keyOf(t).None? }

  function TotalOf(trades: seq<Scored>): real { Sum(Results(trades)) }

  /** Sums a figure over the buckets. */
  function OverBuckets(trades: seq<Scored>, keyOf: Scored -> Option<string>, keys: seq<string>): real {
    if keys == [] then 0.0
    else OverBuckets(trades, keyOf, keys[..|keys| - 1]) + TotalOf(Filter(trades, InBucket(keyOf, keys[|keys| - 1])))
  }

  method GroupTrades(trades: seq<Scored>, keyOf: Scored -> Option<string>) returns (buckets: map<string, seq<Scored>>)
    ensures forall k :: k in buckets <==> exists t :: t in trades && keyOf(t) == Some(k)
    ensures forall k :: k in buckets ==> buckets[k] == Filter(trades, InBucket(keyOf, k))
  {
    buckets := map[];
    for i := 0 to |trades|
      invariant forall k :: k in buckets <==> exists t :: t in trades[..i] && keyOf(t) == Some(k)
      invariant forall k :: k in buckets ==> buckets[k] == Filter(trades[..i], InBucket(keyOf, k))
    {
      var t := trades[i];
      var key := keyOf(t);
      ghost var was := buckets;
      assert trades[..i + 1] == trades[..i] + [t];
      forall k ensures Filter(trades[..i + 1], InBucket(keyOf, k))
                    == Filter(trades[..i], InBucket(keyOf, k)) + (if key == Some(k) then [t] else []) {
        FilterSnoc(trades[..i], t, InBucket(keyOf, k));
      }
      if key.Some? {
        if key.value !in buckets {
          FilterNone(trades[..i], InBucket(keyOf, key.value));
        }
        buckets := buckets[key.value := (if key.value in buckets then buckets[key.value] else []) + [t]];
      }
      forall k ensures k in buckets <==> exists x :: x in trades[..i + 1] && keyOf(x) == Some(k) {
        if key == Some(k) {
          assert t in trades[..i + 1];
        } else if k in was {
          var x :| x in trades[..i] && keyOf(x) == Some(k);
          assert x in trades[..i + 1];
        }
      }
    }
    assert trades[..|trades|] == trades;
  }

  lemma TotalSnoc(trades: seq<Scored>, t: Scored)
    ensures TotalOf(trades + [t]) == TotalOf(trades) + OrZero(t.r)
  {
    ResultsSnoc(trades, t);
    OnePassSnoc(Results(trades), OrZero(t.r));
  }

  lemma {:induction false} BucketsSnoc(trades: seq<Scored>, t: Scored, keyOf: Scored -> Option<string>, keys: seq<string>)
    requires NoDuplicates(keys)
    ensures OverBuckets(trades + [t], keyOf, keys)
         == OverBuckets(trades, keyOf, keys) + (if keyOf(t).Some? && keyOf(t).value in keys then OrZero(t.r) else 0.0)
  {
    hide TotalOf;
    if keys != [] {
      var front, k := keys[..|keys| - 1], keys[|keys| - 1];
      assert keys == front + [k];
      BucketsSnoc(trades, t, keyOf, front);
      FilterSnoc(trades, t, InBucket(keyOf, k));
      if keyOf(t) == Some(k) {
        TotalSnoc(Filter(trades, InBucket(keyOf, k)), t);
      } else {
        assert Filter(trades, InBucket(keyOf, k)) + [] == Filter(trades, InBucket(keyOf, k));
      }
    }
  }

  lemma {:induction false} NoTradesNoTotals(keyOf: Scored -> Option<string>, keys: seq<string>)
    ensures OverBuckets([], keyOf, keys) == 0.0
  {
    if keys != [] {
      NoTradesNoTotals(keyOf, keys[..|keys| - 1]);
      assert Results([]) == [];
    }
  }

  /** The bucket totals and the total of the trades that fall into no bucket add up to the whole, so the
      buckets alone add up to it exactly when the keyless trades net to nothing, in particular when
      every trade has a key. */
  lemma {:induction false} BucketsCoverTotal(trades: seq<Scored>, keyOf: Scored -> Option<string>, keys: seq<string>)
    requires NoDuplicates(keys) && forall t :: t in trades && keyOf(t).Some? ==> keyOf(t).value in keys
    ensures OverBuckets(trades, keyOf, keys) + TotalOf(Filter(trades, Keyless(keyOf))) == TotalOf(trades)
    ensures (forall t :: t in trades ==> keyOf(t).Some?) ==> OverBuckets(trades, keyOf, keys) == TotalOf(trades)
  {
    hide Filter;
    if trades == [] {
      NoTradesNoTotals(keyOf, keys);
      FilterNone(trades, Keyless(keyOf));
      assert Results([]) == [];
    } else {
      var front, t := trades[..|trades| - 1], trades[|trades| - 1];
      assert trades == front + [t];
      BucketsCoverTotal(front, keyOf, keys);
      BucketsSnoc(front, t, keyOf, keys);
      TotalSnoc(front, t);
      FilterSnoc(front, t, Keyless(keyOf));
      if keyOf(t).None? {
        TotalSnoc(Filter(front, Keyless(keyOf)), t);
      } else {
        assert Filter(front, Keyless(keyOf)) + [] == Filter(front, Keyless(keyOf));
      }
    }
  }
}
