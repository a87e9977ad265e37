/** Preparing bars for replay (talonx_backtest/data.py): the opt-in sort-and-dedupe repair, what it
    guarantees to the engine, and the accounting of gaps. */
module DataPrep {
  import opened Sequences
  import opened Ordering
  import opened Market
  import opened Replay

  /** One row of the frame, in file order. */
  datatype DataRow = DataRow(time: int, bar: Bar)

  /** Rows that share symbol and timestamp report the same bar. */
  datatype RowKey = RowKey(symbol: Symbol, time: int)

  function KeyOf(r: DataRow): RowKey { RowKey(r.bar.symbol, r.time) }

  predicate RowLeq(a: DataRow, b: DataRow) {
    if a.bar.symbol == b.bar.symbol then a.time <= b.time else TextLeq(a.bar.symbol, b.bar.symbol)
  }

  lemma RowsAreOrdered()
    ensures TotalPreorder(RowLeq)
  {
    TextIsOrdered();
    hide TextLeq;
  }

  function HasKey(k: RowKey): DataRow -> bool { (r: DataRow) => KeyOf(r) == k }

  /** Drops every row that a later row with the same key supersedes. */
  function KeepLast(rows: seq<DataRow>): seq<DataRow> {
    if rows == [] then []
    else if Filter(rows[1..], HasKey(KeyOf(rows[0]))) != [] then KeepLast(rows[1..])
    else [rows[0]] + KeepLast(rows[1..])
  }

  function SortAndDedupe(rows: seq<DataRow>): seq<DataRow> { KeepLast(StableSort(rows, RowLeq)) }

  ghost predicate DistinctKeys(rows: seq<DataRow>) {
    forall i, j :: 0 <= i < j < |rows| ==> KeyOf(rows[i]) != KeyOf(rows[j])
  }

  lemma SameFilter(rows: seq<DataRow>, k: RowKey)
    requires rows != []
    ensures Filter(rows, HasKey(k)) == (if KeyOf(rows[0]) == k then [rows[0]] else []) + Filter(rows[1..], HasKey(k))
  {
  }

  lemma FilterCons(row: DataRow, rows: seq<DataRow>, k: RowKey)
    ensures Filter([row] + rows, HasKey(k)) == (if KeyOf(row) == k then [row] else []) + Filter(rows, HasKey(k))
  {
    assert ([row] + rows)[1..] == rows;
  }

  function LastOnly(rows: seq<DataRow>): seq<DataRow> { if rows == [] then [] else [rows[|rows| - 1]] }

  lemma LastOnlyCons(row: DataRow, rows: seq<DataRow>)
    ensures LastOnly([row] + rows) == if rows == [] then [row] else LastOnly(rows)
    ensures rows == [] ==> LastOnly(rows) == []
  {
  }

  lemma KeepLastStep(rows: seq<DataRow>)
    requires rows != []
    ensures
      var rest := rows[1..];
      KeepLast(rows) == if Filter(rest, HasKey(KeyOf(rows[0]))) != [] then KeepLast(rest) else [rows[0]] + KeepLast(rest)
  {
  }

  /** What is kept of each key is exactly its last row. */
  lemma {:induction false} KeepLastOfEachKey(rows: seq<DataRow>, k: RowKey)
    ensures Filter(KeepLast(rows), HasKey(k)) == LastOnly(Filter(rows, HasKey(k)))
  {
    if rows != [] {
      hide Filter, KeepLast, LastOnly, HasKey, KeyOf;
      var row, rest := rows[0], rows[1..];
      var later := Filter(rest, HasKey(k));
      KeepLastOfEachKey(rest, k);
      SameFilter(rows, k);
      KeepLastStep(rows);
      FilterCons(row, KeepLast(rest), k);
      if KeyOf(row) == k {
        LastOnlyCons(row, later);
      } else {
        assert Filter(rows, HasKey(k)) == later;
      }
    }
  }

  lemma {:induction false} KeepLastSubset(rows: seq<DataRow>)
    ensures forall r :: r in KeepLast(rows) ==> r in rows
  {
    if rows != [] {
      KeepLastSubset(rows[1..]);
      assert rows == [rows[0]] + rows[1..];
    }
  }

  lemma NoneLater(rest: seq<DataRow>, k: RowKey)
    requires Filter(rest, HasKey(k)) == []
    ensures forall r :: r in KeepLast(rest) ==> KeyOf(r) != k
  {
    KeepLastSubset(rest);
    hide KeepLast;
    assert forall r :: r in rest ==> KeyOf(r) != k;
  }

  lemma DistinctCons(row: DataRow, rows: seq<DataRow>)
    requires DistinctKeys(rows) && forall r :: r in rows ==> KeyOf(r) != KeyOf(row)
    ensures DistinctKeys([row] + rows)
  {
    hide KeyOf;
    var all := [row] + rows;
    forall i, j | 0 <= i < j < |all| ensures KeyOf(all[i]) != KeyOf(all[j]) {
      assert all[j] == rows[j - 1] && rows[j - 1] in rows;
      if i > 0 {
        assert all[i] == rows[i - 1];
      }
    }
  }

  lemma {:induction false} KeepLastDistinct(rows: seq<DataRow>)
    ensures DistinctKeys(KeepLast(rows))
  {
    if rows != [] {
      KeepLastDistinct(rows[1..]);
      hide Filter, KeyOf, DistinctKeys;
      if Filter(rows[1..], HasKey(KeyOf(rows[0]))) == [] {
        NoneLater(rows[1..], KeyOf(rows[0]));
        DistinctCons(rows[0], KeepLast(rows[1..]));
      }
    }
  }

  lemma {:induction false} KeepLastSorted(rows: seq<DataRow>)
    requires SortedBy(rows, RowLeq)
    ensures SortedBy(KeepLast(rows), RowLeq)
  {
    if rows != [] {
      var rest := rows[1..];
      hide RowLeq, Filter;
      assert SortedBy(rest, RowLeq);
      KeepLastSorted(rest);
      KeepLastSubset(rest);
      forall r | r in KeepLast(rest) ensures RowLeq(rows[0], r) {
        var i :| 0 <= i < |rest| && rest[i] == r;
        assert rows[i + 1] == r;
      }
      SortedCons(rows[0], KeepLast(rest), RowLeq);
    }
  }

  /** The repair loses no bar: for every symbol and timestamp it keeps exactly the row reported last in
      the file, and nothing else. */
  lemma RepairKeepsLastReported(rows: seq<DataRow>, k: RowKey)
    ensures
      var reported := Filter(rows, HasKey(k));
      Filter(SortAndDedupe(rows), HasKey(k)) == if reported == [] then [] else [reported[|reported| - 1]]
  {
    hide RowLeq, HasKey, KeepLast, TotalPreorder, SortedBy, StableSort, Filter;
    RowsAreOrdered();
    KeepLastOfEachKey(StableSort(rows, RowLeq), k);
    SortCommutesWithFilter(rows, RowLeq, HasKey(k));
    SameKeySorted(rows, k);
    SortOfSorted(Filter(rows, HasKey(k)), RowLeq);
  }

  lemma SameKeySorted(rows: seq<DataRow>, k: RowKey)
    ensures SortedBy(Filter(rows, HasKey(k)), RowLeq)
  {
    hide RowLeq;
    var reported := Filter(rows, HasKey(k));
    forall i, j | 0 <= i < j < |reported| ensures RowLeq(reported[i], reported[j]) {
      assert reported[i] in reported && reported[j] in reported;
      SameKeyLeq(reported[i], reported[j]);
    }
  }

  lemma SameKeyLeq(a: DataRow, b: DataRow)
    requires KeyOf(a) == KeyOf(b)
    ensures RowLeq(a, b)
  {
  }

  lemma RepairedShape(rows: seq<DataRow>)
    ensures SortedBy(SortAndDedupe(rows), RowLeq) && DistinctKeys(SortAndDedupe(rows))
  {
    hide RowLeq;
    RowsAreOrdered();
    SortIsSortedPermutation(rows, RowLeq);
    KeepLastSorted(StableSort(rows, RowLeq));
    KeepLastDistinct(StableSort(rows, RowLeq));
  }

  lemma {:induction false} KeepLastOfDistinct(rows: seq<DataRow>)
    requires DistinctKeys(rows)
    ensures KeepLast(rows) == rows
  {
    if rows != [] {
      var rest := rows[1..];
      KeepLastOfDistinct(rest);
      forall r | r in rest ensures KeyOf(r) != KeyOf(rows[0]) {
        var i :| 0 <= i < |rest| && rest[i] == r;
        assert rows[i + 1] == r;
      }
      FilterNone(rest, HasKey(KeyOf(rows[0])));
    }
  }

  /** Repairing repaired data changes nothing. */
  lemma RepairIsIdempotent(rows: seq<DataRow>)
    ensures SortAndDedupe(SortAndDedupe(rows)) == SortAndDedupe(rows)
  {
    hide RowLeq, KeepLast;
    RepairedShape(rows);
    SortOfSorted(SortAndDedupe(rows), RowLeq);
    KeepLastOfDistinct(SortAndDedupe(rows));
  }

  // -------------------------------------------------------- recoverable issues

  function OfSymbol(s: Symbol): DataRow -> bool { (r: DataRow) => r.bar.symbol == s }

  /** Rows of one symbol whose timestamp an earlier row already has, and rows earlier than the row before. */
  function Duplicates(rows: seq<DataRow>): nat {
    if rows == [] then 0
    else
      var front, last := rows[..|rows| - 1], rows[|rows| - 1];
      Duplicates(front) + if exists i :: 0 <= i < |front| && front[i].time == last.time then 1 else 0
  }

  function OutOfOrder(rows: seq<DataRow>): nat {
    if |rows| < 2 then 0
    else OutOfOrder(rows[..|rows| - 1]) + if rows[|rows| - 1].time < rows[|rows| - 2].time then 1 else 0
  }

  predicate HasRecoverableIssues(rows: seq<DataRow>) { Duplicates(rows) > 0 || OutOfOrder(rows) > 0 }

  predicate Rising(rows: seq<DataRow>) { forall i, j :: 0 <= i < j < |rows| ==> rows[i].time < rows[j].time }

  /** A symbol's rows are free of recoverable issues exactly when their timestamps rise strictly. */
  lemma {:induction false} RisingExactly(rows: seq<DataRow>)
    ensures !HasRecoverableIssues(rows) <==> Rising(rows)
  {
    if rows != [] {
      var front, n := rows[..|rows| - 1], |rows|;
      RisingExactly(front);
      if !HasRecoverableIssues(rows) {
        forall i, j | 0 <= i < j < n ensures rows[i].time < rows[j].time {
          if j < n - 1 {
            assert front[i].time < front[j].time;
          } else {
            assert front[i].time != rows[n - 1].time;
            if i < n - 2 { assert front[i].time < front[n - 2].time; }
          }
        }
      }
    }
  }

  lemma LaterOfSymbol(rows: seq<DataRow>, r: DataRow)
    requires SortedBy(rows, RowLeq) && DistinctKeys(rows)
    requires rows != [] && r in rows[1..] && r.bar.symbol == rows[0].bar.symbol
    ensures rows[0].time < r.time
  {
    var i :| 0 <= i < |rows[1..]| && rows[1..][i] == r;
    assert rows[i + 1] == r && RowLeq(rows[0], rows[i + 1]) && KeyOf(rows[0]) != KeyOf(rows[i + 1]);
  }

  lemma {:induction false} FilterSorted(rows: seq<DataRow>, s: Symbol)
    requires SortedBy(rows, RowLeq) && DistinctKeys(rows)
    ensures Rising(Filter(rows, OfSymbol(s)))
  {
    if rows != [] {
      var rest := rows[1..];
      assert SortedBy(rest, RowLeq) && DistinctKeys(rest);
      FilterSorted(rest, s);
      if rows[0].bar.symbol == s {
        var mine := Filter(rest, OfSymbol(s));
        forall r | r in mine ensures rows[0].time < r.time {
          LaterOfSymbol(rows, r);
        }
        assert forall j :: 0 <= j < |mine| ==> mine[j] in mine;
      }
    }
  }

  /** After the repair no symbol has a recoverable issue left. */
  lemma RepairLeavesNoRecoverableIssue(rows: seq<DataRow>, s: Symbol)
    ensures !HasRecoverableIssues(Filter(SortAndDedupe(rows), OfSymbol(s)))
  {
    RepairedShape(rows);
    FilterSorted(SortAndDedupe(rows), s);
    RisingExactly(Filter(SortAndDedupe(rows), OfSymbol(s)));
  }

  // ------------------------------------------------------------- grouping for replay

  predicate TimeLeq(a: int, b: int) { a <= b }

  predicate BarLeq(a: Bar, b: Bar) { TextLeq(a.symbol, b.symbol) }

  function Times(rows: seq<DataRow>): seq<int> { seq(|rows|, i requires 0 <= i < |rows| => rows[i].time) }

  function Bars(rows: seq<DataRow>): seq<Bar> { seq(|rows|, i requires 0 <= i < |rows| => rows[i].bar) }

  function AtTime(time: int): DataRow -> bool { (r: DataRow) => r.time == time }

  function MinuteAt(rows: seq<DataRow>, time: int): Minute {
    Minute(time, StableSort(Bars(Filter(rows, AtTime(time))), BarLeq))
  }

  /** The engine's grouping: timestamps ascending, symbols ascending within one. */
  function Minutes(rows: seq<DataRow>): seq<Minute> {
    var times := SortedSet(Times(rows), TimeLeq);
    seq(|times|, i requires 0 <= i < |times| => MinuteAt(rows, times[i]))
  }

  lemma BarsAreOrdered()
    ensures TotalPreorder(BarLeq)
  {
    TextIsOrdered();
    hide TextLeq;
  }

  lemma OtherSymbol(rows: seq<DataRow>, r: DataRow)
    requires DistinctKeys(rows) && rows != [] && r in rows[1..] && r.time == rows[0].time
    ensures r.bar.symbol != rows[0].bar.symbol
  {
    var i :| 0 <= i < |rows[1..]| && rows[1..][i] == r;
    assert rows[i + 1] == r && KeyOf(rows[0]) != KeyOf(rows[i + 1]);
  }

  lemma {:induction false} FilterKeepsDistinct(rows: seq<DataRow>, time: int)
    requires DistinctKeys(rows)
    ensures OneBarPerSymbol(Bars(Filter(rows, AtTime(time))))
  {
    if rows != [] {
      var rest := rows[1..];
      assert DistinctKeys(rest);
      FilterKeepsDistinct(rest, time);
      var mine := Filter(rest, AtTime(time));
      if rows[0].time == time {
        forall j | 0 <= j < |mine| ensures mine[j].bar.symbol != rows[0].bar.symbol {
          assert mine[j] in mine;
          OtherSymbol(rows, mine[j]);
        }
        assert forall j :: 0 <= j < |mine| ==> Bars(mine)[j] == mine[j].bar;
        assert Bars([rows[0]] + mine) == [rows[0].bar] + Bars(mine);
      }
    }
  }

  lemma SymbolCount(bars: seq<Bar>, i: nat, j: nat)
    requires i < j < |bars| && bars[i].symbol == bars[j].symbol
    ensures |Filter(bars, (b: Bar) => b.symbol == bars[i].symbol)| >= 2
  {
    var same := (b: Bar) => b.symbol == bars[i].symbol;
    var x, y := bars[..j], bars[j..];
    assert bars == x + y;
    FilterConcat(x, y, same);
    assert bars[i] in x && bars[j] in y;
    assert x[i] == bars[i] && y[0] == bars[j];
    assert bars[i] in Filter(x, same) && bars[j] in Filter(y, same);
    assert |Filter(x, same)| >= 1 && |Filter(y, same)| >= 1;
  }

  lemma {:induction false} OnePerSymbolCount(bars: seq<Bar>, keep: Bar -> bool, s: Symbol)
    requires OneBarPerSymbol(bars) && forall b :: keep(b) <==> b.symbol == s
    ensures |Filter(bars, keep)| <= 1
  {
    if bars != [] {
      assert OneBarPerSymbol(bars[1..]);
      if bars[0].symbol == s {
        FilterNone(bars[1..], keep);
      } else {
        OnePerSymbolCount(bars[1..], keep, s);
      }
    }
  }

  /** Sorting a minute's bars keeps one bar per symbol. */
  lemma SortKeepsOneBarPerSymbol(bars: seq<Bar>)
    requires OneBarPerSymbol(bars)
    ensures OneBarPerSymbol(StableSort(bars, BarLeq))
  {
    hide BarLeq;
    BarsAreOrdered();
    var sorted := StableSort(bars, BarLeq);
    SortIsSortedPermutation(bars, BarLeq);
    forall i, j | 0 <= i < j < |sorted| ensures sorted[i].symbol != sorted[j].symbol {
      if sorted[i].symbol == sorted[j].symbol {
        var same := (b: Bar) => b.symbol == sorted[i].symbol;
        SymbolCount(sorted, i, j);
        SortCommutesWithFilter(bars, BarLeq, same);
        SortIsSortedPermutation(Filter(bars, same), BarLeq);
        OnePerSymbolCount(bars, same, sorted[i].symbol);
      }
    }
  }

  /** Repaired data meets everything the replay theorems ask of their input: strictly ascending
      timestamps and one bar per symbol in each. */
  lemma RepairedDataIsReplayable(rows: seq<DataRow>)
    ensures Chronological(Minutes(SortAndDedupe(rows))) && Deduplicated(Minutes(SortAndDedupe(rows)))
  {
    hide SortAndDedupe, RowLeq, BarLeq, StableSort;
    var clean := SortAndDedupe(rows);
    RepairedShape(rows);
    SortedSetIsSorted(Times(clean), TimeLeq);
    forall i | 0 <= i < |Minutes(clean)| ensures OneBarPerSymbol(Minutes(clean)[i].bars) {
      var time := SortedSet(Times(clean), TimeLeq)[i];
      FilterKeepsDistinct(clean, time);
      SortKeepsOneBarPerSymbol(Bars(Filter(clean, AtTime(time))));
    }
  }

  // ------------------------------------------------------------------------- gaps

  // Timestamps and intervals count the smallest tick of the data's clock, so that every interval
  // between timestamps, fractions of a second included, is a whole number.

  /** Python's `round(gap / interval)`: to the nearest, halves to the even neighbour. */
  function RoundQuotient(gap: nat, interval: nat): nat
    requires interval > 0
  {
    var q, r := gap / interval, gap % interval;
    if 2 * r < interval || (2 * r == interval && q % 2 == 0) then q else q + 1
  }

  /** Bars missing between two neighbouring timestamps; a gap of up to one and a half intervals is none. */
  function MissingIn(gap: nat, interval: nat): nat
    requires interval > 0
  {
    if 2 * gap <= 3 * interval then 0 else if RoundQuotient(gap, interval) <= 1 then 0 else RoundQuotient(gap, interval) - 1
  }

  predicate Ascending(ts: seq<int>) { forall i, j :: 0 <= i < j < |ts| ==> ts[i] < ts[j] }

  function Missing(ts: seq<int>, interval: nat): nat
    requires interval > 0 && Ascending(ts)
  {
    if |ts| < 2 then 0
    else Missing(ts[..|ts| - 1], interval) + MissingIn(ts[|ts| - 1] - ts[|ts| - 2], interval)
  }

  /** How many of the `count` instants after `from` fall into regular trading. */
  function RegularAfter(from: int, interval: nat, count: nat, regular: int -> bool): nat {
    if count == 0 then 0
    else RegularAfter(from, interval, count - 1, regular) + if regular(from + count * interval) then 1 else 0
  }

  function Unexpected(ts: seq<int>, interval: nat, regular: int -> bool): nat
    requires interval > 0 && Ascending(ts)
  {
    if |ts| < 2 then 0
    else
      var prev, next := ts[|ts| - 2], ts[|ts| - 1];
      Unexpected(ts[..|ts| - 1], interval, regular) + RegularAfter(prev, interval, MissingIn(next - prev, interval), regular)
  }

  datatype Gap = Gap(start: int, end: int)

  function Gaps(ts: seq<int>, interval: nat): seq<Gap>
    requires interval > 0 && Ascending(ts)
  {
    if |ts| < 2 then []
    else
      var prev, next := ts[|ts| - 2], ts[|ts| - 1];
      Gaps(ts[..|ts| - 1], interval) + if MissingIn(next - prev, interval) > 0 then [Gap(prev, next)] else []
  }

  method ClassifyGap(prev: int, missing: nat, interval: nat, regular: int -> bool) returns (expected: nat, unexpected: nat)
    ensures unexpected == RegularAfter(prev, interval, missing, regular) && expected + unexpected == missing
  {
    expected, unexpected := 0, 0;
    var cursor := prev + interval;
    for k := 0 to missing
      invariant cursor == prev + (k + 1) * interval
      invariant unexpected == RegularAfter(prev, interval, k, regular) && expected + unexpected == k
    {
      if regular(cursor) {
        unexpected := unexpected + 1;
      } else {
        expected := expected + 1;
      }
      cursor := cursor + interval;
    }
  }

  /** Walks the gaps: every missing bar is counted once, as expected or as unexpected. */
  method CheckGaps(ts: seq<int>, interval: nat, regular: int -> bool)
    returns (missing: nat, expected: nat, unexpected: nat, gaps: seq<Gap>)
    requires interval > 0 && Ascending(ts)
    ensures missing == expected + unexpected
    ensures missing == Missing(ts, interval) && unexpected == Unexpected(ts, interval, regular) && gaps == Gaps(ts, interval)
  {
    missing, expected, unexpected, gaps := 0, 0, 0, [];
    for i := 0 to |ts|
      invariant Ascending(ts[..i])
      invariant missing == Missing(ts[..i], interval) && missing == expected + unexpected
      invariant unexpected == Unexpected(ts[..i], interval, regular) && gaps == Gaps(ts[..i], interval)
    {
      assert ts[..i + 1][..i] == ts[..i];
      if i > 0 {
        var gap: nat := ts[i] - ts[i - 1];
        var here := MissingIn(gap, interval);
        if here > 0 {
          missing := missing + here;
          gaps := gaps + [Gap(ts[i - 1], ts[i])];
          var e, u := ClassifyGap(ts[i - 1], here, interval, regular);
          expected, unexpected := expected + e, unexpected + u;
        }
      }
    }
    assert ts[..|ts|] == ts;
  }

  lemma SmallMultiple(d: int, n: nat)
    requires 0 <= d * n < n
    ensures d == 0
  {
  }

  lemma QuotientOf(x: nat, n: nat, q: nat)
    requires n > 0 && x == q * n
    ensures x / n == q && x % n == 0
  {
    assert (x / n) * n + x % n == x;
    assert (q - x / n) * n == q * n - (x / n) * n;
    SmallMultiple(q - x / n, n);
  }

  lemma QuotientsAdd(a: nat, b: nat, n: nat)
    requires n > 0 && a % n == 0 && b % n == 0
    ensures (a + b) % n == 0 && (a + b) / n == a / n + b / n
  {
    assert (a / n) * n == a && (b / n) * n == b;
    assert (a / n + b / n) * n == (a / n) * n + (b / n) * n;
    QuotientOf(a + b, n, a / n + b / n);
  }

  lemma MissingInMultiple(gap: nat, interval: nat)
    requires gap > 0 && interval > 0 && gap % interval == 0
    ensures MissingIn(gap, interval) == gap / interval - 1
  {
  }

  /** Every gap is a whole number of intervals. */
  ghost predicate OnGrid(ts: seq<int>, interval: nat)
    requires interval > 0
  {
    forall i, j :: 0 <= i < j < |ts| && j == i + 1 ==> (ts[j] - ts[i]) % interval == 0
  }

  /** On a regular grid the bars present and the bars missing make up the whole span. */
  lemma {:induction false} PresentPlusMissingIsSpan(ts: seq<int>, interval: nat)
    requires interval > 0 && Ascending(ts) && OnGrid(ts, interval) && ts != []
    ensures
      var span := ts[|ts| - 1] - ts[0];
      span >= 0 && span % interval == 0 && |ts| + Missing(ts, interval) == span / interval + 1
  {
    if |ts| > 1 {
      var front := ts[..|ts| - 1];
      var gap := ts[|ts| - 1] - ts[|ts| - 2];
      PresentPlusMissingIsSpan(front, interval);
      hide MissingIn;
      MissingInMultiple(gap, interval);
      QuotientsAdd(front[|front| - 1] - front[0], gap, interval);
    } else {
      QuotientOf(0, interval, 0);
    }
  }
}
