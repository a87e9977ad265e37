/** What the evidence archive promises over any sequence of passes, completed or cut short
    (talonx_compare/evidence.py, talonx_compare/collector.py). */
module EvidenceRuns {
  import opened Evidence

  // ------------------------------------------------------ the deduplicated stream

  /** Delivering two batches one after the other is delivering them as one. */
  lemma {:induction false} FreshConcat(seen: set<string>, x: seq<Row>, y: seq<Row>)
    ensures FreshRows(seen, x + y) == FreshRows(seen, x) + FreshRows(seen + Ids(x), y)
  {
    if y == [] {
      assert x + y == x;
    } else {
      var front, last := y[..|y| - 1], y[|y| - 1];
      assert (x + y)[..|x + y| - 1] == x + front;
      FreshConcat(seen, x, front);
      IdsConcat(x, front);
    }
  }

  lemma IdsConcat(x: seq<Row>, y: seq<Row>)
    ensures Ids(x + y) == Ids(x) + Ids(y)
  {
  }

  /** The rows kept carry exactly the new identities, each once. */
  lemma {:induction false} FreshIdentities(seen: set<string>, batch: seq<Row>)
    ensures Ids(FreshRows(seen, batch)) == Ids(batch) - seen
    ensures DistinctIds(FreshRows(seen, batch))
  {
    if batch != [] {
      var front, last := batch[..|batch| - 1], batch[|batch| - 1];
      assert batch == front + [last];
      FreshIdentities(seen, front);
      var kept := FreshRows(seen, front);
      hide DistinctIds, FreshRows, Ids;
      IdsSnoc(front, last);
      IdsSnoc(kept, last);
      DistinctSnoc(kept, last);
      FreshStep(seen, front, last);
    }
  }

  /** `r` is delivered in `batch`, and no earlier delivery has its identity. */
  ghost predicate DeliveredFirst(r: Row, batch: seq<Row>) {
    exists i :: 0 <= i < |batch| && batch[i] == r && forall j :: 0 <= j < i ==> batch[j].id != r.id
  }

  lemma FirstDeliverySnoc(front: seq<Row>, last: Row, r: Row)
    ensures DeliveredFirst(r, front + [last]) <==> DeliveredFirst(r, front) || (r == last && last.id !in Ids(front))
  {
    var batch := front + [last];
    if DeliveredFirst(r, front) {
      var i :| 0 <= i < |front| && front[i] == r && forall j :: 0 <= j < i ==> front[j].id != r.id;
      assert batch[i] == r && forall j :: 0 <= j < i ==> batch[j] == front[j];
    }
    if DeliveredFirst(r, batch) {
      var i :| 0 <= i < |batch| && batch[i] == r && forall j :: 0 <= j < i ==> batch[j].id != r.id;
      assert forall j :: 0 <= j < |front| ==> batch[j] == front[j];
      if i < |front| {
        assert front[i] == r;
      } else {
        assert forall q :: q in front ==> q.id != r.id;
      }
    }
    if r == last && last.id !in Ids(front) {
      assert batch[|front|] == r;
      forall j | 0 <= j < |front| ensures batch[j].id != r.id { assert front[j] in front; }
    }
  }

  /** The rows kept are exactly the first deliveries of the identities not seen before. */
  lemma {:induction false} FreshIsFirstOccurrence(seen: set<string>, batch: seq<Row>, r: Row)
    ensures r in FreshRows(seen, batch) <==> r.id !in seen && DeliveredFirst(r, batch)
  {
    if batch != [] {
      hide DeliveredFirst, Ids;
      var front, last := batch[..|batch| - 1], batch[|batch| - 1];
      assert batch == front + [last];
      FreshIsFirstOccurrence(seen, front, r);
      FirstDeliverySnoc(front, last, r);
    }
  }

  lemma {:induction false} RowsConcat(lines: seq<Line>, rows: seq<Row>)
    ensures RowsOf(lines + AsLines(rows)) == RowsOf(lines) + rows
    ensures (forall line :: line in lines + AsLines(rows) ==> line.Record?) <==> forall line :: line in lines ==> line.Record?
  {
    if rows == [] {
      assert lines + AsLines(rows) == lines;
    } else {
      var front, last := rows[..|rows| - 1], rows[|rows| - 1];
      RowsConcat(lines, front);
      assert lines + AsLines(rows) == (lines + AsLines(front)) + [Record(last)];
      RowsSnoc(lines + AsLines(front), Record(last));
      assert rows == front + [last];
    }
  }

  // ------------------------------------------------------------ what a plan leaves

  function Targets(ws: seq<Write>): set<Target> { set w | w in ws :: TargetOf(w) }

  predicate SealsNothing(ws: seq<Write>) { forall w :: w in ws ==> !w.PutInventory? }

  predicate Leftover(x: Extra, targets: set<Target>, pid: nat) { x.Temp? && x.pid == pid && x.target in targets }

  /** Content writes leave the inventory alone, keep every file, and clear this process's own temp
      files for the targets written. */
  lemma {:induction false} ContentEffect(a: Archive, ws: seq<Write>, pid: nat)
    requires SealsNothing(ws)
    ensures
      var c := AllApplied(a, ws, pid);
      && c.inventory == a.inventory && a.docs.Keys <= c.docs.Keys && a.streams.Keys <= c.streams.Keys
      && (forall x :: x in c.extras <==> x in a.extras && !Leftover(x, Targets(ws), pid))
  {
    if ws != [] {
      var front, last := ws[..|ws| - 1], ws[|ws| - 1];
      assert ws == front + [last];
      ContentEffect(a, front, pid);
      assert Targets(ws) == Targets(front) + {TargetOf(last)};
    }
  }

  lemma ContentSealsNothing(a: Archive, b: Batch)
    ensures SealsNothing(ContentWrites(a, b))
  {
  }

  /** The stream a pass leaves. */
  function StreamAfter(a: Archive, n: StreamName, batch: seq<Row>): Stream {
    var added := Fresh(a, n, batch);
    if added != [] then Stream(StreamOf(a, n).lines + AsLines(added), true) else StreamOf(a, n)
  }

  lemma StreamPhase(a: Archive, n: StreamName, batch: seq<Row>, pid: nat)
    ensures
      var c := AllApplied(a, StreamWrites(a, n, batch), pid);
      c.docs == a.docs && c.streams == a.streams[n := StreamAfter(a, n, batch)]
  {
  }

  lemma ViewPhase(a: Archive, b: Batch)
    ensures
      var c := AllApplied(a, ViewWrites(b), b.pid);
      && c.streams == a.streams
      && c.docs == a.docs[Comparison := Json(b.comparison)][Divergences := Json(b.divergences)][Telegram := Json(b.telegram)]
                   [Diagnostics := Json(b.diagnostics)][RuntimeStatus := Json(b.status)]
  {
    AllAppliedTakes(a, ViewWrites(b), b.pid);
  }

  /** The archive just before the seal: the manifest of the first pass, both streams extended, fresh views. */
  lemma ContentShape(a: Archive, b: Batch)
    ensures
      var c := AllApplied(a, ContentWrites(a, b), b.pid);
      && (forall n: DocName :: n in c.docs) && (forall n: DocName :: n != Manifest ==> c.docs[n].Json?)
      && c.docs[Manifest] == (if Manifest in a.docs then a.docs[Manifest] else Json(b.manifest))
      && c.streams == map[OriginalEvents := StreamAfter(a, OriginalEvents, b.originals),
                          PivRecords := StreamAfter(a, PivRecords, b.pivs)]
  {
    hide Applied, AllApplied, StreamWrites, ViewWrites, StreamAfter;
    var m, o, p, v := ManifestWrites(a, b.manifest), StreamWrites(a, OriginalEvents, b.originals),
                      StreamWrites(a, PivRecords, b.pivs), ViewWrites(b);
    AllAppliedConcat(a, m, o, b.pid);
    AllAppliedConcat(a, m + o, p, b.pid);
    AllAppliedConcat(a, m + o + p, v, b.pid);
    var a1 := AllApplied(a, m, b.pid);
    ManifestPhase(a, b);
    ManifestTouchesNoStream(a, b);
    SameAfter(a, a1, OriginalEvents, b.originals);
    StreamPhase(a1, OriginalEvents, b.originals, b.pid);
    var a2 := AllApplied(a1, o, b.pid);
    OriginalsTouchNoPivs(a1, b);
    SameAfter(a, a2, PivRecords, b.pivs);
    StreamPhase(a2, PivRecords, b.pivs, b.pid);
    var a3 := AllApplied(a2, p, b.pid);
    ViewPhase(a3, b);
    AllDocsPresent(a2.docs, AllApplied(a3, v, b.pid).docs, b);
    TwoStreams(a.streams, a3.streams, StreamAfter(a, OriginalEvents, b.originals), StreamAfter(a, PivRecords, b.pivs));
  }

  lemma AllDocsPresent(early: map<DocName, Doc>, docs: map<DocName, Doc>, b: Batch)
    requires Manifest in early
    requires docs == early[Comparison := Json(b.comparison)][Divergences := Json(b.divergences)][Telegram := Json(b.telegram)]
                     [Diagnostics := Json(b.diagnostics)][RuntimeStatus := Json(b.status)]
    ensures forall n: DocName :: n in docs
    ensures forall n: DocName :: n != Manifest ==> docs[n].Json?
    ensures docs[Manifest] == early[Manifest]
  {
    forall n: DocName ensures n in docs && (n != Manifest ==> docs[n].Json?) { AllDocNames(n); }
  }

  lemma TwoStreams(s: map<StreamName, Stream>, t: map<StreamName, Stream>, o: Stream, p: Stream)
    requires t == s[OriginalEvents := o][PivRecords := p]
    ensures t == map[OriginalEvents := o, PivRecords := p]
  {
    forall n: StreamName ensures n in t && t[n] == if n == OriginalEvents then o else p { AllStreamNames(n); }
  }

  lemma ManifestPhase(a: Archive, b: Batch)
    ensures
      var c := AllApplied(a, ManifestWrites(a, b.manifest), b.pid);
      && c.streams == a.streams
      && c.docs == if Manifest in a.docs then a.docs else a.docs[Manifest := Json(b.manifest)]
  {
  }

  lemma SameAfter(a: Archive, a': Archive, n: StreamName, batch: seq<Row>)
    requires (n in a.streams <==> n in a'.streams) && (n in a.streams ==> a.streams[n] == a'.streams[n])
    ensures StreamAfter(a', n, batch) == StreamAfter(a, n, batch)
  {
  }

  lemma WrittenIsSealedContent(a: Archive, b: Batch)
    ensures
      var c, w := AllApplied(a, ContentWrites(a, b), b.pid), Written(a, b);
      && w == Applied(c, PutInventory(b.stamp), b.pid)
      && w.docs == c.docs && w.streams == c.streams && Sealed(w)
  {
  }

  // -------------------------------------------------------------- healthy passes

  /** A stream that can be extended by `added` and be sound afterwards. */
  ghost predicate Extensible(s: Stream, added: seq<Row>, date: string) {
    && (s.terminated || added != [])
    && (forall line :: line in s.lines ==> line.Record?)
    && (forall r :: r in Rows(s) ==> RowFits(r, date)) && DistinctIds(Rows(s))
    && (forall r :: r in added ==> RowFits(r, date))
  }

  lemma ExtensionSoundExactly(s: Stream, batch: seq<Row>, date: string)
    ensures
      var added := FreshRows(Ids(Rows(s)), batch);
      var after := if added != [] then Stream(s.lines + AsLines(added), true) else s;
      StreamSound(after, date) <==> Extensible(s, added, date)
  {
    var added := FreshRows(Ids(Rows(s)), batch);
    RowsConcat(s.lines, added);
    FreshIdentities(Ids(Rows(s)), batch);
    DistinctConcat(Rows(s), added);
    if added == [] {
      assert s.lines + AsLines(added) == s.lines;
    }
  }

  lemma DistinctConcat(x: seq<Row>, y: seq<Row>)
    requires DistinctIds(y) && Ids(x) !! Ids(y)
    ensures DistinctIds(x + y) <==> DistinctIds(x)
  {
    if DistinctIds(x + y) {
      forall i, j | 0 <= i < j < |x| ensures x[i].id != x[j].id {
        assert (x + y)[i] == x[i] && (x + y)[j] == x[j];
      }
    }
    if DistinctIds(x) {
      forall i, j | 0 <= i < j < |x + y| ensures (x + y)[i].id != (x + y)[j].id {
        if i < |x| <= j {
          assert x[i] in x && y[j - |x|] in y;
          assert x[i].id in Ids(x) && y[j - |x|].id in Ids(y);
        }
      }
    }
  }

  /** When a completed pass leaves the archive healthy: the manifest, if there was one, parses; nothing
      foreign lies in the directory; and both streams can be extended by what is new. */
  lemma WrittenHealthyExactly(a: Archive, b: Batch, date: string)
    requires Manifest in a.docs ==> a.docs[Manifest].Json?
    ensures Assess(Written(a, b), date) == Healthy <==>
      && (forall x :: x in a.extras ==> Leftover(x, Targets(Plan(a, b)), b.pid))
      && Extensible(StreamOf(a, OriginalEvents), Fresh(a, OriginalEvents, b.originals), date)
      && Extensible(StreamOf(a, PivRecords), Fresh(a, PivRecords, b.pivs), date)
  {
    hide Sealed, Extensible, StreamSound, ContentWrites, StreamAfter, Fresh;
    var w := Written(a, b);
    WrittenShape(a, b);
    WrittenExtras(a, b);
    StreamAfterSoundExactly(a, OriginalEvents, b.originals, date);
    StreamAfterSoundExactly(a, PivRecords, b.pivs, date);
    hide Written, Plan, AllApplied;
    assert StreamsSound(w, date) <==>
      StreamSound(w.streams[OriginalEvents], date) && StreamSound(w.streams[PivRecords], date);
    assert w.extras == {} <==> forall x :: x in a.extras ==> Leftover(x, Targets(Plan(a, b)), b.pid);
  }

  lemma StreamAfterSoundExactly(a: Archive, n: StreamName, batch: seq<Row>, date: string)
    ensures StreamSound(StreamAfter(a, n, batch), date) <==> Extensible(StreamOf(a, n), Fresh(a, n, batch), date)
  {
    ExtensionSoundExactly(StreamOf(a, n), batch, date);
  }

  lemma WrittenShape(a: Archive, b: Batch)
    ensures
      var w := Written(a, b);
      && Complete(w) && Sealed(w) && ((Manifest in a.docs && !a.docs[Manifest].Json?) || DocsParse(w))
      && w.streams == map[OriginalEvents := StreamAfter(a, OriginalEvents, b.originals),
                          PivRecords := StreamAfter(a, PivRecords, b.pivs)]
  {
    hide Sealed, StreamAfter, ContentWrites;
    ContentShape(a, b);
    WrittenIsSealedContent(a, b);
    hide Written, AllApplied;
    forall n: StreamName ensures n in Written(a, b).streams { AllStreamNames(n); }
  }

  lemma WrittenExtras(a: Archive, b: Batch)
    ensures forall x :: x in Written(a, b).extras <==> x in a.extras && !Leftover(x, Targets(Plan(a, b)), b.pid)
  {
    hide ContentWrites;
    var c := AllApplied(a, ContentWrites(a, b), b.pid);
    WrittenIsSealedContent(a, b);
    ContentSealsNothing(a, b);
    ContentEffect(a, ContentWrites(a, b), b.pid);
    assert Targets(Plan(a, b)) == Targets(ContentWrites(a, b)) + {HashFile};
    assert Written(a, b).extras == c.extras - {Temp(HashFile, b.pid)};
  }

  /** A completed pass over a healthy archive leaves it healthy exactly when every record it adds is
      identified and belongs to the archive's date. */
  lemma HealthyStaysHealthyExactly(a: Archive, b: Batch, date: string)
    requires Assess(a, date) == Healthy
    ensures Assess(Pass(a, b, date), date) == Healthy <==>
      forall r :: r in Fresh(a, OriginalEvents, b.originals) || r in Fresh(a, PivRecords, b.pivs) ==> RowFits(r, date)
  {
    WrittenHealthyExactly(a, b, date);
  }

  /** A completed first pass into an empty directory is healthy exactly under the same condition. */
  lemma FirstPassHealthyExactly(b: Batch, date: string)
    ensures Assess(Pass(EMPTY, b, date), date) == Healthy <==>
      forall r :: r in FreshRows({}, b.originals) || r in FreshRows({}, b.pivs) ==> RowFits(r, date)
  {
    hide FreshRows;
    WrittenHealthyExactly(EMPTY, b, date);
    assert Rows(Stream([], true)) == [] && Ids([]) == {};
  }

  // ------------------------------------------------------------- crashes

  lemma {:induction false} CutIsContent(a: Archive, b: Batch, done: nat)
    requires done < |Plan(a, b)|
    ensures Plan(a, b)[..done] == ContentWrites(a, b)[..done] && SealsNothing(Plan(a, b)[..done])
  {
    ContentSealsNothing(a, b);
    hide ContentWrites;
    forall w | w in Plan(a, b)[..done] ensures !w.PutInventory? {
      var i :| 0 <= i < done && Plan(a, b)[i] == w;
      assert ContentWrites(a, b)[i] == w;
    }
  }

  /** All or nothing: whatever a pass over a healthy archive leaves when it is cut short between any
      two writes or inside one, the integrity check accepts it only if it is the archive from before
      the pass or the archive the whole pass would have left. */
  lemma CutIsAllOrNothing(a: Archive, b: Batch, date: string, done: nat, torn: bool)
    requires Assess(a, date) == Healthy
    ensures
      var c := CutPass(a, b, date, done, torn);
      Assess(c, date) == Healthy ==> c == a || c == Pass(a, b, date)
  {
    hide Plan, Applied, AllApplied, StreamSound;
    var c := CutPass(a, b, date, done, torn);
    if done < |Plan(a, b)| && Assess(c, date) == Healthy {
      var ws := Plan(a, b)[..done];
      CutIsContent(a, b, done);
      ContentEffect(a, ws, b.pid);
      assert !torn;
      assert c == AllApplied(a, ws, b.pid);
      SealDetermines(a, c);
    }
  }

  /** Two complete sealed archives with the same inventory hold the same evidence. */
  lemma SealDetermines(a: Archive, c: Archive)
    requires Complete(a) && Complete(c) && Sealed(a) && Sealed(c) && a.inventory == c.inventory && a.extras == c.extras == {}
    ensures c == a
  {
  }

  /** A first pass cut short after its manifest is always rejected; cut short before, it leaves a
      directory the next pass still takes for brand new. */
  lemma CutFirstPass(a: Archive, b: Batch, date: string, done: nat, torn: bool)
    requires Manifest !in a.docs && a.inventory.NoInventory? && done < |Plan(a, b)|
    ensures
      var c := CutPass(a, b, date, done, torn);
      && (Manifest in c.docs ==> Blocked(c, date))
      && (Manifest in c.docs <==> done > 0)
      && (done == 0 ==> c.docs == a.docs && c.streams == a.streams && c.inventory == a.inventory)
  {
    hide Applied, ViewWrites, StreamWrites;
    var ws := Plan(a, b)[..done];
    CutIsContent(a, b, done);
    ContentEffect(a, ws, b.pid);
    if done > 0 {
      assert ws == [PutDoc(Manifest, Json(b.manifest))] + ws[1..];
      AllAppliedConcat(a, [PutDoc(Manifest, Json(b.manifest))], ws[1..], b.pid);
      AppliedOne(a, PutDoc(Manifest, Json(b.manifest)), b.pid);
      FirstAppliedHasManifest(a, b);
      assert forall w :: w in ws[1..] ==> w in ws;
      ContentEffect(AllApplied(a, [PutDoc(Manifest, Json(b.manifest))], b.pid), ws[1..], b.pid);
    } else {
      assert ws == [];
    }
  }

  lemma FirstAppliedHasManifest(a: Archive, b: Batch)
    ensures Manifest in Applied(a, PutDoc(Manifest, Json(b.manifest)), b.pid).docs
  {
  }

  /** The gap in that protection: a first pass that dies writing the manifest leaves a temp file that no
      later process removes, so the next pass, complete and correct, is not healthy. */
  lemma TornManifestSpoilsNextPass(b: Batch, retry: Batch, date: string)
    requires retry.pid != b.pid
    ensures
      var c := CutPass(EMPTY, b, date, 0, true);
      !Blocked(c, date) && Assess(Pass(c, retry, date), date) != Healthy
  {
    var c := CutPass(EMPTY, b, date, 0, true);
    CutFirstPass(EMPTY, b, date, 0, true);
    var x := Temp(DocFile(Manifest), b.pid);
    assert Plan(EMPTY, b)[0] == PutDoc(Manifest, Json(b.manifest));
    assert x in c.extras;
    hide Plan, Assess, Extensible, Fresh;
    WrittenHealthyExactly(c, retry, date);
    assert !Leftover(x, Targets(Plan(c, retry)), retry.pid);
  }

  // ------------------------------------------------------------------ whole runs

  datatype Step = Full(batch: Batch) | Cut(batch: Batch, done: nat, torn: bool)

  ghost function Next(a: Archive, s: Step, date: string): Archive {
    match s
    case Full(b) => Pass(a, b, date)
    case Cut(b, done, torn) => CutPass(a, b, date, done, torn)
  }

  ghost function After(a: Archive, steps: seq<Step>, date: string): Archive {
    if steps == [] then a else Next(After(a, steps[..|steps| - 1], date), steps[|steps| - 1], date)
  }

  /** Once an archive is rejected no later pass changes any file in it. */
  lemma {:induction false} RejectedIsFrozen(a: Archive, steps: seq<Step>, date: string)
    requires Blocked(a, date)
    ensures After(a, steps, date) == a
  {
    hide Assess;
    if steps != [] {
      RejectedIsFrozen(a, steps[..|steps| - 1], date);
    }
  }

  /** `c` continues `a`: the manifest, if any, is untouched and streams only grew at the end. */
  ghost predicate Continues(a: Archive, c: Archive) {
    && (Manifest in a.docs ==> Manifest in c.docs && c.docs[Manifest] == a.docs[Manifest])
    && (forall n :: n in a.streams ==> n in c.streams && a.streams[n].lines <= c.streams[n].lines)
  }

  ghost predicate WriteContinues(a: Archive, w: Write) {
    && (w.PutDoc? && w.doc == Manifest ==> Manifest !in a.docs)
    && (w.PutStream? && w.stream in a.streams ==> a.streams[w.stream].lines <= w.content.lines)
  }

  /** Every write of a plan extends what the archive held when the plan was made, and no target is
      written twice. */
  lemma PlanContinues(a: Archive, b: Batch)
    ensures forall w :: w in Plan(a, b) ==> WriteContinues(a, w)
  {
    hide Fresh;
  }

  lemma {:induction false} PrefixContinues(a: Archive, ws: seq<Write>, pid: nat)
    requires forall w :: w in ws ==> WriteContinues(a, w)
    ensures Continues(a, AllApplied(a, ws, pid))
  {
    if ws != [] {
      assert ws[|ws| - 1] in ws;
      PrefixContinues(a, ws[..|ws| - 1], pid);
    }
  }

  lemma NextContinues(a: Archive, s: Step, date: string)
    ensures Continues(a, Next(a, s, date))
  {
    hide Assess, Plan, WriteContinues;
    var b := s.batch;
    PlanContinues(a, b);
    PrefixContinues(a, Plan(a, b), b.pid);
    if s.Cut? && s.done < |Plan(a, b)| {
      PrefixContinues(a, Plan(a, b)[..s.done], b.pid);
    }
  }

  /** Over any run, with crashes anywhere, the manifest never changes once written and each stream
      only ever grows at its end. */
  lemma {:induction false} EvidenceIsAppendOnly(a: Archive, steps: seq<Step>, date: string, k: nat)
    requires k <= |steps|
    ensures Continues(After(a, steps[..k], date), After(a, steps, date))
    decreases |steps|
  {
    hide Next;
    if k == |steps| {
      assert steps[..k] == steps;
    } else {
      var front := steps[..|steps| - 1];
      assert front[..k] == steps[..k];
      EvidenceIsAppendOnly(a, front, date, k);
      NextContinues(After(a, front, date), steps[|steps| - 1], date);
    }
  }

  /** Whatever happens from an empty directory on, the archive is accepted, or it is rejected and frozen,
      or it holds no evidence at all yet. */
  lemma {:induction false} AcceptedRejectedOrBlank(steps: seq<Step>, date: string)
    ensures
      var c := After(EMPTY, steps, date);
      || Assess(c, date) == Healthy
      || Blocked(c, date)
      || (c.docs == map[] && c.streams == map[] && c.inventory == NoInventory)
  {
    if steps != [] {
      var front, last := steps[..|steps| - 1], steps[|steps| - 1];
      AcceptedRejectedOrBlank(front, date);
      var a := After(EMPTY, front, date);
      var c := After(EMPTY, steps, date);
      hide Assess, Plan, After;
      assert c == Next(a, last, date) by { AfterSnoc(steps, date); }
      NextContinues(a, last, date);
      if Manifest !in a.docs && Manifest !in c.docs {
        ContentShape(a, last.batch);
        WrittenIsSealedContent(a, last.batch);
        assert last.Cut? && last.done < |Plan(a, last.batch)|;
        CutFirstPass(a, last.batch, date, last.done, last.torn);
      }
    }
  }

  lemma AfterSnoc(steps: seq<Step>, date: string)
    requires steps != []
    ensures After(EMPTY, steps, date) == Next(After(EMPTY, steps[..|steps| - 1], date), steps[|steps| - 1], date)
  {
  }

  // ------------------------------------------------- exactly the first occurrences

  function BatchFor(b: Batch, n: StreamName): seq<Row> { if n == OriginalEvents then b.originals else b.pivs }

  /** Whether one of these writes is to stream `n`. */
  predicate Puts(ws: seq<Write>, n: StreamName) { exists w :: w in ws && w.PutStream? && w.stream == n }

  /** How far a step gets: past the whole plan, or through its first writes. */
  predicate RunsThrough(a: Archive, s: Step) { s.Full? || s.done >= |Plan(a, s.batch)| }

  /** A step delivers its records to stream `n` when it is not refused and gets past its write to `n`,
      or through the whole plan. */
  ghost predicate Delivers(a: Archive, s: Step, date: string, n: StreamName) {
    !Blocked(a, date) && (RunsThrough(a, s) || Puts(Plan(a, s.batch)[..s.done], n))
  }

  /** The records delivered to stream `n` over a run. */
  ghost function Landed(a: Archive, steps: seq<Step>, date: string, n: StreamName): seq<Row> {
    if steps == [] then []
    else
      var front, last := steps[..|steps| - 1], steps[|steps| - 1];
      Landed(a, front, date, n)
      + (if Delivers(After(a, front, date), last, date, n) then BatchFor(last.batch, n) else [])
  }

  /** After some writes a stream holds what they put there, or what it held before. */
  lemma {:induction false} PrefixStream(a: Archive, ws: seq<Write>, pid: nat, n: StreamName, content: Stream)
    requires forall w :: w in ws && w.PutStream? && w.stream == n ==> w.content == content
    ensures StreamOf(AllApplied(a, ws, pid), n) == if Puts(ws, n) then content else StreamOf(a, n)
  {
    if ws != [] {
      var front, last := ws[..|ws| - 1], ws[|ws| - 1];
      assert ws == front + [last];
      PrefixStream(a, front, pid, n, content);
      assert Puts(ws, n) <==> Puts(front, n) || (last.PutStream? && last.stream == n);
    }
  }

  /** Every write of a plan to a stream leaves it extended by exactly what is new. */
  lemma PlanStream(a: Archive, b: Batch, n: StreamName, w: Write)
    requires w in Plan(a, b) && w.PutStream? && w.stream == n
    ensures w.content == StreamAfter(a, n, BatchFor(b, n))
  {
    hide Fresh;
  }

  lemma PassStream(a: Archive, b: Batch, date: string, n: StreamName)
    requires !Blocked(a, date)
    ensures StreamOf(Pass(a, b, date), n) == StreamAfter(a, n, BatchFor(b, n))
  {
    hide StreamAfter, Assess, ContentWrites;
    ContentShape(a, b);
    WrittenIsSealedContent(a, b);
    hide Written, AllApplied, Applied;
  }

  /** A step extends a stream by exactly what is new in its batch when it delivers to it, and otherwise
      leaves it as it was. */
  lemma StepStream(a: Archive, s: Step, date: string, n: StreamName)
    ensures
      StreamOf(Next(a, s, date), n) == if Delivers(a, s, date, n) then StreamAfter(a, n, BatchFor(s.batch, n)) else StreamOf(a, n)
  {
    hide Assess, Plan, StreamAfter;
    var b := s.batch;
    if Blocked(a, date) {
    } else if RunsThrough(a, s) {
      PassStream(a, b, date, n);
      hide Written;
    } else {
      var ws := Plan(a, b)[..s.done];
      forall w | w in ws && w.PutStream? && w.stream == n ensures w.content == StreamAfter(a, n, BatchFor(b, n)) {
        PlanStream(a, b, n, w);
      }
      PrefixStream(a, ws, b.pid, n, StreamAfter(a, n, BatchFor(b, n)));
    }
  }

  /** A stream that holds the first deliveries of some rows still does after more rows are appended. */
  lemma StreamExtends(a: Archive, n: StreamName, delivered: seq<Row>, batch: seq<Row>)
    requires StreamOf(a, n).lines == AsLines(FreshRows({}, delivered))
    ensures StreamAfter(a, n, batch).lines == AsLines(FreshRows({}, delivered + batch))
  {
    hide FreshRows, RowsOf, AsLines, Ids;
    var kept := FreshRows({}, delivered);
    KeptRows(delivered);
    FreshConcat({}, delivered, batch);
    assert {} + Ids(delivered) == Ids(delivered);
    AsLinesConcat(kept, FreshRows(Ids(delivered), batch));
    NothingFresh({});
    if Fresh(a, n, batch) == [] {
      assert AsLines(kept) + [] == AsLines(kept);
    }
  }

  /** Reading back what was kept of `delivered` gives the kept rows, with every delivered identity once. */
  lemma KeptRows(delivered: seq<Row>)
    ensures
      var kept := FreshRows({}, delivered);
      RowsOf(AsLines(kept)) == kept && Ids(kept) == Ids(delivered) && DistinctIds(kept)
  {
    hide FreshRows, RowsOf, AsLines, Ids, DistinctIds;
    var kept := FreshRows({}, delivered);
    NothingFresh({});
    RowsConcat([], kept);
    assert [] + AsLines(kept) == AsLines(kept) && [] + kept == kept;
    FreshIdentities({}, delivered);
    assert Ids(delivered) - {} == Ids(delivered);
  }

  /** Starting from an empty directory, after any sequence of passes and crashes a stream holds only
      whole records: a record is in it exactly when, among the records delivered to it, it is the
      first with its identity. The records stand in order of delivery, and no identity
      of a landed record is missing or repeated. */
  lemma {:induction false} StreamIsFirstDeliveries(steps: seq<Step>, date: string, n: StreamName)
    ensures
      var s := StreamOf(After(EMPTY, steps, date), n);
      && s.lines == AsLines(Rows(s)) && Rows(s) == FreshRows({}, Landed(EMPTY, steps, date, n))
      && (forall r :: r in Rows(s) <==> DeliveredFirst(r, Landed(EMPTY, steps, date, n)))
      && Ids(Rows(s)) == Ids(Landed(EMPTY, steps, date, n)) && DistinctIds(Rows(s))
  {
    hide FreshRows, RowsOf, Ids, AsLines, DistinctIds, DeliveredFirst;
    var landed := Landed(EMPTY, steps, date, n);
    StreamHoldsLanded(steps, date, n);
    hide After, Landed;
    KeptRows(landed);
    forall r ensures r in FreshRows({}, landed) <==> DeliveredFirst(r, landed) { FreshIsFirstOccurrence({}, landed, r); }
  }

  lemma {:induction false} StreamHoldsLanded(steps: seq<Step>, date: string, n: StreamName)
    ensures StreamOf(After(EMPTY, steps, date), n).lines == AsLines(FreshRows({}, Landed(EMPTY, steps, date, n)))
  {
    hide FreshRows, AsLines;
    if steps == [] {
      NothingFresh({});
    } else {
      hide Next, Delivers;
      var front, last := steps[..|steps| - 1], steps[|steps| - 1];
      var before, earlier := After(EMPTY, front, date), Landed(EMPTY, front, date, n);
      StreamHoldsLanded(front, date, n);
      StepStream(before, last, date, n);
      if Delivers(before, last, date, n) {
        StreamExtends(before, n, earlier, BatchFor(last.batch, n));
      } else {
        assert earlier + [] == earlier;
      }
    }
  }

  lemma NothingFresh(seen: set<string>)
    ensures FreshRows(seen, []) == [] && AsLines([]) == [] && RowsOf([]) == []
  {
  }

  lemma AsLinesConcat(x: seq<Row>, y: seq<Row>)
    ensures AsLines(x + y) == AsLines(x) + AsLines(y)
  {
  }

  /** A pass that was not refused leaves every identity it gathered in its stream. */
  lemma CompletedPassKeepsEveryIdentity(a: Archive, b: Batch, date: string, n: StreamName)
    requires !Blocked(a, date)
    ensures
      var c := Pass(a, b, date);
      n in c.streams && Ids(Rows(c.streams[n])) == Ids(Rows(StreamOf(a, n))) + Ids(BatchFor(b, n))
  {
    hide Assess, ContentWrites, FreshRows, RowsOf, Ids;
    ContentShape(a, b);
    WrittenIsSealedContent(a, b);
    var known := Ids(Rows(StreamOf(a, n)));
    var added := Fresh(a, n, BatchFor(b, n));
    FreshIdentities(known, BatchFor(b, n));
    RowsConcat(StreamOf(a, n).lines, added);
    IdsConcat(Rows(StreamOf(a, n)), added);
    assert known + (Ids(BatchFor(b, n)) - known) == known + Ids(BatchFor(b, n));
    assert Pass(a, b, date).streams[n] == StreamAfter(a, n, BatchFor(b, n));
    if added == [] {
      assert StreamOf(a, n).lines + AsLines(added) == StreamOf(a, n).lines;
    }
  }
}
