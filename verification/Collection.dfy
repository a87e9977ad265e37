/** From arrival to evidence: the collection loop and its buffers (talonx_compare/runner.py) driving
    the archive's write phase (talonx_compare/collector.py), and the dedup key (identity.py) that
    decides what a stream keeps. */
module Collection {
  import opened Evidence
  import opened EvidenceRuns
  import opened Identity
  import Buffers = CollectorBuffer

  // ------------------------------------------------------- records as stored rows

  /** What is stored of a record; `text` renders it. */
  function RowOf(r: Rec, text: Rec -> string): Row { Row(DedupKey(r), r.date, text(r)) }

  function RowsFor(rs: seq<Rec>, text: Rec -> string): (rows: seq<Row>)
    ensures |rows| == |rs| && forall i :: 0 <= i < |rs| ==> rows[i] == RowOf(rs[i], text)
  {
    seq(|rs|, i requires 0 <= i < |rs| => RowOf(rs[i], text))
  }

  /** A record is stored exactly when its key is not stored yet and no earlier record of the batch cuts
      into the same pieces, whether or not the two are the same event. */
  lemma StoredExactly(seen: set<string>, rs: seq<Rec>, r: Rec, text: Rec -> string)
    ensures
      var before, after := FreshRows(seen, RowsFor(rs, text)), FreshRows(seen, RowsFor(rs + [r], text));
      after == (if DedupKey(r) in seen || exists j :: 0 <= j < |rs| && Pieces(rs[j]) == Pieces(r) then before
                else before + [RowOf(r, text)])
  {
    hide Pieces, DedupKey;
    var rows := RowsFor(rs, text);
    assert RowsFor(rs + [r], text) == rows + [RowOf(r, text)];
    FreshStep(seen, rows, RowOf(r, text));
    assert DedupKey(r) in Ids(rows) <==> exists j :: 0 <= j < |rs| && Pieces(rs[j]) == Pieces(r) by {
      if DedupKey(r) in Ids(rows) {
        var j :| 0 <= j < |rows| && rows[j].id == DedupKey(r);
        SameKeyExactly(rs[j], r);
      }
      if j :| 0 <= j < |rs| && Pieces(rs[j]) == Pieces(r) {
        SameKeyExactly(rs[j], r);
        assert rows[j] in rows;
      }
    }
  }

  /** So of two different records whose neighbouring fields collide, whichever is delivered second is
      never stored. */
  lemma CollidingRecordIsDropped(seen: set<string>, r: Rec, i: nat, x: string, y: string, z: string, text: Rec -> string)
    requires 2 <= i < 7 && x != "" && z != ""
    ensures
      var a := WithPart(WithPart(r, i, x + "|" + y), i + 1, z);
      var b := WithPart(WithPart(r, i, x), i + 1, y + "|" + z);
      && a != b
      && FreshRows(seen, RowsFor([a, b], text)) == FreshRows(seen, RowsFor([a], text))
      && FreshRows(seen, RowsFor([b, a], text)) == FreshRows(seen, RowsFor([b], text))
  {
    var a := WithPart(WithPart(r, i, x + "|" + y), i + 1, z);
    var b := WithPart(WithPart(r, i, x), i + 1, y + "|" + z);
    AdjacentFieldsCollide(r, i, x, y, z);
    hide WithPart, FreshRows;
    SecondIsDropped(seen, a, b, text);
    SecondIsDropped(seen, b, a, text);
  }

  lemma SecondIsDropped(seen: set<string>, a: Rec, b: Rec, text: Rec -> string)
    requires DedupKey(a) == DedupKey(b)
    ensures FreshRows(seen, RowsFor([a, b], text)) == FreshRows(seen, RowsFor([a], text))
  {
    hide Pieces, DedupKey, FreshRows, RowsFor;
    SameKeyExactly(a, b);
    StoredExactly(seen, [a], b, text);
    assert [a] + [b] == [a, b] && [a][0] == a;
  }

  // ----------------------------------------------------------- loop and archive

  /** One subscription: its buffer's world, and as history the messages a pass took and did not write,
      the rows other sources added to passes, and the rows delivered to its stream. */
  datatype Track<M> = Track(world: Buffers.World<M>, skipped: seq<M>, others: seq<Row>, delivered: seq<Row>)

  datatype Pipeline<M> = Pipeline(originals: Track<M>, pivs: Track<M>, archive: Archive)

  function Side<M>(c: Pipeline<M>, n: StreamName): Track<M> { if n == OriginalEvents then c.originals else c.pivs }

  function Begin<M>(): Pipeline<M> {
    var t := Track(Buffers.Idle(), [], [], []);
    Pipeline(t, t, EMPTY)
  }

  /** How a pass comes back: it ran through, it could not resolve a trading date, the collector lock was
      taken, or it raised part way through its writes. `input` holds the rows of the other sources and
      the views. */
  datatype Outcome = Returned(input: Batch) | NoDate | Refused | Raised(input: Batch, done: nat, torn: bool)

  datatype Step<M> = Arrived(stream: StreamName, message: M) | Taken | Ended(outcome: Outcome)

  /** The rows the messages project to; `project` stands for the projections of one stream. */
  function Projected<M>(project: (StreamName, M) -> seq<Row>, n: StreamName, messages: seq<M>): seq<Row> {
    if messages == [] then []
    else Projected(project, n, messages[..|messages| - 1]) + project(n, messages[|messages| - 1])
  }

  function Gathered<M>(project: (StreamName, M) -> seq<Row>, c: Pipeline<M>, input: Batch): Batch {
    input.(originals := input.originals + Projected(project, OriginalEvents, Buffers.Batch(c.originals.world)),
           pivs := input.pivs + Projected(project, PivRecords, Buffers.Batch(c.pivs.world)))
  }

  function EndingOf(outcome: Outcome, blocked: bool): Buffers.Ending {
    match outcome
    case Returned(_) => if blocked then Buffers.Skipped else Buffers.Wrote
    case NoDate => Buffers.Skipped
    case Refused => Buffers.LockBusy
    case Raised(_, _, _) => Buffers.Failed
  }

  /** What the archive sees of a pass that writes: whole, or cut part way. */
  function WritingStep<M>(project: (StreamName, M) -> seq<Row>, c: Pipeline<M>, outcome: Outcome): EvidenceRuns.Step
    requires outcome.Returned? || outcome.Raised?
  {
    var b := Gathered(project, c, outcome.input);
    if outcome.Returned? then Full(b) else Cut(b, outcome.done, outcome.torn)
  }

  ghost function ArchiveAfter<M>(project: (StreamName, M) -> seq<Row>, c: Pipeline<M>, outcome: Outcome, date: string): Archive {
    if outcome.Returned? || outcome.Raised? then Next(c.archive, WritingStep(project, c, outcome), date) else c.archive
  }

  /** One subscription's part of a pass that ended; `landed` says whether its rows were delivered. */
  ghost function TrackAfter<M>(t: Track<M>, ending: Buffers.Ending, landed: bool, others: seq<Row>, rows: seq<Row>): Track<M> {
    Track(Buffers.Next(t.world, Buffers.End(ending)),
          if ending.Skipped? then t.skipped + Buffers.Batch(t.world) else t.skipped,
          t.others + others,
          if landed then t.delivered + rows else t.delivered)
  }

  ghost function SideAfter<M>(project: (StreamName, M) -> seq<Row>, c: Pipeline<M>, outcome: Outcome, date: string, n: StreamName): Track<M> {
    var t := Side(c, n);
    var ending := EndingOf(outcome, Blocked(c.archive, date));
    if outcome.Returned? || outcome.Raised? then
      TrackAfter(t, ending, Delivers(c.archive, WritingStep(project, c, outcome), date, n),
                 BatchFor(outcome.input, n), BatchFor(Gathered(project, c, outcome.input), n))
    else TrackAfter(t, ending, false, [], [])
  }

  function Moved<M>(t: Track<M>, s: Buffers.Step<M>): Track<M> { t.(world := Buffers.Next(t.world, s)) }

  ghost function Advanced<M>(project: (StreamName, M) -> seq<Row>, c: Pipeline<M>, s: Step<M>, date: string): Pipeline<M> {
    match s
    case Arrived(OriginalEvents, x) => c.(originals := Moved(c.originals, Buffers.Arrive(x)))
    case Arrived(PivRecords, x) => c.(pivs := Moved(c.pivs, Buffers.Arrive(x)))
    case Taken => c.(originals := Moved(c.originals, Buffers.Take), pivs := Moved(c.pivs, Buffers.Take))
    case Ended(outcome) =>
      if c.originals.world.inFlight.None? || c.pivs.world.inFlight.None? then c
      else Pipeline(SideAfter(project, c, outcome, date, OriginalEvents), SideAfter(project, c, outcome, date, PivRecords),
                      ArchiveAfter(project, c, outcome, date))
  }

  ghost function Reached<M>(project: (StreamName, M) -> seq<Row>, steps: seq<Step<M>>, date: string): Pipeline<M> {
    if steps == [] then Begin()
    else Advanced(project, Reached(project, steps[..|steps| - 1], date), steps[|steps| - 1], date)
  }

  // ------------------------------------------------------------------ the invariant

  /** Where every message of one subscription is, and what its stream holds. */
  ghost predicate TrackOk<M>(project: (StreamName, M) -> seq<Row>, t: Track<M>, s: Stream, n: StreamName) {
    && Buffers.Kept(t.world)
    && multiset(t.world.accepted) == multiset(t.world.recorded) + multiset(t.skipped)
    && s.lines == AsLines(FreshRows({}, t.delivered))
    && Ids(Projected(project, n, t.world.recorded)) <= Ids(t.delivered)
    && Ids(t.delivered) <= Ids(Projected(project, n, t.world.appended)) + Ids(t.others)
  }

  ghost predicate PipelineOk<M>(project: (StreamName, M) -> seq<Row>, c: Pipeline<M>) {
    forall n: StreamName :: TrackOk(project, Side(c, n), StreamOf(c.archive, n), n)
  }

  lemma {:induction false} ProjectedConcat<M>(project: (StreamName, M) -> seq<Row>, n: StreamName, x: seq<M>, y: seq<M>)
    ensures Projected(project, n, x + y) == Projected(project, n, x) + Projected(project, n, y)
  {
    if y == [] {
      assert x + y == x;
    } else {
      assert (x + y)[..|x + y| - 1] == x + y[..|y| - 1];
      ProjectedConcat(project, n, x, y[..|y| - 1]);
    }
  }

  lemma ProjectedIds<M>(project: (StreamName, M) -> seq<Row>, n: StreamName, x: seq<M>, y: seq<M>)
    ensures Ids(Projected(project, n, x + y)) == Ids(Projected(project, n, x)) + Ids(Projected(project, n, y))
  {
    ProjectedConcat(project, n, x, y);
    IdsConcat(Projected(project, n, x), Projected(project, n, y));
  }

  /** The batch in flight is among what arrived. */
  lemma BatchArrived<M>(project: (StreamName, M) -> seq<Row>, n: StreamName, w: Buffers.World<M>)
    requires Buffers.Kept(w)
    ensures Ids(Projected(project, n, Buffers.Batch(w))) <= Ids(Projected(project, n, w.appended))
  {
    hide Projected;
    var taken := w.accepted + w.lost + Buffers.Batch(w);
    assert w.appended == taken + w.buffer;
    ProjectedIds(project, n, w.accepted + w.lost, Buffers.Batch(w));
    ProjectedIds(project, n, taken, w.buffer);
  }

  lemma MovedKeeps<M>(project: (StreamName, M) -> seq<Row>, t: Track<M>, s: Stream, n: StreamName, step: Buffers.Step<M>)
    requires TrackOk(project, t, s, n) && !step.End?
    ensures TrackOk(project, Moved(t, step), s, n)
  {
    Buffers.NextKeeps(t.world, step);
    if step.Arrive? {
      hide Projected, FreshRows, AsLines;
      ProjectedIds(project, n, t.world.appended, [step.message]);
    }
  }

  /** One subscription's side of a pass that ended, whether or not its rows were written. */
  lemma EndedKeeps<M>(project: (StreamName, M) -> seq<Row>, t: Track<M>, s: Stream, s': Stream, n: StreamName,
                      ending: Buffers.Ending, landed: bool, others: seq<Row>, rows: seq<Row>)
    requires TrackOk(project, t, s, n) && t.world.inFlight.Some?
    requires landed ==> rows == others + Projected(project, n, Buffers.Batch(t.world))
    requires ending.Wrote? ==> landed
    requires s'.lines == if landed then AsLines(FreshRows({}, t.delivered + rows)) else s.lines
    ensures TrackOk(project, TrackAfter(t, ending, landed, others, rows), s', n)
  {
    hide Projected, FreshRows, AsLines, Ids;
    Buffers.NextKeeps(t.world, Buffers.End(ending));
    EndedCounts(t, ending);
    EndedIdentities(project, t, s, n, ending, landed, others, rows);
  }

  lemma EndedCounts<M>(t: Track<M>, ending: Buffers.Ending)
    requires multiset(t.world.accepted) == multiset(t.world.recorded) + multiset(t.skipped)
    ensures
      var w := Buffers.Next(t.world, Buffers.End(ending));
      var skipped := if ending.Skipped? then t.skipped + Buffers.Batch(t.world) else t.skipped;
      t.world.inFlight.Some? ==> multiset(w.accepted) == multiset(w.recorded) + multiset(skipped)
  {
    var w, batch := t.world, Buffers.Batch(t.world);
    assert multiset(w.accepted + batch) == multiset(w.accepted) + multiset(batch);
    assert multiset(w.recorded + batch) == multiset(w.recorded) + multiset(batch);
    assert multiset(t.skipped + batch) == multiset(t.skipped) + multiset(batch);
  }

  lemma EndedIdentities<M>(project: (StreamName, M) -> seq<Row>, t: Track<M>, s: Stream, n: StreamName,
                           ending: Buffers.Ending, landed: bool, others: seq<Row>, rows: seq<Row>)
    requires TrackOk(project, t, s, n) && t.world.inFlight.Some?
    requires landed ==> rows == others + Projected(project, n, Buffers.Batch(t.world))
    requires ending.Wrote? ==> landed
    ensures
      var t' := TrackAfter(t, ending, landed, others, rows);
      && Ids(Projected(project, n, t'.world.recorded)) <= Ids(t'.delivered)
      && Ids(t'.delivered) <= Ids(Projected(project, n, t'.world.appended)) + Ids(t'.others)
  {
    hide Projected, FreshRows, AsLines;
    var w, batch := t.world, Buffers.Batch(t.world);
    BatchArrived(project, n, w);
    ProjectedIds(project, n, w.recorded, batch);
    IdsConcat(t.others, others);
    IdsConcat(t.delivered, rows);
    IdsConcat(others, Projected(project, n, batch));
    hide Ids;
  }

  lemma SideKeeps<M>(project: (StreamName, M) -> seq<Row>, c: Pipeline<M>, outcome: Outcome, date: string, n: StreamName)
    requires PipelineOk(project, c) && Side(c, n).world.inFlight.Some?
    ensures TrackOk(project, SideAfter(project, c, outcome, date, n), StreamOf(ArchiveAfter(project, c, outcome, date), n), n)
  {
    hide Blocked, TrackAfter, Next, StreamAfter, FreshRows, AsLines;
    var t, s := Side(c, n), StreamOf(c.archive, n);
    var ending := EndingOf(outcome, Blocked(c.archive, date));
    assert TrackOk(project, t, s, n);
    if outcome.Returned? || outcome.Raised? {
      var step := WritingStep(project, c, outcome);
      var others, rows := BatchFor(outcome.input, n), BatchFor(step.batch, n);
      assert rows == others + Projected(project, n, Buffers.Batch(t.world));
      StreamExtends(c.archive, n, t.delivered, rows);
      StepStream(c.archive, step, date, n);
      WrittenIsDelivered(project, c, outcome, date, n);
      hide Delivers, TrackOk, WritingStep;
      EndedKeeps(project, t, s, StreamOf(ArchiveAfter(project, c, outcome, date), n), n, ending,
                 Delivers(c.archive, step, date, n), others, rows);
    } else {
      EndedKeeps(project, t, s, s, n, ending, false, [], []);
    }
  }

  lemma WrittenIsDelivered<M>(project: (StreamName, M) -> seq<Row>, c: Pipeline<M>, outcome: Outcome, date: string, n: StreamName)
    requires outcome.Returned? || outcome.Raised?
    ensures EndingOf(outcome, Blocked(c.archive, date)).Wrote? ==> Delivers(c.archive, WritingStep(project, c, outcome), date, n)
  {
    hide Blocked;
  }

  lemma AdvancedKeeps<M>(project: (StreamName, M) -> seq<Row>, c: Pipeline<M>, s: Step<M>, date: string)
    requires PipelineOk(project, c)
    ensures PipelineOk(project, Advanced(project, c, s, date))
  {
    hide TrackOk, SideAfter, ArchiveAfter;
    var c' := Advanced(project, c, s, date);
    forall n: StreamName ensures TrackOk(project, Side(c', n), StreamOf(c'.archive, n), n) {
      var t := Side(c, n);
      match s {
        case Arrived(m, x) => MovedKeeps(project, t, StreamOf(c.archive, n), n, Buffers.Arrive(x));
        case Taken => MovedKeeps(project, t, StreamOf(c.archive, n), n, Buffers.Take);
        case Ended(outcome) =>
          if c.originals.world.inFlight.Some? && c.pivs.world.inFlight.Some? {
            SideKeeps(project, c, outcome, date, n);
          }
      }
    }
  }

  lemma {:induction false} ReachedIsOk<M>(project: (StreamName, M) -> seq<Row>, steps: seq<Step<M>>, date: string)
    ensures PipelineOk(project, Reached(project, steps, date))
  {
    if steps == [] {
      forall n: StreamName ensures TrackOk(project, Side(Begin<M>(), n), StreamOf(EMPTY, n), n) {
        NothingFresh({});
      }
    } else {
      hide PipelineOk, Advanced;
      ReachedIsOk(project, steps[..|steps| - 1], date);
      AdvancedKeeps(project, Reached(project, steps[..|steps| - 1], date), steps[|steps| - 1], date);
    }
  }

  // ------------------------------------------------------------------ main results

  /** From an empty archive, whatever order messages arrive in and passes return, find no date, are
      refused the lock or raise part way through: every message is, in order of arrival, in exactly one
      place - handed over, lost to a pass that raised, in flight or buffered - and a message handed over
      was either written or skipped. Every identity of a written message is in its stream exactly once,
      and the stream holds nothing else than what messages and other sources delivered. */
  lemma ArrivalsReachTheStreamOnce<M>(project: (StreamName, M) -> seq<Row>, steps: seq<Step<M>>, date: string, n: StreamName)
    ensures
      var c := Reached(project, steps, date);
      var t, rows := Side(c, n), Rows(StreamOf(c.archive, n));
      && t.world.accepted + t.world.lost + Buffers.Batch(t.world) + t.world.buffer == t.world.appended
      && multiset(t.world.accepted) == multiset(t.world.recorded) + multiset(t.skipped)
      && DistinctIds(rows) && (forall r :: r in rows <==> DeliveredFirst(r, t.delivered))
      && (forall x :: x in t.world.recorded ==> Ids(project(n, x)) <= Ids(rows))
      && Ids(rows) <= Ids(Projected(project, n, t.world.appended)) + Ids(t.others)
  {
    var c := Reached(project, steps, date);
    ReachedIsOk(project, steps, date);
    var t, s := Side(c, n), StreamOf(c.archive, n);
    assert TrackOk(project, t, s, n);
    hide PipelineOk, Reached, RowsOf, AsLines, FreshRows, DistinctIds, DeliveredFirst, Projected;
    var kept := FreshRows({}, t.delivered);
    KeptRows(t.delivered);
    forall r ensures r in kept <==> DeliveredFirst(r, t.delivered) { FreshIsFirstOccurrence({}, t.delivered, r); }
    forall x | x in t.world.recorded ensures Ids(project(n, x)) <= Ids(kept) {
      ProjectedMember(project, n, t.world.recorded, x);
    }
  }

  lemma {:induction false} ProjectedMember<M>(project: (StreamName, M) -> seq<Row>, n: StreamName, messages: seq<M>, x: M)
    requires x in messages
    ensures Ids(project(n, x)) <= Ids(Projected(project, n, messages))
  {
    var front := messages[..|messages| - 1];
    if x in front {
      ProjectedMember(project, n, front, x);
    }
  }

  /** Every pass returns or is refused the lock, and the rows it gathers besides messages fit the date. */
  ghost predicate Smooth<M>(steps: seq<Step<M>>, date: string) {
    forall i :: 0 <= i < |steps| && steps[i].Ended? ==>
      var outcome := steps[i].outcome;
      outcome.Refused? || (outcome.Returned? && forall r :: r in outcome.input.originals || r in outcome.input.pivs ==> RowFits(r, date))
  }

  /** Projections stamp every row with an identity and the archive's own date. */
  ghost predicate ProjectsFitting<M(!new)>(project: (StreamName, M) -> seq<Row>, date: string) {
    forall n, x, r :: r in project(n, x) ==> RowFits(r, date)
  }

  lemma {:induction false} ProjectedFits<M(!new)>(project: (StreamName, M) -> seq<Row>, date: string, n: StreamName, messages: seq<M>)
    requires ProjectsFitting(project, date)
    ensures forall r :: r in Projected(project, n, messages) ==> RowFits(r, date)
  {
    if messages != [] {
      ProjectedFits(project, date, n, messages[..|messages| - 1]);
    }
  }

  lemma FittingPassIsHealthy<M(!new)>(project: (StreamName, M) -> seq<Row>, c: Pipeline<M>, input: Batch, date: string)
    requires ProjectsFitting(project, date)
    requires forall r :: r in input.originals || r in input.pivs ==> RowFits(r, date)
    requires c.archive == EMPTY || Assess(c.archive, date) == Healthy
    ensures Assess(Pass(c.archive, Gathered(project, c, input), date), date) == Healthy
  {
    hide Assess, Projected, FreshRows, RowFits;
    var b := Gathered(project, c, input);
    ProjectedFits(project, date, OriginalEvents, Buffers.Batch(c.originals.world));
    ProjectedFits(project, date, PivRecords, Buffers.Batch(c.pivs.world));
    assert forall r :: r in b.originals || r in b.pivs ==> RowFits(r, date);
    forall seen, r | r in FreshRows(seen, b.originals) || r in FreshRows(seen, b.pivs) ensures RowFits(r, date) {
      FreshAreDelivered(seen, b.originals, r);
      FreshAreDelivered(seen, b.pivs, r);
    }
    if c.archive == EMPTY {
      FirstPassHealthyExactly(b, date);
    } else {
      HealthyStaysHealthyExactly(c.archive, b, date);
    }
  }

  lemma FreshAreDelivered(seen: set<string>, batch: seq<Row>, r: Row)
    ensures r in FreshRows(seen, batch) ==> r in batch
  {
    FreshIsFirstOccurrence(seen, batch, r);
  }

  ghost predicate LosesNothing<M>(c: Pipeline<M>, date: string) {
    && (c.archive == EMPTY || Assess(c.archive, date) == Healthy)
    && c.originals.world.lost == [] && c.originals.skipped == []
    && c.pivs.world.lost == [] && c.pivs.skipped == []
  }

  lemma ReturnLosesNothing<M(!new)>(project: (StreamName, M) -> seq<Row>, c: Pipeline<M>, outcome: Outcome, date: string)
    requires LosesNothing(c, date) && ProjectsFitting(project, date)
    requires outcome.Returned? && forall r :: r in outcome.input.originals || r in outcome.input.pivs ==> RowFits(r, date)
    ensures LosesNothing(Advanced(project, c, Ended(outcome), date), date)
  {
    FittingPassIsHealthy(project, c, outcome.input, date);
    hide Assess, Gathered, Pass, ProjectsFitting, RowFits;
    assert !Blocked(c.archive, date);
  }

  lemma OthersLoseNothing<M>(project: (StreamName, M) -> seq<Row>, c: Pipeline<M>, s: Step<M>, date: string)
    requires LosesNothing(c, date) && (s.Ended? ==> s.outcome.Refused?)
    ensures LosesNothing(Advanced(project, c, s, date), date)
  {
    hide Assess, Gathered;
  }

  lemma {:induction false} SmoothLosesNothing<M(!new)>(project: (StreamName, M) -> seq<Row>, steps: seq<Step<M>>, date: string)
    requires Smooth(steps, date) && ProjectsFitting(project, date)
    ensures LosesNothing(Reached(project, steps, date), date)
  {
    if steps == [] {
      hide Assess;
    } else {
      hide LosesNothing, Reached, ProjectsFitting, Advanced, RowFits;
      var front, last := steps[..|steps| - 1], steps[|steps| - 1];
      SmoothLosesNothing(project, front, date);
      ReachedSnoc(project, steps, date);
      if last.Ended? && last.outcome.Returned? {
        ReturnLosesNothing(project, Reached(project, front, date), last.outcome, date);
      } else {
        OthersLoseNothing(project, Reached(project, front, date), last, date);
      }
    }
  }

  lemma ReachedSnoc<M>(project: (StreamName, M) -> seq<Row>, steps: seq<Step<M>>, date: string)
    requires steps != []
    ensures Reached(project, steps, date)
         == Advanced(project, Reached(project, steps[..|steps| - 1], date), steps[|steps| - 1], date)
  {
  }

  /** When every pass returns or is merely refused the lock, and all rows carry the archive's date: once
      the loop has drained its buffer, every identity of every message that ever arrived is in its
      stream, exactly once, and the archive is healthy or still empty. */
  lemma DrainedMeansStored<M(!new)>(project: (StreamName, M) -> seq<Row>, steps: seq<Step<M>>, date: string, n: StreamName)
    requires Smooth(steps, date) && ProjectsFitting(project, date)
    requires var w := Side(Reached(project, steps, date), n).world; w.inFlight.None? && w.buffer == []
    ensures
      var c := Reached(project, steps, date);
      var rows := Rows(StreamOf(c.archive, n));
      && (c.archive == EMPTY || Assess(c.archive, date) == Healthy)
      && DistinctIds(rows)
      && forall x :: x in Side(c, n).world.appended ==> Ids(project(n, x)) <= Ids(rows)
  {
    ArrivalsReachTheStreamOnce(project, steps, date, n);
    SmoothLosesNothing(project, steps, date);
    hide Reached, RowsOf, DistinctIds, DeliveredFirst, Projected, Smooth, ProjectsFitting, Assess;
    var c := Reached(project, steps, date);
    var t, rows := Side(c, n), Rows(StreamOf(c.archive, n));
    assert t.world.appended == t.world.accepted;
    assert multiset(t.world.accepted) == multiset(t.world.recorded);
    forall x | x in t.world.appended ensures Ids(project(n, x)) <= Ids(rows) {
      assert x in multiset(t.world.accepted);
      assert x in multiset(t.world.recorded);
    }
  }
}
