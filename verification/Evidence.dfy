/** The date-partitioned evidence archive (talonx_compare/evidence.py) and the write phase of a
    collection pass over it (talonx_compare/collector.py): a deduplicated append-only store whose
    views are rewritten each pass and sealed by a hash inventory. */
module Evidence {

  datatype DocName = Manifest | RuntimeStatus | Comparison | Divergences | Telegram | Diagnostics
  datatype StreamName = OriginalEvents | PivRecords

  /** A JSON file's text, with line ends already normalised; it parses or it does not. */
  datatype Doc = Json(text: string) | NotJson(text: string)

  /** One stored record: its dedup identity, its trading date (possibly absent) and the rest. */
  datatype Row = Row(id: string, date: string, body: string)
  datatype Line = Record(row: Row) | Malformed(text: string)
  datatype Stream = Stream(lines: seq<Line>, terminated: bool)

  /** Hashes are injective on normalised content, so a digest is modelled by what it digests. */
  datatype DocDigest = DocDigest(doc: Doc)
  datatype StreamDigest = StreamDigest(stream: Stream)

  datatype InventoryFile =
    | NoInventory
    | UnreadableInventory
    | Inventory(stamp: string, docs: map<DocName, DocDigest>, streams: map<StreamName, StreamDigest>)

  datatype Target = DocFile(doc: DocName) | StreamFile(stream: StreamName) | HashFile

  /** Files that are not evidence: a temp file a process left behind, or anything else. */
  datatype Extra = Temp(target: Target, pid: nat) | Unexpected(name: string)

  datatype Archive = Archive(
    docs: map<DocName, Doc>, streams: map<StreamName, Stream>, inventory: InventoryFile, extras: set<Extra>)

  const EMPTY := Archive(map[], map[], NoInventory, {})

  datatype Verdict = Healthy | Degraded | Unreadable

  // ------------------------------------------------------------------- integrity

  function Rows(s: Stream): seq<Row> { RowsOf(s.lines) }

  function RowsOf(lines: seq<Line>): seq<Row> {
    if lines == [] then []
    else RowsOf(lines[..|lines| - 1]) + (if lines[|lines| - 1].Record? then [lines[|lines| - 1].row] else [])
  }

  function Ids(rows: seq<Row>): set<string> { set r | r in rows :: r.id }

  predicate DistinctIds(rows: seq<Row>) { forall i, j :: 0 <= i < j < |rows| ==> rows[i].id != rows[j].id }

  predicate RowFits(r: Row, date: string) { r.id != "" && (r.date == "" || r.date == date) }

  ghost predicate StreamSound(s: Stream, date: string) {
    && s.terminated
    && (forall line :: line in s.lines ==> line.Record?)
    && (forall r :: r in Rows(s) ==> RowFits(r, date))
    && DistinctIds(Rows(s))
  }

  ghost predicate Sealed(a: Archive) {
    && a.inventory.Inventory?
    && (forall n :: n in a.docs ==> n in a.inventory.docs)
    && (forall n :: n in a.streams ==> n in a.inventory.streams)
    && (forall n :: n in a.inventory.docs ==> n in a.docs && a.inventory.docs[n] == DocDigest(a.docs[n]))
    && (forall n :: n in a.inventory.streams ==> n in a.streams && a.inventory.streams[n] == StreamDigest(a.streams[n]))
  }

  predicate Complete(a: Archive) { (forall n: DocName :: n in a.docs) && (forall n: StreamName :: n in a.streams) }

  predicate DocsParse(a: Archive) { forall n :: n in a.docs ==> a.docs[n].Json? }

  ghost predicate StreamsSound(a: Archive, date: string) { forall n :: n in a.streams ==> StreamSound(a.streams[n], date) }

  ghost predicate Intact(a: Archive, date: string) {
    Complete(a) && a.extras == {} && DocsParse(a) && StreamsSound(a, date) && Sealed(a)
  }

  /** What an integrity check reports. A missing file or a document that does not parse is the harder verdict. */
  ghost function Assess(a: Archive, date: string): Verdict {
    if !Complete(a) || !DocsParse(a) then Unreadable
    else if Intact(a, date) then Healthy
    else Degraded
  }

  /** An archive without a manifest counts as brand new and is not checked. */
  ghost predicate Blocked(a: Archive, date: string) { Manifest in a.docs && Assess(a, date) != Healthy }

  // ---------------------------------------------------------------------- writing

  /** The batch's rows whose identity is new, first delivery wins. */
  function FreshRows(seen: set<string>, batch: seq<Row>): seq<Row> {
    if batch == [] then []
    else
      var front, last := batch[..|batch| - 1], batch[|batch| - 1];
      FreshRows(seen, front) + (if last.id in seen || last.id in Ids(front) then [] else [last])
  }

  function AsLines(rows: seq<Row>): (lines: seq<Line>)
    ensures |lines| == |rows|
  { seq(|rows|, i requires 0 <= i < |rows| => Record(rows[i])) }

  function StreamOf(a: Archive, n: StreamName): Stream { if n in a.streams then a.streams[n] else Stream([], true) }

  function Fresh(a: Archive, n: StreamName, batch: seq<Row>): seq<Row> { FreshRows(Ids(Rows(StreamOf(a, n))), batch) }

  datatype Write = PutDoc(doc: DocName, text: Doc) | PutStream(stream: StreamName, content: Stream) | PutInventory(stamp: string)

  function TargetOf(w: Write): Target {
    match w
    case PutDoc(n, _) => DocFile(n)
    case PutStream(n, _) => StreamFile(n)
    case PutInventory(_) => HashFile
  }

  function Inventoried(a: Archive, stamp: string): InventoryFile {
    Inventory(stamp, map n | n in a.docs :: DocDigest(a.docs[n]), map n | n in a.streams :: StreamDigest(a.streams[n]))
  }

  /** One atomic write: the process's temp file is created, filled and renamed over the target. */
  function Applied(a: Archive, w: Write, pid: nat): Archive {
    var a' := a.(extras := a.extras - {Temp(TargetOf(w), pid)});
    match w
    case PutDoc(n, text) => a'.(docs := a'.docs[n := text])
    case PutStream(n, content) => a'.(streams := a'.streams[n := content])
    case PutInventory(stamp) => a'.(inventory := Inventoried(a', stamp))
  }

  function AllApplied(a: Archive, ws: seq<Write>, pid: nat): Archive {
    if ws == [] then a else Applied(AllApplied(a, ws[..|ws| - 1], pid), ws[|ws| - 1], pid)
  }

  /** What one pass has gathered, and the views it computes from the streams it reads back. */
  datatype Batch = Batch(
    pid: nat, manifest: string, originals: seq<Row>, pivs: seq<Row>,
    comparison: string, divergences: string, telegram: string, diagnostics: string, status: string, stamp: string)

  function StreamWrites(a: Archive, n: StreamName, batch: seq<Row>): seq<Write> {
    var added := Fresh(a, n, batch);
    if added != [] then [PutStream(n, Stream(StreamOf(a, n).lines + AsLines(added), true))]
    else if n !in a.streams then [PutStream(n, Stream([], true))]
    else []
  }

  function ManifestWrites(a: Archive, text: string): seq<Write> {
    if Manifest in a.docs then [] else [PutDoc(Manifest, Json(text))]
  }

  function ViewWrites(b: Batch): seq<Write> {
    [PutDoc(Comparison, Json(b.comparison)), PutDoc(Divergences, Json(b.divergences)), PutDoc(Telegram, Json(b.telegram)),
     PutDoc(Diagnostics, Json(b.diagnostics)), PutDoc(RuntimeStatus, Json(b.status))]
  }

  /** Everything a pass writes before it seals the archive. */
  function ContentWrites(a: Archive, b: Batch): seq<Write> {
    ManifestWrites(a, b.manifest) + StreamWrites(a, OriginalEvents, b.originals) + StreamWrites(a, PivRecords, b.pivs)
    + ViewWrites(b)
  }

  function Plan(a: Archive, b: Batch): seq<Write> { ContentWrites(a, b) + [PutInventory(b.stamp)] }

  function Written(a: Archive, b: Batch): Archive { AllApplied(a, Plan(a, b), b.pid) }

  /** A pass: refused outright on a damaged archive, otherwise the whole plan. */
  ghost function Pass(a: Archive, b: Batch, date: string): Archive { if Blocked(a, date) then a else Written(a, b) }

  /** A pass that dies after `done` writes, possibly in the middle of the next one. */
  ghost function CutPass(a: Archive, b: Batch, date: string, done: nat, torn: bool): Archive {
    var plan := Plan(a, b);
    if Blocked(a, date) || done >= |plan| then Pass(a, b, date)
    else
      var c := AllApplied(a, plan[..done], b.pid);
      if torn then c.(extras := c.extras + {Temp(TargetOf(plan[done]), b.pid)}) else c
  }

  // ----------------------------------------------------------- the mutable writer

  datatype ManifestResult = ManifestResult(written: bool, conflict: bool)

  class EvidenceWriter {
    const date: string
    const pid: nat
    var docs: map<DocName, Doc>
    var streams: map<StreamName, Stream>
    var inventory: InventoryFile
    var extras: set<Extra>

    ghost function State(): Archive
      reads this
    {
      Archive(docs, streams, inventory, extras)
    }

    constructor (date: string, pid: nat, a: Archive)
      ensures State() == a && this.date == date && this.pid == pid
    {
      this.date := date;
      this.pid := pid;
      docs, streams, inventory, extras := a.docs, a.streams, a.inventory, a.extras;
    }

    method ReplaceDoc(n: DocName, text: Doc)
      modifies this
      ensures State() == Applied(old(State()), PutDoc(n, text), pid)
    {
      extras := extras - {Temp(DocFile(n), pid)};
      docs := docs[n := text];
    }

    method ReplaceStream(n: StreamName, content: Stream)
      modifies this
      ensures State() == Applied(old(State()), PutStream(n, content), pid)
    {
      extras := extras - {Temp(StreamFile(n), pid)};
      streams := streams[n := content];
    }

    /** Writes the manifest once; a later, different one is reported and refused. */
    method WriteManifest(text: string) returns (r: ManifestResult)
      modifies this
      ensures State() == AllApplied(old(State()), ManifestWrites(old(State()), text), pid)
      ensures r.written <==> Manifest !in old(docs)
      ensures r.conflict <==> Manifest in old(docs) && old(docs)[Manifest] != Json(text)
    {
      if Manifest in docs {
        return ManifestResult(false, docs[Manifest] != Json(text));
      }
      ghost var was := State();
      ReplaceDoc(Manifest, Json(text));
      AppliedOne(was, PutDoc(Manifest, Json(text)), pid);
      return ManifestResult(true, false);
    }

    /** Appends the records not yet in the stream, each identity once. */
    method AppendRecords(n: StreamName, batch: seq<Row>) returns (appended: nat, duplicate: nat)
      modifies this
      ensures State() == AllApplied(old(State()), StreamWrites(old(State()), n, batch), pid)
      ensures appended == |Fresh(old(State()), n, batch)| && appended + duplicate == |batch|
    {
      hide FreshRows, AsLines, RowsOf, Ids, Applied, AllApplied;
      ghost var was := State();
      var existing := if n in streams then streams[n] else Stream([], true);
      var known := Ids(RowsOf(existing.lines));
      var seen := known;
      var lines: seq<Line> := [];
      appended, duplicate := 0, 0;
      FreshOfNothing(known);
      for i := 0 to |batch|
        invariant State() == was
        invariant seen == known + Ids(batch[..i])
        invariant lines == AsLines(FreshRows(known, batch[..i])) && appended == |FreshRows(known, batch[..i])|
        invariant appended + duplicate == i
      {
        assert batch[..i] + [batch[i]] == batch[..i + 1];
        IdsSnoc(batch[..i], batch[i]);
        FreshStep(known, batch[..i], batch[i]);
        if batch[i].id in seen {
          duplicate := duplicate + 1;
        } else {
          seen := seen + {batch[i].id};
          lines := lines + [Record(batch[i])];
          appended := appended + 1;
        }
      }
      assert batch[..|batch|] == batch;
      if lines != [] {
        ReplaceStream(n, Stream(existing.lines + lines, true));
        AppliedOne(was, PutStream(n, Stream(existing.lines + lines, true)), pid);
      } else {
        AppliedOne(was, PutStream(n, Stream([], true)), pid);
        if n !in streams {
          ReplaceStream(n, Stream([], true));
        }
      }
    }

    method HashDocs(names: seq<DocName>) returns (hashes: map<DocName, DocDigest>)
      ensures forall n :: n in hashes <==> n in docs && n in names
      ensures forall n :: n in hashes ==> hashes[n] == DocDigest(docs[n])
    {
      hashes := map[];
      for i := 0 to |names|
        invariant forall n :: n in hashes <==> n in docs && n in names[..i]
        invariant forall n :: n in hashes ==> hashes[n] == DocDigest(docs[n])
      {
        if names[i] in docs {
          hashes := hashes[names[i] := DocDigest(docs[names[i]])];
        }
        assert names[..i + 1] == names[..i] + [names[i]];
      }
      assert names[..|names|] == names;
    }

    method HashStreams(names: seq<StreamName>) returns (hashes: map<StreamName, StreamDigest>)
      ensures forall n :: n in hashes <==> n in streams && n in names
      ensures forall n :: n in hashes ==> hashes[n] == StreamDigest(streams[n])
    {
      hashes := map[];
      for i := 0 to |names|
        invariant forall n :: n in hashes <==> n in streams && n in names[..i]
        invariant forall n :: n in hashes ==> hashes[n] == StreamDigest(streams[n])
      {
        if names[i] in streams {
          hashes := hashes[names[i] := StreamDigest(streams[names[i]])];
        }
        assert names[..i + 1] == names[..i] + [names[i]];
      }
      assert names[..|names|] == names;
    }

    /** Hashes every evidence file present and seals the archive with the inventory. */
    method WriteFileHashes(stamp: string)
      modifies this
      ensures State() == Applied(old(State()), PutInventory(stamp), pid)
    {
      var docHashes := HashDocs(DOC_NAMES);
      var streamHashes := HashStreams(STREAM_NAMES);
      forall n: DocName ensures n in DOC_NAMES { AllDocNames(n); }
      forall n: StreamName ensures n in STREAM_NAMES { AllStreamNames(n); }
      extras := extras - {Temp(HashFile, pid)};
      inventory := Inventory(stamp, docHashes, streamHashes);
      assert docHashes == map n | n in docs :: DocDigest(docs[n]);
      assert streamHashes == map n | n in streams :: StreamDigest(streams[n]);
    }

    // ------------------------------------------------------------ verification

    /** Reads one stream line by line: every line a record, every record identified, of this date,
        and no identity twice. */
    method CheckStream(s: Stream) returns (sound: bool)
      ensures sound <==> StreamSound(s, date)
    {
      sound := s.terminated;
      var ids: set<string> := {};
      for i := 0 to |s.lines|
        invariant ids == Ids(RowsOf(s.lines[..i]))
        invariant sound <==>
          && s.terminated && (forall line :: line in s.lines[..i] ==> line.Record?)
          && (forall r :: r in RowsOf(s.lines[..i]) ==> RowFits(r, date)) && DistinctIds(RowsOf(s.lines[..i]))
      {
        assert s.lines[..i + 1] == s.lines[..i] + [s.lines[i]];
        RowsSnoc(s.lines[..i], s.lines[i]);
        match s.lines[i] {
          case Malformed(_) => sound := false;
          case Record(r) =>
            DistinctSnoc(RowsOf(s.lines[..i]), r);
            IdsSnoc(RowsOf(s.lines[..i]), r);
            sound := sound && RowFits(r, date) && r.id !in ids;
            ids := ids + {r.id};
        }
      }
      assert s.lines[..|s.lines|] == s.lines;
    }

    method CheckDocs(names: seq<DocName>) returns (present: bool, parse: bool, hashed: bool)
      ensures present <==> forall n :: n in names ==> n in docs
      ensures parse <==> forall n :: n in names && n in docs ==> docs[n].Json?
      ensures hashed <==>
        inventory.Inventory? && forall n :: n in names ==>
          && (n in docs <==> n in inventory.docs)
          && (n in docs && n in inventory.docs ==> inventory.docs[n] == DocDigest(docs[n]))
    {
      present, parse, hashed := true, true, inventory.Inventory?;
      for i := 0 to |names|
        invariant present <==> forall n :: n in names[..i] ==> n in docs
        invariant parse <==> forall n :: n in names[..i] && n in docs ==> docs[n].Json?
        invariant hashed <==>
          inventory.Inventory? && forall n :: n in names[..i] ==>
            && (n in docs <==> n in inventory.docs)
            && (n in docs && n in inventory.docs ==> inventory.docs[n] == DocDigest(docs[n]))
      {
        var n := names[i];
        assert names[..i + 1] == names[..i] + [n];
        present := present && n in docs;
        parse := parse && (n in docs ==> docs[n].Json?);
        hashed := hashed && (n in docs <==> n in inventory.docs)
                  && (n in docs && n in inventory.docs ==> inventory.docs[n] == DocDigest(docs[n]));
      }
      assert names[..|names|] == names;
    }

    method CheckStreams(names: seq<StreamName>) returns (present: bool, sound: bool, hashed: bool)
      ensures present <==> forall n :: n in names ==> n in streams
      ensures sound <==> forall n :: n in names && n in streams ==> StreamSound(streams[n], date)
      ensures hashed <==>
        inventory.Inventory? && forall n :: n in names ==>
          && (n in streams <==> n in inventory.streams)
          && (n in streams && n in inventory.streams ==> inventory.streams[n] == StreamDigest(streams[n]))
    {
      hide StreamSound;
      present, sound, hashed := true, true, inventory.Inventory?;
      for i := 0 to |names|
        invariant present <==> forall n :: n in names[..i] ==> n in streams
        invariant sound <==> forall n :: n in names[..i] && n in streams ==> StreamSound(streams[n], date)
        invariant hashed <==>
          inventory.Inventory? && forall n :: n in names[..i] ==>
            && (n in streams <==> n in inventory.streams)
            && (n in streams && n in inventory.streams ==> inventory.streams[n] == StreamDigest(streams[n]))
      {
        var n := names[i];
        assert names[..i + 1] == names[..i] + [n];
        present := present && n in streams;
        if n in streams {
          var ok := CheckStream(streams[n]);
          sound := sound && ok;
        }
        hashed := hashed && (n in streams <==> n in inventory.streams)
                  && (n in streams && n in inventory.streams ==> inventory.streams[n] == StreamDigest(streams[n]));
      }
      assert names[..|names|] == names;
    }

    /** The full integrity check. */
    method VerifyArchive() returns (state: Verdict)
      ensures state == Assess(State(), date)
    {
      hide StreamSound;
      var docsPresent, docsParse, docsHashed := CheckDocs(DOC_NAMES);
      var streamsPresent, streamsSound, streamsHashed := CheckStreams(STREAM_NAMES);
      forall n: DocName ensures n in DOC_NAMES { AllDocNames(n); }
      forall n: StreamName ensures n in STREAM_NAMES { AllStreamNames(n); }
      assert Complete(State()) <==> docsPresent && streamsPresent;
      assert DocsParse(State()) <==> docsParse;
      assert StreamsSound(State(), date) <==> streamsSound;
      assert Sealed(State()) <==> docsHashed && streamsHashed;
      if !docsPresent || !streamsPresent || !docsParse {
        return Unreadable;
      }
      return if extras == {} && streamsSound && docsHashed && streamsHashed then Healthy else Degraded;
    }

    /** The write phase of one pass: refused on a damaged archive, otherwise manifest, streams, views
        and status in this order, and the inventory last. */
    method WritePhase(b: Batch) returns (aborted: bool)
      requires b.pid == pid
      modifies this
      ensures aborted <==> Blocked(old(State()), date)
      ensures State() == Pass(old(State()), b, date)
    {
      hide Assess, StreamWrites, ManifestWrites, Applied, AllApplied;
      ghost var was := State();
      if Manifest in docs {
        var state := VerifyArchive();
        if state != Healthy {
          return true;
        }
      }
      aborted := false;
      var _ := WriteManifest(b.manifest);
      ghost var a1 := State();
      ManifestTouchesNoStream(was, b);
      var _, _ := AppendRecords(OriginalEvents, b.originals);
      ghost var a2 := State();
      OriginalsTouchNoPivs(a1, b);
      var _, _ := AppendRecords(PivRecords, b.pivs);
      ghost var a3 := State();
      WriteViews(b);
      ghost var a4 := State();
      WriteFileHashes(b.stamp);
      AppliedOne(a4, PutInventory(b.stamp), b.pid);
      PlanInOrder(was, a1, a2, a3, a4, b);
    }

    method WriteViews(b: Batch)
      requires b.pid == pid
      modifies this
      ensures State() == AllApplied(old(State()), ViewWrites(b), b.pid)
    {
      hide Applied;
      ghost var a0 := State();
      ReplaceDoc(Comparison, Json(b.comparison));
      ReplaceDoc(Divergences, Json(b.divergences));
      ReplaceDoc(Telegram, Json(b.telegram));
      ReplaceDoc(Diagnostics, Json(b.diagnostics));
      ReplaceDoc(RuntimeStatus, Json(b.status));
      ghost var v := ViewWrites(b);
      AllAppliedTakes(a0, v, b.pid);
    }
  }

  lemma AllAppliedTakes(a: Archive, ws: seq<Write>, pid: nat)
    requires |ws| == 5
    ensures AllApplied(a, ws, pid) == Applied(Applied(Applied(Applied(Applied(a, ws[0], pid), ws[1], pid), ws[2], pid), ws[3], pid), ws[4], pid)
  {
    hide Applied;
    assert ws[..5] == ws && ws[..4][..3] == ws[..3] && ws[..3][..2] == ws[..2] && ws[..2][..1] == ws[..1] && ws[..1][..0] == [];
    assert AllApplied(a, ws[..1], pid) == Applied(a, ws[0], pid);
    assert AllApplied(a, ws[..2], pid) == Applied(AllApplied(a, ws[..1], pid), ws[1], pid);
    assert AllApplied(a, ws[..3], pid) == Applied(AllApplied(a, ws[..2], pid), ws[2], pid);
    assert AllApplied(a, ws[..4], pid) == Applied(AllApplied(a, ws[..3], pid), ws[3], pid);
  }

  lemma {:induction false} AllAppliedConcat(a: Archive, ws: seq<Write>, vs: seq<Write>, pid: nat)
    ensures AllApplied(a, ws + vs, pid) == AllApplied(AllApplied(a, ws, pid), vs, pid)
  {
    hide Applied;
    if vs == [] {
      assert ws + vs == ws;
    } else {
      var front := vs[..|vs| - 1];
      assert (ws + vs)[..|ws + vs| - 1] == ws + front;
      AllAppliedConcat(a, ws, front, pid);
    }
  }

  /** A pass computes each stream's additions from that stream alone, so doing the writes one after
      another is the plan made at the start. */
  lemma PlanInOrder(a0: Archive, a1: Archive, a2: Archive, a3: Archive, a4: Archive, b: Batch)
    requires a1 == AllApplied(a0, ManifestWrites(a0, b.manifest), b.pid)
    requires a2 == AllApplied(a1, StreamWrites(a0, OriginalEvents, b.originals), b.pid)
    requires a3 == AllApplied(a2, StreamWrites(a0, PivRecords, b.pivs), b.pid)
    requires a4 == AllApplied(a3, ViewWrites(b), b.pid)
    ensures AllApplied(a4, [PutInventory(b.stamp)], b.pid) == Written(a0, b)
  {
    hide Applied, AllApplied, ManifestWrites, StreamWrites, ViewWrites;
    var m, o, p, v := ManifestWrites(a0, b.manifest), StreamWrites(a0, OriginalEvents, b.originals),
                      StreamWrites(a0, PivRecords, b.pivs), ViewWrites(b);
    AllAppliedConcat(a0, m, o, b.pid);
    AllAppliedConcat(a0, m + o, p, b.pid);
    AllAppliedConcat(a0, m + o + p, v, b.pid);
    AllAppliedConcat(a0, m + o + p + v, [PutInventory(b.stamp)], b.pid);
  }

  lemma ManifestTouchesNoStream(a: Archive, b: Batch)
    ensures
      var a1 := AllApplied(a, ManifestWrites(a, b.manifest), b.pid);
      && StreamWrites(a1, OriginalEvents, b.originals) == StreamWrites(a, OriginalEvents, b.originals)
      && StreamWrites(a1, PivRecords, b.pivs) == StreamWrites(a, PivRecords, b.pivs)
  {
  }

  lemma OriginalsTouchNoPivs(a: Archive, b: Batch)
    ensures
      var a2 := AllApplied(a, StreamWrites(a, OriginalEvents, b.originals), b.pid);
      StreamWrites(a2, PivRecords, b.pivs) == StreamWrites(a, PivRecords, b.pivs)
  {
  }

  lemma RowsSnoc(lines: seq<Line>, line: Line)
    ensures RowsOf(lines + [line]) == RowsOf(lines) + (if line.Record? then [line.row] else [])
  {
  }

  lemma DistinctSnoc(rows: seq<Row>, r: Row)
    ensures DistinctIds(rows + [r]) <==> DistinctIds(rows) && r.id !in Ids(rows)
  {
    if DistinctIds(rows + [r]) {
      forall i, j | 0 <= i < j < |rows| ensures rows[i].id != rows[j].id {
        assert (rows + [r])[i] == rows[i] && (rows + [r])[j] == rows[j];
      }
      forall x | x in rows ensures x.id != r.id {
        var i :| 0 <= i < |rows| && rows[i] == x;
        assert (rows + [r])[i] == x && (rows + [r])[|rows|] == r;
      }
    }
  }

  const DOC_NAMES := [Manifest, RuntimeStatus, Comparison, Divergences, Telegram, Diagnostics]
  const STREAM_NAMES := [OriginalEvents, PivRecords]

  lemma AllDocNames(n: DocName)
    ensures n in DOC_NAMES
  {
  }

  lemma AllStreamNames(n: StreamName)
    ensures n in STREAM_NAMES
  {
  }

  lemma FreshOfNothing(known: set<string>)
    ensures FreshRows(known, []) == [] && AsLines([]) == [] && Ids([]) == {}
  {
  }

  lemma FreshStep(known: set<string>, front: seq<Row>, r: Row)
    ensures FreshRows(known, front + [r])
         == if r.id in known + Ids(front) then FreshRows(known, front) else FreshRows(known, front) + [r]
    ensures AsLines(FreshRows(known, front) + [r]) == AsLines(FreshRows(known, front)) + [Record(r)]
  {
  }

  lemma AppliedOne(a: Archive, w: Write, pid: nat)
    ensures AllApplied(a, [w], pid) == Applied(a, w, pid)
    ensures AllApplied(a, [], pid) == a
  {
  }

  lemma IdsSnoc(rows: seq<Row>, r: Row)
    ensures Ids(rows + [r]) == Ids(rows) + {r.id}
  {
  }
}
