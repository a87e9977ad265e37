/** The outbox across any interleaving of enqueues, reports, flushes, failed saves, crashes and
    restarts (talonx_core/alert_outbox.py). */
module OutboxRuns {
  import opened Sequences
  import opened Outbox

  /** One process at a time over one state file. `boot` numbers the processes; `log`, the loaded sizes
      and `blind` are history, which the outbox itself does not keep: a process is blind from a boot
      that could not read the file until its first completed save. */
  datatype World = World(
    memory: Memory, file: StateFile, boot: nat, callable: bool, log: seq<Entry>, loaded: nat, loadedPending: int, blind: bool)

  datatype Step =
    | Enqueue(id: Id, channel: string, payload: string, now: int, saved: bool)
    | Report(id: Id, saved: bool)
    | Flush(now: int, answer: Id -> Answer, saved: bool)
    | CrashInFlush(flushNow: int, flushAnswer: Id -> Answer, done: nat, readable: bool, order: seq<Id>, callable: bool)
    | Restart(readable: bool, order: seq<Id>, callable: bool)

  ghost predicate Lists(order: seq<Id>, records: map<Id, AlertRecord>) {
    NoDuplicates(order) && forall id :: id in order <==> id in records
  }

  function Booted(file: StateFile, readable: bool, order: seq<Id>, boot: nat, callable: bool, log: seq<Entry>): World {
    var m := Memory(ReadBack(file, readable), order, NO_COUNTS);
    World(m, file, boot, callable, log, |order|, PendingDepth(m), !readable)
  }

  function Saved(w: World, m: Memory, saved: bool): World {
    w.(memory := m, file := if saved then Stored(m.records) else w.file, blind := w.blind && !saved)
  }

  /** Whether a step completes a save: only calls that change a record save at all. */
  predicate Saves(w: World, s: Step) {
    match s
    case Enqueue(id, _, _, _, saved) => saved && !(id in w.memory.records && Terminal(w.memory.records[id].status))
    case Report(id, saved) => saved && Awaiting(w.memory, id)
    case Flush(_, _, saved) => saved
    case _ => false
  }

  /** A crash in a flush has published for the records already visited and saved nothing. */
  ghost function Next(w: World, s: Step): World {
    match s
    case Enqueue(id, channel, payload, now, _) => Saved(w, Enqueued(w.memory, id, channel, payload, now), Saves(w, s))
    case Report(id, _) => Saved(w, MarkedPublished(w.memory, id), Saves(w, s)).(log := w.log + [Reported(w.boot, id)])
    case Flush(now, answer, _) =>
      Saved(w, FlushMemory(w.memory, w.memory.order, now, answer, w.callable), Saves(w, s))
        .(log := w.log + FlushCalls(w.memory, w.memory.order, now, answer, w.callable, w.boot))
    case CrashInFlush(now, answer, done, readable, order, callable) =>
      if Lists(order, ReadBack(w.file, readable)) && done <= |w.memory.order| then
        Booted(w.file, readable, order, w.boot + 1, callable,
               w.log + FlushCalls(w.memory, w.memory.order[..done], now, answer, w.callable, w.boot))
      else w
    case Restart(readable, order, callable) =>
      if Lists(order, ReadBack(w.file, readable)) then Booted(w.file, readable, order, w.boot + 1, callable, w.log) else w
  }

  ghost function After(w: World, steps: seq<Step>): World {
    if steps == [] then w else Next(After(w, steps[..|steps| - 1]), steps[|steps| - 1])
  }

  // ------------------------------------------------------------------- invariants

  /** A record that still owes a delivery has attempts left. */
  predicate RecordOk(r: AlertRecord) {
    && r.maxAttempts == MAX_ATTEMPTS && r.attempts <= MAX_ATTEMPTS
    && (!r.status.Failed? ==> r.attempts < MAX_ATTEMPTS)
  }

  ghost predicate RecordsOk(records: map<Id, AlertRecord>) { forall id :: id in records ==> RecordOk(records[id]) }

  /** `r'` may follow `r`: no attempt is forgotten and a settled record is final. */
  predicate Follows(r: AlertRecord, r': AlertRecord) {
    r.attempts <= r'.attempts && (Terminal(r.status) ==> r' == r)
  }

  /** Every record of `early` is still there, and each one may follow what it was. */
  ghost predicate Advances(early: map<Id, AlertRecord>, late: map<Id, AlertRecord>) {
    forall id :: id in early ==> id in late && Follows(early[id], late[id])
  }

  function AcceptedIn(boot: nat, id: Id): Entry -> int {
    (e: Entry) => if e.Called? && e.boot == boot && e.id == id && e.result.Accepted? then 1 else 0
  }

  function RejectedIn(boot: nat, id: Id): Entry -> int {
    (e: Entry) => if e.Called? && e.boot == boot && e.id == id && !e.result.Accepted? then 1 else 0
  }

  /** Publish calls for `id` in the process `boot`: accepted, and not. */
  function Successes(log: seq<Entry>, boot: nat, id: Id): int { Tally(log, AcceptedIn(boot, id)) }
  function Failures(log: seq<Entry>, boot: nat, id: Id): int { Tally(log, RejectedIn(boot, id)) }

  ghost predicate CallsOk(log: seq<Entry>, boot: nat, id: Id) {
    0 <= Successes(log, boot, id) <= 1 && 0 <= Failures(log, boot, id)
    && Successes(log, boot, id) + Failures(log, boot, id) <= MAX_ATTEMPTS
  }

  /** How this process's calls for `id` show in its record. */
  ghost predicate CallsShow(m: Memory, log: seq<Entry>, boot: nat, id: Id) {
    && (id !in m.records ==> Successes(log, boot, id) == 0 && Failures(log, boot, id) == 0)
    && (id in m.records ==> Failures(log, boot, id) <= m.records[id].attempts)
    && (id in m.records && !m.records[id].status.Sent? ==> Successes(log, boot, id) == 0)
  }

  ghost predicate LogSound(m: Memory, log: seq<Entry>, boot: nat) {
    && (forall e :: e in log ==> e.boot <= boot)
    && (forall b: nat, id :: b <= boot ==> CallsOk(log, b, id))
    && (forall id :: CallsShow(m, log, boot, id))
  }

  /** A transport accepted `id`, or a caller reported it delivered. */
  ghost predicate Vouched(log: seq<Entry>, id: Id) {
    exists e :: e in log && e.id == id && (e.Reported? || e.result.Accepted?)
  }

  ghost predicate SentVouched(records: map<Id, AlertRecord>, log: seq<Entry>, sentBefore: set<Id>) {
    forall id :: id in records && records[id].status.Sent? ==> id in sentBefore || Vouched(log, id)
  }

  ghost predicate Balanced(m: Memory, loaded: nat, loadedPending: int) {
    && |m.order| == loaded + m.counters.enqueued
    && PendingDepth(m) == loadedPending + m.counters.enqueued - m.counters.delivered - m.counters.failedPermanently
  }

  ghost predicate MemorySound(m: Memory, log: seq<Entry>, boot: nat, sentBefore: set<Id>, loaded: nat, loadedPending: int) {
    && WellFormed(m) && RecordsOk(m.records) && LogSound(m, log, boot)
    && SentVouched(m.records, log, sentBefore) && Balanced(m, loaded, loadedPending)
  }

  ghost predicate Inv(w: World, sentBefore: set<Id>) {
    && MemorySound(w.memory, w.log, w.boot, sentBefore, w.loaded, w.loadedPending)
    && RecordsOk(Loaded(w.file)) && SentVouched(Loaded(w.file), w.log, sentBefore)
    && (!w.blind ==> Advances(Loaded(w.file), w.memory.records))
  }

  // ------------------------------------------------------------- bookkeeping lemmas

  lemma AdvancesTransitive(a: map<Id, AlertRecord>, b: map<Id, AlertRecord>, c: map<Id, AlertRecord>)
    requires Advances(a, b) && Advances(b, c)
    ensures Advances(a, c)
  {
  }

  lemma CallCounts(log: seq<Entry>, e: Entry, boot: nat, id: Id)
    ensures Successes(log + [e], boot, id) == Successes(log, boot, id) + AcceptedIn(boot, id)(e)
    ensures Failures(log + [e], boot, id) == Failures(log, boot, id) + RejectedIn(boot, id)(e)
  {
  }

  lemma VouchedGrows(log: seq<Entry>, e: Entry, id: Id)
    ensures Vouched(log, id) ==> Vouched(log + [e], id)
    ensures e.id == id && (e.Reported? || e.result.Accepted?) ==> Vouched(log + [e], id)
  {
  }

  /** Replacing one record moves the depth by what that record owes. */
  lemma DepthMoves(m: Memory, m': Memory, id: Id)
    requires WellFormed(m) && id in m.records
    requires id in m'.records && m'.order == m.order && m'.records == m.records[id := m'.records[id]]
    ensures PendingDepth(m') - PendingDepth(m)
         == (if Terminal(m'.records[id].status) then 0 else 1) - (if Terminal(m.records[id].status) then 0 else 1)
  {
    TallyPoint(m.order, id, Owing(m), Owing(m'));
  }

  lemma DepthGrows(m: Memory, m': Memory, id: Id)
    requires WellFormed(m) && id !in m.records && id in m'.records && !Terminal(m'.records[id].status)
    requires m'.order == m.order + [id] && m'.records == m.records[id := m'.records[id]]
    ensures PendingDepth(m') == PendingDepth(m) + 1
  {
    TallyAppend(m.order, id, Owing(m'));
    TallyPoint(m.order, id, Owing(m), Owing(m'));
  }

  // --------------------------------------------------------------- one record's turn

  /** The record, counters and log after one publish call, or one attempt without a transport. */
  function CallOf(m: Memory, id: Id, now: int, answer: Answer, callable: bool, boot: nat): seq<Entry> {
    if callable && Attempts(m, id, now) then [Called(boot, id, answer.result)] else []
  }

  lemma AttemptRecord(m: Memory, id: Id, answer: Answer, callable: bool)
    requires WellFormed(m) && Awaiting(m, id) && RecordsOk(m.records)
    ensures
      var m' := AttemptMemory(m, id, answer, callable);
      var r, r' := m.records[id], m'.records[id];
      && WellFormed(m') && m'.order == m.order && m'.records == m.records[id := r'] && RecordsOk(m'.records)
      && Follows(r, r')
      && (callable && answer.result.Accepted? <==> r'.status.Sent?)
      && (callable && answer.result.Accepted? ==> r'.attempts == r.attempts)
      && (!(callable && answer.result.Accepted?) ==> r'.attempts == r.attempts + 1)
  {
  }

  lemma AttemptBalances(m: Memory, id: Id, answer: Answer, callable: bool, loaded: nat, loadedPending: int)
    requires WellFormed(m) && Awaiting(m, id) && RecordsOk(m.records) && Balanced(m, loaded, loadedPending)
    ensures Balanced(AttemptMemory(m, id, answer, callable), loaded, loadedPending)
  {
    var m' := AttemptMemory(m, id, answer, callable);
    AttemptRecord(m, id, answer, callable);
    DepthMoves(m, m', id);
  }

  lemma CallKeepsLog(m: Memory, m': Memory, log: seq<Entry>, boot: nat, id: Id, answer: Answer)
    requires LogSound(m, log, boot) && Awaiting(m, id) && RecordsOk(m.records)
    requires m' == AttemptMemory(m, id, answer, true)
    ensures LogSound(m', log + [Called(boot, id, answer.result)], boot)
  {
    hide Tally;
    var e := Called(boot, id, answer.result);
    assert CallsShow(m, log, boot, id) && CallsOk(log, boot, id);
    forall b: nat, x | b <= boot ensures CallsOk(log + [e], b, x) {
      CallCounts(log, e, b, x);
      assert CallsOk(log, b, x);
    }
    forall x ensures CallsShow(m', log + [e], boot, x) {
      CallCounts(log, e, boot, x);
      assert CallsShow(m, log, boot, x);
    }
  }

  lemma IdleKeepsLog(m: Memory, m': Memory, log: seq<Entry>, boot: nat, id: Id, answer: Answer)
    requires LogSound(m, log, boot) && Awaiting(m, id)
    requires m' == AttemptMemory(m, id, answer, false)
    ensures LogSound(m', log, boot)
  {
    forall x ensures CallsShow(m', log, boot, x) {
      assert CallsShow(m, log, boot, x);
    }
  }

  lemma VisitKeepsSound(m: Memory, log: seq<Entry>, boot: nat, sentBefore: set<Id>, loaded: nat, loadedPending: int,
                        id: Id, now: int, answer: Answer, callable: bool)
    requires MemorySound(m, log, boot, sentBefore, loaded, loadedPending)
    ensures
      var m' := Visited(m, id, now, answer, callable);
      MemorySound(m', log + CallOf(m, id, now, answer, callable, boot), boot, sentBefore, loaded, loadedPending)
      && Advances(m.records, m'.records)
  {
    hide LogSound, Balanced, AttemptMemory;
    var m' := Visited(m, id, now, answer, callable);
    if Attempts(m, id, now) {
      AttemptRecord(m, id, answer, callable);
      AttemptBalances(m, id, answer, callable, loaded, loadedPending);
      if callable {
        var e := Called(boot, id, answer.result);
        CallKeepsLog(m, m', log, boot, id, answer);
        forall x | x in m'.records && m'.records[x].status.Sent? ensures x in sentBefore || Vouched(log + [e], x) {
          VouchedGrows(log, e, x);
        }
      } else {
        IdleKeepsLog(m, m', log, boot, id, answer);
        assert log + [] == log;
      }
    } else {
      assert log + [] == log;
    }
  }

  lemma {:induction false} FlushKeepsSound(m: Memory, log: seq<Entry>, boot: nat, sentBefore: set<Id>, loaded: nat,
                                           loadedPending: int, ids: seq<Id>, now: int, answer: Id -> Answer, callable: bool)
    requires MemorySound(m, log, boot, sentBefore, loaded, loadedPending)
    ensures
      var m' := FlushMemory(m, ids, now, answer, callable);
      MemorySound(m', log + FlushCalls(m, ids, now, answer, callable, boot), boot, sentBefore, loaded, loadedPending)
      && Advances(m.records, m'.records)
  {
    hide MemorySound, Visited, Attempts;
    if ids == [] {
      assert log + [] == log;
    } else {
      var front, last := ids[..|ids| - 1], ids[|ids| - 1];
      var m1 := FlushMemory(m, front, now, answer, callable);
      var calls := FlushCalls(m, front, now, answer, callable, boot);
      FlushKeepsSound(m, log, boot, sentBefore, loaded, loadedPending, front, now, answer, callable);
      VisitKeepsSound(m1, log + calls, boot, sentBefore, loaded, loadedPending, last, now, answer(last), callable);
      assert log + FlushCalls(m, ids, now, answer, callable, boot)
          == (log + calls) + CallOf(m1, last, now, answer(last), callable, boot);
    }
  }

  // -------------------------------------------------------------------- other steps

  lemma EnqueueKeepsSound(m: Memory, log: seq<Entry>, boot: nat, sentBefore: set<Id>, loaded: nat, loadedPending: int,
                          id: Id, channel: string, payload: string, now: int)
    requires MemorySound(m, log, boot, sentBefore, loaded, loadedPending)
    ensures
      var m' := Enqueued(m, id, channel, payload, now);
      MemorySound(m', log, boot, sentBefore, loaded, loadedPending) && Advances(m.records, m'.records)
  {
    hide CallsOk, Vouched, Tally;
    var m' := Enqueued(m, id, channel, payload, now);
    if id !in m.records {
      DepthGrows(m, m', id);
    } else if !Terminal(m.records[id].status) {
      DepthMoves(m, m', id);
    } else {
      DepthMoves(m, m', id);
      assert m.records[id := m.records[id]] == m.records;
    }
    forall x ensures CallsShow(m', log, boot, x) {
      assert CallsShow(m, log, boot, x);
    }
  }

  lemma ReportKeepsSound(m: Memory, log: seq<Entry>, boot: nat, sentBefore: set<Id>, loaded: nat, loadedPending: int, id: Id)
    requires MemorySound(m, log, boot, sentBefore, loaded, loadedPending)
    ensures
      var m' := MarkedPublished(m, id);
      MemorySound(m', log + [Reported(boot, id)], boot, sentBefore, loaded, loadedPending) && Advances(m.records, m'.records)
  {
    hide Tally;
    var m' := MarkedPublished(m, id);
    var e := Reported(boot, id);
    if Awaiting(m, id) {
      DepthMoves(m, m', id);
    }
    forall b: nat, x | b <= boot ensures CallsOk(log + [e], b, x) {
      CallCounts(log, e, b, x);
      assert CallsOk(log, b, x);
    }
    forall x ensures CallsShow(m', log + [e], boot, x) {
      CallCounts(log, e, boot, x);
      assert CallsShow(m, log, boot, x);
    }
    forall x | x in m'.records && m'.records[x].status.Sent? ensures x in sentBefore || Vouched(log + [e], x) {
      VouchedGrows(log, e, x);
    }
  }

  /** A boot the log has not seen yet has made no calls. */
  lemma {:induction false} NoCallsYet(log: seq<Entry>, boot: nat, id: Id)
    requires forall e :: e in log ==> e.boot < boot
    ensures Successes(log, boot, id) == 0 && Failures(log, boot, id) == 0
  {
    if log != [] {
      NoCallsYet(log[..|log| - 1], boot, id);
    }
  }

  lemma RestartKeepsInv(w: World, m: Memory, log: seq<Entry>, readable: bool, order: seq<Id>, callable: bool, sentBefore: set<Id>)
    requires LogSound(m, log, w.boot)
    requires RecordsOk(Loaded(w.file)) && SentVouched(Loaded(w.file), log, sentBefore)
    requires Lists(order, ReadBack(w.file, readable))
    ensures Inv(Booted(w.file, readable, order, w.boot + 1, callable, log), sentBefore)
  {
    hide Vouched, Tally;
    var m' := Memory(ReadBack(w.file, readable), order, NO_COUNTS);
    var boot := w.boot + 1;
    forall id ensures CallsShow(m', log, boot, id) && CallsOk(log, boot, id) {
      NoCallsYet(log, boot, id);
    }
  }

  lemma VouchedExtends(records: map<Id, AlertRecord>, log: seq<Entry>, more: seq<Entry>, sentBefore: set<Id>)
    requires SentVouched(records, log, sentBefore)
    ensures SentVouched(records, log + more, sentBefore)
  {
    forall id | Vouched(log, id) ensures Vouched(log + more, id) {
      var e :| e in log && e.id == id && (e.Reported? || e.result.Accepted?);
      assert e in log + more;
    }
  }

  lemma SavedKeepsInv(w: World, m: Memory, more: seq<Entry>, sentBefore: set<Id>, saved: bool)
    requires Inv(w, sentBefore) && MemorySound(m, w.log + more, w.boot, sentBefore, w.loaded, w.loadedPending)
    requires Advances(w.memory.records, m.records)
    ensures Inv(Saved(w, m, saved).(log := w.log + more), sentBefore)
  {
    VouchedExtends(Loaded(w.file), w.log, more, sentBefore);
    hide LogSound, Vouched, Balanced;
    if !w.blind {
      AdvancesTransitive(Loaded(w.file), w.memory.records, m.records);
    }
  }

  /** Every step keeps the invariant. */
  lemma NextKeepsInv(w: World, s: Step, sentBefore: set<Id>)
    requires Inv(w, sentBefore)
    ensures Inv(Next(w, s), sentBefore)
  {
    hide MemorySound, SentVouched, Advances, Loaded, RecordsOk, Enqueued, MarkedPublished, FlushMemory, FlushCalls, Lists;
    match s {
      case Enqueue(id, channel, payload, now, saved) =>
        EnqueueKeepsSound(w.memory, w.log, w.boot, sentBefore, w.loaded, w.loadedPending, id, channel, payload, now);
        assert w.log + [] == w.log;
        SavedKeepsInv(w, Enqueued(w.memory, id, channel, payload, now), [], sentBefore, Saves(w, s));
      case Report(id, saved) =>
        ReportKeepsSound(w.memory, w.log, w.boot, sentBefore, w.loaded, w.loadedPending, id);
        SavedKeepsInv(w, MarkedPublished(w.memory, id), [Reported(w.boot, id)], sentBefore, Saves(w, s));
      case Flush(now, answer, saved) =>
        FlushKeepsSound(w.memory, w.log, w.boot, sentBefore, w.loaded, w.loadedPending, w.memory.order, now, answer, w.callable);
        SavedKeepsInv(w, FlushMemory(w.memory, w.memory.order, now, answer, w.callable),
                      FlushCalls(w.memory, w.memory.order, now, answer, w.callable, w.boot), sentBefore, saved);
      case CrashInFlush(now, answer, done, readable, order, callable) =>
        if Lists(order, ReadBack(w.file, readable)) && done <= |w.memory.order| {
          CrashKeepsInv(w, now, answer, done, readable, order, callable, sentBefore);
        }
      case Restart(readable, order, callable) =>
        if Lists(order, ReadBack(w.file, readable)) {
          RestartSound(w, readable, order, callable, sentBefore);
        }
    }
  }

  lemma RestartSound(w: World, readable: bool, order: seq<Id>, callable: bool, sentBefore: set<Id>)
    requires Inv(w, sentBefore) && Lists(order, ReadBack(w.file, readable))
    ensures Inv(Booted(w.file, readable, order, w.boot + 1, callable, w.log), sentBefore)
  {
    RestartKeepsInv(w, w.memory, w.log, readable, order, callable, sentBefore);
  }

  lemma CrashKeepsInv(w: World, now: int, answer: Id -> Answer, done: nat, readable: bool, order: seq<Id>, callable: bool,
                      sentBefore: set<Id>)
    requires Inv(w, sentBefore) && Lists(order, ReadBack(w.file, readable)) && done <= |w.memory.order|
    ensures
      var calls := FlushCalls(w.memory, w.memory.order[..done], now, answer, w.callable, w.boot);
      Inv(Booted(w.file, readable, order, w.boot + 1, callable, w.log + calls), sentBefore)
  {
    var ids := w.memory.order[..done];
    var calls := FlushCalls(w.memory, ids, now, answer, w.callable, w.boot);
    FlushKeepsSound(w.memory, w.log, w.boot, sentBefore, w.loaded, w.loadedPending, ids, now, answer, w.callable);
    var m := FlushMemory(w.memory, ids, now, answer, w.callable);
    VouchedExtends(Loaded(w.file), w.log, calls, sentBefore);
    hide LogSound, SentVouched, FlushMemory, FlushCalls, Booted, Lists;
    RestartKeepsInv(w, m, w.log + calls, readable, order, callable, sentBefore);
  }

  // ------------------------------------------------------------------- the theorems

  ghost predicate BootOf(w: World, readable: bool) {
    exists order :: Lists(order, ReadBack(w.file, readable)) && w == Booted(w.file, readable, order, w.boot, w.callable, [])
  }

  /** A first boot over a file whose records this code wrote, whether or not it can read them. */
  ghost predicate FirstBoot(w: World) { RecordsOk(Loaded(w.file)) && BootOf(w, !w.blind) }

  function SentIn(file: StateFile): set<Id> {
    set id | id in Loaded(file) && Loaded(file)[id].status.Sent?
  }

  lemma FirstBootSound(w: World)
    requires FirstBoot(w)
    ensures Inv(w, SentIn(w.file))
  {
  }

  lemma {:induction false} RunKeepsInv(w: World, steps: seq<Step>)
    requires FirstBoot(w)
    ensures Inv(After(w, steps), SentIn(w.file))
  {
    if steps == [] {
      FirstBootSound(w);
    } else {
      hide Inv, Next;
      RunKeepsInv(w, steps[..|steps| - 1]);
      NextKeepsInv(After(w, steps[..|steps| - 1]), steps[|steps| - 1], SentIn(w.file));
    }
  }

  /** Every interleaving: a record is SENT only because a transport accepted it or a caller reported
      it; in any one process an id is accepted at most once and called at most six times. */
  lemma SentMeansDelivered(w: World, steps: seq<Step>, id: Id, boot: nat)
    requires FirstBoot(w) && boot <= After(w, steps).boot
    ensures
      var v := After(w, steps);
      && (id in Loaded(v.file) && Loaded(v.file)[id].status.Sent? && id !in SentIn(w.file) ==> Vouched(v.log, id))
      && (id in v.memory.records && v.memory.records[id].status.Sent? && id !in SentIn(w.file) ==> Vouched(v.log, id))
      && 0 <= Successes(v.log, boot, id) <= 1
      && Successes(v.log, boot, id) + Failures(v.log, boot, id) <= MAX_ATTEMPTS
  {
    hide Tally, Vouched, Next;
    RunKeepsInv(w, steps);
    assert CallsOk(After(w, steps).log, boot, id);
  }

  /** Every interleaving: since the last load, the records are those loaded plus those enqueued, and
      the pending depth is what was loaded pending plus enqueued, less delivered and given up. */
  lemma CountersBalance(w: World, steps: seq<Step>)
    requires FirstBoot(w)
    ensures
      var v := After(w, steps);
      && |v.memory.order| == v.loaded + v.memory.counters.enqueued
      && PendingDepth(v.memory)
         == v.loadedPending + v.memory.counters.enqueued - v.memory.counters.delivered - v.memory.counters.failedPermanently
  {
    RunKeepsInv(w, steps);
  }

  // ------------------------------------------------------------------------ progress

  lemma {:induction false} Untouched(m: Memory, ids: seq<Id>, now: int, answer: Id -> Answer, callable: bool, id: Id)
    requires id !in ids
    ensures
      var m' := FlushMemory(m, ids, now, answer, callable);
      (id in m'.records <==> id in m.records) && (id in m.records ==> m'.records[id] == m.records[id])
  {
    if ids != [] {
      Untouched(m, ids[..|ids| - 1], now, answer, callable, id);
    }
  }

  /** Attempts still available to records that owe a delivery. */
  function Budget(m: Memory): Id -> int {
    (id: Id) => if Awaiting(m, id) then m.records[id].maxAttempts - m.records[id].attempts else 0
  }

  function Potential(m: Memory): int { Tally(m.order, Budget(m)) }

  lemma VisitSpends(m: Memory, id: Id, now: int, answer: Answer, callable: bool, out: Outcome)
    requires WellFormed(m) && RecordsOk(m.records)
    ensures
      var m' := Visited(m, id, now, answer, callable);
      var out' := VisitOutcome(m, id, now, answer, callable, out);
      && WellFormed(m') && RecordsOk(m'.records) && m'.order == m.order
      && Potential(m') <= Potential(m) - (out'.attempted - out.attempted)
      && out'.attempted - out.attempted == (out'.delivered - out.delivered) + (out'.retry - out.retry)
                                           + (out'.failed - out.failed) + (out'.uncertain - out.uncertain)
      && (out'.attempted - out.attempted) + (out'.notDue - out.notDue) == Owing(m)(id)
      && (out'.notDue > out.notDue <==> Awaiting(m, id) && !Due(m.records[id], now))
      && out'.notDue >= out.notDue
  {
    hide Tally;
    if Attempts(m, id, now) {
      var m' := AttemptMemory(m, id, answer, callable);
      AttemptRecord(m, id, answer, callable);
      TallyPoint(m.order, id, Budget(m), Budget(m'));
    }
  }

  /** What a flush reports about `ids`: the attempts split into their four ends, attempts and waits
      cover the records that owed a delivery, and every attempt spends some of the budget. */
  lemma {:induction false} FlushSpends(m: Memory, ids: seq<Id>, now: int, answer: Id -> Answer, callable: bool)
    requires WellFormed(m) && RecordsOk(m.records) && NoDuplicates(ids)
    ensures
      var m' := FlushMemory(m, ids, now, answer, callable);
      var out := FlushOutcome(m, ids, now, answer, callable);
      && WellFormed(m') && RecordsOk(m'.records) && m'.order == m.order
      && Potential(m') <= Potential(m) - out.attempted
      && out.attempted == out.delivered + out.retry + out.failed + out.uncertain
      && out.attempted + out.notDue == Tally(ids, Owing(m))
  {
    hide Visited, VisitOutcome, Potential;
    if ids != [] {
      var front, last := ids[..|ids| - 1], ids[|ids| - 1];
      assert ids == front + [last];
      assert last !in front;
      FlushSpends(m, front, now, answer, callable);
      Untouched(m, front, now, answer, callable, last);
      VisitSpends(FlushMemory(m, front, now, answer, callable), last, now, answer(last), callable,
                  FlushOutcome(m, front, now, answer, callable));
    }
  }

  /** One flush, whole: its report adds up, covers the pending depth, and spends the budget. */
  lemma FlushReport(m: Memory, now: int, answer: Id -> Answer, callable: bool)
    requires WellFormed(m) && RecordsOk(m.records)
    ensures
      var out := FlushOutcome(m, m.order, now, answer, callable);
      && out.attempted == out.delivered + out.retry + out.failed + out.uncertain
      && out.attempted + out.notDue == PendingDepth(m)
      && Potential(FlushMemory(m, m.order, now, answer, callable)) <= Potential(m) - out.attempted
  {
    FlushSpends(m, m.order, now, answer, callable);
  }

  datatype Round = Round(now: int, answer: Id -> Answer)

  function Rounds(m: Memory, rounds: seq<Round>, callable: bool): Memory {
    if rounds == [] then m
    else
      var before := Rounds(m, rounds[..|rounds| - 1], callable);
      var last := rounds[|rounds| - 1];
      FlushMemory(before, before.order, last.now, last.answer, callable)
  }

  /** Every flush comes late enough for everything then pending. */
  ghost predicate AllDue(m: Memory, rounds: seq<Round>, callable: bool) {
    forall k :: 0 <= k < |rounds| ==>
      var before := Rounds(m, rounds[..k], callable);
      forall id :: Awaiting(before, id) ==> Due(before.records[id], rounds[k].now)
  }

  lemma {:induction false} FlushAdvancesPending(m: Memory, ids: seq<Id>, now: int, answer: Id -> Answer, callable: bool, id: Id)
    requires WellFormed(m) && RecordsOk(m.records) && NoDuplicates(ids)
    ensures
      var m' := FlushMemory(m, ids, now, answer, callable);
      && WellFormed(m') && RecordsOk(m'.records) && m'.order == m.order
      && (Awaiting(m', id) ==>
            Awaiting(m, id)
            && (id in ids && Due(m.records[id], now) ==> m'.records[id].attempts > m.records[id].attempts))
  {
    hide AttemptMemory;
    if ids != [] {
      var front, last := ids[..|ids| - 1], ids[|ids| - 1];
      assert ids == front + [last];
      FlushAdvancesPending(m, front, now, answer, callable, id);
      var m1 := FlushMemory(m, front, now, answer, callable);
      if Attempts(m1, last, now) {
        AttemptRecord(m1, last, answer(last), callable);
      }
      if id !in front {
        Untouched(m, front, now, answer, callable, id);
      }
    }
  }

  lemma {:induction false} RoundsAdvancePending(m: Memory, rounds: seq<Round>, callable: bool, id: Id)
    requires WellFormed(m) && RecordsOk(m.records) && AllDue(m, rounds, callable)
    ensures
      var m' := Rounds(m, rounds, callable);
      WellFormed(m') && RecordsOk(m'.records) && (Awaiting(m', id) ==> m'.records[id].attempts >= |rounds|)
  {
    if rounds != [] {
      var front := rounds[..|rounds| - 1];
      var last := rounds[|rounds| - 1];
      assert AllDue(m, front, callable) by {
        forall k | 0 <= k < |front| ensures front[..k] == rounds[..k] {}
      }
      RoundsAdvancePending(m, front, callable, id);
      var before := Rounds(m, front, callable);
      FlushAdvancesPending(before, before.order, last.now, last.answer, callable, id);
      assert rounds[..|rounds| - 1] == front;
    }
  }

  /** Whatever the transport answers, six flushes that come late enough settle every record. */
  lemma SixDueFlushesSettleEverything(m: Memory, rounds: seq<Round>, callable: bool)
    requires WellFormed(m) && RecordsOk(m.records) && AllDue(m, rounds, callable) && |rounds| >= MAX_ATTEMPTS
    ensures forall id :: !Awaiting(Rounds(m, rounds, callable), id)
  {
    forall id ensures !Awaiting(Rounds(m, rounds, callable), id) {
      RoundsAdvancePending(m, rounds, callable, id);
    }
  }
}
