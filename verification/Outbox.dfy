/** The durable alert outbox (talonx_core/alert_outbox.py): what each operation does to the records
    in memory, the state file and the counters, and the mutable outbox that does it. */
module Outbox {
  import opened Sequences

  type Id = string

  datatype Status = Pending | Retry | Uncertain | Sent | Failed

  predicate Terminal(s: Status) { s.Sent? || s.Failed? }

  /** A stored `next_attempt_at`: missing, not a timestamp, or an instant. */
  datatype NextAttempt = Absent | Unparsable | At(time: int)

  datatype AlertRecord = AlertRecord(
    channel: string, payload: string, status: Status, attempts: nat, maxAttempts: int, nextAttempt: NextAttempt)

  const MAX_ATTEMPTS := 6

  datatype Counters = Counters(enqueued: nat, delivered: nat, retried: nat, failedPermanently: nat, duplicatesSuppressed: nat)

  const NO_COUNTS := Counters(0, 0, 0, 0, 0)

  /** The records in memory, in the order a flush visits them, and the counters since loading. */
  datatype Memory = Memory(records: map<Id, AlertRecord>, order: seq<Id>, counters: Counters)

  /** The state file: absent, or the records of the last completed save. Whether a boot manages to read
      it is up to that boot; a corrupt file is one that no boot can read until the next save. */
  datatype StateFile = Missing | Stored(records: map<Id, AlertRecord>)

  /** What one publish call does, and the instant the backoff then picks for the next attempt. */
  datatype Result = Accepted | Refused | Raised
  datatype Answer = Answer(result: Result, nextAt: int)

  /** Everything visible outside the outbox: publish calls, and callers reporting a delivery. */
  datatype Entry = Called(boot: nat, id: Id, result: Result) | Reported(boot: nat, id: Id)

  datatype Outcome = Outcome(attempted: nat, delivered: nat, retry: nat, failed: nat, uncertain: nat, notDue: nat)

  const NO_OUTCOME := Outcome(0, 0, 0, 0, 0, 0)

  // ----------------------------------------------------------------- operations

  function Loaded(file: StateFile): map<Id, AlertRecord> {
    if file.Stored? then file.records else map[]
  }

  /** What a boot starts from: a file that cannot be read counts as empty and is left as it is. */
  function ReadBack(file: StateFile, readable: bool): map<Id, AlertRecord> {
    if readable then Loaded(file) else map[]
  }

  function Enqueued(m: Memory, id: Id, channel: string, payload: string, now: int): Memory {
    if id !in m.records then
      m.(records := m.records[id := AlertRecord(channel, payload, Pending, 0, MAX_ATTEMPTS, At(now))],
         order := m.order + [id],
         counters := m.counters.(enqueued := m.counters.enqueued + 1))
    else if Terminal(m.records[id].status) then
      m.(counters := m.counters.(duplicatesSuppressed := m.counters.duplicatesSuppressed + 1))
    else m.(records := m.records[id := m.records[id].(payload := payload)])
  }

  predicate Awaiting(m: Memory, id: Id) { id in m.records && !Terminal(m.records[id].status) }

  function Delivered(m: Memory, id: Id): Memory
    requires id in m.records
  {
    m.(records := m.records[id := m.records[id].(status := Sent)],
       counters := m.counters.(delivered := m.counters.delivered + 1))
  }

  function MarkedPublished(m: Memory, id: Id): Memory {
    if Awaiting(m, id) then Delivered(m, id) else m
  }

  predicate Due(r: AlertRecord, now: int) { r.nextAttempt.At? ==> r.nextAttempt.time <= now }

  /** One failed attempt: FAILED once the attempts are used up, otherwise `next` until the next one. */
  function AfterFailure(r: AlertRecord, next: Status, nextAt: int): AlertRecord {
    if r.attempts + 1 >= r.maxAttempts then r.(attempts := r.attempts + 1, status := Failed)
    else r.(attempts := r.attempts + 1, status := next, nextAttempt := At(nextAt))
  }

  /** A failed attempt that raised moves the next attempt even when it was the last one. */
  function AfterRaise(r: AlertRecord, nextAt: int): AlertRecord {
    AfterFailure(r, Uncertain, nextAt).(nextAttempt := At(nextAt))
  }

  function CountFailure(c: Counters, r: AlertRecord): Counters {
    if r.status.Failed? then c.(failedPermanently := c.failedPermanently + 1)
    else if r.status.Retry? then c.(retried := c.retried + 1)
    else c
  }

  function TallyFailure(out: Outcome, r: AlertRecord): Outcome {
    if r.status.Failed? then out.(attempted := out.attempted + 1, failed := out.failed + 1)
    else if r.status.Retry? then out.(attempted := out.attempted + 1, retry := out.retry + 1)
    else out.(attempted := out.attempted + 1, uncertain := out.uncertain + 1)
  }

  predicate Attempts(m: Memory, id: Id, now: int) { Awaiting(m, id) && Due(m.records[id], now) }

  /** The record after an attempt that was not accepted; no publish callable counts as a refusal. */
  function Rescheduled(r: AlertRecord, answer: Answer, callable: bool): AlertRecord {
    if callable && answer.result.Raised? then AfterRaise(r, answer.nextAt) else AfterFailure(r, Retry, answer.nextAt)
  }

  function AttemptMemory(m: Memory, id: Id, answer: Answer, callable: bool): Memory
    requires id in m.records
  {
    if callable && answer.result.Accepted? then Delivered(m, id)
    else
      var r := Rescheduled(m.records[id], answer, callable);
      m.(records := m.records[id := r], counters := CountFailure(m.counters, r))
  }

  /** One record's turn in a flush. */
  function Visited(m: Memory, id: Id, now: int, answer: Answer, callable: bool): Memory {
    if Attempts(m, id, now) then AttemptMemory(m, id, answer, callable) else m
  }

  function VisitOutcome(m: Memory, id: Id, now: int, answer: Answer, callable: bool, out: Outcome): Outcome {
    if !Awaiting(m, id) then out
    else if !Due(m.records[id], now) then out.(notDue := out.notDue + 1)
    else if callable && answer.result.Accepted? then out.(attempted := out.attempted + 1, delivered := out.delivered + 1)
    else TallyFailure(out, Rescheduled(m.records[id], answer, callable))
  }

  /** What a flush over `ids` does to memory, to its own outcome and to the outside. */
  function FlushMemory(m: Memory, ids: seq<Id>, now: int, answer: Id -> Answer, callable: bool): Memory {
    if ids == [] then m
    else
      var last := ids[|ids| - 1];
      Visited(FlushMemory(m, ids[..|ids| - 1], now, answer, callable), last, now, answer(last), callable)
  }

  function FlushOutcome(m: Memory, ids: seq<Id>, now: int, answer: Id -> Answer, callable: bool): Outcome {
    if ids == [] then NO_OUTCOME
    else
      var front, last := ids[..|ids| - 1], ids[|ids| - 1];
      VisitOutcome(FlushMemory(m, front, now, answer, callable), last, now, answer(last), callable,
                   FlushOutcome(m, front, now, answer, callable))
  }

  function FlushCalls(m: Memory, ids: seq<Id>, now: int, answer: Id -> Answer, callable: bool, boot: nat): seq<Entry> {
    if ids == [] then []
    else
      var front, last := ids[..|ids| - 1], ids[|ids| - 1];
      FlushCalls(m, front, now, answer, callable, boot)
      + if callable && Attempts(FlushMemory(m, front, now, answer, callable), last, now)
        then [Called(boot, last, answer(last).result)] else []
  }

  // --------------------------------------------------------------- well-formedness

  ghost predicate WellFormed(m: Memory) {
    NoDuplicates(m.order) && forall id :: id in m.records <==> id in m.order
  }

  /** How many records still owe a delivery. */
  function Owing(m: Memory): Id -> int { (id: Id) => if Awaiting(m, id) then 1 else 0 }

  function PendingDepth(m: Memory): int { Tally(m.order, Owing(m)) }

  // ------------------------------------------------------------ the mutable outbox

  /** The file a boot reads and later boots find; a write may fail and then leaves it alone. */
  class Disk {
    var file: StateFile
    constructor (file: StateFile)
      ensures this.file == file
    {
      this.file := file;
    }

    method Replace(records: map<Id, AlertRecord>, writable: bool)
      modifies this
      ensures file == if writable then Stored(records) else old(file)
    {
      if writable {
        file := Stored(records);
      }
    }
  }

  /** Publish calls as the transport sees them: a prepared answer per record, and a log of calls. */
  class Transport {
    const boot: nat
    const answer: Id -> Answer
    ghost var calls: seq<Entry>

    constructor (boot: nat, answer: Id -> Answer)
      ensures this.boot == boot && this.answer == answer && calls == []
    {
      this.boot := boot;
      this.answer := answer;
      calls := [];
    }

    method Publish(id: Id) returns (r: Answer)
      modifies this
      ensures r == answer(id) && calls == old(calls) + [Called(boot, id, r.result)]
    {
      r := answer(id);
      calls := calls + [Called(boot, id, r.result)];
    }
  }

  class AlertOutbox {
    const disk: Disk
    var records: map<Id, AlertRecord>
    var order: seq<Id>
    var counters: Counters

    ghost function State(): Memory
      reads this
    {
      Memory(records, order, counters)
    }

    /** Loads what the file holds, if it can be read; `order` lists the ids in the order the file gives them. */
    constructor (disk: Disk, readable: bool, order: seq<Id>)
      requires NoDuplicates(order) && forall id :: id in order <==> id in ReadBack(disk.file, readable)
      ensures this.disk == disk && State() == Memory(ReadBack(disk.file, readable), order, NO_COUNTS) && WellFormed(State())
    {
      this.disk := disk;
      records := ReadBack(disk.file, readable);
      this.order := order;
      counters := NO_COUNTS;
    }

    method Enqueue(id: Id, channel: string, payload: string, now: int, writable: bool)
      requires WellFormed(State())
      modifies this, disk
      ensures State() == Enqueued(old(State()), id, channel, payload, now) && WellFormed(State())
      ensures disk.file == if writable && (id !in old(records) || !Terminal(old(records)[id].status)) then Stored(records)
                           else old(disk.file)
    {
      if id in records {
        if !Terminal(records[id].status) {
          records := records[id := records[id].(payload := payload)];
          disk.Replace(records, writable);
        } else {
          counters := counters.(duplicatesSuppressed := counters.duplicatesSuppressed + 1);
        }
        return;
      }
      records := records[id := AlertRecord(channel, payload, Pending, 0, MAX_ATTEMPTS, At(now))];
      order := order + [id];
      counters := counters.(enqueued := counters.enqueued + 1);
      disk.Replace(records, writable);
    }

    method MarkPublished(id: Id, writable: bool)
      requires WellFormed(State())
      modifies this, disk
      ensures State() == MarkedPublished(old(State()), id) && WellFormed(State())
      ensures disk.file == if writable && Awaiting(old(State()), id) then Stored(records) else old(disk.file)
    {
      if id !in records || Terminal(records[id].status) {
        return;
      }
      records := records[id := records[id].(status := Sent)];
      counters := counters.(delivered := counters.delivered + 1);
      disk.Replace(records, writable);
    }

    method ScheduleRetry(id: Id, nextAt: int)
      requires id in records
      modifies `records, `counters
      ensures
        var was := old(State());
        var r := AfterFailure(was.records[id], Retry, nextAt);
        State() == was.(records := was.records[id := r], counters := CountFailure(was.counters, r))
    {
      var rec := records[id];
      rec := rec.(attempts := rec.attempts + 1);
      if rec.attempts >= rec.maxAttempts {
        records := records[id := rec.(status := Failed)];
        counters := counters.(failedPermanently := counters.failedPermanently + 1);
        return;
      }
      records := records[id := rec.(status := Retry, nextAttempt := At(nextAt))];
      counters := counters.(retried := counters.retried + 1);
    }

    method ScheduleAfterRaise(id: Id, nextAt: int)
      requires id in records
      modifies `records, `counters
      ensures
        var was := old(State());
        var r := AfterRaise(was.records[id], nextAt);
        State() == was.(records := was.records[id := r], counters := CountFailure(was.counters, r))
    {
      var rec := records[id];
      rec := rec.(status := Uncertain, attempts := rec.attempts + 1, nextAttempt := At(nextAt));
      if rec.attempts >= rec.maxAttempts {
        rec := rec.(status := Failed);
        counters := counters.(failedPermanently := counters.failedPermanently + 1);
      }
      records := records[id := rec];
    }

    /** A record's attempt without a transport: always a failure. */
    method AttemptIdle(id: Id, answer: Answer, out: Outcome) returns (outcome: Outcome)
      requires id in records
      modifies `records, `counters
      ensures State() == AttemptMemory(old(State()), id, answer, false)
      ensures outcome == TallyFailure(out, Rescheduled(old(records)[id], answer, false))
    {
      outcome := out.(attempted := out.attempted + 1);
      ScheduleRetry(id, answer.nextAt);
      outcome := if records[id].status.Failed? then outcome.(failed := outcome.failed + 1)
                 else outcome.(retry := outcome.retry + 1);
    }

    method AttemptPublish(id: Id, transport: Transport, out: Outcome) returns (outcome: Outcome)
      requires id in records
      modifies `records, `counters, transport
      ensures
        var answer := transport.answer(id);
        && State() == AttemptMemory(old(State()), id, answer, true)
        && outcome == (if answer.result.Accepted? then out.(attempted := out.attempted + 1, delivered := out.delivered + 1)
                       else TallyFailure(out, Rescheduled(old(records)[id], answer, true)))
        && transport.calls == old(transport.calls) + [Called(transport.boot, id, answer.result)]
    {
      outcome := out.(attempted := out.attempted + 1);
      var r := transport.Publish(id);
      match r.result {
        case Raised =>
          ScheduleAfterRaise(id, r.nextAt);
          outcome := if records[id].status.Failed? then outcome.(failed := outcome.failed + 1)
                     else outcome.(uncertain := outcome.uncertain + 1);
        case Accepted =>
          records := records[id := records[id].(status := Sent)];
          counters := counters.(delivered := counters.delivered + 1);
          outcome := outcome.(delivered := outcome.delivered + 1);
        case Refused =>
          ScheduleRetry(id, r.nextAt);
          outcome := if records[id].status.Failed? then outcome.(failed := outcome.failed + 1)
                     else outcome.(retry := outcome.retry + 1);
      }
    }

    /** One record's turn: skipped when settled or not due, attempted otherwise. */
    method Visit(id: Id, now: int, transport: Transport?, idle: Id -> Answer, out: Outcome) returns (outcome: Outcome)
      requires id in records
      modifies `records, `counters, transport
      ensures records.Keys == old(records.Keys)
      ensures
        var answer := if transport == null then idle(id) else transport.answer(id);
        && State() == Visited(old(State()), id, now, answer, transport != null)
        && outcome == VisitOutcome(old(State()), id, now, answer, transport != null, out)
      ensures transport != null ==>
        transport.calls == old(transport.calls)
          + if Attempts(old(State()), id, now) then [Called(transport.boot, id, transport.answer(id).result)] else []
    {
      hide TallyFailure, Rescheduled;
      if Terminal(records[id].status) {
        return out;
      }
      if !Due(records[id], now) {
        return out.(notDue := out.notDue + 1);
      }
      if transport == null {
        outcome := AttemptIdle(id, idle(id), out);
      } else {
        outcome := AttemptPublish(id, transport, out);
      }
    }

    /** Re-attempts every due record, in order, and saves once at the end. Without a transport every
        attempt fails; `idle` then only supplies the backoff instants. */
    method Flush(now: int, transport: Transport?, idle: Id -> Answer, writable: bool) returns (outcome: Outcome)
      requires WellFormed(State())
      modifies this, disk, transport
      ensures
        var answer := if transport == null then idle else transport.answer;
        var was := old(State());
        && State() == FlushMemory(was, was.order, now, answer, transport != null)
        && outcome == FlushOutcome(was, was.order, now, answer, transport != null)
      ensures transport != null ==>
        transport.calls == old(transport.calls)
          + FlushCalls(old(State()), old(order), now, transport.answer, true, transport.boot)
      ensures disk.file == if writable then Stored(records) else old(disk.file)
    {
      hide Visited, VisitOutcome;
      outcome := NO_OUTCOME;
      ghost var answer := if transport == null then idle else transport.answer;
      ghost var was := State();
      var ids := order;
      for i := 0 to |ids|
        invariant State() == FlushMemory(was, ids[..i], now, answer, transport != null)
        invariant order == ids && records.Keys == was.records.Keys
        invariant outcome == FlushOutcome(was, ids[..i], now, answer, transport != null)
        invariant transport != null ==>
          transport.calls == old(transport.calls) + FlushCalls(was, ids[..i], now, answer, true, transport.boot)
        invariant disk.file == old(disk.file)
      {
        assert ids[..i + 1][..i] == ids[..i];
        assert ids[i] in ids;
        outcome := Visit(ids[i], now, transport, idle, outcome);
      }
      assert ids[..|ids|] == ids;
      disk.Replace(records, writable);
    }
  }
}
