/** What survives in the outbox's state file, and what a boot that cannot read the file does to it
    (talonx_core/alert_outbox.py). */
module OutboxDurability {
  import opened Sequences
  import opened Outbox
  import opened OutboxRuns

  // ----------------------------------------------------- what a stored record keeps

  /** The stored record of `id` and what the process knows of it: its own record continues the stored
      one, or it could not read the file and has not heard of `id`. */
  ghost predicate Tracked(w: World, id: Id) {
    && id in Loaded(w.file)
    && if id in w.memory.records then Follows(Loaded(w.file)[id], w.memory.records[id]) else w.blind
  }

  /** One step keeps `id` stored and tracked, forgets no attempt and leaves it alone once settled. */
  ghost predicate Carries(w: World, v: World, id: Id) {
    Tracked(w, id) && Tracked(v, id) && Follows(Loaded(w.file)[id], Loaded(v.file)[id])
  }

  /** A process that could not read the file and does not know `id` either saves, or is asked to enqueue
      `id` although it has been attempted or settled before. */
  ghost predicate Breach(w: World, s: Step, id: Id) {
    && w.blind && id !in w.memory.records
    && if s.Enqueue? && s.id == id then
         id in Loaded(w.file) && (Loaded(w.file)[id].attempts > 0 || Terminal(Loaded(w.file)[id].status))
       else Saves(w, s)
  }

  lemma FollowsTransitive(a: AlertRecord, b: AlertRecord, c: AlertRecord)
    requires Follows(a, b) && Follows(b, c)
    ensures Follows(a, c)
  {
  }

  lemma SavingStep(w: World, m: Memory, id: Id, saved: bool)
    requires Tracked(w, id) && Advances(w.memory.records, m.records)
    requires id !in w.memory.records ==> id !in m.records
    ensures Carries(w, Saved(w, m, saved), id) <==> !(w.blind && id !in w.memory.records && saved)
  {
    if id in w.memory.records {
      FollowsTransitive(Loaded(w.file)[id], w.memory.records[id], m.records[id]);
    }
  }

  lemma EnqueuedShape(m: Memory, id: Id, channel: string, payload: string, now: int)
    ensures
      var m' := Enqueued(m, id, channel, payload, now);
      && (forall x :: x != id ==> (x in m'.records <==> x in m.records))
      && (id !in m.records ==> id in m'.records && m'.records[id] == AlertRecord(channel, payload, Pending, 0, MAX_ATTEMPTS, At(now)))
  {
  }

  lemma EnqueueStep(w: World, id: Id, channel: string, payload: string, now: int, saved: bool, x: Id, sentBefore: set<Id>)
    requires Inv(w, sentBefore) && Tracked(w, x)
    ensures
      var s := Enqueue(id, channel, payload, now, saved);
      Carries(w, Next(w, s), x) <==> !Breach(w, s, x)
  {
    EnqueueKeepsSound(w.memory, w.log, w.boot, sentBefore, w.loaded, w.loadedPending, id, channel, payload, now);
    EnqueuedShape(w.memory, id, channel, payload, now);
    hide MemorySound, SentVouched, RecordsOk, Enqueued;
    var s := Enqueue(id, channel, payload, now, saved);
    if id != x || x in w.memory.records {
      SavingStep(w, Enqueued(w.memory, id, channel, payload, now), x, Saves(w, s));
      hide Tracked, Advances;
    } else {
      BlindEnqueueStep(w, Enqueued(w.memory, x, channel, payload, now), channel, payload, now, x, Saves(w, s));
    }
  }

  lemma BlindEnqueueStep(w: World, m: Memory, channel: string, payload: string, now: int, x: Id, saved: bool)
    requires Tracked(w, x) && x !in w.memory.records
    requires x in m.records && m.records[x] == AlertRecord(channel, payload, Pending, 0, MAX_ATTEMPTS, At(now))
    ensures Carries(w, Saved(w, m, saved), x)
       <==> Loaded(w.file)[x].attempts == 0 && !Terminal(Loaded(w.file)[x].status)
  {
  }

  lemma ReportStep(w: World, id: Id, saved: bool, x: Id, sentBefore: set<Id>)
    requires Inv(w, sentBefore) && Tracked(w, x)
    ensures Carries(w, Next(w, Report(id, saved)), x) <==> !Breach(w, Report(id, saved), x)
  {
    ReportKeepsSound(w.memory, w.log, w.boot, sentBefore, w.loaded, w.loadedPending, id);
    hide MemorySound, SentVouched, RecordsOk;
    SavingStep(w, MarkedPublished(w.memory, id), x, Saves(w, Report(id, saved)));
  }

  lemma FlushStep(w: World, now: int, answer: Id -> Answer, saved: bool, x: Id, sentBefore: set<Id>)
    requires Inv(w, sentBefore) && Tracked(w, x)
    ensures Carries(w, Next(w, Flush(now, answer, saved)), x) <==> !Breach(w, Flush(now, answer, saved), x)
  {
    FlushKeepsSound(w.memory, w.log, w.boot, sentBefore, w.loaded, w.loadedPending, w.memory.order, now, answer, w.callable);
    hide SentVouched, RecordsOk, LogSound, Balanced, FlushMemory, FlushCalls;
    if x !in w.memory.records {
      Untouched(w.memory, w.memory.order, now, answer, w.callable, x);
    }
    SavingStep(w, FlushMemory(w.memory, w.memory.order, now, answer, w.callable), x, saved);
  }

  lemma BootStep(w: World, readable: bool, order: seq<Id>, callable: bool, log: seq<Entry>, x: Id)
    requires Tracked(w, x)
    ensures Carries(w, Booted(w.file, readable, order, w.boot + 1, callable, log), x)
  {
  }

  /** A step carries a tracked record exactly when it is no breach. */
  lemma CarriesExactly(w: World, s: Step, x: Id, sentBefore: set<Id>)
    requires Inv(w, sentBefore) && Tracked(w, x)
    ensures Carries(w, Next(w, s), x) <==> !Breach(w, s, x)
  {
    match s {
      case Enqueue(id, channel, payload, now, saved) => EnqueueStep(w, id, channel, payload, now, saved, x, sentBefore);
      case Report(id, saved) => ReportStep(w, id, saved, x, sentBefore);
      case Flush(now, answer, saved) => FlushStep(w, now, answer, saved, x, sentBefore);
      case CrashInFlush(now, answer, done, readable, order, callable) =>
        hide Inv, Tracked, Booted, Lists;
        if done <= |w.memory.order| {
          BootStep(w, readable, order, callable,
                   w.log + FlushCalls(w.memory, w.memory.order[..done], now, answer, w.callable, w.boot), x);
        }
        CarriesItself(w, x);
      case Restart(readable, order, callable) =>
        hide Inv, Tracked, Booted, Lists;
        BootStep(w, readable, order, callable, w.log, x);
        CarriesItself(w, x);
    }
  }

  lemma CarriesItself(w: World, x: Id)
    requires Tracked(w, x)
    ensures Carries(w, w, x)
  {
  }

  // ------------------------------------------------------------------- over whole runs

  /** The world before the `i`-th step of a run. */
  ghost function Point(w: World, steps: seq<Step>, i: nat): World
    requires i <= |steps|
  {
    After(w, steps[..i])
  }

  ghost predicate StepCarries(w: World, steps: seq<Step>, i: nat, id: Id)
    requires i < |steps|
  {
    Carries(Point(w, steps, i), Point(w, steps, i + 1), id)
  }

  /** Every step from the `k`-th on carries `id`. */
  ghost predicate CarriedFrom(w: World, steps: seq<Step>, k: nat, id: Id) {
    forall i :: k <= i < |steps| ==> StepCarries(w, steps, i, id)
  }

  ghost predicate BreachAt(w: World, steps: seq<Step>, i: nat, id: Id)
    requires i < |steps|
  {
    Breach(Point(w, steps, i), steps[i], id)
  }

  ghost predicate NoBreachFrom(w: World, steps: seq<Step>, k: nat, id: Id) {
    forall i :: k <= i < |steps| ==> !BreachAt(w, steps, i, id)
  }

  lemma FrontPoints(w: World, steps: seq<Step>)
    requires steps != []
    ensures
      var front := steps[..|steps| - 1];
      && Point(w, steps, |front|) == After(w, front) && Point(w, steps, |steps|) == After(w, steps)
      && forall i :: 0 <= i <= |front| ==> Point(w, steps, i) == Point(w, front, i)
  {
    hide After;
    var front := steps[..|steps| - 1];
    assert steps[..|steps|] == steps;
    forall i | 0 <= i <= |front| ensures Point(w, steps, i) == Point(w, front, i) {
      assert steps[..i] == front[..i];
    }
  }

  lemma CarriedSnoc(w: World, steps: seq<Step>, k: nat, id: Id)
    requires k < |steps|
    ensures
      var front := steps[..|steps| - 1];
      CarriedFrom(w, steps, k, id) <==> CarriedFrom(w, front, k, id) && Carries(After(w, front), After(w, steps), id)
  {
    FrontPoints(w, steps);
    hide Point, After, Carries;
    var front := steps[..|steps| - 1];
    forall i | 0 <= i < |front| ensures StepCarries(w, steps, i, id) == StepCarries(w, front, i, id) {
      assert Point(w, steps, i + 1) == Point(w, front, i + 1);
    }
    assert StepCarries(w, steps, |front|, id) == Carries(After(w, front), After(w, steps), id);
    hide StepCarries;
    assert CarriedFrom(w, steps, k, id) ==> forall i :: k <= i < |front| ==> StepCarries(w, steps, i, id);
  }

  lemma NoBreachSnoc(w: World, steps: seq<Step>, k: nat, id: Id)
    requires k < |steps|
    ensures
      var front := steps[..|steps| - 1];
      NoBreachFrom(w, steps, k, id) <==> NoBreachFrom(w, front, k, id) && !Breach(After(w, front), steps[|steps| - 1], id)
  {
    FrontPoints(w, steps);
    hide Point, After, Breach;
    var front := steps[..|steps| - 1];
    forall i | 0 <= i < |front| ensures BreachAt(w, steps, i, id) == BreachAt(w, front, i, id) {
      assert steps[i] == front[i];
    }
    assert BreachAt(w, steps, |front|, id) == Breach(After(w, front), steps[|steps| - 1], id);
    hide BreachAt;
    assert NoBreachFrom(w, steps, k, id) ==> forall i :: k <= i < |front| ==> !BreachAt(w, steps, i, id);
  }

  /** Durability, exactly: over any run with crashes, restarts and unreadable files, every step carries a
      tracked record, in the file and in what the process knows of it, if and only if no process that
      failed to read the file and does not know the record saves, or enqueues it anew after it was
      attempted or settled. Then nothing of it is lost from the file from the first point to the last. */
  lemma {:induction false} PersistedIsDurableExactly(w: World, steps: seq<Step>, k: nat, id: Id)
    requires FirstBoot(w) && k <= |steps| && Tracked(Point(w, steps, k), id)
    ensures CarriedFrom(w, steps, k, id) <==> NoBreachFrom(w, steps, k, id)
    ensures
      var early, late := Point(w, steps, k), After(w, steps);
      NoBreachFrom(w, steps, k, id) ==> Tracked(late, id) && Follows(Loaded(early.file)[id], Loaded(late.file)[id])
    decreases |steps|
  {
    if k == |steps| {
      assert steps[..k] == steps;
    } else {
      var front, last := steps[..|steps| - 1], steps[|steps| - 1];
      FrontPoints(w, steps);
      PersistedIsDurableExactly(w, front, k, id);
      CarriedSnoc(w, steps, k, id);
      NoBreachSnoc(w, steps, k, id);
      var v := After(w, front);
      RunKeepsInv(w, front);
      assert After(w, steps) == Next(v, last);
      hide Inv, Next, Breach, CarriedFrom, NoBreachFrom, After, FirstBoot;
      if NoBreachFrom(w, front, k, id) {
        CarriesExactly(v, last, id, SentIn(w.file));
        if Carries(v, Next(v, last), id) {
          FollowsTransitive(Loaded(Point(w, steps, k).file)[id], Loaded(v.file)[id], Loaded(After(w, steps).file)[id]);
        }
      }
    }
  }

  /** The file alone: the record is still there, no attempt forgotten, unchanged if it was settled. */
  ghost predicate FileKept(w: World, v: World, id: Id) {
    id in Loaded(w.file) && id in Loaded(v.file) && Follows(Loaded(w.file)[id], Loaded(v.file)[id])
  }

  /** Through any further run without a breach the file keeps the record. */
  ghost predicate FileSafe(w: World, v: World, id: Id) {
    forall ts :: NoBreachFrom(v, ts, 0, id) ==> FileKept(w, After(v, ts), id)
  }

  lemma NoBreachFront(v: World, ts: seq<Step>, id: Id)
    requires ts != [] && NoBreachFrom(v, ts, 0, id)
    ensures
      var front := ts[..|ts| - 1];
      NoBreachFrom(v, front, 0, id) && !Breach(After(v, front), ts[|ts| - 1], id) && After(v, ts) == Next(After(v, front), ts[|ts| - 1])
  {
    NoBreachSnoc(v, ts, 0, id);
    hide Breach, Next;
  }

  lemma {:induction false} BreachFreeKeeps(v: World, ts: seq<Step>, id: Id, sentBefore: set<Id>)
    requires Inv(v, sentBefore) && Tracked(v, id) && NoBreachFrom(v, ts, 0, id)
    ensures
      var late := After(v, ts);
      Inv(late, sentBefore) && Tracked(late, id) && Follows(Loaded(v.file)[id], Loaded(late.file)[id])
  {
    if ts == [] {
      CarriesItself(v, id);
    } else {
      var front, last := ts[..|ts| - 1], ts[|ts| - 1];
      NoBreachFront(v, ts, id);
      hide Next, Inv, Breach, NoBreachFrom, After;
      BreachFreeKeeps(v, front, id, sentBefore);
      var mid := After(v, front);
      CarriesExactly(mid, last, id, sentBefore);
      NextKeepsInv(mid, last, sentBefore);
      FollowsTransitive(Loaded(v.file)[id], Loaded(mid.file)[id], Loaded(After(v, ts).file)[id]);
    }
  }

  /** For the file alone a breach is exactly what endangers a tracked record: without one the file keeps
      it, through any further run without one; with one the file has lost it already, or does in some
      further run without any. */
  lemma FileIsSafeAfterStep(w: World, s: Step, id: Id, sentBefore: set<Id>)
    requires Inv(w, sentBefore) && Tracked(w, id)
    ensures !Breach(w, s, id) <==> FileSafe(w, Next(w, s), id)
  {
    hide *;
    if Breach(w, s, id) {
      BreachIsUnsafe(w, s, id);
    } else {
      NoBreachIsSafe(w, s, id, sentBefore);
    }
  }

  lemma BreachIsUnsafe(w: World, s: Step, id: Id)
    requires Tracked(w, id) && Breach(w, s, id)
    ensures !FileSafe(w, Next(w, s), id)
  {
    var v := Next(w, s);
    BreachReachesFile(w, s, id);
    BreachFreeShort(v, Enqueue(id, "c", "p", 0, true), id);
    hide FileKept, Breach, Next, NoBreachFrom, After, Tracked, Saves;
  }

  lemma NoBreachIsSafe(w: World, s: Step, id: Id, sentBefore: set<Id>)
    requires Inv(w, sentBefore) && Tracked(w, id) && !Breach(w, s, id)
    ensures FileSafe(w, Next(w, s), id)
  {
    var v := Next(w, s);
    CarriesExactly(w, s, id, sentBefore);
    NextKeepsInv(w, s, sentBefore);
    hide Next, Inv, Breach, NoBreachFrom, After, Follows;
    forall ts | NoBreachFrom(v, ts, 0, id) ensures FileKept(w, After(v, ts), id) {
      BreachFreeKeeps(v, ts, id, sentBefore);
      FollowsTransitive(Loaded(w.file)[id], Loaded(v.file)[id], Loaded(After(v, ts).file)[id]);
    }
  }

  lemma BreachFreeShort(v: World, t: Step, id: Id)
    ensures NoBreachFrom(v, [], 0, id) && After(v, []) == v && After(v, [t]) == Next(v, t)
    ensures !Breach(v, t, id) ==> NoBreachFrom(v, [t], 0, id)
  {
    hide Breach, Next;
    assert [t][..0] == [];
    assert Point(v, [t], 0) == v;
  }

  ghost predicate StepSafe(w: World, steps: seq<Step>, i: nat, id: Id)
    requires i < |steps|
  {
    FileSafe(Point(w, steps, i), Point(w, steps, i + 1), id)
  }

  ghost predicate FileSafeFrom(w: World, steps: seq<Step>, k: nat, id: Id) {
    forall i :: k <= i < |steps| ==> StepSafe(w, steps, i, id)
  }

  lemma FileSafeSnoc(w: World, steps: seq<Step>, k: nat, id: Id)
    requires k < |steps|
    ensures
      var front := steps[..|steps| - 1];
      FileSafeFrom(w, steps, k, id) <==> FileSafeFrom(w, front, k, id) && FileSafe(After(w, front), After(w, steps), id)
  {
    FrontPoints(w, steps);
    hide Point, After, FileSafe;
    var front := steps[..|steps| - 1];
    forall i | 0 <= i < |front| ensures StepSafe(w, steps, i, id) == StepSafe(w, front, i, id) {
      assert Point(w, steps, i + 1) == Point(w, front, i + 1);
    }
    assert StepSafe(w, steps, |front|, id) == FileSafe(After(w, front), After(w, steps), id);
    hide StepSafe;
    assert FileSafeFrom(w, steps, k, id) ==> forall i :: k <= i < |front| ==> StepSafe(w, steps, i, id);
  }

  /** The same over any run: at no step does the file lose a tracked record, or leave it to be lost in some
      further run without a breach, if and only if no step is a breach. */
  lemma {:induction false} FileIsSafeExactly(w: World, steps: seq<Step>, k: nat, id: Id)
    requires FirstBoot(w) && k <= |steps| && Tracked(Point(w, steps, k), id)
    ensures FileSafeFrom(w, steps, k, id) <==> NoBreachFrom(w, steps, k, id)
    decreases |steps|
  {
    if k < |steps| {
      var front, last := steps[..|steps| - 1], steps[|steps| - 1];
      FrontPoints(w, steps);
      FileIsSafeExactly(w, front, k, id);
      FileSafeSnoc(w, steps, k, id);
      NoBreachSnoc(w, steps, k, id);
      RunKeepsInv(w, front);
      assert After(w, steps) == Next(After(w, front), last);
      hide Inv, Next, Breach, FileSafeFrom, NoBreachFrom, After, FirstBoot, FileSafe;
      if NoBreachFrom(w, front, k, id) {
        PersistedIsDurableExactly(w, front, k, id);
        FileIsSafeAfterStep(After(w, front), last, id, SentIn(w.file));
      }
    }
  }

  lemma BreachReachesFile(w: World, s: Step, id: Id)
    requires Tracked(w, id) && Breach(w, s, id)
    ensures
      var v := Next(w, s);
      var t := Enqueue(id, "c", "p", 0, true);
      if Saves(w, s) then !FileKept(w, v, id) else !Breach(v, t, id) && !FileKept(w, Next(v, t), id)
  {
    if s.Enqueue? && s.id == id {
      EnqueuedShape(w.memory, id, s.channel, s.payload, s.now);
    } else if s.Flush? {
      UnknownInFlush(w, s, id);
    }
  }

  lemma UnknownInFlush(w: World, s: Step, id: Id)
    requires s.Flush? && id !in w.memory.records
    ensures id !in FlushMemory(w.memory, w.memory.order, s.now, s.answer, w.callable).records
  {
    FlushKeepsKeys(w.memory, w.memory.order, s.now, s.answer, w.callable);
  }

  lemma {:induction false} FlushKeepsKeys(m: Memory, ids: seq<Id>, now: int, answer: Id -> Answer, callable: bool)
    ensures FlushMemory(m, ids, now, answer, callable).records.Keys == m.records.Keys
  {
    if ids != [] {
      FlushKeepsKeys(m, ids[..|ids| - 1], now, answer, callable);
    }
  }

  /** A process that read its file, or has saved since, tracks every stored record. */
  lemma SightedTracksAll(w: World, sentBefore: set<Id>, id: Id)
    requires Inv(w, sentBefore) && !w.blind && id in Loaded(w.file)
    ensures Tracked(w, id)
  {
  }

  /** As long as no process is blind, whatever else fails, every record stays in the file, no attempt is
      forgotten and settled records never change. */
  lemma SightedRunsLoseNothing(w: World, steps: seq<Step>, k: nat)
    requires FirstBoot(w) && k <= |steps| && forall i :: k <= i <= |steps| ==> !Point(w, steps, i).blind
    ensures Advances(Loaded(Point(w, steps, k).file), Loaded(After(w, steps).file))
  {
    var early := Point(w, steps, k);
    RunKeepsInv(w, steps[..k]);
    assert !early.blind;
    hide Inv, After, FirstBoot, Point;
    forall id | id in Loaded(early.file)
      ensures id in Loaded(After(w, steps).file) && Follows(Loaded(early.file)[id], Loaded(After(w, steps).file)[id])
    {
      SightedTracksAll(early, SentIn(w.file), id);
      assert NoBreachFrom(w, steps, k, id);
      PersistedIsDurableExactly(w, steps, k, id);
    }
  }

  // ------------------------------------------------------- settled means never called

  function CallsFor(id: Id): Entry -> int { (e: Entry) => if e.Called? && e.id == id then 1 else 0 }

  /** A record a flush does not attempt gets no call. */
  lemma {:induction false} NotAttemptedNotCalled(m: Memory, ids: seq<Id>, now: int, answer: Id -> Answer, callable: bool, boot: nat, id: Id)
    requires !Awaiting(m, id)
    ensures
      var m' := FlushMemory(m, ids, now, answer, callable);
      !Awaiting(m', id) && Tally(FlushCalls(m, ids, now, answer, callable, boot), CallsFor(id)) == 0
  {
    if ids != [] {
      var front, last := ids[..|ids| - 1], ids[|ids| - 1];
      NotAttemptedNotCalled(m, front, now, answer, callable, boot, id);
      var m1 := FlushMemory(m, front, now, answer, callable);
      var calls := FlushCalls(m, front, now, answer, callable, boot);
      if callable && Attempts(m1, last, now) {
        TallyAppend(calls, Called(boot, last, answer(last).result), CallsFor(id));
      } else {
        assert calls + [] == calls;
      }
    }
  }

  lemma SettledStepMakesNoCall(w: World, s: Step, id: Id)
    requires Tracked(w, id) && Terminal(Loaded(w.file)[id].status)
    ensures Tally(Next(w, s).log, CallsFor(id)) == Tally(w.log, CallsFor(id))
  {
    assert !Awaiting(w.memory, id);
    hide Tracked, Enqueued, MarkedPublished, FlushMemory, FlushCalls, Lists, Booted, Saves;
    match s {
      case Enqueue(_, _, _, _, _) =>
      case Report(x, saved) => TallyAppend(w.log, Reported(w.boot, x), CallsFor(id));
      case Flush(now, answer, saved) =>
        NotAttemptedNotCalled(w.memory, w.memory.order, now, answer, w.callable, w.boot, id);
        TallyConcat(w.log, FlushCalls(w.memory, w.memory.order, now, answer, w.callable, w.boot), CallsFor(id));
      case CrashInFlush(now, answer, done, readable, order, callable) =>
        if done <= |w.memory.order| {
          NotAttemptedNotCalled(w.memory, w.memory.order[..done], now, answer, w.callable, w.boot, id);
          TallyConcat(w.log, FlushCalls(w.memory, w.memory.order[..done], now, answer, w.callable, w.boot), CallsFor(id));
        }
        BootedLog(w, s);
      case Restart(_, _, _) => BootedLog(w, s);
    }
  }

  lemma BootedLog(w: World, s: Step)
    ensures s.Restart? ==> Next(w, s).log == w.log
    ensures s.CrashInFlush? ==>
      Next(w, s).log == w.log || (s.done <= |w.memory.order| && Next(w, s).log
        == w.log + FlushCalls(w.memory, w.memory.order[..s.done], s.flushNow, s.flushAnswer, w.callable, w.boot))
  {
  }

  /** Once a tracked record is SENT or FAILED in the file it stays exactly as it is, and no process ever
      publishes it again, as long as there is no breach. */
  lemma {:induction false} SettledOnDiskIsFinal(w: World, steps: seq<Step>, k: nat, id: Id)
    requires FirstBoot(w) && k <= |steps| && Tracked(Point(w, steps, k), id)
    requires Terminal(Loaded(Point(w, steps, k).file)[id].status) && NoBreachFrom(w, steps, k, id)
    ensures
      var early, late := Point(w, steps, k), After(w, steps);
      && id in Loaded(late.file) && Loaded(late.file)[id] == Loaded(early.file)[id]
      && Tally(late.log, CallsFor(id)) == Tally(early.log, CallsFor(id))
    decreases |steps|
  {
    PersistedIsDurableExactly(w, steps, k, id);
    if k == |steps| {
      assert steps[..k] == steps;
    } else {
      var front := steps[..|steps| - 1];
      FrontPoints(w, steps);
      NoBreachSnoc(w, steps, k, id);
      SettledOnDiskIsFinal(w, front, k, id);
      PersistedIsDurableExactly(w, front, k, id);
      assert After(w, steps) == Next(After(w, front), steps[|steps| - 1]);
      hide After, Next, Tally, Tracked, NoBreachFrom, FirstBoot;
      SettledStepMakesNoCall(After(w, front), steps[|steps| - 1], id);
    }
  }

  // ---------------------------------------------------------------- what can go wrong

  lemma {:induction false} CallsOfOneRecord(m: Memory, ids: seq<Id>, now: int, answer: Id -> Answer, boot: nat, id: Id)
    requires NoDuplicates(ids) && Attempts(m, id, now)
    ensures
      var calls := FlushCalls(m, ids, now, answer, true, boot);
      && Tally(calls, CallsFor(id)) == (if id in ids then 1 else 0)
      && (id in ids ==> Called(boot, id, answer(id).result) in calls)
  {
    if ids != [] {
      var front, last := ids[..|ids| - 1], ids[|ids| - 1];
      assert ids == front + [last];
      CallsOfOneRecord(m, front, now, answer, boot, id);
      var calls := FlushCalls(m, front, now, answer, true, boot);
      if last == id {
        Untouched(m, front, now, answer, true, id);
      }
      if Attempts(FlushMemory(m, front, now, answer, true), last, now) {
        TallyAppend(calls, Called(boot, last, answer(last).result), CallsFor(id));
      } else {
        assert calls + [] == calls;
      }
    }
  }

  /** Whatever the file says, an id the process does not know is published when it is enqueued and flushed. */
  lemma UnknownIsPublished(w: World, id: Id, channel: string, payload: string, now: int, saved: bool,
                           later: int, answer: Id -> Answer, saved': bool, sentBefore: set<Id>)
    requires Inv(w, sentBefore) && w.callable && id !in w.memory.records && now <= later
    ensures
      var v := Next(Next(w, Enqueue(id, channel, payload, now, saved)), Flush(later, answer, saved'));
      && Tally(v.log, CallsFor(id)) == Tally(w.log, CallsFor(id)) + 1
      && Called(w.boot, id, answer(id).result) in v.log
  {
    var m := Enqueued(w.memory, id, channel, payload, now);
    EnqueuedIsDue(w, id, channel, payload, now, later, sentBefore);
    EnqueueThenFlush(w, id, channel, payload, now, saved, later, answer, saved');
    hide Inv, Next, Enqueued, Attempts, FlushCalls, FlushMemory, Tally;
    CallsOfOneRecord(m, m.order, later, answer, w.boot, id);
    TallyConcat(w.log, FlushCalls(m, m.order, later, answer, true, w.boot), CallsFor(id));
  }

  lemma EnqueueThenFlush(w: World, id: Id, channel: string, payload: string, now: int, saved: bool, later: int,
                         answer: Id -> Answer, saved': bool)
    ensures
      var m := Enqueued(w.memory, id, channel, payload, now);
      Next(Next(w, Enqueue(id, channel, payload, now, saved)), Flush(later, answer, saved')).log
      == w.log + FlushCalls(m, m.order, later, answer, w.callable, w.boot)
  {
    hide Enqueued, FlushCalls, FlushMemory;
  }

  lemma EnqueuedIsDue(w: World, id: Id, channel: string, payload: string, now: int, later: int, sentBefore: set<Id>)
    requires Inv(w, sentBefore) && id !in w.memory.records && now <= later
    ensures
      var m := Enqueued(w.memory, id, channel, payload, now);
      Attempts(m, id, later) && id in m.order && NoDuplicates(m.order)
  {
    hide RecordsOk, LogSound, SentVouched, Balanced;
  }

  /** So every breach costs: a settled id that a blind process enqueues, or whose record it overwrites
      before the id is enqueued again, is published once more. */
  lemma BreachPublishesAgain(w: World, s: Step, id: Id, channel: string, payload: string, now: int, saved: bool,
                             later: int, answer: Id -> Answer, saved': bool, sentBefore: set<Id>)
    requires Inv(w, sentBefore) && w.callable && Breach(w, s, id) && now <= later
    requires s.Enqueue? && s.id == id ==> s.now <= later
    ensures
      var v1 := Next(w, s);
      var v2 := if s.Enqueue? && s.id == id then v1 else Next(v1, Enqueue(id, channel, payload, now, saved));
      Tally(Next(v2, Flush(later, answer, saved')).log, CallsFor(id)) == Tally(w.log, CallsFor(id)) + 1
  {
    if s.Enqueue? && s.id == id {
      UnknownIsPublished(w, id, s.channel, s.payload, s.now, s.saved, later, answer, saved', sentBefore);
    } else {
      NextKeepsInv(w, s, sentBefore);
      UnknownStaysUnknown(w, s, id, sentBefore);
      UnknownIsPublished(Next(w, s), id, channel, payload, now, saved, later, answer, saved', sentBefore);
    }
  }

  lemma UnknownStaysUnknown(w: World, s: Step, id: Id, sentBefore: set<Id>)
    requires Inv(w, sentBefore) && id !in w.memory.records && Saves(w, s) && !(s.Enqueue? && s.id == id)
    ensures
      var v := Next(w, s);
      id !in v.memory.records && v.callable == w.callable && Tally(v.log, CallsFor(id)) == Tally(w.log, CallsFor(id))
  {
    hide RecordsOk, LogSound, SentVouched, Balanced, FlushCalls, FlushMemory, Tally;
    match s {
      case Enqueue(_, _, _, _, _) =>
      case Report(x, _) => TallyAppend(w.log, Reported(w.boot, x), CallsFor(id));
      case Flush(now, answer, _) =>
        Untouched(w.memory, w.memory.order, now, answer, w.callable, id);
        NotAttemptedNotCalled(w.memory, w.memory.order, now, answer, w.callable, w.boot, id);
        TallyConcat(w.log, FlushCalls(w.memory, w.memory.order, now, answer, w.callable, w.boot), CallsFor(id));
    }
  }

  lemma {:induction false} AcceptedIsSent(m: Memory, ids: seq<Id>, now: int, answer: Id -> Answer, id: Id)
    requires NoDuplicates(ids) && id in ids && Attempts(m, id, now) && answer(id).result.Accepted?
    ensures
      var m' := FlushMemory(m, ids, now, answer, true);
      id in m'.records && m'.records[id].status.Sent?
  {
    var front, last := ids[..|ids| - 1], ids[|ids| - 1];
    assert ids == front + [last];
    if last == id {
      Untouched(m, front, now, answer, true, id);
    } else {
      AcceptedIsSent(m, front, now, answer, id);
    }
  }

  /** An accepted record awaits delivery again after the next boot exactly when that boot reads the
      file and the file still shows the record unsettled: the save after the flush failed, or the
      process died in the flush after the call. The next due flush then publishes it a second time. */
  lemma AwaitsAgainExactly(w: World, now: int, answer: Id -> Answer, saved: bool, done: nat, readable: bool, order: seq<Id>,
                           callable: bool, id: Id, sentBefore: set<Id>)
    requires Inv(w, sentBefore) && w.callable && Attempts(w.memory, id, now) && answer(id).result.Accepted?
    ensures
      var flushed := Next(w, Flush(now, answer, saved));
      var v := Next(flushed, Restart(readable, order, callable));
      Lists(order, ReadBack(flushed.file, readable)) ==>
        && Called(w.boot, id, Accepted) in v.log
        && (Awaiting(v.memory, id) <==> readable && !saved && id in Loaded(w.file) && !Terminal(Loaded(w.file)[id].status))
    ensures
      var v := Next(w, CrashInFlush(now, answer, done, readable, order, callable));
      Lists(order, ReadBack(w.file, readable)) && done <= |w.memory.order| && id in w.memory.order[..done] ==>
        && Called(w.boot, id, Accepted) in v.log
        && (Awaiting(v.memory, id) <==> readable && id in Loaded(w.file) && !Terminal(Loaded(w.file)[id].status))
  {
    hide RecordsOk, LogSound, SentVouched, Balanced, FlushCalls, FlushMemory, PendingDepth;
    assert WellFormed(w.memory);
    AcceptedIsSent(w.memory, w.memory.order, now, answer, id);
    CallsOfOneRecord(w.memory, w.memory.order, now, answer, w.boot, id);
    if done <= |w.memory.order| {
      CallsOfOneRecord(w.memory, w.memory.order[..done], now, answer, w.boot, id);
    }
  }

  // -------------------------------------------------------------------- two such runs

  function AcceptAll(): Id -> Answer { (id: Id) => Answer(Accepted, 0) }

  /** An empty outbox over no file. */
  function NewWorld(): World { Booted(Missing, true, [], 0, true, []) }

  function Alert(): AlertRecord { AlertRecord("c", "p", Pending, 0, MAX_ATTEMPTS, At(0)) }

  /** The world with just these records, all in memory and saved. */
  ghost predicate Settled(w: World, records: map<Id, AlertRecord>, order: seq<Id>, boot: nat, log: seq<Entry>) {
    && w.memory.records == records && w.memory.order == order && w.file == Stored(records)
    && w.boot == boot && w.callable && w.log == log && !w.blind
  }

  lemma AfterSteps(w: World, front: seq<Step>, last: Step)
    ensures After(w, front + [last]) == Next(After(w, front), last) && After(w, []) == w
  {
    assert (front + [last])[..|front|] == front;
  }

  lemma EnqueueOne(w: World, records: map<Id, AlertRecord>, order: seq<Id>, boot: nat, log: seq<Entry>, id: Id)
    requires w.memory.records == records && w.memory.order == order && w.boot == boot && w.callable && w.log == log
    requires id !in records
    ensures Settled(Next(w, Enqueue(id, "c", "p", 0, true)), records[id := Alert()], order + [id], boot, log)
  {
  }

  lemma FlushSnoc(m: Memory, front: seq<Id>, last: Id, boot: nat)
    ensures
      var m1 := FlushMemory(m, front, 0, AcceptAll(), true);
      && FlushMemory(m, front + [last], 0, AcceptAll(), true) == Visited(m1, last, 0, Answer(Accepted, 0), true)
      && FlushCalls(m, front + [last], 0, AcceptAll(), true, boot)
         == FlushCalls(m, front, 0, AcceptAll(), true, boot) + (if Attempts(m1, last, 0) then [Called(boot, last, Accepted)] else [])
      && FlushMemory(m, [], 0, AcceptAll(), true) == m && FlushCalls(m, [], 0, AcceptAll(), true, boot) == []
  {
    var ids := front + [last];
    assert ids[..|ids| - 1] == front && ids[|ids| - 1] == last;
  }

  function Done(): AlertRecord { Alert().(status := Sent) }

  lemma VisitAccepts(m: Memory, id: Id)
    requires id in m.records && m.records[id] == Alert()
    ensures
      var m' := Visited(m, id, 0, Answer(Accepted, 0), true);
      Attempts(m, id, 0) && m'.records == m.records[id := Done()] && m'.order == m.order
  {
  }

  lemma FlushNext(m: Memory, front: seq<Id>, last: Id, boot: nat)
    requires
      var m1 := FlushMemory(m, front, 0, AcceptAll(), true);
      last in m1.records && m1.records[last] == Alert()
    ensures
      var m1, m2 := FlushMemory(m, front, 0, AcceptAll(), true), FlushMemory(m, front + [last], 0, AcceptAll(), true);
      && m2.records == m1.records[last := Done()] && m2.order == m1.order
      && FlushCalls(m, front + [last], 0, AcceptAll(), true, boot)
         == FlushCalls(m, front, 0, AcceptAll(), true, boot) + [Called(boot, last, Accepted)]
  {
    FlushSnoc(m, front, last, boot);
    VisitAccepts(FlushMemory(m, front, 0, AcceptAll(), true), last);
    hide FlushMemory, FlushCalls, Visited, Attempts;
  }

  lemma FlushNothing(m: Memory, boot: nat)
    ensures FlushMemory(m, [], 0, AcceptAll(), true) == m && FlushCalls(m, [], 0, AcceptAll(), true, boot) == []
  {
  }

  lemma FlushOfOne(m: Memory, id: Id, boot: nat)
    requires m.records == map[id := Alert()] && m.order == [id]
    ensures
      var m' := FlushMemory(m, [id], 0, AcceptAll(), true);
      && m'.records == map[id := Done()] && m'.order == [id]
      && FlushCalls(m, [id], 0, AcceptAll(), true, boot) == [Called(boot, id, Accepted)]
  {
    FlushNothing(m, boot);
    hide FlushMemory, FlushCalls, Alert, Done;
    FlushNext(m, [], id, boot);
    assert [] + [id] == [id];
  }

  lemma FlushOfTwo(m: Memory, a: Id, b: Id, boot: nat)
    requires a != b && m.records == map[a := Alert(), b := Alert()] && m.order == [a, b]
    ensures
      var m' := FlushMemory(m, [a, b], 0, AcceptAll(), true);
      && m'.records == map[a := Done(), b := Done()] && m'.order == [a, b]
      && FlushCalls(m, [a, b], 0, AcceptAll(), true, boot) == [Called(boot, a, Accepted), Called(boot, b, Accepted)]
  {
    FlushNothing(m, boot);
    hide FlushMemory, FlushCalls, Alert, Done;
    FlushNext(m, [], a, boot);
    assert [] + [a] == [a];
    FlushNext(m, [a], b, boot);
    assert [a] + [b] == [a, b];
    UpdateBoth(a, b, Alert(), Done());
  }

  lemma UpdateBoth(a: Id, b: Id, x: AlertRecord, y: AlertRecord)
    ensures map[a := x, b := x][a := y][b := y] == map[a := y, b := y]
  {
  }

  /** Flushing one or two waiting records that the transport accepts. */
  lemma FlushOne(w: World, id: Id, boot: nat, log: seq<Entry>)
    requires Settled(w, map[id := Alert()], [id], boot, log)
    ensures Settled(Next(w, Flush(0, AcceptAll(), true)), map[id := Done()], [id], boot, log + [Called(boot, id, Accepted)])
  {
    FlushOfOne(w.memory, id, boot);
    hide FlushMemory, FlushCalls;
  }

  lemma FlushTwo(w: World, a: Id, b: Id, boot: nat, log: seq<Entry>)
    requires a != b && Settled(w, map[a := Alert(), b := Alert()], [a, b], boot, log)
    ensures
      Settled(Next(w, Flush(0, AcceptAll(), true)), map[a := Done(), b := Done()], [a, b], boot,
              log + [Called(boot, a, Accepted), Called(boot, b, Accepted)])
  {
    FlushOfTwo(w.memory, a, b, boot);
    hide FlushMemory, FlushCalls;
  }

  /** A concrete double delivery: the process dies after the transport accepted and before the save. */
  lemma CrashLeadsToSecondDelivery(id: Id)
    ensures
      var steps := [Enqueue(id, "c", "p", 0, true), CrashInFlush(0, AcceptAll(), 1, true, [id], true), Flush(0, AcceptAll(), true)];
      After(NewWorld(), steps).log == [Called(0, id, Accepted), Called(1, id, Accepted)]
  {
    var s1, s2, s3 := Enqueue(id, "c", "p", 0, true), CrashInFlush(0, AcceptAll(), 1, true, [id], true), Flush(0, AcceptAll(), true);
    var w0 := NewWorld();
    AfterThree(w0, s1, s2, s3);
    hide After;
    EnqueueOne(w0, map[], [], 0, [], id);
    assert [] + [id] == [id];
    CrashAfterAcceptance(Next(w0, s1), id);
    FlushOne(Next(Next(w0, s1), s2), id, 1, [Called(0, id, Accepted)]);
  }

  lemma CrashAfterAcceptance(w: World, id: Id)
    requires Settled(w, map[id := Alert()], [id], 0, [])
    ensures Settled(Next(w, CrashInFlush(0, AcceptAll(), 1, true, [id], true)), map[id := Alert()], [id], 1, [Called(0, id, Accepted)])
  {
    FlushOfOne(w.memory, id, 0);
    hide FlushMemory, FlushCalls, PendingDepth;
    assert w.memory.order[..1] == [id] && [] + [Called(0, id, Accepted)] == [Called(0, id, Accepted)];
    assert Lists([id], ReadBack(w.file, true));
  }

  /** A concrete loss: two alerts are delivered and saved; one boot fails to read the file; enqueueing the
      first again delivers it a second time, and the second alert is no longer in the file. */
  lemma UnreadableBootForgets(a: Id, b: Id)
    requires a != b
    ensures
      var steps := [Enqueue(a, "c", "p", 0, true), Enqueue(b, "c", "p", 0, true), Flush(0, AcceptAll(), true),
                    Restart(false, [], true), Enqueue(a, "c", "p", 0, true), Flush(0, AcceptAll(), true)];
      var before, after := After(NewWorld(), steps[..3]), After(NewWorld(), steps);
      && Loaded(before.file).Keys == {a, b} && Loaded(before.file)[a].status.Sent? && Loaded(before.file)[b].status.Sent?
      && after.log == [Called(0, a, Accepted), Called(0, b, Accepted), Called(1, a, Accepted)]
      && b !in Loaded(after.file)
  {
    var s1, s2, s3, s4 := Enqueue(a, "c", "p", 0, true), Enqueue(b, "c", "p", 0, true), Flush(0, AcceptAll(), true), Restart(false, [], true);
    AfterThree(NewWorld(), s1, s2, s3);
    AfterSix(NewWorld(), s1, s2, s3, s4, s1, s3);
    assert [s1, s2, s3, s4, s1, s3][..3] == [s1, s2, s3];
    hide After;
    LossStepByStep(a, b);
  }

  lemma AfterThree(w: World, s1: Step, s2: Step, s3: Step)
    ensures After(w, [s1, s2, s3]) == Next(Next(Next(w, s1), s2), s3)
  {
    hide Next;
    AfterSteps(w, [], s1);
    AfterSteps(w, [s1], s2);
    AfterSteps(w, [s1, s2], s3);
    assert [] + [s1] == [s1] && [s1] + [s2] == [s1, s2] && [s1, s2] + [s3] == [s1, s2, s3];
  }

  lemma AfterSix(w: World, s1: Step, s2: Step, s3: Step, s4: Step, s5: Step, s6: Step)
    ensures After(w, [s1, s2, s3, s4, s5, s6]) == Next(Next(Next(After(w, [s1, s2, s3]), s4), s5), s6)
  {
    hide Next;
    AfterSteps(w, [s1, s2, s3], s4);
    AfterSteps(w, [s1, s2, s3, s4], s5);
    AfterSteps(w, [s1, s2, s3, s4, s5], s6);
    assert [s1, s2, s3] + [s4] == [s1, s2, s3, s4] && [s1, s2, s3, s4] + [s5] == [s1, s2, s3, s4, s5];
    assert [s1, s2, s3, s4, s5] + [s6] == [s1, s2, s3, s4, s5, s6];
  }

  lemma LossStepByStep(a: Id, b: Id)
    requires a != b
    ensures
      var w3 := Next(Next(Next(NewWorld(), Enqueue(a, "c", "p", 0, true)), Enqueue(b, "c", "p", 0, true)), Flush(0, AcceptAll(), true));
      var w6 := Next(Next(Next(w3, Restart(false, [], true)), Enqueue(a, "c", "p", 0, true)), Flush(0, AcceptAll(), true));
      && w3.file == Stored(map[a := Done(), b := Done()]) && w6.file == Stored(map[a := Done()])
      && w6.log == [Called(0, a, Accepted), Called(0, b, Accepted), Called(1, a, Accepted)]
  {
    var w0 := NewWorld();
    EnqueueOne(w0, map[], [], 0, [], a);
    var w1 := Next(w0, Enqueue(a, "c", "p", 0, true));
    EnqueueOne(w1, map[a := Alert()], [a], 0, [], b);
    var w2 := Next(w1, Enqueue(b, "c", "p", 0, true));
    assert map[a := Alert()][b := Alert()] == map[a := Alert(), b := Alert()] && [a] + [b] == [a, b] && [] + [a] == [a];
    assert map[][a := Alert()] == map[a := Alert()];
    FlushTwo(w2, a, b, 0, []);
    var w3 := Next(w2, Flush(0, AcceptAll(), true));
    BlindRestart(w3);
    var w4 := Next(w3, Restart(false, [], true));
    hide Next;
    EnqueueOne(w4, map[], [], 1, w3.log, a);
    FlushOne(Next(w4, Enqueue(a, "c", "p", 0, true)), a, 1, w3.log);
  }

  lemma BlindRestart(w: World)
    ensures
      var v := Next(w, Restart(false, [], true));
      && v.memory.records == map[] && v.memory.order == [] && v.log == w.log && v.boot == w.boot + 1 && v.callable
      && v.file == w.file
  {
    assert Lists([], ReadBack(w.file, false));
  }
}
