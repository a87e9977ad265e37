/** The in-memory buffer between a subscription and the collector, and the collection loop that
    drains it while messages keep arriving (talonx_compare/runner.py). */
module CollectorBuffer {
  import opened Sequences

  /** How a pass over a drained batch ended: written, returned without writing, refused by the
      collector lock, or failed in any other way, which ends the loop. */
  datatype Ending = Wrote | Skipped | LockBusy | Failed

  /** `accepted`, `recorded`, `lost` and `appended` are history. */
  datatype World<T> = World(
    buffer: seq<T>, inFlight: Option<seq<T>>, running: bool, accepted: seq<T>, recorded: seq<T>, lost: seq<T>, appended: seq<T>)

  function Idle<T>(): World<T> { World([], None, true, [], [], [], []) }

  /** A message may arrive at any moment; a pass takes the whole buffer, and later ends. */
  datatype Step<T> = Arrive(message: T) | Take | End(ending: Ending)

  function Batch<T>(w: World<T>): seq<T> { if w.inFlight.Some? then w.inFlight.value else [] }

  function Next<T>(w: World<T>, s: Step<T>): World<T> {
    match s
    case Arrive(x) => w.(buffer := w.buffer + [x], appended := w.appended + [x])
    case Take => if w.running && w.inFlight.None? then w.(buffer := [], inFlight := Some(w.buffer)) else w
    case End(ending) =>
      if w.inFlight.None? then w
      else
        var done := w.(inFlight := None);
        match ending
        case Wrote => done.(accepted := w.accepted + Batch(w), recorded := w.recorded + Batch(w))
        case Skipped => done.(accepted := w.accepted + Batch(w))
        case LockBusy => done.(buffer := Batch(w) + w.buffer)
        case Failed => done.(running := false, lost := Batch(w))
  }

  function After<T>(w: World<T>, steps: seq<Step<T>>): World<T> {
    if steps == [] then w else Next(After(w, steps[..|steps| - 1]), steps[|steps| - 1])
  }

  /** Every message is in exactly one place, and reading the places in order gives the order of arrival. */
  predicate Kept<T(==)>(w: World<T>) {
    && w.accepted + w.lost + Batch(w) + w.buffer == w.appended
    && (w.running ==> w.lost == [])
    && (!w.running ==> w.inFlight.None?)
  }

  lemma {:induction false} EveryMessageIsSomewhere<T>(steps: seq<Step<T>>)
    ensures Kept(After(Idle(), steps))
  {
    if steps != [] {
      var front := steps[..|steps| - 1];
      EveryMessageIsSomewhere(front);
      NextKeeps(After(Idle(), front), steps[|steps| - 1]);
    }
  }

  lemma NextKeeps<T>(w: World<T>, s: Step<T>)
    requires Kept(w)
    ensures Kept(Next(w, s))
  {
  }

  predicate NeverFails<T>(steps: seq<Step<T>>) { forall i :: 0 <= i < |steps| && steps[i].End? ==> !steps[i].ending.Failed? }

  /** Whatever order appends, passes and lock refusals come in, as long as no pass fails outright the
      batches handed over, the batch in flight and the buffer together are the messages that arrived,
      in order: none lost, none repeated. */
  lemma {:induction false} ExactlyOnceInOrder<T>(steps: seq<Step<T>>)
    requires NeverFails(steps)
    ensures
      var w := After(Idle(), steps);
      w.running && w.accepted + Batch(w) + w.buffer == w.appended
  {
    EveryMessageIsSomewhere(steps);
    var w := After(Idle(), steps);
    if steps != [] {
      ExactlyOnceInOrder(steps[..|steps| - 1]);
      assert !(steps[|steps| - 1].End? && steps[|steps| - 1].ending.Failed?);
    }
    assert w.accepted + [] == w.accepted;
  }

  /** Batches a pass took but did not write. */
  function Unwritten<T>(w: World<T>, steps: seq<Step<T>>): nat {
    if steps == [] then 0
    else
      var last, before := steps[|steps| - 1], After(w, steps[..|steps| - 1]);
      Unwritten(w, steps[..|steps| - 1])
      + if last == End(Skipped) && before.inFlight.Some? then |Batch(before)| else 0
  }

  /** A batch counts as handed over when the pass returns, written or not: what is recorded falls short of
      what was accepted by exactly the messages of passes that returned without writing. */
  lemma {:induction false} RecordedFallsShortExactly<T>(steps: seq<Step<T>>)
    ensures
      var w := After(Idle(), steps);
      && |w.accepted| == |w.recorded| + Unwritten(Idle(), steps)
      && (w.recorded == w.accepted <==> Unwritten(Idle(), steps) == 0)
  {
    if steps != [] {
      RecordedFallsShortExactly(steps[..|steps| - 1]);
    }
  }

  // ------------------------------------------------------------- the mutable parts

  class Buffer<T> {
    var items: seq<T>

    constructor ()
      ensures items == []
    {
      items := [];
    }

    method Append(item: T)
      modifies this
      ensures items == old(items) + [item]
    {
      items := items + [item];
    }

    /** Takes everything queued and leaves a fresh list. */
    method Swap() returns (taken: seq<T>)
      modifies this
      ensures taken == old(items) && items == []
    {
      taken := items;
      items := [];
    }

    /** Puts a refused batch back in front of what has arrived since. */
    method Prepend(batch: seq<T>)
      modifies this
      ensures items == batch + old(items)
    {
      items := batch + items;
    }
  }

  /** One subscription's side of the collection loop, one step at a time. */
  class CollectorService<T> {
    const buffer: Buffer<T>
    var inFlight: Option<seq<T>>
    var running: bool
    ghost var accepted: seq<T>
    ghost var recorded: seq<T>
    ghost var lost: seq<T>
    ghost var appended: seq<T>

    ghost function State(): World<T>
      reads this, buffer
    {
      World(buffer.items, inFlight, running, accepted, recorded, lost, appended)
    }

    constructor ()
      ensures State() == Idle() && fresh(buffer)
    {
      buffer := new Buffer();
      inFlight := None;
      running := true;
      accepted, recorded, lost, appended := [], [], [], [];
    }

    method Receive(message: T)
      modifies this, buffer
      ensures State() == Next(old(State()), Arrive(message))
    {
      buffer.Append(message);
      appended := appended + [message];
    }

    method BeginPass()
      modifies this, buffer
      ensures State() == Next(old(State()), Take)
    {
      if running && inFlight.None? {
        var batch := buffer.Swap();
        inFlight := Some(batch);
      }
    }

    method EndPass(ending: Ending)
      modifies this, buffer
      ensures State() == Next(old(State()), End(ending))
    {
      if inFlight.None? {
        return;
      }
      var batch := inFlight.value;
      inFlight := None;
      match ending {
        case Wrote =>
          accepted := accepted + batch;
          recorded := recorded + batch;
        case Skipped =>
          accepted := accepted + batch;
        case LockBusy =>
          buffer.Prepend(batch);
        case Failed =>
          running := false;
          lost := batch;
      }
    }
  }
}
