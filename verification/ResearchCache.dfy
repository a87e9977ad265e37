/** The research cache and the agent that serves from it (talonx_brain/cache.py,
    talonx_brain/consumer.py). Both horizons run the same code here; the source writes it twice. */
module ResearchCache {
  import opened Sequences

  datatype Horizon = Intraday | LongTerm

  datatype Key = Key(ticker: string, horizon: Horizon)

  /** The exchange's timezone: what its clocks show at an instant, and the instant at which they show
      a time. Clock changes are part of it. */
  datatype Zone = Zone(shownAt: int -> int, instantOf: int -> int)

  datatype CacheConfig = CacheConfig(
    enabled: bool, baseTtl: int, longTermTtl: int, safetyTtl: int, lockTtl: int, openHour: int, closeHour: int, zone: Zone)

  datatype Report = Report(key: Key, content: string, isStale: bool, isDegraded: bool, fromCache: bool)

  /** A stored report with its own logical expiry; the store itself drops it at `evictAt`. `storedAt`
      and `step` are history: when, and as which event, it was stored. */
  datatype Entry = Entry(report: Report, expiresAt: int, evictAt: int, storedAt: int, step: nat)

  // ---------------------------------------------------------------- market clock

  const DAY := 86400
  const HOUR := 3600

  /** A market open or close as the exchange's clocks show it; on the clock face every day is equally long. */
  function Boundary(cfg: CacheConfig, day: int, opens: bool): int {
    day * DAY + (if opens then cfg.openHour else cfg.closeHour) * HOUR
  }

  /** The instant of that open or close. */
  function BoundaryAt(cfg: CacheConfig, day: int, opens: bool): int { cfg.zone.instantOf(Boundary(cfg, day, opens)) }

  predicate HoursOk(cfg: CacheConfig) { 0 <= cfg.openHour < 24 && 0 <= cfg.closeHour < 24 }

  /** The clocks tell before from after at opens and closes (`ZoneOkExactly` says when they do). */
  ghost predicate ZoneOk(cfg: CacheConfig) {
    forall day, opens, t :: Boundary(cfg, day, opens) > cfg.zone.shownAt(t) <==> BoundaryAt(cfg, day, opens) > t
  }

  function Candidates(cfg: CacheConfig, now: int): seq<int> {
    var today := now / DAY;
    [Boundary(cfg, today, true), Boundary(cfg, today, false), Boundary(cfg, today + 1, true), Boundary(cfg, today + 1, false)]
  }

  /** The least of the candidates that lie strictly ahead; `best` is the least found so far. */
  function LeastAhead(candidates: seq<int>, now: int, best: Option<int>): Option<int>
    decreases |candidates|
  {
    if candidates == [] then best
    else
      var c := candidates[0];
      LeastAhead(candidates[1..], now, if c > now && (best.None? || c < best.value) then Some(c) else best)
  }

  /** The next open or close on the clock face, from what the clocks show now. */
  function NextShown(cfg: CacheConfig, shown: int): Option<int> { LeastAhead(Candidates(cfg, shown), shown, None) }

  function NextBoundary(cfg: CacheConfig, now: int): Option<int> {
    var next := NextShown(cfg, cfg.zone.shownAt(now));
    if next.Some? then Some(cfg.zone.instantOf(next.value)) else None
  }

  lemma {:induction false} LeastAheadIsLeast(candidates: seq<int>, now: int, best: Option<int>)
    requires best.Some? ==> best.value > now
    ensures
      var r := LeastAhead(candidates, now, best);
      && (r.Some? ==> r.value > now && (r == best || r.value in candidates))
      && (best.Some? ==> r.Some? && r.value <= best.value)
      && (forall c :: c in candidates && c > now ==> r.Some? && r.value <= c)
    decreases |candidates|
  {
    if candidates != [] {
      var c := candidates[0];
      var best' := if c > now && (best.None? || c < best.value) then Some(c) else best;
      LeastAheadIsLeast(candidates[1..], now, best');
      assert c > now ==> best'.Some? && best'.value <= c;
      assert forall x :: x in candidates <==> x == c || x in candidates[1..];
    }
  }

  lemma DayOf(now: int)
    ensures (now / DAY) * DAY <= now < (now / DAY + 1) * DAY
  {
  }

  lemma DaysApart(a: int, b: int)
    requires a <= b
    ensures a * DAY <= b * DAY
  {
  }

  /** The two days looked at always contain the earliest open or close that the clocks still have ahead. */
  lemma NextShownIsEarliest(cfg: CacheConfig, now: int)
    requires HoursOk(cfg)
    ensures
      var next := NextShown(cfg, now);
      && next.Some? && next.value > now
      && (exists day, opens :: next.value == Boundary(cfg, day, opens))
      && (forall day, opens :: Boundary(cfg, day, opens) > now ==> next.value <= Boundary(cfg, day, opens))
  {
    var today := now / DAY;
    var c := Candidates(cfg, now);
    DayOf(now);
    LeastAheadIsLeast(c, now, None);
    assert c[2] in c && c[2] > now;
    var next := NextShown(cfg, now);
    assert next.value in c;
    forall day, opens | Boundary(cfg, day, opens) > now ensures next.value <= Boundary(cfg, day, opens) {
      if day < today {
        DaysApart(day + 1, today);
      } else if day <= today + 1 {
        assert Boundary(cfg, day, opens) in c by {
          assert c[0] in c && c[1] in c && c[2] in c && c[3] in c;
        }
      } else {
        DaysApart(today + 2, day);
      }
    }
    assert exists day, opens :: next.value == Boundary(cfg, day, opens) by {
      assert c[0] == Boundary(cfg, today, true) && c[1] == Boundary(cfg, today, false);
      assert c[2] == Boundary(cfg, today + 1, true) && c[3] == Boundary(cfg, today + 1, false);
    }
  }

  /** The boundary found is a market open or close still ahead, and no other one ahead comes before it. */
  ghost predicate EarliestAhead(cfg: CacheConfig, now: int) {
    var next := NextBoundary(cfg, now);
    && next.Some? && next.value > now
    && (exists day, opens :: next.value == BoundaryAt(cfg, day, opens))
    && (forall day, opens :: BoundaryAt(cfg, day, opens) > now ==> next.value <= BoundaryAt(cfg, day, opens))
  }

  lemma NextBoundaryIsEarliest(cfg: CacheConfig, now: int)
    requires HoursOk(cfg) && ZoneOk(cfg)
    ensures EarliestAhead(cfg, now)
  {
    var shown := cfg.zone.shownAt(now);
    NextShownIsEarliest(cfg, shown);
    var face := NextShown(cfg, shown).value;
    var day0, opens0 :| face == Boundary(cfg, day0, opens0);
    hide NextShown, Boundary;
    var next := cfg.zone.instantOf(face);
    assert next == BoundaryAt(cfg, day0, opens0) > now;
    forall day, opens | BoundaryAt(cfg, day, opens) > now ensures next <= BoundaryAt(cfg, day, opens) {
      assert Boundary(cfg, day, opens) > shown;
      BoundariesKeepOrder(cfg, day0, opens0, day, opens);
    }
  }

  /** Opens and closes follow each other in time as they do on the clock face. */
  lemma BoundariesKeepOrder(cfg: CacheConfig, day: int, opens: bool, day': int, opens': bool)
    requires ZoneOk(cfg) && Boundary(cfg, day, opens) <= Boundary(cfg, day', opens')
    ensures BoundaryAt(cfg, day, opens) <= BoundaryAt(cfg, day', opens')
  {
    var t := BoundaryAt(cfg, day', opens');
    assert !(Boundary(cfg, day', opens') > cfg.zone.shownAt(t));
    assert !(Boundary(cfg, day, opens) > cfg.zone.shownAt(t));
  }

  ghost predicate ShownBy(zone: Zone, face: int, t: int) { exists u :: u <= t && face <= zone.shownAt(u) }

  /** An open or close is at the first instant at which the clocks show it, or more after skipping it. */
  ghost predicate FirstShown(cfg: CacheConfig) {
    forall day, opens, t :: ShownBy(cfg.zone, Boundary(cfg, day, opens), t) <==> BoundaryAt(cfg, day, opens) <= t
  }

  /** Once the clocks have shown an open or close they never go back before it. */
  ghost predicate NeverSetBack(cfg: CacheConfig) {
    forall day, opens, u, t :: u <= t && Boundary(cfg, day, opens) <= cfg.zone.shownAt(u) ==> Boundary(cfg, day, opens) <= cfg.zone.shownAt(t)
  }

  lemma ZoneOkExactly(cfg: CacheConfig)
    requires FirstShown(cfg)
    ensures ZoneOk(cfg) <==> NeverSetBack(cfg)
  {
    hide Boundary, BoundaryAt;
    forall day, opens, t | NeverSetBack(cfg)
      ensures Boundary(cfg, day, opens) > cfg.zone.shownAt(t) <==> BoundaryAt(cfg, day, opens) > t
    {
      assert ShownBy(cfg.zone, Boundary(cfg, day, opens), t) <==> BoundaryAt(cfg, day, opens) <= t;
      assert ShownBy(cfg.zone, Boundary(cfg, day, opens), t) <==> Boundary(cfg, day, opens) <= cfg.zone.shownAt(t);
    }
    forall day, opens, u, t | ZoneOk(cfg) && u <= t && Boundary(cfg, day, opens) <= cfg.zone.shownAt(u)
      ensures Boundary(cfg, day, opens) <= cfg.zone.shownAt(t)
    {
      assert BoundaryAt(cfg, day, opens) <= u;
    }
  }

  /** At every instant the boundary found is the earliest open or close still ahead, if and only if no clock
      change ever sets the clocks back across an open or close. */
  lemma NextBoundaryIsEarliestExactly(cfg: CacheConfig)
    requires HoursOk(cfg) && FirstShown(cfg)
    ensures (forall now :: EarliestAhead(cfg, now)) <==> NeverSetBack(cfg)
  {
    ZoneOkExactly(cfg);
    hide EarliestAhead, ZoneOk, FirstShown;
    if NeverSetBack(cfg) {
      forall now ensures EarliestAhead(cfg, now) { NextBoundaryIsEarliest(cfg, now); }
    } else {
      hide HoursOk;
      var day, opens, u, t :| u <= t && Boundary(cfg, day, opens) <= cfg.zone.shownAt(u) && Boundary(cfg, day, opens) > cfg.zone.shownAt(t);
      SetBackMisses(cfg, day, opens, u, t);
    }
  }

  /** Once set back before an open or close already passed, the clocks lead to an instant not ahead. */
  lemma SetBackMisses(cfg: CacheConfig, day: int, opens: bool, u: int, t: int)
    requires HoursOk(cfg) && FirstShown(cfg)
    requires u <= t && Boundary(cfg, day, opens) <= cfg.zone.shownAt(u) && Boundary(cfg, day, opens) > cfg.zone.shownAt(t)
    ensures !EarliestAhead(cfg, t)
  {
    NextShownIsEarliest(cfg, cfg.zone.shownAt(t));
    var face := NextShown(cfg, cfg.zone.shownAt(t)).value;
    hide NextShown, Boundary;
    var day0, opens0 :| face == Boundary(cfg, day0, opens0);
    assert face <= cfg.zone.shownAt(u);
    assert ShownBy(cfg.zone, face, t);
  }

  /** Clocks that are only ever set back within the hour they show, by whole hours say at a whole hour, never
      cross a whole-hour open or close. */
  lemma WholeHourChanges(cfg: CacheConfig)
    requires forall u, t :: u <= t ==> cfg.zone.shownAt(t) >= cfg.zone.shownAt(u) / HOUR * HOUR
    ensures NeverSetBack(cfg)
  {
    hide Boundary;
    forall day, opens, u, t | u <= t && Boundary(cfg, day, opens) <= cfg.zone.shownAt(u)
      ensures Boundary(cfg, day, opens) <= cfg.zone.shownAt(t)
    {
      assert cfg.zone.shownAt(t) >= cfg.zone.shownAt(u) / HOUR * HOUR;
      WholeHours(cfg, day, opens, cfg.zone.shownAt(u));
    }
  }

  lemma WholeHours(cfg: CacheConfig, day: int, opens: bool, shown: int)
    requires Boundary(cfg, day, opens) <= shown
    ensures Boundary(cfg, day, opens) <= shown / HOUR * HOUR
  {
    var hours := day * 24 + if opens then cfg.openHour else cfg.closeHour;
    assert Boundary(cfg, day, opens) == hours * HOUR;
    hide Boundary;
  }

  function NextExpiry(cfg: CacheConfig, now: int, h: Horizon): int {
    if h.LongTerm? then now + cfg.longTermTtl
    else
      var base := now + cfg.baseTtl;
      var boundary := NextBoundary(cfg, now);
      if boundary.Some? && boundary.value < base then boundary.value else base
  }

  function BaseTtl(cfg: CacheConfig, h: Horizon): int { if h.LongTerm? then cfg.longTermTtl else cfg.baseTtl }

  // ----------------------------------------------------------------- cache, agent

  /** When a key's research was last declared outdated, and whether the store then deleted the entry. */
  datatype Notice = Notice(step: nat, deleted: bool)

  /** `notices`, `stores` and `step` are history: the last filing or fundamentals event of each key, the
      event at which each key was last stored, and the number of the current event. */
  datatype World = World(store: map<Key, Entry>, locks: map<Key, int>, notices: map<Key, Notice>, stores: map<Key, nat>, step: nat)

  const FRESH_START := World(map[], map[], map[], map[], 1)

  predicate Present(w: World, k: Key, now: int) { k in w.store && now < w.store[k].evictAt }

  function Lookup(w: World, k: Key, now: int, ok: bool): Option<Entry> {
    if ok && Present(w, k, now) then Some(w.store[k]) else None
  }

  predicate IsFresh(e: Entry, now: int) { now <= e.expiresAt }

  function Stored(cfg: CacheConfig, w: World, k: Key, r: Report, now: int, ok: bool): World {
    if ok then
      w.(store := w.store[k := Entry(r, NextExpiry(cfg, now, k.horizon), now + cfg.safetyTtl, now, w.step)],
         stores := w.stores[k := w.step])
    else w
  }

  /** A failing delete is swallowed: the event has been handled, the entry stays. */
  function Invalidated(w: World, k: Key, ok: bool): World {
    w.(store := if ok then w.store - {k} else w.store, notices := w.notices[k := Notice(w.step, ok)])
  }

  /** What retrieval comes back with. */
  datatype Context = Found | Nothing | Raises

  /** What the outside world does while one signal is handled: the instants of each store access,
      which of them fail, and what retrieval and the model return. `polledAt` is the poll, if any, that
      found an entry while waiting for another worker. */
  datatype Weather = Weather(
    at: int, getOk: bool, lockAt: int, lockOk: bool, polledAt: Option<int>, context: Context, modelOk: bool,
    content: string, fallbackAt: int, fallbackOk: bool, releaseOk: bool, setAt: int, setOk: bool, publishOk: bool)

  predicate WinsLock(w: World, k: Key, x: Weather) { x.lockOk && !(k in w.locks && x.lockAt < w.locks[k]) }

  function Locked(cfg: CacheConfig, w: World, k: Key, x: Weather): World {
    if WinsLock(w, k, x) then w.(locks := w.locks[k := x.lockAt + cfg.lockTtl]) else w
  }

  function Released(w: World, k: Key, held: bool, ok: bool): World {
    if held && ok then w.(locks := w.locks - {k}) else w
  }

  /** The first lookup; an earnings-triggered long-term signal never takes this shortcut. */
  function FirstHit(cfg: CacheConfig, w: World, k: Key, earnings: bool, x: Weather): Option<Entry> {
    if cfg.enabled && !(k.horizon.LongTerm? && earnings) then
      var hit := Lookup(w, k, x.at, x.getOk);
      if hit.Some? && IsFresh(hit.value, x.at) then hit else None
    else None
  }

  /** A worker without the lock takes whatever entry appears while it waits, expired or not. */
  function WaitedHit(cfg: CacheConfig, w: World, k: Key, x: Weather): Option<Entry> {
    if cfg.enabled && !WinsLock(w, k, x) && x.polledAt.Some? then Lookup(w, k, x.polledAt.value, true) else None
  }

  /** Retrieval, the model, and the fallbacks when the model fails; nothing if retrieval raises. */
  function Produced(cfg: CacheConfig, w: World, k: Key, x: Weather): Option<Report> {
    if x.context.Raises? then None
    else if x.context.Nothing? then Some(Report(k, "insufficient context", false, false, false))
    else if x.modelOk then Some(Report(k, x.content, false, false, false))
    else
      var hit := if cfg.enabled then Lookup(w, k, x.fallbackAt, x.fallbackOk) else None;
      if hit.Some? then Some(hit.value.report.(isStale := true, fromCache := true))
      else Some(Report(k, "research unavailable", false, true, false))
  }

  predicate Keepable(r: Report) { !r.isDegraded && !r.isStale }

  /** A new report, kept if it is a first-hand one, with the lock given back in between. */
  function Renewed(cfg: CacheConfig, w: World, k: Key, held: bool, x: Weather): (World, Option<Report>) {
    var report := Produced(cfg, w, k, x);
    var w' := Released(w, k, held, x.releaseOk);
    (if cfg.enabled && report.Some? && Keepable(report.value) then Stored(cfg, w', k, report.value, x.setAt, x.setOk) else w',
     report)
  }

  /** One report, or none when retrieval raises; the lock is given back either way. */
  function Generated(cfg: CacheConfig, w: World, k: Key, earnings: bool, x: Weather): (World, Option<Report>) {
    var first := FirstHit(cfg, w, k, earnings, x);
    if first.Some? then (w, Some(first.value.report.(fromCache := true)))
    else
      var waited := WaitedHit(cfg, w, k, x);
      if waited.Some? then (w, Some(waited.value.report.(fromCache := true)))
      else
        var held := cfg.enabled && WinsLock(w, k, x);
        var w1 := if cfg.enabled then Locked(cfg, w, k, x) else w;
        Renewed(cfg, w1, k, held, x)
  }

  /** What arrives on the subscribed channels; a message that does not parse is dropped. */
  datatype Message =
    | Signal(key: Key, earnings: bool, weather: Weather)
    | Filing(ticker: string, intradayOk: bool, longTermOk: bool)
    | Fundamentals(company: string, deleteOk: bool)
    | Unparsable

  function Next(cfg: CacheConfig, w: World, m: Message): World {
    var w' := match m
      case Signal(k, earnings, x) => Generated(cfg, w, k, earnings, x).0
      case Filing(t, intradayOk, longTermOk) =>
        Invalidated(Invalidated(w, Key(t, Intraday), intradayOk), Key(t, LongTerm), longTermOk)
      case Fundamentals(t, ok) => Invalidated(w, Key(t, LongTerm), ok)
      case Unparsable => w;
    w'.(step := w.step + 1)
  }

  function After(cfg: CacheConfig, w: World, ms: seq<Message>): World {
    if ms == [] then w else Next(cfg, After(cfg, w, ms[..|ms| - 1]), ms[|ms| - 1])
  }

  // ------------------------------------------------------------------- invariant

  /** A cached report is a genuine, first-hand one, filed under its own key, expiring as the policy
      says; it is the last one stored, and if the last event deleted, it was stored after that event. */
  ghost predicate EntryOk(cfg: CacheConfig, w: World, k: Key) {
    k in w.store ==>
      var e := w.store[k];
      && !e.report.isStale && !e.report.isDegraded && !e.report.fromCache && e.report.key == k
      && e.expiresAt == NextExpiry(cfg, e.storedAt, k.horizon) && e.evictAt == e.storedAt + cfg.safetyTtl
      && e.step < w.step && k in w.stores && w.stores[k] == e.step
      && (k in w.notices ==> e.step != w.notices[k].step && (w.notices[k].deleted ==> w.notices[k].step < e.step))
  }

  ghost predicate CacheOk(cfg: CacheConfig, w: World) {
    (forall k :: EntryOk(cfg, w, k)) && forall k :: k in w.notices ==> w.notices[k].step < w.step
  }

  lemma ProducedIsGenuine(cfg: CacheConfig, w: World, k: Key, x: Weather)
    requires CacheOk(cfg, w)
    ensures
      var p := Produced(cfg, w, k, x);
      && (p.None? <==> x.context.Raises?)
      && (p.Some? ==>
            var r := p.value;
            && r.key == k
            && (Keepable(r) ==> !r.fromCache)
            && (r.isDegraded ==> !x.modelOk && (!cfg.enabled || Lookup(w, k, x.fallbackAt, x.fallbackOk).None?))
            && (r.fromCache ==> r.isStale && k in w.store && r.content == w.store[k].report.content))
  {
    assert EntryOk(cfg, w, k);
  }

  lemma StoredOk(cfg: CacheConfig, w: World, k: Key, r: Report, now: int, ok: bool)
    requires CacheOk(cfg, w) && r.key == k && !r.isStale && !r.isDegraded && !r.fromCache
    ensures CacheOk(cfg, Stored(cfg, w, k, r, now, ok).(step := w.step + 1))
  {
    hide NextExpiry;
    var w' := Stored(cfg, w, k, r, now, ok).(step := w.step + 1);
    forall x ensures EntryOk(cfg, w', x) { assert EntryOk(cfg, w, x); }
  }

  lemma StepKept(cfg: CacheConfig, w: World, w': World)
    requires CacheOk(cfg, w) && w'.store == w.store && w'.notices == w.notices && w'.stores == w.stores && w'.step >= w.step
    ensures CacheOk(cfg, w')
  {
    hide NextExpiry;
    forall x ensures EntryOk(cfg, w', x) { assert EntryOk(cfg, w, x); }
  }

  lemma GeneratedOk(cfg: CacheConfig, w: World, k: Key, earnings: bool, x: Weather)
    requires CacheOk(cfg, w)
    ensures CacheOk(cfg, Generated(cfg, w, k, earnings, x).0.(step := w.step + 1))
  {
    hide CacheOk, Produced;
    if FirstHit(cfg, w, k, earnings, x).Some? || WaitedHit(cfg, w, k, x).Some? {
      StepKept(cfg, w, w.(step := w.step + 1));
    } else {
      var w1 := if cfg.enabled then Locked(cfg, w, k, x) else w;
      var w2 := Released(w1, k, cfg.enabled && WinsLock(w, k, x), x.releaseOk);
      StepKept(cfg, w, w1);
      StepKept(cfg, w, w2);
      StepKept(cfg, w, w2.(step := w.step + 1));
      var r := Produced(cfg, w1, k, x);
      ProducedIsGenuine(cfg, w1, k, x);
      if cfg.enabled && r.Some? && Keepable(r.value) {
        StoredOk(cfg, w2, k, r.value, x.setAt, x.setOk);
      }
    }
  }

  lemma InvalidationOk(cfg: CacheConfig, w: World, keys: seq<(Key, bool)>)
    requires CacheOk(cfg, w) && 1 <= |keys| <= 2
    ensures
      var w1 := Invalidated(w, keys[0].0, keys[0].1);
      var w2 := if |keys| == 2 then Invalidated(w1, keys[1].0, keys[1].1) else w1;
      CacheOk(cfg, w2.(step := w.step + 1))
  {
    hide NextExpiry;
    var w1 := Invalidated(w, keys[0].0, keys[0].1);
    var w2 := if |keys| == 2 then Invalidated(w1, keys[1].0, keys[1].1) else w1;
    var w3 := w2.(step := w.step + 1);
    forall x ensures EntryOk(cfg, w3, x) { assert EntryOk(cfg, w, x); }
  }

  lemma NextOk(cfg: CacheConfig, w: World, m: Message)
    requires CacheOk(cfg, w)
    ensures CacheOk(cfg, Next(cfg, w, m))
  {
    hide CacheOk, Generated, Invalidated;
    match m {
      case Signal(k, earnings, x) => GeneratedOk(cfg, w, k, earnings, x);
      case Filing(t, intradayOk, longTermOk) =>
        InvalidationOk(cfg, w, [(Key(t, Intraday), intradayOk), (Key(t, LongTerm), longTermOk)]);
      case Fundamentals(t, ok) => InvalidationOk(cfg, w, [(Key(t, LongTerm), ok)]);
      case Unparsable => StepKept(cfg, w, w.(step := w.step + 1));
    }
  }

  /** After any sequence of messages, whatever fails along the way, every cached report is genuine. */
  lemma {:induction false} CacheHoldsOnlyGenuineReports(cfg: CacheConfig, ms: seq<Message>)
    ensures CacheOk(cfg, After(cfg, FRESH_START, ms))
  {
    if ms != [] {
      hide CacheOk, Next;
      CacheHoldsOnlyGenuineReports(cfg, ms[..|ms| - 1]);
      NextOk(cfg, After(cfg, FRESH_START, ms[..|ms| - 1]), ms[|ms| - 1]);
    }
  }

  // -------------------------------------------------------------------- serving

  /** The instant a report was read from the cache, if it was. */
  function ServedFrom(cfg: CacheConfig, w: World, k: Key, earnings: bool, x: Weather): Option<int> {
    if FirstHit(cfg, w, k, earnings, x).Some? then Some(x.at)
    else if WaitedHit(cfg, w, k, x).Some? then x.polledAt
    else None
  }

  /** Within its horizon's lifetime: young enough, and for intraday with no market open or close
      strictly between storing and serving. */
  ghost predicate WithinLifetime(cfg: CacheConfig, e: Entry, h: Horizon, at: int) {
    && at <= e.storedAt + BaseTtl(cfg, h) && at < e.storedAt + cfg.safetyTtl
    && (h.Intraday? ==> forall day, opens :: !(e.storedAt < BoundaryAt(cfg, day, opens) < at))
  }

  lemma FreshIsWithinLifetime(cfg: CacheConfig, w: World, k: Key, at: int)
    requires HoursOk(cfg) && ZoneOk(cfg) && CacheOk(cfg, w) && Present(w, k, at) && IsFresh(w.store[k], at)
    ensures WithinLifetime(cfg, w.store[k], k.horizon, at)
  {
    assert EntryOk(cfg, w, k);
    NextBoundaryIsEarliest(cfg, w.store[k].storedAt);
  }

  /** Lifetime decides freshness exactly: an intraday entry is fresh at `at`, not before it was
      stored, if and only if it is within its lifetime. The long-term 90 days are in the same way cut
      down to the store's own safety limit. */
  lemma FreshExactlyWithinLifetime(cfg: CacheConfig, w: World, k: Key, at: int)
    requires HoursOk(cfg) && ZoneOk(cfg) && CacheOk(cfg, w) && k in w.store
    ensures Present(w, k, at) && IsFresh(w.store[k], at) <==> WithinLifetime(cfg, w.store[k], k.horizon, at)
  {
    var e := w.store[k];
    assert EntryOk(cfg, w, k);
    NextBoundaryIsEarliest(cfg, e.storedAt);
    if WithinLifetime(cfg, e, k.horizon, at) && k.horizon.Intraday? {
      var next := NextBoundary(cfg, e.storedAt).value;
      var day, opens :| next == BoundaryAt(cfg, day, opens);
      assert !(e.storedAt < BoundaryAt(cfg, day, opens) < at);
    }
  }

  /** A report that goes out from the cache and is not flagged stale. */
  predicate ServedUnflagged(r: Option<Report>) { r.Some? && r.value.fromCache && !r.value.isStale }

  /** Serving, after any sequence of messages: a report from the cache that is not flagged stale is the
      one last stored for that ticker and horizon; it is newer than the last event that deleted
      successfully; and it is within its lifetime unless the lock was lost. */
  lemma UnflaggedServingIsFresh(cfg: CacheConfig, ms: seq<Message>, k: Key, earnings: bool, x: Weather)
    requires HoursOk(cfg) && ZoneOk(cfg)
    requires ServedUnflagged(Generated(cfg, After(cfg, FRESH_START, ms), k, earnings, x).1)
    ensures
      var w := After(cfg, FRESH_START, ms);
      var r := Generated(cfg, w, k, earnings, x).1.value;
      var at := ServedFrom(cfg, w, k, earnings, x);
      && at.Some? && k in w.store && k in w.stores && w.stores[k] == w.store[k].step
      && r == w.store[k].report.(fromCache := true) && r.key == k && !r.isDegraded
      && (k in w.notices && w.notices[k].deleted ==> w.notices[k].step < w.store[k].step)
      && (WinsLock(w, k, x) ==> WithinLifetime(cfg, w.store[k], k.horizon, at.value))
      && (k.horizon.LongTerm? && earnings ==> !WinsLock(w, k, x))
  {
    hide NextExpiry, WithinLifetime, ZoneOk;
    var w := After(cfg, FRESH_START, ms);
    CacheHoldsOnlyGenuineReports(cfg, ms);
    assert EntryOk(cfg, w, k);
    if FirstHit(cfg, w, k, earnings, x).Some? {
      FreshIsWithinLifetime(cfg, w, k, x.at);
    } else if WaitedHit(cfg, w, k, x).None? {
      var w1 := if cfg.enabled then Locked(cfg, w, k, x) else w;
      StepKept(cfg, w, w1);
      ProducedIsGenuine(cfg, w1, k, x);
      assert false;
    }
  }

  /** A report older than the last filing or fundamentals event of its key goes out from the cache
      unflagged exactly when the store refused that event's delete, nothing was stored since, and the
      report is otherwise servable: fresh at the first lookup, or polled for after losing the lock. */
  lemma OutdatedServedExactly(cfg: CacheConfig, ms: seq<Message>, k: Key, earnings: bool, x: Weather)
    requires k in After(cfg, FRESH_START, ms).notices
    ensures
      var w := After(cfg, FRESH_START, ms);
      (ServedUnflagged(Generated(cfg, w, k, earnings, x).1) && k in w.store && w.store[k].step < w.notices[k].step)
      <==>
      && !w.notices[k].deleted && (k in w.stores ==> w.stores[k] < w.notices[k].step)
      && (FirstHit(cfg, w, k, earnings, x).Some? || WaitedHit(cfg, w, k, x).Some?)
  {
    hide NextExpiry;
    var w := After(cfg, FRESH_START, ms);
    CacheHoldsOnlyGenuineReports(cfg, ms);
    assert EntryOk(cfg, w, k);
    if FirstHit(cfg, w, k, earnings, x).None? && WaitedHit(cfg, w, k, x).None? {
      var w1 := if cfg.enabled then Locked(cfg, w, k, x) else w;
      StepKept(cfg, w, w1);
      ProducedIsGenuine(cfg, w1, k, x);
    }
  }

  /** An expired report goes out unflagged exactly when the first lookup did not serve, the lock was
      lost, and the poll found an entry past its expiry. */
  lemma ExpiredServedUnflaggedExactly(cfg: CacheConfig, w: World, k: Key, earnings: bool, x: Weather)
    requires CacheOk(cfg, w)
    ensures
      var r := Generated(cfg, w, k, earnings, x).1;
      var at := ServedFrom(cfg, w, k, earnings, x);
      (ServedUnflagged(r) && at.Some? && k in w.store && !IsFresh(w.store[k], at.value))
      <==> FirstHit(cfg, w, k, earnings, x).None? && cfg.enabled && !WinsLock(w, k, x) && x.polledAt.Some?
           && Present(w, k, x.polledAt.value) && x.polledAt.value > w.store[k].expiresAt
  {
    hide NextExpiry;
    assert EntryOk(cfg, w, k);
    if FirstHit(cfg, w, k, earnings, x).None? && WaitedHit(cfg, w, k, x).None? {
      var w1 := if cfg.enabled then Locked(cfg, w, k, x) else w;
      StepKept(cfg, w, w1);
      ProducedIsGenuine(cfg, w1, k, x);
    }
  }

  // ----------------------------------------------------------- two such runs, concretely

  /** Retrieval and the model work, and every store access at `now` succeeds. */
  function Calm(now: int): Weather {
    Weather(now, true, now, true, None, Found, true, "research", now, true, true, now, true, true)
  }

  /** The first lookup and the poll reach the store at `now`; taking the lock does not. */
  function LockDown(now: int): Weather { Calm(now).(lockOk := false, polledAt := Some(now)) }

  function FirstStored(cfg: CacheConfig, k: Key): Entry {
    Entry(Report(k, "research", false, false, false), NextExpiry(cfg, 0, k.horizon), cfg.safetyTtl, 0, 1)
  }

  lemma OneCalmSignal(cfg: CacheConfig, k: Key)
    requires cfg.enabled
    ensures
      var w := After(cfg, FRESH_START, [Signal(k, false, Calm(0))]);
      w.store == map[k := FirstStored(cfg, k)] && w.stores == map[k := 1] && w.notices == map[] && w.step == 2 && w.locks == map[]
  {
    hide NextExpiry;
    assert [Signal(k, false, Calm(0))][..0] == [];
    assert map[k := cfg.lockTtl] - {k} == map[];
  }

  /** A first report is cached; later the lock cannot be taken because the store is failing, and the poll
      finds the expired entry and serves it as if it were current. */
  lemma ExpiredIsServed(cfg: CacheConfig, ticker: string)
    requires cfg.enabled && 0 <= cfg.baseTtl && cfg.baseTtl + 1 < cfg.safetyTtl
    ensures
      var k := Key(ticker, Intraday);
      var w := After(cfg, FRESH_START, [Signal(k, false, Calm(0))]);
      var x := LockDown(cfg.baseTtl + 1);
      ServedUnflagged(Generated(cfg, w, k, false, x).1) && k in w.store && w.store[k].expiresAt < x.polledAt.value
  {
    OneCalmSignal(cfg, Key(ticker, Intraday));
    hide After, NextBoundary;
  }

  /** A first report is cached; a filing arrives while the store refuses deletes; the next signal is
      still answered with the report from before the filing, as current. */
  lemma OutdatedIsServed(cfg: CacheConfig, ticker: string)
    requires cfg.enabled && HoursOk(cfg) && ZoneOk(cfg) && 0 < cfg.baseTtl && 1 < cfg.safetyTtl
    ensures
      var k := Key(ticker, Intraday);
      var ms := [Signal(k, false, Calm(0)), Filing(ticker, false, true)];
      var w := After(cfg, FRESH_START, ms);
      && ServedUnflagged(Generated(cfg, w, k, false, Calm(1)).1)
      && k in w.store && k in w.notices && w.store[k].step < w.notices[k].step
  {
    var k := Key(ticker, Intraday);
    var s1, s2 := Signal(k, false, Calm(0)), Filing(ticker, false, true);
    OneCalmSignal(cfg, k);
    assert [s1, s2][..1] == [s1];
    var w1 := After(cfg, FRESH_START, [s1]);
    assert After(cfg, FRESH_START, [s1, s2]) == Next(cfg, w1, s2);
    NextBoundaryIsEarliest(cfg, 0);
    hide After, NextBoundary, ZoneOk;
    var w := Next(cfg, w1, s2);
    assert w.store[k] == FirstStored(cfg, k) && w.notices[k] == Notice(2, false);
    assert Present(w, k, 1) && IsFresh(w.store[k], 1);
  }

  // ------------------------------------------------- one sequential worker, no failures

  /** Lock operations reach the store. */
  predicate LockingWorks(m: Message) { m.Signal? ==> m.weather.lockOk && m.weather.releaseOk }

  /** A single worker whose lock operations reach the store never finds its own lock in the way. */
  lemma {:induction false} SequentialWorkerHoldsNoLock(cfg: CacheConfig, ms: seq<Message>)
    requires forall i :: 0 <= i < |ms| ==> LockingWorks(ms[i])
    ensures After(cfg, FRESH_START, ms).locks == map[]
  {
    hide Produced, Stored;
    if ms != [] {
      SequentialWorkerHoldsNoLock(cfg, ms[..|ms| - 1]);
      var w := After(cfg, FRESH_START, ms[..|ms| - 1]);
      var m := ms[|ms| - 1];
      assert LockingWorks(m);
      match m {
        case Signal(k, earnings, x) => GeneratedFreesLock(cfg, w, k, earnings, x);
        case Filing(_, _, _) =>
        case Fundamentals(_, _) =>
        case Unparsable =>
      }
    }
  }

  lemma GeneratedFreesLock(cfg: CacheConfig, w: World, k: Key, earnings: bool, x: Weather)
    requires w.locks == map[] && x.lockOk && x.releaseOk
    ensures Generated(cfg, w, k, earnings, x).0.locks == map[]
  {
  }

  /** Lock operations and deletes reach the store. */
  predicate StoreWorks(m: Message) {
    match m
    case Signal(_, _, x) => x.lockOk && x.releaseOk
    case Filing(_, intradayOk, longTermOk) => intradayOk && longTermOk
    case Fundamentals(_, ok) => ok
    case Unparsable => true
  }

  lemma {:induction false} NoticesDeleted(cfg: CacheConfig, ms: seq<Message>)
    requires forall i :: 0 <= i < |ms| ==> StoreWorks(ms[i])
    ensures forall k :: k in After(cfg, FRESH_START, ms).notices ==> After(cfg, FRESH_START, ms).notices[k].deleted
  {
    if ms != [] {
      var front, m := ms[..|ms| - 1], ms[|ms| - 1];
      NoticesDeleted(cfg, front);
      assert StoreWorks(m);
      if m.Signal? {
        GeneratedNoticesNothing(cfg, After(cfg, FRESH_START, front), m.key, m.earnings, m.weather);
      }
      hide Generated;
    }
  }

  lemma GeneratedNoticesNothing(cfg: CacheConfig, w: World, k: Key, earnings: bool, x: Weather)
    ensures Generated(cfg, w, k, earnings, x).0.notices == w.notices
  {
    hide Produced, NextExpiry;
  }

  /** So for one sequential worker whose lock operations and deletes reach the store, every unflagged
      cached report, after any sequence of messages, is within its lifetime and newer than the last
      filing or fundamentals event of its key. */
  lemma SequentialServingIsFresh(cfg: CacheConfig, ms: seq<Message>, k: Key, earnings: bool, x: Weather)
    requires HoursOk(cfg) && ZoneOk(cfg) && x.lockOk && forall i :: 0 <= i < |ms| ==> StoreWorks(ms[i])
    requires ServedUnflagged(Generated(cfg, After(cfg, FRESH_START, ms), k, earnings, x).1)
    ensures
      var w := After(cfg, FRESH_START, ms);
      && k in w.store && WithinLifetime(cfg, w.store[k], k.horizon, x.at)
      && (k in w.notices ==> w.notices[k].step < w.store[k].step)
      && !(k.horizon.LongTerm? && earnings)
  {
    hide WithinLifetime, CacheOk, ZoneOk;
    assert forall i :: 0 <= i < |ms| ==> StoreWorks(ms[i]) ==> LockingWorks(ms[i]);
    SequentialWorkerHoldsNoLock(cfg, ms);
    NoticesDeleted(cfg, ms);
    UnflaggedServingIsFresh(cfg, ms, k, earnings, x);
  }

  // ------------------------------------------------------------- the mutable agent

  class BrainCache {
    const config: CacheConfig
    var store: map<Key, Entry>
    var locks: map<Key, int>
    ghost var notices: map<Key, Notice>
    ghost var stores: map<Key, nat>
    var step: nat

    ghost function State(): World
      reads this
    {
      World(store, locks, notices, stores, step)
    }

    constructor (config: CacheConfig)
      ensures this.config == config && State() == FRESH_START
    {
      this.config := config;
      store, locks, notices, stores, step := map[], map[], map[], map[], 1;
    }

    method Get(k: Key, now: int, ok: bool) returns (hit: Option<Entry>, current: bool)
      ensures hit == Lookup(State(), k, now, ok)
      ensures hit.Some? ==> current == IsFresh(hit.value, now)
    {
      if !ok || k !in store || now >= store[k].evictAt {
        return None, false;
      }
      return Some(store[k]), now <= store[k].expiresAt;
    }

    method Set(k: Key, r: Report, now: int, ok: bool)
      modifies this
      ensures State() == Stored(config, old(State()), k, r, now, ok)
    {
      var expiresAt := NextExpiry(config, now, k.horizon);
      if ok {
        store := store[k := Entry(r, expiresAt, now + config.safetyTtl, now, step)];
        stores := stores[k := step];
      }
    }

    method Invalidate(k: Key, ok: bool)
      modifies this
      ensures State() == Invalidated(old(State()), k, ok)
    {
      if ok {
        store := store - {k};
      }
      notices := notices[k := Notice(step, ok)];
    }

    method AcquireLock(k: Key, x: Weather) returns (acquired: bool)
      modifies this
      ensures acquired == WinsLock(old(State()), k, x) && State() == Locked(config, old(State()), k, x)
    {
      if !x.lockOk || (k in locks && x.lockAt < locks[k]) {
        return false;
      }
      locks := locks[k := x.lockAt + config.lockTtl];
      return true;
    }

    method ReleaseLock(k: Key, ok: bool)
      modifies this
      ensures State() == Released(old(State()), k, true, ok)
    {
      if ok {
        locks := locks - {k};
      }
    }

    method CountStep()
      modifies `step
      ensures State() == old(State()).(step := old(State()).step + 1)
    {
      step := step + 1;
    }
  }

  class ResearchAgent {
    const cache: BrainCache
    var signalsProcessed: nat
    var fundamentalsProcessed: nat
    var filingInvalidations: nat
    var reportsPublished: nat
    var longTermReportsPublished: nat

    constructor (cache: BrainCache)
      ensures this.cache == cache
      ensures signalsProcessed == fundamentalsProcessed == filingInvalidations == reportsPublished == longTermReportsPublished == 0
    {
      this.cache := cache;
      signalsProcessed, fundamentalsProcessed, filingInvalidations := 0, 0, 0;
      reportsPublished, longTermReportsPublished := 0, 0;
    }

    /** Nothing comes back when retrieval raises. */
    method Produce(k: Key, x: Weather) returns (report: Option<Report>)
      ensures report == Produced(cache.config, cache.State(), k, x)
    {
      if x.context.Raises? {
        return None;
      }
      if x.context.Nothing? {
        return Some(Report(k, "insufficient context", false, false, false));
      }
      if x.modelOk {
        return Some(Report(k, x.content, false, false, false));
      }
      if cache.config.enabled {
        var hit, _ := cache.Get(k, x.fallbackAt, x.fallbackOk);
        if hit.Some? {
          return Some(hit.value.report.(isStale := true, fromCache := true));
        }
      }
      return Some(Report(k, "research unavailable", false, true, false));
    }

    method Renew(k: Key, held: bool, x: Weather) returns (report: Option<Report>)
      modifies cache
      ensures
        var r := Renewed(cache.config, old(cache.State()), k, held, x);
        cache.State() == r.0 && report == r.1
    {
      hide Produced, Stored, Keepable, BrainCache.State;
      report := Produce(k, x);
      if held {
        cache.ReleaseLock(k, x.releaseOk);
      }
      if cache.config.enabled && report.Some? && Keepable(report.value) {
        cache.Set(k, report.value, x.setAt, x.setOk);
      }
    }

    method GenerateReport(k: Key, earnings: bool, x: Weather) returns (report: Option<Report>)
      modifies cache
      ensures
        var r := Generated(cache.config, old(cache.State()), k, earnings, x);
        cache.State() == r.0 && report == r.1
    {
      hide Renewed, Lookup, WinsLock, IsFresh, BrainCache.State;
      if cache.config.enabled && !(k.horizon.LongTerm? && earnings) {
        var hit, isFresh := cache.Get(k, x.at, x.getOk);
        if hit.Some? && isFresh {
          return Some(hit.value.report.(fromCache := true));
        }
      }
      var acquired := false;
      if cache.config.enabled {
        acquired := cache.AcquireLock(k, x);
        if !acquired && x.polledAt.Some? {
          var waited, _ := cache.Get(k, x.polledAt.value, true);
          if waited.Some? {
            return Some(waited.value.report.(fromCache := true));
          }
        }
      }
      report := Renew(k, acquired, x);
    }

    /** Publishes a report of one horizon; a failing publish is swallowed and not counted. */
    method PublishReport(horizon: Horizon, publishOk: bool)
      modifies `reportsPublished, `longTermReportsPublished
      ensures reportsPublished == old(reportsPublished) + (if publishOk && horizon.Intraday? then 1 else 0)
      ensures longTermReportsPublished == old(longTermReportsPublished) + (if publishOk && horizon.LongTerm? then 1 else 0)
    {
      if publishOk {
        match horizon {
          case Intraday => reportsPublished := reportsPublished + 1;
          case LongTerm => longTermReportsPublished := longTermReportsPublished + 1;
        }
      }
    }

    method HandleSignal(k: Key, earnings: bool, x: Weather)
      modifies this, cache
      ensures cache.State() == Generated(cache.config, old(cache.State()), k, earnings, x).0
      ensures signalsProcessed == old(signalsProcessed) + (if k.horizon.Intraday? then 1 else 0)
      ensures fundamentalsProcessed == old(fundamentalsProcessed) + (if k.horizon.LongTerm? then 1 else 0)
      ensures filingInvalidations == old(filingInvalidations)
      ensures
        var sent := Generated(cache.config, old(cache.State()), k, earnings, x).1.Some? && x.publishOk;
        && reportsPublished == old(reportsPublished) + (if sent && k.horizon.Intraday? then 1 else 0)
        && longTermReportsPublished == old(longTermReportsPublished) + (if sent && k.horizon.LongTerm? then 1 else 0)
    {
      hide Generated;
      match k.horizon {
        case Intraday => signalsProcessed := signalsProcessed + 1;
        case LongTerm => fundamentalsProcessed := fundamentalsProcessed + 1;
      }
      var report := GenerateReport(k, earnings, x);
      if report.Some? {
        PublishReport(k.horizon, x.publishOk);
      }
    }

    /** One message of any channel: each kind of signal has its own counters, and only filings count as
        invalidations, whether or not the deletes reached the store. */
    method HandleMessage(m: Message)
      modifies this, cache
      ensures cache.State() == Next(cache.config, old(cache.State()), m)
      ensures signalsProcessed == old(signalsProcessed) + (if m.Signal? && m.key.horizon.Intraday? then 1 else 0)
      ensures fundamentalsProcessed == old(fundamentalsProcessed) + (if m.Signal? && m.key.horizon.LongTerm? then 1 else 0)
      ensures filingInvalidations == old(filingInvalidations) + (if m.Filing? then 1 else 0)
      ensures
        var sent := m.Signal? && m.weather.publishOk
                    && Generated(cache.config, old(cache.State()), m.key, m.earnings, m.weather).1.Some?;
        && reportsPublished == old(reportsPublished) + (if sent && m.key.horizon.Intraday? then 1 else 0)
        && longTermReportsPublished == old(longTermReportsPublished) + (if sent && m.key.horizon.LongTerm? then 1 else 0)
    {
      hide Generated;
      match m {
        case Signal(k, earnings, x) => HandleSignal(k, earnings, x);
        case Filing(t, intradayOk, longTermOk) =>
          cache.Invalidate(Key(t, Intraday), intradayOk);
          cache.Invalidate(Key(t, LongTerm), longTermOk);
          filingInvalidations := filingInvalidations + 1;
        case Fundamentals(t, ok) =>
          cache.Invalidate(Key(t, LongTerm), ok);
        case Unparsable =>
      }
      StepUnchanged(cache.config, old(cache.State()), m);
      cache.CountStep();
    }
  }

  lemma StepUnchanged(cfg: CacheConfig, w: World, m: Message)
    ensures m.Signal? ==> Generated(cfg, w, m.key, m.earnings, m.weather).0.step == w.step
  {
    hide Produced, NextExpiry;
  }
}
