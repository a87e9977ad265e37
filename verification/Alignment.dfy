/** Deterministic, session-safe alignment of the two pipelines' records and the classification of
    each pair (talonx_compare/alignment.py, talonx_compare/divergence.py). */
module Alignment {
  import opened Sequences
  import opened Ordering
  import opened Identity

  function Fields(k: Key): seq<string> { [k.date, k.stage, k.symbol, k.identity] }

  predicate KeyLeq(a: Key, b: Key) { FieldsLeq(Fields(a), Fields(b)) }

  /** Later states of one event sort later; ties keep the order in which the records were read. */
  function Stamp(r: Rec): seq<string> { [if r.eventTime.Some? then r.eventTime.value else "", r.fingerprint] }

  predicate StampLeq(a: Rec, b: Rec) { FieldsLeq(Stamp(a), Stamp(b)) }

  lemma KeysAreOrdered()
    ensures TotalOrder(KeyLeq)
  {
    FieldsAreOrdered();
    forall a, b | Fields(a) == Fields(b) ensures a == b {
      assert Fields(a)[0] == a.date && Fields(a)[1] == a.stage && Fields(a)[2] == a.symbol && Fields(a)[3] == a.identity;
    }
    assert forall x, y :: KeyLeq(x, y) && KeyLeq(y, x) ==> Fields(x) == Fields(y);
  }

  lemma StampsAreOrdered()
    ensures TotalPreorder(StampLeq)
  {
    FieldsAreOrdered();
  }

  // ----------------------------------------------------------------- specification

  const UNSCOPED := "UNSCOPED"
  
  function SessionOf(r: Rec): string { if Truthy(r.scope) then r.scope.value else DASH }

  function OnDate(date: Option<string>): Rec -> bool { (r: Rec) => date.None? || r.date == date.value }

  function HasKey(k: Key): Rec -> bool { (r: Rec) => KeyOf(r) == k }

  function InSession(s: string): Rec -> bool { (r: Rec) => SessionOf(r) == s }

  function IsScoped(): Rec -> bool { (r: Rec) => Truthy(r.scope) }

  function KeysOf(recs: seq<Rec>): seq<Key> { seq(|recs|, i requires 0 <= i < |recs| => KeyOf(recs[i])) }

  function SessionsOf(recs: seq<Rec>): seq<string> { seq(|recs|, i requires 0 <= i < |recs| => SessionOf(recs[i])) }

  /** The collector's own scope, or the single scope the Original records agree on. */
  function OriginalScope(o: seq<Rec>, explicit: Option<string>): string {
    if Truthy(explicit) then explicit.value
    else
      var scopes := Distinct(SessionsOf(Filter(o, IsScoped())));
      if |scopes| == 1 then scopes[0] else UNSCOPED
  }

  /** The latest state of one event: greatest time and fingerprint, the last read among equals. */
  function Pick(recs: seq<Rec>): Option<Rec> {
    if recs == [] then None
    else
      var sorted := StableSort(recs, StampLeq);
      if sorted == [] then None else Some(sorted[|sorted| - 1])
  }

  /** Where an output pair comes from: one key, compared within one PIV session if there is any. */
  datatype Slot = Slot(session: Option<string>, key: Key)

  datatype Pair = Pair(
    key: Key, kind: Kind, pivScope: Option<string>, originalScope: Option<string>, original: Option<Rec>, piv: Option<Rec>)

  function SlotsFor(session: Option<string>, keys: seq<Key>): seq<Slot> {
    seq(|keys|, i requires 0 <= i < |keys| => Slot(session, keys[i]))
  }

  function SessionSlots(o: seq<Rec>, p: seq<Rec>, s: string): seq<Slot> {
    SlotsFor(Some(s), SortedSet(KeysOf(o) + KeysOf(Filter(p, InSession(s))), KeyLeq))
  }

  function SlotsOver(o: seq<Rec>, p: seq<Rec>, sessions: seq<string>): seq<Slot> {
    if sessions == [] then []
    else SlotsOver(o, p, sessions[..|sessions| - 1]) + SessionSlots(o, p, sessions[|sessions| - 1])
  }

  function Slots(o: seq<Rec>, p: seq<Rec>): seq<Slot> {
    if p == [] then SlotsFor(None, SortedSet(KeysOf(o), KeyLeq))
    else SlotsOver(o, p, SortedSet(SessionsOf(p), TextLeq))
  }

  function PivCandidates(p: seq<Rec>, slot: Slot): seq<Rec> {
    if slot.session.None? then [] else Filter(Filter(p, InSession(slot.session.value)), HasKey(slot.key))
  }

  function PairOf(o: Option<Rec>, p: Option<Rec>, scope: string, slot: Slot): Pair {
    var kind := if p.Some? then p.value.kind else if o.Some? then o.value.kind else EventRecord;
    Pair(slot.key, kind, if p.Some? then slot.session else None, if o.Some? then Some(scope) else None, o, p)
  }

  function PairAt(o: seq<Rec>, p: seq<Rec>, scope: string, slot: Slot): Pair {
    PairOf(Pick(Filter(o, HasKey(slot.key))), Pick(PivCandidates(p, slot)), scope, slot)
  }

  function PairsAt(o: seq<Rec>, p: seq<Rec>, scope: string, slots: seq<Slot>): seq<Pair> {
    seq(|slots|, i requires 0 <= i < |slots| => PairAt(o, p, scope, slots[i]))
  }

  function Aligned(originals: seq<Rec>, pivs: seq<Rec>, date: Option<string>, explicit: Option<string>): seq<Pair> {
    var o, p := Filter(originals, OnDate(date)), Filter(pivs, OnDate(date));
    PairsAt(o, p, OriginalScope(o, explicit), Slots(o, p))
  }

  // -------------------------------------------------------------- the algorithm

  /** Each bucket holds exactly the records with its key, in reading order. */
  ghost predicate Grouped<K(!new)>(groups: map<K, seq<Rec>>, recs: seq<Rec>, keyOf: Rec -> K, isKey: K -> Rec -> bool) {
    && (forall k :: k in groups <==> exists r :: r in recs && keyOf(r) == k)
    && (forall k :: k in groups ==> groups[k] == Filter(recs, isKey(k)))
  }

  lemma GroupedKeys<K(!new)>(groups: map<K, seq<Rec>>, recs: seq<Rec>, rec: Rec, keyOf: Rec -> K, k: K)
    requires k in groups <==> exists r :: r in recs && keyOf(r) == k
    ensures (k in groups || k == keyOf(rec)) <==> exists r :: r in recs + [rec] && keyOf(r) == k
  {
    if k == keyOf(rec) {
      assert rec in recs + [rec];
    } else if k in groups {
      var r :| r in recs && keyOf(r) == k;
      assert r in recs + [rec];
    }
  }

  lemma GroupedSnoc<K(!new)>(groups: map<K, seq<Rec>>, recs: seq<Rec>, rec: Rec, keyOf: Rec -> K, isKey: K -> Rec -> bool)
    requires forall k, r :: isKey(k)(r) <==> keyOf(r) == k
    requires Grouped(groups, recs, keyOf, isKey)
    ensures
      var key := keyOf(rec);
      Grouped(groups[key := (if key in groups then groups[key] else []) + [rec]], recs + [rec], keyOf, isKey)
  {
    var key := keyOf(rec);
    if key !in groups {
      NoneOfKey(recs, keyOf, isKey, key);
    }
    hide Filter;
    var groups' := groups[key := (if key in groups then groups[key] else []) + [rec]];
    forall k ensures k in groups' <==> exists r :: r in recs + [rec] && keyOf(r) == k {
      GroupedKeys(groups, recs, rec, keyOf, k);
    }
    forall k | k in groups' ensures groups'[k] == Filter(recs + [rec], isKey(k)) {
      FilterSnoc(recs, rec, isKey(k));
    }
  }

  /** Buckets records by a computed key, each bucket in reading order. */
  method GroupBy<K(==, !new)>(recs: seq<Rec>, keyOf: Rec -> K, isKey: K -> Rec -> bool) returns (groups: map<K, seq<Rec>>)
    requires forall k, r :: isKey(k)(r) <==> keyOf(r) == k
    ensures forall k :: k in groups <==> exists r :: r in recs && keyOf(r) == k
    ensures forall k :: k in groups ==> groups[k] == Filter(recs, isKey(k))
  {
    groups := map[];
    for i := 0 to |recs|
      invariant Grouped(groups, recs[..i], keyOf, isKey)
    {
      var rec := recs[i];
      var key := keyOf(rec);
      assert recs[..i + 1] == recs[..i] + [rec];
      GroupedSnoc(groups, recs[..i], rec, keyOf, isKey);
      hide Grouped;
      groups := groups[key := (if key in groups then groups[key] else []) + [rec]];
    }
    assert recs[..|recs|] == recs;
  }

  lemma NoneOfKey<K(!new)>(recs: seq<Rec>, keyOf: Rec -> K, isKey: K -> Rec -> bool, key: K)
    requires forall k, r :: isKey(k)(r) <==> keyOf(r) == k
    requires forall r :: r in recs ==> keyOf(r) != key
    ensures Filter(recs, isKey(key)) == []
  {
  }

  method Align(originals: seq<Rec>, pivs: seq<Rec>, date: Option<string>, explicit: Option<string>) returns (pairs: seq<Pair>)
    ensures pairs == Aligned(originals, pivs, date, explicit)
  {
    hide Filter, PairsAt, SortedSet, OriginalScope, SessionSlots;
    var o, p := Filter(originals, OnDate(date)), Filter(pivs, OnDate(date));
    var scope := OriginalScope(o, explicit);
    var byKey := GroupBy(o, KeyOf, HasKey);
    if p == [] {
      pairs := AlignKeys(o, [], byKey, map[], SortedSet(KeysOf(o), KeyLeq), scope, None);
      return;
    }
    pairs := AlignSessions(o, p, byKey, scope);
  }

  /** Every PIV session is aligned against the Original records on its own. */
  method AlignSessions(o: seq<Rec>, p: seq<Rec>, byKey: map<Key, seq<Rec>>, scope: string) returns (pairs: seq<Pair>)
    requires forall k :: k in byKey <==> exists r :: r in o && KeyOf(r) == k
    requires forall k :: k in byKey ==> byKey[k] == Filter(o, HasKey(k))
    ensures pairs == PairsAt(o, p, scope, SlotsOver(o, p, SortedSet(SessionsOf(p), TextLeq)))
  {
    hide Filter, PairsAt, SortedSet, SessionSlots;
    var bySession := GroupBy(p, SessionOf, InSession);
    var sessions := SortedSet(SessionsOf(p), TextLeq);
    pairs := [];
    PairsConcat(o, p, scope, [], []);
    for i := 0 to |sessions|
      invariant pairs == PairsAt(o, p, scope, SlotsOver(o, p, sessions[..i]))
    {
      assert sessions[..i + 1][..i] == sessions[..i];
      SessionIsThere(p, sessions[i], i);
      var found := AlignSession(o, p, byKey, bySession[sessions[i]], sessions[i], scope);
      PairsConcat(o, p, scope, SlotsOver(o, p, sessions[..i]), SessionSlots(o, p, sessions[i]));
      pairs := pairs + found;
    }
    assert sessions[..|sessions|] == sessions;
  }

  method AlignSession(o: seq<Rec>, p: seq<Rec>, byKey: map<Key, seq<Rec>>, mine: seq<Rec>, s: string, scope: string)
    returns (pairs: seq<Pair>)
    requires mine == Filter(p, InSession(s))
    requires forall k :: k in byKey <==> exists r :: r in o && KeyOf(r) == k
    requires forall k :: k in byKey ==> byKey[k] == Filter(o, HasKey(k))
    ensures pairs == PairsAt(o, p, scope, SessionSlots(o, p, s))
  {
    hide Filter, PairsAt, SortedSet;
    var byKeyHere := GroupBy(mine, KeyOf, HasKey);
    forall k | k !in byKeyHere ensures PivCandidates(p, Slot(Some(s), k)) == [] {
      NoneOfKey(mine, KeyOf, HasKey, k);
    }
    pairs := AlignKeys(o, p, byKey, byKeyHere, SortedSet(KeysOf(o) + KeysOf(mine), KeyLeq), scope, Some(s));
  }

  lemma PairsConcat(o: seq<Rec>, p: seq<Rec>, scope: string, xs: seq<Slot>, ys: seq<Slot>)
    ensures PairsAt(o, p, scope, xs + ys) == PairsAt(o, p, scope, xs) + PairsAt(o, p, scope, ys)
    ensures PairsAt(o, p, scope, []) == []
  {
  }

  lemma SessionIsThere(p: seq<Rec>, s: string, i: nat)
    requires i < |SortedSet(SessionsOf(p), TextLeq)| && SortedSet(SessionsOf(p), TextLeq)[i] == s
    ensures exists r :: r in p && SessionOf(r) == s
  {
    TextIsOrdered();
    SortedSetIsSorted(SessionsOf(p), TextLeq);
    assert s in SessionsOf(p);
    var j :| 0 <= j < |p| && SessionsOf(p)[j] == s;
    assert p[j] in p;
  }

  /** The pairs of one session, or of the Original records alone, key by key. */
  method AlignKeys(o: seq<Rec>, p: seq<Rec>, byKey: map<Key, seq<Rec>>, byKeyHere: map<Key, seq<Rec>>, keys: seq<Key>,
                   scope: string, session: Option<string>) returns (pairs: seq<Pair>)
    requires forall k :: k in byKey <==> exists r :: r in o && KeyOf(r) == k
    requires forall k :: k in byKey ==> byKey[k] == Filter(o, HasKey(k))
    requires forall k :: k in byKeyHere ==> byKeyHere[k] == PivCandidates(p, Slot(session, k))
    requires forall k :: k !in byKeyHere ==> PivCandidates(p, Slot(session, k)) == []
    ensures pairs == PairsAt(o, p, scope, SlotsFor(session, keys))
  {
    hide Filter, Pick;
    pairs := [];
    for i := 0 to |keys|
      invariant pairs == PairsAt(o, p, scope, SlotsFor(session, keys[..i]))
    {
      var k := keys[i];
      if k !in byKey {
        NoneOfKey(o, KeyOf, HasKey, k);
      }
      var mine := Pick(if k in byKeyHere then byKeyHere[k] else []);
      var theirs := Pick(if k in byKey then byKey[k] else []);
      pairs := pairs + [PairOf(theirs, mine, scope, Slot(session, k))];
      assert keys[..i + 1] == keys[..i] + [k];
    }
    assert keys[..|keys|] == keys;
  }

  // ---------------------------------------------------------------- classification

  datatype Class =
    | FeedInput | Readiness | Freshness | QuantGate | Decision | AlertDelivery | ExecutionMode | MissingStage | Unavailable

  function StageClass(stage: string): Class {
    if stage == "warmup" || stage == "readiness" then Readiness
    else if stage == "freshness" then Freshness
    else if stage == "quant" then QuantGate
    else if stage == "dispatch" || stage == "telegram" then AlertDelivery
    else if stage == "shadow" || stage == "lifecycle" || stage == "reconciliation" || stage == "eod" then ExecutionMode
    else if stage == "market" then FeedInput
    else Decision
  }

  /** An empty time counts as none. */
  function BarTime(r: Rec): Option<string> { if Truthy(r.barTime) then r.barTime else None }

  function Classify(o: Option<Rec>, p: Option<Rec>, originalOk: bool, pivOk: bool): Option<Class> {
    if !originalOk || !pivOk then Some(Unavailable)
    else if o.Some? != p.Some? then Some(MissingStage)
    else if o.None? then None
    else if BarTime(o.value) != BarTime(p.value) then Some(FeedInput)
    else if o.value.executionClass != p.value.executionClass then Some(ExecutionMode)
    else if o.value.fingerprint == p.value.fingerprint then None
    else Some(StageClass(o.value.stage))
  }

  function Amount(r: Rec): real { if r.value.Some? then r.value.value else 0.0 }

  function ClassifyPair(pair: Pair, originalOk: bool, pivOk: bool): Option<Class> {
    if pair.original.Some? && pair.piv.Some? && (pair.originalScope.None? || pair.originalScope.value == UNSCOPED) then
      Some(Unavailable)
    else if pair.kind.AggregateRecord? then
      if pair.original.None? || pair.piv.None? || Amount(pair.original.value) == Amount(pair.piv.value) then None
      else Some(StageClass(pair.key.stage))
    else Classify(pair.original, pair.piv, originalOk, pivOk)
  }
}
