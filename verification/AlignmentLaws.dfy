/** What alignment guarantees: pairs never mix keys or sessions, every key is compared once per
    session, the order of the input is irrelevant up to ties, and new records stay local. */
module AlignmentLaws {
  import opened Sequences
  import opened Ordering
  import opened Identity
  import opened Alignment

  // -------------------------------------------------------------- picking the latest

  function SameStamp(r: Rec): Rec -> bool { (x: Rec) => Stamp(x) == Stamp(r) }

  lemma EqualStamps(a: Rec, b: Rec)
    requires StampLeq(a, b) && StampLeq(b, a)
    ensures Stamp(a) == Stamp(b)
  {
    FieldsAreOrdered();
  }

  lemma {:induction false} FilterLast<T(!new)>(xs: seq<T>, keep: T -> bool)
    requires xs != [] && keep(xs[|xs| - 1])
    ensures Filter(xs, keep) != [] && Filter(xs, keep)[|Filter(xs, keep)| - 1] == xs[|xs| - 1]
  {
    var front, last := xs[..|xs| - 1], xs[|xs| - 1];
    assert xs == front + [last];
    FilterSnoc(front, last, keep);
  }

  /** The picked record has the greatest time and fingerprint. */
  lemma PickIsLatest(recs: seq<Rec>)
    requires recs != []
    ensures
      var r := Pick(recs);
      r.Some? && r.value in recs && forall x :: x in recs ==> StampLeq(x, r.value)
  {
    StampsAreOrdered();
    hide StampLeq;
    SortIsSortedPermutation(recs, StampLeq);
    hide StableSort, SortedBy, TotalPreorder;
    var sorted := StableSort(recs, StampLeq);
    SameMembers(recs, sorted);
    forall x | x in recs ensures StampLeq(x, sorted[|sorted| - 1]) {
      TopOfSorted(sorted, x);
    }
  }

  lemma SameMembers(xs: seq<Rec>, ys: seq<Rec>)
    requires multiset(xs) == multiset(ys)
    ensures forall x :: x in xs <==> x in ys
  {
    assert forall x :: x in xs <==> x in multiset(xs);
    assert forall x :: x in ys <==> x in multiset(ys);
  }

  lemma TopOfSorted(sorted: seq<Rec>, x: Rec)
    requires SortedBy(sorted, StampLeq) && x in sorted
    ensures StampLeq(x, sorted[|sorted| - 1])
  {
    var i :| 0 <= i < |sorted| && sorted[i] == x;
    StampsAreOrdered();
    hide StampLeq;
  }

  /** Among records that agree on time and fingerprint the last one read is picked. */
  lemma PickIsLastRead(recs: seq<Rec>)
    requires recs != []
    ensures
      var r := Pick(recs);
      r.Some? && var ties := Filter(recs, SameStamp(r.value)); ties != [] && r.value == ties[|ties| - 1]
  {
    PickIsLastSorted(recs);
    var sorted := StableSort(recs, StampLeq);
    var r := sorted[|sorted| - 1];
    hide Pick, StampLeq, Stamp, SortedBy, Filter, StableSort;
    TiesKeepOrder(recs, r);
    FilterLast(sorted, SameStamp(r));
  }

  lemma PickIsLastSorted(recs: seq<Rec>)
    requires recs != []
    ensures var sorted := StableSort(recs, StampLeq); sorted != [] && Pick(recs) == Some(sorted[|sorted| - 1])
  {
    StampsAreOrdered();
    hide StampLeq;
    SortIsSortedPermutation(recs, StampLeq);
  }

  /** Sorting leaves the records that tie with `r` in the order in which they were read. */
  lemma TiesKeepOrder(recs: seq<Rec>, r: Rec)
    ensures Filter(StableSort(recs, StampLeq), SameStamp(r)) == Filter(recs, SameStamp(r))
  {
    StampsAreOrdered();
    hide StampLeq, Stamp, TotalPreorder, SortedBy, Filter, StableSort;
    SortCommutesWithFilter(recs, StampLeq, SameStamp(r));
    TiesSorted(recs, r);
    SortOfSorted(Filter(recs, SameStamp(r)), StampLeq);
  }

  lemma TiesSorted(recs: seq<Rec>, r: Rec)
    ensures SortedBy(Filter(recs, SameStamp(r)), StampLeq)
  {
    hide StampLeq, Stamp;
    var ties := Filter(recs, SameStamp(r));
    forall i, j | 0 <= i < j < |ties| ensures StampLeq(ties[i], ties[j]) {
      assert ties[i] in ties && ties[j] in ties;
      SameStampLeq(ties[i], ties[j]);
    }
  }

  lemma SameStampLeq(a: Rec, b: Rec)
    requires Stamp(a) == Stamp(b)
    ensures StampLeq(a, b)
  {
    StampsAreOrdered();
  }

  // --------------------------------------------------------------- slots, exactly

  ghost predicate Holds(recs: seq<Rec>, k: Key) { exists r :: r in recs && KeyOf(r) == k }

  ghost predicate Runs(p: seq<Rec>, s: string) { exists r :: r in p && SessionOf(r) == s }

  lemma KeysHeld(recs: seq<Rec>, k: Key)
    ensures k in KeysOf(recs) <==> Holds(recs, k)
  {
    if k in KeysOf(recs) {
      var i :| 0 <= i < |recs| && KeysOf(recs)[i] == k;
      assert recs[i] in recs;
    }
    if Holds(recs, k) {
      var r :| r in recs && KeyOf(r) == k;
      var i :| 0 <= i < |recs| && recs[i] == r;
      assert KeysOf(recs)[i] == k;
    }
  }

  lemma SessionsRun(p: seq<Rec>, s: string)
    ensures s in SessionsOf(p) <==> Runs(p, s)
  {
    if s in SessionsOf(p) {
      var i :| 0 <= i < |p| && SessionsOf(p)[i] == s;
      assert p[i] in p;
    }
    if Runs(p, s) {
      var r :| r in p && SessionOf(r) == s;
      var i :| 0 <= i < |p| && p[i] == r;
      assert SessionsOf(p)[i] == s;
    }
  }

  lemma SlotMembers(session: Option<string>, keys: seq<Key>, x: Slot)
    ensures x in SlotsFor(session, keys) <==> x.session == session && x.key in keys
  {
    if x.session == session && x.key in keys {
      var i :| 0 <= i < |keys| && keys[i] == x.key;
      assert SlotsFor(session, keys)[i] == x;
    }
  }

  /** Whether a comparison of `k` within session `s`, or of the Original records alone, is due. */
  ghost predicate DueSlot(o: seq<Rec>, p: seq<Rec>, x: Slot) {
    match x.session
    case None => p == [] && Holds(o, x.key)
    case Some(s) => Runs(p, s) && (Holds(o, x.key) || Holds(Filter(p, InSession(s)), x.key))
  }

  lemma SessionSlotMembers(o: seq<Rec>, p: seq<Rec>, s: string, x: Slot)
    ensures x in SessionSlots(o, p, s) <==>
      x.session == Some(s) && (Holds(o, x.key) || Holds(Filter(p, InSession(s)), x.key))
  {
    hide SortedSet, KeyLeq, SlotsFor;
    var keys := KeysOf(o) + KeysOf(Filter(p, InSession(s)));
    KeysAreOrdered();
    SortedSetIsSorted(keys, KeyLeq);
    KeysHeld(o, x.key);
    KeysHeld(Filter(p, InSession(s)), x.key);
    SlotMembers(Some(s), SortedSet(keys, KeyLeq), x);
  }

  lemma {:induction false} SlotsOverMembers(o: seq<Rec>, p: seq<Rec>, sessions: seq<string>, x: Slot)
    ensures x in SlotsOver(o, p, sessions) <==>
      && x.session.Some? && x.session.value in sessions
      && (Holds(o, x.key) || Holds(Filter(p, InSession(x.session.value)), x.key))
  {
    hide SessionSlots, Holds;
    if sessions != [] {
      var front, last := sessions[..|sessions| - 1], sessions[|sessions| - 1];
      assert sessions == front + [last];
      SlotsOverMembers(o, p, front, x);
      SessionSlotMembers(o, p, last, x);
    }
  }

  /** Exactly the due comparisons are made: each session against every key it or the Original holds. */
  lemma SlotsAreExactlyDue(o: seq<Rec>, p: seq<Rec>, x: Slot)
    ensures x in Slots(o, p) <==> DueSlot(o, p, x)
  {
    hide SortedSet, KeyLeq, TextLeq, SlotsFor, SlotsOver, Holds, Runs;
    if p == [] {
      KeysAreOrdered();
      SortedSetIsSorted(KeysOf(o), KeyLeq);
      KeysHeld(o, x.key);
      SlotMembers(None, SortedSet(KeysOf(o), KeyLeq), x);
      NothingRuns(x);
    } else {
      TextIsOrdered();
      SortedSetIsSorted(SessionsOf(p), TextLeq);
      SlotsOverMembers(o, p, SortedSet(SessionsOf(p), TextLeq), x);
      if x.session.Some? {
        SessionsRun(p, x.session.value);
      }
    }
  }

  lemma NothingRuns(x: Slot)
    ensures x.session.Some? ==> !Runs([], x.session.value)
  {
  }

  /** Sessions in order, and keys in order within a session. */
  predicate SlotLess(x: Slot, y: Slot) {
    if x.session == y.session then KeyLeq(x.key, y.key) && x.key != y.key
    else x.session.Some? && y.session.Some? && TextLeq(x.session.value, y.session.value)
  }

  ghost predicate Ascending(slots: seq<Slot>) { forall i, j :: 0 <= i < j < |slots| ==> SlotLess(slots[i], slots[j]) }

  lemma SlotsForAscending(session: Option<string>, keys: seq<Key>)
    requires StrictlySorted(keys, KeyLeq)
    ensures Ascending(SlotsFor(session, keys))
  {
    hide KeyLeq, TextLeq;
  }

  lemma {:induction false} SlotsOverAscending(o: seq<Rec>, p: seq<Rec>, sessions: seq<string>)
    requires StrictlySorted(sessions, TextLeq)
    ensures Ascending(SlotsOver(o, p, sessions))
  {
    hide KeyLeq, TextLeq, SortedSet, Holds;
    if sessions != [] {
      var front, last := sessions[..|sessions| - 1], sessions[|sessions| - 1];
      SlotsOverAscending(o, p, front);
      KeysAreOrdered();
      var keys := KeysOf(o) + KeysOf(Filter(p, InSession(last)));
      SortedSetIsSorted(keys, KeyLeq);
      SlotsForAscending(Some(last), SortedSet(keys, KeyLeq));
      var a, b := SlotsOver(o, p, front), SessionSlots(o, p, last);
      forall i, j | 0 <= i < |a| && 0 <= j < |b| ensures SlotLess(a[i], b[j]) {
        SlotsOverMembers(o, p, front, a[i]);
        assert a[i] in a;
        var n :| 0 <= n < |front| && front[n] == a[i].session.value;
        assert sessions[n] == front[n];
      }
    }
  }

  /** Output order is fixed: strictly ascending, so no comparison is made twice. */
  lemma SlotsAscend(o: seq<Rec>, p: seq<Rec>)
    ensures Ascending(Slots(o, p)) && NoDuplicates(Slots(o, p))
  {
    hide KeyLeq, TextLeq, SortedSet, SlotsOver;
    if p == [] {
      KeysAreOrdered();
      SortedSetIsSorted(KeysOf(o), KeyLeq);
      SlotsForAscending(None, SortedSet(KeysOf(o), KeyLeq));
    } else {
      TextIsOrdered();
      SortedSetIsSorted(SessionsOf(p), TextLeq);
      SlotsOverAscending(o, p, SortedSet(SessionsOf(p), TextLeq));
    }
    AscendingNeverRepeats(Slots(o, p));
  }

  lemma AscendingNeverRepeats(slots: seq<Slot>)
    requires Ascending(slots)
    ensures NoDuplicates(slots)
  {
  }

  /** Every (session, key) of the union is compared exactly once, in sorted order. */
  lemma EachKeyOncePerSession(originals: seq<Rec>, pivs: seq<Rec>, date: Option<string>, explicit: Option<string>)
    ensures
      var o, p := Filter(originals, OnDate(date)), Filter(pivs, OnDate(date));
      var slots, pairs := Slots(o, p), Aligned(originals, pivs, date, explicit);
      && |pairs| == |slots| && Ascending(slots) && NoDuplicates(slots)
      && (forall x :: x in slots <==> DueSlot(o, p, x))
      && (forall i :: 0 <= i < |pairs| ==> pairs[i].key == slots[i].key)
  {
    hide Slots, Filter, DueSlot, Ascending, Pick;
    var o, p := Filter(originals, OnDate(date)), Filter(pivs, OnDate(date));
    SlotsAscend(o, p);
    forall x ensures x in Slots(o, p) <==> DueSlot(o, p, x) { SlotsAreExactlyDue(o, p, x); }
  }

  // ------------------------------------------------------------------ never mixed

  /** The side of a pair: the latest of the records that carry the pair's key, if there are any. */
  ghost predicate LatestOf(r: Option<Rec>, candidates: seq<Rec>) {
    if candidates == [] then r.None?
    else r.Some? && r.value in candidates && forall x :: x in candidates ==> StampLeq(x, r.value)
  }

  lemma PickLatestOf(candidates: seq<Rec>)
    ensures LatestOf(Pick(candidates), candidates)
  {
    if candidates != [] {
      PickIsLatest(candidates);
    }
  }

  /** A pair never mixes keys or sessions: its Original record is the latest of all Original records with
      exactly its key, and its PIV record the latest of that one session's records with that key. */
  lemma NeverMixes(originals: seq<Rec>, pivs: seq<Rec>, date: Option<string>, explicit: Option<string>, i: nat)
    requires i < |Aligned(originals, pivs, date, explicit)|
    ensures
      var o, p := Filter(originals, OnDate(date)), Filter(pivs, OnDate(date));
      var pair, slot := Aligned(originals, pivs, date, explicit)[i], Slots(o, p)[i];
      && LatestOf(pair.original, Filter(o, HasKey(pair.key)))
      && LatestOf(pair.piv, PivCandidates(p, slot))
      && (pair.original.Some? ==> KeyOf(pair.original.value) == pair.key && pair.original.value in originals)
      && (pair.piv.Some? ==> KeyOf(pair.piv.value) == pair.key && pair.piv.value in pivs
                             && pair.pivScope == Some(SessionOf(pair.piv.value)))
      && (date.Some? ==> pair.key.date == date.value)
      && (pair.original.Some? || pair.piv.Some?)
  {
    hide Slots, Pick;
    var o, p := Filter(originals, OnDate(date)), Filter(pivs, OnDate(date));
    var slot := Slots(o, p)[i];
    PickLatestOf(Filter(o, HasKey(slot.key)));
    PickLatestOf(PivCandidates(p, slot));
    SlotsAreExactlyDue(o, p, slot);
    DueHasRecord(o, p, slot);
  }

  lemma DueHasRecord(o: seq<Rec>, p: seq<Rec>, slot: Slot)
    requires DueSlot(o, p, slot)
    ensures Filter(o, HasKey(slot.key)) != [] || PivCandidates(p, slot) != []
  {
  }

  // ------------------------------------------------------ order of input is irrelevant

  /** The same records read in another order. */
  ghost predicate Shuffled(a: seq<Rec>, b: seq<Rec>) { multiset(a) == multiset(b) }

  lemma ShuffledMembers(a: seq<Rec>, b: seq<Rec>)
    requires Shuffled(a, b)
    ensures forall r :: r in a <==> r in b
  {
    forall r ensures r in a <==> r in b {
      assert r in a <==> r in multiset(a);
      assert r in b <==> r in multiset(b);
    }
  }

  lemma ShuffledEmptiness(a: seq<Rec>, b: seq<Rec>)
    requires forall r :: r in a <==> r in b
    ensures a == [] <==> b == []
  {
    assert a != [] ==> a[0] in a;
    assert b != [] ==> b[0] in b;
  }

  /** Same records, same comparisons: membership is all the slots depend on. */
  lemma SameMembersSameSlots(o: seq<Rec>, o': seq<Rec>, p: seq<Rec>, p': seq<Rec>)
    requires forall r :: r in o <==> r in o'
    requires forall r :: r in p <==> r in p'
    ensures Slots(o, p) == Slots(o', p')
  {
    hide Slots, Filter, SlotLess;
    ShuffledEmptiness(p, p');
    SlotsAscend(o, p);
    SlotsAscend(o', p');
    forall x ensures x in Slots(o, p) <==> x in Slots(o', p') {
      SlotsAreExactlyDue(o, p, x);
      SlotsAreExactlyDue(o', p', x);
      SameDue(o, o', p, p', x);
    }
    AscendingIsUnique(Slots(o, p), Slots(o', p'));
  }

  lemma SameDue(o: seq<Rec>, o': seq<Rec>, p: seq<Rec>, p': seq<Rec>, x: Slot)
    requires forall r :: r in o <==> r in o'
    requires forall r :: r in p <==> r in p'
    ensures DueSlot(o, p, x) <==> DueSlot(o', p', x)
  {
    ShuffledEmptiness(p, p');
    if x.session.Some? {
      var s := x.session.value;
      assert forall r :: r in Filter(p, InSession(s)) <==> r in Filter(p', InSession(s));
    }
  }

  lemma SlotLessAsymmetric(x: Slot, y: Slot)
    ensures !(SlotLess(x, y) && SlotLess(y, x))
  {
    KeysAreOrdered();
    TextIsOrdered();
  }

  lemma {:induction false} AscendingIsUnique(xs: seq<Slot>, ys: seq<Slot>)
    requires Ascending(xs) && Ascending(ys) && NoDuplicates(xs) && NoDuplicates(ys)
    requires forall x :: x in xs <==> x in ys
    ensures xs == ys
  {
    hide SlotLess;
    assert xs != [] ==> xs[0] in xs;
    assert ys != [] ==> ys[0] in ys;
    if xs != [] && ys != [] {
      var i :| 0 <= i < |ys| && ys[i] == xs[0];
      var j :| 0 <= j < |xs| && xs[j] == ys[0];
      SlotLessAsymmetric(xs[0], ys[0]);
      var xt, yt := xs[1..], ys[1..];
      forall x ensures x in xt <==> x in yt {
        DistinctTail(xs, x);
        DistinctTail(ys, x);
      }
      AscendingIsUnique(xt, yt);
    }
  }

  lemma DistinctTail(xs: seq<Slot>, x: Slot)
    requires xs != [] && NoDuplicates(xs)
    ensures x in xs[1..] <==> x in xs && x != xs[0]
  {
  }

  /** Two picks that agree on presence, time and fingerprint. */
  ghost predicate Tied(a: Option<Rec>, b: Option<Rec>) {
    a.Some? == b.Some? && (a.Some? ==> Stamp(a.value) == Stamp(b.value))
  }

  lemma SameMembersTiedPicks(a: seq<Rec>, b: seq<Rec>)
    requires forall r :: r in a <==> r in b
    ensures Tied(Pick(a), Pick(b))
    ensures (forall x, y :: x in a && y in a && Stamp(x) == Stamp(y) ==> x == y) ==> Pick(a) == Pick(b)
  {
    hide Pick, StampLeq;
    ShuffledEmptiness(a, b);
    if a != [] {
      PickIsLatest(a);
      PickIsLatest(b);
      EqualStamps(Pick(a).value, Pick(b).value);
    } else {
      PickOfNothing();
    }
  }

  lemma PickOfNothing()
    ensures Pick([]) == None
  {
  }

  predicate Indistinct(x: Rec, y: Rec, bySession: bool) {
    KeyOf(x) == KeyOf(y) && Stamp(x) == Stamp(y) && (bySession ==> SessionOf(x) == SessionOf(y))
  }

  /** Records that carry the same key, time and fingerprint, and where sessions are kept apart the same
      session, are the same record. */
  ghost predicate NoTies(recs: seq<Rec>, bySession: bool) {
    forall x, y :: x in recs && y in recs && Indistinct(x, y, bySession) ==> x == y
  }

  lemma ScopeMembers(o: seq<Rec>, s: string)
    ensures s in Distinct(SessionsOf(Filter(o, IsScoped()))) <==> exists r :: r in o && Truthy(r.scope) && r.scope.value == s
  {
    var scoped := Filter(o, IsScoped());
    SessionsRun(scoped, s);
    if Runs(scoped, s) {
      var r :| r in scoped && SessionOf(r) == s;
      assert r in o;
    }
    if exists r :: r in o && Truthy(r.scope) && r.scope.value == s {
      var r :| r in o && Truthy(r.scope) && r.scope.value == s;
      assert r in scoped;
    }
  }

  lemma SameMembersSameScope(o: seq<Rec>, o': seq<Rec>, explicit: Option<string>)
    requires forall r :: r in o <==> r in o'
    ensures OriginalScope(o, explicit) == OriginalScope(o', explicit)
  {
    if !Truthy(explicit) {
      var a, b := Distinct(SessionsOf(Filter(o, IsScoped()))), Distinct(SessionsOf(Filter(o', IsScoped())));
      forall s ensures s in a <==> s in b {
        ScopeMembers(o, s);
        ScopeMembers(o', s);
      }
      SameDistinctLength(a, b);
      if |a| == 1 {
        assert a[0] in a;
        assert b[0] in b;
      }
    }
  }

  lemma {:induction false} SetOfDistinct(xs: seq<string>)
    requires NoDuplicates(xs)
    ensures |set x | x in xs| == |xs|
  {
    if xs != [] {
      var front := xs[..|xs| - 1];
      assert xs == front + [xs[|xs| - 1]];
      SetOfDistinct(front);
      assert (set x | x in xs) == (set x | x in front) + {xs[|xs| - 1]};
    }
  }

  lemma SameDistinctLength(a: seq<string>, b: seq<string>)
    requires NoDuplicates(a) && NoDuplicates(b) && forall s :: s in a <==> s in b
    ensures |a| == |b|
  {
    SetOfDistinct(a);
    SetOfDistinct(b);
    assert (set x | x in a) == (set x | x in b);
  }

  /** Two pairs that agree on everything but the choice among records of equal time and fingerprint. */
  ghost predicate SameUpToTies(x: Pair, y: Pair) {
    && x.key == y.key && x.pivScope == y.pivScope && x.originalScope == y.originalScope
    && Tied(x.original, y.original) && Tied(x.piv, y.piv)
  }

  /** Reading the records in any other order gives the same pairs in the same order, up to the choice
      among records that agree on key, time and fingerprint; and identical pairs when there are none. */
  lemma OrderOfInputIsIrrelevant(o: seq<Rec>, o': seq<Rec>, p: seq<Rec>, p': seq<Rec>, date: Option<string>, explicit: Option<string>)
    requires Shuffled(o, o') && Shuffled(p, p')
    ensures
      var a, b := Aligned(o, p, date, explicit), Aligned(o', p', date, explicit);
      |a| == |b| && forall i :: 0 <= i < |a| ==> SameUpToTies(a[i], b[i])
    ensures NoTies(o, false) && NoTies(p, true) ==>
      Aligned(o, p, date, explicit) == Aligned(o', p', date, explicit)
  {
    hide Slots, PairAt, OriginalScope, Filter, SameUpToTies, NoTies;
    ShuffledMembers(o, o');
    ShuffledMembers(p, p');
    var od, od', pd, pd' := Filter(o, OnDate(date)), Filter(o', OnDate(date)), Filter(p, OnDate(date)), Filter(p', OnDate(date));
    SameMembersSameSlots(od, od', pd, pd');
    SameMembersSameScope(od, od', explicit);
    FilterNoTies(o, OnDate(date), false);
    FilterNoTies(p, OnDate(date), true);
    var slots, scope := Slots(od, pd), OriginalScope(od, explicit);
    forall i | 0 <= i < |slots|
      ensures SameUpToTies(PairAt(od, pd, scope, slots[i]), PairAt(od', pd', scope, slots[i]))
      ensures NoTies(o, false) && NoTies(p, true) ==> PairAt(od, pd, scope, slots[i]) == PairAt(od', pd', scope, slots[i])
    {
      SameMembersSamePair(od, od', pd, pd', scope, slots[i]);
    }
  }

  lemma FilterNoTies(recs: seq<Rec>, keep: Rec -> bool, bySession: bool)
    ensures NoTies(recs, bySession) ==> NoTies(Filter(recs, keep), bySession)
  {
    hide Indistinct;
  }

  lemma SameMembersSamePair(o: seq<Rec>, o': seq<Rec>, p: seq<Rec>, p': seq<Rec>, scope: string, x: Slot)
    requires forall r :: r in o <==> r in o'
    requires forall r :: r in p <==> r in p'
    ensures SameUpToTies(PairAt(o, p, scope, x), PairAt(o', p', scope, x))
    ensures NoTies(o, false) && NoTies(p, true) ==> PairAt(o, p, scope, x) == PairAt(o', p', scope, x)
  {
    hide Pick, Stamp, Filter;
    SameMembersTiedPicks(Filter(o, HasKey(x.key)), Filter(o', HasKey(x.key)));
    SameMembersTiedPicks(PivCandidates(p, x), PivCandidates(p', x));
    if NoTies(o, false) {
      forall r, q | r in Filter(o, HasKey(x.key)) && q in Filter(o, HasKey(x.key)) && Stamp(r) == Stamp(q) ensures r == q {
        assert Indistinct(r, q, false);
      }
    }
    if NoTies(p, true) {
      forall r, q | r in PivCandidates(p, x) && q in PivCandidates(p, x) && Stamp(r) == Stamp(q) ensures r == q {
        assert Indistinct(r, q, true);
      }
    }
  }

  // ------------------------------------------------------------------- locality

  lemma FilterSkips(recs: seq<Rec>, r: Rec, keep: Rec -> bool)
    requires !keep(r)
    ensures Filter(recs + [r], keep) == Filter(recs, keep)
  {
    FilterSnoc(recs, r, keep);
  }

  lemma HoldsElsewhere(recs: seq<Rec>, r: Rec, k: Key)
    requires KeyOf(r) != k
    ensures Holds(recs + [r], k) <==> Holds(recs, k)
  {
  }

  /** A new PIV record of a session already there changes only the comparisons of its own key. */
  lemma NewPivRecordIsLocal(o: seq<Rec>, p: seq<Rec>, r: Rec, explicit: Option<string>, x: Slot)
    requires Runs(p, SessionOf(r)) && x.key != KeyOf(r)
    ensures
      var scope := OriginalScope(o, explicit);
      && (x in Slots(o, p) <==> x in Slots(o, p + [r]))
      && PairAt(o, p, scope, x) == PairAt(o, p + [r], scope, x)
  {
    hide Slots, Pick, Holds;
    SlotsAreExactlyDue(o, p, x);
    SlotsAreExactlyDue(o, p + [r], x);
    assert p != [] by { assert p == [] ==> !Runs(p, SessionOf(r)); }
    if x.session.Some? {
      RunsMore(p, r, x.session.value);
      CandidatesElsewhere(p, r, x.session.value, x.key);
    }
  }

  lemma CandidatesElsewhere(p: seq<Rec>, r: Rec, s: string, k: Key)
    requires KeyOf(r) != k
    ensures Filter(Filter(p + [r], InSession(s)), HasKey(k)) == Filter(Filter(p, InSession(s)), HasKey(k))
    ensures Holds(Filter(p + [r], InSession(s)), k) <==> Holds(Filter(p, InSession(s)), k)
  {
    hide Holds;
    var mine := Filter(p, InSession(s));
    FilterSnoc(p, r, InSession(s));
    if SessionOf(r) == s {
      assert Filter(p + [r], InSession(s)) == mine + [r];
      HoldsElsewhere(mine, r, k);
      FilterSkips(mine, r, HasKey(k));
    } else {
      assert Filter(p + [r], InSession(s)) == mine;
    }
  }

  lemma RunsMore(p: seq<Rec>, r: Rec, s: string)
    requires Runs(p, SessionOf(r))
    ensures Runs(p + [r], s) <==> Runs(p, s)
  {
  }

  /** A new Original record changes the comparison of another key exactly when it changes the scope
      attributed to the Original records and that comparison has an Original side. With an explicit
      scope it never does. */
  lemma NewOriginalRecordIsLocalExactly(o: seq<Rec>, p: seq<Rec>, r: Rec, explicit: Option<string>, x: Slot)
    requires x.key != KeyOf(r)
    ensures x in Slots(o, p) <==> x in Slots(o + [r], p)
    ensures
      PairAt(o, p, OriginalScope(o, explicit), x) == PairAt(o + [r], p, OriginalScope(o + [r], explicit), x)
      <==> OriginalScope(o, explicit) == OriginalScope(o + [r], explicit) || !Holds(o, x.key)
    ensures Truthy(explicit) ==> OriginalScope(o, explicit) == OriginalScope(o + [r], explicit)
  {
    hide Slots, Pick, OriginalScope;
    SlotsAreExactlyDue(o, p, x);
    SlotsAreExactlyDue(o + [r], p, x);
    HoldsElsewhere(o, r, x.key);
    FilterSkips(o, r, HasKey(x.key));
    HoldsPicks(o, x.key);
    ExplicitScope(o, r, explicit);
  }

  lemma HoldsPicks(o: seq<Rec>, k: Key)
    ensures Pick(Filter(o, HasKey(k))).Some? <==> Holds(o, k)
  {
  }

  lemma ExplicitScope(o: seq<Rec>, r: Rec, explicit: Option<string>)
    ensures Truthy(explicit) ==> OriginalScope(o, explicit) == OriginalScope(o + [r], explicit)
  {
  }

  // --------------------------------------------------------------- classification

  /** Records of one pair share their stage, so which pipeline is called Original does not matter. */
  lemma ClassificationIsSymmetric(o: Option<Rec>, p: Option<Rec>, originalOk: bool, pivOk: bool)
    requires o.Some? && p.Some? ==> KeyOf(o.value) == KeyOf(p.value)
    ensures Classify(o, p, originalOk, pivOk) == Classify(p, o, pivOk, originalOk)
  {
  }

  /** When a pair counts as agreement: never on an unscoped Original run, and for events only with both
      sources healthy and the same bar, execution class and fingerprint on both sides. */
  lemma AgreementExactly(pair: Pair, originalOk: bool, pivOk: bool)
    requires pair.original.Some? && pair.piv.Some? && pair.originalScope.Some?
    ensures ClassifyPair(pair, originalOk, pivOk) == None <==>
      && pair.originalScope.value != UNSCOPED
      && if pair.kind.AggregateRecord? then Amount(pair.original.value) == Amount(pair.piv.value)
         else originalOk && pivOk
              && BarTime(pair.original.value) == BarTime(pair.piv.value)
              && pair.original.value.executionClass == pair.piv.value.executionClass
              && pair.original.value.fingerprint == pair.piv.value.fingerprint
  {
  }

  // ------------------------------------------------- identical pipelines never diverge

  /** Two records that tell the same story, whichever pipeline, run and source they come from. */
  ghost predicate Mirrors(a: Rec, b: Rec) {
    && KeyOf(a) == KeyOf(b) && Stamp(a) == Stamp(b) && BarTime(a) == BarTime(b)
    && a.fingerprint == b.fingerprint && a.executionClass == b.executionClass && a.kind == b.kind && Amount(a) == Amount(b)
  }

  ghost predicate Mirrored(xs: seq<Rec>, ys: seq<Rec>) {
    |xs| == |ys| && forall i :: 0 <= i < |xs| ==> Mirrors(xs[i], ys[i])
  }

  lemma {:induction false} MirroredFilters(xs: seq<Rec>, ys: seq<Rec>, f: Rec -> bool, g: Rec -> bool)
    requires Mirrored(xs, ys) && forall i :: 0 <= i < |xs| ==> f(xs[i]) == g(ys[i])
    ensures Mirrored(Filter(xs, f), Filter(ys, g))
  {
    hide Mirrors;
    if xs != [] {
      MirroredFilters(xs[1..], ys[1..], f, g);
    }
  }

  /** The index whose record is latest, and last read among the latest. */
  ghost predicate LatestAt(recs: seq<Rec>, i: nat) {
    && i < |recs| && (forall j :: 0 <= j < |recs| ==> StampLeq(recs[j], recs[i]))
    && (forall j :: i < j < |recs| ==> Stamp(recs[j]) != Stamp(recs[i]))
  }

  /** `i` is where the last record stands that ties with `r`. */
  ghost predicate LastTieAt(recs: seq<Rec>, r: Rec, i: nat) {
    && i < |recs| && Stamp(recs[i]) == Stamp(r) && (forall j :: i < j < |recs| ==> Stamp(recs[j]) != Stamp(r))
    && Filter(recs, SameStamp(r)) != [] && Filter(recs, SameStamp(r))[|Filter(recs, SameStamp(r))| - 1] == recs[i]
  }

  lemma LastTieStays(front: seq<Rec>, last: Rec, r: Rec, i: nat)
    requires LastTieAt(front, r, i) && Stamp(last) != Stamp(r)
    ensures LastTieAt(front + [last], r, i)
  {
    hide Stamp, Filter;
    FilterSnoc(front, last, SameStamp(r));
  }

  lemma {:induction false} LastTieExists(recs: seq<Rec>, r: Rec)
    requires Filter(recs, SameStamp(r)) != []
    ensures exists i: nat :: LastTieAt(recs, r, i)
  {
    hide Stamp;
    var front, last := recs[..|recs| - 1], recs[|recs| - 1];
    assert recs == front + [last];
    FilterSnoc(front, last, SameStamp(r));
    if Stamp(last) == Stamp(r) {
      assert LastTieAt(recs, r, |recs| - 1);
    } else {
      LastTieExists(front, r);
      var i: nat :| LastTieAt(front, r, i);
      LastTieStays(front, last, r, i);
    }
  }

  lemma PickIsLatestAt(recs: seq<Rec>)
    requires recs != []
    ensures exists i: nat :: LatestAt(recs, i) && Pick(recs) == Some(recs[i])
  {
    PickIsLatest(recs);
    PickIsLastRead(recs);
    hide Pick, Stamp, StampLeq, Filter;
    var r := Pick(recs).value;
    LastTieExists(recs, r);
    var i: nat :| LastTieAt(recs, r, i);
    assert recs[i] == r;
    hide LastTieAt;
    assert LatestAt(recs, i) by { LastTieIsLatest(recs, r, i); }
  }

  lemma LastTieIsLatest(recs: seq<Rec>, r: Rec, i: nat)
    requires LastTieAt(recs, r, i) && recs[i] == r && forall x :: x in recs ==> StampLeq(x, r)
    ensures LatestAt(recs, i)
  {
    hide Stamp, StampLeq, Filter;
  }

  /** Mirrored candidates lead to mirrored picks. */
  lemma MirroredPicks(xs: seq<Rec>, ys: seq<Rec>)
    requires Mirrored(xs, ys) && xs != []
    ensures Pick(xs).Some? && Pick(ys).Some? && Mirrors(Pick(xs).value, Pick(ys).value)
  {
    hide Pick;
    PickIsLatestAt(xs);
    PickIsLatestAt(ys);
    var i: nat :| LatestAt(xs, i) && Pick(xs) == Some(xs[i]);
    var j: nat :| LatestAt(ys, j) && Pick(ys) == Some(ys[j]);
    assert Mirrors(xs[i], ys[i]) && Mirrors(xs[j], ys[j]);
    EqualStamps(ys[i], ys[j]);
  }

  lemma AllInSession(p: seq<Rec>, s: string)
    requires forall r :: r in p ==> SessionOf(r) == s
    ensures Filter(p, InSession(s)) == p
  {
    FilterAll(p, InSession(s));
  }

  lemma MirrorHolds(o: seq<Rec>, p: seq<Rec>, k: Key)
    requires Mirrored(o, p) && Holds(p, k)
    ensures Holds(o, k)
  {
    hide Stamp;
    var q :| q in p && KeyOf(q) == k;
    var j :| 0 <= j < |p| && p[j] == q;
    assert Mirrors(o[j], p[j]) && o[j] in o;
  }

  lemma SlotSession(o: seq<Rec>, p: seq<Rec>, slot: Slot, s: string)
    requires DueSlot(o, p, slot) && Mirrored(o, p) && (forall r :: r in p ==> SessionOf(r) == s) && Filter(p, InSession(s)) == p
    ensures slot.session == Some(s) && Filter(o, HasKey(slot.key)) != []
  {
    hide Stamp, Mirrors;
    assert slot.session.None? ==> |o| == 0;
    if Holds(p, slot.key) {
      MirrorHolds(o, p, slot.key);
    }
    var q :| q in o && KeyOf(q) == slot.key;
    assert q in Filter(o, HasKey(slot.key));
  }

  /** The candidates of a due slot on its two sides mirror each other, and there are some. */
  lemma MirroredCandidates(o: seq<Rec>, p: seq<Rec>, slot: Slot, s: string)
    requires Mirrored(o, p) && DueSlot(o, p, slot) && forall r :: r in p ==> SessionOf(r) == s
    ensures slot.session == Some(s) && Filter(o, HasKey(slot.key)) != []
    ensures Mirrored(Filter(o, HasKey(slot.key)), PivCandidates(p, slot))
  {
    AllInSession(p, s);
    SlotSession(o, p, slot, s);
    MirroredKeys(o, p);
    hide Mirrors, DueSlot, KeyOf;
    MirroredFilters(o, p, HasKey(slot.key), HasKey(slot.key));
    assert PivCandidates(p, slot) == Filter(p, HasKey(slot.key));
  }

  lemma MirroredKeys(o: seq<Rec>, p: seq<Rec>)
    requires Mirrored(o, p)
    ensures forall j :: 0 <= j < |o| ==> KeyOf(o[j]) == KeyOf(p[j]) && o[j].date == p[j].date
  {
    hide Stamp, BarTime, Amount;
    forall j | 0 <= j < |o| ensures KeyOf(o[j]) == KeyOf(p[j]) && o[j].date == p[j].date { assert Mirrors(o[j], p[j]); }
  }

  /** Two mirrored picks of a scoped Original run agree. */
  lemma MirroredPairAgrees(a: Rec, b: Rec, scope: string, slot: Slot)
    requires Mirrors(a, b) && scope != UNSCOPED
    ensures ClassifyPair(PairOf(Some(a), Some(b), scope, slot), true, true) == None
  {
    hide Stamp;
  }

  lemma MirroredDates(originals: seq<Rec>, pivs: seq<Rec>, date: Option<string>)
    requires Mirrored(originals, pivs)
    ensures Mirrored(Filter(originals, OnDate(date)), Filter(pivs, OnDate(date)))
  {
    MirroredKeys(originals, pivs);
    hide Mirrors;
    MirroredFilters(originals, pivs, OnDate(date), OnDate(date));
  }

  /** If one PIV session told exactly the story of the Original records, read in the same order, and the
      Original run is scoped and both sources healthy, every comparison finds both sides and none
      reports a divergence. */
  lemma IdenticalPipelinesNeverDiverge(originals: seq<Rec>, pivs: seq<Rec>, date: Option<string>, scope: string, s: string, i: nat)
    requires Mirrored(originals, pivs) && forall r :: r in pivs ==> SessionOf(r) == s
    requires scope != "" && scope != UNSCOPED
    requires i < |Aligned(originals, pivs, date, Some(scope))|
    ensures
      var pair := Aligned(originals, pivs, date, Some(scope))[i];
      pair.original.Some? && pair.piv.Some? && ClassifyPair(pair, true, true) == None
  {
    hide Slots, Pick, Mirrors, Mirrored, DueSlot, ClassifyPair, PairOf, PivCandidates;
    var o, p := Filter(originals, OnDate(date)), Filter(pivs, OnDate(date));
    MirroredDates(originals, pivs, date);
    var slot := Slots(o, p)[i];
    SlotsAreExactlyDue(o, p, slot);
    MirroredCandidates(o, p, slot, s);
    var xs, ys := Filter(o, HasKey(slot.key)), PivCandidates(p, slot);
    MirroredPicks(xs, ys);
    MirroredPairAgrees(Pick(xs).value, Pick(ys).value, scope, slot);
    assert Aligned(originals, pivs, date, Some(scope))[i] == PairOf(Pick(xs), Pick(ys), scope, slot);
    PairSides(Pick(xs), Pick(ys), scope, slot);
  }

  lemma PairSides(o: Option<Rec>, p: Option<Rec>, scope: string, slot: Slot)
    ensures PairOf(o, p, scope, slot).original == o && PairOf(o, p, scope, slot).piv == p
  {
  }
}
