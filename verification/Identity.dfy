/** The comparison record, its keys and its stored form (talonx_compare/identity.py). */
module Identity {
  import opened Sequences

  datatype Kind = EventRecord | AggregateRecord

  datatype Rec = Rec(
    pipeline: string, session: Option<string>, date: string, stage: string, symbol: string, eventTime: Option<string>,
    barTime: Option<string>, decision: Option<string>, outcome: Option<string>, reasons: seq<string>,
    executionClass: string, fingerprint: string, identity: string, scope: Option<string>, kind: Kind,
    aggregate: Option<string>, value: Option<real>, source: string)

  /** What records are aligned on. */
  datatype Key = Key(date: string, stage: string, symbol: string, identity: string)

  function KeyOf(r: Rec): Key { Key(r.date, r.stage, r.symbol, r.identity) }

  predicate Truthy(s: Option<string>) { s.Some? && s.value != "" }

  // --------------------------------------------------------------- the dedup key

  const DASH := "-"

  function OrDash(s: string): string { if s == "" then DASH else s }

  function ScopePart(r: Rec): string { if Truthy(r.scope) then r.scope.value else DASH }

  function KindText(k: Kind): string { if k.EventRecord? then "EVENT" else "AGGREGATE" }

  function Parts(r: Rec): seq<string> {
    [r.pipeline, KindText(r.kind), ScopePart(r), r.date, r.stage, OrDash(r.symbol), OrDash(r.identity), r.fingerprint]
  }

  function Join(parts: seq<string>): string {
    if parts == [] then ""
    else if |parts| == 1 then parts[0]
    else parts[0] + "|" + Join(parts[1..])
  }

  function DedupKey(r: Rec): string { Join(Parts(r)) }

  /** The pieces between the separators of a text. */
  function Split(s: string): (pieces: seq<string>)
    ensures pieces != []
  {
    if s == "" then [""]
    else if s[0] == '|' then [""] + Split(s[1..])
    else var rest := Split(s[1..]); [[s[0]] + rest[0]] + rest[1..]
  }

  function SplitAll(parts: seq<string>): seq<string> {
    if parts == [] then [] else Split(parts[0]) + SplitAll(parts[1..])
  }

  /** What a dedup key really carries: the record's fields cut at every separator, in order. */
  function Pieces(r: Rec): seq<string> { SplitAll(Parts(r)) }

  lemma {:induction false} SplitConcat(x: string, y: string)
    ensures Split(x + "|" + y) == Split(x) + Split(y)
  {
    if x == "" {
      assert (x + "|" + y)[1..] == y;
    } else {
      assert (x + "|" + y)[1..] == x[1..] + "|" + y;
      SplitConcat(x[1..], y);
    }
  }

  lemma {:induction false} SplitJoin(parts: seq<string>)
    requires parts != []
    ensures Split(Join(parts)) == SplitAll(parts)
  {
    if |parts| == 1 {
      assert SplitAll(parts[1..]) == [];
    } else {
      SplitJoin(parts[1..]);
      SplitConcat(parts[0], Join(parts[1..]));
    }
  }

  lemma {:induction false} JoinSplit(s: string)
    ensures Join(Split(s)) == s
  {
    if s != "" {
      JoinSplit(s[1..]);
      var rest := Split(s[1..]);
      assert s == [s[0]] + s[1..];
      if s[0] == '|' {
        assert ([""] + rest)[1..] == rest;
      } else {
        assert ([[s[0]] + rest[0]] + rest[1..])[1..] == rest[1..];
      }
    }
  }

  /** Two records share a dedup key exactly when their fields, cut at every separator, give the same pieces. */
  lemma SameKeyExactly(a: Rec, b: Rec)
    ensures DedupKey(a) == DedupKey(b) <==> Pieces(a) == Pieces(b)
  {
    SplitJoin(Parts(a));
    SplitJoin(Parts(b));
    JoinSplit(DedupKey(a));
    JoinSplit(DedupKey(b));
  }

  predicate PipeFree(s: string) { '|' !in s }

  lemma {:induction false} PipeFreeSplit(s: string)
    requires PipeFree(s)
    ensures Split(s) == [s]
  {
    if s != "" {
      assert forall c :: c in s[1..] ==> c in s;
      PipeFreeSplit(s[1..]);
      assert s == [s[0]] + s[1..];
    }
  }

  /** No field but the last contains the separator. */
  ghost predicate Separable(r: Rec) { forall i :: 0 <= i < 7 ==> PipeFree(Parts(r)[i]) }

  lemma {:induction false} PiecesOfSeparable(parts: seq<string>)
    requires parts != [] && forall i :: 0 <= i < |parts| - 1 ==> PipeFree(parts[i])
    ensures SplitAll(parts) == parts[..|parts| - 1] + Split(parts[|parts| - 1])
  {
    hide Split;
    if |parts| > 1 {
      var rest := parts[1..];
      assert PipeFree(parts[0]);
      PipeFreeSplit(parts[0]);
      assert forall i :: 0 <= i < |rest| - 1 ==> rest[i] == parts[i + 1];
      PiecesOfSeparable(rest);
      assert SplitAll(parts) == [parts[0]] + SplitAll(rest);
      assert parts[..|parts| - 1] == [parts[0]] + rest[..|rest| - 1];
    } else {
      assert SplitAll(parts[1..]) == [];
      assert parts[..0] == [];
    }
  }

  /** For records whose fields do not contain the separator, equal dedup keys mean exactly: the same
      pipeline, kind, date, stage and fingerprint, and the same scope, symbol and identity up to the
      dash that stands for an absent one. */
  lemma DedupKeyExactly(a: Rec, b: Rec)
    requires Separable(a) && Separable(b)
    ensures DedupKey(a) == DedupKey(b) <==>
      && a.pipeline == b.pipeline && a.kind == b.kind && a.date == b.date && a.stage == b.stage
      && a.fingerprint == b.fingerprint && ScopePart(a) == ScopePart(b)
      && OrDash(a.symbol) == OrDash(b.symbol) && OrDash(a.identity) == OrDash(b.identity)
  {
    hide Join, Split;
    if DedupKey(a) == DedupKey(b) {
      SameKeyExactly(a, b);
      PiecesOfSeparable(Parts(a));
      PiecesOfSeparable(Parts(b));
      FrontAndBack(Parts(a)[..7], Split(a.fingerprint), Parts(b)[..7], Split(b.fingerprint));
      JoinSplit(a.fingerprint);
      JoinSplit(b.fingerprint);
      assert forall i :: 0 <= i < 7 ==> Parts(a)[i] == Parts(a)[..7][i] && Parts(b)[i] == Parts(b)[..7][i];
      SameParts(a, b);
    }
  }

  lemma FrontAndBack(x: seq<string>, y: seq<string>, x': seq<string>, y': seq<string>)
    requires x + y == x' + y' && |x| == |x'|
    ensures x == x' && y == y'
  {
    assert x == (x + y)[..|x|] && x' == (x' + y')[..|x|] && y == (x + y)[|x|..] && y' == (x' + y')[|x|..];
  }

  lemma SameParts(a: Rec, b: Rec)
    requires forall i :: 0 <= i < 7 ==> Parts(a)[i] == Parts(b)[i]
    ensures a.pipeline == b.pipeline && a.kind == b.kind && a.date == b.date && a.stage == b.stage
    ensures ScopePart(a) == ScopePart(b) && OrDash(a.symbol) == OrDash(b.symbol) && OrDash(a.identity) == OrDash(b.identity)
  {
    assert Parts(a)[0] == Parts(b)[0] && Parts(a)[1] == Parts(b)[1] && Parts(a)[2] == Parts(b)[2] && Parts(a)[3] == Parts(b)[3];
    assert Parts(a)[4] == Parts(b)[4] && Parts(a)[5] == Parts(b)[5] && Parts(a)[6] == Parts(b)[6];
    KindTexts();
  }

  lemma KindTexts()
    ensures KindText(EventRecord) != KindText(AggregateRecord)
  {
  }

  /** The record with its `i`-th key part replaced; pipeline and kind are not free text. */
  function WithPart(r: Rec, i: nat, text: string): Rec
    requires 2 <= i < 8
  {
    if i == 2 then r.(scope := Some(text))
    else if i == 3 then r.(date := text)
    else if i == 4 then r.(stage := text)
    else if i == 5 then r.(symbol := text)
    else if i == 6 then r.(identity := text)
    else r.(fingerprint := text)
  }

  lemma PartReplaced(r: Rec, i: nat, text: string)
    requires 2 <= i < 8 && text != ""
    ensures Parts(WithPart(r, i, text)) == Parts(r)[i := text]
  {
    var was, now := Parts(r), Parts(WithPart(r, i, text));
    assert |was| == |now|;
    assert now[i] == text;
    assert forall j :: 0 <= j < |was| && j != i ==> now[j] == was[j];
  }

  lemma {:induction false} SplitAllConcat(xs: seq<string>, ys: seq<string>)
    ensures SplitAll(xs + ys) == SplitAll(xs) + SplitAll(ys)
  {
    if xs == [] {
      assert xs + ys == ys;
    } else {
      assert (xs + ys)[1..] == xs[1..] + ys;
      SplitAllConcat(xs[1..], ys);
    }
  }

  lemma SplitPair(x: string, y: string)
    ensures SplitAll([x, y]) == Split(x) + Split(y)
  {
    hide Split;
    assert [x, y][1..] == [y] && [y][1..] == [];
    assert SplitAll([y]) == Split(y) + [];
  }

  /** A separator can slide from any field into the next. */
  lemma SlidingSeparator(before: seq<string>, x: string, y: string, z: string, after: seq<string>)
    ensures SplitAll(before + [x + "|" + y, z] + after) == SplitAll(before + [x, y + "|" + z] + after)
  {
    var l, r := [x + "|" + y, z], [x, y + "|" + z];
    SplitConcat(x, y);
    SplitConcat(y, z);
    SplitPair(x + "|" + y, z);
    SplitPair(x, y + "|" + z);
    hide Split, SplitAll;
    SplitAllConcat(before, l);
    SplitAllConcat(before, r);
    SplitAllConcat(before + l, after);
    SplitAllConcat(before + r, after);
  }

  lemma UpdatedPair(xs: seq<string>, i: nat, x: string, y: string)
    requires i + 1 < |xs|
    ensures xs[i := x][i + 1 := y] == xs[..i] + [x, y] + xs[i + 2..]
  {
  }

  lemma PairReplaced(r: Rec, i: nat, x: string, y: string)
    requires 2 <= i < 7 && x != "" && y != ""
    ensures Parts(WithPart(WithPart(r, i, x), i + 1, y)) == Parts(r)[..i] + [x, y] + Parts(r)[i + 2..]
  {
    PartReplaced(r, i, x);
    PartReplaced(WithPart(r, i, x), i + 1, y);
    hide WithPart, Parts;
    UpdatedPair(Parts(r), i, x, y);
  }

  /** Any two neighbouring fields of any record admit two different records with the same key: the
      separator ends the first field of one and starts the second field of the other. */
  lemma AdjacentFieldsCollide(r: Rec, i: nat, x: string, y: string, z: string)
    requires 2 <= i < 7 && x != "" && z != ""
    ensures
      var a := WithPart(WithPart(r, i, x + "|" + y), i + 1, z);
      var b := WithPart(WithPart(r, i, x), i + 1, y + "|" + z);
      a != b && DedupKey(a) == DedupKey(b)
  {
    var a := WithPart(WithPart(r, i, x + "|" + y), i + 1, z);
    var b := WithPart(WithPart(r, i, x), i + 1, y + "|" + z);
    PairReplaced(r, i, x + "|" + y, z);
    PairReplaced(r, i, x, y + "|" + z);
    hide WithPart, Parts, SplitAll, Split, Join;
    SlidingSeparator(Parts(r)[..i], x, y, z, Parts(r)[i + 2..]);
    SameKeyExactly(a, b);
    assert Parts(a)[i] == x + "|" + y && Parts(b)[i] == x;
    assert |x + "|" + y| > |x|;
  }

  /** For instance, symbol "A|B" with identity "C" collides with symbol "A" and identity "B|C". */
  lemma SymbolAndIdentityCollide(r: Rec)
    ensures
      var a, b := r.(symbol := "A|B", identity := "C"), r.(symbol := "A", identity := "B|C");
      a != b && KeyOf(a) != KeyOf(b) && DedupKey(a) == DedupKey(b)
  {
    AdjacentFieldsCollide(r, 5, "A", "B", "C");
    assert "A" + "|" + "B" == "A|B" && "B" + "|" + "C" == "B|C";
    assert |"A|B"| != |"A"|;
  }

  // ------------------------------------------------------------- the stored form

  /** The field names of a stored record. */
  datatype Field =
    | PipelineField | SessionField | ScopeField | KindField | DateField | StageField | SymbolField | EventTimeField
    | BarTimeField | DecisionField | IdentityField | OutcomeField | ReasonsField | ClassField | AggregateField
    | ValueField | FingerprintField | SourceField | IdField

  datatype Json = Null | Text(text: string) | Number(number: real) | Texts(texts: seq<string>)

  function OptionalText(s: Option<string>): Json { if s.Some? then Text(s.value) else Null }

  function StoredValue(r: Rec, f: Field): Json {
    match f
    case PipelineField => Text(r.pipeline)
    case SessionField => OptionalText(r.session)
    case ScopeField => OptionalText(r.scope)
    case KindField => Text(KindText(r.kind))
    case DateField => Text(r.date)
    case StageField => Text(r.stage)
    case SymbolField => Text(r.symbol)
    case EventTimeField => OptionalText(r.eventTime)
    case BarTimeField => OptionalText(r.barTime)
    case DecisionField => OptionalText(r.decision)
    case IdentityField => Text(r.identity)
    case OutcomeField => OptionalText(r.outcome)
    case ReasonsField => Texts(r.reasons)
    case ClassField => Text(r.executionClass)
    case AggregateField => OptionalText(r.aggregate)
    case ValueField => if r.value.Some? then Number(r.value.value) else Null
    case FingerprintField => Text(r.fingerprint)
    case SourceField => Text(r.source)
    case IdField => Text(DedupKey(r))
  }

  function ToDict(r: Rec): map<Field, Json> { map f: Field | true :: StoredValue(r, f) }

  datatype Result<T> = Ok(value: T) | MissingField(name: Field)

  function TextOr(d: map<Field, Json>, name: Field, default: string): string {
    if name in d && d[name].Text? then d[name].text else default
  }

  function OptionalOf(d: map<Field, Json>, name: Field): Option<string> {
    if name in d && d[name].Text? then Some(d[name].text) else None
  }

  /** Reads a stored record back; rows written before a field existed get its default. */
  function FromDict(d: map<Field, Json>): Result<Rec> {
    if PipelineField !in d then MissingField(PipelineField)
    else if DateField !in d then MissingField(DateField)
    else if StageField !in d then MissingField(StageField)
    else if FingerprintField !in d then MissingField(FingerprintField)
    else Ok(Rec(
      TextOr(d, PipelineField, ""), OptionalOf(d, SessionField), TextOr(d, DateField, ""), TextOr(d, StageField, ""),
      TextOr(d, SymbolField, ""), OptionalOf(d, EventTimeField), OptionalOf(d, BarTimeField), OptionalOf(d, DecisionField),
      OptionalOf(d, OutcomeField),
      if ReasonsField in d && d[ReasonsField].Texts? then d[ReasonsField].texts else [],
      TextOr(d, ClassField, "NONE"), TextOr(d, FingerprintField, ""), TextOr(d, IdentityField, ""),
      OptionalOf(d, ScopeField), ReadKind(TextOr(d, KindField, "EVENT")),
      OptionalOf(d, AggregateField),
      if ValueField in d && d[ValueField].Number? then Some(d[ValueField].number) else None,
      TextOr(d, SourceField, "")))
  }

  lemma ReadsText(r: Rec, f: Field, default: string)
    ensures f in ToDict(r) && ToDict(r)[f] == StoredValue(r, f)
    ensures StoredValue(r, f).Text? ==> TextOr(ToDict(r), f, default) == StoredValue(r, f).text
  {
  }

  lemma ReadsOptional(r: Rec, f: Field, s: Option<string>)
    requires StoredValue(r, f) == OptionalText(s)
    ensures OptionalOf(ToDict(r), f) == s
  {
  }

  function ReadKind(text: string): Kind { if text == "EVENT" then EventRecord else AggregateRecord }

  lemma ReadsRequired(r: Rec)
    ensures
      var d := ToDict(r);
      && PipelineField in d && DateField in d && StageField in d && FingerprintField in d && ReasonsField in d && ValueField in d
      && TextOr(d, PipelineField, "") == r.pipeline && TextOr(d, DateField, "") == r.date
      && TextOr(d, StageField, "") == r.stage && TextOr(d, FingerprintField, "") == r.fingerprint
      && d[ReasonsField] == Texts(r.reasons) && d[ValueField] == (if r.value.Some? then Number(r.value.value) else Null)
      && IdField in d && d[IdField] == Text(DedupKey(r))
  {
    hide ToDict, TextOr;
    ReadsText(r, PipelineField, "");
    ReadsText(r, DateField, "");
    ReadsText(r, StageField, "");
    ReadsText(r, FingerprintField, "");
    ReadsText(r, ReasonsField, "");
    ReadsText(r, ValueField, "");
    ReadsText(r, IdField, "");
  }

  lemma ReadsDefaulted(r: Rec)
    ensures
      var d := ToDict(r);
      && TextOr(d, SymbolField, "") == r.symbol && TextOr(d, ClassField, "NONE") == r.executionClass
      && TextOr(d, IdentityField, "") == r.identity && TextOr(d, SourceField, "") == r.source
      && ReadKind(TextOr(d, KindField, "EVENT")) == r.kind
  {
  }

  /** What is stored is read back exactly, and under the identity it was stored with. */
  lemma StoredRecordRoundTrips(r: Rec)
    ensures FromDict(ToDict(r)) == Ok(r)
    ensures IdField in ToDict(r) && ToDict(r)[IdField] == Text(DedupKey(FromDict(ToDict(r)).value))
  {
    ReadsOptional(r, SessionField, r.session);
    ReadsOptional(r, ScopeField, r.scope);
    ReadsOptional(r, EventTimeField, r.eventTime);
    ReadsOptional(r, BarTimeField, r.barTime);
    ReadsOptional(r, DecisionField, r.decision);
    ReadsOptional(r, OutcomeField, r.outcome);
    ReadsOptional(r, AggregateField, r.aggregate);
    ReadsRequired(r);
    ReadsDefaulted(r);
    hide DedupKey, ToDict, TextOr, OptionalOf, ReadKind, StoredValue, OptionalText;
  }
}
