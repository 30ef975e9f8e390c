/** Log entries as record payloads (`JournalEntry::encode` and `decode`, src/journal.cpp). The record's kind
    and sequence number are in its header, not in its payload. */
module EntryCodec {
  import opened Tables
  import opened Model
  import opened Text
  import opened Numbers
  import opened Bytes
  import opened Schema
  import opened GrantCodec
  import opened ModelCodec
  import opened ContractCodec
  import opened Cluster
  import opened Engine

  /** What records carry besides the state: ten diagnostic counters of eight bytes, a position a grant
      record refers to, and the note of a cancellation. The engine's state never depends on them. */
  datatype Extras = Extras(counters: seq<byte>, reference: nat, note: string)

  const COUNTERS: Shape := Fixed(80)
  const NOTHING: Shape := Fixed(0)
  const SNAPSHOT_VERSION: nat := 1

  function KindOf(b: Body): nat
  {
    match b
    case Snapshot(_) => 1
    case SetController(_, _) => 2
    case SpecChange(op) =>
      (match op
       case UpsertMember(_, _) => 3
       case RemoveMember(_) => 4
       case SetLifecycle(_, _) => 5
       case UpsertPath(_, _) => 6
       case RemovePath(_) => 7
       case SetPathState(_, _) => 8
       case UpsertExclusion(_, _) => 9
       case RemoveExclusion(_) => 10
       case UpsertObligation(_, _) => 11
       case RemoveObligation(_) => 12)
    case ContractChange(UpsertContract(_, _)) => 13
    case ContractChange(RemoveContract(_)) => 14
    case EpochBegin(_, _) => 15
    case PolicySet(_) => 16
    case TickMark => 17
    case GrantRecord(kind, _, _, _) =>
      (match kind
       case PreparedRecord => 18
       case CommittedRecord => 19
       case AcknowledgedRecord => 20
       case ReleasedRecord => 21
       case TerminalRecord => 22)
    case AttemptTerminal(_, _) => 23
    case AttemptCancelled(_) => 24
    case CountersSync => 25
  }

  const CONTROLLER: Shape := Both(NAME, COORDINATE)
  const LIFECYCLE_CHANGE: Shape := Both(NAME, Num(1, 6))
  const STATE_CHANGE: Shape := Both(NAME, Num(1, 4))
  const GRANT_CHANGE: Shape := Both(GRANT, Both(Num(1, 8), U64))
  const CANCELLATION: Shape := Both(NAME, Str(MAX_NOTE, Utf8))

  /** The field list of every kind but the snapshot. */
  function ShapeOf(kind: nat): Shape
  {
    if kind == 2 || kind == 15 then CONTROLLER
    else if kind == 3 then MEMBER
    else if kind == 5 then LIFECYCLE_CHANGE
    else if kind == 6 then PATH
    else if kind == 8 then STATE_CHANGE
    else if kind == 9 then EXCLUSION
    else if kind == 11 then OBLIGATION
    else if kind == 13 then CONTRACT
    else if kind == 16 then U64
    else if kind == 17 then NOTHING
    else if 18 <= kind <= 22 then GRANT_CHANGE
    else if kind == 23 then ATTEMPT
    else if kind == 24 then CANCELLATION
    else if kind == 25 then COUNTERS
    else NAME
  }

  function ValueOf(b: Body, x: Extras): Value
  {
    match b
    case Snapshot(_) => Chars_([])
    case SetController(cluster, at) => Pair(Chars_(cluster), CoordinateValue(at))
    case EpochBegin(cluster, at) => Pair(Chars_(cluster), CoordinateValue(at))
    case PolicySet(policy) => Number(policy)
    case TickMark => Raw([])
    case SpecChange(op) =>
      (match op
       case UpsertMember(id, m) => MemberValue(Row(id, m))
       case RemoveMember(id) => Chars_(id)
       case SetLifecycle(id, l) => Pair(Chars_(id), Number(LifecycleNumber(l)))
       case UpsertPath(id, p) => PathValue(Row(id, p))
       case RemovePath(id) => Chars_(id)
       case SetPathState(id, s) => Pair(Chars_(id), Number(PathStateNumber(s)))
       case UpsertExclusion(id, e) => ExclusionValue(Row(id, e))
       case RemoveExclusion(id) => Chars_(id)
       case UpsertObligation(id, o) => ObligationValue(Row(id, o))
       case RemoveObligation(id) => Chars_(id))
    case ContractChange(UpsertContract(id, k)) => ContractValue(Row(id, k))
    case ContractChange(RemoveContract(id)) => Chars_(id)
    case GrantRecord(_, id, g, state) => Pair(GrantValue(id, g), Pair(Number(StateNumber(state)), Number(x.reference)))
    case AttemptTerminal(id, a) => AttemptValue(id, a)
    case AttemptCancelled(id) => Pair(Chars_(id), Chars_(x.note))
    case CountersSync => Raw(x.counters)
  }

  function RecordKind(kind: nat): GrantRecordKind
  {
    if kind == 18 then PreparedRecord else if kind == 19 then CommittedRecord
    else if kind == 20 then AcknowledgedRecord else if kind == 21 then ReleasedRecord else TerminalRecord
  }

  function BodyOf(kind: nat, v: Value): Option<Body>
  {
    if kind == 2 then Some(SetController(T(L(v)), CoordinateOf(R(v))))
    else if kind == 3 then Some(SpecChange(UpsertMember(MemberOf(v).id, MemberOf(v).val)))
    else if kind == 4 then Some(SpecChange(RemoveMember(T(v))))
    else if kind == 5 then Some(SpecChange(SetLifecycle(T(L(v)), LifecycleOf(N(R(v))))))
    else if kind == 6 then Some(SpecChange(UpsertPath(PathOf(v).id, PathOf(v).val)))
    else if kind == 7 then Some(SpecChange(RemovePath(T(v))))
    else if kind == 8 then Some(SpecChange(SetPathState(T(L(v)), PathStateOf(N(R(v))))))
    else if kind == 9 then Some(SpecChange(UpsertExclusion(ExclusionOf(v).id, ExclusionOf(v).val)))
    else if kind == 10 then Some(SpecChange(RemoveExclusion(T(v))))
    else if kind == 11 then Some(SpecChange(UpsertObligation(ObligationOf(v).id, ObligationOf(v).val)))
    else if kind == 12 then Some(SpecChange(RemoveObligation(T(v))))
    else if kind == 13 then Some(ContractChange(UpsertContract(ContractOf(v).id, ContractOf(v).val)))
    else if kind == 14 then Some(ContractChange(RemoveContract(T(v))))
    else if kind == 15 then Some(EpochBegin(T(L(v)), CoordinateOf(R(v))))
    else if kind == 16 then Some(PolicySet(N(v)))
    else if kind == 17 then Some(TickMark)
    else if 18 <= kind <= 22 then
      Some(GrantRecord(RecordKind(kind), GrantOf(L(v)).id, GrantOf(L(v)).val, StateOf(N(L(R(v))))))
    else if kind == 23 then Some(AttemptTerminal(GrantCodec.AttemptOf(v).id, GrantCodec.AttemptOf(v).val))
    else if kind == 24 then Some(AttemptCancelled(T(L(v))))
    else if kind == 25 then Some(CountersSync)
    else None
  }

  // ----- snapshots -----

  const GRANTS: Shape := Many(MAX_GRANTS, GRANT, false)
  const ATTEMPTS: Shape := Many(MAX_ATTEMPTS, ATTEMPT, false)

  function GrantRow(row: Row<Grant>): Value { GrantValue(row.id, row.val) }
  function AttemptRow(row: Row<Attempt>): Value { AttemptValue(row.id, row.val) }

  function SnapshotBytes(s: Store, x: Extras): seq<byte>
  {
    Little(SNAPSHOT_VERSION, 4) + (EncodeSpec(s.spec, s.tick) + (EncodeSet(s.contracts)
    + (Emit(GRANTS, Items(All(s.grants, GrantRow))) + (Emit(ATTEMPTS, Items(All(s.attempts, AttemptRow))) + x.counters))))
  }

  function TakeSnapshot(bytes: seq<byte>): Read<Store>
  {
    match TakeInt(bytes, 4)
    case Bad(code) => Bad(code)
    case Got(version, r1) =>
      if version != SNAPSHOT_VERSION then Bad(VersionMismatch) else
        match DecodeSpec(r1)
        case Bad(code) => Bad(code)
        case Got(spec, r2) =>
          match DecodeSet(r2)
          case Bad(code) => Bad(code)
          case Got(contracts, r3) =>
            match Take(GRANTS, r3)
            case Bad(code) => Bad(code)
            case Got(grants, r4) =>
              match Take(ATTEMPTS, r4)
              case Bad(code) => Bad(code)
              case Got(attempts, r5) =>
                match Take(COUNTERS, r5)
                case Bad(code) => Bad(code)
                case Got(_, r6) =>
                  Got(Store(spec.0, spec.1, contracts, All(I(grants), GrantOf), All(I(attempts), GrantCodec.AttemptOf)), r6)
  }

  /** What a snapshot record can hold: every part within its codec's bounds, contracts as a set keeps them. */
  ghost predicate ImageCodable(s: Store)
  {
    && SpecCodable(s.spec, s.tick)
    && Sorted(s.contracts) && AllCodable(s.contracts)
    && (forall i :: 0 <= i < |s.contracts| ==> ContractStatus(s.contracts[i].id, s.contracts[i].val) == Ok)
    && Fits(GRANTS, Items(All(s.grants, GrantRow))) && Fits(ATTEMPTS, Items(All(s.attempts, AttemptRow)))
    && forall i :: 0 <= i < |s.grants| ==> |s.grants[i].val.reductions| <= MAX_REASONS
  }

  // ----- entries -----

  function Encode(tick: nat, b: Body, x: Extras): seq<byte>
  {
    Emit(U64, Number(tick)) + if b.Snapshot? then SnapshotBytes(b.image, x) else Emit(ShapeOf(KindOf(b)), ValueOf(b, x))
  }

  /** A payload decodes only if it is used up to its last byte. */
  function Decode(kind: nat, payload: seq<byte>): Option<(nat, Body)>
  {
    match Take(U64, payload)
    case Bad(_) => None
    case Got(tick, rest) =>
      if kind == 1 then
        match TakeSnapshot(rest)
        case Bad(_) => None
        case Got(s, left) => if left == [] then Some((N(tick), Snapshot(s))) else None
      else
        match Take(ShapeOf(kind), rest)
        case Bad(_) => None
        case Got(v, left) =>
          if left == [] && BodyOf(kind, v).Some? then Some((N(tick), BodyOf(kind, v).value)) else None
  }

  ghost predicate Codable(tick: nat, b: Body, x: Extras)
  {
    && tick <= U64_MAX && |x.counters| == 80
    && if b.Snapshot? then ImageCodable(b.image)
       else Fits(ShapeOf(KindOf(b)), ValueOf(b, x))
            && (b.GrantRecord? ==> |b.grant.reductions| <= MAX_REASONS)
  }

  lemma ShapesSound(kind: nat)
    ensures WellShaped(ShapeOf(kind)) && WellShaped(U64)
  {
    var v := Number(0);
    BaseValues();
    SpecShaped();
    SpecParts();
    ContractShaped();
    AttemptShaped();
    GrantFields(v);
    assert WellShaped(NAME) && WellShaped(U64) && WellShaped(INCARNATION) && WellShaped(COUNTERS) && WellShaped(NOTHING);
    assert WellShaped(Num(1, 6)) && WellShaped(Num(1, 4)) && WellShaped(Num(1, 8)) && WellShaped(Str(MAX_NOTE, Utf8));
    hide WellShaped, Base;
    Fields4(U64, U64, U64, INCARNATION, v);
    Fields2(NAME, COORDINATE, v);
    Fields2(NAME, Num(1, 6), v);
    Fields2(NAME, Num(1, 4), v);
    Fields3(GRANT, Num(1, 8), U64, v);
    Fields2(NAME, Str(MAX_NOTE, Utf8), v);
  }

  lemma SpecParts()
    requires WellShaped(SPEC)
    ensures WellShaped(MEMBER) && WellShaped(PATH) && WellShaped(EXCLUSION) && WellShaped(OBLIGATION)
  {
    var v := Number(0);
    assert WellShaped(Many(MAX_MEMBERS, MEMBER, true)) ==> WellShaped(MEMBER);
    assert WellShaped(Many(MAX_PATHS, PATH, true)) ==> WellShaped(PATH);
    assert WellShaped(Many(MAX_EXCLUSIONS, EXCLUSION, true)) ==> WellShaped(EXCLUSION);
    assert WellShaped(Many(MAX_OBLIGATIONS, OBLIGATION, true)) ==> WellShaped(OBLIGATION);
    hide WellShaped;
    Fields4(NAME, U64, U64, Both(U64, Both(INCARNATION, Both(U64, SPEC_TABLES))), v);
    Fields4(U64, INCARNATION, U64, SPEC_TABLES, v);
    Fields4(Many(MAX_MEMBERS, MEMBER, true), Many(MAX_PATHS, PATH, true), Many(MAX_EXCLUSIONS, EXCLUSION, true),
            Many(MAX_OBLIGATIONS, OBLIGATION, true), v);
  }

  /** Every body but a snapshot is what its value says. */
  lemma BodyBack(b: Body, x: Extras)
    requires !b.Snapshot? && (b.GrantRecord? ==> |b.grant.reductions| <= MAX_REASONS)
    ensures BodyOf(KindOf(b), ValueOf(b, x)) == Some(b)
  {
    hide MemberOf, MemberValue, PathOf, PathValue, ExclusionOf, ExclusionValue, ContractOf, ContractValue, GrantOf, GrantValue,
         GrantCodec.AttemptOf, AttemptValue, LifecycleNumber, LifecycleOf, PathStateNumber, PathStateOf, StateNumber, StateOf;
    match b
    case SpecChange(UpsertMember(id, m)) => MemberBack(Row(id, m));
    case SpecChange(SetLifecycle(_, l)) => EnumsBack(l, Operational, Refuse);
    case SpecChange(UpsertPath(id, p)) => PathBack(Row(id, p));
    case SpecChange(SetPathState(_, s)) => EnumsBack(Active, s, Refuse);
    case SpecChange(UpsertExclusion(id, e)) => ExclusionBack(Row(id, e));
    case ContractChange(UpsertContract(id, k)) => ContractBack(Row(id, k));
    case GrantRecord(_, id, g, state) =>
      GrantValueBack(id, g);
      NumbersBack(Granted, state, NotCommitted);
      assert g.(reductions := Kept(g.reductions)) == g;
    case AttemptTerminal(id, a) => AttemptValueBack(id, a);
    case _ =>
  }

  lemma RowsBack(s: Store)
    requires forall i :: 0 <= i < |s.grants| ==> |s.grants[i].val.reductions| <= MAX_REASONS
    ensures All(All(s.grants, GrantRow), GrantOf) == s.grants
    ensures All(All(s.attempts, AttemptRow), GrantCodec.AttemptOf) == s.attempts
  {
    hide GrantOf, GrantValue, GrantCodec.AttemptOf, AttemptValue;
    forall i | 0 <= i < |s.grants| ensures GrantOf(GrantRow(s.grants[i])) == s.grants[i] {
      var g := s.grants[i].val;
      GrantValueBack(s.grants[i].id, g);
      assert g.(reductions := Kept(g.reductions)) == g;
    }
    forall i | 0 <= i < |s.attempts| ensures GrantCodec.AttemptOf(AttemptRow(s.attempts[i])) == s.attempts[i] {
      AttemptValueBack(s.attempts[i].id, s.attempts[i].val);
    }
    AllBack(s.grants, GrantRow, GrantOf);
    AllBack(s.attempts, AttemptRow, GrantCodec.AttemptOf);
  }

  lemma TablesShaped()
    ensures WellShaped(GRANTS) && WellShaped(ATTEMPTS) && WellShaped(COUNTERS)
  {
    GrantFields(Number(0));
    AttemptShaped();
    assert WellShaped(GRANT) ==> WellShaped(GRANTS);
    assert WellShaped(ATTEMPT) ==> WellShaped(ATTEMPTS);
  }

  /** A snapshot is read back whole: specification, clock, contracts, grants and attempts. */
  lemma SnapshotBack(s: Store, x: Extras)
    requires ImageCodable(s) && |x.counters| == 80
    ensures TakeSnapshot(SnapshotBytes(s, x)) == Got(s, [])
  {
    hide EncodeSpec, DecodeSpec, EncodeSet, DecodeSet, Little, TakeInt, AllCodable, ContractStatus, SpecCodable, WellShaped, All,
         GrantOf, GrantCodec.AttemptOf;
    var grants, attempts := Items(All(s.grants, GrantRow)), Items(All(s.attempts, AttemptRow));
    var r5 := Emit(COUNTERS, Raw(x.counters)) + [];
    var r4 := Emit(ATTEMPTS, attempts) + r5;
    var r3 := Emit(GRANTS, grants) + r4;
    var r2 := EncodeSet(s.contracts) + r3;
    assert r5 == x.counters;
    BaseValues();
    hide Base;
    TakeIntBack(SNAPSHOT_VERSION, 4, EncodeSpec(s.spec, s.tick) + r2);
    SpecRoundTrip(s.spec, s.tick, r2);
    SetRoundTrip(s.contracts, r3);
    TablesShaped();
    RowsBack(s);
    assert Fits(COUNTERS, Raw(x.counters));
    hide Fits, Emit, Take;
    TakeBack(GRANTS, grants, r4);
    TakeBack(ATTEMPTS, attempts, r5);
    TakeBack(COUNTERS, Raw(x.counters), []);
  }

  /** Decoding undoes encoding for every kind of entry, whatever counters and notes go with it. */
  lemma EntryRoundTrip(tick: nat, b: Body, x: Extras)
    requires Codable(tick, b, x)
    ensures Decode(KindOf(b), Encode(tick, b, x)) == Some((tick, b))
  {
    hide ShapeOf, ValueOf, BodyOf, KindOf, SnapshotBytes, TakeSnapshot, ImageCodable, WellShaped;
    var rest := if b.Snapshot? then SnapshotBytes(b.image, x) else Emit(ShapeOf(KindOf(b)), ValueOf(b, x));
    ShapesSound(KindOf(b));
    assert Fits(U64, Number(tick));
    KindIs(b);
    hide Fits, Emit, Take;
    TakeBack(U64, Number(tick), rest);
    if b.Snapshot? {
      SnapshotBack(b.image, x);
    } else {
      TakeBack(ShapeOf(KindOf(b)), ValueOf(b, x), []);
      assert rest + [] == rest;
      BodyBack(b, x);
    }
  }

  lemma KindIs(b: Body)
    ensures 1 <= KindOf(b) <= 25 && (KindOf(b) == 1 <==> b.Snapshot?)
  {}

  // ----- records that cannot be read back -----

  /** A record that can be written but does not fit is not read. */
  lemma EntryRefused(tick: nat, b: Body, x: Extras)
    requires tick <= U64_MAX && !b.Snapshot? && Typed(ShapeOf(KindOf(b)), ValueOf(b, x)) && !Fits(ShapeOf(KindOf(b)), ValueOf(b, x))
    ensures Decode(KindOf(b), Encode(tick, b, x)).None?
  {
    hide ShapeOf, ValueOf, BodyOf, KindOf, SnapshotBytes, TakeSnapshot, WellShaped;
    var rest := Emit(ShapeOf(KindOf(b)), ValueOf(b, x));
    ShapesSound(KindOf(b));
    assert Fits(U64, Number(tick));
    KindIs(b);
    hide Fits, Emit, Take;
    TakeBack(U64, Number(tick), rest);
    TakeRefuses(ShapeOf(KindOf(b)), ValueOf(b, x), []);
    assert rest + [] == rest;
  }

  /** What can be written at all: numbers of their fields' widths, texts of bytes, and no more reasons on a grant than are
      written. Whether it will be read is another matter. */
  ghost predicate Expressible(tick: nat, b: Body, x: Extras)
  {
    && tick <= U64_MAX && |x.counters| == 80
    && if b.Snapshot? then ImageExpressible(b.image)
       else Typed(ShapeOf(KindOf(b)), ValueOf(b, x)) && (b.GrantRecord? ==> |b.grant.reductions| <= MAX_REASONS)
  }

  /** The same of a snapshot, its contracts as a set keeps them. */
  ghost predicate ImageExpressible(s: Store)
  {
    && Typed(SPEC, SpecValue(s.spec, s.tick))
    && Sorted(s.contracts) && |s.contracts| < U64_LIMIT
    && (forall i :: 0 <= i < |s.contracts| ==>
          ContractStatus(s.contracts[i].id, s.contracts[i].val) == Ok && Typed(CONTRACT, ContractValue(s.contracts[i])))
    && Typed(GRANTS, Items(All(s.grants, GrantRow))) && Typed(ATTEMPTS, Items(All(s.attempts, AttemptRow)))
    && forall i :: 0 <= i < |s.grants| ==> |s.grants[i].val.reductions| <= MAX_REASONS
  }

  /** What was written is read as it was or not at all: never as something else. */
  lemma EntryReads(tick: nat, b: Body, x: Extras)
    requires Expressible(tick, b, x)
    ensures Decode(KindOf(b), Encode(tick, b, x)).Some? ==> Decode(KindOf(b), Encode(tick, b, x)) == Some((tick, b))
    ensures Decode(KindOf(b), Encode(tick, b, x)).Some? <==> Codable(tick, b, x)
  {
    hide ShapeOf, ValueOf, Encode, Decode, ImageCodable, ImageExpressible, Fits, Typed;
    if Codable(tick, b, x) {
      EntryRoundTrip(tick, b, x);
    } else if b.Snapshot? {
      ImageRefused(b.image, x);
      SnapshotEntryRefused(tick, b.image, x);
    } else {
      EntryRefused(tick, b, x);
    }
  }

  /** An image of which some part does not fit is not read. */
  lemma ImageRefused(s: Store, x: Extras)
    requires ImageExpressible(s) && !ImageCodable(s) && |x.counters| == 80
    ensures TakeSnapshot(SnapshotBytes(s, x)).Bad?
  {
    hide EncodeSpec, DecodeSpec, EncodeSet, DecodeSet, Little, TakeInt, ContractStatus, WellShaped, All, GrantOf,
         GrantCodec.AttemptOf, Fits, Typed, SpecValue, ContractValue, AllCodable, SpecCodable;
    var grants, attempts := Items(All(s.grants, GrantRow)), Items(All(s.attempts, AttemptRow));
    var r4 := Emit(ATTEMPTS, attempts) + x.counters;
    var r3 := Emit(GRANTS, grants) + r4;
    var r2 := EncodeSet(s.contracts) + r3;
    BaseValues();
    hide Base;
    TakeIntBack(SNAPSHOT_VERSION, 4, EncodeSpec(s.spec, s.tick) + r2);
    TablesShaped();
    hide Emit, Take;
    if !SpecCodable(s.spec, s.tick) {
      SpecRefused(s.spec, s.tick, r2);
    } else {
      SpecRoundTrip(s.spec, s.tick, r2);
      if !AllCodable(s.contracts) {
        SetRefused(s.contracts, r3);
      } else {
        SetRoundTrip(s.contracts, r3);
        if !Fits(GRANTS, grants) {
          TakeRefuses(GRANTS, grants, r4);
        } else {
          TakeBack(GRANTS, grants, r4);
          TakeRefuses(ATTEMPTS, attempts, x.counters);
        }
      }
    }
  }

  /** What goes with a record is within its own bounds. */
  predicate ExtrasFit(x: Extras) { |x.counters| == 80 && x.reference <= U64_MAX }

  /** The record of a grant whose other fields fit is read exactly when no detail written in it is too long; of at
      most 24 reasons, it is read as it was written. */
  lemma GrantRecordReads(tick: nat, kind: GrantRecordKind, id: Id, g: Grant, state: GrantState, x: Extras)
    requires tick <= U64_MAX && ExtrasFit(x) && GrantCodable(id, g.(reductions := [])) && DetailsWritable(g.reductions)
    ensures var b := GrantRecord(kind, id, g, state);
            && (Decode(KindOf(b), Encode(tick, b, x)).Some? <==> DetailsFit(Kept(g.reductions)))
            && (DetailsFit(Kept(g.reductions)) && |g.reductions| <= MAX_REASONS
                ==> Decode(KindOf(b), Encode(tick, b, x)) == Some((tick, b)))
  {
    hide GrantValue, Fits, Typed, Encode, Decode, DetailsFit, DetailsWritable;
    var b := GrantRecord(kind, id, g, state);
    GrantFits(id, g);
    NumbersBack(g.outcome, state, g.commit);
    GrantChangeFits(id, g, state, x);
    if GrantCodable(id, g) {
      GrantRecordTaken(tick, kind, id, g, state, x);
    } else {
      EntryRefused(tick, b, x);
    }
  }

  lemma GrantChangeFits(id: Id, g: Grant, state: GrantState, x: Extras)
    requires ExtrasFit(x)
    ensures var v := Pair(GrantValue(id, g), Pair(Number(StateNumber(state)), Number(x.reference)));
            && (Fits(GRANT_CHANGE, v) <==> GrantCodable(id, g))
            && (Typed(GRANT, GrantValue(id, g)) ==> Typed(GRANT_CHANGE, v))
  {
    NumbersBack(Granted, state, NotCommitted);
    BaseValues();
    hide StateNumber, GrantValue, Base;
    var v := Pair(GrantValue(id, g), Pair(Number(StateNumber(state)), Number(x.reference)));
    assert Fits(Num(1, 8), Number(StateNumber(state))) && Fits(U64, Number(x.reference));
    assert Typed(Num(1, 8), Number(StateNumber(state))) && Typed(U64, Number(x.reference));
    hide Fits, Typed;
    Fields3(GRANT, Num(1, 8), U64, v);
    TypedFields2(GRANT, Both(Num(1, 8), U64), v);
    TypedFields2(Num(1, 8), U64, R(v));
  }

  /** The record of a grant that fits is taken, its reasons cut to 24. */
  lemma GrantRecordTaken(tick: nat, kind: GrantRecordKind, id: Id, g: Grant, state: GrantState, x: Extras)
    requires tick <= U64_MAX && ExtrasFit(x) && GrantCodable(id, g)
    ensures var b := GrantRecord(kind, id, g, state);
            Decode(KindOf(b), Encode(tick, b, x)) == Some((tick, GrantRecord(kind, id, g.(reductions := Kept(g.reductions)), state)))
  {
    hide GrantValue, Fits, GrantOf;
    var h := g.(reductions := Kept(g.reductions));
    GrantChangeFits(id, h, state, x);
    SameValue(id, g);
    EntryRoundTrip(tick, GrantRecord(kind, id, h, state), x);
  }

  lemma SameValue(id: Id, g: Grant)
    ensures GrantValue(id, g.(reductions := Kept(g.reductions))) == GrantValue(id, g)
  {
    assert Kept(Kept(g.reductions)) == Kept(g.reductions);
  }

  /** Everything a snapshot holds but what its grants' reasons say is within bounds. */
  ghost predicate ImageFrame(s: Store)
  {
    && SpecCodable(s.spec, s.tick)
    && Sorted(s.contracts) && AllCodable(s.contracts)
    && (forall i :: 0 <= i < |s.contracts| ==> ContractStatus(s.contracts[i].id, s.contracts[i].val) == Ok)
    && |s.grants| <= MAX_GRANTS && Fits(ATTEMPTS, Items(All(s.attempts, AttemptRow)))
    && forall i :: 0 <= i < |s.grants| ==>
         |s.grants[i].val.reductions| <= MAX_REASONS && GrantCodable(s.grants[i].id, s.grants[i].val.(reductions := []))
         && DetailsWritable(s.grants[i].val.reductions)
  }

  ghost predicate AllDetailsFit(t: Table<Grant>)
  {
    forall i :: 0 <= i < |t| ==> DetailsFit(t[i].val.reductions)
  }

  lemma GrantsFit(t: Table<Grant>)
    requires |t| <= MAX_GRANTS
    requires forall i :: 0 <= i < |t| ==>
               |t[i].val.reductions| <= MAX_REASONS && GrantCodable(t[i].id, t[i].val.(reductions := []))
               && DetailsWritable(t[i].val.reductions)
    ensures Typed(GRANTS, Items(All(t, GrantRow))) && (Fits(GRANTS, Items(All(t, GrantRow))) <==> AllDetailsFit(t))
  {
    hide GrantValue, Fits, Typed, DetailsFit, DetailsWritable;
    var v := All(t, GrantRow);
    forall i | 0 <= i < |t| ensures Typed(GRANT, v[i]) && (Fits(GRANT, v[i]) <==> DetailsFit(t[i].val.reductions)) {
      GrantFits(t[i].id, t[i].val);
      assert v[i] == GrantValue(t[i].id, t[i].val);
    }
    FitsEachGrant(v);
  }

  lemma FitsEachGrant(v: seq<Value>)
    requires |v| <= MAX_GRANTS
    ensures Fits(GRANTS, Items(v)) <==> forall i :: 0 <= i < |v| ==> Fits(GRANT, v[i])
    ensures Typed(GRANTS, Items(v)) <==> forall i :: 0 <= i < |v| ==> Typed(GRANT, v[i])
  {
    hide GRANT;
  }

  /** A snapshot is read back exactly when no detail in it is too long: one that is makes the whole of it unreadable. */
  lemma SnapshotReads(tick: nat, s: Store, x: Extras)
    requires ImageFrame(s) && tick <= U64_MAX && |x.counters| == 80
    ensures var b := Snapshot(s);
            && (AllDetailsFit(s.grants) ==> Decode(KindOf(b), Encode(tick, b, x)) == Some((tick, b)))
            && (!AllDetailsFit(s.grants) ==> Decode(KindOf(b), Encode(tick, b, x)).None?)
  {
    hide SnapshotBytes, TakeSnapshot, Fits, Typed, SpecCodable, AllCodable, GrantCodable, DetailsWritable, DetailsFit, Emit, Take,
         Encode, Decode;
    GrantsFit(s.grants);
    if AllDetailsFit(s.grants) {
      EntryRoundTrip(tick, Snapshot(s), x);
    } else {
      SnapshotRefused(s, x);
      SnapshotEntryRefused(tick, s, x);
    }
  }

  lemma SnapshotEntryRefused(tick: nat, s: Store, x: Extras)
    requires tick <= U64_MAX && TakeSnapshot(SnapshotBytes(s, x)).Bad?
    ensures Decode(1, Encode(tick, Snapshot(s), x)).None?
  {
    hide SnapshotBytes, TakeSnapshot;
    assert Fits(U64, Number(tick));
    ShapesSound(1);
    hide Fits, Emit, Take;
    TakeBack(U64, Number(tick), SnapshotBytes(s, x));
  }

  lemma SnapshotRefused(s: Store, x: Extras)
    requires ImageFrame(s) && !Fits(GRANTS, Items(All(s.grants, GrantRow))) && Typed(GRANTS, Items(All(s.grants, GrantRow)))
    ensures TakeSnapshot(SnapshotBytes(s, x)).Bad?
  {
    hide EncodeSpec, DecodeSpec, EncodeSet, DecodeSet, Little, TakeInt, AllCodable, ContractStatus, SpecCodable, WellShaped, All,
         GrantOf, GrantCodec.AttemptOf, Fits, Typed, GrantCodable, DetailsWritable;
    var grants, attempts := Items(All(s.grants, GrantRow)), Items(All(s.attempts, AttemptRow));
    var r4 := Emit(ATTEMPTS, attempts) + x.counters;
    var r3 := Emit(GRANTS, grants) + r4;
    var r2 := EncodeSet(s.contracts) + r3;
    BaseValues();
    hide Base;
    TakeIntBack(SNAPSHOT_VERSION, 4, EncodeSpec(s.spec, s.tick) + r2);
    SpecRoundTrip(s.spec, s.tick, r2);
    SetRoundTrip(s.contracts, r3);
    TablesShaped();
    hide Emit, Take;
    TakeRefuses(GRANTS, grants, r4);
  }
}
