/** The canonical encodings of grants and attempts (src/grant.cpp): their field lists, and that reading
    undoes writing and nothing is read that is not written so. */
module GrantCodec {
  import opened Tables
  import opened Model
  import opened Text
  import opened Numbers
  import opened Bytes
  import opened Schema

  // ----- field kinds -----

  const U64: Shape := Num(8, U64_MAX)
  const U32: Shape := Num(4, 0xFFFF_FFFF)
  const FLAG: Shape := Num(1, 1)
  const NAME: Shape := Str(MAX_IDENTIFIER, OptionalIdentifier)
  const DIGEST: Shape := Fixed(32)
  const INCARNATION: Shape := Fixed(16)

  function Flag(b: bool): Value { Number(if b then 1 else 0) }

  function OutcomeNumber(o: Outcome): nat
  {
    match o
    case Granted => 0 case Degraded => 1 case Refused => 2 case FencedOut => 3 case Stale => 4
    case Conflicting => 5 case Incomplete => 6 case Indeterminate => 7 case Unknown => 8
    case Unsupported => 9 case Cancelled => 10 case Invalid => 11
  }

  function OutcomeOf(n: nat): Outcome
  {
    if n == 0 then Granted else if n == 1 then Degraded else if n == 2 then Refused else if n == 3 then FencedOut
    else if n == 4 then Stale else if n == 5 then Conflicting else if n == 6 then Incomplete
    else if n == 7 then Indeterminate else if n == 8 then Unknown else if n == 9 then Unsupported
    else if n == 10 then Cancelled else Invalid
  }

  function StateNumber(s: GrantState): nat
  {
    match s
    case Prepared => 0 case Committed => 1 case Acknowledged => 2 case Ambiguous => 3 case Released => 4
    case Expired => 5 case Fenced => 6 case Revoked => 7 case Superseded => 8
  }

  function StateOf(n: nat): GrantState
  {
    if n == 0 then Prepared else if n == 1 then Committed else if n == 2 then Acknowledged
    else if n == 3 then Ambiguous else if n == 4 then Released else if n == 5 then Expired
    else if n == 6 then Fenced else if n == 7 then Revoked else Superseded
  }

  function CommitNumber(c: CommitState): nat
  {
    match c
    case NotCommitted => 0 case CommitPrepared => 1 case CommitDone => 2 case CommitAcknowledged => 3
    case CommitAmbiguous => 4
  }

  function CommitOf(n: nat): CommitState
  {
    if n == 0 then NotCommitted else if n == 1 then CommitPrepared else if n == 2 then CommitDone
    else if n == 3 then CommitAcknowledged else CommitAmbiguous
  }

  lemma NumbersBack(o: Outcome, s: GrantState, c: CommitState)
    ensures OutcomeOf(OutcomeNumber(o)) == o && OutcomeNumber(o) <= 11
    ensures StateOf(StateNumber(s)) == s && StateNumber(s) <= 8
    ensures CommitOf(CommitNumber(c)) == c && CommitNumber(c) <= 4
  {}

  lemma NumbersThere(o: nat, s: nat, c: nat)
    ensures o <= 11 ==> OutcomeNumber(OutcomeOf(o)) == o
    ensures s <= 8 ==> StateNumber(StateOf(s)) == s
    ensures c <= 4 ==> CommitNumber(CommitOf(c)) == c
  {}

  // ----- reasons -----

  const REASON: Shape := Both(Num(2, 76), Str(MAX_DETAIL, Utf8))
  const REASONS: Shape := Many(MAX_REASONS, REASON, false)

  /** Only the first 24 reasons are written. */
  function Kept(rs: seq<Reason>): seq<Reason> { if |rs| > MAX_REASONS then rs[..MAX_REASONS] else rs }

  function ReasonValue(r: Reason): Value { Pair(Number(r.code), Chars_(r.detail)) }

  function CodeOf(n: nat): ReasonCode { if n <= 76 then n else 0 }

  function ReasonOf(v: Value): Reason { Reason(CodeOf(N(L(v))), T(R(v))) }

  function ReasonValues(rs: seq<Reason>): (v: seq<Value>)
    ensures |v| == |rs| && forall i :: 0 <= i < |rs| ==> v[i] == ReasonValue(rs[i])
  {
    seq(|rs|, i requires 0 <= i < |rs| => ReasonValue(rs[i]))
  }

  function ReasonsOf(items: seq<Value>): (rs: seq<Reason>)
    ensures |rs| == |items| && forall i :: 0 <= i < |items| ==> rs[i] == ReasonOf(items[i])
  {
    seq(|items|, i requires 0 <= i < |items| => ReasonOf(items[i]))
  }

  lemma ReasonsBack(rs: seq<Reason>)
    ensures ReasonsOf(ReasonValues(rs)) == rs
  {}

  lemma ReasonsThere(items: seq<Value>)
    requires forall i :: 0 <= i < |items| ==> Fits(REASON, items[i])
    ensures ReasonValues(ReasonsOf(items)) == items
  {
    forall i | 0 <= i < |items| ensures ReasonValue(ReasonOf(items[i])) == items[i] {
      Fields2(Num(2, 76), Str(MAX_DETAIL, Utf8), items[i]);
    }
  }

  // ----- the groups of a grant's fields -----

  const COORDINATE: Shape := Both(U64, Both(U64, Both(U64, INCARNATION)))
  const CONTRACT_PART: Shape := Both(NAME, Both(U64, Both(NAME, NAME)))
  const SIDE: Shape := Both(NAME, Both(U64, DIGEST))
  const ROUTE: Shape := Both(NAME, Both(NAME, Both(NAME, Both(U64, Both(NAME, U64)))))
  const AMOUNTS: Shape := Both(U64, Both(U64, U32))
  const LEASE: Shape := Both(NAME, Both(U64, U64))
  const ORIGIN: Shape := Both(NAME, Both(NAME, NAME))
  const STATUS: Shape := Both(Num(1, 11), Both(Num(1, 8), Num(1, 4)))
  const POSITIONS: Shape := Both(U64, Both(U64, Both(U64, U64)))
  const FLAGS: Shape := Both(FLAG, Both(FLAG, FLAG))
  const PROVENANCE: Shape :=
    Both(NAME, Both(Str(MAX_IDENTIFIER, Utf8), Both(Str(MAX_IDENTIFIER, Utf8), Both(U64, U64))))

  function CoordinateValue(c: Coordinate): Value
  {
    Pair(Number(c.generation), Pair(Number(c.epoch), Pair(Number(c.policy), Raw(c.incarnation))))
  }

  function CoordinateOf(v: Value): Coordinate
  {
    Coordinate(N(L(v)), N(L(R(v))), N(L(R(R(v)))), B(R(R(R(v)))))
  }

  function SideValue(id: Id, generation: nat, digest: Digest): Value
  {
    Pair(Chars_(id), Pair(Number(generation), Raw(digest)))
  }

  function ProvenanceValue(p: Provenance): Value
  {
    Pair(Chars_(p.client), Pair(Chars_(p.origin), Pair(Chars_(p.correlation), Pair(Number(p.ingress), Number(p.observed)))))
  }

  function ProvenanceOf(v: Value): Provenance
  {
    Provenance(T(L(v)), T(L(R(v))), T(L(R(R(v)))), N(L(R(R(R(v))))), N(R(R(R(R(v))))))
  }

  const BOUND: Shape := Both(CONTRACT_PART, Both(SIDE, Both(SIDE, ROUTE)))
  const TERMS: Shape := Both(AMOUNTS, Both(LEASE, ORIGIN))
  const PROGRESS: Shape := Both(STATUS, Both(POSITIONS, FLAGS))

  /** `AuthorityGrant::encode`, field by field. */
  const GRANT: Shape :=
    Both(NAME, Both(NAME, Both(COORDINATE, Both(BOUND, Both(TERMS, Both(PROGRESS, Both(REASONS, PROVENANCE)))))))

  function BoundValue(b: Binding): Value
  {
    Pair(Pair(Chars_(b.contract), Pair(Number(b.contractGeneration), Pair(Chars_(b.sourceService), Chars_(b.destinationService)))),
    Pair(SideValue(b.source, b.sourceGeneration, b.sourceDigest),
    Pair(SideValue(b.destination, b.destinationGeneration, b.destinationDigest),
         Pair(Chars_(b.sourceEndpoint), Pair(Chars_(b.destinationEndpoint),
         Pair(Chars_(b.path), Pair(Number(b.pathGeneration),
         Pair(Chars_(b.resource), Number(b.reservationGeneration)))))))))
  }

  function TermsValue(g: Grant): Value
  {
    Pair(Pair(Number(g.requested), Pair(Number(g.units), Number(g.domains))),
    Pair(Pair(Chars_(g.binding.lease), Pair(Number(g.leaseIssued), Number(g.leaseExpiry))),
         Pair(Chars_(g.binding.attempt), Pair(Chars_(g.binding.sourceDomain), Chars_(g.binding.destinationDomain)))))
  }

  function ProgressValue(g: Grant): Value
  {
    Pair(Pair(Number(OutcomeNumber(g.outcome)), Pair(Number(StateNumber(g.state)), Number(CommitNumber(g.commit)))),
    Pair(Pair(Number(g.prepareSeq), Pair(Number(g.commitSeq), Pair(Number(g.releaseSeq), Number(g.ackSeq)))),
         Pair(Flag(g.acknowledged), Pair(Flag(g.degraded), Flag(g.reserved)))))
  }

  function GrantValue(id: Id, g: Grant): Value
  {
    Pair(Chars_(id), Pair(Chars_(g.binding.cluster), Pair(CoordinateValue(g.at),
    Pair(BoundValue(g.binding), Pair(TermsValue(g), Pair(ProgressValue(g),
    Pair(Items(ReasonValues(Kept(g.reductions))), ProvenanceValue(g.binding.provenance))))))))
  }

  function BindingOf(cluster: Id, b: Value, t: Value, p: Value): Binding
  {
    var k, s, d, r := L(b), L(R(b)), L(R(R(b))), R(R(R(b)));
    var o := R(R(t));
    Binding(cluster, T(L(k)), N(L(R(k))), T(L(R(R(k)))), T(R(R(R(k)))),
            T(L(s)), N(L(R(s))), B(R(R(s))), T(L(d)), N(L(R(d))), B(R(R(d))),
            T(L(r)), T(L(R(r))), T(L(R(R(r)))), N(L(R(R(R(r))))), T(L(R(R(R(R(r)))))), N(R(R(R(R(R(r)))))),
            T(L(L(R(t)))), T(L(o)), T(L(R(o))), T(R(R(o))), ProvenanceOf(p))
  }

  function GrantOf(v: Value): Row<Grant>
  {
    var v4 := R(R(R(v)));
    var b, t, g, tail := L(v4), L(R(v4)), L(R(R(v4))), R(R(R(v4)));
    var a, l, s, q, f := L(t), L(R(t)), L(g), L(R(g)), R(R(g));
    Row(T(L(v)),
        Grant(BindingOf(T(L(R(v))), b, t, R(tail)), CoordinateOf(L(R(R(v)))),
              N(L(a)), N(L(R(a))), N(R(R(a))), N(L(R(l))), N(R(R(l))),
              OutcomeOf(N(L(s))), StateOf(N(L(R(s)))), CommitOf(N(R(R(s)))),
              N(L(q)), N(L(R(q))), N(L(R(R(q)))), N(R(R(R(q)))),
              N(L(f)) == 1, N(L(R(f))) == 1, N(R(R(f))) == 1, ReasonsOf(I(L(tail)))))
  }

  /** What the encoder is for: 64-bit numbers, identifiers by the grammar, digests of their size, reason
      details of at most 256 valid bytes. */
  predicate GrantCodable(id: Id, g: Grant) { Fits(GRANT, GrantValue(id, g)) }

  function EncodeGrant(id: Id, g: Grant): seq<byte> { Emit(GRANT, GrantValue(id, g)) }

  function DecodeGrant(bytes: seq<byte>): Read<Row<Grant>>
  {
    match Take(GRANT, bytes)
    case Bad(code) => Bad(code)
    case Got(v, rest) => Got(GrantOf(v), rest)
  }

  const REST: Shape := Both(PROGRESS, Both(REASONS, PROVENANCE))

  /** A value of a grant's field list, taken apart. */
  lemma GrantFields(v: Value)
    ensures WellShaped(GRANT)
    ensures Fits(GRANT, v) <==>
              && v.Pair? && R(v).Pair? && R(R(v)).Pair? && R(R(R(v))).Pair? && R(R(R(R(v)))).Pair?
              && Fits(NAME, L(v)) && Fits(NAME, L(R(v))) && Fits(COORDINATE, L(R(R(v))))
              && Fits(BOUND, L(R(R(R(v))))) && Fits(TERMS, L(R(R(R(R(v)))))) && Fits(REST, R(R(R(R(R(v))))))
  {
    hide Fits, WellShaped;
    Fields4(NAME, NAME, COORDINATE, Both(BOUND, Both(TERMS, REST)), v);
    Fields3(BOUND, TERMS, REST, R(R(R(v))));
    ShapesWell();
  }

  lemma ShapesWell()
    ensures WellShaped(NAME) && WellShaped(COORDINATE) && WellShaped(BOUND) && WellShaped(TERMS) && WellShaped(REST)
    ensures WellShaped(PROVENANCE)
  {
    var v := Number(0);
    assert WellShaped(NAME) && WellShaped(DIGEST) && WellShaped(INCARNATION) && WellShaped(Str(MAX_IDENTIFIER, Utf8));
    BaseValues();
    assert WellShaped(U64) && WellShaped(U32) && WellShaped(FLAG);
    assert WellShaped(Num(1, 11)) && WellShaped(Num(1, 8)) && WellShaped(Num(1, 4)) && WellShaped(Num(2, 76));
    assert WellShaped(REASON) ==> WellShaped(REASONS);
    hide WellShaped, Base;
    Fields4(U64, U64, U64, INCARNATION, v);
    Fields4(NAME, U64, NAME, NAME, v);
    Fields3(NAME, U64, DIGEST, v);
    Fields4(NAME, NAME, NAME, Both(U64, Both(NAME, U64)), v);
    Fields3(U64, NAME, U64, v);
    Fields4(CONTRACT_PART, SIDE, SIDE, ROUTE, v);
    Fields3(U64, U64, U32, v);
    Fields3(NAME, U64, U64, v);
    Fields3(NAME, NAME, NAME, v);
    Fields3(AMOUNTS, LEASE, ORIGIN, v);
    Fields3(Num(1, 11), Num(1, 8), Num(1, 4), v);
    Fields4(U64, U64, U64, U64, v);
    Fields3(FLAG, FLAG, FLAG, v);
    Fields3(STATUS, POSITIONS, FLAGS, v);
    Fields2(Num(2, 76), Str(MAX_DETAIL, Utf8), v);
    Fields4(NAME, Str(MAX_IDENTIFIER, Utf8), Str(MAX_IDENTIFIER, Utf8), Both(U64, U64), v);
    Fields2(U64, U64, v);
    Fields3(PROGRESS, REASONS, PROVENANCE, v);
  }

  lemma BoundFields(v: Value)
    requires Fits(BOUND, v)
    ensures var k, s, d, r := L(v), L(R(v)), L(R(R(v))), R(R(R(v)));
            v == Pair(Pair(Chars_(T(L(k))), Pair(Number(N(L(R(k)))), Pair(Chars_(T(L(R(R(k))))), Chars_(T(R(R(R(k)))))))),
                 Pair(SideValue(T(L(s)), N(L(R(s))), B(R(R(s)))),
                 Pair(SideValue(T(L(d)), N(L(R(d))), B(R(R(d)))),
                      Pair(Chars_(T(L(r))), Pair(Chars_(T(L(R(r)))), Pair(Chars_(T(L(R(R(r))))), Pair(Number(N(L(R(R(R(r)))))),
                      Pair(Chars_(T(L(R(R(R(R(r))))))), Number(N(R(R(R(R(R(r)))))))))))))))
  {
    var k, s, d, r := L(v), L(R(v)), L(R(R(v))), R(R(R(v)));
    Fields4(CONTRACT_PART, SIDE, SIDE, ROUTE, v);
    Fields4(NAME, U64, NAME, NAME, k);
    Fields3(NAME, U64, DIGEST, s);
    Fields3(NAME, U64, DIGEST, d);
    Fields4(NAME, NAME, NAME, Both(U64, Both(NAME, U64)), r);
    Fields3(U64, NAME, U64, R(R(R(r))));
  }

  lemma TermsFields(v: Value)
    requires Fits(TERMS, v)
    ensures var a, l, o := L(v), L(R(v)), R(R(v));
            v == Pair(Pair(Number(N(L(a))), Pair(Number(N(L(R(a)))), Number(N(R(R(a)))))),
                 Pair(Pair(Chars_(T(L(l))), Pair(Number(N(L(R(l)))), Number(N(R(R(l)))))),
                      Pair(Chars_(T(L(o))), Pair(Chars_(T(L(R(o)))), Chars_(T(R(R(o))))))))
  {
    Fields3(AMOUNTS, LEASE, ORIGIN, v);
    Fields3(U64, U64, U32, L(v));
    Fields3(NAME, U64, U64, L(R(v)));
    Fields3(NAME, NAME, NAME, R(R(v)));
  }

  lemma ProgressFields(v: Value)
    requires Fits(PROGRESS, v)
    ensures var s, q, f := L(v), L(R(v)), R(R(v));
            && N(L(s)) <= 11 && N(L(R(s))) <= 8 && N(R(R(s))) <= 4
            && v == Pair(Pair(Number(N(L(s))), Pair(Number(N(L(R(s)))), Number(N(R(R(s)))))),
                    Pair(Pair(Number(N(L(q))), Pair(Number(N(L(R(q)))), Pair(Number(N(L(R(R(q))))), Number(N(R(R(R(q)))))))),
                         Pair(Flag(N(L(f)) == 1), Pair(Flag(N(L(R(f))) == 1), Flag(N(R(R(f))) == 1)))))
  {
    Fields3(STATUS, POSITIONS, FLAGS, v);
    Fields3(Num(1, 11), Num(1, 8), Num(1, 4), L(v));
    Fields4(U64, U64, U64, U64, L(R(v)));
    Fields3(FLAG, FLAG, FLAG, R(R(v)));
  }

  lemma CoordinateFields(v: Value)
    requires Fits(COORDINATE, v)
    ensures v == CoordinateValue(CoordinateOf(v))
  {
    Fields4(U64, U64, U64, INCARNATION, v);
  }

  lemma ProvenanceFields(v: Value)
    requires Fits(PROVENANCE, v)
    ensures v == ProvenanceValue(ProvenanceOf(v))
  {
    Fields4(NAME, Str(MAX_IDENTIFIER, Utf8), Str(MAX_IDENTIFIER, Utf8), Both(U64, U64), v);
    Fields2(U64, U64, R(R(R(v))));
  }

  lemma GrantValueBack(id: Id, g: Grant)
    ensures GrantOf(GrantValue(id, g)) == Row(id, g.(reductions := Kept(g.reductions)))
  {
    NumbersBack(g.outcome, g.state, g.commit);
    ReasonsBack(Kept(g.reductions));
    hide OutcomeNumber, OutcomeOf, StateNumber, StateOf, CommitNumber, CommitOf, ReasonsOf, ReasonValues, Kept;
  }

  lemma GrantValueThere(v: Value)
    requires Fits(GRANT, v)
    ensures GrantValue(GrantOf(v).id, GrantOf(v).val) == v
  {
    var v4 := R(R(R(v)));
    var tail := R(R(R(v4)));
    GrantFields(v);
    Fields3(PROGRESS, REASONS, PROVENANCE, R(R(v4)));
    CoordinateFields(L(R(R(v))));
    BoundFields(L(v4));
    TermsFields(L(R(v4)));
    ProgressFields(L(R(R(v4))));
    ProvenanceFields(R(tail));
    var s := L(L(R(R(v4))));
    NumbersThere(N(L(s)), N(L(R(s))), N(R(R(s))));
    ReasonsThere(I(L(tail)));
    hide OutcomeNumber, OutcomeOf, StateNumber, StateOf, CommitNumber, CommitOf, ReasonsOf, ReasonValues;
  }

  /** Decoding undoes encoding, up to the cut of the reason list. */
  lemma GrantRoundTrip(id: Id, g: Grant, rest: seq<byte>)
    requires GrantCodable(id, g)
    ensures DecodeGrant(EncodeGrant(id, g) + rest) == Got(Row(id, g.(reductions := Kept(g.reductions))), rest)
  {
    GrantFields(GrantValue(id, g));
    TakeBack(GRANT, GrantValue(id, g), rest);
    GrantValueBack(id, g);
  }

  /** A grant has one encoding: whatever decodes is written back as the bytes it was read from. */
  lemma GrantCanonical(bytes: seq<byte>)
    requires DecodeGrant(bytes).Got?
    ensures var r := DecodeGrant(bytes);
            GrantCodable(r.value.id, r.value.val) && bytes == EncodeGrant(r.value.id, r.value.val) + r.rest
  {
    TakeThere(GRANT, bytes);
    GrantValueThere(Take(GRANT, bytes).value);
  }

  /** Nothing is lost exactly when there are at most 24 reasons. */
  lemma GrantExact(id: Id, g: Grant)
    requires GrantCodable(id, g)
    ensures DecodeGrant(EncodeGrant(id, g)) == Got(Row(id, g), []) <==> |g.reductions| <= MAX_REASONS
  {
    GrantRoundTrip(id, g, []);
    assert EncodeGrant(id, g) + [] == EncodeGrant(id, g);
    hide EncodeGrant, DecodeGrant, GrantCodable;
    if |g.reductions| > MAX_REASONS { assert |Kept(g.reductions)| != |g.reductions|; }
  }

  // ----- reasons that are too long -----

  /** A detail the reader takes back. */
  predicate DetailFits(r: Reason) { |r.detail| <= MAX_DETAIL && IsByteText(r.detail) && IsUtf8(r.detail) }

  predicate DetailsFit(rs: seq<Reason>)
  {
    forall i :: 0 <= i < |rs| ==> DetailFits(rs[i])
  }

  /** A detail the writer can write. */
  predicate DetailsWritable(rs: seq<Reason>)
  {
    forall i :: 0 <= i < |rs| ==> |rs[i].detail| < U64_LIMIT && IsByteText(rs[i].detail)
  }

  lemma ReasonFits(r: Reason)
    ensures Fits(REASON, ReasonValue(r)) <==> DetailFits(r)
    ensures |r.detail| < U64_LIMIT && IsByteText(r.detail) ==> Typed(REASON, ReasonValue(r))
  {
    BaseValues();
    hide Base;
    assert Fits(Num(2, 76), Number(r.code)) && Typed(Num(2, 76), Number(r.code));
    assert Fits(Str(MAX_DETAIL, Utf8), Chars_(r.detail)) <==> DetailFits(r);
    assert |r.detail| < U64_LIMIT && IsByteText(r.detail) ==> Typed(Str(MAX_DETAIL, Utf8), Chars_(r.detail));
    Fields2(Num(2, 76), Str(MAX_DETAIL, Utf8), ReasonValue(r));
  }

  lemma ReasonsFit(rs: seq<Reason>)
    ensures Fits(REASONS, Items(ReasonValues(Kept(rs)))) <==> DetailsFit(Kept(rs))
    ensures DetailsWritable(rs) ==> Typed(REASONS, Items(ReasonValues(Kept(rs))))
  {
    var v := ReasonValues(Kept(rs));
    hide ReasonValue, ReasonValues, DetailFits;
    forall i | 0 <= i < |v|
      ensures Fits(REASON, v[i]) <==> DetailFits(Kept(rs)[i])
      ensures DetailsWritable(rs) ==> Typed(REASON, v[i])
    {
      ReasonFits(Kept(rs)[i]);
    }
    FitsEach(v);
  }

  lemma FitsEach(v: seq<Value>)
    requires |v| <= MAX_REASONS
    ensures Fits(REASONS, Items(v)) <==> forall i :: 0 <= i < |v| ==> Fits(REASON, v[i])
    ensures Typed(REASONS, Items(v)) <==> forall i :: 0 <= i < |v| ==> Typed(REASON, v[i])
  {}

  /** A grant fits exactly when it does without its reasons and the details of those that are written do. */
  lemma GrantFits(id: Id, g: Grant)
    ensures GrantCodable(id, g) <==> GrantCodable(id, g.(reductions := [])) && DetailsFit(Kept(g.reductions))
    ensures GrantCodable(id, g.(reductions := [])) && DetailsWritable(g.reductions) ==> Typed(GRANT, GrantValue(id, g))
  {
    hide Fits, Typed, WellShaped, ReasonValues, DetailsFit, DetailsWritable, CoordinateValue, BoundValue, TermsValue, ProgressValue,
         ProvenanceValue;
    var v, w := GrantValue(id, g), GrantValue(id, g.(reductions := []));
    GrantFields(v);
    GrantFields(w);
    Fields3(PROGRESS, REASONS, PROVENANCE, R(R(R(R(R(v))))));
    Fields3(PROGRESS, REASONS, PROVENANCE, R(R(R(R(R(w))))));
    ReasonsFit(g.reductions);
    ReasonsFit([]);
    NoDetails();
    SameProgress(g, g.(reductions := []));
    if GrantCodable(id, g.(reductions := [])) && DetailsWritable(g.reductions) { GrantTyped(v, w); }
  }

  lemma NoDetails()
    ensures DetailsFit(Kept([]))
  {}

  lemma SameProgress(g: Grant, h: Grant)
    requires h == g.(reductions := h.reductions)
    ensures ProgressValue(h) == ProgressValue(g) && TermsValue(h) == TermsValue(g)
  {}

  lemma GrantTyped(v: Value, w: Value)
    requires Fits(GRANT, w) && v.Pair? && R(v).Pair? && R(R(v)).Pair? && R(R(R(v))).Pair? && R(R(R(R(v)))).Pair?
    requires R(R(R(R(R(v))))).Pair? && R(R(R(R(R(R(v)))))).Pair?
    requires L(v) == L(w) && L(R(v)) == L(R(w)) && L(R(R(v))) == L(R(R(w))) && L(R(R(R(v)))) == L(R(R(R(w))))
    requires L(R(R(R(R(v))))) == L(R(R(R(R(w))))) && L(R(R(R(R(R(v)))))) == L(R(R(R(R(R(w))))))
    requires R(R(R(R(R(R(R(v))))))) == R(R(R(R(R(R(R(w)))))))
    requires Typed(REASONS, L(R(R(R(R(R(R(v))))))))
    ensures Typed(GRANT, v)
  {
    hide Fits, Typed, WellShaped;
    GrantFields(w);
    FitsTyped(GRANT, w);
    TypedFields4(NAME, NAME, COORDINATE, Both(BOUND, Both(TERMS, REST)), w);
    TypedFields4(BOUND, TERMS, PROGRESS, Both(REASONS, PROVENANCE), R(R(R(w))));
    TypedFields2(REASONS, PROVENANCE, R(R(R(R(R(R(w)))))));
    TypedFields2(REASONS, PROVENANCE, R(R(R(R(R(R(v)))))));
    TypedFields4(BOUND, TERMS, PROGRESS, Both(REASONS, PROVENANCE), R(R(R(v))));
    TypedFields4(NAME, NAME, COORDINATE, Both(BOUND, Both(TERMS, REST)), v);
  }

  lemma TypedFields2(a: Shape, b: Shape, v: Value)
    ensures Typed(Both(a, b), v) <==> v.Pair? && Typed(a, L(v)) && Typed(b, R(v))
  {}

  lemma TypedFields4(a: Shape, b: Shape, c: Shape, d: Shape, v: Value)
    ensures Typed(Both(a, Both(b, Both(c, d))), v)
            <==> v.Pair? && R(v).Pair? && R(R(v)).Pair? && Typed(a, L(v)) && Typed(b, L(R(v)))
                 && Typed(c, L(R(R(v)))) && Typed(d, R(R(R(v))))
  {
    TypedFields2(a, Both(b, Both(c, d)), v);
    TypedFields2(b, Both(c, d), R(v));
    TypedFields2(c, d, R(R(v)));
  }

  /** Where a grant stands on its way does not decide whether it fits. */
  lemma StandingFits(id: Id, g: Grant, state: GrantState, reserved: bool)
    requires GrantCodable(id, g)
    ensures GrantCodable(id, g.(state := state, reserved := reserved))
  {
    hide Fits, WellShaped, ReasonValues, CoordinateValue, BoundValue, TermsValue, ProgressValue, ProvenanceValue;
    var h := g.(state := state, reserved := reserved);
    var v, w := GrantValue(id, g), GrantValue(id, h);
    GrantFields(v);
    GrantFields(w);
    Fields3(PROGRESS, REASONS, PROVENANCE, R(R(R(R(R(v))))));
    Fields3(PROGRESS, REASONS, PROVENANCE, R(R(R(R(R(w))))));
    SameTerms(g, h);
    ProgressFits(g, h);
  }

  lemma SameTerms(g: Grant, h: Grant)
    requires h == g.(state := h.state, reserved := h.reserved)
    ensures TermsValue(h) == TermsValue(g)
  {}

  lemma ProgressFits(g: Grant, h: Grant)
    requires Fits(PROGRESS, ProgressValue(g)) && h == g.(state := h.state, reserved := h.reserved)
    ensures Fits(PROGRESS, ProgressValue(h))
  {
    hide Fits;
    var v, w := ProgressValue(g), ProgressValue(h);
    Fields3(STATUS, POSITIONS, FLAGS, v);
    Fields3(STATUS, POSITIONS, FLAGS, w);
    StatusFits(h);
  }

  lemma StatusFits(g: Grant)
    ensures Fits(STATUS, L(ProgressValue(g))) && Fits(FLAGS, R(R(ProgressValue(g))))
  {
    NumbersBack(g.outcome, g.state, g.commit);
    hide OutcomeNumber, StateNumber, CommitNumber;
    Fields3(Num(1, 11), Num(1, 8), Num(1, 4), L(ProgressValue(g)));
    Fields3(FLAG, FLAG, FLAG, R(R(ProgressValue(g))));
  }

  // ----- attempts -----

  const ATTEMPT_IDS: Shape := Both(NAME, Both(NAME, Both(DIGEST, Both(NAME, NAME))))
  const ATTEMPT_END: Shape := Both(Num(1, 11), Both(Num(2, 76), Both(U64, Both(U64, Both(FLAG, FLAG)))))
  const ATTEMPT: Shape := Both(ATTEMPT_IDS, ATTEMPT_END)

  function AttemptValue(id: Id, a: Attempt): Value
  {
    Pair(Pair(Chars_(id), Pair(Chars_(a.request), Pair(Raw(a.digest), Pair(Chars_(a.grant), Chars_(a.lease))))),
         Pair(Number(OutcomeNumber(a.outcome)), Pair(Number(a.reason), Pair(Number(a.firstSeen),
         Pair(Number(a.terminalTick), Pair(Flag(a.released), Flag(a.cancelled)))))))
  }

  function AttemptOf(v: Value): Row<Attempt>
  {
    var i, e := L(v), R(v);
    var f := R(R(R(R(e))));
    Row(T(L(i)), Attempt(T(L(R(i))), B(L(R(R(i)))), T(L(R(R(R(i))))), T(R(R(R(R(i))))),
                         OutcomeOf(N(L(e))), CodeOf(N(L(R(e)))), N(L(R(R(e)))), N(L(R(R(R(e))))),
                         N(L(f)) == 1, N(R(f)) == 1))
  }

  predicate AttemptCodable(id: Id, a: Attempt) { Fits(ATTEMPT, AttemptValue(id, a)) }

  function EncodeAttempt(id: Id, a: Attempt): seq<byte> { Emit(ATTEMPT, AttemptValue(id, a)) }

  function DecodeAttempt(bytes: seq<byte>): Read<Row<Attempt>>
  {
    match Take(ATTEMPT, bytes)
    case Bad(code) => Bad(code)
    case Got(v, rest) => Got(AttemptOf(v), rest)
  }

  lemma AttemptShaped()
    ensures WellShaped(ATTEMPT)
  {
    var v := Number(0);
    BaseValues();
    assert WellShaped(NAME) && WellShaped(DIGEST) && WellShaped(U64) && WellShaped(FLAG);
    assert WellShaped(Num(1, 11)) && WellShaped(Num(2, 76));
    hide WellShaped, Base;
    Fields4(NAME, NAME, DIGEST, Both(NAME, NAME), v);
    Fields2(NAME, NAME, v);
    Fields4(Num(1, 11), Num(2, 76), U64, Both(U64, Both(FLAG, FLAG)), v);
    Fields3(U64, FLAG, FLAG, v);
    Fields2(ATTEMPT_IDS, ATTEMPT_END, v);
  }

  lemma AttemptValueBack(id: Id, a: Attempt)
    ensures AttemptOf(AttemptValue(id, a)) == Row(id, a)
  {
    NumbersBack(a.outcome, Prepared, NotCommitted);
    hide OutcomeNumber, OutcomeOf;
  }

  lemma AttemptValueThere(v: Value)
    requires Fits(ATTEMPT, v)
    ensures AttemptValue(AttemptOf(v).id, AttemptOf(v).val) == v
  {
    Fields2(ATTEMPT_IDS, ATTEMPT_END, v);
    Fields4(NAME, NAME, DIGEST, Both(NAME, NAME), L(v));
    Fields2(NAME, NAME, R(R(R(L(v)))));
    Fields4(Num(1, 11), Num(2, 76), U64, Both(U64, Both(FLAG, FLAG)), R(v));
    Fields3(U64, FLAG, FLAG, R(R(R(R(v)))));
    NumbersThere(N(L(R(v))), 0, 0);
    hide OutcomeNumber, OutcomeOf;
  }

  lemma AttemptRoundTrip(id: Id, a: Attempt, rest: seq<byte>)
    requires AttemptCodable(id, a)
    ensures DecodeAttempt(EncodeAttempt(id, a) + rest) == Got(Row(id, a), rest)
  {
    AttemptShaped();
    TakeBack(ATTEMPT, AttemptValue(id, a), rest);
    AttemptValueBack(id, a);
  }

  lemma AttemptCanonical(bytes: seq<byte>)
    requires DecodeAttempt(bytes).Got?
    ensures var r := DecodeAttempt(bytes);
            AttemptCodable(r.value.id, r.value.val) && bytes == EncodeAttempt(r.value.id, r.value.val) + r.rest
  {
    TakeThere(ATTEMPT, bytes);
    AttemptValueThere(Take(ATTEMPT, bytes).value);
  }

  // ----- driving the writer and the reader -----

  method WriteGrant(w: ByteWriter, id: Id, g: Grant)
    requires GrantCodable(id, g)
    modifies w
    ensures w.sink == old(w.sink) + EncodeGrant(id, g)
  {
    WriteValue(w, GRANT, GrantValue(id, g));
  }

  method ReadGrant(r: ByteReader) returns (ok: bool, row: Row<Grant>)
    requires r.Valid()
    modifies r
    ensures r.Did(old(DecodeGrant(r.Rest())), ok, row)
  {
    hide Take, GrantOf;
    var v: Value;
    ok, v := ReadValue(r, GRANT);
    row := GrantOf(v);
  }

  method WriteAttempt(w: ByteWriter, id: Id, a: Attempt)
    requires AttemptCodable(id, a)
    modifies w
    ensures w.sink == old(w.sink) + EncodeAttempt(id, a)
  {
    WriteValue(w, ATTEMPT, AttemptValue(id, a));
  }

  method ReadAttempt(r: ByteReader) returns (ok: bool, row: Row<Attempt>)
    requires r.Valid()
    modifies r
    ensures r.Did(old(DecodeAttempt(r.Rest())), ok, row)
  {
    hide Take, AttemptOf;
    var v: Value;
    ok, v := ReadValue(r, ATTEMPT);
    row := AttemptOf(v);
  }
}
