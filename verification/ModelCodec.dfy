/** The canonical encoding of the cluster specification (src/model.cpp). */
module ModelCodec {
  import opened Tables
  import opened Model
  import opened Text
  import opened Numbers
  import opened Bytes
  import opened Schema
  import opened GrantCodec
  import opened Cluster

  // ----- lists -----

  function All<X, Y>(xs: seq<X>, f: X -> Y): (ys: seq<Y>)
    ensures |ys| == |xs| && forall i :: 0 <= i < |xs| ==> ys[i] == f(xs[i])
  {
    seq(|xs|, i requires 0 <= i < |xs| => f(xs[i]))
  }

  /** Element by element there and back is the whole list there and back. */
  lemma AllBack<X, Y>(xs: seq<X>, f: X -> Y, g: Y -> X)
    requires forall i :: 0 <= i < |xs| ==> g(f(xs[i])) == xs[i]
    ensures All(All(xs, f), g) == xs
  {}

  function TextValue(s: string): Value { Chars_(s) }

  const NAMES_256: Shape := Many(MAX_PER_MEMBER, NAME, false)
  const LOCALITY: Shape := Many(MAX_DEPTH, Str(MAX_IDENTIFIER, Identifier), false)

  lemma TextsThere(items: seq<Value>, limit: nat, rule: Rule)
    requires forall i :: 0 <= i < |items| ==> Fits(Str(limit, rule), items[i])
    ensures All(All(items, T), TextValue) == items
  {
    forall i | 0 <= i < |items| ensures TextValue(T(items[i])) == items[i] { assert Fits(Str(limit, rule), items[i]); }
    AllBack(items, T, TextValue);
  }

  lemma TextsBack(xs: seq<string>)
    ensures All(All(xs, TextValue), T) == xs
  {
    AllBack(xs, TextValue, T);
  }

  // ----- enumerations -----

  function LifecycleNumber(l: Lifecycle): nat
  {
    match l
    case Enlisted => 0 case Active => 1 case Draining => 2 case Maintenance => 3 case Faulted => 4
    case Partitioned => 5 case Removed => 6
  }

  function LifecycleOf(n: nat): Lifecycle
  {
    if n == 0 then Enlisted else if n == 1 then Active else if n == 2 then Draining else if n == 3 then Maintenance
    else if n == 4 then Faulted else if n == 5 then Partitioned else Removed
  }

  function PathStateNumber(s: PathState): nat
  {
    match s case Operational => 0 case DegradedPath => 1 case Down => 2 case PathMaintenance => 3 case UnknownPath => 4
  }

  function PathStateOf(n: nat): PathState
  {
    if n == 0 then Operational else if n == 1 then DegradedPath else if n == 2 then Down
    else if n == 3 then PathMaintenance else UnknownPath
  }

  function ModeNumber(m: MaintenanceMode): nat { match m case Refuse => 0 case Degrade => 1 case Allow => 2 }

  function ModeOf(n: nat): MaintenanceMode { if n == 0 then Refuse else if n == 1 then Degrade else Allow }

  lemma EnumsBack(l: Lifecycle, s: PathState, m: MaintenanceMode)
    ensures LifecycleOf(LifecycleNumber(l)) == l && PathStateOf(PathStateNumber(s)) == s && ModeOf(ModeNumber(m)) == m
  {}

  lemma EnumsThere(l: nat, s: nat, m: nat)
    ensures l <= 6 ==> LifecycleNumber(LifecycleOf(l)) == l
    ensures s <= 4 ==> PathStateNumber(PathStateOf(s)) == s
    ensures m <= 2 ==> ModeNumber(ModeOf(m)) == m
  {}

  // ----- endpoints and resources -----

  const ENDPOINT: Shape := Both(NAME, Both(LOCALITY, Both(NAMES_256, U64)))
  const RESOURCE: Shape := Both(NAME, Both(Str(MAX_IDENTIFIER, Free), Both(U64, Both(U64, FLAG))))

  function EndpointValue(e: Endpoint): Value
  {
    Pair(Chars_(e.id), Pair(Items(All(e.locality, TextValue)),
    Pair(Items(All(e.services, TextValue)), Number(e.capacityClass))))
  }

  function EndpointOf(v: Value): Endpoint
  {
    Endpoint(T(L(v)), All(I(L(R(v))), T), All(I(L(R(R(v)))), T), N(R(R(R(v)))))
  }

  function ResourceValue(x: Resource): Value
  {
    Pair(Chars_(x.id), Pair(Chars_(x.kind), Pair(Number(x.total), Pair(Number(x.generation), Flag(x.reservable)))))
  }

  function ResourceOf(v: Value): Resource
  {
    Resource(T(L(v)), T(L(R(v))), N(L(R(R(v)))), N(L(R(R(R(v))))), N(R(R(R(R(v))))) == 1)
  }

  lemma EndpointBack(e: Endpoint)
    ensures EndpointOf(EndpointValue(e)) == e
  {
    TextsBack(e.locality);
    TextsBack(e.services);
  }

  lemma EndpointThere(v: Value)
    requires Fits(ENDPOINT, v)
    ensures EndpointValue(EndpointOf(v)) == v
  {
    Fields4(NAME, LOCALITY, NAMES_256, U64, v);
    TextsThere(I(L(R(v))), MAX_IDENTIFIER, Identifier);
    TextsThere(I(L(R(R(v)))), MAX_IDENTIFIER, OptionalIdentifier);
  }

  lemma ResourceThere(v: Value)
    requires Fits(RESOURCE, v)
    ensures ResourceValue(ResourceOf(v)) == v
  {
    Fields4(NAME, Str(MAX_IDENTIFIER, Free), U64, Both(U64, FLAG), v);
    Fields2(U64, FLAG, R(R(R(v))));
  }

  // ----- members -----

  const ENDPOINTS: Shape := Many(MAX_PER_MEMBER, ENDPOINT, false)
  const RESOURCES: Shape := Many(MAX_PER_MEMBER, RESOURCE, false)
  const MEMBER_LISTS: Shape := Both(LOCALITY, Both(ENDPOINTS, Both(NAMES_256, Both(RESOURCES, Both(U64, Str(MAX_NOTE, Utf8))))))
  const MEMBER: Shape := Both(NAME, Both(NAME, Both(U64, Both(DIGEST, Both(Num(1, 6), MEMBER_LISTS)))))

  function MemberValue(row: Row<Member>): Value
  {
    var m := row.val;
    Pair(Chars_(row.id), Pair(Chars_(m.domain), Pair(Number(m.generation), Pair(Raw(m.digest),
    Pair(Number(LifecycleNumber(m.lifecycle)),
         Pair(Items(All(m.locality, TextValue)), Pair(Items(All(m.endpoints, EndpointValue)),
         Pair(Items(All(m.services, TextValue)), Pair(Items(All(m.resources, ResourceValue)),
         Pair(Number(m.lastObserved), Chars_(m.note)))))))))))
  }

  function MemberOf(v: Value): Row<Member>
  {
    var w := R(R(R(R(v))));
    var l := R(w);
    Row(T(L(v)), Member(T(L(R(v))), N(L(R(R(v)))), B(L(R(R(R(v))))), LifecycleOf(N(L(w))),
                        All(I(L(l)), T), All(I(L(R(l))), EndpointOf), All(I(L(R(R(l)))), T),
                        All(I(L(R(R(R(l))))), ResourceOf), N(L(R(R(R(R(l)))))), T(R(R(R(R(R(l))))))))
  }

  lemma MemberBack(row: Row<Member>)
    ensures MemberOf(MemberValue(row)) == row
  {
    var m := row.val;
    EnumsBack(m.lifecycle, Operational, Refuse);
    TextsBack(m.locality);
    TextsBack(m.services);
    forall i | 0 <= i < |m.endpoints| ensures EndpointOf(EndpointValue(m.endpoints[i])) == m.endpoints[i] {
      EndpointBack(m.endpoints[i]);
    }
    AllBack(m.endpoints, EndpointValue, EndpointOf);
    AllBack(m.resources, ResourceValue, ResourceOf);
    hide EndpointValue, EndpointOf, ResourceValue, ResourceOf, LifecycleNumber, LifecycleOf, All;
  }

  lemma MemberThere(v: Value)
    requires Fits(MEMBER, v)
    ensures MemberValue(MemberOf(v)) == v
  {
    var w := R(R(R(R(v))));
    var l := R(w);
    Fields4(NAME, NAME, U64, Both(DIGEST, Both(Num(1, 6), MEMBER_LISTS)), v);
    Fields3(DIGEST, Num(1, 6), MEMBER_LISTS, R(R(R(v))));
    Fields4(LOCALITY, ENDPOINTS, NAMES_256, Both(RESOURCES, Both(U64, Str(MAX_NOTE, Utf8))), l);
    Fields3(RESOURCES, U64, Str(MAX_NOTE, Utf8), R(R(R(l))));
    EnumsThere(N(L(w)), 0, 0);
    TextsThere(I(L(l)), MAX_IDENTIFIER, Identifier);
    TextsThere(I(L(R(R(l)))), MAX_IDENTIFIER, OptionalIdentifier);
    EndpointsThere(I(L(R(l))));
    ResourcesThere(I(L(R(R(R(l))))));
    hide EndpointValue, EndpointOf, ResourceValue, ResourceOf, LifecycleNumber, LifecycleOf, All;
  }

  lemma EndpointsThere(items: seq<Value>)
    requires forall i :: 0 <= i < |items| ==> Fits(ENDPOINT, items[i])
    ensures All(All(items, EndpointOf), EndpointValue) == items
  {
    hide EndpointValue, EndpointOf, Fits;
    forall i | 0 <= i < |items| ensures EndpointValue(EndpointOf(items[i])) == items[i] { EndpointThere(items[i]); }
    AllBack(items, EndpointOf, EndpointValue);
  }

  lemma ResourcesThere(items: seq<Value>)
    requires forall i :: 0 <= i < |items| ==> Fits(RESOURCE, items[i])
    ensures All(All(items, ResourceOf), ResourceValue) == items
  {
    hide ResourceValue, ResourceOf, Fits;
    forall i | 0 <= i < |items| ensures ResourceValue(ResourceOf(items[i])) == items[i] { ResourceThere(items[i]); }
    AllBack(items, ResourceOf, ResourceValue);
  }

  // ----- paths, exclusions, obligations -----

  const PATH_ENDS: Shape := Both(NAME, Both(NAME, Both(NAME, NAME)))
  const PATH_REST: Shape := Both(Many(MAX_RESOURCES_PER_PATH, NAME, false), Both(U64, Both(FLAG, Both(Num(1, 4), U32))))
  const PATH: Shape := Both(NAME, Both(U64, Both(PATH_ENDS, PATH_REST)))

  function PathValue(row: Row<Path>): Value
  {
    var p := row.val;
    Pair(Chars_(row.id), Pair(Number(p.generation),
    Pair(Pair(Chars_(p.source), Pair(Chars_(p.sourceEndpoint), Pair(Chars_(p.destination), Chars_(p.destinationEndpoint)))),
         Pair(Items(All(p.resources, TextValue)), Pair(Number(p.capacity), Pair(Flag(p.exclusive),
         Pair(Number(PathStateNumber(p.state)), Number(p.hops))))))))
  }

  function PathOf(v: Value): Row<Path>
  {
    var e, r := L(R(R(v))), R(R(R(v)));
    Row(T(L(v)), Path(N(L(R(v))), T(L(e)), T(L(R(e))), T(L(R(R(e)))), T(R(R(R(e)))),
                      All(I(L(r)), T), N(L(R(r))), N(L(R(R(r)))) == 1, PathStateOf(N(L(R(R(R(r)))))), N(R(R(R(R(r)))))))
  }

  lemma PathBack(row: Row<Path>)
    ensures PathOf(PathValue(row)) == row
  {
    EnumsBack(Active, row.val.state, Refuse);
    TextsBack(row.val.resources);
    hide PathStateNumber, PathStateOf, All;
  }

  lemma PathThere(v: Value)
    requires Fits(PATH, v)
    ensures PathValue(PathOf(v)) == v
  {
    var e, r := L(R(R(v))), R(R(R(v)));
    Fields4(NAME, U64, PATH_ENDS, PATH_REST, v);
    Fields4(NAME, NAME, NAME, NAME, e);
    Fields4(Many(MAX_RESOURCES_PER_PATH, NAME, false), U64, FLAG, Both(Num(1, 4), U32), r);
    Fields2(Num(1, 4), U32, R(R(R(r))));
    EnumsThere(0, N(L(R(R(R(r))))), 0);
    TextsThere(I(L(r)), MAX_IDENTIFIER, OptionalIdentifier);
    hide PathStateNumber, PathStateOf, All;
  }

  const COVERED: Shape := Both(LOCALITY, Both(Many(MAX_EXCLUSION_MEMBERS, NAME, false), Many(MAX_PATHS, NAME, false)))
  const WINDOW: Shape := Both(U64, Both(U64, Both(Num(1, 2), Both(FLAG, Str(MAX_NOTE, Utf8)))))
  const EXCLUSION: Shape := Both(NAME, Both(COVERED, WINDOW))

  function ExclusionValue(row: Row<Exclusion>): Value
  {
    var e := row.val;
    Pair(Chars_(row.id),
    Pair(Pair(Items(All(e.prefix, TextValue)), Pair(Items(All(e.members, TextValue)), Items(All(e.paths, TextValue)))),
         Pair(Number(e.from), Pair(Number(e.to), Pair(Number(ModeNumber(e.mode)), Pair(Flag(e.enabled), Chars_(e.reason)))))))
  }

  function ExclusionOf(v: Value): Row<Exclusion>
  {
    var c, w := L(R(v)), R(R(v));
    Row(T(L(v)), Exclusion(All(I(L(c)), T), All(I(L(R(c))), T), All(I(R(R(c))), T), N(L(w)), N(L(R(w))),
                           ModeOf(N(L(R(R(w))))), N(L(R(R(R(w))))) == 1, T(R(R(R(R(w)))))))
  }

  lemma ExclusionBack(row: Row<Exclusion>)
    ensures ExclusionOf(ExclusionValue(row)) == row
  {
    EnumsBack(Active, Operational, row.val.mode);
    TextsBack(row.val.prefix);
    TextsBack(row.val.members);
    TextsBack(row.val.paths);
    hide ModeNumber, ModeOf, All;
  }

  lemma ExclusionThere(v: Value)
    requires Fits(EXCLUSION, v)
    ensures ExclusionValue(ExclusionOf(v)) == v
  {
    var c, w := L(R(v)), R(R(v));
    Fields3(NAME, COVERED, WINDOW, v);
    Fields3(LOCALITY, Many(MAX_EXCLUSION_MEMBERS, NAME, false), Many(MAX_PATHS, NAME, false), c);
    Fields4(U64, U64, Num(1, 2), Both(FLAG, Str(MAX_NOTE, Utf8)), w);
    Fields2(FLAG, Str(MAX_NOTE, Utf8), R(R(R(w))));
    EnumsThere(0, 0, N(L(R(R(w)))));
    TextsThere(I(L(c)), MAX_IDENTIFIER, Identifier);
    TextsThere(I(L(R(c))), MAX_IDENTIFIER, OptionalIdentifier);
    TextsThere(I(R(R(c))), MAX_IDENTIFIER, OptionalIdentifier);
    hide ModeNumber, ModeOf, All;
  }

  const OBLIGATION: Shape := Both(NAME, Both(NAME, Both(U32, Both(Num(1, 255), Both(U64, FLAG)))))

  function ObligationValue(row: Row<Obligation>): Value
  {
    var o := row.val;
    Pair(Chars_(row.id), Pair(Chars_(o.service), Pair(Number(o.minDomains), Pair(Number(o.level),
    Pair(Number(o.minUnits), Flag(o.enabled))))))
  }

  function ObligationOf(v: Value): Row<Obligation>
  {
    Row(T(L(v)), Obligation(T(L(R(v))), N(L(R(R(v)))), N(L(R(R(R(v))))), N(L(R(R(R(R(v)))))), N(R(R(R(R(R(v)))))) == 1))
  }

  lemma ObligationThere(v: Value)
    requires Fits(OBLIGATION, v)
    ensures ObligationValue(ObligationOf(v)) == v
  {
    Fields4(NAME, NAME, U32, Both(Num(1, 255), Both(U64, FLAG)), v);
    Fields3(Num(1, 255), U64, FLAG, R(R(R(v))));
  }

  // ----- the specification -----

  const SPEC_TABLES: Shape :=
    Both(Many(MAX_MEMBERS, MEMBER, true), Both(Many(MAX_PATHS, PATH, true),
    Both(Many(MAX_EXCLUSIONS, EXCLUSION, true), Many(MAX_OBLIGATIONS, OBLIGATION, true))))
  const SPEC: Shape := Both(NAME, Both(U64, Both(U64, Both(U64, Both(INCARNATION, Both(U64, SPEC_TABLES))))))

  function SpecValue(s: Spec, tick: nat): Value
  {
    Pair(Chars_(s.id), Pair(Number(s.generation), Pair(Number(s.epoch), Pair(Number(s.policy),
    Pair(Raw(s.incarnation), Pair(Number(tick),
         Pair(Items(All(s.members, MemberValue)), Pair(Items(All(s.paths, PathValue)),
         Pair(Items(All(s.exclusions, ExclusionValue)), Items(All(s.obligations, ObligationValue)))))))))))
  }

  function SpecOf(v: Value): (Spec, nat)
  {
    var w := R(R(R(R(v))));
    var t := R(R(w));
    (Spec(T(L(v)), N(L(R(v))), N(L(R(R(v)))), N(L(R(R(R(v))))), B(L(w)),
          All(I(L(t)), MemberOf), All(I(L(R(t))), PathOf), All(I(L(R(R(t)))), ExclusionOf), All(I(R(R(R(t)))), ObligationOf)),
     N(L(R(w))))
  }

  predicate SpecCodable(s: Spec, tick: nat) { Fits(SPEC, SpecValue(s, tick)) }

  function EncodeSpec(s: Spec, tick: nat): seq<byte> { Emit(SPEC, SpecValue(s, tick)) }

  function DecodeSpec(bytes: seq<byte>): Read<(Spec, nat)>
  {
    match Take(SPEC, bytes)
    case Bad(code) => Bad(code)
    case Got(v, rest) => Got(SpecOf(v), rest)
  }

  lemma MembersBack(t: Table<Member>)
    ensures All(All(t, MemberValue), MemberOf) == t
  {
    hide MemberValue, MemberOf;
    forall i | 0 <= i < |t| ensures MemberOf(MemberValue(t[i])) == t[i] { MemberBack(t[i]); }
    AllBack(t, MemberValue, MemberOf);
  }

  lemma PathsBack(t: Table<Path>)
    ensures All(All(t, PathValue), PathOf) == t
  {
    hide PathValue, PathOf;
    forall i | 0 <= i < |t| ensures PathOf(PathValue(t[i])) == t[i] { PathBack(t[i]); }
    AllBack(t, PathValue, PathOf);
  }

  lemma ExclusionsBack(t: Table<Exclusion>)
    ensures All(All(t, ExclusionValue), ExclusionOf) == t
  {
    hide ExclusionValue, ExclusionOf;
    forall i | 0 <= i < |t| ensures ExclusionOf(ExclusionValue(t[i])) == t[i] { ExclusionBack(t[i]); }
    AllBack(t, ExclusionValue, ExclusionOf);
  }

  lemma SpecValueBack(s: Spec, tick: nat)
    ensures SpecOf(SpecValue(s, tick)) == (s, tick)
  {
    hide MemberValue, MemberOf, PathValue, PathOf, ExclusionValue, ExclusionOf, All;
    MembersBack(s.members);
    PathsBack(s.paths);
    ExclusionsBack(s.exclusions);
    AllBack(s.obligations, ObligationValue, ObligationOf);
  }

  lemma MembersThere(items: seq<Value>)
    requires forall i :: 0 <= i < |items| ==> Fits(MEMBER, items[i])
    ensures All(All(items, MemberOf), MemberValue) == items
  {
    hide MemberValue, MemberOf, Fits;
    forall i | 0 <= i < |items| ensures MemberValue(MemberOf(items[i])) == items[i] { MemberThere(items[i]); }
    AllBack(items, MemberOf, MemberValue);
  }

  lemma PathsThere(items: seq<Value>)
    requires forall i :: 0 <= i < |items| ==> Fits(PATH, items[i])
    ensures All(All(items, PathOf), PathValue) == items
  {
    hide PathValue, PathOf, Fits;
    forall i | 0 <= i < |items| ensures PathValue(PathOf(items[i])) == items[i] { PathThere(items[i]); }
    AllBack(items, PathOf, PathValue);
  }

  lemma ExclusionsThere(items: seq<Value>)
    requires forall i :: 0 <= i < |items| ==> Fits(EXCLUSION, items[i])
    ensures All(All(items, ExclusionOf), ExclusionValue) == items
  {
    hide ExclusionValue, ExclusionOf, Fits;
    forall i | 0 <= i < |items| ensures ExclusionValue(ExclusionOf(items[i])) == items[i] { ExclusionThere(items[i]); }
    AllBack(items, ExclusionOf, ExclusionValue);
  }

  lemma ObligationsThere(items: seq<Value>)
    requires forall i :: 0 <= i < |items| ==> Fits(OBLIGATION, items[i])
    ensures All(All(items, ObligationOf), ObligationValue) == items
  {
    hide ObligationValue, ObligationOf, Fits;
    forall i | 0 <= i < |items| ensures ObligationValue(ObligationOf(items[i])) == items[i] { ObligationThere(items[i]); }
    AllBack(items, ObligationOf, ObligationValue);
  }

  lemma SpecFields(v: Value)
    requires Fits(SPEC, v)
    ensures var w := R(R(R(R(v))));
            var t := R(R(w));
            && v == Pair(Chars_(T(L(v))), Pair(Number(N(L(R(v)))), Pair(Number(N(L(R(R(v))))), Pair(Number(N(L(R(R(R(v)))))),
                    Pair(Raw(B(L(w))), Pair(Number(N(L(R(w)))),
                    Pair(Items(I(L(t))), Pair(Items(I(L(R(t)))), Pair(Items(I(L(R(R(t))))), Items(I(R(R(R(t))))))))))))))
            && Fits(Many(MAX_MEMBERS, MEMBER, true), L(t)) && Fits(Many(MAX_PATHS, PATH, true), L(R(t)))
            && Fits(Many(MAX_EXCLUSIONS, EXCLUSION, true), L(R(R(t))))
            && Fits(Many(MAX_OBLIGATIONS, OBLIGATION, true), R(R(R(t))))
  {
    var w := R(R(R(R(v))));
    Fields4(NAME, U64, U64, Both(U64, Both(INCARNATION, Both(U64, SPEC_TABLES))), v);
    Fields4(U64, INCARNATION, U64, SPEC_TABLES, R(R(R(v))));
    Fields4(Many(MAX_MEMBERS, MEMBER, true), Many(MAX_PATHS, PATH, true), Many(MAX_EXCLUSIONS, EXCLUSION, true),
            Many(MAX_OBLIGATIONS, OBLIGATION, true), R(R(w)));
  }

  lemma SpecValueThere(v: Value)
    requires Fits(SPEC, v)
    ensures SpecValue(SpecOf(v).0, SpecOf(v).1) == v
  {
    hide MemberValue, MemberOf, PathValue, PathOf, ExclusionValue, ExclusionOf, ObligationValue, ObligationOf, All;
    var t := R(R(R(R(R(R(v))))));
    SpecFields(v);
    MembersThere(I(L(t)));
    PathsThere(I(L(R(t))));
    ExclusionsThere(I(L(R(R(t)))));
    ObligationsThere(I(R(R(R(t)))));
  }

  lemma SpecShaped()
    ensures WellShaped(SPEC)
  {
    var v := Number(0);
    BaseValues();
    assert WellShaped(NAME) && WellShaped(DIGEST) && WellShaped(INCARNATION) && WellShaped(U64) && WellShaped(U32)
           && WellShaped(FLAG) && WellShaped(Num(1, 6)) && WellShaped(Num(1, 4)) && WellShaped(Num(1, 2))
           && WellShaped(Num(1, 255)) && WellShaped(Str(MAX_NOTE, Utf8)) && WellShaped(Str(MAX_IDENTIFIER, Free))
           && WellShaped(NAMES_256) && WellShaped(LOCALITY) && WellShaped(Many(MAX_RESOURCES_PER_PATH, NAME, false))
           && WellShaped(Many(MAX_EXCLUSION_MEMBERS, NAME, false)) && WellShaped(Many(MAX_PATHS, NAME, false));
    assert (WellShaped(ENDPOINT) ==> WellShaped(ENDPOINTS)) && (WellShaped(RESOURCE) ==> WellShaped(RESOURCES));
    assert WellShaped(MEMBER) ==> WellShaped(Many(MAX_MEMBERS, MEMBER, true));
    assert WellShaped(PATH) ==> WellShaped(Many(MAX_PATHS, PATH, true));
    assert WellShaped(EXCLUSION) ==> WellShaped(Many(MAX_EXCLUSIONS, EXCLUSION, true));
    assert WellShaped(OBLIGATION) ==> WellShaped(Many(MAX_OBLIGATIONS, OBLIGATION, true));
    hide WellShaped, Base;
    Fields4(NAME, LOCALITY, NAMES_256, U64, v);
    Fields4(NAME, Str(MAX_IDENTIFIER, Free), U64, Both(U64, FLAG), v);
    Fields2(U64, FLAG, v);
    Fields4(LOCALITY, ENDPOINTS, NAMES_256, Both(RESOURCES, Both(U64, Str(MAX_NOTE, Utf8))), v);
    Fields3(RESOURCES, U64, Str(MAX_NOTE, Utf8), v);
    Fields4(NAME, NAME, U64, Both(DIGEST, Both(Num(1, 6), MEMBER_LISTS)), v);
    Fields3(DIGEST, Num(1, 6), MEMBER_LISTS, v);
    Fields4(NAME, NAME, NAME, NAME, v);
    Fields4(Many(MAX_RESOURCES_PER_PATH, NAME, false), U64, FLAG, Both(Num(1, 4), U32), v);
    Fields2(Num(1, 4), U32, v);
    Fields4(NAME, U64, PATH_ENDS, PATH_REST, v);
    Fields3(LOCALITY, Many(MAX_EXCLUSION_MEMBERS, NAME, false), Many(MAX_PATHS, NAME, false), v);
    Fields4(U64, U64, Num(1, 2), Both(FLAG, Str(MAX_NOTE, Utf8)), v);
    Fields2(FLAG, Str(MAX_NOTE, Utf8), v);
    Fields3(NAME, COVERED, WINDOW, v);
    Fields4(NAME, NAME, U32, Both(Num(1, 255), Both(U64, FLAG)), v);
    Fields3(Num(1, 255), U64, FLAG, v);
    Fields4(Many(MAX_MEMBERS, MEMBER, true), Many(MAX_PATHS, PATH, true), Many(MAX_EXCLUSIONS, EXCLUSION, true),
            Many(MAX_OBLIGATIONS, OBLIGATION, true), v);
    Fields4(NAME, U64, U64, Both(U64, Both(INCARNATION, Both(U64, SPEC_TABLES))), v);
    Fields4(U64, INCARNATION, U64, SPEC_TABLES, v);
  }

  lemma SpecRoundTrip(s: Spec, tick: nat, rest: seq<byte>)
    requires SpecCodable(s, tick)
    ensures DecodeSpec(EncodeSpec(s, tick) + rest) == Got((s, tick), rest)
  {
    hide SpecValue, SpecOf;
    SpecShaped();
    TakeBack(SPEC, SpecValue(s, tick), rest);
    SpecValueBack(s, tick);
  }

  /** A specification that does not fit is not read. */
  lemma SpecRefused(s: Spec, tick: nat, rest: seq<byte>)
    requires Typed(SPEC, SpecValue(s, tick)) && !SpecCodable(s, tick)
    ensures DecodeSpec(EncodeSpec(s, tick) + rest).Bad?
  {
    hide SpecValue, SpecOf;
    SpecShaped();
    TakeRefuses(SPEC, SpecValue(s, tick), rest);
  }

  /** A specification has one encoding; in particular its tables come sorted. */
  lemma SpecCanonical(bytes: seq<byte>)
    requires DecodeSpec(bytes).Got?
    ensures var r := DecodeSpec(bytes);
            SpecCodable(r.value.0, r.value.1) && bytes == EncodeSpec(r.value.0, r.value.1) + r.rest
  {
    hide SpecValue, SpecOf;
    TakeThere(SPEC, bytes);
    SpecValueThere(Take(SPEC, bytes).value);
  }

  lemma {:induction false} NeighboursSort<X>(t: Table<X>)
    requires forall i :: 0 < i < |t| ==> Less(t[i - 1].id, t[i].id)
    ensures Sorted(t)
  {
    if t != [] {
      var n := |t| - 1;
      NeighboursSort(t[..n]);
      forall i, j | 0 <= i < j < |t| ensures Less(t[i].id, t[j].id) {
        if j == n {
          if i < n - 1 { LessTransitive(t[i].id, t[n - 1].id, t[n].id); }
        } else {
          assert t[..n][i] == t[i] && t[..n][j] == t[j];
        }
      }
    }
  }

  lemma KeyedAscends(bound: nat, item: Shape, v: Value)
    requires Fits(Many(bound, item, true), v)
    ensures Ascending(I(v))
  {}

  lemma KeysOf(a: Id, b: Id)
    ensures KeyOf(Chars_(a)) == a && KeyOf(Chars_(b)) == b
  {}

  lemma CodableSorted(s: Spec, tick: nat)
    requires SpecCodable(s, tick)
    ensures Sorted(s.members) && Sorted(s.paths)
  {
    hide Fits, MemberValue, PathValue, KeyOf, Less;
    var v := SpecValue(s, tick);
    SpecFields(v);
    var t := R(R(R(R(R(R(v))))));
    KeyedAscends(MAX_MEMBERS, MEMBER, L(t));
    KeyedAscends(MAX_PATHS, PATH, L(R(t)));
    forall i | 0 < i < |s.members| ensures Less(s.members[i - 1].id, s.members[i].id) {
      MembersAscend(s.members, i);
    }
    forall i | 0 < i < |s.paths| ensures Less(s.paths[i - 1].id, s.paths[i].id) {
      PathsAscend(s.paths, i);
    }
    NeighboursSort(s.members);
    NeighboursSort(s.paths);
  }

  lemma MembersAscend(t: Table<Member>, i: nat)
    requires Ascending(All(t, MemberValue)) && 0 < i < |t|
    ensures Less(t[i - 1].id, t[i].id)
  {
    var items := All(t, MemberValue);
    KeysOf(t[i - 1].id, t[i].id);
    assert KeyOf(items[i - 1]) == t[i - 1].id && KeyOf(items[i]) == t[i].id;
    assert Less(KeyOf(items[i - 1]), KeyOf(items[i]));
  }

  lemma PathsAscend(t: Table<Path>, i: nat)
    requires Ascending(All(t, PathValue)) && 0 < i < |t|
    ensures Less(t[i - 1].id, t[i].id)
  {
    var items := All(t, PathValue);
    KeysOf(t[i - 1].id, t[i].id);
    assert KeyOf(items[i - 1]) == t[i - 1].id && KeyOf(items[i]) == t[i].id;
    assert Less(KeyOf(items[i - 1]), KeyOf(items[i]));
  }
}
