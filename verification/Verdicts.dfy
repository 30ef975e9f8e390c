/** Evaluation said as one list of objections, in the order they are raised: a request is refused for the first one that
    applies, and passes when none does (src/authority.cpp). Sums are true sums, domains are sets, and the path is the least
    one that fits. */
module Verdicts {
  import opened Tables
  import opened Model
  import opened Cluster
  import opened Accounting
  import opened Eligibility
  import opened Engine
  import Fates
  import W = Wording

  datatype Objection = Objection(applies: bool, outcome: Outcome, reason: ReasonCode)

  /** The first objection that applies. */
  function FirstOf(os: seq<Objection>): Option<Objection>
  {
    if os == [] then None else if os[0].applies then Some(os[0]) else FirstOf(os[1..])
  }

  lemma {:induction false} FirstOfBoth(a: seq<Objection>, b: seq<Objection>)
    ensures FirstOf(a + b) == if FirstOf(a).Some? then FirstOf(a) else FirstOf(b)
  {
    if a == [] {
      assert a + b == b;
    } else {
      assert (a + b)[0] == a[0] && (a + b)[1..] == a[1..] + b;
      FirstOfBoth(a[1..], b);
    }
  }

  /** Something that softens a grant, if it applies. */
  datatype Softening = Softening(applies: bool, reason: ReasonCode)

  function Applying(ss: seq<Softening>): seq<ReasonCode>
  {
    if ss == [] then [] else (if ss[0].applies then [ss[0].reason] else []) + Applying(ss[1..])
  }

  lemma {:induction false} ApplyingBoth(a: seq<Softening>, b: seq<Softening>)
    ensures Applying(a + b) == Applying(a) + Applying(b)
  {
    if a == [] {
      assert a + b == b;
    } else {
      assert (a + b)[0] == a[0] && (a + b)[1..] == a[1..] + b;
      ApplyingBoth(a[1..], b);
      ghost var h, x, y := if a[0].applies then [a[0].reason] else [], Applying(a[1..]), Applying(b);
      assert h + (x + y) == (h + x) + y;
    }
  }

  /** A check raises exactly these objections, and else says exactly these softenings. */
  predicate Raises(c: Check, os: seq<Objection>, ss: seq<Softening>)
  {
    match FirstOf(os)
    case Some(o) => c == Fail(o.outcome, o.reason)
    case None => Fates.Says(c, Applying(ss))
  }

  lemma ThenRaises(a: Check, b: Check, os: seq<Objection>, ps: seq<Objection>, ss: seq<Softening>, ts: seq<Softening>)
    requires Raises(a, os, ss) && Raises(b, ps, ts)
    ensures Raises(Then(a, b), os + ps, ss + ts)
  {
    hide Fates.Says, FirstOf, Applying;
    FirstOfBoth(os, ps);
    ApplyingBoth(ss, ts);
    if FirstOf(os).None? {
      Fates.SaysGo(a, Applying(ss));
      if FirstOf(ps).None? { Fates.ThenSays(a, b, Applying(ss), Applying(ts)); }
    }
  }

  // ----- members -----

  predicate HasEndpointNamed(m: Member, id: Id) { exists e :: e in m.endpoints && e.id == id }

  /** What can be said against the members a request names. */
  function MemberObjections(o: Options, s: Member, d: Member, r: Request, k: Contract): seq<Objection>
  {
    [Objection(s.lifecycle == Removed, Refused, MEMBER_DELETED),
     Objection(d.lifecycle == Removed, Refused, MEMBER_DELETED),
     Objection(r.sourceGeneration < s.generation, FencedOut, MEMBER_GENERATION_STALE),
     Objection(r.sourceGeneration > s.generation, FencedOut, MEMBER_GENERATION_AHEAD),
     Objection(r.destinationGeneration < d.generation, FencedOut, MEMBER_GENERATION_STALE),
     Objection(r.destinationGeneration > d.generation, FencedOut, MEMBER_GENERATION_AHEAD),
     Objection(o.requireDigests && (IsZero(r.sourceDigest) || IsZero(r.destinationDigest)), Incomplete, MEMBER_DIGEST_MISSING),
     Objection(!IsZero(s.digest) && r.sourceDigest != s.digest, FencedOut, MEMBER_DIGEST_MISMATCH),
     Objection(!IsZero(d.digest) && r.destinationDigest != d.digest, FencedOut, MEMBER_DIGEST_MISMATCH),
     Objection(r.sourceEndpoint != [] && !HasEndpointNamed(s, r.sourceEndpoint), Unknown, ENDPOINT_NOT_FOUND),
     Objection(r.destinationEndpoint != [] && !HasEndpointNamed(d, r.destinationEndpoint), Unknown, ENDPOINT_NOT_FOUND),
     Objection(k.sourceService !in s.services, Refused, SERVICE_GROUP_NOT_SERVED),
     Objection(k.destinationService !in d.services, Refused, SERVICE_GROUP_NOT_SERVED)]
  }

  /** The first of thirteen. */
  lemma ThirteenFirst(os: seq<Objection>)
    requires |os| == 13
    ensures FirstOf(os) ==
              if os[0].applies then Some(os[0]) else if os[1].applies then Some(os[1])
              else if os[2].applies then Some(os[2]) else if os[3].applies then Some(os[3])
              else if os[4].applies then Some(os[4]) else if os[5].applies then Some(os[5])
              else if os[6].applies then Some(os[6]) else if os[7].applies then Some(os[7])
              else if os[8].applies then Some(os[8]) else if os[9].applies then Some(os[9])
              else if os[10].applies then Some(os[10]) else if os[11].applies then Some(os[11])
              else if os[12].applies then Some(os[12]) else None
  {
    var a, b, c, d := os[..3], os[3..6], os[6..9], os[9..];
    assert os == a + (b + (c + d));
    FirstOfBoth(a, b + (c + d));
    FirstOfBoth(b, c + d);
    FirstOfBoth(c, d);
    FourFirst(d);
    ThreeFirst(a);
    ThreeFirst(b);
    ThreeFirst(c);
  }

  lemma ThreeFirst(os: seq<Objection>)
    requires |os| == 3
    ensures FirstOf(os) ==
              if os[0].applies then Some(os[0]) else if os[1].applies then Some(os[1])
              else if os[2].applies then Some(os[2]) else None
  {
    OneFirst(os[2]);
    assert os[1..][1..] == [os[2]];
  }

  lemma FourFirst(os: seq<Objection>)
    requires |os| == 4
    ensures FirstOf(os) == if os[0].applies then Some(os[0]) else FirstOf(os[1..])
    ensures FirstOf(os[1..]) ==
              if os[1].applies then Some(os[1]) else if os[2].applies then Some(os[2])
              else if os[3].applies then Some(os[3]) else None
  {
    ThreeFirst(os[1..]);
  }

  lemma MembersRaise(o: Options, s: Member, d: Member, r: Request, k: Contract)
    ensures Raises(CheckMembers(o, s, d, r, k), MemberObjections(o, s, d, r, k), [])
  {
    hide IsZero, FirstOf;
    ThirteenFirst(MemberObjections(o, s, d, r, k));
    EndpointFound(s, r.sourceEndpoint);
    EndpointFound(d, r.destinationEndpoint);
  }

  lemma EndpointFound(m: Member, id: Id)
    ensures HasEndpoint(m, id) <==> id == [] || HasEndpointNamed(m, id)
  {
    if HasEndpointNamed(m, id) {
      var e :| e in m.endpoints && e.id == id;
      var i :| 0 <= i < |m.endpoints| && m.endpoints[i] == e;
    }
  }

  // ----- lifecycles and exclusions -----

  function LifecycleObjection(k: Contract, l: Lifecycle): Objection
  {
    Objection(!Fates.Tolerates(k, l), Refused, Fates.Unfit(l))
  }

  function LifecycleSoftening(k: Contract, l: Lifecycle): Softening
  {
    Softening(l != Active && !(l == Maintenance && k.maintenance == Allow),
              if l == Maintenance then DEGRADED_BY_MAINTENANCE else DEGRADED_BY_MEMBER_STATE)
  }

  lemma LifecycleRaises(k: Contract, l: Lifecycle, words: string)
    ensures Raises(CheckLifecycle(l, k, words), [LifecycleObjection(k, l)], [LifecycleSoftening(k, l)])
  {
    hide Fates.Says, Fates.Unfit, Fates.Tolerates, CheckLifecycle;
    Fates.LifecycleSays(l, k, words);
    OneFirst(LifecycleObjection(k, l));
    OneApplies(LifecycleSoftening(k, l));
  }

  /** The window of an exclusion, both ends included, open at the end when that is zero. */
  predicate InForce(e: Exclusion, now: nat) { e.enabled && e.from <= now && (e.to == 0 || now <= e.to) }

  predicate Covers(e: Exclusion, now: nat, id: Id, m: Member)
  {
    InForce(e, now) && (e.members == [] || id in e.members) && (e.prefix == [] || e.prefix <= m.locality)
  }

  predicate CoversLine(e: Exclusion, now: nat, id: Id)
  {
    InForce(e, now) && (e.paths == [] || id in e.paths)
  }

  /** The first exclusion that covers the member, by id, has this mode. */
  ghost predicate MemberMode(v: View, id: Id, m: Member, mode: MaintenanceMode)
  {
    exists i :: 0 <= i < |v.spec.exclusions| && FirstCover(v, i, id, m) && v.spec.exclusions[i].val.mode == mode
  }

  ghost predicate FirstCover(v: View, i: nat, id: Id, m: Member)
  {
    var t := v.spec.exclusions;
    i < |t| && Covers(t[i].val, v.tick, id, m) && forall j :: 0 <= j < i ==> !Covers(t[j].val, v.tick, id, m)
  }

  ghost predicate PathMode(v: View, id: Id, mode: MaintenanceMode)
  {
    exists i :: 0 <= i < |v.spec.exclusions| && FirstCoverOfLine(v, i, id) && v.spec.exclusions[i].val.mode == mode
  }

  ghost predicate FirstCoverOfLine(v: View, i: nat, id: Id)
  {
    var t := v.spec.exclusions;
    i < |t| && CoversLine(t[i].val, v.tick, id) && forall j :: 0 <= j < i ==> !CoversLine(t[j].val, v.tick, id)
  }

  /** Where the scan for a covering exclusion stops. */
  lemma {:induction false} ScanStops(t: Table<Exclusion>, id: Id, m: Member, now: nat)
    ensures var e := ExclusionForMember(t, id, m, now);
            if e.None? then forall j :: 0 <= j < |t| ==> !Covers(t[j].val, now, id, m)
            else exists i :: 0 <= i < |t| && t[i] == e.value && Covers(t[i].val, now, id, m)
                             && forall j :: 0 <= j < i ==> !Covers(t[j].val, now, id, m)
  {
    if t != [] {
      assert CoversMember(t[0].val, id, m, now) == Covers(t[0].val, now, id, m);
      if !Covers(t[0].val, now, id, m) {
        ScanStops(t[1..], id, m, now);
        assert forall j :: 1 <= j < |t| ==> t[1..][j - 1] == t[j];
        var e := ExclusionForMember(t[1..], id, m, now);
        if e.Some? {
          var i :| 0 <= i < |t[1..]| && t[1..][i] == e.value && Covers(t[1..][i].val, now, id, m)
                   && forall j :: 0 <= j < i ==> !Covers(t[1..][j].val, now, id, m);
          assert t[i + 1] == e.value;
        }
      } else {
        assert t[0] == ExclusionForMember(t, id, m, now).value;
      }
    }
  }

  lemma {:induction false} LineScanStops(t: Table<Exclusion>, id: Id, now: nat)
    ensures var e := ExclusionForPath(t, id, now);
            if e.None? then forall j :: 0 <= j < |t| ==> !CoversLine(t[j].val, now, id)
            else exists i :: 0 <= i < |t| && t[i] == e.value && CoversLine(t[i].val, now, id)
                             && forall j :: 0 <= j < i ==> !CoversLine(t[j].val, now, id)
  {
    if t != [] {
      assert CoversPath(t[0].val, id, now) == CoversLine(t[0].val, now, id);
      if !CoversLine(t[0].val, now, id) {
        LineScanStops(t[1..], id, now);
        assert forall j :: 1 <= j < |t| ==> t[1..][j - 1] == t[j];
        var e := ExclusionForPath(t[1..], id, now);
        if e.Some? {
          var i :| 0 <= i < |t[1..]| && t[1..][i] == e.value && CoversLine(t[1..][i].val, now, id)
                   && forall j :: 0 <= j < i ==> !CoversLine(t[1..][j].val, now, id);
          assert t[i + 1] == e.value;
        }
      } else {
        assert t[0] == ExclusionForPath(t, id, now).value;
      }
    }
  }

  ghost function ExclusionObjection(refused: bool): Objection { Objection(refused, Refused, MAINTENANCE_EXCLUSION_ACTIVE) }

  ghost function ExclusionSoftening(degrades: bool): Softening { Softening(degrades, DEGRADED_BY_MAINTENANCE) }

  lemma ModeRaises(e: Option<Row<Exclusion>>, words: string, refused: bool, degrades: bool)
    requires refused <==> e.Some? && e.value.val.mode == Refuse
    requires degrades <==> e.Some? && e.value.val.mode == Degrade
    ensures Raises(CheckExclusion(e, words), [ExclusionObjection(refused)], [ExclusionSoftening(degrades)])
  {
    assert [ExclusionObjection(refused)][1..] == [] && [ExclusionSoftening(degrades)][1..] == [];
  }

  lemma MemberExclusionRaises(v: View, id: Id, m: Member)
    ensures Raises(ExcludedMember(v, id, m), [ExclusionObjection(MemberMode(v, id, m, Refuse))],
                   [ExclusionSoftening(MemberMode(v, id, m, Degrade))])
  {
    hide Raises, CheckExclusion, W.CoversMember, ExclusionForMember, Covers, ExclusionObjection, ExclusionSoftening;
    var e := ExclusionForMember(v.spec.exclusions, id, m, v.tick);
    ScanStops(v.spec.exclusions, id, m, v.tick);
    forall mode ensures MemberMode(v, id, m, mode) <==> e.Some? && e.value.val.mode == mode {
      if e.Some? {
        var i :| 0 <= i < |v.spec.exclusions| && v.spec.exclusions[i] == e.value && FirstCover(v, i, id, m);
        if MemberMode(v, id, m, mode) {
          var j :| 0 <= j < |v.spec.exclusions| && FirstCover(v, j, id, m) && v.spec.exclusions[j].val.mode == mode;
          assert i == j;
        }
      }
    }
    ModeRaises(e, if e.Some? then W.CoversMember(e.value.id, id) else "", MemberMode(v, id, m, Refuse), MemberMode(v, id, m, Degrade));
  }

  lemma PathExclusionRaises(v: View, id: Id)
    ensures Raises(ExcludedPath(v, id), [ExclusionObjection(PathMode(v, id, Refuse))],
                   [ExclusionSoftening(PathMode(v, id, Degrade))])
  {
    hide Raises, CheckExclusion, W.CoversPath, ExclusionForPath, CoversLine, ExclusionObjection, ExclusionSoftening;
    var e := ExclusionForPath(v.spec.exclusions, id, v.tick);
    LineScanStops(v.spec.exclusions, id, v.tick);
    forall mode ensures PathMode(v, id, mode) <==> e.Some? && e.value.val.mode == mode {
      if e.Some? {
        var i :| 0 <= i < |v.spec.exclusions| && v.spec.exclusions[i] == e.value && FirstCoverOfLine(v, i, id);
        if PathMode(v, id, mode) {
          var j :| 0 <= j < |v.spec.exclusions| && FirstCoverOfLine(v, j, id) && v.spec.exclusions[j].val.mode == mode;
          assert i == j;
        }
      }
    }
    ModeRaises(e, if e.Some? then W.CoversPath(e.value.id, id) else "", PathMode(v, id, Refuse), PathMode(v, id, Degrade));
  }

  // ----- the path -----

  /** The endpoints a request names, if it names any, are the path's, if it has any. */
  predicate EndpointsAgree(p: Path, r: Request)
  {
    && (r.sourceEndpoint != [] && p.sourceEndpoint != [] ==> r.sourceEndpoint == p.sourceEndpoint)
    && (r.destinationEndpoint != [] && p.destinationEndpoint != [] ==> r.destinationEndpoint == p.destinationEndpoint)
  }

  /** A path that would do for a request that names none. */
  predicate Suits(p: Path, r: Request)
  {
    && p.source == r.source && p.destination == r.destination && EndpointsAgree(p, r)
    && p.state in {Operational, DegradedPath, PathMaintenance}
  }

  /** The path a request is bound to: the one it names, or of those that would do the one with the least id, or none when
      paths are not asked for. */
  ghost predicate IsChosen(v: View, r: Request, p: Option<Row<Path>>)
  {
    if r.path != [] then p == (match Get(v.spec.paths, r.path) case Some(q) => Some(Row(r.path, q)) case None => None)
    else if !v.options.requirePath then p == None
    else if p.None? then forall q :: q in v.spec.paths ==> !Suits(q.val, r)
    else p.value in v.spec.paths && Suits(p.value.val, r)
         && forall q :: q in v.spec.paths && Suits(q.val, r) ==> q == p.value || Less(p.value.id, q.id)
  }

  lemma SuitsIs(p: Path, r: Request)
    ensures Selectable(p, r) <==> Suits(p, r)
  {}

  lemma {:induction false} LeastSelected(t: Table<Path>, r: Request)
    requires Sorted(t)
    ensures var p := SelectPath(t, r);
            if p.None? then forall q :: q in t ==> !Suits(q.val, r)
            else p.value in t && Suits(p.value.val, r)
                 && forall q :: q in t && Suits(q.val, r) ==> q == p.value || Less(p.value.id, q.id)
  {
    hide Less, Selectable, Suits;
    if t != [] {
      SuitsIs(t[0].val, r);
      LeastSelected(t[1..], r);
      forall q | q in t ensures q == t[0] || (q in t[1..] && Less(t[0].id, q.id)) {
        var i :| 0 <= i < |t| && t[i] == q;
        if i > 0 { assert t[1..][i - 1] == q; }
      }
      assert forall q :: q in t[1..] ==> q in t;
      var rest := SelectPath(t[1..], r);
      if rest.Some? { AfterIsNotBelow(t[0].id, rest.value.id); }
    }
  }

  lemma AfterIsNotBelow(a: Id, b: Id)
    ensures Less(a, b) ==> !Less(b, a)
  {
    if Less(a, b) && Less(b, a) {
      LessTransitive(a, b, a);
      LessIrreflexive(a);
    }
  }

  lemma ChosenIs(v: View, r: Request)
    requires Sorted(v.spec.paths)
    ensures IsChosen(v, r, ChosenPath(v, r))
  {
    hide SelectPath, Less, Suits;
    LeastSelected(v.spec.paths, r);
  }

  /** There is never a choice. */
  lemma ChosenOnce(v: View, r: Request, p: Option<Row<Path>>, q: Option<Row<Path>>)
    requires IsChosen(v, r, p) && IsChosen(v, r, q)
    ensures p == q
  {
    hide Less, Suits, Get;
    if p.Some? && q.Some? { AfterIsNotBelow(p.value.id, q.value.id); }
  }

  ghost function PathObjections(v: View, r: Request, p: Option<Row<Path>>): seq<Objection>
  {
    [Objection(r.path != [] && p.None?, Unknown, PATH_NOT_FOUND),
     Objection(r.path != [] && p.Some? && r.pathGeneration != p.value.val.generation, Stale, PATH_GENERATION_STALE),
     Objection(r.path != [] && p.Some? && (p.value.val.source, p.value.val.destination) != (r.source, r.destination), Refused,
               CONTRACT_UNSATISFIED),
     Objection(r.path != [] && p.Some? && !EndpointsAgree(p.value.val, r), Refused, CONTRACT_UNSATISFIED),
     Objection(r.path == [] && v.options.requirePath && p.None?, Refused, NO_ELIGIBLE_PATH)]
  }

  lemma NamedPathRaises(v: View, r: Request)
    ensures Raises(CheckNamedPath(v, r), PathObjections(v, r, ChosenPath(v, r)), [])
  {
    hide SelectPath, LowerBound, FirstOf;
    var os := PathObjections(v, r, ChosenPath(v, r));
    assert os == [os[0]] + os[1..];
    FirstOfBoth([os[0]], os[1..]);
    FourFirst(os[1..]);
    OneFirst(os[0]);
    assert os[1..][1..] == os[2..];
  }

  lemma OneFirst(o: Objection)
    ensures FirstOf([o]) == if o.applies then Some(o) else None
  {
    assert [o][1..] == [];
  }

  predicate Worn(p: Option<Row<Path>>, state: PathState) { p.Some? && p.value.val.state == state }

  ghost function StateObjections(v: View, k: Contract, p: Option<Row<Path>>): seq<Objection>
  {
    [Objection(Worn(p, Down) || Worn(p, UnknownPath) || (Worn(p, PathMaintenance) && k.maintenance == Refuse), Refused,
               PATH_NOT_OPERATIONAL),
     ExclusionObjection(p.Some? && PathMode(v, p.value.id, Refuse))]
  }

  ghost function StateSoftenings(v: View, k: Contract, p: Option<Row<Path>>): seq<Softening>
  {
    [Softening(Worn(p, DegradedPath), DEGRADED_BY_REDUNDANCY_LOSS),
     Softening(Worn(p, PathMaintenance) && k.maintenance == Degrade, DEGRADED_BY_MAINTENANCE),
     ExclusionSoftening(p.Some? && PathMode(v, p.value.id, Degrade))]
  }

  lemma UsableRaises(row: Row<Path>, k: Contract)
    ensures Raises(CheckUsable(row, k),
                   [Objection(Worn(Some(row), Down) || Worn(Some(row), UnknownPath)
                              || (Worn(Some(row), PathMaintenance) && k.maintenance == Refuse), Refused, PATH_NOT_OPERATIONAL)],
                   [Softening(Worn(Some(row), DegradedPath), DEGRADED_BY_REDUNDANCY_LOSS),
                    Softening(Worn(Some(row), PathMaintenance) && k.maintenance == Degrade, DEGRADED_BY_MAINTENANCE)])
  {
    var a := Softening(Worn(Some(row), DegradedPath), DEGRADED_BY_REDUNDANCY_LOSS);
    var b := Softening(Worn(Some(row), PathMaintenance) && k.maintenance == Degrade, DEGRADED_BY_MAINTENANCE);
    TwoApply(a, b);
    OneFirst(Objection(Worn(Some(row), Down) || Worn(Some(row), UnknownPath)
                       || (Worn(Some(row), PathMaintenance) && k.maintenance == Refuse), Refused, PATH_NOT_OPERATIONAL));
  }

  lemma TwoApply(a: Softening, b: Softening)
    ensures Applying([a, b]) == (if a.applies then [a.reason] else []) + (if b.applies then [b.reason] else [])
  {
    OneApplies(b);
    assert [a, b][1..] == [b];
  }

  lemma OneApplies(a: Softening)
    ensures Applying([a]) == if a.applies then [a.reason] else []
  {
    assert [a][1..] == [];
  }

  lemma NothingApplies(ss: seq<Softening>)
    requires forall i :: 0 <= i < |ss| ==> !ss[i].applies
    ensures Applying(ss) == []
  {
    if ss != [] { NothingApplies(ss[1..]); }
  }

  lemma NothingRaised(os: seq<Objection>)
    requires forall i :: 0 <= i < |os| ==> !os[i].applies
    ensures FirstOf(os) == None
  {
    if os != [] { NothingRaised(os[1..]); }
  }

  lemma PathStateRaises(v: View, p: Option<Row<Path>>, k: Contract)
    ensures Raises(CheckPathState(v, p, k), StateObjections(v, k, p), StateSoftenings(v, k, p))
  {
    match p
    case None =>
      hide PathMode;
      NothingRaised(StateObjections(v, k, p));
      NothingApplies(StateSoftenings(v, k, p));
    case Some(row) =>
      hide Raises, CheckUsable, ExcludedPath, PathMode, ExclusionObjection, ExclusionSoftening;
      UsableRaises(row, k);
      PathExclusionRaises(v, row.id);
      var os, ss := StateObjections(v, k, p), StateSoftenings(v, k, p);
      ThenRaises(CheckUsable(row, k), ExcludedPath(v, row.id), [os[0]], [os[1]], [ss[0], ss[1]], [ss[2]]);
      assert [os[0]] + [os[1]] == os && [ss[0], ss[1]] + [ss[2]] == ss;
  }

  // ----- everything before capacity -----

  /** How many failure domains the two members are in, at the contract's level. */
  function Spread(s: Member, d: Member, k: Contract): nat
  {
    if DomainKey(s.locality, k.level) != DomainKey(d.locality, k.level) then 2 else 1
  }

  ghost function EarlyObjections(v: View, r: Request, k: Contract, s: Member, d: Member, p: Option<Row<Path>>): seq<Objection>
  {
    MemberObjections(v.options, s, d, r, k)
    + ([LifecycleObjection(k, s.lifecycle)]
    + ([LifecycleObjection(k, d.lifecycle)]
    + ([ExclusionObjection(MemberMode(v, r.source, s, Refuse))]
    + ([ExclusionObjection(MemberMode(v, r.destination, d, Refuse))]
    + (PathObjections(v, r, p)
    + (StateObjections(v, k, p)
    + [Objection(Spread(s, d, k) < k.minDomains, Refused, LOCALITY_CONSTRAINT_VIOLATED)]))))))
  }

  ghost function EarlySoftenings(v: View, r: Request, k: Contract, s: Member, d: Member, p: Option<Row<Path>>): seq<Softening>
  {
    [] + ([LifecycleSoftening(k, s.lifecycle)]
    + ([LifecycleSoftening(k, d.lifecycle)]
    + ([ExclusionSoftening(MemberMode(v, r.source, s, Degrade))]
    + ([ExclusionSoftening(MemberMode(v, r.destination, d, Degrade))]
    + ([] + (StateSoftenings(v, k, p) + []))))))
  }

  lemma SpreadRaises(s: Member, d: Member, k: Contract)
    ensures Raises(Require(k.minDomains <= Domains(s, d, k.level), Refused, LOCALITY_CONSTRAINT_VIOLATED, Go([])),
                   [Objection(Spread(s, d, k) < k.minDomains, Refused, LOCALITY_CONSTRAINT_VIOLATED)], [])
  {
    hide DomainKey;
    OneFirst(Objection(Spread(s, d, k) < k.minDomains, Refused, LOCALITY_CONSTRAINT_VIOLATED));
  }

  lemma EligibleRaises(v: View, s: Member, d: Member, r: Request, k: Contract)
    ensures Raises(CheckEligible(v, s, d, r, k), EarlyObjections(v, r, k, s, d, ChosenPath(v, r)),
                   EarlySoftenings(v, r, k, s, d, ChosenPath(v, r)))
  {
    hide CheckMembers, CheckLifecycle, ExcludedMember, CheckNamedPath, CheckPathState, Then, Require, ChosenPath, Raises,
         W.MemberState, MemberObjections, PathObjections, StateObjections, StateSoftenings, LifecycleObjection, LifecycleSoftening,
         ExclusionObjection, ExclusionSoftening, MemberMode, Spread;
    var p := ChosenPath(v, r);
    MembersRaise(v.options, s, d, r, k);
    LifecycleRaises(k, s.lifecycle, W.MemberState("source", s.lifecycle));
    LifecycleRaises(k, d.lifecycle, W.MemberState("destination", d.lifecycle));
    MemberExclusionRaises(v, r.source, s);
    MemberExclusionRaises(v, r.destination, d);
    NamedPathRaises(v, r);
    PathStateRaises(v, p, k);
    SpreadRaises(s, d, k);
    var c8 := Require(k.minDomains <= Domains(s, d, k.level), Refused, LOCALITY_CONSTRAINT_VIOLATED, Go([]));
    var o8 := [Objection(Spread(s, d, k) < k.minDomains, Refused, LOCALITY_CONSTRAINT_VIOLATED)];
    var c7, o7, s7 := Then(CheckPathState(v, p, k), c8), StateObjections(v, k, p) + o8, StateSoftenings(v, k, p) + [];
    ThenRaises(CheckPathState(v, p, k), c8, StateObjections(v, k, p), o8, StateSoftenings(v, k, p), []);
    var c6, o6, s6 := Then(CheckNamedPath(v, r), c7), PathObjections(v, r, p) + o7, [] + s7;
    ThenRaises(CheckNamedPath(v, r), c7, PathObjections(v, r, p), o7, [], s7);
    var x5, y5 := [ExclusionObjection(MemberMode(v, r.destination, d, Refuse))],
                  [ExclusionSoftening(MemberMode(v, r.destination, d, Degrade))];
    var c5, o5, s5 := Then(ExcludedMember(v, r.destination, d), c6), x5 + o6, y5 + s6;
    ThenRaises(ExcludedMember(v, r.destination, d), c6, x5, o6, y5, s6);
    var x4, y4 := [ExclusionObjection(MemberMode(v, r.source, s, Refuse))], [ExclusionSoftening(MemberMode(v, r.source, s, Degrade))];
    var c4, o4, s4 := Then(ExcludedMember(v, r.source, s), c5), x4 + o5, y4 + s5;
    ThenRaises(ExcludedMember(v, r.source, s), c5, x4, o5, y4, s5);
    var l3 := CheckLifecycle(d.lifecycle, k, W.MemberState("destination", d.lifecycle));
    var c3, o3, s3 := Then(l3, c4), [LifecycleObjection(k, d.lifecycle)] + o4, [LifecycleSoftening(k, d.lifecycle)] + s4;
    ThenRaises(l3, c4, [LifecycleObjection(k, d.lifecycle)], o4, [LifecycleSoftening(k, d.lifecycle)], s4);
    var l2 := CheckLifecycle(s.lifecycle, k, W.MemberState("source", s.lifecycle));
    var c2, o2, s2 := Then(l2, c3), [LifecycleObjection(k, s.lifecycle)] + o3, [LifecycleSoftening(k, s.lifecycle)] + s3;
    ThenRaises(l2, c3, [LifecycleObjection(k, s.lifecycle)], o3, [LifecycleSoftening(k, s.lifecycle)], s3);
    ThenRaises(CheckMembers(v.options, s, d, r, k), c2, MemberObjections(v.options, s, d, r, k), o2, [], s2);
  }
}
