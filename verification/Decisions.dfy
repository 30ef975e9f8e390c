/** The whole of evaluation as one list of objections, and what a submission that meets none of them leaves behind
    (src/authority.cpp). */
module Decisions {
  import opened Tables
  import opened Model
  import opened Cluster
  import opened Accounting
  import opened Eligibility
  import opened Engine
  import opened Requests
  import opened Safety
  import opened Invariant
  import opened Submission
  import opened Runs
  import opened Edits
  import opened Answers
  import opened Verdicts
  import opened Obligations
  import Fates
  import Ledger
  import Terms
  import W = Wording

  // ----- capacity -----

  /** Units a grant holds on a path, or of a resource. */
  function UnitsOn(g: Grant, path: Id): nat
  {
    if g.state in {Committed, Acknowledged, Ambiguous} && g.binding.path == path then g.units else 0
  }

  function UnitsOf(g: Grant, resource: Id): nat
  {
    if g.state in {Committed, Acknowledged, Ambiguous} && g.binding.resource == resource then g.units else 0
  }

  /** What is held on a path, leaving one grant aside. */
  function HeldOn(t: Table<Grant>, path: Id, aside: Option<Id>): nat
  {
    if t == [] then 0
    else HeldOn(t[..|t| - 1], path, aside) + if aside == Some(t[|t| - 1].id) then 0 else UnitsOn(t[|t| - 1].val, path)
  }

  function HeldOf(t: Table<Grant>, resource: Id, aside: Option<Id>): nat
  {
    if t == [] then 0
    else HeldOf(t[..|t| - 1], resource, aside) + if aside == Some(t[|t| - 1].id) then 0 else UnitsOf(t[|t| - 1].val, resource)
  }

  lemma {:induction false} HeldAre(t: Table<Grant>, id: Id, aside: Option<Id>)
    ensures Held(t, OnPath(id), aside) == HeldOn(t, id, aside)
    ensures Held(t, OnResource(id), aside) == HeldOf(t, id, aside)
  {
    if t != [] { HeldAre(t[..|t| - 1], id, aside); }
  }

  /** A renewal leaves the grant it renews aside. */
  function Aside(r: Request): Option<Id> { if r.renewal then Some(r.renewalOf) else None }

  function Remaining(total: nat, held: nat): nat { if held <= total then total - held else 0 }

  function RoomOn(v: View, r: Request, p: Row<Path>): nat { Remaining(p.val.capacity, HeldOn(v.grants, p.id, Aside(r))) }

  function RoomOf(v: View, r: Request, x: Resource): nat { Remaining(x.total, HeldOf(v.grants, x.id, Aside(r))) }

  /** What is asked: the contract's minimum if no amount is. */
  function Asked(r: Request, k: Contract): nat { if r.units > 0 then r.units else k.minUnits }

  /** The same under the contract's ceiling, if it has one. */
  function Capped(r: Request, k: Contract): nat
  {
    if k.maxUnits > 0 then Min(Asked(r, k), k.maxUnits) else Asked(r, k)
  }

  /** The member's first resource of this name. */
  ghost predicate IsOwned(m: Member, id: Id, x: Option<Resource>)
  {
    if id == [] then x == None
    else if x.None? then forall y :: y in m.resources ==> y.id != id
    else exists i :: 0 <= i < |m.resources| && m.resources[i] == x.value && x.value.id == id
                     && forall j :: 0 <= j < i ==> m.resources[j].id != id
  }

  /** Both sides content themselves with this part. */
  predicate Contents(r: Request, k: Contract, part: nat)
  {
    k.allowDegraded && r.allowDegraded && part > 0 && part >= k.minUnits
  }

  /** Does a limit apply to the path? */
  predicate Limited(v: View, p: Option<Row<Path>>) { p.Some? && v.options.enforceCapacity }

  /** The units left of the want by the path, then by the resource. */
  function AfterPath(v: View, r: Request, k: Contract, p: Option<Row<Path>>): nat
  {
    if Limited(v, p) then Min(Capped(r, k), RoomOn(v, r, p.value)) else Capped(r, k)
  }

  function Least(v: View, r: Request, k: Contract, p: Option<Row<Path>>, x: Option<Resource>): nat
  {
    if x.Some? && v.options.enforceCapacity then Min(AfterPath(v, r, k, p), RoomOf(v, r, x.value)) else AfterPath(v, r, k, p)
  }

  /** A grant of another attempt, and not the one being renewed, holds the path. */
  ghost predicate HeldByAnother(v: View, r: Request, path: Id)
  {
    exists row :: row in v.grants && row.val.binding.path == path && row.val.state in {Committed, Acknowledged, Ambiguous}
                  && row.val.binding.attempt != r.attempt && Aside(r) != Some(row.id)
  }

  ghost function PathLimits(v: View, r: Request, k: Contract, p: Option<Row<Path>>): seq<Objection>
  {
    [Objection(Capped(r, k) < k.minUnits, Refused, CAPACITY_INSUFFICIENT),
     Objection(Limited(v, p) && p.value.val.exclusive && HeldByAnother(v, r, p.value.id), Conflicting, PATH_ALREADY_BOUND),
     Objection(Limited(v, p) && RoomOn(v, r, p.value) < Capped(r, k) && !Contents(r, k, RoomOn(v, r, p.value)), Refused,
               CAPACITY_EXHAUSTED)]
  }

  ghost function ResourceLimits(v: View, r: Request, k: Contract, p: Option<Row<Path>>, x: Option<Resource>): seq<Objection>
  {
    [Objection(r.resource != [] && x.None?, Unknown, RESOURCE_NOT_FOUND),
     Objection(x.Some? && r.reservationGeneration != x.value.generation, Stale, RESERVATION_GENERATION_STALE),
     Objection(x.Some? && !x.value.reservable, Refused, CONTRACT_UNSATISFIED),
     Objection(x.Some? && v.options.enforceCapacity && RoomOf(v, r, x.value) < AfterPath(v, r, k, p)
               && !Contents(r, k, RoomOf(v, r, x.value)), Refused, CAPACITY_EXHAUSTED),
     Objection(r.resource == [] && Limited(v, p) && r.units > 0 && p.value.val.resources != [], Incomplete,
               RESERVATION_GENERATION_MISSING)]
  }

  ghost function Cuts(v: View, r: Request, k: Contract, p: Option<Row<Path>>, x: Option<Resource>): seq<Softening>
  {
    [Softening(Capped(r, k) < Asked(r, k), DEGRADED_BY_CAPACITY),
     Softening(AfterPath(v, r, k, p) < Capped(r, k), DEGRADED_BY_CAPACITY),
     Softening(Least(v, r, k, p, x) < AfterPath(v, r, k, p), DEGRADED_BY_CAPACITY)]
  }

  /** A stage that authorises units raises these objections, and else authorises these and says these softenings. */
  predicate UnitsRaise(u: Units, os: seq<Objection>, units: nat, ss: seq<Softening>)
  {
    match FirstOf(os)
    case Some(o) => u == NoUnits(o.outcome, o.reason)
    case None => u.SomeUnits? && u.units == units && Codes(u.degradations) == Applying(ss)
  }

  lemma {:induction false} OwnedIs(rs: seq<Resource>, id: Id)
    ensures var x := FindResource(rs, id);
            if x.None? then forall y :: y in rs ==> y.id != id
            else exists i :: 0 <= i < |rs| && rs[i] == x.value && x.value.id == id && forall j :: 0 <= j < i ==> rs[j].id != id
  {
    if rs != [] {
      if rs[0].id == id {
        assert rs[0] == FindResource(rs, id).value;
      } else {
        OwnedIs(rs[1..], id);
        assert forall j :: 1 <= j < |rs| ==> rs[j] == rs[1..][j - 1];
        var x := FindResource(rs[1..], id);
        if x.Some? {
          var i :| 0 <= i < |rs[1..]| && rs[1..][i] == x.value && forall j :: 0 <= j < i ==> rs[1..][j].id != id;
          assert rs[i + 1] == x.value;
        }
      }
    }
  }

  lemma OwnedOnce(m: Member, id: Id, x: Option<Resource>)
    requires IsOwned(m, id, x) && id != []
    ensures x == FindResource(m.resources, id)
  {
    hide FindResource;
    OwnedIs(m.resources, id);
    var y := FindResource(m.resources, id);
    if x.Some? {
      var i :| 0 <= i < |m.resources| && m.resources[i] == x.value && forall j :: 0 <= j < i ==> m.resources[j].id != id;
      assert m.resources[i] in m.resources;
      var j :| 0 <= j < |m.resources| && m.resources[j] == y.value && forall n :: 0 <= n < j ==> m.resources[n].id != id;
      assert i == j;
    }
  }

  lemma RoomsAre(v: View, r: Request, p: Row<Path>, x: Resource)
    requires UnitsBounded(v.grants) && (r.renewal ==> r.renewalOf != [])
    ensures PathFree(v, r, p) == RoomOn(v, r, p) && ResourceFree(v, r, x) == RoomOf(v, r, x)
  {
    hide Held, HeldOn, HeldOf, Saturated;
    HeldAre(v.grants, p.id, Aside(r));
    HeldAre(v.grants, x.id, Aside(r));
    NeverSaturates(v.grants, OnPath(p.id), Aside(r));
    NeverSaturates(v.grants, OnResource(x.id), Aside(r));
  }

  lemma OtherIs(v: View, r: Request, path: Id)
    ensures OtherHolder(v.grants, path, r.attempt, Aside(r)) <==> HeldByAnother(v, r, path)
  {
    if HeldByAnother(v, r, path) {
      var row :| row in v.grants && row.val.binding.path == path && row.val.state in {Committed, Acknowledged, Ambiguous}
                 && row.val.binding.attempt != r.attempt && Aside(r) != Some(row.id);
      var i :| 0 <= i < |v.grants| && v.grants[i] == row;
      assert HoldsCapacity(v.grants[i].val.state);
    }
    if OtherHolder(v.grants, path, r.attempt, Aside(r)) {
      var i :| 0 <= i < |v.grants| && HoldsCapacity(v.grants[i].val.state) && v.grants[i].val.binding.path == path
               && v.grants[i].val.binding.attempt != r.attempt && Aside(r) != Some(v.grants[i].id);
      assert v.grants[i] in v.grants;
    }
  }

  lemma NoCode()
    ensures Codes([]) == []
  {}

  lemma OneCode(why: Reason)
    ensures Codes([why]) == [why.code]
  {}

  lemma PathLimitsRaise(v: View, r: Request, k: Contract, p: Option<Row<Path>>)
    requires UnitsBounded(v.grants) && (r.renewal ==> r.renewalOf != []) && Capped(r, k) >= k.minUnits
    ensures UnitsRaise(PathStage(v, r, k, p, Capped(r, k)), PathLimits(v, r, k, p), AfterPath(v, r, k, p),
                       [Softening(AfterPath(v, r, k, p) < Capped(r, k), DEGRADED_BY_CAPACITY)])
  {
    hide FirstOf, OtherHolder, HeldByAnother, Codes, Applying, RoomOn, PathFree, W.FreeOf, Capped;
    ThreeFirst(PathLimits(v, r, k, p));
    OneApplies(Softening(AfterPath(v, r, k, p) < Capped(r, k), DEGRADED_BY_CAPACITY));
    NoCode();
    if Limited(v, p) {
      RoomsAre(v, r, p.value, Resource([], [], 0, 0, false));
      OtherIs(v, r, p.value.id);
      OneCode(Reason(DEGRADED_BY_CAPACITY, W.FreeOf("path ", p.value.id, PathFree(v, r, p.value), p.value.val.capacity)));
    }
  }

  lemma FiveFirst(os: seq<Objection>)
    requires |os| == 5
    ensures FirstOf(os) ==
              if os[0].applies then Some(os[0]) else if os[1].applies then Some(os[1])
              else if os[2].applies then Some(os[2]) else if os[3].applies then Some(os[3])
              else if os[4].applies then Some(os[4]) else None
  {
    FourFirst(os[1..]);
    assert os[1..][1..] == os[2..];
  }

  lemma ResourceLimitsRaise(v: View, r: Request, k: Contract, s: Member, p: Option<Row<Path>>, x: Option<Resource>)
    requires UnitsBounded(v.grants) && (r.renewal ==> r.renewalOf != []) && IsOwned(s, r.resource, x)
    ensures UnitsRaise(ResourceStage(v, r, k, s, p, AfterPath(v, r, k, p)), ResourceLimits(v, r, k, p, x), Least(v, r, k, p, x),
                       [Softening(Least(v, r, k, p, x) < AfterPath(v, r, k, p), DEGRADED_BY_CAPACITY)])
  {
    hide FirstOf, Codes, Applying, RoomOf, ResourceFree, W.FreeOf, AfterPath, FindResource, IsOwned;
    FiveFirst(ResourceLimits(v, r, k, p, x));
    OneApplies(Softening(Least(v, r, k, p, x) < AfterPath(v, r, k, p), DEGRADED_BY_CAPACITY));
    NoCode();
    if r.resource != [] {
      OwnedOnce(s, r.resource, x);
      if x.Some? {
        RoomsAre(v, r, Row([], NO_PATH), x.value);
        OneCode(Reason(DEGRADED_BY_CAPACITY, W.FreeOf("resource ", x.value.id, ResourceFree(v, r, x.value), x.value.total)));
      }
    } else {
      NotOwned(s, x);
    }
  }

  lemma NotOwned(s: Member, x: Option<Resource>)
    requires IsOwned(s, [], x)
    ensures x == None
  {}

  const NO_PATH := Path(0, [], [], [], [], [], 0, false, Down, 0)

  lemma WantIs(r: Request, k: Contract)
    ensures Want(r, k) == Capped(r, k) && (Ceilinged(r, k) <==> Capped(r, k) < Asked(r, k))
  {}

  lemma CapacityRaises(v: View, r: Request, k: Contract, s: Member, p: Option<Row<Path>>, x: Option<Resource>)
    requires UnitsBounded(v.grants) && (r.renewal ==> r.renewalOf != []) && IsOwned(s, r.resource, x)
    ensures UnitsRaise(CapacityStage(v, r, k, s, p), PathLimits(v, r, k, p) + ResourceLimits(v, r, k, p, x),
                       Least(v, r, k, p, x), Cuts(v, r, k, p, x))
  {
    hide PathStage, ResourceStage, Want, Ceilinged, Capped, Asked, AfterPath, Least, W.Ceiling, IsOwned, ResourceLimits, FirstOf,
         Applying, Codes, HeldByAnother;
    WantIs(r, k);
    var os, qs := PathLimits(v, r, k, p), ResourceLimits(v, r, k, p, x);
    FirstOfBoth(os, qs);
    ThreeFirst(os);
    if Capped(r, k) >= k.minUnits {
      PathLimitsRaise(v, r, k, p);
      ResourceLimitsRaise(v, r, k, s, p, x);
      var a := PathStage(v, r, k, p, Capped(r, k));
      var b := ResourceStage(v, r, k, s, p, AfterPath(v, r, k, p));
      if FirstOf(os).None? && FirstOf(qs).None? {
        var first := if Ceilinged(r, k) then [Reason(DEGRADED_BY_CAPACITY, W.Ceiling(k.maxUnits))] else [];
        CutsSaid(first, a.degradations, b.degradations, Cuts(v, r, k, p, x));
      }
    }
  }

  lemma CutsSaid(a: seq<Reason>, b: seq<Reason>, c: seq<Reason>, ss: seq<Softening>)
    requires |ss| == 3 && (if ss[0].applies then |a| == 1 && a[0].code == ss[0].reason else a == [])
    requires Codes(b) == Applying([ss[1]]) && Codes(c) == Applying([ss[2]])
    ensures Codes(a + b + c) == Applying(ss)
  {
    hide Applying;
    assert Codes(a) == if ss[0].applies then [ss[0].reason] else [];
    assert Codes(a + b + c) == Codes(a) + Codes(b) + Codes(c);
    assert ss == [ss[0]] + ([ss[1]] + [ss[2]]);
    ApplyingBoth([ss[0]], [ss[1]] + [ss[2]]);
    ApplyingBoth([ss[1]], [ss[2]]);
    OneApplies(ss[0]);
  }

  // ----- the renewed grant -----

  function RenewalObjections(v: View, r: Request): seq<Objection>
  {
    var g := Get(v.grants, r.renewalOf);
    [Objection(r.renewal && g.None?, Unknown, GRANT_NOT_FOUND),
     Objection(r.renewal && g.Some? && g.value.binding.lease != r.renewalLease, Conflicting, LEASE_UNKNOWN),
     Objection(r.renewal && g.Some? && g.value.binding.attempt != r.attempt, Conflicting, ATTEMPT_MISMATCH),
     Objection(r.renewal && g.Some? && g.value.state in {Released, Expired, Fenced, Revoked, Superseded}, Refused,
               GRANT_ALREADY_RELEASED)]
  }

  lemma RenewalRaises(v: View, r: Request)
    ensures Raises(CheckRenewal(v, r), RenewalObjections(v, r), [])
  {
    hide FirstOf, LowerBound;
    FourFirst(RenewalObjections(v, r));
    NoCode();
  }

  // ----- evaluation -----

  /** Everything that can be said against a request between two members, in this order. */
  ghost function Objections(v: View, r: Request, k: Contract, s: Member, d: Member, p: Option<Row<Path>>, x: Option<Resource>)
    : seq<Objection>
  {
    EarlyObjections(v, r, k, s, d, p)
    + ((PathLimits(v, r, k, p) + ResourceLimits(v, r, k, p, x))
    + ([Objection(NotHelped(v, k.destinationService, DomainKey(d.locality, k.level), Least(v, r, k, p, x)), Refused,
                  CONTRACT_UNSATISFIED)]
    + RenewalObjections(v, r)))
  }

  /** Everything that softens it. */
  ghost function Softenings(v: View, r: Request, k: Contract, s: Member, d: Member, p: Option<Row<Path>>, x: Option<Resource>)
    : seq<Softening>
  {
    EarlySoftenings(v, r, k, s, d, p) + Cuts(v, r, k, p, x)
    + (ObligationSoftenings(v, v.spec.obligations, k.destinationService, DomainKey(d.locality, k.level), Least(v, r, k, p, x)) + [])
  }

  /** What the tables must keep for the sums to be true ones. */
  ghost predicate Measured(v: View, r: Request, k: Contract)
  {
    && Sorted(v.spec.paths) && UnitsBounded(v.grants) && (r.renewal ==> r.renewalOf != [])
    && r.units <= MAX_UNITS && k.minUnits <= MAX_UNITS
  }

  lemma LeastBounded(v: View, r: Request, k: Contract, p: Option<Row<Path>>, x: Option<Resource>)
    requires r.units <= MAX_UNITS && k.minUnits <= MAX_UNITS
    ensures Least(v, r, k, p, x) <= MAX_UNITS
  {
    hide RoomOn, RoomOf;
  }

  /** Evaluation answers with the first objection that applies, whichever it is. When none does it authorises the least of
      the want and what path and resource truly have left, on the path chosen and the resource named, and says exactly the
      softenings that apply. Where one of the members is not declared there is nothing to evaluate. */
  ghost predicate VerdictIs(v: View, r: Request, k: Contract, e: Verdict)
  {
    var s, d := Get(v.spec.members, r.source), Get(v.spec.members, r.destination);
    if s.None? || d.None? then e == Deny(Unknown, MEMBER_NOT_FOUND)
    else forall p, x :: IsChosen(v, r, p) && IsOwned(s.value, r.resource, x) ==> Placed(v, r, k, s.value, d.value, p, x, e)
  }

  ghost predicate Placed(v: View, r: Request, k: Contract, s: Member, d: Member, p: Option<Row<Path>>, x: Option<Resource>,
                         e: Verdict)
  {
    match FirstOf(Objections(v, r, k, s, d, p, x))
    case Some(o) => e == Deny(o.outcome, o.reason)
    case None =>
      e.Pass? && e.units == Least(v, r, k, p, x) && e.path == p && e.resource == x && e.domains == Spread(s, d, k)
      && Codes(e.degradations) == Applying(Softenings(v, r, k, s, d, p, x))
  }

  lemma EvaluationExact(v: View, r: Request, k: Contract)
    requires Measured(v, r, k)
    ensures VerdictIs(v, r, k, Evaluate(v, r, k))
  {
    hide Evaluate, Placed, IsChosen, IsOwned, Measured, LowerBound;
    var s, d := Get(v.spec.members, r.source), Get(v.spec.members, r.destination);
    if s.None? || d.None? {
      MembersMissing(v, r, k);
    } else {
      forall p, x | IsChosen(v, r, p) && IsOwned(s.value, r.resource, x)
        ensures Placed(v, r, k, s.value, d.value, p, x, Evaluate(v, r, k))
      {
        EvaluationPlaced(v, r, k, s.value, d.value, p, x);
      }
    }
  }

  lemma EvaluationPlaced(v: View, r: Request, k: Contract, s: Member, d: Member, p: Option<Row<Path>>, x: Option<Resource>)
    requires Measured(v, r, k) && Get(v.spec.members, r.source) == Some(s) && Get(v.spec.members, r.destination) == Some(d)
    requires IsChosen(v, r, p) && IsOwned(s, r.resource, x)
    ensures Placed(v, r, k, s, d, p, x, Evaluate(v, r, k))
  {
    hide CheckEligible, ChosenPath, CapacityStage, CheckObligations, CheckRenewal, DomainKey, Then, FirstOf, Applying, Codes,
         EarlyObjections, EarlySoftenings, PathLimits, ResourceLimits, Cuts, NotHelped, ObligationSoftenings, RenewalObjections,
         Least, IsChosen, IsOwned, FindResource, Raises, UnitsRaise, UnitsBounded, LowerBound;
    ChosenIs(v, r);
    ChosenOnce(v, r, p, ChosenPath(v, r));
    EligibleRaises(v, s, d, r, k);
    CapacityRaises(v, r, k, s, p, x);
    LeastBounded(v, r, k, p, x);
    var key, units := DomainKey(d.locality, k.level), Least(v, r, k, p, x);
    AllObligationsRaise(v, k.destinationService, key, units);
    RenewalRaises(v, r);
    var n := [Objection(NotHelped(v, k.destinationService, key, units), Refused, CONTRACT_UNSATISFIED)];
    var sn := ObligationSoftenings(v, v.spec.obligations, k.destinationService, key, units);
    ThenRaises(CheckObligations(v, v.spec.obligations, k.destinationService, key, units), CheckRenewal(v, r), n,
               RenewalObjections(v, r), sn, []);
    if r.resource != [] { OwnedOnce(s, r.resource, x); } else { NotOwned(s, x); }
    Stages(CheckEligible(v, s, d, r, k), CapacityStage(v, r, k, s, p),
           Then(CheckObligations(v, v.spec.obligations, k.destinationService, key, units), CheckRenewal(v, r)),
           EarlyObjections(v, r, k, s, d, p), PathLimits(v, r, k, p) + ResourceLimits(v, r, k, p, x), n + RenewalObjections(v, r),
           EarlySoftenings(v, r, k, s, d, p), Cuts(v, r, k, p, x), sn + [], units);
    SpreadIs(s, d, k);
  }

  lemma SpreadIs(s: Member, d: Member, k: Contract)
    ensures Spread(s, d, k) == Domains(s, d, k.level)
  {
    hide DomainKey;
  }

  /** Three stages after one another. */
  lemma Stages(a: Check, u: Units, b: Check, os: seq<Objection>, ps: seq<Objection>, qs: seq<Objection>,
               ss: seq<Softening>, ts: seq<Softening>, us: seq<Softening>, units: nat)
    requires Raises(a, os, ss) && UnitsRaise(u, ps, units, ts) && Raises(b, qs, us)
    ensures u.SomeUnits? ==> u.units == units
    ensures match FirstOf(os + (ps + qs))
            case Some(o) =>
              (if a.Fail? then a == Fail(o.outcome, o.reason)
               else if u.NoUnits? then u == NoUnits(o.outcome, o.reason) else b == Fail(o.outcome, o.reason))
            case None =>
              a.Go? && u.SomeUnits? && b.Go? && u.units == units
              && Codes(a.degradations + u.degradations + b.degradations) == Applying(ss + ts + us)
  {
    hide FirstOf, Applying;
    FirstOfBoth(os, ps + qs);
    FirstOfBoth(ps, qs);
    ApplyingBoth(ss + ts, us);
    ApplyingBoth(ss, ts);
    if a.Go? && u.SomeUnits? && b.Go? {
      CodesJoin(a.degradations, u.degradations);
      CodesJoin(a.degradations + u.degradations, b.degradations);
    }
  }

  lemma CodesJoin(a: seq<Reason>, b: seq<Reason>)
    ensures Codes(a + b) == Codes(a) + Codes(b)
  {}

  /** Where one of the members is not declared there is nothing to evaluate. */
  lemma MembersMissing(v: View, r: Request, k: Contract)
    requires Get(v.spec.members, r.source).None? || Get(v.spec.members, r.destination).None?
    ensures Evaluate(v, r, k) == Deny(Unknown, MEMBER_NOT_FOUND)
  {
    hide LowerBound;
  }

  // ----- submissions -----

  /** Form, coordinate, attempt and contract leave nothing to answer before evaluation. */
  ghost predicate Considered(c: Core, r: Request)
  {
    var k := Get(c.store.contracts, r.contract);
    && WellFormed(r) && ForNow(c, r) && (r.renewal || Get(c.store.attempts, r.attempt).None?)
    && k.Some? && r.contractGeneration == k.value.generation && k.value.enabled
    && !(c.options.rejectUnknownCapabilities && exists i :: FirstLacking(k.value.capabilities, i))
  }

  lemma ConsideredIs(c: Core, r: Request, care: Care)
    requires hide Reachable, Gate; Reachable(c, care) && Considered(c, r)
    ensures Gate(c, r).None?
  {
    hide Reachable, Gate, Submit, WellFormed, FirstLacking;
    ContractAnswered(c, r, care);
  }

  lemma ReachableMeasured(c: Core, r: Request, care: Care)
    requires hide Reachable; Reachable(c, care) && Considered(c, r)
    ensures Measured(ViewOf(c), r, Get(c.store.contracts, r.contract).value)
    ensures Sorted(c.store.grants) && Sorted(c.store.attempts)
  {
    hide Reachable, LowerBound;
    ReachableGood(c, care);
    GoodTable(c, care);
    GoodTagged(c, care);
    SortedAttempts(c, care.Roomy?);
    Bounded(c.store, care.Roomy?);
    var i := LowerBound(c.store.contracts, r.contract);
    ContractStatusIs(r.contract, c.store.contracts[i].val);
  }

  /** How long a new grant is leased. */
  function Ticks(c: Core, r: Request): nat { if r.lease > 0 then r.lease else c.options.defaultLease }

  /** Every field of a new grant, from the request, the members and contract it names, the path chosen for it and the
      resource. */
  predicate Spelled(c: Core, r: Request, k: Contract, s: Member, d: Member, p: Option<Row<Path>>, x: Option<Resource>,
                    soft: seq<ReasonCode>, g: Grant)
  {
    var b := g.binding;
    && b.cluster == c.store.spec.id && b.contract == r.contract && b.contractGeneration == k.generation
    && b.sourceService == k.sourceService && b.destinationService == k.destinationService
    && b.source == r.source && b.sourceGeneration == s.generation && b.sourceDigest == s.digest && b.sourceDomain == s.domain
    && b.destination == r.destination && b.destinationGeneration == d.generation && b.destinationDigest == d.digest
    && b.destinationDomain == d.domain && b.attempt == r.attempt && b.provenance == r.provenance
    && b.sourceEndpoint == (if r.sourceEndpoint != [] || p.None? then r.sourceEndpoint else p.value.val.sourceEndpoint)
    && b.destinationEndpoint
       == (if r.destinationEndpoint != [] || p.None? then r.destinationEndpoint else p.value.val.destinationEndpoint)
    && (if p.Some? then b.path == p.value.id && b.pathGeneration == p.value.val.generation else b.path == [] && b.pathGeneration == 0)
    && (if x.Some? then b.resource == x.value.id && b.reservationGeneration == x.value.generation
        else b.resource == [] && b.reservationGeneration == 0)
    && b.lease == LeaseName(c.leaseSerial + 1)
    && g.requested == Asked(r, k) && g.units == Least(ViewOf(c), r, k, p, x) && g.domains == Spread(s, d, k)
    && g.leaseIssued == c.store.tick && g.leaseExpiry == (c.store.tick + Ticks(c, r)) % 0x1_0000_0000_0000_0000
    && g.releaseSeq == 0 && g.ackSeq == 0 && !g.acknowledged
    && Softened(c, soft, g)
  }

  /** What is written anew by a renewal as well. */
  predicate Softened(c: Core, soft: seq<ReasonCode>, g: Grant)
  {
    Fates.IssuedHere(c.store.spec, g.at) && Codes(g.reductions) == soft
    && g.degraded == (soft != []) && g.outcome == if soft == [] then Granted else Degraded
  }

  /** A grant as its commit record has it, and as its prepare record has it before. */
  function AsCommitted(g: Grant): Grant { g.(commitSeq := 0, reserved := false) }

  function AsPrepared(g: Grant): Grant { AsCommitted(g).(prepareSeq := 0, state := Prepared, commit := CommitPrepared) }

  function AttemptFor(c: Core, r: Request, name: Id, g: Grant, soft: seq<ReasonCode>): Attempt
  {
    Attempt([], r.digest, name, g.binding.lease, g.outcome, if soft == [] then NO_REASON else soft[0], c.store.tick, 0, false, false)
  }

  /** A new grant under the next name, its attempt's record beside it, and nothing else moved: first the prepare record is
      written, then the commit record, then the attempt's. */
  ghost predicate MintedExactly(c: Core, r: Request, k: Contract, s: Member, d: Member, p: Option<Row<Path>>,
                                x: Option<Resource>, soft: seq<ReasonCode>, out: (Core, Decision))
  {
    var e, name := out.0, GrantName(c.grantSerial + 1);
    var g := Get(e.store.grants, name);
    && g.Some? && Changed(c.store.grants, e.store.grants, name, g) && Spelled(c, r, k, s, d, p, x, soft, g.value)
    && Get(c.store.grants, name).None?
    && g.value.state == Committed && g.value.commit == CommitDone && g.value.reserved
    && Changed(c.store.attempts, e.store.attempts, r.attempt, Some(AttemptFor(c, r, name, g.value, soft)))
    && g.value.prepareSeq == Fates.NextNumber(c) && g.value.commitSeq == Fates.NextNumber(c) + 1
    && Writes(c, e, [GrantRecord(PreparedRecord, name, AsPrepared(g.value), Prepared),
                     GrantRecord(CommittedRecord, name, AsCommitted(g.value), Committed),
                     AttemptTerminal(r.attempt, AttemptFor(c, r, name, g.value, soft))])
    && e.store == c.store.(grants := e.store.grants, attempts := e.store.attempts) && e.options == c.options
    && e.grantSerial == c.grantSerial + 1 && e.leaseSerial == c.leaseSerial + 1
    && out.1 == Decision(g.value.outcome, soft, Some(Row(name, g.value)), false, false)
  }

  /** The renewed grant rewritten, and nothing else. */
  ghost predicate RenewedExactly(c: Core, r: Request, k: Contract, s: Member, d: Member, p: Option<Row<Path>>,
                                 x: Option<Resource>, soft: seq<ReasonCode>, out: (Core, Decision))
  {
    var e, g := out.0, Get(c.store.grants, r.renewalOf);
    var u := Get(e.store.grants, r.renewalOf);
    && g.Some? && u.Some? && OnlyTables(c, e) && e.store.attempts == c.store.attempts
    && Changed(c.store.grants, e.store.grants, r.renewalOf, u) && Softened(c, soft, u.value)
    && u.value == g.value.(requested := r.units, units := Least(ViewOf(c), r, k, p, x), domains := Spread(s, d, k),
                           leaseIssued := c.store.tick,
                           leaseExpiry := if r.lease == 0 then 0 else (c.store.tick + r.lease) % 0x1_0000_0000_0000_0000,
                           at := u.value.at, outcome := u.value.outcome, degraded := u.value.degraded,
                           reductions := u.value.reductions, commitSeq := u.value.commitSeq)
    && u.value.commitSeq == Fates.NextNumber(c)
    && Writes(c, e, [GrantRecord(CommittedRecord, r.renewalOf, u.value.(commitSeq := g.value.commitSeq), Committed)])
    && out.1 == Decision(u.value.outcome, soft, Some(Row(r.renewalOf, u.value)), false, false)
  }

  /** What a request that meets no objection comes to. */
  ghost predicate Carried(c: Core, r: Request, k: Contract, s: Member, d: Member, p: Option<Row<Path>>, x: Option<Resource>,
                          soft: seq<ReasonCode>, out: (Core, Decision))
  {
    if soft != [] && !(k.allowDegraded && r.allowDegraded) then out == (c, Decision(Refused, soft, None, false, false))
    else if r.renewal then RenewedExactly(c, r, k, s, d, p, x, soft, out)
    else if Ticks(c, r) > c.options.maxLease
    then out == (c.(grantSerial := c.grantSerial + 1, leaseSerial := c.leaseSerial + 1),
                 Decision(Refused, [LIMIT_EXCEEDED], None, false, false))
    else if |c.store.grants| >= 65536
    then out.0.store == c.store && out.1 == Decision(Refused, [LIMIT_EXCEEDED], None, false, false)
    else MintedExactly(c, r, k, s, d, p, x, soft, out)
  }

  lemma RenewCarries(c: Core, r: Request, k: Contract, s: Member, d: Member, p: Option<Row<Path>>, x: Option<Resource>,
                     soft: seq<ReasonCode>)
    requires hide Gate, Evaluate, Submit; Gate(c, r).None? && Get(c.store.contracts, r.contract) == Some(k) && r.renewal
    requires Sorted(c.store.grants) && Sorted(c.store.attempts)
    requires var e := Evaluate(ViewOf(c), r, k);
             e.Pass? && e.units == Least(ViewOf(c), r, k, p, x) && e.domains == Spread(s, d, k) && Codes(e.degradations) == soft
    ensures Carried(c, r, k, s, d, p, x, soft, Submit(c, r))
  {
    hide Gate, Evaluate, Least, Spread, Codes, LowerBound, Changed, Sorted, Writes;
    var e := Evaluate(ViewOf(c), r, k);
    RenewalTarget(ViewOf(c), r, k);
    Fates.CodesEmpty(e.degradations);
    if GrantOutcome(e.degradations, r, k).Some? {
      var i := LowerBound(c.store.grants, r.renewalOf);
      var u := Renewed(c, c.store.grants[i].val, r, e, GrantOutcome(e.degradations, r, k).value).(commitSeq := NextSequence(c.log));
      RowAndAttempt(c.store.grants, r.renewalOf, u, c.store.attempts, [], NoAttempt());
      assert Submit(c, r).0.store.grants == c.store.grants[i := Row(r.renewalOf, u)];
      WritesOne(c, Submit(c, r).0,
                GrantRecord(CommittedRecord, r.renewalOf, u.(commitSeq := c.store.grants[i].val.commitSeq), Committed));
    }
  }

  /** There are no more attempts than grants. */
  lemma AttemptsFewer(s: Store, fit: bool)
    requires Sound(s, fit)
    ensures |s.attempts| <= |s.grants|
  {
    hide Linked1;
    var owners := set i | 0 <= i < |s.grants| :: s.grants[i].val.binding.attempt;
    forall id | id in Ids(s.attempts) ensures id in owners {
      var i :| 0 <= i < |s.attempts| && s.attempts[i].id == id;
      OwnerOf(s, i, fit);
    }
    IdsSize(s.attempts);
    SubsetSize(Ids(s.attempts), owners);
    OwnersSize(s.grants, |s.grants|);
  }

  lemma OwnerOf(s: Store, i: nat, fit: bool)
    requires Sound(s, fit) && i < |s.attempts|
    ensures exists j :: 0 <= j < |s.grants| && s.grants[j].val.binding.attempt == s.attempts[i].id
  {
    hide LowerBound;
    assert Linked1(s.grants, s.attempts[i]);
    assert s.grants[LowerBound(s.grants, s.attempts[i].val.grant)].val.binding.attempt == s.attempts[i].id;
  }

  /** Committing a draft, by what it leaves. */
  lemma CommitLeaves(c: Core, id: Id, draft: Grant, r: Request)
    requires Sorted(c.store.grants) && Sorted(c.store.attempts) && Get(c.store.grants, id).None?
    requires |c.store.grants| < MAX_GRANTS && |c.store.attempts| < MAX_ATTEMPTS
    ensures var (e, answer) := Commit(c, id, draft, r);
            var g := draft.(state := Committed, commit := CommitDone, reserved := true, prepareSeq := NextSequence(c.log),
                            commitSeq := NextSequence(c.log) + 1);
            && e.options == c.options && e.grantSerial == c.grantSerial && e.leaseSerial == c.leaseSerial
            && e.store == c.store.(grants := e.store.grants, attempts := e.store.attempts)
            && Changed(c.store.grants, e.store.grants, id, Some(g))
            && Changed(c.store.attempts, e.store.attempts, draft.binding.attempt,
                       Some(Attempt([], r.digest, id, draft.binding.lease, draft.outcome,
                                    if draft.degraded then FirstReason(draft.reductions, DEGRADED_BY_MEMBER_STATE) else NO_REASON,
                                    c.store.tick, 0, false, false)))
            && answer == Decision(draft.outcome, if draft.outcome == Degraded then Codes(draft.reductions) else [], Some(Row(id, g)),
                                  false, false)
            && Writes(c, e, [GrantRecord(PreparedRecord, id, draft, Prepared),
                             GrantRecord(CommittedRecord, id, draft.(state := Committed, commit := CommitDone,
                                                                     prepareSeq := NextSequence(c.log)), Committed),
                             AttemptTerminal(draft.binding.attempt,
                                             Attempt([], r.digest, id, draft.binding.lease, draft.outcome,
                                                     if draft.degraded then FirstReason(draft.reductions, DEGRADED_BY_MEMBER_STATE)
                                                     else NO_REASON, c.store.tick, 0, false, false))])
  {
    hide LowerBound, Put, Sorted, Changed, Codes, FirstReason, Writes;
    var c1 := Append(c, GrantRecord(PreparedRecord, id, draft, Prepared));
    Terms.OneFurther(c, GrantRecord(PreparedRecord, id, draft, Prepared));
    var h := draft.(prepareSeq := NextSequence(c.log), state := Committed, commit := CommitDone);
    PutChanges(c.store.grants, id, h.(commitSeq := NextSequence(c1.log), reserved := true));
    PutChanges(c.store.attempts, draft.binding.attempt, MintedAttempt(c, id, h, r));
    var c2 := Append(c1, GrantRecord(CommittedRecord, id, h, Committed));
    WritesThree(c, c1, c2, Commit(c, id, draft, r).0, GrantRecord(PreparedRecord, id, draft, Prepared),
                GrantRecord(CommittedRecord, id, h, Committed), AttemptTerminal(draft.binding.attempt, MintedAttempt(c, id, h, r)));
  }

  lemma DraftSpelled(c: Core, r: Request, k: Contract, s: Member, d: Member, p: Option<Row<Path>>, x: Option<Resource>,
                     soft: seq<ReasonCode>, e: Verdict, o: Outcome, g: Grant)
    requires Get(c.store.spec.members, r.source) == Some(s) && Get(c.store.spec.members, r.destination) == Some(d)
    requires e.Pass? && e.units == Least(ViewOf(c), r, k, p, x) && e.domains == Spread(s, d, k) && e.path == p && e.resource == x
    requires Codes(e.degradations) == soft && o == if soft == [] then Granted else Degraded
    requires c.leaseSerial < U64_MAX
    requires var b := Bumped(c);
             var draft := Draft(b, r, k, e, o, LeaseName(b.leaseSerial), Ticks(c, r));
             g == draft.(state := g.state, commit := g.commit, reserved := g.reserved, prepareSeq := g.prepareSeq, commitSeq := g.commitSeq)
    ensures Spelled(c, r, k, s, d, p, x, soft, g)
  {
    hide Least, Spread, Codes, LowerBound, LeaseName;
    Fates.CodesEmpty(e.degradations);
  }

  function CommittedAs(draft: Grant, position: nat): Grant
  {
    draft.(state := Committed, commit := CommitDone, reserved := true, prepareSeq := position, commitSeq := position + 1)
  }

  /** A draft that says this, committed. */
  lemma CommitMints(c: Core, r: Request, k: Contract, s: Member, d: Member, p: Option<Row<Path>>, x: Option<Resource>,
                    soft: seq<ReasonCode>, draft: Grant)
    requires Sorted(c.store.grants) && Sorted(c.store.attempts) && Get(c.store.grants, GrantName(c.grantSerial + 1)).None?
    requires |c.store.grants| < MAX_GRANTS && |c.store.attempts| <= |c.store.grants|
    requires c.grantSerial < U64_MAX && c.leaseSerial < U64_MAX
    requires draft.binding.attempt == r.attempt && draft.degraded == (soft != []) && draft.outcome == (if soft == [] then Granted else Degraded)
    requires draft.state == Prepared && draft.commit == CommitPrepared && !draft.reserved && draft.prepareSeq == 0 && draft.commitSeq == 0
    requires Codes(draft.reductions) == soft && (soft != [] ==> FirstReason(draft.reductions, DEGRADED_BY_MEMBER_STATE) == soft[0])
    requires Spelled(c, r, k, s, d, p, x, soft, CommittedAs(draft, NextSequence(c.log)))
    ensures MintedExactly(c, r, k, s, d, p, x, soft, Commit(Bumped(c), GrantName(c.grantSerial + 1), draft, r))
  {
    hide LowerBound, Changed, Sorted, Spelled, Commit, GrantName, Writes, Codes, FirstReason;
    var b, name := Bumped(c), GrantName(c.grantSerial + 1);
    CommitLeaves(b, name, draft, r);
    var g := CommittedAs(draft, NextSequence(b.log));
    FoundThere(c.store.grants, Commit(b, name, draft, r).0.store.grants, name, g);
    assert AsPrepared(g) == draft;
    SameWrites(c, b, Commit(b, name, draft, r).0,
               [GrantRecord(PreparedRecord, name, AsPrepared(g), Prepared), GrantRecord(CommittedRecord, name, AsCommitted(g), Committed),
                AttemptTerminal(r.attempt, AttemptFor(c, r, name, g, soft))]);
  }

  lemma AdmitFits(c: Core, r: Request, k: Contract, s: Member, d: Member, p: Option<Row<Path>>, x: Option<Resource>,
                  soft: seq<ReasonCode>)
    requires hide Gate, Evaluate, Submit;
             Gate(c, r).None? && !r.renewal && c.grantSerial < U64_MAX && c.leaseSerial < U64_MAX
    requires Get(c.store.contracts, r.contract) == Some(k)
    requires Get(c.store.spec.members, r.source) == Some(s) && Get(c.store.spec.members, r.destination) == Some(d)
    requires var e := Evaluate(ViewOf(c), r, k);
             e.Pass? && e.units == Least(ViewOf(c), r, k, p, x) && e.domains == Spread(s, d, k) && e.path == p && e.resource == x
             && Codes(e.degradations) == soft && GrantOutcome(e.degradations, r, k).Some?
    requires Ticks(c, r) <= c.options.maxLease && Sorted(c.store.grants) && Sorted(c.store.attempts)
    requires |c.store.attempts| <= |c.store.grants| && Get(c.store.grants, GrantName(c.grantSerial + 1)).None?
    ensures Carried(c, r, k, s, d, p, x, soft, Submit(c, r))
  {
    hide Gate, Evaluate, Least, Spread, Codes, LowerBound, Changed, Sorted, Spelled, Draft, Commit, GrantName, LeaseName, Submit,
         MintedExactly, FirstReason;
    var e, b := Evaluate(ViewOf(c), r, k), Bumped(c);
    Fates.CodesEmpty(e.degradations);
    Terms.SubmitCommits(c, r);
    var o := GrantOutcome(e.degradations, r, k).value;
    var draft := Draft(b, r, k, e, o, LeaseName(b.leaseSerial), Ticks(c, r));
    if |c.store.grants| < MAX_GRANTS {
      DraftSays(b, r, k, e, o, LeaseName(b.leaseSerial), Ticks(c, r));
      FirstCode(e.degradations, DEGRADED_BY_MEMBER_STATE);
      NoCode();
      var g := CommittedAs(draft, NextSequence(b.log));
      DraftSpelled(c, r, k, s, d, p, x, soft, e, o, g);
      CommitMints(c, r, k, s, d, p, x, soft, draft);
    } else {
      CommitFull(b, GrantName(b.grantSerial), draft, r);
    }
  }

  lemma SameWrites(c: Core, b: Core, d: Core, bodies: seq<Body>)
    requires b.log == c.log && b.store.tick == c.store.tick && Writes(b, d, bodies)
    ensures Writes(c, d, bodies)
  {}

  lemma FoundThere<T>(t: Table<T>, u: Table<T>, id: Id, v: T)
    requires Changed(t, u, id, Some(v))
    ensures Get(u, id) == Some(v)
  {}

  lemma FirstCode(ds: seq<Reason>, otherwise: ReasonCode)
    ensures FirstReason(ds, otherwise) == if Codes(ds) == [] then otherwise else Codes(ds)[0]
  {}

  lemma DraftSays(c: Core, r: Request, k: Contract, e: Verdict, o: Outcome, lease: Id, ticks: nat)
    requires e.Pass? && Has(c.store.spec.members, r.source) && Has(c.store.spec.members, r.destination)
    ensures var draft := Draft(c, r, k, e, o, lease, ticks);
            draft.binding.attempt == r.attempt && draft.binding.lease == lease && draft.outcome == o && draft.degraded == (o == Degraded)
            && draft.state == Prepared && draft.commit == CommitPrepared && !draft.reserved
            && draft.prepareSeq == 0 && draft.commitSeq == 0
            && draft.reductions == if o == Degraded then e.degradations else []
  {
    hide LowerBound;
  }

  lemma CommitFull(c: Core, id: Id, draft: Grant, r: Request)
    requires Get(c.store.grants, id).None? && |c.store.grants| >= MAX_GRANTS
    ensures Commit(c, id, draft, r).0.store == c.store && Commit(c, id, draft, r).1 == Answer(Refused, LIMIT_EXCEEDED)
  {}

  /** The next name is free, and so is a place in the attempt table whenever there is one for a grant. */
  lemma NextFree(c: Core, r: Request, care: Care)
    requires hide Reachable; Reachable(c, care) && c.grantSerial < U64_MAX
    ensures Get(c.store.grants, GrantName(c.grantSerial + 1)).None? && |c.store.attempts| <= |c.store.grants|
  {
    hide Reachable, GrantName, LowerBound, Sound;
    ReachableGood(c, care);
    hide Good;
    GoodTagged(c, care);
    Ledger.FreshFor(c, r, care);
    AttemptsFewer(c.store, care.Roomy?);
  }

  lemma AdmitCarries(c: Core, r: Request, k: Contract, s: Member, d: Member, p: Option<Row<Path>>, x: Option<Resource>,
                     soft: seq<ReasonCode>)
    requires hide Gate, Evaluate, Submit;
             Gate(c, r).None? && !r.renewal && c.grantSerial < U64_MAX && c.leaseSerial < U64_MAX
    requires Get(c.store.contracts, r.contract) == Some(k)
    requires Get(c.store.spec.members, r.source) == Some(s) && Get(c.store.spec.members, r.destination) == Some(d)
    requires var e := Evaluate(ViewOf(c), r, k);
             e.Pass? && e.units == Least(ViewOf(c), r, k, p, x) && e.domains == Spread(s, d, k) && e.path == p && e.resource == x
             && Codes(e.degradations) == soft
    requires Sorted(c.store.grants) && Sorted(c.store.attempts)
    requires |c.store.attempts| <= |c.store.grants| && Get(c.store.grants, GrantName(c.grantSerial + 1)).None?
    ensures Carried(c, r, k, s, d, p, x, soft, Submit(c, r))
  {
    hide Gate, Evaluate, Least, Spread, Codes, LowerBound, Changed, Sorted, Spelled, Draft, Commit, GrantName, LeaseName,
         MintedExactly, RenewedExactly;
    var e := Evaluate(ViewOf(c), r, k);
    Fates.CodesEmpty(e.degradations);
    if GrantOutcome(e.degradations, r, k).Some? && Ticks(c, r) <= c.options.maxLease {
      AdmitFits(c, r, k, s, d, p, x, soft);
    } else if GrantOutcome(e.degradations, r, k).Some? {
      Terms.PassMembers(ViewOf(c), r, k);
    }
  }

  /** The answer to every submission that gets as far as evaluation, and what it leaves: the first objection and no trace;
      or, softened without consent, a refusal that says why; or the grant, minted or renewed, field by field. */
  lemma SubmissionExact(c: Core, r: Request, s: Member, d: Member, p: Option<Row<Path>>, x: Option<Resource>, care: Care)
    requires hide Reachable, Submit; Reachable(c, care) && Considered(c, r) && c.grantSerial < U64_MAX && c.leaseSerial < U64_MAX
    requires Get(c.store.spec.members, r.source) == Some(s) && Get(c.store.spec.members, r.destination) == Some(d)
    requires IsChosen(ViewOf(c), r, p) && IsOwned(s, r.resource, x)
    ensures var k := Get(c.store.contracts, r.contract).value;
            match FirstOf(Objections(ViewOf(c), r, k, s, d, p, x))
            case Some(o) => Turned(c, Submit(c, r), o.outcome, o.reason)
            case None =>
              Carried(c, r, k, s, d, p, x, Applying(Softenings(ViewOf(c), r, k, s, d, p, x)), Submit(c, r))
  {
    hide Reachable, Gate, Evaluate, Objections, Softenings, FirstOf, Applying, Considered, Carried, IsChosen, IsOwned, LowerBound,
         Least, Spread;
    ConsideredIs(c, r, care);
    ReachableMeasured(c, r, care);
    Terms.GateFresh(c, r);
    var k := Get(c.store.contracts, r.contract).value;
    EvaluationPlaced(ViewOf(c), r, k, s, d, p, x);
    var e := Evaluate(ViewOf(c), r, k);
    var soft := Applying(Softenings(ViewOf(c), r, k, s, d, p, x));
    if e.Pass? {
      if r.renewal {
        RenewCarries(c, r, k, s, d, p, x, soft);
      } else {
        NextFree(c, r, care);
        AdmitCarries(c, r, k, s, d, p, x, soft);
      }
    }
  }

  /** There always is such a path and such a resource, or none, and never a choice. */
  lemma AlwaysPlaced(v: View, r: Request, s: Member)
    requires Sorted(v.spec.paths)
    ensures exists p, x :: IsChosen(v, r, p) && IsOwned(s, r.resource, x)
    ensures forall p, q :: IsChosen(v, r, p) && IsChosen(v, r, q) ==> p == q
    ensures forall x, y :: IsOwned(s, r.resource, x) && IsOwned(s, r.resource, y) ==> x == y
  {
    hide IsChosen, ChosenPath, FindResource, Sorted;
    ChosenIs(v, r);
    OwnedIs(s.resources, r.resource);
    var x := if r.resource == [] then None else FindResource(s.resources, r.resource);
    assert IsOwned(s, r.resource, x);
    assert IsChosen(v, r, ChosenPath(v, r)) && IsOwned(s, r.resource, x);
    forall p, q | IsChosen(v, r, p) && IsChosen(v, r, q) ensures p == q { ChosenOnce(v, r, p, q); }
    forall x, y | IsOwned(s, r.resource, x) && IsOwned(s, r.resource, y) ensures x == y {
      if r.resource != [] {
        OwnedOnce(s, r.resource, x);
        OwnedOnce(s, r.resource, y);
      }
    }
  }

  /** A submission that names a member nobody declared. */
  lemma SubmissionUnplaced(c: Core, r: Request, care: Care)
    requires hide Reachable, Submit; Reachable(c, care) && Considered(c, r)
    requires Get(c.store.spec.members, r.source).None? || Get(c.store.spec.members, r.destination).None?
    ensures Turned(c, Submit(c, r), Unknown, MEMBER_NOT_FOUND)
  {
    hide Reachable, Gate, Evaluate, LowerBound, Considered;
    ConsideredIs(c, r, care);
    Terms.GateFresh(c, r);
    MembersMissing(ViewOf(c), r, Get(c.store.contracts, r.contract).value);
  }

  /** What is said before the obligations are looked at, and after. */
  ghost predicate OnlyObligations(v: View, r: Request, k: Contract, s: Member, d: Member, p: Option<Row<Path>>, x: Option<Resource>)
  {
    && FirstOf(EarlyObjections(v, r, k, s, d, p)).None?
    && FirstOf(PathLimits(v, r, k, p) + ResourceLimits(v, r, k, p, x)).None? && FirstOf(RenewalObjections(v, r)).None?
  }

  /** A request nothing else stands against is refused for its obligations exactly when one of them, of the service it is
      for, stays short of domains and gets none from it, and is softened for redundancy exactly when one stays short, or
      when its path is declared degraded. */
  lemma ObligationsDecide(v: View, r: Request, k: Contract, s: Member, d: Member, p: Option<Row<Path>>, x: Option<Resource>)
    requires Measured(v, r, k) && Get(v.spec.members, r.source) == Some(s) && Get(v.spec.members, r.destination) == Some(d)
    requires IsChosen(v, r, p) && IsOwned(s, r.resource, x) && OnlyObligations(v, r, k, s, d, p, x)
    ensures var e, domain, units := Evaluate(v, r, k), DomainKey(d.locality, k.level), Least(v, r, k, p, x);
            && (e == Deny(Refused, CONTRACT_UNSATISFIED)
                <==> exists row :: row in v.spec.obligations && Short(v, row.val, k.destinationService, domain, units)
                                   && |Supplied(v, row.val, domain, units)| <= |Supplied(v, row.val, domain, 0)|)
            && (e.Deny? ==> e == Deny(Refused, CONTRACT_UNSATISFIED))
            && (e.Pass? ==> (DEGRADED_BY_REDUNDANCY_LOSS in Codes(e.degradations)
                             <==> Worn(p, DegradedPath)
                                  || exists row :: row in v.spec.obligations
                                                   && Short(v, row.val, k.destinationService, domain, units)))
  {
    hide Evaluate, DomainKey, Measured, IsChosen, IsOwned, Least, Codes, Applying, EarlyObjections, EarlySoftenings, PathLimits,
         ResourceLimits, RenewalObjections, Cuts, ObligationSoftenings, FirstOf, Short, Supplied, LowerBound, Worn;
    EvaluationPlaced(v, r, k, s, d, p, x);
    var domain, units := DomainKey(d.locality, k.level), Least(v, r, k, p, x);
    var n := Objection(NotHelped(v, k.destinationService, domain, units), Refused, CONTRACT_UNSATISFIED);
    var os, ps, qs := EarlyObjections(v, r, k, s, d, p), PathLimits(v, r, k, p) + ResourceLimits(v, r, k, p, x), RenewalObjections(v, r);
    FirstOfBoth(os, ps + ([n] + qs));
    FirstOfBoth(ps, [n] + qs);
    FirstOfBoth([n], qs);
    OneFirst(n);
    NotHelpedRow(v, k.destinationService, domain, units);
    SoftForRedundancy(v, r, k, s, d, p, x);
  }

  lemma NotHelpedRow(v: View, service: Id, domain: string, units: nat)
    ensures NotHelped(v, service, domain, units)
            <==> exists row :: row in v.spec.obligations && Short(v, row.val, service, domain, units)
                               && |Supplied(v, row.val, domain, units)| <= |Supplied(v, row.val, domain, 0)|
  {
    hide Short, Supplied;
    if row :| row in v.spec.obligations && Short(v, row.val, service, domain, units)
              && |Supplied(v, row.val, domain, units)| <= |Supplied(v, row.val, domain, 0)| {
      var i :| 0 <= i < |v.spec.obligations| && v.spec.obligations[i] == row;
      assert NoBetter(v, v.spec.obligations[i].val, domain, units);
    }
  }

  lemma {:induction false} AppliesSome(ss: seq<Softening>, code: ReasonCode)
    ensures code in Applying(ss) <==> exists i :: 0 <= i < |ss| && ss[i].applies && ss[i].reason == code
  {
    if ss != [] {
      AppliesSome(ss[1..], code);
      assert forall i :: 1 <= i < |ss| ==> ss[i] == ss[1..][i - 1];
      if i :| 0 <= i < |ss[1..]| && ss[1..][i].applies && ss[1..][i].reason == code { assert ss[i + 1].applies; }
    }
  }

  /** Of all softenings these alone speak of redundancy. */
  lemma SoftForRedundancy(v: View, r: Request, k: Contract, s: Member, d: Member, p: Option<Row<Path>>, x: Option<Resource>)
    ensures DEGRADED_BY_REDUNDANCY_LOSS in Applying(Softenings(v, r, k, s, d, p, x))
            <==> Worn(p, DegradedPath)
                 || exists row :: row in v.spec.obligations
                      && Short(v, row.val, k.destinationService, DomainKey(d.locality, k.level), Least(v, r, k, p, x))
  {
    hide Applying, DomainKey, Least, Short, AfterPath, Capped, Asked, MemberMode, PathMode, Worn, Softenings;
    var domain, units := DomainKey(d.locality, k.level), Least(v, r, k, p, x);
    var os := ObligationSoftenings(v, v.spec.obligations, k.destinationService, domain, units);
    var es, cs, st := EarlySoftenings(v, r, k, s, d, p), Cuts(v, r, k, p, x), StateSoftenings(v, k, p);
    AppliesSome(es, DEGRADED_BY_REDUNDANCY_LOSS);
    AppliesSome(cs, DEGRADED_BY_REDUNDANCY_LOSS);
    AppliesSome(os, DEGRADED_BY_REDUNDANCY_LOSS);
    SoftParts(v, r, k, s, d, p, x);
    assert es[4] == st[0] && |es| == 7;
    if row :| row in v.spec.obligations && Short(v, row.val, k.destinationService, domain, units) {
      var i :| 0 <= i < |v.spec.obligations| && v.spec.obligations[i] == row;
      assert os[i].applies;
    }
    if DEGRADED_BY_REDUNDANCY_LOSS in Applying(os) {
      var i :| 0 <= i < |os| && os[i].applies && os[i].reason == DEGRADED_BY_REDUNDANCY_LOSS;
      assert v.spec.obligations[i] in v.spec.obligations;
    }
  }

  lemma SoftParts(v: View, r: Request, k: Contract, s: Member, d: Member, p: Option<Row<Path>>, x: Option<Resource>)
    ensures Applying(Softenings(v, r, k, s, d, p, x))
            == Applying(EarlySoftenings(v, r, k, s, d, p)) + Applying(Cuts(v, r, k, p, x))
               + Applying(ObligationSoftenings(v, v.spec.obligations, k.destinationService, DomainKey(d.locality, k.level),
                                               Least(v, r, k, p, x)))
  {
    hide Applying, DomainKey, Least, EarlySoftenings, Cuts, ObligationSoftenings;
    var es, cs := EarlySoftenings(v, r, k, s, d, p), Cuts(v, r, k, p, x);
    var os := ObligationSoftenings(v, v.spec.obligations, k.destinationService, DomainKey(d.locality, k.level), Least(v, r, k, p, x));
    ApplyingBoth(es + cs, os + []);
    ApplyingBoth(es, cs);
    assert os + [] == os;
  }
}
