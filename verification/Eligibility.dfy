/** `AuthorityCore::evaluate`: is a request eligible, and for how many units (src/authority.cpp). */
module Eligibility {
  import opened Tables
  import opened Model
  import opened Cluster
  import opened Accounting
  import W = Wording

  datatype RecoveryPolicy = RevalidateAcknowledged | FenceAll

  datatype Options = Options(
    requireDigests: bool, requirePath: bool, rejectUnknownCapabilities: bool, enforceCapacity: bool,
    defaultLease: nat, maxLease: nat, recovery: RecoveryPolicy)

  /** `AuthorityRequest`; `digest` stands for the digest of its canonical bytes. */
  datatype Request = Request(
    id: Id, contract: Id, contractGeneration: nat, cluster: Id, at: Coordinate,
    source: Id, sourceGeneration: nat, sourceDigest: Digest,
    destination: Id, destinationGeneration: nat, destinationDigest: Digest,
    sourceEndpoint: Id, destinationEndpoint: Id, path: Id, pathGeneration: nat,
    resource: Id, reservationGeneration: nat, units: nat, lease: nat, attempt: Id,
    provenance: Provenance, allowDegraded: bool, renewal: bool, renewalOf: Id, renewalLease: Id,
    digest: Digest)

  /** What the engine knows when it evaluates. */
  datatype View = View(
    options: Options, spec: Spec, tick: nat, grants: Table<Grant>)

  datatype Verdict =
    | Deny(outcome: Outcome, reason: ReasonCode)
    | Pass(units: nat, degradations: seq<Reason>, path: Option<Row<Path>>, resource: Option<Resource>, domains: nat)

  datatype Check = Fail(outcome: Outcome, reason: ReasonCode) | Go(degradations: seq<Reason>)

  predicate HasReason(rs: seq<Reason>, code: ReasonCode)
  {
    exists i :: 0 <= i < |rs| && rs[i].code == code
  }

  function Require(ok: bool, outcome: Outcome, reason: ReasonCode, next: Check): Check
  {
    if ok then next else Fail(outcome, reason)
  }

  function Then(a: Check, b: Check): Check
  {
    match a
    case Fail(_, _) => a
    case Go(d) => match b case Fail(_, _) => b case Go(e) => Go(d + e)
  }

  predicate DigestAgrees(declared: Digest, claimed: Digest) { IsZero(declared) || claimed == declared }

  predicate HasEndpoint(m: Member, id: Id)
  {
    id == [] || exists i :: 0 <= i < |m.endpoints| && m.endpoints[i].id == id
  }

  /** Identity: both members exist, are not retired, and are exactly the ones the request names. */
  function CheckMembers(o: Options, s: Member, d: Member, r: Request, k: Contract): Check
  {
    Require(s.lifecycle != Removed, Refused, MEMBER_DELETED,
    Require(d.lifecycle != Removed, Refused, MEMBER_DELETED,
    Require(r.sourceGeneration >= s.generation, FencedOut, MEMBER_GENERATION_STALE,
    Require(r.sourceGeneration <= s.generation, FencedOut, MEMBER_GENERATION_AHEAD,
    Require(r.destinationGeneration >= d.generation, FencedOut, MEMBER_GENERATION_STALE,
    Require(r.destinationGeneration <= d.generation, FencedOut, MEMBER_GENERATION_AHEAD,
    Require(!o.requireDigests || (!IsZero(r.sourceDigest) && !IsZero(r.destinationDigest)),
            Incomplete, MEMBER_DIGEST_MISSING,
    Require(DigestAgrees(s.digest, r.sourceDigest), FencedOut, MEMBER_DIGEST_MISMATCH,
    Require(DigestAgrees(d.digest, r.destinationDigest), FencedOut, MEMBER_DIGEST_MISMATCH,
    Require(HasEndpoint(s, r.sourceEndpoint), Unknown, ENDPOINT_NOT_FOUND,
    Require(HasEndpoint(d, r.destinationEndpoint), Unknown, ENDPOINT_NOT_FOUND,
    Require(k.sourceService in s.services, Refused, SERVICE_GROUP_NOT_SERVED,
    Require(k.destinationService in d.services, Refused, SERVICE_GROUP_NOT_SERVED,
    Go([]))))))))))))))
  }

  function DegradeIf(allowed: bool, soft: Reason, otherwise: ReasonCode): Check
  {
    if allowed then Go([soft]) else Fail(Refused, otherwise)
  }

  /** What a contract says about a member's lifecycle, in these words. Shared by evaluation and revalidation. */
  function CheckLifecycle(l: Lifecycle, k: Contract, words: string): Check
  {
    match l
    case Active => Go([])
    case Draining => DegradeIf(k.allowDraining, Reason(DEGRADED_BY_MEMBER_STATE, words), MEMBER_DRAINING)
    case Maintenance =>
      if k.maintenance == Allow then Go([])
      else DegradeIf(k.maintenance == Degrade, Reason(DEGRADED_BY_MAINTENANCE, words), MEMBER_MAINTENANCE)
    case Faulted => DegradeIf(k.allowFaulted, Reason(DEGRADED_BY_MEMBER_STATE, words), MEMBER_FAULTED)
    case Partitioned => DegradeIf(k.allowPartitioned, Reason(DEGRADED_BY_MEMBER_STATE, words), MEMBER_PARTITIONED)
    case Enlisted => Fail(Refused, MEMBER_NOT_ACTIVE)
    case Removed => Fail(Refused, MEMBER_DELETED)
  }

  function CheckExclusion(e: Option<Row<Exclusion>>, words: string): Check
  {
    match e
    case None => Go([])
    case Some(x) =>
      match x.val.mode
      case Allow => Go([])
      case Degrade => Go([Reason(DEGRADED_BY_MAINTENANCE, words)])
      case Refuse => Fail(Refused, MAINTENANCE_EXCLUSION_ACTIVE)
  }

  function ExcludedMember(v: View, id: Id, m: Member): Check
  {
    var e := ExclusionForMember(v.spec.exclusions, id, m, v.tick);
    CheckExclusion(e, if e.Some? then W.CoversMember(e.value.id, id) else "")
  }

  function ExcludedPath(v: View, id: Id): Check
  {
    var e := ExclusionForPath(v.spec.exclusions, id, v.tick);
    CheckExclusion(e, if e.Some? then W.CoversPath(e.value.id, id) else "")
  }

  predicate EndpointsFit(p: Path, r: Request)
  {
    && (r.sourceEndpoint == [] || p.sourceEndpoint == [] || p.sourceEndpoint == r.sourceEndpoint)
    && (r.destinationEndpoint == [] || p.destinationEndpoint == [] || p.destinationEndpoint == r.destinationEndpoint)
  }

  predicate Selectable(p: Path, r: Request)
  {
    p.source == r.source && p.destination == r.destination && p.state != Down && p.state != UnknownPath
    && EndpointsFit(p, r)
  }

  /** `select_path`: the eligible path with the least id, scanning the id-sorted table. */
  function SelectPath(t: Table<Path>, r: Request): Option<Row<Path>>
  {
    if t == [] then None
    else if Selectable(t[0].val, r) then
      match SelectPath(t[1..], r)
      case Some(row) => if Less(row.id, t[0].id) then Some(row) else Some(t[0])
      case None => Some(t[0])
    else SelectPath(t[1..], r)
  }

  /** The path a request will be bound to, before any check on it. */
  function ChosenPath(v: View, r: Request): Option<Row<Path>>
  {
    if r.path != [] then
      (match Get(v.spec.paths, r.path) case None => None case Some(p) => Some(Row(r.path, p)))
    else if v.options.requirePath then SelectPath(v.spec.paths, r)
    else None
  }

  function CheckNamedPath(v: View, r: Request): Check
  {
    if r.path != [] then
      match Get(v.spec.paths, r.path)
      case None => Fail(Unknown, PATH_NOT_FOUND)
      case Some(p) =>
        Require(r.pathGeneration == p.generation, Stale, PATH_GENERATION_STALE,
        Require(p.source == r.source && p.destination == r.destination, Refused, CONTRACT_UNSATISFIED,
        Require(EndpointsFit(p, r), Refused, CONTRACT_UNSATISFIED, Go([]))))
    else Require(!v.options.requirePath || ChosenPath(v, r).Some?, Refused, NO_ELIGIBLE_PATH, Go([]))
  }

  function CheckUsable(row: Row<Path>, k: Contract): Check
  {
    match row.val.state
    case Operational => Go([])
    case DegradedPath => Go([Reason(DEGRADED_BY_REDUNDANCY_LOSS, W.DeclaredDegraded(row.id))])
    case PathMaintenance =>
      if k.maintenance == Allow then Go([])
      else DegradeIf(k.maintenance == Degrade, Reason(DEGRADED_BY_MAINTENANCE, W.PathInMaintenance(row.id)), PATH_NOT_OPERATIONAL)
    case Down => Fail(Refused, PATH_NOT_OPERATIONAL)
    case UnknownPath => Fail(Refused, PATH_NOT_OPERATIONAL)
  }

  function CheckPathState(v: View, p: Option<Row<Path>>, k: Contract): Check
  {
    match p
    case None => Go([])
    case Some(row) => Then(CheckUsable(row, k), ExcludedPath(v, row.id))
  }

  function Domains(s: Member, d: Member, level: nat): nat
  {
    if DomainKey(s.locality, level) == DomainKey(d.locality, level) then 1 else 2
  }

  /** Everything that comes before capacity. */
  function CheckEligible(v: View, s: Member, d: Member, r: Request, k: Contract): Check
  {
    Then(CheckMembers(v.options, s, d, r, k),
    Then(CheckLifecycle(s.lifecycle, k, W.MemberState("source", s.lifecycle)),
    Then(CheckLifecycle(d.lifecycle, k, W.MemberState("destination", d.lifecycle)),
    Then(ExcludedMember(v, r.source, s),
    Then(ExcludedMember(v, r.destination, d),
    Then(CheckNamedPath(v, r),
    Then(CheckPathState(v, ChosenPath(v, r), k),
    Require(k.minDomains <= Domains(s, d, k.level), Refused, LOCALITY_CONSTRAINT_VIOLATED, Go([])))))))))
  }

  // ----- capacity -----

  /** Units asked for, after the contract's floor for "none" and its ceiling. */
  function Want(r: Request, k: Contract): nat
  {
    var w := if r.units == 0 then k.minUnits else r.units;
    if k.maxUnits != 0 && w > k.maxUnits then k.maxUnits else w
  }

  predicate Ceilinged(r: Request, k: Contract)
  {
    var w := if r.units == 0 then k.minUnits else r.units;
    k.maxUnits != 0 && w > k.maxUnits
  }

  predicate Consents(r: Request, k: Contract) { k.allowDegraded && r.allowDegraded }

  function Free(capacity: nat, held: nat): nat { if capacity > held then capacity - held else 0 }

  /** One capacity limit applied to the units authorised so far. */
  function Reduce(authorised: nat, free: nat, floor: nat, consents: bool): Option<nat>
  {
    if authorised <= free then Some(authorised)
    else if free > 0 && free >= floor && consents then Some(free)
    else None
  }

  function Skip(r: Request): Option<Id>
  {
    if r.renewal && r.renewalOf != [] then Some(r.renewalOf) else None
  }

  function PathFree(v: View, r: Request, p: Row<Path>): nat
  {
    Free(p.val.capacity, Saturated(Held(v.grants, OnPath(p.id), Skip(r))))
  }

  function ResourceFree(v: View, r: Request, x: Resource): nat
  {
    Free(x.total, Saturated(Held(v.grants, OnResource(x.id), Skip(r))))
  }

  datatype Units = NoUnits(outcome: Outcome, reason: ReasonCode) | SomeUnits(units: nat, degradations: seq<Reason>)

  function Cut(before: nat, after: nat, words: string): seq<Reason>
  {
    if after < before then [Reason(DEGRADED_BY_CAPACITY, words)] else []
  }

  function PathStage(v: View, r: Request, k: Contract, p: Option<Row<Path>>, want: nat): Units
  {
    if p.None? || !v.options.enforceCapacity then SomeUnits(want, [])
    else if p.value.val.exclusive
            && OtherHolder(v.grants, p.value.id, r.attempt, if r.renewal then Some(r.renewalOf) else None)
    then NoUnits(Conflicting, PATH_ALREADY_BOUND)
    else match Reduce(want, PathFree(v, r, p.value), k.minUnits, Consents(r, k))
      case Some(n) => SomeUnits(n, Cut(want, n, W.FreeOf("path ", p.value.id, PathFree(v, r, p.value), p.value.val.capacity)))
      case None => NoUnits(Refused, CAPACITY_EXHAUSTED)
  }

  function ResourceStage(v: View, r: Request, k: Contract, s: Member, p: Option<Row<Path>>, units: nat): Units
  {
    if r.resource != [] then
      match FindResource(s.resources, r.resource)
      case None => NoUnits(Unknown, RESOURCE_NOT_FOUND)
      case Some(x) =>
        if r.reservationGeneration != x.generation then NoUnits(Stale, RESERVATION_GENERATION_STALE)
        else if !x.reservable then NoUnits(Refused, CONTRACT_UNSATISFIED)
        else if !v.options.enforceCapacity then SomeUnits(units, [])
        else match Reduce(units, ResourceFree(v, r, x), k.minUnits, Consents(r, k))
          case Some(n) => SomeUnits(n, Cut(units, n, W.FreeOf("resource ", x.id, ResourceFree(v, r, x), x.total)))
          case None => NoUnits(Refused, CAPACITY_EXHAUSTED)
    else if v.options.enforceCapacity && r.units > 0 && p.Some? && p.value.val.resources != []
    then NoUnits(Incomplete, RESERVATION_GENERATION_MISSING)
    else SomeUnits(units, [])
  }

  function CapacityStage(v: View, r: Request, k: Contract, s: Member, p: Option<Row<Path>>): Units
  {
    var want := Want(r, k);
    if want < k.minUnits then NoUnits(Refused, CAPACITY_INSUFFICIENT)
    else match PathStage(v, r, k, p, want)
      case NoUnits(o, c) => NoUnits(o, c)
      case SomeUnits(n, d) =>
        match ResourceStage(v, r, k, s, p, n)
        case NoUnits(o, c) => NoUnits(o, c)
        case SomeUnits(m, e) =>
          SomeUnits(m, (if Ceilinged(r, k) then [Reason(DEGRADED_BY_CAPACITY, W.Ceiling(k.maxUnits))] else []) + d + e)
  }

  // ----- obligations -----

  /** Units held per failure domain towards one service. */
  function PerDomain(t: Table<Grant>, s: Spec, o: Obligation): map<string, nat>
  {
    if t == [] then map[] else
      var m := PerDomain(t[..|t| - 1], s, o);
      var g := t[|t| - 1].val;
      if !HoldsCapacity(g.state) || g.binding.destinationService != o.service then m
      else match Get(s.members, g.binding.destination)
        case None => m
        case Some(holder) =>
          var key := DomainKey(holder.locality, o.level);
          m[key := Saturated((if key in m then m[key] else 0) + g.units)]
  }

  function Meeting(m: map<string, nat>, o: Obligation): nat
  {
    |set d | d in m && m[d] > 0 && m[d] >= o.minUnits|
  }

  /** One obligation: unmet after this grant is a degradation if the grant improves the count and a
      refusal if it does not. The grant is filed under the contract's own failure-domain key. */
  function CheckObligation(v: View, id: Id, o: Obligation, service: Id, key: string, units: nat): Check
  {
    if !o.enabled || o.service != service then Go([]) else
      var m := PerDomain(v.grants, v.spec, o);
      var n := m[key := Saturated((if key in m then m[key] else 0) + units)];
      if Meeting(n, o) >= o.minDomains then Go([])
      else if Meeting(n, o) <= Meeting(m, o) then Fail(Refused, CONTRACT_UNSATISFIED)
      else Go([Reason(DEGRADED_BY_REDUNDANCY_LOSS, W.Unmet(id))])
  }

  function CheckObligations(v: View, t: Table<Obligation>, service: Id, key: string, units: nat): Check
  {
    if t == [] then Go([])
    else Then(CheckObligation(v, t[0].id, t[0].val, service, key, units), CheckObligations(v, t[1..], service, key, units))
  }

  function CheckRenewal(v: View, r: Request): Check
  {
    if !r.renewal then Go([]) else
      match Get(v.grants, r.renewalOf)
      case None => Fail(Unknown, GRANT_NOT_FOUND)
      case Some(g) =>
        Require(g.binding.lease == r.renewalLease, Conflicting, LEASE_UNKNOWN,
        Require(g.binding.attempt == r.attempt, Conflicting, ATTEMPT_MISMATCH,
        Require(!IsTerminal(g.state), Refused, GRANT_ALREADY_RELEASED, Go([]))))
  }

  function Evaluate(v: View, r: Request, k: Contract): Verdict
  {
    match Get(v.spec.members, r.source)
    case None => Deny(Unknown, MEMBER_NOT_FOUND)
    case Some(s) =>
      match Get(v.spec.members, r.destination)
      case None => Deny(Unknown, MEMBER_NOT_FOUND)
      case Some(d) =>
        match CheckEligible(v, s, d, r, k)
        case Fail(o, c) => Deny(o, c)
        case Go(soft) =>
          var p := ChosenPath(v, r);
          match CapacityStage(v, r, k, s, p)
          case NoUnits(o, c) => Deny(o, c)
          case SomeUnits(n, cuts) =>
            match Then(CheckObligations(v, v.spec.obligations, k.destinationService,
                                        DomainKey(d.locality, k.level), n),
                       CheckRenewal(v, r))
            case Fail(o, c) => Deny(o, c)
            case Go(late) =>
              Pass(n, soft + cuts + late, p,
                   if r.resource != [] then FindResource(s.resources, r.resource) else None,
                   Domains(s, d, k.level))
  }

  // ----- what evaluation authorises -----

  /** The least of what is wanted and of every limit that applies. */
  function Offer(v: View, r: Request, k: Contract, s: Member, p: Option<Row<Path>>): nat
  {
    var w := Want(r, k);
    var a := if p.Some? && v.options.enforceCapacity then Min(w, PathFree(v, r, p.value)) else w;
    var x := FindResource(s.resources, r.resource);
    if r.resource != [] && x.Some? && v.options.enforceCapacity then Min(a, ResourceFree(v, r, x.value)) else a
  }

  /** Nothing but the amount of capacity stands in the way. */
  predicate OnlyCapacity(v: View, r: Request, k: Contract, s: Member, p: Option<Row<Path>>)
  {
    && (p.Some? && v.options.enforceCapacity && p.value.val.exclusive
        ==> !OtherHolder(v.grants, p.value.id, r.attempt, if r.renewal then Some(r.renewalOf) else None))
    && (if r.resource != [] then
          var x := FindResource(s.resources, r.resource);
          x.Some? && x.value.generation == r.reservationGeneration && x.value.reservable
        else !(v.options.enforceCapacity && r.units > 0 && p.Some? && p.value.val.resources != []))
  }

  /** The request meets everything that is looked at before capacity. */
  predicate Arrives(v: View, r: Request, k: Contract)
  {
    Has(v.spec.members, r.source) && Has(v.spec.members, r.destination)
    && CheckEligible(v, Get(v.spec.members, r.source).value, Get(v.spec.members, r.destination).value, r, k).Go?
  }

  /** What is on offer is all that is wanted, or a part both sides are content with. */
  predicate Enough(r: Request, k: Contract, offer: nat)
  {
    offer == Want(r, k) || (Consents(r, k) && offer > 0 && offer >= k.minUnits)
  }

  lemma StageGivesTheMinimum(v: View, r: Request, k: Contract, s: Member, p: Option<Row<Path>>)
    requires OnlyCapacity(v, r, k, s, p)
    ensures var c := CapacityStage(v, r, k, s, p);
            var n := Offer(v, r, k, s, p);
            if Want(r, k) < k.minUnits then c == NoUnits(Refused, CAPACITY_INSUFFICIENT)
            else if Enough(r, k, n) then c.SomeUnits? && c.units == n
            else c == NoUnits(Refused, CAPACITY_EXHAUSTED)
  {
    hide PathFree, ResourceFree, FindResource, OtherHolder, Want, W.FreeOf, W.Ceiling, Cut, Consents;
  }

  lemma {:induction false} ObligationsRefuse(v: View, t: Table<Obligation>, service: Id, key: string, units: nat)
    ensures var c := CheckObligations(v, t, service, key, units); c.Fail? ==> c.reason == CONTRACT_UNSATISFIED
  {
    hide PerDomain;
    if t != [] { ObligationsRefuse(v, t[1..], service, key, units); }
  }

  /** Of a request that only the amount of capacity can stop, the engine authorises exactly the smallest of
      want, path room and resource room. It answers CAPACITY_INSUFFICIENT exactly when the want is below the
      contract's minimum, CAPACITY_EXHAUSTED exactly when that smallest amount is not enough, and otherwise
      passes it unless an obligation or the renewed grant forbids. */
  lemma AuthorisesTheMinimum(v: View, r: Request, k: Contract)
    requires Arrives(v, r, k)
    requires OnlyCapacity(v, r, k, Get(v.spec.members, r.source).value, ChosenPath(v, r))
    ensures var e := Evaluate(v, r, k);
            var n := Offer(v, r, k, Get(v.spec.members, r.source).value, ChosenPath(v, r));
            var key := DomainKey(Get(v.spec.members, r.destination).value.locality, k.level);
            && (e == Deny(Refused, CAPACITY_INSUFFICIENT) <==> Want(r, k) < k.minUnits)
            && (e == Deny(Refused, CAPACITY_EXHAUSTED) <==> Want(r, k) >= k.minUnits && !Enough(r, k, n))
            && (e.Pass? ==> e.units == n)
            && (e.Pass? <==> Want(r, k) >= k.minUnits && Enough(r, k, n) && CheckRenewal(v, r).Go?
                             && CheckObligations(v, v.spec.obligations, k.destinationService, key, n).Go?)
  {
    hide CheckEligible, CapacityStage, Offer, OnlyCapacity, CheckObligations, DomainKey, Has;
    var s, p := Get(v.spec.members, r.source).value, ChosenPath(v, r);
    var key := DomainKey(Get(v.spec.members, r.destination).value.locality, k.level);
    StageGivesTheMinimum(v, r, k, s, p);
    ObligationsRefuse(v, v.spec.obligations, k.destinationService, key, Offer(v, r, k, s, p));
  }

  /** What passed arrived, and only capacity could have stopped it. */
  lemma PassArrives(v: View, r: Request, k: Contract)
    requires Evaluate(v, r, k).Pass?
    ensures Arrives(v, r, k) && OnlyCapacity(v, r, k, Get(v.spec.members, r.source).value, ChosenPath(v, r))
  {
    hide CheckEligible, FindResource, OtherHolder, PathFree, ResourceFree, CheckObligations;
    var s, p := Get(v.spec.members, r.source).value, ChosenPath(v, r);
    assert CapacityStage(v, r, k, s, p).SomeUnits?;
    assert PathStage(v, r, k, p, Want(r, k)).SomeUnits?;
  }

  // ----- what degradations say -----

  /** The stages of evaluation that may degrade a request without counting capacity. */
  function EarlyStages(v: View, s: Member, d: Member, r: Request, k: Contract): (e: seq<Check>)
    ensures |e| == 5
  {
    [CheckLifecycle(s.lifecycle, k, W.MemberState("source", s.lifecycle)),
     CheckLifecycle(d.lifecycle, k, W.MemberState("destination", d.lifecycle)),
     ExcludedMember(v, r.source, s), ExcludedMember(v, r.destination, d),
     CheckPathState(v, ChosenPath(v, r), k)]
  }

  predicate All(ds: seq<Reason>, p: Reason -> bool)
  {
    forall i :: 0 <= i < |ds| ==> p(ds[i])
  }

  lemma AllJoin(a: seq<Reason>, b: seq<Reason>, p: Reason -> bool)
    ensures All(a + b, p) <==> All(a, p) && All(b, p)
  {
    var c := a + b;
    if All(c, p) {
      forall i | 0 <= i < |a| ensures p(a[i]) { assert c[i] == a[i]; }
      forall i | 0 <= i < |b| ensures p(b[i]) { assert c[|a| + i] == b[i]; }
    }
  }

  predicate AllOf(c: Check, p: Reason -> bool) { c.Go? && All(c.degradations, p) }

  lemma ThenAll(a: Check, b: Check, p: Reason -> bool)
    requires Then(a, b).Go?
    ensures a.Go? && b.Go? && (AllOf(Then(a, b), p) <==> AllOf(a, p) && AllOf(b, p))
  {
    AllJoin(a.degradations, b.degradations, p);
  }

  lemma HardStages(v: View, s: Member, d: Member, r: Request, k: Contract)
    ensures CheckMembers(v.options, s, d, r, k).Go? ==> CheckMembers(v.options, s, d, r, k) == Go([])
    ensures CheckNamedPath(v, r).Go? ==> CheckNamedPath(v, r) == Go([])
    ensures var c := Require(k.minDomains <= Domains(s, d, k.level), Refused, LOCALITY_CONSTRAINT_VIOLATED, Go([]));
            c.Go? ==> c == Go([])
  {
    hide HasEndpoint, DigestAgrees, Domains, ChosenPath, EndpointsFit;
  }

  /** The degradations before capacity are those of the stages, and nothing else. */
  lemma EligibleParts(v: View, s: Member, d: Member, r: Request, k: Contract, p: Reason -> bool)
    requires CheckEligible(v, s, d, r, k).Go?
    ensures All(CheckEligible(v, s, d, r, k).degradations, p)
            <==> forall i :: 0 <= i < 5 ==> AllOf(EarlyStages(v, s, d, r, k)[i], p)
  {
    hide CheckMembers, CheckLifecycle, ExcludedMember, CheckNamedPath, CheckPathState, Then, AllOf, Require, ChosenPath,
         W.MemberState;
    HardStages(v, s, d, r, k);
    var e := EarlyStages(v, s, d, r, k);
    var c8 := Require(k.minDomains <= Domains(s, d, k.level), Refused, LOCALITY_CONSTRAINT_VIOLATED, Go([]));
    var t7 := Then(e[4], c8);
    var t6 := Then(CheckNamedPath(v, r), t7);
    var t5, t4 := Then(e[3], t6), Then(e[2], Then(e[3], t6));
    var t3 := Then(e[1], t4);
    var t2 := Then(e[0], t3);
    assert CheckEligible(v, s, d, r, k) == Then(CheckMembers(v.options, s, d, r, k), t2);
    ThenAll(CheckMembers(v.options, s, d, r, k), t2, p);
    ThenAll(e[0], t3, p);
    ThenAll(e[1], t4, p);
    ThenAll(e[2], t5, p);
    ThenAll(e[3], t6, p);
    ThenAll(CheckNamedPath(v, r), t7, p);
    ThenAll(e[4], c8, p);
    NothingSaid(p);
    SaysAll(CheckEligible(v, s, d, r, k), p);
  }

  lemma NothingSaid(p: Reason -> bool)
    ensures AllOf(Go([]), p)
  {}

  lemma SaysAll(c: Check, p: Reason -> bool)
    requires c.Go?
    ensures AllOf(c, p) <==> All(c.degradations, p)
  {}

  /** Degradations have codes of their own, from 72 on. */
  function IsSoft(): Reason -> bool { (x: Reason) => x.code >= DEGRADED_BY_MEMBER_STATE }

  lemma StagesSoft(v: View, s: Member, d: Member, r: Request, k: Contract, i: nat)
    requires i < 5 && EarlyStages(v, s, d, r, k)[i].Go?
    ensures AllOf(EarlyStages(v, s, d, r, k)[i], IsSoft())
  {
    hide ExclusionForMember, ExclusionForPath, ChosenPath, W.MemberState, W.CoversMember, W.CoversPath, W.DeclaredDegraded,
         W.PathInMaintenance, Then;
    var path := ChosenPath(v, r);
    if i == 4 && path.Some? { ThenAll(CheckUsable(path.value, k), ExcludedPath(v, path.value.id), IsSoft()); }
  }

  lemma CutsSoft(v: View, r: Request, k: Contract, s: Member, p: Option<Row<Path>>)
    requires CapacityStage(v, r, k, s, p).SomeUnits?
    ensures All(CapacityStage(v, r, k, s, p).degradations, IsSoft())
  {
    hide PathFree, ResourceFree, FindResource, OtherHolder, W.Ceiling, W.FreeOf, Want;
  }

  lemma {:induction false} ObligationsSoft(v: View, t: Table<Obligation>, service: Id, key: string, units: nat)
    requires CheckObligations(v, t, service, key, units).Go?
    ensures AllOf(CheckObligations(v, t, service, key, units), IsSoft())
  {
    hide PerDomain, W.Unmet;
    if t != [] {
      ObligationsSoft(v, t[1..], service, key, units);
      ThenAll(CheckObligation(v, t[0].id, t[0].val, service, key, units), CheckObligations(v, t[1..], service, key, units), IsSoft());
    }
  }

  /** All degradations of a passing request: those before capacity, the cuts, and the unmet obligations. */
  lemma PassParts(v: View, r: Request, k: Contract, p: Reason -> bool)
    requires Evaluate(v, r, k).Pass?
    ensures Arrives(v, r, k)
    ensures var s, d := Get(v.spec.members, r.source).value, Get(v.spec.members, r.destination).value;
            var c := CapacityStage(v, r, k, s, ChosenPath(v, r));
            var key := DomainKey(d.locality, k.level);
            && CheckEligible(v, s, d, r, k).Go? && c.SomeUnits?
            && CheckObligations(v, v.spec.obligations, k.destinationService, key, c.units).Go?
            && (All(Evaluate(v, r, k).degradations, p)
                <==> All(CheckEligible(v, s, d, r, k).degradations, p) && All(c.degradations, p)
                     && AllOf(CheckObligations(v, v.spec.obligations, k.destinationService, key, c.units), p))
  {
    hide CheckEligible, CapacityStage, CheckObligations, DomainKey, ChosenPath, Has;
    var s, d := Get(v.spec.members, r.source).value, Get(v.spec.members, r.destination).value;
    var c := CapacityStage(v, r, k, s, ChosenPath(v, r));
    var o := CheckObligations(v, v.spec.obligations, k.destinationService, DomainKey(d.locality, k.level), c.units);
    var soft := CheckEligible(v, s, d, r, k).degradations;
    var late := Then(o, CheckRenewal(v, r)).degradations;
    AllJoin(soft, c.degradations, p);
    AllJoin(soft + c.degradations, late, p);
    RenewalSilent(v, r);
    AllJoin(o.degradations, [], p);
  }

  lemma RenewalSilent(v: View, r: Request)
    requires CheckRenewal(v, r).Go?
    ensures CheckRenewal(v, r) == Go([])
  {}

  lemma PassSoft(v: View, r: Request, k: Contract)
    requires Evaluate(v, r, k).Pass?
    ensures All(Evaluate(v, r, k).degradations, IsSoft())
  {
    hide Evaluate, CheckEligible, CapacityStage, CheckObligations, DomainKey, ChosenPath, Has, All, EarlyStages;
    PassParts(v, r, k, IsSoft());
    var s, d := Get(v.spec.members, r.source).value, Get(v.spec.members, r.destination).value;
    EligibleParts(v, s, d, r, k, IsSoft());
    forall i | 0 <= i < 5 ensures AllOf(EarlyStages(v, s, d, r, k)[i], IsSoft()) {
      EachStage(v, s, d, r, k, i);
      StagesSoft(v, s, d, r, k, i);
    }
    CutsSoft(v, r, k, s, ChosenPath(v, r));
    ObligationsSoft(v, v.spec.obligations, k.destinationService, DomainKey(d.locality, k.level),
                    CapacityStage(v, r, k, s, ChosenPath(v, r)).units);
  }

  /** A request that is eligible passed every stage. */
  lemma EachStage(v: View, s: Member, d: Member, r: Request, k: Contract, i: nat)
    requires CheckEligible(v, s, d, r, k).Go? && i < 5
    ensures EarlyStages(v, s, d, r, k)[i].Go?
  {
    hide CheckMembers, CheckLifecycle, ExcludedMember, CheckNamedPath, CheckPathState, Require, ChosenPath, W.MemberState;
  }

  /** Whatever is authorised lies between the contract's minimum and the request, under the ceiling,
      within the room left on the path and on the resource, and any cut is reported. */
  lemma AuthorisedWithinBounds(v: View, r: Request, k: Contract)
    requires Evaluate(v, r, k).Pass?
    ensures var e := Evaluate(v, r, k);
            && k.minUnits <= e.units <= Want(r, k)
            && (r.units > 0 ==> e.units <= r.units)
            && (k.maxUnits != 0 ==> e.units <= k.maxUnits)
            && e.path == ChosenPath(v, r)
            && (v.options.enforceCapacity && e.path.Some? ==> e.units <= PathFree(v, r, e.path.value))
            && (r.resource != [] ==> e.resource.Some? && e.resource.value.id == r.resource)
            && (v.options.enforceCapacity && e.resource.Some?
                ==> e.units <= ResourceFree(v, r, e.resource.value))
            && (e.units < (if r.units == 0 then k.minUnits else r.units)
                ==> HasReason(e.degradations, DEGRADED_BY_CAPACITY))
  {
    var s := Get(v.spec.members, r.source).value;
    var d := Get(v.spec.members, r.destination).value;
    var p := ChosenPath(v, r);
    var c := CapacityStage(v, r, k, s, p);
    var soft := CheckEligible(v, s, d, r, k).degradations;
    var late := Then(CheckObligations(v, v.spec.obligations, k.destinationService, DomainKey(d.locality, k.level), c.units),
                     CheckRenewal(v, r)).degradations;
    CapacityWithinBounds(v, r, k, s, p);
    ReasonWithin(soft, c.degradations, late, DEGRADED_BY_CAPACITY);
    if r.resource != [] { FoundUnderItsId(s.resources, r.resource); }
  }

  lemma ReasonWithin(a: seq<Reason>, b: seq<Reason>, c: seq<Reason>, code: ReasonCode)
    ensures HasReason(b, code) ==> HasReason(a + b + c, code)
  {
    if i :| 0 <= i < |b| && b[i].code == code { assert (a + b + c)[|a| + i] == b[i]; }
  }

  /** The same bounds for the capacity stage alone. */
  lemma CapacityWithinBounds(v: View, r: Request, k: Contract, s: Member, p: Option<Row<Path>>)
    requires CapacityStage(v, r, k, s, p).SomeUnits?
    ensures var c := CapacityStage(v, r, k, s, p);
            var x := FindResource(s.resources, r.resource);
            && k.minUnits <= c.units <= Want(r, k)
            && (v.options.enforceCapacity && p.Some? ==> c.units <= PathFree(v, r, p.value))
            && (r.resource != [] ==> x.Some?)
            && (v.options.enforceCapacity && r.resource != [] ==> c.units <= ResourceFree(v, r, x.value))
            && (c.units < (if r.units == 0 then k.minUnits else r.units) ==> HasReason(c.degradations, DEGRADED_BY_CAPACITY))
  {
    hide PathStage, ResourceStage, PathFree, ResourceFree, FindResource, W.Ceiling, Want, Ceilinged;
    var want := Want(r, k);
    var a := PathStage(v, r, k, p, want);
    var b := ResourceStage(v, r, k, s, p, a.units);
    var first := if Ceilinged(r, k) then [Reason(DEGRADED_BY_CAPACITY, W.Ceiling(k.maxUnits))] else [];
    PathWithinBounds(v, r, k, p, want);
    ResourceWithinBounds(v, r, k, s, p, a.units);
    WantIsAsked(r, k);
    AnyCut(first, a.degradations, b.degradations);
  }

  lemma WantIsAsked(r: Request, k: Contract)
    ensures Want(r, k) < (if r.units == 0 then k.minUnits else r.units) ==> Ceilinged(r, k)
  {}

  /** The path's stage alone: between the minimum and the want, within what is free there, and a cut is the first
      thing said. */
  lemma PathWithinBounds(v: View, r: Request, k: Contract, p: Option<Row<Path>>, want: nat)
    requires PathStage(v, r, k, p, want).SomeUnits? && k.minUnits <= want
    ensures var a := PathStage(v, r, k, p, want);
            && k.minUnits <= a.units <= want && SaysCut(a.degradations, want, a.units)
            && (v.options.enforceCapacity && p.Some? ==> a.units <= PathFree(v, r, p.value))
  {
    hide OtherHolder, W.FreeOf, PathFree;
  }

  /** The same of the resource's stage. */
  lemma ResourceWithinBounds(v: View, r: Request, k: Contract, s: Member, p: Option<Row<Path>>, units: nat)
    requires ResourceStage(v, r, k, s, p, units).SomeUnits? && k.minUnits <= units
    ensures var b := ResourceStage(v, r, k, s, p, units);
            var x := FindResource(s.resources, r.resource);
            && k.minUnits <= b.units <= units && SaysCut(b.degradations, units, b.units)
            && (r.resource != [] ==> x.Some?)
            && (v.options.enforceCapacity && r.resource != [] ==> b.units <= ResourceFree(v, r, x.value))
  {
    hide FindResource, W.FreeOf, ResourceFree;
  }

  /** Something is said exactly when the amount was cut, and it is that. */
  predicate SaysCut(ds: seq<Reason>, before: nat, after: nat)
  {
    (ds == [] <==> after == before) && CutFirst(ds)
  }

  predicate CutFirst(ds: seq<Reason>) { ds != [] ==> ds[0].code == DEGRADED_BY_CAPACITY }

  lemma AnyCut(a: seq<Reason>, b: seq<Reason>, c: seq<Reason>)
    requires CutFirst(a) && CutFirst(b) && CutFirst(c)
    ensures a + b + c != [] ==> HasReason(a + b + c, DEGRADED_BY_CAPACITY)
  {
    if a != [] {
      assert (a + b + c)[0] == a[0];
    } else if b != [] {
      assert (a + b + c)[0] == b[0];
    } else if c != [] {
      assert (a + b + c)[0] == c[0];
    }
  }

  lemma {:induction false} FoundUnderItsId(rs: seq<Resource>, id: Id)
    ensures FindResource(rs, id).Some? ==> FindResource(rs, id).value.id == id && FindResource(rs, id).value in rs
  {
    if rs != [] && rs[0].id != id { FoundUnderItsId(rs[1..], id); }
  }

  lemma {:induction false} SelectedIsSelectable(t: Table<Path>, r: Request)
    ensures SelectPath(t, r).Some? ==> SelectPath(t, r).value in t && Selectable(SelectPath(t, r).value.val, r)
    ensures SelectPath(t, r).None? <==> forall i :: 0 <= i < |t| ==> !Selectable(t[i].val, r)
  {
    if t != [] {
      SelectedIsSelectable(t[1..], r);
      assert forall i :: 1 <= i < |t| ==> t[i] == t[1..][i - 1];
      assert forall i :: 0 <= i < |t[1..]| ==> t[1..][i] == t[i + 1];
    }
  }

  /** A request that passes names members that are present under exactly the generation and digest
      declared, and is bound to a declared path that is neither down nor unknown. */
  lemma PassIsCurrent(v: View, r: Request, k: Contract)
    requires Evaluate(v, r, k).Pass? && v.options.requirePath && Sorted(v.spec.paths)
    ensures var e := Evaluate(v, r, k);
            && Has(v.spec.members, r.source) && Has(v.spec.members, r.destination)
            && var s := Get(v.spec.members, r.source).value;
            var d := Get(v.spec.members, r.destination).value;
            && s.lifecycle != Removed && d.lifecycle != Removed
            && s.generation == r.sourceGeneration && d.generation == r.destinationGeneration
            && DigestAgrees(s.digest, r.sourceDigest) && DigestAgrees(d.digest, r.destinationDigest)
            && e.path.Some? && Get(v.spec.paths, e.path.value.id) == Some(e.path.value.val)
            && e.path.value.val.state != Down && e.path.value.val.state != UnknownPath
  {
    var s := Get(v.spec.members, r.source).value;
    var d := Get(v.spec.members, r.destination).value;
    assert CheckEligible(v, s, d, r, k).Go?;
    assert CheckMembers(v.options, s, d, r, k).Go?;
    assert CheckNamedPath(v, r).Go?;
    assert CheckPathState(v, ChosenPath(v, r), k).Go?;
    if r.path == [] {
      SelectedIsSelectable(v.spec.paths, r);
      var row := ChosenPath(v, r).value;
      var i :| 0 <= i < |v.spec.paths| && v.spec.paths[i] == row;
      RowFound(v.spec.paths, i);
    }
  }
}
