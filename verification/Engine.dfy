/** The authority engine as functions on its whole state: every operation of `AuthorityCore`
    (src/authority.cpp), with the log records it writes, in the order it writes them. */
module Engine {
  import opened Tables
  import opened Model
  import opened Text
  import opened Cluster
  import opened Accounting
  import opened Eligibility
  import opened Vocabulary
  import Decimal
  import W = Wording

  datatype Store = Store(
    spec: Spec, tick: nat, contracts: Table<Contract>, grants: Table<Grant>, attempts: Table<Attempt>)

  datatype GrantRecordKind = PreparedRecord | CommittedRecord | AcknowledgedRecord | ReleasedRecord | TerminalRecord

  datatype Body =
    | Snapshot(image: Store)
    | SetController(cluster: Id, at: Coordinate)
    | EpochBegin(cluster: Id, at: Coordinate)
    | PolicySet(policy: nat)
    | TickMark
    | SpecChange(op: SpecOp)
    | ContractChange(change: ContractOp)
    | GrantRecord(kind: GrantRecordKind, id: Id, grant: Grant, state: GrantState)
    | AttemptTerminal(id: Id, attempt: Attempt)
    | AttemptCancelled(id: Id)
    | CountersSync

  datatype Entry = Entry(sequence: nat, tick: nat, body: Body)
  type Log = seq<Entry>

  datatype Core = Core(options: Options, store: Store, grantSerial: nat, leaseSerial: nat, log: Log)

  datatype Decision = Decision(
    outcome: Outcome, reasons: seq<ReasonCode>, grant: Option<Row<Grant>>, replay: bool, reconcile: bool)

  function NoAttempt(): Attempt { Attempt([], ZeroDigest(), [], [], Invalid, NO_REASON, 0, 0, false, false) }

  function Answer(o: Outcome, reason: ReasonCode): Decision { Decision(o, [reason], None, false, false) }

  // ----- building blocks -----

  function NextSequence(log: Log): nat
  {
    if log == [] then 0 else log[|log| - 1].sequence + 1
  }

  /** `journal_entry`: one record, stamped with the clock and the next sequence number. */
  function Append(c: Core, b: Body): Core
  {
    c.(log := c.log + [Entry(NextSequence(c.log), c.store.tick, b)])
  }

  function SetGrant(c: Core, i: nat, g: Grant): Core
    requires i < |c.store.grants|
  {
    c.(store := c.store.(grants := c.store.grants[i := Row(c.store.grants[i].id, g)]))
  }

  /** `upsert_attempt`; nothing happens when the table is full and the id is new. */
  function PutAttempt(c: Core, id: Id, a: Attempt): Core
  {
    if Room(c.store.attempts, id, MAX_ATTEMPTS) != Ok then c
    else c.(store := c.store.(attempts := Put(c.store.attempts, id, a)))
  }

  function AddReason(rs: seq<Reason>, why: Reason): seq<Reason>
  {
    if why.code == NO_REASON || HasReason(rs, why.code) || |rs| >= MAX_REASONS then rs else rs + [why]
  }

  function FirstReason(rs: seq<Reason>, otherwise: ReasonCode): ReasonCode
  {
    if rs == [] then otherwise else rs[0].code
  }

  function Codes(rs: seq<Reason>): seq<ReasonCode>
  {
    seq(|rs|, i requires 0 <= i < |rs| => rs[i].code)
  }

  function Here(s: Spec): Coordinate { Coordinate(s.generation, s.epoch, s.policy, s.incarnation) }

  /** `terminate_grant`: the record carries the state about to be entered. */
  function Terminate(c: Core, i: nat, g: Grant, state: GrantState, reason: Reason, release: bool): (r: Core)
    requires i < |c.store.grants|
    ensures |r.store.grants| == |c.store.grants|
  {
    var u := g.(state := state, reserved := if release then false else g.reserved,
                reductions := AddReason(g.reductions, reason));
    var c1 := Append(c, GrantRecord(TerminalRecord, c.store.grants[i].id, u, state));
    SetGrant(c1, i, u.(releaseSeq := NextSequence(c.log)))
  }

  // ----- revalidation -----

  /** Are the members this grant names still the ones it was issued for? */
  function MembersStand(x: Member, y: Member, b: Binding): Check
  {
    if x.lifecycle == Removed || y.lifecycle == Removed then Fail(FencedOut, MEMBER_DELETED)
    else if x.generation != b.sourceGeneration || y.generation != b.destinationGeneration
    then Fail(FencedOut, MEMBER_GENERATION_STALE)
    else if !DigestAgrees(x.digest, b.sourceDigest) || !DigestAgrees(y.digest, b.destinationDigest)
    then Fail(FencedOut, MEMBER_DIGEST_MISMATCH)
    else Go([])
  }

  /** Is its path still the one it was bound to, usable and large enough? */
  function PathStands(p: Path, g: Grant): Check
  {
    if p.generation != g.binding.pathGeneration then Fail(FencedOut, PATH_GENERATION_STALE)
    else if p.state == Down || p.state == UnknownPath then Fail(FencedOut, PATH_NOT_OPERATIONAL)
    else if g.units > p.capacity then Fail(FencedOut, CAPACITY_INSUFFICIENT)
    else Go([])
  }

  /** Does its contract still exist, and does it tolerate the members' lifecycles? */
  function ContractStands(s: Store, x: Member, y: Member, b: Binding): Check
  {
    match Get(s.contracts, b.contract)
    case None => Fail(FencedOut, CONTRACT_NOT_FOUND)
    case Some(k) => Then(CheckLifecycle(x.lifecycle, k, W.MemberNow(b.source, x.lifecycle)),
                         CheckLifecycle(y.lifecycle, k, W.MemberNow(b.destination, y.lifecycle)))
  }

  /** May this grant stand under the current specification? */
  function Standing(s: Store, g: Grant): Check
  {
    var b := g.binding;
    if !Has(s.spec.members, b.source) || !Has(s.spec.members, b.destination)
    then Fail(FencedOut, MEMBER_NOT_FOUND)
    else
      var x, y := Get(s.spec.members, b.source).value, Get(s.spec.members, b.destination).value;
      if MembersStand(x, y, b).Fail? then MembersStand(x, y, b)
      else if !Has(s.spec.paths, b.path) then Fail(FencedOut, PATH_NOT_FOUND)
      else if PathStands(Get(s.spec.paths, b.path).value, g).Fail? then PathStands(Get(s.spec.paths, b.path).value, g)
      else ContractStands(s, x, y, b)
  }

  /** What a revocation says of the first thing that no longer stands. */
  function FallWords(s: Store, g: Grant): string
  {
    var b := g.binding;
    if !Has(s.spec.members, b.source) || !Has(s.spec.members, b.destination)
    then "a member named by this grant no longer exists"
    else
      var x, y := Get(s.spec.members, b.source).value, Get(s.spec.members, b.destination).value;
      if MembersStand(x, y, b).Fail? then MemberFallWords(x, y, b)
      else if !Has(s.spec.paths, b.path) then "the bound path no longer exists"
      else if PathStands(Get(s.spec.paths, b.path).value, g).Fail? then PathFallWords(Get(s.spec.paths, b.path).value, g)
      else match Get(s.contracts, b.contract)
        case None => "the contract this grant was issued under no longer exists"
        case Some(k) =>
          if CheckLifecycle(x.lifecycle, k, "").Fail? then W.MemberNow(b.source, x.lifecycle)
          else W.MemberNow(b.destination, y.lifecycle)
  }

  function MemberFallWords(x: Member, y: Member, b: Binding): string
  {
    if x.lifecycle == Removed || y.lifecycle == Removed then "a member named by this grant was retired"
    else if x.generation != b.sourceGeneration || y.generation != b.destinationGeneration
    then "a member was replaced: generation moved past this grant"
    else if !DigestAgrees(x.digest, b.sourceDigest) then "source member digest changed under this grant"
    else "destination member digest changed under this grant"
  }

  function PathFallWords(p: Path, g: Grant): string
  {
    if p.generation != g.binding.pathGeneration then "the bound path was re-declared at a new generation"
    else if p.state == Down || p.state == UnknownPath then W.PathNow(p.state)
    else "path capacity shrank below this grant's reservation"
  }

  /** Record each softening reason once; any of them makes the grant DEGRADED. */
  function Soften(g: Grant, ds: seq<Reason>): (r: Grant)
    ensures r.binding == g.binding && r.units == g.units && r.state == g.state && r.commit == g.commit
    ensures r.acknowledged == g.acknowledged
    decreases |ds|
  {
    if ds == [] then g
    else Soften(g.(reductions := AddReason(g.reductions, ds[0]), degraded := true, outcome := Degraded), ds[1..])
  }

  function Reissued(c: Core, g: Grant, ds: seq<Reason>): Grant
  {
    Soften(g, ds).(at := Here(c.store.spec), commit := CommitDone, state := Committed, reserved := true)
  }

  /** `revalidate_grant` with re-issue, which is how every caller uses it. */
  function Revalidate(c: Core, i: nat): (r: Core)
    requires i < |c.store.grants|
    ensures |r.store.grants| == |c.store.grants|
  {
    var row := c.store.grants[i];
    match Standing(c.store, row.val)
    case Fail(_, reason) => Terminate(c, i, row.val, Revoked, Reason(reason, FallWords(c.store, row.val)), true)
    case Go(ds) =>
      var u := Reissued(c, row.val, ds);
      SetGrant(Append(c, GrantRecord(CommittedRecord, row.id, u, Committed)), i,
               u.(commitSeq := NextSequence(c.log)))
  }

  /** `revalidate_live_grants` from row `i` on. */
  function RevalidateFrom(c: Core, i: nat): (r: Core)
    decreases |c.store.grants| - i
  {
    if i >= |c.store.grants| then c
    else RevalidateFrom(if IsLive(c.store.grants[i].val.state) then Revalidate(c, i) else c, i + 1)
  }

  // ----- specification, contracts, policy, clock -----

  /** Every member, path, exclusion and obligation mutator: journal, apply, revalidate. */
  function Mutate(c: Core, op: SpecOp): (Core, StatusCode)
  {
    var c1 := Append(c, SpecChange(op));
    var e := ApplySpec(c.store.spec, c.store.tick, op);
    var c2 := c1.(store := c1.store.(spec := e.0));
    if e.1 == Ok && op.Revalidates() then (RevalidateFrom(c2, 0), Ok) else (c2, e.1)
  }

  function MutateContract(c: Core, op: ContractOp): (Core, StatusCode)
  {
    var c1 := Append(c, ContractChange(op));
    var e := ApplyContract(c.store.contracts, op);
    (c1.(store := c1.store.(contracts := e.0)), e.1)
  }

  function SetPolicy(c: Core, policy: nat): (Core, StatusCode)
  {
    if policy < c.store.spec.policy then (c, StateMismatch)
    else
      var c1 := Append(c, PolicySet(policy));
      (c1.(store := c1.store.(spec := c1.store.spec.(policy := policy))), Ok)
  }

  /** The clock is not journaled: every record carries it. */
  function AdvanceTick(c: Core, tick: nat): (Core, StatusCode)
  {
    if tick < c.store.tick then (c, StateMismatch) else (c.(store := c.store.(tick := tick)), Ok)
  }

  // ----- bulk termination -----

  function FenceFrom(c: Core, i: nat, reason: Reason): (r: Core)
    decreases |c.store.grants| - i
  {
    if i >= |c.store.grants| then c
    else
      var g := c.store.grants[i].val;
      FenceFrom(if HoldsCapacity(g.state) then Terminate(c, i, g, Fenced, reason, true) else c, i + 1, reason)
  }

  function AttemptOf(c: Core, id: Id): Attempt
  {
    match Get(c.store.attempts, id) case Some(a) => a case None => NoAttempt()
  }

  function ExpiredAttempt(c: Core, row: Row<Grant>): Attempt
  {
    AttemptOf(c, row.val.binding.attempt).(grant := row.id, lease := row.val.binding.lease, reason := LEASE_EXPIRED)
  }

  function Expire(c: Core, i: nat): (r: Core)
    requires i < |c.store.grants|
    ensures |r.store.grants| == |c.store.grants|
  {
    var row := c.store.grants[i];
    var c1 := Terminate(c, i, row.val, Expired, W.LeaseOver(c.store.tick), true);
    var a := ExpiredAttempt(c, row);
    PutAttempt(Append(c1, AttemptTerminal(row.val.binding.attempt, a)), row.val.binding.attempt, a)
  }

  function ExpireFrom(c: Core, i: nat): (r: Core)
    decreases |c.store.grants| - i
  {
    if i >= |c.store.grants| then c
    else
      var row := c.store.grants[i];
      if IsLive(row.val.state) && ExpiredAt(row.val, c.store.tick) then
        if Room(c.store.attempts, row.val.binding.attempt, MAX_ATTEMPTS) != Ok then Expire(c, i)
        else ExpireFrom(Expire(c, i), i + 1)
      else ExpireFrom(c, i + 1)
  }

  /** What `expire_leases` returns: it stops at the first attempt there is no room to close. */
  function ExpireStatus(c: Core, i: nat): StatusCode
    decreases |c.store.grants| - i
  {
    if i >= |c.store.grants| then Ok
    else
      var row := c.store.grants[i];
      if IsLive(row.val.state) && ExpiredAt(row.val, c.store.tick) then
        var st := Room(c.store.attempts, row.val.binding.attempt, MAX_ATTEMPTS);
        if st != Ok then st else ExpireStatus(Expire(c, i), i + 1)
      else ExpireStatus(c, i + 1)
  }

  // ----- submit -----

  function RequestShape(r: Request): StatusCode
  {
    if r.id == [] || r.contract == [] || r.cluster == [] || r.source == [] || r.destination == []
       || (r.source == r.destination && r.sourceEndpoint == r.destinationEndpoint && r.sourceEndpoint != [])
       || r.attempt == [] then InvalidArgument
    else if r.units > MAX_UNITS || r.lease > MAX_LEASE then LimitExceeded
    else if r.renewal && (r.renewalOf == [] || r.renewalLease == []) then InvalidArgument
    else if !r.renewal && (r.renewalOf != [] || r.renewalLease != []) then InvalidArgument
    else if !IsUtf8(r.provenance.origin) || !IsUtf8(r.provenance.correlation) then InvalidArgument
    else if |r.provenance.origin| > MAX_IDENTIFIER || |r.provenance.correlation| > MAX_IDENTIFIER then LimitExceeded
    else Ok
  }

  function Malformed(st: StatusCode): Decision
  {
    Answer(Invalid, if st == LimitExceeded then LIMIT_EXCEEDED else MALFORMED_REQUEST)
  }

  /** The coordinate fence: a request is considered only against this exact controller state. */
  function FenceCheck(s: Spec, r: Request): Check
  {
    Require(s.id == [] || r.cluster == s.id, Unknown, CLUSTER_NOT_FOUND,
    Require(r.at.generation <= s.generation, Invalid, CLUSTER_GENERATION_AHEAD,
    Require(r.at.generation >= s.generation, Stale, CLUSTER_GENERATION_STALE,
    Require(r.at.epoch <= s.epoch, Invalid, EPOCH_AHEAD,
    Require(r.at.epoch >= s.epoch, FencedOut, EPOCH_STALE,
    Require(r.at.incarnation == s.incarnation, FencedOut, INCARNATION_STALE,
    Require(r.at.policy == s.policy, Stale, POLICY_GENERATION_STALE,
    Go([]))))))))
  }

  /** What a grant's state says about the attempt that owns it. */
  function FromGrant(row: Row<Grant>, ambiguous: Decision, released: ReasonCode, held: ReasonCode): Decision
  {
    var g := row.val;
    if g.state == Ambiguous then ambiguous
    else if g.state == Released then Decision(Refused, [released], Some(row), true, false)
    else if g.state == Expired then Decision(Refused, [GRANT_EXPIRED], Some(row), true, false)
    else if g.state == Fenced || g.state == Revoked then
      Decision(FencedOut, [FirstReason(g.reductions, GRANT_FENCED)], Some(row), true, true)
    else Decision(g.outcome, [held], Some(row), true, false)
  }

  function FindGrant(c: Core, id: Id): Option<Row<Grant>>
  {
    match Get(c.store.grants, id) case None => None case Some(g) => Some(Row(id, g))
  }

  /** `replay_attempt`: the answer to a request whose attempt id has already been used. */
  function ReplayAttempt(c: Core, a: Attempt, r: Request): Decision
  {
    var found := if a.grant == [] then None else FindGrant(c, a.grant);
    if IsZero(a.digest) && a.grant != [] then
      if found.Some? && found.value.val.state == Ambiguous
      then Decision(Indeterminate, [COMMIT_AMBIGUOUS], found, true, true)
      else Decision(Conflicting, [ATTEMPT_CONFLICT], found, true, true)
    else if a.digest != r.digest then Answer(Conflicting, ATTEMPT_CONFLICT)
    else if a.cancelled then Decision(Cancelled, [ATTEMPT_CANCELLED], None, true, false)
    else if a.released then Decision(Refused, [ATTEMPT_ALREADY_RELEASED], found, true, false)
    else match found
      case Some(row) =>
        FromGrant(row, Decision(Indeterminate, [COMMIT_AMBIGUOUS], found, true, true),
                  GRANT_ALREADY_RELEASED, ATTEMPT_ALREADY_COMMITTED)
      case None =>
        Decision(a.outcome, [if a.reason == NO_REASON then ATTEMPT_ALREADY_COMMITTED else a.reason], None, true, false)
  }

  function ViewOf(c: Core): View { View(c.options, c.store.spec, c.store.tick, c.store.grants) }

  /** The contract-level gate between the fence and evaluation. */
  function ContractCheck(c: Core, r: Request): Check
  {
    match Get(c.store.contracts, r.contract)
    case None => Fail(Unknown, CONTRACT_NOT_FOUND)
    case Some(k) =>
      Require(r.contractGeneration == k.generation, Stale, CONTRACT_GENERATION_STALE,
      Require(k.enabled, Refused, CONTRACT_UNSATISFIED,
      Require(!c.options.rejectUnknownCapabilities || AllKnown(k.capabilities),
              Unsupported, Unsupportable(k.capabilities), Go([]))))
  }

  /** DEGRADED needs the consent of both sides; otherwise a reduction is a refusal. */
  function GrantOutcome(ds: seq<Reason>, r: Request, k: Contract): Option<Outcome>
  {
    if ds == [] then Some(Granted) else if Consents(r, k) then Some(Degraded) else None
  }

  function Wrap(n: nat): nat { n % U64_LIMIT }

  function GrantName(serial: nat): Id { "g-" + Decimal.Printed(serial) }
  function LeaseName(serial: nat): Id { "l-" + Decimal.Printed(serial) }

  function Bind(c: Core, r: Request, k: Contract, e: Verdict, lease: Id): Binding
    requires e.Pass?
    requires Has(c.store.spec.members, r.source) && Has(c.store.spec.members, r.destination)
  {
    var s := Get(c.store.spec.members, r.source).value;
    var d := Get(c.store.spec.members, r.destination).value;
    var p := e.path;
    Binding(c.store.spec.id, r.contract, k.generation, k.sourceService, k.destinationService,
            r.source, s.generation, s.digest, r.destination, d.generation, d.digest,
            if r.sourceEndpoint == [] && p.Some? then p.value.val.sourceEndpoint else r.sourceEndpoint,
            if r.destinationEndpoint == [] && p.Some? then p.value.val.destinationEndpoint else r.destinationEndpoint,
            if p.Some? then p.value.id else [], if p.Some? then p.value.val.generation else 0,
            if e.resource.Some? then e.resource.value.id else [],
            if e.resource.Some? then e.resource.value.generation else 0,
            lease, r.attempt, s.domain, d.domain, r.provenance)
  }

  function Draft(c: Core, r: Request, k: Contract, e: Verdict, o: Outcome, lease: Id, ticks: nat): Grant
    requires e.Pass?
    requires Has(c.store.spec.members, r.source) && Has(c.store.spec.members, r.destination)
  {
    Grant(Bind(c, r, k, e, lease), Here(c.store.spec),
          if r.units == 0 then k.minUnits else r.units, e.units, e.domains,
          c.store.tick, Wrap(c.store.tick + ticks), o, Prepared, CommitPrepared,
          0, 0, 0, 0, false, o == Degraded, false, if o == Degraded then e.degradations else [])
  }

  /** The attempt's record takes its request's id from the decision, which does not have it yet. */
  function MintedAttempt(c: Core, id: Id, g: Grant, r: Request): Attempt
  {
    Attempt([], r.digest, id, g.binding.lease, g.outcome,
            if g.degraded then FirstReason(g.reductions, DEGRADED_BY_MEMBER_STATE) else NO_REASON,
            c.store.tick, 0, false, false)
  }

  /** `commit_grant`: prepare record, commit record, grant table, attempt table, attempt record. */
  function Commit(c: Core, id: Id, draft: Grant, r: Request): (Core, Decision)
  {
    var c1 := Append(c, GrantRecord(PreparedRecord, id, draft, Prepared));
    var g := draft.(prepareSeq := NextSequence(c.log), state := Committed, commit := CommitDone);
    var c2 := Append(c1, GrantRecord(CommittedRecord, id, g, Committed));
    if Room(c.store.grants, id, MAX_GRANTS) != Ok then (c2, Answer(Refused, LIMIT_EXCEEDED))
    else
      var live := g.(commitSeq := NextSequence(c1.log), reserved := true);
      var c3 := c2.(store := c2.store.(grants := Put(c2.store.grants, id, live)));
      if Room(c.store.attempts, g.binding.attempt, MAX_ATTEMPTS) != Ok then (c3, Answer(Refused, LIMIT_EXCEEDED))
      else
        var a := MintedAttempt(c, id, g, r);
        (Append(PutAttempt(c3, g.binding.attempt, a), AttemptTerminal(g.binding.attempt, a)),
         Decision(g.outcome, if g.outcome == Degraded then Codes(g.reductions) else [], Some(Row(id, live)), false, false))
  }

  function Renewed(c: Core, g: Grant, r: Request, e: Verdict, o: Outcome): Grant
    requires e.Pass?
  {
    g.(requested := r.units, units := e.units, leaseIssued := c.store.tick,
       leaseExpiry := if r.lease == 0 then 0 else Wrap(c.store.tick + r.lease),
       at := Here(c.store.spec), outcome := o, degraded := o == Degraded,
       reductions := e.degradations, domains := e.domains)
  }

  /** `renew`: the record says COMMITTED whatever state the live grant keeps. */
  function Renew(c: Core, r: Request, k: Contract): (Core, Decision)
  {
    match Evaluate(ViewOf(c), r, k)
    case Deny(o, reason) => (c, Answer(o, reason))
    case Pass(units, ds, p, x, n) =>
      match GrantOutcome(ds, r, k)
      case None => (c, Decision(Refused, Codes(ds), None, false, false))
      case Some(o) =>
        if !Has(c.store.grants, r.renewalOf) then (c, Answer(Unknown, GRANT_NOT_FOUND)) else
        var i := LowerBound(c.store.grants, r.renewalOf);
        var u := Renewed(c, c.store.grants[i].val, r, Pass(units, ds, p, x, n), o);
        var live := u.(commitSeq := NextSequence(c.log));
        (SetGrant(Append(c, GrantRecord(CommittedRecord, r.renewalOf, u, Committed)), i, live),
         Decision(o, Codes(ds), Some(Row(r.renewalOf, live)), false, false))
  }

  /** A new grant: evaluate, mint the identifiers, check the lease length, commit. */
  function Admit(c: Core, r: Request, k: Contract): (Core, Decision)
  {
    match Evaluate(ViewOf(c), r, k)
    case Deny(o, reason) => (c, Answer(o, reason))
    case Pass(units, ds, p, x, n) =>
      match GrantOutcome(ds, r, k)
      case None => (c, Decision(Refused, Codes(ds), None, false, false))
      case Some(o) =>
        var c1 := c.(grantSerial := Wrap(c.grantSerial + 1), leaseSerial := Wrap(c.leaseSerial + 1));
        var ticks := if r.lease == 0 then c.options.defaultLease else r.lease;
        if ticks > c.options.maxLease then (c1, Answer(Refused, LIMIT_EXCEEDED))
        else Commit(c1, GrantName(c1.grantSerial),
                    Draft(c1, r, k, Pass(units, ds, p, x, n), o, LeaseName(c1.leaseSerial), ticks), r)
  }

  /** The checks of `submit` before it evaluates: the answer when one of them settles the matter. */
  function Gate(c: Core, r: Request): (settled: Option<Decision>)
    ensures settled.None? ==> Has(c.store.contracts, r.contract)
  {
    if RequestShape(r) != Ok then Some(Malformed(RequestShape(r)))
    else match FenceCheck(c.store.spec, r)
      case Fail(o, reason) => Some(Answer(o, reason))
      case Go(_) =>
        if !r.renewal && Has(c.store.attempts, r.attempt)
        then Some(ReplayAttempt(c, Get(c.store.attempts, r.attempt).value, r))
        else match ContractCheck(c, r)
          case Fail(o, reason) => Some(Answer(o, reason))
          case Go(_) => None
  }

  function Submit(c: Core, r: Request): (Core, Decision)
  {
    match Gate(c, r)
    case Some(d) => (c, d)
    case None =>
      var k := Get(c.store.contracts, r.contract).value;
      if r.renewal then Renew(c, r, k) else Admit(c, r, k)
  }

  // ----- release, resolve, acknowledge, cancel -----

  datatype ReleaseRequest = ReleaseRequest(id: Id, grant: Id, attempt: Id, lease: Id, administrative: bool)

  function ReleaseTarget(c: Core, r: ReleaseRequest): Option<Id>
  {
    if r.grant != [] && Has(c.store.grants, r.grant) then Some(r.grant)
    else if r.attempt != [] then
      match Get(c.store.attempts, r.attempt)
      case Some(a) => if a.grant != [] && Has(c.store.grants, a.grant) then Some(a.grant) else None
      case None => None
    else None
  }

  function Release(c: Core, r: ReleaseRequest): (Core, Decision)
  {
    if r.id == [] || (r.grant == [] && r.attempt == []) then (c, Malformed(InvalidArgument))
    else match ReleaseTarget(c, r)
      case None => (c, Answer(Unknown, GRANT_NOT_FOUND))
      case Some(id) =>
        var i := LowerBound(c.store.grants, id);
        if !Has(c.store.grants, id) then (c, Answer(Unknown, GRANT_NOT_FOUND)) else
        var g := c.store.grants[i].val;
        if r.lease != [] && g.binding.lease != r.lease && !r.administrative
        then (c, Decision(Conflicting, [LEASE_UNKNOWN], Some(Row(id, g)), false, false))
        else if IsTerminal(g.state)
        then (c, Decision(Granted, [GRANT_ALREADY_RELEASED], Some(Row(id, g)), true, false))
        else
          var c1 := Terminate(c, i, g, Released, W.NoReason(), true);
          var attempt := g.binding.attempt;
          if !Has(c1.store.attempts, attempt) then (c1, Decision(Granted, [], Some(c1.store.grants[i]), false, false))
          else
            var a := Get(c1.store.attempts, attempt).value.(released := true, terminalTick := c.store.tick);
            (Append(PutAttempt(c1, attempt, a), AttemptTerminal(attempt, a)),
             Decision(Granted, [], Some(c1.store.grants[i]), false, false))
  }

  datatype ResolveRequest = ResolveRequest(id: Id, attempt: Id)

  /** `resolve`: what became of an attempt. An attempt-level fact outranks the grant's. */
  function Resolve(c: Core, r: ResolveRequest): Decision
  {
    if r.id == [] || r.attempt == [] then Malformed(InvalidArgument)
    else match Get(c.store.attempts, r.attempt)
      case None => Answer(Unknown, ATTEMPT_UNKNOWN)
      case Some(a) =>
        var found := if a.grant == [] then None else FindGrant(c, a.grant);
        if a.cancelled then Decision(Cancelled, [ATTEMPT_CANCELLED], found, true, false)
        else if a.released then Decision(Refused, [ATTEMPT_ALREADY_RELEASED], found, true, false)
        else match found
          case Some(row) =>
            FromGrant(row, Decision(Indeterminate, [COMMIT_AMBIGUOUS], found, true, true),
                      FirstReason(row.val.reductions, GRANT_ALREADY_RELEASED), COMMIT_DURABLE)
          case None =>
            Decision(a.outcome, [if a.reason == NO_REASON then ATTEMPT_UNKNOWN else a.reason], None, true, false)
  }

  datatype AcknowledgeRequest = AcknowledgeRequest(id: Id, grant: Id, lease: Id)

  /** Writing the acknowledgement: the record holds the grant as it was before. */
  function MarkAcknowledged(c: Core, i: nat): (Core, Decision)
    requires i < |c.store.grants|
  {
    var row := c.store.grants[i];
    var live := row.val.(acknowledged := true, state := Acknowledged, commit := CommitAcknowledged,
                         ackSeq := NextSequence(c.log));
    (SetGrant(Append(c, GrantRecord(AcknowledgedRecord, row.id, row.val, Acknowledged)), i, live),
     Decision(live.outcome, [COMMIT_DURABLE], Some(Row(row.id, live)), false, false))
  }

  function Acknowledge(c: Core, r: AcknowledgeRequest): (Core, Decision)
  {
    if r.id == [] || r.grant == [] || r.lease == [] then (c, Malformed(InvalidArgument))
    else if !Has(c.store.grants, r.grant) then (c, Answer(Unknown, GRANT_NOT_FOUND))
    else
      var i := LowerBound(c.store.grants, r.grant);
      var row := c.store.grants[i];
      var g := row.val;
      if g.binding.lease != r.lease then (c, Decision(Conflicting, [LEASE_UNKNOWN], Some(row), false, false))
      else if g.state == Released || g.state == Expired || g.state == Fenced || g.state == Revoked
      then (c, Decision(Refused, [GRANT_ALREADY_RELEASED], Some(row), false, false))
      else if g.acknowledged && g.state == Acknowledged
      then (c, Decision(Granted, [COMMIT_DURABLE], Some(row), true, false))
      else if g.state == Ambiguous then
        var c1 := Revalidate(c, i);
        var row1 := c1.store.grants[i];
        if row1.val.state != Committed
        then (c1, Decision(FencedOut, [FirstReason(row1.val.reductions, GRANT_FENCED)], Some(row1), false, true))
        else MarkAcknowledged(c1, i)
      else MarkAcknowledged(c, i)
  }

  datatype CancelRequest = CancelRequest(id: Id, attempt: Id, grant: Id, reason: string)

  function CancelShape(r: CancelRequest): StatusCode
  {
    if r.id == [] || (r.attempt == [] && r.grant == []) || !IsUtf8(r.reason) then InvalidArgument
    else if |r.reason| > MAX_NOTE then LimitExceeded
    else Ok
  }

  function CancelTarget(c: Core, r: CancelRequest): Option<Id>
  {
    if r.grant != [] && Has(c.store.grants, r.grant) then Some(r.grant)
    else if r.attempt != [] then
      match Get(c.store.attempts, r.attempt)
      case Some(a) => if a.grant != [] && Has(c.store.grants, a.grant) then Some(a.grant) else None
      case None => None
    else None
  }

  /** The attempt a cancel marks: the one it names, else the one its grant belongs to. */
  function CancelledAttempt(c: Core, r: CancelRequest): Option<Id>
  {
    if r.attempt != [] && Has(c.store.attempts, r.attempt) then Some(r.attempt)
    else match CancelTarget(c, r)
      case Some(id) =>
        (match Get(c.store.grants, id)
         case Some(g) => if Has(c.store.attempts, g.binding.attempt) then Some(g.binding.attempt) else None
         case None => None)
      case None => None
  }

  function MarkCancelled(c: Core, id: Id): Core
    requires Has(c.store.attempts, id)
  {
    var a := Get(c.store.attempts, id).value;
    PutAttempt(Append(c, AttemptCancelled(id)), id,
               a.(cancelled := true, terminalTick := c.store.tick, reason := ATTEMPT_CANCELLED))
  }

  function Cancel(c: Core, r: CancelRequest): (Core, Decision)
  {
    if CancelShape(r) != Ok then (c, Malformed(CancelShape(r)))
    else
      var named := r.attempt != [] && Has(c.store.attempts, r.attempt);
      var target := CancelTarget(c, r);
      if !named && target.None? then (c, Answer(Unknown, ATTEMPT_UNKNOWN))
      else if named && Get(c.store.attempts, r.attempt).value.cancelled
      then (c, Decision(Cancelled, [ATTEMPT_CANCELLED], if target.Some? then FindGrant(c, target.value) else None, true, false))
      else
        var c1 := if target.Some? && Has(c.store.grants, target.value)
                     && HoldsCapacity(Get(c.store.grants, target.value).value.state)
                  then Terminate(c, LowerBound(c.store.grants, target.value),
                                 Get(c.store.grants, target.value).value, Revoked,
                                 W.CancelledFor(r.reason), true)
                  else c;
        var mark := CancelledAttempt(c, r);
        var c2 := if mark.Some? && Has(c1.store.attempts, mark.value) then MarkCancelled(c1, mark.value) else c1;
        (c2, Decision(Cancelled, [ATTEMPT_CANCELLED], if target.Some? then FindGrant(c2, target.value) else None, false, false))
  }

  // ----- lifecycle -----

  /** `initialize` on an empty log: bind the controller, then begin the first epoch. */
  function Initialize(options: Options, cluster: Id, incarnation: seq<byte>, policy: nat, tick: nat): Core
  {
    var s := EMPTY_SPEC.(id := cluster, incarnation := incarnation);
    var c := Core(options, Store(s, tick, [], [], []), 0, 0, []);
    var c1 := Append(c, SetController(cluster, Coordinate(0, 0, policy, incarnation)));
    var s2 := BeginEpoch(s.(policy := policy), incarnation, policy).0;
    Append(c1.(store := c1.store.(spec := s2)), EpochBegin(cluster, Here(s2)))
  }

  function MaxSuffix(t: Table<Grant>, lease: bool): nat
  {
    if t == [] then 0 else
      var row := t[|t| - 1];
      var n := Decimal.Suffix(if lease then row.val.binding.lease else row.id);
      var m := MaxSuffix(t[..|t| - 1], lease);
      if m < n then n else m
  }

  function Unfinished(c: Core, row: Row<Grant>): Attempt
  {
    AttemptOf(c, row.val.binding.attempt).(
      grant := row.id, lease := row.val.binding.lease, outcome := Refused,
      reason := COMMIT_NOT_DURABLE, terminalTick := c.store.tick)
  }

  /** A prepare without its commit: provably never authorised. */
  function AbandonPrepared(c: Core, i: nat): (r: Core)
    requires i < |c.store.grants|
    ensures |r.store.grants| == |c.store.grants|
  {
    var row := c.store.grants[i];
    var g := row.val.(state := Released, reserved := false, releaseSeq := 0,
                      reductions := row.val.reductions + [W.LostPrepare()]);
    var c1 := Terminate(c, i, g, Released, W.NoCommit(), false);
    var a := Unfinished(c, row);
    PutAttempt(Append(c1, AttemptTerminal(row.val.binding.attempt, a)), row.val.binding.attempt, a)
  }

  function Quarantined(g: Grant): Grant
  {
    g.(state := Ambiguous, commit := CommitAmbiguous, reserved := true,
       reductions := g.reductions
                     + [W.Unconfirmed()])
  }

  function Uncertain(c: Core, row: Row<Grant>): Attempt
  {
    AttemptOf(c, row.val.binding.attempt).(
      grant := row.id, lease := row.val.binding.lease, outcome := Indeterminate, reason := COMMIT_AMBIGUOUS)
  }

  /** A durable commit nobody is known to have seen: held, but not usable. */
  function Quarantine(c: Core, i: nat): (r: Core)
    requires i < |c.store.grants|
    ensures |r.store.grants| == |c.store.grants|
  {
    var row := c.store.grants[i];
    var g := Quarantined(row.val);
    var c1 := SetGrant(Append(c, GrantRecord(TerminalRecord, row.id, g, Ambiguous)), i, g);
    var a := Uncertain(c, row);
    PutAttempt(Append(c1, AttemptTerminal(row.val.binding.attempt, a)), row.val.binding.attempt, a)
  }

  predicate WasAcknowledged(g: Grant) { g.acknowledged || g.state == Acknowledged }

  function RecoverGrant(c: Core, i: nat): (r: Core)
    requires hide AbandonPrepared, Quarantine, Revalidate; i < |c.store.grants|
    ensures |r.store.grants| == |c.store.grants|
  {
    var g := c.store.grants[i].val;
    if !IsLive(g.state) then c
    else if g.commit == CommitPrepared then AbandonPrepared(c, i)
    else if !WasAcknowledged(g) || c.options.recovery == FenceAll then Quarantine(c, i)
    else Revalidate(c, i)
  }

  /** `apply_recovery_policy` from row `i` on. */
  function RecoverFrom(c: Core, i: nat): (r: Core)
    ensures |r.store.grants| == |c.store.grants|
    decreases |c.store.grants| - i
  {
    if i >= |c.store.grants| then c else RecoverFrom(RecoverGrant(c, i), i + 1)
  }

  /** The attempt record a grant is given when its own was lost. */
  function Repaired(now: nat, row: Row<Grant>): Attempt
  {
    var g := row.val;
    var a := Attempt([], ZeroDigest(), row.id, g.binding.lease, Invalid, NO_REASON, now, now, false, false);
    match g.state
    case Ambiguous => a.(outcome := Indeterminate, reason := COMMIT_AMBIGUOUS)
    case Released => a.(outcome := Refused, released := true, reason := FirstReason(g.reductions, COMMIT_NOT_DURABLE))
    case Expired => a.(outcome := Refused, reason := GRANT_EXPIRED)
    case Fenced => a.(outcome := FencedOut, reason := FirstReason(g.reductions, GRANT_FENCED))
    case Revoked => a.(outcome := FencedOut, reason := FirstReason(g.reductions, GRANT_FENCED))
    case Prepared => a.(outcome := Refused, released := true, reason := COMMIT_NOT_DURABLE)
    case Committed => a.(outcome := g.outcome, reason := COMMIT_DURABLE)
    case Acknowledged => a.(outcome := g.outcome, reason := COMMIT_DURABLE)
    case Superseded => a.(outcome := Refused, reason := GRANT_ALREADY_RELEASED)
  }

  function Reconcile(c: Core, i: nat): (r: Core)
    requires i < |c.store.grants|
    ensures r.store.grants == c.store.grants
  {
    var row := c.store.grants[i];
    if row.val.binding.attempt == [] || Has(c.store.attempts, row.val.binding.attempt) then c
    else
      var a := Repaired(c.store.tick, row);
      PutAttempt(Append(c, AttemptTerminal(row.val.binding.attempt, a)), row.val.binding.attempt, a)
  }

  function ReconcileFrom(c: Core, i: nat): (r: Core)
    ensures r.store.grants == c.store.grants
    decreases |c.store.grants| - i
  {
    if i >= |c.store.grants| then c else ReconcileFrom(Reconcile(c, i), i + 1)
  }

  /** `recover` from the loaded tables up to the point where the new epoch is on the log. */
  function Open(c: Core, incarnation: seq<byte>, tick: nat): (Core, StatusCode)
  {
    if c.store.spec.id == [] then (c, Corruption)
    else
      var c1 := c.(grantSerial := MaxSuffix(c.store.grants, false), leaseSerial := MaxSuffix(c.store.grants, true),
                   store := c.store.(tick := if tick > c.store.tick then tick else c.store.tick));
      var e := BeginEpoch(c.store.spec, incarnation, c.store.spec.policy);
      if e.1 != Ok then (c1, e.1)
      else (Append(c1.(store := c1.store.(spec := e.0)), EpochBegin(e.0.id, Here(e.0))), Ok)
  }

  function Adopt(options: Options, s: Store, log: Log, incarnation: seq<byte>, tick: nat): (Core, StatusCode)
  {
    Open(Core(options, s.(grants := SortById(s.grants), attempts := SortById(s.attempts)), 0, 0, log), incarnation, tick)
  }

  /** `recover`: new epoch, recovery policy grant by grant, then missing attempt records. */
  function Recover(options: Options, s: Store, log: Log, incarnation: seq<byte>, tick: nat): (Core, StatusCode)
  {
    var a := Adopt(options, s, log, incarnation, tick);
    if a.1 != Ok then a else (ReconcileFrom(RecoverFrom(a.0, 0), 0), Ok)
  }

  /** `maybe_compact` once the log is due: one snapshot replaces it, then the counters record. */
  function Compact(c: Core): Core
  {
    Append(c.(log := [Entry(0, c.store.tick, Snapshot(c.store))]), CountersSync)
  }
}
