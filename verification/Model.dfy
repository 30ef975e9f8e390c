/** The controller's entities and bounds. Identifiers and texts are byte strings,
    held as strings whose characters are below 256. */
module Model {
  import opened Tables

  newtype byte = x: int | 0 <= x < 256

  // Bounds (include/cif/limits.hpp).
  const U32_LIMIT: nat := 0x1_0000_0000
  const U64_LIMIT: nat := 0x1_0000_0000_0000_0000
  const U64_MAX: nat := U64_LIMIT - 1
  const MAX_IDENTIFIER: nat := 128
  const MAX_NOTE: nat := 512
  const MAX_DEPTH: nat := 16
  const MAX_DETAIL: nat := 256
  const MAX_REASONS: nat := 24
  const MAX_MEMBERS: nat := 4096
  const MAX_PER_MEMBER: nat := 256
  const MAX_PATHS: nat := 16384
  const MAX_RESOURCES_PER_PATH: nat := 16
  const MAX_EXCLUSIONS: nat := 1024
  const MAX_EXCLUSION_MEMBERS: nat := 512
  const MAX_OBLIGATIONS: nat := 1024
  const MAX_CONTRACTS: nat := 4096
  const MAX_CAPABILITIES: nat := 8
  const MAX_GRANTS: nat := 65536
  const MAX_ATTEMPTS: nat := 65536
  const MAX_UNITS: nat := 0x100_0000_0000
  const MAX_LEASE: nat := 0x1_0000_0000

  function Min(a: nat, b: nat): nat { if a < b then a else b }

  datatype StatusCode =
    | Ok | InvalidArgument | LimitExceeded | CapacityExhaustedStatus | NotFound | DuplicateIdentity
    | StateMismatch | Corruption | IntegrityFailure | Truncated | VersionMismatch | Closed
    | Timeout | Backpressure

  datatype Result<+T> = Success(value: T) | Failure(code: StatusCode)

  /** A 256-bit digest; all zero means "absent". */
  type Digest = seq<byte>

  predicate IsZero(d: Digest) { forall i :: 0 <= i < |d| ==> d[i] == 0 }

  datatype Lifecycle = Enlisted | Active | Draining | Maintenance | Faulted | Partitioned | Removed
  datatype PathState = Operational | DegradedPath | Down | PathMaintenance | UnknownPath
  datatype MaintenanceMode = Refuse | Degrade | Allow

  datatype Endpoint = Endpoint(id: Id, locality: seq<string>, services: seq<Id>, capacityClass: nat)
  datatype Resource = Resource(id: Id, kind: string, total: nat, generation: nat, reservable: bool)

  datatype Member = Member(
    domain: Id, generation: nat, digest: Digest, lifecycle: Lifecycle, locality: seq<string>,
    endpoints: seq<Endpoint>, services: seq<Id>, resources: seq<Resource>, lastObserved: nat, note: string)

  datatype Path = Path(
    generation: nat, source: Id, sourceEndpoint: Id, destination: Id, destinationEndpoint: Id,
    resources: seq<Id>, capacity: nat, exclusive: bool, state: PathState, hops: nat)

  datatype Exclusion = Exclusion(
    prefix: seq<string>, members: seq<Id>, paths: seq<Id>, from: nat, to: nat,
    mode: MaintenanceMode, enabled: bool, reason: string)

  datatype Obligation = Obligation(
    service: Id, minDomains: nat, level: nat, minUnits: nat, enabled: bool)

  datatype Contract = Contract(
    generation: nat, sourceService: Id, destinationService: Id, minUnits: nat, maxUnits: nat,
    minDomains: nat, level: nat, requireExclusive: bool, maintenance: MaintenanceMode,
    allowDraining: bool, allowFaulted: bool, allowPartitioned: bool, allowDegraded: bool,
    capabilities: seq<string>, enabled: bool)

  datatype Outcome =
    | Granted | Degraded | Refused | FencedOut | Stale | Conflicting | Incomplete | Indeterminate
    | Unknown | Unsupported | Cancelled | Invalid

  datatype GrantState =
    | Prepared | Committed | Acknowledged | Ambiguous | Released | Expired | Fenced | Revoked | Superseded

  datatype CommitState = NotCommitted | CommitPrepared | CommitDone | CommitAcknowledged | CommitAmbiguous

  /** `ReasonCode`: the enumerator's number in include/cif/status.hpp. */
  type ReasonCode = r: nat | r <= 76
  datatype Reason = Reason(code: ReasonCode, detail: string)

  const NO_REASON: ReasonCode := 0
  const CLUSTER_NOT_FOUND: ReasonCode := 1
  const CLUSTER_GENERATION_STALE: ReasonCode := 2
  const CLUSTER_GENERATION_AHEAD: ReasonCode := 3
  const POLICY_GENERATION_STALE: ReasonCode := 4
  const EPOCH_STALE: ReasonCode := 5
  const EPOCH_AHEAD: ReasonCode := 6
  const INCARNATION_STALE: ReasonCode := 7
  const MEMBER_NOT_FOUND: ReasonCode := 9
  const MEMBER_DELETED: ReasonCode := 10
  const MEMBER_NOT_ACTIVE: ReasonCode := 11
  const MEMBER_DRAINING: ReasonCode := 12
  const MEMBER_MAINTENANCE: ReasonCode := 13
  const MEMBER_FAULTED: ReasonCode := 14
  const MEMBER_PARTITIONED: ReasonCode := 15
  const MEMBER_GENERATION_STALE: ReasonCode := 16
  const MEMBER_GENERATION_AHEAD: ReasonCode := 17
  const MEMBER_DIGEST_MISMATCH: ReasonCode := 18
  const MEMBER_DIGEST_MISSING: ReasonCode := 19
  const ENDPOINT_NOT_FOUND: ReasonCode := 22
  const SERVICE_GROUP_NOT_SERVED: ReasonCode := 24
  const PATH_NOT_FOUND: ReasonCode := 25
  const PATH_GENERATION_STALE: ReasonCode := 26
  const PATH_NOT_OPERATIONAL: ReasonCode := 27
  const PATH_ALREADY_BOUND: ReasonCode := 28
  const NO_ELIGIBLE_PATH: ReasonCode := 29
  const RESOURCE_NOT_FOUND: ReasonCode := 30
  const RESERVATION_GENERATION_STALE: ReasonCode := 31
  const RESERVATION_GENERATION_MISSING: ReasonCode := 32
  const CAPACITY_EXHAUSTED: ReasonCode := 33
  const CAPACITY_INSUFFICIENT: ReasonCode := 34
  const CONTRACT_NOT_FOUND: ReasonCode := 37
  const CONTRACT_GENERATION_STALE: ReasonCode := 38
  const CONTRACT_UNSATISFIED: ReasonCode := 39
  const LOCALITY_CONSTRAINT_VIOLATED: ReasonCode := 40
  const MAINTENANCE_EXCLUSION_ACTIVE: ReasonCode := 42
  const GRANT_NOT_FOUND: ReasonCode := 43
  const GRANT_ALREADY_RELEASED: ReasonCode := 45
  const GRANT_EXPIRED: ReasonCode := 46
  const GRANT_FENCED: ReasonCode := 47
  const LEASE_EXPIRED: ReasonCode := 48
  const LEASE_UNKNOWN: ReasonCode := 49
  const ATTEMPT_UNKNOWN: ReasonCode := 50
  const ATTEMPT_ALREADY_COMMITTED: ReasonCode := 51
  const ATTEMPT_ALREADY_RELEASED: ReasonCode := 52
  const ATTEMPT_CANCELLED: ReasonCode := 53
  const ATTEMPT_CONFLICT: ReasonCode := 54
  const ATTEMPT_MISMATCH: ReasonCode := 55
  const COMMIT_AMBIGUOUS: ReasonCode := 56
  const COMMIT_DURABLE: ReasonCode := 58
  const COMMIT_NOT_DURABLE: ReasonCode := 59
  const UNSUPPORTED_CAPABILITY: ReasonCode := 64
  const HARDWARE_SEMANTICS_UNSUPPORTED: ReasonCode := 65
  const INTER_CLUSTER_UNSUPPORTED: ReasonCode := 66
  const MALFORMED_REQUEST: ReasonCode := 68
  const LIMIT_EXCEEDED: ReasonCode := 69
  const DEGRADED_BY_MEMBER_STATE: ReasonCode := 72
  const DEGRADED_BY_CAPACITY: ReasonCode := 73
  const DEGRADED_BY_MAINTENANCE: ReasonCode := 75
  const DEGRADED_BY_REDUNDANCY_LOSS: ReasonCode := 76

  datatype Provenance = Provenance(client: Id, origin: string, correlation: string, ingress: nat, observed: nat)

  /** What a grant binds when it is minted; nothing ever changes it afterwards. */
  datatype Binding = Binding(
    cluster: Id, contract: Id, contractGeneration: nat, sourceService: Id, destinationService: Id,
    source: Id, sourceGeneration: nat, sourceDigest: Digest,
    destination: Id, destinationGeneration: nat, destinationDigest: Digest,
    sourceEndpoint: Id, destinationEndpoint: Id, path: Id, pathGeneration: nat,
    resource: Id, reservationGeneration: nat, lease: Id, attempt: Id,
    sourceDomain: Id, destinationDomain: Id, provenance: Provenance)

  /** The controller coordinate a grant was last issued under. */
  datatype Coordinate = Coordinate(generation: nat, epoch: nat, policy: nat, incarnation: seq<byte>)

  datatype Grant = Grant(
    binding: Binding, at: Coordinate, requested: nat, units: nat, domains: nat,
    leaseIssued: nat, leaseExpiry: nat, outcome: Outcome, state: GrantState, commit: CommitState,
    prepareSeq: nat, commitSeq: nat, releaseSeq: nat, ackSeq: nat,
    acknowledged: bool, degraded: bool, reserved: bool, reductions: seq<Reason>)

  datatype Attempt = Attempt(
    request: Id, digest: Digest, grant: Id, lease: Id, outcome: Outcome, reason: ReasonCode,
    firstSeen: nat, terminalTick: nat, released: bool, cancelled: bool)

  function ZeroDigest(): (d: Digest)
    ensures |d| == 32 && IsZero(d)
  {
    seq(32, i => 0 as byte)
  }

  predicate IsLive(s: GrantState) { s == Prepared || s == Committed || s == Acknowledged }
  predicate HoldsCapacity(s: GrantState) { s == Committed || s == Acknowledged || s == Ambiguous }
  predicate IsTerminal(s: GrantState) {
    s == Released || s == Expired || s == Fenced || s == Revoked || s == Superseded
  }

  predicate ExpiredAt(g: Grant, now: nat) { g.leaseExpiry != 0 && now >= g.leaseExpiry }
}
