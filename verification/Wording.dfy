/** What a grant's reasons say, word for word (src/authority.cpp, src/model.cpp). The words are part of the
    record a grant is journaled in, and a record is read back only if none of them is too long. */
module Wording {
  import opened Tables
  import opened Model
  import Decimal

  function LifecycleName(l: Lifecycle): string
  {
    match l
    case Enlisted => "ENLISTED"
    case Active => "ACTIVE"
    case Draining => "DRAINING"
    case Maintenance => "MAINTENANCE"
    case Faulted => "FAULTED"
    case Partitioned => "PARTITIONED"
    case Removed => "REMOVED"
  }

  // ----- evaluation -----

  function MemberState(role: string, l: Lifecycle): string
  {
    role + " member is " + (match l
                            case Draining => "draining"
                            case Maintenance => "in maintenance"
                            case Faulted => "faulted"
                            case Partitioned => "partitioned"
                            case Enlisted => "not active"
                            case Removed => "retired"
                            case Active => "active")
  }

  function CoversMember(exclusion: Id, member: Id): string { "maintenance exclusion " + exclusion + " covers " + member }

  function CoversPath(exclusion: Id, path: Id): string { "maintenance exclusion " + exclusion + " covers path " + path }

  function DeclaredDegraded(path: Id): string { "path " + path + " is declared degraded" }

  function PathInMaintenance(path: Id): string { "path " + path + " is in maintenance" }

  function Ceiling(units: nat): string { "contract ceilings capacity at " + Decimal.Printed(units) + " units" }

  function FreeOf(what: string, id: Id, free: nat, total: nat): string
  {
    what + id + " has " + Decimal.Printed(free) + " units free of " + Decimal.Printed(total)
  }

  function Unmet(obligation: Id): string { "capacity obligation " + obligation + " remains unmet after this grant" }

  // ----- endings -----

  function LeaseOver(tick: nat): Reason { Reason(LEASE_EXPIRED, "lease elapsed at tick " + Decimal.Printed(tick)) }

  function CancelledFor(reason: string): Reason
  {
    Reason(ATTEMPT_CANCELLED, if reason == "" then "cancelled" else reason)
  }

  /** A release gives no reason. */
  function NoReason(): Reason { Reason(NO_REASON, "") }

  function MemberNow(member: Id, l: Lifecycle): string { "member " + member + " is " + LifecycleName(l) }

  function PathNow(s: PathState): string
  {
    "path is " + (match s
                  case Operational => "OPERATIONAL"
                  case DegradedPath => "DEGRADED"
                  case Down => "DOWN"
                  case PathMaintenance => "MAINTENANCE"
                  case UnknownPath => "UNKNOWN")
  }

  // ----- recovery -----

  function LostPrepare(): Reason { Reason(COMMIT_NOT_DURABLE, "controller restarted before the commit record") }

  function NoCommit(): Reason { Reason(COMMIT_NOT_DURABLE, "recovered prepare without a durable commit") }

  function Unconfirmed(): Reason
  {
    Reason(COMMIT_AMBIGUOUS, "durable commit without a recorded acknowledgement; caller must reconcile")
  }
}
