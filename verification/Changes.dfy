/** What specification and contract changes and revalidation on demand come to, in tables and grants, said by lookups alone
    (src/authority.cpp, src/model.cpp, src/contract.cpp). */
module Changes {
  import opened Tables
  import opened Model
  import opened Cluster
  import opened Eligibility
  import opened Engine
  import opened Safety
  import opened Invariant
  import opened Runs
  import opened Edits
  import opened Fates

  // ----- what changes do to grants -----

  predicate AboutMembersOrPaths(op: SpecOp)
  {
    match op
    case UpsertMember(_, _) => true
    case RemoveMember(_) => true
    case SetLifecycle(_, _) => true
    case UpsertPath(_, _) => true
    case RemovePath(_) => true
    case SetPathState(_, _) => true
    case _ => false
  }

  /** Grant by grant, whatever is usable is judged by these tables. */
  ghost predicate AllJudged(s: Store, before: Table<Grant>, after: Table<Grant>)
  {
    |after| == |before| && forall i :: 0 <= i < |before| ==> Fate(s, before[i], after[i])
  }

  /** Nothing but the specification and the grants is different. */
  predicate RestKept(c: Core, d: Core)
  {
    && d.options == c.options && d.grantSerial == c.grantSerial && d.leaseSerial == c.leaseSerial
    && d.store.tick == c.store.tick && d.store.contracts == c.store.contracts && d.store.attempts == c.store.attempts
  }

  /** What a specification change comes to. Acceptable, it is applied, and then exactly those usable grants of which
      something they stand on is gone are revoked, for the first thing that is, and the others issued again, degraded if
      their members are not as they should be; what is not about members or paths leaves the grants alone. Else it is
      refused with the code for it. Its record is written either way. */
  lemma MutationExact(c: Core, op: SpecOp, care: Care)
    requires hide Reachable; Reachable(c, care)
    ensures var (d, st) := Mutate(c, op);
            && RestKept(c, d)
            && |d.log| > |c.log| && d.log[..|c.log|] == c.log && d.log[|c.log|].body == SpecChange(op)
            && (st == Ok <==> Acceptable(c.store.spec, op) && c.store.spec.generation != U64_MAX)
            && (if st == Ok then
                  Edited(c.store.spec, d.store.spec, c.store.tick, op)
                  && d.store.spec.generation == c.store.spec.generation + 1
                  && (if AboutMembersOrPaths(op) then AllJudged(d.store, c.store.grants, d.store.grants)
                      else d.store.grants == c.store.grants)
                else
                  d.store.grants == c.store.grants
                  && (if Acceptable(c.store.spec, op)
                      then st == CapacityExhaustedStatus && Edited(c.store.spec, d.store.spec, c.store.tick, op)
                           && d.store.spec.generation == U64_MAX
                      else d.store.spec == c.store.spec && RefusedWith(c.store.spec, op, st)))
  {
    hide Reachable, ApplySpec, Acceptable, RefusedWith, Edited, Fate, Good;
    ReachableSpec(c, care);
    SpecChangeExact(c.store.spec, c.store.tick, op);
    var e := ApplySpec(c.store.spec, c.store.tick, op);
    var c2 := Append(c, SpecChange(op)).(store := c.store.(spec := e.0));
    if e.1 == Ok && op.Revalidates() {
      RevalidateFates(c2, 0);
      LogGrows(c2, 0);
      var d := RevalidateFrom(c2, 0);
      forall i | 0 <= i < |c.store.grants| ensures Fate(d.store, c.store.grants[i], d.store.grants[i]) {
        FateAlike(c2.store, d.store, c.store.grants[i], d.store.grants[i]);
      }
    }
  }

  lemma ReachableSpec(c: Core, care: Care)
    requires hide Reachable; Reachable(c, care)
    ensures SpecWell(c.store.spec) && ContractsWell(c.store.contracts)
  {
    hide Reachable;
    ReachableGood(c, care);
  }

  lemma {:induction false} LogGrows(c: Core, i: nat)
    ensures var r := RevalidateFrom(c, i); |r.log| >= |c.log| && r.log[..|c.log|] == c.log
    decreases |c.store.grants| - i
  {
    hide Standing, FallWords, Reissued;
    if i < |c.store.grants| {
      LogGrows(if IsLive(c.store.grants[i].val.state) then Revalidate(c, i) else c, i + 1);
    }
  }

  /** The same on demand. */
  lemma RevalidationExact(c: Core)
    ensures var d := RevalidateFrom(c, 0);
            RestKept(c, d) && d.store.spec == c.store.spec && AllJudged(c.store, c.store.grants, d.store.grants)
  {
    hide Fate;
    RevalidateFates(c, 0);
  }

  /** And of contracts: no grant is judged, and a set of contracts that is refused stays as it was. */
  lemma ContractMutationExact(c: Core, op: ContractOp, care: Care)
    requires hide Reachable; Reachable(c, care)
    ensures var (d, st) := MutateContract(c, op);
            && d.options == c.options && d.grantSerial == c.grantSerial && d.leaseSerial == c.leaseSerial
            && d.store == c.store.(contracts := d.store.contracts)
            && |d.log| == |c.log| + 1 && d.log[..|c.log|] == c.log && d.log[|c.log|].body == ContractChange(op)
            && (st == Ok <==> AcceptableContract(c.store.contracts, op))
            && (if st == Ok then
                  Changed(c.store.contracts, d.store.contracts, op.id, if op.UpsertContract? then Some(op.contract) else None)
                else d.store.contracts == c.store.contracts && ContractRefusedWith(c.store.contracts, op, st))
  {
    hide Reachable, ApplyContract, AcceptableContract, ContractRefusedWith, Changed, ContractStatus, Sorted;
    ReachableSpec(c, care);
    ContractChangeExact(c.store.contracts, op);
  }
}
