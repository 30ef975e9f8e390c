/** Where the controller's laws stop: what its code leaves to its callers, each with the exact
    condition under which the law holds. */
module Limits {
  import opened Tables
  import opened Model
  import opened Cluster
  import opened Accounting
  import opened Eligibility
  import opened Engine
  import opened Replay
  import opened Safety
  import opened Durability
  import opened Invariant
  import opened Fates
  import opened Recovery
  import opened Submission
  import opened Operations
  import opened Runs
  import opened Ledger
  import opened Terms
  import W = Wording

  // ----- records of refused mutations -----

  /** The whole log fails to replay once one record does. */
  lemma PoisonedForGood(log: Log, e: Entry, tail: Log)
    requires Raw(log).Success? && Apply(Raw(log).value, e).Failure?
    ensures Raw(log + [e] + tail).Failure?
  {
    RawAppend(log, e);
    var whole := log + [e] + tail;
    assert whole[..|log| + 1] == log + [e];
    RawFails(whole, |log| + 1);
  }

  lemma RecordFails(c: Core, b: Body, fit: bool)
    requires Linked(c, fit) && !b.Snapshot?
    requires Effect(c.store, b, c.store.tick, c.store.tick).Failure?
    ensures Raw(Append(c, b).log).Failure?
  {
    var r := Raw(c.log).value;
    EffectOnAbs(r.store, c.store, b, c.store.tick, Latest(r.tick, c.store.tick), c.store.tick);
    RawAppend(c.log, Entry(NextSequence(c.log), c.store.tick, b));
  }

  /** Mutators journal before they validate: the log can be replayed after a mutation exactly when the
      mutation was accepted. A refused one leaves the live state as it was and the log useless. */
  lemma MutationReplays(c: Core, op: SpecOp)
    requires Reachable(c, Loose)
    ensures Raw(Mutate(c, op).0.log).Success? <==> ApplySpec(c.store.spec, c.store.tick, op).1 == Ok
    ensures OpStatus(c.store.spec, op) != Ok ==> Mutate(c, op).0.store == c.store
  {
    hide Good, ApplySpec, RevalidateFrom, Reachable;
    ReachableGood(c, Loose);
    if ApplySpec(c.store.spec, c.store.tick, op).1 == Ok {
      MutateGood(c, op, Loose);
      GoodReplays(Mutate(c, op).0);
    } else {
      GoodTable(c, Loose);
      RecordFails(c, SpecChange(op), false);
    }
    RefusedMutation(c.store.spec, c.store.tick, op);
  }

  lemma RefusedMutation(s: Spec, tick: nat, op: SpecOp)
    ensures OpStatus(s, op) != Ok ==> ApplySpec(s, tick, op).0 == s && ApplySpec(s, tick, op).1 != Ok
  {}

  lemma GoodReplays(c: Core)
    requires Good(c, Loose)
    ensures Raw(c.log).Success?
  {}

  lemma ContractReplays(c: Core, op: ContractOp)
    requires Reachable(c, Loose)
    ensures Raw(MutateContract(c, op).0.log).Success? <==> ApplyContract(c.store.contracts, op).1 == Ok
  {
    hide Good, ApplyContract, Reachable;
    ReachableGood(c, Loose);
    if ApplyContract(c.store.contracts, op).1 == Ok {
      ContractGood(c, op, Loose);
      GoodReplays(MutateContract(c, op).0);
    } else {
      GoodTable(c, Loose);
      RecordFails(c, ContractChange(op), false);
    }
  }

  /** Every contract that disables a service is refused, and so makes the log useless. */
  lemma DisablingPoisons(c: Core, id: Id, k: Contract)
    requires Reachable(c, Loose) && !k.enabled
    ensures Raw(MutateContract(c, UpsertContract(id, k)).0.log).Failure?
  {
    hide Reachable, Raw, MutateContract, ApplyContract;
    DisabledRefused(c.store.contracts, id, k);
    ContractReplays(c, UpsertContract(id, k));
  }

  lemma DisabledRefused(t: Table<Contract>, id: Id, k: Contract)
    requires !k.enabled
    ensures ApplyContract(t, UpsertContract(id, k)).1 != Ok
  {}

  // ----- a full grant table -----

  /** The commit record is written before the table's bound is looked at: once a request is
      authorised, the log can be replayed afterwards exactly when the table had room. */
  lemma CommitReplays(c: Core, r: Request)
    requires Reachable(c, Loose) && Mints(c, Submission(r)) && c.grantSerial < U64_MAX && c.leaseSerial < U64_MAX
    ensures Raw(Submit(c, r).0.log).Success? <==> |c.store.grants| < MAX_GRANTS
  {
    hide Good, Admit, Evaluate, Reachable;
    ReachableGood(c, Loose);
    var k := Get(c.store.contracts, r.contract).value;
    if |c.store.grants| < MAX_GRANTS {
      AdmitGood(c, r, k, Loose);
      GoodReplays(Submit(c, r).0);
    } else {
      FullTable(c, r, k);
    }
  }

  lemma FullTable(c: Core, r: Request, k: Contract)
    requires Good(c, Loose) && Authorised(c, r, k) && LeaseTicks(c, r) <= c.options.maxLease
    requires c.grantSerial < U64_MAX && c.leaseSerial < U64_MAX && |c.store.grants| >= MAX_GRANTS
    ensures Raw(Admit(c, r, k).0.log).Failure?
  {
    hide Good, Evaluate, Draft, Commit, Linked, Authorised, Admit, GrantOutcome, Has, Bumped, GrantName, LeaseName;
    AdmitIs(c, r, k);
    FreshFor(c, r, Loose);
    GoodTable(c, Loose);
    BumpedIs(c);
    LinkedAlike(c, Bumped(c), false);
    OutcomeOf(c, r, k);
    var d := Draft(Bumped(c), r, k, Evaluate(ViewOf(c), r, k),
                   GrantOutcome(Evaluate(ViewOf(c), r, k).degradations, r, k).value,
                   LeaseName(Bumped(c).leaseSerial), LeaseTicks(c, r));
    CommitPoisons(Bumped(c), GrantName(c.grantSerial + 1), d, r);
  }

  lemma BumpedIs(c: Core)
    requires c.grantSerial < U64_MAX && c.leaseSerial < U64_MAX
    ensures Bumped(c) == c.(grantSerial := c.grantSerial + 1, leaseSerial := c.leaseSerial + 1)
  {}

  lemma OutcomeOf(c: Core, r: Request, k: Contract)
    requires Authorised(c, r, k)
    ensures Evaluate(ViewOf(c), r, k).Pass? && GrantOutcome(Evaluate(ViewOf(c), r, k).degradations, r, k).Some?
  {}

  lemma CommitPoisons(c: Core, id: Id, draft: Grant, r: Request)
    requires Linked(c, false) && !Has(c.store.grants, id) && |c.store.grants| >= MAX_GRANTS
    ensures Raw(Commit(c, id, draft, r).0.log).Failure?
  {
    hide Linked;
    var b := GrantRecord(PreparedRecord, id, draft, Prepared);
    RecordFails(c, b, false);
    var log := Commit(c, id, draft, r).0.log;
    assert log[..|c.log| + 1] == Append(c, b).log;
    RawFails(log, |c.log| + 1);
  }

  // ----- shrinking capacity -----

  /** Does a grant keep its capacity through revalidation? Quarantined grants are never judged. */
  predicate Survives(s: Store, g: Grant)
  {
    g.state == Ambiguous || (IsLive(g.state) && Stands(s, g))
  }

  function Surviving(s: Store, t: Table<Grant>, k: Key): nat
  {
    if t == [] then 0 else
      var g := t[|t| - 1].val;
      Surviving(s, t[..|t| - 1], k) + (if Survives(s, g) then Weight(k, g) else 0)
  }

  lemma {:induction false} RevalidatedTotal(s: Store, t: Table<Grant>, u: Table<Grant>, k: Key)
    requires |t| == |u| && forall i :: 0 <= i < |t| ==> Fate(s, t[i], u[i]) && t[i].val.state != Prepared
    ensures Total(u, k) == Surviving(s, t, k)
  {
    hide Stands, Judged;
    if t != [] {
      var n := |t| - 1;
      assert Fate(s, t[n], u[n]);
      if IsLive(t[n].val.state) { JudgedKeeps(s, t[n], u[n]); }
      RevalidatedTotal(s, t[..n], u[..n], k);
    }
  }

  /** What is held after a mutation is exactly what the surviving grants held before it. */
  lemma MutationHolds(c: Core, op: SpecOp, k: Key)
    requires hide Reachable;
             Reachable(c, Loose) && op.Revalidates() && ApplySpec(c.store.spec, c.store.tick, op).1 == Ok
    ensures Total(Mutate(c, op).0.store.grants, k) == Surviving(Mutated(c.store, op), c.store.grants, k)
  {
    hide Good, Reachable, Mutate, Fate, ApplySpec;
    ReachableGood(c, Loose);
    MutateGood(c, op, Loose);
    forall i | 0 <= i < |c.store.grants| ensures c.store.grants[i].val.state != Prepared { GoodRow(c, i, Loose); }
    RevalidatedTotal(Mutated(c.store, op), c.store.grants, Mutate(c, op).0.store.grants, k);
  }

  /** Each grant is compared with its path's new capacity alone, and exclusivity is not looked at: in the new
      specification a path is over-committed, or exclusive with two holders, exactly when the survivors together exceed
      what it now has. */
  lemma MutationFitsIff(c: Core, op: SpecOp, id: Id)
    requires hide Reachable;
             Reachable(c, Loose) && op.Revalidates() && ApplySpec(c.store.spec, c.store.tick, op).1 == Ok
    requires Has(Mutated(c.store, op).spec.paths, id)
    ensures var s, d := Mutated(c.store, op), Mutate(c, op).0;
            var p := Get(s.spec.paths, id).value;
            && Get(d.store.spec.paths, id) == Some(p)
            && (FitPath(d.store.grants, id, p)
                <==> Surviving(s, c.store.grants, OnPath(id)) <= p.capacity
                     && (p.exclusive ==> Surviving(s, c.store.grants, Slot(id)) <= 1))
  {
    hide Good, Reachable, Mutate, ApplySpec, LowerBound, Surviving, Total;
    MutationHolds(c, op, OnPath(id));
    MutationHolds(c, op, Slot(id));
    MutationSpec(c, op);
  }

  /** Nor are the totals of resources: one is over-drawn exactly when the survivors together draw more. */
  lemma MutationSuppliesIff(c: Core, op: SpecOp, member: Id, id: Id)
    requires hide Reachable;
             Reachable(c, Loose) && op.Revalidates() && ApplySpec(c.store.spec, c.store.tick, op).1 == Ok
    requires Has(Mutated(c.store, op).spec.members, member) && id != []
    requires Owns(Get(Mutated(c.store, op).spec.members, member).value, id)
    ensures var s, d := Mutated(c.store, op), Mutate(c, op).0;
            var m := Get(s.spec.members, member).value;
            && Get(d.store.spec.members, member) == Some(m)
            && (FitResource(d.store.grants, m, id)
                <==> Surviving(s, c.store.grants, OnResource(id)) <= FindResource(m.resources, id).value.total)
  {
    hide Good, Reachable, Mutate, ApplySpec, LowerBound, Surviving, Total, FindResource;
    MutationHolds(c, op, OnResource(id));
    MutationSpec(c, op);
  }

  lemma MutationSpec(c: Core, op: SpecOp)
    requires hide Reachable; Reachable(c, Loose) && ApplySpec(c.store.spec, c.store.tick, op).1 == Ok
    ensures Mutate(c, op).1 == Ok && Mutate(c, op).0.store.spec == Mutated(c.store, op).spec
  {
    hide Good, Reachable, ApplySpec, RevalidateFrom;
    ReachableGood(c, Loose);
    MutateGood(c, op, Loose);
  }

  // ----- cancelling with somebody else's grant -----

  /** A cancel that names both an attempt and a grant marks the one and ends the other, without asking
      whether they belong together: the cancelled attempt's own grant goes on holding capacity exactly when
      it held capacity and was not the one named. */
  lemma CancelLeavesHolding(c: Core, r: CancelRequest)
    requires hide Reachable; Reachable(c, Loose) && CancelShape(r) == Ok
    requires Has(c.store.attempts, r.attempt) && r.attempt != [] && !Get(c.store.attempts, r.attempt).value.cancelled
    requires r.grant != [] && Has(c.store.grants, r.grant)
    ensures var d := Cancel(c, r).0;
            var own := Get(c.store.attempts, r.attempt).value.grant;
            && Has(c.store.grants, own) && Has(d.store.grants, own)
            && Has(d.store.attempts, r.attempt) && Get(d.store.attempts, r.attempt).value.cancelled
            && (HoldsCapacity(Get(d.store.grants, own).value.state)
                <==> own != r.grant && HoldsCapacity(Get(c.store.grants, own).value.state))
  {
    hide CancelShape, Linked, Good, Cancel, Terminate, LowerBound, Reachable;
    ReachableGood(c, Loose);
    AttemptHasGrant(c, r.attempt, Loose);
    GoodTable(c, Loose);
    SortedAttempts(c, false);
    var own := Get(c.store.attempts, r.attempt).value.grant;
    var i := LowerBound(c.store.grants, r.grant);
    var g := c.store.grants[i].val;
    var c1 := if HoldsCapacity(g.state) then Terminate(c, i, g, Revoked, W.CancelledFor(r.reason), true) else c;
    MarkedIs(c, c1, r);
    if HoldsCapacity(g.state) { RevokedOne(c, r.grant, own, W.CancelledFor(r.reason)); }
  }

  lemma RevokedOne(c: Core, id: Id, other: Id, why: Reason)
    requires Has(c.store.grants, id) && Has(c.store.grants, other)
    ensures var i := LowerBound(c.store.grants, id);
            var t := Terminate(c, i, c.store.grants[i].val, Revoked, why, true).store.grants;
            && Has(t, other)
            && (HoldsCapacity(Get(t, other).value.state)
                <==> other != id && HoldsCapacity(Get(c.store.grants, other).value.state))
  {
    hide AddReason;
    var i := LowerBound(c.store.grants, id);
    SameIds(c.store.grants, Terminate(c, i, c.store.grants[i].val, Revoked, why, true).store.grants, other);
  }

  lemma MarkedIs(c: Core, c1: Core, r: CancelRequest)
    requires CancelShape(r) == Ok && Has(c.store.attempts, r.attempt) && r.attempt != []
    requires !Get(c.store.attempts, r.attempt).value.cancelled && r.grant != [] && Has(c.store.grants, r.grant)
    requires Sorted(c.store.attempts)
    requires var i := LowerBound(c.store.grants, r.grant);
             var g := c.store.grants[i].val;
             c1 == if HoldsCapacity(g.state) then Terminate(c, i, g, Revoked, W.CancelledFor(r.reason), true) else c
    ensures var d := Cancel(c, r).0;
            && d.store.grants == c1.store.grants
            && Has(d.store.attempts, r.attempt) && Get(d.store.attempts, r.attempt).value.cancelled
  {
    hide CancelShape, AddReason, LowerBound;
    var a := Get(c1.store.attempts, r.attempt).value.(cancelled := true, terminalTick := c1.store.tick, reason := ATTEMPT_CANCELLED);
    GetPut(c1.store.attempts, r.attempt, a, r.attempt);
    PutFound(c1.store.attempts, r.attempt, a);
  }

  // ----- renewal elsewhere -----

  /** After a renewal its grant's own path and resource hold what the others hold there and the units on offer
      where the request asked. */
  lemma RenewalTotal(c: Core, r: Request, key: Key)
    requires hide Reachable; Reachable(c, Loose) && Gate(c, r).None? && r.renewal
    requires Authorised(c, r, Get(c.store.contracts, r.contract).value) && Has(c.store.grants, r.renewalOf)
    requires var b := Get(c.store.grants, r.renewalOf).value.binding; key == OnPath(b.path) || key == OnResource(b.resource)
    ensures Total(Submit(c, r).0.store.grants, key)
            == Held(c.store.grants, key, Some(r.renewalOf)) + TrueOffer(c, r, Get(c.store.contracts, r.contract).value)
  {
    hide Reachable, Good, Gate, Authorised, Submit, TrueOffer, LeasedFor, Put, LowerBound, Total;
    GateFresh(c, r);
    RenewalTerms(c, r, Loose);
    ReachableGood(c, Loose);
    var i := LowerBound(c.store.grants, r.renewalOf);
    var k := Get(c.store.contracts, r.contract).value;
    GoodRow(c, i, Loose);
    GoodTable(c, Loose);
    AuthorisedTarget(c, r, k);
    var u := Submit(c, r).0.store.grants[i].val;
    PutSame(c.store.grants, i, u);
    TotalPut(c.store.grants, r.renewalOf, u, key);
    HeldSkip(c.store.grants, key, r.renewalOf);
  }

  lemma AuthorisedTarget(c: Core, r: Request, k: Contract)
    requires Authorised(c, r, k) && r.renewal
    ensures Has(c.store.grants, r.renewalOf) && !IsTerminal(Get(c.store.grants, r.renewalOf).value.state)
  {
    hide Evaluate;
    RenewalTarget(ViewOf(c), r, k);
  }

  /** Renewal judges the path and the resource the request names and keeps the grant on its own. Its own path and
      its own resource stay within what they have exactly when what the others hold there leaves room for the
      units on offer where the request asked. */
  lemma RenewalFitsIff(c: Core, r: Request)
    requires hide Reachable; Reachable(c, Loose) && Gate(c, r).None? && r.renewal
    requires Authorised(c, r, Get(c.store.contracts, r.contract).value) && Has(c.store.grants, r.renewalOf)
    ensures var b := Get(c.store.grants, r.renewalOf).value.binding;
            var n := TrueOffer(c, r, Get(c.store.contracts, r.contract).value);
            var t := Submit(c, r).0.store.grants;
            && (match Get(c.store.spec.paths, b.path)
                case None => true
                case Some(p) =>
                  Total(t, OnPath(b.path)) <= p.capacity
                  <==> Held(c.store.grants, OnPath(b.path), Some(r.renewalOf)) + n <= p.capacity)
            && (match Get(c.store.spec.members, b.source)
                case None => true
                case Some(m) =>
                  match FindResource(m.resources, b.resource)
                  case None => true
                  case Some(x) =>
                    Total(t, OnResource(b.resource)) <= x.total
                    <==> Held(c.store.grants, OnResource(b.resource), Some(r.renewalOf)) + n <= x.total)
  {
    hide Reachable, Gate, Authorised, Submit, TrueOffer, LowerBound, Total;
    var b := Get(c.store.grants, r.renewalOf).value.binding;
    RenewalTotal(c, r, OnPath(b.path));
    RenewalTotal(c, r, OnResource(b.resource));
  }
}
