/** `AuthorityCore` as an object (src/authority.cpp): the methods update its fields in place, and each
    is proved to do what the engine's function on whole states says. */
module Authority {
  import opened Tables
  import opened Model
  import opened Cluster
  import opened Accounting
  import opened Eligibility
  import opened Engine
  import opened Edits
  import opened Evaluation
  import opened Fates
  import opened Requests
  import opened Invariant
  import opened Recovery
  import opened Runs
  import opened Submission
  import Decimal
  import W = Wording

  class AuthorityCore {
    const options: Options
    /** The digest of the canonical encoding of a state: what it is does not matter here. */
    const digestOf: (Store, nat, nat) -> Digest

    var spec: Spec
    var tick: nat
    var contracts: Table<Contract>
    var grants: Table<Grant>
    var attempts: Table<Attempt>
    var grantSerial: nat
    var leaseSerial: nat
    var log: Log
    var digestValid: bool
    var cachedDigest: Digest

    function State(): Core
      reads this
    {
      Core(options, Store(spec, tick, contracts, grants, attempts), grantSerial, leaseSerial, log)
    }

    /** A valid cache holds the digest of the present state. */
    predicate Coherent()
      reads this
    {
      digestValid ==> cachedDigest == digestOf(State().store, grantSerial, leaseSerial)
    }

    /** Units are 64-bit numbers. */
    predicate Valid()
      reads this
    {
      Within64(grants) && forall i :: 0 <= i < |contracts| ==> contracts[i].val.minUnits <= U64_MAX
    }

    /** `initialize`, on an empty log. */
    constructor Initialize(o: Options, cluster: Id, incarnation: seq<byte>, policy: nat, now: nat,
                           digest: (Store, nat, nat) -> Digest)
      ensures State() == Engine.Initialize(o, cluster, incarnation, policy, now)
      ensures digestOf == digest && Valid() && Coherent() && !digestValid
    {
      options, digestOf := o, digest;
      spec := EMPTY_SPEC.(id := cluster, incarnation := incarnation);
      tick, contracts, grants, attempts := now, [], [], [];
      grantSerial, leaseSerial, log := 0, 0, [];
      digestValid, cachedDigest := false, ZeroDigest();
      new;
      WriteRecord(SetController(cluster, Coordinate(0, 0, policy, incarnation)));
      spec := spec.(policy := policy);
      spec := BeginEpoch(spec, incarnation, policy).0;
      WriteRecord(EpochBegin(cluster, Here(spec)));
    }

    /** `journal_entry`. */
    method WriteRecord(b: Body)
      modifies `log
      ensures State() == Append(old(State()), b)
    {
      log := log + [Entry(NextSequence(log), tick, b)];
    }

    /** `upsert_grant`: replace the row in place, or insert it where it belongs. */
    method UpsertGrant(id: Id, g: Grant) returns (st: StatusCode)
      modifies `grants, `digestValid
      ensures st == Room(old(grants), id, MAX_GRANTS)
      ensures grants == if st == Ok then Put(old(grants), id, g) else old(grants)
      ensures digestValid == (old(digestValid) && st != Ok)
    {
      var slot := LowerBound(grants, id);
      if slot < |grants| && grants[slot].id == id {
        grants, digestValid := grants[slot := Row(id, g)], false;
        return Ok;
      }
      if |grants| >= MAX_GRANTS { return CapacityExhaustedStatus; }
      grants, digestValid := grants[..slot] + [Row(id, g)] + grants[slot..], false;
      return Ok;
    }

    /** `upsert_attempt`. */
    method UpsertAttempt(id: Id, a: Attempt) returns (st: StatusCode)
      modifies `attempts, `digestValid
      ensures st == Room(old(attempts), id, MAX_ATTEMPTS)
      ensures State() == PutAttempt(old(State()), id, a)
      ensures digestValid == (old(digestValid) && st != Ok)
    {
      var slot := LowerBound(attempts, id);
      if slot < |attempts| && attempts[slot].id == id {
        attempts, digestValid := attempts[slot := Row(id, a)], false;
        return Ok;
      }
      if |attempts| >= MAX_ATTEMPTS { return CapacityExhaustedStatus; }
      attempts, digestValid := attempts[..slot] + [Row(id, a)] + attempts[slot..], false;
      return Ok;
    }

    // ----- ending grants -----

    method AddReasonOnce(rs: seq<Reason>, why: Reason) returns (r: seq<Reason>)
      ensures r == AddReason(rs, why)
    {
      if why.code == NO_REASON { return rs; }
      for i := 0 to |rs|
        invariant forall j :: 0 <= j < i ==> rs[j].code != why.code
      {
        if rs[i].code == why.code { return rs; }
      }
      if |rs| < MAX_REASONS { return rs + [why]; }
      return rs;
    }

    /** `terminate_grant`: the record first, then the row. */
    method TerminateGrant(i: nat, state: GrantState, reason: Reason, release: bool)
      requires i < |grants|
      modifies `grants, `log, `digestValid
      ensures State() == Terminate(old(State()), i, old(grants[i].val), state, reason, release)
      ensures !digestValid && |grants| == |old(grants)| && (old(Valid()) ==> Valid())
    {
      var updated := grants[i].val.(state := state);
      if release { updated := updated.(reserved := false); }
      var reasons := AddReasonOnce(updated.reductions, reason);
      updated := updated.(reductions := reasons);
      var sequence := NextSequence(log);
      WriteRecord(GrantRecord(TerminalRecord, grants[i].id, updated, state));
      grants := grants[i := Row(grants[i].id, updated.(releaseSeq := sequence))];
      digestValid := false;
    }

    /** `fence_all`. */
    method FenceAll(reason: Reason)
      modifies `grants, `log, `digestValid
      ensures State() == FenceFrom(old(State()), 0, reason)
      ensures !digestValid && (old(Valid()) ==> Valid())
    {
      var i := 0;
      while i < |grants|
        invariant i <= |grants| && (old(Valid()) ==> Valid())
        invariant FenceFrom(State(), i, reason) == FenceFrom(old(State()), 0, reason)
        decreases |grants| - i
      {
        if HoldsCapacity(grants[i].val.state) { TerminateGrant(i, Fenced, reason, true); }
        i := i + 1;
      }
      digestValid := false;
    }

    /** One elapsed lease: the grant ends, and its attempt record says why. */
    method ExpireOne(i: nat) returns (put: StatusCode)
      requires i < |grants|
      modifies `grants, `attempts, `log, `digestValid
      ensures State() == Expire(old(State()), i) && !digestValid && |grants| == |old(grants)|
      ensures put == Room(old(attempts), old(grants[i].val.binding.attempt), MAX_ATTEMPTS)
      ensures old(Valid()) ==> Valid()
    {
      hide Terminate, Room, Put, NextSequence;
      var row := grants[i];
      TerminateGrant(i, Expired, W.LeaseOver(tick), true);
      var a := ExpiredAttempt(State(), row);
      WriteRecord(AttemptTerminal(row.val.binding.attempt, a));
      put := UpsertAttempt(row.val.binding.attempt, a);
    }

    /** `expire_leases`: stops at the first attempt record that finds no room. */
    method ExpireLeases() returns (st: StatusCode)
      modifies `grants, `attempts, `log, `digestValid
      ensures State() == ExpireFrom(old(State()), 0) && st == ExpireStatus(old(State()), 0)
      ensures old(Valid()) ==> Valid()
      ensures old(Coherent()) ==> Coherent()
    {
      hide Expire, Room;
      var i := 0;
      while i < |grants|
        invariant i <= |grants| && (old(Valid()) ==> Valid()) && (old(Coherent()) ==> Coherent())
        invariant ExpireFrom(State(), i) == ExpireFrom(old(State()), 0)
        invariant ExpireStatus(State(), i) == ExpireStatus(old(State()), 0)
        decreases |grants| - i
      {
        if IsLive(grants[i].val.state) && ExpiredAt(grants[i].val, tick) {
          var put := ExpireOne(i);
          if put != Ok { return put; }
        }
        i := i + 1;
      }
      digestValid := false;
      return Ok;
    }

    // ----- revalidation -----

    method SoftenGrant(g: Grant, ds: seq<Reason>) returns (r: Grant)
      ensures r == Soften(g, ds)
    {
      r := g;
      for i := 0 to |ds|
        invariant Soften(r, ds[i..]) == Soften(g, ds)
      {
        assert ds[i..][1..] == ds[i + 1..];
        var reasons := AddReasonOnce(r.reductions, ds[i]);
        r := r.(reductions := reasons, degraded := true, outcome := Degraded);
      }
    }

    /** `revalidate_grant`, re-issuing what still stands. */
    method RevalidateGrant(i: nat)
      requires i < |grants|
      modifies `grants, `log, `digestValid
      ensures State() == Revalidate(old(State()), i)
      ensures Judged(old(State().store), old(grants[i]), grants[i])
      ensures !digestValid && |grants| == |old(grants)| && (old(Valid()) ==> Valid())
    {
      hide Judged;
      RevalidateFate(State(), i);
      var g := grants[i].val;
      var c := Standing(State().store, g);
      if c.Fail? {
        TerminateGrant(i, Revoked, Reason(c.reason, FallWords(State().store, g)), true);
        return;
      }
      var updated := SoftenGrant(g, c.degradations);
      updated := updated.(at := Here(spec), commit := CommitDone, state := Committed, reserved := true);
      var sequence := NextSequence(log);
      WriteRecord(GrantRecord(CommittedRecord, grants[i].id, updated, Committed));
      grants := grants[i := Row(grants[i].id, updated.(commitSeq := sequence))];
      digestValid := false;
    }

    /** `revalidate_live_grants`. */
    method RevalidateLiveGrants()
      modifies `grants, `log, `digestValid
      ensures State() == RevalidateFrom(old(State()), 0)
      ensures |grants| == |old(grants)| && forall j :: 0 <= j < |grants| ==> Fate(old(State().store), old(grants[j]), grants[j])
      ensures !old(digestValid) ==> !digestValid
      ensures old(Valid()) ==> Valid()
    {
      hide Fate;
      RevalidateFates(State(), 0);
      var i := 0;
      while i < |grants|
        invariant i <= |grants| && (old(Valid()) ==> Valid()) && (!old(digestValid) ==> !digestValid)
        invariant RevalidateFrom(State(), i) == RevalidateFrom(old(State()), 0)
        decreases |grants| - i
      {
        if IsLive(grants[i].val.state) { RevalidateGrant(i); }
        i := i + 1;
      }
    }

    // ----- specification, contracts, policy, clock -----

    /** Every specification mutator. A valid cache stays right exactly when the call succeeds or the digest is the one
        it was; it is not only when the generation is saturated, where the edit stays although the call fails. */
    method MutateSpec(op: SpecOp) returns (st: StatusCode)
      modifies this
      ensures State() == Mutate(old(State()), op).0 && st == Mutate(old(State()), op).1
      ensures SpecSorted(old(spec)) ==> SpecChangeIs(old(spec), tick, op, spec, st)
      ensures old(Valid()) ==> Valid()
      ensures st == Ok ==> !digestValid
      ensures st != Ok ==> digestValid == old(digestValid) && cachedDigest == old(cachedDigest)
      ensures old(Coherent()) ==>
                (Coherent() <==> st == Ok || !digestValid
                                 || digestOf(State().store, grantSerial, leaseSerial) == old(digestOf(State().store, grantSerial, leaseSerial)))
      ensures st != Ok && State().store != old(State()).store ==> old(spec.generation) == U64_MAX
    {
      hide ApplySpec, RevalidateFrom, SpecSorted, SpecChangeIs, Fate;
      if SpecSorted(spec) { SpecChangeExact(spec, tick, op); }
      RefusedOnlyWhenFull(spec, tick, op);
      WriteRecord(SpecChange(op));
      var e := ApplySpec(spec, tick, op);
      spec := e.0;
      if e.1 != Ok { return e.1; }
      digestValid := false;
      if op.Revalidates() { RevalidateLiveGrants(); }
      return Ok;
    }

    method MutateContracts(op: ContractOp) returns (st: StatusCode)
      modifies this
      ensures State() == MutateContract(old(State()), op).0 && st == MutateContract(old(State()), op).1
      ensures old(Coherent()) ==> Coherent()
    {
      WriteRecord(ContractChange(op));
      var e := ApplyContract(contracts, op);
      contracts := e.0;
      if e.1 != Ok { return e.1; }
      digestValid := false;
      return Ok;
    }

    method SetPolicyGeneration(policy: nat) returns (st: StatusCode)
      modifies this
      ensures State() == SetPolicy(old(State()), policy).0 && st == SetPolicy(old(State()), policy).1
      ensures old(Coherent()) ==> Coherent()
    {
      if policy < spec.policy { return StateMismatch; }
      WriteRecord(PolicySet(policy));
      spec := spec.(policy := policy);
      digestValid := false;
      return Ok;
    }

    method SetTick(now: nat) returns (st: StatusCode)
      modifies this
      ensures State() == AdvanceTick(old(State()), now).0 && st == AdvanceTick(old(State()), now).1
      ensures old(Coherent()) ==> Coherent()
    {
      if now < tick { return StateMismatch; }
      if now == tick { return Ok; }
      tick := now;
      digestValid := false;
      return Ok;
    }

    // ----- submit -----

    /** `commit_grant`. */
    method CommitGrant(id: Id, draft: Grant, r: Request) returns (d: Decision)
      modifies this
      ensures State() == Commit(old(State()), id, draft, r).0 && d == Commit(old(State()), id, draft, r).1
      ensures old(Valid()) && draft.units <= U64_MAX ==> Valid()
      ensures cachedDigest == old(cachedDigest)
      ensures digestValid == (old(digestValid) && Room(old(grants), id, MAX_GRANTS) != Ok)
    {
      hide Put, Room, Codes, FirstReason, NextSequence, Within64;
      ghost var before := State();
      var prepareSeq := NextSequence(log);
      WriteRecord(GrantRecord(PreparedRecord, id, draft, Prepared));
      var g := draft.(prepareSeq := prepareSeq, state := Committed, commit := CommitDone);
      var commitSeq := NextSequence(log);
      WriteRecord(GrantRecord(CommittedRecord, id, g, Committed));
      var st := UpsertGrant(id, g.(commitSeq := commitSeq, reserved := true));
      if st != Ok {
        assert State().store == before.store;
        return Answer(Refused, LIMIT_EXCEEDED);
      }
      PutKeeps64(before.store.grants, id, g.(commitSeq := commitSeq, reserved := true));
      var a := MintedAttempt(State(), id, g, r);
      var put := UpsertAttempt(g.binding.attempt, a);
      if put != Ok { return Answer(Refused, LIMIT_EXCEEDED); }
      WriteRecord(AttemptTerminal(g.binding.attempt, a));
      return Decision(g.outcome, if g.outcome == Degraded then Codes(g.reductions) else [],
                      Some(Row(id, g.(commitSeq := commitSeq, reserved := true))), false, false);
    }

    /** `renew`. */
    method RenewGrant(r: Request, k: Contract) returns (d: Decision)
      requires Valid() && k.minUnits <= U64_MAX && r.units <= U64_MAX
      modifies this
      ensures State() == Renew(old(State()), r, k).0 && d == Renew(old(State()), r, k).1
      ensures Valid() && cachedDigest == old(cachedDigest)
      ensures digestValid == (old(digestValid) && State() == old(State()))
    {
      hide Evaluate, GrantOutcome, LowerBound;
      var e := EvaluateRequest(ViewOf(State()), r, k);
      if e.Deny? { return Answer(e.outcome, e.reason); }
      var o := GrantOutcome(e.degradations, r, k);
      if o.None? { return Decision(Refused, Codes(e.degradations), None, false, false); }
      if !Has(grants, r.renewalOf) { return Answer(Unknown, GRANT_NOT_FOUND); }
      AuthorisedWithinBounds(ViewOf(State()), r, k);
      var i := LowerBound(grants, r.renewalOf);
      var u := Renewed(State(), grants[i].val, r, e, o.value);
      var sequence := NextSequence(log);
      WriteRecord(GrantRecord(CommittedRecord, r.renewalOf, u, Committed));
      var live := u.(commitSeq := sequence);
      grants := grants[i := Row(r.renewalOf, live)];
      digestValid := false;
      return Decision(o.value, Codes(e.degradations), Some(Row(r.renewalOf, live)), false, false);
    }

    /** A new grant: evaluate, spend two identifiers, check the lease length, commit. */
    method AdmitRequest(r: Request, k: Contract) returns (d: Decision)
      requires Valid() && k.minUnits <= U64_MAX && r.units <= U64_MAX
      modifies this
      ensures State() == Admit(old(State()), r, k).0 && d == Admit(old(State()), r, k).1
      ensures Valid() && cachedDigest == old(cachedDigest)
      ensures digestValid == (old(digestValid) && (!Authorised(old(State()), r, k) || NamesSpent(old(State()), r, k)))
      ensures !Authorised(old(State()), r, k) ==> State() == old(State())
    {
      hide Evaluate, Draft, Commit, Put, GrantName, LeaseName, Codes, Wrap, Room, GrantOutcome, Admit, Authorised, NamesSpent, Within64;
      AdmitCases(State(), r, k);
      var e := EvaluateRequest(ViewOf(State()), r, k);
      if e.Deny? { return Answer(e.outcome, e.reason); }
      var o := GrantOutcome(e.degradations, r, k);
      if o.None? { return Decision(Refused, Codes(e.degradations), None, false, false); }
      PassHasMembers(ViewOf(State()), r, k);
      grantSerial, leaseSerial := Wrap(grantSerial + 1), Wrap(leaseSerial + 1);
      var ticks := if r.lease == 0 then options.defaultLease else r.lease;
      if ticks > options.maxLease { return Answer(Refused, LIMIT_EXCEEDED); }
      var draft := Draft(State(), r, k, e, o.value, LeaseName(leaseSerial), ticks);
      DraftUnits(State(), r, k, e, o.value, LeaseName(leaseSerial), ticks);
      d := CommitGrant(GrantName(grantSerial), draft, r);
    }

    /** `submit`. The cached state digest survives a refusal untouched, also the two refusals that come
        after identifiers were spent, which are part of the state: then it is the digest of a state
        that is no more. */
    method SubmitRequest(r: Request) returns (d: Decision)
      requires Valid() && r.units <= U64_MAX
      modifies this
      ensures State() == Submit(old(State()), r).0 && d == Submit(old(State()), r).1
      ensures old(spec.id) != [] && (d.grant.Some? || d.outcome == Granted || d.outcome == Degraded)
              ==> WellFormed(r) && ForNow(old(State()), r)
      ensures Valid()
      ensures old(Coherent()) && !Spends(old(State()), r) ==> Coherent()
      ensures old(Coherent()) && Spends(old(State()), r) ==>
                digestValid == old(digestValid)
                && (digestValid ==> cachedDigest == digestOf(old(State().store), old(grantSerial), old(leaseSerial)))
    {
      hide Renew, Admit, NamesSpent, WellFormed, ForNow;
      if spec.id != [] { OnlyForNow(State(), r); }
      var settled := Gate(State(), r);
      if settled.Some? { return settled.value; }
      var k := Get(contracts, r.contract).value;
      if r.renewal { d := RenewGrant(r, k); } else { d := AdmitRequest(r, k); }
    }

    // ----- release, acknowledge, cancel -----

    method ReleaseGrant(r: ReleaseRequest) returns (d: Decision)
      modifies this
      ensures State() == Release(old(State()), r).0 && d == Release(old(State()), r).1
      ensures old(Valid()) ==> Valid()
      ensures old(Coherent()) ==> Coherent()
    {
      if r.id == [] || (r.grant == [] && r.attempt == []) { return Malformed(InvalidArgument); }
      var target := ReleaseTarget(State(), r);
      if target.None? { return Answer(Unknown, GRANT_NOT_FOUND); }
      var id := target.value;
      if !Has(grants, id) { return Answer(Unknown, GRANT_NOT_FOUND); }
      var i := LowerBound(grants, id);
      var g := grants[i].val;
      if r.lease != [] && g.binding.lease != r.lease && !r.administrative {
        return Decision(Conflicting, [LEASE_UNKNOWN], Some(Row(id, g)), false, false);
      }
      if IsTerminal(g.state) { return Decision(Granted, [GRANT_ALREADY_RELEASED], Some(Row(id, g)), true, false); }
      TerminateGrant(i, Released, W.NoReason(), true);
      var attempt := g.binding.attempt;
      if Has(attempts, attempt) {
        var a := Get(attempts, attempt).value.(released := true, terminalTick := tick);
        var st := UpsertAttempt(attempt, a);
        WriteRecord(AttemptTerminal(attempt, a));
      }
      return Decision(Granted, [], Some(grants[i]), false, false);
    }

    /** The end of `acknowledge`: the record of the grant as it was, then the mark. */
    method WriteAcknowledgement(i: nat) returns (d: Decision)
      requires i < |grants|
      modifies `grants, `log, `digestValid
      ensures State() == MarkAcknowledged(old(State()), i).0 && d == MarkAcknowledged(old(State()), i).1
      ensures !digestValid && (old(Valid()) ==> Valid())
    {
      var row := grants[i];
      var live := row.val.(acknowledged := true, state := Acknowledged, commit := CommitAcknowledged,
                           ackSeq := NextSequence(log));
      WriteRecord(GrantRecord(AcknowledgedRecord, row.id, row.val, Acknowledged));
      grants := grants[i := Row(row.id, live)];
      digestValid := false;
      return Decision(live.outcome, [COMMIT_DURABLE], Some(Row(row.id, live)), false, false);
    }

    method AcknowledgeGrant(r: AcknowledgeRequest) returns (d: Decision)
      modifies this
      ensures State() == Acknowledge(old(State()), r).0 && d == Acknowledge(old(State()), r).1
      ensures old(Valid()) ==> Valid()
      ensures old(Coherent()) ==> Coherent()
    {
      if r.id == [] || r.grant == [] || r.lease == [] { return Malformed(InvalidArgument); }
      if !Has(grants, r.grant) { return Answer(Unknown, GRANT_NOT_FOUND); }
      var i := LowerBound(grants, r.grant);
      var row := grants[i];
      var g := row.val;
      if g.binding.lease != r.lease { return Decision(Conflicting, [LEASE_UNKNOWN], Some(row), false, false); }
      if g.state == Released || g.state == Expired || g.state == Fenced || g.state == Revoked {
        return Decision(Refused, [GRANT_ALREADY_RELEASED], Some(row), false, false);
      }
      if g.acknowledged && g.state == Acknowledged {
        return Decision(Granted, [COMMIT_DURABLE], Some(row), true, false);
      }
      if g.state == Ambiguous {
        RevalidateGrant(i);
        if grants[i].val.state != Committed {
          return Decision(FencedOut, [FirstReason(grants[i].val.reductions, GRANT_FENCED)], Some(grants[i]), false, true);
        }
      }
      d := WriteAcknowledgement(i);
    }

    method CancelAttempt(r: CancelRequest) returns (d: Decision)
      modifies this
      ensures State() == Cancel(old(State()), r).0 && d == Cancel(old(State()), r).1
      ensures old(Valid()) ==> Valid()
      ensures old(Coherent()) ==> Coherent()
    {
      hide CancelShape, CancelTarget, CancelledAttempt, Terminate, FindGrant, Put;
      if CancelShape(r) != Ok { return Malformed(CancelShape(r)); }
      var named := r.attempt != [] && Has(attempts, r.attempt);
      var target := CancelTarget(State(), r);
      var mark := CancelledAttempt(State(), r);
      if !named && target.None? { return Answer(Unknown, ATTEMPT_UNKNOWN); }
      if named && Get(attempts, r.attempt).value.cancelled {
        return Decision(Cancelled, [ATTEMPT_CANCELLED],
                        if target.Some? then FindGrant(State(), target.value) else None, true, false);
      }
      if target.Some? && Has(grants, target.value) {
        var i := LowerBound(grants, target.value);
        if HoldsCapacity(grants[i].val.state) { TerminateGrant(i, Revoked, W.CancelledFor(r.reason), true); }
      }
      if mark.Some? && Has(attempts, mark.value) {
        var a := Get(attempts, mark.value).value;
        WriteRecord(AttemptCancelled(mark.value));
        var st := UpsertAttempt(mark.value, a.(cancelled := true, terminalTick := tick, reason := ATTEMPT_CANCELLED));
      }
      digestValid := false;
      return Decision(Cancelled, [ATTEMPT_CANCELLED],
                      if target.Some? then FindGrant(State(), target.value) else None, false, false);
    }

    // ----- state digest, compaction -----

    /** `state_digest`: the cached value if there is one, else the digest of the state as it is. */
    method StateDigest() returns (d: Digest)
      modifies `digestValid, `cachedDigest
      ensures State() == old(State()) && digestValid && cachedDigest == d
      ensures d == if old(digestValid) then old(cachedDigest) else digestOf(State().store, grantSerial, leaseSerial)
      ensures old(Coherent()) ==> d == digestOf(State().store, grantSerial, leaseSerial)
    {
      if !digestValid {
        cachedDigest := digestOf(State().store, grantSerial, leaseSerial);
        digestValid := true;
      }
      return cachedDigest;
    }

    /** `maybe_compact` when the sink asks for it. */
    method CompactLog()
      modifies `log
      ensures State() == Compact(old(State()))
    {
      log := [Entry(0, tick, Snapshot(State().store))];
      WriteRecord(CountersSync);
    }

    // ----- recovery -----

    method HighestSuffix(t: Table<Grant>, lease: bool) returns (n: nat)
      ensures n == MaxSuffix(t, lease)
    {
      n := 0;
      for i := 0 to |t|
        invariant n == MaxSuffix(t[..i], lease)
      {
        assert t[..i + 1][..i] == t[..i];
        var m := Decimal.SerialSuffix(if lease then t[i].val.binding.lease else t[i].id);
        if n < m { n := m; }
      }
      assert t[..|t|] == t;
    }

    /** A prepare without its commit. */
    method Abandon(i: nat)
      requires i < |grants|
      modifies `grants, `attempts, `log, `digestValid
      ensures State() == AbandonPrepared(old(State()), i) && (old(Valid()) ==> Valid())
    {
      ghost var before := State();
      var row := grants[i];
      grants := grants[i := Row(row.id, Dropped(row.val))];
      TerminateGrant(i, Released, W.NoCommit(), false);
      assert State() == Terminate(before, i, Dropped(row.val), Released, W.NoCommit(), false);
      var a := Unfinished(State(), row);
      WriteRecord(AttemptTerminal(row.val.binding.attempt, a));
      var st := UpsertAttempt(row.val.binding.attempt, a);
    }

    /** A commit nobody is known to have seen. */
    method QuarantineGrant(i: nat)
      requires i < |grants|
      modifies `grants, `attempts, `log, `digestValid
      ensures State() == Quarantine(old(State()), i) && (old(Valid()) ==> Valid())
    {
      ghost var before := State();
      var row := grants[i];
      grants := grants[i := Row(row.id, Quarantined(row.val))];
      WriteRecord(GrantRecord(TerminalRecord, row.id, Quarantined(row.val), Ambiguous));
      var a := Uncertain(State(), row);
      assert a == Uncertain(before, row);
      WriteRecord(AttemptTerminal(row.val.binding.attempt, a));
      var st := UpsertAttempt(row.val.binding.attempt, a);
    }

    method RecoverOne(i: nat)
      requires i < |grants|
      modifies `grants, `attempts, `log, `digestValid
      ensures State() == RecoverGrant(old(State()), i)
      ensures |grants| == |old(grants)| && (old(Valid()) ==> Valid())
    {
      hide AbandonPrepared, Quarantine, Revalidate;
      var g := grants[i].val;
      if !IsLive(g.state) { return; }
      if g.commit == CommitPrepared { Abandon(i); }
      else if !WasAcknowledged(g) || options.recovery == RecoveryPolicy.FenceAll { QuarantineGrant(i); }
      else { RevalidateGrant(i); }
    }

    /** `apply_recovery_policy`, up to its last call. */
    method ApplyRecoveryPolicy()
      modifies `grants, `attempts, `log, `digestValid
      ensures State() == RecoverFrom(old(State()), 0) && (old(Valid()) ==> Valid())
    {
      hide RecoverGrant;
      var i := 0;
      while i < |grants|
        invariant i <= |grants| && (old(Valid()) ==> Valid())
        invariant RecoverFrom(State(), i) == RecoverFrom(old(State()), 0)
        decreases |grants| - i
      {
        RecoverOne(i);
        i := i + 1;
      }
    }

    method ReconcileOne(i: nat)
      requires i < |grants|
      modifies `attempts, `log, `digestValid
      ensures State() == Reconcile(old(State()), i)
    {
      hide Repaired;
      var row := grants[i];
      if row.val.binding.attempt == [] || Has(attempts, row.val.binding.attempt) { return; }
      var a := Repaired(tick, row);
      WriteRecord(AttemptTerminal(row.val.binding.attempt, a));
      var st := UpsertAttempt(row.val.binding.attempt, a);
    }

    /** `reconcile_attempts`. */
    method ReconcileAttempts()
      modifies `attempts, `log, `digestValid
      ensures State() == ReconcileFrom(old(State()), 0)
    {
      hide Reconcile;
      for i := 0 to |grants|
        invariant grants == old(grants)
        invariant ReconcileFrom(State(), i) == ReconcileFrom(old(State()), 0)
      {
        ReconcileOne(i);
      }
    }

    /** The tables a recovery starts from. */
    constructor Load(o: Options, s: Store, replayed: Log, digest: (Store, nat, nat) -> Digest)
      ensures State() == Core(o, s.(grants := SortById(s.grants), attempts := SortById(s.attempts)), 0, 0, replayed)
      ensures digestOf == digest && !digestValid
    {
      options, digestOf := o, digest;
      spec, tick, contracts := s.spec, s.tick, s.contracts;
      grants, attempts := SortById(s.grants), SortById(s.attempts);
      grantSerial, leaseSerial, log := 0, 0, replayed;
      digestValid, cachedDigest := false, ZeroDigest();
    }

    /** `recover` up to the record of the new epoch. */
    method OpenEpoch(incarnation: seq<byte>, now: nat) returns (st: StatusCode)
      requires grantSerial == leaseSerial == 0 && !digestValid
      modifies this
      ensures (State(), st) == Open(old(State()), incarnation, now) && !digestValid
    {
      hide MaxSuffix, BeginEpoch, Here;
      if spec.id == [] { return Corruption; }
      grantSerial := HighestSuffix(grants, false);
      leaseSerial := HighestSuffix(grants, true);
      if now > tick { tick := now; }
      var e := BeginEpoch(spec, incarnation, spec.policy);
      if e.1 != Ok { return e.1; }
      spec := e.0;
      WriteRecord(EpochBegin(spec.id, Here(spec)));
      return Ok;
    }

    /** `recover`, with the log it was replayed from attached. */
    method RecoverState(ghost s: Store, ghost replayed: Log, incarnation: seq<byte>, now: nat) returns (st: StatusCode)
      requires State() == Core(options, s.(grants := SortById(s.grants), attempts := SortById(s.attempts)), 0, 0, replayed)
      requires !digestValid
      modifies this
      ensures (State(), st) == Recover(options, s, replayed, incarnation, now)
      ensures Coherent() && !digestValid
    {
      hide RecoverFrom, ReconcileFrom, MaxSuffix, SortById, BeginEpoch;
      st := OpenEpoch(incarnation, now);
      if st != Ok { return; }
      ApplyRecoveryPolicy();
      ReconcileAttempts();
      digestValid := false;
    }
  }

  /** Identifiers are minted and the request then refused: for too long a lease, or a full table. */
  predicate NamesSpent(c: Core, r: Request, k: Contract)
  {
    Authorised(c, r, k)
    && ((if r.lease == 0 then c.options.defaultLease else r.lease) > c.options.maxLease
        || Room(c.store.grants, GrantName(Wrap(c.grantSerial + 1)), MAX_GRANTS) != Ok)
  }

  predicate Spends(c: Core, r: Request)
  {
    Gate(c, r).None? && !r.renewal && NamesSpent(c, r, Get(c.store.contracts, r.contract).value)
  }

  /** The four ways a new request ends, by what evaluation says of it. */
  lemma AdmitCases(c: Core, r: Request, k: Contract)
    ensures var e := Evaluate(ViewOf(c), r, k);
            if e.Deny? then Admit(c, r, k) == (c, Answer(e.outcome, e.reason)) && !Authorised(c, r, k)
            else
              var o := GrantOutcome(e.degradations, r, k);
              var ticks := if r.lease == 0 then c.options.defaultLease else r.lease;
              var c1 := c.(grantSerial := Wrap(c.grantSerial + 1), leaseSerial := Wrap(c.leaseSerial + 1));
              if o.None? then
                Admit(c, r, k) == (c, Decision(Refused, Codes(e.degradations), None, false, false)) && !Authorised(c, r, k)
              else
                && Authorised(c, r, k)
                && (NamesSpent(c, r, k)
                    <==> ticks > c.options.maxLease || Room(c.store.grants, GrantName(c1.grantSerial), MAX_GRANTS) != Ok)
                && Has(c.store.spec.members, r.source) && Has(c.store.spec.members, r.destination)
                && Admit(c, r, k) == if ticks > c.options.maxLease then (c1, Answer(Refused, LIMIT_EXCEEDED))
                                     else Commit(c1, GrantName(c1.grantSerial),
                                                 Draft(c1, r, k, e, o.value, LeaseName(c1.leaseSerial), ticks), r)
  {
    hide Draft, Commit, GrantName, LeaseName, Codes, Wrap, Room, GrantOutcome, CheckEligible, CapacityStage, CheckObligations,
         CheckRenewal, LowerBound, ChosenPath, FindResource;
  }

  lemma PassHasMembers(v: View, r: Request, k: Contract)
    requires Evaluate(v, r, k).Pass?
    ensures Has(v.spec.members, r.source) && Has(v.spec.members, r.destination)
    ensures Evaluate(v, r, k).units <= if r.units == 0 then k.minUnits else r.units
  {
    AuthorisedWithinBounds(v, r, k);
  }

  /** A refused edit stays only at the last generation. */
  lemma RefusedOnlyWhenFull(s: Spec, now: nat, op: SpecOp)
    ensures ApplySpec(s, now, op).1 != Ok && ApplySpec(s, now, op).0 != s ==> s.generation == U64_MAX
  {
    hide Put, OpStatus;
  }

  lemma DraftUnits(c: Core, r: Request, k: Contract, e: Verdict, o: Outcome, lease: Id, ticks: nat)
    requires e.Pass? && Has(c.store.spec.members, r.source) && Has(c.store.spec.members, r.destination)
    ensures Draft(c, r, k, e, o, lease, ticks).units == e.units
  {}

  lemma PutKeeps64(t: Table<Grant>, id: Id, g: Grant)
    ensures Within64(t) && g.units <= U64_MAX ==> Within64(Put(t, id, g))
  {
    var r := Put(t, id, g);
    var k := LowerBound(t, id);
    if Within64(t) && g.units <= U64_MAX {
      forall i | 0 <= i < |r| ensures r[i].val.units <= U64_MAX {
        assert r[i] == if i == k then Row(id, g) else t[if Has(t, id) || i < k then i else i - 1];
      }
    }
  }
}
