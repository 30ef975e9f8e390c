/** Whole runs of the controller: any sequence of operations, compactions and crashes. */
module Runs {
  import opened Tables
  import opened Model
  import opened Cluster
  import opened Accounting
  import opened Eligibility
  import opened Engine
  import opened Replay
  import opened Safety
  import opened Durability
  import opened Invariant
  import opened Fates
  import opened Recovery
  import opened Submission
  import opened Operations

  // ----- specification, contracts, policy, clock -----

  lemma SpecStaysWell(s: Spec, tick: nat, op: SpecOp)
    requires SpecWell(s) && ApplySpec(s, tick, op).1 == Ok
    ensures SpecWell(ApplySpec(s, tick, op).0)
  {
    match op
    case UpsertMember(id, m) => PutSorted(s.members, id, m);
    case RemoveMember(id) =>
      PutSorted(s.members, id, Get(s.members, id).value.(lifecycle := Removed, endpoints := [], resources := [], services := []));
    case SetLifecycle(id, l) => PutSorted(s.members, id, Get(s.members, id).value.(lifecycle := l, lastObserved := tick));
    case UpsertPath(id, p) => PutSorted(s.paths, id, p);
    case RemovePath(id) => DropSorted(s.paths, id);
    case SetPathState(id, st) => PutSorted(s.paths, id, Get(s.paths, id).value.(state := st));
    case UpsertExclusion(id, e) => PutSorted(s.exclusions, id, e);
    case RemoveExclusion(id) => DropSorted(s.exclusions, id);
    case UpsertObligation(id, o) => PutSorted(s.obligations, id, o);
    case RemoveObligation(id) => DropSorted(s.obligations, id);
  }

  /** The store right after a mutation's record, before the revocations it triggers. */
  function Mutated(s: Store, op: SpecOp): Store { s.(spec := ApplySpec(s.spec, s.tick, op).0) }

  /** The mutation takes away no capacity that is held, counting grants it is about to revoke. */
  ghost predicate LeavesRoom(s: Store, op: SpecOp) { Fits(s.grants, Mutated(s, op).spec) }

  lemma MutationLogged(c: Core, op: SpecOp, fit: bool)
    requires Linked(c, fit) && ApplySpec(c.store.spec, c.store.tick, op).1 == Ok
    requires fit ==> LeavesRoom(c.store, op)
    ensures Linked(Append(c, SpecChange(op)).(store := Mutated(c.store, op)), fit)
  {
    hide ApplySpec;
    SpecStaysWell(c.store.spec, c.store.tick, op);
    Logged(c, SpecChange(op), Mutated(c.store, op), fit);
  }

  lemma QuietMutation(s: Spec, tick: nat, op: SpecOp, g: Grant, care: Care)
    requires !op.Revalidates() && ApplySpec(s, tick, op).1 == Ok && Upright(s, g, care)
    ensures Upright(ApplySpec(s, tick, op).0, g, care)
  {}

  /** An accepted mutation keeps the invariant: what no longer stands is revoked before the call
      returns, and the rest is untouched or re-issued. */
  lemma MutateGood(c: Core, op: SpecOp, care: Care)
    requires Good(c, care) && ApplySpec(c.store.spec, c.store.tick, op).1 == Ok
    requires care.Roomy? ==> LeavesRoom(c.store, op)
    ensures var d := Mutate(c, op).0;
            && Good(d, care) && d.store == Mutated(c.store, op).(grants := d.store.grants)
            && |d.store.grants| == |c.store.grants|
            && forall i :: 0 <= i < |c.store.grants| ==>
                 if op.Revalidates() then Fate(Mutated(c.store, op), c.store.grants[i], d.store.grants[i])
                 else d.store.grants[i] == c.store.grants[i]
  {
    hide ApplySpec, Linked, Upright, Base, Fate;
    var b := Append(c, SpecChange(op)).(store := Mutated(c.store, op));
    MutationLogged(c, op, care.Roomy?);
    BaseAlike(c, b);
    if op.Revalidates() {
      RevalidateAll(b, 0, care);
    } else {
      assert UprightTo(b, |b.store.grants|, care) by {
        forall i | 0 <= i < |b.store.grants| ensures Upright(b.store.spec, b.store.grants[i].val, care) {
          QuietMutation(c.store.spec, c.store.tick, op, c.store.grants[i].val, care);
        }
      }
    }
  }

  /** Revalidating every usable grant on demand. */
  lemma RevalidateGood(c: Core, care: Care)
    requires Good(c, care)
    ensures var d := RevalidateFrom(c, 0);
            && Good(d, care) && |d.store.grants| == |c.store.grants|
            && forall i :: 0 <= i < |c.store.grants| ==> Fate(c.store, c.store.grants[i], d.store.grants[i])
  {
    hide Linked, Upright, Base, Fate;
    RevalidateAll(c, 0, care);
  }

  lemma BaseAlike(c: Core, d: Core)
    requires AllBase(c) && d.store.grants == c.store.grants && d.store.attempts == c.store.attempts
    requires d.grantSerial == c.grantSerial && d.leaseSerial == c.leaseSerial
    ensures AllBase(d)
  {
    forall i | 0 <= i < |d.store.grants| ensures Base(d, d.store.grants[i]) { assert Base(c, c.store.grants[i]); }
  }

  /** A change that touches neither grants, attempts nor what grants stand on. */
  lemma AsideGood(c: Core, d: Core, care: Care)
    requires Good(c, care) && Linked(d, care.Roomy?) && d.options == c.options
    requires d.store.grants == c.store.grants && d.store.attempts == c.store.attempts
    requires d.grantSerial == c.grantSerial && d.leaseSerial == c.leaseSerial
    requires d.store.spec.members == c.store.spec.members && d.store.spec.paths == c.store.spec.paths
    requires d.store.spec.epoch == c.store.spec.epoch && d.store.spec.incarnation == c.store.spec.incarnation
    ensures Good(d, care)
  {
    hide Linked;
    BaseAlike(c, d);
    forall i | 0 <= i < |d.store.grants| ensures Upright(d.store.spec, d.store.grants[i].val, care) {
      assert Upright(c.store.spec, c.store.grants[i].val, care);
    }
  }

  lemma ContractsStayWell(t: Table<Contract>, op: ContractOp)
    requires ContractsWell(t) && ApplyContract(t, op).1 == Ok
    ensures ContractsWell(ApplyContract(t, op).0)
  {
    var r := ApplyContract(t, op).0;
    match op
    case UpsertContract(id, k) =>
      PutSorted(t, id, k);
      forall i | 0 <= i < |r| ensures ContractStatus(r[i].id, r[i].val) == Ok {
        var p := LowerBound(t, id);
        if i != p {
          assert r[i] == t[if Has(t, id) || i < p then i else i - 1];
        } else {
          assert r[i] == Row(id, k);
        }
      }
    case RemoveContract(id) => DropSorted(t, id);
  }

  lemma ContractGood(c: Core, op: ContractOp, care: Care)
    requires Good(c, care) && ApplyContract(c.store.contracts, op).1 == Ok
    ensures Good(MutateContract(c, op).0, care)
  {
    hide ApplyContract;
    ContractsStayWell(c.store.contracts, op);
    var s := c.store.(contracts := ApplyContract(c.store.contracts, op).0);
    Logged(c, ContractChange(op), s, care.Roomy?);
    AsideGood(c, MutateContract(c, op).0, care);
  }

  lemma PolicyGood(c: Core, policy: nat, care: Care)
    requires Good(c, care)
    ensures Good(SetPolicy(c, policy).0, care)
  {
    if policy >= c.store.spec.policy {
      var s := c.store.(spec := c.store.spec.(policy := policy));
      assert Fits(c.store.grants, c.store.spec) <==> Fits(s.grants, s.spec);
      Logged(c, PolicySet(policy), s, care.Roomy?);
      AsideGood(c, SetPolicy(c, policy).0, care);
    }
  }

  lemma TickGood(c: Core, tick: nat, care: Care)
    requires Good(c, care)
    ensures Good(AdvanceTick(c, tick).0, care)
  {
    if tick >= c.store.tick {
      var d := AdvanceTick(c, tick).0;
      assert Linked(d, care.Roomy?);
      AsideGood(c, d, care);
    }
  }

  // ----- compaction -----

  /** A snapshot stands for exactly the state it was taken from, clock and all. */
  lemma SnapshotExact(s: Store, tick: nat)
    requires Sorted(s.grants) && Sorted(s.attempts)
    ensures Raw([Entry(0, tick, Snapshot(s))]) == Success(Replayed(s, tick, s.spec.id != [], Some(1)))
  {
    SortOfSorted(s.grants);
    SortOfSorted(s.attempts);
    var log := [Entry(0, tick, Snapshot(s))];
    assert log[..0] == [];
    assert Raw([]) == Success(EMPTY);
  }

  lemma SnapshotEvidence(s: Store, tick: nat, i: nat)
    requires Sorted(s.grants) && i < |s.grants| && HoldsCapacity(s.grants[i].val.state)
    ensures Evidence([Entry(0, tick, Snapshot(s))], s.grants[i])
  {
    RowFound(s.grants, i);
    var log := [Entry(0, tick, Snapshot(s))];
    assert Proves(log[0], s.grants[i]);
  }

  lemma SnapshotDurable(s: Store, tick: nat, fit: bool)
    requires Sound(s, fit) && Tagged(s.grants)
    ensures DurableAt([Entry(0, tick, Snapshot(s))], fit)
  {
    SnapshotExact(s, tick);
    forall i | 0 <= i < |s.grants| && HoldsCapacity(s.grants[i].val.state)
      ensures Evidence([Entry(0, tick, Snapshot(s))], s.grants[i])
    {
      SnapshotEvidence(s, tick, i);
    }
  }

  lemma SnapshotLinked(c: Core, fit: bool)
    requires Sound(c.store, fit) && Tagged(c.store.grants)
    ensures Linked(c.(log := [Entry(0, c.store.tick, Snapshot(c.store))]), fit)
  {
    hide DurableAt, Tagged, Essence, Effect, SortById;
    var log := [Entry(0, c.store.tick, Snapshot(c.store))];
    SnapshotExact(c.store, c.store.tick);
    SnapshotDurable(c.store, c.store.tick, fit);
    forall k | 1 <= k <= |log| ensures DurableAt(log[..k], fit) { assert log[..k] == log; }
  }

  lemma GoodTagged(c: Core, care: Care)
    requires Good(c, care)
    ensures Tagged(c.store.grants) && Sound(c.store, care.Roomy?)
  {
    forall i | 0 <= i < |c.store.grants| ensures Tag(c.store.grants[i].val) { assert Base(c, c.store.grants[i]); }
  }

  lemma CompactGood(c: Core, care: Care)
    requires Good(c, care)
    ensures Good(Compact(c), care) && Compact(c).store == c.store
  {
    hide Linked, Sound, Tagged, Good;
    GoodTagged(c, care);
    SnapshotLinked(c, care.Roomy?);
    var d := c.(log := [Entry(0, c.store.tick, Snapshot(c.store))]);
    Logged(d, CountersSync, d.store, care.Roomy?);
    assert Compact(c) == Append(d, CountersSync).(store := d.store);
    AsideGood(c, Compact(c), care);
  }

  // ----- start -----

  lemma StartGood(options: Options, cluster: Id, incarnation: seq<byte>, policy: nat, tick: nat, care: Care)
    requires cluster != [] && CareOptions(options, care)
    ensures Good(Initialize(options, cluster, incarnation, policy, tick), care)
  {
    var s := EMPTY_SPEC.(id := cluster, incarnation := incarnation);
    var c0 := Core(options, Store(s.(policy := policy), tick, [], [], []), 0, 0, []);
    var c1 := Append(c0, SetController(cluster, Coordinate(0, 0, policy, incarnation)));
    assert c1.log[..0] == [];
    assert Raw([]) == Success(EMPTY);
    assert Sound(c1.store, care.Roomy?);
    assert Raw(c1.log).Success?;
    forall k | 1 <= k <= |c1.log| ensures DurableAt(c1.log[..k], care.Roomy?) { assert c1.log[..k] == c1.log; }
    assert Linked(c1, care.Roomy?);
    var s2 := BeginEpoch(s.(policy := policy), incarnation, policy).0;
    Logged(c1, EpochBegin(cluster, Here(s2)), c1.store.(spec := s2), care.Roomy?);
    assert Initialize(options, cluster, incarnation, policy, tick)
           == Append(c1, EpochBegin(cluster, Here(s2))).(store := c1.store.(spec := s2));
  }

  // ----- crash -----

  /** Restart from the first `k` records: replay them, then recover. */
  function Restart(c: Core, k: nat, options: Options, incarnation: seq<byte>, tick: nat): (Core, StatusCode)
    requires k <= |c.log|
  {
    match Raw(c.log[..k])
    case Failure(code) => (c, code)
    case Success(r) => Recover(options, Finish(r), c.log[..k], incarnation, tick)
  }

  lemma PrefixDurable(c: Core, k: nat, care: Care)
    requires Good(c, care) && 1 <= k <= |c.log|
    ensures DurableAt(c.log[..k], care.Roomy?) && Durable(c.log[..k], care.Roomy?)
  {
    hide DurableAt;
    var log := c.log[..k];
    forall j | 1 <= j <= |log| ensures DurableAt(log[..j], care.Roomy?) { assert log[..j] == c.log[..j]; }
  }

  lemma RestartGood(c: Core, k: nat, options: Options, incarnation: seq<byte>, tick: nat, care: Care)
    requires Good(c, care) && 1 <= k <= |c.log| && CareOptions(options, care)
    requires Restart(c, k, options, incarnation, tick).1 == Ok
    ensures Good(Restart(c, k, options, incarnation, tick).0, care)
  {
    hide Durable, Good;
    PrefixDurable(c, k, care);
    RecoverGood(options, c.log[..k], incarnation, tick, care);
  }

  // ----- runs -----

  datatype Step =
    | Submission(request: Request)
    | Releasing(release: ReleaseRequest)
    | Acknowledging(ack: AcknowledgeRequest)
    | Cancelling(cancel: CancelRequest)
    | Changing(op: SpecOp)
    | Contracting(change: ContractOp)
    | Policing(policy: nat)
    | Ticking(tick: nat)
    | Expiring
    | Fencing(reason: Reason)
    | Revalidating
    | Compacting
    | Crashing(k: nat, options: Options, incarnation: seq<byte>, at: nat)

  /** What a step needs beyond its arguments: an accepted mutation, room to mint, a successful recovery,
      and the side conditions the code itself leaves to its callers. */
  ghost predicate Enabled(c: Core, step: Step, care: Care)
  {
    hide Gate, Authorised, Restart, ApplySpec, ApplyContract, LeavesRoom, CancelsOwn, RenewsInPlace;
    match step
    case Submission(r) =>
      Gate(c, r).None? ==>
        if r.renewal then care.Loose? || RenewsInPlace(c, r)
        else Authorised(c, r, Get(c.store.contracts, r.contract).value) ==> MayMint(c)
    case Cancelling(r) => CancelsOwn(c, r)
    case Changing(op) =>
      ApplySpec(c.store.spec, c.store.tick, op).1 == Ok && (care.Roomy? ==> LeavesRoom(c.store, op))
    case Contracting(op) => ApplyContract(c.store.contracts, op).1 == Ok
    case Crashing(k, options, incarnation, at) =>
      1 <= k <= |c.log| && CareOptions(options, care) && Restart(c, k, options, incarnation, at).1 == Ok
    case _ => true
  }

  function Next(c: Core, step: Step): Core
  {
    match step
    case Submission(r) => Submit(c, r).0
    case Releasing(r) => Release(c, r).0
    case Acknowledging(r) => Acknowledge(c, r).0
    case Cancelling(r) => Cancel(c, r).0
    case Changing(op) => Mutate(c, op).0
    case Contracting(op) => MutateContract(c, op).0
    case Policing(policy) => SetPolicy(c, policy).0
    case Ticking(tick) => AdvanceTick(c, tick).0
    case Expiring => ExpireFrom(c, 0)
    case Fencing(reason) => FenceFrom(c, 0, reason)
    case Revalidating => RevalidateFrom(c, 0)
    case Compacting => Compact(c)
    case Crashing(k, options, incarnation, at) =>
      if k <= |c.log| then Restart(c, k, options, incarnation, at).0 else c
  }

  ghost predicate Follows(c: Core, steps: seq<Step>, care: Care)
    decreases |steps|
  {
    hide Next, Enabled;
    steps == [] || (Enabled(c, steps[0], care) && Follows(Next(c, steps[0]), steps[1..], care))
  }

  function After(c: Core, steps: seq<Step>): Core
    decreases |steps|
  {
    hide Next;
    if steps == [] then c else After(Next(c, steps[0]), steps[1..])
  }

  lemma SubmitGood(c: Core, r: Request, care: Care)
    requires Good(c, care) && Enabled(c, Submission(r), care)
    ensures Good(Submit(c, r).0, care)
  {
    hide Good, Admit, Renew, RenewsInPlace, Authorised, MayMint, Restart, ApplySpec, ApplyContract, LeavesRoom, CancelsOwn;
    if Gate(c, r).None? {
      var k := Get(c.store.contracts, r.contract).value;
      if r.renewal { RenewGood(c, r, k, care); } else { AdmitGood(c, r, k, care); }
    }
  }

  lemma StepGood(c: Core, step: Step, care: Care)
    requires Good(c, care) && Enabled(c, step, care)
    ensures Good(Next(c, step), care)
  {
    hide Good, Submit, Release, Acknowledge, Cancel, Mutate, MutateContract, SetPolicy, AdvanceTick, Restart, Compact, Gate,
         Authorised, ApplySpec, ApplyContract, ExpireFrom, FenceFrom, RevalidateFrom, Mutated, RenewsInPlace;
    match step
    case Submission(r) => SubmitGood(c, r, care);
    case Releasing(r) => ReleaseGood(c, r, care);
    case Acknowledging(r) => AcknowledgeGood(c, r, care);
    case Cancelling(r) => CancelGood(c, r, care);
    case Changing(op) => MutateGood(c, op, care);
    case Contracting(op) => ContractGood(c, op, care);
    case Policing(policy) => PolicyGood(c, policy, care);
    case Ticking(tick) => TickGood(c, tick, care);
    case Expiring => ExpireAllGood(c, 0, care);
    case Fencing(reason) => FenceAllGood(c, 0, reason, care);
    case Revalidating => RevalidateGood(c, care);
    case Compacting => CompactGood(c, care);
    case Crashing(k, options, incarnation, at) => RestartGood(c, k, options, incarnation, at, care);
  }

  /** Every state a run reaches, from a controller's first start through any operations, compactions and
      crashes at any point of the log, keeps the invariant. */
  lemma {:induction false} RunGood(c: Core, steps: seq<Step>, care: Care)
    requires Good(c, care) && Follows(c, steps, care)
    ensures Good(After(c, steps), care)
    decreases |steps|
  {
    hide Good, Enabled, Next;
    if steps != [] {
      StepGood(c, steps[0], care);
      RunGood(Next(c, steps[0]), steps[1..], care);
    }
  }

  /** In particular from a controller's first start. */
  lemma FromTheStart(options: Options, cluster: Id, incarnation: seq<byte>, policy: nat, tick: nat, steps: seq<Step>, care: Care)
    requires cluster != [] && CareOptions(options, care)
    requires Follows(Initialize(options, cluster, incarnation, policy, tick), steps, care)
    ensures Good(After(Initialize(options, cluster, incarnation, policy, tick), steps), care)
  {
    hide Good, Initialize, Follows, After;
    StartGood(options, cluster, incarnation, policy, tick, care);
    RunGood(Initialize(options, cluster, incarnation, policy, tick), steps, care);
  }

  ghost predicate Reaches(options: Options, cluster: Id, incarnation: seq<byte>, policy: nat, tick: nat, steps: seq<Step>,
                          care: Care, c: Core)
  {
    && cluster != [] && CareOptions(options, care)
    && Follows(Initialize(options, cluster, incarnation, policy, tick), steps, care)
    && c == After(Initialize(options, cluster, incarnation, policy, tick), steps)
  }

  /** Some run from some controller's first start ends here. */
  ghost predicate Reachable(c: Core, care: Care)
  {
    exists options, cluster, incarnation, policy, tick, steps ::
      Reaches(options, cluster, incarnation, policy, tick, steps, care, c)
  }

  lemma ReachableGood(c: Core, care: Care)
    requires Reachable(c, care)
    ensures Good(c, care)
  {
    hide Good, Follows, After, Initialize;
    var options, cluster, incarnation, policy, tick, steps :|
      Reaches(options, cluster, incarnation, policy, tick, steps, care, c);
    FromTheStart(options, cluster, incarnation, policy, tick, steps, care);
  }

  lemma {:induction false} AfterBoth(c: Core, a: seq<Step>, b: seq<Step>)
    ensures After(c, a + b) == After(After(c, a), b)
    decreases |a|
  {
    hide Next;
    if a == [] {
      assert a + b == b;
    } else {
      assert (a + b)[0] == a[0] && (a + b)[1..] == a[1..] + b;
      AfterBoth(Next(c, a[0]), a[1..], b);
    }
  }

  lemma {:induction false} FollowsBoth(c: Core, a: seq<Step>, b: seq<Step>, care: Care)
    requires Follows(c, a, care) && Follows(After(c, a), b, care)
    ensures Follows(c, a + b, care)
    decreases |a|
  {
    hide Next, Enabled;
    if a == [] {
      assert a + b == b;
    } else {
      assert (a + b)[0] == a[0] && (a + b)[1..] == a[1..] + b;
      FollowsBoth(Next(c, a[0]), a[1..], b, care);
    }
  }

  /** What a run reaches, further runs go on from. */
  lemma StillReachable(c: Core, more: seq<Step>, care: Care)
    requires Reachable(c, care) && Follows(c, more, care)
    ensures Reachable(After(c, more), care)
  {
    hide Follows, After, Initialize;
    var options, cluster, incarnation, policy, tick, steps :|
      Reaches(options, cluster, incarnation, policy, tick, steps, care, c);
    var start := Initialize(options, cluster, incarnation, policy, tick);
    FollowsBoth(start, steps, more, care);
    AfterBoth(start, steps, more);
    assert Reaches(options, cluster, incarnation, policy, tick, steps + more, care, After(c, more));
  }

  /** One more step of a run. */
  lemma OneStep(c: Core, step: Step, care: Care)
    requires Reachable(c, care) && Enabled(c, step, care)
    ensures Reachable(Next(c, step), care)
  {
    hide Reachable, Enabled, Next;
    var steps := [step];
    assert steps[1..] == [];
    assert Follows(Next(c, step), steps[1..], care);
    assert After(Next(c, step), steps[1..]) == Next(c, step);
    StillReachable(c, steps, care);
  }
}
