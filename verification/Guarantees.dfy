/** What the invariant says to a user of the controller. */
module Guarantees {
  import opened Tables
  import opened Model
  import opened Cluster
  import opened Accounting
  import opened Eligibility
  import opened Engine
  import opened Requests
  import opened Replay
  import opened Safety
  import opened Durability
  import opened Invariant
  import opened Fates
  import opened Recovery
  import opened Submission
  import opened Runs
  import Decimal

  // ----- replay agrees with the live state -----

  /** Two grants differ at most in positions, in the form in which they tell of an acknowledgement, and in
      which of the capacity-holding states they are. */
  predicate SameGrant(a: Grant, b: Grant)
  {
    && a.binding == b.binding && a.units == b.units && a.requested == b.requested && a.at == b.at
    && a.leaseIssued == b.leaseIssued && a.leaseExpiry == b.leaseExpiry && a.outcome == b.outcome
    && a.domains == b.domains && a.degraded == b.degraded && a.reductions == b.reductions
    && WasAcknowledged(a) == WasAcknowledged(b) && HoldsCapacity(a.state) == HoldsCapacity(b.state)
    && (!HoldsCapacity(a.state) ==> a.state == b.state)
  }

  lemma EssenceIsSame(a: Grant, b: Grant)
    requires Essence(a) == Essence(b)
    ensures SameGrant(a, b)
  {}

  lemma SameTotals(s: Store, t: Store, k: Key)
    requires Abs(s) == Abs(t)
    ensures Total(s.grants, k) == Total(t.grants, k)
  {
    TotalOfEssences(s.grants, k);
    TotalOfEssences(t.grants, k);
  }

  /** At every moment, replaying the log gives the live state: the same specification, contracts and
      attempts, the same grants under the same ids with the same bindings and units, and so the same
      amounts held of everything. */
  lemma ReplayAgrees(c: Core, care: Care)
    requires hide Reachable; Reachable(c, care)
    ensures Raw(c.log).Success?
    ensures var s := Finish(Raw(c.log).value);
            && s.spec == c.store.spec && s.contracts == c.store.contracts && s.attempts == c.store.attempts
            && s.tick <= c.store.tick && |s.grants| == |c.store.grants|
            && (forall i :: 0 <= i < |s.grants| ==>
                  s.grants[i].id == c.store.grants[i].id && SameGrant(s.grants[i].val, c.store.grants[i].val))
            && forall k :: Total(s.grants, k) == Total(c.store.grants, k)
  {
    hide Reachable;
    ReachableGood(c, care);
    var s := Finish(Raw(c.log).value);
    assert Abs(s) == Abs(c.store);
    assert |Essences(s.grants)| == |Essences(c.store.grants)|;
    forall i | 0 <= i < |s.grants|
      ensures s.grants[i].id == c.store.grants[i].id && SameGrant(s.grants[i].val, c.store.grants[i].val)
    {
      assert Essences(s.grants)[i] == Essences(c.store.grants)[i];
      EssenceIsSame(s.grants[i].val, c.store.grants[i].val);
    }
    forall k ensures Total(s.grants, k) == Total(c.store.grants, k) { SameTotals(s, c.store, k); }
  }

  // ----- crash at any prefix -----

  lemma {:induction false} PairwiseTotals(t: Table<Grant>, u: Table<Grant>, k: Key)
    requires |t| == |u|
    requires forall i :: 0 <= i < |t| ==> Weight(k, u[i].val) <= Weight(k, t[i].val)
    ensures Total(u, k) <= Total(t, k)
  {
    if t != [] { PairwiseTotals(t[..|t| - 1], u[..|t| - 1], k); }
  }

  /** What restarting makes of one grant of the replayed prefix. */
  ghost predicate CrashFate(log: Log, s: Spec, a: Row<Grant>, b: Row<Grant>)
  {
    && b.id == a.id && b.val.binding == a.val.binding && b.val.units == a.val.units
    && (a.val.state == Prepared ==> b.val.state == Released)
    && (HoldsCapacity(a.val.state) && !WasAcknowledged(a.val) ==> b.val.state == Ambiguous)
    && (IsTerminal(a.val.state) ==> b == a)
    && (IsLive(b.val.state) ==> WasAcknowledged(a.val) && HoldsCapacity(a.val.state) && Current(s, b.val))
    && (HoldsCapacity(b.val.state) ==> HoldsCapacity(a.val.state) && Evidence(log, b))
  }

  lemma CrashFates(c: Core, k: nat, options: Options, incarnation: seq<byte>, tick: nat, care: Care)
    requires hide Good, Restart, Raw, CrashFate;
             Good(c, care) && 1 <= k <= |c.log| && CareOptions(options, care)
    requires Restart(c, k, options, incarnation, tick).1 == Ok
    ensures Raw(c.log[..k]).Success?
    ensures var s := Raw(c.log[..k]).value.store;
            var d := Restart(c, k, options, incarnation, tick).0;
            && d.store.spec.epoch == s.spec.epoch + 1 && d.store.spec.incarnation == incarnation
            && |d.store.grants| == |s.grants|
            && (forall i :: 0 <= i < |s.grants| ==>
                  CrashFate(c.log[..k], d.store.spec, s.grants[i], d.store.grants[i]))
            && forall key :: Total(d.store.grants, key) <= Total(s.grants, key)
  {
    hide DurableAt, Durable, Good, Recover, Recovered, CrashFate;
    var log := c.log[..k];
    PrefixDurable(c, k, care);
    PrefixState(log, care.Roomy?);
    RecoverGood(options, log, incarnation, tick, care);
    var s := Raw(log).value.store;
    var d := Restart(c, k, options, incarnation, tick).0;
    forall i | 0 <= i < |s.grants| ensures CrashFate(log, d.store.spec, s.grants[i], d.store.grants[i]) {
      FateOf(log, s, d, options.recovery, i, care);
    }
    RecoverStatus(options, log, incarnation, tick);
    forall key ensures Total(d.store.grants, key) <= Total(s.grants, key) {
      FateTotals(log, d.store.spec, s.grants, d.store.grants, key);
    }
  }

  /** A crash that keeps any non-empty prefix of the log is safe. After the restart no grant holds
      capacity without its commit record in that prefix; a prepare without its commit holds nothing;
      every commit not known to be acknowledged is quarantined with exactly its units; what was over
      stays over; every usable grant carries the new epoch and incarnation; and nothing is held beyond
      what the prefix held. */
  lemma CrashSafe(c: Core, k: nat, options: Options, incarnation: seq<byte>, tick: nat, care: Care)
    requires hide Reachable, Restart, Raw, CrashFate;
             Reachable(c, care) && 1 <= k <= |c.log| && CareOptions(options, care)
    requires Restart(c, k, options, incarnation, tick).1 == Ok
    ensures Raw(c.log[..k]).Success?
    ensures var s := Raw(c.log[..k]).value.store;
            var d := Restart(c, k, options, incarnation, tick).0;
            && d.store.spec.epoch == s.spec.epoch + 1 && d.store.spec.incarnation == incarnation
            && |d.store.grants| == |s.grants|
            && (forall i :: 0 <= i < |s.grants| ==>
                  CrashFate(c.log[..k], d.store.spec, s.grants[i], d.store.grants[i]))
            && forall key :: Total(d.store.grants, key) <= Total(s.grants, key)
  {
    hide Good, Reachable, Restart, Raw, CrashFate;
    ReachableGood(c, care);
    CrashFates(c, k, options, incarnation, tick, care);
  }

  lemma PrefixState(log: Log, fit: bool)
    requires DurableAt(log, fit)
    ensures log != [] && Raw(log).Success?
    ensures Tagged(Raw(log).value.store.grants) && Evidenced(log, Raw(log).value.store.grants)
  {}

  lemma RecoverStatus(options: Options, log: Log, incarnation: seq<byte>, tick: nat)
    requires Raw(log).Success? && Recover(options, Finish(Raw(log).value), log, incarnation, tick).1 == Ok
    ensures var s := Raw(log).value.store.spec;
            var e := BeginEpoch(s, incarnation, s.policy).0;
            e.epoch == s.epoch + 1 && e.incarnation == incarnation
  {
    hide RecoverFrom, ReconcileFrom;
  }

  lemma FateTotals(log: Log, s: Spec, t: Table<Grant>, u: Table<Grant>, k: Key)
    requires |t| == |u| && forall i :: 0 <= i < |t| ==> CrashFate(log, s, t[i], u[i])
    ensures Total(u, k) <= Total(t, k)
  {
    hide CrashFate;
    forall i | 0 <= i < |t| ensures Weight(k, u[i].val) <= Weight(k, t[i].val) { FateWeight(log, s, t[i], u[i], k); }
    PairwiseTotals(t, u, k);
  }

  lemma FateWeight(log: Log, s: Spec, a: Row<Grant>, b: Row<Grant>, k: Key)
    requires CrashFate(log, s, a, b)
    ensures Weight(k, b.val) <= Weight(k, a.val)
  {}

  lemma FateOf(log: Log, s: Store, d: Core, policy: RecoveryPolicy, i: nat, care: Care)
    requires Good(d, care) && i < |s.grants| && |d.store.grants| == |s.grants|
    requires Tagged(s.grants) && Evidenced(log, s.grants)
    requires Recovered(d.store, policy, s.grants[i], d.store.grants[i])
    ensures CrashFate(log, d.store.spec, s.grants[i], d.store.grants[i])
  {
    hide Linked, Evidence, Standing, StandsNow;
    var a, b := s.grants[i], d.store.grants[i];
    GoodRow(d, i, care);
    SameBinding(log, a, b);
  }

  // ----- exactly once -----

  /** One attempt id never has two grants, and every grant's attempt has a record naming the grant. */
  lemma ExactlyOnce(c: Core, i: nat, care: Care)
    requires hide Reachable; Reachable(c, care) && i < |c.store.grants|
    ensures forall j :: 0 <= j < |c.store.grants| && j != i ==>
              c.store.grants[j].val.binding.attempt != c.store.grants[i].val.binding.attempt
    ensures Has(c.store.attempts, c.store.grants[i].val.binding.attempt)
            && Get(c.store.attempts, c.store.grants[i].val.binding.attempt).value.grant == c.store.grants[i].id
  {
    hide Reachable;
    ReachableGood(c, care);
    GoodTable(c, care);
    GoodRow(c, i, care);
    OtherAttempts(c.store.grants, i);
    IdsUnique(c.store.grants);
  }

  /** The next identifiers to be minted are in nobody's hands, however often the controller restarted. */
  lemma NextNamesFresh(c: Core, i: nat, care: Care)
    requires hide Reachable;
             Reachable(c, care) && i < |c.store.grants| && c.grantSerial < U64_MAX && c.leaseSerial < U64_MAX
    ensures c.store.grants[i].id != GrantName(c.grantSerial + 1)
    ensures c.store.grants[i].val.binding.lease != LeaseName(c.leaseSerial + 1)
  {
    hide Reachable;
    ReachableGood(c, care);
    NamesNumber(c.grantSerial + 1);
    NamesNumber(c.leaseSerial + 1);
    GoodRow(c, i, care);
  }

  /** A retry mints nothing, whatever it asks for: its attempt is already known. */
  lemma RetryChangesNothing(c: Core, r: Request, care: Care)
    requires hide Reachable, Submit; Reachable(c, care) && !r.renewal
    requires exists i :: 0 <= i < |c.store.grants| && c.store.grants[i].val.binding.attempt == r.attempt
    ensures Submit(c, r).0 == c
  {
    hide Good, RequestShape, FenceCheck, ContractCheck, ReplayAttempt, Renew, Admit, Settled, Upright, Reachable;
    ReachableGood(c, care);
    var i :| 0 <= i < |c.store.grants| && c.store.grants[i].val.binding.attempt == r.attempt;
    GoodRow(c, i, care);
  }

  // ----- no over-commit -----

  /** Held units never exceed a path's capacity, and an exclusive path has at most one holder. */
  lemma PathNotOvercommitted(c: Core, id: Id)
    requires hide Reachable; Reachable(c, Roomy) && Has(c.store.spec.paths, id)
    ensures var p := Get(c.store.spec.paths, id).value;
            Total(c.store.grants, OnPath(id)) <= p.capacity
            && (p.exclusive ==> Total(c.store.grants, Slot(id)) <= 1)
  {
    hide Reachable;
    ReachableGood(c, Roomy);
    GoodFits(c);
    var i := LowerBound(c.store.spec.paths, id);
    assert FitPath(c.store.grants, c.store.spec.paths[i].id, c.store.spec.paths[i].val);
  }

  /** Held units never exceed the total of the resource they are taken from. */
  lemma ResourceNotOvercommitted(c: Core, member: Id, id: Id)
    requires hide Reachable; Reachable(c, Roomy) && Has(c.store.spec.members, member) && id != []
    requires Owns(Get(c.store.spec.members, member).value, id)
    ensures Total(c.store.grants, OnResource(id))
            <= FindResource(Get(c.store.spec.members, member).value.resources, id).value.total
  {
    hide Reachable;
    ReachableGood(c, Roomy);
    GoodFits(c);
    var i := LowerBound(c.store.spec.members, member);
    assert FitResource(c.store.grants, c.store.spec.members[i].val, id);
  }

  lemma GoodFits(c: Core)
    requires Good(c, Roomy)
    ensures Fits(c.store.grants, c.store.spec)
  {}

  /** The sums the engine compares, which stop at the 64-bit maximum, are the true sums. */
  lemma SumsAreTrue(c: Core, k: Key, skip: Option<Id>, care: Care)
    requires Reachable(c, care)
    ensures Saturated(Held(c.store.grants, k, skip)) == Held(c.store.grants, k, skip)
  {
    hide Reachable;
    ReachableGood(c, care);
    GoodTagged(c, care);
    Bounded(c.store, care.Roomy?);
    NeverSaturates(c.store.grants, k, skip);
  }

  /** An exclusive path never has two grants on it, of whatever attempts. */
  lemma OneHolder(c: Core, i: nat, j: nat, path: Id)
    requires hide Reachable; Reachable(c, Roomy) && i < j < |c.store.grants| && Has(c.store.spec.paths, path)
    requires Get(c.store.spec.paths, path).value.exclusive
    ensures !(HoldsCapacity(c.store.grants[i].val.state) && HoldsCapacity(c.store.grants[j].val.state)
              && c.store.grants[i].val.binding.path == c.store.grants[j].val.binding.path == path)
  {
    hide Good, Reachable;
    ReachableGood(c, Roomy);
    PathNotOvercommitted(c, path);
    TotalAtLeast(c.store.grants, i, j, Slot(path));
  }

  // ----- live grants are valid -----

  /** Every usable grant names present members at the generation bound and a digest that agrees, an
      existing path at the generation bound that is neither down nor unknown and has room for it, and
      the current epoch and incarnation. */
  lemma LiveValid(c: Core, i: nat, care: Care)
    requires hide Reachable;
             Reachable(c, care) && !care.Loose? && i < |c.store.grants| && IsLive(c.store.grants[i].val.state)
    ensures var g := c.store.grants[i].val;
            var s := c.store.spec;
            && Has(s.members, g.binding.source) && Has(s.members, g.binding.destination)
            && Has(s.paths, g.binding.path)
            && var x := Get(s.members, g.binding.source).value;
            var y := Get(s.members, g.binding.destination).value;
            var p := Get(s.paths, g.binding.path).value;
            && x.lifecycle != Removed && y.lifecycle != Removed
            && x.generation == g.binding.sourceGeneration && y.generation == g.binding.destinationGeneration
            && DigestAgrees(x.digest, g.binding.sourceDigest) && DigestAgrees(y.digest, g.binding.destinationDigest)
            && p.generation == g.binding.pathGeneration && p.state != Down && p.state != UnknownPath
            && g.units <= p.capacity
            && g.at.epoch == s.epoch && g.at.incarnation == s.incarnation
  {
    hide Reachable;
    ReachableGood(c, care);
    GoodRow(c, i, care);
  }

  // ----- what clients are told -----

  predicate Usable(s: GrantState) { s == Committed || s == Acknowledged }

  /** An attempt record always names a grant of the table, and is closed only when that is over. */
  lemma AttemptGrant(c: Core, id: Id, care: Care)
    requires hide Reachable; Reachable(c, care) && Has(c.store.attempts, id)
    ensures var a := Get(c.store.attempts, id).value;
            && a.grant != [] && Has(c.store.grants, a.grant)
            && var g := Get(c.store.grants, a.grant).value;
            && g.binding.attempt == id && Carries(g.outcome) && g.state != Prepared && g.state != Superseded
            && (a.released || a.cancelled ==> IsTerminal(g.state))
  {
    hide Reachable;
    ReachableGood(c, care);
    GoodTagged(c, care);
    var k := LowerBound(c.store.attempts, id);
    assert Linked1(c.store.grants, c.store.attempts[k]);
    var i := LowerBound(c.store.grants, c.store.attempts[k].val.grant);
    assert c.store.grants[i].id != [];
    GoodRow(c, i, care);
  }

  /** `resolve` says GRANTED or DEGRADED exactly of attempts whose grant is committed or acknowledged. */
  lemma ResolveExact(c: Core, r: ResolveRequest, care: Care)
    requires hide Reachable; Reachable(c, care)
    ensures Carries(Resolve(c, r).outcome) <==>
              r.id != [] && r.attempt != [] && Has(c.store.attempts, r.attempt)
              && var a := Get(c.store.attempts, r.attempt).value;
                 Has(c.store.grants, a.grant) && Usable(Get(c.store.grants, a.grant).value.state)
  {
    hide Good, Reachable;
    ReachableGood(c, care);
    if Has(c.store.attempts, r.attempt) { AttemptGrant(c, r.attempt, care); }
  }

  lemma ReplayExact(c: Core, r: Request, care: Care)
    requires hide Reachable; Reachable(c, care) && Has(c.store.attempts, r.attempt)
    ensures var a := Get(c.store.attempts, r.attempt).value;
            Carries(ReplayAttempt(c, a, r).outcome) <==>
              !IsZero(a.digest) && a.digest == r.digest && Has(c.store.grants, a.grant)
              && Usable(Get(c.store.grants, a.grant).value.state)
  {
    hide Good, Reachable;
    ReachableGood(c, care);
    AttemptGrant(c, r.attempt, care);
  }

  lemma FenceRefuses(s: Spec, r: Request)
    ensures FenceCheck(s, r).Fail? ==> !Carries(FenceCheck(s, r).outcome)
  {}

  lemma SpecNamed(c: Core, care: Care)
    requires hide Reachable; Reachable(c, care)
    ensures c.store.spec.id != []
  {
    hide Reachable;
    ReachableGood(c, care);
  }

  /** A retried submission is answered GRANTED or DEGRADED exactly when it is well formed, is made for this cluster against
      exactly the present coordinate, is the request first seen, and its grant is still committed or acknowledged. */
  lemma RetryExact(c: Core, r: Request, care: Care)
    requires hide Reachable; Reachable(c, care) && Has(c.store.attempts, r.attempt) && !r.renewal
    ensures Submit(c, r).0 == c
    ensures var a := Get(c.store.attempts, r.attempt).value;
            Carries(Submit(c, r).1.outcome) <==>
              WellFormed(r) && ForNow(c, r)
              && !IsZero(a.digest) && a.digest == r.digest && Has(c.store.grants, a.grant)
              && Usable(Get(c.store.grants, a.grant).value.state)
  {
    hide Reachable, RequestShape, FenceCheck, ReplayAttempt, ContractCheck, Renew, Admit, IsZero, LowerBound, WellFormed;
    FenceRefuses(c.store.spec, r);
    SpecNamed(c, care);
    ShapeIs(r);
    FenceIs(c.store.spec, r);
    ReplayExact(c, r, care);
  }

  // ----- compaction -----

  /** Compaction preserves meaning: the live state is untouched, replaying the new log gives it back
      exactly, and any later changes replay on the new log as they would have on the old one. */
  lemma CompactionTransparent(c: Core, before: Log, after: Log, care: Care)
    requires hide Reachable; Reachable(c, care) && SameChanges(before, after)
    requires Consecutive(before, NextSequence(c.log)) && Consecutive(after, NextSequence(Compact(c).log))
    ensures Raw(Compact(c).log).Success?
    ensures Compact(c).store == c.store && Finish(Raw(Compact(c).log).value) == c.store
    ensures Raw(c.log + before).Success? <==> Raw(Compact(c).log + after).Success?
    ensures Raw(c.log + before).Success? ==>
              Abs(Raw(c.log + before).value.store) == Abs(Raw(Compact(c).log + after).value.store)
  {
    hide Reachable;
    ReachableGood(c, care);
    CompactGood(c, care);
    CompactedState(c, care);
    ReplayOf(c, care);
    ReplayOf(Compact(c), care);
    hide Good, Compact, Abs;
    RawSplit(c.log, before);
    RawSplit(Compact(c).log, after);
    TailOnAbs(Raw(c.log).value, Raw(Compact(c).log).value, before, after);
  }

  lemma ReplayOf(c: Core, care: Care)
    requires Good(c, care)
    ensures Raw(c.log).Success? && Raw(c.log).value.next == Some(NextSequence(c.log))
            && Abs(Raw(c.log).value.store) == Abs(c.store)
  {}

  lemma CompactedState(c: Core, care: Care)
    requires Good(c, care)
    ensures Raw(Compact(c).log).Success? && Finish(Raw(Compact(c).log).value) == c.store
  {
    hide Good, Linked, SortById, Durable;
    GoodTable(c, care);
    SortedAttempts(c, care.Roomy?);
    SnapshotExact(c.store, c.store.tick);
    RawAppend([Entry(0, c.store.tick, Snapshot(c.store))], Entry(1, c.store.tick, CountersSync));
  }
}
