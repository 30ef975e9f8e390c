/** The controller's state invariant, and that each of its loops keeps it. */
module Invariant {
  import opened Tables
  import opened Model
  import opened Cluster
  import opened Accounting
  import opened Eligibility
  import opened Engine
  import opened Replay
  import opened Safety
  import opened Durability
  import opened Fates
  import Decimal
  import W = Wording

  /** How much is asked of a run. `Loose`: accepted mutations, nothing about capacity. `Steady`:
      also the default path and capacity options, and renewals that stay on their grant's own path and
      resource. `Roomy`: also no mutation takes away capacity that is held. */
  datatype Care = Loose | Steady | Roomy

  predicate Settled(g: Grant) { Tag(g) && g.state != Prepared && (g.state == Acknowledged ==> g.acknowledged) }

  predicate Numbered(c: Core, row: Row<Grant>)
  {
    Decimal.Suffix(row.id) <= c.grantSerial && Decimal.Suffix(row.val.binding.lease) <= c.leaseSerial
  }

  predicate Recorded(c: Core, row: Row<Grant>)
  {
    Has(c.store.attempts, row.val.binding.attempt)
    && Get(c.store.attempts, row.val.binding.attempt).value.grant == row.id
  }

  predicate Current(s: Spec, g: Grant)
  {
    g.at.epoch == s.epoch && g.at.incarnation == s.incarnation
  }

  /** Members present at the generation and digest bound, path present at the generation bound,
      usable, and large enough. */
  predicate StandsNow(s: Spec, g: Grant)
  {
    var b := g.binding;
    && MemberAsBound(Get(s.members, b.source), b.sourceGeneration, b.sourceDigest)
    && MemberAsBound(Get(s.members, b.destination), b.destinationGeneration, b.destinationDigest)
    && PathAsBound(Get(s.paths, b.path), b.pathGeneration, g.units)
  }

  predicate Upright(s: Spec, g: Grant, care: Care)
  {
    IsLive(g.state) ==> Current(s, g) && (care.Loose? || StandsNow(s, g))
  }

  predicate Base(c: Core, row: Row<Grant>)
  {
    Settled(row.val) && Numbered(c, row) && Recorded(c, row)
  }

  ghost predicate AllBase(c: Core)
  {
    forall i :: 0 <= i < |c.store.grants| ==> Base(c, c.store.grants[i])
  }

  ghost predicate UprightTo(c: Core, n: nat, care: Care)
  {
    forall i :: 0 <= i < |c.store.grants| && i < n ==> Upright(c.store.spec, c.store.grants[i].val, care)
  }

  predicate CareOptions(o: Options, care: Care)
  {
    care.Loose? || (o.requirePath && o.enforceCapacity)
  }

  /** The invariant of every reachable state. */
  ghost predicate Good(c: Core, care: Care)
  {
    && Linked(c, care.Roomy?) && CareOptions(c.options, care)
    && AllBase(c) && UprightTo(c, |c.store.grants|, care)
  }

  // ----- revalidation -----

  predicate OnlyGrants(a: Core, b: Core)
  {
    b.options == a.options && b.grantSerial == a.grantSerial && b.leaseSerial == a.leaseSerial
    && b.store == a.store.(grants := b.store.grants) && |b.store.grants| == |a.store.grants|
  }

  lemma StandsStill(s: Store, g: Grant)
    requires Stands(s, g)
    ensures StandsNow(s.spec, g)
  {}

  lemma StandsByBinding(s: Spec, g: Grant, h: Grant)
    requires StandsNow(s, g) && h.binding == g.binding && h.units <= g.units
    ensures StandsNow(s, h)
  {}

  lemma RevalidateShape(c: Core, i: nat, care: Care)
    requires i < |c.store.grants|
    ensures var r := Revalidate(c, i);
            && OnlyGrants(c, r) && Settled(r.store.grants[i].val)
            && Upright(c.store.spec, r.store.grants[i].val, care)
            && Judged(c.store, c.store.grants[i], r.store.grants[i])
            && forall j :: 0 <= j < |c.store.grants| && j != i ==> r.store.grants[j] == c.store.grants[j]
  {
    hide Revalidate, Stands, StandsNow, Falls, Survives;
    var g := c.store.grants[i].val;
    RevalidateFate(c, i);
    var h := Revalidate(c, i).store.grants[i].val;
    if Stands(c.store, g) {
      StandsStill(c.store, g);
      SurvivorKeeps(c.store, g, h);
      StandsByBinding(c.store.spec, g, h);
    } else {
      FallenKeeps(c.store, g, h);
    }
  }

  /** What judgement leaves alone, and where it puts a grant. */
  lemma SurvivorKeeps(s: Store, a: Grant, b: Grant)
    requires Stands(s, a) && Survives(s, a, b)
    ensures b.binding == a.binding && b.units == a.units && b.state == Committed && b.acknowledged == a.acknowledged
    ensures b.at == Here(s.spec) && b.commit == CommitDone && b.reserved
  {
    hide Stands, Strains, Notes;
  }

  lemma FallenKeeps(s: Store, a: Grant, b: Grant)
    requires Falls(s, a, b)
    ensures b.binding == a.binding && b.units == a.units && b.state == Revoked && !b.reserved
  {
    hide FirstGone, Notes;
  }

  lemma JudgedKeeps(s: Store, a: Row<Grant>, b: Row<Grant>)
    requires Judged(s, a, b)
    ensures b.id == a.id && b.val.binding == a.val.binding && b.val.units == a.val.units
    ensures if Stands(s, a.val) then b.val.state == Committed && b.val.at == Here(s.spec) && b.val.acknowledged == a.val.acknowledged
            else b.val.state == Revoked
  {
    hide Stands, Survives, Falls;
    if Stands(s, a.val) { SurvivorKeeps(s, a.val, b.val); } else { FallenKeeps(s, a.val, b.val); }
  }

  lemma RevalidateOne(c: Core, i: nat, care: Care)
    requires Linked(c, care.Roomy?) && i < |c.store.grants| && HoldsCapacity(c.store.grants[i].val.state)
    ensures var r := Revalidate(c, i);
            && Linked(r, care.Roomy?) && OnlyGrants(c, r) && (AllBase(c) ==> AllBase(r))
            && Settled(r.store.grants[i].val) && Upright(c.store.spec, r.store.grants[i].val, care)
            && Judged(c.store, c.store.grants[i], r.store.grants[i])
            && forall j :: 0 <= j < |c.store.grants| && j != i ==> r.store.grants[j] == c.store.grants[j]
  {
    hide Linked, Revalidate, Upright, Judged, Settled;
    var r := Revalidate(c, i);
    LoggedRevalidation(c, i, care.Roomy?);
    RevalidateShape(c, i, care);
    JudgedKeeps(c.store, c.store.grants[i], r.store.grants[i]);
    if AllBase(c) {
      forall j | 0 <= j < |r.store.grants| ensures Base(r, r.store.grants[j]) {
        assert Base(c, c.store.grants[j]);
      }
    }
  }

  lemma {:induction false} RevalidateAll(c: Core, i: nat, care: Care)
    requires Linked(c, care.Roomy?) && AllBase(c) && UprightTo(c, i, care)
    ensures var r := RevalidateFrom(c, i);
            && Linked(r, care.Roomy?) && AllBase(r) && OnlyGrants(c, r) && UprightTo(r, |c.store.grants|, care)
            && (forall j :: 0 <= j < |c.store.grants| && j < i ==> r.store.grants[j] == c.store.grants[j])
            && forall j :: i <= j < |c.store.grants| ==> Fate(c.store, c.store.grants[j], r.store.grants[j])
    decreases |c.store.grants| - i
  {
    hide Linked, AllBase, Revalidate, Judged, Upright;
    RevalidateFates(c, i);
    if i < |c.store.grants| {
      if IsLive(c.store.grants[i].val.state) {
        HoldersLive(c, i);
        var d := Revalidate(c, i);
        RevalidateOne(c, i, care);
        RevalidateAll(d, i + 1, care);
      } else {
        LeftAlone(c, i, care);
        RevalidateAll(c, i + 1, care);
      }
    }
  }

  lemma HoldersLive(c: Core, i: nat)
    requires AllBase(c) && i < |c.store.grants| && IsLive(c.store.grants[i].val.state)
    ensures HoldsCapacity(c.store.grants[i].val.state)
  {
    assert Base(c, c.store.grants[i]);
  }

  lemma LeftAlone(c: Core, i: nat, care: Care)
    requires i < |c.store.grants| && !IsLive(c.store.grants[i].val.state)
    ensures Upright(c.store.spec, c.store.grants[i].val, care)
  {}

  // ----- bulk termination -----

  predicate Ended(a: Row<Grant>, b: Row<Grant>, state: GrantState)
  {
    b.id == a.id && b.val.binding == a.val.binding && b.val.units == a.val.units && b.val.state == state
  }

  lemma TerminateOne(c: Core, i: nat, g: Grant, state: GrantState, reason: Reason, release: bool, care: Care)
    requires Linked(c, care.Roomy?) && i < |c.store.grants| && GrantShape(g)
    requires g.binding == c.store.grants[i].val.binding && g.units == c.store.grants[i].val.units
    requires !IsTerminal(c.store.grants[i].val.state) && IsTerminal(state) && state != Superseded && (release || !g.reserved)
    ensures var r := Terminate(c, i, g, state, reason, release);
            && Linked(r, care.Roomy?) && OnlyGrants(c, r) && Ended(c.store.grants[i], r.store.grants[i], state)
            && (Numbered(c, c.store.grants[i]) && Recorded(c, c.store.grants[i]) ==> Base(r, r.store.grants[i]))
            && forall j :: 0 <= j < |c.store.grants| && j != i ==> r.store.grants[j] == c.store.grants[j]
  {
    hide Linked;
    LoggedTermination(c, i, g, state, reason, release, care.Roomy?);
  }

  /** One row rewritten, keeping what it binds, leaves the invariant to that row alone. */
  lemma RowGood(c: Core, i: nat, r: Core, care: Care)
    requires Good(c, care) && i < |c.store.grants| && Linked(r, care.Roomy?) && OnlyGrants(c, r)
    requires r.store.grants[i].id == c.store.grants[i].id
             && r.store.grants[i].val.binding == c.store.grants[i].val.binding
    requires Settled(r.store.grants[i].val) && Upright(c.store.spec, r.store.grants[i].val, care)
    requires forall j :: 0 <= j < |c.store.grants| && j != i ==> r.store.grants[j] == c.store.grants[j]
    ensures Good(r, care)
  {
    hide Linked, Upright, Settled;
    forall j | 0 <= j < |r.store.grants|
      ensures Base(r, r.store.grants[j]) && Upright(r.store.spec, r.store.grants[j].val, care)
    {
      assert Base(c, c.store.grants[j]) && Upright(c.store.spec, c.store.grants[j].val, care);
    }
  }

  lemma TerminateGood(c: Core, i: nat, state: GrantState, reason: Reason, care: Care)
    requires Good(c, care) && i < |c.store.grants| && IsTerminal(state) && state != Superseded
    requires !IsTerminal(c.store.grants[i].val.state)
    ensures var r := Terminate(c, i, c.store.grants[i].val, state, reason, true);
            && Good(r, care) && OnlyGrants(c, r) && Ended(c.store.grants[i], r.store.grants[i], state)
            && forall j :: 0 <= j < |c.store.grants| && j != i ==> r.store.grants[j] == c.store.grants[j]
  {
    var r := Terminate(c, i, c.store.grants[i].val, state, reason, true);
    GoodRow(c, i, care);
    hide Linked, StandsNow, Current;
    TerminateOne(c, i, c.store.grants[i].val, state, reason, true, care);
    RowGood(c, i, r, care);
  }

  lemma {:induction false} FenceAllGood(c: Core, i: nat, reason: Reason, care: Care)
    requires Good(c, care)
    ensures var r := FenceFrom(c, i, reason);
            && Good(r, care) && OnlyGrants(c, r)
            && (forall j :: 0 <= j < |c.store.grants| && j < i ==> r.store.grants[j] == c.store.grants[j])
            && forall j :: i <= j < |c.store.grants| ==>
                 if HoldsCapacity(c.store.grants[j].val.state) then Ended(c.store.grants[j], r.store.grants[j], Fenced)
                 else r.store.grants[j] == c.store.grants[j]
    decreases |c.store.grants| - i
  {
    hide Good, Terminate, Ended;
    if i < |c.store.grants| {
      if HoldsCapacity(c.store.grants[i].val.state) { TerminateGood(c, i, Fenced, reason, care); }
      FenceAllGood(if HoldsCapacity(c.store.grants[i].val.state)
                   then Terminate(c, i, c.store.grants[i].val, Fenced, reason, true) else c, i + 1, reason, care);
    }
  }

  /** An attempt record is rewritten, still naming the same grant. */
  lemma AttemptGood(c: Core, id: Id, a: Attempt, care: Care)
    requires Good(c, care) && Linked1(c.store.grants, Row(id, a))
    requires Has(c.store.attempts, id) ==> a.grant == Get(c.store.attempts, id).value.grant
    ensures Room(c.store.attempts, id, MAX_ATTEMPTS) == Ok
    ensures Good(PutAttempt(Append(c, AttemptTerminal(id, a)), id, a), care)
  {
    hide Linked, Linked1, Put, Upright, Base, Has;
    LoggedAttempt(c, id, a, care.Roomy?);
    SortedAttempts(c, care.Roomy?);
    RecordedKept(c, PutAttempt(Append(c, AttemptTerminal(id, a)), id, a), id, a);
  }

  lemma SortedAttempts(c: Core, fit: bool)
    requires Linked(c, fit)
    ensures Sorted(c.store.attempts)
  {}

  lemma RecordedKept(c: Core, r: Core, id: Id, a: Attempt)
    requires AllBase(c) && Sorted(c.store.attempts)
    requires Has(c.store.attempts, id) ==> a.grant == Get(c.store.attempts, id).value.grant
    requires r.store == c.store.(attempts := Put(c.store.attempts, id, a))
    requires r.grantSerial == c.grantSerial && r.leaseSerial == c.leaseSerial
    ensures AllBase(r)
  {
    forall i | 0 <= i < |r.store.grants| ensures Base(r, r.store.grants[i]) {
      assert Base(c, c.store.grants[i]);
      GetPut(c.store.attempts, id, a, c.store.grants[i].val.binding.attempt);
    }
  }

  lemma GoodRow(c: Core, i: nat, care: Care)
    requires Good(c, care) && i < |c.store.grants|
    ensures var g := c.store.grants[i].val;
            Settled(g) && (IsLive(g.state) ==> HoldsCapacity(g.state))
            && Base(c, c.store.grants[i]) && Upright(c.store.spec, g, care) && GrantShape(g)
  {
    assert Base(c, c.store.grants[i]) && GrantShape(c.store.grants[i].val);
  }

  lemma ExpireGood(c: Core, i: nat, care: Care)
    requires Good(c, care) && i < |c.store.grants| && HoldsCapacity(c.store.grants[i].val.state)
    ensures var row := c.store.grants[i]; var r := Expire(c, i);
            && Good(r, care) && Room(c.store.attempts, row.val.binding.attempt, MAX_ATTEMPTS) == Ok
            && |r.store.grants| == |c.store.grants|
            && r.store == c.store.(grants := r.store.grants, attempts := r.store.attempts)
            && Ended(row, r.store.grants[i], Expired)
            && forall j :: 0 <= j < |c.store.grants| && j != i ==> r.store.grants[j] == c.store.grants[j]
  {
    hide Good, Terminate, Put;
    var row := c.store.grants[i];
    var d := Terminate(c, i, row.val, Expired, W.LeaseOver(c.store.tick), true);
    TerminateGood(c, i, Expired, W.LeaseOver(c.store.tick), care);
    OwnRecord(d, i, ExpiredAttempt(c, row), care);
    AttemptGood(d, row.val.binding.attempt, ExpiredAttempt(c, row), care);
  }

  /** A record that names the grant whose attempt it is for, once that grant is over. */
  lemma OwnRecord(c: Core, i: nat, a: Attempt, care: Care)
    requires Good(c, care) && i < |c.store.grants| && a.grant == c.store.grants[i].id
    requires IsTerminal(c.store.grants[i].val.state)
    ensures var id := c.store.grants[i].val.binding.attempt;
            Linked1(c.store.grants, Row(id, a)) && Get(c.store.attempts, id).Some?
            && a.grant == Get(c.store.attempts, id).value.grant
  {
    hide Durable, Upright;
    assert Base(c, c.store.grants[i]);
    RowFound(c.store.grants, i);
  }

  lemma {:induction false} ExpireAllGood(c: Core, i: nat, care: Care)
    requires Good(c, care)
    ensures var r := ExpireFrom(c, i);
            && Good(r, care) && |r.store.grants| == |c.store.grants|
            && r.store == c.store.(grants := r.store.grants, attempts := r.store.attempts)
            && (forall j :: 0 <= j < |c.store.grants| && j < i ==> r.store.grants[j] == c.store.grants[j])
            && forall j :: i <= j < |c.store.grants| ==>
                 if IsLive(c.store.grants[j].val.state) && ExpiredAt(c.store.grants[j].val, c.store.tick)
                 then Ended(c.store.grants[j], r.store.grants[j], Expired)
                 else r.store.grants[j] == c.store.grants[j]
    decreases |c.store.grants| - i
  {
    hide Good, Expire, Ended, ExpiredAt, Base, Upright, GrantShape, Settled;
    if i < |c.store.grants| {
      var row := c.store.grants[i];
      GoodRow(c, i, care);
      if IsLive(row.val.state) && ExpiredAt(row.val, c.store.tick) {
        ExpireGood(c, i, care);
        ExpireAllGood(Expire(c, i), i + 1, care);
      } else {
        ExpireAllGood(c, i + 1, care);
      }
    }
  }
}
