/** Crash and recovery: what `recover` makes of any non-empty prefix of the log. */
module Recovery {
  import opened Tables
  import opened Model
  import opened Cluster
  import opened Accounting
  import opened Eligibility
  import opened Engine
  import opened Replay
  import opened Safety
  import opened Durability
  import opened Fates
  import opened Invariant
  import Decimal
  import W = Wording

  /** What recovery makes of one replayed grant. A prepare without its commit is dropped; a commit not
      known to be acknowledged is quarantined with exactly its units; an acknowledged one is judged
      under the new epoch; everything else is left alone. */
  predicate Recovered(s: Store, policy: RecoveryPolicy, a: Row<Grant>, b: Row<Grant>)
  {
    && b.id == a.id && b.val.binding == a.val.binding && b.val.units == a.val.units
    && (if !IsLive(a.val.state) then b == a
        else if a.val.state == Prepared then b.val.state == Released
        else if !WasAcknowledged(a.val) || policy == FenceAll then b.val.state == Ambiguous
        else Judged(s, a, b))
  }

  predicate GrantsAndAttempts(a: Core, b: Core)
  {
    b.options == a.options && b.grantSerial == a.grantSerial && b.leaseSerial == a.leaseSerial
    && b.store == a.store.(grants := b.store.grants, attempts := b.store.attempts)
    && |b.store.grants| == |a.store.grants|
  }

  lemma RecoveredSame(s: Store, t: Store, p: RecoveryPolicy, a: Row<Grant>, b: Row<Grant>)
    requires t.spec == s.spec && t.contracts == s.contracts
    ensures Recovered(s, p, a, b) == Recovered(t, p, a, b)
  {
    hide Judged;
    FateAlike(s, t, a, b);
  }

  function Dropped(g: Grant): Grant
  {
    g.(state := Released, reserved := false, releaseSeq := 0,
       reductions := g.reductions + [W.LostPrepare()])
  }

  lemma AbandonKeeps(c: Core, i: nat, fit: bool)
    requires Linked(c, fit) && i < |c.store.grants| && c.store.grants[i].val.state == Prepared
    ensures var r := AbandonPrepared(c, i);
            && Linked(r, fit) && GrantsAndAttempts(c, r)
            && Ended(c.store.grants[i], r.store.grants[i], Released) && Settled(r.store.grants[i].val)
            && forall j :: 0 <= j < |c.store.grants| && j != i ==> r.store.grants[j] == c.store.grants[j]
  {
    hide Linked, Put, AttemptOf, NextSequence, AddReason, Room;
    var row := c.store.grants[i];
    var d := Terminate(c, i, Dropped(row.val), Released, W.NoCommit(), false);
    LinkedRow(c, i, fit);
    LoggedTermination(c, i, Dropped(row.val), Released, W.NoCommit(), false, fit);
    EndAttempt(d, i, Unfinished(c, row), fit);
  }

  /** A terminal or quarantined grant's attempt record is rewritten. */
  lemma EndAttempt(c: Core, i: nat, a: Attempt, fit: bool)
    requires Linked(c, fit) && i < |c.store.grants| && a.grant == c.store.grants[i].id
    requires a.released || a.cancelled ==> IsTerminal(c.store.grants[i].val.state)
    ensures var id := c.store.grants[i].val.binding.attempt;
            Room(c.store.attempts, id, MAX_ATTEMPTS) == Ok
            && Linked(PutAttempt(Append(c, AttemptTerminal(id, a)), id, a), fit)
  {
    hide Linked;
    LinkedRow(c, i, fit);
    LoggedAttempt(c, c.store.grants[i].val.binding.attempt, a, fit);
  }

  lemma LinkedRow(c: Core, i: nat, fit: bool)
    requires Linked(c, fit) && i < |c.store.grants|
    ensures GrantShape(c.store.grants[i].val) && Sorted(c.store.attempts)
    ensures Has(c.store.grants, c.store.grants[i].id)
            && Get(c.store.grants, c.store.grants[i].id) == Some(c.store.grants[i].val)
  {
    RowFound(c.store.grants, i);
  }

  lemma QuarantineKeeps(c: Core, i: nat, fit: bool)
    requires hide Linked, Quarantine;
             Linked(c, fit) && i < |c.store.grants| && HoldsCapacity(c.store.grants[i].val.state)
    requires IsLive(c.store.grants[i].val.state)
    ensures var r := Quarantine(c, i);
            && Linked(r, fit) && GrantsAndAttempts(c, r)
            && Ended(c.store.grants[i], r.store.grants[i], Ambiguous) && Settled(r.store.grants[i].val)
            && forall j :: 0 <= j < |c.store.grants| && j != i ==> r.store.grants[j] == c.store.grants[j]
  {
    hide Linked;
    var row := c.store.grants[i];
    QuarantineRow(c, i, fit);
    NotOver(c, i, fit);
    EndAttempt(SetAside(c, i), i, Uncertain(c, row), fit);
  }

  /** Quarantine before its attempt record. */
  function SetAside(c: Core, i: nat): Core
    requires i < |c.store.grants|
  {
    var row := c.store.grants[i];
    SetGrant(Append(c, GrantRecord(TerminalRecord, row.id, Quarantined(row.val), Ambiguous)), i, Quarantined(row.val))
  }

  lemma QuarantineRow(c: Core, i: nat, fit: bool)
    requires Linked(c, fit) && i < |c.store.grants| && HoldsCapacity(c.store.grants[i].val.state)
    ensures Linked(SetAside(c, i), fit)
  {
    hide Linked;
    var g := Quarantined(c.store.grants[i].val);
    LinkedRow(c, i, fit);
    LoggedRow(c, i, TerminalRecord, g, Ambiguous, g, fit);
  }

  /** The record of a live grant's attempt is not closed. */
  lemma NotOver(c: Core, i: nat, fit: bool)
    requires Linked(c, fit) && i < |c.store.grants| && !IsTerminal(c.store.grants[i].val.state)
    ensures var a := AttemptOf(c, c.store.grants[i].val.binding.attempt); !a.released && !a.cancelled
  {
    var id := c.store.grants[i].val.binding.attempt;
    if Has(c.store.attempts, id) { AttemptNames(c.store, i); }
  }

  /** The record of a grant's attempt names that grant. */
  lemma AttemptNames(s: Store, i: nat)
    requires GrantsWell(s.grants) && AttemptsWell(s.grants, s.attempts) && i < |s.grants|
    requires Has(s.attempts, s.grants[i].val.binding.attempt)
    ensures var a := Get(s.attempts, s.grants[i].val.binding.attempt).value;
            a.grant == s.grants[i].id && Linked1(s.grants, Row(s.grants[i].val.binding.attempt, a))
            && Get(s.grants, a.grant) == Some(s.grants[i].val)
  {
    var id := s.grants[i].val.binding.attempt;
    var k := LowerBound(s.attempts, id);
    assert Linked1(s.grants, s.attempts[k]);
    var j := LowerBound(s.grants, s.attempts[k].val.grant);
    assert s.grants[j].val.binding.attempt == id;
    RowFound(s.grants, i);
  }

  lemma RecoverOne(c: Core, i: nat, care: Care)
    requires Linked(c, care.Roomy?) && i < |c.store.grants| && Tag(c.store.grants[i].val)
    ensures var r := RecoverGrant(c, i);
            && Linked(r, care.Roomy?) && GrantsAndAttempts(c, r)
            && Recovered(c.store, c.options.recovery, c.store.grants[i], r.store.grants[i])
            && Settled(r.store.grants[i].val) && Upright(c.store.spec, r.store.grants[i].val, care)
            && forall j :: 0 <= j < |c.store.grants| && j != i ==> r.store.grants[j] == c.store.grants[j]
  {
    hide Linked, Terminate, Quarantine, AbandonPrepared, Revalidate, StandsNow;
    var g := c.store.grants[i].val;
    if IsLive(g.state) {
      if g.state == Prepared {
        AbandonKeeps(c, i, care.Roomy?);
      } else if !WasAcknowledged(g) || c.options.recovery == FenceAll {
        QuarantineKeeps(c, i, care.Roomy?);
      } else {
        RevalidateOne(c, i, care);
      }
    }
  }

  ghost predicate SettledTo(c: Core, n: nat)
  {
    forall i :: 0 <= i < |c.store.grants| && i < n ==> Settled(c.store.grants[i].val)
  }

  lemma {:induction false} RecoverAll(c: Core, i: nat, care: Care)
    requires hide Linked, RecoverFrom, Recovered;
             Linked(c, care.Roomy?) && Tagged(c.store.grants) && SettledTo(c, i) && UprightTo(c, i, care)
    ensures var r := RecoverFrom(c, i);
            && Linked(r, care.Roomy?) && GrantsAndAttempts(c, r)
            && SettledTo(r, |c.store.grants|) && UprightTo(r, |c.store.grants|, care)
            && (forall j :: 0 <= j < |c.store.grants| && j < i ==> r.store.grants[j] == c.store.grants[j])
            && forall j :: i <= j < |c.store.grants| ==>
                 Recovered(c.store, c.options.recovery, c.store.grants[j], r.store.grants[j])
    decreases |c.store.grants| - i
  {
    hide Linked, RecoverGrant, Recovered, Upright;
    if i < |c.store.grants| {
      var d := RecoverGrant(c, i);
      RecoverOne(c, i, care);
      RecoverAll(d, i + 1, care);
      var r := RecoverFrom(d, i + 1);
      forall j | i < j < |c.store.grants|
        ensures Recovered(c.store, c.options.recovery, c.store.grants[j], r.store.grants[j])
      {
        assert Recovered(d.store, d.options.recovery, d.store.grants[j], r.store.grants[j]);
        RecoveredSame(c.store, d.store, c.options.recovery, c.store.grants[j], r.store.grants[j]);
      }
    }
  }

  // ----- missing attempt records -----

  ghost predicate HasAttempts(c: Core, n: nat)
  {
    forall i :: 0 <= i < |c.store.grants| && i < n ==> Has(c.store.attempts, c.store.grants[i].val.binding.attempt)
  }

  predicate OnlyAttempts(a: Core, b: Core)
  {
    b.options == a.options && b.grantSerial == a.grantSerial && b.leaseSerial == a.leaseSerial
    && b.store == a.store.(attempts := b.store.attempts)
  }

  lemma ReconcileOne(c: Core, i: nat, fit: bool)
    requires Linked(c, fit) && i < |c.store.grants| && Settled(c.store.grants[i].val) && HasAttempts(c, i)
    ensures var r := Reconcile(c, i); Linked(r, fit) && OnlyAttempts(c, r) && HasAttempts(r, i + 1)
  {
    var row := c.store.grants[i];
    var id := row.val.binding.attempt;
    LinkedRow(c, i, fit);
    if Has(c.store.attempts, id) {
      assert Reconcile(c, i) == c;
      MoreAttempts(c, i);
    } else {
      RepairedFits(c.store.tick, row);
      RepairAttempt(c, i, Repaired(c.store.tick, row), fit);
    }
  }

  lemma RepairAttempt(c: Core, i: nat, a: Attempt, fit: bool)
    requires Linked(c, fit) && i < |c.store.grants| && HasAttempts(c, i) && a.grant == c.store.grants[i].id
    requires a.released || a.cancelled ==> IsTerminal(c.store.grants[i].val.state)
    ensures var id := c.store.grants[i].val.binding.attempt;
            var r := PutAttempt(Append(c, AttemptTerminal(id, a)), id, a);
            Linked(r, fit) && OnlyAttempts(c, r) && HasAttempts(r, i + 1)
  {
    hide Linked, HasAttempts;
    EndAttempt(c, i, a, fit);
    LinkedRow(c, i, fit);
    HasAfterPut(c, i, c.store.grants[i].val.binding.attempt, a);
  }

  lemma MoreAttempts(c: Core, i: nat)
    requires HasAttempts(c, i) && i < |c.store.grants| && Has(c.store.attempts, c.store.grants[i].val.binding.attempt)
    ensures HasAttempts(c, i + 1)
  {}

  lemma RepairedFits(now: nat, row: Row<Grant>)
    requires Settled(row.val)
    ensures var a := Repaired(now, row);
            a.grant == row.id && (a.released || a.cancelled ==> IsTerminal(row.val.state))
  {}

  lemma HasAfterPut(c: Core, i: nat, id: Id, a: Attempt)
    requires Sorted(c.store.attempts) && HasAttempts(c, i)
    requires i < |c.store.grants| && c.store.grants[i].val.binding.attempt == id
    requires Room(c.store.attempts, id, MAX_ATTEMPTS) == Ok
    ensures HasAttempts(PutAttempt(Append(c, AttemptTerminal(id, a)), id, a), i + 1)
  {
    forall j | 0 <= j <= i ensures Has(Put(c.store.attempts, id, a), c.store.grants[j].val.binding.attempt) {
      GetPut(c.store.attempts, id, a, c.store.grants[j].val.binding.attempt);
    }
  }

  lemma {:induction false} ReconcileAll(c: Core, i: nat, fit: bool)
    requires Linked(c, fit) && SettledTo(c, |c.store.grants|) && HasAttempts(c, i)
    ensures var r := ReconcileFrom(c, i);
            Linked(r, fit) && OnlyAttempts(c, r) && HasAttempts(r, |c.store.grants|)
    decreases |c.store.grants| - i
  {
    hide Linked, Reconcile;
    if i < |c.store.grants| {
      ReconcileOne(c, i, fit);
      ReconcileAll(Reconcile(c, i), i + 1, fit);
    }
  }

  // ----- the whole recovery -----

  lemma {:induction false} MaxSuffixCovers(t: Table<Grant>, lease: bool, i: nat)
    requires i < |t|
    ensures Decimal.Suffix(if lease then t[i].val.binding.lease else t[i].id) <= MaxSuffix(t, lease)
  {
    if i < |t| - 1 {
      assert t[..|t| - 1][i] == t[i];
      MaxSuffixCovers(t[..|t| - 1], lease, i);
    }
  }

  lemma LoadedSorted(log: Log, fit: bool)
    requires DurableAt(log, fit)
    ensures Raw(log).Success? && Sorted(Raw(log).value.store.grants) && Sorted(Raw(log).value.store.attempts)
  {}

  /** The tables a log stands for, taken over as they are. */
  lemma LoadedLinked(c: Core, fit: bool)
    requires Durable(c.log, fit) && DurableAt(c.log, fit)
    requires var s := Finish(Raw(c.log).value); c.store == s.(tick := c.store.tick) && c.store.tick >= s.tick
    ensures Linked(c, fit)
  {
    hide Durable, GrantsWell, AttemptsWell, ContractsWell, Fits, Tag, Proves;
    assert Abs(Raw(c.log).value.store) == Abs(c.store);
  }

  /** A new epoch, on the log and in the specification. */
  lemma EpochLinked(c: Core, incarnation: seq<byte>, fit: bool)
    requires Linked(c, fit) && BeginEpoch(c.store.spec, incarnation, c.store.spec.policy).1 == Ok
    ensures var e := BeginEpoch(c.store.spec, incarnation, c.store.spec.policy).0;
            && Linked(Append(c.(store := c.store.(spec := e)), EpochBegin(e.id, Here(e))), fit)
            && e.epoch == c.store.spec.epoch + 1 && e.incarnation == incarnation
            && e.members == c.store.spec.members && e.paths == c.store.spec.paths
  {
    hide Linked, GrantsWell, AttemptsWell, ContractsWell, PathsFit, ResourcesFit, OneOwner;
    var e := BeginEpoch(c.store.spec, incarnation, c.store.spec.policy).0;
    LinkedSound(c, fit);
    Logged(c, EpochBegin(e.id, Here(e)), c.store.(spec := e), fit);
    assert Append(c.(store := c.store.(spec := e)), EpochBegin(e.id, Here(e)))
           == Append(c, EpochBegin(e.id, Here(e))).(store := c.store.(spec := e));
  }

  lemma LinkedSound(c: Core, fit: bool)
    requires Linked(c, fit)
    ensures Sound(c.store, fit)
  {}

  lemma LoadedTagged(log: Log, fit: bool)
    requires DurableAt(log, fit)
    ensures Raw(log).Success? && Tagged(Raw(log).value.store.grants)
  {}

  /** Adopting what a log stands for, and opening a new epoch on it. */
  lemma AdoptKeeps(options: Options, log: Log, incarnation: seq<byte>, tick: nat, fit: bool)
    requires Durable(log, fit) && log != [] && DurableAt(log, fit)
    requires Adopt(options, Finish(Raw(log).value), log, incarnation, tick).1 == Ok
    ensures var s := Raw(log).value.store;
            var c := Adopt(options, Finish(Raw(log).value), log, incarnation, tick).0;
            && Linked(c, fit) && Tagged(c.store.grants) && c.options == options
            && c.store.grants == s.grants && c.store.attempts == s.attempts && c.store.contracts == s.contracts
            && c.store.spec == BeginEpoch(s.spec, incarnation, s.spec.policy).0
            && c.store.spec.epoch == s.spec.epoch + 1 && c.store.spec.incarnation == incarnation
            && c.store.spec.members == s.spec.members && c.store.spec.paths == s.spec.paths
            && forall i :: 0 <= i < |c.store.grants| ==> Numbered(c, c.store.grants[i])
  {
    hide Linked, Durable, DurableAt, Raw, BeginEpoch, MaxSuffix, Tag, Here, Append;
    LoadedSorted(log, fit);
    LoadedTagged(log, fit);
    var s := Finish(Raw(log).value);
    SortOfSorted(s.grants);
    SortOfSorted(s.attempts);
    var now := if tick > s.tick then tick else s.tick;
    var c := Core(options, s.(tick := now), MaxSuffix(s.grants, false), MaxSuffix(s.grants, true), log);
    LoadedLinked(c, fit);
    EpochLinked(c, incarnation, fit);
    AppendKeeps(c.(store := c.store.(spec := BeginEpoch(s.spec, incarnation, s.spec.policy).0)),
                EpochBegin(BeginEpoch(s.spec, incarnation, s.spec.policy).0.id, Here(BeginEpoch(s.spec, incarnation, s.spec.policy).0)));
    forall i | 0 <= i < |s.grants|
      ensures Decimal.Suffix(s.grants[i].id) <= c.grantSerial && Decimal.Suffix(s.grants[i].val.binding.lease) <= c.leaseSerial
    {
      MaxSuffixCovers(s.grants, false, i);
      MaxSuffixCovers(s.grants, true, i);
    }
  }

  lemma AppendKeeps(c: Core, b: Body)
    ensures var d := Append(c, b);
            d.options == c.options && d.store == c.store && d.grantSerial == c.grantSerial && d.leaseSerial == c.leaseSerial
  {}

  /** Recovering from any log whose prefixes are sound gives back a good state. Every grant's fate is
      the one `Recovered` says, no matter where the log was cut. */
  lemma RecoverGood(options: Options, log: Log, incarnation: seq<byte>, tick: nat, care: Care)
    requires hide Recover, Raw, Recovered;
             Durable(log, care.Roomy?) && log != [] && DurableAt(log, care.Roomy?) && CareOptions(options, care)
    requires Recover(options, Finish(Raw(log).value), log, incarnation, tick).1 == Ok
    ensures var s := Raw(log).value.store;
            var c := Recover(options, Finish(Raw(log).value), log, incarnation, tick).0;
            && Good(c, care) && |c.store.grants| == |s.grants|
            && c.store.spec == BeginEpoch(s.spec, incarnation, s.spec.policy).0
            && c.store.contracts == s.contracts
            && forall i :: 0 <= i < |s.grants| ==> Recovered(c.store, options.recovery, s.grants[i], c.store.grants[i])
  {
    hide Good, Linked, Durable, DurableAt, Raw, BeginEpoch, RecoverFrom, ReconcileFrom, Recovered, Open, Tag, Sound;
    PrefixSorted(log, care.Roomy?);
    var s := Raw(log).value.store;
    var a := Adopt(options, Finish(Raw(log).value), log, incarnation, tick).0;
    AdoptKeeps(options, log, incarnation, tick, care.Roomy?);
    RecoverTail(a, care);
    var c := ReconcileFrom(RecoverFrom(a, 0), 0);
    forall i | 0 <= i < |s.grants| ensures Recovered(c.store, options.recovery, s.grants[i], c.store.grants[i]) {
      RecoveredSame(a.store, c.store, options.recovery, s.grants[i], c.store.grants[i]);
    }
  }

  lemma RecoverTail(a: Core, care: Care)
    requires hide Linked, RecoverFrom, ReconcileFrom, Recovered;
             Linked(a, care.Roomy?) && Tagged(a.store.grants) && CareOptions(a.options, care)
    requires forall i :: 0 <= i < |a.store.grants| ==> Numbered(a, a.store.grants[i])
    ensures var c := ReconcileFrom(RecoverFrom(a, 0), 0);
            && Good(c, care) && GrantsAndAttempts(a, c)
            && forall i :: 0 <= i < |a.store.grants| ==>
                 Recovered(a.store, a.options.recovery, a.store.grants[i], c.store.grants[i])
  {
    hide Recovered, Upright, Settled, Linked, RecoverFrom, ReconcileFrom, Standing;
    RecoverAll(a, 0, care);
    var b := RecoverFrom(a, 0);
    ReconcileAll(b, 0, care.Roomy?);
    var c := ReconcileFrom(b, 0);
    forall i | 0 <= i < |c.store.grants| ensures Base(c, c.store.grants[i]) {
      assert Numbered(a, a.store.grants[i]);
      assert Recovered(a.store, a.options.recovery, a.store.grants[i], b.store.grants[i]);
      KeptNames(a.store, a.options.recovery, a.store.grants[i], b.store.grants[i]);
      HasRecord(c, i, care.Roomy?);
    }
    assert UprightTo(c, |c.store.grants|, care) by {
      forall i | 0 <= i < |c.store.grants| ensures Upright(c.store.spec, c.store.grants[i].val, care) {
        assert Upright(b.store.spec, b.store.grants[i].val, care);
      }
    }
  }

  lemma HasRecord(c: Core, i: nat, fit: bool)
    requires Linked(c, fit) && i < |c.store.grants| && Has(c.store.attempts, c.store.grants[i].val.binding.attempt)
    ensures Recorded(c, c.store.grants[i])
  {
    AttemptNames(c.store, i);
  }

  lemma KeptNames(s: Store, p: RecoveryPolicy, a: Row<Grant>, b: Row<Grant>)
    requires Recovered(s, p, a, b)
    ensures b.id == a.id && b.val.binding == a.val.binding && b.val.units == a.val.units
  {}
}
