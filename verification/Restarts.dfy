/** What one restart makes the next one forget: acknowledgements. */
module Restarts {
  import opened Tables
  import opened Model
  import opened Cluster
  import opened Accounting
  import opened Eligibility
  import opened Engine
  import opened Replay
  import opened Safety
  import opened Durability
  import opened Invariant
  import opened Fates
  import opened Recovery
  import opened Submission
  import opened Runs
  import opened Guarantees

  // ----- the last record of a grant -----

  /** A grant as the last record that tells of it has it. */
  function LastRecord(log: Log, id: Id): Option<Grant>
  {
    if log == [] then None else
      match log[|log| - 1].body
      case Snapshot(image) => Get(SortById(image.grants), id)
      case GrantRecord(_, other, g, state) =>
        if other == id then Some(Adopted(g, state)) else LastRecord(log[..|log| - 1], id)
      case _ => LastRecord(log[..|log| - 1], id)
  }

  /** A log stands for each grant as it was last recorded. */
  lemma {:induction false} LastRecordIs(log: Log, k: nat, id: Id, fit: bool)
    requires Durable(log, fit) && k <= |log|
    ensures Raw(log[..k]).Success? && Get(Raw(log[..k]).value.store.grants, id) == LastRecord(log[..k], id)
    decreases k
  {
    hide DurableAt;
    if k == 0 {
      assert log[..0] == [];
      assert Raw([]) == Success(EMPTY);
    } else {
      PrefixSorted(log[..k], fit);
      LastRecordIs(log, k - 1, id, fit);
      assert log[..k][..k - 1] == log[..k - 1];
      if k > 1 { PrefixSorted(log[..k - 1], fit); } else { assert log[..0] == []; }
      LastEffect(log[..k], id);
    }
  }

  lemma LastEffect(log: Log, id: Id)
    requires log != [] && Raw(log).Success? && Sorted(Raw(log[..|log| - 1]).value.store.grants)
    requires Get(Raw(log[..|log| - 1]).value.store.grants, id) == LastRecord(log[..|log| - 1], id)
    ensures Get(Raw(log).value.store.grants, id) == LastRecord(log, id)
  {
    hide Put, ApplySpec, ApplyContract, BeginEpoch, SortById, ReplayCancel, LowerBound;
    var b := log[|log| - 1].body;
    if b.GrantRecord? { GetPut(Raw(log[..|log| - 1]).value.store.grants, b.id, Adopted(b.grant, b.state), id); }
  }

  /** Records that tell of other things leave it as it was. */
  lemma {:induction false} Unmentioned(log: Log, tail: Log, id: Id)
    requires forall i :: 0 <= i < |tail| ==> !tail[i].body.Snapshot? && (tail[i].body.GrantRecord? ==> tail[i].body.id != id)
    ensures LastRecord(log + tail, id) == LastRecord(log, id)
    decreases |tail|
  {
    if tail == [] {
      assert log + tail == log;
    } else {
      var n := |tail| - 1;
      assert (log + tail)[..|log + tail| - 1] == log + tail[..n];
      Unmentioned(log, tail[..n], id);
    }
  }

  // ----- an acknowledgement is forgotten -----

  lemma StandsAlike(s: Store, t: Store, g: Grant, h: Grant)
    requires t.spec.members == s.spec.members && t.spec.paths == s.spec.paths && t.contracts == s.contracts
    requires h.binding == g.binding && h.units == g.units
    ensures Stands(s, g) == Stands(t, h)
  {}

  /** What recovery may look at. */
  predicate SameGround(s: Store, t: Store)
  {
    t.spec.members == s.spec.members && t.spec.paths == s.spec.paths && t.contracts == s.contracts
  }

  /** The row of a usable grant on the log. */
  lemma LiveOnLog(c: Core, i: nat)
    requires Good(c, Loose) && i < |c.store.grants| && IsLive(c.store.grants[i].val.state)
    ensures Raw(c.log).Success?
    ensures var s := Raw(c.log).value.store;
            && |s.grants| == |c.store.grants| && s.grants[i].id == c.store.grants[i].id && SameGround(s, c.store)
            && var a, g := s.grants[i].val, c.store.grants[i].val;
            && LastRecord(c.log, c.store.grants[i].id) == Some(a)
            && a.binding == g.binding && a.units == g.units && WasAcknowledged(a) == WasAcknowledged(g)
            && IsLive(a.state) && a.state != Prepared
  {
    hide Good, DurableAt, Durable, Raw, LastRecord, Essence;
    GoodRow(c, i, Loose);
    RowOnLog(c, i);
    PrefixDurable(c, |c.log|, Loose);
    assert c.log[..|c.log|] == c.log;
    var t := Raw(c.log).value.store.grants;
    EssenceKeeps(t[i].val, c.store.grants[i].val);
    LastRecordIs(c.log, |c.log|, t[i].id, false);
    PrefixSorted(c.log, false);
    RowFound(t, i);
  }

  lemma RowOnLog(c: Core, i: nat)
    requires Good(c, Loose) && i < |c.store.grants|
    ensures c.log != [] && Raw(c.log).Success?
    ensures var s := Raw(c.log).value.store;
            && |s.grants| == |c.store.grants| && s.grants[i].id == c.store.grants[i].id && SameGround(s, c.store)
            && Essence(s.grants[i].val) == Essence(c.store.grants[i].val)
            && (IsLive(c.store.grants[i].val.state) ==> IsLive(s.grants[i].val.state))
  {
    hide Durable, Sound, Tagged, Evidenced, Essence, AllBase;
    var t := Raw(c.log).value.store.grants;
    assert |Essences(t)| == |Essences(c.store.grants)|;
    assert Essences(t)[i] == Essences(c.store.grants)[i];
  }

  lemma EssenceKeeps(a: Grant, g: Grant)
    requires Essence(a) == Essence(g) && HoldsCapacity(g.state)
    ensures a.binding == g.binding && a.units == g.units && WasAcknowledged(a) == WasAcknowledged(g) && HoldsCapacity(a.state)
  {}

  /** One restart on the whole log, revalidating: a usable grant that stands is re-issued if an acknowledgement of
      it is known, with the mark its last record carries, and quarantined if none is. */
  lemma RestartLive(c: Core, i: nat, options: Options, incarnation: seq<byte>, tick: nat)
    requires hide Good, Restart, Stands, LastRecord;
             Good(c, Loose) && i < |c.store.grants| && IsLive(c.store.grants[i].val.state)
    requires Stands(c.store, c.store.grants[i].val) && options.recovery == RevalidateAcknowledged
    requires Restart(c, |c.log|, options, incarnation, tick).1 == Ok
    ensures LastRecord(c.log, c.store.grants[i].id).Some?
    ensures var d := Restart(c, |c.log|, options, incarnation, tick).0;
            && Good(d, Loose) && SameGround(c.store, d.store)
            && |d.store.grants| == |c.store.grants| && d.store.grants[i].id == c.store.grants[i].id
            && var g, b := c.store.grants[i].val, d.store.grants[i].val;
            && b.binding == g.binding && b.units == g.units
            && (if WasAcknowledged(g) then b.state == Committed
                                           && b.acknowledged == LastRecord(c.log, c.store.grants[i].id).value.acknowledged
                else b.state == Ambiguous)
  {
    hide Good, DurableAt, Durable, Recover, Stands, Judged, LastRecord;
    LiveOnLog(c, i);
    PrefixDurable(c, |c.log|, Loose);
    assert c.log[..|c.log|] == c.log;
    RecoverGood(options, c.log, incarnation, tick, Loose);
    var s := Raw(c.log).value.store;
    var d := Restart(c, |c.log|, options, incarnation, tick).0;
    StandsAlike(c.store, d.store, c.store.grants[i].val, s.grants[i].val);
    assert Recovered(d.store, options.recovery, s.grants[i], d.store.grants[i]);
    if WasAcknowledged(s.grants[i].val) { JudgedKeeps(d.store, s.grants[i], d.store.grants[i]); }
  }

  /** An acknowledged grant through two restarts that keep every record: the second leaves it usable exactly when
      its last record before the first carried the mark. The record without it can only be that of the
      acknowledgement itself, which is written before the mark is set: so one crash directly after an
      acknowledgement, and another, and a grant its owner has confirmed is quarantined. Its units stay held. */
  lemma AcknowledgementRemembered(c: Core, i: nat, first: Options, second: Options,
                                  one: seq<byte>, two: seq<byte>, early: nat, late: nat)
    requires hide Reachable, Restart, Stands;
             Reachable(c, Loose) && i < |c.store.grants| && c.store.grants[i].val.state == Acknowledged
    requires Stands(c.store, c.store.grants[i].val)
    requires first.recovery == second.recovery == RevalidateAcknowledged
    requires Restart(c, |c.log|, first, one, early).1 == Ok
    requires var d := Restart(c, |c.log|, first, one, early).0; Restart(d, |d.log|, second, two, late).1 == Ok
    ensures var d := Restart(c, |c.log|, first, one, early).0;
            var e := Restart(d, |d.log|, second, two, late).0;
            var last := LastRecord(c.log, c.store.grants[i].id);
            && last.Some? && (!last.value.acknowledged ==> last.value.state == Acknowledged)
            && |e.store.grants| == |d.store.grants| == |c.store.grants| && e.store.grants[i].id == c.store.grants[i].id
            && d.store.grants[i].val.state == Committed
            && e.store.grants[i].val.state == (if last.value.acknowledged then Committed else Ambiguous)
            && forall key :: Weight(key, e.store.grants[i].val) == Weight(key, c.store.grants[i].val)
  {
    hide Good, Reachable, Restart, Stands, LastRecord;
    ReachableGood(c, Loose);
    LiveOnLog(c, i);
    RestartLive(c, i, first, one, early);
    var d := Restart(c, |c.log|, first, one, early).0;
    StandsAlike(c.store, d.store, c.store.grants[i].val, d.store.grants[i].val);
    RestartLive(d, i, second, two, late);
  }

  /** Directly after an acknowledgement the last record carries the mark exactly when the grant had it before. */
  lemma AcknowledgementUnmarked(c: Core, i: nat)
    requires i < |c.store.grants|
    ensures var d := MarkAcknowledged(c, i).0;
            && d.store.grants[i].val.acknowledged && LastRecord(d.log, c.store.grants[i].id).Some?
            && LastRecord(d.log, c.store.grants[i].id).value.acknowledged == c.store.grants[i].val.acknowledged
  {}

  /** Every other record that can follow while the grant stays usable carries the mark the grant has: that of a
      revalidation, that of a renewal, and a snapshot. So any of them after the acknowledgement keeps it. */
  lemma LaterRecordsMark(c: Core, i: nat, r: Request, k: Contract, care: Care)
    requires hide Reachable; Reachable(c, care) && i < |c.store.grants|
    ensures var id, mark := c.store.grants[i].id, c.store.grants[i].val.acknowledged;
            && (Stands(c.store, c.store.grants[i].val) ==> Marks(Revalidate(c, i).log, id, mark))
            && (r.renewalOf == id && Renew(c, r, k).0 != c ==> Marks(Renew(c, r, k).0.log, id, mark))
            && Marks(Compact(c).log, id, mark)
  {
    hide Reachable, Good, Standing, Evaluate, Renew, LowerBound, Revalidate, Compact, LastRecord;
    ReachableGood(c, care);
    GoodTable(c, care);
    RowFound(c.store.grants, i);
    ReissueMarks(c, i);
    RenewalMarks(c, i, r, k);
    SnapshotTells(c, c.store.grants[i].id);
  }

  /** After a compaction every grant is as last recorded. */
  lemma SnapshotTells(c: Core, id: Id)
    requires Sorted(c.store.grants)
    ensures LastRecord(Compact(c).log, id) == Get(c.store.grants, id)
  {
    hide SortById, LowerBound;
    SortOfSorted(c.store.grants);
    var one := [Entry(0, c.store.tick, Snapshot(c.store))];
    assert LastRecord(one, id) == Get(c.store.grants, id);
    Unmentioned(one, [Entry(1, c.store.tick, CountersSync)], id);
  }

  predicate Marks(log: Log, id: Id, mark: bool)
  {
    LastRecord(log, id).Some? && LastRecord(log, id).value.acknowledged == mark
  }

  lemma ReissueMarks(c: Core, i: nat)
    requires i < |c.store.grants|
    ensures Stands(c.store, c.store.grants[i].val) ==>
              Marks(Revalidate(c, i).log, c.store.grants[i].id, c.store.grants[i].val.acknowledged)
  {
    hide Standing, Soften;
  }

  lemma RenewalMarks(c: Core, i: nat, r: Request, k: Contract)
    requires i < |c.store.grants| && Has(c.store.grants, c.store.grants[i].id) && LowerBound(c.store.grants, c.store.grants[i].id) == i
    ensures r.renewalOf == c.store.grants[i].id && Renew(c, r, k).0 != c ==>
              Marks(Renew(c, r, k).0.log, c.store.grants[i].id, c.store.grants[i].val.acknowledged)
  {
    hide Evaluate, LowerBound;
  }
}
