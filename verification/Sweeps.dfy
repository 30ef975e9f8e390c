/** What the operations on the whole table do to each grant in it, the clock and the first start, said by lookups alone
    (src/authority.cpp). */
module Sweeps {
  import opened Tables
  import opened Model
  import opened Cluster
  import opened Eligibility
  import opened Engine
  import opened Safety
  import opened Invariant
  import opened Submission
  import opened Runs
  import opened Guarantees
  import opened Edits
  import opened Answers
  import Fates
  import W = Wording

  /** A grant brought to an end: it gives back what it reserved, and the reason is noted on it. */
  predicate EndedAs(a: Row<Grant>, b: Row<Grant>, state: GrantState, code: ReasonCode)
  {
    b.id == a.id
    && b.val == a.val.(state := state, reserved := false, releaseSeq := b.val.releaseSeq, reductions := b.val.reductions)
    && (if code == NO_REASON then b.val.reductions == a.val.reductions
        else Fates.Notes(a.val.reductions, b.val.reductions, [code]))
  }

  lemma TerminateEnds(c: Core, i: nat, state: GrantState, reason: Reason)
    requires i < |c.store.grants|
    ensures var r := Terminate(c, i, c.store.grants[i].val, state, reason, true);
            && EndedAs(c.store.grants[i], r.store.grants[i], state, reason.code)
            && r.store == c.store.(grants := c.store.grants[i := r.store.grants[i]])
            && r.options == c.options && r.grantSerial == c.grantSerial && r.leaseSerial == c.leaseSerial
            && var a, b := c.store.grants[i], r.store.grants[i].val;
            && b.releaseSeq == Fates.NextNumber(c)
            && Fates.OneRecord(c, r, GrantRecord(TerminalRecord, a.id, b.(releaseSeq := a.val.releaseSeq), state))
  {
    hide Fates.Notes;
    if reason.code != NO_REASON { Fates.AddNotes(c.store.grants[i].val.reductions, reason); }
  }

  // ----- fence -----

  /** Whatever holds capacity is fenced, the rest untouched. */
  predicate FencedRow(a: Row<Grant>, b: Row<Grant>, code: ReasonCode)
  {
    if a.val.state in {Committed, Acknowledged, Ambiguous} then EndedAs(a, b, Fenced, code) else b == a
  }

  /** Fencing ends every grant that holds capacity, the quarantined ones too, and nothing else. */
  lemma {:induction false} FenceExact(c: Core, i: nat, reason: Reason)
    ensures var r := FenceFrom(c, i, reason);
            && OnlyTables(c, r) && r.store.attempts == c.store.attempts && |r.store.grants| == |c.store.grants|
            && (forall j :: 0 <= j < |c.store.grants| && j < i ==> r.store.grants[j] == c.store.grants[j])
            && forall j :: i <= j < |c.store.grants| ==> FencedRow(c.store.grants[j], r.store.grants[j], reason.code)
    decreases |c.store.grants| - i
  {
    hide Terminate, EndedAs;
    if i < |c.store.grants| {
      if HoldsCapacity(c.store.grants[i].val.state) {
        TerminateEnds(c, i, Fenced, reason);
        FenceExact(Terminate(c, i, c.store.grants[i].val, Fenced, reason, true), i + 1, reason);
      } else {
        FenceExact(c, i + 1, reason);
      }
    }
  }

  // ----- expiry -----

  /** Usable, leased for a time, and the time is up. */
  predicate RunOut(g: Grant, now: nat)
  {
    g.state in {Committed, Acknowledged} && g.leaseExpiry != 0 && g.leaseExpiry <= now
  }

  predicate ExpiredRow(a: Row<Grant>, b: Row<Grant>, now: nat)
  {
    if RunOut(a.val, now) then EndedAs(a, b, Expired, LEASE_EXPIRED) else b == a
  }

  /** The attempt of a grant that ran out says so; any other record stays. */
  ghost predicate AttemptsExpired(c: Core, d: Core, i: nat)
  {
    && (forall j :: i <= j < |c.store.grants| && RunOut(c.store.grants[j].val, c.store.tick) ==>
          var g := c.store.grants[j].val;
          var a := Get(c.store.attempts, g.binding.attempt);
          a.Some? && Get(d.store.attempts, g.binding.attempt)
                     == Some(a.value.(grant := c.store.grants[j].id, lease := g.binding.lease, reason := LEASE_EXPIRED)))
    && forall id :: NoneRunOut(c, i, id) ==> Get(d.store.attempts, id) == Get(c.store.attempts, id)
  }

  /** No grant from row `i` on that ran out was minted for this attempt. */
  ghost predicate NoneRunOut(c: Core, i: nat, id: Id)
  {
    forall j :: i <= j < |c.store.grants| && RunOut(c.store.grants[j].val, c.store.tick)
                ==> c.store.grants[j].val.binding.attempt != id
  }

  lemma ExpireOne(c: Core, i: nat, care: Care)
    requires Good(c, care) && i < |c.store.grants| && RunOut(c.store.grants[i].val, c.store.tick)
    ensures var d := Expire(c, i); var g := c.store.grants[i].val;
            && Good(d, care) && OnlyTables(c, d) && |d.store.grants| == |c.store.grants|
            && d.store.grants == c.store.grants[i := d.store.grants[i]]
            && EndedAs(c.store.grants[i], d.store.grants[i], Expired, LEASE_EXPIRED)
            && Room(c.store.attempts, g.binding.attempt, MAX_ATTEMPTS) == Ok
            && Get(c.store.attempts, g.binding.attempt).Some?
            && Changed(c.store.attempts, d.store.attempts, g.binding.attempt,
                       Some(Get(c.store.attempts, g.binding.attempt).value
                            .(grant := c.store.grants[i].id, lease := g.binding.lease, reason := LEASE_EXPIRED)))
  {
    hide Good, Terminate, Put, EndedAs, Changed, Sorted, LowerBound;
    ExpireGood(c, i, care);
    TerminateEnds(c, i, Expired, W.LeaseOver(c.store.tick));
    HasRecordGood(c, i, care);
    PutChanges(c.store.attempts, c.store.grants[i].val.binding.attempt, ExpiredAttempt(c, c.store.grants[i]));
  }

  lemma HasRecordGood(c: Core, i: nat, care: Care)
    requires Good(c, care) && i < |c.store.grants|
    ensures Get(c.store.attempts, c.store.grants[i].val.binding.attempt).Some? && Sorted(c.store.attempts)
    ensures forall j :: 0 <= j < |c.store.grants| && j != i
                        ==> c.store.grants[j].val.binding.attempt != c.store.grants[i].val.binding.attempt
    ensures c.store.grants[i].val.state != Prepared
  {
    hide LowerBound;
    GoodRow(c, i, care);
    GoodTable(c, care);
    SortedAttempts(c, care.Roomy?);
  }

  lemma ExpiredFirst(c: Core, d: Core, r: Core, i: nat)
    requires i < |c.store.grants| && RunOut(c.store.grants[i].val, c.store.tick)
    requires |d.store.grants| == |c.store.grants| && d.store.grants == c.store.grants[i := d.store.grants[i]]
    requires d.store.tick == c.store.tick && Get(c.store.attempts, c.store.grants[i].val.binding.attempt).Some?
    requires forall j :: 0 <= j < |c.store.grants| && j != i
                         ==> c.store.grants[j].val.binding.attempt != c.store.grants[i].val.binding.attempt
    requires Changed(c.store.attempts, d.store.attempts, c.store.grants[i].val.binding.attempt,
                     Some(Get(c.store.attempts, c.store.grants[i].val.binding.attempt).value
                          .(grant := c.store.grants[i].id, lease := c.store.grants[i].val.binding.lease, reason := LEASE_EXPIRED)))
    requires AttemptsExpired(d, r, i + 1)
    ensures AttemptsExpired(c, r, i)
  {
    hide RunOut, Get, Sorted;
    var mine := c.store.grants[i].val.binding.attempt;
    assert NoneRunOut(d, i + 1, mine);
    forall j | i < j < |c.store.grants| && RunOut(c.store.grants[j].val, c.store.tick)
      ensures var g := c.store.grants[j].val;
              var a := Get(c.store.attempts, g.binding.attempt);
              a.Some? && Get(r.store.attempts, g.binding.attempt)
                         == Some(a.value.(grant := c.store.grants[j].id, lease := g.binding.lease, reason := LEASE_EXPIRED))
    {
      assert d.store.grants[j] == c.store.grants[j];
    }
    forall id | NoneRunOut(c, i, id) ensures Get(r.store.attempts, id) == Get(c.store.attempts, id) {
      assert NoneRunOut(d, i + 1, id);
    }
  }

  lemma ExpiredSkip(c: Core, r: Core, i: nat)
    requires i < |c.store.grants| && !RunOut(c.store.grants[i].val, c.store.tick) && AttemptsExpired(c, r, i + 1)
    ensures AttemptsExpired(c, r, i)
  {
    hide RunOut, Get;
    forall id | NoneRunOut(c, i, id) ensures Get(r.store.attempts, id) == Get(c.store.attempts, id) {
      assert NoneRunOut(c, i + 1, id);
    }
  }

  lemma {:induction false} ExpireRows(c: Core, i: nat, care: Care)
    requires Good(c, care)
    ensures var r := ExpireFrom(c, i);
            && OnlyTables(c, r) && |r.store.grants| == |c.store.grants| && ExpireStatus(c, i) == Ok && AttemptsExpired(c, r, i)
            && (forall j :: 0 <= j < |c.store.grants| && j < i ==> r.store.grants[j] == c.store.grants[j])
            && forall j :: i <= j < |c.store.grants| ==> ExpiredRow(c.store.grants[j], r.store.grants[j], c.store.tick)
    decreases |c.store.grants| - i
  {
    hide Good, Expire, EndedAs, Changed, AttemptsExpired, Get, Room;
    if i < |c.store.grants| {
      HasRecordGood(c, i, care);
      if RunOut(c.store.grants[i].val, c.store.tick) {
        ExpireOne(c, i, care);
        var d := Expire(c, i);
        ExpireRows(d, i + 1, care);
        ExpiredFirst(c, d, ExpireFrom(d, i + 1), i);
      } else {
        ExpireRows(c, i + 1, care);
        ExpiredSkip(c, ExpireFrom(c, i + 1), i);
      }
    } else {
      NoRows(c, i);
    }
  }

  lemma NoRows(c: Core, i: nat)
    requires i >= |c.store.grants|
    ensures AttemptsExpired(c, c, i)
  {}

  /** Expiry ends exactly the usable grants whose lease is for a time and is over, quarantined ones not among them, says so
      in their attempts' records, and always succeeds. */
  lemma ExpireExact(c: Core, care: Care)
    requires hide Reachable; Reachable(c, care)
    ensures var d := ExpireFrom(c, 0);
            && OnlyTables(c, d) && |d.store.grants| == |c.store.grants| && ExpireStatus(c, 0) == Ok && AttemptsExpired(c, d, 0)
            && forall j :: 0 <= j < |c.store.grants| ==> ExpiredRow(c.store.grants[j], d.store.grants[j], c.store.tick)
  {
    hide Reachable, Good, ExpireFrom, ExpireStatus, AttemptsExpired, ExpiredRow;
    ReachableGood(c, care);
    ExpireRows(c, 0, care);
  }

  // ----- policy and clock -----

  /** The policy never goes back; a step forward is the only thing that is different, and is on the log. */
  lemma PolicyExact(c: Core, policy: nat)
    ensures var (d, st) := SetPolicy(c, policy);
            if policy < c.store.spec.policy then d == c && st == StateMismatch
            else st == Ok && d.store == c.store.(spec := c.store.spec.(policy := policy)) && OnlyLog(c, d, PolicySet(policy))
  {}

  /** One more record, and nothing outside the tables and the log is different. */
  predicate OnlyLog(c: Core, d: Core, b: Body)
  {
    && d.options == c.options && d.grantSerial == c.grantSerial && d.leaseSerial == c.leaseSerial
    && |d.log| == |c.log| + 1 && d.log[..|c.log|] == c.log
    && d.log[|c.log|].body == b && d.log[|c.log|].tick == c.store.tick
    && d.log[|c.log|].sequence == (if c.log == [] then 0 else c.log[|c.log| - 1].sequence + 1)
  }

  /** Neither does the clock, which is not on the log. */
  lemma ClockExact(c: Core, tick: nat)
    ensures AdvanceTick(c, tick)
            == if tick < c.store.tick then (c, StateMismatch) else (c.(store := c.store.(tick := tick)), Ok)
  {}

  // ----- the first start -----

  /** A first start rules the named cluster at its first generation and first epoch, with nothing declared, granted or
      asked, and the two records that say so. */
  lemma StartExact(options: Options, cluster: Id, incarnation: seq<byte>, policy: nat, tick: nat)
    ensures var c := Initialize(options, cluster, incarnation, policy, tick);
            && c.options == options && c.grantSerial == 0 && c.leaseSerial == 0
            && c.store.tick == tick && c.store.contracts == [] && c.store.grants == [] && c.store.attempts == []
            && c.store.spec.id == cluster && c.store.spec.incarnation == incarnation && c.store.spec.policy == policy
            && c.store.spec.generation == 1 && c.store.spec.epoch == 1
            && c.store.spec.members == [] && c.store.spec.paths == []
            && c.store.spec.exclusions == [] && c.store.spec.obligations == []
            && c.log == [Entry(0, tick, SetController(cluster, Coordinate(0, 0, policy, incarnation))),
                         Entry(1, tick, EpochBegin(cluster, Coordinate(1, 1, policy, incarnation)))]
  {}

  // ----- compaction -----

  /** What a compacted log holds: the state as it is, and the mark that the counters are in step. */
  lemma CompactedLog(c: Core)
    ensures Compact(c) == c.(log := [Entry(0, c.store.tick, Snapshot(c.store)), Entry(1, c.store.tick, CountersSync)])
  {}
}
