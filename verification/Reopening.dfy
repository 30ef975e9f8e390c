/** What a restart makes of the state its log stands for, field by field and said by lookups alone (src/authority.cpp). */
module Reopening {
  import opened Tables
  import opened Model
  import opened Cluster
  import opened Eligibility
  import opened Engine
  import opened Replay
  import opened Safety
  import opened Durability
  import opened Invariant
  import opened Recovery
  import opened Runs
  import Decimal
  import Detached
  import Fates
  import W = Wording

  // ----- grants -----

  predicate Unconfirmed(g: Grant) { !g.acknowledged && g.state != Acknowledged }

  /** One reason more. */
  predicate OneMore(a: seq<Reason>, b: seq<Reason>, code: ReasonCode)
  {
    |b| == |a| + 1 && b[..|a|] == a && b[|a|].code == code
  }

  /** A prepare whose commit was lost holds nothing any more. */
  predicate Lost(a: Grant, b: Grant)
  {
    b == a.(state := Released, reserved := false, releaseSeq := b.releaseSeq, reductions := b.reductions)
    && OneMore(a.reductions, b.reductions, COMMIT_NOT_DURABLE)
  }

  /** A commit nobody is known to have seen keeps its units and is not usable. */
  predicate Doubtful(a: Grant, b: Grant)
  {
    b == a.(state := Ambiguous, commit := CommitAmbiguous, reserved := true, reductions := b.reductions)
    && OneMore(a.reductions, b.reductions, COMMIT_AMBIGUOUS)
  }

  /** What a restart makes of one grant, by the tables as they are under the new epoch. */
  predicate Reopened(s: Store, policy: RecoveryPolicy, a: Row<Grant>, b: Row<Grant>)
  {
    b.id == a.id
    && match a.val.state
       case Prepared => Lost(a.val, b.val)
       case Committed => Told(s, policy, a.val, b.val)
       case Acknowledged => Told(s, policy, a.val, b.val)
       case _ => b == a
  }

  predicate Told(s: Store, policy: RecoveryPolicy, a: Grant, b: Grant)
  {
    if Unconfirmed(a) || policy == FenceAll then Doubtful(a, b)
    else if Fates.Stands(s, a) then Fates.Survives(s, a, b) else Fates.Falls(s, a, b)
  }

  // ----- attempts -----

  const BLANK := Attempt([], ZeroDigest(), [], [], Invalid, NO_REASON, 0, 0, false, false)

  function OrBlank(a: Option<Attempt>): Attempt { match a case Some(x) => x case None => BLANK }

  /** What becomes of a grant's attempt record when the grant is dropped or quarantined. */
  function Amended(s: Store, policy: RecoveryPolicy, a: Row<Grant>): Option<Attempt>
  {
    var was := Get(s.attempts, a.val.binding.attempt);
    var named := OrBlank(was).(grant := a.id, lease := a.val.binding.lease);
    if a.val.state == Prepared then Some(named.(outcome := Refused, reason := COMMIT_NOT_DURABLE, terminalTick := s.tick))
    else if a.val.state in {Committed, Acknowledged} && (Unconfirmed(a.val) || policy == FenceAll)
    then Some(named.(outcome := Indeterminate, reason := COMMIT_AMBIGUOUS))
    else was
  }

  /** The record a grant is given that has none: what can be told from the grant, without the request. */
  predicate MadeUp(now: nat, b: Row<Grant>, a: Attempt)
  {
    && a.request == [] && IsZero(a.digest) && a.grant == b.id && a.lease == b.val.binding.lease
    && a.firstSeen == now && a.terminalTick == now && !a.cancelled && a.released == (b.val.state in {Released, Prepared})
    && var first := if b.val.reductions == [] then None else Some(b.val.reductions[0].code);
       match b.val.state
       case Ambiguous => a.outcome == Indeterminate && a.reason == COMMIT_AMBIGUOUS
       case Released => a.outcome == Refused && a.reason == (if first.Some? then first.value else COMMIT_NOT_DURABLE)
       case Expired => a.outcome == Refused && a.reason == GRANT_EXPIRED
       case Fenced => a.outcome == FencedOut && a.reason == (if first.Some? then first.value else GRANT_FENCED)
       case Revoked => a.outcome == FencedOut && a.reason == (if first.Some? then first.value else GRANT_FENCED)
       case Committed => a.outcome == b.val.outcome && a.reason == COMMIT_DURABLE
       case Acknowledged => a.outcome == b.val.outcome && a.reason == COMMIT_DURABLE
       case _ => true
  }

  /** The record of a grant's attempt after a restart. */
  predicate RecordAfter(s: Store, policy: RecoveryPolicy, a: Row<Grant>, b: Row<Grant>, r: Option<Attempt>)
  {
    r.Some? && (Amended(s, policy, a) == r || (Amended(s, policy, a).None? && MadeUp(s.tick, b, r.value)))
  }

  // ----- one grant -----

  /** Only this id's value is another. */
  ghost predicate Alike<T>(t: Table<T>, u: Table<T>, id: Id, v: Option<T>)
  {
    forall k :: Get(u, k) == if k == id then v else Get(t, k)
  }

  lemma PutAlike<T>(t: Table<T>, id: Id, v: T)
    requires Sorted(t)
    ensures Alike(t, Put(t, id, v), id, Some(v))
  {
    hide Put, Sorted, Get;
    forall k ensures Get(Put(t, id, v), k) == if k == id then Some(v) else Get(t, k) { GetPut(t, id, v, k); }
  }

  lemma RoomFor(c: Core, i: nat, fit: bool)
    requires Linked(c, fit) && i < |c.store.grants|
    ensures Room(c.store.attempts, c.store.grants[i].val.binding.attempt, MAX_ATTEMPTS) == Ok && Sorted(c.store.attempts)
  {
    AttemptRoom(c.store, c.store.grants[i].val.binding.attempt);
  }

  lemma LostRow(g: Grant, h: Grant, why: Reason)
    requires h == g.(state := Released, reserved := false, releaseSeq := h.releaseSeq,
                     reductions := AddReason(g.reductions + [W.LostPrepare()], W.NoCommit()))
    ensures Lost(g, h)
  {
    assert (g.reductions + [W.LostPrepare()])[|g.reductions|].code == W.NoCommit().code;
  }

  /** One grant and its attempt are dealt with, and nothing else. */
  ghost predicate RowOpened(c: Core, i: nat, r: Core)
    requires i < |c.store.grants|
  {
    var row := c.store.grants[i];
    && GrantsAndAttempts(c, r) && r.store.grants == c.store.grants[i := r.store.grants[i]]
    && Reopened(c.store, c.options.recovery, row, r.store.grants[i])
    && Alike(c.store.attempts, r.store.attempts, row.val.binding.attempt, Amended(c.store, c.options.recovery, row))
  }

  lemma AbandonOpens(c: Core, i: nat)
    requires i < |c.store.grants| && c.store.grants[i].val.state == Prepared
    requires Room(c.store.attempts, c.store.grants[i].val.binding.attempt, MAX_ATTEMPTS) == Ok && Sorted(c.store.attempts)
    ensures RowOpened(c, i, AbandonPrepared(c, i))
  {
    hide Put, Alike, AddReason, Room, NextSequence, LowerBound, Sorted, Lost, Told;
    var row := c.store.grants[i];
    PutAlike(c.store.attempts, row.val.binding.attempt, Unfinished(c, row));
    LostRow(row.val, AbandonPrepared(c, i).store.grants[i].val, W.NoCommit());
  }

  lemma QuarantineOpens(c: Core, i: nat)
    requires i < |c.store.grants| && c.store.grants[i].val.state in {Committed, Acknowledged}
    requires Unconfirmed(c.store.grants[i].val) || c.options.recovery == FenceAll
    requires Room(c.store.attempts, c.store.grants[i].val.binding.attempt, MAX_ATTEMPTS) == Ok && Sorted(c.store.attempts)
    ensures RowOpened(c, i, Quarantine(c, i))
  {
    hide Put, Alike, Room, NextSequence, LowerBound, Sorted, Fates.Stands, Fates.Survives, Fates.Falls;
    var row := c.store.grants[i];
    PutAlike(c.store.attempts, row.val.binding.attempt, Uncertain(c, row));
  }

  lemma RevalidateOpens(c: Core, i: nat)
    requires i < |c.store.grants| && c.store.grants[i].val.state in {Committed, Acknowledged}
    requires !Unconfirmed(c.store.grants[i].val) && c.options.recovery != FenceAll
    ensures RowOpened(c, i, Revalidate(c, i))
  {
    hide Alike, Revalidate, LowerBound, Fates.Stands, Fates.Survives, Fates.Falls;
    Fates.RevalidateFate(c, i);
    NothingPut(c.store.attempts, c.store.grants[i].val.binding.attempt);
  }

  lemma OpenRow(c: Core, i: nat, care: Care)
    requires hide Linked; Linked(c, care.Roomy?) && i < |c.store.grants| && Tag(c.store.grants[i].val)
    ensures RowOpened(c, i, RecoverGrant(c, i))
  {
    hide Linked, AbandonPrepared, Quarantine, Revalidate, Room, RowOpened, LowerBound;
    var row := c.store.grants[i];
    RoomFor(c, i, care.Roomy?);
    if row.val.state == Prepared {
      AbandonOpens(c, i);
    } else if row.val.state in {Committed, Acknowledged} {
      if Unconfirmed(row.val) || c.options.recovery == FenceAll { QuarantineOpens(c, i); } else { RevalidateOpens(c, i); }
    } else {
      LeftClosed(c, i);
    }
  }

  lemma LeftClosed(c: Core, i: nat)
    requires i < |c.store.grants| && c.store.grants[i].val.state !in {Prepared, Committed, Acknowledged}
    ensures RowOpened(c, i, c)
  {
    hide Alike, LowerBound;
    NothingPut(c.store.attempts, c.store.grants[i].val.binding.attempt);
  }

  lemma NothingPut<T>(t: Table<T>, id: Id)
    ensures Alike(t, t, id, Get(t, id))
  {}

  // ----- all grants -----

  lemma ReopenedAlike(s: Store, t: Store, policy: RecoveryPolicy, a: Row<Grant>, b: Row<Grant>)
    requires t.spec == s.spec && t.contracts == s.contracts
    ensures Reopened(t, policy, a, b) == Reopened(s, policy, a, b)
  {
    hide Fates.Stands, Fates.Survives, Fates.Falls;
    StandsAlike(s, t, a.val);
    if Fates.Stands(s, a.val) { SurvivesAlike(s, t, a.val, b.val); }
    FallsAlike(s, t, a.val, b.val);
  }

  lemma StandsAlike(s: Store, t: Store, g: Grant)
    requires t.spec == s.spec && t.contracts == s.contracts
    ensures Fates.Stands(t, g) == Fates.Stands(s, g)
  {}

  lemma SurvivesAlike(s: Store, t: Store, a: Grant, b: Grant)
    requires t.spec == s.spec && t.contracts == s.contracts && Fates.Stands(s, a) && Fates.Stands(t, a)
    ensures Fates.Survives(t, a, b) == Fates.Survives(s, a, b)
  {
    hide Fates.Stands, Fates.Notes, Fates.Strain;
  }

  lemma FallsAlike(s: Store, t: Store, a: Grant, b: Grant)
    requires t.spec == s.spec && t.contracts == s.contracts
    ensures Fates.Falls(t, a, b) == Fates.Falls(s, a, b)
  {
    hide Fates.Notes;
  }

  ghost predicate OwnAttempts(t: Table<Grant>)
  {
    forall i, j :: 0 <= i < j < |t| ==> t[i].val.binding.attempt != t[j].val.binding.attempt
  }

  /** From row `i` on every grant's attempt is amended, and no other record. */
  ghost predicate AllAmended(c: Core, d: Core, i: nat)
  {
    && (forall j :: i <= j < |c.store.grants| ==>
          Get(d.store.attempts, c.store.grants[j].val.binding.attempt) == Amended(c.store, c.options.recovery, c.store.grants[j]))
    && forall id :: NotFrom(c, i, id) ==> Get(d.store.attempts, id) == Get(c.store.attempts, id)
  }

  ghost predicate NotFrom(c: Core, i: nat, id: Id)
  {
    forall j :: i <= j < |c.store.grants| ==> c.store.grants[j].val.binding.attempt != id
  }

  lemma AmendedFirst(c: Core, d: Core, r: Core, i: nat)
    requires i < |c.store.grants| && OwnAttempts(c.store.grants) && GrantsAndAttempts(c, d)
    requires d.store.grants == c.store.grants[i := d.store.grants[i]]
    requires Alike(c.store.attempts, d.store.attempts, c.store.grants[i].val.binding.attempt,
                   Amended(c.store, c.options.recovery, c.store.grants[i]))
    requires AllAmended(d, r, i + 1)
    ensures AllAmended(c, r, i)
  {
    hide Get, Unconfirmed;
    assert NotFrom(d, i + 1, c.store.grants[i].val.binding.attempt);
    forall j | i <= j < |c.store.grants|
      ensures Get(r.store.attempts, c.store.grants[j].val.binding.attempt) == Amended(c.store, c.options.recovery, c.store.grants[j])
    {
      if j > i { assert d.store.grants[j] == c.store.grants[j]; }
    }
    forall id | NotFrom(c, i, id) ensures Get(r.store.attempts, id) == Get(c.store.attempts, id) {
      assert NotFrom(d, i + 1, id);
    }
  }

  lemma LinkedOwn(c: Core, fit: bool)
    requires Linked(c, fit)
    ensures OwnAttempts(c.store.grants)
  {}

  lemma {:induction false} OpenRows(c: Core, i: nat, care: Care)
    requires hide Linked; Linked(c, care.Roomy?) && Tagged(c.store.grants) && i <= |c.store.grants|
    ensures var r := RecoverFrom(c, i);
            && GrantsAndAttempts(c, r) && AllAmended(c, r, i)
            && (forall j :: 0 <= j < |c.store.grants| && j < i ==> r.store.grants[j] == c.store.grants[j])
            && forall j :: i <= j < |c.store.grants| ==>
                 Reopened(c.store, c.options.recovery, c.store.grants[j], r.store.grants[j])
    decreases |c.store.grants| - i
  {
    hide Linked, RecoverGrant, Reopened, AllAmended, Upright, Tag, Recovered, Alike, Amended;
    if i < |c.store.grants| {
      var d := RecoverGrant(c, i);
      OpenRow(c, i, care);
      RecoverOne(c, i, care);
      AfterTag(c, d, i);
      OpenRows(d, i + 1, care);
      var r := RecoverFrom(d, i + 1);
      LinkedOwn(c, care.Roomy?);
      AmendedFirst(c, d, r, i);
      forall j | i < j < |c.store.grants|
        ensures Reopened(c.store, c.options.recovery, c.store.grants[j], r.store.grants[j])
      {
        ReopenedAlike(c.store, d.store, c.options.recovery, c.store.grants[j], r.store.grants[j]);
      }
    } else {
      NoneLeft(c, i);
    }
  }

  lemma AfterTag(c: Core, d: Core, i: nat)
    requires Tagged(c.store.grants) && i < |c.store.grants| && GrantsAndAttempts(c, d) && Settled(d.store.grants[i].val)
    requires forall j :: 0 <= j < |c.store.grants| && j != i ==> d.store.grants[j] == c.store.grants[j]
    ensures Tagged(d.store.grants)
  {}

  lemma NoneLeft(c: Core, i: nat)
    requires i >= |c.store.grants|
    ensures AllAmended(c, c, i)
  {}

  // ----- missing records -----

  /** From row `i` on every grant without a record has one made up, and no other record is touched. */
  ghost predicate AllMadeUp(c: Core, d: Core, i: nat)
  {
    && (forall j :: i <= j < |c.store.grants| ==> FilledIn(c, d, c.store.grants[j]))
    && forall id :: NotFrom(c, i, id) ==> Get(d.store.attempts, id) == Get(c.store.attempts, id)
  }

  predicate FilledIn(c: Core, d: Core, b: Row<Grant>)
  {
    var was, is_ := Get(c.store.attempts, b.val.binding.attempt), Get(d.store.attempts, b.val.binding.attempt);
    is_.Some? && (was == is_ || (was.None? && MadeUp(c.store.tick, b, is_.value)))
  }

  lemma ReconcileRow(c: Core, i: nat, fit: bool)
    requires hide Linked; Linked(c, fit) && i < |c.store.grants|
    ensures var d, id := Reconcile(c, i), c.store.grants[i].val.binding.attempt;
            && OnlyAttempts(c, d) && FilledIn(c, d, c.store.grants[i])
            && Alike(c.store.attempts, d.store.attempts, id, Get(d.store.attempts, id))
  {
    hide Linked, Put, Alike, Room, LowerBound, FirstReason;
    var row := c.store.grants[i];
    var id := row.val.binding.attempt;
    RoomFor(c, i, fit);
    LinkedRow(c, i, fit);
    NothingPut(c.store.attempts, id);
    PutAlike(c.store.attempts, id, Repaired(c.store.tick, row));
    AlikeThere(c.store.attempts, Put(c.store.attempts, id, Repaired(c.store.tick, row)), id, Some(Repaired(c.store.tick, row)));
    RepairedMadeUp(c.store.tick, row);
  }

  lemma RepairedMadeUp(now: nat, row: Row<Grant>)
    ensures MadeUp(now, row, Repaired(now, row))
  {}

  lemma AlikeThere<T>(t: Table<T>, u: Table<T>, id: Id, v: Option<T>)
    requires Alike(t, u, id, v)
    ensures Get(u, id) == v
  {}

  lemma FilledFirst(c: Core, d: Core, r: Core, i: nat)
    requires i < |c.store.grants| && OwnAttempts(c.store.grants) && OnlyAttempts(c, d) && FilledIn(c, d, c.store.grants[i])
    requires Alike(c.store.attempts, d.store.attempts, c.store.grants[i].val.binding.attempt,
                   Get(d.store.attempts, c.store.grants[i].val.binding.attempt))
    requires AllMadeUp(d, r, i + 1)
    ensures AllMadeUp(c, r, i)
  {
    hide Get, MadeUp;
    assert NotFrom(d, i + 1, c.store.grants[i].val.binding.attempt);
    forall j | i <= j < |c.store.grants| ensures FilledIn(c, r, c.store.grants[j]) {
      if j > i { assert FilledIn(d, r, d.store.grants[j]); }
    }
    forall id | NotFrom(c, i, id) ensures Get(r.store.attempts, id) == Get(c.store.attempts, id) {
      assert NotFrom(d, i + 1, id);
    }
  }

  lemma {:induction false} FillRows(c: Core, i: nat, fit: bool)
    requires hide Linked; Linked(c, fit) && SettledTo(c, |c.store.grants|) && HasAttempts(c, i) && i <= |c.store.grants|
    ensures OnlyAttempts(c, ReconcileFrom(c, i)) && AllMadeUp(c, ReconcileFrom(c, i), i)
    decreases |c.store.grants| - i
  {
    hide Linked, Reconcile, AllMadeUp, FilledIn, Alike;
    if i < |c.store.grants| {
      ReconcileRow(c, i, fit);
      ReconcileOne(c, i, fit);
      LinkedOwn(c, fit);
      FillRows(Reconcile(c, i), i + 1, fit);
      FilledFirst(c, Reconcile(c, i), ReconcileFrom(Reconcile(c, i), i + 1), i);
    } else {
      AllFilled(c, i);
    }
  }

  lemma AllFilled(c: Core, i: nat)
    requires i >= |c.store.grants|
    ensures AllMadeUp(c, c, i)
  {}

  // ----- a restart -----

  /** The record of every grant, and no record besides. */
  ghost predicate RecordsAfter(s: Store, policy: RecoveryPolicy, d: Store, t: Table<Grant>)
    requires |d.grants| == |t|
  {
    && (forall i :: 0 <= i < |t| ==> RecordAfter(s, policy, t[i], d.grants[i], Get(d.attempts, t[i].val.binding.attempt)))
    && forall id :: Get(d.attempts, id).Some? ==> exists i :: 0 <= i < |t| && t[i].val.binding.attempt == id
  }

  /** The new epoch: one further in epoch and generation, under the new incarnation, and otherwise as it was. */
  predicate NextEpoch(s: Spec, d: Spec, incarnation: seq<byte>)
  {
    d == s.(epoch := s.epoch + 1, generation := s.generation + 1, incarnation := incarnation)
  }

  /** No name of the table has a larger number, and one has this, if there is any. */
  ghost predicate LargestName(t: Table<Grant>, n: nat)
  {
    (forall i :: 0 <= i < |t| ==> Decimal.Suffix(t[i].id) <= n)
    && if t == [] then n == 0 else exists i :: 0 <= i < |t| && Decimal.Suffix(t[i].id) == n
  }

  ghost predicate LargestLease(t: Table<Grant>, n: nat)
  {
    (forall i :: 0 <= i < |t| ==> Decimal.Suffix(t[i].val.binding.lease) <= n)
    && if t == [] then n == 0 else exists i :: 0 <= i < |t| && Decimal.Suffix(t[i].val.binding.lease) == n
  }

  lemma {:induction false} MaxSuffixIs(t: Table<Grant>)
    ensures LargestName(t, MaxSuffix(t, false)) && LargestLease(t, MaxSuffix(t, true))
  {
    hide Decimal.Suffix;
    if t != [] {
      var n := |t| - 1;
      MaxSuffixIs(t[..n]);
      assert t[n] == t[|t| - 1];
      if MaxSuffix(t, false) != Decimal.Suffix(t[n].id) {
        var i :| 0 <= i < n && Decimal.Suffix(t[..n][i].id) == MaxSuffix(t[..n], false);
        assert t[i] == t[..n][i];
      }
      if MaxSuffix(t, true) != Decimal.Suffix(t[n].val.binding.lease) {
        var i :| 0 <= i < n && Decimal.Suffix(t[..n][i].val.binding.lease) == MaxSuffix(t[..n], true);
        assert t[i] == t[..n][i];
      }
      forall i | 0 <= i < |t|
        ensures Decimal.Suffix(t[i].id) <= MaxSuffix(t, false) && Decimal.Suffix(t[i].val.binding.lease) <= MaxSuffix(t, true)
      {
        MaxSuffixCovers(t, false, i);
        MaxSuffixCovers(t, true, i);
      }
    }
  }

  /** Records come from grants. */
  lemma RecordHasRow(c: Core, id: Id, fit: bool)
    requires Linked(c, fit) && Get(c.store.attempts, id).Some?
    ensures !NotFrom(c, 0, id)
  {
    hide Durable, DurableAt, LowerBound;
    var k := LowerBound(c.store.attempts, id);
    assert Linked1(c.store.grants, c.store.attempts[k]);
    var i := LowerBound(c.store.grants, c.store.attempts[k].val.grant);
    assert c.store.grants[i].val.binding.attempt == id;
  }

  /** What the two sweeps over the taken-over tables leave. */
  lemma SweptTables(a: Core, care: Care)
    requires hide Linked, Tagged, RecoverFrom, ReconcileFrom, Reopened, RecordsAfter, GrantsAndAttempts; Linked(a, care.Roomy?) && Tagged(a.store.grants)
    ensures var d := ReconcileFrom(RecoverFrom(a, 0), 0);
            && GrantsAndAttempts(a, d)
            && (forall i :: 0 <= i < |a.store.grants| ==>
                  Reopened(a.store, a.options.recovery, a.store.grants[i], d.store.grants[i]))
            && RecordsAfter(a.store, a.options.recovery, d.store, a.store.grants)
  {
    hide Linked, RecoverFrom, ReconcileFrom, Reopened, Amended, MadeUp, Upright, Recovered, Get, Settled;
    var b := RecoverFrom(a, 0);
    OpenRows(a, 0, care);
    RecoverAll(a, 0, care);
    FillRows(b, 0, care.Roomy?);
    var d := ReconcileFrom(b, 0);
    forall i | 0 <= i < |a.store.grants|
      ensures RecordAfter(a.store, a.options.recovery, a.store.grants[i], d.store.grants[i],
                          Get(d.store.attempts, a.store.grants[i].val.binding.attempt))
    {
      SameAttempt(a.store, a.options.recovery, a.store.grants[i], b.store.grants[i]);
      assert FilledIn(b, d, b.store.grants[i]);
    }
    forall id | Get(d.store.attempts, id).Some? ensures exists i :: 0 <= i < |a.store.grants| && a.store.grants[i].val.binding.attempt == id {
      if NotFrom(a, 0, id) {
        SameOrigins(a, b, id);
        assert Get(d.store.attempts, id) == Get(a.store.attempts, id);
        RecordHasRow(a, id, care.Roomy?);
      }
    }
  }

  lemma SameAttempt(s: Store, policy: RecoveryPolicy, a: Row<Grant>, b: Row<Grant>)
    requires Reopened(s, policy, a, b)
    ensures b.val.binding.attempt == a.val.binding.attempt
  {
    hide Fates.Stands, Fates.FirstGone, Fates.Notes, Fates.Strains;
  }

  lemma SameOrigins(a: Core, b: Core, id: Id)
    requires GrantsAndAttempts(a, b) && NotFrom(a, 0, id)
    requires forall i :: 0 <= i < |a.store.grants| ==> Reopened(a.store, a.options.recovery, a.store.grants[i], b.store.grants[i])
    ensures NotFrom(b, 0, id)
  {
    hide Reopened;
    forall j | 0 <= j < |b.store.grants| ensures b.store.grants[j].val.binding.attempt != id {
      SameAttempt(a.store, a.options.recovery, a.store.grants[j], b.store.grants[j]);
    }
  }

  /** When a recovery succeeds. */
  lemma RecoverSucceeds(options: Options, s: Store, log: Log, incarnation: seq<byte>, tick: nat)
    ensures hide Recover;
            Recover(options, s, log, incarnation, tick).1 == Ok
            <==> s.spec.id != [] && s.spec.epoch < U64_MAX && s.spec.generation < U64_MAX
  {
    hide RecoverFrom, ReconcileFrom, MaxSuffix, SortById;
  }

  /** The state after a restart, whatever prefix of its log survived: a new epoch over the declarations that the prefix
      stands for, the later of the two clocks, the serials at the largest numbers in use, every grant as its last record
      and the policy have it, and a record for every grant's attempt. */
  ghost predicate Restarted(s: Store, options: Options, incarnation: seq<byte>, tick: nat, d: Core)
  {
    && d.options == options && d.store.contracts == s.contracts && NextEpoch(s.spec, d.store.spec, incarnation)
    && d.store.tick == (if s.tick < tick then tick else s.tick)
    && LargestName(s.grants, d.grantSerial) && LargestLease(s.grants, d.leaseSerial)
    && |d.store.grants| == |s.grants|
    && (forall i :: 0 <= i < |s.grants| ==> Reopened(d.store, options.recovery, s.grants[i], d.store.grants[i]))
    && RecordsAfter(s.(tick := d.store.tick), options.recovery, d.store, s.grants)
  }

  lemma RecoverExact(options: Options, log: Log, incarnation: seq<byte>, tick: nat, care: Care)
    requires hide Recover, Raw, Durable, DurableAt;
             log != [] && Durable(log, care.Roomy?) && DurableAt(log, care.Roomy?) && Raw(log).Success?
    requires Recover(options, Finish(Raw(log).value), log, incarnation, tick).1 == Ok
    ensures Restarted(Finish(Raw(log).value), options, incarnation, tick,
                      Recover(options, Finish(Raw(log).value), log, incarnation, tick).0)
  {
    hide Linked, Raw, Durable, DurableAt, RecoverFrom, ReconcileFrom, Reopened, RecordsAfter, MaxSuffix, LargestName, LargestLease,
         SortById, BeginEpoch, Adopt;
    var s := Finish(Raw(log).value);
    Detached.RecoverOutline(options, s, log, incarnation, tick);
    AdoptKeeps(options, log, incarnation, tick, care.Roomy?);
    var a := Adopt(options, s, log, incarnation, tick).0;
    SweptTables(a, care);
    LoadedSorted(log, care.Roomy?);
    SortOfSorted(s.grants);
    MaxSuffixIs(s.grants);
    RecoverSucceeds(options, s, log, incarnation, tick);
    NextEpochIs(s.spec, incarnation);
    var d := Recover(options, s, log, incarnation, tick).0;
    assert d == ReconcileFrom(RecoverFrom(a, 0), 0);
    forall i | 0 <= i < |s.grants| ensures Reopened(d.store, options.recovery, s.grants[i], d.store.grants[i]) {
      ReopenedAlike(a.store, d.store, options.recovery, s.grants[i], d.store.grants[i]);
    }
    RecordsAlike(a.store, s.(tick := d.store.tick), options.recovery, d.store, s.grants);
  }

  lemma NextEpochIs(s: Spec, incarnation: seq<byte>)
    requires s.epoch < U64_MAX && s.generation < U64_MAX
    ensures NextEpoch(s, BeginEpoch(s, incarnation, s.policy).0, incarnation)
  {}

  lemma RecordsAlike(s: Store, t: Store, policy: RecoveryPolicy, d: Store, g: Table<Grant>)
    requires |d.grants| == |g| && s.attempts == t.attempts && s.tick == t.tick
    requires RecordsAfter(s, policy, d, g)
    ensures RecordsAfter(t, policy, d, g)
  {
    hide MadeUp, Get;
    forall i | 0 <= i < |g| ensures RecordAfter(t, policy, g[i], d.grants[i], Get(d.attempts, g[i].val.binding.attempt)) {
      assert Amended(t, policy, g[i]) == Amended(s, policy, g[i]);
    }
  }

  /** A restart from any non-empty prefix of a reachable log succeeds unless its epoch or generation is at its end, and then
      leaves exactly this. */
  lemma RestartExact(c: Core, k: nat, options: Options, incarnation: seq<byte>, tick: nat, care: Care)
    requires hide Reachable, Restart, Raw; Reachable(c, care) && 1 <= k <= |c.log|
    ensures Raw(c.log[..k]).Success?
    ensures var s, out := Finish(Raw(c.log[..k]).value), Restart(c, k, options, incarnation, tick);
            && (out.1 == Ok <==> s.spec.epoch < U64_MAX && s.spec.generation < U64_MAX)
            && (out.1 == Ok ==> Restarted(s, options, incarnation, tick, out.0))
  {
    hide Reachable, Good, Recover, Durable, Restarted;
    ReachableGood(c, care);
    PrefixDurable(c, k, care);
    var log := c.log[..k];
    PrefixNamed(log, care.Roomy?);
    RecoverSucceeds(options, Finish(Raw(log).value), log, incarnation, tick);
    if Restart(c, k, options, incarnation, tick).1 == Ok { RecoverExact(options, log, incarnation, tick, care); }
  }

  lemma PrefixNamed(log: Log, fit: bool)
    requires DurableAt(log, fit)
    ensures Raw(log).Success? && Raw(log).value.store.spec.id != []
  {}

  // ----- the clock -----

  /** What is read back is as late as any of its records. */
  lemma {:induction false} LatestRead(log: Log, i: nat)
    requires Raw(log).Success? && i < |log|
    ensures log[i].tick <= Raw(log).value.tick
  {
    hide Effect;
    var n := |log| - 1;
    if i < n {
      LatestRead(log[..n], i);
      assert log[..n][i] == log[i];
    }
  }

  /** Every start finds a clock that is later than any of the records it starts from, until the clock is at its end. */
  lemma ClockGoesOn(c: Core, k: nat, options: Options, incarnation: seq<byte>, i: nat, care: Care)
    requires hide Reachable, Restart, Raw; Reachable(c, care) && i < k <= |c.log| && Raw(c.log[..k]).Success?
    requires Finish(Raw(c.log[..k]).value).tick < U64_MAX
    requires Restart(c, k, options, incarnation, Detached.ResumeTick(c.log[..k])).1 == Ok
    ensures c.log[i].tick < Restart(c, k, options, incarnation, Detached.ResumeTick(c.log[..k])).0.store.tick
  {
    hide Reachable, Restart, Raw, Reopened, RecordsAfter, LargestName, LargestLease, NextEpoch;
    RestartExact(c, k, options, incarnation, Detached.ResumeTick(c.log[..k]), care);
    LatestRead(c.log[..k], i);
    assert c.log[..k][i] == c.log[i];
  }
}
