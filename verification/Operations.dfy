/** Release, acknowledgement and cancellation keep the invariant. */
module Operations {
  import opened Tables
  import opened Model
  import opened Cluster
  import opened Accounting
  import opened Eligibility
  import opened Engine
  import opened Replay
  import opened Safety
  import opened Durability
  import opened Invariant
  import opened Recovery
  import opened Submission
  import W = Wording

  // ----- release -----

  lemma CloseAttempt(c: Core, i: nat, a: Attempt, care: Care)
    requires Good(c, care) && i < |c.store.grants| && a.grant == c.store.grants[i].id
    requires IsTerminal(c.store.grants[i].val.state)
    ensures var id := c.store.grants[i].val.binding.attempt;
            Room(c.store.attempts, id, MAX_ATTEMPTS) == Ok
            && Good(PutAttempt(Append(c, AttemptTerminal(id, a)), id, a), care)
  {
    hide Linked;
    GoodTable(c, care);
    LinkedRow(c, i, care.Roomy?);
    GoodRow(c, i, care);
    hide Good, Base;
    AttemptGood(c, c.store.grants[i].val.binding.attempt, a, care);
  }

  /** A release ends the grant it finds, unless it is over already or the lease is not its own. */
  lemma ReleaseGood(c: Core, r: ReleaseRequest, care: Care)
    requires Good(c, care)
    ensures Good(Release(c, r).0, care)
  {
    hide Good, Terminate, Linked;
    var target := ReleaseTarget(c, r);
    if target.Some? && Has(c.store.grants, target.value) {
      var i := LowerBound(c.store.grants, target.value);
      var row := c.store.grants[i];
      if !IsTerminal(row.val.state) {
        TerminateGood(c, i, Released, W.NoReason(), care);
        var d := Terminate(c, i, row.val, Released, W.NoReason(), true);
        var attempt := row.val.binding.attempt;
        if Has(d.store.attempts, attempt) {
          var a := Get(d.store.attempts, attempt).value.(released := true, terminalTick := c.store.tick);
          GoodRow(c, i, care);
          CloseAttempt(d, i, a, care);
        }
      }
    }
  }

  // ----- acknowledgement -----

  lemma MarkGood(c: Core, i: nat, care: Care)
    requires Good(c, care) && i < |c.store.grants| && IsLive(c.store.grants[i].val.state)
    ensures Good(MarkAcknowledged(c, i).0, care)
  {
    hide Good, Upright, Linked, Base;
    var row := c.store.grants[i];
    var live := row.val.(acknowledged := true, state := Acknowledged, commit := CommitAcknowledged,
                         ackSeq := NextSequence(c.log));
    GoodRow(c, i, care);
    GoodTable(c, care);
    LoggedRow(c, i, AcknowledgedRecord, row.val, Acknowledged, live, care.Roomy?);
    StillUpright(c.store.spec, row.val, live, care);
    var d := MarkAcknowledged(c, i).0;
    var e := SetGrant(Append(c, GrantRecord(AcknowledgedRecord, row.id, row.val, Acknowledged)), i, live);
    assert d == e;
    RowGood(c, i, d, care);
  }

  lemma StillUpright(s: Spec, g: Grant, live: Grant, care: Care)
    requires Upright(s, g, care) && IsLive(g.state)
    requires live.binding == g.binding && live.units == g.units && live.at == g.at
    ensures Upright(s, live, care)
  {
    if !care.Loose? { StandsByBinding(s, g, live); }
  }

  lemma AcknowledgeGood(c: Core, r: AcknowledgeRequest, care: Care)
    requires Good(c, care)
    ensures Good(Acknowledge(c, r).0, care)
  {
    hide Good, Revalidate, MarkAcknowledged, Standing, Linked, Base, Upright;
    if Has(c.store.grants, r.grant) {
      var i := LowerBound(c.store.grants, r.grant);
      GoodRow(c, i, care);
      GoodTable(c, care);
      var g := c.store.grants[i].val;
      if g.state == Ambiguous {
        RevalidateOne(c, i, care);
        var d := Revalidate(c, i);
        RowGood(c, i, d, care);
        if d.store.grants[i].val.state == Committed { MarkGood(d, i, care); }
      } else if IsLive(g.state) {
        MarkGood(c, i, care);
      }
    }
  }

  // ----- cancellation -----

  /** The grant a cancel names belongs to the attempt it names; the engine does not check this. */
  predicate CancelsOwn(c: Core, r: CancelRequest)
  {
    r.attempt != [] && Has(c.store.attempts, r.attempt) && r.grant != [] && Has(c.store.grants, r.grant)
    ==> Get(c.store.grants, r.grant).value.binding.attempt == r.attempt
  }

  lemma MarkCancelledGood(c: Core, id: Id, care: Care)
    requires Good(c, care) && Has(c.store.attempts, id)
    requires var a := Get(c.store.attempts, id).value;
             Has(c.store.grants, a.grant) ==> IsTerminal(Get(c.store.grants, a.grant).value.state)
    ensures Good(MarkCancelled(c, id), care)
  {
    hide Linked, Upright;
    LoggedCancel(c, id, care.Roomy?);
    SortedAttempts(c, care.Roomy?);
    var a := Get(c.store.attempts, id).value;
    CancelShapes(c, id);
    RecordedKept(c, MarkCancelled(c, id), id,
                 a.(cancelled := true, terminalTick := c.store.tick, reason := ATTEMPT_CANCELLED));
    assert UprightTo(MarkCancelled(c, id), |c.store.grants|, care) by {
      forall i | 0 <= i < |c.store.grants| ensures Upright(c.store.spec, c.store.grants[i].val, care) {}
    }
  }

  lemma CancelShapes(c: Core, id: Id)
    requires Has(c.store.attempts, id)
    ensures var a := Get(c.store.attempts, id).value;
            var d := MarkCancelled(c, id);
            d.options == c.options && d.grantSerial == c.grantSerial && d.leaseSerial == c.leaseSerial
            && d.store == c.store.(attempts := Put(c.store.attempts, id,
                 a.(cancelled := true, terminalTick := c.store.tick, reason := ATTEMPT_CANCELLED)))
  {}

  lemma CancelMarksKnown(c: Core, r: CancelRequest)
    requires CancelledAttempt(c, r).Some?
    ensures Has(c.store.attempts, CancelledAttempt(c, r).value)
  {}

  lemma AttemptHasGrant(c: Core, id: Id, care: Care)
    requires Good(c, care) && Has(c.store.attempts, id)
    ensures var a := Get(c.store.attempts, id).value;
            a.grant != [] && Has(c.store.grants, a.grant)
            && Get(c.store.grants, a.grant).value.binding.attempt == id
  {
    var k := LowerBound(c.store.attempts, id);
    assert Linked1(c.store.grants, c.store.attempts[k]);
    var g := LowerBound(c.store.grants, c.store.attempts[k].val.grant);
    assert c.store.grants[g].id != [];
  }

  /** The attempt a cancel marks is the attempt of the grant it ends. */
  lemma CancelsTogether(c: Core, r: CancelRequest, care: Care)
    requires Good(c, care) && CancelsOwn(c, r) && CancelledAttempt(c, r).Some?
    ensures Has(c.store.attempts, CancelledAttempt(c, r).value)
    ensures CancelTarget(c, r).Some? && Has(c.store.grants, CancelTarget(c, r).value)
            && CancelTarget(c, r).value == Get(c.store.attempts, CancelledAttempt(c, r).value).value.grant
            && Get(c.store.grants, CancelTarget(c, r).value).value.binding.attempt == CancelledAttempt(c, r).value
  {
    var id := CancelledAttempt(c, r).value;
    CancelMarksKnown(c, r);
    AttemptHasGrant(c, id, care);
    GoodTable(c, care);
    hide Good, Linked;
    TargetOfAttempt(c, r, id);
    SameAttemptSameGrant(c.store.grants, CancelTarget(c, r).value, Get(c.store.attempts, id).value.grant);
  }

  lemma TargetOfAttempt(c: Core, r: CancelRequest, id: Id)
    requires CancelsOwn(c, r) && CancelledAttempt(c, r) == Some(id) && Has(c.store.attempts, id)
    requires var a := Get(c.store.attempts, id).value;
             a.grant != [] && Has(c.store.grants, a.grant) && Get(c.store.grants, a.grant).value.binding.attempt == id
    ensures CancelTarget(c, r).Some? && Has(c.store.grants, CancelTarget(c, r).value)
    ensures Get(c.store.grants, CancelTarget(c, r).value).value.binding.attempt == id
  {}

  lemma SameAttemptSameGrant(t: Table<Grant>, a: Id, b: Id)
    requires GrantsWell(t) && Has(t, a) && Has(t, b)
    requires Get(t, a).value.binding.attempt == Get(t, b).value.binding.attempt
    ensures a == b
  {
    OtherAttempts(t, LowerBound(t, a));
    assert t[LowerBound(t, b)].id == b;
  }

  lemma CancelGood(c: Core, r: CancelRequest, care: Care)
    requires Good(c, care) && CancelsOwn(c, r)
    ensures Good(Cancel(c, r).0, care)
  {
    hide Good, Terminate, MarkCancelled, CancelledAttempt, CancelTarget, CancelsOwn, Base, Upright, Linked;
    var target := CancelTarget(c, r);
    var mark := CancelledAttempt(c, r);
    if mark.Some? {
      CancelsTogether(c, r, care);
      var i := LowerBound(c.store.grants, target.value);
      GoodRow(c, i, care);
      if HoldsCapacity(c.store.grants[i].val.state) {
        TerminateGood(c, i, Revoked, W.CancelledFor(r.reason), care);
        var d := Terminate(c, i, c.store.grants[i].val, Revoked, W.CancelledFor(r.reason), true);
        GoodTable(c, care);
        GoodTable(d, care);
        RowFound(d.store.grants, i);
        MarkCancelledGood(d, mark.value, care);
      } else {
        MarkCancelledGood(c, mark.value, care);
      }
    } else if target.Some? && Has(c.store.grants, target.value)
              && HoldsCapacity(Get(c.store.grants, target.value).value.state) {
      TerminateGood(c, LowerBound(c.store.grants, target.value), Revoked, W.CancelledFor(r.reason), care);
    }
  }
}
