/** What one journaled step keeps: the log always stands for the live state, and every prefix of it
    stands for a sound one. */
module Durability {
  import opened Tables
  import opened Model
  import opened Cluster
  import opened Accounting
  import opened Eligibility
  import opened Engine
  import opened Replay
  import opened Safety

  // ----- what a log proves -----

  /** The record that makes a grant durable: its commit record, or a snapshot that already held it. */
  predicate Proves(e: Entry, row: Row<Grant>)
  {
    match e.body
    case GrantRecord(kind, id, g, _) => kind == CommittedRecord && id == row.id && g.binding == row.val.binding
    case Snapshot(image) =>
      Has(image.grants, row.id)
      && var g := Get(image.grants, row.id).value;
         HoldsCapacity(g.state) && g.binding == row.val.binding
    case _ => false
  }

  ghost predicate Evidence(log: Log, row: Row<Grant>)
  {
    exists j :: 0 <= j < |log| && Proves(log[j], row)
  }

  /** No grant holds capacity without its commit record. */
  ghost predicate Evidenced(log: Log, t: Table<Grant>)
  {
    forall i :: 0 <= i < |t| && HoldsCapacity(t[i].val.state) ==> Evidence(log, t[i])
  }

  /** The commit mark tells a prepare without its commit from every grant that holds capacity. */
  predicate Tag(g: Grant)
  {
    && g.state != Superseded && g.reserved == HoldsCapacity(g.state)
    && (g.state == Prepared ==> g.commit == CommitPrepared)
    && (HoldsCapacity(g.state) ==> g.commit != CommitPrepared)
  }

  ghost predicate Tagged(t: Table<Grant>)
  {
    forall i :: 0 <= i < |t| ==> Tag(t[i].val)
  }

  /** A record of a grant that is over changes nothing about it, because there is none. */
  predicate LeavesOver(t: Table<Grant>, b: Body)
  {
    b.GrantRecord? && Has(t, b.id) ==> !IsTerminal(Get(t, b.id).value.state)
  }

  /** The last record is no snapshot, unless it is the first as well, and leaves alone what was over before it. */
  predicate LastIsTame(log: Log)
  {
    |log| <= 1 || (
      var b := log[|log| - 1].body;
      !b.Snapshot? && match Raw(log[..|log| - 1])
                      case Success(r) => LeavesOver(r.store.grants, b)
                      case Failure(_) => false)
  }

  ghost predicate DurableAt(log: Log, fit: bool)
  {
    log != [] && Raw(log).Success? && NextSequence(log) == |log| && LastIsTame(log)
    && var r := Raw(log).value;
       && r.bound && r.next == Some(NextSequence(log))
       && Sound(r.store, fit) && Tagged(r.store.grants) && Evidenced(log, r.store.grants)
  }

  /** Every non-empty prefix of the log stands for a sound, evidenced state. */
  ghost predicate Durable(log: Log, fit: bool)
  {
    forall k :: 1 <= k <= |log| ==> DurableAt(log[..k], fit)
  }

  /** A usable grant was last recorded as one. */
  ghost predicate Tracks(t: Table<Grant>, u: Table<Grant>)
  {
    forall i :: 0 <= i < |t| && i < |u| && IsLive(u[i].val.state) ==> IsLive(t[i].val.state)
  }

  /** The live state and its log. */
  ghost predicate Linked(c: Core, fit: bool)
  {
    c.log != [] && Durable(c.log, fit) && DurableAt(c.log, fit)
    && var r := Raw(c.log).value;
       && Abs(r.store) == Abs(c.store) && r.tick <= c.store.tick && r.store.tick <= c.store.tick
       && Tracks(r.store.grants, c.store.grants) && Sound(c.store, fit)
  }

  lemma DurableExtend(log: Log, e: Entry, fit: bool)
    requires Durable(log, fit) && DurableAt(log + [e], fit)
    ensures Durable(log + [e], fit)
  {
    var next := log + [e];
    forall k | 1 <= k <= |next| ensures DurableAt(next[..k], fit) {
      if k <= |log| {
        assert next[..k] == log[..k];
      } else {
        assert next[..k] == next;
      }
    }
  }

  lemma EvidenceGrows(log: Log, e: Entry, row: Row<Grant>)
    requires Evidence(log, row) || Proves(e, row)
    ensures Evidence(log + [e], row)
  {
    var next := log + [e];
    if j :| 0 <= j < |log| && Proves(log[j], row) {
      assert Proves(next[j], row);
    } else {
      assert Proves(next[|log|], row);
    }
  }

  // ----- one record -----

  /** A grant record says truthfully whether it is a bare prepare, and only a commit record makes a
      grant hold capacity for the first time. */
  ghost predicate RecordWell(log: Log, b: Body)
  {
    b.GrantRecord? ==>
      Tag(Adopted(b.grant, b.state))
      && (HoldsCapacity(b.state) ==> b.kind == CommittedRecord || Evidence(log, Row(b.id, b.grant)))
  }

  /** What a record of a grant says and what its row becomes. */
  predicate RowsFollow(t: Table<Grant>, b: Body, u: Table<Grant>)
  {
    if b.GrantRecord? then
      Has(u, b.id) && u == Put(t, b.id, Get(u, b.id).value) && (IsLive(Get(u, b.id).value.state) ==> IsLive(b.state))
    else u == t
  }

  lemma OverAlike(s: Store, t: Store, b: Body)
    requires Abs(s) == Abs(t)
    ensures LeavesOver(s.grants, b) == LeavesOver(t.grants, b)
  {
    if b.GrantRecord? {
      EssencesFind(s.grants, b.id);
      EssencesFind(t.grants, b.id);
    }
  }

  lemma TracksPut(t: Table<Grant>, u: Table<Grant>, id: Id, g: Grant, live: Grant)
    requires Tracks(t, u) && Essences(t) == Essences(u) && (IsLive(live.state) ==> IsLive(g.state))
    ensures Tracks(Put(t, id, g), Put(u, id, live))
  {
    hide LowerBound, Essence, Put, IsLive;
    EssencesFind(t, id);
    EssencesFind(u, id);
    assert |Essences(t)| == |Essences(u)|;
    var a, b := Put(t, id, g), Put(u, id, live);
    forall j | 0 <= j < |a| && j < |b| && IsLive(b[j].val.state) ensures IsLive(a[j].val.state) {
      PutAt(t, id, g, j);
      PutAt(u, id, live, j);
    }
  }

  lemma TracksKept(s: Store, t: Store, b: Body, tick: nat, latest: nat, u: Table<Grant>)
    requires Abs(s) == Abs(t) && Tracks(s.grants, t.grants) && RowsFollow(t.grants, b, u) && !b.Snapshot?
    requires Effect(s, b, tick, latest).Success?
    ensures Tracks(Effect(s, b, tick, latest).value.grants, u)
  {
    if b.GrantRecord? { TracksPut(s.grants, t.grants, b.id, Adopted(b.grant, b.state), Get(u, b.id).value); }
  }

  /** Writing one record and applying it to the live state keeps the two in step. */
  lemma Logged(c: Core, b: Body, s: Store, fit: bool)
    requires Linked(c, fit) && RecordWell(c.log, b) && LeavesOver(c.store.grants, b) && RowsFollow(c.store.grants, b, s.grants)
    requires !b.Snapshot? && !b.SetController? && !b.TickMark?
    requires var e := Effect(c.store, b, c.store.tick, c.store.tick); e.Success? && Abs(e.value) == Abs(s)
    requires s.tick == c.store.tick && Sound(s, fit)
    ensures Linked(Append(c, b).(store := s), fit)
  {
    hide Effect, Sound, Tagged, Evidenced, Tracks, RecordWell, LeavesOver, RowsFollow, LastIsTame, Essences;
    PrefixSorted(c.log, fit);
    var r := Raw(c.log).value;
    var e := Entry(NextSequence(c.log), c.store.tick, b);
    var latest := Latest(r.tick, e.tick);
    EffectOnAbs(r.store, c.store, b, c.store.tick, latest, c.store.tick);
    RawAppend(c.log, e);
    EffectTick(r.store, b, e.tick, latest);
    var r' := Raw(c.log + [e]).value;
    assert Abs(r'.store) == Abs(s);
    SoundOfAbs(r'.store, s, fit);
    TagsKept(c.log, r.store, e, latest);
    TracksKept(r.store, c.store, b, e.tick, latest, s.grants);
    OverAlike(r.store, c.store, b);
    TameNext(c.log, e);
    assert r'.store == Effect(r.store, b, e.tick, latest).value;
    DurableExtend(c.log, e, fit);
  }

  /** Most records leave the specification's own clock alone. */
  lemma EffectTick(s: Store, b: Body, tick: nat, latest: nat)
    requires !b.Snapshot? && !b.SetController? && !b.TickMark? && Effect(s, b, tick, latest).Success?
    ensures Effect(s, b, tick, latest).value.tick == s.tick
  {}

  lemma TameNext(log: Log, e: Entry)
    requires Raw(log).Success? && !e.body.Snapshot? && LeavesOver(Raw(log).value.store.grants, e.body)
    ensures LastIsTame(log + [e])
  {
    assert (log + [e])[..|log + [e]| - 1] == log;
  }

  lemma TagsKept(log: Log, s: Store, e: Entry, latest: nat)
    requires Sorted(s.grants) && Tagged(s.grants) && Evidenced(log, s.grants) && RecordWell(log, e.body)
    requires !e.body.Snapshot? && Effect(s, e.body, e.tick, latest).Success?
    ensures var t := Effect(s, e.body, e.tick, latest).value.grants;
            Tagged(t) && Evidenced(log + [e], t)
  {
    var t := Effect(s, e.body, e.tick, latest).value.grants;
    var b := e.body;
    forall i | 0 <= i < |t|
      ensures Tag(t[i].val) && (HoldsCapacity(t[i].val.state) ==> Evidence(log + [e], t[i]))
    {
      if b.GrantRecord? && i == LowerBound(s.grants, b.id) {
        assert t[i] == Row(b.id, Adopted(b.grant, b.state));
        if HoldsCapacity(b.state) {
          SameBinding(log, Row(b.id, b.grant), t[i]);
          EvidenceGrows(log, e, t[i]);
        }
      } else {
        var j := if !b.GrantRecord? || Has(s.grants, b.id) || i < LowerBound(s.grants, b.id) then i else i - 1;
        assert t[i] == s.grants[j];
        if HoldsCapacity(t[i].val.state) { EvidenceGrows(log, e, t[i]); }
      }
    }
  }

  lemma SameBinding(log: Log, a: Row<Grant>, b: Row<Grant>)
    requires a.id == b.id && a.val.binding == b.val.binding
    ensures Evidence(log, a) <==> Evidence(log, b)
  {
    forall j | 0 <= j < |log| ensures Proves(log[j], a) == Proves(log[j], b) {}
  }

  /** A live grant's evidence, read off the replayed table. */
  lemma HeldIsEvidenced(c: Core, i: nat, fit: bool)
    requires Linked(c, fit) && i < |c.store.grants| && HoldsCapacity(c.store.grants[i].val.state)
    ensures Evidence(c.log, c.store.grants[i])
  {
    var t := Raw(c.log).value.store.grants;
    assert Essences(t)[i] == Essences(c.store.grants)[i];
    SameBinding(c.log, t[i], c.store.grants[i]);
  }

  // ----- the records the engine writes -----

  /** A grant's row is rewritten together with a record of it. */
  lemma LoggedRow(c: Core, i: nat, kind: GrantRecordKind, g: Grant, state: GrantState, live: Grant, fit: bool)
    requires Linked(c, fit) && i < |c.store.grants|
    requires live.binding == g.binding == c.store.grants[i].val.binding
    requires Essence(Adopted(g, state)) == Essence(live) && GrantShape(live) && Tag(Adopted(g, state))
    requires var o := c.store.grants[i].val;
             && !IsTerminal(o.state) && (IsLive(live.state) ==> IsLive(state))
             && (HoldsCapacity(live.state) ==> HoldsCapacity(o.state) && live.units <= o.units)
    ensures Linked(SetGrant(Append(c, GrantRecord(kind, c.store.grants[i].id, g, state)), i, live), fit)
  {
    var id := c.store.grants[i].id;
    SoundReplace(c.store, i, live, fit);
    if HoldsCapacity(live.state) {
      HeldIsEvidenced(c, i, fit);
      SameBinding(c.log, c.store.grants[i], Row(id, g));
    }
    var b := GrantRecord(kind, id, g, state);
    var s := c.store.(grants := c.store.grants[i := Row(id, live)]);
    RowEffect(c.store, i, b, live);
    RowFollows(c.store.grants, i, b, live);
    Logged(c, b, s, fit);
    assert SetGrant(Append(c, b), i, live) == Append(c, b).(store := s);
  }

  lemma RowFollows(t: Table<Grant>, i: nat, b: Body, live: Grant)
    requires Sorted(t) && i < |t| && b.GrantRecord? && b.id == t[i].id
    requires !IsTerminal(t[i].val.state) && (IsLive(live.state) ==> IsLive(b.state))
    ensures LeavesOver(t, b) && RowsFollow(t, b, t[i := Row(b.id, live)])
  {
    RowFound(t, i);
    PutSame(t, i, live);
    PutFound(t, b.id, live);
  }

  lemma RowEffect(s: Store, i: nat, b: Body, live: Grant)
    requires Sorted(s.grants) && i < |s.grants| && b.GrantRecord? && b.id == s.grants[i].id
    requires Essence(Adopted(b.grant, b.state)) == Essence(live)
    ensures var e := Effect(s, b, s.tick, s.tick);
            e.Success? && Abs(e.value) == Abs(s.(grants := s.grants[i := Row(b.id, live)]))
  {
    RowFound(s.grants, i);
    PutSame(s.grants, i, live);
    EssencesPut(s.grants, b.id, live);
    EssencesPut(s.grants, b.id, Adopted(b.grant, b.state));
  }

  lemma LoggedAttempt(c: Core, id: Id, a: Attempt, fit: bool)
    requires Linked(c, fit) && Linked1(c.store.grants, Row(id, a))
    ensures Room(c.store.attempts, id, MAX_ATTEMPTS) == Ok
    ensures Linked(PutAttempt(Append(c, AttemptTerminal(id, a)), id, a), fit)
  {
    hide Abs, Linked1;
    OwnAttempt(c.store, id, a);
    SoundPutAttempt(c.store, id, a, fit);
    Logged(c, AttemptTerminal(id, a), c.store.(attempts := Put(c.store.attempts, id, a)), fit);
  }

  lemma OwnAttempt(s: Store, id: Id, a: Attempt)
    requires GrantsWell(s.grants) && AttemptsWell(s.grants, s.attempts) && Linked1(s.grants, Row(id, a))
    ensures Room(s.attempts, id, MAX_ATTEMPTS) == Ok
  {
    var j := LowerBound(s.grants, a.grant);
    assert s.grants[j].val.binding.attempt == id;
    AttemptRoom(s, id);
  }

  lemma LoggedCancel(c: Core, id: Id, fit: bool)
    requires Linked(c, fit) && Has(c.store.attempts, id)
    requires var a := Get(c.store.attempts, id).value;
             Has(c.store.grants, a.grant) ==> IsTerminal(Get(c.store.grants, a.grant).value.state)
    ensures Linked(MarkCancelled(c, id), fit)
  {
    hide Durable, DurableAt, Put, Fits, Abs;
    var a := Get(c.store.attempts, id).value;
    var b := a.(cancelled := true, terminalTick := c.store.tick, reason := ATTEMPT_CANCELLED);
    CancelledFits(c.store, id, fit);
    SoundPutAttempt(c.store, id, b, fit);
    Logged(c, AttemptCancelled(id), c.store.(attempts := Put(c.store.attempts, id, b)), fit);
  }

  lemma CancelledFits(s: Store, id: Id, fit: bool)
    requires Sound(s, fit) && Has(s.attempts, id)
    requires var a := Get(s.attempts, id).value;
             Has(s.grants, a.grant) ==> IsTerminal(Get(s.grants, a.grant).value.state)
    ensures Linked1(s.grants, Row(id, Get(s.attempts, id).value.(cancelled := true, terminalTick := s.tick, reason := ATTEMPT_CANCELLED)))
  {
    hide Fits, GrantsWell;
    assert Linked1(s.grants, s.attempts[LowerBound(s.attempts, id)]);
  }

  lemma LoggedTermination(c: Core, i: nat, g: Grant, state: GrantState, reason: Reason, release: bool, fit: bool)
    requires Linked(c, fit) && i < |c.store.grants| && GrantShape(g)
    requires g.binding == c.store.grants[i].val.binding && !IsTerminal(c.store.grants[i].val.state)
    requires IsTerminal(state) && state != Superseded && (release || !g.reserved)
    ensures Linked(Terminate(c, i, g, state, reason, release), fit)
  {
    var u := g.(state := state, reserved := if release then false else g.reserved,
                reductions := AddReason(g.reductions, reason));
    LoggedRow(c, i, TerminalRecord, u, state, u.(releaseSeq := NextSequence(c.log)), fit);
  }

  /** Revalidation either revokes a grant or re-issues it, and both are on the log. */
  lemma LoggedRevalidation(c: Core, i: nat, fit: bool)
    requires Linked(c, fit) && i < |c.store.grants| && HoldsCapacity(c.store.grants[i].val.state)
    ensures Linked(Revalidate(c, i), fit)
  {
    hide Linked, Standing, Terminate, Reissued, FallWords;
    var row := c.store.grants[i];
    LinkedShape(c, i, fit);
    match Standing(c.store, row.val)
    case Fail(_, reason) =>
      LoggedTermination(c, i, row.val, Revoked, Reason(reason, FallWords(c.store, row.val)), true, fit);
    case Go(ds) => LoggedReissue(c, i, ds, fit);
  }

  lemma LinkedShape(c: Core, i: nat, fit: bool)
    requires Linked(c, fit) && i < |c.store.grants|
    ensures GrantShape(c.store.grants[i].val)
  {}

  lemma LoggedReissue(c: Core, i: nat, ds: seq<Reason>, fit: bool)
    requires Linked(c, fit) && i < |c.store.grants| && HoldsCapacity(c.store.grants[i].val.state)
    ensures var u := Reissued(c, c.store.grants[i].val, ds);
            Linked(SetGrant(Append(c, GrantRecord(CommittedRecord, c.store.grants[i].id, u, Committed)), i,
                            u.(commitSeq := NextSequence(c.log))), fit)
  {
    hide Linked, Soften;
    var g := c.store.grants[i].val;
    var u := Reissued(c, g, ds);
    LinkedShape(c, i, fit);
    SoftenCarries(g, ds);
    LoggedRow(c, i, CommittedRecord, u, Committed, u.(commitSeq := NextSequence(c.log)), fit);
  }

  lemma {:induction false} SoftenCarries(g: Grant, ds: seq<Reason>)
    requires Carries(g.outcome)
    ensures Carries(Soften(g, ds).outcome)
    decreases |ds|
  {
    if ds != [] {
      SoftenCarries(g.(reductions := AddReason(g.reductions, ds[0]), degraded := true, outcome := Degraded), ds[1..]);
    }
  }

  // ----- over, on the log -----

  /** The first `k` records say the grant is over. */
  predicate OverAt(log: Log, k: nat, id: Id)
  {
    k <= |log| && match Raw(log[..k])
                  case Success(r) => Has(r.store.grants, id) && IsTerminal(Get(r.store.grants, id).value.state)
                  case Failure(_) => false
  }

  lemma OverStep(s: Store, b: Body, tick: nat, latest: nat, id: Id)
    requires Sorted(s.grants) && Has(s.grants, id) && IsTerminal(Get(s.grants, id).value.state)
    requires !b.Snapshot? && LeavesOver(s.grants, b) && Effect(s, b, tick, latest).Success?
    ensures Get(Effect(s, b, tick, latest).value.grants, id) == Get(s.grants, id)
  {
    if b.GrantRecord? { GetPut(s.grants, b.id, Adopted(b.grant, b.state), id); }
  }

  lemma PrefixSorted(log: Log, fit: bool)
    requires DurableAt(log, fit)
    ensures Raw(log).Success? && Sorted(Raw(log).value.store.grants)
  {}

  lemma PrefixTame(log: Log, fit: bool)
    requires DurableAt(log, fit)
    ensures LastIsTame(log)
  {}

  /** What some prefix of the log says is over, every longer one says is over in the same words. */
  lemma {:induction false} OverOnwards(log: Log, j: nat, k: nat, id: Id, fit: bool)
    requires Durable(log, fit) && 1 <= j <= k <= |log| && OverAt(log, j, id)
    ensures Raw(log[..k]).Success?
    ensures Get(Raw(log[..k]).value.store.grants, id) == Get(Raw(log[..j]).value.store.grants, id)
    decreases k
  {
    hide DurableAt, Effect;
    PrefixSorted(log[..k], fit);
    if j < k {
      OverOnwards(log, j, k - 1, id, fit);
      assert log[..k][..k - 1] == log[..k - 1];
      PrefixSorted(log[..k - 1], fit);
      PrefixTame(log[..k], fit);
      var r := Raw(log[..k - 1]).value;
      OverStep(r.store, log[k - 1].body, log[k - 1].tick, Latest(r.tick, log[k - 1].tick), id);
    }
  }
}
