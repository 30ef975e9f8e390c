/** What each client operation answers and leaves behind, said by lookups in the tables alone (src/authority.cpp,
    src/request.cpp). */
module Answers {
  import opened Tables
  import opened Model
  import opened Text
  import opened Cluster
  import opened Eligibility
  import opened Vocabulary
  import opened Engine
  import opened Requests
  import opened Safety
  import opened Invariant
  import opened Submission
  import opened Runs
  import opened Guarantees
  import opened Edits
  import Fates
  import W = Wording

  /** Nothing changed, and nothing but this was said. */
  predicate Turned(c: Core, out: (Core, Decision), o: Outcome, reason: ReasonCode)
  {
    out == (c, Decision(o, [reason], None, false, false))
  }

  /** Nothing changed, and this was said of this grant. */
  predicate Told(c: Core, out: (Core, Decision), o: Outcome, reason: ReasonCode, row: Row<Grant>, replay: bool, reconcile: bool)
  {
    out == (c, Decision(o, [reason], Some(row), replay, reconcile))
  }

  // ----- form and coordinate -----

  /** A submission gets no further than its form and its coordinate unless both are right: every coordinate that
      differs is answered for what it is, the first in this order, and leaves no trace. So whatever a submission
      changes, whatever grant it is told of, it was made for this cluster, epoch, incarnation, policy and
      generation. */
  lemma SubmitFenced(c: Core, r: Request, care: Care)
    requires hide Reachable, Submit; Reachable(c, care)
    ensures var s, out := c.store.spec, Submit(c, r);
            && (!WellFormed(r) ==> Turned(c, out, Invalid, if TooLarge(r) then LIMIT_EXCEEDED else MALFORMED_REQUEST))
            && (WellFormed(r) ==>
                  if r.cluster != s.id then Turned(c, out, Unknown, CLUSTER_NOT_FOUND)
                  else if r.at.generation > s.generation then Turned(c, out, Invalid, CLUSTER_GENERATION_AHEAD)
                  else if r.at.generation < s.generation then Turned(c, out, Stale, CLUSTER_GENERATION_STALE)
                  else if r.at.epoch > s.epoch then Turned(c, out, Invalid, EPOCH_AHEAD)
                  else if r.at.epoch < s.epoch then Turned(c, out, FencedOut, EPOCH_STALE)
                  else if r.at.incarnation != s.incarnation then Turned(c, out, FencedOut, INCARNATION_STALE)
                  else if r.at.policy != s.policy then Turned(c, out, Stale, POLICY_GENERATION_STALE)
                  else true)
            && (out.0 != c || out.1.grant.Some? || out.1.outcome == Granted || out.1.outcome == Degraded
                ==> WellFormed(r) && ForNow(c, r))
  {
    hide Reachable, RequestShape, FenceCheck, ReplayAttempt, ContractCheck, Renew, Admit, LowerBound, WellFormed, TooLarge;
    SpecNamed(c, care);
    ShapeIs(r);
    FenceIs(c.store.spec, r);
  }

  // ----- an attempt that is known -----

  /** The states a grant of a reachable table can be in. */
  predicate InTable(s: GrantState) { s != Prepared && s != Superseded }

  /** What is said of a known attempt by the state of its grant. */
  predicate ByState(c: Core, out: (Core, Decision), row: Row<Grant>, released: ReasonCode, usable: ReasonCode)
    requires InTable(row.val.state)
  {
    var first := if row.val.reductions == [] then GRANT_FENCED else row.val.reductions[0].code;
    match row.val.state
    case Ambiguous => Told(c, out, Indeterminate, COMMIT_AMBIGUOUS, row, true, true)
    case Released => Told(c, out, Refused, released, row, true, false)
    case Expired => Told(c, out, Refused, GRANT_EXPIRED, row, true, false)
    case Fenced => Told(c, out, FencedOut, first, row, true, true)
    case Revoked => Told(c, out, FencedOut, first, row, true, true)
    case Committed => Told(c, out, row.val.outcome, usable, row, true, false)
    case Acknowledged => Told(c, out, row.val.outcome, usable, row, true, false)
  }

  /** The grant an attempt has, in a reachable state. */
  function GrantOf(c: Core, id: Id): Row<Grant>
    requires Get(c.store.attempts, id).Some? && Get(c.store.grants, Get(c.store.attempts, id).value.grant).Some?
  {
    var name := Get(c.store.attempts, id).value.grant;
    Row(name, Get(c.store.grants, name).value)
  }

  lemma AttemptHasGrant(c: Core, id: Id, care: Care)
    requires hide Reachable; Reachable(c, care) && Get(c.store.attempts, id).Some?
    ensures var a := Get(c.store.attempts, id).value;
            a.grant != [] && Get(c.store.grants, a.grant).Some? && InTable(GrantOf(c, id).val.state)
            && GrantOf(c, id).val.binding.attempt == id
  {
    hide Reachable, LowerBound;
    AttemptGrant(c, id, care);
  }

  /** A submission under an attempt that is known changes nothing. It is told what became of the attempt only if it is
      the request the attempt was made with; whoever reuses an attempt, or comes after its request was forgotten, is
      told of a conflict. */
  lemma RepeatAnswered(c: Core, r: Request, care: Care)
    requires hide Reachable, Submit; Reachable(c, care) && WellFormed(r) && ForNow(c, r)
    requires !r.renewal && Get(c.store.attempts, r.attempt).Some?
    ensures var a := Get(c.store.attempts, r.attempt).value;
            a.grant != [] && Get(c.store.grants, a.grant).Some? && InTable(GrantOf(c, r.attempt).val.state)
    ensures var a, row, out := Get(c.store.attempts, r.attempt).value, GrantOf(c, r.attempt), Submit(c, r);
            if IsZero(a.digest) then
              if row.val.state == Ambiguous then Told(c, out, Indeterminate, COMMIT_AMBIGUOUS, row, true, true)
              else Told(c, out, Conflicting, ATTEMPT_CONFLICT, row, true, true)
            else if r.digest != a.digest then Turned(c, out, Conflicting, ATTEMPT_CONFLICT)
            else if a.cancelled then out == (c, Decision(Cancelled, [ATTEMPT_CANCELLED], None, true, false))
            else if a.released then Told(c, out, Refused, ATTEMPT_ALREADY_RELEASED, row, true, false)
            else ByState(c, out, row, GRANT_ALREADY_RELEASED, ATTEMPT_ALREADY_COMMITTED)
  {
    hide Reachable, RequestShape, FenceCheck, ContractCheck, Renew, Admit, LowerBound, IsZero, WellFormed;
    SpecNamed(c, care);
    ShapeIs(r);
    FenceIs(c.store.spec, r);
    AttemptHasGrant(c, r.attempt, care);
  }

  // ----- the contract -----

  /** The first capability of a contract that the controller does not have. */
  ghost predicate FirstLacking(names: seq<string>, i: int)
  {
    0 <= i < |names| && !IsKnownCapability(names[i]) && forall j :: 0 <= j < i ==> IsKnownCapability(names[j])
  }

  lemma {:induction false} FirstUnknownIs(names: seq<string>)
    ensures AllKnown(names) || exists i :: FirstLacking(names, i) && FirstUnknown(names) == names[i]
  {
    hide IsKnownCapability;
    if names != [] {
      if !IsKnownCapability(names[0]) {
        assert FirstLacking(names, 0);
      } else {
        FirstUnknownIs(names[1..]);
        assert forall j :: 0 < j < |names| ==> names[j] == names[1..][j - 1];
        if i :| FirstLacking(names[1..], i) && FirstUnknown(names[1..]) == names[1..][i] {
          assert names[1..][i] == names[i + 1];
          assert FirstLacking(names, i + 1);
        }
      }
    }
  }

  /** Between the coordinate and evaluation stands the contract: declared, at the generation the request knows, enabled,
      and within the vocabulary unless that is not looked at. */
  lemma ContractAnswered(c: Core, r: Request, care: Care)
    requires hide Reachable, Submit, Gate; Reachable(c, care) && WellFormed(r) && ForNow(c, r)
    requires r.renewal || Get(c.store.attempts, r.attempt).None?
    ensures var out, k := Submit(c, r), Get(c.store.contracts, r.contract);
            if k.None? then Turned(c, out, Unknown, CONTRACT_NOT_FOUND)
            else if r.contractGeneration != k.value.generation then Turned(c, out, Stale, CONTRACT_GENERATION_STALE)
            else if !k.value.enabled then Turned(c, out, Refused, CONTRACT_UNSATISFIED)
            else if c.options.rejectUnknownCapabilities && exists i :: FirstLacking(k.value.capabilities, i) then
              exists i :: FirstLacking(k.value.capabilities, i)
                && Turned(c, out, Unsupported,
                          if Mentions(k.value.capabilities[i], INTER_CLUSTER) then INTER_CLUSTER_UNSUPPORTED
                          else if Mentions(k.value.capabilities[i], HARDWARE) then HARDWARE_SEMANTICS_UNSUPPORTED
                          else UNSUPPORTED_CAPABILITY)
            else Gate(c, r).None?
  {
    hide Reachable, RequestShape, FenceCheck, ReplayAttempt, Renew, Admit, LowerBound, WellFormed, IsKnownCapability, Mentions,
         FirstUnknown;
    SpecNamed(c, care);
    ShapeIs(r);
    FenceIs(c.store.spec, r);
    var k := Get(c.store.contracts, r.contract);
    if k.Some? { FirstUnknownIs(k.value.capabilities); }
  }

  // ----- what the operations on one grant leave -----

  /** Only grants and attempts are different. */
  predicate OnlyTables(c: Core, d: Core)
  {
    && d.options == c.options && d.grantSerial == c.grantSerial && d.leaseSerial == c.leaseSerial
    && d.store.spec == c.store.spec && d.store.tick == c.store.tick && d.store.contracts == c.store.contracts
  }

  /** The grant that is named if there is one, else that of the attempt that is named. */
  function Wanted(c: Core, grant: Id, attempt: Id): Option<Row<Grant>>
  {
    match Get(c.store.grants, grant)
    case Some(g) => Some(Row(grant, g))
    case None =>
      match Get(c.store.attempts, attempt)
      case None => None
      case Some(a) => match Get(c.store.grants, a.grant) case None => None case Some(g) => Some(Row(a.grant, g))
  }

  predicate Over(s: GrantState) { s in {Released, Expired, Fenced, Revoked} }

  lemma NoEmptyIds(c: Core, care: Care)
    requires hide Reachable; Reachable(c, care)
    ensures Get(c.store.grants, []).None? && Get(c.store.attempts, []).None?
  {
    hide Reachable, LowerBound;
    if Get(c.store.grants, []).Some? { GrantInTable(c, [], care); }
    if Get(c.store.attempts, []).Some? { AttemptNamed(c, [], care); }
  }

  lemma AttemptNamed(c: Core, id: Id, care: Care)
    requires hide Reachable; Reachable(c, care) && Get(c.store.attempts, id).Some?
    ensures id != []
  {
    hide Reachable, LowerBound;
    ReachableGood(c, care);
    AttemptGrant(c, id, care);
    GoodRow(c, LowerBound(c.store.grants, Get(c.store.attempts, id).value.grant), care);
  }

  /** A grant of a reachable table: where it stands, what state it is in, and that its attempt has a record that names it. */
  lemma GrantInTable(c: Core, id: Id, care: Care)
    requires hide Reachable; Reachable(c, care) && Get(c.store.grants, id).Some?
    ensures Sorted(c.store.grants) && Sorted(c.store.attempts)
    ensures var g, i := Get(c.store.grants, id).value, LowerBound(c.store.grants, id);
            && i < |c.store.grants| && c.store.grants[i] == Row(id, g) && InTable(g.state) && id != []
            && (g.state == Acknowledged ==> g.acknowledged)
            && var a := Get(c.store.attempts, g.binding.attempt);
               a.Some? && a.value.grant == id && Room(c.store.attempts, g.binding.attempt, MAX_ATTEMPTS) == Ok
  {
    hide Reachable, LowerBound;
    ReachableGood(c, care);
    GoodTable(c, care);
    SortedAttempts(c, care.Roomy?);
    GoodTagged(c, care);
    var i := LowerBound(c.store.grants, id);
    GoodRow(c, i, care);
    AttemptGrant(c, c.store.grants[i].val.binding.attempt, care);
    assert c.store.grants[i].id != [];
  }

  /** One row and one attempt rewritten are two updates of the tables. */
  lemma RowAndAttempt(t: Table<Grant>, id: Id, u: Grant, a: Table<Attempt>, attempt: Id, v: Attempt)
    requires Sorted(t) && Sorted(a) && Has(t, id)
    ensures Changed(t, t[LowerBound(t, id) := Row(id, u)], id, Some(u))
    ensures Changed(a, Put(a, attempt, v), attempt, Some(v))
    ensures Get(t[LowerBound(t, id) := Row(id, u)], id) == Some(u)
  {
    hide Sorted, Changed;
    PutSame(t, LowerBound(t, id), u);
    PutChanges(t, id, u);
    PutChanges(a, attempt, v);
    GetPut(t, id, u, id);
  }

  /** These records are written, one after another, under the next numbers and the present time. */
  ghost predicate Writes(c: Core, d: Core, bodies: seq<Body>)
  {
    |d.log| == |c.log| + |bodies| && d.log[..|c.log|] == c.log
    && forall i :: 0 <= i < |bodies| ==> d.log[|c.log| + i] == Entry(Fates.NextNumber(c) + i, c.store.tick, bodies[i])
  }

  lemma WritesOne(c: Core, d: Core, a: Body)
    requires d.log == Append(c, a).log
    ensures Writes(c, d, [a])
  {}

  lemma WritesTwo(c: Core, e: Core, d: Core, a: Body, b: Body)
    requires e.log == Append(c, a).log && d.log == Append(e, b).log && e.store.tick == c.store.tick
    ensures Writes(c, d, [a, b])
  {}

  lemma WritesThree(c: Core, d: Core, e: Core, f: Core, a: Body, b: Body, last: Body)
    requires d.log == Append(c, a).log && e.log == Append(d, b).log && f.log == Append(e, last).log
    requires d.store.tick == e.store.tick == c.store.tick
    ensures Writes(c, f, [a, b, last])
  {}

  // ----- release -----

  /** Returned: the grant is over, its attempt marked with the time, and nothing else moved. The record of the ending and
      the attempt's record are on the log. */
  ghost predicate Returned(c: Core, out: (Core, Decision), row: Row<Grant>)
  {
    var d, attempt := out.0, row.val.binding.attempt;
    var u, a := Get(d.store.grants, row.id), Get(c.store.attempts, attempt);
    && u.Some? && a.Some? && OnlyTables(c, d)
    && u.value == row.val.(state := Released, reserved := false, releaseSeq := u.value.releaseSeq)
    && Changed(c.store.grants, d.store.grants, row.id, u)
    && Changed(c.store.attempts, d.store.attempts, attempt, Some(a.value.(released := true, terminalTick := c.store.tick)))
    && u.value.releaseSeq == Fates.NextNumber(c)
    && Writes(c, d, [GrantRecord(TerminalRecord, row.id, u.value.(releaseSeq := row.val.releaseSeq), Released),
                     AttemptTerminal(attempt, a.value.(released := true, terminalTick := c.store.tick))])
    && out.1 == Decision(Granted, [], Some(Row(row.id, u.value)), false, false)
  }

  /** A release finds its grant by name or else by attempt, asks for the grant's lease if it is given one and the caller
      is not an administrator, returns the capacity once, and says so again however often it is repeated. */
  lemma ReleaseExact(c: Core, r: ReleaseRequest, care: Care)
    requires hide Reachable, Release; Reachable(c, care)
    ensures var out, row := Release(c, r), Wanted(c, r.grant, r.attempt);
            if r.id == [] || r.grant == r.attempt == [] then Turned(c, out, Invalid, MALFORMED_REQUEST)
            else if row.None? then Turned(c, out, Unknown, GRANT_NOT_FOUND)
            else if r.lease !in {[], row.value.val.binding.lease} && !r.administrative
            then Told(c, out, Conflicting, LEASE_UNKNOWN, row.value, false, false)
            else if Over(row.value.val.state) then Told(c, out, Granted, GRANT_ALREADY_RELEASED, row.value, true, false)
            else Returned(c, out, row.value)
  {
    hide Reachable, LowerBound, Put, Changed, Sorted, AddReason, Returned, ReleaseTarget;
    ReleaseFinds(c, r, care);
    var row := Wanted(c, r.grant, r.attempt);
    if row.Some? {
      GrantInTable(c, row.value.id, care);
      if !Over(row.value.val.state) && r.id != [] && ReleaseTarget(c, r) == Some(row.value.id)
         && (r.lease in {[], row.value.val.binding.lease} || r.administrative) && (r.grant != [] || r.attempt != []) {
        ReleaseReturns(c, r, row.value);
      }
    }
  }

  lemma ReleaseFinds(c: Core, r: ReleaseRequest, care: Care)
    requires hide Reachable; Reachable(c, care)
    ensures var row := Wanted(c, r.grant, r.attempt); ReleaseTarget(c, r) == if row.Some? then Some(row.value.id) else None
  {
    hide Reachable, LowerBound;
    NoEmptyIds(c, care);
    if Get(c.store.attempts, r.attempt).Some? { AttemptHasGrant(c, r.attempt, care); }
  }

  lemma ReleaseReturns(c: Core, r: ReleaseRequest, row: Row<Grant>)
    requires Sorted(c.store.grants) && Sorted(c.store.attempts) && ReleaseTarget(c, r) == Some(row.id)
    requires Get(c.store.grants, row.id) == Some(row.val) && Get(c.store.attempts, row.val.binding.attempt).Some?
    requires Room(c.store.attempts, row.val.binding.attempt, MAX_ATTEMPTS) == Ok && !IsTerminal(row.val.state)
    requires r.id != [] && (r.grant != [] || r.attempt != []) && (r.lease in {[], row.val.binding.lease} || r.administrative)
    ensures Returned(c, Release(c, r), row)
  {
    hide LowerBound, Put, Changed, Sorted, AddReason, ReleaseTarget, Writes;
    var attempt := row.val.binding.attempt;
    var u := row.val.(state := Released, reserved := false, releaseSeq := NextSequence(c.log));
    NothingToNote(row.val.reductions);
    RowAndAttempt(c.store.grants, row.id, u, c.store.attempts, attempt,
                  Get(c.store.attempts, attempt).value.(released := true, terminalTick := c.store.tick));
    assert Release(c, r).0.store.grants == c.store.grants[LowerBound(c.store.grants, row.id) := Row(row.id, u)];
    var ended := Terminate(c, LowerBound(c.store.grants, row.id), row.val, Released, W.NoReason(), true);
    WritesTwo(c, ended, Release(c, r).0, GrantRecord(TerminalRecord, row.id, u.(releaseSeq := row.val.releaseSeq), Released),
              AttemptTerminal(attempt, Get(c.store.attempts, attempt).value.(released := true, terminalTick := c.store.tick)));
  }

  lemma NothingToNote(rs: seq<Reason>)
    ensures AddReason(rs, W.NoReason()) == rs
  {}

  // ----- resolve -----

  /** Asking changes nothing, so what is told is all there is to say: of a known attempt, first whether it was cancelled or
      released, else what state its grant is in. */
  lemma ResolveExactly(c: Core, r: ResolveRequest, care: Care)
    requires hide Reachable, Resolve; Reachable(c, care)
    ensures Get(c.store.attempts, r.attempt).Some? ==>
              Get(c.store.grants, Get(c.store.attempts, r.attempt).value.grant).Some? && InTable(GrantOf(c, r.attempt).val.state)
    ensures var out, a := (c, Resolve(c, r)), Get(c.store.attempts, r.attempt);
            if r.id == [] || r.attempt == [] then Turned(c, out, Invalid, MALFORMED_REQUEST)
            else if a.None? then Turned(c, out, Unknown, ATTEMPT_UNKNOWN)
            else
              var row := GrantOf(c, r.attempt);
              if a.value.cancelled then Told(c, out, Cancelled, ATTEMPT_CANCELLED, row, true, false)
              else if a.value.released then Told(c, out, Refused, ATTEMPT_ALREADY_RELEASED, row, true, false)
              else ByState(c, out, row, if row.val.reductions == [] then GRANT_ALREADY_RELEASED else row.val.reductions[0].code,
                           COMMIT_DURABLE)
  {
    hide Reachable, LowerBound;
    if Get(c.store.attempts, r.attempt).Some? { AttemptHasGrant(c, r.attempt, care); }
  }

  // ----- acknowledge -----

  /** The grant is acknowledged and nothing else moved. The record, after any that came before it, holds the grant as it
      was. */
  ghost predicate Confirmed(c: Core, out: (Core, Decision), id: Id, g: Grant, before: seq<Body>)
  {
    var d := out.0;
    var u := Get(d.store.grants, id);
    && u.Some? && OnlyTables(c, d) && d.store.attempts == c.store.attempts
    && u.value == g.(acknowledged := true, state := Acknowledged, commit := CommitAcknowledged, ackSeq := u.value.ackSeq)
    && Changed(c.store.grants, d.store.grants, id, u)
    && u.value.ackSeq == Fates.NextNumber(c) + |before|
    && Writes(c, d, before + [GrantRecord(AcknowledgedRecord, id, g, Acknowledged)])
    && out.1 == Decision(g.outcome, [COMMIT_DURABLE], Some(Row(id, u.value)), false, false)
  }

  /** A quarantined grant of which something it stands on is gone is revoked instead. */
  ghost predicate Forfeited(c: Core, out: (Core, Decision), id: Id, g: Grant)
  {
    var d := out.0;
    var u := Get(d.store.grants, id);
    && u.Some? && OnlyTables(c, d) && d.store.attempts == c.store.attempts
    && Fates.Falls(c.store, g, u.value) && Changed(c.store.grants, d.store.grants, id, u)
    && u.value.reductions != [] && u.value.releaseSeq == Fates.NextNumber(c)
    && Writes(c, d, [GrantRecord(TerminalRecord, id, u.value.(releaseSeq := g.releaseSeq), Revoked)])
    && out.1 == Decision(FencedOut, [u.value.reductions[0].code], Some(Row(id, u.value)), false, true)
  }

  /** An acknowledgement needs the grant's own lease. A usable grant is confirmed, once; one that is quarantined is issued
      again first if what it stands on is still there, and revoked if not; one that is over stays over. */
  lemma AcknowledgeExact(c: Core, r: AcknowledgeRequest, care: Care)
    requires hide Reachable, Acknowledge; Reachable(c, care)
    ensures var out, found := Acknowledge(c, r), Get(c.store.grants, r.grant);
            if [] in {r.id, r.grant, r.lease} then Turned(c, out, Invalid, MALFORMED_REQUEST)
            else if found.None? then Turned(c, out, Unknown, GRANT_NOT_FOUND)
            else
              var g := found.value;
              if r.lease != g.binding.lease then Told(c, out, Conflicting, LEASE_UNKNOWN, Row(r.grant, g), false, false)
              else if Over(g.state) then Told(c, out, Refused, GRANT_ALREADY_RELEASED, Row(r.grant, g), false, false)
              else if g.state == Acknowledged then Told(c, out, Granted, COMMIT_DURABLE, Row(r.grant, g), true, false)
              else if g.state == Committed then Confirmed(c, out, r.grant, g, [])
              else if Fates.Stands(c.store, g)
              then exists h :: Fates.Survives(c.store, g, h) && h.commitSeq == Fates.NextNumber(c)
                               && Confirmed(c, out, r.grant, h, [GrantRecord(CommittedRecord, r.grant, h.(commitSeq := g.commitSeq), Committed)])
              else Forfeited(c, out, r.grant, g)
  {
    hide Reachable, LowerBound, Put, Changed, Sorted, Revalidate, Fates.Stands, Fates.Falls, Fates.Survives, MarkAcknowledged,
         Writes;
    var found := Get(c.store.grants, r.grant);
    if found.Some? {
      GrantInTable(c, r.grant, care);
      var i, g := LowerBound(c.store.grants, r.grant), found.value;
      if r.id != [] && r.lease == g.binding.lease && r.lease != [] {
        if g.state == Committed {
          Marked(c, c, r.grant, []);
        } else if g.state == Ambiguous {
          var d := Revalidate(c, i);
          Fates.RevalidateFate(c, i);
          assert d.store.grants == c.store.grants[i := d.store.grants[i]];
          if Fates.Stands(c.store, g) {
            var h := d.store.grants[i].val;
            Issued(c.store, g, h);
            Marked(c, d, r.grant, [GrantRecord(CommittedRecord, r.grant, h.(commitSeq := g.commitSeq), Committed)]);
          } else {
            Dropped(c.store, g, d.store.grants[i].val);
            RowAndAttempt(c.store.grants, r.grant, d.store.grants[i].val, c.store.attempts, [], NoAttempt());
            WritesOne(c, d, GrantRecord(TerminalRecord, r.grant, d.store.grants[i].val.(releaseSeq := g.releaseSeq), Revoked));
          }
        }
      }
    }
  }

  lemma Issued(s: Store, g: Grant, h: Grant)
    requires Fates.Stands(s, g) && Fates.Survives(s, g, h)
    ensures h.state == Committed
  {
    hide Fates.Stands, Fates.Strains;
  }

  lemma Dropped(s: Store, g: Grant, h: Grant)
    requires Fates.Falls(s, g, h)
    ensures h.state == Revoked && h.reductions != []
  {
    hide Fates.FirstGone;
    var x := Fates.FirstGone(s, g);
    assert [x][1..] == [];
    assert Codes(h.reductions) == Fates.Noted(Codes(g.reductions), [x]);
    assert Fates.Noted(Codes(g.reductions), [x]) != [] by {
      assert x in Codes(g.reductions) ==> Codes(g.reductions) != [];
    }
  }

  lemma Marked(c: Core, d: Core, id: Id, before: seq<Body>)
    requires Sorted(c.store.grants) && Has(c.store.grants, id) && Sorted(c.store.attempts)
    requires |d.store.grants| == |c.store.grants| && d.store == c.store.(grants := d.store.grants)
    requires d.options == c.options && d.grantSerial == c.grantSerial && d.leaseSerial == c.leaseSerial
    requires var i := LowerBound(c.store.grants, id);
             d.store.grants[i].id == id && d.store.grants == c.store.grants[i := d.store.grants[i]]
    requires if before == [] then d == c else |before| == 1 && Fates.OneRecord(c, d, before[0])
    ensures Confirmed(c, MarkAcknowledged(d, LowerBound(c.store.grants, id)), id,
                      d.store.grants[LowerBound(c.store.grants, id)].val, before)
  {
    hide LowerBound, Put, Changed, Sorted, Writes;
    var i := LowerBound(c.store.grants, id);
    var g := d.store.grants[i].val;
    var u := g.(acknowledged := true, state := Acknowledged, commit := CommitAcknowledged, ackSeq := NextSequence(d.log));
    RowAndAttempt(c.store.grants, id, u, c.store.attempts, [], NoAttempt());
    assert MarkAcknowledged(d, i).0.store.grants == c.store.grants[i := Row(id, u)];
    var last := GrantRecord(AcknowledgedRecord, id, g, Acknowledged);
    if before == [] {
      WritesOne(c, MarkAcknowledged(d, i).0, last);
      assert before + [last] == [last];
    } else {
      WritesTwo(c, d, MarkAcknowledged(d, i).0, before[0], last);
      assert before + [last] == [before[0], last];
    }
  }

  // ----- cancel -----

  predicate ReasonGood(r: CancelRequest) { IsUtf8(r.reason) && |r.reason| <= 512 }

  predicate CancelNames(r: CancelRequest) { r.id != [] && (r.attempt != [] || r.grant != []) }

  /** The attempt a cancellation marks: the one it names if there is one, else its grant's. */
  function CancelMarks(c: Core, r: CancelRequest): Option<Id>
  {
    if Get(c.store.attempts, r.attempt).Some? then Some(r.attempt)
    else match Get(c.store.grants, r.grant) case Some(g) => Some(g.binding.attempt) case None => None
  }

  /** What a cancellation leaves of the grant it found: revoked in the caller's words if it held anything. */
  predicate CutShort(a: Grant, b: Grant, reason: string)
  {
    if a.state in {Committed, Acknowledged, Ambiguous} then
      b == a.(state := Revoked, reserved := false, releaseSeq := b.releaseSeq, reductions := b.reductions)
      && Fates.Notes(a.reductions, b.reductions, [ATTEMPT_CANCELLED])
      && (|b.reductions| > |a.reductions|
          ==> b.reductions[|a.reductions|].detail == if reason == "" then "cancelled" else reason)
    else b == a
  }

  /** The named attempt marked and the found grant ended. */
  ghost predicate CancelledOff(c: Core, out: (Core, Decision), row: Row<Grant>, attempt: Id, reason: string)
  {
    hide Writes;
    var d := out.0;
    var u, a := Get(d.store.grants, row.id), Get(c.store.attempts, attempt);
    && u.Some? && a.Some? && OnlyTables(c, d)
    && CutShort(row.val, u.value, reason) && Changed(c.store.grants, d.store.grants, row.id, u)
    && Changed(c.store.attempts, d.store.attempts, attempt,
               Some(a.value.(cancelled := true, terminalTick := c.store.tick, reason := ATTEMPT_CANCELLED)))
    && (if u.value == row.val then Writes(c, d, [AttemptCancelled(attempt)])
        else Writes(c, d, [GrantRecord(TerminalRecord, row.id, u.value.(releaseSeq := row.val.releaseSeq), Revoked),
                           AttemptCancelled(attempt)]) && u.value.releaseSeq == Fates.NextNumber(c))
    && out.1 == Decision(Cancelled, [ATTEMPT_CANCELLED], Some(Row(row.id, u.value)), false, false)
  }

  lemma CancelFinds(c: Core, r: CancelRequest, care: Care)
    requires hide Reachable; Reachable(c, care)
    ensures CancelMarks(c, r).Some? <==> Wanted(c, r.grant, r.attempt).Some?
    ensures CancelMarks(c, r).Some? ==> Get(c.store.attempts, CancelMarks(c, r).value).Some?
    ensures var row := Wanted(c, r.grant, r.attempt);
            CancelTarget(c, r) == if row.Some? then Some(row.value.id) else None
    ensures CancelledAttempt(c, r) == CancelMarks(c, r)
  {
    hide Reachable, LowerBound;
    NoEmptyIds(c, care);
    if Get(c.store.attempts, r.attempt).Some? { AttemptHasGrant(c, r.attempt, care); }
    if Get(c.store.grants, r.grant).Some? { GrantInTable(c, r.grant, care); }
  }

  /** What is left of the grant a cancellation finds. */
  function Ending(c: Core, g: Grant, reason: string): Grant
  {
    if HoldsCapacity(g.state)
    then g.(state := Revoked, reserved := false, reductions := AddReason(g.reductions, W.CancelledFor(reason)),
            releaseSeq := NextSequence(c.log))
    else g
  }

  lemma EndingCuts(c: Core, g: Grant, reason: string)
    ensures CutShort(g, Ending(c, g, reason), reason)
  {
    hide Fates.Notes;
    Fates.AddNotes(g.reductions, W.CancelledFor(reason));
  }

  lemma CancelCuts(c: Core, r: CancelRequest, row: Row<Grant>, mark: Id)
    requires Sorted(c.store.grants) && Sorted(c.store.attempts)
    requires CancelShape(r) == Ok && CancelTarget(c, r) == Some(row.id) && CancelledAttempt(c, r) == Some(mark)
    requires Get(c.store.grants, row.id) == Some(row.val) && Get(c.store.attempts, mark).Some?
    requires Room(c.store.attempts, mark, MAX_ATTEMPTS) == Ok
    requires Get(c.store.attempts, r.attempt).Some? ==> !Get(c.store.attempts, r.attempt).value.cancelled
    ensures CancelledOff(c, Cancel(c, r), row, mark, r.reason)
  {
    hide LowerBound, Put, Changed, Sorted, CancelShape, CutShort, AddReason, CancelTarget, CancelledAttempt, Writes;
    var i, u := LowerBound(c.store.grants, row.id), Ending(c, row.val, r.reason);
    EndingCuts(c, row.val, r.reason);
    var a := Get(c.store.attempts, mark).value.(cancelled := true, terminalTick := c.store.tick, reason := ATTEMPT_CANCELLED);
    RowAndAttempt(c.store.grants, row.id, u, c.store.attempts, mark, a);
    var d := Cancel(c, r).0;
    assert d.store.grants == c.store.grants[i := Row(row.id, u)];
    if HoldsCapacity(row.val.state) {
      WritesTwo(c, Terminate(c, i, row.val, Revoked, W.CancelledFor(r.reason), true), d,
                GrantRecord(TerminalRecord, row.id, u.(releaseSeq := row.val.releaseSeq), Revoked), AttemptCancelled(mark));
    } else {
      WritesOne(c, d, AttemptCancelled(mark));
    }
  }

  /** A cancellation names an attempt or a grant that is known. It marks the attempt once, and revokes the grant it found
      if that still holds capacity. */
  lemma CancelExact(c: Core, r: CancelRequest, care: Care)
    requires hide Reachable, Cancel; Reachable(c, care)
    ensures var out, row, mark := Cancel(c, r), Wanted(c, r.grant, r.attempt), CancelMarks(c, r);
            if !CancelNames(r) || !ReasonGood(r)
            then Turned(c, out, Invalid, if CancelNames(r) && IsUtf8(r.reason) then LIMIT_EXCEEDED else MALFORMED_REQUEST)
            else if row.None? || mark.None? then Turned(c, out, Unknown, ATTEMPT_UNKNOWN)
            else if Get(c.store.attempts, r.attempt).Some? && Get(c.store.attempts, r.attempt).value.cancelled
            then Told(c, out, Cancelled, ATTEMPT_CANCELLED, row.value, true, false)
            else CancelledOff(c, out, row.value, mark.value, r.reason)
  {
    hide Reachable, LowerBound, Put, Changed, Sorted, IsUtf8, AddReason;
    NoEmptyIds(c, care);
    CancelFinds(c, r, care);
    var row, mark := Wanted(c, r.grant, r.attempt), CancelMarks(c, r);
    if row.Some? {
      GrantInTable(c, row.value.id, care);
      if CancelNames(r) && ReasonGood(r)
         && (Get(c.store.attempts, r.attempt).Some? ==> !Get(c.store.attempts, r.attempt).value.cancelled) {
        CancelCuts(c, r, row.value, mark.value);
      }
    }
  }
}
