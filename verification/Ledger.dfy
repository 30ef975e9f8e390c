/** Conservation: what a run mints, renews and returns accounts for everything held. */
module Ledger {
  import opened Tables
  import opened Model
  import opened Cluster
  import opened Accounting
  import opened Eligibility
  import opened Engine
  import opened Replay
  import opened Safety
  import opened Durability
  import opened Invariant
  import opened Fates
  import opened Recovery
  import opened Submission
  import opened Operations
  import opened Runs
  import opened Guarantees
  import W = Wording

  /** What no step may do to a grant: bind it anew, revive it, change its units outside a renewal of
      it, or give capacity to one that holds none. A grant that is over is not touched at all. */
  predicate RowKept(a: Row<Grant>, b: Row<Grant>, renewed: Option<Id>)
  {
    && b.id == a.id && b.val.binding == a.val.binding
    && (IsTerminal(a.val.state) ==> b == a)
    && (renewed != Some(a.id) ==> b.val.units == a.val.units)
    && (renewed == Some(a.id) ==> b.val.state == a.val.state)
    && (HoldsCapacity(b.val.state) ==> HoldsCapacity(a.val.state))
    && (HoldsCapacity(a.val.state) ==> HoldsCapacity(b.val.state) || IsTerminal(b.val.state))
  }

  ghost predicate Kept(t: Table<Grant>, u: Table<Grant>, renewed: Option<Id>)
  {
    |u| == |t| && forall i :: 0 <= i < |t| ==> RowKept(t[i], u[i], renewed)
  }

  function RenewedBy(step: Step): Option<Id>
  {
    if step.Submission? && step.request.renewal then Some(step.request.renewalOf) else None
  }

  /** Does this step reach `commit_grant`? */
  predicate Mints(c: Core, step: Step)
  {
    step.Submission?
    && var r := step.request;
       Gate(c, r).None? && !r.renewal
       && var k := Get(c.store.contracts, r.contract).value;
          Authorised(c, r, k) && LeaseTicks(c, r) <= c.options.maxLease
  }

  // ----- each operation -----

  lemma KeptSame(t: Table<Grant>, renewed: Option<Id>)
    ensures Kept(t, t, renewed)
  {}

  lemma KeptRow(t: Table<Grant>, u: Table<Grant>, i: nat, renewed: Option<Id>)
    requires i < |t| == |u| && RowKept(t[i], u[i], renewed)
    requires forall j :: 0 <= j < |t| && j != i ==> u[j] == t[j]
    ensures Kept(t, u, renewed)
  {}

  lemma TerminateKept(c: Core, i: nat, g: Grant, state: GrantState, reason: Reason)
    requires i < |c.store.grants| && g == c.store.grants[i].val && IsTerminal(state) && !IsTerminal(g.state)
    ensures Kept(c.store.grants, Terminate(c, i, g, state, reason, true).store.grants, None)
  {
    KeptRow(c.store.grants, Terminate(c, i, g, state, reason, true).store.grants, i, None);
  }

  lemma AcknowledgeKept(c: Core, r: AcknowledgeRequest, care: Care)
    requires Good(c, care)
    ensures Kept(c.store.grants, Acknowledge(c, r).0.store.grants, None)
  {
    hide Good, Acknowledge, Kept, Base, GrantShape, Upright;
    AcknowledgeIs(c, r);
    KeptSame(c.store.grants, None);
    if Acknowledge(c, r).0 != c {
      var i := LowerBound(c.store.grants, r.grant);
      GoodRow(c, i, care);
      if c.store.grants[i].val.state == Ambiguous {
        var e := Revalidate(c, i);
        RevalidateKept(c, i, care);
        if Acknowledge(c, r).0 != e {
          MarkKept(e, i);
          KeptTwice(c.store.grants, e.store.grants, MarkAcknowledged(e, i).0.store.grants);
        }
      } else {
        MarkKept(c, i);
      }
    }
  }

  lemma RevalidateKept(c: Core, i: nat, care: Care)
    requires i < |c.store.grants| && HoldsCapacity(c.store.grants[i].val.state)
    ensures Kept(c.store.grants, Revalidate(c, i).store.grants, None)
  {
    hide Revalidate, Judged, Upright, Settled;
    RevalidateShape(c, i, care);
    JudgedKept(c.store, c.store.grants[i], Revalidate(c, i).store.grants[i]);
    KeptRow(c.store.grants, Revalidate(c, i).store.grants, i, None);
  }

  lemma MarkKept(c: Core, i: nat)
    requires i < |c.store.grants| && HoldsCapacity(c.store.grants[i].val.state)
    ensures Kept(c.store.grants, MarkAcknowledged(c, i).0.store.grants, None)
  {
    hide MarkAcknowledged;
    MarkShape(c, i);
    KeptRow(c.store.grants, MarkAcknowledged(c, i).0.store.grants, i, None);
  }

  lemma KeptTwice(t: Table<Grant>, u: Table<Grant>, v: Table<Grant>)
    requires Kept(t, u, None) && Kept(u, v, None)
    ensures Kept(t, v, None)
  {
    forall i | 0 <= i < |t| ensures RowKept(t[i], v[i], None) {
      assert RowKept(t[i], u[i], None) && RowKept(u[i], v[i], None);
    }
  }

  /** The three ways an acknowledgement changes anything. */
  lemma AcknowledgeIs(c: Core, r: AcknowledgeRequest)
    ensures var d := Acknowledge(c, r).0;
            var i := LowerBound(c.store.grants, r.grant);
            d == c || (Has(c.store.grants, r.grant)
                       && var s := c.store.grants[i].val.state;
                          if s == Ambiguous then
                            var e := Revalidate(c, i);
                            d == e || (e.store.grants[i].val.state == Committed && d == MarkAcknowledged(e, i).0)
                          else s != Released && s != Expired && s != Fenced && s != Revoked
                               && d == MarkAcknowledged(c, i).0)
  {
    hide Revalidate, MarkAcknowledged;
  }

  lemma MarkShape(c: Core, i: nat)
    requires i < |c.store.grants|
    ensures var d := MarkAcknowledged(c, i).0;
            && |d.store.grants| == |c.store.grants| && Ended(c.store.grants[i], d.store.grants[i], Acknowledged)
            && forall j :: 0 <= j < |c.store.grants| && j != i ==> d.store.grants[j] == c.store.grants[j]
  {}

  lemma JudgedKept(s: Store, a: Row<Grant>, b: Row<Grant>)
    requires Judged(s, a, b)
    ensures b.id == a.id && b.val.binding == a.val.binding && b.val.units == a.val.units
    ensures HoldsCapacity(b.val.state) || IsTerminal(b.val.state)
  {
    hide Judged;
    JudgedKeeps(s, a, b);
  }

  lemma CancelKept(c: Core, r: CancelRequest, care: Care)
    requires Good(c, care)
    ensures Kept(c.store.grants, Cancel(c, r).0.store.grants, None)
  {
    hide Good, CancelledAttempt, CancelTarget, Terminate;
    var target := CancelTarget(c, r);
    if target.Some? && Has(c.store.grants, target.value) {
      var i := LowerBound(c.store.grants, target.value);
      var g := c.store.grants[i].val;
      if HoldsCapacity(g.state) { TerminateKept(c, i, g, Revoked, W.CancelledFor(r.reason)); }
    }
  }

  lemma ReleaseKept(c: Core, r: ReleaseRequest)
    ensures Kept(c.store.grants, Release(c, r).0.store.grants, None)
  {
    hide ReleaseTarget, Terminate;
    var target := ReleaseTarget(c, r);
    if target.Some? && Has(c.store.grants, target.value) {
      var i := LowerBound(c.store.grants, target.value);
      var g := c.store.grants[i].val;
      if !IsTerminal(g.state) { TerminateKept(c, i, g, Released, W.NoReason()); }
    }
  }

  lemma RevalidatedKept(s: Store, a: Row<Grant>, b: Row<Grant>)
    requires Fate(s, a, b) && a.val.state != Prepared
    ensures RowKept(a, b, None)
  {}

  lemma SameRowKept(a: Row<Grant>)
    ensures RowKept(a, a, None)
  {}

  lemma ChangeAllowed(c: Core, op: SpecOp, care: Care)
    requires Enabled(c, Changing(op), care)
    ensures ApplySpec(c.store.spec, c.store.tick, op).1 == Ok && (care.Roomy? ==> LeavesRoom(c.store, op))
  {
    hide ApplySpec, LeavesRoom, Restart, Gate, Authorised, ApplyContract;
  }

  lemma MutateKept(c: Core, op: SpecOp, care: Care)
    requires Good(c, care) && Enabled(c, Changing(op), care)
    ensures Kept(c.store.grants, Mutate(c, op).0.store.grants, None)
  {
    hide Mutate, Fate, Good, ApplySpec, LeavesRoom, RowKept, Base, Upright, Enabled;
    ChangeAllowed(c, op, care);
    MutateGood(c, op, care);
    var d := Mutate(c, op).0;
    forall i | 0 <= i < |c.store.grants| ensures RowKept(c.store.grants[i], d.store.grants[i], None) {
      if op.Revalidates() {
        GoodRow(c, i, care);
        RevalidatedKept(Mutated(c.store, op), c.store.grants[i], d.store.grants[i]);
      } else {
        SameRowKept(c.store.grants[i]);
      }
    }
  }

  lemma RevalidateAllKept(c: Core, care: Care)
    requires Good(c, care)
    ensures Kept(c.store.grants, RevalidateFrom(c, 0).store.grants, None)
  {
    RevalidateGood(c, care);
    hide RevalidateFrom, Fate, Good;
    var d := RevalidateFrom(c, 0);
    forall i | 0 <= i < |c.store.grants| ensures RowKept(c.store.grants[i], d.store.grants[i], None) {
      GoodRow(c, i, care);
      RevalidatedKept(c.store, c.store.grants[i], d.store.grants[i]);
    }
  }

  lemma ExpireKept(c: Core, care: Care)
    requires Good(c, care)
    ensures Kept(c.store.grants, ExpireFrom(c, 0).store.grants, None)
  {
    hide Good, ExpireFrom, ExpiredAt, Base, Upright, GrantShape;
    ExpireAllGood(c, 0, care);
    var d := ExpireFrom(c, 0);
    forall i | 0 <= i < |c.store.grants| ensures RowKept(c.store.grants[i], d.store.grants[i], None) {
      GoodRow(c, i, care);
    }
  }

  lemma FenceKept(c: Core, reason: Reason, care: Care)
    requires Good(c, care)
    ensures Kept(c.store.grants, FenceFrom(c, 0, reason).store.grants, None)
  {
    hide Good, FenceFrom, Base, Upright, GrantShape;
    FenceAllGood(c, 0, reason, care);
    var d := FenceFrom(c, 0, reason);
    forall i | 0 <= i < |c.store.grants| ensures RowKept(c.store.grants[i], d.store.grants[i], None) {
      GoodRow(c, i, care);
    }
  }

  lemma RenewKept(c: Core, r: Request, k: Contract)
    requires r.renewal
    ensures Kept(c.store.grants, Renew(c, r, k).0.store.grants, Some(r.renewalOf))
  {
    hide Evaluate, Renewed;
    var e := Evaluate(ViewOf(c), r, k);
    if e.Pass? {
      if GrantOutcome(e.degradations, r, k).Some? && Has(c.store.grants, r.renewalOf) {
        RenewalTarget(ViewOf(c), r, k);
        var i := LowerBound(c.store.grants, r.renewalOf);
        RenewedKeeps(c, c.store.grants[i].val, r, e, GrantOutcome(e.degradations, r, k).value);
        KeptRow(c.store.grants, Renew(c, r, k).0.store.grants, i, Some(r.renewalOf));
      }
    }
  }

  lemma RenewedKeeps(c: Core, g: Grant, r: Request, e: Verdict, o: Outcome)
    requires e.Pass?
    ensures var u := Renewed(c, g, r, e, o); u.binding == g.binding && u.state == g.state
  {}

  lemma MintsMay(c: Core, r: Request, care: Care)
    requires Enabled(c, Submission(r), care) && Mints(c, Submission(r))
    ensures MayMint(c)
  {
    hide Gate, Authorised, Restart, ApplySpec, ApplyContract, LeavesRoom;
  }

  /** A minting step adds one row, under the next name, holding capacity; nothing else moves. */
  lemma MintAdds(c: Core, step: Step, care: Care)
    requires hide Good, Next, Enabled; Good(c, care) && Enabled(c, step, care) && Mints(c, step)
    ensures var id := GrantName(c.grantSerial + 1);
            var d := Next(c, step);
            && !Has(c.store.grants, id) && Has(d.store.grants, id)
            && d.store.grants == Put(c.store.grants, id, Get(d.store.grants, id).value)
            && Get(d.store.grants, id).value.state == Committed
  {
    hide Good, Evaluate, Draft, Minted, Enabled, Release, Acknowledge, Cancel, Mutate, MutateContract, SetPolicy, AdvanceTick,
         ExpireFrom, FenceFrom, RevalidateFrom, Compact, Restart, Commit, Admit, GrantOutcome;
    var r := step.request;
    MintsMay(c, r, care);
    var k := Get(c.store.contracts, r.contract).value;
    var id := GrantName(c.grantSerial + 1);
    AdmitIs(c, r, k);
    CountersLeft(c);
    NamesNumber(c.grantSerial + 1);
    FreshFor(c, r, care);
    var e := Evaluate(ViewOf(c), r, k);
    CommitAdds(Bumped(c), id, Draft(Bumped(c), r, k, e, GrantOutcome(e.degradations, r, k).value,
                                    LeaseName(Bumped(c).leaseSerial), LeaseTicks(c, r)), r);
  }

  lemma FreshFor(c: Core, r: Request, care: Care)
    requires Good(c, care) && c.grantSerial < U64_MAX
    ensures !Has(c.store.grants, GrantName(c.grantSerial + 1)) && Sorted(c.store.grants)
  {
    NamesNumber(c.grantSerial + 1);
    FreshName(c, GrantName(c.grantSerial + 1));
  }

  lemma CommitAdds(c: Core, id: Id, draft: Grant, r: Request)
    requires Sorted(c.store.grants) && !Has(c.store.grants, id) && |c.store.grants| < MAX_GRANTS
    ensures var d := Commit(c, id, draft, r).0;
            Has(d.store.grants, id) && d.store.grants == Put(c.store.grants, id, Get(d.store.grants, id).value)
            && Get(d.store.grants, id).value.state == Committed
  {
    var d := Commit(c, id, draft, r).0;
    var g := d.store.grants[LowerBound(c.store.grants, id)].val;
    GetPut(c.store.grants, id, g, id);
  }

  lemma SubmitKept(c: Core, r: Request, care: Care)
    requires Good(c, care) && Enabled(c, Submission(r), care) && !Mints(c, Submission(r))
    ensures Kept(c.store.grants, Submit(c, r).0.store.grants, RenewedBy(Submission(r)))
  {
    hide Good, Admit, Renew, Evaluate, Enabled, Kept;
    KeptSame(c.store.grants, RenewedBy(Submission(r)));
    if Gate(c, r).None? {
      var k := Get(c.store.contracts, r.contract).value;
      if r.renewal { RenewKept(c, r, k); } else { AdmitIs(c, r, k); }
    }
  }

  /** Every step but a crash either adds one freshly named grant or keeps every row. */
  lemma StepKept(c: Core, step: Step, care: Care)
    requires Good(c, care) && Enabled(c, step, care) && !step.Crashing? && !Mints(c, step)
    ensures Kept(c.store.grants, Next(c, step).store.grants, RenewedBy(step))
  {
    hide Good, Submit, Release, Acknowledge, Cancel, Mutate, Kept, Mints, Enabled, ExpireFrom, FenceFrom, RevalidateFrom, Restart,
         ApplyContract;
    match step
    case Submission(r) => SubmitKept(c, r, care);
    case Releasing(r) => ReleaseKept(c, r);
    case Acknowledging(r) => AcknowledgeKept(c, r, care);
    case Cancelling(r) => CancelKept(c, r, care);
    case Changing(op) => MutateKept(c, op, care);
    case Expiring => ExpireKept(c, care);
    case Fencing(reason) => FenceKept(c, reason, care);
    case Revalidating => RevalidateAllKept(c, care);
    case _ => KeptSame(c.store.grants, RenewedBy(step));
  }

  // ----- terminal states are absorbing -----

  ghost predicate CrashFree(steps: seq<Step>)
  {
    forall i :: 0 <= i < |steps| ==> !steps[i].Crashing?
  }

  lemma StepFinal(c: Core, step: Step, id: Id, care: Care)
    requires hide Good, Next, Enabled; Good(c, care) && Enabled(c, step, care) && !step.Crashing?
    requires Has(c.store.grants, id) && IsTerminal(Get(c.store.grants, id).value.state)
    ensures Has(Next(c, step).store.grants, id)
    ensures Get(Next(c, step).store.grants, id) == Get(c.store.grants, id)
  {
    hide Good, Next, Mints, Enabled;
    StepGood(c, step, care);
    GoodTable(Next(c, step), care);
    GoodTable(c, care);
    if Mints(c, step) {
      MintAdds(c, step, care);
      var name := GrantName(c.grantSerial + 1);
      GetPut(c.store.grants, name, Get(Next(c, step).store.grants, name).value, id);
    } else {
      StepKept(c, step, care);
      var i := LowerBound(c.store.grants, id);
      assert RowKept(c.store.grants[i], Next(c, step).store.grants[i], RenewedBy(step));
      RowFound(Next(c, step).store.grants, i);
    }
  }

  lemma {:induction false} Untouched(c: Core, steps: seq<Step>, id: Id, care: Care)
    requires hide Good, Follows, After; Good(c, care) && Follows(c, steps, care) && CrashFree(steps)
    requires Has(c.store.grants, id) && IsTerminal(Get(c.store.grants, id).value.state)
    ensures Get(After(c, steps).store.grants, id) == Get(c.store.grants, id)
    decreases |steps|
  {
    hide Good, Next, Enabled;
    if steps != [] {
      assert !steps[0].Crashing?;
      StepGood(c, steps[0], care);
      StepFinal(c, steps[0], id, care);
      Untouched(Next(c, steps[0]), steps[1..], id, care);
    }
  }

  /** Until the next restart, a released, expired, fenced or revoked grant is not touched in any way. */
  lemma TerminalUntouched(c: Core, steps: seq<Step>, id: Id, care: Care)
    requires hide Reachable, Follows, After; Reachable(c, care) && Follows(c, steps, care) && CrashFree(steps)
    requires Has(c.store.grants, id) && IsTerminal(Get(c.store.grants, id).value.state)
    ensures Get(After(c, steps).store.grants, id) == Get(c.store.grants, id)
  {
    hide Good, Reachable, Follows, After, AllEntries;
    ReachableGood(c, care);
    Untouched(c, steps, id, care);
  }

  /** Every crash of the run keeps enough of the log to say that the grant was over. */
  ghost predicate Remembered(c: Core, steps: seq<Step>, id: Id)
    decreases |steps|
  {
    hide Next, OverAt;
    steps == [] || ((steps[0].Crashing? ==> OverAt(c.log, steps[0].k, id)) && Remembered(Next(c, steps[0]), steps[1..], id))
  }

  /** Over in one way: the same grant up to the positions of its records, in the same state. */
  predicate SameEnd(a: Grant, b: Grant) { SameGrant(a, b) && a.state == b.state }

  /** What the log says of a grant that is over is what the table says. */
  lemma OverSame(c: Core, k: nat, id: Id, care: Care)
    requires Good(c, care) && 1 <= k <= |c.log| && OverAt(c.log, k, id) && Has(c.store.grants, id)
    ensures SameEnd(Get(Raw(c.log[..k]).value.store.grants, id).value, Get(c.store.grants, id).value)
  {
    hide Good, DurableAt, Durable, LowerBound;
    PrefixDurable(c, |c.log|, care);
    ReplayOf(c, care);
    assert c.log[..|c.log|] == c.log;
    OverOnwards(c.log, k, |c.log|, id, care.Roomy?);
    var t := Raw(c.log).value.store.grants;
    EssencesFind(t, id);
    EssencesFind(c.store.grants, id);
    EssenceIsSame(Get(t, id).value, Get(c.store.grants, id).value);
  }

  /** What a crash step is. */
  lemma CrashIs(c: Core, step: Step, care: Care)
    requires hide Enabled, Next, Restart; Enabled(c, step, care) && step.Crashing?
    ensures 1 <= step.k <= |c.log| && CareOptions(step.options, care)
    ensures Restart(c, step.k, step.options, step.incarnation, step.at).1 == Ok
    ensures Next(c, step) == Restart(c, step.k, step.options, step.incarnation, step.at).0
  {
    hide Restart, Submit, Release, Acknowledge, Cancel, Mutate, MutateContract, SetPolicy, AdvanceTick, ExpireFrom, FenceFrom,
         RevalidateFrom, Compact, Gate, Authorised, ApplySpec, ApplyContract, LeavesRoom, CancelsOwn, RenewsInPlace, MayMint;
  }

  lemma CrashFinal(c: Core, step: Step, id: Id, care: Care)
    requires hide Good, Enabled, Next, OverAt, SameEnd;
             Good(c, care) && Enabled(c, step, care) && step.Crashing? && OverAt(c.log, step.k, id)
    requires Has(c.store.grants, id) && IsTerminal(Get(c.store.grants, id).value.state)
    ensures Has(Next(c, step).store.grants, id)
    ensures SameEnd(Get(c.store.grants, id).value, Get(Next(c, step).store.grants, id).value)
  {
    hide Good, Restart, SameGrant, LowerBound, Evidence, Enabled, Next;
    CrashIs(c, step, care);
    var t, u := Raw(c.log[..step.k]).value.store.grants, Next(c, step).store.grants;
    OverSame(c, step.k, id, care);
    CrashFates(c, step.k, step.options, step.incarnation, step.at, care);
    SameIds(t, u, id);
    var i := LowerBound(t, id);
    assert CrashFate(c.log[..step.k], Next(c, step).store.spec, t[i], u[i]);
    SameBack(Get(t, id).value, Get(c.store.grants, id).value);
  }

  lemma SameBack(a: Grant, b: Grant)
    requires SameEnd(a, b)
    ensures SameEnd(b, a)
  {}

  lemma SameOn(a: Grant, b: Grant, c: Grant)
    requires SameEnd(a, b) && SameEnd(b, c)
    ensures SameEnd(a, c)
  {}

  lemma {:induction false} OverStays(c: Core, steps: seq<Step>, id: Id, care: Care)
    requires hide Good, Follows, After, Remembered;
             Good(c, care) && Follows(c, steps, care) && Remembered(c, steps, id)
    requires Has(c.store.grants, id) && IsTerminal(Get(c.store.grants, id).value.state)
    ensures Has(After(c, steps).store.grants, id)
    ensures SameEnd(Get(c.store.grants, id).value, Get(After(c, steps).store.grants, id).value)
    decreases |steps|
  {
    hide Good, Next, Enabled, SameGrant, OverAt, LowerBound;
    if steps != [] {
      var d := Next(c, steps[0]);
      StepGood(c, steps[0], care);
      if steps[0].Crashing? {
        CrashFinal(c, steps[0], id, care);
      } else {
        StepFinal(c, steps[0], id, care);
        SameSelf(Get(c.store.grants, id).value);
      }
      OverStays(d, steps[1..], id, care);
      SameOn(Get(c.store.grants, id).value, Get(d.store.grants, id).value, Get(After(c, steps).store.grants, id).value);
    } else {
      SameSelf(Get(c.store.grants, id).value);
    }
  }

  lemma SameSelf(a: Grant)
    ensures SameEnd(a, a)
  {}

  /** Over: for good. No run revives or changes a released, expired, fenced or revoked grant, through any
      number of crashes, as long as each keeps enough of the log to say that it was over. */
  lemma TerminalForever(c: Core, steps: seq<Step>, id: Id, care: Care)
    requires hide Reachable, Follows, After, Remembered;
             Reachable(c, care) && Follows(c, steps, care) && Remembered(c, steps, id)
    requires Has(c.store.grants, id) && IsTerminal(Get(c.store.grants, id).value.state)
    ensures Has(After(c, steps).store.grants, id)
    ensures SameEnd(Get(c.store.grants, id).value, Get(After(c, steps).store.grants, id).value)
  {
    hide Good, Reachable, Follows, After, Remembered, SameGrant;
    ReachableGood(c, care);
    OverStays(c, steps, id, care);
  }

  /** Every crash of the run keeps the whole log. */
  ghost predicate WholeLogs(c: Core, steps: seq<Step>)
    decreases |steps|
  {
    hide Next;
    steps == [] || ((steps[0].Crashing? ==> steps[0].k == |c.log|) && WholeLogs(Next(c, steps[0]), steps[1..]))
  }

  lemma OverOnLog(c: Core, id: Id, care: Care)
    requires Good(c, care) && Has(c.store.grants, id) && IsTerminal(Get(c.store.grants, id).value.state)
    ensures OverAt(c.log, |c.log|, id)
  {
    hide Good;
    ReplayOf(c, care);
    assert c.log[..|c.log|] == c.log;
    EssencesFind(Raw(c.log).value.store.grants, id);
    EssencesFind(c.store.grants, id);
  }

  /** A whole log is always enough: nothing that is over is forgotten by a run that loses no record. */
  lemma {:induction false} WholeLogRemembers(c: Core, steps: seq<Step>, id: Id, care: Care)
    requires hide Good, Follows, WholeLogs, Remembered;
             Good(c, care) && Follows(c, steps, care) && WholeLogs(c, steps)
    requires Has(c.store.grants, id) && IsTerminal(Get(c.store.grants, id).value.state)
    ensures Remembered(c, steps, id)
    decreases |steps|
  {
    hide Good, Next, Enabled, SameGrant, OverAt, LowerBound;
    if steps != [] {
      StepGood(c, steps[0], care);
      if steps[0].Crashing? {
        OverOnLog(c, id, care);
        CrashFinal(c, steps[0], id, care);
      } else {
        StepFinal(c, steps[0], id, care);
      }
      WholeLogRemembers(Next(c, steps[0]), steps[1..], id, care);
    }
  }

  // ----- the books -----

  /** What the grants that were just ended had held. */
  function Returned(t: Table<Grant>, u: Table<Grant>, k: Key): nat
    requires |t| == |u|
  {
    if t == [] then 0 else
      var n := |t| - 1;
      Returned(t[..n], u[..n], k) + (if IsTerminal(u[n].val.state) then Weight(k, t[n].val) else 0)
  }

  /** By how much renewal moved what one grant holds. */
  function RenewalChange(t: Table<Grant>, u: Table<Grant>, renewed: Option<Id>, k: Key): int
    requires |t| == |u|
  {
    if t == [] then 0 else
      var n := |t| - 1;
      RenewalChange(t[..n], u[..n], renewed, k)
      + (if renewed == Some(t[n].id) then Weight(k, u[n].val) - Weight(k, t[n].val) else 0)
  }

  lemma {:induction false} KeptTotals(t: Table<Grant>, u: Table<Grant>, renewed: Option<Id>, k: Key)
    requires Kept(t, u, renewed)
    ensures Total(u, k) == Total(t, k) + RenewalChange(t, u, renewed, k) - Returned(t, u, k)
  {
    if t != [] {
      var n := |t| - 1;
      assert RowKept(t[n], u[n], renewed);
      KeptTotals(t[..n], u[..n], renewed, k);
    }
  }

  datatype Books = Books(minted: int, renewed: int, returned: int, lost: int)

  /** The entries a crash makes: the difference between what was held and what the surviving records say was
      held, and what the grants had held that recovery ended. */
  ghost function CrashEntries(c: Core, n: nat, u: Table<Grant>, k: Key): Books
  {
    if n <= |c.log| && Raw(c.log[..n]).Success? then
      var t := Raw(c.log[..n]).value.store.grants;
      Books(0, 0, if |t| == |u| then Returned(t, u, k) else 0, Total(c.store.grants, k) - Total(t, k))
    else Books(0, 0, 0, 0)
  }

  /** The entries one step makes. */
  ghost function Entries(c: Core, step: Step, k: Key): Books
  {
    hide Next, Mints;
    var t, u := c.store.grants, Next(c, step).store.grants;
    if step.Crashing? then CrashEntries(c, step.k, u, k)
    else if Mints(c, step) then
      var id := GrantName(c.grantSerial + 1);
      Books(if Has(u, id) then Weight(k, Get(u, id).value) else 0, 0, 0, 0)
    else if |t| == |u| then Books(0, RenewalChange(t, u, RenewedBy(step), k), Returned(t, u, k), 0)
    else Books(0, 0, 0, 0)
  }

  ghost function AllEntries(c: Core, steps: seq<Step>, k: Key): Books
    decreases |steps|
  {
    hide Next, Entries;
    if steps == [] then Books(0, 0, 0, 0) else
      var e := Entries(c, steps[0], k);
      var f := AllEntries(Next(c, steps[0]), steps[1..], k);
      Books(e.minted + f.minted, e.renewed + f.renewed, e.returned + f.returned, e.lost + f.lost)
  }

  lemma MintBalances(c: Core, step: Step, k: Key, care: Care)
    requires Good(c, care) && Enabled(c, step, care) && Mints(c, step)
    ensures Total(Next(c, step).store.grants, k) == Total(c.store.grants, k) + Entries(c, step, k).minted
  {
    hide Good, Next, Authorised, Enabled, Put, Total, LowerBound, GrantName, Weight, Gate;
    MintAdds(c, step, care);
    var id := GrantName(c.grantSerial + 1);
    TotalPut(c.store.grants, id, Get(Next(c, step).store.grants, id).value, k);
  }

  /** Recovery keeps every row in the sense any step does. */
  lemma RecoveredKept(s: Store, p: RecoveryPolicy, a: Row<Grant>, b: Row<Grant>)
    requires Recovered(s, p, a, b) && Tag(a.val)
    ensures RowKept(a, b, None)
  {
    hide Standing;
  }

  lemma {:induction false} NoRenewal(t: Table<Grant>, u: Table<Grant>, k: Key)
    requires |t| == |u|
    ensures RenewalChange(t, u, None, k) == 0
  {
    if t != [] { NoRenewal(t[..|t| - 1], u[..|t| - 1], k); }
  }

  lemma CrashBalances(c: Core, step: Step, k: Key, care: Care)
    requires hide Good, Next, Enabled, CrashEntries; Good(c, care) && Enabled(c, step, care) && step.Crashing?
    ensures var e := CrashEntries(c, step.k, Next(c, step).store.grants, k);
            && Total(Next(c, step).store.grants, k) == Total(c.store.grants, k) - e.returned - e.lost
            && e.minted == 0 && e.renewed == 0
  {
    hide DurableAt, Durable, Good, Recover, Recovered, Total, Returned, RowKept, Weight, Tag, Enabled, Next, Raw;
    CrashIs(c, step, care);
    var log := c.log[..step.k];
    PrefixDurable(c, step.k, care);
    PrefixState(log, care.Roomy?);
    RecoverGood(step.options, log, step.incarnation, step.at, care);
    var t, d := Raw(log).value.store.grants, Next(c, step);
    forall i | 0 <= i < |t| ensures RowKept(t[i], d.store.grants[i], None) {
      RecoveredKept(d.store, step.options.recovery, t[i], d.store.grants[i]);
    }
    KeptTotals(t, d.store.grants, None, k);
    NoRenewal(t, d.store.grants, k);
  }

  /** A crash that loses no record loses no unit. */
  lemma WholeLogLosesNothing(c: Core, u: Table<Grant>, k: Key, care: Care)
    requires Good(c, care)
    ensures CrashEntries(c, |c.log|, u, k).lost == 0
  {
    hide Good, Total;
    ReplayOf(c, care);
    assert c.log[..|c.log|] == c.log;
    SameTotals(Raw(c.log).value.store, c.store, k);
  }

  /** What one step does to the books. */
  lemma StepBalances(c: Core, step: Step, k: Key, care: Care)
    requires hide Good, Next, Enabled, Entries; Good(c, care) && Enabled(c, step, care)
    ensures var e := Entries(c, step, k);
            && Total(Next(c, step).store.grants, k) == Total(c.store.grants, k) + e.minted + e.renewed - e.returned - e.lost
            && ((step.Crashing? ==> step.k == |c.log|) ==> e.lost == 0)
  {
    hide Good, Next, Mints, Enabled, Returned, RenewalChange, RowKept, Total, CrashEntries;
    if step.Crashing? {
      CrashBalances(c, step, k, care);
      WholeLogLosesNothing(c, Next(c, step).store.grants, k, care);
    } else if Mints(c, step) {
      MintBalances(c, step, k, care);
    } else {
      StepKept(c, step, care);
      KeptTotals(c.store.grants, Next(c, step).store.grants, RenewedBy(step), k);
    }
  }

  lemma {:induction false} Balanced(c: Core, steps: seq<Step>, k: Key, care: Care)
    requires hide Good, Follows, After, AllEntries, WholeLogs; Good(c, care) && Follows(c, steps, care)
    ensures var e := AllEntries(c, steps, k);
            && Total(After(c, steps).store.grants, k) == Total(c.store.grants, k) + e.minted + e.renewed - e.returned - e.lost
            && (WholeLogs(c, steps) ==> e.lost == 0)
    decreases |steps|
  {
    hide Good, Next, Enabled, Entries;
    if steps != [] {
      StepGood(c, steps[0], care);
      StepBalances(c, steps[0], k, care);
      Balanced(Next(c, steps[0]), steps[1..], k, care);
    }
  }

  /** Conservation: over any run, what is held is what was held, plus what was minted, plus what renewal
      changed, minus what ended grants gave back, minus what crashes lost with the records they lost: nothing,
      when they keep the whole log. A grant gives back only in the step that ends it, since it is never
      touched again. */
  lemma BooksBalance(c: Core, steps: seq<Step>, k: Key, care: Care)
    requires hide Reachable, Follows, After, AllEntries, WholeLogs;
             Reachable(c, care) && Follows(c, steps, care)
    ensures var e := AllEntries(c, steps, k);
            && Total(After(c, steps).store.grants, k) == Total(c.store.grants, k) + e.minted + e.renewed - e.returned - e.lost
            && (WholeLogs(c, steps) ==> e.lost == 0)
  {
    hide Good, Reachable, Follows, After, AllEntries, WholeLogs, Total;
    ReachableGood(c, care);
    Balanced(c, steps, k, care);
  }

  // ----- ending twice -----

  lemma {:induction false} NothingToFence(c: Core, i: nat, reason: Reason)
    requires forall j :: 0 <= j < |c.store.grants| ==> !HoldsCapacity(c.store.grants[j].val.state)
    ensures FenceFrom(c, i, reason) == c
    decreases |c.store.grants| - i
  {
    if i < |c.store.grants| { NothingToFence(c, i + 1, reason); }
  }

  /** Fencing again does nothing: not a record, not a unit. */
  lemma FenceOnce(c: Core, reason: Reason, again: Reason, care: Care)
    requires hide Reachable; Reachable(c, care)
    ensures var d := FenceFrom(c, 0, reason);
            FenceFrom(d, 0, again) == d && forall j :: 0 <= j < |d.store.grants| ==> !HoldsCapacity(d.store.grants[j].val.state)
  {
    hide Good, FenceFrom, Reachable;
    ReachableGood(c, care);
    FenceAllGood(c, 0, reason, care);
    var d := FenceFrom(c, 0, reason);
    forall j | 0 <= j < |d.store.grants| ensures !HoldsCapacity(d.store.grants[j].val.state) {
      assert HoldsCapacity(c.store.grants[j].val.state) ==> Ended(c.store.grants[j], d.store.grants[j], Fenced);
    }
    NothingToFence(d, 0, again);
  }

  lemma {:induction false} NothingToExpire(c: Core, i: nat)
    requires forall j :: 0 <= j < |c.store.grants| ==>
               !(IsLive(c.store.grants[j].val.state) && ExpiredAt(c.store.grants[j].val, c.store.tick))
    ensures ExpireFrom(c, i) == c
    decreases |c.store.grants| - i
  {
    if i < |c.store.grants| { NothingToExpire(c, i + 1); }
  }

  /** Expiring again at the same tick does nothing. */
  lemma ExpireOnce(c: Core, care: Care)
    requires hide Reachable; Reachable(c, care)
    ensures ExpireFrom(ExpireFrom(c, 0), 0) == ExpireFrom(c, 0)
  {
    hide Good, ExpireFrom, Reachable;
    ReachableGood(c, care);
    ExpireAllGood(c, 0, care);
    var d := ExpireFrom(c, 0);
    forall j | 0 <= j < |d.store.grants|
      ensures !(IsLive(d.store.grants[j].val.state) && ExpiredAt(d.store.grants[j].val, d.store.tick))
    {
      if IsLive(c.store.grants[j].val.state) && ExpiredAt(c.store.grants[j].val, c.store.tick) {
        assert Ended(c.store.grants[j], d.store.grants[j], Expired);
      }
    }
    NothingToExpire(d, 0);
  }

  /** Releasing again does nothing, and says it was a repetition. */
  lemma ReleaseOnce(c: Core, r: ReleaseRequest, care: Care)
    requires Reachable(c, care)
    ensures var d := Release(c, r).0;
            Release(d, r).0 == d && (d != c ==> Release(d, r).1.outcome == Granted && Release(d, r).1.replay)
  {
    hide Good, Release, Reachable;
    ReachableGood(c, care);
    var d := Release(c, r).0;
    ReleaseGood(c, r, care);
    GoodTable(c, care);
    GoodTable(d, care);
    if ReleaseActs(c, r) {
      var id := ReleaseTarget(c, r).value;
      ReleaseEnds(c, r, id, care);
      ReleaseOver(d, r, id);
    } else {
      ReleaseIdle(c, r);
    }
  }

  /** The release finds a grant that is not over, under a lease that is its own. */
  predicate ReleaseActs(c: Core, r: ReleaseRequest)
  {
    r.id != [] && (r.grant != [] || r.attempt != [])
    && var t := ReleaseTarget(c, r);
       t.Some? && Has(c.store.grants, t.value)
       && var g := Get(c.store.grants, t.value).value;
          (r.lease == [] || g.binding.lease == r.lease || r.administrative) && !IsTerminal(g.state)
  }

  lemma ReleaseIdle(c: Core, r: ReleaseRequest)
    requires !ReleaseActs(c, r)
    ensures Release(c, r).0 == c
  {}

  lemma ReleaseEnds(c: Core, r: ReleaseRequest, id: Id, care: Care)
    requires Good(c, care) && ReleaseActs(c, r) && ReleaseTarget(c, r) == Some(id)
    ensures var d := Release(c, r).0;
            && Has(d.store.grants, id) && IsTerminal(Get(d.store.grants, id).value.state)
            && Get(d.store.grants, id).value.binding == Get(c.store.grants, id).value.binding
            && ReleaseTarget(d, r) == Some(id)
            && r.id != [] && (r.grant != [] || r.attempt != [])
            && (r.lease == [] || Get(d.store.grants, id).value.binding.lease == r.lease || r.administrative)
  {
    hide Good, Linked, Upright, Terminate, GrantShape, ReleaseTarget, Release, Put, LowerBound, Settled, Numbered;
    var i := LowerBound(c.store.grants, id);
    GoodRow(c, i, care);
    GoodTable(c, care);
    SortedAttempts(c, care.Roomy?);
    var row := c.store.grants[i];
    TerminateGood(c, i, Released, W.NoReason(), care);
    var e := Terminate(c, i, row.val, Released, W.NoReason(), true);
    GoodTable(e, care);
    var attempt := row.val.binding.attempt;
    var a := Get(e.store.attempts, attempt).value.(released := true, terminalTick := c.store.tick);
    SameIds(c.store.grants, e.store.grants, id);
    CloseAttempt(e, i, a, care);
    ReleaseIs(c, r, id, a, e);
    StillTarget(c, e, Release(c, r).0, r, attempt, a);
  }

  lemma ReleaseIs(c: Core, r: ReleaseRequest, id: Id, a: Attempt, e: Core)
    requires ReleaseActs(c, r) && ReleaseTarget(c, r) == Some(id)
    requires var i := LowerBound(c.store.grants, id);
             var row := c.store.grants[i];
             && e == Terminate(c, i, row.val, Released, W.NoReason(), true)
             && Has(e.store.attempts, row.val.binding.attempt)
             && a == Get(e.store.attempts, row.val.binding.attempt).value.(released := true, terminalTick := c.store.tick)
             && Room(e.store.attempts, row.val.binding.attempt, MAX_ATTEMPTS) == Ok
    ensures var attempt := c.store.grants[LowerBound(c.store.grants, id)].val.binding.attempt;
            Release(c, r).0.store == e.store.(attempts := Put(e.store.attempts, attempt, a))
  {
    hide ReleaseTarget, Terminate;
  }

  /** Ending a grant and closing its attempt leaves every request pointing where it did. */
  lemma StillTarget(c: Core, e: Core, d: Core, r: ReleaseRequest, attempt: Id, a: Attempt)
    requires Sorted(c.store.attempts) && Has(c.store.attempts, attempt)
    requires a.grant == Get(c.store.attempts, attempt).value.grant
    requires |e.store.grants| == |c.store.grants|
    requires forall i :: 0 <= i < |c.store.grants| ==> e.store.grants[i].id == c.store.grants[i].id
    requires d.store.grants == e.store.grants && d.store.attempts == Put(c.store.attempts, attempt, a)
    ensures ReleaseTarget(d, r) == ReleaseTarget(c, r)
  {
    hide Put;
    SameIds(c.store.grants, e.store.grants, r.grant);
    GetPut(c.store.attempts, attempt, a, r.attempt);
    if Has(c.store.attempts, r.attempt) {
      SameIds(c.store.grants, e.store.grants, Get(c.store.attempts, r.attempt).value.grant);
    }
  }

  lemma ReleaseOver(d: Core, r: ReleaseRequest, id: Id)
    requires ReleaseTarget(d, r) == Some(id) && Has(d.store.grants, id)
    requires r.id != [] && (r.grant != [] || r.attempt != [])
    requires IsTerminal(Get(d.store.grants, id).value.state)
    requires r.lease == [] || Get(d.store.grants, id).value.binding.lease == r.lease || r.administrative
    ensures Release(d, r).0 == d && Release(d, r).1.outcome == Granted && Release(d, r).1.replay
  {}
}
