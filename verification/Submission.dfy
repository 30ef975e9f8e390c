/** Submitting: a new grant or a renewed one keeps the invariant, and takes no more than there is. */
module Submission {
  import opened Tables
  import opened Model
  import opened Cluster
  import opened Accounting
  import opened Eligibility
  import opened Engine
  import opened Replay
  import opened Safety
  import opened Durability
  import opened Invariant
  import opened Recovery
  import Decimal

  // ----- capacity -----

  /** Nobody else holds an exclusive path an authorised request is bound to. */
  lemma PassIsExclusive(v: View, r: Request, k: Contract)
    requires Evaluate(v, r, k).Pass? && v.options.enforceCapacity
    ensures var p := Evaluate(v, r, k).path;
            p.Some? && p.value.val.exclusive ==>
              !OtherHolder(v.grants, p.value.id, r.attempt, if r.renewal then Some(r.renewalOf) else None)
  {
    var s := Get(v.spec.members, r.source).value;
    assert CapacityStage(v, r, k, s, ChosenPath(v, r)).SomeUnits?;
    assert PathStage(v, r, k, ChosenPath(v, r), Want(r, k)).SomeUnits?;
  }

  /** With the grant `id` set aside, adding what was authorised fits on the path. */
  lemma FitsOnPath(s: Store, r: Request, k: Contract, o: Options, id: Id, g: Grant)
    requires Sound(s, true) && o.enforceCapacity && UnitsBounded(s.grants)
    requires Evaluate(View(o, s.spec, s.tick, s.grants), r, k).Pass?
    requires var e := Evaluate(View(o, s.spec, s.tick, s.grants), r, k);
             e.path.Some? && g.binding.path == e.path.value.id && g.units == e.units
             && Get(s.spec.paths, e.path.value.id) == Some(e.path.value.val)
    requires if r.renewal then id == r.renewalOf && id != [] && Has(s.grants, id)
                               && HoldsCapacity(Get(s.grants, id).value.state) && g.binding == Get(s.grants, id).value.binding
             else !Has(s.grants, id) && (forall i :: 0 <= i < |s.grants| ==> s.grants[i].val.binding.attempt != r.attempt)
    ensures FitPath(Put(s.grants, id, g), g.binding.path, Get(s.spec.paths, g.binding.path).value)
  {
    hide Evaluate;
    var v := View(o, s.spec, s.tick, s.grants);
    var p := Evaluate(v, r, k).path.value;
    var key := OnPath(p.id);
    AuthorisedWithinBounds(v, r, k);
    assert FitPath(s.grants, p.id, p.val) by {
      var i := LowerBound(s.spec.paths, p.id);
      assert FitPath(s.grants, s.spec.paths[i].id, s.spec.paths[i].val);
    }
    NeverSaturates(s.grants, key, Skip(r));
    TotalPut(s.grants, id, g, key);
    TotalPut(s.grants, id, g, Slot(p.id));
    HeldSkip(s.grants, key, id);
    assert g.units <= Free(p.val.capacity, Held(s.grants, key, Skip(r)));
    if p.val.exclusive && !r.renewal {
      PassIsExclusive(v, r, k);
      NoHolderZero(s.grants, p.id, r.attempt, None);
    }
  }

  lemma ResourceOfSource(v: View, r: Request, k: Contract)
    requires Evaluate(v, r, k).Pass? && r.resource != []
    ensures Has(v.spec.members, r.source)
            && Evaluate(v, r, k).resource == FindResource(Get(v.spec.members, r.source).value.resources, r.resource)
  {
    hide CheckEligible, CapacityStage, CheckObligations, CheckRenewal;
  }

  lemma FitsOnResource(s: Store, r: Request, k: Contract, o: Options, id: Id, g: Grant, i: nat)
    requires Sound(s, true) && o.enforceCapacity && UnitsBounded(s.grants) && i < |s.spec.members|
    requires Evaluate(View(o, s.spec, s.tick, s.grants), r, k).Pass?
    requires g.units == Evaluate(View(o, s.spec, s.tick, s.grants), r, k).units
    requires g.binding.resource == r.resource
    requires if r.renewal then id == r.renewalOf && id != [] && Has(s.grants, id)
                               && HoldsCapacity(Get(s.grants, id).value.state) && g.binding == Get(s.grants, id).value.binding
             else !Has(s.grants, id)
    ensures FitResource(Put(s.grants, id, g), s.spec.members[i].val, r.resource)
  {
    hide Evaluate;
    var v := View(o, s.spec, s.tick, s.grants);
    var m := s.spec.members[i].val;
    if r.resource != [] && Owns(m, r.resource) {
      AuthorisedWithinBounds(v, r, k);
      ResourceOfSource(v, r, k);
      var j := LowerBound(s.spec.members, r.source);
      assert Owns(s.spec.members[j].val, r.resource);
      assert i == j;
      var x := FindResource(m.resources, r.resource).value;
      var key := OnResource(r.resource);
      assert FitResource(s.grants, m, r.resource);
      NeverSaturates(s.grants, key, Skip(r));
      TotalPut(s.grants, id, g, key);
      HeldSkip(s.grants, key, id);
      assert g.units <= Free(x.total, Held(s.grants, key, Skip(r)));
    }
  }

  lemma Bounded(s: Store, fit: bool)
    requires Sound(s, fit)
    ensures UnitsBounded(s.grants)
  {
    forall i | 0 <= i < |s.grants| ensures s.grants[i].val.units <= MAX_UNITS { assert GrantShape(s.grants[i].val); }
  }

  /** No request is authorised for more than the largest amount the controller deals in. */
  lemma UnitsOk(c: Core, r: Request, fit: bool)
    requires Sound(c.store, fit) && Has(c.store.contracts, r.contract) && r.units <= MAX_UNITS
    requires Evaluate(ViewOf(c), r, Get(c.store.contracts, r.contract).value).Pass?
    ensures Evaluate(ViewOf(c), r, Get(c.store.contracts, r.contract).value).units <= MAX_UNITS
  {
    var i := LowerBound(c.store.contracts, r.contract);
    assert ContractStatus(c.store.contracts[i].id, c.store.contracts[i].val) == Ok;
    AuthorisedWithinBounds(ViewOf(c), r, c.store.contracts[i].val);
  }

  // ----- a new grant -----

  lemma LoggedPut(c: Core, kind: GrantRecordKind, id: Id, g: Grant, state: GrantState, live: Grant, fit: bool)
    requires Linked(c, fit) && id != [] && GrantShape(live) && Room(c.store.grants, id, MAX_GRANTS) == Ok
    requires forall i :: 0 <= i < |c.store.grants| && c.store.grants[i].id != id
                         ==> c.store.grants[i].val.binding.attempt != live.binding.attempt
    requires Has(c.store.grants, id) ==> live.binding.attempt == Get(c.store.grants, id).value.binding.attempt
                                         && !IsTerminal(Get(c.store.grants, id).value.state)
    requires Essence(Adopted(g, state)) == Essence(live) && Tag(Adopted(g, state))
    requires HoldsCapacity(state) ==> kind == CommittedRecord
    requires IsLive(live.state) ==> IsLive(state)
    requires fit ==> Fits(Put(c.store.grants, id, live), c.store.spec)
    ensures Linked(Append(c, GrantRecord(kind, id, g, state)).(store := c.store.(grants := Put(c.store.grants, id, live))), fit)
  {
    hide Linked, Fits, Abs, Essence, Tag, GrantShape, Effect, LowerBound;
    LinkedSound(c, fit);
    SoundPut(c.store, id, live, fit);
    var b := GrantRecord(kind, id, g, state);
    PutEffect(c.store, b, live);
    PutFound(c.store.grants, id, live);
    Logged(c, b, c.store.(grants := Put(c.store.grants, id, live)), fit);
  }

  lemma PutEffect(s: Store, b: Body, live: Grant)
    requires b.GrantRecord? && Room(s.grants, b.id, MAX_GRANTS) == Ok
    requires Essence(Adopted(b.grant, b.state)) == Essence(live)
    ensures var e := Effect(s, b, s.tick, s.tick);
            e.Success? && Abs(e.value) == Abs(s.(grants := Put(s.grants, b.id, live)))
  {
    EssencesPut(s.grants, b.id, live);
    EssencesPut(s.grants, b.id, Adopted(b.grant, b.state));
  }

  predicate DraftShape(g: Grant)
  {
    GrantShape(g) && g.state == Prepared && g.commit == CommitPrepared && !g.reserved
  }

  /** The core after the grant is on the log and in the table, before its attempt record. */
  function Minted(c: Core, id: Id, draft: Grant): Core
  {
    var c1 := Append(c, GrantRecord(PreparedRecord, id, draft, Prepared));
    var g := draft.(prepareSeq := NextSequence(c.log), state := Committed, commit := CommitDone);
    var c2 := Append(c1, GrantRecord(CommittedRecord, id, g, Committed));
    c2.(store := c2.store.(grants := Put(c2.store.grants, id,
                                         g.(commitSeq := NextSequence(c1.log), reserved := true))))
  }

  predicate Fresh(c: Core, id: Id, attempt: Id)
  {
    id != [] && attempt != [] && !Has(c.store.grants, id) && |c.store.grants| < MAX_GRANTS
    && forall i :: 0 <= i < |c.store.grants| ==> c.store.grants[i].val.binding.attempt != attempt
  }

  /** The core after the prepare record alone, with the draft in the table. */
  function Drafted(c: Core, id: Id, draft: Grant): Core
  {
    Append(c, GrantRecord(PreparedRecord, id, draft, Prepared)).(store := c.store.(grants := Put(c.store.grants, id, draft)))
  }

  /** The draft as its commit record has it, at this position. */
  function CommitOf(draft: Grant, position: nat): Grant
  {
    draft.(prepareSeq := position, state := Committed, commit := CommitDone)
  }

  /** The prepare record alone holds nothing. */
  lemma PrepareLinked(c: Core, id: Id, draft: Grant, fit: bool)
    requires Linked(c, fit) && Fresh(c, id, draft.binding.attempt) && DraftShape(draft)
    ensures Linked(Drafted(c, id, draft), fit)
  {
    hide Linked, Fits, Put, Has, GrantShape, Essence, Tag, NextSequence;
    if fit {
      LinkedFits(c);
      DraftHoldsNothing(draft);
      FitsShrink(c.store.grants, c.store.spec, id, draft);
    }
    DraftAlike(draft, 0, 0);
    LoggedPut(c, PreparedRecord, id, draft, Prepared, draft, fit);
  }

  lemma DraftHoldsNothing(draft: Grant)
    requires DraftShape(draft)
    ensures GrantShape(draft) && !HoldsCapacity(draft.state)
  {}

  /** A draft and the grant committed from it are, but for positions, what their records say. */
  lemma DraftAlike(draft: Grant, position: nat, next: nat)
    requires DraftShape(draft)
    ensures Essence(Adopted(draft, Prepared)) == Essence(draft) && Tag(Adopted(draft, Prepared))
    ensures var g := CommitOf(draft, position);
            var live := g.(commitSeq := next, reserved := true);
            && Essence(Adopted(g, Committed)) == Essence(live) && Tag(Adopted(g, Committed)) && GrantShape(live)
  {}

  /** The commit record takes the draft's place. */
  lemma CommitLinked(c: Core, id: Id, draft: Grant, live: Grant, fit: bool)
    requires Linked(Drafted(c, id, draft), fit) && Fresh(c, id, draft.binding.attempt) && DraftShape(draft)
    requires GrantsWell(c.store.grants)
    requires live == CommitOf(draft, NextSequence(c.log)).(
                       commitSeq := NextSequence(Drafted(c, id, draft).log), reserved := true)
    requires fit ==> Fits(Put(c.store.grants, id, live), c.store.spec)
    ensures var d, g := Drafted(c, id, draft), CommitOf(draft, NextSequence(c.log));
            Linked(Append(d, GrantRecord(CommittedRecord, id, g, Committed)).(
                     store := c.store.(grants := Put(c.store.grants, id, live))), fit)
  {
    hide Linked, Fits, Put, Has, GrantShape, Essence, Tag, NextSequence, Append;
    var d, g := Drafted(c, id, draft), CommitOf(draft, NextSequence(c.log));
    AppendRest(c, GrantRecord(PreparedRecord, id, draft, Prepared));
    PutPut(c.store.grants, id, draft, live);
    GetPut(c.store.grants, id, draft, id);
    PutFound(c.store.grants, id, draft);
    DraftRoom(c, id, draft);
    OthersDiffer(c, id, draft);
    DraftAlike(draft, NextSequence(c.log), NextSequence(d.log));
    LoggedPut(d, CommittedRecord, id, g, Committed, live, fit);
  }

  lemma AppendRest(c: Core, b: Body)
    ensures Append(c, b).store == c.store
  {}

  lemma DraftRoom(c: Core, id: Id, draft: Grant)
    requires Fresh(c, id, draft.binding.attempt) && Has(Put(c.store.grants, id, draft), id)
    ensures Room(Put(c.store.grants, id, draft), id, MAX_GRANTS) == Ok
  {}

  /** Prepare and commit, one record each. */
  lemma MintLinked(c: Core, id: Id, draft: Grant, fit: bool)
    requires Linked(c, fit) && Fresh(c, id, draft.binding.attempt) && DraftShape(draft)
    requires fit ==> Fits(Minted(c, id, draft).store.grants, c.store.spec)
    ensures Linked(Minted(c, id, draft), fit)
  {
    hide Linked, Fits, Put, Has, DraftShape, Fresh, NextSequence, GrantsWell;
    LinkedSorted(c, fit);
    PrepareLinked(c, id, draft, fit);
    var d := Drafted(c, id, draft);
    var live := CommitOf(draft, NextSequence(c.log)).(commitSeq := NextSequence(d.log), reserved := true);
    CommitLinked(c, id, draft, live, fit);
  }

  lemma LinkedFits(c: Core)
    requires Linked(c, true)
    ensures Fits(c.store.grants, c.store.spec)
  {}

  lemma LinkedSorted(c: Core, fit: bool)
    requires Linked(c, fit)
    ensures Sorted(c.store.grants) && GrantsWell(c.store.grants)
  {}

  lemma OthersDiffer(c: Core, id: Id, draft: Grant)
    requires Sorted(c.store.grants) && Fresh(c, id, draft.binding.attempt)
    ensures forall i :: 0 <= i < |Put(c.store.grants, id, draft)| && Put(c.store.grants, id, draft)[i].id != id
                        ==> Put(c.store.grants, id, draft)[i].val.binding.attempt != draft.binding.attempt
  {
    forall i | 0 <= i < |Put(c.store.grants, id, draft)| && Put(c.store.grants, id, draft)[i].id != id
      ensures Put(c.store.grants, id, draft)[i].val.binding.attempt != draft.binding.attempt
    {
      RowsOfPut(c.store.grants, id, draft, i);
    }
  }

  /** Minted names can be read back. */
  lemma NamesNumber(n: nat)
    requires n <= U64_MAX
    ensures Decimal.Suffix(GrantName(n)) == n && Decimal.Suffix(LeaseName(n)) == n && GrantName(n) != []
  {
    Decimal.SuffixOfPrinted("g-", n);
    Decimal.SuffixOfPrinted("l-", n);
    assert |GrantName(n)| >= |"g-"|;
  }

  /** A minted name carries a number no name in the table has. */
  lemma FreshName(c: Core, id: Id)
    requires AllBase(c) && Decimal.Suffix(id) > c.grantSerial
    ensures !Has(c.store.grants, id)
  {
    var i := LowerBound(c.store.grants, id);
    if i < |c.store.grants| {
      assert Base(c, c.store.grants[i]);
    }
  }

  /** An attempt id not in the attempt table is in no grant. */
  lemma UnusedAttempt(c: Core, attempt: Id)
    requires AllBase(c) && !Has(c.store.attempts, attempt)
    ensures forall i :: 0 <= i < |c.store.grants| ==> c.store.grants[i].val.binding.attempt != attempt
  {
    forall i | 0 <= i < |c.store.grants| ensures c.store.grants[i].val.binding.attempt != attempt {
      assert Base(c, c.store.grants[i]);
    }
  }

  /** The rest of `commit_grant`: the attempt record. */
  lemma MintGood(c: Core, id: Id, draft: Grant, a: Attempt, care: Care)
    requires Good(c, care) && Fresh(c, id, draft.binding.attempt) && DraftShape(draft) && a.grant == id
    requires !Has(c.store.attempts, draft.binding.attempt) && !a.released && !a.cancelled
    requires Decimal.Suffix(id) <= c.grantSerial && Decimal.Suffix(draft.binding.lease) <= c.leaseSerial
    requires Current(c.store.spec, draft) && (care.Loose? || StandsNow(c.store.spec, draft))
    requires care.Roomy? ==> Fits(Minted(c, id, draft).store.grants, c.store.spec)
    ensures var m := Minted(c, id, draft);
            Room(m.store.attempts, draft.binding.attempt, MAX_ATTEMPTS) == Ok
            && Good(PutAttempt(Append(m, AttemptTerminal(draft.binding.attempt, a)), draft.binding.attempt, a), care)
  {
    hide Linked, Minted, StandsNow, Fits, Put, LowerBound, Current, AllBase, UprightTo, Append, NextSequence, Fresh, DraftShape,
         Linked1, GrantsWell;
    var m := Minted(c, id, draft);
    var attempt := draft.binding.attempt;
    MintLinked(c, id, draft, care.Roomy?);
    LinkedSorted(c, care.Roomy?);
    SortedAttempts(c, care.Roomy?);
    NewRow(c, id, draft);
    NewLinked(c, m, id, a);
    LoggedAttempt(m, attempt, a, care.Roomy?);
    NewRows(c, m, id, draft, a, care);
    AppendKeeps(m, AttemptTerminal(attempt, a));
    RowsAlike(m.(store := m.store.(attempts := Put(c.store.attempts, attempt, a))),
              PutAttempt(Append(m, AttemptTerminal(attempt, a)), attempt, a), care);
  }

  /** The invariant of the rows does not look at the log. */
  lemma RowsAlike(c: Core, d: Core, care: Care)
    requires AllBase(c) && UprightTo(c, |c.store.grants|, care)
    requires d.store == c.store && d.grantSerial == c.grantSerial && d.leaseSerial == c.leaseSerial
    ensures AllBase(d) && UprightTo(d, |d.store.grants|, care)
  {
    forall i | 0 <= i < |d.store.grants| ensures Base(d, d.store.grants[i]) { assert Base(c, c.store.grants[i]); }
    forall i | 0 <= i < |d.store.grants| ensures Upright(d.store.spec, d.store.grants[i].val, care) {
      assert Upright(c.store.spec, c.store.grants[i].val, care);
    }
  }

  lemma NewLinked(c: Core, m: Core, id: Id, a: Attempt)
    requires Sorted(c.store.grants) && a.grant == id && !a.released && !a.cancelled
    requires LowerBound(c.store.grants, id) < |m.store.grants|
    requires var live := m.store.grants[LowerBound(c.store.grants, id)].val;
             m.store.grants == Put(c.store.grants, id, live)
    ensures Linked1(m.store.grants, Row(m.store.grants[LowerBound(c.store.grants, id)].val.binding.attempt, a))
  {
    var live := m.store.grants[LowerBound(c.store.grants, id)].val;
    GetPut(c.store.grants, id, live, id);
  }

  lemma NewRows(c: Core, m: Core, id: Id, draft: Grant, a: Attempt, care: Care)
    requires AllBase(c) && UprightTo(c, |c.store.grants|, care) && Sorted(c.store.grants) && Sorted(c.store.attempts)
    requires Fresh(c, id, draft.binding.attempt) && a.grant == id
    requires Decimal.Suffix(id) <= c.grantSerial && Decimal.Suffix(draft.binding.lease) <= c.leaseSerial
    requires Current(c.store.spec, draft) && (care.Loose? || StandsNow(c.store.spec, draft))
    requires m.grantSerial == c.grantSerial && m.leaseSerial == c.leaseSerial
    requires LowerBound(c.store.grants, id) < |m.store.grants|
    requires var live := m.store.grants[LowerBound(c.store.grants, id)].val;
             && m.store == c.store.(grants := Put(c.store.grants, id, live)) && Settled(live)
             && live.binding == draft.binding && live.units == draft.units && live.at == draft.at
    ensures var r := m.(store := m.store.(attempts := Put(c.store.attempts, draft.binding.attempt, a)));
            AllBase(r) && UprightTo(r, |r.store.grants|, care)
  {
    hide Base, Upright, Current, StandsNow, Settled, Put, LowerBound, Fresh;
    var attempt := draft.binding.attempt;
    var k := LowerBound(c.store.grants, id);
    var live := m.store.grants[k].val;
    var r := m.(store := m.store.(attempts := Put(c.store.attempts, attempt, a)));
    forall i | 0 <= i < |r.store.grants|
      ensures Base(r, r.store.grants[i]) && Upright(r.store.spec, r.store.grants[i].val, care)
    {
      RowsOfPut(c.store.grants, id, live, i);
      if i == k {
        StandsLater(c.store.spec, draft, live, care);
        NewBase(c, r, id, live, a);
      } else {
        var j :| 0 <= j < |c.store.grants| && c.store.grants[j] == r.store.grants[i] && c.store.grants[j].id != id;
        assert Base(c, c.store.grants[j]) && Upright(c.store.spec, c.store.grants[j].val, care);
        OldBase(c, r, j, attempt, a, id);
      }
    }
  }

  lemma NewBase(c: Core, r: Core, id: Id, live: Grant, a: Attempt)
    requires Sorted(c.store.attempts) && a.grant == id && Settled(live)
    requires r.store.attempts == Put(c.store.attempts, live.binding.attempt, a)
    requires r.grantSerial == c.grantSerial && r.leaseSerial == c.leaseSerial
    requires Decimal.Suffix(id) <= c.grantSerial && Decimal.Suffix(live.binding.lease) <= c.leaseSerial
    ensures Base(r, Row(id, live))
  {
    GetPut(c.store.attempts, live.binding.attempt, a, live.binding.attempt);
  }

  lemma OldBase(c: Core, r: Core, j: nat, attempt: Id, a: Attempt, id: Id)
    requires j < |c.store.grants| && Base(c, c.store.grants[j]) && Sorted(c.store.attempts)
    requires Fresh(c, id, attempt) && r.store.attempts == Put(c.store.attempts, attempt, a)
    requires r.grantSerial == c.grantSerial && r.leaseSerial == c.leaseSerial
    ensures Base(r, c.store.grants[j])
  {
    GetPut(c.store.attempts, attempt, a, c.store.grants[j].val.binding.attempt);
  }

  lemma NewRow(c: Core, id: Id, draft: Grant)
    requires Fresh(c, id, draft.binding.attempt)
    ensures var m := Minted(c, id, draft);
            var k := LowerBound(c.store.grants, id);
            var c1 := Append(c, GrantRecord(PreparedRecord, id, draft, Prepared));
            var live := draft.(prepareSeq := NextSequence(c.log), state := Committed, commit := CommitDone,
                               commitSeq := NextSequence(c1.log), reserved := true);
            && k < |m.store.grants| && m.store.grants[k] == Row(id, live)
            && m.store == c.store.(grants := Put(c.store.grants, id, live))
            && m.options == c.options && m.grantSerial == c.grantSerial && m.leaseSerial == c.leaseSerial
  {}

  lemma StandsLater(s: Spec, draft: Grant, live: Grant, care: Care)
    requires Current(s, draft) && (care.Loose? || StandsNow(s, draft))
    requires live.binding == draft.binding && live.units == draft.units && live.at == draft.at
    ensures Upright(s, live, care)
  {
    if !care.Loose? { StandsByBinding(s, draft, live); }
  }

  /** What a passing request is drafted as. */
  lemma DraftFacts(c: Core, r: Request, k: Contract, o: Outcome, lease: Id, ticks: nat, care: Care)
    requires Sound(c.store, care.Roomy?) && CareOptions(c.options, care) && r.attempt != [] && r.units <= MAX_UNITS
    requires Get(c.store.contracts, r.contract) == Some(k) && Evaluate(ViewOf(c), r, k).Pass? && Carries(o)
    ensures Has(c.store.spec.members, r.source) && Has(c.store.spec.members, r.destination)
    ensures var e := Evaluate(ViewOf(c), r, k);
            var d := Draft(c, r, k, e, o, lease, ticks);
            && DraftShape(d) && d.binding.attempt == r.attempt && d.binding.lease == lease && d.units == e.units
            && d.binding.resource == r.resource && Current(c.store.spec, d)
            && (!care.Loose? ==> StandsNow(c.store.spec, d) && e.path.Some? && d.binding.path == e.path.value.id
                                 && Get(c.store.spec.paths, e.path.value.id) == Some(e.path.value.val))
  {
    UnitsOk(c, r, care.Roomy?);
    AuthorisedWithinBounds(ViewOf(c), r, k);
    if !care.Loose? {
      PassIsCurrent(ViewOf(c), r, k);
      DraftStands(c, r, k, o, lease, ticks);
    }
  }

  lemma DraftStands(c: Core, r: Request, k: Contract, o: Outcome, lease: Id, ticks: nat)
    requires c.options.requirePath && c.options.enforceCapacity && Sorted(c.store.spec.paths)
    requires Has(c.store.spec.members, r.source) && Has(c.store.spec.members, r.destination)
    requires Evaluate(ViewOf(c), r, k).Pass?
    ensures StandsNow(c.store.spec, Draft(c, r, k, Evaluate(ViewOf(c), r, k), o, lease, ticks))
  {
    hide Evaluate;
    PassIsCurrent(ViewOf(c), r, k);
    AuthorisedWithinBounds(ViewOf(c), r, k);
  }

  /** A new grant's units fit wherever they are taken from. */
  lemma MintFits(c: Core, r: Request, k: Contract, id: Id, live: Grant)
    requires Sound(c.store, true) && c.options.enforceCapacity && Evaluate(ViewOf(c), r, k).Pass? && !r.renewal
    requires Fresh(c, id, r.attempt) && live.units == Evaluate(ViewOf(c), r, k).units
    requires var e := Evaluate(ViewOf(c), r, k);
             e.path.Some? && live.binding.path == e.path.value.id
             && Get(c.store.spec.paths, e.path.value.id) == Some(e.path.value.val)
    requires live.binding.resource == r.resource
    ensures Fits(Put(c.store.grants, id, live), c.store.spec)
  {
    hide Evaluate;
    Bounded(c.store, true);
    FitsOnPath(c.store, r, k, c.options, id, live);
    forall i | 0 <= i < |c.store.spec.members|
      ensures FitResource(Put(c.store.grants, id, live), c.store.spec.members[i].val, live.binding.resource)
    {
      FitsOnResource(c.store, r, k, c.options, id, live, i);
    }
    FitsGrow(c.store.grants, c.store.spec, id, live);
  }

  /** A renewed grant's units fit wherever they are taken from. */
  lemma RenewFits(c: Core, r: Request, k: Contract, live: Grant)
    requires Sound(c.store, true) && c.options.enforceCapacity && Evaluate(ViewOf(c), r, k).Pass? && r.renewal
    requires r.renewalOf != [] && Has(c.store.grants, r.renewalOf)
    requires var g := Get(c.store.grants, r.renewalOf).value;
             HoldsCapacity(g.state) && live.binding == g.binding && live.binding.resource == r.resource
    requires var e := Evaluate(ViewOf(c), r, k);
             live.units == e.units && e.path.Some? && live.binding.path == e.path.value.id
             && Get(c.store.spec.paths, e.path.value.id) == Some(e.path.value.val)
    ensures Fits(Put(c.store.grants, r.renewalOf, live), c.store.spec)
  {
    hide Evaluate;
    Bounded(c.store, true);
    FitsOnPath(c.store, r, k, c.options, r.renewalOf, live);
    forall i | 0 <= i < |c.store.spec.members|
      ensures FitResource(Put(c.store.grants, r.renewalOf, live), c.store.spec.members[i].val, live.binding.resource)
    {
      FitsOnResource(c.store, r, k, c.options, r.renewalOf, live, i);
    }
    FitsGrow(c.store.grants, c.store.spec, r.renewalOf, live);
  }

  lemma LinkedAlike(c: Core, d: Core, fit: bool)
    requires Linked(c, fit) && d.log == c.log && d.store == c.store
    ensures Linked(d, fit)
  {}

  lemma BumpGood(c: Core, care: Care)
    requires Good(c, care) && c.grantSerial < U64_MAX && c.leaseSerial < U64_MAX
    ensures Good(Bumped(c), care)
  {
    hide Linked, Upright, Settled;
    var d := Bumped(c);
    LinkedAlike(c, d, care.Roomy?);
    forall i | 0 <= i < |d.store.grants| ensures Base(d, d.store.grants[i]) { assert Base(c, c.store.grants[i]); }
    forall i | 0 <= i < |d.store.grants| ensures Upright(d.store.spec, d.store.grants[i].val, care) {
      assert Upright(c.store.spec, c.store.grants[i].val, care);
    }
  }

  /** Room for one more grant, and numbers left to name it. */
  predicate MayMint(c: Core)
  {
    |c.store.grants| < MAX_GRANTS && c.grantSerial < U64_MAX && c.leaseSerial < U64_MAX
  }

  /** Evaluation passed and the reductions, if any, are consented to. */
  predicate Authorised(c: Core, r: Request, k: Contract)
  {
    var e := Evaluate(ViewOf(c), r, k);
    e.Pass? && GrantOutcome(e.degradations, r, k).Some?
  }

  /** A new request keeps the invariant, whether it is refused or minted. */
  lemma AdmitGood(c: Core, r: Request, k: Contract, care: Care)
    requires Good(c, care) && Gate(c, r).None? && !r.renewal
    requires Authorised(c, r, k) ==> MayMint(c)
    requires Get(c.store.contracts, r.contract) == Some(k)
    ensures Good(Admit(c, r, k).0, care)
  {
    hide Evaluate, Good, Minted, Draft, Gate, Commit, Admit, MayMint;
    AdmitIs(c, r, k);
    if Authorised(c, r, k) {
      var o := GrantOutcome(Evaluate(ViewOf(c), r, k).degradations, r, k).value;
      CountersLeft(c);
      BumpGood(c, care);
      AdmitMints(c, Bumped(c), r, k, o, LeaseTicks(c, r), care);
    }
  }

  function Bumped(c: Core): Core
  {
    c.(grantSerial := Wrap(c.grantSerial + 1), leaseSerial := Wrap(c.leaseSerial + 1))
  }

  function LeaseTicks(c: Core, r: Request): nat { if r.lease == 0 then c.options.defaultLease else r.lease }

  lemma CountersLeft(c: Core)
    requires MayMint(c)
    ensures c.grantSerial < U64_MAX && c.leaseSerial < U64_MAX
    ensures Bumped(c) == c.(grantSerial := c.grantSerial + 1, leaseSerial := c.leaseSerial + 1)
  {}

  /** The three ways a new request ends: refused outright, refused with two numbers spent, or minted. */
  lemma AdmitIs(c: Core, r: Request, k: Contract)
    ensures Authorised(c, r, k) ==>
              Has(c.store.spec.members, r.source) && Has(c.store.spec.members, r.destination)
    ensures Admit(c, r, k).0
            == if !Authorised(c, r, k) then c
               else if LeaseTicks(c, r) > c.options.maxLease then Bumped(c)
               else Commit(Bumped(c), GrantName(Bumped(c).grantSerial),
                           Draft(Bumped(c), r, k, Evaluate(ViewOf(c), r, k),
                                 GrantOutcome(Evaluate(ViewOf(c), r, k).degradations, r, k).value,
                                 LeaseName(Bumped(c).leaseSerial), LeaseTicks(c, r)), r).0
  {
    hide Commit, Draft, CheckEligible, CapacityStage, CheckObligations, CheckRenewal;
  }

  lemma AdmitMints(c: Core, c1: Core, r: Request, k: Contract, o: Outcome, ticks: nat, care: Care)
    requires Good(c, care) && Good(c1, care) && MayMint(c) && Gate(c, r).None? && !r.renewal
    requires c1 == c.(grantSerial := c.grantSerial + 1, leaseSerial := c.leaseSerial + 1)
    requires Get(c.store.contracts, r.contract) == Some(k) && Evaluate(ViewOf(c1), r, k).Pass? && Carries(o)
    ensures Has(c1.store.spec.members, r.source) && Has(c1.store.spec.members, r.destination)
    ensures Good(Commit(c1, GrantName(c1.grantSerial),
                        Draft(c1, r, k, Evaluate(ViewOf(c1), r, k), o, LeaseName(c1.leaseSerial), ticks), r).0, care)
  {
    hide Evaluate, Minted, Draft, Linked, StandsNow, Fits;
    var id, lease := GrantName(c1.grantSerial), LeaseName(c1.leaseSerial);
    NamesNumber(c1.grantSerial);
    NamesNumber(c1.leaseSerial);
    GoodSound(c1, care);
    DraftFacts(c1, r, k, o, lease, ticks, care);
    var d := Draft(c1, r, k, Evaluate(ViewOf(c1), r, k), o, lease, ticks);
    FreshName(c, id);
    UnusedAttempt(c, r.attempt);
    NewRow(c1, id, d);
    var m := Minted(c1, id, d);
    if care.Roomy? { MintFits(c1, r, k, id, m.store.grants[LowerBound(c1.store.grants, id)].val); }
    CommitIsMint(c1, id, d, r);
    MintGood(c1, id, d, MintedAttempt(c1, id, MintedGrant(c1, d), r), care);
  }

  lemma GoodSound(c: Core, care: Care)
    requires Good(c, care)
    ensures Sound(c.store, care.Roomy?)
  {}

  function MintedGrant(c: Core, draft: Grant): Grant
  {
    draft.(prepareSeq := NextSequence(c.log), state := Committed, commit := CommitDone)
  }

  lemma CommitIsMint(c: Core, id: Id, draft: Grant, r: Request)
    requires Fresh(c, id, draft.binding.attempt)
    ensures var m := Minted(c, id, draft);
            var attempt := draft.binding.attempt;
            var a := MintedAttempt(c, id, MintedGrant(c, draft), r);
            Room(m.store.attempts, attempt, MAX_ATTEMPTS) == Ok ==>
              Commit(c, id, draft, r).0 == PutAttempt(Append(m, AttemptTerminal(attempt, a)), attempt, a)
  {}

  // ----- renewal -----

  /** A renewal asks for the path and the resource its grant already has. Capacity is checked on what
      the request names while the grant keeps what it has, so this is what makes the check mean it. */
  predicate RenewsInPlace(c: Core, r: Request)
  {
    r.renewal && Has(c.store.grants, r.renewalOf) ==>
      var b := Get(c.store.grants, r.renewalOf).value.binding;
      var p := ChosenPath(ViewOf(c), r);
      r.resource == b.resource && p.Some? && p.value.id == b.path
  }

  lemma RenewalTarget(v: View, r: Request, k: Contract)
    requires Evaluate(v, r, k).Pass? && r.renewal
    ensures Has(v.grants, r.renewalOf)
    ensures var g := Get(v.grants, r.renewalOf).value;
            g.binding.lease == r.renewalLease && g.binding.attempt == r.attempt && !IsTerminal(g.state)
  {
    assert CheckRenewal(v, r).Go?;
  }

  lemma RenewGood(c: Core, r: Request, k: Contract, care: Care)
    requires Good(c, care) && Gate(c, r).None? && r.renewal && Get(c.store.contracts, r.contract) == Some(k)
    requires care.Loose? || RenewsInPlace(c, r)
    ensures Good(Renew(c, r, k).0, care)
  {
    hide Evaluate, Good, Gate, Renewed;
    var e := Evaluate(ViewOf(c), r, k);
    if e.Pass? {
      if GrantOutcome(e.degradations, r, k).Some? {
        RenewalTarget(ViewOf(c), r, k);
        RenewsRow(c, r, k, GrantOutcome(e.degradations, r, k).value, care);
      }
    }
  }

  lemma RenewsRow(c: Core, r: Request, k: Contract, o: Outcome, care: Care)
    requires Good(c, care) && Gate(c, r).None? && r.renewal && Get(c.store.contracts, r.contract) == Some(k)
    requires care.Loose? || RenewsInPlace(c, r)
    requires Evaluate(ViewOf(c), r, k).Pass? && Carries(o) && Has(c.store.grants, r.renewalOf)
    requires !IsTerminal(Get(c.store.grants, r.renewalOf).value.state)
    ensures var i := LowerBound(c.store.grants, r.renewalOf);
            var u := Renewed(c, c.store.grants[i].val, r, Evaluate(ViewOf(c), r, k), o);
            var live := u.(commitSeq := NextSequence(c.log));
            Good(SetGrant(Append(c, GrantRecord(CommittedRecord, r.renewalOf, u, Committed)), i, live), care)
  {
    hide Evaluate, Upright, StandsNow, Fits, Linked;
    var i := LowerBound(c.store.grants, r.renewalOf);
    var g := c.store.grants[i].val;
    var u := Renewed(c, g, r, Evaluate(ViewOf(c), r, k), o);
    var live := u.(commitSeq := NextSequence(c.log));
    GoodSound(c, care);
    GoodRow(c, i, care);
    UnitsOk(c, r, care.Roomy?);
    if !care.Loose? { RenewedPath(c, r, k, g, live); }
    if care.Roomy? { RenewFits(c, r, k, live); }
    RenewedUpright(c.store.spec, g, live, care);
    RewriteCommitted(c, i, u, live, care);
  }

  /** A committed record of a grant that holds capacity, its units possibly changed. */
  lemma RewriteCommitted(c: Core, i: nat, u: Grant, live: Grant, care: Care)
    requires Good(c, care) && i < |c.store.grants| && GrantShape(live)
    requires var g := c.store.grants[i].val;
             && HoldsCapacity(g.state) && u.binding == g.binding
             && u.commit == g.commit && u.reserved == g.reserved && u.state == g.state && u.acknowledged == g.acknowledged
    requires live == u.(commitSeq := NextSequence(c.log)) && Upright(c.store.spec, live, care)
    requires care.Roomy? ==> Fits(Put(c.store.grants, c.store.grants[i].id, live), c.store.spec)
    ensures Good(SetGrant(Append(c, GrantRecord(CommittedRecord, c.store.grants[i].id, u, Committed)), i, live), care)
  {
    hide Good, Upright, Fits, Linked, Base, Put, NextSequence, GrantsWell, GrantShape, Essence, Tag, Adopted, Settled;
    var id := c.store.grants[i].id;
    GoodRow(c, i, care);
    RewriteAlike(c.store.grants[i].val, u, NextSequence(c.log));
    GoodTable(c, care);
    RowFound(c.store.grants, i);
    PutSame(c.store.grants, i, live);
    OtherAttempts(c.store.grants, i);
    LoggedPut(c, CommittedRecord, id, u, Committed, live, care.Roomy?);
    RowGood(c, i, SetGrant(Append(c, GrantRecord(CommittedRecord, id, u, Committed)), i, live), care);
  }

  /** A rewritten grant and its record say the same. */
  lemma RewriteAlike(g: Grant, u: Grant, next: nat)
    requires Settled(g) && HoldsCapacity(g.state) && GrantShape(u.(commitSeq := next))
    requires u.commit == g.commit && u.reserved == g.reserved && u.state == g.state && u.acknowledged == g.acknowledged
    ensures var live := u.(commitSeq := next);
            Essence(Adopted(u, Committed)) == Essence(live) && Tag(Adopted(u, Committed)) && Settled(live)
  {}

  lemma GoodTable(c: Core, care: Care)
    requires Good(c, care)
    ensures GrantsWell(c.store.grants) && Linked(c, care.Roomy?)
  {}

  lemma OtherAttempts(t: Table<Grant>, i: nat)
    requires GrantsWell(t) && i < |t|
    ensures forall j :: 0 <= j < |t| && t[j].id != t[i].id ==> t[j].val.binding.attempt != t[i].val.binding.attempt
  {
    forall j | 0 <= j < |t| && t[j].id != t[i].id ensures t[j].val.binding.attempt != t[i].val.binding.attempt {
      if j < i { assert t[j].val.binding.attempt != t[i].val.binding.attempt; }
    }
  }

  lemma RenewedPath(c: Core, r: Request, k: Contract, g: Grant, live: Grant)
    requires c.options.requirePath && c.options.enforceCapacity && RenewsInPlace(c, r) && r.renewal
    requires Sorted(c.store.spec.paths) && Evaluate(ViewOf(c), r, k).Pass?
    requires Get(c.store.grants, r.renewalOf) == Some(g) && live.binding == g.binding
    requires live.units == Evaluate(ViewOf(c), r, k).units
    ensures var e := Evaluate(ViewOf(c), r, k);
            && e.path.Some? && live.binding.path == e.path.value.id && live.binding.resource == r.resource
            && Get(c.store.spec.paths, e.path.value.id) == Some(e.path.value.val)
            && live.units <= e.path.value.val.capacity
  {
    hide Evaluate;
    PassIsCurrent(ViewOf(c), r, k);
    AuthorisedWithinBounds(ViewOf(c), r, k);
  }

  lemma RenewedUpright(s: Spec, g: Grant, live: Grant, care: Care)
    requires Upright(s, g, care) && live.binding == g.binding && live.state == g.state && live.at == Here(s)
    requires care.Loose? || (Has(s.paths, g.binding.path) && live.units <= Get(s.paths, g.binding.path).value.capacity)
    ensures Upright(s, live, care)
  {}
}
