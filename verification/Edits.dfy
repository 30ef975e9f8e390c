/** What every specification and contract change leaves in the tables and when it is refused, said by lookups alone
    (src/model.cpp, src/contract.cpp). */
module Edits {
  import opened Tables
  import opened Model
  import opened Text
  import opened Cluster

  /** Under this id there is exactly this, or nothing; under every other id what there was. */
  ghost predicate Changed<T>(t: Table<T>, u: Table<T>, id: Id, v: Option<T>)
  {
    Sorted(u) && forall k :: Get(u, k) == if k == id then v else Get(t, k)
  }

  lemma PutChanges<T>(t: Table<T>, id: Id, v: T)
    requires Sorted(t)
    ensures Changed(t, Put(t, id, v), id, Some(v))
  {
    hide Put, Sorted, Get;
    PutSorted(t, id, v);
    forall k ensures Get(Put(t, id, v), k) == if k == id then Some(v) else Get(t, k) { GetPut(t, id, v, k); }
  }

  lemma DropChanges<T>(t: Table<T>, id: Id)
    requires Sorted(t)
    ensures Changed(t, Drop(t, id), id, None)
  {
    hide Drop, Sorted, Get;
    DropSorted(t, id);
    forall k ensures Get(Drop(t, id), k) == if k == id then None else Get(t, k) { GetDrop(t, id, k); }
  }

  // ----- accepted specification changes -----

  /** Every id has its place. */
  ghost predicate SpecSorted(s: Spec)
  {
    Sorted(s.members) && Sorted(s.paths) && Sorted(s.exclusions) && Sorted(s.obligations)
  }

  /** The four tables after a change, by id: the named value is what was given, differs from the old one in the named
      fields only, or is gone, and nothing else moved. */
  ghost predicate Edited(s: Spec, t: Spec, tick: nat, op: SpecOp)
  {
    match op
    case UpsertMember(id, m) => Changed(s.members, t.members, id, Some(m)) && SameBut(s, t, op)
    case RemoveMember(id) =>
      var was := Get(s.members, id);
      was.Some? && SameBut(s, t, op)
      && Changed(s.members, t.members, id, Some(was.value.(lifecycle := Removed, endpoints := [], resources := [], services := [])))
    case SetLifecycle(id, l) =>
      var was := Get(s.members, id);
      was.Some? && SameBut(s, t, op)
      && Changed(s.members, t.members, id, Some(was.value.(lifecycle := l, lastObserved := tick)))
    case UpsertPath(id, p) => Changed(s.paths, t.paths, id, Some(p)) && SameBut(s, t, op)
    case RemovePath(id) => Changed(s.paths, t.paths, id, None) && SameBut(s, t, op)
    case SetPathState(id, st) =>
      var was := Get(s.paths, id);
      was.Some? && Changed(s.paths, t.paths, id, Some(was.value.(state := st))) && SameBut(s, t, op)
    case UpsertExclusion(id, e) => Changed(s.exclusions, t.exclusions, id, Some(e)) && SameBut(s, t, op)
    case RemoveExclusion(id) => Changed(s.exclusions, t.exclusions, id, None) && SameBut(s, t, op)
    case UpsertObligation(id, o) => Changed(s.obligations, t.obligations, id, Some(o)) && SameBut(s, t, op)
    case RemoveObligation(id) => Changed(s.obligations, t.obligations, id, None) && SameBut(s, t, op)
  }

  /** Nothing but the table this operation is about, and the generation, is different. */
  predicate SameBut(s: Spec, t: Spec, op: SpecOp)
  {
    && t.id == s.id && t.epoch == s.epoch && t.policy == s.policy && t.incarnation == s.incarnation
    && (op.UpsertMember? || op.RemoveMember? || op.SetLifecycle? || t.members == s.members)
    && (op.UpsertPath? || op.RemovePath? || op.SetPathState? || t.paths == s.paths)
    && (op.UpsertExclusion? || op.RemoveExclusion? || t.exclusions == s.exclusions)
    && (op.UpsertObligation? || op.RemoveObligation? || t.obligations == s.obligations)
  }

  // ----- refused specification changes -----

  predicate TooMany(m: Member) { |m.endpoints| > 256 || |m.services| > 256 || |m.resources| > 256 }

  predicate NamelessEndpoint(m: Member) { exists e :: e in m.endpoints && e.id == [] }

  predicate GoodMember(id: Id, m: Member)
  {
    id != [] && !TooMany(m) && IsUtf8(m.note) && |m.note| <= 512 && !NamelessEndpoint(m)
  }

  /** A second publication of one identity at one generation with another digest than the one it was known by. */
  predicate Republished(x: Member, m: Member)
  {
    m.generation == x.generation && m.digest != x.digest && !IsZero(x.digest)
  }

  predicate GoodPath(id: Id, p: Path)
  {
    id != [] && p.source != [] && p.destination != [] && |p.resources| <= 16
  }

  predicate GoodExclusion(id: Id, e: Exclusion)
  {
    id != [] && |e.members| <= 512 && IsUtf8(e.reason) && |e.reason| <= 512 && (e.to == 0 || e.from <= e.to)
  }

  predicate GoodObligation(id: Id, o: Obligation) { id != [] && o.service != [] && o.level <= 16 }

  /** A value found, or room for one more. */
  predicate Fitting<T>(t: Table<T>, id: Id, max: nat) { Get(t, id).Some? || |t| < max }

  /** Exactly what makes a change acceptable. */
  predicate Acceptable(s: Spec, op: SpecOp)
  {
    match op
    case UpsertMember(id, m) =>
      var was := Get(s.members, id);
      GoodMember(id, m) && Fitting(s.members, id, 4096)
      && (was.Some? ==> m.generation >= was.value.generation && !Republished(was.value, m)
                        && (was.value.lifecycle == Removed ==> m.lifecycle == Removed))
    case RemoveMember(id) => Get(s.members, id).Some?
    case SetLifecycle(id, l) =>
      var was := Get(s.members, id);
      was.Some? && (was.value.lifecycle == Removed ==> l == Removed)
    case UpsertPath(id, p) =>
      var was := Get(s.paths, id);
      GoodPath(id, p) && Fitting(s.paths, id, 16384) && (was.Some? ==> p.generation >= was.value.generation)
    case RemovePath(id) => Get(s.paths, id).Some?
    case SetPathState(id, _) => Get(s.paths, id).Some?
    case UpsertExclusion(id, e) => GoodExclusion(id, e) && Fitting(s.exclusions, id, 1024)
    case RemoveExclusion(id) => Get(s.exclusions, id).Some?
    case UpsertObligation(id, o) => GoodObligation(id, o) && Fitting(s.obligations, id, 1024)
    case RemoveObligation(id) => Get(s.obligations, id).Some?
  }

  /** The code an unacceptable change is refused with, each with its exact condition. */
  predicate RefusedWith(s: Spec, op: SpecOp, st: StatusCode)
  {
    match op
    case UpsertMember(id, m) =>
      var was := Get(s.members, id);
      && (st == LimitExceeded <==> id != [] && (TooMany(m) || (IsUtf8(m.note) && |m.note| > 512)))
      && (st == InvalidArgument
          <==> id == [] || (!TooMany(m) && (!IsUtf8(m.note) || (|m.note| <= 512 && NamelessEndpoint(m)))))
      && (st == CapacityExhaustedStatus <==> GoodMember(id, m) && was.None? && |s.members| >= 4096)
      && (st == DuplicateIdentity <==> GoodMember(id, m) && was.Some? && Republished(was.value, m))
      && (st == StateMismatch
          <==> GoodMember(id, m) && was.Some?
               && (m.generation < was.value.generation
                   || (was.value.lifecycle == Removed && m.lifecycle != Removed && !Republished(was.value, m))))
    case SetLifecycle(id, l) => st == if Get(s.members, id).None? then NotFound else StateMismatch
    case UpsertPath(id, p) =>
      && (st == InvalidArgument <==> id == [] || p.source == [] || p.destination == [])
      && (st == LimitExceeded <==> id != [] && p.source != [] && p.destination != [] && |p.resources| > 16)
      && (st == CapacityExhaustedStatus <==> GoodPath(id, p) && Get(s.paths, id).None? && |s.paths| >= 16384)
      && (st == StateMismatch <==> GoodPath(id, p) && Get(s.paths, id).Some? && p.generation < Get(s.paths, id).value.generation)
    case UpsertExclusion(id, e) =>
      && (st == LimitExceeded <==> id != [] && |e.members| > 512)
      && (st == CapacityExhaustedStatus <==> GoodExclusion(id, e))
      && (st == InvalidArgument <==> !GoodExclusion(id, e) && (id == [] || |e.members| <= 512))
    case UpsertObligation(id, o) => st == if GoodObligation(id, o) then CapacityExhaustedStatus else InvalidArgument
    case _ => st == NotFound
  }

  lemma AcceptableIs(s: Spec, op: SpecOp)
    ensures OpStatus(s, op) == Ok <==> Acceptable(s, op)
    ensures OpStatus(s, op) != Ok ==> RefusedWith(s, op, OpStatus(s, op))
  {
    hide LowerBound, IsUtf8, IsZero;
    if op.UpsertMember? {
      assert AnyEmpty(op.member.endpoints) == NamelessEndpoint(op.member);
    }
  }

  lemma EditIs(s: Spec, tick: nat, op: SpecOp)
    requires SpecSorted(s) && OpStatus(s, op) == Ok
    ensures Edited(s, Edit(s, tick, op), tick, op) && Edit(s, tick, op).generation == s.generation
  {
    hide Put, Drop, Changed, Sorted, LowerBound;
    match op
    case UpsertMember(id, m) => PutChanges(s.members, id, m);
    case RemoveMember(id) =>
      PutChanges(s.members, id, Get(s.members, id).value.(lifecycle := Removed, endpoints := [], resources := [], services := []));
    case SetLifecycle(id, l) => PutChanges(s.members, id, Get(s.members, id).value.(lifecycle := l, lastObserved := tick));
    case UpsertPath(id, p) => PutChanges(s.paths, id, p);
    case RemovePath(id) => DropChanges(s.paths, id);
    case SetPathState(id, st) => PutChanges(s.paths, id, Get(s.paths, id).value.(state := st));
    case UpsertExclusion(id, e) => PutChanges(s.exclusions, id, e);
    case RemoveExclusion(id) => DropChanges(s.exclusions, id);
    case UpsertObligation(id, o) => PutChanges(s.obligations, id, o);
    case RemoveObligation(id) => DropChanges(s.obligations, id);
  }

  /** A change is applied exactly when it is acceptable, and then leaves by lookups what it says and the generation one
      further; at a saturated generation it is applied as well and still reported as refused. Otherwise nothing
      changes and the code says why. */
  ghost predicate SpecChangeIs(s: Spec, tick: nat, op: SpecOp, t: Spec, st: StatusCode)
  {
    if !Acceptable(s, op) then t == s && st != Ok && RefusedWith(s, op, st)
    else Edited(s, t, tick, op)
         && (if s.generation == U64_MAX then t.generation == s.generation && st == CapacityExhaustedStatus
             else t.generation == s.generation + 1 && st == Ok)
  }

  lemma SpecChangeExact(s: Spec, tick: nat, op: SpecOp)
    requires SpecSorted(s)
    ensures SpecChangeIs(s, tick, op, ApplySpec(s, tick, op).0, ApplySpec(s, tick, op).1)
  {
    hide OpStatus, Edit, Acceptable, RefusedWith, Changed, SpecSorted, Get;
    AcceptableIs(s, op);
    if OpStatus(s, op) == Ok {
      EditIs(s, tick, op);
      SameEdit(s, Edit(s, tick, op), s.generation + 1, tick, op);
    }
  }

  lemma SameEdit(s: Spec, t: Spec, generation: nat, tick: nat, op: SpecOp)
    requires Edited(s, t, tick, op)
    ensures Edited(s, t.(generation := generation), tick, op)
  {
    hide Changed, Get;
  }

  // ----- contracts -----

  /** What can be said against a contract before its amounts are looked at. */
  predicate Named(id: Id, k: Contract)
  {
    id != [] && k.sourceService != [] && k.destinationService != [] && (k.maxUnits == 0 || k.minUnits <= k.maxUnits)
  }

  predicate AmountsGood(k: Contract) { k.minUnits <= 0x100_0000_0000 && k.maxUnits <= 0x100_0000_0000 }

  predicate CountsGood(k: Contract) { k.minDomains <= 4096 && |k.capabilities| <= 8 }

  predicate CapabilitiesNamed(k: Contract) { forall name :: name in k.capabilities ==> IsIdentifier(name, 128) }

  predicate GoodContract(id: Id, k: Contract)
  {
    Named(id, k) && AmountsGood(k) && k.level <= 16 && CountsGood(k) && CapabilitiesNamed(k)
  }

  predicate AcceptableContract(t: Table<Contract>, op: ContractOp)
  {
    match op
    case UpsertContract(id, k) =>
      var was := Get(t, id);
      GoodContract(id, k) && k.enabled && Fitting(t, id, 4096) && (was.Some? ==> k.generation >= was.value.generation)
    case RemoveContract(id) => Get(t, id).Some?
  }

  predicate ContractRefusedWith(t: Table<Contract>, op: ContractOp, st: StatusCode)
  {
    match op
    case UpsertContract(id, k) =>
      var was := Get(t, id);
      && (st == InvalidArgument
          <==> !Named(id, k) || (AmountsGood(k) && (k.level > 16 || (CountsGood(k) && !CapabilitiesNamed(k)))))
      && (st == LimitExceeded <==> Named(id, k) && (!AmountsGood(k) || (k.level <= 16 && !CountsGood(k))))
      && (st == StateMismatch
          <==> GoodContract(id, k) && (!k.enabled || (was.Some? && k.generation < was.value.generation)))
      && (st == CapacityExhaustedStatus <==> GoodContract(id, k) && k.enabled && was.None? && |t| >= 4096)
    case RemoveContract(_) => st == NotFound
  }

  lemma ContractStatusIs(id: Id, k: Contract)
    ensures ContractStatus(id, k) == Ok <==> GoodContract(id, k) && k.enabled
    ensures ContractStatus(id, k) == InvalidArgument
            <==> !Named(id, k) || (AmountsGood(k) && (k.level > 16 || (CountsGood(k) && !CapabilitiesNamed(k))))
    ensures ContractStatus(id, k) == LimitExceeded <==> Named(id, k) && (!AmountsGood(k) || (k.level <= 16 && !CountsGood(k)))
    ensures ContractStatus(id, k) == StateMismatch <==> GoodContract(id, k) && !k.enabled
  {
    hide IsIdentifier;
    assert CapabilitiesNamed(k) == !(exists i :: 0 <= i < |k.capabilities| && !IsIdentifier(k.capabilities[i], MAX_IDENTIFIER));
  }

  /** The same of contracts, which have no generation to move. */
  ghost predicate ContractChangeIs(t: Table<Contract>, op: ContractOp, u: Table<Contract>, st: StatusCode)
  {
    if !AcceptableContract(t, op) then u == t && st != Ok && ContractRefusedWith(t, op, st)
    else st == Ok && Changed(t, u, op.id, if op.UpsertContract? then Some(op.contract) else None)
  }

  lemma ContractChangeExact(t: Table<Contract>, op: ContractOp)
    requires Sorted(t)
    ensures ContractChangeIs(t, op, ApplyContract(t, op).0, ApplyContract(t, op).1)
  {
    hide Put, Drop, Changed, Sorted, LowerBound, ContractStatus, GoodContract, Named, AmountsGood, CountsGood, CapabilitiesNamed;
    match op
    case UpsertContract(id, k) =>
      ContractStatusIs(id, k);
      GoodParts(id, k);
      PutChanges(t, id, k);
    case RemoveContract(id) => DropChanges(t, id);
  }

  lemma GoodParts(id: Id, k: Contract)
    ensures GoodContract(id, k) <==> Named(id, k) && AmountsGood(k) && k.level <= 16 && CountsGood(k) && CapabilitiesNamed(k)
  {}
}
