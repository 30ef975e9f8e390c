/** What each record does to the state it is read back into, and which are refused, said by lookups alone
    (src/journal.cpp). */
module Rereading {
  import opened Tables
  import opened Model
  import opened Cluster
  import opened Eligibility
  import opened Engine
  import opened Replay
  import opened Edits

  /** A table in which every id has one place. */
  ghost predicate TablesSorted(s: Store)
  {
    SpecSorted(s.spec) && Sorted(s.contracts) && Sorted(s.grants) && Sorted(s.attempts)
  }

  /** Only the specification is different. */
  predicate OnlySpec(s: Store, t: Store)
  {
    t.tick == s.tick && t.contracts == s.contracts && t.grants == s.grants && t.attempts == s.attempts
  }

  /** The declarations stay as they are. */
  predicate SameDeclarations(a: Spec, b: Spec)
  {
    b.members == a.members && b.paths == a.paths && b.exclusions == a.exclusions && b.obligations == a.obligations
  }

  /** Does this record say something that cannot be so? */
  predicate Objectionable(s: Store, b: Body, code: StatusCode)
  {
    match b
    case SetController(cluster, _) =>
      if cluster == [] then code == InvalidArgument else s.spec.id !in {[], cluster} && code == StateMismatch
    case EpochBegin(_, _) => (s.spec.epoch >= U64_MAX || s.spec.generation >= U64_MAX) && code == CapacityExhaustedStatus
    case SpecChange(op) =>
      if Acceptable(s.spec, op) then s.spec.generation == U64_MAX && code == CapacityExhaustedStatus
      else code != Ok && RefusedWith(s.spec, op, code)
    case ContractChange(op) =>
      !AcceptableContract(s.contracts, op) && code != Ok && ContractRefusedWith(s.contracts, op, code)
    case GrantRecord(_, id, _, _) => !Fitting(s.grants, id, 65536) && code == CapacityExhaustedStatus
    case AttemptTerminal(id, _) => !Fitting(s.attempts, id, 65536) && code == CapacityExhaustedStatus
    case AttemptCancelled(id) => !Fitting(s.attempts, id, 65536) && code == CapacityExhaustedStatus
    case _ => false
  }

  /** The cancelled attempt's record: marked, with the record's own time; made up if there was none. */
  predicate CancelledAs(was: Option<Attempt>, a: Attempt, tick: nat)
  {
    a.cancelled && a.terminalTick == tick && a.reason == ATTEMPT_CANCELLED
    && (was.Some? ==> a == was.value.(cancelled := true, terminalTick := tick, reason := ATTEMPT_CANCELLED))
    && (was.None? ==> a.request == a.grant == a.lease == [] && IsZero(a.digest) && a.firstSeen == 0 && !a.released && a.outcome == Invalid)
  }

  /** What a record that is not refused leaves. */
  ghost predicate Leaves(s: Store, b: Body, tick: nat, latest: nat, t: Store)
  {
    match b
    case Snapshot(image) =>
      t == image.(grants := t.grants, attempts := t.attempts)
      && InOrder(image.grants, t.grants) && InOrder(image.attempts, t.attempts)
    case SetController(cluster, at) =>
      && t == s.(spec := t.spec, tick := latest) && SameDeclarations(s.spec, t.spec)
      && t.spec.id == cluster && t.spec.generation == at.generation && t.spec.epoch == at.epoch
      && t.spec.policy == at.policy && t.spec.incarnation == at.incarnation
    case EpochBegin(_, at) =>
      && OnlySpec(s, t) && SameDeclarations(s.spec, t.spec) && t.spec.id == s.spec.id
      && t.spec.epoch == s.spec.epoch + 1 && t.spec.generation == s.spec.generation + 1
      && t.spec.incarnation == at.incarnation && t.spec.policy == (if s.spec.policy < at.policy then at.policy else s.spec.policy)
    case PolicySet(policy) => OnlySpec(s, t) && t.spec == s.spec.(policy := policy)
    case TickMark => t == s.(tick := tick)
    case SpecChange(op) =>
      OnlySpec(s, t) && Edited(s.spec, t.spec, tick, op) && t.spec.generation == s.spec.generation + 1
    case ContractChange(op) =>
      t == s.(contracts := t.contracts)
      && Changed(s.contracts, t.contracts, op.id, if op.UpsertContract? then Some(op.contract) else None)
    case GrantRecord(_, id, g, state) =>
      t == s.(grants := t.grants)
      && Changed(s.grants, t.grants, id, Some(g.(state := state, reserved := state in {Committed, Acknowledged, Ambiguous})))
    case AttemptTerminal(id, a) => t == s.(attempts := t.attempts) && Changed(s.attempts, t.attempts, id, Some(a))
    case AttemptCancelled(id) =>
      var a := Get(t.attempts, id);
      t == s.(attempts := t.attempts) && a.Some? && CancelledAs(Get(s.attempts, id), a.value, tick)
      && Changed(s.attempts, t.attempts, id, a)
    case CountersSync => t == s
  }

  // ----- sorting -----

  /** The same rows, each as often, in the order of their ids. */
  ghost predicate InOrder<T>(t: Table<T>, u: Table<T>)
  {
    multiset(u) == multiset(t) && forall i, j :: 0 <= i < j < |u| ==> !Less(u[j].id, u[i].id)
  }

  lemma NotBelow(a: Id, b: Id, c: Id)
    requires !Less(b, a) && !Less(c, b)
    ensures !Less(c, a)
  {
    LessTotal(a, b);
    LessTotal(b, c);
    if Less(c, a) {
      if Less(a, b) { LessTransitive(c, a, b); }
    }
  }

  lemma {:induction false} InsertedRows<T>(t: Table<T>, row: Row<T>)
    ensures multiset(InsertRow(t, row)) == multiset(t) + multiset{row}
  {
    hide Less;
    if t != [] && Less(row.id, t[|t| - 1].id) {
      InsertedRows(t[..|t| - 1], row);
      assert t == t[..|t| - 1] + [t[|t| - 1]];
    }
  }

  lemma {:induction false} InsertInOrder<T>(t: Table<T>, row: Row<T>)
    requires forall i, j :: 0 <= i < j < |t| ==> !Less(t[j].id, t[i].id)
    ensures var u := InsertRow(t, row); forall i, j :: 0 <= i < j < |u| ==> !Less(u[j].id, u[i].id)
  {
    hide Less;
    if t != [] && Less(row.id, t[|t| - 1].id) {
      var n := |t| - 1;
      var v := InsertRow(t[..n], row);
      InsertInOrder(t[..n], row);
      InsertedRows(t[..n], row);
      forall i | 0 <= i < |v| ensures !Less(t[n].id, v[i].id) { BelowLast(t, row, v, i); }
    } else {
      forall i | 0 <= i < |t| ensures !Less(row.id, t[i].id) {
        if i < |t| - 1 { NotBelow(t[i].id, t[|t| - 1].id, row.id); }
      }
    }
  }

  lemma BelowLast<T>(t: Table<T>, row: Row<T>, v: Table<T>, i: nat)
    requires t != [] && Less(row.id, t[|t| - 1].id) && i < |v|
    requires forall i, j :: 0 <= i < j < |t| ==> !Less(t[j].id, t[i].id)
    requires multiset(v) == multiset(t[..|t| - 1]) + multiset{row}
    ensures !Less(t[|t| - 1].id, v[i].id)
  {
    hide Less;
    assert v[i] in multiset(v);
    if v[i] == row {
      if Less(t[|t| - 1].id, row.id) {
        LessTransitive(row.id, t[|t| - 1].id, row.id);
        LessIrreflexive(row.id);
      }
    } else {
      assert v[i] in t[..|t| - 1];
    }
  }

  lemma {:induction false} SortsInOrder<T>(t: Table<T>)
    ensures InOrder(t, SortById(t))
  {
    hide Less, InsertRow;
    if t != [] {
      var n := |t| - 1;
      SortsInOrder(t[..n]);
      InsertInOrder(SortById(t[..n]), t[n]);
      InsertedRows(SortById(t[..n]), t[n]);
      assert t == t[..n] + [t[n]];
    }
  }

  // ----- one record -----

  lemma EffectIs(s: Store, b: Body, tick: nat, latest: nat)
    requires TablesSorted(s)
    ensures match Effect(s, b, tick, latest)
            case Failure(code) => Objectionable(s, b, code)
            case Success(t) => Leaves(s, b, tick, latest, t) && forall code :: !Objectionable(s, b, code)
  {
    hide Put, Sorted, Changed, ApplySpec, ApplyContract, Acceptable, AcceptableContract, RefusedWith, ContractRefusedWith, Edited,
         InOrder, LowerBound, SortById;
    match b
    case Snapshot(image) =>
      SortsInOrder(image.grants);
      SortsInOrder(image.attempts);
    case SpecChange(op) => SpecReread(s.spec, tick, op);
    case ContractChange(op) => ContractChangeExact(s.contracts, op);
    case GrantRecord(_, id, g, state) => PutChanges(s.grants, id, Adopted(g, state));
    case AttemptTerminal(id, a) => PutChanges(s.attempts, id, a);
    case AttemptCancelled(id) =>
      PutChanges(s.attempts, id, ReplayCancel(s, id, tick));
      ThereNow(s.attempts, Put(s.attempts, id, ReplayCancel(s, id, tick)), id, ReplayCancel(s, id, tick));
    case _ =>
  }

  lemma ThereNow<T>(t: Table<T>, u: Table<T>, id: Id, v: T)
    requires Changed(t, u, id, Some(v))
    ensures Get(u, id) == Some(v)
  {}

  lemma SpecReread(s: Spec, tick: nat, op: SpecOp)
    requires SpecSorted(s)
    ensures var (t, st) := ApplySpec(s, tick, op);
            if !Acceptable(s, op) then st != Ok && RefusedWith(s, op, st)
            else if s.generation == U64_MAX then st == CapacityExhaustedStatus
            else st == Ok && Edited(s, t, tick, op) && t.generation == s.generation + 1
  {
    hide ApplySpec, Acceptable, RefusedWith, SpecSorted, Edited;
    SpecChangeExact(s, tick, op);
  }

  /** A record is read on only under the number that is due. It is then refused exactly for what it says that cannot be so,
      with the code for that, and else leaves exactly what it says; the clock read goes on to the latest record's. */
  lemma RecordExact(r: Replayed, e: Entry)
    requires TablesSorted(r.store)
    ensures match Apply(r, e)
            case Failure(code) =>
              if r.next.Some? && r.next.value != e.sequence then code == Corruption else Objectionable(r.store, e.body, code)
            case Success(q) =>
              && (r.next.None? || r.next.value == e.sequence) && q.next == Some(e.sequence + 1)
              && q.tick == (if r.tick < e.tick then e.tick else r.tick) && (forall code :: !Objectionable(r.store, e.body, code))
              && Leaves(r.store, e.body, e.tick, q.tick, q.store)
              && q.bound == (if e.body.Snapshot? then q.store.spec.id != [] else r.bound || e.body.SetController?)
  {
    hide Effect, Leaves, Objectionable, TablesSorted;
    EffectIs(r.store, e.body, e.tick, Latest(r.tick, e.tick));
    if e.body.Snapshot? { ImageSpec(r.store, e.body, e.tick, Latest(r.tick, e.tick)); }
  }

  lemma ImageSpec(s: Store, b: Body, tick: nat, latest: nat)
    requires b.Snapshot?
    ensures Effect(s, b, tick, latest).Success? && Effect(s, b, tick, latest).value.spec == b.image.spec
  {
    hide SortById;
  }
}
