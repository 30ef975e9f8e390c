/** `replay_journal` (src/journal.cpp): the state a log prefix stands for, and what of the live state
    a log determines. */
module Replay {
  import opened Tables
  import opened Model
  import opened Cluster
  import opened Accounting
  import opened Eligibility
  import opened Engine

  /** State while replaying. `store.tick` is the specification's own clock; `tick` the latest record's. */
  datatype Replayed = Replayed(store: Store, tick: nat, bound: bool, next: Option<nat>)

  const EMPTY := Replayed(Store(EMPTY_SPEC, 0, [], [], []), 0, false, None)

  function Adopted(g: Grant, state: GrantState): Grant
  {
    g.(state := state, reserved := HoldsCapacity(state))
  }

  function ReplayCancel(s: Store, id: Id, tick: nat): Attempt
  {
    (if Has(s.attempts, id) then Get(s.attempts, id).value else NoAttempt())
      .(cancelled := true, terminalTick := tick, reason := ATTEMPT_CANCELLED)
  }

  /** The store after one record; the record's clock is `tick`, the latest seen so far `latest`. */
  function Effect(s: Store, b: Body, tick: nat, latest: nat): Result<Store>
  {
    match b
    case Snapshot(image) =>
      Success(image.(grants := SortById(image.grants), attempts := SortById(image.attempts)))
    case SetController(cluster, at) =>
      if cluster == [] then Failure(InvalidArgument)
      else if s.spec.id != [] && s.spec.id != cluster then Failure(StateMismatch)
      else Success(s.(spec := s.spec.(id := cluster, incarnation := at.incarnation, policy := at.policy,
                                      generation := at.generation, epoch := at.epoch), tick := latest))
    case EpochBegin(cluster, at) =>
      var e := BeginEpoch(s.spec, at.incarnation, at.policy);
      if e.1 != Ok then Failure(e.1) else Success(s.(spec := e.0))
    case PolicySet(policy) => Success(s.(spec := s.spec.(policy := policy)))
    case TickMark => Success(s.(tick := tick))
    case SpecChange(op) =>
      var e := ApplySpec(s.spec, tick, op);
      if e.1 != Ok then Failure(e.1) else Success(s.(spec := e.0))
    case ContractChange(op) =>
      var e := ApplyContract(s.contracts, op);
      if e.1 != Ok then Failure(e.1) else Success(s.(contracts := e.0))
    case GrantRecord(_, id, g, state) =>
      if Room(s.grants, id, MAX_GRANTS) != Ok then Failure(CapacityExhaustedStatus)
      else Success(s.(grants := Put(s.grants, id, Adopted(g, state))))
    case AttemptTerminal(id, a) =>
      if Room(s.attempts, id, MAX_ATTEMPTS) != Ok then Failure(CapacityExhaustedStatus)
      else Success(s.(attempts := Put(s.attempts, id, a)))
    case AttemptCancelled(id) =>
      if Room(s.attempts, id, MAX_ATTEMPTS) != Ok then Failure(CapacityExhaustedStatus)
      else Success(s.(attempts := Put(s.attempts, id, ReplayCancel(s, id, tick))))
    case CountersSync => Success(s)
  }

  function Latest(a: nat, b: nat): nat { if b > a then b else a }

  function Apply(r: Replayed, e: Entry): Result<Replayed>
  {
    if r.next.Some? && e.sequence != r.next.value then Failure(Corruption)
    else
      var latest := Latest(r.tick, e.tick);
      match Effect(r.store, e.body, e.tick, latest)
      case Failure(code) => Failure(code)
      case Success(s) =>
        Success(Replayed(s, latest,
                         if e.body.Snapshot? then e.body.image.spec.id != []
                         else r.bound || e.body.SetController?,
                         Some(e.sequence + 1)))
  }

  /** Replay of a log, record by record. */
  function Raw(log: Log): Result<Replayed>
  {
    if log == [] then Success(EMPTY)
    else
      match Raw(log[..|log| - 1])
      case Failure(code) => Failure(code)
      case Success(r) => Apply(r, log[|log| - 1])
  }

  /** The clock resumes at the later of the two. */
  function Finish(r: Replayed): Store { r.store.(tick := Latest(r.store.tick, r.tick)) }

  /** `replay_journal`. */
  method ReplayJournal(entries: Log) returns (out: Result<Replayed>)
    ensures out == match Raw(entries)
                   case Failure(code) => Failure(code)
                   case Success(r) => Success(r.(store := Finish(r)))
  {
    var state := EMPTY;
    for i := 0 to |entries|
      invariant Raw(entries[..i]) == Success(state)
    {
      assert entries[..i + 1][..i] == entries[..i];
      var step := Apply(state, entries[i]);
      if step.Failure? {
        RawFails(entries, i + 1);
        return Failure(step.code);
      }
      state := step.value;
    }
    assert entries[..|entries|] == entries;
    return Success(state.(store := Finish(state)));
  }

  lemma {:induction false} RawFails(log: Log, k: nat)
    requires k <= |log| && Raw(log[..k]).Failure?
    ensures Raw(log) == Raw(log[..k])
  {
    if k == |log| {
      assert log[..k] == log;
    } else {
      assert log[..|log| - 1][..k] == log[..k];
      RawFails(log[..|log| - 1], k);
    }
  }

  lemma RawAppend(log: Log, e: Entry)
    ensures Raw(log + [e]) == match Raw(log) case Failure(code) => Failure(code) case Success(r) => Apply(r, e)
  {
    assert (log + [e])[..|log + [e]| - 1] == log;
  }

  // ----- what a log determines -----

  /** A grant up to what its log records may say differently: positions, the form in which they tell of an
      acknowledgement, and which of the capacity-holding states it is in. */
  function Essence(g: Grant): Grant
  {
    g.(prepareSeq := 0, commitSeq := 0, releaseSeq := 0, ackSeq := 0, acknowledged := WasAcknowledged(g),
       commit := NotCommitted, reserved := HoldsCapacity(g.state),
       state := if HoldsCapacity(g.state) then Committed else g.state)
  }

  function Essences(t: Table<Grant>): (r: Table<Grant>)
    ensures |r| == |t|
    ensures forall i :: 0 <= i < |t| ==> r[i] == Row(t[i].id, Essence(t[i].val))
  {
    seq(|t|, i requires 0 <= i < |t| => Row(t[i].id, Essence(t[i].val)))
  }

  /** The store as its log determines it; the clock is left out. */
  function Abs(s: Store): Store { s.(tick := 0, grants := Essences(s.grants)) }

  lemma EssencesSorted(t: Table<Grant>)
    ensures Sorted(Essences(t)) <==> Sorted(t)
  {
    var r := Essences(t);
    if Sorted(r) {
      forall i, j | 0 <= i < j < |t| ensures Less(t[i].id, t[j].id) { assert Less(r[i].id, r[j].id); }
    }
  }

  lemma EssencesFind(t: Table<Grant>, id: Id)
    ensures LowerBound(Essences(t), id) == LowerBound(t, id)
    ensures Has(Essences(t), id) == Has(t, id)
    ensures Has(t, id) ==> Get(Essences(t), id) == Some(Essence(Get(t, id).value))
  {
    var r := Essences(t);
    var i := LowerBound(t, id);
    forall j | 0 <= j < i ensures Less(r[j].id, id) { assert Less(t[j].id, id); }
    LowerBoundUnique(r, id, i);
  }

  lemma EssencesPut(t: Table<Grant>, id: Id, g: Grant)
    ensures Essences(Put(t, id, g)) == Put(Essences(t), id, Essence(g))
  {
    hide LowerBound, Essence;
    EssencesFind(t, id);
    var i := LowerBound(t, id);
    var a, b := Essences(Put(t, id, g)), Put(Essences(t), id, Essence(g));
    forall j | 0 <= j < |a| ensures a[j] == b[j] {
      assert Put(t, id, g)[j] == if j == i then Row(id, g) else if Has(t, id) || j < i then t[j] else t[j - 1];
    }
  }

  lemma WeightOfEssence(k: Key, g: Grant)
    ensures Weight(k, Essence(g)) == Weight(k, g)
  {}

  lemma {:induction false} TotalOfEssences(t: Table<Grant>, k: Key)
    ensures Total(Essences(t), k) == Total(t, k)
  {
    if t != [] {
      var n := |t| - 1;
      assert Essences(t)[..n] == Essences(t[..n]);
      TotalOfEssences(t[..n], k);
      WeightOfEssence(k, t[n].val);
    }
  }

  /** Records act on what a log determines: two stores that agree on it still do after any record,
      and refuse the same records. */
  lemma EffectOnAbs(s: Store, t: Store, b: Body, tick: nat, l1: nat, l2: nat)
    requires Abs(s) == Abs(t)
    ensures Effect(s, b, tick, l1).Success? == Effect(t, b, tick, l2).Success?
    ensures Effect(s, b, tick, l1).Success? ==>
              Abs(Effect(s, b, tick, l1).value) == Abs(Effect(t, b, tick, l2).value)
  {
    assert s.spec == t.spec && s.contracts == t.contracts && s.attempts == t.attempts;
    assert |s.grants| == |Essences(s.grants)| == |Essences(t.grants)| == |t.grants|;
    match b
    case GrantRecord(_, id, g, state) =>
      EssencesFind(s.grants, id);
      EssencesFind(t.grants, id);
      EssencesPut(s.grants, id, Adopted(g, state));
      EssencesPut(t.grants, id, Adopted(g, state));
    case _ =>
  }

  /** Replay of further records on top of a state. */
  function ReplayFrom(r: Replayed, tail: Log): Result<Replayed>
    decreases |tail|
  {
    if tail == [] then Success(r)
    else
      match Apply(r, tail[0])
      case Failure(code) => Failure(code)
      case Success(r1) => ReplayFrom(r1, tail[1..])
  }

  lemma {:induction false} RawSplit(log: Log, tail: Log)
    requires Raw(log).Success?
    ensures Raw(log + tail) == ReplayFrom(Raw(log).value, tail)
    decreases |tail|
  {
    if tail == [] {
      assert log + tail == log;
    } else {
      assert log + tail == (log + [tail[0]]) + tail[1..];
      RawAppend(log, tail[0]);
      if Raw(log + [tail[0]]).Success? {
        RawSplit(log + [tail[0]], tail[1..]);
      } else {
        var whole := log + tail;
        assert whole[..|log| + 1] == log + [tail[0]];
        RawFails(whole, |log| + 1);
      }
    }
  }

  /** The same changes under the sequence numbers each log is at. */
  ghost predicate Consecutive(tail: Log, next: nat)
  {
    forall i :: 0 <= i < |tail| ==> tail[i].sequence == next + i
  }

  ghost predicate SameChanges(a: Log, b: Log)
  {
    |a| == |b| && forall i :: 0 <= i < |a| ==> a[i].body == b[i].body && a[i].tick == b[i].tick
  }

  /** Any further changes on top of two states that agree succeed alike and leave them agreeing. */
  lemma {:induction false} TailOnAbs(x: Replayed, y: Replayed, ta: Log, tb: Log)
    requires Abs(x.store) == Abs(y.store) && SameChanges(ta, tb)
    requires x.next.Some? && Consecutive(ta, x.next.value) && y.next.Some? && Consecutive(tb, y.next.value)
    ensures ReplayFrom(x, ta).Success? <==> ReplayFrom(y, tb).Success?
    ensures ReplayFrom(x, ta).Success? ==>
              Abs(ReplayFrom(x, ta).value.store) == Abs(ReplayFrom(y, tb).value.store)
    decreases |ta|
  {
    if ta != [] {
      EffectOnAbs(x.store, y.store, ta[0].body, ta[0].tick, Latest(x.tick, ta[0].tick), Latest(y.tick, tb[0].tick));
      if Apply(x, ta[0]).Success? {
        TailOnAbs(Apply(x, ta[0]).value, Apply(y, tb[0]).value, ta[1..], tb[1..]);
      }
    }
  }
}
