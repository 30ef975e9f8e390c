/** The cluster specification and the mutators the controller applies to it (src/model.cpp). */
module Cluster {
  import opened Tables
  import opened Model
  import opened Text

  /** Everything in `ClusterSpec` except its clock, which the store keeps beside it. */
  datatype Spec = Spec(
    id: Id, generation: nat, epoch: nat, policy: nat, incarnation: seq<byte>,
    members: Table<Member>, paths: Table<Path>,
    exclusions: Table<Exclusion>, obligations: Table<Obligation>)

  const EMPTY_SPEC := Spec([], 0, 0, 0, [], [], [], [], [])

  datatype SpecOp =
    | UpsertMember(id: Id, member: Member)
    | RemoveMember(id: Id)
    | SetLifecycle(id: Id, lifecycle: Lifecycle)
    | UpsertPath(id: Id, path: Path)
    | RemovePath(id: Id)
    | SetPathState(id: Id, state: PathState)
    | UpsertExclusion(id: Id, exclusion: Exclusion)
    | RemoveExclusion(id: Id)
    | UpsertObligation(id: Id, obligation: Obligation)
    | RemoveObligation(id: Id)
  {
    /** Member and path mutators end by revalidating every live grant; the others do not. */
    predicate Revalidates()
    {
      UpsertMember? || RemoveMember? || SetLifecycle? || UpsertPath? || RemovePath? || SetPathState?
    }
  }

  datatype ContractOp = UpsertContract(id: Id, contract: Contract) | RemoveContract(id: Id)

  function AnyEmpty(endpoints: seq<Endpoint>): bool
  {
    exists i :: 0 <= i < |endpoints| && endpoints[i].id == []
  }

  function MemberShape(id: Id, m: Member): StatusCode
  {
    if id == [] then InvalidArgument
    else if |m.endpoints| > MAX_PER_MEMBER || |m.services| > MAX_PER_MEMBER || |m.resources| > MAX_PER_MEMBER
    then LimitExceeded
    else if !IsUtf8(m.note) then InvalidArgument
    else if |m.note| > MAX_NOTE then LimitExceeded
    else if AnyEmpty(m.endpoints) then InvalidArgument
    else Ok
  }

  function MemberUpdate(old_: Member, m: Member): StatusCode
  {
    if m.generation < old_.generation then StateMismatch
    else if m.generation == old_.generation && m.digest != old_.digest && !IsZero(old_.digest)
    then DuplicateIdentity
    else if old_.lifecycle == Removed && m.lifecycle != Removed then StateMismatch
    else Ok
  }

  /** Admission of one keyed value: its own checks, then the table bound for a new key. */
  function Room<T>(t: Table<T>, id: Id, max: nat): StatusCode
  {
    if !Has(t, id) && |t| >= max then CapacityExhaustedStatus else Ok
  }

  function OpStatus(s: Spec, op: SpecOp): StatusCode
  {
    match op
    case UpsertMember(id, m) =>
      if MemberShape(id, m) != Ok then MemberShape(id, m)
      else if Has(s.members, id) then MemberUpdate(Get(s.members, id).value, m)
      else Room(s.members, id, MAX_MEMBERS)
    case RemoveMember(id) => if Has(s.members, id) then Ok else NotFound
    case SetLifecycle(id, l) =>
      if !Has(s.members, id) then NotFound
      else if Get(s.members, id).value.lifecycle == Removed && l != Removed then StateMismatch
      else Ok
    case UpsertPath(id, p) =>
      if id == [] || p.source == [] || p.destination == [] then InvalidArgument
      else if |p.resources| > MAX_RESOURCES_PER_PATH then LimitExceeded
      else if Has(s.paths, id) then
        if p.generation < Get(s.paths, id).value.generation then StateMismatch else Ok
      else Room(s.paths, id, MAX_PATHS)
    case RemovePath(id) => if Has(s.paths, id) then Ok else NotFound
    case SetPathState(id, _) => if Has(s.paths, id) then Ok else NotFound
    case UpsertExclusion(id, e) =>
      if id == [] then InvalidArgument
      else if |e.members| > MAX_EXCLUSION_MEMBERS then LimitExceeded
      else if !IsUtf8(e.reason) || |e.reason| > MAX_NOTE then InvalidArgument
      else if e.to != 0 && e.to < e.from then InvalidArgument
      else Room(s.exclusions, id, MAX_EXCLUSIONS)
    case RemoveExclusion(id) => if Has(s.exclusions, id) then Ok else NotFound
    case UpsertObligation(id, o) =>
      if id == [] || o.service == [] then InvalidArgument
      else if o.level > MAX_DEPTH then InvalidArgument
      else Room(s.obligations, id, MAX_OBLIGATIONS)
    case RemoveObligation(id) => if Has(s.obligations, id) then Ok else NotFound
  }

  /** The tables after an admitted mutation, before the generation moves. Retiring a member
      keeps its row: identity is never reused. */
  function Edit(s: Spec, tick: nat, op: SpecOp): Spec
    requires OpStatus(s, op) == Ok
  {
    match op
    case UpsertMember(id, m) => s.(members := Put(s.members, id, m))
    case RemoveMember(id) =>
      var m := Get(s.members, id).value;
      s.(members := Put(s.members, id, m.(lifecycle := Removed, endpoints := [], resources := [], services := [])))
    case SetLifecycle(id, l) =>
      var m := Get(s.members, id).value;
      s.(members := Put(s.members, id, m.(lifecycle := l, lastObserved := tick)))
    case UpsertPath(id, p) => s.(paths := Put(s.paths, id, p))
    case RemovePath(id) => s.(paths := Drop(s.paths, id))
    case SetPathState(id, st) =>
      s.(paths := Put(s.paths, id, Get(s.paths, id).value.(state := st)))
    case UpsertExclusion(id, e) => s.(exclusions := Put(s.exclusions, id, e))
    case RemoveExclusion(id) => s.(exclusions := Drop(s.exclusions, id))
    case UpsertObligation(id, o) => s.(obligations := Put(s.obligations, id, o))
    case RemoveObligation(id) => s.(obligations := Drop(s.obligations, id))
  }

  /** A mutator: refused without effect, or applied and followed by a generation bump. At a
      saturated generation the edit stays and the call still reports failure. */
  function ApplySpec(s: Spec, tick: nat, op: SpecOp): (Spec, StatusCode)
  {
    if OpStatus(s, op) != Ok then (s, OpStatus(s, op))
    else
      var e := Edit(s, tick, op);
      if e.generation == U64_MAX then (e, CapacityExhaustedStatus)
      else (e.(generation := e.generation + 1), Ok)
  }

  function BeginEpoch(s: Spec, incarnation: seq<byte>, policy: nat): (Spec, StatusCode)
  {
    if s.epoch >= U64_MAX || s.generation >= U64_MAX then (s, CapacityExhaustedStatus)
    else (s.(epoch := s.epoch + 1, generation := s.generation + 1, incarnation := incarnation,
             policy := if policy >= s.policy then policy else s.policy), Ok)
  }

  function ContractStatus(id: Id, k: Contract): StatusCode
  {
    if id == [] || k.sourceService == [] || k.destinationService == [] then InvalidArgument
    else if k.maxUnits != 0 && k.minUnits > k.maxUnits then InvalidArgument
    else if k.minUnits > MAX_UNITS || k.maxUnits > MAX_UNITS then LimitExceeded
    else if k.level > MAX_DEPTH then InvalidArgument
    else if k.minDomains > MAX_MEMBERS then LimitExceeded
    else if |k.capabilities| > MAX_CAPABILITIES then LimitExceeded
    else if exists i :: 0 <= i < |k.capabilities| && !IsIdentifier(k.capabilities[i], MAX_IDENTIFIER)
    then InvalidArgument
    else if !k.enabled then StateMismatch
    else Ok
  }

  function ApplyContract(t: Table<Contract>, op: ContractOp): (Table<Contract>, StatusCode)
  {
    match op
    case UpsertContract(id, k) =>
      if ContractStatus(id, k) != Ok then (t, ContractStatus(id, k))
      else if Has(t, id) && k.generation < Get(t, id).value.generation then (t, StateMismatch)
      else if Room(t, id, MAX_CONTRACTS) != Ok then (t, CapacityExhaustedStatus)
      else (Put(t, id, k), Ok)
    case RemoveContract(id) => if Has(t, id) then (Drop(t, id), Ok) else (t, NotFound)
  }

  /** Removal is for good: no mutation gives a removed member another lifecycle, and the member's
      generation never moves backwards. */
  lemma RetiredForGood(s: Spec, tick: nat, op: SpecOp, id: Id)
    requires Sorted(s.members) && Has(s.members, id)
    ensures var s' := ApplySpec(s, tick, op).0;
            Has(s'.members, id)
            && Get(s'.members, id).value.generation >= Get(s.members, id).value.generation
            && (Get(s.members, id).value.lifecycle == Removed ==> Get(s'.members, id).value.lifecycle == Removed)
  {
    hide Put, LowerBound;
    if OpStatus(s, op) == Ok {
      match op
      case UpsertMember(k, m) => GetPut(s.members, k, m, id);
      case RemoveMember(k) =>
        var m := Get(s.members, k).value;
        GetPut(s.members, k, m.(lifecycle := Removed, endpoints := [], resources := [], services := []), id);
      case SetLifecycle(k, l) =>
        GetPut(s.members, k, Get(s.members, k).value.(lifecycle := l, lastObserved := tick), id);
      case _ =>
    }
  }

  // ----- lookups -----

  function FindResource(rs: seq<Resource>, id: Id): Option<Resource>
  {
    if rs == [] then None else if rs[0].id == id then Some(rs[0]) else FindResource(rs[1..], id)
  }

  function ActiveAt(e: Exclusion, now: nat): bool
  {
    e.enabled && now >= e.from && (e.to == 0 || now <= e.to)
  }

  predicate CoversMember(e: Exclusion, id: Id, m: Member, now: nat)
  {
    ActiveAt(e, now) && (e.members == [] || id in e.members) && (e.prefix == [] || e.prefix <= m.locality)
  }

  predicate CoversPath(e: Exclusion, id: Id, now: nat)
  {
    ActiveAt(e, now) && (e.paths == [] || id in e.paths)
  }

  /** First exclusion, in id order, that covers this member. */
  function ExclusionForMember(t: Table<Exclusion>, id: Id, m: Member, now: nat): Option<Row<Exclusion>>
  {
    if t == [] then None
    else if CoversMember(t[0].val, id, m, now) then Some(t[0])
    else ExclusionForMember(t[1..], id, m, now)
  }

  function ExclusionForPath(t: Table<Exclusion>, id: Id, now: nat): Option<Row<Exclusion>>
  {
    if t == [] then None
    else if CoversPath(t[0].val, id, now) then Some(t[0])
    else ExclusionForPath(t[1..], id, now)
  }

  // ----- failure-domain keys -----

  function Join(labels: seq<string>): string
  {
    if labels == [] then []
    else if |labels| == 1 then labels[0]
    else labels[0] + "/" + Join(labels[1..])
  }

  /** `LocalityPath::domain_key`. */
  function DomainKey(labels: seq<string>, level: nat): string
  {
    Join(labels[..if level < |labels| then level else |labels|])
  }

  predicate Labels(labels: seq<string>)
  {
    forall i :: 0 <= i < |labels| ==> labels[i] != [] && '/' !in labels[i]
  }

  /** A text cut at every separator. */
  function Split(s: string): (r: seq<string>)
    ensures r != []
  {
    if s == [] then [[]]
    else if s[0] == '/' then [[]] + Split(s[1..])
    else
      var r := Split(s[1..]);
      [[s[0]] + r[0]] + r[1..]
  }

  /** Labels cut at every separator within them; no labels read as one empty one. */
  function Pieces(labels: seq<string>): seq<string>
  {
    if labels == [] then [[]]
    else if |labels| == 1 then Split(labels[0])
    else Split(labels[0]) + Pieces(labels[1..])
  }

  lemma {:induction false} SplitAcross(x: string, y: string)
    ensures Split(x + ("/" + y)) == Split(x) + Split(y)
  {
    hide Split;
    SplitNext('/', y);
    if x == [] {
      assert x + ("/" + y) == ['/'] + y;
    } else {
      assert x + ("/" + y) == [x[0]] + (x[1..] + ("/" + y)) && x == [x[0]] + x[1..];
      SplitNext(x[0], x[1..]);
      SplitNext(x[0], x[1..] + ("/" + y));
      SplitAcross(x[1..], y);
    }
  }

  lemma SplitNext(c: char, s: string)
    ensures Split([]) == [[]]
    ensures Split([c] + s) == if c == '/' then [[]] + Split(s) else [[c] + Split(s)[0]] + Split(s)[1..]
  {
    assert ([c] + s)[1..] == s;
  }

  lemma {:induction false} SplitJoined(labels: seq<string>)
    ensures Split(Join(labels)) == Pieces(labels)
  {
    if |labels| > 1 {
      SplitJoined(labels[1..]);
      SplitAcross(labels[0], Join(labels[1..]));
      assert Join(labels) == labels[0] + ("/" + Join(labels[1..]));
    }
  }

  lemma {:induction false} JoinSplit(s: string)
    ensures Join(Split(s)) == s
  {
    if s != [] {
      JoinSplit(s[1..]);
      var r, t := Split(s[1..]), Split(s);
      if s[0] == '/' {
        assert t[1..] == r;
        assert s == "/" + s[1..];
      } else {
        assert t[1..] == r[1..];
        assert s == [s[0]] + s[1..];
      }
    }
  }

  /** Members share a failure domain at a level exactly when their localities, up to it, are one list once every
      label is cut at its separators. */
  lemma DomainKeyExact(a: seq<string>, b: seq<string>, level: nat)
    ensures DomainKey(a, level) == DomainKey(b, level)
            <==> Pieces(a[..if level < |a| then level else |a|]) == Pieces(b[..if level < |b| then level else |b|])
  {
    var x, y := a[..if level < |a| then level else |a|], b[..if level < |b| then level else |b|];
    SplitJoined(x);
    SplitJoined(y);
    JoinSplit(Join(x));
    JoinSplit(Join(y));
  }

  lemma {:induction false} PlainPieces(labels: seq<string>)
    requires Labels(labels) && labels != []
    ensures Pieces(labels) == labels
  {
    PlainSplit(labels[0]);
    if |labels| > 1 {
      PlainPieces(labels[1..]);
      assert labels == [labels[0]] + labels[1..];
    } else {
      assert labels == [labels[0]];
    }
  }

  lemma {:induction false} PlainSplit(s: string)
    requires '/' !in s
    ensures Split(s) == [s]
  {
    if s != [] {
      PlainSplit(s[1..]);
      assert s == [s[0]] + s[1..];
    }
  }

  /** Of labels that hold no separator: exactly when the localities agree up to the level. */
  lemma DomainKeyPlain(a: seq<string>, b: seq<string>, level: nat)
    requires Labels(a) && Labels(b)
    ensures DomainKey(a, level) == DomainKey(b, level)
            <==> a[..if level < |a| then level else |a|] == b[..if level < |b| then level else |b|]
  {
    var x, y := a[..if level < |a| then level else |a|], b[..if level < |b| then level else |b|];
    DomainKeyExact(a, b, level);
    if x != [] { PlainPieces(x); }
    if y != [] { PlainPieces(y); }
    assert x == [] && y != [] ==> y[0] != [];
    assert y == [] && x != [] ==> x[0] != [];
  }

  /** The identifier grammar admits '/', so a decoded label may hold the separator and the lists may differ:
      these two localities differ at level 2 and are reported as one domain. */
  lemma DomainKeyCollides()
    ensures IsIdentifier("a/b", MAX_IDENTIFIER)
    ensures DomainKey(["a/b"], 2) == DomainKey(["a", "b"], 2) && ["a/b"] != ["a", "b"]
  {
    assert ["a/b"][..1] == ["a/b"] && ["a", "b"][..2] == ["a", "b"];
    assert Join(["b"]) == "b";
    assert ["a", "b"][1..] == ["b"];
    assert Join(["a", "b"]) == "a" + "/" + "b";
    assert |["a/b"]| != |["a", "b"]|;
  }
}
