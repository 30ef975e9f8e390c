/** The digest caches of `ClusterSpec` and `ContractSet` (src/model.cpp, src/contract.cpp): mutators
    update the tables in place and move a revision, which the cached digests are keyed on. */
module Caches {
  import opened Tables
  import opened Model
  import opened Cluster
  import opened Edits

  /** A cached digest: the revision it was taken at, U64_MAX before the first. */
  datatype Cached = Cached(key: nat, digest: Digest)

  class ClusterSpec {
    /** The digests of the two canonical encodings. The second leaves out who rules and the clock. */
    const fullDigest: (Spec, nat) -> Digest
    const topologyOf: Spec -> Digest

    var spec: Spec
    var tick: nat
    var revision: nat
    var cachedSpec: Cached
    var cachedTopology: Cached

    /** What is declared, without generation, epoch, policy and incarnation. */
    static function Topology(s: Spec): Spec
    {
      s.(generation := 0, epoch := 0, policy := 0, incarnation := [])
    }

    predicate Coherent()
      reads this
    {
      && revision < U64_MAX
      && (cachedSpec.key <= revision || cachedSpec.key == U64_MAX)
      && (cachedTopology.key <= revision || cachedTopology.key == U64_MAX)
      && (cachedSpec.key == revision ==> cachedSpec.digest == fullDigest(spec, tick))
      && (cachedTopology.key == revision ==> cachedTopology.digest == topologyOf(Topology(spec)))
    }

    constructor (full: (Spec, nat) -> Digest, topology: Spec -> Digest)
      ensures Coherent() && spec == EMPTY_SPEC && tick == 0 && revision == 0
      ensures fullDigest == full && topologyOf == topology
    {
      fullDigest, topologyOf := full, topology;
      spec, tick, revision := EMPTY_SPEC, 0, 0;
      cachedSpec, cachedTopology := Cached(U64_MAX, ZeroDigest()), Cached(U64_MAX, ZeroDigest());
    }

    /** `bump_generation`. */
    method BumpGeneration() returns (st: StatusCode)
      requires revision < U64_MAX
      modifies `spec, `revision
      ensures st == if old(spec.generation) == U64_MAX then CapacityExhaustedStatus else Ok
      ensures spec == if st == Ok then old(spec).(generation := old(spec.generation) + 1) else old(spec)
      ensures revision == if st == Ok then old(revision) + 1 else old(revision)
    {
      if spec.generation == U64_MAX { return CapacityExhaustedStatus; }
      spec := spec.(generation := spec.generation + 1);
      revision := revision + 1;
      return Ok;
    }

    method PutMember(id: Id, m: Member)
      modifies `spec
      ensures spec == old(spec).(members := Put(old(spec.members), id, m))
    {
      var t, slot := spec.members, LowerBound(spec.members, id);
      if slot < |t| && t[slot].id == id {
        spec := spec.(members := t[slot := Row(id, m)]);
      } else {
        spec := spec.(members := t[..slot] + [Row(id, m)] + t[slot..]);
      }
    }

    method PutPath(id: Id, p: Path)
      modifies `spec
      ensures spec == old(spec).(paths := Put(old(spec.paths), id, p))
    {
      var t, slot := spec.paths, LowerBound(spec.paths, id);
      if slot < |t| && t[slot].id == id {
        spec := spec.(paths := t[slot := Row(id, p)]);
      } else {
        spec := spec.(paths := t[..slot] + [Row(id, p)] + t[slot..]);
      }
    }

    /** The edit itself, in place. */
    method EditTables(op: SpecOp)
      requires OpStatus(spec, op) == Ok
      modifies `spec
      ensures spec == Edit(old(spec), tick, op)
    {
      hide Put;
      match op {
        case UpsertMember(id, m) => PutMember(id, m);
        case RemoveMember(id) =>
          var m := Get(spec.members, id).value;
          PutMember(id, m.(lifecycle := Removed, endpoints := [], resources := [], services := []));
        case SetLifecycle(id, l) =>
          var m := Get(spec.members, id).value;
          PutMember(id, m.(lifecycle := l, lastObserved := tick));
        case UpsertPath(id, p) => PutPath(id, p);
        case RemovePath(id) =>
          var slot := LowerBound(spec.paths, id);
          spec := spec.(paths := spec.paths[..slot] + spec.paths[slot + 1..]);
        case SetPathState(id, state) =>
          PutPath(id, Get(spec.paths, id).value.(state := state));
        case UpsertExclusion(id, e) => spec := spec.(exclusions := Put(spec.exclusions, id, e));
        case RemoveExclusion(id) => spec := spec.(exclusions := Drop(spec.exclusions, id));
        case UpsertObligation(id, o) => spec := spec.(obligations := Put(spec.obligations, id, o));
        case RemoveObligation(id) => spec := spec.(obligations := Drop(spec.obligations, id));
      }
    }

    /** The member, path, exclusion and obligation mutators. Whatever they change, also when the
        generation turns out to be saturated, the revision moves past every cached digest. */
    method Mutate(op: SpecOp) returns (st: StatusCode)
      requires Coherent() && revision + 2 < U64_MAX
      modifies `spec, `revision
      ensures (spec, st) == ApplySpec(old(spec), tick, op)
      ensures SpecSorted(old(spec)) ==> SpecChangeIs(old(spec), tick, op, spec, st)
      ensures Coherent()
      ensures revision == old(revision) ==> spec == old(spec)
    {
      hide OpStatus, Edit, Topology, SpecSorted, SpecChangeIs;
      if SpecSorted(spec) { SpecChangeExact(spec, tick, op); }
      var admitted := OpStatus(spec, op);
      if admitted != Ok { return admitted; }
      EditTables(op);
      revision := revision + 1;
      st := BumpGeneration();
    }

    method BeginNextEpoch(incarnation: seq<byte>, policy: nat) returns (st: StatusCode)
      requires Coherent() && revision + 1 < U64_MAX
      modifies `spec, `revision
      ensures (spec, st) == BeginEpoch(old(spec), incarnation, policy) && Coherent()
      ensures revision == if st == Ok then old(revision) + 1 else old(revision)
    {
      if spec.epoch >= U64_MAX || spec.generation >= U64_MAX { return CapacityExhaustedStatus; }
      spec := spec.(epoch := spec.epoch + 1, generation := spec.generation + 1, incarnation := incarnation,
                    policy := if policy >= spec.policy then policy else spec.policy);
      revision := revision + 1;
      return Ok;
    }

    /** The inline setters of the header: each moves the revision. */
    method SetIncarnation(value: seq<byte>)
      requires Coherent() && revision + 1 < U64_MAX
      modifies `spec, `revision
      ensures spec == old(spec).(incarnation := value) && revision == old(revision) + 1 && Coherent()
    {
      spec, revision := spec.(incarnation := value), revision + 1;
    }

    method SetPolicyGeneration(value: nat)
      requires Coherent() && revision + 1 < U64_MAX
      modifies `spec, `revision
      ensures spec == old(spec).(policy := value) && revision == old(revision) + 1 && Coherent()
    {
      spec, revision := spec.(policy := value), revision + 1;
    }

    method SetTick(value: nat)
      requires Coherent() && revision + 1 < U64_MAX
      modifies `tick, `revision
      ensures tick == value && revision == old(revision) + 1 && Coherent()
    {
      tick, revision := value, revision + 1;
    }

    method RestoreCounters(generation: nat, epoch: nat)
      requires Coherent() && revision + 1 < U64_MAX
      modifies `spec, `revision
      ensures spec == old(spec).(generation := generation, epoch := epoch)
      ensures revision == old(revision) + 1 && Coherent()
    {
      spec, revision := spec.(generation := generation, epoch := epoch), revision + 1;
    }

    /** `set_cluster_id`: the one mutator that does not move the revision. A digest cached before it
        is served after it, so the caches stay coherent exactly when neither was taken at this
        revision, or taking the new name happens not to change it. */
    method SetClusterId(id: Id) returns (st: StatusCode)
      requires Coherent()
      modifies `spec
      ensures st == if id == [] then InvalidArgument
                    else if old(spec.id) != [] && old(spec.id) != id then StateMismatch else Ok
      ensures spec == if st == Ok then old(spec).(id := id) else old(spec)
      ensures Coherent() <==>
                (cachedSpec.key == revision ==> fullDigest(spec, tick) == fullDigest(old(spec), tick))
                && (cachedTopology.key == revision ==> topologyOf(Topology(spec)) == topologyOf(Topology(old(spec))))
    {
      if id == [] { return InvalidArgument; }
      if spec.id != [] && spec.id != id { return StateMismatch; }
      spec := spec.(id := id);
      return Ok;
    }

    /** `digest`. Each digest has a key of its own: taking one says nothing about the other. */
    method TakeDigest() returns (d: Digest)
      requires Coherent()
      modifies `cachedSpec
      ensures d == fullDigest(spec, tick) && Coherent()
    {
      if cachedSpec.key != revision { cachedSpec := Cached(revision, fullDigest(spec, tick)); }
      return cachedSpec.digest;
    }

    method TakeTopologyDigest() returns (d: Digest)
      requires Coherent()
      modifies `cachedTopology
      ensures d == topologyOf(Topology(spec)) && Coherent()
    {
      if cachedTopology.key != revision { cachedTopology := Cached(revision, topologyOf(Topology(spec))); }
      return cachedTopology.digest;
    }
  }

  class ContractSet {
    const digestOf: Table<Contract> -> Digest

    var contracts: Table<Contract>
    var revision: nat
    var cached: Option<Cached>

    predicate Coherent()
      reads this
    {
      cached.Some? ==>
        cached.value.key <= revision
        && (cached.value.key == revision ==> cached.value.digest == digestOf(contracts))
    }

    constructor (digest: Table<Contract> -> Digest)
      ensures Coherent() && contracts == [] && digestOf == digest
    {
      digestOf := digest;
      contracts, revision, cached := [], 0, None;
    }

    /** `upsert` and `remove`. */
    method Change(op: ContractOp) returns (st: StatusCode)
      requires Coherent()
      modifies `contracts, `revision
      ensures (contracts, st) == ApplyContract(old(contracts), op) && Coherent()
      ensures Sorted(old(contracts)) ==> ContractChangeIs(old(contracts), op, contracts, st)
      ensures revision == if st == Ok then old(revision) + 1 else old(revision)
    {
      hide Sorted, ContractChangeIs;
      if Sorted(contracts) { ContractChangeExact(contracts, op); }
      match op {
        case UpsertContract(id, k) =>
          var valid := ContractStatus(id, k);
          if valid != Ok { return valid; }
          var slot := LowerBound(contracts, id);
          if slot < |contracts| && contracts[slot].id == id {
            if k.generation < contracts[slot].val.generation { return StateMismatch; }
            contracts := contracts[slot := Row(id, k)];
          } else {
            if |contracts| >= MAX_CONTRACTS { return CapacityExhaustedStatus; }
            contracts := contracts[..slot] + [Row(id, k)] + contracts[slot..];
          }
        case RemoveContract(id) =>
          var slot := LowerBound(contracts, id);
          if slot >= |contracts| || contracts[slot].id != id { return NotFound; }
          contracts := contracts[..slot] + contracts[slot + 1..];
      }
      revision := revision + 1;
      return Ok;
    }

    method Clear()
      requires Coherent()
      modifies `contracts, `revision
      ensures contracts == [] && Coherent()
    {
      contracts, revision := [], revision + 1;
    }

    method TakeDigest() returns (d: Digest)
      requires Coherent()
      modifies `cached
      ensures d == digestOf(contracts) && Coherent()
    {
      if cached.None? || cached.value.key != revision { cached := Some(Cached(revision, digestOf(contracts))); }
      return cached.value.digest;
    }
  }
}
