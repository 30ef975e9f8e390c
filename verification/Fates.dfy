/** What becomes of a grant when the cluster around it changes, said by lookups in the tables alone
    (src/authority.cpp). */
module Fates {
  import opened Tables
  import opened Model
  import opened Cluster
  import opened Eligibility
  import opened Engine
  import W = Wording

  // ----- what a grant stands on -----

  /** The member is still the one it was bound to. */
  predicate MemberAsBound(m: Option<Member>, generation: nat, digest: Digest)
  {
    m.Some? && m.value.lifecycle != Removed && m.value.generation == generation
    && (IsZero(m.value.digest) || m.value.digest == digest)
  }

  /** So is the path, and it can be used and is large enough. */
  predicate PathAsBound(p: Option<Path>, generation: nat, units: nat)
  {
    p.Some? && p.value.generation == generation && units <= p.value.capacity
    && (p.value.state == Operational || p.value.state == DegradedPath || p.value.state == PathMaintenance)
  }

  /** The lifecycles a contract lets its grants' members be in. */
  predicate Tolerates(k: Contract, l: Lifecycle)
  {
    || l == Active
    || (l == Draining && k.allowDraining)
    || (l == Maintenance && k.maintenance != Refuse)
    || (l == Faulted && k.allowFaulted)
    || (l == Partitioned && k.allowPartitioned)
  }

  /** Everything a grant was issued on is still there as it was. */
  predicate Stands(s: Store, g: Grant)
  {
    var b := g.binding;
    var x, y, k := Get(s.spec.members, b.source), Get(s.spec.members, b.destination), Get(s.contracts, b.contract);
    && MemberAsBound(x, b.sourceGeneration, b.sourceDigest)
    && MemberAsBound(y, b.destinationGeneration, b.destinationDigest)
    && PathAsBound(Get(s.spec.paths, b.path), b.pathGeneration, g.units)
    && k.Some? && Tolerates(k.value, x.value.lifecycle) && Tolerates(k.value, y.value.lifecycle)
  }

  /** What is said of a lifecycle that is tolerated but not what the grant was meant for. */
  function Strain(k: Contract, l: Lifecycle): seq<ReasonCode>
  {
    if l == Active || (l == Maintenance && k.maintenance == Allow) then []
    else if l == Maintenance then [DEGRADED_BY_MAINTENANCE]
    else [DEGRADED_BY_MEMBER_STATE]
  }

  /** What a grant that stands puts up with: its source's state, then its destination's. */
  function Strains(s: Store, g: Grant): seq<ReasonCode>
    requires Stands(s, g)
  {
    var k := Get(s.contracts, g.binding.contract).value;
    Strain(k, Get(s.spec.members, g.binding.source).value.lifecycle)
    + Strain(k, Get(s.spec.members, g.binding.destination).value.lifecycle)
  }

  /** The lifecycle as a reason to refuse. */
  function Unfit(l: Lifecycle): ReasonCode
  {
    match l
    case Draining => MEMBER_DRAINING
    case Maintenance => MEMBER_MAINTENANCE
    case Faulted => MEMBER_FAULTED
    case Partitioned => MEMBER_PARTITIONED
    case Removed => MEMBER_DELETED
    case _ => MEMBER_NOT_ACTIVE
  }

  /** The first of what it stood on that is gone: its members, its path, its contract, then their states. */
  function FirstGone(s: Store, g: Grant): ReasonCode
  {
    var b := g.binding;
    var x, y := Get(s.spec.members, b.source), Get(s.spec.members, b.destination);
    var p, k := Get(s.spec.paths, b.path), Get(s.contracts, b.contract);
    if x.None? || y.None? then MEMBER_NOT_FOUND
    else if Removed in {x.value.lifecycle, y.value.lifecycle} then MEMBER_DELETED
    else if (x.value.generation, y.value.generation) != (b.sourceGeneration, b.destinationGeneration) then MEMBER_GENERATION_STALE
    else if !MemberAsBound(x, b.sourceGeneration, b.sourceDigest)
            || !MemberAsBound(y, b.destinationGeneration, b.destinationDigest) then MEMBER_DIGEST_MISMATCH
    else if p.None? then PATH_NOT_FOUND
    else if p.value.generation != b.pathGeneration then PATH_GENERATION_STALE
    else if p.value.state in {Down, UnknownPath} then PATH_NOT_OPERATIONAL
    else if g.units > p.value.capacity then CAPACITY_INSUFFICIENT
    else if k.None? then CONTRACT_NOT_FOUND
    else if !Tolerates(k.value, x.value.lifecycle) then Unfit(x.value.lifecycle)
    else Unfit(y.value.lifecycle)
  }

  // ----- what is noted on a grant -----

  /** A reason is noted once, and no more than 24 are. */
  function Noted(before: seq<ReasonCode>, codes: seq<ReasonCode>): seq<ReasonCode>
    decreases |codes|
  {
    if codes == [] then before
    else Noted(if codes[0] in before || |before| >= 24 then before else before + [codes[0]], codes[1..])
  }

  /** The reasons grew by these codes, the old ones in their place. */
  predicate Notes(a: seq<Reason>, b: seq<Reason>, codes: seq<ReasonCode>)
  {
    a <= b && Codes(b) == Noted(Codes(a), codes)
  }

  lemma AddNotes(a: seq<Reason>, why: Reason)
    requires why.code != NO_REASON
    ensures Notes(a, AddReason(a, why), [why.code])
    ensures Codes(AddReason(a, why)) == Noted(Codes(a), [why.code])
  {
    assert [why.code][1..] == [];
    assert why.code in Codes(a) <==> HasReason(a, why.code) by {
      if HasReason(a, why.code) {
        var i :| 0 <= i < |a| && a[i].code == why.code;
        assert Codes(a)[i] == why.code;
      }
    }
    assert Codes(a + [why]) == Codes(a) + [why.code];
  }

  lemma {:induction false} NotedBoth(before: seq<ReasonCode>, a: seq<ReasonCode>, b: seq<ReasonCode>)
    ensures Noted(before, a + b) == Noted(Noted(before, a), b)
    decreases |a|
  {
    if a == [] {
      assert a + b == b;
    } else {
      assert (a + b)[0] == a[0] && (a + b)[1..] == a[1..] + b;
      NotedBoth(if a[0] in before || |before| >= 24 then before else before + [a[0]], a[1..], b);
    }
  }

  // ----- fates -----

  /** The coordinate a grant is issued under now. */
  predicate IssuedHere(s: Spec, at: Coordinate)
  {
    at.generation == s.generation && at.epoch == s.epoch && at.policy == s.policy && at.incarnation == s.incarnation
  }

  /** Revoked, for the first thing that is gone, and otherwise as it was. */
  predicate Falls(s: Store, a: Grant, b: Grant)
  {
    b == a.(state := Revoked, reserved := false, releaseSeq := b.releaseSeq, reductions := b.reductions)
    && Notes(a.reductions, b.reductions, [FirstGone(s, a)])
  }

  /** Issued again under the present coordinate; degraded when its members are not as they should be. */
  predicate Survives(s: Store, a: Grant, b: Grant)
    requires Stands(s, a)
  {
    var strained := Strains(s, a) != [];
    && IssuedHere(s.spec, b.at) && Notes(a.reductions, b.reductions, Strains(s, a))
    && b == a.(state := Committed, commit := CommitDone, reserved := true, at := b.at, commitSeq := b.commitSeq,
               degraded := a.degraded || strained, outcome := if strained then Degraded else a.outcome, reductions := b.reductions)
  }

  predicate Judged(s: Store, a: Row<Grant>, b: Row<Grant>)
  {
    b.id == a.id && if Stands(s, a.val) then Survives(s, a.val, b.val) else Falls(s, a.val, b.val)
  }

  /** Usable grants are judged and the others left alone. */
  predicate Fate(s: Store, a: Row<Grant>, b: Row<Grant>)
  {
    if a.val.state in {Prepared, Committed, Acknowledged} then Judged(s, a, b) else b == a
  }

  // ----- the engine's judgement -----

  /** A check that passed said exactly these codes. */
  predicate Says(c: Check, codes: seq<ReasonCode>) { c.Go? && Codes(c.degradations) == codes }

  lemma LifecycleSays(l: Lifecycle, k: Contract, words: string)
    ensures Tolerates(k, l) ==> Says(CheckLifecycle(l, k, words), Strain(k, l))
    ensures !Tolerates(k, l) ==> CheckLifecycle(l, k, words) == Fail(Refused, Unfit(l))
  {}

  lemma ThenSays(a: Check, b: Check, x: seq<ReasonCode>, y: seq<ReasonCode>)
    requires Says(a, x) && Says(b, y)
    ensures Says(Then(a, b), x + y)
  {
    assert Codes(a.degradations + b.degradations) == x + y;
  }

  lemma ContractSays(s: Store, x: Member, y: Member, b: Binding)
    ensures var k, c := Get(s.contracts, b.contract), ContractStands(s, x, y, b);
            if k.None? then c.Fail? && c.reason == CONTRACT_NOT_FOUND
            else if !Tolerates(k.value, x.lifecycle) then c.Fail? && c.reason == Unfit(x.lifecycle)
            else if !Tolerates(k.value, y.lifecycle) then c.Fail? && c.reason == Unfit(y.lifecycle)
            else Says(c, Strain(k.value, x.lifecycle) + Strain(k.value, y.lifecycle))
  {
    hide Tolerates, Unfit, Strain, CheckLifecycle, Codes, Get, W.MemberNow, Says;
    var k := Get(s.contracts, b.contract);
    if k.Some? {
      var cx := CheckLifecycle(x.lifecycle, k.value, W.MemberNow(b.source, x.lifecycle));
      var cy := CheckLifecycle(y.lifecycle, k.value, W.MemberNow(b.destination, y.lifecycle));
      LifecycleSays(x.lifecycle, k.value, W.MemberNow(b.source, x.lifecycle));
      LifecycleSays(y.lifecycle, k.value, W.MemberNow(b.destination, y.lifecycle));
      if Tolerates(k.value, x.lifecycle) {
        SaysGo(cx, Strain(k.value, x.lifecycle));
        if Tolerates(k.value, y.lifecycle) {
          ThenSays(cx, cy, Strain(k.value, x.lifecycle), Strain(k.value, y.lifecycle));
        }
      }
    }
  }

  lemma SaysGo(c: Check, codes: seq<ReasonCode>)
    requires Says(c, codes)
    ensures c.Go? && Codes(c.degradations) == codes
  {}

  /** The engine's check is the list above. */
  lemma StandingIs(s: Store, g: Grant)
    ensures Standing(s, g).Go? <==> Stands(s, g)
    ensures Stands(s, g) ==> Says(Standing(s, g), Strains(s, g))
    ensures !Stands(s, g) ==> Standing(s, g).Fail? && Standing(s, g).reason == FirstGone(s, g) && FirstGone(s, g) != NO_REASON
  {
    hide LowerBound, ContractStands, Unfit, Tolerates, Strain, Codes, IsZero, Has;
    GetHas(s.spec.members, g.binding.source);
    GetHas(s.spec.members, g.binding.destination);
    GetHas(s.spec.paths, g.binding.path);
    if Has(s.spec.members, g.binding.source) && Has(s.spec.members, g.binding.destination) {
      var x, y := Get(s.spec.members, g.binding.source).value, Get(s.spec.members, g.binding.destination).value;
      ContractSays(s, x, y, g.binding);
      UnfitIs(x.lifecycle);
      UnfitIs(y.lifecycle);
    }
  }

  lemma GetHas<T>(t: Table<T>, id: Id)
    ensures Has(t, id) <==> Get(t, id).Some?
  {}

  lemma UnfitIs(l: Lifecycle)
    ensures Unfit(l) != NO_REASON
  {}

  lemma {:induction false} SoftenIs(g: Grant, ds: seq<Reason>)
    requires forall i :: 0 <= i < |ds| ==> ds[i].code != NO_REASON
    ensures var r := Soften(g, ds);
            && Notes(g.reductions, r.reductions, Codes(ds))
            && r == g.(degraded := g.degraded || ds != [], outcome := if ds != [] then Degraded else g.outcome,
                       reductions := r.reductions)
    decreases |ds|
  {
    hide Codes, Noted, AddReason;
    NotesNothing(g.reductions);
    if ds != [] {
      var h := g.(reductions := AddReason(g.reductions, ds[0]), degraded := true, outcome := Degraded);
      SoftenIs(h, ds[1..]);
      AddNotes(g.reductions, ds[0]);
      CodesSplit(ds);
      NotedBoth(Codes(g.reductions), [ds[0].code], Codes(ds[1..]));
    } else {
      CodesEmpty(ds);
    }
  }

  lemma CodesEmpty(ds: seq<Reason>)
    ensures ds == [] <==> Codes(ds) == []
  {}

  lemma NotesNothing(a: seq<Reason>)
    ensures Notes(a, a, [])
  {}

  lemma CodesSplit(ds: seq<Reason>)
    requires ds != []
    ensures Codes(ds) == [ds[0].code] + Codes(ds[1..])
  {}

  lemma StrainCodes(s: Store, g: Grant, ds: seq<Reason>)
    requires Stands(s, g) && Codes(ds) == Strains(s, g)
    ensures forall i :: 0 <= i < |ds| ==> ds[i].code != NO_REASON
  {
    hide Stands;
    forall i | 0 <= i < |ds| ensures ds[i].code != NO_REASON { assert Codes(ds)[i] == ds[i].code; }
  }

  /** The number of the next record. */
  function NextNumber(c: Core): nat { if c.log == [] then 0 else c.log[|c.log| - 1].sequence + 1 }

  /** One record more, under the next number and the present time. */
  predicate OneRecord(c: Core, d: Core, b: Body)
  {
    d.log == c.log + [Entry(NextNumber(c), c.store.tick, b)]
  }

  /** A judgement is written down before it is entered: the record has everything but its own position. */
  predicate JudgementRecorded(c: Core, d: Core, a: Row<Grant>, b: Row<Grant>)
  {
    if Stands(c.store, a.val) then
      b.val.commitSeq == NextNumber(c)
      && OneRecord(c, d, GrantRecord(CommittedRecord, a.id, b.val.(commitSeq := a.val.commitSeq), Committed))
    else
      b.val.releaseSeq == NextNumber(c)
      && OneRecord(c, d, GrantRecord(TerminalRecord, a.id, b.val.(releaseSeq := a.val.releaseSeq), Revoked))
  }

  lemma RevalidateFate(c: Core, i: nat)
    requires i < |c.store.grants|
    ensures JudgementRecorded(c, Revalidate(c, i), c.store.grants[i], Revalidate(c, i).store.grants[i])
    ensures var r := Revalidate(c, i);
            && r.store == c.store.(grants := r.store.grants) && |r.store.grants| == |c.store.grants|
            && r.options == c.options && r.grantSerial == c.grantSerial && r.leaseSerial == c.leaseSerial
            && Judged(c.store, c.store.grants[i], r.store.grants[i])
            && forall j :: 0 <= j < |c.store.grants| && j != i ==> r.store.grants[j] == c.store.grants[j]
  {
    hide Standing, Stands, Strains, FirstGone, Notes, FallWords, AddReason, Soften, Codes;
    var g := c.store.grants[i].val;
    StandingIs(c.store, g);
    if Stands(c.store, g) {
      var ds := Standing(c.store, g).degradations;
      StrainCodes(c.store, g, ds);
      SoftenIs(g, ds);
      CodesEmpty(ds);
    } else {
      AddNotes(g.reductions, Reason(FirstGone(c.store, g), FallWords(c.store, g)));
    }
  }

  lemma FateAlike(s: Store, t: Store, a: Row<Grant>, b: Row<Grant>)
    requires t.spec == s.spec && t.contracts == s.contracts
    ensures Judged(t, a, b) == Judged(s, a, b) && Fate(t, a, b) == Fate(s, a, b)
  {
    hide Get, MemberAsBound, PathAsBound, Tolerates, Strain, Notes;
  }

  /** Revalidating judges each usable grant by the tables as they are. */
  lemma {:induction false} RevalidateFates(c: Core, i: nat)
    ensures var r := RevalidateFrom(c, i);
            && r.store == c.store.(grants := r.store.grants) && |r.store.grants| == |c.store.grants|
            && r.options == c.options && r.grantSerial == c.grantSerial && r.leaseSerial == c.leaseSerial
            && (forall j :: 0 <= j < |c.store.grants| && j < i ==> r.store.grants[j] == c.store.grants[j])
            && forall j :: i <= j < |c.store.grants| ==> Fate(c.store, c.store.grants[j], r.store.grants[j])
    decreases |c.store.grants| - i
  {
    hide Revalidate, Judged;
    if i < |c.store.grants| {
      if IsLive(c.store.grants[i].val.state) {
        var d := Revalidate(c, i);
        RevalidateFate(c, i);
        RevalidateFates(d, i + 1);
        var r := RevalidateFrom(d, i + 1);
        forall j | i < j < |c.store.grants| ensures Fate(c.store, c.store.grants[j], r.store.grants[j]) {
          assert Fate(d.store, d.store.grants[j], r.store.grants[j]);
          FateAlike(c.store, d.store, c.store.grants[j], r.store.grants[j]);
        }
      } else {
        RevalidateFates(c, i + 1);
      }
    }
  }
}
