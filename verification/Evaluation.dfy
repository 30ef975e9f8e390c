/** The loops of `AuthorityCore::evaluate` and `select_path`, each proved to compute what the
    specification functions of `Eligibility` say (src/authority.cpp). */
module Evaluation {
  import opened Tables
  import opened Model
  import opened Cluster
  import opened Accounting
  import opened Eligibility
  import V = Verdicts
  import O = Obligations
  import D = Decisions
  import W = Wording

  // ----- path selection -----

  function Better(a: Option<Row<Path>>, b: Option<Row<Path>>): Option<Row<Path>>
  {
    if a.None? then b else if b.None? then a else if Less(b.value.id, a.value.id) then b else a
  }

  lemma BetterAssociates(a: Option<Row<Path>>, b: Option<Row<Path>>, c: Option<Row<Path>>)
    ensures Better(Better(a, b), c) == Better(a, Better(b, c))
  {
    if a.Some? && b.Some? && c.Some? {
      var x, y, z := a.value.id, b.value.id, c.value.id;
      LessTotal(x, y);
      LessTotal(y, z);
      LessTotal(x, z);
      if Less(y, x) && Less(z, y) { LessTransitive(z, y, x); }
      if Less(x, y) && Less(y, z) { LessTransitive(x, y, z); LessNotBack(x, z); }
      if Less(x, y) { LessNotBack(x, y); }
      if Less(y, z) { LessNotBack(y, z); }
      if Less(x, z) { LessNotBack(x, z); }
    }
  }

  lemma LessNotBack(a: Id, b: Id)
    requires Less(a, b)
    ensures !Less(b, a)
  {
    if Less(b, a) {
      LessTransitive(a, b, a);
      LessIrreflexive(a);
    }
  }

  /** `select_path`: one pass over the declared paths, keeping the best so far. */
  method SelectBest(t: Table<Path>, r: Request) returns (best: Option<Row<Path>>)
    ensures best == SelectPath(t, r)
  {
    best := None;
    for i := 0 to |t|
      invariant Better(best, SelectPath(t[i..], r)) == SelectPath(t, r)
    {
      ghost var before := best;
      ghost var rest := SelectPath(t[i + 1..], r);
      assert t[i..][1..] == t[i + 1..];
      if Selectable(t[i].val, r) {
        if best.None? || Less(t[i].id, best.value.id) { best := Some(t[i]); }
        assert SelectPath(t[i..], r) == Better(Some(t[i]), rest);
        BetterAssociates(before, Some(t[i]), rest);
      }
    }
  }

  // ----- exclusivity -----

  /** The scan over the holders of an exclusive path. */
  method FindOtherHolder(t: Table<Grant>, path: Id, attempt: Id, skip: Option<Id>) returns (found: bool)
    ensures found == OtherHolder(t, path, attempt, skip)
  {
    for i := 0 to |t|
      invariant !OtherHolder(t[..i], path, attempt, skip)
    {
      var g := t[i].val;
      if g.binding.path == path && HoldsCapacity(g.state) && g.binding.attempt != attempt && skip != Some(t[i].id) {
        return true;
      }
      assert forall j :: 0 <= j < |t[..i + 1]| ==> t[..i + 1][j] == if j < i then t[..i][j] else t[i];
    }
    assert t[..|t|] == t;
    return false;
  }

  // ----- capacity -----

  predicate Within64(t: Table<Grant>)
  {
    forall i :: 0 <= i < |t| ==> t[i].val.units <= U64_MAX
  }

  method EvaluatePath(v: View, r: Request, k: Contract, p: Option<Row<Path>>, want: nat) returns (u: Units)
    requires Within64(v.grants)
    ensures u == PathStage(v, r, k, p, want)
  {
    hide W.FreeOf, Held, OtherHolder;
    if p.None? || !v.options.enforceCapacity { return SomeUnits(want, []); }
    var path := p.value;
    if path.val.exclusive {
      var other := FindOtherHolder(v.grants, path.id, r.attempt, if r.renewal then Some(r.renewalOf) else None);
      if other { return NoUnits(Conflicting, PATH_ALREADY_BOUND); }
    }
    var committed := SumHeld(v.grants, OnPath(path.id), Skip(r));
    var available := if path.val.capacity > committed then path.val.capacity - committed else 0;
    if want > available {
      if available > 0 && available >= k.minUnits && k.allowDegraded && r.allowDegraded {
        return SomeUnits(available, [Reason(DEGRADED_BY_CAPACITY, W.FreeOf("path ", path.id, available, path.val.capacity))]);
      }
      return NoUnits(Refused, CAPACITY_EXHAUSTED);
    }
    return SomeUnits(want, []);
  }

  method FindOwned(rs: seq<Resource>, id: Id) returns (x: Option<Resource>)
    ensures x == FindResource(rs, id)
  {
    for i := 0 to |rs|
      invariant FindResource(rs[i..], id) == FindResource(rs, id)
    {
      if rs[i].id == id { return Some(rs[i]); }
      assert rs[i..][1..] == rs[i + 1..];
    }
    return None;
  }

  method EvaluateResource(v: View, r: Request, k: Contract, s: Member, p: Option<Row<Path>>, units: nat)
    returns (u: Units)
    requires Within64(v.grants)
    ensures u == ResourceStage(v, r, k, s, p, units)
  {
    hide W.FreeOf, Held, FindResource;
    if r.resource != [] {
      var x := FindOwned(s.resources, r.resource);
      if x.None? { return NoUnits(Unknown, RESOURCE_NOT_FOUND); }
      if r.reservationGeneration != x.value.generation { return NoUnits(Stale, RESERVATION_GENERATION_STALE); }
      if !x.value.reservable { return NoUnits(Refused, CONTRACT_UNSATISFIED); }
      if !v.options.enforceCapacity { return SomeUnits(units, []); }
      var reserved := SumHeld(v.grants, OnResource(x.value.id), Skip(r));
      var available := if x.value.total > reserved then x.value.total - reserved else 0;
      if units > available {
        if available > 0 && available >= k.minUnits && k.allowDegraded && r.allowDegraded {
          return SomeUnits(available, [Reason(DEGRADED_BY_CAPACITY, W.FreeOf("resource ", x.value.id, available, x.value.total))]);
        }
        return NoUnits(Refused, CAPACITY_EXHAUSTED);
      }
      return SomeUnits(units, []);
    }
    if v.options.enforceCapacity && r.units > 0 && p.Some? && p.value.val.resources != [] {
      return NoUnits(Incomplete, RESERVATION_GENERATION_MISSING);
    }
    return SomeUnits(units, []);
  }

  method EvaluateCapacity(v: View, r: Request, k: Contract, s: Member, p: Option<Row<Path>>) returns (u: Units)
    requires Within64(v.grants)
    ensures u == CapacityStage(v, r, k, s, p)
  {
    var want := if r.units == 0 then k.minUnits else r.units;
    var soft: seq<Reason> := [];
    if k.maxUnits != 0 && want > k.maxUnits {
      soft := [Reason(DEGRADED_BY_CAPACITY, W.Ceiling(k.maxUnits))];
      want := k.maxUnits;
    }
    if want < k.minUnits { return NoUnits(Refused, CAPACITY_INSUFFICIENT); }
    var a := EvaluatePath(v, r, k, p, want);
    if a.NoUnits? { return a; }
    var b := EvaluateResource(v, r, k, s, p, a.units);
    if b.NoUnits? { return b; }
    return SomeUnits(b.units, soft + a.degradations + b.degradations);
  }

  // ----- obligations -----

  method CountPerDomain(t: Table<Grant>, s: Spec, o: Obligation) returns (m: map<string, nat>)
    ensures m == PerDomain(t, s, o)
  {
    m := map[];
    for i := 0 to |t|
      invariant m == PerDomain(t[..i], s, o)
    {
      assert t[..i + 1][..i] == t[..i];
      var g := t[i].val;
      if !HoldsCapacity(g.state) || g.binding.destinationService != o.service { continue; }
      var holder := Get(s.members, g.binding.destination);
      if holder.None? { continue; }
      var key := DomainKey(holder.value.locality, o.level);
      m := m[key := Saturated((if key in m then m[key] else 0) + g.units)];
    }
    assert t[..|t|] == t;
  }

  method EvaluateObligations(v: View, t: Table<Obligation>, service: Id, key: string, units: nat) returns (c: Check)
    ensures c == CheckObligations(v, t, service, key, units)
    ensures UnitsBounded(v.grants) && units <= MAX_UNITS ==>
              V.Raises(c, O.ObligationObjections(v, t, service, key, units), O.ObligationSoftenings(v, t, service, key, units))
  {
    hide V.Raises, O.ObligationObjections, O.ObligationSoftenings, UnitsBounded, CheckObligations, PerDomain, Meeting;
    if UnitsBounded(v.grants) && units <= MAX_UNITS { O.ObligationsRaise(v, t, service, key, units); }
    var soft: seq<Reason> := [];
    assert t[0..] == t;
    SkipThen(soft, CheckObligations(v, t, service, key, units));
    for i := 0 to |t|
      invariant Then(Go(soft), CheckObligations(v, t[i..], service, key, units))
                == CheckObligations(v, t, service, key, units)
    {
      var o := t[i].val;
      OneMore(v, t, i, service, key, units);
      ghost var rest := CheckObligations(v, t[i + 1..], service, key, units);
      ghost var one := CheckObligation(v, t[i].id, o, service, key, units);
      if !o.enabled || o.service != service { SkipThen(soft, rest); continue; }
      var before := CountPerDomain(v.grants, v.spec, o);
      var after := before[key := Saturated((if key in before then before[key] else 0) + units)];
      if Meeting(after, o) < o.minDomains {
        if Meeting(after, o) <= Meeting(before, o) {
          assert one == Fail(Refused, CONTRACT_UNSATISFIED);
          return Fail(Refused, CONTRACT_UNSATISFIED);
        }
        assert one == Go([Reason(DEGRADED_BY_REDUNDANCY_LOSS, W.Unmet(t[i].id))]);
        AddThen(soft, Reason(DEGRADED_BY_REDUNDANCY_LOSS, W.Unmet(t[i].id)), rest);
        soft := soft + [Reason(DEGRADED_BY_REDUNDANCY_LOSS, W.Unmet(t[i].id))];
      } else {
        SkipThen(soft, rest);
      }
    }
    NoMore(v, t, service, key, units);
    return Go(soft);
  }

  lemma OneMore(v: View, t: Table<Obligation>, i: nat, service: Id, key: string, units: nat)
    requires i < |t|
    ensures CheckObligations(v, t[i..], service, key, units)
            == Then(CheckObligation(v, t[i].id, t[i].val, service, key, units), CheckObligations(v, t[i + 1..], service, key, units))
  {
    hide CheckObligation;
    assert t[i..][0] == t[i] && t[i..][1..] == t[i + 1..];
  }

  lemma NoMore(v: View, t: Table<Obligation>, service: Id, key: string, units: nat)
    ensures CheckObligations(v, t[|t|..], service, key, units) == Go([])
  {}

  lemma SkipThen(soft: seq<Reason>, rest: Check)
    ensures Then(Go(soft), Then(Go([]), rest)) == Then(Go(soft), rest)
  {
    if rest.Go? { assert [] + rest.degradations == rest.degradations; }
  }

  lemma AddThen(soft: seq<Reason>, why: Reason, rest: Check)
    ensures Then(Go(soft), Then(Go([why]), rest)) == Then(Go(soft + [why]), rest)
  {
    if rest.Go? { assert soft + ([why] + rest.degradations) == soft + [why] + rest.degradations; }
  }

  /** `evaluate`. */
  method EvaluateRequest(v: View, r: Request, k: Contract) returns (e: Verdict)
    requires Within64(v.grants)
    ensures e == Evaluate(v, r, k)
    ensures D.Measured(v, r, k) ==> D.VerdictIs(v, r, k, e)
  {
    hide D.Measured, D.VerdictIs;
    if D.Measured(v, r, k) { D.EvaluationExact(v, r, k); }
    var source, destination := Get(v.spec.members, r.source), Get(v.spec.members, r.destination);
    if source.None? || destination.None? { return Deny(Unknown, MEMBER_NOT_FOUND); }
    var s, d := source.value, destination.value;
    var c := CheckEligible(v, s, d, r, k);
    if c.Fail? { return Deny(c.outcome, c.reason); }
    var p: Option<Row<Path>> := None;
    if r.path != [] {
      var named := Get(v.spec.paths, r.path);
      if named.Some? { p := Some(Row(r.path, named.value)); }
    } else if v.options.requirePath {
      p := SelectBest(v.spec.paths, r);
    }
    var u := EvaluateCapacity(v, r, k, s, p);
    if u.NoUnits? { return Deny(u.outcome, u.reason); }
    var o := EvaluateObligations(v, v.spec.obligations, k.destinationService, DomainKey(d.locality, k.level), u.units);
    var late := Then(o, CheckRenewal(v, r));
    if late.Fail? { return Deny(late.outcome, late.reason); }
    var x: Option<Resource> := None;
    if r.resource != [] { x := FindOwned(s.resources, r.resource); }
    return Pass(u.units, c.degradations + u.degradations + late.degradations, p, x, Domains(s, d, k.level));
  }
}
