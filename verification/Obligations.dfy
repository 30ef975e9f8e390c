/** Capacity obligations said with sets of failure domains and true sums: which requests they refuse and which they soften
    (src/authority.cpp). */
module Obligations {
  import opened Tables
  import opened Model
  import opened Cluster
  import opened Accounting
  import opened Eligibility
  import opened Verdicts
  import Fates
  import W = Wording

  // ----- domains -----

  /** The failure domain a grant serves, at the level the obligation asks about. */
  function DomainOf(s: Spec, g: Grant, o: Obligation): Option<string>
  {
    match Get(s.members, g.binding.destination)
    case None => None
    case Some(m) => Some(DomainKey(m.locality, o.level))
  }

  /** Units a grant provides towards an obligation in one domain. */
  function Provides(s: Spec, g: Grant, o: Obligation, domain: string): nat
  {
    if g.state in {Committed, Acknowledged, Ambiguous} && g.binding.destinationService == o.service
       && DomainOf(s, g, o) == Some(domain) then g.units else 0
  }

  ghost function UnitsIn(t: Table<Grant>, s: Spec, o: Obligation, domain: string): nat
  {
    if t == [] then 0 else UnitsIn(t[..|t| - 1], s, o, domain) + Provides(s, t[|t| - 1].val, o, domain)
  }

  ghost function DomainsServed(t: Table<Grant>, s: Spec, o: Obligation): set<string>
  {
    set i | 0 <= i < |t| && DomainOf(s, t[i].val, o).Some? :: DomainOf(s, t[i].val, o).value
  }

  /** The domains that have what an obligation asks for in each, with some units more in one of them. */
  ghost function Supplied(v: View, o: Obligation, domain: string, more: nat): set<string>
  {
    set d | d in DomainsServed(v.grants, v.spec, o) + {domain} && Suffices(v, o, domain, more, d)
  }

  ghost predicate Suffices(v: View, o: Obligation, domain: string, more: nat, d: string)
  {
    var n := UnitsIn(v.grants, v.spec, o, d) + (if d == domain then more else 0);
    n > 0 && n >= o.minUnits
  }

  /** The obligation is of this service, and too few domains have enough with these units there. */
  ghost predicate Short(v: View, o: Obligation, service: Id, domain: string, units: nat)
  {
    o.enabled && o.service == service && |Supplied(v, o, domain, units)| < o.minDomains
  }

  /** The units bring no further domain to what is asked. */
  ghost predicate NoBetter(v: View, o: Obligation, domain: string, units: nat)
  {
    |Supplied(v, o, domain, units)| <= |Supplied(v, o, domain, 0)|
  }

  // ----- the engine's map is these sums -----

  function In(m: map<string, nat>, d: string): nat { if d in m then m[d] else 0 }

  lemma {:induction false} PerDomainIs(t: Table<Grant>, s: Spec, o: Obligation, d: string)
    ensures In(PerDomain(t, s, o), d) == Saturated(UnitsIn(t, s, o, d))
    ensures d in PerDomain(t, s, o) ==> d in DomainsServed(t, s, o)
    ensures d !in DomainsServed(t, s, o) ==> UnitsIn(t, s, o, d) == 0
  {
    hide DomainKey, LowerBound, DomainsServed;
    if t != [] {
      PerDomainIs(t[..|t| - 1], s, o, d);
      ServedGrows(t, s, o, d);
    }
  }

  lemma ServedGrows(t: Table<Grant>, s: Spec, o: Obligation, d: string)
    requires t != []
    ensures d in DomainsServed(t, s, o) <==> d in DomainsServed(t[..|t| - 1], s, o) || DomainOf(s, t[|t| - 1].val, o) == Some(d)
  {
    hide DomainOf;
    var n := |t| - 1;
    if d in DomainsServed(t[..n], s, o) {
      var i :| 0 <= i < n && DomainOf(s, t[..n][i].val, o) == Some(d);
      assert t[i] == t[..n][i];
    }
  }

  lemma {:induction false} UnitsBound(t: Table<Grant>, s: Spec, o: Obligation, d: string)
    requires forall i :: 0 <= i < |t| ==> t[i].val.units <= MAX_UNITS
    ensures UnitsIn(t, s, o, d) <= |t| * MAX_UNITS
  {
    hide DomainOf;
    if t != [] {
      assert t[|t| - 1].val.units <= MAX_UNITS;
      UnitsBound(t[..|t| - 1], s, o, d);
    }
  }

  lemma SumIsTrue(t: Table<Grant>, s: Spec, o: Obligation, d: string, units: nat)
    requires UnitsBounded(t) && units <= MAX_UNITS
    ensures UnitsIn(t, s, o, d) + units < U64_MAX
  {
    UnitsBound(t, s, o, d);
    assert |t| * MAX_UNITS <= MAX_GRANTS * MAX_UNITS;
  }

  /** The count of the map is the size of the set. */
  lemma MeetingIs(v: View, o: Obligation, domain: string, units: nat)
    requires UnitsBounded(v.grants) && units <= MAX_UNITS
    ensures var m := PerDomain(v.grants, v.spec, o);
            && Meeting(m, o) == |Supplied(v, o, domain, 0)|
            && Meeting(m[domain := Saturated(In(m, domain) + units)], o) == |Supplied(v, o, domain, units)|
  {
    hide PerDomain, UnitsIn, DomainsServed, Provides;
    var m := PerDomain(v.grants, v.spec, o);
    var n := m[domain := Saturated(In(m, domain) + units)];
    var before, after := (set d | d in m && m[d] > 0 && m[d] >= o.minUnits), (set d | d in n && n[d] > 0 && n[d] >= o.minUnits);
    forall d ensures (d in before <==> d in Supplied(v, o, domain, 0)) && (d in after <==> d in Supplied(v, o, domain, units)) {
      PerDomainIs(v.grants, v.spec, o, d);
      SumIsTrue(v.grants, v.spec, o, d, units);
    }
    assert before == Supplied(v, o, domain, 0) && after == Supplied(v, o, domain, units);
  }

  // ----- what the engine says of each obligation -----

  ghost function ObligationObjection(v: View, o: Obligation, service: Id, domain: string, units: nat): Objection
  {
    Objection(Short(v, o, service, domain, units) && NoBetter(v, o, domain, units), Refused, CONTRACT_UNSATISFIED)
  }

  ghost function ObligationSoftening(v: View, o: Obligation, service: Id, domain: string, units: nat): Softening
  {
    Softening(Short(v, o, service, domain, units), DEGRADED_BY_REDUNDANCY_LOSS)
  }

  lemma ObligationRaises(v: View, id: Id, o: Obligation, service: Id, domain: string, units: nat)
    requires UnitsBounded(v.grants) && units <= MAX_UNITS
    ensures Raises(CheckObligation(v, id, o, service, domain, units), [ObligationObjection(v, o, service, domain, units)],
                   [ObligationSoftening(v, o, service, domain, units)])
  {
    hide PerDomain, Meeting, Supplied, FirstOf, Applying, W.Unmet;
    MeetingIs(v, o, domain, units);
    OneFirst(ObligationObjection(v, o, service, domain, units));
    OneApplies(ObligationSoftening(v, o, service, domain, units));
  }

  ghost function ObligationObjections(v: View, t: Table<Obligation>, service: Id, domain: string, units: nat): (os: seq<Objection>)
    ensures |os| == |t|
  {
    seq(|t|, i requires 0 <= i < |t| => ObligationObjection(v, t[i].val, service, domain, units))
  }

  ghost function ObligationSoftenings(v: View, t: Table<Obligation>, service: Id, domain: string, units: nat): (ss: seq<Softening>)
    ensures |ss| == |t|
  {
    seq(|t|, i requires 0 <= i < |t| => ObligationSoftening(v, t[i].val, service, domain, units))
  }

  lemma {:induction false} ObligationsRaise(v: View, t: Table<Obligation>, service: Id, domain: string, units: nat)
    requires UnitsBounded(v.grants) && units <= MAX_UNITS
    ensures Raises(CheckObligations(v, t, service, domain, units), ObligationObjections(v, t, service, domain, units),
                   ObligationSoftenings(v, t, service, domain, units))
  {
    hide CheckObligation, ObligationObjection, ObligationSoftening, Then;
    if t != [] {
      hide Raises;
      ObligationRaises(v, t[0].id, t[0].val, service, domain, units);
      ObligationsRaise(v, t[1..], service, domain, units);
      var os, ss := ObligationObjections(v, t[1..], service, domain, units), ObligationSoftenings(v, t[1..], service, domain, units);
      ThenRaises(CheckObligation(v, t[0].id, t[0].val, service, domain, units), CheckObligations(v, t[1..], service, domain, units),
                 [ObligationObjection(v, t[0].val, service, domain, units)], os,
                 [ObligationSoftening(v, t[0].val, service, domain, units)], ss);
      assert ObligationObjections(v, t, service, domain, units) == [ObligationObjection(v, t[0].val, service, domain, units)] + os;
      assert ObligationSoftenings(v, t, service, domain, units) == [ObligationSoftening(v, t[0].val, service, domain, units)] + ss;
    }
  }

  /** Some obligation stays short and is not helped. */
  ghost predicate NotHelped(v: View, service: Id, domain: string, units: nat)
  {
    exists i :: 0 <= i < |v.spec.obligations| && Short(v, v.spec.obligations[i].val, service, domain, units)
                && NoBetter(v, v.spec.obligations[i].val, domain, units)
  }

  lemma {:induction false} SomeObjection(os: seq<Objection>, outcome: Outcome, reason: ReasonCode)
    requires forall i :: 0 <= i < |os| ==> os[i].outcome == outcome && os[i].reason == reason
    ensures FirstOf(os) == if exists i :: 0 <= i < |os| && os[i].applies then Some(Objection(true, outcome, reason)) else None
  {
    if os != [] {
      SomeObjection(os[1..], outcome, reason);
      assert forall i :: 1 <= i < |os| ==> os[i] == os[1..][i - 1];
      if i :| 0 <= i < |os[1..]| && os[1..][i].applies { assert os[i + 1].applies; }
    }
  }

  /** All obligations together: refused exactly when one stays short and the number of domains that have enough does not
      grow, and else softened once for each that stays short. */
  lemma AllObligationsRaise(v: View, service: Id, domain: string, units: nat)
    requires UnitsBounded(v.grants) && units <= MAX_UNITS
    ensures Raises(CheckObligations(v, v.spec.obligations, service, domain, units),
                   [Objection(NotHelped(v, service, domain, units), Refused, CONTRACT_UNSATISFIED)],
                   ObligationSoftenings(v, v.spec.obligations, service, domain, units))
  {
    hide CheckObligations, Short, NoBetter, Applying;
    var os := ObligationObjections(v, v.spec.obligations, service, domain, units);
    ObligationsRaise(v, v.spec.obligations, service, domain, units);
    SomeObjection(os, Refused, CONTRACT_UNSATISFIED);
    OneFirst(Objection(NotHelped(v, service, domain, units), Refused, CONTRACT_UNSATISFIED));
    if NotHelped(v, service, domain, units) {
      var i :| 0 <= i < |v.spec.obligations| && Short(v, v.spec.obligations[i].val, service, domain, units)
               && NoBetter(v, v.spec.obligations[i].val, domain, units);
      assert os[i].applies;
    }
  }
}
