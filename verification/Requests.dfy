/** When a request is well formed and when it is made for the present moment (src/request.cpp, src/authority.cpp). */
module Requests {
  import opened Tables
  import opened Model
  import opened Text
  import opened Cluster
  import opened Eligibility
  import opened Engine

  // ----- the form of a request -----

  predicate Complete(r: Request)
  {
    [] !in {r.id, r.contract, r.cluster, r.source, r.destination, r.attempt}
    && (r.source == r.destination && r.sourceEndpoint == r.destinationEndpoint ==> r.sourceEndpoint == [])
  }

  /** A renewal, and nothing else, names the grant and the lease it renews. */
  predicate RenewalNamed(r: Request)
  {
    (r.renewal <==> r.renewalOf != []) && (r.renewal <==> r.renewalLease != [])
  }

  predicate TextsValid(r: Request) { IsUtf8(r.provenance.origin) && IsUtf8(r.provenance.correlation) }

  predicate AmountsBounded(r: Request) { r.units <= 0x100_0000_0000 && r.lease <= 0x1_0000_0000 }

  predicate TextsBounded(r: Request) { |r.provenance.origin| <= 128 && |r.provenance.correlation| <= 128 }

  predicate WellFormed(r: Request)
  {
    Complete(r) && AmountsBounded(r) && RenewalNamed(r) && TextsValid(r) && TextsBounded(r)
  }

  /** Of a request that is not, the first thing wrong is that something is too large. */
  predicate TooLarge(r: Request)
  {
    Complete(r) && (!AmountsBounded(r) || (RenewalNamed(r) && TextsValid(r)))
  }

  lemma ShapeIs(r: Request)
    ensures RequestShape(r) == if WellFormed(r) then Ok else if TooLarge(r) then LimitExceeded else InvalidArgument
  {
    hide IsUtf8;
  }

  // ----- the coordinate -----

  /** Made for this cluster, against exactly the controller's present coordinate. */
  predicate ForNow(c: Core, r: Request)
  {
    var s := c.store.spec;
    && r.cluster == s.id && r.at.generation == s.generation && r.at.epoch == s.epoch
    && r.at.policy == s.policy && r.at.incarnation == s.incarnation
  }

  lemma FenceIs(s: Spec, r: Request)
    requires s.id != []
    ensures FenceCheck(s, r) ==
              if r.cluster != s.id then Fail(Unknown, CLUSTER_NOT_FOUND)
              else if r.at.generation > s.generation then Fail(Invalid, CLUSTER_GENERATION_AHEAD)
              else if r.at.generation < s.generation then Fail(Stale, CLUSTER_GENERATION_STALE)
              else if r.at.epoch > s.epoch then Fail(Invalid, EPOCH_AHEAD)
              else if r.at.epoch < s.epoch then Fail(FencedOut, EPOCH_STALE)
              else if r.at.incarnation != s.incarnation then Fail(FencedOut, INCARNATION_STALE)
              else if r.at.policy != s.policy then Fail(Stale, POLICY_GENERATION_STALE)
              else Go([])
  {}

  /** Whatever a submission changes, and whatever grant it is told of, it was well formed and made for now. */
  lemma OnlyForNow(c: Core, r: Request)
    requires hide Submit; c.store.spec.id != []
    ensures var out := Submit(c, r);
            out.0 != c || out.1.grant.Some? || out.1.outcome == Granted || out.1.outcome == Degraded
            ==> WellFormed(r) && ForNow(c, r)
  {
    hide RequestShape, FenceCheck, ReplayAttempt, ContractCheck, Renew, Admit, WellFormed, TooLarge;
    ShapeIs(r);
    FenceIs(c.store.spec, r);
  }
}
