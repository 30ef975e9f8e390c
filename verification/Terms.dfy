/** What a client is told and what it gets: the terms of minted and renewed grants, and that the answers of
    different operations agree. */
module Terms {
  import opened Tables
  import opened Model
  import opened Cluster
  import opened Accounting
  import opened Eligibility
  import opened Engine
  import opened Requests
  import opened Safety
  import opened Durability
  import opened Invariant
  import opened Submission
  import opened Runs
  import opened Ledger
  import opened Guarantees

  /** The lease runs for exactly this many ticks from now; for none, it never ends. */
  ghost predicate LeasedFor(g: Grant, now: nat, ticks: nat)
  {
    forall t: nat :: ExpiredAt(g, t) <==> ticks > 0 && t >= now + ticks
  }

  /** A grant says what the request asked and the cluster declares at this moment. */
  ghost predicate OnTerms(c: Core, r: Request, k: Contract, g: Grant)
  {
    && g.binding.attempt == r.attempt && g.binding.contract == r.contract
    && g.binding.source == r.source && g.binding.destination == r.destination
    && g.binding.sourceGeneration == r.sourceGeneration && g.binding.destinationGeneration == r.destinationGeneration
    && g.binding.provenance == r.provenance
    && AmountOnTerms(c, r, k, g)
  }

  /** What one limit leaves for a request, by the true sum of what others hold under it. */
  function Leaves(c: Core, capacity: nat, key: Key, r: Request): nat
  {
    Free(capacity, Held(c.store.grants, key, Skip(r)))
  }

  /** The least of the want and of what the limits that apply leave. */
  function TrueOffer(c: Core, r: Request, k: Contract): nat
  {
    var p, m := ChosenPath(ViewOf(c), r), Get(c.store.spec.members, r.source);
    var a := if p.Some? && c.options.enforceCapacity
             then Min(Want(r, k), Leaves(c, p.value.val.capacity, OnPath(p.value.id), r)) else Want(r, k);
    var x := if m.Some? then FindResource(m.value.resources, r.resource) else None;
    if r.resource != [] && x.Some? && c.options.enforceCapacity
    then Min(a, Leaves(c, x.value.total, OnResource(x.value.id), r)) else a
  }

  lemma OfferIsTrue(c: Core, r: Request, k: Contract, care: Care)
    requires hide Reachable; Reachable(c, care) && Has(c.store.spec.members, r.source)
    ensures Offer(ViewOf(c), r, k, Get(c.store.spec.members, r.source).value, ChosenPath(ViewOf(c), r)) == TrueOffer(c, r, k)
  {
    hide Reachable, FindResource, ChosenPath, Want, LowerBound, Held, Saturated;
    var p, x := ChosenPath(ViewOf(c), r), FindResource(Get(c.store.spec.members, r.source).value.resources, r.resource);
    if p.Some? { SumsAreTrue(c, OnPath(p.value.id), Skip(r), care); }
    if x.Some? { SumsAreTrue(c, OnResource(x.value.id), Skip(r), care); }
  }

  /** Exactly the units on offer, between the contract's minimum and the request, never a silent cut, issued
      here and now. */
  ghost predicate AmountOnTerms(c: Core, r: Request, k: Contract, g: Grant)
  {
    && g.at == Here(c.store.spec) && g.leaseIssued == c.store.tick
    && k.minUnits <= g.units <= Want(r, k) && g.units == TrueOffer(c, r, k)
    && (g.outcome == Granted || g.outcome == Degraded) && (g.degraded <==> g.outcome == Degraded)
    && (g.units < (if r.units == 0 then k.minUnits else r.units) ==> g.outcome == Degraded)
  }

  // ----- a new grant -----

  lemma OneFurther(c: Core, b: Body)
    ensures NextSequence(Append(c, b).log) == NextSequence(c.log) + 1
  {}

  lemma CommitTerms(c: Core, id: Id, draft: Grant, r: Request)
    requires Sorted(c.store.grants) && Sorted(c.store.attempts)
    requires !Has(c.store.grants, id) && |c.store.grants| < MAX_GRANTS
    requires !Has(c.store.attempts, draft.binding.attempt)
    requires Has(Commit(c, id, draft, r).0.store.attempts, draft.binding.attempt)
    ensures var (d, answer) := Commit(c, id, draft, r);
            && Has(d.store.grants, id) && answer.grant == Some(Row(id, Get(d.store.grants, id).value))
            && answer.outcome == draft.outcome
            && var g := Get(d.store.grants, id).value;
            && g == draft.(state := Committed, commit := CommitDone, reserved := true,
                           prepareSeq := NextSequence(c.log), commitSeq := NextSequence(c.log) + 1)
            && var a := Get(d.store.attempts, draft.binding.attempt).value;
            && a.grant == id && a.request == [] && a.digest == r.digest && a.outcome == draft.outcome
  {
    hide LowerBound, FirstReason, Codes, NextSequence;
    var g := draft.(prepareSeq := NextSequence(c.log), state := Committed, commit := CommitDone);
    var live := Commit(c, id, draft, r).1.grant;
    var c1 := Append(c, GrantRecord(PreparedRecord, id, draft, Prepared));
    OneFurther(c, GrantRecord(PreparedRecord, id, draft, Prepared));
    GetPut(c.store.grants, id, g.(commitSeq := NextSequence(c1.log), reserved := true), id);
    PutFound(c.store.grants, id, g.(commitSeq := NextSequence(c1.log), reserved := true));
    GetPut(c.store.attempts, draft.binding.attempt, MintedAttempt(c, id, g, r), draft.binding.attempt);
  }

  lemma DraftLease(c: Core, r: Request, k: Contract, e: Verdict, o: Outcome, lease: Id, ticks: nat)
    requires e.Pass? && Has(c.store.spec.members, r.source) && Has(c.store.spec.members, r.destination)
    requires 0 < ticks && c.store.tick + ticks < U64_LIMIT
    ensures LeasedFor(Draft(c, r, k, e, o, lease, ticks), c.store.tick, ticks)
  {
    hide Bind, Has;
    assert Wrap(c.store.tick + ticks) == c.store.tick + ticks;
  }

  /** A shortfall is a degradation, and a degradation is never called GRANTED. */
  lemma CutIsSaid(c: Core, r: Request, k: Contract)
    requires Evaluate(ViewOf(c), r, k).Pass? && GrantOutcome(Evaluate(ViewOf(c), r, k).degradations, r, k).Some?
    ensures var e := Evaluate(ViewOf(c), r, k);
            var o := GrantOutcome(e.degradations, r, k).value;
            && k.minUnits <= e.units <= Want(r, k) && (o == Granted || o == Degraded)
            && (e.units < (if r.units == 0 then k.minUnits else r.units) ==> o == Degraded)
  {
    hide Evaluate, Want;
    AuthorisedWithinBounds(ViewOf(c), r, k);
  }

  lemma PassIsTheOffer(c: Core, r: Request, k: Contract, care: Care)
    requires hide Reachable, TrueOffer; Reachable(c, care) && Evaluate(ViewOf(c), r, k).Pass?
    ensures Evaluate(ViewOf(c), r, k).units == TrueOffer(c, r, k)
  {
    hide Reachable, Evaluate, TrueOffer, Offer, CheckEligible, OnlyCapacity, LowerBound, ChosenPath;
    PassArrives(ViewOf(c), r, k);
    AuthorisesTheMinimum(ViewOf(c), r, k);
    OfferIsTrue(c, r, k, care);
  }

  /** Capacity is refused for two reasons, and each is given exactly when it holds by the true sums: the want is
      below the contract's minimum, or what is left is not enough. Neither refusal leaves a trace. */
  lemma CapacityAnswers(c: Core, r: Request, care: Care)
    requires hide Reachable; Reachable(c, care) && Gate(c, r).None?
    requires Arrives(ViewOf(c), r, Get(c.store.contracts, r.contract).value)
    requires OnlyCapacity(ViewOf(c), r, Get(c.store.contracts, r.contract).value,
                          Get(c.store.spec.members, r.source).value, ChosenPath(ViewOf(c), r))
    ensures var k := Get(c.store.contracts, r.contract).value;
            && (Submit(c, r).1 == Answer(Refused, CAPACITY_INSUFFICIENT) <==> Want(r, k) < k.minUnits)
            && (Submit(c, r).1 == Answer(Refused, CAPACITY_EXHAUSTED)
                <==> Want(r, k) >= k.minUnits && !Enough(r, k, TrueOffer(c, r, k)))
            && (Want(r, k) < k.minUnits || !Enough(r, k, TrueOffer(c, r, k)) ==> Submit(c, r).0 == c)
  {
    hide Reachable, Evaluate, TrueOffer, Offer, Enough, Want, CheckEligible, OnlyCapacity, LowerBound, ChosenPath, Gate,
         CheckObligations, DomainKey, CheckRenewal, All, Codes, GrantOutcome;
    GateFresh(c, r);
    var k := Get(c.store.contracts, r.contract).value;
    var e := Evaluate(ViewOf(c), r, k);
    AuthorisesTheMinimum(ViewOf(c), r, k);
    OfferIsTrue(c, r, k, care);
    if e.Pass? {
      PassSoft(ViewOf(c), r, k);
      PassAnswers(c, r, k);
    }
  }

  /** No passing request is answered with a capacity refusal. */
  lemma PassAnswers(c: Core, r: Request, k: Contract)
    requires Gate(c, r).None? && Get(c.store.contracts, r.contract) == Some(k)
    requires Evaluate(ViewOf(c), r, k).Pass? && All(Evaluate(ViewOf(c), r, k).degradations, IsSoft())
    ensures Submit(c, r).1 != Answer(Refused, CAPACITY_INSUFFICIENT) && Submit(c, r).1 != Answer(Refused, CAPACITY_EXHAUSTED)
  {
    hide Evaluate, Gate, Draft, LowerBound, Renewed, Commit, GrantName, LeaseName;
    var e := Evaluate(ViewOf(c), r, k);
    SoftCodes(e.degradations);
    if r.renewal {
    } else if GrantOutcome(e.degradations, r, k).Some? {
      PassMembers(ViewOf(c), r, k);
      var b := Bumped(c);
      CommitAnswers(b, GrantName(b.grantSerial),
                    Draft(b, r, k, e, GrantOutcome(e.degradations, r, k).value, LeaseName(b.leaseSerial), LeaseTicks(c, r)), r);
      DraftNames(b, r, k, e, GrantOutcome(e.degradations, r, k).value, LeaseName(b.leaseSerial), LeaseTicks(c, r));
    }
  }

  lemma SoftCodes(ds: seq<Reason>)
    requires All(ds, IsSoft())
    ensures Codes(ds) != [CAPACITY_INSUFFICIENT] && Codes(ds) != [CAPACITY_EXHAUSTED]
  {
    if |ds| == 1 { assert Codes(ds)[0] == ds[0].code && IsSoft()(ds[0]); }
  }

  lemma CommitAnswers(c: Core, id: Id, draft: Grant, r: Request)
    ensures var a := Commit(c, id, draft, r).1; a == Answer(Refused, LIMIT_EXCEEDED) || a.outcome == draft.outcome
  {}

  /** The draft of an authorised request is on its terms. */
  lemma DraftTerms(c: Core, r: Request, k: Contract, e: Verdict, o: Outcome, lease: Id, ticks: nat)
    requires e == Evaluate(ViewOf(c), r, k) && e.Pass? && GrantOutcome(e.degradations, r, k) == Some(o)
    requires Has(c.store.spec.members, r.source) && Has(c.store.spec.members, r.destination)
    requires e.units == TrueOffer(c, r, k)
    ensures OnTerms(c, r, k, Draft(c, r, k, e, o, lease, ticks))
  {
    hide Evaluate, GrantOutcome, Want, Has, TrueOffer;
    PassMembers(ViewOf(c), r, k);
    CutIsSaid(c, r, k);
  }

  lemma PassMembers(v: View, r: Request, k: Contract)
    requires Evaluate(v, r, k).Pass?
    ensures Has(v.spec.members, r.source) && Has(v.spec.members, r.destination)
    ensures Get(v.spec.members, r.source).value.generation == r.sourceGeneration
    ensures Get(v.spec.members, r.destination).value.generation == r.destinationGeneration
  {
    var s := Get(v.spec.members, r.source).value;
    var d := Get(v.spec.members, r.destination).value;
    assert CheckEligible(v, s, d, r, k).Go?;
    assert CheckMembers(v.options, s, d, r, k).Go?;
  }

  lemma CommitRecorded(c: Core, id: Id, draft: Grant, r: Request, care: Care)
    requires Good(Commit(c, id, draft, r).0, care) && !Has(c.store.grants, id) && |c.store.grants| < MAX_GRANTS
    ensures Has(Commit(c, id, draft, r).0.store.attempts, draft.binding.attempt)
  {
    hide Good, MintedAttempt, Codes, NextSequence;
    var d := Commit(c, id, draft, r).0;
    var i := LowerBound(c.store.grants, id);
    assert d.store.grants[i].val.binding == draft.binding;
    GoodRow(d, i, care);
  }

  /** A minting submission is a commit of its draft, answer and all. */
  lemma SubmitCommits(c: Core, r: Request)
    requires Mints(c, Submission(r))
    ensures Has(c.store.spec.members, r.source) && Has(c.store.spec.members, r.destination)
    ensures var k := Get(c.store.contracts, r.contract).value;
            var b := Bumped(c);
            var e := Evaluate(ViewOf(c), r, k);
            Submit(c, r) == Commit(b, GrantName(b.grantSerial),
                                   Draft(b, r, k, e, GrantOutcome(e.degradations, r, k).value, LeaseName(b.leaseSerial), LeaseTicks(c, r)),
                                   r)
  {
    PassMembers(ViewOf(c), r, Get(c.store.contracts, r.contract).value);
    hide Evaluate, Commit, Draft, GrantName, LeaseName, Gate, GrantOutcome;
  }

  /** What a minting submission leaves behind and says. */
  ghost predicate MintedOn(c: Core, r: Request, d: Core, answer: Decision)
  {
    var id := GrantName(c.grantSerial + 1);
    && Has(c.store.contracts, r.contract)
    && Has(d.store.grants, id) && answer.grant == Some(Row(id, Get(d.store.grants, id).value))
    && var g := Get(d.store.grants, id).value;
    && answer.outcome == g.outcome && g.state == Committed && g.binding.lease == LeaseName(c.leaseSerial + 1)
    && OnTerms(c, r, Get(c.store.contracts, r.contract).value, g)
    && g.leaseExpiry == Wrap(c.store.tick + LeaseTicks(c, r))
    && (0 < LeaseTicks(c, r) < U64_LIMIT - c.store.tick ==> LeasedFor(g, c.store.tick, LeaseTicks(c, r)))
    && Has(d.store.attempts, r.attempt)
    && var a := Get(d.store.attempts, r.attempt).value;
    && a.grant == id && a.request == [] && a.digest == r.digest && a.outcome == g.outcome
  }

  /** The draft such a submission commits. */
  function DraftOf(c: Core, r: Request): Grant
    requires Mints(c, Submission(r))
  {
    SubmitCommits(c, r);
    var k := Get(c.store.contracts, r.contract).value;
    var b, e := Bumped(c), Evaluate(ViewOf(c), r, k);
    Draft(b, r, k, e, GrantOutcome(e.degradations, r, k).value, LeaseName(b.leaseSerial), LeaseTicks(c, r))
  }

  lemma DraftOnTerms(c: Core, r: Request, care: Care)
    requires hide Reachable; Reachable(c, care) && Mints(c, Submission(r))
    ensures Has(c.store.contracts, r.contract)
    ensures var g := DraftOf(c, r);
            var k := Get(c.store.contracts, r.contract).value;
            && Submit(c, r) == Commit(Bumped(c), GrantName(Bumped(c).grantSerial), g, r)
            && OnTerms(Bumped(c), r, k, g) && g.leaseExpiry == Wrap(c.store.tick + LeaseTicks(c, r))
            && (0 < LeaseTicks(c, r) < U64_LIMIT - c.store.tick ==> LeasedFor(g, c.store.tick, LeaseTicks(c, r)))
            && g.binding.attempt == r.attempt && g.binding.lease == LeaseName(Bumped(c).leaseSerial)
  {
    hide Reachable, Evaluate, Commit, Draft, GrantName, LeaseName, GrantOutcome, OnTerms, LeasedFor, Submit, Gate, TrueOffer, Wrap,
         LowerBound;
    SubmitCommits(c, r);
    GateFresh(c, r);
    var k := Get(c.store.contracts, r.contract).value;
    var b, e := Bumped(c), Evaluate(ViewOf(c), r, k);
    assert ViewOf(b) == ViewOf(c);
    var o := GrantOutcome(e.degradations, r, k).value;
    var lease, ticks := LeaseName(b.leaseSerial), LeaseTicks(c, r);
    PassIsTheOffer(c, r, k, care);
    SameOffer(c, r, k);
    DraftTerms(b, r, k, e, o, lease, ticks);
    if 0 < ticks < U64_LIMIT - c.store.tick { DraftLease(b, r, k, e, o, lease, ticks); }
    DraftNames(b, r, k, e, o, lease, ticks);
  }

  /** The grant a minting submission leaves is its draft, committed. */
  lemma MintedDraft(c: Core, r: Request, care: Care)
    requires hide Reachable, Enabled, Mints;
             Reachable(c, care) && Enabled(c, Submission(r), care) && Mints(c, Submission(r))
    ensures var id, answer := GrantName(c.grantSerial + 1), Submit(c, r).1;
            var d, draft := Submit(c, r).0, DraftOf(c, r);
            && Has(d.store.grants, id) && answer.grant == Some(Row(id, Get(d.store.grants, id).value))
            && answer.outcome == draft.outcome
            && var g := Get(d.store.grants, id).value;
            && g.state == Committed
            && g == draft.(state := g.state, commit := g.commit, reserved := g.reserved, prepareSeq := g.prepareSeq, commitSeq := g.commitSeq)
            && Has(d.store.attempts, draft.binding.attempt)
            && var a := Get(d.store.attempts, draft.binding.attempt).value;
            && a.grant == id && a.request == [] && a.digest == r.digest && a.outcome == draft.outcome
  {
    hide Good, Reachable, Authorised, Enabled, Commit, DraftOf, GrantName, LeaseName, OnTerms, LeasedFor, Linked, Submit, Gate,
         LeaseTicks, Wrap, LowerBound, Put;
    ReachableGood(c, care);
    SubmitGood(c, r, care);
    GateFresh(c, r);
    DraftOnTerms(c, r, care);
    MintsMay(c, r, care);
    CountersLeft(c);
    FreshFor(c, r, care);
    GoodTable(c, care);
    SortedAttempts(c, care.Roomy?);
    NotRenewal(c, r);
    var b, draft := Bumped(c), DraftOf(c, r);
    CommitRecorded(b, GrantName(b.grantSerial), draft, r, care);
    CommitTerms(b, GrantName(b.grantSerial), draft, r);
  }

  /** A minting submission answers with the grant it put in the table, which is on the request's terms and
      leased for the time asked, and leaves the attempt's record naming it. */
  lemma MintedTerms(c: Core, r: Request, care: Care)
    requires Reachable(c, care) && Enabled(c, Submission(r), care) && Mints(c, Submission(r))
    ensures MintedOn(c, r, Submit(c, r).0, Submit(c, r).1)
  {
    hide Reachable, Authorised, Enabled, Commit, DraftOf, GrantName, LeaseName, OnTerms, LeasedFor, Submit, Gate, LeaseTicks, Wrap,
         LowerBound, Mints;
    MintsGate(c, r);
    GateFresh(c, r);
    DraftOnTerms(c, r, care);
    MintsMay(c, r, care);
    CountersLeft(c);
    MintedDraft(c, r, care);
    TermsKept(c, r, Get(c.store.contracts, r.contract).value, DraftOf(c, r),
              Get(Submit(c, r).0.store.grants, GrantName(c.grantSerial + 1)).value, LeaseTicks(c, r));
  }

  lemma MintsPass(c: Core, r: Request)
    requires Mints(c, Submission(r))
    ensures Has(c.store.contracts, r.contract) && Evaluate(ViewOf(c), r, Get(c.store.contracts, r.contract).value).Pass?
  {
    hide Evaluate, Gate;
    GateFresh(c, r);
  }

  lemma MintsGate(c: Core, r: Request)
    requires Mints(c, Submission(r))
    ensures Gate(c, r).None?
  {
    hide Gate, Authorised;
  }

  lemma SameOffer(c: Core, r: Request, k: Contract)
    ensures TrueOffer(Bumped(c), r, k) == TrueOffer(c, r, k)
  {}

  lemma GateFresh(c: Core, r: Request)
    requires Gate(c, r).None?
    ensures Has(c.store.contracts, r.contract) && (!r.renewal ==> !Has(c.store.attempts, r.attempt))
  {
    hide RequestShape, FenceCheck, ReplayAttempt;
  }

  lemma DraftNames(c: Core, r: Request, k: Contract, e: Verdict, o: Outcome, lease: Id, ticks: nat)
    requires e.Pass? && Has(c.store.spec.members, r.source) && Has(c.store.spec.members, r.destination)
    ensures var d := Draft(c, r, k, e, o, lease, ticks);
            d.binding.attempt == r.attempt && d.binding.lease == lease && d.outcome == o
            && d.leaseExpiry == Wrap(c.store.tick + ticks)
  {}

  /** Terms do not speak of where a grant stands on its way to being committed. */
  lemma TermsKept(c: Core, r: Request, k: Contract, a: Grant, b: Grant, ticks: nat)
    requires b == a.(state := b.state, commit := b.commit, reserved := b.reserved, prepareSeq := b.prepareSeq, commitSeq := b.commitSeq)
    ensures OnTerms(Bumped(c), r, k, a) ==> OnTerms(c, r, k, b)
    ensures LeasedFor(a, c.store.tick, ticks) ==> LeasedFor(b, c.store.tick, ticks)
  {
    SameOffer(c, r, k);
    assert forall t: nat :: ExpiredAt(b, t) == ExpiredAt(a, t);
  }

  /** The answers agree: after a minting submission, resolving its attempt says it is granted, and repeating
      the submission changes nothing, and says so too unless the request carried no digest to know it by. */
  lemma MintThenAsk(c: Core, r: Request, q: ResolveRequest, care: Care)
    requires Reachable(c, care) && Enabled(c, Submission(r), care) && Mints(c, Submission(r))
    requires q.id != [] && q.attempt == r.attempt
    ensures var d := Submit(c, r).0;
            && Carries(Resolve(d, q).outcome)
            && Submit(d, r).0 == d && (Carries(Submit(d, r).1.outcome) <==> !IsZero(r.digest))
  {
    hide Good, Reachable, Enabled, Submit, Resolve, ReplayAttempt, MintedOn, GrantName, Mints, LowerBound, RequestShape, FenceCheck, WellFormed;
    MintedTerms(c, r, care);
    NotRenewal(c, r);
    OneMoreStep(c, r, care);
    var d := Submit(c, r).0;
    MintedFacts(c, r, d, Submit(c, r).1);
    ResolveExact(d, q, care);
    SameFence(c, r);
    SpecNamed(d, care);
    ShapeIs(r);
    FenceIs(d.store.spec, r);
    RetryExact(d, r, care);
  }

  /** Minting does not move the coordinate the request was made against. */
  lemma SameFence(c: Core, r: Request)
    requires Mints(c, Submission(r))
    ensures RequestShape(r) == Ok && FenceCheck(Submit(c, r).0.store.spec, r).Go?
  {
    hide Evaluate, RequestShape, FenceCheck, ReplayAttempt, ContractCheck, Draft, Put, GrantName, LeaseName;
  }

  lemma MintedFacts(c: Core, r: Request, d: Core, answer: Decision)
    requires MintedOn(c, r, d, answer)
    ensures Has(d.store.attempts, r.attempt) && Has(d.store.grants, Get(d.store.attempts, r.attempt).value.grant)
    ensures var a := Get(d.store.attempts, r.attempt).value;
            var i := LowerBound(d.store.grants, a.grant);
            && a.digest == r.digest && a.grant == GrantName(c.grantSerial + 1)
            && d.store.grants[i].val.state == Committed && d.store.grants[i].val.binding.attempt == r.attempt
  {
    hide GrantName, LeasedFor, AmountOnTerms;
  }

  lemma NotRenewal(c: Core, r: Request)
    requires Mints(c, Submission(r))
    ensures !r.renewal && r.attempt != []
  {
    hide FenceCheck, ReplayAttempt, ContractCheck, Authorised;
  }

  lemma OneMoreStep(c: Core, r: Request, care: Care)
    requires Reachable(c, care) && Enabled(c, Submission(r), care)
    ensures Reachable(Submit(c, r).0, care)
  {
    hide Reachable, Enabled, Submit, Release, Acknowledge, Cancel, Mutate, MutateContract, SetPolicy, AdvanceTick, ExpireFrom,
         FenceFrom, RevalidateFrom, Compact, Restart;
    OneStep(c, Submission(r), care);
  }

  // ----- a renewed grant -----

  /** What an authorised renewal leaves behind and says. */
  ghost predicate RenewedOn(c: Core, r: Request, k: Contract, d: Core, answer: Decision)
  {
    && Has(c.store.grants, r.renewalOf)
    && var i := LowerBound(c.store.grants, r.renewalOf);
    && |d.store.grants| == |c.store.grants| && d.store == c.store.(grants := c.store.grants[i := d.store.grants[i]])
    && var g, u := c.store.grants[i].val, d.store.grants[i].val;
    && d.store.grants[i].id == r.renewalOf && answer.grant == Some(d.store.grants[i]) && answer.outcome == u.outcome
    && u.binding == g.binding && u.state == g.state && g.binding.attempt == r.attempt && g.binding.lease == r.renewalLease
    && AmountOnTerms(c, r, k, u)
    && u.leaseExpiry == (if r.lease == 0 then 0 else Wrap(c.store.tick + r.lease))
    && (r.lease < U64_LIMIT - c.store.tick ==> LeasedFor(u, c.store.tick, r.lease))
  }

  /** An authorised renewal rewrites exactly its grant, keeps what it binds and where it stands, and leases it
      for exactly the time asked: for ever if none was, and whatever the configured maximum is. */
  lemma RenewalTerms(c: Core, r: Request, care: Care)
    requires hide Reachable; Reachable(c, care) && Gate(c, r).None? && r.renewal
    requires Authorised(c, r, Get(c.store.contracts, r.contract).value)
    ensures RenewedOn(c, r, Get(c.store.contracts, r.contract).value, Submit(c, r).0, Submit(c, r).1)
  {
    hide Reachable, Evaluate, Gate, GrantOutcome, Want, LeasedFor, TrueOffer, Wrap, NextSequence, LowerBound, Here;
    GateFresh(c, r);
    var k := Get(c.store.contracts, r.contract).value;
    RenewalTarget(ViewOf(c), r, k);
    CutIsSaid(c, r, k);
    PassIsTheOffer(c, r, k, care);
    var e := Evaluate(ViewOf(c), r, k);
    var i := LowerBound(c.store.grants, r.renewalOf);
    var u := Renewed(c, c.store.grants[i].val, r, e, GrantOutcome(e.degradations, r, k).value);
    if r.lease < U64_LIMIT - c.store.tick { RenewedLease(u, c.store.tick, r.lease); }
    LeaseOnly(u, u.(commitSeq := NextSequence(c.log)), c.store.tick, r.lease);
  }

  lemma RenewedLease(u: Grant, now: nat, ticks: nat)
    requires u.leaseExpiry == (if ticks == 0 then 0 else Wrap(now + ticks)) && now + ticks < U64_LIMIT
    ensures LeasedFor(u, now, ticks)
  {
    assert Wrap(now + ticks) == now + ticks;
  }

  lemma LeaseOnly(a: Grant, b: Grant, now: nat, ticks: nat)
    requires b.leaseExpiry == a.leaseExpiry
    ensures LeasedFor(a, now, ticks) ==> LeasedFor(b, now, ticks)
  {
    assert forall t: nat :: ExpiredAt(b, t) == ExpiredAt(a, t);
  }

  // ----- leases near the end of the clock -----

  ghost predicate NeverExpires(g: Grant) { forall t: nat :: !ExpiredAt(g, t) }

  lemma NeverIsZero(g: Grant)
    ensures NeverExpires(g) <==> g.leaseExpiry == 0
  {
    if g.leaseExpiry != 0 { assert ExpiredAt(g, g.leaseExpiry); }
  }

  lemma WrapsOnce(now: nat, ticks: nat)
    requires now < U64_LIMIT && ticks < U64_LIMIT
    ensures Wrap(now + ticks) == if now + ticks < U64_LIMIT then now + ticks else now + ticks - U64_LIMIT
  {}

  /** Lease arithmetic wraps, and a lease of no ticks ends where it begins. A new grant is expired at birth exactly
      when it is leased for nothing after the clock has started or when its lease ends beyond the 64-bit clock; it
      never expires exactly when its lease ends on the clock's end, or is for nothing at the clock's start. */
  lemma BornExpired(c: Core, r: Request, care: Care)
    requires hide Reachable, Submit, Mints, Enabled;
             Reachable(c, care) && Enabled(c, Submission(r), care) && Mints(c, Submission(r))
    requires c.store.tick < U64_LIMIT && c.options.defaultLease < U64_LIMIT
    ensures Has(Submit(c, r).0.store.grants, GrantName(c.grantSerial + 1))
    ensures var g := Get(Submit(c, r).0.store.grants, GrantName(c.grantSerial + 1)).value;
            var now, ticks := c.store.tick, LeaseTicks(c, r);
            && (ExpiredAt(g, now) <==> (ticks == 0 && now > 0) || now + ticks > U64_LIMIT)
            && (NeverExpires(g) <==> (ticks == 0 && now == 0) || now + ticks == U64_LIMIT)
  {
    hide Reachable, Enabled, Mints, Submit, MintedOn, GrantName, NeverExpires, Wrap, LowerBound;
    MintedTerms(c, r, care);
    MintedLease(c, r, Submit(c, r).0, Submit(c, r).1);
    LeaseShort(c, r);
    WrapsOnce(c.store.tick, LeaseTicks(c, r));
    NeverIsZero(Get(Submit(c, r).0.store.grants, GrantName(c.grantSerial + 1)).value);
  }

  lemma MintedLease(c: Core, r: Request, d: Core, answer: Decision)
    requires MintedOn(c, r, d, answer)
    ensures Has(d.store.grants, GrantName(c.grantSerial + 1))
    ensures Get(d.store.grants, GrantName(c.grantSerial + 1)).value.leaseExpiry == Wrap(c.store.tick + LeaseTicks(c, r))
  {
    hide GrantName, OnTerms, LeasedFor, Wrap;
  }

  lemma LeaseShort(c: Core, r: Request)
    requires Mints(c, Submission(r)) && c.options.defaultLease < U64_LIMIT
    ensures LeaseTicks(c, r) < U64_LIMIT
  {
    hide FenceCheck, ReplayAttempt, ContractCheck, Authorised;
  }

  /** The same of a renewed grant, except that a renewal for no ticks is for ever. */
  lemma RenewedExpired(c: Core, r: Request, care: Care)
    requires hide Reachable; Reachable(c, care) && Gate(c, r).None? && r.renewal
    requires Authorised(c, r, Get(c.store.contracts, r.contract).value) && c.store.tick < U64_LIMIT
    ensures Has(c.store.grants, r.renewalOf)
    ensures var i, now := LowerBound(c.store.grants, r.renewalOf), c.store.tick;
            && i < |Submit(c, r).0.store.grants|
            && var u := Submit(c, r).0.store.grants[i].val;
            && (ExpiredAt(u, now) <==> now + r.lease > U64_LIMIT)
            && (NeverExpires(u) <==> r.lease == 0 || now + r.lease == U64_LIMIT)
  {
    hide Reachable, Authorised, Submit, NeverExpires, Wrap, LowerBound, FenceCheck, ReplayAttempt, ContractCheck, LeasedFor,
         AmountOnTerms;
    RenewalTerms(c, r, care);
    WrapsOnce(c.store.tick, r.lease);
    NeverIsZero(Submit(c, r).0.store.grants[LowerBound(c.store.grants, r.renewalOf)].val);
  }
}
