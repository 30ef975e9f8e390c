/** One concrete controller, from its first start: a member, two paths, a contract and two grants that fill the
    first path. What its next steps do shows that the conditions of `Limits` are met and missed by real runs. */
module Witness {
  import opened Tables
  import opened Model
  import opened Text
  import opened Cluster
  import opened Accounting
  import opened Eligibility
  import opened Engine
  import opened Vocabulary
  import opened Safety
  import opened Durability
  import opened Invariant
  import opened Submission
  import opened Operations
  import opened Runs
  import opened Guarantees
  import opened Ledger
  import opened Terms
  import opened Limits
  import W = Wording

  const SETTINGS: Options := Options(false, false, false, true, 0, 100, RevalidateAcknowledged)

  function Life(): seq<byte> { seq(16, i => 0 as byte) }

  function Home(): Member { Member("", 1, ZeroDigest(), Active, [], [], ["s", "d"], [], 0, "") }

  function Line(capacity: nat): Path { Path(1, "a", "", "a", "", [], capacity, false, Operational, 0) }

  function Deal(): Contract { Contract(1, "s", "d", 1, 0, 0, 0, false, Refuse, false, false, false, false, [], true) }

  /** A request for units on a path, against the present coordinate. */
  function Ask(c: Core, attempt: Id, path: Id, units: nat): Request
  {
    Request("r", "k", 1, "c", Here(c.store.spec), "a", 1, ZeroDigest(), "a", 1, ZeroDigest(), "", "", path, 1, "", 0,
            units, 0, attempt, Provenance("", "", "", 0, 0), false, false, "", "", ZeroDigest())
  }

  function AskAgain(c: Core, attempt: Id, path: Id, units: nat, grant: Id, lease: Id): Request
  {
    Ask(c, attempt, path, units).(renewal := true, renewalOf := grant, renewalLease := lease)
  }

  // ----- the cluster -----

  function Empty(): Core { Initialize(SETTINGS, "c", Life(), 1, 0) }
  function Housed(): Core { Next(Empty(), Changing(UpsertMember("a", Home()))) }
  function OnePath(): Core { Next(Housed(), Changing(UpsertPath("p", Line(12)))) }
  function TwoPaths(): Core { Next(OnePath(), Changing(UpsertPath("q", Line(100)))) }
  function Ready(): Core { Next(TwoPaths(), Contracting(UpsertContract("k", Deal()))) }

  function Homes(): Table<Member> { Put([], "a", Home()) }
  function OneLine(): Table<Path> { Put([], "p", Line(12)) }
  function TwoLines(): Table<Path> { Put(OneLine(), "q", Line(100)) }
  function Deals(): Table<Contract> { Put([], "k", Deal()) }

  /** A reachable controller without grants. */
  ghost predicate Stage(c: Core, generation: nat, members: Table<Member>, paths: Table<Path>, contracts: Table<Contract>)
  {
    hide Reachable;
    && Reachable(c, Loose) && c.options == SETTINGS && c.grantSerial == 0 && c.leaseSerial == 0
    && NextSequence(c.log) == generation + 1 + (if contracts == [] then 0 else 1)
    && c.store == Store(Spec("c", generation, 1, 1, Life(), members, paths, [], []), 0, contracts, [], [])
  }

  lemma EmptyStage()
    ensures hide Stage; Stage(Empty(), 1, [], [], [])
  {
    hide Next, Enabled;
    assert After(Empty(), []) == Empty();
    assert Reaches(SETTINGS, "c", Life(), 1, 0, [], Loose, Empty());
  }

  /** A change of the specification while there are no grants. */
  lemma Declares(c: Core, op: SpecOp)
    requires hide Reachable, Next;
             Reachable(c, Loose) && c.store.grants == [] && OpStatus(c.store.spec, op) == Ok && c.store.spec.generation < U64_MAX
    ensures Reachable(Next(c, Changing(op)), Loose)
    ensures var d := Next(c, Changing(op));
            && d.store == c.store.(spec := Edit(c.store.spec, c.store.tick, op).(generation := c.store.spec.generation + 1))
            && d.options == c.options && d.grantSerial == c.grantSerial && d.leaseSerial == c.leaseSerial
            && NextSequence(d.log) == NextSequence(c.log) + 1
  {
    hide Reachable, OpStatus, Edit, Submit, Release, Acknowledge, Cancel, MutateContract, SetPolicy, AdvanceTick, ExpireFrom,
         FenceFrom, Compact, Restart, Gate, Authorised, ApplyContract;
    EditKeepsNumber(c.store.spec, c.store.tick, op);
    OneStep(c, Changing(op), Loose);
  }

  lemma Contracts(c: Core, op: ContractOp)
    requires Reachable(c, Loose) && ApplyContract(c.store.contracts, op).1 == Ok
    ensures Reachable(Next(c, Contracting(op)), Loose)
    ensures var d := Next(c, Contracting(op));
            && d.store == c.store.(contracts := ApplyContract(c.store.contracts, op).0)
            && d.options == c.options && d.grantSerial == c.grantSerial && d.leaseSerial == c.leaseSerial
            && NextSequence(d.log) == NextSequence(c.log) + 1
  {
    hide Reachable, ApplyContract, Submit, Release, Acknowledge, Cancel, Mutate, SetPolicy, AdvanceTick, ExpireFrom,
         FenceFrom, RevalidateFrom, Compact, Restart, Gate, Authorised, ApplySpec;
    OneStep(c, Contracting(op), Loose);
  }

  lemma EditKeepsNumber(s: Spec, tick: nat, op: SpecOp)
    requires OpStatus(s, op) == Ok
    ensures Edit(s, tick, op).generation == s.generation
  {}

  lemma HousedStage()
    ensures hide Stage, Housed; Stage(Housed(), 2, Homes(), [], [])
  {
    hide Reachable, Next, Put, LowerBound, Empty;
    EmptyStage();
    assert IsUtf8("");
    Declares(Empty(), UpsertMember("a", Home()));
  }

  lemma FirstStage()
    ensures hide Stage, OnePath; Stage(OnePath(), 3, Homes(), OneLine(), [])
  {
    hide Reachable, Next, Put, LowerBound, Housed, Homes;
    HousedStage();
    Declares(Housed(), UpsertPath("p", Line(12)));
  }

  lemma SecondStage()
    ensures hide Stage, TwoPaths; Stage(TwoPaths(), 4, Homes(), TwoLines(), [])
  {
    hide Reachable, Next, Put, LowerBound, OnePath, Homes;
    FirstStage();
    LinesFound();
    Declares(OnePath(), UpsertPath("q", Line(100)));
  }

  lemma ReadyStage()
    ensures hide Stage, Ready; Stage(Ready(), 4, Homes(), TwoLines(), Deals())
  {
    hide Reachable, Next, Put, LowerBound, TwoPaths, Homes, TwoLines;
    SecondStage();
    Contracts(TwoPaths(), UpsertContract("k", Deal()));
  }

  lemma LinesFound()
    ensures |OneLine()| == 1 && !Has(OneLine(), "q")
    ensures Get(TwoLines(), "p") == Some(Line(12)) && Get(TwoLines(), "q") == Some(Line(100))
    ensures Get(Homes(), "a") == Some(Home()) && Get(Deals(), "k") == Some(Deal())
  {
    hide Put, LowerBound;
    NoRow<Path>("p");
    NoRow<Path>("q");
    NoRow<Member>("a");
    NoRow<Contract>("k");
    PutSorted<Path>([], "p", Line(12));
    GetPut<Path>([], "p", Line(12), "p");
    GetPut<Path>([], "p", Line(12), "q");
    GetPut(OneLine(), "q", Line(100), "p");
    GetPut(OneLine(), "q", Line(100), "q");
    GetPut<Member>([], "a", Home(), "a");
    GetPut<Contract>([], "k", Deal(), "k");
  }

  lemma NoRow<T>(id: Id)
    ensures !Has<T>([], id)
  {}

  // ----- submitting -----

  /** A reachable controller of this cluster. */
  ghost predicate World(c: Core)
  {
    hide Reachable;
    && Reachable(c, Loose) && c.options == SETTINGS && c.store.tick == 0
    && c.store.spec == Spec("c", 4, 1, 1, Life(), Homes(), TwoLines(), [], []) && c.store.contracts == Deals()
  }

  /** One of the two paths, with room for these units beside what others hold there. */
  predicate HasRoom(c: Core, r: Request, capacity: nat)
  {
    Get(TwoLines(), r.path) == Some(Line(capacity)) && r.path != [] && 1 <= r.units <= capacity <= 100
    && Held(c.store.grants, OnPath(r.path), Skip(r)) + r.units <= capacity
  }

  /** A request of this kind, new or renewing. */
  predicate Plain(c: Core, r: Request)
  {
    Ask(c, r.attempt, r.path, r.units) == r.(renewal := false, renewalOf := "", renewalLease := "")
  }

  lemma AskMembers(c: Core, r: Request)
    requires Plain(c, r)
    ensures CheckMembers(SETTINGS, Home(), Home(), r, Deal()) == Go([])
  {
    assert IsZero(ZeroDigest());
    assert Home().services[0] == "s" && Home().services[1] == "d";
  }

  lemma AskPath(c: Core, r: Request, capacity: nat)
    requires World(c) && HasRoom(c, r, capacity) && Plain(c, r)
    ensures ChosenPath(ViewOf(c), r) == Some(Row(r.path, Line(capacity)))
    ensures CheckNamedPath(ViewOf(c), r) == Go([])
    ensures CheckPathState(ViewOf(c), ChosenPath(ViewOf(c), r), Deal()) == Go([])
  {
    hide Reachable, Homes, TwoLines, Deals, Held, LowerBound;
    assert ExclusionForPath([], r.path, 0).None?;
  }

  lemma AskArrives(c: Core, r: Request, capacity: nat)
    requires World(c) && HasRoom(c, r, capacity) && Plain(c, r)
    ensures CheckEligible(ViewOf(c), Home(), Home(), r, Deal()) == Go([])
    ensures ChosenPath(ViewOf(c), r) == Some(Row(r.path, Line(capacity)))
  {
    hide Reachable, Homes, TwoLines, Deals, Held, LowerBound, CheckMembers, CheckNamedPath, CheckPathState, ChosenPath;
    AskMembers(c, r);
    AskPath(c, r, capacity);
    assert ExclusionForMember([], "a", Home(), 0).None?;
  }

  lemma AskPasses(c: Core, r: Request, capacity: nat)
    requires hide World, Evaluate; World(c) && HasRoom(c, r, capacity) && Plain(c, r)
    requires CheckRenewal(ViewOf(c), r).Go?
    ensures Evaluate(ViewOf(c), r, Deal()) == Pass(r.units, [], Some(Row(r.path, Line(capacity))), None, 1)
  {
    hide Reachable, Homes, TwoLines, Deals, Held, LowerBound, CheckEligible, ChosenPath, CheckRenewal, W.FreeOf;
    LinesFound();
    AskArrives(c, r, capacity);
    RenewalSilent(ViewOf(c), r);
    assert CheckObligations(ViewOf(c), [], "d", "", r.units) == Go([]);
    assert CapacityStage(ViewOf(c), r, Deal(), Home(), Some(Row(r.path, Line(capacity)))) == SomeUnits(r.units, []);
    assert Domains(Home(), Home(), 0) == 1;
  }

  lemma AskGated(c: Core, r: Request)
    requires World(c) && Plain(c, r)
    requires r.attempt != [] && r.units <= MAX_UNITS
    requires if r.renewal then r.renewalOf != [] && r.renewalLease != []
             else r.renewalOf == [] == r.renewalLease && !Has(c.store.attempts, r.attempt)
    ensures Gate(c, r).None? && Get(c.store.contracts, r.contract) == Some(Deal())
  {
    hide Reachable, Homes, TwoLines, Deals, LowerBound, ReplayAttempt, RequestShape, FenceCheck, AllKnown;
    LinesFound();
    AskShape(c, r);
    AskFence(c, r);
  }

  lemma AskShape(c: Core, r: Request)
    requires Plain(c, r) && r.attempt != [] && r.units <= MAX_UNITS
    requires if r.renewal then r.renewalOf != [] && r.renewalLease != [] else r.renewalOf == [] == r.renewalLease
    ensures RequestShape(r) == Ok
  {
    assert IsUtf8("");
  }

  lemma AskFence(c: Core, r: Request)
    requires Plain(c, r) && c.store.spec.id == "c"
    ensures FenceCheck(c.store.spec, r) == Go([])
  {}

  /** What such a request is granted, positions aside. */
  function Sample(attempt: Id, path: Id, units: nat, lease: Id): Grant
  {
    Grant(Binding("c", "k", 1, "s", "d", "a", 1, ZeroDigest(), "a", 1, ZeroDigest(), "", "", path, 1, "", 0, lease, attempt,
                  "", "", Provenance("", "", "", 0, 0)),
          Coordinate(4, 1, 1, Life()), units, units, 1, 0, 0, Granted, Committed, CommitDone, 0, 0, 0, 0, false, false, true, [])
  }

  predicate Holding(g: Grant, attempt: Id, path: Id, units: nat, lease: Id)
  {
    g == Sample(attempt, path, units, lease).(prepareSeq := g.prepareSeq, commitSeq := g.commitSeq)
  }

  /** What a commit leaves alone, and what it does to the attempts. */
  lemma CommitRest(c: Core, id: Id, draft: Grant, r: Request)
    ensures var d := Commit(c, id, draft, r).0;
            && d.options == c.options && d.grantSerial == c.grantSerial && d.leaseSerial == c.leaseSerial
            && d.store == c.store.(grants := d.store.grants, attempts := d.store.attempts)
            && (d.store.attempts == c.store.attempts
                || d.store.attempts == Put(c.store.attempts, draft.binding.attempt,
                     MintedAttempt(c, id, draft.(prepareSeq := NextSequence(c.log), state := Committed, commit := CommitDone), r)))
  {
    hide Put, MintedAttempt;
  }

  lemma DraftHolds(c: Core, r: Request, capacity: nat, lease: Id)
    requires hide Reachable, Draft; World(c) && Plain(c, r) && r.units >= 1 && Has(c.store.spec.members, "a")
    requires Get(c.store.spec.members, "a") == Some(Home())
    ensures var g := Draft(Bumped(c), r, Deal(), Pass(r.units, [], Some(Row(r.path, Line(capacity))), None, 1), Granted, lease, 0);
            Holding(g.(state := Committed, commit := CommitDone, reserved := true), r.attempt, r.path, r.units, lease)
  {
    hide Reachable, Homes, TwoLines, Deals, LowerBound;
  }

  /** A new request for units there is room for is granted them. */
  lemma AskMints(c: Core, attempt: Id, units: nat)
    requires hide World, Enabled, Mints;
             World(c) && HasRoom(c, Ask(c, attempt, "p", units), 12) && attempt != [] && !Has(c.store.attempts, attempt)
    requires MayMint(c)
    ensures var r := Ask(c, attempt, "p", units);
            Enabled(c, Submission(r), Loose) && Mints(c, Submission(r))
  {
    hide Reachable, Homes, TwoLines, Deals, Evaluate, Gate, Has, Held, Restart, ApplySpec, ApplyContract;
    var r := Ask(c, attempt, "p", units);
    AskPasses(c, r, 12);
    AskGated(c, r);
  }

  /** The draft of such a grant. */
  function PlainDraft(c: Core, r: Request): Grant
    requires Get(c.store.spec.members, r.source).Some? && Get(c.store.spec.members, r.destination).Some?
  {
    Draft(Bumped(c), r, Deal(), Pass(r.units, [], Some(Row("p", Line(12))), None, 1), Granted, LeaseName(Bumped(c).leaseSerial), LeaseTicks(c, r))
  }

  lemma MintIs(c: Core, attempt: Id, units: nat)
    requires hide Reachable, Submit, Commit, Draft, HasRoom;
             World(c) && HasRoom(c, Ask(c, attempt, "p", units), 12) && attempt != [] && !Has(c.store.attempts, attempt)
    requires MayMint(c)
    ensures Get(c.store.spec.members, "a") == Some(Home())
    ensures var r := Ask(c, attempt, "p", units);
            && Submit(c, r) == Commit(Bumped(c), GrantName(c.grantSerial + 1), PlainDraft(c, r), r)
            && Bumped(c) == c.(grantSerial := c.grantSerial + 1, leaseSerial := c.leaseSerial + 1)
            && Holding(PlainDraft(c, r).(state := Committed, commit := CommitDone, reserved := true), attempt, "p", units, LeaseName(c.leaseSerial + 1))
  {
    hide Reachable, Homes, TwoLines, Deals, Evaluate, Gate, Held, Draft, Commit, GrantName, LeaseName, Submit, LowerBound,
         Enabled, Mints;
    var r := Ask(c, attempt, "p", units);
    AskMints(c, attempt, units);
    SubmitCommits(c, r);
    CountersLeft(c);
    LinesFound();
    AskPasses(c, r, 12);
    AskGated(c, r);
    DraftHolds(c, r, 12, LeaseName(Bumped(c).leaseSerial));
  }

  /** Afterwards the grant is in the table beside the others. */
  lemma MintsGrant(c: Core, attempt: Id, units: nat)
    requires hide World, Next, HasRoom;
             World(c) && HasRoom(c, Ask(c, attempt, "p", units), 12) && attempt != [] && !Has(c.store.attempts, attempt)
    requires MayMint(c)
    ensures var d := Next(c, Submission(Ask(c, attempt, "p", units)));
            var id := GrantName(c.grantSerial + 1);
            && Sorted(c.store.grants) && !Has(c.store.grants, id) && Has(d.store.grants, id)
            && d.store.grants == Put(c.store.grants, id, Get(d.store.grants, id).value)
            && Holding(Get(d.store.grants, id).value, attempt, "p", units, LeaseName(c.leaseSerial + 1))
            && Get(d.store.grants, id).value.prepareSeq == NextSequence(c.log)
            && Get(d.store.grants, id).value.commitSeq == NextSequence(c.log) + 1
  {
    hide Reachable, HasRoom, Draft, Commit, NextSequence, GrantName, LeaseName, Good, Submit, Enabled, MintedOn, Put, Mints, Bumped,
         Release, Acknowledge, Cancel, Mutate, MutateContract, SetPolicy, AdvanceTick, ExpireFrom, FenceFrom, RevalidateFrom,
         Compact, Restart;
    var r := Ask(c, attempt, "p", units);
    AskMints(c, attempt, units);
    ReachableGood(c, Loose);
    MintAdds(c, Submission(r), Loose);
    FreshFor(c, r, Loose);
    GoodTable(c, Loose);
    SortedAttempts(c, false);
    MintIs(c, attempt, units);
    MintRecorded(c, r);
    CommitTerms(Bumped(c), GrantName(c.grantSerial + 1), PlainDraft(c, r), r);
    StillHolding(PlainDraft(c, r), Get(Submit(c, r).0.store.grants, GrantName(c.grantSerial + 1)).value, r, LeaseName(c.leaseSerial + 1));
  }

  lemma StillHolding(draft: Grant, g: Grant, r: Request, lease: Id)
    requires Holding(draft.(state := Committed, commit := CommitDone, reserved := true), r.attempt, r.path, r.units, lease)
    requires g == draft.(state := Committed, commit := CommitDone, reserved := true, prepareSeq := g.prepareSeq, commitSeq := g.commitSeq)
    ensures Holding(g, r.attempt, r.path, r.units, lease)
  {}

  lemma MintRecorded(c: Core, r: Request)
    requires Reachable(c, Loose) && Enabled(c, Submission(r), Loose) && Mints(c, Submission(r))
    ensures Has(Submit(c, r).0.store.attempts, r.attempt)
  {
    hide Reachable, Enabled, Mints, Submit, OnTerms, LeasedFor, GrantName;
    MintedTerms(c, r, Loose);
  }

  /** And the controller is as it was but for its attempts and its next names. */
  lemma MintsWorld(c: Core, attempt: Id, units: nat)
    requires hide World, Next, HasRoom;
             World(c) && HasRoom(c, Ask(c, attempt, "p", units), 12) && attempt != [] && !Has(c.store.attempts, attempt)
    requires MayMint(c)
    ensures var d := Next(c, Submission(Ask(c, attempt, "p", units)));
            && World(d) && d.grantSerial == c.grantSerial + 1 && d.leaseSerial == c.leaseSerial + 1
            && (forall x :: Has(d.store.attempts, x) <==> Has(c.store.attempts, x) || x == attempt)
  {
    hide HasRoom, Draft, Commit, GrantName, LeaseName, Submit, Enabled, Put, Mints, Homes, TwoLines, Deals, Reachable, Has,
         MintedAttempt, Release, Acknowledge, Cancel, Mutate, MutateContract, SetPolicy, AdvanceTick, ExpireFrom, FenceFrom,
         RevalidateFrom, Compact, Restart;
    var r := Ask(c, attempt, "p", units);
    AskMints(c, attempt, units);
    OneStep(c, Submission(r), Loose);
    MintIs(c, attempt, units);
    CommitRest(Bumped(c), GrantName(c.grantSerial + 1), PlainDraft(c, r), r);
    var d := Submit(c, r).0;
    MintRecorded(c, r);
    ReachableSorted(c);
    forall x ensures Has(d.store.attempts, x) <==> Has(c.store.attempts, x) || x == attempt {
      if d.store.attempts != c.store.attempts {
        AddedOne(c.store.attempts, attempt, MintedAttempt(Bumped(c), GrantName(c.grantSerial + 1),
          PlainDraft(c, r).(prepareSeq := NextSequence(c.log), state := Committed, commit := CommitDone), r), x);
      }
    }
  }

  lemma ReachableSorted(c: Core)
    requires Reachable(c, Loose)
    ensures Sorted(c.store.attempts)
  {
    hide Reachable;
    ReachableGood(c, Loose);
    SortedAttempts(c, false);
  }

  lemma AddedOne<T>(t: Table<T>, id: Id, v: T, x: Id)
    requires Sorted(t)
    ensures Has(Put(t, id, v), x) <==> Has(t, x) || x == id
  {
    GetPut(t, id, v, x);
  }

  // ----- a full path -----

  function One(): Core { Next(Ready(), Submission(Ask(Ready(), "x", "p", 6))) }
  function Full(): Core { Next(One(), Submission(Ask(One(), "y", "p", 6))) }

  function First(): Id { GrantName(1) }
  function Second(): Id { GrantName(2) }

  lemma ReadyWorld()
    ensures World(Ready()) && Ready().store.grants == [] && Ready().store.attempts == []
    ensures Ready().grantSerial == 0 && Ready().leaseSerial == 0 && NextSequence(Ready().log) == 6
  {
    hide Reachable, Ready, Homes, TwoLines;
    NoRow<Contract>("k");
    ReadyStage();
  }

  lemma PutOnPath(t: Table<Grant>, id: Id, g: Grant, attempt: Id, units: nat, lease: Id)
    requires !Has(t, id) && Holding(g, attempt, "p", units, lease)
    ensures Total(Put(t, id, g), OnPath("p")) == Total(t, OnPath("p")) + units
    ensures Total(Put(t, id, g), OnPath("q")) == Total(t, OnPath("q"))
    ensures Total(Put(t, id, g), Slot("p")) == Total(t, Slot("p")) + 1
  {
    TotalPut(t, id, g, OnPath("p"));
    TotalPut(t, id, g, OnPath("q"));
    TotalPut(t, id, g, Slot("p"));
  }

  lemma OneHeld()
    ensures hide World, One, Holding; World(One()) && One().grantSerial == 1 && One().leaseSerial == 1
    ensures forall x :: Has(One().store.attempts, x) <==> x == "x"
    ensures |One().store.grants| == 1 && Has(One().store.grants, First())
    ensures Holding(Get(One().store.grants, First()).value, "x", "p", 6, LeaseName(1))
    ensures Get(One().store.grants, First()).value.prepareSeq == 6 && Get(One().store.grants, First()).value.commitSeq == 7
    ensures Total(One().store.grants, OnPath("p")) == 6 && Total(One().store.grants, OnPath("q")) == 0
    ensures Total(One().store.grants, Slot("p")) == 1
  {
    hide World, Ready, Holding, GrantName, LeaseName, Next, Put, Weight, LowerBound, TwoLines;
    ReadyWorld();
    LinesFound();
    NoRow<Attempt>("x");
    MintsGrant(Ready(), "x", 6);
    MintsWorld(Ready(), "x", 6);
    PutOnPath([], First(), Get(One().store.grants, First()).value, "x", 6, LeaseName(1));
    forall x ensures !Has<Attempt>([], x) { NoRow<Attempt>(x); }
  }

  /** Two grants of 6 units each fill the first path. */
  lemma FullHeld()
    ensures hide World, Full, Holding; World(Full()) && Full().grantSerial == 2 && Full().leaseSerial == 2
    ensures |Full().store.grants| == 2 && First() != Second()
    ensures Has(Full().store.grants, First()) && Holding(Get(Full().store.grants, First()).value, "x", "p", 6, LeaseName(1))
    ensures Get(Full().store.grants, First()).value.prepareSeq == 6 && Get(Full().store.grants, First()).value.commitSeq == 7
    ensures Has(Full().store.grants, Second()) && Holding(Get(Full().store.grants, Second()).value, "y", "p", 6, LeaseName(2))
    ensures Has(Full().store.attempts, "x") && Has(Full().store.attempts, "y")
    ensures Total(Full().store.grants, OnPath("p")) == 12 && Total(Full().store.grants, OnPath("q")) == 0
    ensures Total(Full().store.grants, Slot("p")) == 2
  {
    hide World, One, Holding, GrantName, LeaseName, Next, Put, Weight, LowerBound, TwoLines;
    OneHeld();
    LinesFound();
    MintsGrant(One(), "y", 6);
    MintsWorld(One(), "y", 6);
    var g := Get(Full().store.grants, Second()).value;
    PutOnPath(One().store.grants, Second(), g, "y", 6, LeaseName(2));
    GetPut(One().store.grants, Second(), g, First());
  }

  // ----- what its next steps do -----

  lemma {:induction false} AllSurvive(s: Store, t: Table<Grant>, k: Key)
    requires forall i :: 0 <= i < |t| ==> Survives(s, t[i].val)
    ensures Surviving(s, t, k) == Total(t, k)
  {
    if t != [] { AllSurvive(s, t[..|t| - 1], k); }
  }

  lemma HoldingStands(s: Store, g: Grant, attempt: Id, lease: Id, p: Path)
    requires Holding(g, attempt, "p", 6, lease) && Get(s.spec.members, "a") == Some(Home()) && Get(s.contracts, "k") == Some(Deal())
    requires Get(s.spec.paths, "p") == Some(p) && p.generation == 1 && p.state == Operational && 6 <= p.capacity
    ensures Survives(s, g)
  {
    hide LowerBound;
    assert IsZero(Home().digest);
  }

  /** The first path declared anew, with room for each of its grants alone. */
  predicate Redeclares(p: Path)
  {
    p == Line(p.capacity).(exclusive := p.exclusive) && 6 <= p.capacity
  }

  lemma RedeclaredSpec(p: Path)
    requires Redeclares(p)
    ensures World(Full())
    ensures var op := UpsertPath("p", p); var s := Mutated(Full().store, op);
            && ApplySpec(Full().store.spec, Full().store.tick, op).1 == Ok && Get(s.spec.paths, "p") == Some(p)
            && s.spec.members == Homes() && s.contracts == Deals()
  {
    hide Full, Reachable, Homes, Deals, TwoLines, LowerBound, Put, Holding, Total, GrantName, LeaseName, ApplySpec, Line, Redeclares;
    FullHeld();
    LinesFound();
    LinesSorted();
    RedeclareOk(Full().store.spec, p);
    GetPut(TwoLines(), "p", p, "p");
  }

  lemma RedeclareOk(s: Spec, p: Path)
    requires Redeclares(p) && s.generation == 4 && Get(s.paths, "p") == Some(Line(12))
    ensures var e := ApplySpec(s, 0, UpsertPath("p", p));
            e.1 == Ok && e.0.paths == Put(s.paths, "p", p) && e.0.members == s.members
  {
    hide Put, LowerBound;
  }

  lemma LinesSorted()
    ensures Sorted(TwoLines())
  {
    PutSorted<Path>([], "p", Line(12));
    PutSorted(OneLine(), "q", Line(100));
  }

  lemma BothStand(p: Path)
    requires hide Full; Redeclares(p)
    ensures var s := Mutated(Full().store, UpsertPath("p", p));
            forall n :: 0 <= n < |Full().store.grants| ==> Survives(s, Full().store.grants[n].val)
  {
    hide Full, Reachable, Homes, Deals, TwoLines, LowerBound, Put, Holding, Total, GrantName, LeaseName, ApplySpec, First, Second,
         Survives, Line;
    FullHeld();
    RedeclaredSpec(p);
    LinesFound();
    var s, t := Mutated(Full().store, UpsertPath("p", p)), Full().store.grants;
    RedeclaredPath(p);
    HoldingStands(s, Get(t, First()).value, "x", LeaseName(1), p);
    HoldingStands(s, Get(t, Second()).value, "y", LeaseName(2), p);
    forall n | 0 <= n < |t| ensures Survives(s, t[n].val) { EitherRow(t, First(), Second(), n); }
  }

  lemma EitherRow<T>(t: Table<T>, a: Id, b: Id, n: nat)
    requires |t| == 2 && a != b && Has(t, a) && Has(t, b) && n < 2
    ensures t[n].val == Get(t, a).value || t[n].val == Get(t, b).value
  {}

  lemma RedeclaredPath(p: Path)
    requires Redeclares(p)
    ensures p.generation == 1 && p.state == Operational && 6 <= p.capacity
  {}

  /** Redeclaring the path this way revokes nothing: both grants go on holding what they held. */
  lemma RedeclaredHolds(p: Path)
    requires Redeclares(p)
    ensures var t := Mutate(Full(), UpsertPath("p", p)).0.store.grants;
            Total(t, OnPath("p")) == 12 && Total(t, Slot("p")) == 2
  {
    hide Full, Reachable, Homes, Deals, TwoLines, LowerBound, Put, Holding, Total, GrantName, LeaseName, ApplySpec, Mutate,
         First, Second, Survives, Line, Mutated, Redeclares;
    FullHeld();
    RedeclaredSpec(p);
    BothStand(p);
    var op := UpsertPath("p", p);
    var s, t := Mutated(Full().store, op), Full().store.grants;
    MutationHolds(Full(), op, OnPath("p"));
    MutationHolds(Full(), op, Slot("p"));
    AllSurvive(s, t, OnPath("p"));
    AllSurvive(s, t, Slot("p"));
  }

  /** The full path's capacity is set from 12 to 10: the change is accepted, each grant of 6 alone still stands, both
      stay, and 12 units are held of 10. */
  lemma ShrinkOvercommits()
    ensures hide Full, Reachable, Mutate; var op := UpsertPath("p", Line(10));
            && Reachable(Full(), Loose) && Total(Full().store.grants, OnPath("p")) == 12
            && Get(Full().store.spec.paths, "p") == Some(Line(12))
            && Mutate(Full(), op).1 == Ok && Get(Mutate(Full(), op).0.store.spec.paths, "p") == Some(Line(10))
            && Total(Mutate(Full(), op).0.store.grants, OnPath("p")) == 12
  {
    hide Full, Reachable, Homes, Deals, TwoLines, Put, Holding, Total, ApplySpec, RevalidateFrom, LowerBound, GrantName, LeaseName;
    FullHeld();
    LinesFound();
    RedeclaredSpec(Line(10));
    RedeclaredHolds(Line(10));
    MutationSpec(Full(), UpsertPath("p", Line(10)));
  }

  /** The same path is declared exclusive with both grants on it: accepted, and it has two holders. */
  lemma ExclusiveTooLate()
    ensures hide Full, Reachable, Mutate; var op := UpsertPath("p", Line(12).(exclusive := true));
            && Mutate(Full(), op).1 == Ok && Get(Mutate(Full(), op).0.store.spec.paths, "p") == Some(Line(12).(exclusive := true))
            && Total(Mutate(Full(), op).0.store.grants, Slot("p")) == 2
  {
    hide Full, Reachable, Homes, Deals, TwoLines, Put, Holding, Total, ApplySpec, RevalidateFrom, LowerBound, GrantName, LeaseName;
    var p := Line(12).(exclusive := true);
    FullHeld();
    RedeclaredSpec(p);
    RedeclaredHolds(p);
    MutationSpec(Full(), UpsertPath("p", p));
  }

  function Elsewhere(): Request { AskAgain(Full(), "x", "q", 50, First(), LeaseName(1)) }

  /** There is room on the second path. */
  lemma RoomElsewhere()
    ensures hide World, Full; World(Full()) && Plain(Full(), Elsewhere()) && HasRoom(Full(), Elsewhere(), 100)
  {
    hide Full, Homes, Deals, TwoLines, Held, Has, GrantName, LeaseName, First, Second, World, Holding, Total, Plain, Line, Get,
         Elsewhere, OneLine, Home, Deal, Put, LowerBound;
    FullHeld();
    LinesFound();
    OthersOnSecond();
    PlainElsewhere();
  }

  lemma PlainElsewhere()
    ensures Plain(Full(), Elsewhere()) && Elsewhere().path == "q" && Elsewhere().units == 50
    ensures Skip(Elsewhere()) == Some(First())
  {
    hide Full, First, LeaseName;
    NamesPlain();
  }

  lemma OthersOnSecond()
    ensures Held(Full().store.grants, OnPath("q"), Some(First())) == 0
  {
    hide Full, Reachable, Held, LowerBound, GrantName, LeaseName, First, Second, World;
    FullHeld();
    FullSorted();
    HeldSkip(Full().store.grants, OnPath("q"), First());
  }

  /** The renewal names the grant it renews correctly. */
  lemma NamesItsGrant()
    ensures CheckRenewal(ViewOf(Full()), Elsewhere()).Go?
  {
    hide Full, Reachable, Has, Total, GrantName, LeaseName, First, Second, World, CheckRenewal, Holding;
    FullHeld();
    HoldingNames(ViewOf(Full()), Elsewhere(), Get(Full().store.grants, First()).value);
  }

  lemma HoldingNames(v: View, r: Request, g: Grant)
    requires r.renewal && Get(v.grants, r.renewalOf) == Some(g) && Holding(g, r.attempt, "p", 6, r.renewalLease)
    ensures CheckRenewal(v, r).Go?
  {
    hide Has;
  }

  lemma OthersOnFirst()
    ensures World(Full()) && Held(Full().store.grants, OnPath("p"), Some(First())) == 6
  {
    hide Full, Reachable, Held, LowerBound, GrantName, LeaseName, First, Second, World;
    FullHeld();
    FullSorted();
    HeldSkip(Full().store.grants, OnPath("p"), First());
  }

  lemma ElsewherePasses()
    ensures hide Full, Gate; var c, r := Full(), Elsewhere();
            Gate(c, r).None? && r.renewal && Get(c.store.contracts, r.contract) == Some(Deal())
            && Authorised(c, r, Deal()) && Evaluate(ViewOf(c), r, Deal()).units == 50
  {
    hide Full, Reachable, Homes, Deals, TwoLines, Held, LowerBound, GrantName, LeaseName, First, Second, World, Evaluate, Gate,
         HasRoom, CheckRenewal;
    RoomElsewhere();
    NamesItsGrant();
    NamesPlain();
    AskPasses(Full(), Elsewhere(), 100);
    AskGated(Full(), Elsewhere());
  }

  /** The first grant is renewed for 50 units of the second path, where there is room for 100: it stays on the
      first, which then holds 56 of 12. */
  lemma RenewalOvercommits()
    ensures hide Full, Reachable, Submit, Gate, Authorised; var r := Elsewhere();
            && Reachable(Full(), Loose) && Gate(Full(), r).None? && Authorised(Full(), r, Deal())
            && Get(Full().store.spec.paths, "p") == Some(Line(12))
            && Total(Submit(Full(), r).0.store.grants, OnPath("p")) == 56
  {
    hide Full, Reachable, Homes, Deals, TwoLines, Held, Evaluate, Gate, Submit, LowerBound, GrantName, LeaseName, TrueOffer,
         Second, Authorised;
    FullHeld();
    LinesFound();
    OthersOnFirst();
    ElsewherePasses();
    PassedOffer(Full(), Elsewhere(), Deal());
    RenewalTotal(Full(), Elsewhere(), OnPath("p"));
  }

  lemma PassedOffer(c: Core, r: Request, k: Contract)
    requires hide Reachable, TrueOffer; Reachable(c, Loose) && Authorised(c, r, k)
    ensures Evaluate(ViewOf(c), r, k).Pass? && TrueOffer(c, r, k) == Evaluate(ViewOf(c), r, k).units
  {
    hide Reachable, Evaluate, TrueOffer;
    PassIsTheOffer(c, r, k, Loose);
  }

  lemma FullSorted()
    requires World(Full())
    ensures GrantsWell(Full().store.grants)
  {
    hide Full, Reachable, Good;
    ReachableGood(Full(), Loose);
    GoodTable(Full(), Loose);
  }

  lemma NamesPlain()
    ensures First() != [] && LeaseName(1) != []
  {
    NamesNumber(1);
    assert |LeaseName(1)| >= |"l-"|;
  }

  /** Cancelling the first attempt with the second grant: the first attempt is marked cancelled, and its own grant
      goes on holding its units. */
  lemma CancelsTheOther()
    ensures hide Full, Reachable, Cancel; var d := Cancel(Full(), CancelRequest("r", "x", Second(), "")).0;
            && Reachable(Full(), Loose) && Get(d.store.attempts, "x").Some? && Get(d.store.attempts, "x").value.cancelled
            && Get(d.store.grants, First()).Some? && HoldsCapacity(Get(d.store.grants, First()).value.state)
            && Get(d.store.grants, First()).value.binding.attempt == "x"
  {
    hide Full, Reachable, Cancel, LowerBound, GrantName, LeaseName, First, Second, Homes, TwoLines, Deals, Total;
    FullHeld();
    FullSorted();
    NamesBoth();
    var c, r := Full(), CancelRequest("r", "x", Second(), "");
    AttemptGrant(c, "x", Loose);
    SameAttemptSameGrant(c.store.grants, Get(c.store.attempts, "x").value.grant, First());
    assert IsUtf8("");
    AttemptOpen(c, "x");
    CancelLeavesHolding(c, r);
    CancelBinds(c, r, First());
  }

  lemma NamesBoth()
    ensures Second() != []
  {
    NamesNumber(2);
  }

  /** The attempt of a grant that holds capacity is not closed. */
  lemma AttemptOpen(c: Core, id: Id)
    requires hide Reachable; Reachable(c, Loose) && Has(c.store.attempts, id)
    requires var a := Get(c.store.attempts, id).value;
             Has(c.store.grants, a.grant) && HoldsCapacity(Get(c.store.grants, a.grant).value.state)
    ensures !Get(c.store.attempts, id).value.cancelled
  {
    hide Reachable;
    AttemptGrant(c, id, Loose);
  }

  lemma CancelBinds(c: Core, r: CancelRequest, id: Id)
    requires hide Reachable, Cancel; Reachable(c, Loose) && Has(c.store.grants, id)
    ensures Has(Cancel(c, r).0.store.grants, id)
    ensures Get(Cancel(c, r).0.store.grants, id).value.binding == Get(c.store.grants, id).value.binding
  {
    hide Reachable, Good, Cancel, LowerBound;
    ReachableGood(c, Loose);
    CancelKept(c, r, Loose);
    SameIds(c.store.grants, Cancel(c, r).0.store.grants, id);
  }
}
