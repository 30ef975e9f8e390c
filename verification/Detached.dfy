/** The daemon's starts (`open_state`, src/server.cpp). The first one writes a journal; every later one replays it and
    recovers without attaching it, so that the file stands still while the controller goes on. */
module Detached {
  import opened Tables
  import opened Model
  import opened Cluster
  import opened Accounting
  import opened Eligibility
  import opened Engine
  import opened Vocabulary
  import opened Replay
  import opened Safety
  import opened Durability
  import opened Invariant
  import opened Fates
  import opened Recovery
  import opened Submission
  import opened Operations
  import opened Runs
  import opened Guarantees
  import opened Ledger
  import opened Terms
  import W = Wording

  // ----- the daemon over its starts -----

  /** A controller and the file its next start reads. `core.log` goes on whether attached or not: it is what an attached
      journal would hold. */
  datatype Daemon = Daemon(core: Core, file: Log, attached: bool)

  /** How many records a start finds whole, and what it brings. */
  datatype Start = Start(kept: nat, options: Options, incarnation: seq<byte>)

  datatype Event = Working(step: Step) | Starting(start: Start)

  /** The clock a start resumes at: one tick after the latest the file tells of. */
  function ResumeTick(log: Log): nat
  {
    match Raw(log)
    case Success(r) => if Finish(r).tick == 0 then 1 else Wrap(Finish(r).tick + 1)
    case Failure(_) => 1
  }

  /** What a start makes of the file. */
  function Started(d: Daemon, s: Start): (Core, StatusCode)
    requires s.kept <= |d.file|
  {
    Restart(d.core.(log := d.file), s.kept, s.options, s.incarnation, ResumeTick(d.file[..s.kept]))
  }

  /** The first start, on no file. */
  function Begun(options: Options, cluster: Id, incarnation: seq<byte>, policy: nat): Daemon
  {
    var c := Initialize(options, cluster, incarnation, policy, 1);
    Daemon(c, c.log, true)
  }

  function On(d: Daemon, e: Event): Daemon
  {
    match e
    case Working(step) =>
      var c := Next(d.core, step);
      Daemon(c, if d.attached then c.log else d.file, d.attached)
    case Starting(s) => if s.kept <= |d.file| then Daemon(Started(d, s).0, d.file[..s.kept], false) else d
  }

  /** Work is any step but a crash; a start finds at least one whole record and is not refused. */
  ghost predicate May(d: Daemon, e: Event)
  {
    match e
    case Working(step) => !step.Crashing? && Enabled(d.core, step, Loose)
    case Starting(s) => 1 <= s.kept <= |d.file| && Started(d, s).1 == Ok
  }

  ghost predicate Lives(d: Daemon, es: seq<Event>)
    decreases |es|
  {
    hide On, May; es == [] || (May(d, es[0]) && Lives(On(d, es[0]), es[1..]))
  }

  function Later(d: Daemon, es: seq<Event>): Daemon
    decreases |es|
  {
    hide On; if es == [] then d else Later(On(d, es[0]), es[1..])
  }

  /** The file is the beginning of the log of a controller that some run reaches. */
  ghost predicate OnFile(file: Log)
  {
    file != [] && exists c :: Reachable(c, Loose) && file <= c.log
  }

  /** The controller is in a state that some run reaches, and its file tells of one; while it is attached, of this one. */
  ghost predicate Valid(d: Daemon)
  {
    Reachable(d.core, Loose) && OnFile(d.file) && (d.attached ==> d.file == d.core.log)
  }

  lemma BegunValid(options: Options, cluster: Id, incarnation: seq<byte>, policy: nat)
    requires cluster != []
    ensures Valid(Begun(options, cluster, incarnation, policy))
  {
    hide Initialize, Enabled, Next;
    var c := Initialize(options, cluster, incarnation, policy, 1);
    assert Reaches(options, cluster, incarnation, policy, 1, [], Loose, c);
    StartGood(options, cluster, incarnation, policy, 1, Loose);
    LogNotEmpty(c);
    LogOnFile(c);
  }

  lemma LogNotEmpty(c: Core)
    requires Good(c, Loose)
    ensures c.log != []
  {}

  lemma LogOnFile(c: Core)
    requires hide Reachable; Reachable(c, Loose) && c.log != []
    ensures OnFile(c.log)
  {
    hide Reachable;
    assert c.log <= c.log;
  }

  /** What a reached file's first records stand for. */
  lemma FileReads(c: Core, file: Log, kept: nat)
    requires hide Reachable; Reachable(c, Loose) && file <= c.log && 1 <= kept <= |file|
    ensures c.log[..kept] == file[..kept] && Raw(file[..kept]).Success?
  {
    hide Reachable, DurableAt, Durable;
    ReachableGood(c, Loose);
    PrefixDurable(c, kept, Loose);
    PrefixState(c.log[..kept], false);
    assert c.log[..kept] == file[..kept];
  }

  /** A start is a crash of the controller whose log the file begins, kept up to the same record. */
  lemma StartIsCrash(d: Daemon, c: Core, s: Start)
    requires hide Reachable, Crashed, Started; Reachable(c, Loose) && d.file <= c.log && 1 <= s.kept <= |d.file|
    ensures Started(d, s) == Crashed(c, s, ResumeTick(d.file[..s.kept]))
  {
    hide Reachable, Recover, Raw, ResumeTick;
    FileReads(c, d.file, s.kept);
  }

  /** What the same start would make of this controller's log, at this tick. */
  function Crashed(c: Core, s: Start, tick: nat): (Core, StatusCode)
    requires s.kept <= |c.log|
  {
    Restart(c, s.kept, s.options, s.incarnation, tick)
  }

  /** Every event keeps this, and from the first recovery on no event makes the file longer. */
  lemma EventKeeps(d: Daemon, e: Event)
    requires hide Reachable, Valid, On, Started, Enabled; Valid(d) && May(d, e)
    ensures Valid(On(d, e))
    ensures !d.attached ==> !On(d, e).attached && On(d, e).file <= d.file
    ensures e.Starting? ==> !On(d, e).attached && On(d, e).file == d.file[..e.start.kept]
  {
    hide Reachable, Next, Runs.Enabled, Restart, ResumeTick;
    match e
    case Working(step) =>
      OneStep(d.core, step, Loose);
      if d.attached {
        ReachableGood(Next(d.core, step), Loose);
        LogNotEmpty(Next(d.core, step));
        LogOnFile(Next(d.core, step));
      }
    case Starting(s) =>
      var c :| Reachable(c, Loose) && d.file <= c.log;
      StartIsCrash(d, c, s);
      CrashReachable(c, s, ResumeTick(d.file[..s.kept]));
      assert d.file[..s.kept] <= c.log;
  }

  lemma CrashReachable(c: Core, s: Start, tick: nat)
    requires hide Reachable, Crashed;
             Reachable(c, Loose) && 1 <= s.kept <= |c.log| && Crashed(c, s, tick).1 == Ok
    ensures Reachable(Crashed(c, s, tick).0, Loose)
  {
    hide Reachable, Restart, Runs.Enabled, Next;
    CrashEnabled(c, s, tick);
    OneStep(c, Crashing(s.kept, s.options, s.incarnation, tick), Loose);
  }

  lemma CrashEnabled(c: Core, s: Start, tick: nat)
    requires hide Crashed, Enabled, Next; 1 <= s.kept <= |c.log| && Crashed(c, s, tick).1 == Ok
    ensures Runs.Enabled(c, Crashing(s.kept, s.options, s.incarnation, tick), Loose)
    ensures Next(c, Crashing(s.kept, s.options, s.incarnation, tick)) == Crashed(c, s, tick).0
  {
    hide Restart, Submit, Release, Acknowledge, Cancel, Mutate, MutateContract, SetPolicy, AdvanceTick, ExpireFrom, FenceFrom,
         RevalidateFrom, Compact, Gate, Authorised, ApplySpec, ApplyContract, LeavesRoom, CancelsOwn, RenewsInPlace, MayMint;
  }

  /** Whatever a daemon does, its controller stays among the states the engine's runs reach, and once it has recovered,
      its file never tells of anything more. */
  lemma {:induction false} FileStands(d: Daemon, es: seq<Event>)
    requires hide Reachable, Next; Valid(d) && Lives(d, es)
    ensures Valid(Later(d, es))
    ensures !d.attached ==> !Later(d, es).attached && Later(d, es).file <= d.file
    decreases |es|
  {
    hide Valid, May, On;
    if es != [] {
      EventKeeps(d, es[0]);
      FileStands(On(d, es[0]), es[1..]);
    }
  }

  ghost predicate Leads(options: Options, cluster: Id, incarnation: seq<byte>, policy: nat, es: seq<Event>, d: Daemon)
  {
    cluster != [] && Lives(Begun(options, cluster, incarnation, policy), es) && d == Later(Begun(options, cluster, incarnation, policy), es)
  }

  /** Some life from some first start leads here. */
  ghost predicate Born(d: Daemon)
  {
    exists options, cluster, incarnation, policy, es :: Leads(options, cluster, incarnation, policy, es, d)
  }

  /** So of every daemon: its controller is in a state that the engine's runs reach, and its file tells of one. */
  lemma BornValid(d: Daemon)
    requires Born(d)
    ensures Valid(d)
  {
    hide Valid, Lives, Later, Begun;
    var options, cluster, incarnation, policy, es :| Leads(options, cluster, incarnation, policy, es, d);
    BegunValid(options, cluster, incarnation, policy);
    FileStands(Begun(options, cluster, incarnation, policy), es);
  }

  // ----- two starts on one file -----

  lemma {:induction false} RecoverFrame(c: Core, i: nat)
    ensures GrantsAndAttempts(c, RecoverFrom(c, i))
    decreases |c.store.grants| - i
  {
    hide RecoverGrant;
    if i < |c.store.grants| {
      RecoverRow(c, i);
      RecoverFrame(RecoverGrant(c, i), i + 1);
    }
  }

  lemma RecoverRow(c: Core, i: nat)
    requires i < |c.store.grants|
    ensures GrantsAndAttempts(c, RecoverGrant(c, i))
  {
    hide AbandonPrepared, Quarantine, Revalidate;
    AbandonFrame(c, i);
    QuarantineFrame(c, i);
    RevalidateFrame(c, i);
  }

  lemma AbandonFrame(c: Core, i: nat)
    requires i < |c.store.grants|
    ensures GrantsAndAttempts(c, AbandonPrepared(c, i))
  {
    hide Put, AddReason, Room, Unfinished;
  }

  lemma QuarantineFrame(c: Core, i: nat)
    requires i < |c.store.grants|
    ensures GrantsAndAttempts(c, Quarantine(c, i))
  {
    hide Put, Room, Uncertain, Quarantined;
  }

  lemma RevalidateFrame(c: Core, i: nat)
    requires i < |c.store.grants|
    ensures GrantsAndAttempts(c, Revalidate(c, i))
  {
    hide Standing, AddReason, Reissued, FallWords;
  }

  lemma {:induction false} ReconcileFrame(c: Core, i: nat)
    ensures OnlyAttempts(c, ReconcileFrom(c, i))
    decreases |c.store.grants| - i
  {
    hide Put;
    if i < |c.store.grants| { ReconcileFrame(Reconcile(c, i), i + 1); }
  }

  /** All of a recovered controller but its grants, attempts and log, out of what the file stands for. */
  lemma RecoverOutline(options: Options, s: Store, log: Log, incarnation: seq<byte>, tick: nat)
    requires hide Recover; Recover(options, s, log, incarnation, tick).1 == Ok
    ensures var c := Recover(options, s, log, incarnation, tick).0;
            && c.options == options && c.store.contracts == s.contracts
            && c.store.tick == (if tick > s.tick then tick else s.tick)
            && c.store.spec == BeginEpoch(s.spec, incarnation, s.spec.policy).0
            && c.grantSerial == MaxSuffix(SortById(s.grants), false) && c.leaseSerial == MaxSuffix(SortById(s.grants), true)
  {
    hide RecoverFrom, ReconcileFrom, MaxSuffix, SortById, BeginEpoch;
    var a := Adopt(options, s, log, incarnation, tick).0;
    RecoverFrame(a, 0);
    ReconcileFrame(RecoverFrom(a, 0), 0);
  }

  /** The same grants, bound alike, holding alike. */
  ghost predicate SameHoldings(t: Table<Grant>, u: Table<Grant>)
  {
    |u| == |t| && forall i :: 0 <= i < |t| ==> SameHolding(t[i], u[i])
  }

  predicate SameHolding(a: Row<Grant>, b: Row<Grant>)
  {
    b.id == a.id && b.val.binding == a.val.binding && b.val.units == a.val.units && b.val.state == a.val.state
  }

  /** Two controllers that differ in nothing a request is judged by, save their incarnation and what they make of
      attempts. */
  ghost predicate Alike(c: Core, d: Core)
  {
    && d.options == c.options && d.grantSerial == c.grantSerial && d.leaseSerial == c.leaseSerial
    && d.store.tick == c.store.tick && d.store.contracts == c.store.contracts
    && d.store.spec == c.store.spec.(incarnation := d.store.spec.incarnation)
    && SameHoldings(c.store.grants, d.store.grants)
  }

  lemma FatesAgree(s: Store, t: Store, p: RecoveryPolicy, a: Row<Grant>, b: Row<Grant>, c: Row<Grant>)
    requires Recovered(s, p, a, b) && Recovered(t, p, a, c)
    requires t.spec == s.spec.(incarnation := t.spec.incarnation) && t.contracts == s.contracts
    ensures SameHolding(b, c)
  {
    hide MembersStand, PathStands, CheckLifecycle;
  }

  /** Two starts of the same configuration on the same records make two controllers that are alike: the file has not
      moved, so neither has the clock they resume at nor the epoch they begin. */
  lemma StartsAlike(c: Core, s: Start, z: Start, tick: nat)
    requires hide Good, Crashed;
             Good(c, Loose) && 1 <= s.kept <= |c.log| && z == s.(incarnation := z.incarnation)
    requires Crashed(c, s, tick).1 == Ok && Crashed(c, z, tick).1 == Ok
    ensures Alike(Crashed(c, s, tick).0, Crashed(c, z, tick).0)
  {
    hide Good, Durable, DurableAt, Raw, Recover, Recovered, MaxSuffix, SortById, SameHolding;
    PrefixDurable(c, s.kept, Loose);
    var log := c.log[..s.kept];
    PrefixState(log, false);
    var store := Finish(Raw(log).value);
    RecoverGood(s.options, log, s.incarnation, tick, Loose);
    RecoverGood(s.options, log, z.incarnation, tick, Loose);
    RecoverOutline(s.options, store, log, s.incarnation, tick);
    RecoverOutline(s.options, store, log, z.incarnation, tick);
    var d, f := Crashed(c, s, tick).0, Crashed(c, z, tick).0;
    forall i | 0 <= i < |store.grants| ensures SameHolding(d.store.grants[i], f.store.grants[i]) {
      FatesAgree(d.store, f.store, s.options.recovery, store.grants[i], d.store.grants[i], f.store.grants[i]);
    }
  }

  // ----- they judge alike -----

  /** The same request for the same thing, in whoever's name. */
  predicate SameAsk(r: Request, q: Request)
  {
    q == r.(id := q.id, at := q.at, attempt := q.attempt, digest := q.digest, provenance := q.provenance)
  }

  /** What evaluation looks at is alike. */
  ghost predicate SameView(v: View, w: View)
  {
    w == v.(spec := v.spec.(incarnation := w.spec.incarnation), grants := w.grants) && SameHoldings(v.grants, w.grants)
  }

  ghost predicate Unused(t: Table<Grant>, attempt: Id)
  {
    forall i :: 0 <= i < |t| ==> t[i].val.binding.attempt != attempt
  }

  lemma {:induction false} HeldAlike(t: Table<Grant>, u: Table<Grant>, k: Key, skip: Option<Id>)
    requires SameHoldings(t, u)
    ensures Held(u, k, skip) == Held(t, k, skip)
  {
    if t != [] {
      var n := |t| - 1;
      assert SameHolding(t[n], u[n]);
      HeldAlike(t[..n], u[..n], k, skip);
    }
  }

  lemma {:induction false} PerDomainAlike(t: Table<Grant>, u: Table<Grant>, s: Spec, z: Spec, o: Obligation)
    requires SameHoldings(t, u) && z.members == s.members
    ensures PerDomain(u, z, o) == PerDomain(t, s, o)
  {
    hide DomainKey, LowerBound;
    if t != [] {
      var n := |t| - 1;
      assert SameHolding(t[n], u[n]);
      PerDomainAlike(t[..n], u[..n], s, z, o);
    }
  }

  lemma {:induction false} SelectAlike(t: Table<Path>, r: Request, q: Request)
    requires SameAsk(r, q)
    ensures SelectPath(t, q) == SelectPath(t, r)
  {
    hide Less;
    if t != [] { SelectAlike(t[1..], r, q); }
  }

  lemma ChosenAlike(v: View, w: View, r: Request, q: Request)
    requires SameView(v, w) && SameAsk(r, q)
    ensures ChosenPath(w, q) == ChosenPath(v, r)
  {
    hide SelectPath, LowerBound;
    SelectAlike(v.spec.paths, r, q);
  }

  lemma HoldersAlike(t: Table<Grant>, u: Table<Grant>, path: Id, a: Id, b: Id)
    requires SameHoldings(t, u) && Unused(t, a) && Unused(t, b)
    ensures OtherHolder(u, path, b, None) == OtherHolder(t, path, a, None)
  {
    if i :| 0 <= i < |t| && HoldsCapacity(t[i].val.state) && t[i].val.binding.path == path {
      assert SameHolding(t[i], u[i]);
      assert OtherHolder(t, path, a, None) && OtherHolder(u, path, b, None);
    }
  }

  lemma EligibleAlike(v: View, w: View, s: Member, d: Member, r: Request, q: Request, k: Contract)
    requires SameView(v, w) && SameAsk(r, q)
    ensures CheckEligible(w, s, d, q, k) == CheckEligible(v, s, d, r, k)
  {
    hide ChosenPath, CheckLifecycle, CheckUsable, DomainKey, W.MemberState, ExclusionForMember, ExclusionForPath, Then;
    ChosenAlike(v, w, r, q);
  }

  lemma PathStageAlike(v: View, w: View, r: Request, q: Request, k: Contract, p: Option<Row<Path>>, want: nat)
    requires SameView(v, w) && SameAsk(r, q) && !r.renewal && Unused(v.grants, r.attempt) && Unused(v.grants, q.attempt)
    ensures PathStage(w, q, k, p, want) == PathStage(v, r, k, p, want)
  {
    hide OtherHolder, Held, Reduce, W.FreeOf, Cut, Saturated, SameHoldings, Unused;
    if p.Some? {
      HeldAlike(v.grants, w.grants, OnPath(p.value.id), None);
      HoldersAlike(v.grants, w.grants, p.value.id, r.attempt, q.attempt);
    }
  }

  lemma ResourceStageAlike(v: View, w: View, r: Request, q: Request, k: Contract, s: Member, p: Option<Row<Path>>, units: nat)
    requires SameView(v, w) && SameAsk(r, q) && !r.renewal
    ensures ResourceStage(w, q, k, s, p, units) == ResourceStage(v, r, k, s, p, units)
  {
    hide FindResource, Held, Reduce, W.FreeOf, Cut, Saturated, SameHoldings;
    var x := FindResource(s.resources, r.resource);
    if x.Some? { HeldAlike(v.grants, w.grants, OnResource(x.value.id), None); }
  }

  lemma CapacityAlike(v: View, w: View, r: Request, q: Request, k: Contract, s: Member, p: Option<Row<Path>>)
    requires SameView(v, w) && SameAsk(r, q) && !r.renewal && Unused(v.grants, r.attempt) && Unused(v.grants, q.attempt)
    ensures CapacityStage(w, q, k, s, p) == CapacityStage(v, r, k, s, p)
  {
    hide PathStage, ResourceStage, W.Ceiling, SameView, Unused;
    PathStageAlike(v, w, r, q, k, p, Want(r, k));
    var a := PathStage(v, r, k, p, Want(r, k));
    if a.SomeUnits? { ResourceStageAlike(v, w, r, q, k, s, p, a.units); }
  }

  lemma {:induction false} ObligationsAlike(v: View, w: View, t: Table<Obligation>, service: Id, key: string, units: nat)
    requires SameView(v, w)
    ensures CheckObligations(w, t, service, key, units) == CheckObligations(v, t, service, key, units)
  {
    hide PerDomain, Meeting, W.Unmet, Then, SameHoldings;
    if t != [] {
      PerDomainAlike(v.grants, w.grants, v.spec, w.spec, t[0].val);
      ObligationsAlike(v, w, t[1..], service, key, units);
    }
  }

  /** A new request is evaluated alike, to the unit and the word, whoever asks. */
  lemma EvaluateAlike(v: View, w: View, r: Request, q: Request, k: Contract)
    requires SameView(v, w) && SameAsk(r, q) && !r.renewal && Unused(v.grants, r.attempt) && Unused(v.grants, q.attempt)
    ensures Evaluate(w, q, k) == Evaluate(v, r, k)
  {
    hide CheckEligible, CapacityStage, CheckObligations, ChosenPath, DomainKey, FindResource, LowerBound, SameHoldings, Unused;
    ChosenAlike(v, w, r, q);
    if Has(v.spec.members, r.source) && Has(v.spec.members, r.destination) {
      var s, d := Get(v.spec.members, r.source).value, Get(v.spec.members, r.destination).value;
      EligibleAlike(v, w, s, d, r, q, k);
      CapacityAlike(v, w, r, q, k, s, ChosenPath(v, r));
      var c := CapacityStage(v, r, k, s, ChosenPath(v, r));
      if c.SomeUnits? {
        ObligationsAlike(v, w, v.spec.obligations, k.destinationService, DomainKey(d.locality, k.level), c.units);
      }
    }
  }

  /** A request that mints with the one mints with the other, when it is made there anew. */
  lemma MintsAlike(c: Core, d: Core, r: Request, q: Request)
    requires hide Good, Enabled, Mints; Good(c, Loose) && Good(d, Loose) && Alike(c, d) && SameAsk(r, q)
    requires q.at == Here(d.store.spec) && RequestShape(q) == Ok && !Has(d.store.attempts, q.attempt)
    requires Runs.Enabled(c, Submission(r), Loose) && Mints(c, Submission(r))
    ensures Runs.Enabled(d, Submission(q), Loose) && Mints(d, Submission(q))
    ensures Has(c.store.contracts, r.contract)
    ensures var k := Get(c.store.contracts, r.contract).value;
            Evaluate(ViewOf(d), q, k) == Evaluate(ViewOf(c), r, k)
  {
    hide Good, Evaluate, RequestShape, FenceCheck, ReplayAttempt, ContractCheck, SameHoldings, Unused, LowerBound, GrantOutcome,
         Restart, ApplySpec, ApplyContract, LeavesRoom, CancelsOwn, RenewsInPlace, Here;
    GateFresh(c, r);
    MintsMay(c, r, Loose);
    var k := Get(c.store.contracts, r.contract).value;
    GateAlike(c, d, r, q);
    NobodysAttempt(c, r.attempt);
    NobodysAttempt(d, q.attempt);
    UnusedAlike(c.store.grants, d.store.grants, q.attempt);
    EvaluateAlike(ViewOf(c), ViewOf(d), r, q, k);
    assert GrantOutcome(Evaluate(ViewOf(c), r, k).degradations, q, k) == GrantOutcome(Evaluate(ViewOf(c), r, k).degradations, r, k) by {
      OutcomeAlike(Evaluate(ViewOf(c), r, k).degradations, r, q, k);
    }
    RoomAlike(c, d);
  }

  lemma OutcomeAlike(ds: seq<Reason>, r: Request, q: Request, k: Contract)
    requires SameAsk(r, q)
    ensures GrantOutcome(ds, q, k) == GrantOutcome(ds, r, k)
  {}

  lemma RoomAlike(c: Core, d: Core)
    requires Alike(c, d) && MayMint(c)
    ensures MayMint(d)
  {}

  lemma NobodysAttempt(c: Core, attempt: Id)
    requires Good(c, Loose) && !Has(c.store.attempts, attempt)
    ensures Unused(c.store.grants, attempt)
  {
    hide Linked;
    UnusedAttempt(c, attempt);
  }

  lemma UnusedAlike(t: Table<Grant>, u: Table<Grant>, attempt: Id)
    requires SameHoldings(t, u) && Unused(u, attempt)
    ensures Unused(t, attempt)
  {
    forall i | 0 <= i < |t| ensures t[i].val.binding.attempt != attempt { assert SameHolding(t[i], u[i]); }
  }

  lemma GateAlike(c: Core, d: Core, r: Request, q: Request)
    requires Alike(c, d) && SameAsk(r, q) && Gate(c, r).None? && !r.renewal
    requires q.at == Here(d.store.spec) && RequestShape(q) == Ok && !Has(d.store.attempts, q.attempt)
    ensures Gate(d, q).None?
  {
    hide RequestShape, ReplayAttempt, LowerBound, AllKnown, SameHoldings;
  }

  /** What the two are granted is the same but for whom it is made out to. */
  lemma DraftsAlike(c: Core, d: Core, r: Request, q: Request)
    requires hide Good, Enabled, Mints; Good(c, Loose) && Good(d, Loose) && Alike(c, d) && SameAsk(r, q)
    requires q.at == Here(d.store.spec) && RequestShape(q) == Ok && !Has(d.store.attempts, q.attempt)
    requires Runs.Enabled(c, Submission(r), Loose) && Mints(c, Submission(r)) && Mints(d, Submission(q))
    ensures SameTerms(DraftOf(c, r), DraftOf(d, q))
  {
    hide Good, Runs.Enabled, Evaluate, Mints, LowerBound, GrantName, LeaseName, GrantOutcome, SameHoldings, Submit, Commit, Wrap;
    MintsAlike(c, d, r, q);
    MintsPass(c, r);
    SubmitCommits(c, r);
    SubmitCommits(d, q);
    OutcomeAlike(Evaluate(ViewOf(c), r, Get(c.store.contracts, r.contract).value).degradations, r, q,
                 Get(c.store.contracts, r.contract).value);
  }

  /** The same units of the same path and resource under the same lease and contract, in the same epoch. */
  predicate SameTerms(g: Grant, h: Grant)
  {
    && h.binding == g.binding.(attempt := h.binding.attempt, provenance := h.binding.provenance)
    && h.units == g.units && h.outcome == g.outcome && h.leaseExpiry == g.leaseExpiry
    && h.at == g.at.(incarnation := h.at.incarnation)
  }

  // ----- names -----

  lemma {:induction false} RevalidateSerials(c: Core, i: nat)
    ensures RevalidateFrom(c, i).grantSerial == c.grantSerial
    decreases |c.store.grants| - i
  {
    hide Revalidate;
    if i < |c.store.grants| {
      RevalidateFrame(c, i);
      RevalidateSerials(if IsLive(c.store.grants[i].val.state) then Revalidate(c, i) else c, i + 1);
    }
  }

  lemma {:induction false} FenceSerials(c: Core, i: nat, reason: Reason)
    ensures FenceFrom(c, i, reason).grantSerial == c.grantSerial
    decreases |c.store.grants| - i
  {
    hide AddReason;
    if i < |c.store.grants| {
      var g := c.store.grants[i].val;
      FenceSerials(if HoldsCapacity(g.state) then Terminate(c, i, g, Fenced, reason, true) else c, i + 1, reason);
    }
  }

  lemma {:induction false} ExpireSerials(c: Core, i: nat)
    ensures ExpireFrom(c, i).grantSerial == c.grantSerial
    decreases |c.store.grants| - i
  {
    hide Expire;
    if i < |c.store.grants| {
      ExpireSerial(c, i);
      ExpireSerials(Expire(c, i), i + 1);
      ExpireSerials(c, i + 1);
    }
  }

  lemma ExpireSerial(c: Core, i: nat)
    requires i < |c.store.grants|
    ensures Expire(c, i).grantSerial == c.grantSerial
  {
    hide AddReason, Put, Room;
  }

  lemma SubmitSerial(c: Core, r: Request)
    requires hide Enabled; Runs.Enabled(c, Submission(r), Loose)
    ensures Submit(c, r).0.grantSerial == c.grantSerial || Submit(c, r).0.grantSerial == c.grantSerial + 1
  {
    hide Gate, Evaluate, Commit, Draft, Renewed, GrantName, LeaseName, Restart, ApplySpec, ApplyContract, LeavesRoom, CancelsOwn,
         RenewsInPlace, GrantOutcome, LowerBound;
    if Gate(c, r).None? && !r.renewal {
      var k := Get(c.store.contracts, r.contract).value;
      AdmitIs(c, r, k);
      if Authorised(c, r, k) {
        CountersLeft(c);
        var b := Bumped(c);
        var e := Evaluate(ViewOf(c), r, k);
        CommitSerial(b, GrantName(b.grantSerial),
                     Draft(b, r, k, e, GrantOutcome(e.degradations, r, k).value, LeaseName(b.leaseSerial), LeaseTicks(c, r)), r);
      }
    }
  }

  lemma CommitSerial(c: Core, id: Id, draft: Grant, r: Request)
    ensures Commit(c, id, draft, r).0.grantSerial == c.grantSerial
  {
    hide Put, MintedAttempt, Room;
  }

  lemma ReleaseSerial(c: Core, r: ReleaseRequest)
    ensures Release(c, r).0.grantSerial == c.grantSerial
  {
    hide ReleaseTarget, Put, AddReason, Room, Malformed, LowerBound;
  }

  lemma AcknowledgeSerial(c: Core, r: AcknowledgeRequest)
    ensures Acknowledge(c, r).0.grantSerial == c.grantSerial
  {
    hide Revalidate, FirstReason, Malformed, LowerBound;
    if Has(c.store.grants, r.grant) { RevalidateFrame(c, LowerBound(c.store.grants, r.grant)); }
  }

  lemma CancelSerial(c: Core, r: CancelRequest)
    ensures Cancel(c, r).0.grantSerial == c.grantSerial
  {
    hide CancelTarget, CancelledAttempt, CancelShape, Put, AddReason, Room, Malformed, LowerBound;
  }

  /** Only a submission takes a name, and at most one. */
  lemma StepSerial(c: Core, step: Step)
    requires hide Enabled; Runs.Enabled(c, step, Loose) && !step.Crashing?
    ensures Next(c, step).grantSerial == c.grantSerial || Next(c, step).grantSerial == c.grantSerial + 1
  {
    hide Submit, Release, Acknowledge, Cancel, Runs.Enabled, Restart, RevalidateFrom, FenceFrom, ExpireFrom, ApplySpec,
         ApplyContract;
    match step
    case Submission(r) => SubmitSerial(c, r);
    case Releasing(r) => ReleaseSerial(c, r);
    case Acknowledging(r) => AcknowledgeSerial(c, r);
    case Cancelling(r) => CancelSerial(c, r);
    case Changing(op) =>
      RevalidateSerials(Append(c, SpecChange(op)).(store := c.store.(spec := ApplySpec(c.store.spec, c.store.tick, op).0)), 0);
    case Expiring => ExpireSerials(c, 0);
    case Fencing(reason) => FenceSerials(c, 0, reason);
    case Revalidating => RevalidateSerials(c, 0);
    case _ =>
  }

  /** The grant names a run takes, in order. */
  function Taken(c: Core, steps: seq<Step>): seq<Id>
    decreases |steps|
  {
    hide Next; if steps == [] then [] else
      var d := Next(c, steps[0]);
      (if d.grantSerial == c.grantSerial then [] else [GrantName(d.grantSerial)]) + Taken(d, steps[1..])
  }

  /** They are numbered on from where the run began. */
  lemma {:induction false} TakenInOrder(c: Core, steps: seq<Step>, i: nat)
    requires hide Next, Enabled; Follows(c, steps, Loose) && CrashFree(steps) && i < |Taken(c, steps)|
    ensures Taken(c, steps)[i] == GrantName(c.grantSerial + 1 + i)
    decreases |steps|
  {
    hide Next, Runs.Enabled, GrantName;
    if steps != [] {
      var d := Next(c, steps[0]);
      assert !steps[0].Crashing?;
      StepSerial(c, steps[0]);
      if d.grantSerial == c.grantSerial {
        TakenInOrder(d, steps[1..], i);
      } else if i > 0 {
        TakenInOrder(d, steps[1..], i - 1);
      }
    }
  }

  // ----- what a start forgets and gives out again -----

  ghost predicate AllWork(es: seq<Event>) { forall i :: 0 <= i < |es| ==> es[i].Working? }

  /** Working without a journal leaves the file as it was. */
  lemma {:induction false} WorkLeavesFile(d: Daemon, es: seq<Event>)
    requires !d.attached && AllWork(es)
    ensures Later(d, es).file == d.file
    decreases |es|
  {
    hide Next, Started;
    if es != [] {
      assert es[0].Working?;
      WorkLeavesFile(On(d, es[0]), es[1..]);
    }
  }

  /** Two starts that find the same records, with work between them. */
  ghost predicate StartsTwice(d: Daemon, first: Start, es: seq<Event>, second: Start)
  {
    && Born(d) && second.kept == first.kept <= |d.file|
    && May(d, Starting(first)) && AllWork(es) && Lives(On(d, Starting(first)), es)
    && May(Later(On(d, Starting(first)), es), Starting(second))
  }

  /** The controller after the first start, and after the second. */
  function Once(d: Daemon, first: Start): Core { On(d, Starting(first)).core }

  function Again(d: Daemon, first: Start, es: seq<Event>, second: Start): Core
  {
    On(Later(On(d, Starting(first)), es), Starting(second)).core
  }

  /** Both are crashes of one controller, kept up to the same record, at the same tick. */
  lemma StartsAreCrashes(d: Daemon, first: Start, es: seq<Event>, second: Start) returns (c: Core, tick: nat)
    requires hide StartsTwice, Reachable, Crashed, Once, Again; StartsTwice(d, first, es, second)
    ensures Reachable(c, Loose) && 1 <= first.kept == second.kept <= |c.log| && first.kept <= |d.file|
    ensures c.log[..first.kept] == d.file[..first.kept]
    ensures Crashed(c, first, tick).1 == Ok && Once(d, first) == Crashed(c, first, tick).0
    ensures Crashed(c, second, tick).1 == Ok && Again(d, first, es, second) == Crashed(c, second, tick).0
  {
    hide Reachable, Crashed, Restart, ResumeTick, Raw, Next, Born;
    BornValid(d);
    c :| Reachable(c, Loose) && d.file <= c.log;
    tick := ResumeTick(d.file[..first.kept]);
    var e := On(d, Starting(first));
    EventKeeps(d, Starting(first));
    StartIsCrash(d, c, first);
    FileReads(c, d.file, first.kept);
    WorkLeavesFile(e, es);
    var w := Later(e, es);
    assert w.file == d.file[..first.kept] && w.file[..first.kept] == d.file[..first.kept] && w.file <= c.log;
    StartIsCrash(w, c, second);
  }

  /** A start that is not journaled leaves the file as it was, so the next start reads the same records: it begins the
      same epoch, has none of the grants that were not in the file, holds no more than the file says, and goes on from the
      same names. */
  lemma Forgotten(d: Daemon, first: Start, es: seq<Event>, second: Start, id: Id)
    requires hide StartsTwice, Once, Again, Raw; StartsTwice(d, first, es, second) && first.kept <= |d.file|
    ensures Raw(d.file[..first.kept]).Success?
    ensures var s := Raw(d.file[..first.kept]).value.store;
            var e, f := Once(d, first), Again(d, first, es, second);
            && f.store.spec.epoch == e.store.spec.epoch == s.spec.epoch + 1
            && f.grantSerial == e.grantSerial && f.leaseSerial == e.leaseSerial
            && (Has(e.store.grants, id) <==> Has(s.grants, id)) && (Has(f.store.grants, id) <==> Has(s.grants, id))
            && (forall key :: Total(f.store.grants, key) <= Total(s.grants, key))
  {
    hide Reachable, Good, StartsTwice, Once, Again, Recover, Evidence, CrashFate;
    var c, tick := StartsAreCrashes(d, first, es, second);
    ReachableGood(c, Loose);
    OneStart(c, first, tick, id);
    OneStart(c, second, tick, id);
  }

  /** What one of them makes of the records. */
  lemma OneStart(c: Core, s: Start, tick: nat, id: Id)
    requires hide Good, Crashed, Raw; Good(c, Loose) && 1 <= s.kept <= |c.log| && Crashed(c, s, tick).1 == Ok
    ensures Raw(c.log[..s.kept]).Success?
    ensures var t := Raw(c.log[..s.kept]).value.store;
            var d := Crashed(c, s, tick).0;
            && d.store.spec.epoch == t.spec.epoch + 1
            && d.grantSerial == MaxSuffix(SortById(t.grants), false) && d.leaseSerial == MaxSuffix(SortById(t.grants), true)
            && (Has(d.store.grants, id) <==> Has(t.grants, id))
            && (forall key :: Total(d.store.grants, key) <= Total(t.grants, key))
  {
    hide Good, Recover, Raw, Evidence, MaxSuffix, SortById, Total;
    CrashFates(c, s.kept, s.options, s.incarnation, tick, Loose);
    var t, d := Raw(c.log[..s.kept]).value.store, Crashed(c, s, tick).0;
    RecoverOutline(s.options, Finish(Raw(c.log[..s.kept]).value), c.log[..s.kept], s.incarnation, tick);
    forall i | 0 <= i < |t.grants| ensures d.store.grants[i].id == t.grants[i].id {
      assert CrashFate(c.log[..s.kept], d.store.spec, t.grants[i], d.store.grants[i]);
    }
    SameIds(t.grants, d.store.grants, id);
  }

  /** Every name taken after the one start is taken again after the next, in the same order, as far as both go. */
  lemma NamesAgain(d: Daemon, first: Start, es: seq<Event>, second: Start, a: seq<Step>, b: seq<Step>, i: nat)
    requires hide StartsTwice, Once, Again, Follows, Taken;
             StartsTwice(d, first, es, second) && CrashFree(a) && CrashFree(b)
    requires Follows(Once(d, first), a, Loose) && Follows(Again(d, first, es, second), b, Loose)
    requires i < |Taken(Once(d, first), a)| && i < |Taken(Again(d, first, es, second), b)|
    ensures Taken(Once(d, first), a)[i] == Taken(Again(d, first, es, second), b)[i]
  {
    hide Reachable, StartsTwice, Once, Again, Crashed, Follows, Taken, GrantName, Raw, Total, MaxSuffix, SortById, Has, CrashFree;
    var c, tick := StartsAreCrashes(d, first, es, second);
    ReachableGood(c, Loose);
    OneStart(c, first, tick, []);
    OneStart(c, second, tick, []);
    TakenInOrder(Once(d, first), a, i);
    TakenInOrder(Again(d, first, es, second), b, i);
  }

  /** Not only the name: the request that was granted first after the one start is granted again after the next to
      whoever makes it, under the same name and the same lease, in the same epoch, for the same units of the same path
      and resource, whatever was done in between. The first holder's grant is then in no table. */
  lemma GivenOutTwice(d: Daemon, first: Start, es: seq<Event>, second: Start, r: Request, q: Request)
    requires hide StartsTwice, Once, Again, Enabled, Mints;
             StartsTwice(d, first, es, second) && first.options == second.options
    requires Runs.Enabled(Once(d, first), Submission(r), Loose) && Mints(Once(d, first), Submission(r))
    requires es != [] && es[0] == Working(Submission(r))
    requires SameAsk(r, q) && q.at == Here(Again(d, first, es, second).store.spec)
    requires RequestShape(q) == Ok && !Has(Again(d, first, es, second).store.attempts, q.attempt)
    ensures var e, f := Once(d, first), Again(d, first, es, second);
            GrantedAgain(e, f, Submit(e, r).0, Submit(f, q).0, r.attempt, q.attempt)
  {
    hide Reachable, Good, StartsTwice, Once, Again, Crashed, Alike, GrantedAgain, Runs.Enabled, Mints, RequestShape, SameAsk, Here,
         Submit;
    var c, tick := StartsAreCrashes(d, first, es, second);
    ReachableGood(c, Loose);
    StartsAlike(c, first, second, tick);
    CrashReachable(c, first, tick);
    CrashReachable(c, second, tick);
    AlikeGrants(Once(d, first), Again(d, first, es, second), r, q);
  }

  /** One name and one lease, given out by two controllers of one epoch that know nothing of each other. */
  predicate GrantedAgain(e: Core, f: Core, e1: Core, f1: Core, a: Id, b: Id)
  {
    var id := GrantName(e.grantSerial + 1);
    && !Has(e.store.grants, id) && !Has(f.store.grants, id) && Has(e1.store.grants, id) && Has(f1.store.grants, id)
    && var g, h := Get(e1.store.grants, id).value, Get(f1.store.grants, id).value;
    && g.state == Committed && h.state == Committed && SameTerms(g, h) && g.binding.attempt == a && h.binding.attempt == b
  }

  /** A new grant is its draft, under a name nobody had. */
  lemma GrantIsDraft(c: Core, r: Request)
    requires hide Reachable, Enabled, Mints;
             Reachable(c, Loose) && Runs.Enabled(c, Submission(r), Loose) && Mints(c, Submission(r))
    ensures var id, d := GrantName(c.grantSerial + 1), Submit(c, r).0;
            && !Has(c.store.grants, id) && Has(d.store.grants, id)
            && var g := Get(d.store.grants, id).value;
               g.state == Committed && SameTerms(DraftOf(c, r), g) && g.binding.attempt == r.attempt
  {
    hide Reachable, Good, Runs.Enabled, Mints, Submit, DraftOf, GrantName, LeaseName, LowerBound, Commit, OnTerms, LeasedFor, Wrap;
    ReachableGood(c, Loose);
    MintsMay(c, r, Loose);
    CountersLeft(c);
    FreshFor(c, r, Loose);
    MintedDraft(c, r, Loose);
    DraftOnTerms(c, r, Loose);
  }

  lemma AlikeSerials(c: Core, d: Core)
    requires Alike(c, d)
    ensures d.grantSerial == c.grantSerial
  {
    hide SameHoldings;
  }

  lemma TermsThrough(a: Grant, b: Grant, g: Grant, h: Grant)
    requires SameTerms(a, b) && SameTerms(a, g) && SameTerms(b, h)
    ensures SameTerms(g, h)
  {}

  lemma AlikeGrants(e: Core, f: Core, r: Request, q: Request)
    requires hide Reachable, Enabled, Mints;
             Reachable(e, Loose) && Reachable(f, Loose) && Alike(e, f) && SameAsk(r, q)
    requires q.at == Here(f.store.spec) && RequestShape(q) == Ok && !Has(f.store.attempts, q.attempt)
    requires Runs.Enabled(e, Submission(r), Loose) && Mints(e, Submission(r))
    ensures GrantedAgain(e, f, Submit(e, r).0, Submit(f, q).0, r.attempt, q.attempt)
  {
    hide Reachable, Good, Alike, Runs.Enabled, Mints, RequestShape, SameAsk, Here, Submit, DraftOf, GrantName, LowerBound, SameTerms,
         Evaluate;
    ReachableGood(e, Loose);
    ReachableGood(f, Loose);
    MintsAlike(e, f, r, q);
    DraftsAlike(e, f, r, q);
    GrantIsDraft(e, r);
    GrantIsDraft(f, q);
    AlikeSerials(e, f);
    var id := GrantName(e.grantSerial + 1);
    TermsThrough(DraftOf(e, r), DraftOf(f, q), Get(Submit(e, r).0.store.grants, id).value,
                 Get(Submit(f, q).0.store.grants, id).value);
  }
}
