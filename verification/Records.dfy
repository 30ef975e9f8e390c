/** Which grant records can be read back. A record is written whatever its reasons say and read only if none of the
    written details is longer than 256 bytes, so what the engine puts into a detail decides what survives. */
module Records {
  import opened Tables
  import opened Model
  import opened Text
  import opened Cluster
  import opened Accounting
  import opened Eligibility
  import opened Engine
  import opened Replay
  import opened Durability
  import opened Invariant
  import opened Submission
  import opened Runs
  import opened Guarantees
  import Ledger
  import opened Terms
  import opened GrantCodec
  import opened EntryCodec
  import opened Disk
  import Decimal
  import J = Journal
  import W = Wording

  /** An entry is read back from its record. */
  predicate IsRead(e: Entry, x: Extras) { Decode(KindOf(e.body), Encode(e.tick, e.body, x)).Some? }

  // ----- endings -----

  /** The reason is added to these: it is one, they do not give it yet, and there are fewer than 24. */
  predicate Adds(rs: seq<Reason>, why: Reason)
  {
    why.code != NO_REASON && !HasReason(rs, why.code) && |rs| < MAX_REASONS
  }

  lemma AddedFits(rs: seq<Reason>, why: Reason)
    requires DetailsFit(Kept(rs))
    ensures DetailsFit(Kept(AddReason(rs, why))) <==> !Adds(rs, why) || DetailFits(why)
  {
    hide DetailFits, HasReason;
    var out := AddReason(rs, why);
    if Adds(rs, why) {
      assert Kept(out) == rs + [why] && Kept(rs) == rs;
      assert (rs + [why])[|rs|] == why;
      forall i | 0 <= i < |rs| ensures DetailFits((rs + [why])[i]) {}
    }
  }

  lemma FitsWritable(rs: seq<Reason>, why: Reason)
    requires DetailsWritable(rs) && |why.detail| < U64_LIMIT && IsByteText(why.detail)
    ensures DetailsWritable(AddReason(rs, why))
  {}

  /** The record that ends a grant is read back exactly when the reason it adds, if it adds one, is not too long. */
  lemma TerminationReads(c: Core, i: nat, state: GrantState, why: Reason, release: bool, x: Extras)
    requires i < |c.store.grants| && GrantCodable(c.store.grants[i].id, c.store.grants[i].val)
    requires DetailsWritable(c.store.grants[i].val.reductions)
    requires |why.detail| < U64_LIMIT && IsByteText(why.detail) && c.store.tick <= U64_MAX && ExtrasFit(x)
    ensures var g := c.store.grants[i].val;
            var log := Terminate(c, i, g, state, why, release).log;
            && |log| == |c.log| + 1 && log[..|c.log|] == c.log
            && (IsRead(log[|c.log|], x) <==> !Adds(g.reductions, why) || DetailFits(why))
  {
    hide AddReason, GrantCodable, DetailsFit, DetailsWritable, DetailFits, Adds, Decode, Encode, KindOf, NextSequence, GrantValue;
    var row := c.store.grants[i];
    var g := row.val;
    var u := g.(state := state, reserved := if release then false else g.reserved, reductions := AddReason(g.reductions, why));
    GrantFits(row.id, g);
    StandingFits(row.id, g.(reductions := []), state, u.reserved);
    assert u.(reductions := []) == g.(reductions := []).(state := state, reserved := u.reserved);
    FitsWritable(g.reductions, why);
    AddedFits(g.reductions, why);
    GrantRecordReads(c.store.tick, TerminalRecord, row.id, u, state, x);
  }

  /** Something is written between these two states, after all that was. */
  predicate Writes(c: Core, d: Core) { c.log < d.log }

  /** What is written first. */
  function FirstWritten(c: Core, d: Core): Entry { if Writes(c, d) then d.log[|c.log|] else Entry(0, 0, CountersSync) }

  /** The cancel finds a grant that holds capacity and is not a repetition. */
  predicate CancelEnds(c: Core, r: CancelRequest, id: Id)
  {
    && CancelShape(r) == Ok && CancelTarget(c, r) == Some(id) && Has(c.store.grants, id)
    && HoldsCapacity(Get(c.store.grants, id).value.state)
    && !(r.attempt != [] && Has(c.store.attempts, r.attempt) && Get(c.store.attempts, r.attempt).value.cancelled)
  }

  /** A cancellation's reason may have 512 bytes and goes into the grant's record as it is: the record is read back
      exactly when the reason has at most 256, or is not added because the grant already has one of its kind. */
  lemma CancelReads(c: Core, r: CancelRequest, id: Id, x: Extras)
    requires CancelEnds(c, r, id) && IsByteText(r.reason) && c.store.tick <= U64_MAX && ExtrasFit(x)
    requires GrantCodable(id, Get(c.store.grants, id).value) && DetailsWritable(Get(c.store.grants, id).value.reductions)
    ensures Writes(c, Cancel(c, r).0)
    ensures IsRead(FirstWritten(c, Cancel(c, r).0), x)
            <==> |r.reason| <= MAX_DETAIL || !Adds(Get(c.store.grants, id).value.reductions, W.CancelledFor(r.reason))
  {
    hide GrantCodable, DetailsWritable, Adds, Decode, Encode, KindOf, Terminate, CancelTarget, CancelledAttempt;
    var i := LowerBound(c.store.grants, id);
    CancelWords(r);
    TerminationReads(c, i, Revoked, W.CancelledFor(r.reason), true, x);
  }

  lemma CancelWords(r: CancelRequest)
    requires CancelShape(r) == Ok && IsByteText(r.reason)
    ensures var why := W.CancelledFor(r.reason);
            |why.detail| < U64_LIMIT && IsByteText(why.detail) && (DetailFits(why) <==> |r.reason| <= MAX_DETAIL)
  {
    hide ValidFrom;
    AsciiIsUtf8("cancelled");
  }

  // ----- what is lost with an unreadable record -----

  function RecordOf(e: Entry, x: Extras): J.Record { J.Record(KindOf(e.body), Encode(e.tick, e.body, x)) }

  /** A controller's file with one more record and anything at all after it. */
  function Continued(log: Log, xs: seq<Extras>, e: Entry, x: Extras, rest: seq<byte>): seq<byte>
    requires |xs| == |log|
  {
    J.FileHeader() + (J.Written(Disk.Records(log, xs) + [RecordOf(e, x)], 0, 0) + rest)
  }

  /** A file that goes on with an unreadable record reads as if it ended before it, whatever else was written. */
  lemma UnreadableEnds(c: Core, xs: seq<Extras>, e: Entry, x: Extras, rest: seq<byte>, care: Care)
    requires hide Reachable, Expressible, Encode; Reachable(c, care) && Disk.Writable(c.log, xs)
    requires !IsRead(e, x) && |RecordOf(e, x).payload| <= J.MAX_RECORD
    requires |Continued(c.log, xs, e, x, rest)| <= J.MAX_SCAN
    ensures ReadsAs(Continued(c.log, xs, e, x, rest), c.log, Legible(c.log, xs))
  {
    hide J.Written, J.HeaderStatus, J.Scan, J.FileHeader, J.Size, Good, Encode, Decode, Reachable, Expressible, KindOf;
    ReachableGood(c, care);
    var rs := Disk.Records(c.log, xs);
    var all := rs + [RecordOf(e, x)];
    WholeFile(c.log, xs);
    KindIs(e.body);
    J.CountWithinSize(all);
    J.FreshHeaderGood(J.Written(all, 0, 0) + rest);
    J.DecodableUpTo(all, Legible(c.log, xs), Reads());
    J.ScanRefuses(all, rest, 0, 0, Reads());
    PrefixEntries(c, xs, Legible(c.log, xs), care);
    assert all[..Legible(c.log, xs)] == rs[..Legible(c.log, xs)];
    assert Continued(c.log, xs, e, x, rest)[J.FILE_HEADER..] == J.Written(all, 0, 0) + rest;
  }

  /** This log says that the grant holds these units. */
  predicate HoldsOn(log: Log, id: Id, units: nat)
  {
    match Raw(log)
    case Success(r) =>
      Has(r.store.grants, id) && HoldsCapacity(Get(r.store.grants, id).value.state) && Get(r.store.grants, id).value.units == units
    case Failure(_) => false
  }

  /** So a cancellation for a long reason does not last: from the file, the controller comes back without it and
      without everything it did afterwards, and with the cancelled grant holding its units again. */
  lemma LongReasonForgotten(c: Core, r: CancelRequest, id: Id, xs: seq<Extras>, x: Extras, rest: seq<byte>, care: Care)
    requires hide Reachable, Expressible, Encode, Cancel;
             Reachable(c, care) && Disk.Writable(c.log, xs) && CancelEnds(c, r, id)
    requires Legible(c.log, xs) == |c.log|
    requires IsByteText(r.reason) && c.store.tick <= U64_MAX && ExtrasFit(x)
    requires GrantCodable(id, Get(c.store.grants, id).value) && DetailsWritable(Get(c.store.grants, id).value.reductions)
    requires |r.reason| > MAX_DETAIL && Adds(Get(c.store.grants, id).value.reductions, W.CancelledFor(r.reason))
    requires |RecordOf(FirstWritten(c, Cancel(c, r).0), x).payload| <= J.MAX_RECORD
    requires |Continued(c.log, xs, FirstWritten(c, Cancel(c, r).0), x, rest)| <= J.MAX_SCAN
    ensures ReadsAs(Continued(c.log, xs, FirstWritten(c, Cancel(c, r).0), x, rest), c.log, |c.log|)
    ensures HoldsOn(c.log, id, Get(c.store.grants, id).value.units)
  {
    hide Good, Encode, Decode, Reachable, Cancel, Adds, GrantCodable, DetailsWritable, Disk.Writable, KindOf, Legible, Raw, ReadsAs, Continued,
         J.FileHeader, J.Written;
    CancelReads(c, r, id, x);
    UnreadableEnds(c, xs, FirstWritten(c, Cancel(c, r).0), x, rest, care);
    HeldOnLog(c, id, care);
  }

  /** What holds capacity holds it on the log. */
  lemma HeldOnLog(c: Core, id: Id, care: Care)
    requires hide Reachable;
             Reachable(c, care) && Has(c.store.grants, id) && HoldsCapacity(Get(c.store.grants, id).value.state)
    ensures HoldsOn(c.log, id, Get(c.store.grants, id).value.units)
  {
    hide Reachable, LowerBound, Raw;
    ReplayAgrees(c, care);
    var t := Raw(c.log).value.store.grants;
    SameIds(c.store.grants, t, id);
  }

  /** A compaction while such a grant is in the table leaves a file that reads as empty. */
  lemma CompactedUnreadable(c: Core, x: Extras, rest: seq<byte>)
    requires ImageFrame(c.store) && !AllDetailsFit(c.store.grants) && c.store.tick <= U64_MAX && |x.counters| == 80
    requires |RecordOf(Compact(c).log[0], x).payload| <= J.MAX_RECORD
    requires |Continued([], [], Compact(c).log[0], x, rest)| <= J.MAX_SCAN
    ensures ReadsAs(Continued([], [], Compact(c).log[0], x, rest), [], 0)
  {
    hide J.Written, J.HeaderStatus, J.Scan, J.FileHeader, J.Size, Encode, Decode, ImageFrame, AllDetailsFit, KindOf;
    var e := Compact(c).log[0];
    SnapshotReads(c.store.tick, c.store, x);
    KindIs(e.body);
    var all := [RecordOf(e, x)];
    assert Disk.Records([], []) + all == all;
    J.FreshHeaderGood(J.Written(all, 0, 0) + rest);
    J.DecodableUpTo(all, 0, Reads());
    J.ScanRefuses(all, rest, 0, 0, Reads());
    assert Continued([], [], e, x, rest)[J.FILE_HEADER..] == J.Written(all, 0, 0) + rest;
  }

  // ----- what degradations say -----

  function Fit(): Reason -> bool { (x: Reason) => DetailFits(x) }

  /** The names and numbers that degradations are worded with are of the widths the codecs take. */
  ghost predicate NamesFit(v: View, r: Request, k: Contract)
  {
    && IsIdentifier(r.source, MAX_IDENTIFIER) && IsIdentifier(r.destination, MAX_IDENTIFIER) && k.maxUnits <= U64_MAX
    && (forall i :: 0 <= i < |v.spec.exclusions| ==> IsIdentifier(v.spec.exclusions[i].id, MAX_IDENTIFIER))
    && (forall i :: 0 <= i < |v.spec.obligations| ==> IsIdentifier(v.spec.obligations[i].id, MAX_IDENTIFIER))
    && (forall i :: 0 <= i < |v.spec.paths| ==>
          IsIdentifier(v.spec.paths[i].id, MAX_IDENTIFIER) && v.spec.paths[i].val.capacity <= U64_MAX)
    && (r.resource == [] || IsIdentifier(r.resource, MAX_IDENTIFIER))
    && match Get(v.spec.members, r.source)
       case None => true
       case Some(m) => forall i :: 0 <= i < |m.resources| ==> m.resources[i].total <= U64_MAX
  }

  /** Ascii text of bounded length. */
  predicate Short(s: string, n: nat) { |s| <= n && IsAscii(s) }

  lemma ShortJoin(a: string, b: string, m: nat, n: nat)
    requires Short(a, m) && Short(b, n)
    ensures Short(a + b, m + n)
  {
    AsciiJoin(a, b);
  }

  lemma ShortFits(code: ReasonCode, s: string, n: nat)
    requires Short(s, n) && n <= MAX_DETAIL
    ensures DetailFits(Reason(code, s))
  {
    AsciiIsUtf8(s);
  }

  lemma ShortId(id: string)
    requires IsIdentifier(id, MAX_IDENTIFIER)
    ensures Short(id, MAX_IDENTIFIER)
  {
    IdentifierIsAscii(id, MAX_IDENTIFIER);
  }

  lemma ShortNumber(n: nat)
    requires n <= U64_MAX
    ensures Short(Decimal.Printed(n), 20)
  {
    Decimal.PrintedShort(n);
  }

  lemma LifecycleWords(l: Lifecycle)
    ensures Short(W.MemberState("source", l), 40) && Short(W.MemberState("destination", l), 40)
  {
    RoleWords("source", l);
    RoleWords("destination", l);
  }

  lemma RoleWords(role: string, l: Lifecycle)
    requires Short(role, 11)
    ensures Short(W.MemberState(role, l), 40)
  {
    ShortJoin(role, " member is ", 11, 11);
    var start := role + " member is ";
    match l
    case Draining => ShortJoin(start, "draining", 22, 18);
    case Maintenance => ShortJoin(start, "in maintenance", 22, 18);
    case Faulted => ShortJoin(start, "faulted", 22, 18);
    case Partitioned => ShortJoin(start, "partitioned", 22, 18);
    case Enlisted => ShortJoin(start, "not active", 22, 18);
    case Removed => ShortJoin(start, "retired", 22, 18);
    case Active => ShortJoin(start, "active", 22, 18);
  }

  lemma PathWords(id: Id)
    requires IsIdentifier(id, MAX_IDENTIFIER)
    ensures Short(W.DeclaredDegraded(id), 160) && Short(W.PathInMaintenance(id), 160)
  {
    ShortId(id);
    ShortJoin("path ", id, 5, 128);
    ShortJoin("path " + id, " is declared degraded", 133, 21);
    ShortJoin("path " + id, " is in maintenance", 133, 18);
  }

  lemma CeilingWords(n: nat)
    requires n <= U64_MAX
    ensures Short(W.Ceiling(n), 100)
  {
    ShortNumber(n);
    ShortJoin("contract ceilings capacity at ", Decimal.Printed(n), 30, 20);
    ShortJoin("contract ceilings capacity at " + Decimal.Printed(n), " units", 50, 6);
  }

  lemma FreeWords(what: string, id: Id, free: nat, total: nat)
    requires Short(what, 9) && Short(id, 128) && free <= U64_MAX && total <= U64_MAX
    ensures Short(W.FreeOf(what, id, free, total), 256)
  {
    hide Decimal.Printed;
    ShortNumber(free);
    ShortNumber(total);
    var f, t := Decimal.Printed(free), Decimal.Printed(total);
    ShortJoin(what, id, 9, 128);
    ShortJoin(what + id, " has ", 137, 5);
    ShortJoin(what + id + " has ", f, 142, 20);
    ShortJoin(what + id + " has " + f, " units free of ", 162, 15);
    ShortJoin(what + id + " has " + f + " units free of ", t, 177, 20);
  }

  lemma UnmetWords(id: Id)
    requires IsIdentifier(id, MAX_IDENTIFIER)
    ensures Short(W.Unmet(id), 200)
  {
    ShortId(id);
    ShortJoin("capacity obligation ", id, 20, 128);
    ShortJoin("capacity obligation " + id, " remains unmet after this grant", 148, 31);
  }

  lemma CoverWords(e: Id, id: Id)
    requires IsIdentifier(e, MAX_IDENTIFIER) && IsIdentifier(id, MAX_IDENTIFIER)
    ensures DetailFits(Reason(DEGRADED_BY_MAINTENANCE, W.CoversMember(e, id))) <==> |e| + |id| <= 226
    ensures DetailFits(Reason(DEGRADED_BY_MAINTENANCE, W.CoversPath(e, id))) <==> |e| + |id| <= 221
  {
    hide ValidFrom;
    ShortId(e);
    ShortId(id);
    ShortJoin("maintenance exclusion ", e, 22, 128);
    ShortJoin("maintenance exclusion " + e, " covers ", 150, 8);
    ShortJoin("maintenance exclusion " + e + " covers ", id, 158, 128);
    ShortJoin("maintenance exclusion " + e, " covers path ", 150, 13);
    ShortJoin("maintenance exclusion " + e + " covers path ", id, 163, 128);
    AsciiIsUtf8(W.CoversMember(e, id));
    AsciiIsUtf8(W.CoversPath(e, id));
  }

  // ----- which degradations are too long -----

  /** The degradation an exclusion causes, if it does, is too long. */
  predicate TooLong(e: Option<Row<Exclusion>>, id: Id, most: nat)
  {
    e.Some? && e.value.val.mode == Degrade && |e.value.id| + |id| > most
  }

  /** One of the two members or the path is covered by an exclusion that degrades and whose name and theirs together
      are too long. */
  predicate LongExclusion(v: View, r: Request)
  {
    var s, d := Get(v.spec.members, r.source), Get(v.spec.members, r.destination);
    var p := ChosenPath(v, r);
    || (s.Some? && TooLong(ExclusionForMember(v.spec.exclusions, r.source, s.value, v.tick), r.source, 226))
    || (d.Some? && TooLong(ExclusionForMember(v.spec.exclusions, r.destination, d.value, v.tick), r.destination, 226))
    || (p.Some? && TooLong(ExclusionForPath(v.spec.exclusions, p.value.id, v.tick), p.value.id, 221))
  }

  lemma {:induction false} FoundExclusion(t: Table<Exclusion>, id: Id, m: Member, now: nat)
    ensures ExclusionForMember(t, id, m, now).Some? ==> ExclusionForMember(t, id, m, now).value in t
    ensures ExclusionForPath(t, id, now).Some? ==> ExclusionForPath(t, id, now).value in t
  {
    if t != [] { FoundExclusion(t[1..], id, m, now); }
  }

  lemma MemberStage(v: View, id: Id, m: Member)
    requires IsIdentifier(id, MAX_IDENTIFIER) && ExcludedMember(v, id, m).Go?
    requires forall i :: 0 <= i < |v.spec.exclusions| ==> IsIdentifier(v.spec.exclusions[i].id, MAX_IDENTIFIER)
    ensures AllOf(ExcludedMember(v, id, m), Fit()) <==> !TooLong(ExclusionForMember(v.spec.exclusions, id, m, v.tick), id, 226)
  {
    hide ExclusionForMember, W.CoversMember, DetailFits;
    var e := ExclusionForMember(v.spec.exclusions, id, m, v.tick);
    FoundExclusion(v.spec.exclusions, id, m, v.tick);
    if e.Some? {
      CoverWords(e.value.id, id);
      OneOf(Reason(DEGRADED_BY_MAINTENANCE, W.CoversMember(e.value.id, id)));
    }
    NothingSaid(Fit());
  }

  lemma OneOf(x: Reason)
    ensures AllOf(Go([x]), Fit()) <==> DetailFits(x)
  {
    hide DetailFits;
    assert [x][0] == x;
    assert Fit()(x) == DetailFits(x);
  }

  lemma PathStageFits(v: View, p: Option<Row<Path>>, k: Contract)
    requires p.Some? ==> IsIdentifier(p.value.id, MAX_IDENTIFIER)
    requires CheckPathState(v, p, k).Go?
    requires forall i :: 0 <= i < |v.spec.exclusions| ==> IsIdentifier(v.spec.exclusions[i].id, MAX_IDENTIFIER)
    ensures AllOf(CheckPathState(v, p, k), Fit())
            <==> !(p.Some? && TooLong(ExclusionForPath(v.spec.exclusions, p.value.id, v.tick), p.value.id, 221))
  {
    hide ExclusionForPath, DetailFits, CheckUsable, ExcludedPath, Then, AllOf, TooLong;
    NothingSaid(Fit());
    if p.Some? {
      ThenAll(CheckUsable(p.value, k), ExcludedPath(v, p.value.id), Fit());
      UsableFits(p.value, k);
      ExcludedPathFits(v, p.value.id);
    }
  }

  lemma UsableFits(row: Row<Path>, k: Contract)
    requires IsIdentifier(row.id, MAX_IDENTIFIER) && CheckUsable(row, k).Go?
    ensures AllOf(CheckUsable(row, k), Fit())
  {
    hide DetailFits, Short, W.DeclaredDegraded, W.PathInMaintenance;
    PathWords(row.id);
    ShortFits(DEGRADED_BY_REDUNDANCY_LOSS, W.DeclaredDegraded(row.id), 160);
    ShortFits(DEGRADED_BY_MAINTENANCE, W.PathInMaintenance(row.id), 160);
    OneOf(Reason(DEGRADED_BY_REDUNDANCY_LOSS, W.DeclaredDegraded(row.id)));
    OneOf(Reason(DEGRADED_BY_MAINTENANCE, W.PathInMaintenance(row.id)));
    NothingSaid(Fit());
  }

  lemma ExcludedPathFits(v: View, id: Id)
    requires IsIdentifier(id, MAX_IDENTIFIER) && ExcludedPath(v, id).Go?
    requires forall i :: 0 <= i < |v.spec.exclusions| ==> IsIdentifier(v.spec.exclusions[i].id, MAX_IDENTIFIER)
    ensures AllOf(ExcludedPath(v, id), Fit()) <==> !TooLong(ExclusionForPath(v.spec.exclusions, id, v.tick), id, 221)
  {
    hide ExclusionForPath, W.CoversPath, DetailFits;
    var e := ExclusionForPath(v.spec.exclusions, id, v.tick);
    FoundExclusion(v.spec.exclusions, id, Member([], 0, [], Active, [], [], [], [], 0, []), v.tick);
    if e.Some? {
      CoverWords(e.value.id, id);
      OneOf(Reason(DEGRADED_BY_MAINTENANCE, W.CoversPath(e.value.id, id)));
    }
    NothingSaid(Fit());
  }

  lemma LifecycleFits(l: Lifecycle, k: Contract, role: string)
    requires role == "source" || role == "destination"
    requires CheckLifecycle(l, k, W.MemberState(role, l)).Go?
    ensures AllOf(CheckLifecycle(l, k, W.MemberState(role, l)), Fit())
  {
    hide DetailFits, Short, W.MemberState;
    LifecycleWords(l);
    ShortFits(DEGRADED_BY_MEMBER_STATE, W.MemberState(role, l), 40);
    ShortFits(DEGRADED_BY_MAINTENANCE, W.MemberState(role, l), 40);
    OneOf(Reason(DEGRADED_BY_MEMBER_STATE, W.MemberState(role, l)));
    OneOf(Reason(DEGRADED_BY_MAINTENANCE, W.MemberState(role, l)));
    NothingSaid(Fit());
  }

  lemma ChosenRow(v: View, r: Request)
    requires ChosenPath(v, r).Some?
    ensures ChosenPath(v, r).value in v.spec.paths
  {
    if r.path != [] {
      assert v.spec.paths[LowerBound(v.spec.paths, r.path)] == ChosenPath(v, r).value;
    } else {
      SelectedIsSelectable(v.spec.paths, r);
    }
  }

  /** Of what is said before capacity, only exclusions can say too much. */
  lemma EarlyFits(v: View, r: Request, k: Contract)
    requires NamesFit(v, r, k) && Arrives(v, r, k)
    ensures var s, d := Get(v.spec.members, r.source).value, Get(v.spec.members, r.destination).value;
            All(CheckEligible(v, s, d, r, k).degradations, Fit()) <==> !LongExclusion(v, r)
  {
    hide CheckEligible, CheckLifecycle, ExcludedMember, CheckPathState, AllOf, All, TooLong, ChosenPath, ExclusionForMember,
         ExclusionForPath, W.MemberState, IsIdentifier, LowerBound;
    var s, d := Get(v.spec.members, r.source).value, Get(v.spec.members, r.destination).value;
    var e := EarlyStages(v, s, d, r, k);
    EligibleParts(v, s, d, r, k, Fit());
    EachStage(v, s, d, r, k, 0);
    EachStage(v, s, d, r, k, 1);
    EachStage(v, s, d, r, k, 2);
    EachStage(v, s, d, r, k, 3);
    EachStage(v, s, d, r, k, 4);
    LifecycleFits(s.lifecycle, k, "source");
    LifecycleFits(d.lifecycle, k, "destination");
    MemberStage(v, r.source, s);
    MemberStage(v, r.destination, d);
    if ChosenPath(v, r).Some? { ChosenRow(v, r); }
    PathStageFits(v, ChosenPath(v, r), k);
    assert AllOf(e[0], Fit()) && AllOf(e[1], Fit());
  }

  lemma CutFits(before: nat, after: nat, words: string)
    requires Short(words, 256)
    ensures All(Cut(before, after, words), Fit())
  {
    hide DetailFits;
    ShortFits(DEGRADED_BY_CAPACITY, words, 256);
    assert Fit()(Reason(DEGRADED_BY_CAPACITY, words));
  }

  lemma PathCutFits(v: View, r: Request, k: Contract, p: Option<Row<Path>>, want: nat)
    requires PathStage(v, r, k, p, want).SomeUnits?
    requires p.Some? ==> IsIdentifier(p.value.id, MAX_IDENTIFIER) && p.value.val.capacity <= U64_MAX
    ensures All(PathStage(v, r, k, p, want).degradations, Fit())
  {
    hide DetailFits, W.FreeOf, OtherHolder, Fit, Short, Held;
    if p.Some? {
      ShortId(p.value.id);
      NineBytes();
      var free := PathFree(v, r, p.value);
      FreeWords("path ", p.value.id, free, p.value.val.capacity);
      CutFits(want, Min(want, free), W.FreeOf("path ", p.value.id, free, p.value.val.capacity));
    }
  }

  lemma NineBytes()
    ensures Short("path ", 9) && Short("resource ", 9)
  {}

  lemma ResourceCutFits(v: View, r: Request, k: Contract, s: Member, p: Option<Row<Path>>, units: nat)
    requires ResourceStage(v, r, k, s, p, units).SomeUnits?
    requires r.resource == [] || IsIdentifier(r.resource, MAX_IDENTIFIER)
    requires forall i :: 0 <= i < |s.resources| ==> s.resources[i].total <= U64_MAX
    ensures All(ResourceStage(v, r, k, s, p, units).degradations, Fit())
  {
    hide DetailFits, W.FreeOf, Fit, Short, Held, FindResource;
    if r.resource != [] {
      FoundUnderItsId(s.resources, r.resource);
      var x := FindResource(s.resources, r.resource).value;
      ShortId(x.id);
      NineBytes();
      var free := ResourceFree(v, r, x);
      FreeWords("resource ", x.id, free, x.total);
      CutFits(units, Min(units, free), W.FreeOf("resource ", x.id, free, x.total));
    }
  }

  lemma CapacityFits(v: View, r: Request, k: Contract)
    requires NamesFit(v, r, k) && Has(v.spec.members, r.source)
    requires CapacityStage(v, r, k, Get(v.spec.members, r.source).value, ChosenPath(v, r)).SomeUnits?
    ensures All(CapacityStage(v, r, k, Get(v.spec.members, r.source).value, ChosenPath(v, r)).degradations, Fit())
  {
    hide DetailFits, W.Ceiling, Fit, Short, PathStage, ResourceStage, ChosenPath, All, IsIdentifier, LowerBound;
    var s, p := Get(v.spec.members, r.source).value, ChosenPath(v, r);
    if p.Some? { ChosenRow(v, r); }
    var a := PathStage(v, r, k, p, Want(r, k));
    var b := ResourceStage(v, r, k, s, p, a.units);
    PathCutFits(v, r, k, p, Want(r, k));
    ResourceCutFits(v, r, k, s, p, a.units);
    CeilingFits(k.maxUnits);
    var first := if Ceilinged(r, k) then [Reason(DEGRADED_BY_CAPACITY, W.Ceiling(k.maxUnits))] else [];
    AllJoin(first, a.degradations, Fit());
    AllJoin(first + a.degradations, b.degradations, Fit());
  }

  lemma CeilingFits(n: nat)
    requires n <= U64_MAX
    ensures All([Reason(DEGRADED_BY_CAPACITY, W.Ceiling(n))], Fit()) && All([], Fit())
  {
    hide DetailFits, W.Ceiling, Short;
    CeilingWords(n);
    ShortFits(DEGRADED_BY_CAPACITY, W.Ceiling(n), 100);
    assert Fit()(Reason(DEGRADED_BY_CAPACITY, W.Ceiling(n)));
  }

  lemma {:induction false} ObligationsFit(v: View, t: Table<Obligation>, service: Id, key: string, units: nat)
    requires CheckObligations(v, t, service, key, units).Go?
    requires forall i :: 0 <= i < |t| ==> IsIdentifier(t[i].id, MAX_IDENTIFIER)
    ensures AllOf(CheckObligations(v, t, service, key, units), Fit())
  {
    hide CheckObligation, DetailFits, IsIdentifier;
    if t != [] {
      ObligationsFit(v, t[1..], service, key, units);
      ObligationFits(v, t[0].id, t[0].val, service, key, units);
      ThenAll(CheckObligation(v, t[0].id, t[0].val, service, key, units), CheckObligations(v, t[1..], service, key, units), Fit());
    }
  }

  lemma ObligationFits(v: View, id: Id, o: Obligation, service: Id, key: string, units: nat)
    requires IsIdentifier(id, MAX_IDENTIFIER)
    ensures CheckObligation(v, id, o, service, key, units).Go? ==> AllOf(CheckObligation(v, id, o, service, key, units), Fit())
  {
    hide PerDomain, DetailFits, Short, W.Unmet, IsIdentifier;
    UnmetWords(id);
    ShortFits(DEGRADED_BY_REDUNDANCY_LOSS, W.Unmet(id), 200);
    OneOf(Reason(DEGRADED_BY_REDUNDANCY_LOSS, W.Unmet(id)));
  }

  /** All that a passing request is told fits, unless an exclusion says too much. */
  lemma PassFits(v: View, r: Request, k: Contract)
    requires NamesFit(v, r, k) && Evaluate(v, r, k).Pass?
    ensures All(Evaluate(v, r, k).degradations, Fit()) <==> !LongExclusion(v, r)
  {
    hide Evaluate, CheckEligible, CapacityStage, CheckObligations, DomainKey, ChosenPath, All, AllOf, LongExclusion, LowerBound,
         IsIdentifier, Fit;
    PassParts(v, r, k, Fit());
    EarlyFits(v, r, k);
    CapacityFits(v, r, k);
    var d := Get(v.spec.members, r.destination).value;
    ObligationsFit(v, v.spec.obligations, k.destinationService, DomainKey(d.locality, k.level),
                   CapacityStage(v, r, k, Get(v.spec.members, r.source).value, ChosenPath(v, r)).units);
  }

  // ----- only the first 24 are written -----

  lemma ThenCount(a: Check, b: Check)
    requires Then(a, b).Go?
    ensures a.Go? && b.Go? && |Then(a, b).degradations| == |a.degradations| + |b.degradations|
  {}

  lemma PathCount(v: View, p: Option<Row<Path>>, k: Contract)
    ensures CheckPathState(v, p, k).Go? ==> |CheckPathState(v, p, k).degradations| <= 2
  {
    hide ExclusionForPath, W.CoversPath, W.DeclaredDegraded, W.PathInMaintenance;
  }

  lemma StageCounts(v: View, s: Member, d: Member, r: Request, k: Contract)
    ensures var e := EarlyStages(v, s, d, r, k);
            forall i :: 0 <= i < 4 && e[i].Go? ==> |e[i].degradations| <= 1
  {
    hide ExclusionForMember, W.CoversMember, W.MemberState, CheckPathState;
  }

  /** At most six things are said before capacity is looked at. */
  lemma EarlyCount(v: View, s: Member, d: Member, r: Request, k: Contract)
    requires CheckEligible(v, s, d, r, k).Go?
    ensures |CheckEligible(v, s, d, r, k).degradations| <= 6
  {
    hide CheckMembers, CheckLifecycle, ExcludedMember, CheckNamedPath, CheckPathState, Then, Require, ChosenPath, W.MemberState;
    HardStages(v, s, d, r, k);
    var e := EarlyStages(v, s, d, r, k);
    var c8 := Require(k.minDomains <= Domains(s, d, k.level), Refused, LOCALITY_CONSTRAINT_VIOLATED, Go([]));
    var t7 := Then(e[4], c8);
    var t6 := Then(CheckNamedPath(v, r), t7);
    var t5, t4 := Then(e[3], t6), Then(e[2], Then(e[3], t6));
    var t3 := Then(e[1], t4);
    var t2 := Then(e[0], t3);
    assert CheckEligible(v, s, d, r, k) == Then(CheckMembers(v.options, s, d, r, k), t2);
    ThenCount(CheckMembers(v.options, s, d, r, k), t2);
    ThenCount(e[0], t3);
    ThenCount(e[1], t4);
    ThenCount(e[2], t5);
    ThenCount(e[3], t6);
    ThenCount(CheckNamedPath(v, r), t7);
    ThenCount(e[4], c8);
    StageCounts(v, s, d, r, k);
    PathCount(v, ChosenPath(v, r), k);
  }

  lemma EarlyFirst(v: View, r: Request, k: Contract)
    requires Evaluate(v, r, k).Pass? && Arrives(v, r, k)
    ensures var soft := CheckEligible(v, Get(v.spec.members, r.source).value, Get(v.spec.members, r.destination).value, r, k).degradations;
            soft <= Evaluate(v, r, k).degradations
  {
    hide CheckEligible, CapacityStage, CheckObligations, CheckRenewal, ChosenPath, DomainKey, LowerBound;
  }

  lemma KeptPrefix(soft: seq<Reason>, ds: seq<Reason>)
    requires soft <= ds && |soft| <= 6 && (All(ds, Fit()) <==> All(soft, Fit()))
    ensures DetailsFit(Kept(ds)) <==> All(ds, Fit())
  {
    hide DetailFits;
    if DetailsFit(Kept(ds)) {
      forall i | 0 <= i < |soft| ensures Fit()(soft[i]) { assert Kept(ds)[i] == soft[i]; }
    } else {
      var i :| 0 <= i < |Kept(ds)| && !DetailFits(Kept(ds)[i]);
      assert Kept(ds)[i] == ds[i] && !Fit()(ds[i]);
    }
  }

  /** So what is written of a minted grant's degradations fits exactly when no exclusion says too much. */
  lemma MintedDetails(v: View, r: Request, k: Contract)
    requires NamesFit(v, r, k) && Evaluate(v, r, k).Pass?
    ensures DetailsFit(Kept(Evaluate(v, r, k).degradations)) <==> !LongExclusion(v, r)
  {
    hide Evaluate, CheckEligible, ChosenPath, All, LongExclusion, LowerBound, IsIdentifier, Fit, DetailsFit;
    PassArrives(v, r, k);
    var s, d := Get(v.spec.members, r.source).value, Get(v.spec.members, r.destination).value;
    PassParts(v, r, k, Fit());
    EarlyCount(v, s, d, r, k);
    EarlyFirst(v, r, k);
    EarlyFits(v, r, k);
    PassFits(v, r, k);
    KeptPrefix(CheckEligible(v, s, d, r, k).degradations, Evaluate(v, r, k).degradations);
  }

  // ----- minting -----

  /** Everything in a grant's record but what its reasons say is within the codec's bounds. */
  ghost predicate OtherwiseFits(e: Entry)
  {
    e.body.GrantRecord? && e.tick <= U64_MAX && GrantCodable(e.body.id, e.body.grant.(reductions := []))
    && DetailsWritable(e.body.grant.reductions)
  }

  lemma MintWrites(c: Core, r: Request)
    requires hide Evaluate; Ledger.Mints(c, Submission(r))
    ensures var log := Submit(c, r).0.log;
            var ds := Evaluate(ViewOf(c), r, Get(c.store.contracts, r.contract).value).degradations;
            && |log| >= |c.log| + 2 && log[..|c.log|] == c.log
            && log[|c.log|].body.GrantRecord? && log[|c.log|].body.grant.reductions == ds
            && log[|c.log| + 1].body.GrantRecord? && log[|c.log| + 1].body.grant.reductions == ds
  {
    hide Evaluate, Commit, Gate, GrantName, LeaseName, LowerBound, Draft;
    MintsPass(c, r);
    SubmitCommits(c, r);
    var k := Get(c.store.contracts, r.contract).value;
    var e, b := Evaluate(ViewOf(c), r, k), Bumped(c);
    var o := GrantOutcome(e.degradations, r, k).value;
    var draft := Draft(b, r, k, e, o, LeaseName(b.leaseSerial), LeaseTicks(c, r));
    DraftSays(b, r, k, e, o, LeaseName(b.leaseSerial), LeaseTicks(c, r));
    CommitWrites(b, GrantName(b.grantSerial), draft, r);
  }

  lemma DraftSays(c: Core, r: Request, k: Contract, e: Verdict, o: Outcome, lease: Id, ticks: nat)
    requires e.Pass? && Has(c.store.spec.members, r.source) && Has(c.store.spec.members, r.destination)
    requires GrantOutcome(e.degradations, r, k) == Some(o)
    ensures Draft(c, r, k, e, o, lease, ticks).reductions == e.degradations
  {
    hide Bind;
  }

  lemma CommitWrites(c: Core, id: Id, draft: Grant, r: Request)
    ensures var log := Commit(c, id, draft, r).0.log;
            && |log| >= |c.log| + 2 && log[..|c.log|] == c.log
            && log[|c.log|].body.GrantRecord? && log[|c.log|].body.grant.reductions == draft.reductions
            && log[|c.log| + 1].body.GrantRecord? && log[|c.log| + 1].body.grant.reductions == draft.reductions
  {
    hide Put, MintedAttempt, LowerBound;
  }

  /** The two records of a new grant are read back exactly when no exclusion that degrades the request has, together
      with the name it covers, more than 226 bytes, or 221 for the path: whatever else it is told fits. */
  lemma MintReads(c: Core, r: Request, x: Extras, y: Extras)
    requires hide Evaluate; Ledger.Mints(c, Submission(r)) && ExtrasFit(x) && ExtrasFit(y)
    requires NamesFit(ViewOf(c), r, Get(c.store.contracts, r.contract).value)
    requires var log := Submit(c, r).0.log;
             |log| >= |c.log| + 2 && OtherwiseFits(log[|c.log|]) && OtherwiseFits(log[|c.log| + 1])
    ensures var log := Submit(c, r).0.log;
            && (IsRead(log[|c.log|], x) <==> !LongExclusion(ViewOf(c), r))
            && (IsRead(log[|c.log| + 1], y) <==> !LongExclusion(ViewOf(c), r))
  {
    hide Evaluate, Submit, Gate, LongExclusion, NamesFit, GrantCodable, DetailsFit, DetailsWritable, Encode, Decode, KindOf,
         LowerBound;
    MintsPass(c, r);
    MintWrites(c, r);
    MintedDetails(ViewOf(c), r, Get(c.store.contracts, r.contract).value);
    var log := Submit(c, r).0.log;
    GrantEntryReads(log[|c.log|], x);
    GrantEntryReads(log[|c.log| + 1], y);
  }

  lemma GrantEntryReads(e: Entry, x: Extras)
    requires OtherwiseFits(e) && ExtrasFit(x)
    ensures IsRead(e, x) <==> DetailsFit(Kept(e.body.grant.reductions))
  {
    hide GrantCodable, DetailsFit, DetailsWritable, Encode, Decode, KindOf;
    GrantRecordReads(e.tick, e.body.kind, e.body.id, e.body.grant, e.body.state, x);
  }
}
