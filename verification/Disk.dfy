/** From bytes back to a running controller: what the journal file's scan, the replay of its records and
    recovery give together, when the file was cut or damaged anywhere after its header. */
module Disk {
  import opened Tables
  import opened Model
  import opened Eligibility
  import opened Engine
  import opened Replay
  import opened Safety
  import opened Durability
  import opened Invariant
  import opened Runs
  import opened EntryCodec
  import Guarantees
  import J = Journal

  function Reads(): J.Decodes { (kind: nat, payload: seq<byte>) => Decode(kind, payload).Some? }

  /** Every entry can be written, with these extras, within a record's bounds: its numbers have their fields' widths, its
      texts are bytes, and it is no larger than `append` takes. Nothing is asked about whether it will be read. */
  ghost predicate Writable(log: Log, xs: seq<Extras>)
  {
    |xs| == |log| && forall i :: 0 <= i < |log| ==>
      Expressible(log[i].tick, log[i].body, xs[i]) && |Encode(log[i].tick, log[i].body, xs[i])| <= J.MAX_RECORD
  }

  function Records(log: Log, xs: seq<Extras>): seq<J.Record>
    requires |xs| == |log|
  {
    seq(|log|, i requires 0 <= i < |log| => J.Record(KindOf(log[i].body), Encode(log[i].tick, log[i].body, xs[i])))
  }

  predicate Readable(rs: seq<J.Record>)
  {
    forall i :: 0 <= i < |rs| ==> Decode(rs[i].kind, rs[i].payload).Some?
  }

  function Entries(rs: seq<J.Record>): Log
    requires Readable(rs)
  {
    seq(|rs|, i requires 0 <= i < |rs| =>
      var e := Decode(rs[i].kind, rs[i].payload).value; Entry(i, e.0, e.1))
  }

  /** The file this controller has written. */
  function File(log: Log, xs: seq<Extras>): seq<byte>
    requires |xs| == |log|
  {
    J.FileHeader() + J.Written(Records(log, xs), 0, 0)
  }

  /** How many entries come before the first that is not read back. */
  function Legible(log: Log, xs: seq<Extras>): (n: nat)
    requires |xs| == |log|
    ensures n <= |log|
  {
    J.Decodable(Records(log, xs), Reads())
  }

  /** In the log of any reachable state, records are numbered by their place. */
  lemma PlacesAreNumbers(c: Core, i: nat, care: Care)
    requires Good(c, care) && i < |c.log|
    ensures c.log[i].sequence == i
  {
    hide Sound, Evidenced, Tagged;
    assert DurableAt(c.log[..i + 1], care.Roomy?);
  }

  lemma WholeFile(log: Log, xs: seq<Extras>)
    requires hide Expressible, Encode; Writable(log, xs)
    ensures J.HoldsRecords(File(log, xs), Records(log, xs))
  {
    hide J.FileHeader, J.Written, J.HeaderStatus, Expressible, Encode, KindOf;
    var rs := Records(log, xs);
    J.FreshHeaderGood(J.Written(rs, 0, 0));
    forall i | 0 <= i < |rs| ensures J.Framed(rs[i]) { KindIs(log[i].body); }
  }

  /** The first records of the file, as far as they are read, are the first entries of the log. */
  lemma PrefixEntries(c: Core, xs: seq<Extras>, n: nat, care: Care)
    requires hide Good, Expressible, Encode; Good(c, care) && Writable(c.log, xs) && n <= Legible(c.log, xs)
    ensures Readable(Records(c.log, xs)[..n])
    ensures Entries(Records(c.log, xs)[..n]) == c.log[..n]
  {
    hide Good, Expressible, Encode, Decode, KindOf, Codable;
    forall i | 0 <= i < n
      ensures c.log[i] == Entry(i, c.log[i].tick, c.log[i].body)
      ensures Decode(KindOf(c.log[i].body), Encode(c.log[i].tick, c.log[i].body, xs[i])) == Some((c.log[i].tick, c.log[i].body))
    {
      PlacesAreNumbers(c, i, care);
      EntryReads(c.log[i].tick, c.log[i].body, xs[i]);
      assert Reads()(Records(c.log, xs)[i].kind, Records(c.log, xs)[i].payload);
    }
  }

  /** The file is read back as the first `n` entries of the log. */
  ghost predicate ReadsAs(file: seq<byte>, log: Log, n: nat)
  {
    n <= |log| && match J.ScanFile(file, Reads())
                  case Success(r) => |r.records| == n && Readable(r.records) && Entries(r.records) == log[..n]
                  case Failure(_) => false
  }

  /** How many entries are whole in the first `cut` bytes of a controller's file. */
  function WholeEntries(log: Log, xs: seq<Extras>, cut: nat): (n: nat)
    requires |xs| == |log| && cut >= J.FILE_HEADER
    ensures n <= |log| && J.FILE_HEADER + J.Size(Records(log, xs)[..n]) <= cut
    ensures n < |log| ==> J.FILE_HEADER + J.Size(Records(log, xs)[..n + 1]) > cut
  {
    J.WholeRecords(Records(log, xs), cut - J.FILE_HEADER)
  }

  /** The entry whose record holds this byte of the file. */
  function EntryAt(log: Log, xs: seq<Extras>, at: nat): (n: nat)
    requires |xs| == |log| && J.FILE_HEADER <= at < |File(log, xs)|
    ensures n < |log|
  {
    FileLength(log, xs);
    DamagedRecord(Records(log, xs), at - J.FILE_HEADER);
    J.RecordAt(Records(log, xs), at - J.FILE_HEADER)
  }

  /** The file survives only up to some byte: what is read back is the log up to its last entry that is whole, or to
      the first that is not read. */
  lemma CutReads(c: Core, xs: seq<Extras>, cut: nat, care: Care)
    requires hide Reachable, Expressible, Encode; Reachable(c, care) && Writable(c.log, xs)
    requires J.FILE_HEADER <= cut <= |File(c.log, xs)| <= J.MAX_SCAN
    ensures ReadsAs(File(c.log, xs)[..cut], c.log, Min(WholeEntries(c.log, xs, cut), Legible(c.log, xs)))
  {
    hide J.Written, J.Scan, J.FileHeader, J.Size, J.ScanFile, J.HoldsRecords, Good, Reachable, Expressible, Encode, Decode, KindOf,
         File, Entries, Readable, Reads;
    ReachableGood(c, care);
    WholeFile(c.log, xs);
    J.FileCut(File(c.log, xs), Records(c.log, xs), cut, Reads());
    PrefixEntries(c, xs, Min(WholeEntries(c.log, xs, cut), Legible(c.log, xs)), care);
  }

  /** One byte after the header changed: what is read back is the log up to the entry that was damaged, or to the first
      that is not read. */
  lemma DamageReads(c: Core, xs: seq<Extras>, at: nat, b: byte, care: Care)
    requires hide Reachable, Expressible, Encode; Reachable(c, care) && Writable(c.log, xs)
    requires J.FILE_HEADER <= at < |File(c.log, xs)| <= J.MAX_SCAN && File(c.log, xs)[at] != b
    ensures ReadsAs(File(c.log, xs)[at := b], c.log, Min(EntryAt(c.log, xs, at), Legible(c.log, xs)))
  {
    hide J.Written, J.HeaderStatus, J.Scan, J.FileHeader, J.Size, J.RecordAt, J.ScanFile, J.HoldsRecords, Good, Reachable,
         Expressible, Encode, Decode, KindOf, Entries, Readable, Reads;
    ReachableGood(c, care);
    WholeFile(c.log, xs);
    FileLength(c.log, xs);
    J.FileDamage(File(c.log, xs), Records(c.log, xs), at, b, Reads());
    PrefixEntries(c, xs, Min(EntryAt(c.log, xs, at), Legible(c.log, xs)), care);
  }

  lemma FileLength(log: Log, xs: seq<Extras>)
    requires |xs| == |log|
    ensures |File(log, xs)| == J.FILE_HEADER + J.Size(Records(log, xs))
  {}

  lemma {:induction false} DamagedRecord(rs: seq<J.Record>, i: nat)
    requires i < J.Size(rs)
    ensures J.RecordAt(rs, i) < |rs|
  {
    if rs != [] && J.RECORD_HEADER + |rs[0].payload| + 4 <= i {
      DamagedRecord(rs[1..], i - (J.RECORD_HEADER + |rs[0].payload| + 4));
    }
  }

  /** Starting again from what was read back. */
  function Reopened(rs: seq<J.Record>, options: Options, incarnation: seq<byte>, tick: nat): (Core, StatusCode)
    requires Readable(rs) && Raw(Entries(rs)).Success?
  {
    var log := Entries(rs);
    Recover(options, Finish(Raw(log).value), log, incarnation, tick)
  }

  /** Scanning this file succeeds, and if a record is left, what is left survives. */
  ghost predicate FileSurvives(file: seq<byte>, options: Options, incarnation: seq<byte>, tick: nat, care: Care)
  {
    match J.ScanFile(file, Reads())
    case Success(r) => r.records != [] ==> Survives(r.records, options, incarnation, tick, care)
    case Failure(_) => false
  }

  /** Power lost at any byte of the file, as long as one whole record survives: scanning, replaying and recovering, when
      recovery accepts its arguments, give a sound controller, in which every grant has met the fate a crash may deal it
      and nothing is held that the records read back do not account for. Records that are not read only shorten the log. */
  lemma PowerCut(c: Core, xs: seq<Extras>, cut: nat, options: Options, incarnation: seq<byte>, tick: nat, care: Care)
    requires hide Reachable, Expressible, Encode, FileSurvives;
             Reachable(c, care) && Writable(c.log, xs) && CareOptions(options, care)
    requires J.FILE_HEADER <= cut <= |File(c.log, xs)| <= J.MAX_SCAN
    ensures FileSurvives(File(c.log, xs)[..cut], options, incarnation, tick, care)
  {
    hide J.ScanFile, J.Size, Good, Recover, File, Survives, Reachable, Entries, Readable, Expressible, Reads, Legible;
    ReachableGood(c, care);
    CutReads(c, xs, cut, care);
    var rs := J.ScanFile(File(c.log, xs)[..cut], Reads()).value.records;
    if rs != [] { PrefixSurvives(c, rs, options, incarnation, tick, care); }
  }

  /** The same with one byte damaged instead. */
  lemma ByteLost(c: Core, xs: seq<Extras>, at: nat, b: byte, options: Options, incarnation: seq<byte>, tick: nat, care: Care)
    requires hide Reachable, Expressible, Encode, FileSurvives;
             Reachable(c, care) && Writable(c.log, xs) && CareOptions(options, care)
    requires J.FILE_HEADER <= at < |File(c.log, xs)| <= J.MAX_SCAN && File(c.log, xs)[at] != b
    ensures FileSurvives(File(c.log, xs)[at := b], options, incarnation, tick, care)
  {
    hide J.ScanFile, J.Size, Good, Recover, File, Survives, Reachable, Entries, Readable, Expressible, Reads, Legible;
    ReachableGood(c, care);
    DamageReads(c, xs, at, b, care);
    var rs := J.ScanFile(File(c.log, xs)[at := b], Reads()).value.records;
    if rs != [] { PrefixSurvives(c, rs, options, incarnation, tick, care); }
  }

  /** These records replay, and if recovery accepts its arguments the result is sound and crash-safe. */
  ghost predicate Survives(rs: seq<J.Record>, options: Options, incarnation: seq<byte>, tick: nat, care: Care)
  {
    hide Good, Recover, Raw, Guarantees.CrashFate;
    Readable(rs) && var log := Entries(rs);
    Raw(log).Success? && (Reopened(rs, options, incarnation, tick).1 == Ok ==>
      var s := Raw(log).value.store;
      var d := Reopened(rs, options, incarnation, tick).0;
      && Good(d, care) && |d.store.grants| == |s.grants| && d.store.spec.epoch == s.spec.epoch + 1
      && forall i :: 0 <= i < |s.grants| ==> Guarantees.CrashFate(log, d.store.spec, s.grants[i], d.store.grants[i]))
  }

  lemma PrefixSurvives(c: Core, rs: seq<J.Record>, options: Options, incarnation: seq<byte>, tick: nat, care: Care)
    requires hide Good, Survives; Good(c, care) && CareOptions(options, care) && rs != [] && |rs| <= |c.log|
    requires Readable(rs) && Entries(rs) == c.log[..|rs|]
    ensures Survives(rs, options, incarnation, tick, care)
  {
    hide Good, Recover, Raw, DurableAt, Guarantees.CrashFate;
    PrefixDurable(c, |rs|, care);
    Guarantees.PrefixState(c.log[..|rs|], care.Roomy?);
    if Restart(c, |rs|, options, incarnation, tick).1 == Ok {
      RestartGood(c, |rs|, options, incarnation, tick, care);
      Guarantees.CrashFates(c, |rs|, options, incarnation, tick, care);
    }
  }

  // ----- compaction, down to the bytes -----

  /** The file of a controller, read back whole. */
  lemma FileReads(c: Core, xs: seq<Extras>, care: Care)
    requires hide Good, Expressible, Encode;
             Good(c, care) && Writable(c.log, xs) && |File(c.log, xs)| <= J.MAX_SCAN
    ensures ReadsAs(File(c.log, xs), c.log, Legible(c.log, xs))
  {
    hide J.Written, J.HeaderStatus, J.Scan, J.FileHeader, J.Size, J.ScanFile, J.HoldsRecords, Good, Expressible, Encode, Reads,
         Readable, Entries;
    WholeFile(c.log, xs);
    J.RecordsScan(File(c.log, xs), Records(c.log, xs), Reads());
    PrefixEntries(c, xs, Legible(c.log, xs), care);
  }

  /** The file holds two records, and what they replay to is exactly this state, clock and all. */
  ghost predicate ReadsAsState(file: seq<byte>, state: Store)
  {
    match J.ScanFile(file, Reads())
    case Success(r) =>
      && |r.records| == 2 && Readable(r.records)
      && (match Raw(Entries(r.records)) case Success(t) => Finish(t) == state case Failure(_) => false)
    case Failure(_) => false
  }

  /** After compaction the whole file is one snapshot and one counters record. If the snapshot is read, what comes back,
      byte by byte, is exactly the live state, clock and all; if it is not, nothing comes back. */
  lemma CompactedFile(c: Core, xs: seq<Extras>, care: Care)
    requires hide Reachable, Expressible, Encode, Compact;
             Reachable(c, care) && Writable(Compact(c).log, xs) && |File(Compact(c).log, xs)| <= J.MAX_SCAN
    ensures if Legible(Compact(c).log, xs) == 0 then ReadsAs(File(Compact(c).log, xs), Compact(c).log, 0)
            else ReadsAsState(File(Compact(c).log, xs), c.store)
  {
    hide Reachable, Good, J.ScanFile, Raw, File, Entries, Readable, Legible;
    ReachableGood(c, care);
    CompactGood(c, care);
    Guarantees.CompactedState(c, care);
    FileReads(Compact(c), xs, care);
    CountersLegible(c, xs);
    var log := Compact(c).log;
    assert |log| == 2 && log[..|log|] == log;
  }

  /** The counters record is always read. */
  lemma CountersLegible(c: Core, xs: seq<Extras>)
    requires hide Compact, Expressible, Encode; Writable(Compact(c).log, xs)
    ensures Legible(Compact(c).log, xs) != 1
  {
    hide Encode, Decode, ImageExpressible;
    var log := Compact(c).log;
    assert log[1].body == CountersSync;
    EntryReads(log[1].tick, log[1].body, xs[1]);
  }
}
