# The CIF authority, modelled and proved

This project models the Cluster Interconnect Fabric authority: the single-writer engine that grants, renews,
fences and expires the right to use interconnect capacity; the write-ahead journal that makes its decisions
durable; the canonical encodings, checksums and hashes below both; and the threads of the daemon above them.

How it is built:

- Everything the engine does is written twice. `Engine`, `Eligibility`, `Cluster` and `Replay` say as functions
  what each operation makes of the whole state, records included; `Authority.AuthorityCore`, `Evaluation` and
  `Caches` are the object and its loops, updating their fields in place, each method proved equal to its function.
  The laws are proved of the functions, so they hold of the methods.
- What each operation computes is said a second time without the functions that compute it: `Requests`, `Answers`,
  `Verdicts`, `Obligations`, `Decisions`, `Fates`, `Edits`, `Changes`, `Sweeps`, `Reopening`, `Rereading` and `Replies` say of
  every submission, release, query, acknowledgement, cancellation, specification and contract change, revalidation, fence,
  expiry, restart, record read back and message served what is answered and what is under every id afterwards, by lookups in
  the tables, true sums and sets. `Decisions` has evaluation as one list of objections, in order. `KnownAnswers` computes the
  two hashes of known messages, and `Utf8` says which texts are texts.
- A run (`Runs`) is any sequence of submissions, releases, acknowledgements, cancellations, specification,
  contract and policy changes, clock ticks, expiries, fences, revalidations, compactions and crashes. A crash keeps
  any non-empty prefix of the log and is followed by replay and recovery. The invariant `Invariant.Good` ties the
  live state to its log: every prefix of the log replays to a sound state, and the whole log to the live one.
  The results in `Guarantees`, `Ledger`, `Terms`, `Limits`, `Restarts` and `Disk` are stated of every state such a run reaches from a
  first start (`Runs.Reachable`), not of the invariant.
  A `hide` at the head of a contract keeps the engine's definitions out of the check that the contract is well formed and
  adds nothing to what it says.
  `Care` says how much is asked of a run: `Loose` asks only for accepted mutations; `Steady` also for the default
  path and capacity checks; `Roomy` also that no mutation takes away capacity that is held.
- `Journal`, `EntryCodec` and `Disk` carry the crash theorem down to bytes: the file is cut or damaged at any byte
  after its header, and scanning, decoding, replaying and recovering what is left gives a sound controller, also when some
  of the records in it cannot be read.
  `Records` says which grant records can be read back at all: `Wording` holds the texts the engine puts into them.
- `Wire` and `Channel` are the frames and their reassembly from a stream that is cut and delayed in any way.
  `Queue`, `Dispatch`, `Reducer` and `Server` are the daemon: a step system of workers, in-process callers, acceptor,
  reducer and shutdown, scheduled in any order, refining the sequential engine.
- `Detached` follows the daemon over its starts, of which only the first attaches the journal.
- `Limits`, `Restarts` and `Records` hold what turned out not to be true without a condition, each with the exact
  condition. `Witness` and `Oversized` follow one concrete controller from its first start to states that miss them.

Identifiers and texts are byte strings; 64-bit counters that can wrap do so explicitly; digests inside the engine
are uninterpreted values.

## Findings

Where the code does something its own comments or callers do not expect, the model follows the code.

- Mutators journal before they validate (src/authority.cpp:515-526, src/authority.cpp:624-642). A refused mutation leaves the state alone and the log
  unreplayable; so does every contract that disables a service. `Limits.MutationReplays`, `Limits.ContractReplays`,
  `Limits.DisablingPoisons`.
- The commit record is written before the grant table's bound is looked at, so a grant refused for a full table
  also leaves the log unreplayable. `Limits.CommitReplays`.
- A cancellation's reason may have 512 bytes and is journaled whole (src/authority.cpp:2463-2464), while a record with a
  detail of more than 256 bytes is not read back (src/grant.cpp:35). The scan ends at such a record, so the cancellation and
  everything after it is lost and the cancelled grant holds its units again; a snapshot of such a grant is unreadable as a
  whole. The same happens to a new grant whose degrading exclusion has too long a name (src/authority.cpp:1440-1442).
  `Records.CancelReads`, `Records.MintReads`, `Records.LongReasonForgotten`, `Records.CompactedUnreadable`,
  `Oversized.OneByteTooMany`.
- Revalidation compares one grant at a time with a path's capacity and does not look at exclusivity, so shrinking a path can
  leave it over-committed, and declaring it exclusive can leave it with two holders; the totals of resources are not compared
  at all. `Limits.MutationHolds`, `Limits.MutationFitsIff`, `Limits.MutationSuppliesIff`,
  `Witness.ShrinkOvercommits`, `Witness.ExclusiveTooLate`.
- Renewal judges the path and resource the request names and keeps the grant's own. `Limits.RenewalFitsIff`,
  `Witness.RenewalOvercommits`.
- Cancelling with an attempt and somebody else's grant marks the one and ends the other. `Limits.CancelLeavesHolding`,
  `Witness.CancelsTheOther`.
- Recovery through the daemon attaches no sink (src/server.cpp:169-172), so nothing from then on reaches the file: the next
  start reads the same records, begins the same epoch at the same tick, forgets every grant minted in between and gives the
  same names out again, and the same request is granted the same units under the same name and lease a second time.
  `Detached.Forgotten`, `Detached.NamesAgain`, `Detached.GivenOutTwice`.
- The record of a new grant's attempt never names its request: it is taken from a decision that gets the request's id only
  afterwards (src/authority.cpp:1836, src/authority.cpp:2147). `Decisions.SubmissionExact`, `Terms.MintedTerms`.
- The acknowledgement record stores the grant as it was before, so an acknowledgement that is the last record of its grant
  survives one restart and not two. `Restarts.AcknowledgementRemembered`, `Restarts.AcknowledgementUnmarked`.
- Renewal does not look at the configured maximum lease, and a renewal that asks for no lease never expires, while a
  submission that asks for none gets the default. `Terms.RenewalTerms`, `Terms.MintedTerms`.
- Lease arithmetic wraps, and a default lease of no ticks, which nothing forbids, expires a grant at birth.
  `Terms.BornExpired`, `Terms.RenewedExpired`.
- At a saturated generation a specification edit stays although the call fails, and the cached state digest is left as it
  was. `Authority.AuthorityCore.MutateSpec`.
- A submission refused after its identifiers were minted, for its lease or for a full grant table, leaves the cached state digest
  stale. `Authority.AuthorityCore.SubmitRequest`.
- `set_cluster_id` is the one specification mutator that does not move the revision, although the header says every
  mutator does. `Caches.ClusterSpec.SetClusterId`.
- A frame's reserved field is covered by the checksum and otherwise not looked at; the last four bytes of the
  journal's header are not looked at at all. `Wire.DecodedIsSent`, `Journal.HeaderDamage`.
- Locality labels may contain the separator, so two different domains can have one key. `Cluster.DomainKeyCollides`.
- A second `finalise` of a hash leaves its output unwritten. `Sha.Stream.Finalise`.
- The result of sending a backpressure refusal is ignored, so a refusal can be lost on a connection that goes on;
  nothing else can. `Server.AnsweredInOrder`, `Server.RefusalLost`.
- An in-process caller whose message is queued behind the stop item waits for ever. `Server.CallersAnswered`,
  `Server.LateCaller`.

## Model

| member | source | states |
|---|---|---|
| `Runs.FromTheStart` | src/authority.cpp:242-294 | From a first start, any run of operations, compactions and crashes reaches only states that satisfy the invariant |
| `Runs.ReachableGood` | src/authority.cpp:242-439 | So every reachable state satisfies the invariant the results below rest on |
| `Runs.StillReachable` | src/authority.cpp:296-352 | What any run reaches, further runs, crashes included, go on from |
| `Runs.RunGood` | src/authority.cpp:296-439 | Every state reachable from a good one is good, across any number of crashes at any point of the log |
| `Runs.StepGood` | src/authority.cpp:1934-2508 | Each single operation keeps the invariant: the log of the new state still stands for it, prefix by prefix |
| `Runs.MutateGood` | src/authority.cpp:515-582 | An accepted specification change keeps the invariant; each usable grant of which a member, its path, its contract or a tolerable lifecycle is gone is revoked before it returns, every other is re-issued, and the rest untouched; also a crash between the record and the revocations is safe |
| `Runs.RevalidateGood` | src/authority.cpp:953-961 | Revalidation on demand keeps the invariant and gives every usable grant the fate the tables have for it: revoked for the first thing that is gone, or re-issued, DEGRADED when a lifecycle is only tolerated |
| `Fates.StandingIs` | src/authority.cpp:803-927 | The engine's judgement of a grant is an explicit list: members present, not removed, at the generation and an agreeing digest; path present, at its generation, usable and large enough; contract present and tolerant of both lifecycles; the first that fails is the reason, and a tolerated lifecycle that is not ACTIVE is noted, MAINTENANCE under ALLOW aside |
| `Fates.RevalidateFates` | src/authority.cpp:803-961 | Revalidation changes exactly the usable grants: revoked with that reason noted once, or re-issued under the present coordinate, DEGRADED when something was noted, every other field as it was |
| `Changes.MutationExact` | src/authority.cpp:515-623 | A specification change, accepted or not: its record, its status, the one value it changes or the code it is refused with, the generation, and the fate of every grant under the new tables |
| `Changes.ContractMutationExact` | src/authority.cpp:624-642 | The same of contracts, which judge no grant |
| `Changes.RevalidationExact` | src/authority.cpp:953-961 | Revalidation on demand judges every usable grant by the tables as they are and changes nothing else |
| `Edits.SpecChangeExact` | src/model.cpp:302-545 | Every specification mutator, by lookups: accepted exactly under its own condition, it leaves the named value as given, with only the named fields changed, or gone, every other id and table as it was, and the generation one further; otherwise nothing changes and each code is given under exactly its condition |
| `Edits.ContractChangeExact` | src/contract.cpp:19-163 | The same of contracts |
| `Runs.SnapshotExact` | src/journal.cpp:870-883 | A log of one snapshot record replays to exactly the state it was taken from, clock included |
| `Runs.CompactGood` | src/authority.cpp:2632-2655 | Compaction changes the log and not the state, and every prefix of the new log is sound |
| `Runs.RestartGood` | src/authority.cpp:296-352 | Restarting from any non-empty prefix of the log gives a good state, whenever recovery accepts its arguments |
| `Guarantees.ReplayAgrees` | src/journal.cpp:818-989 | Replaying the log gives the live state at every moment: same specification, contracts and attempts, same grants with the same bindings, units, terminal states and knowledge of an acknowledgement, and the same amounts held of everything; the clock is the only thing that may lag |
| `Guarantees.CrashSafe` | src/authority.cpp:354-439 | After a crash that keeps any non-empty prefix, no grant holds capacity without its commit record in the prefix, a prepare alone holds nothing, every commit not acknowledged is quarantined with exactly its units, ended grants stay as they were, live grants carry the new epoch and incarnation, and no amount held exceeds the prefix's |
| `Guarantees.ExactlyOnce` | src/authority.cpp:441-502 | No two grants share an attempt id, and every grant's attempt has a record that names it |
| `Guarantees.NextNamesFresh` | src/authority.cpp:1054-1064 | No grant of the table has the next name, and none has the next lease, however often the controller restarted; a name whose records a crash lost is in no table and is given out again |
| `Guarantees.RetryChangesNothing` | src/authority.cpp:1128-1222 | A submission that repeats an attempt of any existing grant changes nothing at all, whatever it asks for |
| `Guarantees.PathNotOvercommitted` | src/authority.cpp:981-994 | In every state of a careful run the units held on a path are within its capacity, and an exclusive path has one holder at most |
| `Guarantees.ResourceNotOvercommitted` | src/authority.cpp:966-979 | The units held of a resource are within its total |
| `Guarantees.SumsAreTrue` | src/authority.cpp:966-994 | The saturating sums the engine compares never saturate: they are the true sums |
| `Guarantees.OneHolder` | src/authority.cpp:1555-1697 | Two grants never hold one exclusive path |
| `Guarantees.LiveValid` | src/authority.cpp:803-961 | Every live grant names present members at the bound generation and an agreeing digest, a path at the bound generation that is neither down nor unknown and has room for it, and the current epoch and incarnation |
| `Guarantees.AttemptGrant` | src/authority.cpp:441-502 | An attempt record names a grant of the table bound to that attempt, and is marked released or cancelled only when that grant is over |
| `Guarantees.ResolveExact` | src/authority.cpp:2246-2323 | `resolve` answers GRANTED or DEGRADED exactly of attempts whose grant is committed or acknowledged |
| `Guarantees.RetryExact` | src/authority.cpp:1128-1222 | Submitting an attempt again changes nothing and is answered GRANTED or DEGRADED exactly when the request is well formed, made for this cluster against exactly its generation, epoch, policy and incarnation, the one first seen, and its grant is committed or acknowledged |
| `Guarantees.CompactionTransparent` | src/authority.cpp:2644-2655 | Replaying the compacted log gives the live state exactly, and any later changes replay on it alike, success for success, as on the log it replaced |
| `Terms.MintedTerms` | src/authority.cpp:2082-2160 | A minting submission answers with the grant it put in the table: bound to the attempt, members and generations the request named, issued here and now, for exactly the least of the want and of what path and resource truly have left, DEGRADED whenever that is a cut, leased for exactly the ticks asked; and the attempt's record names it and no request |
| `Terms.CapacityAnswers` | src/authority.cpp:1555-1697 | A submission only capacity can stop is answered CAPACITY_INSUFFICIENT exactly when the want is below the contract's minimum and CAPACITY_EXHAUSTED exactly when what is truly left is not enough, and neither leaves a trace |
| `Terms.BornExpired` | src/authority.cpp:2124-2136 | A minted grant is expired at birth exactly when it is leased for no ticks after the clock has started or its lease ends beyond the 64-bit clock, and never expires exactly when the lease ends on the clock's end or is for nothing at its start |
| `Terms.RenewedExpired` | src/authority.cpp:1890-1896 | A renewed grant is expired at once exactly when its lease ends beyond the 64-bit clock, and never expires exactly when no lease was asked or it ends on the clock's end |
| `Terms.MintThenAsk` | src/authority.cpp:1128-1222 | After a minting submission, resolving the attempt says it is granted, and submitting it again changes nothing and says so too exactly when the request carried a digest to know it by |
| `Terms.RenewalTerms` | src/authority.cpp:1859-1932 | An authorised renewal rewrites exactly its grant, keeps what it binds and its state, authorises exactly the units on offer where it asked and leases it for exactly the ticks asked, for ever if none |
| `Requests.OnlyForNow` | src/authority.cpp:1934-1995 | Whatever a submission changes and whatever grant it is told of, the request was well formed and made for this cluster, generation, epoch, policy and incarnation |
| `Answers.SubmitFenced` | src/authority.cpp:1934-1995 | A malformed request, another cluster and each coordinate that differs is answered with its own outcome and reason, the first in the order checked, and leaves no trace |
| `Answers.RepeatAnswered` | src/authority.cpp:1128-1222 | A submission under a known attempt changes nothing; it is told what became of the attempt, state by state of its grant, only if it is the request the attempt was made with, and of a conflict otherwise |
| `Answers.ContractAnswered` | src/authority.cpp:2006-2052 | A contract that is missing, at another generation, disabled or in need of a capability that is inter-cluster, hardware or unknown is answered for that; any other lets the request through to evaluation |
| `Answers.ReleaseExact` | src/authority.cpp:2162-2244 | A release finds its grant by name or else by attempt, asks for its lease unless the caller is an administrator, returns the capacity once, marks the attempt, writes both records and moves nothing else |
| `Answers.ResolveExactly` | src/authority.cpp:2246-2323 | What is told of an attempt: that it was cancelled, or released, else what state its grant is in, case by case |
| `Answers.AcknowledgeExact` | src/authority.cpp:2326-2423 | An acknowledgement needs the grant's own lease; a committed grant is confirmed, a quarantined one re-issued first if what it stands on is there and revoked if not, with the records in that order, one that is over stays over |
| `Answers.CancelExact` | src/authority.cpp:2425-2508 | A cancellation marks the attempt it names or else its grant's, once, and revokes the grant it found in the caller's words if that still holds capacity |
| `Verdicts.EligibleRaises` | src/authority.cpp:1254-1553 | Everything evaluation looks at before capacity is one list of objections and one of softenings: members, lifecycles, the first exclusion that covers a member or the path, the path and its state, the spread of domains |
| `Verdicts.LeastSelected` | src/authority.cpp:1227-1252 | The path selected is the one with the least id of those that join the members, agree with the endpoints named and are usable |
| `Obligations.MeetingIs` | src/authority.cpp:1704-1737 | The counts that are compared are the sizes of the sets of domains whose held units, truly summed, are positive and at least the obligation's minimum, before and after |
| `Obligations.AllObligationsRaise` | src/authority.cpp:1699-1752 | The obligations refuse a request exactly when one of its service stays short of domains and gets none from it, and else soften it once for each that stays short |
| `Decisions.EvaluationExact` | src/authority.cpp:1254-1783 | Evaluation answers with the first of the objections that applies, whichever it is, and when none does authorises the least of want, path room and resource room and says exactly the softenings that apply, in order |
| `Decisions.ObligationsDecide` | src/authority.cpp:1699-1752 | A request nothing else stands against is refused exactly when an obligation of its service has too few domains after it and no more than before, and is DEGRADED_BY_REDUNDANCY_LOSS exactly when one stays short or its path is declared degraded |
| `Decisions.AlwaysPlaced` | src/authority.cpp:1227-1252 | The path and the resource a request is evaluated on are always determined |
| `Decisions.SubmissionExact` | src/authority.cpp:1934-2158 | Every submission that reaches evaluation: the first objection and no trace; a refusal that lists what would have softened it without consent; or the grant, minted or renewed, field by field from the request, the declarations and the clock, its attempt's record, the records written in order, and nothing else moved |
| `Decisions.SubmissionUnplaced` | src/authority.cpp:1272-1286 | A submission that names a member nobody declared is answered MEMBER_NOT_FOUND and leaves no trace |
| `Ledger.StepKept` | src/authority.cpp:721-760 | No step but a crash rebinds a grant, changes its units outside its own renewal, gives capacity to one that holds none, or touches one that is over |
| `Ledger.MintAdds` | src/authority.cpp:1790-1857 | A minting step adds exactly one row, under the next name, committed, and moves nothing else |
| `Ledger.TerminalForever` | src/authority.cpp:721-760 | Over any run, crashes included, a released, expired, fenced or revoked grant stays so with the same binding, units, lease and reasons, as long as every crash keeps a prefix that says it was over |
| `Ledger.WholeLogRemembers` | src/authority.cpp:296-352 | A run whose crashes keep the whole log keeps enough: nothing that is over is forgotten by it |
| `Ledger.TerminalUntouched` | src/authority.cpp:721-760 | Until the next restart a grant that is over is not touched in any field, positions included |
| `Durability.OverOnwards` | src/journal.cpp:901-936 | What one prefix of a log says is over, every longer prefix says is over in the same words |
| `Ledger.BooksBalance` | src/authority.cpp:721-801 | Over any run, crashes included, what is held of any path or resource is what was held, plus what was minted, plus what renewals changed, minus what ended grants returned, minus what crashes lost with the records they lost, which is nothing when they keep the whole log |
| `Ledger.FenceOnce` | src/authority.cpp:762-772 | Fencing again writes no record and changes nothing |
| `Ledger.ExpireOnce` | src/authority.cpp:774-801 | Expiring again at the same tick writes no record and changes nothing |
| `Sweeps.FenceExact` | src/authority.cpp:762-772 | Fencing ends every committed, acknowledged or quarantined grant as FENCED with the reason noted once, and touches nothing else |
| `Sweeps.ExpireExact` | src/authority.cpp:774-801 | Expiry ends exactly the usable grants with a lease that is over, writes that into exactly their attempts' records, and always succeeds |
| `Sweeps.TerminateEnds` | src/authority.cpp:721-760 | Ending a grant writes one record that holds all but its position, and then changes state, reservation, position and reasons alone |
| `Ledger.ReleaseOnce` | src/authority.cpp:2162-2244 | Releasing again changes nothing and is answered as a repetition |
| `Limits.MutationReplays` | src/authority.cpp:515-526 | After a specification change the log can be replayed exactly when the change was accepted; a refused change leaves the state as it was |
| `Limits.ContractReplays` | src/authority.cpp:624-642 | After a contract change the log can be replayed exactly when the change was accepted |
| `Limits.DisablingPoisons` | src/contract.cpp:19-56 | Every contract that disables its service is refused, and makes the log unreplayable |
| `Limits.PoisonedForGood` | src/journal.cpp:901-936 | Once one record fails to replay, no later records make the log replayable again |
| `Limits.CommitReplays` | src/authority.cpp:1790-1832 | Once a request is authorised, the log can be replayed afterwards exactly when the grant table had room |
| `Limits.MutationHolds` | src/authority.cpp:803-961 | What is held of any path, resource or exclusive slot after a mutation is exactly what the grants that survive revalidation, and the quarantined ones, held before |
| `Limits.MutationFitsIff` | src/authority.cpp:838-848 | A path of the changed specification is over-committed, or exclusive with two holders, exactly when those grants together exceed what it now has |
| `Limits.MutationSuppliesIff` | src/authority.cpp:803-961 | A resource of a changed member is over-drawn exactly when those grants together draw more than it now has |
| `Limits.CancelLeavesHolding` | src/authority.cpp:2430-2440 | A cancelled attempt's own grant goes on holding capacity exactly when it held capacity and was not the grant the cancel named |
| `Limits.RenewalFitsIff` | src/authority.cpp:1859-1905 | After a renewal the grant's own path is within its capacity, and its own resource within its total, exactly when what the others hold there leaves room for the units on offer where the request asked |
| `Witness.ShrinkOvercommits` | src/authority.cpp:838-848 | Two grants minted from a first start fill a path of 12; its redeclaration with 10 is accepted and leaves 12 held |
| `Witness.ExclusiveTooLate` | src/authority.cpp:838-848 | The same path is declared exclusive with both on it: accepted, and it has two holders |
| `Witness.RenewalOvercommits` | src/authority.cpp:1859-1905 | One of them renewed for 50 units of another path stays on its own, which then holds 56 of 12 |
| `Witness.CancelsTheOther` | src/authority.cpp:2430-2440 | Cancelling the first attempt with the second grant leaves the first attempt cancelled and its grant holding |
| `Detached.BornValid` | src/server.cpp:131-175 | Whatever a daemon has been through since its first start, starts and work in any order, its controller is in a state the engine's runs reach and its file is the beginning of a log they write |
| `Detached.FileStands` | src/server.cpp:163-172 | Once it has recovered, no start and no work makes its file tell of anything more |
| `Detached.Forgotten` | src/server.cpp:163-172 | Two starts on the same records, with any work between them: the second begins the same epoch, has exactly the grants the file names, holds no more than the file says and goes on from the same names |
| `Detached.NamesAgain` | src/authority.cpp:1054-1064 | Every name taken after the one start is taken again after the next, in the same order, as far as both go |
| `Detached.GivenOutTwice` | src/server.cpp:163-172 | The request granted first after the one start is granted again after the next, to whoever makes it, under the same name and lease, in the same epoch, for the same units of the same path and resource, whatever was done in between |
| `Detached.StartsAlike` | src/authority.cpp:296-439 | Two recoveries from the same records, in the same configuration at the same tick, differ in nothing a request is judged by but their incarnation |
| `Detached.EvaluateAlike` | src/authority.cpp:1254-1697 | Evaluation does not look at who asks, at the incarnation, or at anything of a grant but its name, binding, units and state |
| `Restarts.AcknowledgementRemembered` | src/authority.cpp:354-439 | An acknowledged grant that stands is re-issued by a restart on the whole log; a second one re-issues it exactly when its last record before the first carried the mark, and quarantines it otherwise, when that record is the acknowledgement's own; its units are held either way |
| `Restarts.RestartLive` | src/authority.cpp:354-439 | Any usable grant that stands is re-issued by a restart on the whole log, with the mark of its last record, exactly when an acknowledgement of it is known, and quarantined otherwise |
| `Restarts.LastRecordIs` | src/journal.cpp:901-936 | Replay has each grant exactly as the last record that tells of it |
| `Restarts.AcknowledgementUnmarked` | src/authority.cpp:2398-2414 | Directly after an acknowledgement the grant's last record carries the mark exactly when the grant had it before |
| `Restarts.LaterRecordsMark` | src/authority.cpp:929-938 | The record of a later revalidation or renewal, and a snapshot, carry the mark the grant has: so any of them after the acknowledgement keeps it |
| `Records.TerminationReads` | src/grant.cpp:35-41 | The record that ends a grant is read back exactly when the reason it adds, if it adds one, has at most 256 bytes of valid text |
| `Records.CancelReads` | src/authority.cpp:2463-2464 | The record of a cancellation is read back exactly when its reason has at most 256 bytes, or is not added because the grant has one of its kind or 24 in all |
| `Records.MintReads` | src/authority.cpp:1440-1442 | Both records of a new grant are read back exactly when no exclusion that degrades it has, with the member it covers, a name of more than 226 bytes, or with the path of more than 221 |
| `Records.UnreadableEnds` | src/journal.cpp:590-602 | A file that goes on with a record that cannot be read is read back as if it ended before it, whatever was written after |
| `Records.LongReasonForgotten` | src/authority.cpp:2463-2464 | A grant cancelled for a longer reason holds its units again on the log the file is read back as |
| `Records.CompactedUnreadable` | src/authority.cpp:2644-2655 | A compaction while such a grant is in the table leaves a file that reads as empty |
| `Oversized.OneByteTooMany` | src/grant.cpp:35-41 | One and the same grant of a concrete run, cancelled for a reason of 256 bytes and for one of 257: the one record is read back, the other is not |
| `Recovery.RecoverGood` | src/authority.cpp:296-352 | Recovery from any log whose prefixes are sound gives a good state, in which every grant has met exactly the fate the recovery policy prescribes |
| `Recovery.MaxSuffixCovers` | src/authority.cpp:322-327 | The serials recovery resumes from are at least the number in every identifier in use |
| `Reopening.RestartExact` | src/authority.cpp:296-505 | A restart from any non-empty prefix succeeds unless its epoch or generation is at its end, and leaves exactly this: the next epoch over the prefix's declarations, the later clock, the serials at the largest numbers in use, every grant by its last record and the policy, field by field, and a record for every grant's attempt, amended or made up |
| `Reopening.ClockGoesOn` | src/server.cpp:163-175 | Every start goes on at a clock later than any record it starts from, until the clock is at its end |
| `Invariant.RevalidateAll` | src/authority.cpp:953-961 | The revalidation loop leaves every usable grant re-issued if all it stands on is still there, and else revoked, and every other row alone |
| `Invariant.FenceAllGood` | src/authority.cpp:762-772 | Fencing ends every grant that holds capacity, and only those |
| `Invariant.ExpireAllGood` | src/authority.cpp:774-801 | Expiry ends exactly the live grants whose lease has elapsed, and the attempt table always has room to record it |
| `Submission.AdmitGood` | src/authority.cpp:2082-2160 | A new request keeps the invariant whether it is refused or minted, and what it takes fits wherever it is taken from |
| `Submission.MintFits` | src/authority.cpp:1555-1697 | What evaluation authorises for a new grant keeps every path within capacity, every resource within its total and every exclusive path with one holder |
| `Submission.RenewGood` | src/authority.cpp:1859-1932 | A renewal on the grant's own path and resource keeps the invariant |
| `Operations.ReleaseGood` | src/authority.cpp:2162-2244 | Release keeps the invariant |
| `Operations.AcknowledgeGood` | src/authority.cpp:2326-2423 | Acknowledgement, also of a quarantined grant, keeps the invariant |
| `Operations.CancelGood` | src/authority.cpp:2425-2508 | A cancel whose grant, if it names one, belongs to the attempt it names keeps the invariant |
| `Durability.Logged` | src/authority.cpp:507-513 | Writing one record and applying its effect to the live state keeps log and state in step, prefix by prefix |
| `Replay.ReplayJournal` | src/journal.cpp:818-989 | The replay loop computes the record-by-record meaning of the log, and stops with the first record's error that has one |
| `Replay.EffectOnAbs` | src/journal.cpp:843-980 | Two states that differ only in sequence stamps, acknowledgement marks and which capacity-holding state a grant is in accept the same records and stay so |
| `Replay.TailOnAbs` | src/journal.cpp:818-989 | Any further changes on top of two such states succeed alike and leave them agreeing |
| `Rereading.RecordExact` | src/journal.cpp:818-989 | A record is read on only under the number that is due; it is refused exactly for what it says that cannot be so, with the code for that, and else leaves exactly what it says, table by table, whatever log it is in |
| `Eligibility.AuthorisesTheMinimum` | src/authority.cpp:1555-1697 | Of a request that meets everything before capacity, evaluation authorises exactly the least of want, path room and resource room; it answers CAPACITY_INSUFFICIENT exactly when the want is below the minimum, CAPACITY_EXHAUSTED exactly when that least amount is not enough, and otherwise passes it unless an obligation or the renewed grant forbids |
| `Eligibility.AuthorisedWithinBounds` | src/authority.cpp:1590-1697 | What is authorised is between the contract's minimum and the request, under the ceiling and within the free units, and any cut is reported as a degradation |
| `Eligibility.PassIsCurrent` | src/authority.cpp:1254-1554 | A request that passes names present members at exactly the generation and digest declared, and is bound to a declared path that is neither down nor unknown |
| `Eligibility.SelectedIsSelectable` | src/authority.cpp:1227-1252 | Path selection finds a path exactly when some path fits the request, and what it finds is one of those |
| `Evaluation.SelectBest` | src/authority.cpp:1227-1252 | The selection loop over an accumulator finds the path the recursive definition of the best path names |
| `Evaluation.FindOtherHolder` | src/authority.cpp:1609-1625 | The scan of an exclusive path's holders finds one exactly when some other attempt holds it |
| `Evaluation.EvaluateCapacity` | src/authority.cpp:1555-1697 | The capacity stage computed with saturating loops is the capacity stage as specified |
| `Evaluation.CountPerDomain` | src/authority.cpp:1704-1719 | The map filled in one pass over the grants holds, for each domain key, the specified sum |
| `Evaluation.EvaluateObligations` | src/authority.cpp:1699-1750 | The obligation loop refuses exactly when an obligation of the service stays short of domains and gets none, and softens once for each that stays short |
| `Evaluation.EvaluateRequest` | src/authority.cpp:1254-1785 | The whole evaluation, loops and accumulators, answers with the first objection that applies, or passes with the least of want and room and exactly the softenings that apply |
| `Accounting.SumHeld` | src/authority.cpp:966-994 | The early-exit loop over the grants returns the true sum, capped at the 64-bit maximum |
| `Accounting.NeverSaturates` | src/authority.cpp:966-994 | Within the table's bounds the cap is never reached |
| `Accounting.TotalPut` | src/authority.cpp:206-221 | A table update moves every sum by exactly the difference of the two rows |
| `Decimal.ToDecimal` | src/text.cpp:106-117 | The buffer filled backwards holds the digits of the number, without leading zeros |
| `Decimal.SerialSuffix` | src/authority.cpp:38-59 | The two scans compute the number at an identifier's end, or the 64-bit maximum when it does not fit |
| `Decimal.SuffixOfPrinted` | src/authority.cpp:1054-1064 | The number printed at the end of any identifier is read back as it was |
| `Utf8.Utf8Exact` | src/text.cpp:15-72 | A text passes exactly when it is the encoding of scalar values other than NUL, as section 3 of RFC 3629 has it |
| `Cluster.RetiredForGood` | src/model.cpp:361-390 | No specification change revives a removed member, loses a member, or moves a generation backwards |
| `Cluster.DomainKeyExact` | src/model.cpp:131-141 | Domain keys agree at a level exactly when the localities up to it are one list once every label is cut at its separators |
| `Cluster.DomainKeyPlain` | src/model.cpp:131-141 | For labels without separators: exactly when the localities agree up to the level |
| `Cluster.DomainKeyCollides` | src/model.cpp:602-620 | Two different localities a decoder accepts that have one domain key |
| `Tables.GetPut` | src/authority.cpp:206-240 | In a sorted table an update changes exactly the value under its id |
| `Tables.GetDrop` | src/model.cpp:427-435 | In a sorted table a removal removes exactly the value under its id |
| `Authority.AuthorityCore.Initialize` | src/authority.cpp:242-294 | The object starts as the engine's initial state, with its first records written |
| `Authority.AuthorityCore.TerminateGrant` | src/authority.cpp:721-760 | The record comes first and carries the state about to be entered; the row follows and nothing else changes |
| `Authority.AuthorityCore.FenceAll` | src/authority.cpp:762-772 | The loop in place computes the engine's fence of the whole table |
| `Authority.AuthorityCore.ExpireLeases` | src/authority.cpp:774-801 | The loop in place computes the engine's expiry, and stops where an attempt finds no room |
| `Authority.AuthorityCore.RevalidateGrant` | src/authority.cpp:803-951 | The grant is revoked for the first thing it stands on that is gone, or re-issued, by lookups; record before row |
| `Authority.AuthorityCore.RevalidateLiveGrants` | src/authority.cpp:953-961 | The loop in place gives every usable grant that fate and leaves the others alone |
| `Authority.AuthorityCore.MutateSpec` | src/authority.cpp:515-623 | Journal, apply, revalidate: the specification is changed exactly when the change is acceptable, in the one value it names, and refused with the code for it otherwise; a valid cache stays right exactly when the call succeeds or the digest did not move, and a refused call that changed anything met a saturated generation |
| `Authority.AuthorityCore.CommitGrant` | src/authority.cpp:1790-1857 | Prepare record, commit record, grant table, attempt table, attempt record, in that order, with both refusals |
| `Authority.AuthorityCore.RenewGrant` | src/authority.cpp:1859-1932 | The row is rewritten in place and the digest cache dropped exactly when it is |
| `Authority.AuthorityCore.SubmitRequest` | src/authority.cpp:1934-2160 | The method computes the engine's submission, and whoever is told of a grant was well formed and made for the present coordinate; the cached state digest stays right unless identifiers were spent on a refusal, and then it is the digest of the state before |
| `Authority.AuthorityCore.ReleaseGrant` | src/authority.cpp:2162-2244 | The method computes the engine's release and keeps the digest cache right |
| `Authority.AuthorityCore.AcknowledgeGrant` | src/authority.cpp:2326-2423 | The method computes the engine's acknowledgement and keeps the digest cache right |
| `Authority.AuthorityCore.CancelAttempt` | src/authority.cpp:2425-2508 | The method computes the engine's cancellation and keeps the digest cache right |
| `Authority.AuthorityCore.StateDigest` | src/authority.cpp:2523-2552 | The digest returned is that of the present state whenever the cache was right |
| `Authority.AuthorityCore.CompactLog` | src/authority.cpp:2644-2655 | The log becomes one snapshot and one counters record; the state stays |
| `Authority.AuthorityCore.RecoverState` | src/authority.cpp:296-505 | Load, open an epoch, apply the policy row by row, repair the attempts: the methods compute the engine's recovery |
| `Caches.ClusterSpec.Mutate` | src/model.cpp:302-545 | Every mutator changes exactly the value it names, or refuses with the code for what is wrong, and moves the revision past every cached digest, also when the generation is saturated and the call reports failure |
| `Caches.ClusterSpec.BeginNextEpoch` | src/model.cpp:272-292 | A new epoch moves epoch, generation and revision together or not at all |
| `Caches.ClusterSpec.SetTick` | include/cif/model.hpp:224-227 | The inline setter changes the clock, moves the revision and keeps the caches right |
| `Caches.ClusterSpec.SetClusterId` | src/model.cpp:250-260 | The caches stay right exactly when neither digest was taken at this revision, or taking the new name happens not to change it |
| `Caches.ClusterSpec.TakeDigest` | src/model.cpp:940-950 | The digest returned is that of the present specification |
| `Caches.ClusterSpec.TakeTopologyDigest` | src/model.cpp:952-978 | The topology digest returned is that of the present declarations, without generation, epoch, policy and incarnation |
| `Caches.ContractSet.Change` | src/contract.cpp:136-163 | An accepted change puts or removes exactly the contract it names and moves the revision, a refused one leaves set and revision alone with the code for it, and the cache stays right |
| `Caches.ContractSet.TakeDigest` | src/contract.cpp:214-225 | The digest returned is that of the present set |
| `Crc.BuildTable` | src/hash.cpp:41-53 | Each table entry is eight steps of the reflected polynomial division of its index |
| `Crc.LookupIsByteStep` | src/hash.cpp:254-261 | One table lookup is exactly eight bitwise division steps, for every register and byte |
| `Crc.Checksum` | src/hash.cpp:254-261 | The table-driven loop computes the bitwise CRC-32C of section 12.1 of RFC 3720 |
| `Crc.TailInjective` | src/hash.cpp:254-261 | Strings with one tail and one register have one register before it |
| `Crc.OneByteDetected` | src/hash.cpp:254-261 | Changing any single byte of any string changes its checksum |
| `KnownAnswers.CrcCheckValue` | tests/test_core.cpp:149 | The checksum of "123456789" is the check value of CRC-32C |
| `Seal.OneByteBreaks` | src/journal.cpp:484-608 | A checksummed string with any one byte changed, in the data or in the checksum, is never taken for intact |
| `Sha.Stream.Update` | src/hash.cpp:173-195 | After any input the registers are the hash state of all whole blocks fed and the buffer holds exactly the rest; a final hash ignores input |
| `Sha.Stream.Finalise` | src/hash.cpp:206-232 | The output is the digest of everything fed, padded as section 5.1.1 of FIPS 180-4 says; a second call leaves it untouched |
| `Sha.Stream.CompressBlock` | src/hash.cpp:125-171 | The schedule array and eight variables compute the compression of section 6.2.2 of FIPS 180-4 |
| `Sha.HashChunks` | src/hash.cpp:173-246 | Feeding a message in any chunks gives the one-shot digest of the message |
| `Sha.PadInjective` | src/hash.cpp:206-232 | Different messages, within the length field's range, are padded differently |
| `Sha.HashParts` | src/hash.cpp:280-309 | A digest fed part by part is the digest of the length-framed concatenation |
| `Sha.FramingInjective` | src/hash.cpp:280-309 | Two lists of parts have one framed concatenation only when they are one list |
| `KnownAnswers.AbcDigest` | tests/test_core.cpp:122-123 | The digest of "abc" is the one the tests expect |
| `Journal.CutScan` | src/journal.cpp:413-618 | A log cut at any byte scans to exactly the whole records in it, up to the first whose payload does not decode |
| `Journal.ReopenScans` | src/journal.cpp:638-683 | Truncated to what the scan vouches for and continued with its chain and sequence number, a log scans completely |
| `Journal.DamageScan` | src/journal.cpp:484-608 | With any one byte changed, the scan returns exactly the records before the damaged one, or before the first whose payload does not decode |
| `Journal.SpliceScan` | src/journal.cpp:484-608 | Any list of whole records of one log scans to its longest prefix in original order: removal, repetition and reordering are detected |
| `Journal.ScannedIsWritten` | src/journal.cpp:484-608 | Whatever a scan accepts is, byte for byte, what writing the scanned records gives |
| `Journal.ScanRefuses` | src/journal.cpp:590-602 | The scan ends exactly before the first record whose payload does not decode, whatever bytes follow it |
| `Journal.ReadFile` | src/journal.cpp:413-618 | The scan's loop over offset, chain and sequence computes the specified report |
| `Journal.RecordsScan` | src/journal.cpp:413-618 | What a journal has written, whatever the payloads, is read back up to the first that does not decode, with the chain, the number and the offset to go on from |
| `Journal.FileCut` | src/journal.cpp:413-618 | Cut anywhere after its header, a file is read back up to its last whole record, or to the first that does not decode |
| `Journal.FileDamage` | src/journal.cpp:413-618 | One byte changed anywhere after the file's header: the records before it, or before the first that does not decode, and nothing else |
| `Journal.HeaderDamage` | src/journal.cpp:442-479 | One byte of a sound file header changed is noticed exactly when it is among the first 28 |
| `Journal.FreshHeaderGood` | src/journal.cpp:620-683 | A file with a fresh header is accepted whatever follows it |
| `Journal.JournalFile.Open` | src/journal.cpp:638-683 | Opening with a scan's report leaves exactly the scanned records, ready to be continued |
| `Journal.JournalFile.WriteRecord` | src/journal.cpp:685-740 | The record's bytes follow the file's, under its number and chain, whatever its payload; a refusal leaves the file alone |
| `Journal.JournalFile.Append` | src/journal.cpp:748-755 | Nothing is appended once a bound is reached, and no sequence of appends makes a file larger than a scan reads |
| `Journal.JournalFile.CompactTo` | src/journal.cpp:757-788 | The file becomes one snapshot record, or stays as it was with the journal closed |
| `EntryCodec.EntryRoundTrip` | src/journal.cpp:150-365 | Every kind of journal entry is decoded to what was encoded, whatever counters and notes go with it |
| `EntryCodec.EntryReads` | src/journal.cpp:150-365 | Whatever is written, of any kind, is read back as it was or not at all, and read exactly when each of its fields is within its bounds |
| `EntryCodec.SnapshotBack` | src/journal.cpp:155-162 | A snapshot is read back whole: specification, clock, contracts, grants and attempts |
| `EntryCodec.GrantRecordReads` | src/grant.cpp:18-45 | A grant's record is read back exactly when none of its first 24 details is too long or invalid |
| `EntryCodec.SnapshotReads` | src/journal.cpp:155-162 | A snapshot is read back exactly when none of its grants' details is |
| `Disk.CutReads` | src/journal.cpp:413-618 | A controller's file cut at any byte is read back as its log up to the last entry that is whole, or to the first that cannot be read |
| `Disk.DamageReads` | src/journal.cpp:413-618 | A controller's file with one byte changed is read back as its log up to the damaged entry, or to the first that cannot be read |
| `Disk.PowerCut` | src/server.cpp:131-175 | Power lost at any byte, whether or not every record can be read: scanning, decoding, replaying and recovering give a sound controller in which every grant has met the fate a crash may deal it |
| `Disk.ByteLost` | src/server.cpp:131-175 | The same when any one byte after the header is damaged |
| `Disk.CompactedFile` | src/authority.cpp:2632-2655 | After compaction, reading the file back byte by byte gives exactly the live state, clock included, or nothing when the snapshot cannot be read |
| `Bytes.VarintBack` | src/bytes.cpp:33-39 | Every 64-bit number written as a varint is read back, whatever follows it |
| `Bytes.VarintThere` | src/bytes.cpp:127-154 | Whatever is read as a varint is the one form in which that number is written |
| `Bytes.ByteWriter.WriteVarint` | src/bytes.cpp:33-39 | The writer's loop appends the specified groups |
| `Bytes.ByteReader.ReadVarint` | src/bytes.cpp:127-154 | The reader's loop over value and shift computes the recursive meaning, with each refusal, and latches the first failure |
| `Bytes.ByteReader.ReadText` | src/bytes.cpp:208-223 | A text is read within its bound or the reader fails and stays failed |
| `Bytes.ByteReader.Fail` | src/bytes.cpp:65-69 | The first failure is the one that is kept |
| `Schema.TakeBack` | src/bytes.cpp:82-236 | For every list of fields, what fits is read back as it was, whatever follows it |
| `Schema.TakeThere` | src/bytes.cpp:82-236 | For every list of fields, what is read fits and is written as exactly the bytes it was read from |
| `Schema.TakeRefuses` | src/bytes.cpp:82-236 | For every list of fields, whatever can be written but does not fit is refused by the reader, whatever follows it |
| `Schema.ReadValue` | src/bytes.cpp:65-236 | Driving the sticky reader through a field list computes the specified reading, and leaves the reader just after it or failed |
| `GrantCodec.GrantRoundTrip` | src/grant.cpp:121-236 | A grant is decoded as it was, up to the cut of its reason list |
| `GrantCodec.GrantExact` | src/grant.cpp:10-17 | Nothing of a grant is lost exactly when it has at most 24 reasons |
| `GrantCodec.GrantCanonical` | src/grant.cpp:167-239 | Whatever decodes as a grant re-encodes to exactly the bytes consumed |
| `GrantCodec.AttemptRoundTrip` | src/grant.cpp:241-285 | An attempt record is decoded as it was |
| `GrantCodec.AttemptCanonical` | src/grant.cpp:255-285 | Whatever decodes as an attempt record re-encodes to exactly the bytes consumed |
| `ModelCodec.SpecRoundTrip` | src/model.cpp:850-938 | A specification is decoded as it was: members, paths, exclusions and obligations |
| `ModelCodec.SpecCanonical` | src/model.cpp:875-938 | Whatever decodes as a specification re-encodes to exactly the bytes consumed |
| `ModelCodec.CodableSorted` | src/model.cpp:884-936 | A specification that can be decoded has its member and path tables strictly sorted |
| `ContractCodec.ContractRoundTrip` | src/contract.cpp:68-127 | A contract is decoded as it was |
| `ContractCodec.ContractCanonical` | src/contract.cpp:90-127 | Whatever decodes as a contract re-encodes to exactly the bytes consumed |
| `ContractCodec.SetRoundTrip` | src/contract.cpp:186-212 | A set the controller holds is decoded as it was |
| `ContractCodec.DecodeSetIs` | src/contract.cpp:193-212 | A written list of contracts in any order decodes to the upserts of all of them, or is refused with the first upsert that is |
| `ContractCodec.SetCanonicalIff` | src/contract.cpp:193-212 | Any bytes that decode as a set are a written list of contracts, and are the encoding of what they decode to exactly when that list came strictly sorted |
| `Wire.DecodeSent` | src/wire.cpp:557-686 | A sent frame is received as it was |
| `Wire.DecodedIsSent` | src/wire.cpp:636-686 | Whatever decodes is a sent frame, and re-encodes to the same bytes exactly when its reserved field was zero |
| `Wire.DamagedFrameRejected` | src/wire.cpp:594-686 | A frame with any one byte changed is rejected |
| `Wire.SizeOfPart` | src/wire.cpp:594-634 | Any proper prefix of a frame is reported as not all there yet |
| `Wire.SizeIsFinal` | src/wire.cpp:594-634 | Any other verdict on a buffer's size does not change as more arrives |
| `Wire.UnfinishedIsSmall` | src/wire.cpp:594-634 | An unfinished frame is always smaller than the receiver's buffer bound |
| `Channel.ParseSent` | src/runtime.cpp:134-186 | Frames sent and the stream closed: exactly those frames in order, then a clean close |
| `Channel.ParseCut` | src/runtime.cpp:175-181 | The stream closed inside a frame: the whole frames before it, then a truncation |
| `Channel.ParseDamaged` | src/runtime.cpp:138-151 | One byte of a frame changed: the frames before it, then an error, whatever comes later |
| `Channel.FrameChannel.Receive` | src/runtime.cpp:134-186 | However the bytes arrive, the answer is the one the whole stream determines, exactly the frame's bytes are consumed, and a timeout loses nothing; the buffer-bound branch is never taken |
| `Channel.FrameChannel.ReceiveAll` | src/server.cpp:386-399 | Repeated receiving depends on the bytes alone, not on how they were cut or delayed |
| `Channel.Deliver` | src/runtime.cpp:134-186 | A sender's frames arrive as they were sent, for every cutting and every delay |
| `Queue.BoundedQueue.Push` | include/cif/bounded_queue.hpp:34-43 | An item is queued behind all others exactly when the queue is open and below its capacity |
| `Queue.BoundedQueue.TryPop` | include/cif/bounded_queue.hpp:75-83 | Items are taken in the order they were pushed, each once, also after closing |
| `Queue.BoundedQueue.Reset` | include/cif/bounded_queue.hpp:87-91 | What waited is dropped and the queue accepts again |
| `Dispatch.ReducerRunsEngine` | src/server.cpp:590-785 | Whatever the reducer is given, its engine is in a state the engine's own operations reach one after another |
| `Dispatch.UngreetedChangesNothing` | src/server.cpp:594-628 | Where a greeting is required, a connection that has not greeted changes nothing, and is greeted exactly by the right banner |
| `Replies.ItemAnswered` | src/server.cpp:594-805 | What is replied to each kind of message, and what it did: the engine's own decision on a submission, release, query of an attempt, acknowledgement or cancellation; the status of the command's own operation with the coordinate after it, or the shape or expectation it failed; what a query found; the banner or the greeting that was missing; that a frame held no message |
| `Replies.RepliedInTurn` | src/server.cpp:543-569 | Each item gets that reply at its own place in the order, for a state the engine's own operations have reached by then |
| `Dispatch.ReplySays` | src/server.cpp:787-805 | A reply carries the sequence number of the frame it answers when the frame held a message |
| `Reducer.ReducerThread.Batch` | src/server.cpp:543-569 | A batch serves up to its bound of items in queue order, none skipped or repeated, and ends early only at the stop item or when nothing waits |
| `Server.RunGood` | src/server.cpp:386-571 | Every interleaving of workers, callers, acceptor, reducer, housekeeping and shutdown keeps the invariant behind the results below, which are stated of every state some interleaving reaches |
| `Server.DaemonIsSequential` | src/server.cpp:522-571 | In every interleaving the engine has gone through exactly the items taken so far, in the order they were pushed, and what waits is the rest, within the queue's capacity; connections stay within their limit |
| `Server.DaemonStaysReachable` | src/server.cpp:522-588 | So the engine behind the daemon is always in a state its own runs reach, whatever the threads do, and everything stated of reachable states holds of it |
| `Server.OneOutstanding` | src/server.cpp:405-432 | No connection ever has two items that are queued, in process or unread |
| `Server.NoOverwrite` | src/server.cpp:459-466 | A reply is only ever put in an empty mailbox, of the worker whose frame it answers |
| `Server.AnsweredInOrder` | src/server.cpp:386-457 | The i-th reply of a connection answers its i-th frame, with the reply of the sequential authority to that frame or a refusal; only the last reply before a connection ends can be replaced by an error, and only a refusal can be lost on one that goes on |
| `Replies.RepliesInOrder` | src/server.cpp:386-457 | In every interleaving the i-th reply a client gets is what the engine made of its i-th frame in a state its own operations reach, except that a full queue says so and a last reply may not be encodable |
| `Replies.CallersReplied` | src/server.cpp:468-484 | What an in-process caller gets is what the engine made of its own message in such a state |
| `Replies.SubmissionsDecided` | src/server.cpp:630-634 | In particular a submission is replied to with the engine's decision on that very request, under its own number, and the engine goes on from that decision |
| `Server.CallersAnswered` | src/server.cpp:468-484 | An in-process caller is answered exactly when its place in the queue has been delivered, with the sequential authority's reply to its own message, and never if it queued behind the stop item |
| `Server.LateCaller` | src/server.cpp:468-484 | A caller that comes between the stop item and the closing of the queue goes on waiting in every run from there |
| `Server.RefusalLost` | src/server.cpp:405-426 | A run in which a refusal does not arrive and its connection goes on reading |

## Left out

- Sockets, files, fsync and process spawning: a file is a byte sequence, a socket an oracle of chunks and delays.
- Partial writes and failed fsyncs with the process still running, and a compaction that fails after the old log was closed: appends succeed or the process stops.
- A sink that refuses a record while the engine goes on: the answers INDETERMINATE and the grant left in memory after a refused attempt record are not modelled.
- Recovery without an attached log, beyond `Detached`: elsewhere recovery is modelled with its records written. The positions a detached controller stamps into its grants start from zero in the code and go on from the file's here.
- Explanations, audit entries, diagnostic counters and the texts of refusals: the engine's model carries the details of reasons that reach a grant's record and no others.
- The order of error codes inside the decoding of a provenance.
- The message codecs of requests, administration and queries, and the text of query answers: they repeat the field-list proofs, and the daemon's items hold decoded messages.
- Digests and rendered text in the daemon's replies.
- Self-check and the log's being due for compaction are given to the daemon model as inputs.
- Server: batch boundaries, waiting times and statistics; the step system allows housekeeping whenever the reducer is idle, which includes every schedule of the code.
- Liveness: nothing is claimed about termination of `stop` when the stop item meets a full queue.
- Caches: revision counters are assumed below the 64-bit maximum.
- Channel: elapsed time is unbounded, so the timeout's multiplication does not wrap.
- Guarantees.LiveValid: asks of a run the default path and capacity options and renewals in place; without them only epoch and incarnation are claimed of live grants.
- Guarantees.PathNotOvercommitted: asks of a run that no mutation takes away held capacity and that renewals stay on their own path and resource; `Limits` gives the exact conditions without that.
- Guarantees.ResourceNotOvercommitted: asks besides that no two members own one resource id, since the code sums by id.
- Guarantees.ReplayAgrees: is about entries; in the file a grant's record keeps its first 24 reasons; unmet obligations and quarantine can give a grant more (`GrantCodec.GrantExact`).
- Disk.PowerCut: asks, as do the results beside it, that no record holds a grant with more than 24 reasons, since such a record is read back with the first 24, and that numbers are below 2^64, texts are bytes and records within the size `append` takes (`Disk.Writable`).
- Limits.CommitReplays: no concrete run to a full grant table is given.
- Random number generation, command line, rendering and the installer: no part of the model.
