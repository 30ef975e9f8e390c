/** What the reducer does with one message (`dispatch`, `apply_admin`, `process`, `housekeeping`, src/server.cpp). */
module Dispatch {
  import opened Tables
  import opened Model
  import opened Cluster
  import opened Eligibility
  import opened Engine
  import Runs

  /** Compaction happens only when the log is due for it, and a self-check's findings come from
      validators outside this model: both are given. */
  datatype AdminCommand =
    | NoCommand
    | SpecCommand(op: SpecOp)
    | ContractCommand(change: ContractOp)
    | PolicyCommand(policy: nat)
    | TickCommand(tick: nat)
    | FenceCommand(reason: Reason)
    | ExpireCommand
    | RevalidateCommand
    | CompactCommand(due: bool)
    | SelfCheckCommand(finding: StatusCode)

  datatype Query =
    | Overview | Verify(finding: StatusCode) | AboutMember(id: Id) | AboutPath(id: Id) | AboutGrant(id: Id) | AboutAttempt(id: Id) | NoQuery

  /** A decoded message; `shape` is what the command's own shape check says. */
  datatype Message =
    | Hello(banner: string)
    | Ping
    | Bye
    | Submitting(request: Request)
    | Releasing(release: ReleaseRequest)
    | Resolving(resolve: ResolveRequest)
    | Acknowledging(ack: AcknowledgeRequest)
    | Cancelling(cancel: CancelRequest)
    | Admin(command: AdminCommand, shape: StatusCode, expected: Option<nat>)
    | Asking(query: Query, shape: StatusCode)
    | NotForClients

  datatype ErrorCode = Protocol | BannerMismatch | MalformedFrame | Overloaded | Internal

  datatype Content =
    | Welcome(cluster: Id, at: Coordinate)
    | Pong
    | Farewell
    | Decided(decision: Decision)
    | AdminDone(code: StatusCode, generation: nat, epoch: nat, incarnation: seq<byte>)
    | Answered(code: StatusCode, at: Coordinate)
    | Problem(error: ErrorCode)

  datatype Reply = Reply(sequence: nat, content: Content)

  datatype Setup = Setup(banner: string, requireHello: bool, start: Core)

  /** Everything only the reducer touches, with the replies it has produced so far. */
  datatype Authority = Authority(core: Core, greeted: set<nat>, replies: seq<Reply>)

  function ApplyAdmin(c: Core, command: AdminCommand): (Core, StatusCode)
  {
    match command
    case NoCommand => (c, InvalidArgument)
    case SpecCommand(op) => Mutate(c, op)
    case ContractCommand(change) => MutateContract(c, change)
    case PolicyCommand(policy) => SetPolicy(c, policy)
    case TickCommand(tick) =>
      if tick < c.store.tick then (c, StateMismatch)
      else var d := AdvanceTick(c, tick).0; (ExpireFrom(d, 0), ExpireStatus(d, 0))
    case FenceCommand(reason) => (FenceFrom(c, 0, reason), Ok)
    case ExpireCommand => (ExpireFrom(c, 0), ExpireStatus(c, 0))
    case RevalidateCommand => (RevalidateFrom(c, 0), Ok)
    case CompactCommand(due) => (if due then Compact(c) else c, Ok)
    case SelfCheckCommand(finding) => (c, finding)
  }

  function Look(c: Core, q: Query): StatusCode
  {
    match q
    case Overview => Ok
    case Verify(finding) => finding
    case AboutMember(id) => if Has(c.store.spec.members, id) then Ok else NotFound
    case AboutPath(id) => if Has(c.store.spec.paths, id) then Ok else NotFound
    case AboutGrant(id) => if Has(c.store.grants, id) then Ok else NotFound
    case AboutAttempt(id) => if Has(c.store.attempts, id) then Ok else NotFound
    case NoQuery => InvalidArgument
  }

  function Done(code: StatusCode, c: Core): Content
  {
    AdminDone(code, c.store.spec.generation, c.store.spec.epoch, c.store.spec.incarnation)
  }

  /** `dispatch`; `from` is the connection, if there is one. */
  function Dispatched(setup: Setup, a: Authority, from: Option<nat>, m: Message): (Core, set<nat>, Content)
  {
    var c := a.core;
    var same := (content: Content) => (c, a.greeted, content);
    match m
    case Hello(banner) =>
      if from.None? then same(Problem(Protocol))
      else if banner != setup.banner then same(Problem(BannerMismatch))
      else (c, a.greeted + {from.value}, Welcome(c.store.spec.id, Here(c.store.spec)))
    case Ping => same(Pong)
    case Bye => same(Farewell)
    case _ =>
      if from.Some? && setup.requireHello && from.value !in a.greeted then same(Problem(Protocol))
      else
        match m
        case Submitting(r) => var (d, decision) := Submit(c, r); (d, a.greeted, Decided(decision))
        case Releasing(r) => var (d, decision) := Release(c, r); (d, a.greeted, Decided(decision))
        case Resolving(r) => same(Decided(Resolve(c, r)))
        case Acknowledging(r) => var (d, decision) := Acknowledge(c, r); (d, a.greeted, Decided(decision))
        case Cancelling(r) => var (d, decision) := Cancel(c, r); (d, a.greeted, Decided(decision))
        case Admin(command, shape, expected) =>
          if shape != Ok then same(Done(shape, c))
          else if expected.Some? && expected.value != c.store.spec.generation then same(Done(StateMismatch, c))
          else var (d, code) := ApplyAdmin(c, command); (d, a.greeted, Done(code, d))
        case Asking(query, shape) =>
          same(Answered(if shape != Ok then shape else Look(c, query), if shape != Ok then NO_COORDINATE else Here(c.store.spec)))
        case _ => same(Problem(Protocol))
  }

  const NO_COORDINATE := Coordinate(0, 0, 0, [])

  // ----- the reducer's work, one item at a time -----

  /** A frame as it was received: its sequence number, and its message when it has one. */
  datatype Frame = Frame(sequence: nat, message: Option<Message>)

  datatype Item =
    | FromWire(connection: nat, index: nat, frame: Frame)
    | Local(caller: nat, message: Message)
    | Stop

  datatype Act = Served(item: Item) | Tidied(due: bool)

  function Start(setup: Setup): Authority { Authority(setup.start, {}, []) }

  /** `process`, and the reducer's own handling of in-process requests. */
  function Serve(setup: Setup, a: Authority, item: Item): Authority
  {
    match item
    case FromWire(c, _, Frame(_, None)) => a.(replies := a.replies + [Reply(0, Problem(MalformedFrame))])
    case FromWire(c, _, Frame(sequence, Some(m))) =>
      var (core, greeted, content) := Dispatched(setup, a, Some(c), m);
      Authority(core, greeted, a.replies + [Reply(sequence, content)])
    case Local(_, m) =>
      var (core, greeted, content) := Dispatched(setup, a, None, m);
      Authority(core, greeted, a.replies + [Reply(0, content)])
    case Stop => a
  }

  /** `housekeeping`: unless the clock is at its end, one tick, the leases it ends, and compaction if due. */
  function Tidy(c: Core, due: bool): Core
  {
    if c.store.tick >= U64_MAX then c
    else
      var d := ExpireFrom(AdvanceTick(c, c.store.tick + 1).0, 0);
      if due then Compact(d) else d
  }

  function Act1(setup: Setup, a: Authority, act: Act): Authority
  {
    match act
    case Served(item) => Serve(setup, a, item)
    case Tidied(due) => a.(core := Tidy(a.core, due))
  }

  /** The sequential authority: one act after another. */
  function Fold(setup: Setup, acts: seq<Act>): Authority
  {
    if acts == [] then Start(setup) else Act1(setup, Fold(setup, acts[..|acts| - 1]), acts[|acts| - 1])
  }

  function Items(acts: seq<Act>): seq<Item>
  {
    if acts == [] then []
    else Items(acts[..|acts| - 1]) + if acts[|acts| - 1].Served? then [acts[|acts| - 1].item] else []
  }

  // ----- the reducer runs the engine -----

  /** The engine operations a message amounts to. */
  function AdminSteps(c: Core, command: AdminCommand): seq<Runs.Step>
  {
    match command
    case SpecCommand(op) => [Runs.Changing(op)]
    case ContractCommand(change) => [Runs.Contracting(change)]
    case PolicyCommand(policy) => [Runs.Policing(policy)]
    case TickCommand(tick) => if tick < c.store.tick then [] else [Runs.Ticking(tick), Runs.Expiring]
    case FenceCommand(reason) => [Runs.Fencing(reason)]
    case ExpireCommand => [Runs.Expiring]
    case RevalidateCommand => [Runs.Revalidating]
    case CompactCommand(due) => if due then [Runs.Compacting] else []
    case _ => []
  }

  predicate Heard(setup: Setup, a: Authority, from: Option<nat>)
  {
    from.None? || !setup.requireHello || from.value in a.greeted
  }

  function MessageSteps(setup: Setup, a: Authority, from: Option<nat>, m: Message): seq<Runs.Step>
  {
    if !Heard(setup, a, from) then []
    else
      match m
      case Submitting(r) => [Runs.Submission(r)]
      case Releasing(r) => [Runs.Releasing(r)]
      case Acknowledging(r) => [Runs.Acknowledging(r)]
      case Cancelling(r) => [Runs.Cancelling(r)]
      case Admin(command, shape, expected) =>
        if shape == Ok && (expected.None? || expected.value == a.core.store.spec.generation)
        then AdminSteps(a.core, command) else []
      case _ => []
  }

  function ActSteps(setup: Setup, a: Authority, act: Act): seq<Runs.Step>
  {
    match act
    case Served(FromWire(c, _, Frame(_, Some(m)))) => MessageSteps(setup, a, Some(c), m)
    case Served(Local(_, m)) => MessageSteps(setup, a, None, m)
    case Tidied(due) =>
      if a.core.store.tick >= U64_MAX then []
      else [Runs.Ticking(a.core.store.tick + 1), Runs.Expiring] + if due then [Runs.Compacting] else []
    case _ => []
  }

  function Steps(setup: Setup, acts: seq<Act>): seq<Runs.Step>
  {
    if acts == [] then []
    else
      var before := acts[..|acts| - 1];
      Steps(setup, before) + ActSteps(setup, Fold(setup, before), acts[|acts| - 1])
  }

  lemma AdminRuns(c: Core, command: AdminCommand)
    ensures ApplyAdmin(c, command).0 == Runs.After(c, AdminSteps(c, command))
  {
    hide Mutate, MutateContract, SetPolicy, ExpireFrom, ExpireStatus, FenceFrom, RevalidateFrom, Compact, Submit, Release,
         Acknowledge, Cancel, Runs.Restart;
    var steps := AdminSteps(c, command);
    if |steps| == 1 {
      OneStep(c, steps[0]);
    } else if command.TickCommand? && |steps| == 2 {
      TwoSteps(c, steps[0], steps[1]);
    }
  }

  lemma OneStep(c: Core, step: Runs.Step)
    ensures Runs.After(c, [step]) == Runs.Next(c, step)
  {
    hide Runs.Next;
    assert [step][1..] == [];
  }

  lemma TwoSteps(c: Core, a: Runs.Step, b: Runs.Step)
    ensures Runs.After(c, [a, b]) == Runs.Next(Runs.Next(c, a), b)
  {
    hide Runs.Next;
    assert [a, b][1..] == [b];
    OneStep(Runs.Next(c, a), b);
  }

  lemma MessageRuns(setup: Setup, a: Authority, from: Option<nat>, m: Message)
    ensures Dispatched(setup, a, from, m).0 == Runs.After(a.core, MessageSteps(setup, a, from, m))
  {
    hide Submit, Release, Resolve, Acknowledge, Cancel, ApplyAdmin, AdminSteps, Look, Mutate, MutateContract, SetPolicy,
         AdvanceTick, ExpireFrom, FenceFrom, RevalidateFrom, Compact, Runs.Restart;
    var steps := MessageSteps(setup, a, from, m);
    match m
    case Submitting(r) => OneStep(a.core, Runs.Submission(r));
    case Releasing(r) => OneStep(a.core, Runs.Releasing(r));
    case Acknowledging(r) => OneStep(a.core, Runs.Acknowledging(r));
    case Cancelling(r) => OneStep(a.core, Runs.Cancelling(r));
    case Admin(command, _, _) => AdminRuns(a.core, command);
    case _ =>
  }

  lemma ActRuns(setup: Setup, a: Authority, act: Act)
    ensures Act1(setup, a, act).core == Runs.After(a.core, ActSteps(setup, a, act))
  {
    hide Dispatched, MessageSteps, ExpireFrom, Compact, Submit, Release, Acknowledge, Cancel, Mutate, MutateContract, SetPolicy,
         FenceFrom, RevalidateFrom, Runs.Restart;
    match act
    case Served(FromWire(c, _, Frame(_, Some(m)))) => MessageRuns(setup, a, Some(c), m);
    case Served(Local(_, m)) => MessageRuns(setup, a, None, m);
    case Tidied(due) =>
      if a.core.store.tick < U64_MAX {
        var ticking := Runs.Ticking(a.core.store.tick + 1);
        TwoSteps(a.core, ticking, Runs.Expiring);
        Runs.AfterBoth(a.core, [ticking, Runs.Expiring], if due then [Runs.Compacting] else []);
        OneStep(ExpireFrom(AdvanceTick(a.core, a.core.store.tick + 1).0, 0), Runs.Compacting);
      }
    case _ =>
  }

  /** Whatever the reducer has been given, its engine is in a state the engine's own operations reach, one
      after another: everything proved of runs holds of the daemon. */
  lemma {:induction false} ReducerRunsEngine(setup: Setup, acts: seq<Act>)
    ensures Fold(setup, acts).core == Runs.After(setup.start, Steps(setup, acts))
  {
    hide Act1, ActSteps, Runs.Next;
    if acts != [] {
      var before := acts[..|acts| - 1];
      ReducerRunsEngine(setup, before);
      ActRuns(setup, Fold(setup, before), acts[|acts| - 1]);
      Runs.AfterBoth(setup.start, Steps(setup, before), ActSteps(setup, Fold(setup, before), acts[|acts| - 1]));
    }
  }

  /** The handshake guards the engine: a connection that has not greeted changes nothing. */
  lemma UngreetedChangesNothing(setup: Setup, a: Authority, c: nat, index: nat, f: Frame)
    requires setup.requireHello && c !in a.greeted
    ensures Serve(setup, a, FromWire(c, index, f)).core == a.core
    ensures c in Serve(setup, a, FromWire(c, index, f)).greeted <==> f.message == Some(Hello(setup.banner))
  {}

  // ----- replies -----

  /** Each item gets the reply the sequential authority gives it, at its own place in the order. */
  lemma {:induction false} ReplyAt(setup: Setup, acts: seq<Act>, p: nat)
    requires forall i :: 0 <= i < |acts| ==> acts[i] != Served(Stop)
    ensures |Fold(setup, acts).replies| == |Items(acts)|
    ensures p < |Items(acts)| ==>
              exists n :: 0 <= n < |acts| && Items(acts[..n]) == Items(acts)[..p] && acts[n] == Served(Items(acts)[p])
                          && Fold(setup, acts).replies[p] == LastReply(setup, Fold(setup, acts[..n]), Items(acts)[p])
  {
    hide Dispatched, Tidy;
    if acts != [] {
      var last := |acts| - 1;
      var before := acts[..last];
      ReplyAt(setup, before, p);
      if p < |Items(before)| {
        var n :| 0 <= n < |before| && Items(before[..n]) == Items(before)[..p] && before[n] == Served(Items(before)[p])
                 && Fold(setup, before).replies[p] == LastReply(setup, Fold(setup, before[..n]), Items(before)[p]);
        assert acts[..n] == before[..n] && acts[n] == before[n];
        assert Items(acts)[..p] == Items(before)[..p] && Items(acts)[p] == Items(before)[p];
      } else if p < |Items(acts)| {
        assert acts[..last] == before && Items(acts)[..p] == Items(before);
      }
    }
  }

  function LastReply(setup: Setup, a: Authority, item: Item): Reply
    requires item != Stop
  {
    var r := Serve(setup, a, item).replies;
    r[|r| - 1]
  }

  /** A reply carries the sequence number of the frame it answers, unless the frame held no message. The
      reducer never reports the error that is reserved for replies that cannot be sent. */
  lemma ReplySays(setup: Setup, a: Authority, item: Item)
    requires item != Stop
    ensures LastReply(setup, a, item).content != Problem(Internal)
    ensures item.FromWire? ==>
              LastReply(setup, a, item).sequence == (if item.frame.message.Some? then item.frame.sequence else 0)
  {
    hide Submit, Release, Resolve, Acknowledge, Cancel, ApplyAdmin, Look;
  }
}
