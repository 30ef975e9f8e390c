/** What the daemon replies to each kind of message, said by the engine's own operations and by lookups, and that this is
    what its clients and callers get (src/server.cpp). */
module Replies {
  import opened Tables
  import opened Model
  import opened Cluster
  import opened Engine
  import opened Dispatch
  import Invariant
  import Fates
  import Sweeps
  import Runs
  import S = Server

  // ----- one message -----

  /** May whoever this is from use the engine: callers in the process, and connections that have greeted where that is asked. */
  predicate MayAct(setup: Setup, a: Authority, from: Option<nat>)
  {
    match from
    case None => true
    case Some(c) => setup.requireHello ==> c in a.greeted
  }

  predicate Silent(c: Core, d: Core, content: Content, e: ErrorCode) { d == c && content == Problem(e) }

  /** The reply to a message, and what it did: only greetings, pings and goodbyes are answered before a greeting. */
  predicate Replied(setup: Setup, a: Authority, from: Option<nat>, m: Message, d: Core, greeted: set<nat>, content: Content)
  {
    match m
    case Ping => d == a.core && greeted == a.greeted && content == Pong
    case Bye => d == a.core && greeted == a.greeted && content == Farewell
    case Hello(banner) => Greeted(setup, a, from, banner, d, greeted, content)
    case _ =>
      greeted == a.greeted
      && if MayAct(setup, a, from) then Acted(a.core, m, d, content) else Silent(a.core, d, content, Protocol)
  }

  /** A connection is greeted by the right banner and told the cluster and the coordinate; a caller in the process has no
      connection to greet. */
  predicate Greeted(setup: Setup, a: Authority, from: Option<nat>, banner: string, d: Core, greeted: set<nat>, content: Content)
  {
    match from
    case None => greeted == a.greeted && Silent(a.core, d, content, Protocol)
    case Some(c) =>
      if banner != setup.banner then greeted == a.greeted && Silent(a.core, d, content, BannerMismatch)
      else
        d == a.core && greeted == a.greeted + {c}
        && content.Welcome? && content.cluster == d.store.spec.id && Fates.IssuedHere(d.store.spec, content.at)
  }

  /** The engine's own decision, administration's own status, or what a query found. */
  predicate Acted(c: Core, m: Message, d: Core, content: Content)
  {
    hide Submit, Release, Resolve, Acknowledge, Cancel, Commanded;
    match m
    case Submitting(r) => d == Submit(c, r).0 && content == Decided(Submit(c, r).1)
    case Releasing(r) => d == Release(c, r).0 && content == Decided(Release(c, r).1)
    case Resolving(r) => d == c && content == Decided(Resolve(c, r))
    case Acknowledging(r) => d == Acknowledge(c, r).0 && content == Decided(Acknowledge(c, r).1)
    case Cancelling(r) => d == Cancel(c, r).0 && content == Decided(Cancel(c, r).1)
    case Admin(command, shape, expected) =>
      && content.AdminDone? && content.generation == d.store.spec.generation
      && content.epoch == d.store.spec.epoch && content.incarnation == d.store.spec.incarnation
      && (if shape != Ok then d == c && content.code == shape
          else if expected.Some? && expected.value != c.store.spec.generation then d == c && content.code == StateMismatch
          else Commanded(c, command, d, content.code))
    case Asking(query, shape) =>
      && d == c && content.Answered?
      && (if shape != Ok then content.code == shape && content.at == Coordinate(0, 0, 0, [])
          else Found(c, query, content.code) && Fates.IssuedHere(c.store.spec, content.at))
    case _ => Silent(c, d, content, Protocol)
  }

  /** Every command runs its own operation and reports its status. */
  predicate Commanded(c: Core, command: AdminCommand, d: Core, code: StatusCode)
  {
    hide Mutate, MutateContract, SetPolicy, ExpireFrom, ExpireStatus, FenceFrom, RevalidateFrom, Compact;
    match command
    case SpecCommand(op) => (d, code) == Mutate(c, op)
    case ContractCommand(op) => (d, code) == MutateContract(c, op)
    case PolicyCommand(policy) => (d, code) == SetPolicy(c, policy)
    case TickCommand(tick) =>
      if tick < c.store.tick then d == c && code == StateMismatch
      else d == ExpireFrom(AdvanceTick(c, tick).0, 0) && code == ExpireStatus(AdvanceTick(c, tick).0, 0)
    case FenceCommand(reason) => d == FenceFrom(c, 0, reason) && code == Ok
    case ExpireCommand => d == ExpireFrom(c, 0) && code == ExpireStatus(c, 0)
    case RevalidateCommand => d == RevalidateFrom(c, 0) && code == Ok
    case CompactCommand(due) => d == (if due then Compact(c) else c) && code == Ok
    case SelfCheckCommand(finding) => d == c && code == finding
    case NoCommand => d == c && code == InvalidArgument
  }

  /** A query about one thing finds it or not. */
  predicate Found(c: Core, q: Query, code: StatusCode)
  {
    match q
    case AboutMember(id) => code == if Get(c.store.spec.members, id).None? then NotFound else Ok
    case AboutPath(id) => code == if Get(c.store.spec.paths, id).None? then NotFound else Ok
    case AboutGrant(id) => code == if Get(c.store.grants, id).None? then NotFound else Ok
    case AboutAttempt(id) => code == if Get(c.store.attempts, id).None? then NotFound else Ok
    case Overview => code == Ok
    case Verify(finding) => code == finding
    case NoQuery => code == InvalidArgument
  }

  lemma LookIs(c: Core, q: Query)
    ensures Found(c, q, Look(c, q))
  {
    hide LowerBound;
  }

  lemma AdminIs(c: Core, command: AdminCommand)
    ensures var (d, code) := ApplyAdmin(c, command); Commanded(c, command, d, code)
  {
    hide Mutate, MutateContract, SetPolicy, AdvanceTick, ExpireFrom, ExpireStatus, FenceFrom, RevalidateFrom, Compact;
    Sweeps.ClockExact(c, if command.TickCommand? then command.tick else 0);
  }

  lemma MessageReplied(setup: Setup, a: Authority, from: Option<nat>, m: Message)
    ensures var (d, greeted, content) := Dispatched(setup, a, from, m); Replied(setup, a, from, m, d, greeted, content)
  {
    hide Submit, Release, Resolve, Acknowledge, Cancel, ApplyAdmin, Look, Found, Commanded;
    if m.Admin? { AdminIs(a.core, m.command); }
    if m.Asking? { LookIs(a.core, m.query); }
  }

  // ----- one item -----

  /** One item taken from the queue adds one reply: to a frame that holds a message the one above under the frame's own
      number, to a caller the same, and to any other frame that it is malformed. */
  predicate ItemReplied(setup: Setup, a: Authority, item: Item, b: Authority, reply: Reply)
  {
    hide Replied;
    b.replies == a.replies + [reply]
    && match item
       case FromWire(c, _, f) =>
         if f.message.None? then
           b.core == a.core && b.greeted == a.greeted && reply == Reply(0, Problem(MalformedFrame))
         else reply.sequence == f.sequence && Replied(setup, a, Some(c), f.message.value, b.core, b.greeted, reply.content)
       case Local(_, m) => reply.sequence == 0 && Replied(setup, a, None, m, b.core, b.greeted, reply.content)
       case Stop => false
  }

  /** The reducer's work on one item. */
  lemma ItemAnswered(setup: Setup, a: Authority, item: Item)
    requires hide Replied, Serve; item != Stop
    ensures ItemReplied(setup, a, item, Serve(setup, a, item), LastReply(setup, a, item))
  {
    hide Dispatched, Replied;
    match item
    case FromWire(c, _, f) => if f.message.Some? { MessageReplied(setup, a, Some(c), f.message.value); }
    case Local(_, m) => MessageReplied(setup, a, None, m);
  }

  /** Each item gets one reply, at its own place in the order, and it is the one above for the state the engine's own
      operations have reached by then. */
  lemma RepliedInTurn(setup: Setup, acts: seq<Act>, p: nat)
    requires hide Fold, Steps, Serve, Runs.After, ItemReplied; forall i :: 0 <= i < |acts| ==> acts[i] != Served(Stop)
    ensures |Fold(setup, acts).replies| == |Items(acts)|
    ensures p < |Items(acts)| ==>
              exists n :: 0 <= n < |acts| && Items(acts[..n]) == Items(acts)[..p] && acts[n] == Served(Items(acts)[p])
                          && InState(setup, acts, n, Items(acts)[p], Fold(setup, acts).replies[p])
  {
    hide Fold, Items, Steps, LastReply, Serve, Runs.After, ItemReplied;
    ReplyAt(setup, acts, p);
    if p < |Items(acts)| {
      var n :| 0 <= n < |acts| && Items(acts[..n]) == Items(acts)[..p] && acts[n] == Served(Items(acts)[p])
               && Fold(setup, acts).replies[p] == LastReply(setup, Fold(setup, acts[..n]), Items(acts)[p]);
      ItemAnswered(setup, Fold(setup, acts[..n]), Items(acts)[p]);
      ReducerRunsEngine(setup, acts[..n]);
      assert InState(setup, acts, n, Items(acts)[p], Fold(setup, acts).replies[p]);
    }
  }

  /** The reply to an item after the first `n` acts, which are so many operations of the engine one after another. */
  ghost predicate InState(setup: Setup, acts: seq<Act>, n: int, item: Item, reply: Reply)
    requires 0 <= n <= |acts|
  {
    hide Fold, Serve, Steps, Runs.After, Replied;
    var a := Fold(setup, acts[..n]);
    a.core == Runs.After(setup.start, Steps(setup, acts[..n])) && ItemReplied(setup, a, item, Serve(setup, a, item), reply)
  }

  // ----- what clients get -----

  /** This is the reply to this item from the engine in a state its own operations reach: after the first `n` acts of the
      daemon. */
  ghost predicate RepliedAt(l: S.Limits, d: S.Daemon, n: int, item: Item, reply: Reply)
  {
    hide InState;
    0 <= n < |d.acts| && d.acts[n] == Served(item) && InState(l.setup, d.acts, n, item, reply)
  }

  lemma ReplyIsAt(l: S.Limits, d: S.Daemon, reply: Reply, item: Item)
    requires hide S.Answers; S.Answers(l, d, reply, item)
    ensures exists n :: RepliedAt(l, d, n, item, reply)
  {
    hide Fold, LastReply, ItemReplied, Serve, Steps, Runs.After;
    var n :| 0 <= n < |d.acts| && d.acts[n] == Served(item) && reply == LastReply(l.setup, Fold(l.setup, d.acts[..n]), item);
    ItemAnswered(l.setup, Fold(l.setup, d.acts[..n]), item);
    ReducerRunsEngine(l.setup, d.acts[..n]);
    assert RepliedAt(l, d, n, item, reply);
  }

  /** In every interleaving the i-th reply a client gets is what the engine made of its i-th frame, in a state the engine's
      own operations reach: its decision on the request, its status of the command, its answer to the query. The exceptions
      are a full queue, which says so, and a last reply that could not be encoded. */
  lemma RepliesInOrder(l: S.Limits, d: S.Daemon, c: nat, i: nat)
    requires hide S.Reached, RepliedAt; S.Reached(l, d) && c < |d.connections| && i < |d.connections[c].sent|
    ensures var k := d.connections[c];
            && i < |k.fates| <= |k.received|
            && (k.sent[i].reply == S.UNSENDABLE ==> i == |k.sent| - 1 && k.worker.Finished?)
            && (k.sent[i].reply != S.UNSENDABLE ==>
                  if k.fates[i].TurnedAway? then k.sent[i].reply == Reply(0, Problem(Overloaded))
                  else exists n :: RepliedAt(l, d, n, FromWire(c, i, k.received[i]), k.sent[i].reply))
  {
    hide S.Reached, S.Answers, RepliedAt;
    S.AnsweredInOrder(l, d, c, i);
    var k := d.connections[c];
    if k.sent[i].reply != S.UNSENDABLE && k.fates[i].Queued? {
      ReplyIsAt(l, d, k.sent[i].reply, FromWire(c, i, k.received[i]));
    }
  }

  /** And what a caller in the process gets is what the engine made of its own message. */
  lemma CallersReplied(l: S.Limits, d: S.Daemon, b: nat)
    requires hide S.Reached, RepliedAt; S.Reached(l, d) && b < |d.callers| && d.callers[b].mailbox.Some?
    ensures exists n :: RepliedAt(l, d, n, Local(b, d.callers[b].message), d.callers[b].mailbox.value)
  {
    hide S.Reached, S.Answers, RepliedAt;
    S.CallersAnswered(l, d, b);
    ReplyIsAt(l, d, d.callers[b].mailbox.value, Local(b, d.callers[b].message));
  }

  /** In particular of a submission: the decision of the engine, in such a state, on the request that was sent. */
  lemma SubmissionsDecided(l: S.Limits, d: S.Daemon, n: int, c: nat, i: nat, f: Frame, reply: Reply)
    requires hide Fold, Steps, Submit, Runs.After, InState; RepliedAt(l, d, n, FromWire(c, i, f), reply)
    requires f.message.Some? && f.message.value.Submitting?
    ensures var core := Runs.After(l.setup.start, Steps(l.setup, d.acts[..n]));
            var heard := !l.setup.requireHello || c in Fold(l.setup, d.acts[..n]).greeted;
            && reply.sequence == f.sequence
            && reply.content == (if heard then Decided(Submit(core, f.message.value.request).1) else Problem(Protocol))
            && Fold(l.setup, d.acts[..n + 1]).core == if heard then Submit(core, f.message.value.request).0 else core
  {
    hide Submit, Fold, Steps, Runs.After;
    FoldNext(l.setup, d.acts, n);
  }

  lemma FoldNext(setup: Setup, acts: seq<Act>, n: nat)
    requires hide Serve; n < |acts| && acts[n].Served?
    ensures Fold(setup, acts[..n + 1]) == Serve(setup, Fold(setup, acts[..n]), acts[n].item)
  {
    hide Serve;
    assert acts[..n + 1][..n] == acts[..n];
  }
}
