/** The daemon's threads as interleaved steps (src/server.cpp): connection workers, in-process callers, the
    acceptor, the reducer and shutdown. Each step is one critical section or one private action. Frames
    arrive, sends fail and threads are scheduled in any way at all. */
module Server {
  import opened Tables
  import opened Model
  import opened Dispatch
  import Runs
  import Invariant

  // ----- state -----

  /** What became of a frame: refused because the queue was full or closed, or queued as the n-th item. */
  datatype Fate = TurnedAway | Queued(place: nat)

  datatype Sent = Sent(reply: Reply, arrived: bool)

  /** Where a connection's worker stands in `serve`. */
  datatype Worker = Reading | Pushing | Refusing | Waiting | Holding(reply: Reply) | Finished

  /** A connection: its worker, its mailbox, and its history. */
  datatype Connection = Connection(
    worker: Worker, mailbox: Option<Reply>, stopRequested: bool,
    received: seq<Frame>, fates: seq<Fate>, sent: seq<Sent>)

  /** An in-process caller blocked on its own mailbox. */
  datatype Caller = Caller(message: Message, place: nat, mailbox: Option<Reply>)

  /** Where the reducer stands in `reducer_loop`. */
  datatype Reducer = Idle | Popped(item: Item) | Computed(item: Item, reply: Reply) | Stopped | Drained

  datatype Limits = Limits(setup: Setup, capacity: nat, connections: nat)

  /** `pushed`, `popped` and `acts` are history: every item ever queued, how many were taken, and what the
      reducer has done. */
  datatype Daemon = Daemon(
    queue: seq<Item>, closed: bool, pushed: seq<Item>, popped: nat,
    reducer: Reducer, authority: Authority, acts: seq<Act>,
    connections: seq<Connection>, listed: set<nat>, callers: seq<Caller>)

  const FRESH := Connection(Reading, None, false, [], [], [])
  const OVERLOADED := Reply(0, Problem(Overloaded))
  const UNSENDABLE := Reply(0, Problem(Internal))

  function Boot(l: Limits): Daemon
  {
    Daemon([], false, [], 0, Idle, Start(l.setup), [], [], {}, [])
  }

  function Set(d: Daemon, c: nat, k: Connection): Daemon
    requires c < |d.connections|
  {
    d.(connections := d.connections[c := k])
  }

  predicate Accepts(l: Limits, d: Daemon) { !d.closed && |d.queue| < l.capacity }

  function Push(d: Daemon, item: Item): Daemon { d.(queue := d.queue + [item], pushed := d.pushed + [item]) }

  // ----- steps -----

  datatype Step =
    | Accept                                    // accept_loop takes a connection, or turns it away
    | Reap                                      // reap_finished
    | Receive(c: nat, frame: Frame)             // serve: a frame arrives
    | Disconnect(c: nat)                        // serve: receiving fails, or shutdown is noticed
    | Submit(c: nat)                            // serve: push, or find the queue full
    | Refuse(c: nat, arrived: bool)             // serve: send the refusal
    | Collect(c: nat)                           // serve: the mailbox wait ends
    | Send(c: nat, packs: bool, arrived: bool)  // serve: send the reply
    | Call(message: Message)                    // round_trip_local
    | Pop                                       // reducer_loop: pop_wait, pop_wait_for or try_pop
    | Process                                   // reducer_loop: dispatch
    | Deliver                                   // reducer_loop: fill the mailbox
    | Housekeep(due: bool)                      // reducer_loop: nothing arrived in time
    | Exhaust                                   // reducer_loop: the queue is closed and empty
    | Release(c: nat)                           // join_connections: stop_requested
    | Shut                                      // stop: push the stop item
    | Close                                     // stop: close the queue

  predicate WorkerIs(d: Daemon, c: nat, w: Worker) { c < |d.connections| && d.connections[c].worker == w }

  predicate Enabled(d: Daemon, step: Step)
  {
    match step
    case Receive(c, _) => WorkerIs(d, c, Reading)
    case Disconnect(c) => WorkerIs(d, c, Reading)
    case Submit(c) => WorkerIs(d, c, Pushing) && d.connections[c].received != []
    case Refuse(c, _) => WorkerIs(d, c, Refusing)
    case Collect(c) => WorkerIs(d, c, Waiting) && (d.connections[c].mailbox.Some? || d.connections[c].stopRequested)
    case Send(c, _, _) => c < |d.connections| && d.connections[c].worker.Holding?
    case Pop => d.reducer.Idle? && d.queue != []
    case Process => d.reducer.Popped?
    case Deliver =>
      d.reducer.Computed? && (match d.reducer.item
                              case FromWire(c, _, _) => c < |d.connections|
                              case Local(b, _) => b < |d.callers|
                              case Stop => false)
    case Housekeep(_) => d.reducer.Idle?
    case Exhaust => d.reducer.Idle? && d.closed && d.queue == []
    case Release(c) => c < |d.connections|
    case _ => true
  }

  /** A step that is not enabled leaves everything as it is. */
  function Next(l: Limits, d: Daemon, step: Step): Daemon
  {
    hide Serve, Tidy;
    if !Enabled(d, step) then d else
    match step
    case Accept =>
      if |d.listed| >= l.connections then d
      else d.(connections := d.connections + [FRESH], listed := d.listed + {|d.connections|})
    case Reap => d.(listed := set c | c in d.listed && !WorkerIs(d, c, Finished))
    case Receive(c, f) =>
      var k := d.connections[c];
      Set(d, c, k.(worker := Pushing, received := k.received + [f]))
    case Disconnect(c) => Set(d, c, d.connections[c].(worker := Finished))
    case Submit(c) =>
      var k := d.connections[c];
      var i := |k.received| - 1;
      if Accepts(l, d)
      then Set(Push(d, FromWire(c, i, k.received[i])), c,
               k.(worker := Waiting, fates := k.fates + [Queued(|d.pushed|)]))
      else Set(d, c, k.(worker := Refusing, fates := k.fates + [TurnedAway]))
    case Refuse(c, arrived) =>
      var k := d.connections[c];
      Set(d, c, k.(worker := Reading, sent := k.sent + [Sent(OVERLOADED, arrived)]))
    case Collect(c) =>
      var k := d.connections[c];
      Set(d, c, if k.mailbox.Some? then k.(worker := Holding(k.mailbox.value), mailbox := None)
                else k.(worker := Finished))
    case Send(c, packs, arrived) =>
      var k := d.connections[c];
      var reply := k.worker.reply;
      if packs
      then Set(d, c, k.(worker := if arrived && reply.content != Farewell then Reading else Finished,
                        sent := k.sent + [Sent(reply, arrived)]))
      else Set(d, c, k.(worker := Finished, sent := k.sent + [Sent(UNSENDABLE, arrived)]))
    case Call(m) =>
      if Accepts(l, d)
      then Push(d, Local(|d.callers|, m)).(callers := d.callers + [Caller(m, |d.pushed|, None)])
      else d
    case Pop =>
      var item := d.queue[0];
      d.(queue := d.queue[1..], popped := d.popped + 1, reducer := if item == Stop then Stopped else Popped(item))
    case Process =>
      var item := d.reducer.item;
      var a := Serve(l.setup, d.authority, item);
      d.(authority := a, acts := d.acts + [Served(item)],
         reducer := Computed(item, if a.replies == [] then OVERLOADED else a.replies[|a.replies| - 1]))
    case Deliver =>
      var d1 := d.(reducer := Idle);
      (match d.reducer.item
       case FromWire(c, _, _) => Set(d1, c, d.connections[c].(mailbox := Some(d.reducer.reply)))
       case Local(b, _) => d1.(callers := d.callers[b := d.callers[b].(mailbox := Some(d.reducer.reply))]))
    case Housekeep(due) =>
      d.(authority := d.authority.(core := Tidy(d.authority.core, due)), acts := d.acts + [Tidied(due)])
    case Exhaust => d.(reducer := Drained)
    case Release(c) => Set(d, c, d.connections[c].(stopRequested := true))
    case Shut => if Accepts(l, d) then Push(d, Stop) else d
    case Close => d.(closed := true)
  }

  // ----- invariant -----

  /** How many items have had their reply put in a mailbox; item n is the next one due. */
  function Delivered(d: Daemon): int
  {
    if d.reducer.Idle? || d.reducer.Drained? then d.popped else d.popped - 1
  }

  predicate ReducerOk(d: Daemon)
    requires d.popped <= |d.pushed|
  {
    var n := d.popped;
    match d.reducer
    case Idle => |d.authority.replies| == n
    case Drained => |d.authority.replies| == n
    case Popped(item) => n > 0 && |d.authority.replies| == n - 1 && item == d.pushed[n - 1] != Stop
    case Computed(item, reply) =>
      n > 0 && |d.authority.replies| == n && item == d.pushed[n - 1] != Stop && reply == d.authority.replies[n - 1]
    case Stopped => n > 0 && |d.authority.replies| == n - 1 && d.pushed[n - 1] == Stop
  }

  /** First in, first out, and the reducer is the sequential authority on the items in that order. */
  predicate Ordered(l: Limits, d: Daemon)
  {
    hide Fold;
    && d.popped <= |d.pushed| && d.queue == d.pushed[d.popped..] && |d.queue| <= l.capacity
    && ReducerOk(d)
    && d.authority == Fold(l.setup, d.acts)
    && |d.authority.replies| <= |d.pushed| && Items(d.acts) == d.pushed[..|d.authority.replies|]
    && forall i :: 0 <= i < |d.acts| ==> d.acts[i] != Served(Stop)
  }

  /** Every queued item belongs to the connection or caller that pushed it, which knows its place. */
  predicate Traced(d: Daemon, p: nat)
    requires p < |d.pushed|
  {
    match d.pushed[p]
    case FromWire(c, i, _) => c < |d.connections| && i < |d.connections[c].fates| && d.connections[c].fates[i] == Queued(p)
    case Local(b, _) => b < |d.callers| && d.callers[b].place == p
    case Stop => true
  }

  /** The reply owed to a frame with this fate. */
  function Owed(d: Daemon, f: Fate): Reply
  {
    match f
    case TurnedAway => OVERLOADED
    case Queued(p) => if p < |d.authority.replies| then d.authority.replies[p] else OVERLOADED
  }

  predicate PlaceOk(d: Daemon, c: nat, k: Connection, i: nat)
    requires i < |k.fates| <= |k.received|
  {
    k.fates[i].Queued? ==> k.fates[i].place < |d.pushed| && d.pushed[k.fates[i].place] == FromWire(c, i, k.received[i])
  }

  predicate SentOk(d: Daemon, k: Connection, i: nat)
    requires i < |k.sent| <= |k.fates|
  {
    && (k.fates[i].Queued? ==> k.fates[i].place < Delivered(d))
    && (k.sent[i].reply == Owed(d, k.fates[i])
        || (k.sent[i].reply == UNSENDABLE && i == |k.sent| - 1 && k.worker.Finished?))
    && (!k.sent[i].arrived ==> k.fates[i].TurnedAway? || (i == |k.sent| - 1 && k.worker.Finished?))
  }

  /** The last frame is queued; its reply is in the mailbox exactly when it has been delivered. */
  predicate Awaiting(d: Daemon, k: Connection)
  {
    && |k.fates| == |k.sent| + 1 && k.fates[|k.sent|].Queued?
    && var p := k.fates[|k.sent|].place;
       k.mailbox == if p < Delivered(d) && p < |d.authority.replies| then Some(d.authority.replies[p]) else None
  }

  predicate WorkerOk(d: Daemon, k: Connection)
  {
    match k.worker
    case Reading => |k.received| == |k.fates| == |k.sent| && k.mailbox.None?
    case Pushing => |k.received| == |k.fates| + 1 && |k.fates| == |k.sent| && k.mailbox.None?
    case Refusing =>
      |k.received| == |k.fates| == |k.sent| + 1 && k.fates[|k.sent|] == TurnedAway && k.mailbox.None?
    case Waiting => |k.received| == |k.fates| && Awaiting(d, k)
    case Holding(reply) =>
      |k.received| == |k.fates| == |k.sent| + 1 && k.mailbox.None? && k.fates[|k.sent|].Queued?
      && k.fates[|k.sent|].place < Delivered(d) && reply == Owed(d, k.fates[|k.sent|])
    case Finished => (|k.fates| == |k.sent| && k.mailbox.None?) || Awaiting(d, k)
  }

  predicate ConnectionOk(d: Daemon, c: nat, k: Connection)
  {
    && |k.sent| <= |k.fates| <= |k.received|
    && (forall i :: 0 <= i < |k.fates| ==> PlaceOk(d, c, k, i))
    && (forall i :: 0 <= i < |k.sent| ==> SentOk(d, k, i))
    && WorkerOk(d, k)
  }

  predicate CallerOk(d: Daemon, b: nat, k: Caller)
  {
    && k.place < |d.pushed| && d.pushed[k.place] == Local(b, k.message)
    && k.mailbox == if k.place < Delivered(d) && k.place < |d.authority.replies| then Some(d.authority.replies[k.place]) else None
  }

  predicate Listing(l: Limits, d: Daemon)
  {
    |d.listed| <= l.connections && forall c :: c in d.listed ==> c < |d.connections|
  }

  ghost predicate Inv(l: Limits, d: Daemon)
  {
    hide Fold;
    && Ordered(l, d) && Listing(l, d)
    && (forall p :: 0 <= p < |d.pushed| ==> Traced(d, p))
    && (forall c :: 0 <= c < |d.connections| ==> ConnectionOk(d, c, d.connections[c]))
    && forall b :: 0 <= b < |d.callers| ==> CallerOk(d, b, d.callers[b])
  }

  // ----- what a step leaves alone -----

  /** The histories only grow, and nothing is delivered. */
  predicate Onward(d: Daemon, e: Daemon)
  {
    && d.pushed <= e.pushed && d.authority.replies <= e.authority.replies
    && Delivered(e) == Delivered(d) <= |d.authority.replies|
  }

  lemma ConnectionStays(d: Daemon, e: Daemon, c: nat, k: Connection)
    requires Onward(d, e) && ConnectionOk(d, c, k)
    ensures ConnectionOk(e, c, k)
  {
    forall i | 0 <= i < |k.fates| ensures PlaceOk(e, c, k, i) { assert PlaceOk(d, c, k, i); }
    forall i | 0 <= i < |k.sent| ensures SentOk(e, k, i) { assert SentOk(d, k, i) && PlaceOk(d, c, k, i); }
  }

  lemma CallerStays(d: Daemon, e: Daemon, b: nat, k: Caller)
    requires Onward(d, e) && CallerOk(d, b, k)
    ensures CallerOk(e, b, k)
  {}

  /** A step of one worker, within its own connection. */
  lemma SetKeeps(l: Limits, d: Daemon, c: nat, k: Connection)
    requires hide Fold;
             Inv(l, d) && c < |d.connections| && ConnectionOk(d, c, k) && d.connections[c].fates <= k.fates
    ensures Inv(l, Set(d, c, k))
  {
    hide ConnectionOk, CallerOk, Fold, Items, Ordered, Delivered;
    var e := Set(d, c, k);
    OrderOf(l, d);
    SameOrder(l, d, e);
    forall p | 0 <= p < |e.pushed| ensures Traced(e, p) { assert Traced(d, p); }
    forall j | 0 <= j < |e.connections| ensures ConnectionOk(e, j, e.connections[j]) {
      if j != c { assert ConnectionOk(d, j, d.connections[j]); }
      ConnectionStays(d, e, j, e.connections[j]);
    }
    forall b | 0 <= b < |e.callers| ensures CallerOk(e, b, e.callers[b]) { CallerStays(d, e, b, d.callers[b]); }
  }

  /** A step that leaves connections, callers and the queue's contents alone and delivers nothing. */
  lemma AsideKeeps(l: Limits, d: Daemon, e: Daemon)
    requires Inv(l, d) && Onward(d, e) && Ordered(l, e) && Listing(l, e)
    requires e.connections == d.connections && e.callers == d.callers && e.pushed == d.pushed
    ensures Inv(l, e)
  {
    hide ConnectionOk, CallerOk, Ordered;
    forall p | 0 <= p < |e.pushed| ensures Traced(e, p) { assert Traced(d, p); }
    forall j | 0 <= j < |e.connections| ensures ConnectionOk(e, j, e.connections[j]) {
      ConnectionStays(d, e, j, d.connections[j]);
    }
    forall b | 0 <= b < |e.callers| ensures CallerOk(e, b, e.callers[b]) { CallerStays(d, e, b, d.callers[b]); }
  }

  lemma PushOrdered(l: Limits, d: Daemon, item: Item)
    requires Ordered(l, d) && Accepts(l, d)
    ensures Ordered(l, Push(d, item)) && Onward(d, Push(d, item))
  {
    hide Fold, Items;
    var e := Push(d, item);
    assert e.queue == e.pushed[e.popped..];
    assert e.pushed[..|d.authority.replies|] == d.pushed[..|d.authority.replies|];
  }

  /** A new item, pushed by someone who keeps its place. */
  lemma PushKeeps(l: Limits, d: Daemon, item: Item, e: Daemon)
    requires hide Fold; Inv(l, d) && Accepts(l, d)
    requires e == Push(d, item).(connections := e.connections, callers := e.callers)
    requires |e.connections| == |d.connections| && d.callers <= e.callers
    requires forall c :: 0 <= c < |d.connections| ==>
               e.connections[c] == d.connections[c]
               || (ConnectionOk(e, c, e.connections[c]) && d.connections[c].fates <= e.connections[c].fates)
    requires forall b :: |d.callers| <= b < |e.callers| ==> CallerOk(e, b, e.callers[b])
    requires Traced(e, |d.pushed|)
    ensures Inv(l, e)
  {
    hide ConnectionOk, CallerOk, Fold, Items;
    PushOrdered(l, d, item);
    assert Ordered(l, e) && Onward(d, e);
    forall p | 0 <= p < |e.pushed| ensures Traced(e, p) {
      if p < |d.pushed| { assert Traced(d, p); }
    }
    forall j | 0 <= j < |e.connections| ensures ConnectionOk(e, j, e.connections[j]) {
      if e.connections[j] == d.connections[j] { ConnectionStays(d, e, j, d.connections[j]); }
    }
    forall b | 0 <= b < |e.callers| ensures CallerOk(e, b, e.callers[b]) {
      if b < |d.callers| { CallerStays(d, e, b, d.callers[b]); }
    }
  }

  // ----- each thread's steps keep the invariant -----

  lemma ReceiveOk(d: Daemon, c: nat, k: Connection, f: Frame)
    requires ConnectionOk(d, c, k) && k.worker.Reading?
    ensures ConnectionOk(d, c, k.(worker := Pushing, received := k.received + [f]))
    ensures ConnectionOk(d, c, k.(worker := Finished))
  {
    var u := k.(worker := Pushing, received := k.received + [f]);
    var v := k.(worker := Finished);
    forall i | 0 <= i < |u.fates| ensures PlaceOk(d, c, u, i) && PlaceOk(d, c, v, i) { assert PlaceOk(d, c, k, i); }
    forall i | 0 <= i < |u.sent| ensures SentOk(d, u, i) && SentOk(d, v, i) { assert SentOk(d, k, i); }
  }

  lemma RefusedOk(d: Daemon, c: nat, k: Connection)
    requires ConnectionOk(d, c, k) && k.worker.Pushing?
    ensures ConnectionOk(d, c, k.(worker := Refusing, fates := k.fates + [TurnedAway]))
  {
    var u := k.(worker := Refusing, fates := k.fates + [TurnedAway]);
    forall i | 0 <= i < |u.fates| ensures PlaceOk(d, c, u, i) { if i < |k.fates| { assert PlaceOk(d, c, k, i); } }
    forall i | 0 <= i < |u.sent| ensures SentOk(d, u, i) { assert SentOk(d, k, i); }
  }

  lemma SubmittedOk(d: Daemon, c: nat, k: Connection)
    requires ConnectionOk(d, c, k) && k.worker.Pushing? && Delivered(d) <= |d.pushed|
    ensures var i := |k.received| - 1;
            i >= 0 && ConnectionOk(Push(d, FromWire(c, i, k.received[i])), c,
                                   k.(worker := Waiting, fates := k.fates + [Queued(|d.pushed|)]))
  {
    var u := k.(worker := Waiting, fates := k.fates + [Queued(|d.pushed|)]);
    var e := Push(d, FromWire(c, |k.received| - 1, k.received[|k.received| - 1]));
    forall i | 0 <= i < |u.fates| ensures PlaceOk(e, c, u, i) { if i < |k.fates| { assert PlaceOk(d, c, k, i); } }
    forall i | 0 <= i < |u.sent| ensures SentOk(e, u, i) { assert SentOk(d, k, i); }
  }

  /** A reply goes out: the worker has answered one more of its frames, in order. */
  lemma SentIsOk(d: Daemon, c: nat, k: Connection, reply: Reply, arrived: bool, w: Worker)
    requires ConnectionOk(d, c, k) && (k.worker.Refusing? || k.worker.Holding?) && (w.Reading? || w.Finished?)
    requires reply == Owed(d, k.fates[|k.sent|]) || (reply == UNSENDABLE && w.Finished?)
    requires arrived || k.worker.Refusing? || w.Finished?
    ensures ConnectionOk(d, c, k.(worker := w, sent := k.sent + [Sent(reply, arrived)]))
  {
    var u := k.(worker := w, sent := k.sent + [Sent(reply, arrived)]);
    forall i | 0 <= i < |u.fates| ensures PlaceOk(d, c, u, i) { assert PlaceOk(d, c, k, i); }
    forall i | 0 <= i < |u.sent| ensures SentOk(d, u, i) { if i < |k.sent| { assert SentOk(d, k, i); } }
  }

  lemma CollectOk(d: Daemon, c: nat, k: Connection)
    requires ConnectionOk(d, c, k) && k.worker.Waiting?
    ensures k.mailbox.Some? ==> ConnectionOk(d, c, k.(worker := Holding(k.mailbox.value), mailbox := None))
    ensures ConnectionOk(d, c, k.(worker := Finished))
  {
    var v := k.(worker := Finished);
    var u := if k.mailbox.Some? then k.(worker := Holding(k.mailbox.value), mailbox := None) else v;
    forall i | 0 <= i < |u.fates| ensures PlaceOk(d, c, u, i) && PlaceOk(d, c, v, i) { assert PlaceOk(d, c, k, i); }
    forall i | 0 <= i < |u.sent| ensures SentOk(d, u, i) && SentOk(d, v, i) { assert SentOk(d, k, i); }
  }

  lemma ReleaseOk(d: Daemon, c: nat, k: Connection)
    requires ConnectionOk(d, c, k)
    ensures ConnectionOk(d, c, k.(stopRequested := true))
  {
    var u := k.(stopRequested := true);
    forall i | 0 <= i < |u.fates| ensures PlaceOk(d, c, u, i) { assert PlaceOk(d, c, k, i); }
    forall i | 0 <= i < |u.sent| ensures SentOk(d, u, i) { assert SentOk(d, k, i); }
  }

  lemma WorkerGood(l: Limits, d: Daemon, step: Step)
    requires Inv(l, d) && Enabled(d, step)
    requires step.Receive? || step.Disconnect? || step.Refuse? || step.Collect? || step.Send? || step.Release?
    ensures Inv(l, Next(l, d, step))
  {
    hide Inv, Serve, Tidy, ConnectionOk;
    var c := step.c;
    ConnectionOf(l, d, c);
    var k := d.connections[c];
    match step
    case Receive(_, f) =>
      ReceiveOk(d, c, k, f);
      SetKeeps(l, d, c, k.(worker := Pushing, received := k.received + [f]));
    case Disconnect(_) =>
      ReceiveOk(d, c, k, Frame(0, None));
      SetKeeps(l, d, c, k.(worker := Finished));
    case Refuse(_, arrived) =>
      RefusingOwes(d, c, k);
      SentIsOk(d, c, k, OVERLOADED, arrived, Reading);
      SetKeeps(l, d, c, k.(worker := Reading, sent := k.sent + [Sent(OVERLOADED, arrived)]));
    case Collect(_) =>
      CollectOk(d, c, k);
      SetKeeps(l, d, c, if k.mailbox.Some? then k.(worker := Holding(k.mailbox.value), mailbox := None)
                        else k.(worker := Finished));
    case Send(_, packs, arrived) =>
      HoldingOwes(d, c, k);
      var reply := if packs then k.worker.reply else UNSENDABLE;
      var w := if packs && arrived && reply.content != Farewell then Reading else Finished;
      SentIsOk(d, c, k, reply, arrived, w);
      SetKeeps(l, d, c, k.(worker := w, sent := k.sent + [Sent(reply, arrived)]));
    case Release(_) =>
      ReleaseOk(d, c, k);
      SetKeeps(l, d, c, k.(stopRequested := true));
  }

  lemma ConnectionOf(l: Limits, d: Daemon, c: nat)
    requires hide Fold; Inv(l, d) && c < |d.connections|
    ensures ConnectionOk(d, c, d.connections[c])
  {
    hide Ordered, ConnectionOk;
  }

  lemma RefusingOwes(d: Daemon, c: nat, k: Connection)
    requires ConnectionOk(d, c, k) && k.worker.Refusing?
    ensures |k.sent| < |k.fates| && Owed(d, k.fates[|k.sent|]) == OVERLOADED
  {}

  lemma HoldingOwes(d: Daemon, c: nat, k: Connection)
    requires ConnectionOk(d, c, k) && k.worker.Holding?
    ensures |k.sent| < |k.fates| && Owed(d, k.fates[|k.sent|]) == k.worker.reply
  {}

  lemma QueuedGood(l: Limits, d: Daemon, c: nat)
    requires Inv(l, d) && Enabled(d, Submit(c)) && Accepts(l, d)
    ensures Inv(l, Next(l, d, Submit(c)))
  {
    hide Inv, Serve, Tidy, ConnectionOk, Fold, Items, Ordered;
    ConnectionOf(l, d, c);
    OrderOf(l, d);
    var k := d.connections[c];
    var i := |k.received| - 1;
    var item := FromWire(c, i, k.received[i]);
    var e := Next(l, d, Submit(c));
    SubmittedOk(d, c, k);
    PushingCounts(d, c, k);
    PushOrdered(l, d, item);
    ConnectionStays(Push(d, item), e, c, e.connections[c]);
    PushKeeps(l, d, item, e);
  }

  lemma SubmitGood(l: Limits, d: Daemon, c: nat)
    requires Inv(l, d) && Enabled(d, Submit(c))
    ensures Inv(l, Next(l, d, Submit(c)))
  {
    hide Inv, Serve, Tidy, ConnectionOk, Fold, Items;
    if Accepts(l, d) {
      QueuedGood(l, d, c);
    } else {
      ConnectionOf(l, d, c);
      RefusedOk(d, c, d.connections[c]);
      SetKeeps(l, d, c, d.connections[c].(worker := Refusing, fates := d.connections[c].fates + [TurnedAway]));
    }
  }

  lemma PushingCounts(d: Daemon, c: nat, k: Connection)
    requires ConnectionOk(d, c, k) && k.worker.Pushing?
    ensures |k.received| == |k.fates| + 1
  {}

  lemma OrderOf(l: Limits, d: Daemon)
    requires Inv(l, d)
    ensures Ordered(l, d) && Listing(l, d) && Delivered(d) <= |d.authority.replies| <= |d.pushed|
  {
    hide Fold, Items;
  }

  lemma CallGood(l: Limits, d: Daemon, m: Message)
    requires Inv(l, d)
    ensures Inv(l, Next(l, d, Call(m)))
  {
    hide Inv, Serve, Tidy, ConnectionOk, Fold, Items;
    OrderOf(l, d);
    if Accepts(l, d) { PushKeeps(l, d, Local(|d.callers|, m), Next(l, d, Call(m))); }
  }

  lemma ShutGood(l: Limits, d: Daemon)
    requires Inv(l, d)
    ensures Inv(l, Next(l, d, Shut))
  {
    hide Inv, Serve, Tidy, ConnectionOk, Ordered;
    if Accepts(l, d) { PushKeeps(l, d, Stop, Next(l, d, Shut)); }
  }

  lemma AcceptGood(l: Limits, d: Daemon)
    requires Inv(l, d)
    ensures Inv(l, Next(l, d, Accept))
  {
    hide Ordered, Fold, Items, ConnectionOk, CallerOk, Serve, Tidy, Delivered;
    var e := Next(l, d, Accept);
    if e != d {
      OrderOf(l, d);
      SameOrder(l, d, e);
      FreshOk(e, |d.connections|);
      forall p | 0 <= p < |e.pushed| ensures Traced(e, p) { assert Traced(d, p); }
      forall j | 0 <= j < |e.connections| ensures ConnectionOk(e, j, e.connections[j]) {
        if j < |d.connections| { ConnectionStays(d, e, j, d.connections[j]); }
      }
      forall b | 0 <= b < |e.callers| ensures CallerOk(e, b, e.callers[b]) { CallerStays(d, e, b, d.callers[b]); }
    }
  }

  lemma FreshOk(d: Daemon, c: nat)
    ensures ConnectionOk(d, c, FRESH)
  {}

  lemma SameOrder(l: Limits, d: Daemon, e: Daemon)
    requires Ordered(l, d) && e == d.(connections := e.connections, listed := e.listed)
    ensures Ordered(l, e) && Delivered(e) == Delivered(d)
  {
    hide Fold, Items;
  }

  lemma ReapGood(l: Limits, d: Daemon)
    requires Inv(l, d)
    ensures Inv(l, Next(l, d, Reap))
  {
    hide Inv, Serve, Tidy, ConnectionOk, Fold, Items;
    var e := Next(l, d, Reap);
    OrderOf(l, d);
    SameOrder(l, d, e);
    SubsetSize(e.listed, d.listed);
    AsideKeeps(l, d, e);
  }

  lemma PopGood(l: Limits, d: Daemon)
    requires Inv(l, d) && Enabled(d, Pop)
    ensures Inv(l, Next(l, d, Pop))
  {
    hide Inv, Serve, Tidy, ConnectionOk, Fold, Items;
    OrderOf(l, d);
    AsideKeeps(l, d, Next(l, d, Pop));
  }

  lemma ServeReplies(setup: Setup, a: Authority, item: Item)
    requires item != Stop
    ensures |Serve(setup, a, item).replies| == |a.replies| + 1 && a.replies <= Serve(setup, a, item).replies
  {
    hide Dispatched;
  }

  lemma ProcessGood(l: Limits, d: Daemon)
    requires Inv(l, d) && Enabled(d, Process)
    ensures Inv(l, Next(l, d, Process))
  {
    hide Inv, Serve, Tidy, ConnectionOk, Serve, Fold;
    OrderOf(l, d);
    var item := d.reducer.item;
    var e := Next(l, d, Process);
    ServeReplies(l.setup, d.authority, item);
    FoldMore(l.setup, d.acts, Served(item));
    AsideKeeps(l, d, e);
  }

  lemma FoldMore(setup: Setup, acts: seq<Act>, act: Act)
    ensures hide Act1; Fold(setup, acts + [act]) == Act1(setup, Fold(setup, acts), act)
    ensures Items(acts + [act]) == Items(acts) + if act.Served? then [act.item] else []
  {
    hide Act1;
    var more := acts + [act];
    assert more[..|more| - 1] == acts;
  }

  lemma HousekeepGood(l: Limits, d: Daemon, due: bool)
    requires Inv(l, d) && Enabled(d, Housekeep(due))
    ensures Inv(l, Next(l, d, Housekeep(due)))
  {
    hide Inv, Serve, Tidy, ConnectionOk, Tidy, Fold, Items;
    OrderOf(l, d);
    FoldMore(l.setup, d.acts, Tidied(due));
    AsideKeeps(l, d, Next(l, d, Housekeep(due)));
  }

  // ----- delivery -----

  /** Delivering the next item's reply concerns only the connection that queued it. */
  lemma ElsewhereStays(d: Daemon, e: Daemon, c: nat, k: Connection)
    requires ConnectionOk(d, c, k) && e.pushed == d.pushed && e.authority == d.authority
    requires 0 <= Delivered(d) < |d.pushed| && Delivered(e) == Delivered(d) + 1
    requires d.pushed[Delivered(d)].FromWire? ==> d.pushed[Delivered(d)].connection != c
    ensures ConnectionOk(e, c, k)
  {
    forall i | 0 <= i < |k.fates| ensures PlaceOk(e, c, k, i) { assert PlaceOk(d, c, k, i); }
    forall i | 0 <= i < |k.sent| ensures SentOk(e, k, i) { assert SentOk(d, k, i); }
    if |k.fates| > |k.sent| { assert PlaceOk(d, c, k, |k.sent|); }
  }

  lemma MailboxFree(l: Limits, d: Daemon)
    requires hide Fold; Inv(l, d) && d.reducer.Computed? && d.reducer.item.FromWire?
    ensures var c := d.reducer.item.connection;
            Enabled(d, Deliver) && d.connections[c].mailbox == None
            && (d.connections[c].worker.Waiting? || d.connections[c].worker.Finished?)
            && d.reducer.item.index == |d.connections[c].sent| == |d.connections[c].fates| - 1
            && d.connections[c].fates[|d.connections[c].sent|] == Queued(d.popped - 1)
  {
    hide Fold, Items;
    var c, i := d.reducer.item.connection, d.reducer.item.index;
    var p := d.popped - 1;
    assert Traced(d, p);
    var k := d.connections[c];
    assert ConnectionOk(d, c, k);
    forall j | 0 <= j < |k.sent| ensures k.fates[j] != Queued(p) { assert SentOk(d, k, j); }
  }

  lemma DeliveredOk(d: Daemon, e: Daemon, c: nat, k: Connection)
    requires ConnectionOk(d, c, k) && e.pushed == d.pushed && e.authority == d.authority
    requires 0 <= Delivered(d) < |d.authority.replies| && Delivered(e) == Delivered(d) + 1
    requires |k.fates| == |k.sent| + 1 && k.fates[|k.sent|] == Queued(Delivered(d))
    requires k.worker.Waiting? || k.worker.Finished?
    ensures ConnectionOk(e, c, k.(mailbox := Some(d.authority.replies[Delivered(d)])))
  {
    var u := k.(mailbox := Some(d.authority.replies[Delivered(d)]));
    forall i | 0 <= i < |u.fates| ensures PlaceOk(e, c, u, i) { assert PlaceOk(d, c, k, i); }
    forall i | 0 <= i < |u.sent| ensures SentOk(e, u, i) { assert SentOk(d, k, i); }
  }

  lemma DeliverOrdered(l: Limits, d: Daemon)
    requires hide Fold, Serve, Tidy; Ordered(l, d) && Enabled(d, Deliver)
    ensures Ordered(l, Next(l, d, Deliver))
    ensures 0 <= Delivered(d) == d.popped - 1 < |d.authority.replies| <= |d.pushed|
    ensures Delivered(Next(l, d, Deliver)) == d.popped
    ensures d.reducer.item == d.pushed[d.popped - 1] && d.reducer.reply == d.authority.replies[d.popped - 1]
  {
    hide Fold, Items, Serve, Tidy;
  }

  lemma DeliverWireGood(l: Limits, d: Daemon)
    requires hide Fold, Serve, Tidy; Inv(l, d) && Enabled(d, Deliver) && d.reducer.item.FromWire?
    ensures Inv(l, Next(l, d, Deliver))
  {
    hide ConnectionOk, Fold, Items, Ordered, Serve, Tidy;
    var e := Next(l, d, Deliver);
    DeliverOrdered(l, d);
    MailboxFree(l, d);
    forall q | 0 <= q < |e.pushed| ensures Traced(e, q) { assert Traced(d, q); }
    forall j | 0 <= j < |e.connections| ensures ConnectionOk(e, j, e.connections[j]) {
      if d.reducer.item.connection == j {
        DeliveredOk(d, e, j, d.connections[j]);
      } else {
        ElsewhereStays(d, e, j, d.connections[j]);
      }
    }
    forall b | 0 <= b < |e.callers| ensures CallerOk(e, b, e.callers[b]) { assert CallerOk(d, b, d.callers[b]); }
  }

  lemma DeliverLocalGood(l: Limits, d: Daemon)
    requires hide Fold, Serve, Tidy; Inv(l, d) && Enabled(d, Deliver) && d.reducer.item.Local?
    ensures Inv(l, Next(l, d, Deliver))
  {
    hide ConnectionOk, Fold, Items, Ordered, Serve, Tidy;
    var e := Next(l, d, Deliver);
    DeliverOrdered(l, d);
    OrderOf(l, d);
    assert Traced(d, d.popped - 1);
    forall q | 0 <= q < |e.pushed| ensures Traced(e, q) { assert Traced(d, q); }
    forall j | 0 <= j < |e.connections| ensures ConnectionOk(e, j, e.connections[j]) {
      ElsewhereStays(d, e, j, d.connections[j]);
    }
    forall b | 0 <= b < |e.callers| ensures CallerOk(e, b, e.callers[b]) { assert CallerOk(d, b, d.callers[b]); }
  }

  // ----- runs of the daemon -----

  lemma StepGood(l: Limits, d: Daemon, step: Step)
    requires Inv(l, d) && Enabled(d, step)
    ensures Inv(l, Next(l, d, step))
  {
    hide Inv, Serve, Tidy, Next;
    match step
    case Accept => AcceptGood(l, d);
    case Reap => ReapGood(l, d);
    case Submit(c) => SubmitGood(l, d, c);
    case Call(m) => CallGood(l, d, m);
    case Pop => PopGood(l, d);
    case Process => ProcessGood(l, d);
    case Deliver => if d.reducer.item.FromWire? { DeliverWireGood(l, d); } else { DeliverLocalGood(l, d); }
    case Housekeep(due) => HousekeepGood(l, d, due);
    case Exhaust => ExhaustGood(l, d);
    case Shut => ShutGood(l, d);
    case Close => CloseGood(l, d);
    case _ => WorkerGood(l, d, step);
  }

  lemma ExhaustGood(l: Limits, d: Daemon)
    requires Inv(l, d) && Enabled(d, Exhaust)
    ensures Inv(l, Next(l, d, Exhaust))
  {
    hide Inv, Serve, Tidy, ConnectionOk, Fold, Items;
    OrderOf(l, d);
    AsideKeeps(l, d, Next(l, d, Exhaust));
  }

  lemma CloseGood(l: Limits, d: Daemon)
    requires Inv(l, d)
    ensures Inv(l, Next(l, d, Close))
  {
    hide Inv, Serve, Tidy, ConnectionOk, Fold, Items;
    OrderOf(l, d);
    AsideKeeps(l, d, Next(l, d, Close));
  }

  ghost predicate Follows(l: Limits, d: Daemon, steps: seq<Step>)
    decreases |steps|
  {
    hide Next;
    steps == [] || (Enabled(d, steps[0]) && Follows(l, Next(l, d, steps[0]), steps[1..]))
  }

  function After(l: Limits, d: Daemon, steps: seq<Step>): Daemon
    decreases |steps|
  {
    hide Next;
    if steps == [] then d else After(l, Next(l, d, steps[0]), steps[1..])
  }

  lemma BootGood(l: Limits)
    ensures Inv(l, Boot(l))
  {
    hide Act1;
  }

  lemma {:induction false} RunGood(l: Limits, d: Daemon, steps: seq<Step>)
    requires Inv(l, d) && Follows(l, d, steps)
    ensures Inv(l, After(l, d, steps))
    decreases |steps|
  {
    hide Inv, Serve, Tidy, Enabled, Next;
    if steps != [] {
      StepGood(l, d, steps[0]);
      RunGood(l, Next(l, d, steps[0]), steps[1..]);
    }
  }

  ghost predicate Leads(l: Limits, steps: seq<Step>, d: Daemon)
  {
    Follows(l, Boot(l), steps) && After(l, Boot(l), steps) == d
  }

  /** Some interleaving from the daemon's start ends here. */
  ghost predicate Reached(l: Limits, d: Daemon) { exists steps :: Leads(l, steps, d) }

  lemma ReachedGood(l: Limits, d: Daemon)
    requires Reached(l, d)
    ensures Inv(l, d)
  {
    hide Inv, Serve, Tidy;
    var steps :| Leads(l, steps, d);
    BootGood(l);
    RunGood(l, Boot(l), steps);
  }

  // ----- what the daemon promises -----

  /** In every interleaving the engine has gone through exactly the items queued so far, in the order they
      were queued, one operation after another; housekeeping comes between them, and what waits is the rest. */
  lemma DaemonIsSequential(l: Limits, steps: seq<Step>)
    requires hide Follows, After, Fold, Steps, Items, Runs.After; Follows(l, Boot(l), steps)
    ensures var d := After(l, Boot(l), steps);
            && d.authority == Fold(l.setup, d.acts)
            && d.authority.core == Runs.After(l.setup.start, Steps(l.setup, d.acts))
            && d.popped <= |d.pushed| && d.queue == d.pushed[d.popped..] && |d.queue| <= l.capacity
            && |Items(d.acts)| <= d.popped <= |Items(d.acts)| + 1 && Items(d.acts) <= d.pushed
            && |d.listed| <= l.connections
  {
    hide Inv, Serve, Tidy, Fold, Items, Steps, Runs.After;
    BootGood(l);
    RunGood(l, Boot(l), steps);
    var d := After(l, Boot(l), steps);
    OrderOf(l, d);
    ReducerRunsEngine(l.setup, d.acts);
  }

  /** So the engine behind the daemon is always in a state that a run of the engine reaches, whatever the
      threads do, as long as what is asked of it meets the conditions its operations have. */
  lemma DaemonStaysReachable(l: Limits, steps: seq<Step>, care: Invariant.Care)
    requires hide Follows, After, Steps, Runs.Reachable, Runs.Follows;
             Follows(l, Boot(l), steps) && Runs.Reachable(l.setup.start, care)
    requires Runs.Follows(l.setup.start, Steps(l.setup, After(l, Boot(l), steps).acts), care)
    ensures Runs.Reachable(After(l, Boot(l), steps).authority.core, care)
  {
    hide Inv, Serve, Tidy, Fold, Items, Steps, Runs.After, Runs.Follows, Runs.Reachable, After;
    DaemonIsSequential(l, steps);
    Runs.StillReachable(l.setup.start, Steps(l.setup, After(l, Boot(l), steps).acts), care);
  }

  /** A reply is only ever put in the empty mailbox of a worker that waits for it, or that shutdown has
      released: no reply is overwritten. */
  lemma NoOverwrite(l: Limits, d: Daemon)
    requires hide Reached, Fold; Reached(l, d) && d.reducer.Computed? && d.reducer.item.FromWire?
    ensures var c := d.reducer.item.connection;
            d.popped > 0 && Enabled(d, Deliver) && d.connections[c].mailbox == None
            && (d.connections[c].worker.Waiting? || d.connections[c].worker.Finished?)
            && d.reducer.item.index == |d.connections[c].sent| == |d.connections[c].fates| - 1
            && d.connections[c].fates[|d.connections[c].sent|] == Queued(d.popped - 1)
  {
    hide Inv, Serve, Tidy;
    ReachedGood(l, d);
    MailboxFree(l, d);
  }

  /** Is item `p` still owed to connection `c`: queued, with the reducer, or unread in the mailbox? */
  predicate Outstanding(d: Daemon, c: nat, p: nat)
  {
    && p < |d.pushed| && d.pushed[p].FromWire? && d.pushed[p].connection == c < |d.connections|
    && (p >= Delivered(d)
        || (d.connections[c].mailbox.Some? && d.connections[c].fates != []
            && d.connections[c].fates[|d.connections[c].fates| - 1] == Queued(p)))
  }

  /** No connection ever has more than one item on its way. */
  lemma OneOutstanding(l: Limits, d: Daemon, c: nat, p: nat, q: nat)
    requires Reached(l, d) && Outstanding(d, c, p) && Outstanding(d, c, q)
    ensures p == q
  {
    hide Fold, Items, Ordered, Listing, Reached;
    ReachedGood(l, d);
    var k := d.connections[c];
    assert ConnectionOk(d, c, k) && Traced(d, p) && Traced(d, q);
    forall i | 0 <= i < |k.sent| ensures k.fates[i].Queued? ==> k.fates[i].place < Delivered(d) {
      assert SentOk(d, k, i);
    }
  }

  /** The i-th reply a connection sends answers its i-th frame. If that frame was queued, it is the reply of
      the sequential authority to that very frame at its place in the queue, with the frame's own sequence
      number when the frame held a message; if not, it says the queue was full. Only the last reply before
      the connection ends may instead report that it could not be encoded; and only a refusal can be lost
      on a connection that goes on. */
  lemma AnsweredInOrder(l: Limits, d: Daemon, c: nat, i: nat)
    requires hide Reached, Answers; Reached(l, d) && c < |d.connections| && i < |d.connections[c].sent|
    ensures var k := d.connections[c];
            && i < |k.fates| <= |k.received|
            && (if k.sent[i].reply == UNSENDABLE then i == |k.sent| - 1 && k.worker.Finished?
                else match k.fates[i]
                     case TurnedAway => k.sent[i].reply == OVERLOADED
                     case Queued(_) => Answers(l, d, k.sent[i].reply, FromWire(c, i, k.received[i])))
            && (!k.sent[i].arrived ==> k.fates[i].TurnedAway? || (i == |k.sent| - 1 && k.worker.Finished?))
  {
    hide Reached, Answers, Fold, Items, Ordered;
    ReachedGood(l, d);
    OrderOf(l, d);
    var k := d.connections[c];
    assert ConnectionOk(d, c, k) && SentOk(d, k, i) && PlaceOk(d, c, k, i);
    if k.fates[i].Queued? { ReplyIs(l, d, k.fates[i].place); }
  }

  /** The reply of the sequential authority to this item, given whatever came before it. */
  ghost predicate Answers(l: Limits, d: Daemon, reply: Reply, item: Item)
  {
    hide Fold, LastReply;
    item != Stop
    && exists n :: 0 <= n < |d.acts| && d.acts[n] == Served(item) && reply == LastReply(l.setup, Fold(l.setup, d.acts[..n]), item)
  }

  lemma ReplyIs(l: Limits, d: Daemon, p: nat)
    requires hide Fold, Answers; Ordered(l, d) && p < |d.authority.replies|
    ensures p < |d.pushed| && d.pushed[p] != Stop && Answers(l, d, d.authority.replies[p], d.pushed[p])
    ensures d.authority.replies[p] != UNSENDABLE
  {
    hide LastReply, Fold, Items;
    ReplyAt(l.setup, d.acts, p);
    assert Items(d.acts)[p] == d.pushed[p];
    var n :| 0 <= n < |d.acts| && d.acts[n] == Served(d.pushed[p])
             && d.authority.replies[p] == LastReply(l.setup, Fold(l.setup, d.acts[..n]), d.pushed[p]);
    ReplySays(l.setup, Fold(l.setup, d.acts[..n]), d.pushed[p]);
  }

  /** An in-process caller is answered exactly when its place in the queue has been delivered, with the reply to its
      own message; one that queues behind the stop item is never answered. */
  lemma CallersAnswered(l: Limits, d: Daemon, b: nat)
    requires hide Reached, Answers; Reached(l, d) && b < |d.callers|
    ensures var k := d.callers[b];
            && (k.mailbox.Some? <==> k.place < Delivered(d))
            && (k.mailbox.Some? ==> Answers(l, d, k.mailbox.value, Local(b, k.message)))
            && ((exists q :: 0 <= q < k.place && q < |d.pushed| && d.pushed[q] == Stop) ==> k.mailbox.None?)
  {
    hide Reached, Answers, Fold, Items, Ordered;
    ReachedGood(l, d);
    OrderOf(l, d);
    var k := d.callers[b];
    assert CallerOk(d, b, k);
    if k.mailbox.Some? {
      ReplyIs(l, d, k.place);
      forall q | 0 <= q < k.place ensures d.pushed[q] != Stop { ReplyIs(l, d, q); }
    }
  }

  lemma HistoryGrows(l: Limits, d: Daemon, step: Step)
    requires hide Next; Enabled(d, step)
    ensures var e := Next(l, d, step);
            && d.pushed <= e.pushed && |d.callers| <= |e.callers|
            && forall b :: 0 <= b < |d.callers| ==> e.callers[b].place == d.callers[b].place && e.callers[b].message == d.callers[b].message
  {
    hide Serve, Tidy;
  }

  lemma {:induction false} HistoryKept(l: Limits, d: Daemon, steps: seq<Step>)
    requires hide Follows, After; Follows(l, d, steps)
    ensures var e := After(l, d, steps);
            && d.pushed <= e.pushed && |d.callers| <= |e.callers|
            && forall b :: 0 <= b < |d.callers| ==> e.callers[b].place == d.callers[b].place && e.callers[b].message == d.callers[b].message
    decreases |steps|
  {
    hide Next, Enabled;
    if steps != [] {
      HistoryGrows(l, d, steps[0]);
      HistoryKept(l, Next(l, d, steps[0]), steps[1..]);
    }
  }

  /** A caller that comes between the stop item and the closing of the queue is queued behind the stop item, and
      whatever happens afterwards it goes on waiting. */
  lemma LateCaller(l: Limits, m: Message, more: seq<Step>)
    requires hide Follows, After, Next; l.capacity >= 2
    requires Follows(l, Next(l, Next(l, Boot(l), Shut), Call(m)), more)
    ensures var d := Next(l, Next(l, Boot(l), Shut), Call(m));
            var e := After(l, d, more);
            && d.pushed == [Stop, Local(0, m)] && d.callers == [Caller(m, 1, None)]
            && |e.callers| >= 1 && e.callers[0].message == m && e.callers[0].mailbox.None?
  {
    hide Inv, Serve, Tidy;
    var one := Next(l, Boot(l), Shut);
    var d := Next(l, one, Call(m));
    var steps := [Shut, Call(m)] + more;
    assert steps[1..] == [Call(m)] + more && steps[1..][1..] == more;
    assert Follows(l, one, steps[1..]) && After(l, one, steps[1..]) == After(l, d, more);
    assert Leads(l, steps, After(l, d, more));
    HistoryKept(l, d, more);
    var e := After(l, d, more);
    assert e.pushed[0] == d.pushed[0] == Stop;
    CallersAnswered(l, e, 0);
  }

  /** A refusal that does not arrive leaves its connection reading the next frame. */
  lemma RefusalLost(l: Limits, f: Frame)
    requires hide Follows, After; l.connections >= 1
    ensures var steps := [Step.Close, Step.Accept, Step.Receive(0, f), Step.Submit(0), Step.Refuse(0, false)];
            && Follows(l, Boot(l), steps)
            && var d := After(l, Boot(l), steps);
               |d.connections| == 1 && d.connections[0].worker == Reading && d.connections[0].sent == [Sent(OVERLOADED, false)]
  {
    hide Next, Enabled;
    var d0 := Boot(l);
    var steps := [Step.Close, Step.Accept, Step.Receive(0, f), Step.Submit(0), Step.Refuse(0, false)];
    RefusalSteps(l, f);
    var d1 := Next(l, d0, Step.Close);
    var d2 := Next(l, d1, Step.Accept);
    var d3 := Next(l, d2, Step.Receive(0, f));
    var d4 := Next(l, d3, Step.Submit(0));
    var d5 := Next(l, d4, Step.Refuse(0, false));
    assert Follows(l, d5, steps[1..][1..][1..][1..][1..]);
    assert Follows(l, d4, steps[1..][1..][1..][1..]) && After(l, d4, steps[1..][1..][1..][1..]) == d5;
    assert Follows(l, d3, steps[1..][1..][1..]) && After(l, d3, steps[1..][1..][1..]) == d5;
    assert Follows(l, d2, steps[1..][1..]) && After(l, d2, steps[1..][1..]) == d5;
    assert Follows(l, d1, steps[1..]) && After(l, d1, steps[1..]) == d5;
  }

  /** Its five steps, one by one. */
  lemma RefusalSteps(l: Limits, f: Frame)
    requires hide Next, Enabled; l.connections >= 1
    ensures var d0 := Boot(l);
            var d1 := Next(l, d0, Step.Close);
            var d2 := Next(l, d1, Step.Accept);
            var d3 := Next(l, d2, Step.Receive(0, f));
            var d4 := Next(l, d3, Step.Submit(0));
            && Enabled(d0, Step.Close) && Enabled(d1, Step.Accept) && Enabled(d2, Step.Receive(0, f))
            && Enabled(d3, Step.Submit(0)) && Enabled(d4, Step.Refuse(0, false))
            && Next(l, d4, Step.Refuse(0, false)).connections
               == [Connection(Reading, None, false, [f], [TurnedAway], [Sent(OVERLOADED, false)])]
  {
    hide Serve, Tidy;
    var d1 := Next(l, Boot(l), Step.Close);
    assert d1 == Boot(l).(closed := true);
    var d2 := Next(l, d1, Step.Accept);
    assert d2.connections == [FRESH] && d2.closed;
    hide Next;
    RefusedFrame(l, d2, f);
  }

  lemma RefusedFrame(l: Limits, d: Daemon, f: Frame)
    requires hide Serve, Tidy; d.closed && d.connections == [FRESH]
    ensures var d3 := Next(l, d, Step.Receive(0, f));
            var d4 := Next(l, d3, Step.Submit(0));
            && Enabled(d, Step.Receive(0, f)) && Enabled(d3, Step.Submit(0)) && Enabled(d4, Step.Refuse(0, false))
            && Next(l, d4, Step.Refuse(0, false)).connections
               == [Connection(Reading, None, false, [f], [TurnedAway], [Sent(OVERLOADED, false)])]
  {
    hide Serve, Tidy;
    var d3 := Next(l, d, Step.Receive(0, f));
    assert d3.connections[0] == FRESH.(worker := Pushing, received := [f]) && |d3.connections| == 1 && d3.closed;
    var d4 := Next(l, d3, Step.Submit(0));
    assert d4.connections[0] == FRESH.(worker := Refusing, received := [f], fates := [TurnedAway]) && |d4.connections| == 1;
    var d5 := Next(l, d4, Step.Refuse(0, false));
    assert d5.connections[0] == Connection(Reading, None, false, [f], [TurnedAway], [Sent(OVERLOADED, false)]);
  }
}
