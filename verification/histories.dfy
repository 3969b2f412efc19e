/** What the record of a run says in every run: each descriptor is closed once, and connections of tcp::client never
    flush, because includes/tcp/client.hpp registers no WRITEABLE callback that does. */
module Histories {
  import opened PollHandler
  import opened Core
  import opened Machine
  import opened Reentry
  import opened Runs
  import Actions
  import Safety
  import SendQueue
  import Steps

  predicate NeverFlushed(out: SendQueue.Stream<SendQueue.byte>) {
    out.flushed == [] && out.repeated == []
  }

  /** No flush ever wrote for a client's connection. */
  ghost predicate Unflushed(heap: Heap) {
    var holds := forall id: ObjId :: id in heap && heap[id].owner.Peers? ==> NeverFlushed(heap[id].out);
    holds
  }

  /** The stream of a connection is what sends and flushes, each answered as the kernel may, made of an empty queue. */
  ghost predicate Written(out: SendQueue.Stream<SendQueue.byte>) {
    exists ops: seq<SendQueue.Op<SendQueue.byte>> :: SendQueue.IsRun(ops) && SendQueue.Run(ops) == out
  }

  ghost predicate AllWritten(heap: Heap) {
    var holds := forall id: ObjId :: id in heap ==> Written(heap[id].out);
    holds
  }

  ghost predicate Bounded(heap: Heap, nextId: ObjId) {
    var holds := forall id: ObjId :: id in heap ==> id < nextId;
    holds
  }

  ghost predicate Historic(c: State) {
    var holds :=
      Bounded(c.heap, c.nextId) && Unflushed(c.heap) && AllWritten(c.heap) && ClosedOnce(c.log, c.heap, c.nextId);
    holds
  }

  ghost predicate Kept(out: Outcome) {
    var kept := out.Stepped? ==> Historic(out.sys.core);
    kept
  }

  // ------------------------------------------------------------------------------------------
  // Each update
  // ------------------------------------------------------------------------------------------

  /** One object replaced by one with the same descriptor. */
  lemma Replaced(c: State, id: ObjId, sock: Sock, d: State)
    requires Historic(c) && c.Live(id) && sock.owner == c.heap[id].owner && sock.fd == c.heap[id].fd
    requires c.heap[id].owner.Peers? && NeverFlushed(c.heap[id].out) ==> NeverFlushed(sock.out)
    requires Written(c.heap[id].out) ==> Written(sock.out)
    requires d.heap == c.heap[id := sock] && d.nextId == c.nextId && d.log == c.log
    ensures Historic(d)
  {
    SameOpen(c.log, c.log, c.heap, d.heap, c.nextId);
  }

  lemma WrittenOn(out: SendQueue.Stream<SendQueue.byte>, op: SendQueue.Op<SendQueue.byte>)
    requires Written(out) && SendQueue.Possible(out, op)
    ensures Written(SendQueue.Step(out, op))
  {
    var ops: seq<SendQueue.Op<SendQueue.byte>> :| SendQueue.IsRun(ops) && SendQueue.Run(ops) == out;
    assert (ops + [op])[..|ops|] == ops;
    assert SendQueue.Run(ops + [op]) == SendQueue.Step(out, op);
  }

  lemma WrittenEmpty()
    ensures Written(SendQueue.Empty())
  {
    assert SendQueue.Run<SendQueue.byte>([]) == SendQueue.Empty();
  }

  lemma Told(c: State, e: Event)
    requires Historic(c) && !e.SysClose?
    ensures Historic(Logged(c, e))
  {
    SameOpen(c.log, c.log + [e], c.heap, c.heap, c.nextId);
  }

  lemma Inserts(c: State, o: Owner, fd: int)
    requires Historic(c) && fd >= 0
    ensures Historic(Inserted(Allocated(c, fd), o, fd)) && Inserted(Allocated(c, fd), o, fd).Live(c.nextId)
  {
    WrittenEmpty();
    AddedOnce(c.log, c.heap, c.nextId, NewSock(o, fd));
  }

  lemma Registers(c: State, id: ObjId, tag: Tag, cb: Callback)
    requires Historic(c) && c.Live(id)
    ensures Historic(RegisteredOn(c, id, tag, cb))
  {
    Replaced(c, id, c.heap[id].With(tag, cb), RegisteredOn(c, id, tag, cb));
  }

  lemma Closes(s: Sys, id: ObjId)
    requires Historic(s.core) && s.core.Live(id) && s.core.table.Aligned()
    ensures Historic(CloseSocket(s, id).core)
  {
    if s.core.heap[id].Open() {
      ShutClosesOnce(s.core.log, s.core.heap, s.core.nextId, id, s.core.heap[id].fd);
      assert Unflushed(s.core.heap[id := s.core.heap[id].(fd := -1)]);
    }
  }

  lemma Erases(c: State, o: Owner, key: int)
    requires Historic(c) && (Key(o, key) in c.owned ==> !OpenIn(c.heap, c.owned[Key(o, key)]))
    ensures Historic(Erased(c, o, key))
  {
    SameOpen(c.log, c.log, c.heap, Erased(c, o, key).heap, c.nextId);
  }

  lemma Listens(s: Sys, server: nat, fd: int, stage: Stage)
    requires Historic(s.core)
    ensures Historic(Listen(s, server, fd, stage).core)
  {
    var id, c := s.core.nextId, Inserted(Allocated(s.core, fd), Listeners(server), fd);
    if fd >= 0 && Key(Listeners(server), fd) !in s.core.owned {
      Inserts(s.core, Listeners(server), fd);
      ListensWith(c, id, server, stage == Succeeds);
      if stage == Succeeds { Told(ListenerActions(c, id, server, true), Listening(id)); }
    }
  }

  lemma ListensWith(c: State, id: ObjId, server: nat, ready: bool)
    requires Historic(c) && c.Live(id)
    ensures Historic(ListenerActions(c, id, server, ready))
  {
    Registers(c, id, CLOSED, Plain(RaiseClosed));
    Registers(RegisteredOn(c, id, CLOSED, Plain(RaiseClosed)), id, READABLE, Plain(Accept(server)));
  }

  lemma Connects(s: Sys, client: nat, fd: int, stage: Stage)
    requires Historic(s.core)
    ensures Historic(Connect(s, client, fd, stage).core)
  {
    var id, c := s.core.nextId, Inserted(Allocated(s.core, fd), Peers(client), fd);
    if fd >= 0 && Key(Peers(client), fd) !in s.core.owned {
      Inserts(s.core, Peers(client), fd);
      ConnectsWith(c, id, stage == Succeeds);
      if stage == Succeeds { Told(PeerActions(c, id, true), Connected(id)); }
    }
  }

  lemma ConnectsWith(c: State, id: ObjId, ready: bool)
    requires Historic(c) && c.Live(id)
    ensures Historic(PeerActions(c, id, ready))
  {
    var c1 := RegisteredOn(c, id, CLOSED, Plain(RaiseClosed));
    Registers(c, id, CLOSED, Plain(RaiseClosed));
    Registers(c1, id, READABLE, Plain(Recv));
    Registers(RegisteredOn(c1, id, READABLE, Plain(Recv)), id, RECV, Plain(RaisePeerReceive));
  }

  lemma Accepts(s: Sys, server: nat, fd: int)
    requires Historic(s.core)
    ensures Kept(AcceptClient(s, server, fd))
  {
    var id, c := s.core.nextId, Inserted(Allocated(s.core, fd), Clients(server), fd);
    if fd > 0 && Key(Clients(server), fd) !in s.core.owned {
      Inserts(s.core, Clients(server), fd);
      AcceptsWith(c, id);
      Told(ClientActions(c, id), Accepted(id));
    }
  }

  lemma AcceptsWith(c: State, id: ObjId)
    requires Historic(c) && c.Live(id)
    ensures Historic(ClientActions(c, id))
  {
    var c1 := RegisteredOn(c, id, READABLE, Plain(Recv));
    var c2 := RegisteredOn(c1, id, WRITEABLE, Plain(Flush));
    Registers(c, id, READABLE, Plain(Recv));
    Registers(c1, id, WRITEABLE, Plain(Flush));
    Registers(c2, id, CLOSED, Plain(RaiseDisconnect));
    Registers(RegisteredOn(c2, id, CLOSED, Plain(RaiseDisconnect)), id, RECV, Plain(RaiseReceive));
  }

  lemma Sends(c: State, id: ObjId, message: seq<SendQueue.byte>, sent: int)
    requires Historic(c) && c.Live(id) && SendQueue.Answer(sent, |message|)
    ensures Historic(Sent(c, id, message, sent))
  {
    if Written(c.heap[id].out) { WrittenOn(c.heap[id].out, SendQueue.OpSend(message, sent)); }
    Replaced(c, id, c.heap[id].(out := SendQueue.AfterSend(c.heap[id].out, message, sent)), Sent(c, id, message, sent));
  }

  lemma Flushes(c: State, id: ObjId, sent: int)
    requires Historic(c) && c.Live(id) && SendQueue.Possible(c.heap[id].out, SendQueue.OpFlush(sent))
    requires !c.heap[id].owner.Peers?
    ensures Historic(Flushed(c, id, sent))
  {
    if Written(c.heap[id].out) { WrittenOn(c.heap[id].out, SendQueue.OpFlush(sent)); }
    Replaced(c, id, c.heap[id].(out := SendQueue.AfterFlush(c.heap[id].out, sent)), Flushed(c, id, sent));
  }

  lemma UserCalls(s: Sys, ch: Choice)
    requires Historic(s.core)
    ensures Kept(UserStep(s, ch))
  {
    match ch
    case CallListen(server, fd, stage) => Listens(s, server, fd, stage);
    case CallConnect(client, fd, stage) => Connects(s, client, fd, stage);
    case CallSend(id, message, sent) =>
      if s.core.Live(id) && SendQueue.Answer(sent, |message|) { Sends(s.core, id, message, sent); }
    case CallClose(id) =>
      if s.core.Live(id) && s.core.table.Aligned() { Closes(s, id); }
    case CallOn(id, tag, flags) =>
      if s.core.Live(id) { Registers(s.core, id, tag, Actions.Callback(User, flags)); }
    case _ =>
  }

  /** What the invariant says of a callback about to run: no flush for clients' connections, no erasing of an open
      socket. */
  predicate MayRun(c: State, id: ObjId, e: Core.Exec)
    requires c.Live(id)
  {
    && (e.Flush? ==> !c.heap[id].owner.Peers?)
    && (e.Erase? ==> Key(e.owner, e.key) in c.owned ==> !OpenIn(c.heap, c.owned[Key(e.owner, e.key)]))
  }

  lemma Dispatches(s: Sys, id: ObjId, e: Core.Exec, answer: int)
    requires Historic(s.core) && s.core.Live(id) && s.core.table.Aligned() && MayRun(s.core, id, e)
    ensures Kept(Dispatched(s, id, e, answer))
  {
    match e
    case Erase(o, key) => Erases(s.core, o, key);
    case Accept(server) => Accepts(s, server, answer);
    case Recv => Closes(s, id);
    case Flush =>
      if SendQueue.Possible(s.core.heap[id].out, SendQueue.OpFlush(answer)) { Flushes(s.core, id, answer); }
    case RaiseClosed => Told(s.core, Closed(id));
    case RaiseDisconnect => Told(s.core, Disconnected(id));
    case RaiseReceive => Told(s.core, Received(id));
    case RaisePeerReceive => Told(s.core, PeerReceived(id));
    case User =>
  }

  // ------------------------------------------------------------------------------------------
  // Every run
  // ------------------------------------------------------------------------------------------

  lemma CallbackMayRun(s: Sys, id: ObjId, tag: Tag, i: nat, end: nat)
    requires Safety.Inv(s) && Steps.OnTop(s, id, tag, i, end) && i < end
    ensures s.core.Live(id) && i < |s.core.heap[id].On(tag)| && MayRun(s.core, id, s.core.heap[id].On(tag)[i].exec)
  {
    Steps.AtCallback(s, id, tag, i, end);
    Safety.WhichCallback(s.core.heap[id], tag, i);
    OwnKey(s, id);
  }

  lemma OwnKey(s: Sys, id: ObjId)
    requires Safety.Inv(s) && s.core.Live(id)
    ensures var k := Key(s.core.heap[id].owner, s.core.heap[id].key); k in s.core.owned && s.core.owned[k] == id
  {
  }

  lemma ExecKeeps(s: Sys, id: ObjId, tag: Tag, i: nat, end: nat, answer: int)
    requires Historic(s.core) && s.stack != []
    requires i < end && s.core.Live(id) && i < |s.core.heap[id].On(tag)| ==>
               MayRun(s.core, id, s.core.heap[id].On(tag)[i].exec)
    ensures Kept(ExecStep(s, id, tag, i, end, answer))
  {
    if i < end && s.core.Live(id) && |s.core.heap[id].On(tag)| == end && s.core.table.Aligned() {
      var cb, rest := s.core.heap[id].On(tag)[i], s.stack[1..];
      if !cb.Skipped() {
        Dispatches(s.(stack := if cb.Stops() then rest else [Exec(id, tag, i + 1, end)] + rest), id, cb.exec, answer);
      }
    }
  }

  lemma ExecutionKeeps(s: Sys, id: ObjId, tag: Tag, i: nat, end: nat, answer: int)
    requires Safety.Inv(s) && Historic(s.core) && Steps.OnTop(s, id, tag, i, end)
    ensures Kept(ExecStep(s, id, tag, i, end, answer))
  {
    if i < end { CallbackMayRun(s, id, tag, i, end); }
    ExecKeeps(s, id, tag, i, end, answer);
  }

  lemma LoopKeeps(s: Sys)
    requires Historic(s.core) && s.poller.Polling?
    ensures Kept(PollStep(s))
  {
    assert PollStep(s).Stepped? ==> PollStep(s).sys.core == s.core;
  }

  lemma DrainKeeps(s: Sys, o: Owner)
    requires Historic(s.core) && s.stack != []
    ensures Kept(DrainStep(s, o))
  {
    if s.core.KeysOf(o) != {} {
      var id := s.core.owned[Key(o, Least(s.core.KeysOf(o)))];
      if s.core.Live(id) && s.core.table.Aligned() { Closes(s, id); }
    }
  }

  lemma CloseNextKeeps(s: Sys, id: ObjId, ch: Choice)
    requires Historic(s.core) && s.stack != [] && s.stack[0] == CloseNext(id)
    ensures Kept(Step(s, ch))
  {
    if s.core.Live(id) && s.core.table.Aligned() { Closes(s.(stack := s.stack[1..]), id); }
  }

  lemma IdleKeeps(s: Sys, ch: Choice)
    requires Historic(s.core) && s.stack == []
    ensures Kept(Step(s, ch))
  {
    if s.poller.Polling? {
      LoopKeeps(s);
    } else if !ch.CallPoll? {
      UserCalls(s, ch);
    }
  }

  lemma HookKeeps(s: Sys, ch: Choice)
    requires Historic(s.core) && s.stack != [] && s.stack[0].Hook?
    ensures Kept(Step(s, ch))
  {
    if !ch.Return? { UserCalls(s, ch); }
  }

  lemma StepKept(s: Sys, ch: Choice)
    requires Safety.Inv(s) && Historic(s.core)
    ensures Kept(Step(s, ch))
  {
    if s.stack == [] {
      IdleKeeps(s, ch);
    } else {
      FrameKeeps(s, s.stack[0], ch);
    }
  }

  lemma FrameKeeps(s: Sys, f: Frame, ch: Choice)
    requires Safety.Inv(s) && Historic(s.core) && s.stack != [] && s.stack[0] == f
    ensures Kept(Step(s, ch))
  {
    match f
    case Hook => HookKeeps(s, ch);
    case Exec(id, tag, i, end) =>
      if ch.Go? { ExecutionKeeps(s, id, tag, i, end, ch.answer); }
    case Draining(o) => DrainKeeps(s, o);
    case CloseNext(id) => CloseNextKeeps(s, id, ch);
    case RaiseError(o) => Told(s.core, Failed(o));
  }

  lemma {:induction false} RunKept(s: Sys, choices: seq<Choice>)
    requires Safety.Inv(s) && WithinCounter(s) && IsRun(s, choices) && Historic(s.core)
    ensures Kept(EndOf(s, choices))
    decreases choices
  {
    if choices != [] && Step(s, choices[0]).Stepped? {
      Steps.StepKeeps(s, choices[0]);
      StepKept(s, choices[0]);
      RunKept(Step(s, choices[0]).sys, choices[1..]);
    }
  }

  lemma ReachableHistoric(s: Sys)
    requires Reachable(s)
    ensures Historic(s.core)
  {
    var garbage: ushort, kernel: set<int>, choices: seq<Choice> :|
      IsRun(Initial(garbage, kernel), choices) && EndOf(Initial(garbage, kernel), choices) == Stepped(s);
    InitialHolds(garbage, kernel);
    assert Historic(Initial(garbage, kernel).core);
    RunKept(Initial(garbage, kernel), choices);
  }

  /** What module Reentry asks of a state holds in every reachable one, so that all about closing applies there. */
  lemma ReachableConsistent(s: Sys)
    requires Reachable(s)
    ensures Consistent(s.core)
  {
    ReachableHistoric(s);
    ReachableHolds(s);
  }

  /** In every reachable state the descriptor of every socket ever made was closed exactly once if the socket is no
      longer open, and never if it is or was not made. */
  lemma EachIsClosedOnce(s: Sys, id: ObjId)
    requires Reachable(s)
    ensures Closings(s.core.log, id) == if id < s.core.nextId && !s.core.OpenAt(id) then 1 else 0
  {
    ReachableHistoric(s);
  }

  /** In every reachable state nothing has left the queue of a client's connection, and what is not on the wire of
      all it accepted is still in the queue. */
  lemma ClientsNeverFlush(s: Sys, id: ObjId)
    requires Reachable(s) && s.core.Live(id) && s.core.heap[id].owner.Peers?
    ensures var out := s.core.heap[id].out;
            && NeverFlushed(out)
            && multiset(out.wire) + multiset(SendQueue.Flat(out.queue)) == multiset(out.accepted)
  {
    ReachableHistoric(s);
    StreamsAreSound(s, id);
  }

  /** In every reachable state the stream of each connection is made by a run of sends and flushes, and, judged on where
      each byte comes from, wire and queue are what was accepted, in order, exactly if each of them was orderly. */
  lemma StreamExactIff(s: Sys, id: ObjId) returns (ops: seq<SendQueue.Op<SendQueue.byte>>)
    requires Reachable(s) && s.core.Live(id)
    ensures SendQueue.IsRun(ops) && SendQueue.Run(ops) == s.core.heap[id].out
    ensures SendQueue.IsRun(SendQueue.TagRun(ops))
    ensures SendQueue.Untagged(SendQueue.Run(SendQueue.TagRun(ops))) == s.core.heap[id].out
    ensures SendQueue.Exact(SendQueue.Run(SendQueue.TagRun(ops))) <==> SendQueue.AllOrderly(ops)
    ensures SendQueue.AllOrderly(ops) ==> SendQueue.Exact(s.core.heap[id].out)
    ensures (s.core.heap[id].out.want <==> s.core.heap[id].out.queue != []) <==> !SendQueue.LostLast(ops)
  {
    ReachableHistoric(s);
    ops :| SendQueue.IsRun(ops) && SendQueue.Run(ops) == s.core.heap[id].out;
    SendQueue.PlainRunExactIff(ops);
    SendQueue.InterestRunIff(ops);
  }

  /** In every reachable state, for each connection: what is on the wire is as much as the kernel took, and no byte is
      there before the one in front of it in its message. */
  lemma WireFollowsMessages(s: Sys, id: ObjId) returns (ops: seq<SendQueue.Op<SendQueue.byte>>)
    requires Reachable(s) && s.core.Live(id)
    ensures SendQueue.IsRun(ops) && SendQueue.Run(ops) == s.core.heap[id].out
    ensures |s.core.heap[id].out.wire| == SendQueue.Taken(ops)
    ensures SendQueue.IsRun(SendQueue.TagRun(ops))
    ensures SendQueue.Untagged(SendQueue.Run(SendQueue.TagRun(ops))) == s.core.heap[id].out
    ensures SendQueue.InOrder(SendQueue.Run(SendQueue.TagRun(ops)).wire)
  {
    ReachableHistoric(s);
    ops :| SendQueue.IsRun(ops) && SendQueue.Run(ops) == s.core.heap[id].out;
    SendQueue.WireFollowsMessages(ops);
    SendQueue.WireIsWhatWasTaken(ops);
  }
}
