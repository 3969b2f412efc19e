/** The descriptors open in the kernel, in runs of the machine: those that were open before, those of open sockets, and
    those a container refused. */
module Descriptors {
  import opened PollHandler
  import opened Core
  import opened Machine
  import opened Reaching
  import Actions
  import EngineFacts
  import Histories
  import Nesting
  import Preservation
  import Runs
  import Safety
  import SendQueue
  import Steps

  function OpenFds(heap: Heap): set<int> {
    set id | id in heap && heap[id].Open() :: heap[id].fd
  }

  /** The descriptors that no open socket has. */
  function Unowned(c: State): set<int> {
    c.kernel - OpenFds(c.heap)
  }

  // ------------------------------------------------------------------------------------------
  // Refusals
  // ------------------------------------------------------------------------------------------

  /** The descriptor that container `o` refuses because it holds another object under that number. */
  function RefusedBy(c: State, o: Owner, fd: int): set<int> {
    if fd >= 0 && Key(o, fd) in c.owned then {fd} else {}
  }

  function RefusedCall(c: State, ch: Choice): set<int> {
    match ch
    case CallListen(server, fd, _) => RefusedBy(c, Listeners(server), fd)
    case CallConnect(client, fd, _) => RefusedBy(c, Peers(client), fd)
    case _ => {}
  }

  /** The descriptor that a step leaves without an owner. */
  function RefusedAt(s: Sys, ch: Choice): set<int> {
    if s.stack == [] then (if s.poller.Polling? then {} else RefusedCall(s.core, ch))
    else
      match s.stack[0]
      case Hook => RefusedCall(s.core, ch)
      case Exec(id, tag, i, end) =>
        if ch.Go? && i < end && s.core.Live(id) && i < |s.core.heap[id].On(tag)| then
          var cb := s.core.heap[id].On(tag)[i];
          if cb.exec.Accept? && !cb.Skipped() then RefusedBy(s.core, Clients(cb.exec.server), ch.answer) else {}
        else {}
      case _ => {}
  }

  function RefusedIn(s: Sys, choices: seq<Choice>): set<int>
    decreases choices
  {
    if choices == [] || !Step(s, choices[0]).Stepped? then {}
    else RefusedAt(s, choices[0]) + RefusedIn(Step(s, choices[0]).sys, choices[1..])
  }

  // ------------------------------------------------------------------------------------------
  // Each update
  // ------------------------------------------------------------------------------------------

  /** The refused descriptors are new among those that no open socket has, and the only ones. */
  ghost predicate Gains(c: State, out: Outcome, refused: set<int>) {
    var gains := out.Stepped? ==> Unowned(out.sys.core) == Unowned(c) + refused;
    gains
  }

  lemma HasFd(heap: Heap, k: int) returns (id: ObjId)
    requires k in OpenFds(heap)
    ensures OpenIn(heap, id) && heap[id].fd == k
  {
    id :| id in heap && heap[id].Open() && heap[id].fd == k;
  }

  /** The same sockets are open, with the same descriptors. */
  ghost predicate SameSockets(heap: Heap, heap': Heap) {
    var same :=
      forall id: ObjId :: OpenIn(heap', id) == OpenIn(heap, id) && (OpenIn(heap, id) ==> heap'[id].fd == heap[id].fd);
    same
  }

  lemma SameFds(heap: Heap, heap': Heap)
    requires SameSockets(heap, heap')
    ensures OpenFds(heap') == OpenFds(heap)
  {
    forall k ensures k in OpenFds(heap') <==> k in OpenFds(heap) {
      if k in OpenFds(heap') { var id := HasFd(heap', k); }
      if k in OpenFds(heap) { var id := HasFd(heap, k); assert OpenIn(heap', id); }
    }
  }

  lemma SameDescriptors(c: State, u: State)
    requires u.kernel == c.kernel && SameSockets(c.heap, u.heap)
    ensures Unowned(u) == Unowned(c)
  {
    SameFds(c.heap, u.heap);
  }

  lemma FdsWithout(heap: Heap, heap': Heap, id: ObjId, kernel: set<int>)
    requires OpenIn(heap, id) && heap' == heap[id := heap[id].(fd := -1)] && DescriptorsDiffer(heap, kernel)
    ensures OpenFds(heap') == OpenFds(heap) - {heap[id].fd}
  {
    forall k ensures k in OpenFds(heap') <==> k in OpenFds(heap) && k != heap[id].fd {
      if k in OpenFds(heap') { var x := HasFd(heap', k); assert OpenIn(heap, x); }
      if k in OpenFds(heap) && k != heap[id].fd { var x := HasFd(heap, k); assert OpenIn(heap', x); }
    }
  }

  lemma OneShut(c: State, id: ObjId)
    requires DescriptorsDiffer(c.heap, c.kernel) && c.OpenAt(id) && c.table.Aligned()
    ensures Unowned(Shut(c, id)) == Unowned(c)
  {
    FdsWithout(c.heap, Shut(c, id).heap, id, c.kernel);
    assert c.heap[id].fd in OpenFds(c.heap);
  }

  lemma FdsWith(heap: Heap, heap': Heap, id: ObjId, fd: int)
    requires id !in heap && id in heap' && heap' == heap[id := heap'[id]] && heap'[id].fd == fd && fd >= 0
    ensures OpenFds(heap') == OpenFds(heap) + {fd}
  {
    forall k ensures k in OpenFds(heap') <==> k in OpenFds(heap) || k == fd {
      if k in OpenFds(heap') { var x := HasFd(heap', k); assert x == id || OpenIn(heap, x); }
      if k in OpenFds(heap) { var x := HasFd(heap, k); assert OpenIn(heap', x); }
      if k == fd { assert OpenIn(heap', id); }
    }
  }

  /** A new open socket under a descriptor fresh from the kernel. */
  lemma OneOpened(c: State, u: State, id: ObjId, fd: int)
    requires fd >= 0 && fd !in c.kernel && id !in c.heap && u.kernel == c.kernel + {fd}
    requires u.Live(id) && u.heap == c.heap[id := u.heap[id]] && u.heap[id].fd == fd
    ensures Unowned(u) == Unowned(c)
  {
    FdsWith(c.heap, u.heap, id, fd);
  }

  lemma OneRefused(c: State, fd: int)
    requires DescriptorsDiffer(c.heap, c.kernel) && fd >= 0 && fd !in c.kernel
    ensures Unowned(Allocated(c, fd)) == Unowned(c) + {fd}
  {
    if fd in OpenFds(c.heap) { var id := HasFd(c.heap, fd); }
  }

  // ------------------------------------------------------------------------------------------
  // Each step
  // ------------------------------------------------------------------------------------------

  lemma StaysOwned(c: State, out: Outcome)
    requires out.Stepped? ==> out.sys.core.kernel == c.kernel && SameSockets(c.heap, out.sys.core.heap)
    ensures Gains(c, out, {})
  {
    if out.Stepped? { SameDescriptors(c, out.sys.core); }
  }

  lemma Closes(s: Sys, id: ObjId)
    requires DescriptorsDiffer(s.core.heap, s.core.kernel) && s.core.Live(id) && s.core.table.Aligned()
    ensures Gains(s.core, Stepped(CloseSocket(s, id)), {})
  {
    if s.core.heap[id].Open() { OneShut(s.core, id); }
  }

  lemma Listens(s: Sys, server: nat, fd: int, stage: Stage)
    requires Valid(s.core) && Fresh(s.core, fd)
    ensures Gains(s.core, Stepped(Listen(s, server, fd, stage)), RefusedBy(s.core, Listeners(server), fd))
  {
    if fd >= 0 {
      if Key(Listeners(server), fd) in s.core.owned {
        OneRefused(s.core, fd);
      } else {
        ListensWith(s, server, fd, stage);
        OneOpened(s.core, Listen(s, server, fd, stage).core, s.core.nextId, fd);
      }
    }
  }

  lemma ListensWith(s: Sys, server: nat, fd: int, stage: Stage)
    requires Valid(s.core) && fd >= 0 && Key(Listeners(server), fd) !in s.core.owned
    ensures var c, id := Listen(s, server, fd, stage).core, s.core.nextId;
            && id !in s.core.heap && c.Live(id) && c.heap == s.core.heap[id := c.heap[id]]
            && c.heap[id].fd == fd && c.kernel == s.core.kernel + {fd}
  {
    NextFree(s.core);
    EngineFacts.ListenerOpened(s.core, server, fd, stage == Succeeds);
    EngineFacts.OpenedFacts(s.core, Listeners(server), fd,
      ListenerActions(Inserted(Allocated(s.core, fd), Listeners(server), fd), s.core.nextId, server, stage ==
        Succeeds));
  }

  lemma NextFree(c: State)
    requires Valid(c)
    ensures c.nextId !in c.heap
  {
  }

  lemma Connects(s: Sys, client: nat, fd: int, stage: Stage)
    requires Valid(s.core) && Fresh(s.core, fd)
    ensures Gains(s.core, Stepped(Connect(s, client, fd, stage)), RefusedBy(s.core, Peers(client), fd))
  {
    if fd >= 0 {
      if Key(Peers(client), fd) in s.core.owned {
        OneRefused(s.core, fd);
      } else {
        ConnectsWith(s, client, fd, stage);
        OneOpened(s.core, Connect(s, client, fd, stage).core, s.core.nextId, fd);
      }
    }
  }

  lemma ConnectsWith(s: Sys, client: nat, fd: int, stage: Stage)
    requires Valid(s.core) && fd >= 0 && Key(Peers(client), fd) !in s.core.owned
    ensures var c, id := Connect(s, client, fd, stage).core, s.core.nextId;
            && id !in s.core.heap && c.Live(id) && c.heap == s.core.heap[id := c.heap[id]]
            && c.heap[id].fd == fd && c.kernel == s.core.kernel + {fd}
  {
    NextFree(s.core);
    EngineFacts.PeerOpened(s.core, client, fd, stage == Succeeds);
    EngineFacts.OpenedFacts(s.core, Peers(client), fd,
      PeerActions(Inserted(Allocated(s.core, fd), Peers(client), fd), s.core.nextId, stage == Succeeds));
  }

  lemma Accepts(s: Sys, server: nat, fd: int)
    requires Valid(s.core) && Fresh(s.core, fd)
    ensures Gains(s.core, AcceptClient(s, server, fd), RefusedBy(s.core, Clients(server), fd))
  {
    if fd > 0 {
      if Key(Clients(server), fd) in s.core.owned {
        OneRefused(s.core, fd);
      } else {
        AcceptsWith(s, server, fd);
        OneOpened(s.core, AcceptClient(s, server, fd).sys.core, s.core.nextId, fd);
      }
    }
  }

  lemma AcceptsWith(s: Sys, server: nat, fd: int)
    requires Valid(s.core) && fd > 0 && Key(Clients(server), fd) !in s.core.owned
    ensures AcceptClient(s, server, fd).Stepped?
    ensures var c, id := AcceptClient(s, server, fd).sys.core, s.core.nextId;
            && id !in s.core.heap && c.Live(id) && c.heap == s.core.heap[id := c.heap[id]]
            && c.heap[id].fd == fd && c.kernel == s.core.kernel + {fd}
  {
    NextFree(s.core);
    EngineFacts.ClientOpened(s.core, server, fd);
    EngineFacts.OpenedFacts(s.core, Clients(server), fd,
      ClientActions(Inserted(Allocated(s.core, fd), Clients(server), fd), s.core.nextId));
  }

  lemma UserCalls(s: Sys, ch: Choice)
    requires Valid(s.core) && UserMay(s, ch)
    ensures Gains(s.core, UserStep(s, ch), RefusedCall(s.core, ch))
  {
    match ch
    case CallListen(server, fd, stage) => Listens(s, server, fd, stage);
    case CallConnect(client, fd, stage) => Connects(s, client, fd, stage);
    case CallClose(id) =>
      DiffersIn(s.core);
      if s.core.Live(id) && s.core.table.Aligned() { Closes(s, id); }
    case CallSend(_, _, _) => Sends(s, ch);
    case CallOn(id, tag, flags) => if s.core.Live(id) { Registers(s, id, tag, flags); }
    case _ => StaysOwned(s.core, UserStep(s, ch));
  }

  lemma Sends(s: Sys, ch: Choice)
    requires ch.CallSend?
    ensures Gains(s.core, UserStep(s, ch), {})
  {
    StaysOwned(s.core, UserStep(s, ch));
  }

  lemma Registers(s: Sys, id: ObjId, tag: Tag, flags: Actions.Flags)
    requires s.core.Live(id)
    ensures Gains(s.core, UserStep(s, CallOn(id, tag, flags)), {})
  {
    StaysOwned(s.core, UserStep(s, CallOn(id, tag, flags)));
  }

  lemma DiffersIn(c: State)
    requires Valid(c)
    ensures DescriptorsDiffer(c.heap, c.kernel) && c.table.Aligned()
  {
    TableWellFormed(c);
  }

  lemma Callbacks(s: Sys, id: ObjId, e: Core.Exec, answer: int)
    requires Valid(s.core) && s.core.Live(id) && s.core.table.Aligned() && Histories.MayRun(s.core, id, e)
    requires KernelMay(s.core, id, e, answer)
    ensures Gains(s.core, Dispatched(s, id, e, answer),
                  if e.Accept? then RefusedBy(s.core, Clients(e.server), answer) else {})
  {
    match e
    case Accept(server) => AcceptOrAbort(s, id, server, answer);
    case Recv =>
      DiffersIn(s.core);
      Closes(s, id);
      StaysOwned(s.core, Stepped(s));
    case Flush => Flushes(s, id, answer);
    case Erase(o, key) => Erases(s, id, o, key);
    case _ => StaysOwned(s.core, Dispatched(s, id, e, answer));
  }

  lemma Flushes(s: Sys, id: ObjId, answer: int)
    requires s.core.Live(id) && s.core.table.Aligned()
    ensures Gains(s.core, Dispatched(s, id, Flush, answer), {})
  {
    StaysOwned(s.core, Dispatched(s, id, Flush, answer));
  }

  lemma Erases(s: Sys, id: ObjId, o: Owner, key: int)
    requires s.core.Live(id) && s.core.table.Aligned() && Histories.MayRun(s.core, id, Erase(o, key))
    ensures Gains(s.core, Dispatched(s, id, Erase(o, key), 0), {})
    ensures forall answer :: Dispatched(s, id, Erase(o, key), answer) == Dispatched(s, id, Erase(o, key), 0)
  {
    StaysOwned(s.core, Dispatched(s, id, Erase(o, key), 0));
  }

  lemma AcceptOrAbort(s: Sys, id: ObjId, server: nat, answer: int)
    requires Valid(s.core) && s.core.Live(id) && s.core.table.Aligned() && Fresh(s.core, answer)
    ensures Gains(s.core, Dispatched(s, id, Accept(server), answer), RefusedBy(s.core, Clients(server), answer))
  {
    Accepts(s, server, answer);
  }

  lemma Executes(s: Sys, id: ObjId, tag: Tag, i: nat, end: nat, answer: int)
    requires Safety.Inv(s) && s.stack != [] && s.stack[0] == Exec(id, tag, i, end) && Allowed(s, Go(answer))
    ensures Gains(s.core, Step(s, Go(answer)), RefusedAt(s, Go(answer)))
  {
    Nesting.InvIsValid(s);
    if i < end {
      Histories.CallbackMayRun(s, id, tag, i, end);
      ExecutesOne(s, id, tag, i, end, answer);
    } else {
      StaysOwned(s.core, Step(s, Go(answer)));
    }
  }

  lemma ExecutesOne(s: Sys, id: ObjId, tag: Tag, i: nat, end: nat, answer: int)
    requires Valid(s.core) && s.stack != [] && s.stack[0] == Exec(id, tag, i, end) && Allowed(s, Go(answer)) && i < end
    requires s.core.Live(id) && i < |s.core.heap[id].On(tag)|
    requires Histories.MayRun(s.core, id, s.core.heap[id].On(tag)[i].exec)
    ensures Gains(s.core, Step(s, Go(answer)), RefusedAt(s, Go(answer)))
  {
    DiffersIn(s.core);
    if |s.core.heap[id].On(tag)| == end {
      var cb := s.core.heap[id].On(tag)[i];
      Steps.ExecIs(s, id, tag, i, end, answer);
      if cb.Skipped() {
        StaysOwned(s.core, Stepped(Steps.Under(s, false)));
      } else {
        Callbacks(Steps.Under(s, cb.Stops()), id, cb.exec, answer);
      }
    }
  }

  lemma Drains(s: Sys, o: Owner)
    requires Valid(s.core) && s.stack != []
    ensures Gains(s.core, DrainStep(s, o), {})
  {
    DiffersIn(s.core);
    if s.core.KeysOf(o) != {} {
      var id := s.core.owned[Key(o, Least(s.core.KeysOf(o)))];
      if s.core.Live(id) { Closes(s, id); }
    } else {
      StaysOwned(s.core, DrainStep(s, o));
    }
  }

  lemma ClosesNext(s: Sys, id: ObjId, ch: Choice)
    requires Valid(s.core) && s.stack != [] && s.stack[0] == CloseNext(id)
    ensures Gains(s.core, Step(s, ch), {})
  {
    DiffersIn(s.core);
    if s.core.Live(id) { Closes(s.(stack := s.stack[1..]), id); }
  }

  lemma TopLevel(s: Sys, ch: Choice)
    requires Valid(s.core) && s.stack == [] && Allowed(s, ch)
    ensures Gains(s.core, Step(s, ch), RefusedAt(s, ch))
  {
    if s.poller.Polling? {
      Polls(s, ch);
    } else if ch.CallPoll? {
      Starts(s, ch.reported);
    } else {
      UserCalls(s, ch);
    }
  }

  lemma Polls(s: Sys, ch: Choice)
    requires s.stack == [] && s.poller.Polling?
    ensures Gains(s.core, Step(s, ch), {})
  {
    if ch.Go? && PollStep(s).Stepped? {
      assert PollStep(s).sys.core == s.core;
      SameDescriptors(s.core, s.core);
    }
  }

  lemma Starts(s: Sys, reported: seq<Mask>)
    ensures Gains(s.core, StartPoll(s, reported), {})
  {
    if StartPoll(s, reported).Stepped? { SameDescriptors(s.core, StartPoll(s, reported).sys.core); }
  }

  lemma InHook(s: Sys, ch: Choice)
    requires Valid(s.core) && s.stack != [] && s.stack[0].Hook? && Allowed(s, ch)
    ensures Gains(s.core, Step(s, ch), RefusedAt(s, ch))
  {
    if ch.Return? {
      StaysOwned(s.core, Step(s, ch));
    } else {
      UserCalls(s, ch);
    }
  }

  /** A step leaves without an owner exactly the descriptor a container refuses in it. */
  lemma StepGains(s: Sys, ch: Choice)
    requires Safety.Inv(s) && Allowed(s, ch)
    ensures Gains(s.core, Step(s, ch), RefusedAt(s, ch))
  {
    Nesting.InvIsValid(s);
    if s.stack == [] {
      TopLevel(s, ch);
    } else {
      match s.stack[0]
      case Hook => InHook(s, ch);
      case Exec(id, tag, i, end) => if ch.Go? { Executes(s, id, tag, i, end, ch.answer); }
      case Draining(o) => if ch.Go? { Drains(s, o); }
      case CloseNext(id) => ClosesNext(s, id, ch);
      case RaiseError(_) => if ch.Go? { StaysOwned(s.core, Step(s, ch)); }
    }
  }

  /** What is refused was fresh from the kernel. */
  lemma RefusedIsFresh(s: Sys, ch: Choice)
    requires Allowed(s, ch)
    ensures RefusedAt(s, ch) !! s.core.kernel
  {
  }

  // ------------------------------------------------------------------------------------------
  // Every run
  // ------------------------------------------------------------------------------------------

  lemma {:induction false} RunGains(s: Sys, choices: seq<Choice>, u: Sys)
    requires Safety.Inv(s) && WithinCounter(s) && IsRun(s, choices) && EndOf(s, choices) == Stepped(u)
    ensures Unowned(u.core) == Unowned(s.core) + RefusedIn(s, choices)
    ensures RefusedIn(s, choices) !! Unowned(s.core)
    decreases choices
  {
    if choices == [] {
    } else {
      var m := Step(s, choices[0]).sys;
      Steps.StepKeeps(s, choices[0]);
      StepGains(s, choices[0]);
      RefusedIsFresh(s, choices[0]);
      RunGains(m, choices[1..], u);
    }
  }

  /** In every run the descriptors open in the kernel are those of the open sockets, those that were open at the
      start, and those that a container refused, and these are all different: a descriptor leaks exactly if one is
      refused. */
  lemma KernelIsKnown(garbage: ushort, kernel: set<int>, choices: seq<Choice>, u: Sys)
    requires IsRun(Initial(garbage, kernel), choices) && EndOf(Initial(garbage, kernel), choices) == Stepped(u)
    ensures var refused := RefusedIn(Initial(garbage, kernel), choices);
            && u.core.kernel == OpenFds(u.core.heap) + kernel + refused
            && OpenFds(u.core.heap) !! kernel + refused && kernel !! refused
    ensures u.core.kernel == OpenFds(u.core.heap) + kernel <==> RefusedIn(Initial(garbage, kernel), choices) == {}
  {
    var start := Initial(garbage, kernel);
    Runs.InitialHolds(garbage, kernel);
    RunGains(start, choices, u);
    assert OpenFds(start.core.heap) == {};
    assert Unowned(start.core) == kernel;
    Runs.RunKeeps(start, choices);
    Nesting.InvIsValid(u);
    DiffersIn(u.core);
    FdsInKernel(u.core);
    LeaksIff(u.core.kernel, OpenFds(u.core.heap), kernel, RefusedIn(start, choices));
  }

  lemma FdsInKernel(c: State)
    requires DescriptorsDiffer(c.heap, c.kernel)
    ensures OpenFds(c.heap) <= c.kernel
  {
    forall k | k in OpenFds(c.heap) ensures k in c.kernel { var id := HasFd(c.heap, k); }
  }

  lemma LeaksIff(all: set<int>, open: set<int>, kernel: set<int>, refused: set<int>)
    requires open <= all && all - open == kernel + refused && refused !! kernel
    ensures all == open + kernel + refused && open !! kernel + refused
    ensures all == open + kernel <==> refused == {}
  {
    assert all == open + (all - open);
    if all == open + kernel {
      assert refused <= all - open && all - open <= kernel;
      assert refused == refused * kernel;
    }
  }

  // ------------------------------------------------------------------------------------------
  // A refusal
  // ------------------------------------------------------------------------------------------

  /** A refusal is reachable: a client connects on descriptor 3, user code closes the connection, and in its CLOSED
      callback the kernel may hand out 3 again, which the container then refuses: a reconnect from inside CLOSED
      leaks it. */
  lemma ReconnectIsRefused() returns (s: Sys)
    ensures Runs.Reachable(s) && s.stack != [] && s.stack[0].Hook?
    ensures UserMay(s, CallConnect(0, 3, Succeeds)) && RefusedAt(s, CallConnect(0, 3, Succeeds)) == {3}
    ensures var u := Step(s, CallConnect(0, 3, Succeeds));
            u.Stepped? && u.sys.core.kernel == {3} && OpenFds(u.sys.core.heap) == {}
  {
    var start := Initial(0, {});
    var connected := Connects3(start);
    var closing := Closes3(connected);
    s := Raises3(closing);
    ReachesOn(start, connected, closing);
    ReachesOn(start, closing, s);
    FromTheBeginning(s);
    NoneOpen(s.core.heap);
  }

  lemma FromTheBeginning(s: Sys)
    requires Reaches(Initial(0, {}), s)
    ensures Runs.Reachable(s)
  {
  }

  lemma NoneOpen(heap: Heap)
    requires forall id: ObjId :: !OpenIn(heap, id)
    ensures OpenFds(heap) == {}
  {
    forall k ensures k !in OpenFds(heap) {
      if k in OpenFds(heap) { var id := HasFd(heap, k); }
    }
  }

  /** A client connects. */
  lemma Connects3(start: Sys) returns (s: Sys)
    requires start == Initial(0, {})
    ensures Reaches(start, s) && s.stack == [] && s.poller.Idle? && s.core.table.Aligned()
    ensures s.core.heap.Keys == {0} && s.core.heap[0].fd == 3 && s.core.heap[0].owner == Peers(0)
    ensures s.core.heap[0].On(CLOSED) == [Plain(RaiseClosed), EraseCallback(Peers(0), 3)]
    ensures s.core.kernel == {3} && Key(Peers(0), 3) in s.core.owned && s.core.table.changes == 1
  {
    var c := ConnectedFacts(start.core);
    s := start.On(c);
    OneReach(start, CallConnect(0, 3, Succeeds), s.Push(Hook));
    HookReach(c, [], Idle);
    ReachesOn(start, s.Push(Hook), s);
  }

  lemma ConnectedFacts(c: State) returns (u: State)
    requires c == Initial(0, {}).core
    ensures Connect(Initial(0, {}), 0, 3, Succeeds) == Initial(0, {}).On(u).Push(Hook)
    ensures u.heap.Keys == {0} && u.heap[0].fd == 3 && u.heap[0].owner == Peers(0) && u.table.Aligned()
    ensures u.heap[0].On(CLOSED) == [Plain(RaiseClosed), EraseCallback(Peers(0), 3)]
    ensures u.kernel == {3} && Key(Peers(0), 3) in u.owned && u.table.changes == 1
  {
    var peer := PeerActions(Inserted(Allocated(c, 3), Peers(0), 3), 0, true);
    EngineFacts.PeerOpened(c, 0, 3, true);
    EngineFacts.OpenedFacts(c, Peers(0), 3, peer);
    ClosedListOfPeer(c, peer);
    u := Logged(peer, Connected(0));
  }

  lemma ClosedListOfPeer(c: State, peer: State)
    requires c == Initial(0, {}).core && peer == PeerActions(Inserted(Allocated(c, 3), Peers(0), 3), 0, true)
    ensures peer.Live(0) && peer.heap[0].On(CLOSED) == [Plain(RaiseClosed), EraseCallback(Peers(0), 3)]
  {
    Preservation.FirstRegistrations(EraseCallback(Peers(0), 3), RaiseClosed);
  }

  /** User code closes the connection. */
  lemma Closes3(s: Sys) returns (u: Sys)
    requires s.stack == [] && s.poller.Idle? && s.core.table.Aligned() && s.core.heap.Keys == {0}
    requires s.core.heap[0].fd == 3
    requires s.core.heap[0].On(CLOSED) == [Plain(RaiseClosed), EraseCallback(Peers(0), 3)]
    requires s.core.kernel == {3} && Key(Peers(0), 3) in s.core.owned
    ensures Reaches(s, u) && u.stack == [Exec(0, CLOSED, 0, 2)] && u.poller.Idle? && u.core.table.Aligned()
    ensures u.core.heap.Keys == {0} && !u.core.heap[0].Open()
    ensures u.core.heap[0].On(CLOSED) == [Plain(RaiseClosed), EraseCallback(Peers(0), 3)]
    ensures u.core.kernel == {} && Key(Peers(0), 3) in u.core.owned
  {
    u := CloseSocket(s, 0);
    OneReach(s, CallClose(0), u);
  }

  /** Its CLOSED callback is called. */
  lemma Raises3(s: Sys) returns (u: Sys)
    requires s.stack == [Exec(0, CLOSED, 0, 2)] && s.poller.Idle? && s.core.table.Aligned() && s.core.heap.Keys == {0}
    requires !s.core.heap[0].Open() && s.core.heap[0].On(CLOSED) == [Plain(RaiseClosed), EraseCallback(Peers(0), 3)]
    requires s.core.kernel == {} && Key(Peers(0), 3) in s.core.owned
    ensures Reaches(s, u) && u.stack == [Hook] + [Exec(0, CLOSED, 1, 2)]
    ensures u.core.heap == s.core.heap && u.core.kernel == {} && Key(Peers(0), 3) in u.core.owned
  {
    u := Sys(Logged(s.core, Closed(0)), [Hook] + [Exec(0, CLOSED, 1, 2)], s.poller);
    Steps.ExecIs(s, 0, CLOSED, 0, 2, 0);
    OneReach(s, Go(0), u);
  }
}
