/** Every allowed step of the machine keeps the invariant and is defined. */
module Steps {
  import opened PollHandler
  import opened Core
  import opened Machine
  import opened Safety
  import opened Preservation
  import Actions
  import Dispatch
  import SendQueue

  // ------------------------------------------------------------------------------------------
  // Pushing and popping
  // ------------------------------------------------------------------------------------------

  lemma PushHook(s: Sys)
    requires Steady(s) && Calling(s)
    ensures Steady(s.Push(Hook))
  {
    PushKeeps(s, Hook);
  }

  lemma PushError(s: Sys, o: Owner)
    requires Steady(s) && Calling(s)
    ensures Steady(s.Push(RaiseError(o)))
  {
    PushKeeps(s, RaiseError(o));
  }

  lemma PopKeeps(s: Sys)
    requires s.stack != [] && Steady(s)
    ensures Steady(s.(stack := s.stack[1..]))
  {
    PopGood(s, {});
  }

  lemma PopGood(s: Sys, closing: set<ObjId>)
    requires s.stack != [] && Good(s, closing)
    ensures Good(s.(stack := s.stack[1..]), closing)
  {
  }

  lemma CallingUnder(s: Sys)
    requires Inv(s) && s.stack != []
    ensures Calling(s)
  {
  }

  lemma StartFrame(heap: Heap, p: Poller, stack: seq<Frame>, id: ObjId, tag: Tag)
    requires id in heap && (tag == CLOSED ==> !heap[id].Open() && !Busy(stack, id))
    requires tag == READABLE ==> stack == [] && Serving(p, AfterRead, id)
    requires tag == WRITEABLE ==> stack == [] && Serving(p, AfterWrite, id)
    ensures FrameOk(heap, p, Exec(id, tag, 0, |heap[id].On(tag)|), stack)
  {
  }

  lemma PushGood(s: Sys, f: Frame, closing: set<ObjId>)
    requires Good(s, closing) && Calling(s) && FrameOk(s.core.heap, s.poller, f, s.stack)
    ensures Good(s.Push(f), closing)
  {
    assert s.Push(f).stack[1..] == s.stack;
  }

  /** An execution starts. */
  lemma StartKeeps(s: Sys, id: ObjId, tag: Tag)
    requires Good(s, if tag == CLOSED then {id} else {}) && Begun(s.stack) && Calling(s) && s.core.Live(id)
    requires tag == CLOSED ==> !s.core.heap[id].Open() && !Busy(s.stack, id)
    requires tag == READABLE ==> s.stack == [] && Serving(s.poller, AfterRead, id)
    requires tag == WRITEABLE ==> s.stack == [] && Serving(s.poller, AfterWrite, id) && s.core.heap[id].out.queue != []
    requires tag in {READABLE, WRITEABLE, RECV} ==> s.core.heap[id].Open()
    ensures Starting(PushExec(s, id, tag))
  {
    var u := PushExec(s, id, tag);
    assert u.stack[1..] == s.stack;
    StartFrame(s.core.heap, s.poller, s.stack, id, tag);
    PushGood(s, u.stack[0], ClosingOf(u.stack[0]));
    if tag == CLOSED { ClosedHasErase(s.core, id); }
  }

  lemma ClosedHasErase(c: State, id: ObjId)
    requires Valid(c) && c.Live(id)
    ensures c.heap[id].On(CLOSED) != []
  {
    assert EraseIsLast(c.heap[id]);
  }

  lemma CloseKeeps(s: Sys, id: ObjId)
    requires Steady(s) && Calling(s) && s.core.Live(id) && (s.core.heap[id].Open() ==> !Busy(s.stack, id))
    ensures Inv(CloseSocket(s, id))
  {
    if s.core.heap[id].Open() {
      ShutGood(s, id);
      StartKeeps(s.On(Shut(s.core, id)), id, CLOSED);
    }
  }

  lemma AlignedIn(s: Sys)
    requires Inv(s)
    ensures s.core.table.Aligned()
  {
  }

  // ------------------------------------------------------------------------------------------
  // Calls from user code
  // ------------------------------------------------------------------------------------------

  lemma AllocatedSteady(s: Sys, fd: int)
    requires Steady(s)
    ensures Steady(s.On(Allocated(s.core, fd)))
  {
    AllocatedGood(s, fd, {});
  }

  lemma ListenKeeps(s: Sys, server: nat, fd: int, stage: Stage)
    requires Steady(s) && Calling(s) && Fresh(s.core, fd)
    ensures Steady(Listen(s, server, fd, stage))
  {
    var o, c, id := Listeners(server), Allocated(s.core, fd), s.core.nextId;
    if fd < 0 {
      PushError(s, o);
    } else if Key(o, fd) in c.owned {
      AllocatedSteady(s, fd);
      PushError(s.On(c), o);
    } else {
      var c1 := ListenerActions(Inserted(c, o, fd), id, server, stage == Succeeds);
      InsertedKeeps(s.core, o, fd);
      ActionsValid(Inserted(c, o, fd), id, server, stage == Succeeds);
      ListenerEquipped(Inserted(c, o, fd), id, server, fd, stage == Succeeds);
      AddedGood(s, o, fd, c1);
      if stage == Succeeds {
        LoggedSteady(s.On(c1), Listening(id));
        PushHook(s.On(Logged(c1, Listening(id))));
      } else {
        CloseNextKeeps(s.On(c1), id, o);
      }
    }
  }

  lemma LoggedSteady(s: Sys, e: Event)
    requires Steady(s) && !e.Accepted? && !e.Received? && !e.Disconnected?
    ensures Steady(s.On(Logged(s.core, e)))
  {
    LoggedGood(s, e, {});
  }

  lemma PeerAdded(s: Sys, client: nat, fd: int, ready: bool)
    requires Steady(s) && Calling(s) && fd >= 0 && fd !in s.core.kernel && Key(Peers(client), fd) !in s.core.owned
    ensures var c := PeerActions(Inserted(Allocated(s.core, fd), Peers(client), fd), s.core.nextId, ready);
            Steady(s.On(c)) && !Busy(s.stack, s.core.nextId) && c.Live(s.core.nextId)
  {
    var o, c, id := Peers(client), Allocated(s.core, fd), s.core.nextId;
    InsertedKeeps(s.core, o, fd);
    ActionsValid(Inserted(c, o, fd), id, 0, ready);
    PeerEquipped(Inserted(c, o, fd), id, client, fd, ready);
    AddedGood(s, o, fd, PeerActions(Inserted(c, o, fd), id, ready));
  }

  lemma ConnectKeeps(s: Sys, client: nat, fd: int, stage: Stage)
    requires Steady(s) && Calling(s) && Fresh(s.core, fd)
    ensures Steady(Connect(s, client, fd, stage))
  {
    var o, c, id := Peers(client), Allocated(s.core, fd), s.core.nextId;
    if fd < 0 {
      PushError(s, o);
    } else if Key(o, fd) in c.owned {
      AllocatedSteady(s, fd);
      PushError(s.On(c), o);
    } else {
      var c1 := PeerActions(Inserted(c, o, fd), id, stage == Succeeds);
      PeerAdded(s, client, fd, stage == Succeeds);
      if stage == Succeeds {
        LoggedSteady(s.On(c1), Connected(id));
        PushHook(s.On(Logged(c1, Connected(id))));
      } else {
        CloseNextKeeps(s.On(c1), id, o);
      }
    }
  }

  lemma CloseNextKeeps(s: Sys, id: ObjId, o: Owner)
    requires Steady(s) && Calling(s) && s.core.Live(id) && !Busy(s.stack, id)
    ensures Steady(s.Push(CloseNext(id)).Push(RaiseError(o)))
    ensures Steady(s.Push(RaiseError(o)).Push(CloseNext(id)))
  {
    PushKeeps(s, CloseNext(id));
    PushError(s.Push(CloseNext(id)), o);
    PushError(s, o);
    assert s.Push(RaiseError(o)).stack[1..] == s.stack;
    PushKeeps(s.Push(RaiseError(o)), CloseNext(id));
  }

  lemma AcceptKeeps(s: Sys, server: nat, fd: int)
    requires Steady(s) && Calling(s) && Fresh(s.core, fd)
    ensures AcceptClient(s, server, fd).Aborted? ==> fd == 0
    ensures !AcceptClient(s, server, fd).Aborted? ==>
              AcceptClient(s, server, fd).Stepped? && Steady(AcceptClient(s, server, fd).sys)
  {
    var o, c, id := Clients(server), Allocated(s.core, fd), s.core.nextId;
    if fd < 0 {
      PushError(s, o);
    } else if fd != 0 && Key(o, fd) in c.owned {
      AllocatedSteady(s, fd);
      PushError(s.On(c), o);
    } else if fd != 0 {
      var c1 := ClientActions(Inserted(c, o, fd), id);
      InsertedKeeps(s.core, o, fd);
      ClientActionsValid(Inserted(c, o, fd), id);
      ClientEquipped(Inserted(c, o, fd), id, server, fd);
      LoggedValid(c1, Accepted(id));
      AddedGood(s, o, fd, Logged(c1, Accepted(id)));
      PushHook(s.On(Logged(c1, Accepted(id))));
    }
  }

  lemma LoggedValid(c: State, e: Event)
    requires Valid(c)
    ensures Valid(Logged(c, e))
  {
  }

  lemma SendKeeps(s: Sys, id: ObjId, message: seq<SendQueue.byte>, sent: int)
    requires Steady(s) && Calling(s) && s.core.Live(id)
    requires SendQueue.Answer(sent, |message|) && (s.core.heap[id].Open() || sent < 0)
    ensures var s1 := s.On(Sent(s.core, id, message, sent)); Inv(s1) && Inv(PushExec(s1, id, ERROR))
  {
    SentGood(s, id, message, sent);
    PushErrorKeeps(s.On(Sent(s.core, id, message, sent)), id);
  }

  lemma CloseServerKeeps(s: Sys, server: nat)
    requires Steady(s) && Calling(s) && MayDrain(s, Listeners(server)) && MayDrain(s, Clients(server))
    ensures Steady(s.Push(Draining(Listeners(server))).Push(Draining(Clients(server))))
  {
    MayDrainCovers(s, Listeners(server));
    PushKeeps(s, Draining(Listeners(server)));
    MayDrainCovers(s, Clients(server));
    var s1 := s.Push(Draining(Listeners(server)));
    assert s1.stack[1..] == s.stack;
    PushKeeps(s1, Draining(Clients(server)));
  }

  /** The outcome of a step: a state with the invariant, or an assertion failing only where that is said, never
      undefined behaviour. */
  ghost predicate Defined(out: Outcome, acceptedZero: bool) {
    var holds :=
      match out
      case Stepped(u) => Inv(u)
      case Undefined => false
      case Aborted => acceptedZero
      case Ignored => true;
    holds
  }

  lemma UserOpens(s: Sys, ch: Choice)
    requires Steady(s) && Calling(s) && UserMay(s, ch) && (ch.CallListen? || ch.CallConnect?)
    ensures Defined(UserStep(s, ch), false)
  {
    if ch.CallListen? {
      ListenKeeps(s, ch.server, ch.fd, ch.stage);
    } else {
      ConnectKeeps(s, ch.client, ch.fd, ch.stage);
    }
  }

  lemma SendIs(s: Sys, ch: Choice)
    requires ch.CallSend? && s.core.Live(ch.id)
    ensures UserStep(s, ch) ==
            if !SendQueue.Answer(ch.sent, |ch.message|) then Ignored
            else
              var s1 := s.On(Sent(s.core, ch.id, ch.message, ch.sent));
              Stepped(if ch.sent < 0 then PushExec(s1, ch.id, ERROR) else s1)
  {
  }

  lemma UserSends(s: Sys, ch: Choice)
    requires Steady(s) && Calling(s) && UserMay(s, ch) && ch.CallSend?
    ensures Defined(UserStep(s, ch), false)
  {
    SendIs(s, ch);
    if SendQueue.Answer(ch.sent, |ch.message|) {
      SendKeeps(s, ch.id, ch.message, ch.sent);
    }
  }

  lemma CloseClientKeeps(s: Sys, client: nat)
    requires Steady(s) && Calling(s) && MayDrain(s, Peers(client))
    ensures Steady(s.Push(Draining(Peers(client))))
  {
    MayDrainCovers(s, Peers(client));
    PushKeeps(s, Draining(Peers(client)));
  }

  lemma ClosesAre(s: Sys, ch: Choice)
    ensures ch.CallClose? && s.core.Live(ch.id) && s.core.table.Aligned() ==>
              UserStep(s, ch) == Stepped(CloseSocket(s, ch.id))
    ensures ch.CallCloseServer? ==>
              UserStep(s, ch) == Stepped(s.Push(Draining(Listeners(ch.server))).Push(Draining(Clients(ch.server))))
    ensures ch.CallCloseClient? ==> UserStep(s, ch) == Stepped(s.Push(Draining(Peers(ch.client))))
  {
  }

  lemma UserCloses(s: Sys, ch: Choice)
    requires Steady(s) && Calling(s) && UserMay(s, ch) && (ch.CallClose? || ch.CallCloseServer? || ch.CallCloseClient?)
    ensures Defined(UserStep(s, ch), false)
  {
    AlignedIn(s);
    ClosesAre(s, ch);
    match ch
    case CallClose(id) => CloseKeeps(s, id);
    case CallCloseServer(server) => CloseServerKeeps(s, server);
    case CallCloseClient(client) => CloseClientKeeps(s, client);
  }

  lemma RegisterIs(s: Sys, ch: Choice)
    requires ch.CallOn? && s.core.Live(ch.id)
    ensures UserStep(s, ch) == Stepped(s.On(RegisteredOn(s.core, ch.id, ch.tag, Actions.Callback(User, ch.flags))))
  {
  }

  lemma RegisterKeeps(s: Sys, id: ObjId, tag: Tag, flags: Actions.Flags)
    requires Steady(s) && s.core.Live(id) && !Executing(s.stack, id, tag)
    requires tag == READABLE ==> s.core.heap[id].owner.Listeners?
    ensures Inv(s.On(RegisteredOn(s.core, id, tag, Actions.Callback(User, flags))))
  {
    RegisteredGood(s, id, tag, flags);
  }

  lemma UserRegisters(s: Sys, ch: Choice)
    requires Steady(s) && Calling(s) && UserMay(s, ch) && ch.CallOn?
    ensures Defined(UserStep(s, ch), false)
  {
    RegisterIs(s, ch);
    RegisterKeeps(s, ch.id, ch.tag, ch.flags);
  }

  lemma UserStepKeeps(s: Sys, ch: Choice)
    requires Steady(s) && Calling(s) && UserMay(s, ch)
    ensures Defined(UserStep(s, ch), false)
  {
    match ch
    case CallListen(_, _, _) => UserOpens(s, ch);
    case CallConnect(_, _, _) => UserOpens(s, ch);
    case CallSend(_, _, _) => UserSends(s, ch);
    case CallClose(_) => UserCloses(s, ch);
    case CallCloseServer(_) => UserCloses(s, ch);
    case CallCloseClient(_) => UserCloses(s, ch);
    case CallOn(_, _, _) => UserRegisters(s, ch);
    case _ =>
  }

  // ------------------------------------------------------------------------------------------
  // Executions
  // ------------------------------------------------------------------------------------------

  predicate OnTop(s: Sys, id: ObjId, tag: Tag, i: nat, end: nat) {
    s.stack != [] && s.stack[0] == Exec(id, tag, i, end)
  }

  /** What holds while callback `i` is about to run. */
  lemma AtCallback(s: Sys, id: ObjId, tag: Tag, i: nat, end: nat)
    requires Inv(s) && OnTop(s, id, tag, i, end) && i < end
    ensures s.core.Live(id) && |s.core.heap[id].On(tag)| == end
    ensures RoleOk(s.core.heap[id]) && EraseIsLast(s.core.heap[id])
    ensures tag == CLOSED ==> !s.core.heap[id].Open() && !Busy(s.stack[1..], id)
    ensures tag == READABLE ==> s.stack[1..] == [] && Serving(s.poller, AfterRead, id)
    ensures tag == WRITEABLE ==> s.stack[1..] == [] && Serving(s.poller, AfterWrite, id)
    ensures i == 0 && tag in {READABLE, WRITEABLE, RECV} ==> s.core.heap[id].Open()
    ensures i == 0 && tag == WRITEABLE ==> s.core.heap[id].out.queue != []
  {
    assert FrameOk(s.core.heap, s.poller, s.stack[0], s.stack[1..]);
    if i == 0 { assert s.stack[0] in s.stack; assert Starting(s); }
  }

  /** The stack while callback `i` runs: the loop waits for the next one, or has left if this one stops it. */
  function Under(s: Sys, stops: bool): Sys
    requires s.stack != [] && s.stack[0].Exec?
  {
    var f := s.stack[0];
    s.(stack := if stops then s.stack[1..] else [f.(i := f.i + 1)] + s.stack[1..])
  }

  lemma UnderGood(s: Sys, id: ObjId, tag: Tag, i: nat, end: nat, stops: bool)
    requires Inv(s) && OnTop(s, id, tag, i, end) && i < end
    ensures Begun(Under(s, stops).stack) && Calling(Under(s, stops))
    ensures Good(Under(s, stops), if i == 0 && tag == CLOSED then {id} else {})
    ensures tag == CLOSED && i == 0 && !s.core.heap[id].owner.Clients? ==> Good(Under(s, stops), {})
  {
    var closing := if i == 0 && tag == CLOSED then {id} else {};
    GoodAtCallback(s, id, tag, i, end);
    BegunUnder(s, stops);
    if stops { PopGood(s, closing); } else { NextCallbackGood(s, id, tag, i, end, closing); }
    if tag == CLOSED && i == 0 && !s.core.heap[id].owner.Clients? {
      NotAClient(Under(s, stops), id);
    }
  }

  lemma GoodAtCallback(s: Sys, id: ObjId, tag: Tag, i: nat, end: nat)
    requires Inv(s) && OnTop(s, id, tag, i, end) && i < end
    ensures Good(s, if i == 0 && tag == CLOSED then {id} else {})
    ensures Begun(s.stack[1..]) && Calling(s) && s.core.Live(id)
  {
    assert FrameOk(s.core.heap, s.poller, s.stack[0], s.stack[1..]);
    assert forall f :: f in s.stack[1..] ==> f in s.stack;
    if i == 0 { assert s.stack[0] in s.stack; assert Starting(s); }
  }

  lemma BegunUnder(s: Sys, stops: bool)
    requires s.stack != [] && s.stack[0].Exec? && Begun(s.stack[1..])
    ensures Begun(Under(s, stops).stack)
  {
  }

  lemma NextCallbackGood(s: Sys, id: ObjId, tag: Tag, i: nat, end: nat, closing: set<ObjId>)
    requires Good(s, closing) && OnTop(s, id, tag, i, end) && i < end
    ensures Good(Under(s, false), closing)
  {
    var u := Under(s, false);
    assert u.stack[1..] == s.stack[1..];
    assert FrameOk(s.core.heap, s.poller, s.stack[0], s.stack[1..]);
    assert FrameOk(s.core.heap, s.poller, u.stack[0], s.stack[1..]);
  }

  lemma NotAClient(s: Sys, id: ObjId)
    requires Good(s, {id}) && s.core.Live(id) && !s.core.heap[id].owner.Clients?
    ensures Good(s, {})
  {
  }

  lemma PushErrorKeeps(s: Sys, id: ObjId)
    requires Steady(s) && Calling(s) && s.core.Live(id)
    ensures Inv(PushExec(s, id, ERROR))
  {
    StartKeeps(s, id, ERROR);
  }

  lemma EraseKeeps(s: Sys, id: ObjId, i: nat, end: nat)
    requires Inv(s) && OnTop(s, id, CLOSED, i, end) && i < end && s.core.Live(id)
    requires i == |s.core.heap[id].On(CLOSED)| - 1
    requires s.core.heap[id].On(CLOSED)[i] == EraseCallback(s.core.heap[id].owner, s.core.heap[id].key)
    ensures Steady(Under(s, true).On(Erased(s.core, s.core.heap[id].owner, s.core.heap[id].key)))
  {
    AtCallback(s, id, CLOSED, i, end);
    WhichCallback(s.core.heap[id], CLOSED, i);
    UnderGood(s, id, CLOSED, i, end, true);
    ErasedGood(Under(s, true), id);
  }

  /** `recv` once the system call has answered. */
  function AfterRecv(s: Sys, id: ObjId, answer: int): Sys
    requires s.core.Live(id) && s.core.table.Aligned()
  {
    var next :=
      if answer < 0 then PushExec(s, id, ERROR) else if answer == 0 then CloseSocket(s, id) else PushExec(s, id, RECV);
    next
  }

  lemma RecvKeeps(s: Sys, id: ObjId, end: nat, answer: int)
    requires Inv(s) && OnTop(s, id, READABLE, 0, end) && end == 1
    requires s.core.OpenAt(id) || answer < 0
    ensures var u := Under(s, false); u.core.Live(id) && u.core.table.Aligned() && Inv(AfterRecv(u, id, answer))
  {
    var u := UnderRecv(s, id, end);
    ReceiveKeeps(u, id, answer);
  }

  lemma UnderRecv(s: Sys, id: ObjId, end: nat) returns (u: Sys)
    requires Inv(s) && OnTop(s, id, READABLE, 0, end) && end == 1
    ensures u == Under(s, false) && Steady(u) && Calling(u) && u.core.OpenAt(id)
    ensures u.stack == [Exec(id, READABLE, 1, 1)]
  {
    u := Under(s, false);
    AtCallback(s, id, READABLE, 0, end);
    UnderSteady(s, id, READABLE, 0, end, u);
    UnderIs(s, id, u);
  }

  lemma UnderSteady(s: Sys, id: ObjId, tag: Tag, i: nat, end: nat, u: Sys)
    requires Inv(s) && OnTop(s, id, tag, i, end) && i < end && tag != CLOSED && u == Under(s, false)
    ensures Steady(u) && Calling(u)
  {
    UnderGood(s, id, tag, i, end, false);
  }

  lemma UnderIs(s: Sys, id: ObjId, u: Sys)
    requires OnTop(s, id, READABLE, 0, 1) && s.stack[1..] == [] && u == Under(s, false)
    ensures u.core == s.core && u.stack == [Exec(id, READABLE, 1, 1)]
  {
  }

  lemma ReceiveKeeps(s: Sys, id: ObjId, answer: int)
    requires Steady(s) && Calling(s) && s.core.OpenAt(id) && s.stack == [Exec(id, READABLE, 1, 1)]
    ensures s.core.table.Aligned() && Inv(AfterRecv(s, id, answer))
  {
    AlignedIn(s);
    if answer < 0 {
      PushErrorKeeps(s, id);
    } else if answer == 0 {
      StreamEndKeeps(s, id);
    } else {
      DataKeeps(s, id);
    }
  }

  lemma StreamEndKeeps(s: Sys, id: ObjId)
    requires Steady(s) && Calling(s) && s.core.OpenAt(id) && s.core.table.Aligned()
    requires s.stack == [Exec(id, READABLE, 1, 1)]
    ensures Inv(CloseSocket(s, id))
  {
    LastIsFree(s.stack, id);
    CloseKeeps(s, id);
  }

  /** A `recv` that was the last callback does not need its socket any more. */
  lemma LastIsFree(stack: seq<Frame>, id: ObjId)
    requires stack == [Exec(id, READABLE, 1, 1)]
    ensures !Busy(stack, id)
  {
    assert stack[1..] == [];
  }

  lemma DataKeeps(s: Sys, id: ObjId)
    requires Steady(s) && Calling(s) && s.core.OpenAt(id)
    ensures Inv(PushExec(s, id, RECV))
  {
    StartKeeps(s, id, RECV);
    StartingIsInv(PushExec(s, id, RECV));
  }

  lemma RecvIs(s: Sys, id: ObjId, answer: int)
    requires s.core.Live(id) && s.core.table.Aligned()
    ensures Dispatched(s, id, Recv, answer) == Stepped(AfterRecv(s, id, answer))
  {
  }

  lemma FlushKeeps(s: Sys, id: ObjId, end: nat, answer: int)
    requires Inv(s) && OnTop(s, id, WRITEABLE, 0, end) && 0 < end
    requires s.core.OpenAt(id) || answer < 0
    requires s.core.OpenAt(id) ==> s.core.heap[id].out.queue != [] ==>
             SendQueue.Answer(answer, |s.core.heap[id].out.queue[0]|)
    ensures s.core.OpenAt(id) && s.core.heap[id].out.queue != []
    ensures var u := Under(s, false).On(Flushed(s.core, id, answer)); Steady(u) && Inv(PushExec(u, id, ERROR))
  {
    var u := Under(s, false);
    AtCallback(s, id, WRITEABLE, 0, end);
    UnderGood(s, id, WRITEABLE, 0, end, false);
    FlushedGood(u, id, answer);
    PushErrorKeeps(u.On(Flushed(s.core, id, answer)), id);
  }

  /** What a callback that raises an event, or user code, does before user code runs. */
  function Raising(s: Sys, id: ObjId, e: Core.Exec): Sys {
    match e
    case RaiseClosed => s.On(Logged(s.core, Closed(id)))
    case RaiseDisconnect => s.On(Logged(s.core, Disconnected(id)))
    case RaiseReceive => s.On(Logged(s.core, Received(id)))
    case RaisePeerReceive => s.On(Logged(s.core, PeerReceived(id)))
    case _ => s
  }

  predicate Raises(e: Core.Exec) {
    e.RaiseClosed? || e.RaiseDisconnect? || e.RaiseReceive? || e.RaisePeerReceive? || e.User?
  }

  lemma RaiseIs(s: Sys, id: ObjId, e: Core.Exec, answer: int)
    requires Raises(e) && s.core.Live(id) && s.core.table.Aligned()
    ensures Dispatched(s, id, e, answer) == Stepped(Raising(s, id, e).Push(Hook))
    ensures Raising(s, id, e).stack == s.stack && Raising(s, id, e).poller == s.poller
  {
  }

  lemma RaisingIs(s: Sys, id: ObjId)
    ensures Raising(s, id, RaiseDisconnect) == s.On(Logged(s.core, Disconnected(id)))
    ensures Raising(s, id, RaiseReceive) == s.On(Logged(s.core, Received(id)))
    ensures Raising(s, id, RaiseClosed) == s.On(Logged(s.core, Closed(id)))
    ensures Raising(s, id, RaisePeerReceive) == s.On(Logged(s.core, PeerReceived(id)))
    ensures Raising(s, id, User) == s
  {
  }

  lemma RaisingDisconnect(s: Sys, id: ObjId)
    requires s.core.Live(id) && Good(s, {id}) && s.core.heap[id].owner.Clients? && !s.core.heap[id].Open()
    ensures Good(Raising(s, id, RaiseDisconnect), {})
  {
    RaisingIs(s, id);
    DisconnectedGood(s, id);
  }

  lemma RaisingReceive(s: Sys, id: ObjId)
    requires Good(s, {}) && s.core.OpenAt(id) && s.core.heap[id].owner.Clients?
    ensures Good(Raising(s, id, RaiseReceive), {})
  {
    RaisingIs(s, id);
    ReceivedGood(s, id);
  }

  lemma RaisingOther(s: Sys, id: ObjId, e: Core.Exec)
    requires Raises(e) && !e.RaiseDisconnect? && !e.RaiseReceive? && Good(s, {})
    ensures Good(Raising(s, id, e), {})
  {
    RaisingIs(s, id);
    if !e.User? { LoggedGood(s, if e.RaiseClosed? then Closed(id) else PeerReceived(id), {}); }
  }

  lemma RaiseKeeps(s: Sys, id: ObjId, e: Core.Exec, answer: int)
    requires Calling(s) && Begun(s.stack) && s.core.Live(id) && s.core.table.Aligned() && Raises(e)
    requires Good(s, if e.RaiseDisconnect? then {id} else {})
    requires e.RaiseDisconnect? ==> s.core.heap[id].owner.Clients? && !s.core.heap[id].Open()
    requires e.RaiseReceive? ==> s.core.heap[id].owner.Clients? && s.core.heap[id].Open()
    ensures Defined(Dispatched(s, id, e, answer), false)
  {
    RaiseIs(s, id, e, answer);
    if e.RaiseDisconnect? {
      RaisingDisconnect(s, id);
    } else if e.RaiseReceive? {
      RaisingReceive(s, id);
    } else {
      RaisingOther(s, id, e);
    }
    HookGood(Raising(s, id, e));
  }

  lemma HookGood(s: Sys)
    requires Good(s, {}) && Begun(s.stack) && Calling(s)
    ensures Inv(s.Push(Hook))
  {
    assert Steady(s);
    PushHook(s);
  }

  lemma AcceptCallbackKeeps(s: Sys, id: ObjId, tag: Tag, i: nat, end: nat, answer: int, cb: Callback)
    requires Inv(s) && OnTop(s, id, tag, i, end) && i < end
    requires s.core.Live(id) && |s.core.heap[id].On(tag)| == end && s.core.table.Aligned()
    requires cb == s.core.heap[id].On(tag)[i] && Fresh(s.core, answer) && cb.exec.Accept?
    ensures Defined(Dispatched(Under(s, cb.Stops()), id, cb.exec, answer), answer == 0)
  {
    AtCallback(s, id, tag, i, end);
    WhichCallback(s.core.heap[id], tag, i);
    UnderGood(s, id, tag, i, end, cb.Stops());
    AcceptKeeps(Under(s, cb.Stops()), cb.exec.server, answer);
  }

  lemma EraseCallbackKeeps(s: Sys, id: ObjId, tag: Tag, i: nat, end: nat, answer: int, cb: Callback)
    requires Inv(s) && OnTop(s, id, tag, i, end) && i < end
    requires s.core.Live(id) && |s.core.heap[id].On(tag)| == end && s.core.table.Aligned()
    requires cb == s.core.heap[id].On(tag)[i] && cb.exec.Erase?
    ensures Defined(Dispatched(Under(s, cb.Stops()), id, cb.exec, answer), false)
  {
    AtCallback(s, id, tag, i, end);
    WhichCallback(s.core.heap[id], tag, i);
    EraseKeeps(s, id, i, end);
    EraseIs(s, id, answer, cb);
  }

  lemma EraseIs(s: Sys, id: ObjId, answer: int, cb: Callback)
    requires s.stack != [] && s.stack[0].Exec? && s.core.Live(id) && s.core.table.Aligned()
    requires cb == EraseCallback(s.core.heap[id].owner, s.core.heap[id].key)
    ensures Dispatched(Under(s, cb.Stops()), id, cb.exec, answer) ==
            Stepped(Under(s, true).On(Erased(s.core, s.core.heap[id].owner, s.core.heap[id].key)))
  {
  }

  lemma RecvOrFlushKeeps(s: Sys, id: ObjId, tag: Tag, i: nat, end: nat, answer: int, cb: Callback)
    requires Inv(s) && OnTop(s, id, tag, i, end) && i < end
    requires s.core.Live(id) && |s.core.heap[id].On(tag)| == end && s.core.table.Aligned()
    requires cb == s.core.heap[id].On(tag)[i] && KernelMay(s.core, id, cb.exec, answer)
    requires cb.exec.Recv? || cb.exec.Flush?
    ensures Defined(Dispatched(Under(s, cb.Stops()), id, cb.exec, answer), false)
  {
    AtCallback(s, id, tag, i, end);
    WhichCallback(s.core.heap[id], tag, i);
    if cb.exec.Recv? {
      RecvKeeps(s, id, end, answer);
      RecvIs(Under(s, cb.Stops()), id, answer);
    } else if SendQueue.Answer(answer, |s.core.heap[id].out.queue[0]|) {
      FlushKeeps(s, id, end, answer);
    }
  }

  /** One callback, whichever it is. */
  lemma DispatchKeeps(s: Sys, id: ObjId, tag: Tag, i: nat, end: nat, answer: int, cb: Callback)
    requires Inv(s) && OnTop(s, id, tag, i, end) && i < end
    requires s.core.Live(id) && |s.core.heap[id].On(tag)| == end && s.core.table.Aligned()
    requires cb == s.core.heap[id].On(tag)[i] && KernelMay(s.core, id, cb.exec, answer)
    ensures Defined(Dispatched(Under(s, cb.Stops()), id, cb.exec, answer), cb.exec.Accept? && answer == 0)
  {
    if cb.exec.Erase? {
      EraseCallbackKeeps(s, id, tag, i, end, answer, cb);
    } else if cb.exec.Accept? {
      AcceptCallbackKeeps(s, id, tag, i, end, answer, cb);
    } else if cb.exec.Recv? || cb.exec.Flush? {
      RecvOrFlushKeeps(s, id, tag, i, end, answer, cb);
    } else {
      AtCallback(s, id, tag, i, end);
      WhichCallback(s.core.heap[id], tag, i);
      UnderGood(s, id, tag, i, end, cb.Stops());
      RaiseKeeps(Under(s, cb.Stops()), id, cb.exec, answer);
    }
  }

  lemma ExecEnds(s: Sys, id: ObjId, tag: Tag, i: nat, end: nat, answer: int)
    requires OnTop(s, id, tag, i, end) && i >= end
    ensures ExecStep(s, id, tag, i, end, answer) == Stepped(s.(stack := s.stack[1..]))
  {
  }

  lemma ExecIs(s: Sys, id: ObjId, tag: Tag, i: nat, end: nat, answer: int)
    requires OnTop(s, id, tag, i, end) && i < end && s.core.Live(id) && |s.core.heap[id].On(tag)| == end
    requires s.core.table.Aligned()
    ensures var cb := s.core.heap[id].On(tag)[i];
            ExecStep(s, id, tag, i, end, answer) ==
            if cb.Skipped() then Stepped(Under(s, false)) else Dispatched(Under(s, cb.Stops()), id, cb.exec, answer)
  {
  }

  lemma ZeroIs(s: Sys, id: ObjId, tag: Tag, i: nat, end: nat, answer: int)
    requires OnTop(s, id, tag, i, end) && i < end && s.core.Live(id) && |s.core.heap[id].On(tag)| == end
    ensures AcceptsZero(s, Go(answer)) == (s.core.heap[id].On(tag)[i].exec.Accept? && answer == 0)
  {
  }

  lemma ExecKeeps(s: Sys, id: ObjId, tag: Tag, i: nat, end: nat, answer: int)
    requires Inv(s) && OnTop(s, id, tag, i, end)
    requires s.core.Live(id) && i < |s.core.heap[id].On(tag)| ==>
               KernelMay(s.core, id, s.core.heap[id].On(tag)[i].exec, answer)
    ensures Defined(ExecStep(s, id, tag, i, end, answer), AcceptsZero(s, Go(answer)))
  {
    if i >= end {
      ExecEnds(s, id, tag, i, end, answer);
      FinishKeeps(s, id, tag, i, end);
    } else {
      AtCallback(s, id, tag, i, end);
      AlignedIn(s);
      ExecIs(s, id, tag, i, end, answer);
      ZeroIs(s, id, tag, i, end, answer);
      var cb := s.core.heap[id].On(tag)[i];
      if cb.Skipped() {
        SkipKeeps(s, id, tag, i, end);
      } else {
        DispatchKeeps(s, id, tag, i, end, answer, cb);
      }
    }
  }

  lemma SkipKeeps(s: Sys, id: ObjId, tag: Tag, i: nat, end: nat)
    requires Inv(s) && OnTop(s, id, tag, i, end) && i < end
    requires s.core.Live(id) && |s.core.heap[id].On(tag)| == end && s.core.heap[id].On(tag)[i].Skipped()
    ensures Steady(Under(s, false))
  {
    AtCallback(s, id, tag, i, end);
    WhichCallback(s.core.heap[id], tag, i);
    UnderGood(s, id, tag, i, end, false);
  }

  lemma FinishKeeps(s: Sys, id: ObjId, tag: Tag, i: nat, end: nat)
    requires Inv(s) && OnTop(s, id, tag, i, end) && i >= end
    ensures Steady(s.(stack := s.stack[1..]))
  {
    assert FrameOk(s.core.heap, s.poller, s.stack[0], s.stack[1..]);
    assert forall f :: f in s.stack[1..] ==> f in s.stack;
    if Steady(s) { PopKeeps(s); } else { PopGood(s, {}); }
  }

  /** The choice answers an `accept` system call with descriptor 0. */
  predicate AcceptsZero(s: Sys, ch: Choice) {
    && s.stack != [] && s.stack[0].Exec? && ch == Go(0)
    && var f := s.stack[0];
       s.core.Live(f.id) && f.i < f.end && f.i < |s.core.heap[f.id].On(f.tag)| &&
       s.core.heap[f.id].On(f.tag)[f.i].exec.Accept?
  }

  // ------------------------------------------------------------------------------------------
  // Closing loops
  // ------------------------------------------------------------------------------------------

  lemma DrainKeeps(s: Sys, o: Owner)
    requires Inv(s) && s.stack != [] && s.stack[0] == Draining(o)
    ensures DrainStep(s, o).Stepped? && Inv(DrainStep(s, o).sys)
  {
    CallingUnder(s);
    AlignedIn(s);
    SteadyUnlessExec(s);
    if s.core.KeysOf(o) == {} {
      PopKeeps(s);
    } else {
      var k := Key(o, Least(s.core.KeysOf(o)));
      assert k in s.core.owned;
      DrainedIsFree(s, o, k);
      CloseKeeps(s, s.core.owned[k]);
    }
  }

  lemma DrainedIsFree(s: Sys, o: Owner, k: Key)
    requires Steady(s) && s.stack != [] && s.stack[0] == Draining(o) && k in s.core.owned && k.owner == o
    ensures var id := s.core.owned[k]; s.core.Live(id) && (s.core.heap[id].Open() ==> !Busy(s.stack, id))
  {
    assert FrameOk(s.core.heap, s.poller, s.stack[0], s.stack[1..]);
  }

  lemma SteadyUnlessExec(s: Sys)
    requires Inv(s) && (s.stack == [] || !s.stack[0].Exec?)
    ensures Steady(s)
  {
  }

  lemma CloseNextStepKeeps(s: Sys, id: ObjId)
    requires Inv(s) && s.stack != [] && s.stack[0] == CloseNext(id)
    ensures s.core.Live(id) && s.core.table.Aligned()
    ensures Inv(CloseSocket(s.(stack := s.stack[1..]), id))
  {
    CallingUnder(s);
    AlignedIn(s);
    SteadyUnlessExec(s);
    assert FrameOk(s.core.heap, s.poller, s.stack[0], s.stack[1..]);
    PopKeeps(s);
    CloseKeeps(s.(stack := s.stack[1..]), id);
  }

  lemma RaiseErrorKeeps(s: Sys, o: Owner)
    requires Inv(s) && s.stack != [] && s.stack[0] == RaiseError(o)
    ensures Inv(s.On(Logged(s.core, Failed(o))).(stack := [Hook] + s.stack[1..]))
  {
    CallingUnder(s);
    SteadyUnlessExec(s);
    PopKeeps(s);
    LoggedSteady(s.(stack := s.stack[1..]), Failed(o));
    PushHook(s.(stack := s.stack[1..]).On(Logged(s.core, Failed(o))));
  }

  // ------------------------------------------------------------------------------------------
  // The dispatch loop
  // ------------------------------------------------------------------------------------------

  /** A step to a state with the invariant. */
  ghost predicate Fine(out: Outcome) {
    var fine := out.Stepped? && Inv(out.sys);
    fine
  }

  lemma PollerGood(s: Sys, p: Poller)
    requires Good(s, {}) && s.stack == []
    requires PollerOk(p, s.core.table, s.core.nextId) && Waiting(p, s.core.heap)
    ensures Good(s.(poller := p), {})
  {
  }

  /** At entry `i` nothing has changed since the kernel's report: the entry is that of a live object with this
      descriptor. */
  lemma EntryIsLive(s: Sys)
    requires Good(s, {}) && s.poller.Polling? && s.poller.at == s.core.table.changes
    requires s.poller.i < |s.core.table.sockets|
    ensures var i := s.poller.i;
            && i < |s.poller.snap.ptrs| == |s.core.table.ptrs| == |s.core.table.sockets| == |s.poller.snap.sockets|
            && s.core.table.ptrs[i] == s.poller.snap.ptrs[i]
            && s.core.OpenAt(s.core.table.ptrs[i])
            && s.core.heap[s.core.table.ptrs[i]].fd == s.core.table.sockets[i].fd == s.poller.snap.sockets[i].fd
            && s.core.table.sockets[i].revents == s.poller.snap.sockets[i].revents
  {
  }

  lemma WaitingAt(s: Sys)
    requires Good(s, {}) && s.poller.Polling? && s.poller.phase == AfterRead && s.poller.i < |s.poller.snap.ptrs|
    requires s.poller.i < |s.poller.snap.sockets| && POLLOUT in s.poller.snap.sockets[s.poller.i].revents
    requires s.core.Live(s.poller.snap.ptrs[s.poller.i])
    ensures s.core.heap[s.poller.snap.ptrs[s.poller.i]].out.queue != []
  {
    assert ToServe(s.poller, s.poller.i);
  }

  /** No change is hidden: within the counter an equal value means an equal table. */
  lemma CounterTells(s: Sys)
    requires Good(s, {}) && s.poller.Polling? && WithinCounter(s)
    ensures s.core.table.invalid == s.poller.ref <==> s.core.table.changes == s.poller.at
  {
    UnchangedCounter(s.poller.ref, s.core.table.changes - s.poller.at);
  }

  /** At the loop's head the table still has the shape of the report. */
  lemma HeadShape(p: Poller, t: Table, nextId: ObjId)
    requires PollerOk(p, t, nextId) && p.Polling? && p.phase == Head
    ensures |p.snap.sockets| == |t.sockets| && p.at == t.changes
  {
  }

  lemma HeadMoves(p: Poller, t: Table, nextId: ObjId, heap: Heap)
    requires PollerOk(p, t, nextId) && Waiting(p, heap) && p.Polling? && p.phase == Head && p.i < |t.sockets|
    ensures PollerOk(p.(i := p.i + 1), t, nextId) && Waiting(p.(i := p.i + 1), heap)
    ensures var q := p.(ref := t.invalid, at := t.changes, phase := AfterRead);
            PollerOk(q, t, nextId) && Waiting(q, heap)
  {
    HeadShape(p, t, nextId);
    var q := p.(ref := t.invalid, at := t.changes, phase := AfterRead);
    assert forall j :: 0 <= j < |p.snap.ptrs| && ToServe(q, j) ==> ToServe(p, j);
    assert forall j :: 0 <= j < |p.snap.ptrs| && ToServe(p.(i := p.i + 1), j) ==> ToServe(p, j);
  }

  lemma NextEntryKeeps(s: Sys)
    requires Good(s, {}) && s.stack == [] && s.poller.Polling? && s.poller.phase == Head
    requires s.poller.i < |s.core.table.sockets|
    ensures Good(s.(poller := s.poller.(i := s.poller.i + 1)), {})
  {
    HeadMoves(s.poller, s.core.table, s.core.nextId, s.core.heap);
    PollerGood(s, s.poller.(i := s.poller.i + 1));
  }

  function TakeRef(s: Sys): Sys
    requires s.poller.Polling?
  {
    s.(poller := s.poller.(ref := s.core.table.invalid, at := s.core.table.changes, phase := AfterRead))
  }

  lemma TakeRefKeeps(s: Sys)
    requires Good(s, {}) && s.stack == [] && s.poller.Polling? && s.poller.phase == Head
    requires s.poller.i < |s.core.table.sockets|
    ensures Good(TakeRef(s), {})
  {
    HeadMoves(s.poller, s.core.table, s.core.nextId, s.core.heap);
    PollerGood(s, TakeRef(s).poller);
  }

  lemma AfterReadKeeps(s: Sys)
    requires Good(s, {}) && s.stack == [] && s.poller.Polling? && s.poller.phase == AfterRead
    ensures Good(s.(poller := s.poller.(phase := AfterWrite)), {})
  {
    PollerGood(s, s.poller.(phase := AfterWrite));
  }

  lemma AfterWriteKeeps(s: Sys)
    requires Good(s, {}) && s.stack == [] && s.poller.Polling? && s.poller.phase == AfterWrite
    requires s.core.table.changes == s.poller.at
    ensures Good(s.(poller := s.poller.(i := s.poller.i + 1, n := s.poller.n - 1, phase := Head)), {})
  {
    PollerGood(s, s.poller.(i := s.poller.i + 1, n := s.poller.n - 1, phase := Head));
  }

  /** Serving an entry calls the live object whose own descriptor the kernel reported, if it reported the event. */
  lemma ServeKeeps(s: Sys, bit: Bit, tag: Tag, id: ObjId)
    requires Good(s, {}) && s.stack == [] && s.poller.Polling? && s.core.OpenAt(id)
    requires s.poller.i < |s.core.table.sockets| == |s.core.table.ptrs| && s.core.table.ptrs[s.poller.i] == id
    requires tag in {READABLE, WRITEABLE}
    requires tag == WRITEABLE && bit in s.core.table.sockets[s.poller.i].revents ==> s.core.heap[id].out.queue != []
    requires Serving(s.poller, if tag == READABLE then AfterRead else AfterWrite, id)
    ensures Fine(Serve(s, bit, tag))
  {
    ServeIs(s, bit, tag, id);
    if bit in s.core.table.sockets[s.poller.i].revents {
      CallingAfter(s);
      StartKeeps(s, id, tag);
      StartingIsInv(PushExec(s, id, tag));
    } else {
      StillSteady(s);
    }
  }

  lemma ServeIs(s: Sys, bit: Bit, tag: Tag, id: ObjId)
    requires s.poller.Polling? && s.core.Live(id)
    requires s.poller.i < |s.core.table.sockets| == |s.core.table.ptrs| && s.core.table.ptrs[s.poller.i] == id
    ensures Serve(s, bit, tag) == Stepped(if bit in s.core.table.sockets[s.poller.i].revents then PushExec(s, id, tag)
            else s)
  {
  }

  lemma StartingIsInv(s: Sys)
    requires Starting(s)
    ensures Inv(s)
  {
  }

  lemma CallingAfter(s: Sys)
    requires s.stack == [] && s.poller.Polling? && s.poller.phase != Head
    ensures Calling(s) && Begun(s.stack)
  {
  }

  lemma StillSteady(s: Sys)
    requires Good(s, {}) && s.stack == []
    ensures Inv(s)
  {
    assert Steady(s);
  }

  lemma HeadStepKeeps(s: Sys)
    requires Good(s, {}) && s.stack == [] && s.poller.Polling? && s.poller.phase == Head
    ensures Fine(PollStep(s))
  {
    var p, t := s.poller, s.core.table;
    HeadIs(s);
    if p.i >= |t.sockets| {
      LeavesWell(s);
    } else if t.sockets[p.i].revents == {} {
      NextEntryKeeps(s);
      StillSteady(s.(poller := p.(i := p.i + 1)));
    } else {
      ServeReadable(s);
    }
  }

  lemma HeadIs(s: Sys)
    requires s.poller.Polling? && s.poller.phase == Head
    ensures PollStep(s) ==
            if s.poller.i >= |s.core.table.sockets| then Stepped(s.(poller := Idle))
            else if s.core.table.sockets[s.poller.i].revents == {} then
              Stepped(s.(poller := s.poller.(i := s.poller.i + 1)))
            else Serve(TakeRef(s), POLLIN, READABLE)
  {
  }

  lemma ServeReadable(s: Sys)
    requires Good(s, {}) && s.stack == [] && s.poller.Polling? && s.poller.phase == Head
    requires s.poller.i < |s.core.table.sockets|
    ensures Fine(Serve(TakeRef(s), POLLIN, READABLE))
  {
    TakeRefKeeps(s);
    EntryIsLive(s);
    ServeKeeps(TakeRef(s), POLLIN, READABLE, s.core.table.ptrs[s.poller.i]);
  }

  lemma ServeWriteable(s: Sys)
    requires Good(s, {}) && s.stack == [] && s.poller.Polling? && s.poller.phase == AfterRead
    requires s.core.table.changes == s.poller.at
    ensures Fine(Serve(s.(poller := s.poller.(phase := AfterWrite)), POLLOUT, WRITEABLE))
  {
    AfterReadKeeps(s);
    AfterReadIndex(s);
    EntryIsLive(s);
    if POLLOUT in s.core.table.sockets[s.poller.i].revents { WaitingAt(s); }
    ServeKeeps(s.(poller := s.poller.(phase := AfterWrite)), POLLOUT, WRITEABLE, s.core.table.ptrs[s.poller.i]);
  }

  lemma AfterReadIndex(s: Sys)
    requires Good(s, {}) && s.poller.Polling? && s.poller.phase != Head && s.core.table.changes == s.poller.at
    ensures s.poller.i < |s.core.table.sockets|
  {
  }

  /** While the number of changes is that of the moment the counter was taken, nothing was edited since the report. */
  lemma NoEditSince(s: Sys)
    requires Good(s, {}) && s.poller.Polling?
    ensures s.core.table.changes == s.poller.at ==> s.core.table.edits == s.poller.snap.edits
  {
  }

  lemma AfterReadStepKeeps(s: Sys)
    requires Good(s, {}) && s.stack == [] && s.poller.Polling? && s.poller.phase == AfterRead
    requires s.core.table.invalid == s.poller.ref <==> s.core.table.changes == s.poller.at
    ensures Fine(PollStep(s))
  {
    if s.core.table.invalid != s.poller.ref {
      LeavesWell(s);
    } else {
      ServeWriteable(s);
    }
  }

  lemma AfterWriteIs(s: Sys)
    requires s.poller.Polling? && s.poller.phase == AfterWrite
    requires s.core.table.invalid == s.poller.ref ==> s.core.table.edits == s.poller.snap.edits
    ensures PollStep(s) ==
            Stepped(if s.poller.n - 1 == 0 || s.core.table.invalid != s.poller.ref then s.(poller := Idle)
                    else s.(poller := s.poller.(i := s.poller.i + 1, n := s.poller.n - 1, phase := Head)))
  {
  }

  lemma LeavesWell(s: Sys)
    requires Good(s, {}) && s.stack == []
    ensures Inv(s.(poller := Idle))
  {
    PollerGood(s, Idle);
    StillSteady(s.(poller := Idle));
  }

  lemma AfterWriteStepKeeps(s: Sys)
    requires Good(s, {}) && s.stack == [] && s.poller.Polling? && s.poller.phase == AfterWrite
    requires s.core.table.invalid == s.poller.ref <==> s.core.table.changes == s.poller.at
    ensures Fine(PollStep(s))
  {
    NoEditSince(s);
    AfterWriteIs(s);
    if s.poller.n - 1 == 0 || s.core.table.invalid != s.poller.ref {
      LeavesWell(s);
    } else {
      AfterWriteKeeps(s);
      StillSteady(s.(poller := s.poller.(i := s.poller.i + 1, n := s.poller.n - 1, phase := Head)));
    }
  }

  lemma PollKeeps(s: Sys)
    requires Inv(s) && s.stack == [] && s.poller.Polling? && WithinCounter(s)
    ensures Fine(PollStep(s))
  {
    SteadyUnlessExec(s);
    CounterTells(s);
    match s.poller.phase
    case Head => HeadStepKeeps(s);
    case AfterRead => AfterReadStepKeeps(s);
    case AfterWrite => AfterWriteStepKeeps(s);
  }

  // Starting a pass ---------------------------------------------------------------------------

  lemma ReportedValid(c: State, reported: seq<Mask>)
    requires Valid(c) && |reported| == |c.table.sockets|
    ensures Valid(c.(table := Dispatch.Report(c.table, reported)))
  {
    var u := c.(table := Dispatch.Report(c.table, reported));
    SameFds(c, u);
    SameSearch(c.table.sockets, u.table.sockets);
  }

  lemma ReportedWaiting(c: State, reported: seq<Mask>, p: Poller)
    requires Valid(c) && |reported| == |c.table.sockets|
    requires forall i :: 0 <= i < |reported| && POLLOUT in reported[i] ==> POLLOUT in c.table.sockets[i].events
    requires p.Polling? && p.snap == Dispatch.Report(c.table, reported)
    ensures Waiting(p, c.heap)
  {
    TableWellFormed(c);
    forall j | 0 <= j < |p.snap.ptrs| && ToServe(p, j) && p.snap.ptrs[j] in c.heap
      ensures c.heap[p.snap.ptrs[j]].out.queue != []
    {
      var id := c.table.ptrs[j];
      assert OpenIn(c.heap, id) && c.heap[id].fd == c.table.sockets[j].fd;
      SearchIs(c.table.sockets, c.heap[id].fd, j);
      assert WantsWrite(c.table, c.heap[id].fd);
      assert SendQueue.Sound(c.heap[id].out);
    }
  }

  lemma ReportedTracked(s: Sys, t: Table, p: Poller)
    requires Tracked(s, {}) && s.stack == [] && Waiting(p, s.core.heap)
    requires PollerOk(p, t, s.core.nextId)
    ensures Tracked(Sys(s.core.(table := t), [], p), {})
  {
  }

  lemma ReportedPoller(c: State, t: Table)
    requires Valid(c) && t.ptrs == c.table.ptrs && |t.sockets| == |c.table.sockets|
    ensures PollerOk(Polling(0, Dispatch.ReadyCount(t, 0), t.invalid, t.changes, Head, t), t, c.nextId)
  {
    assert HandlerMatches(c.table, c.heap) && ContainersMatch(c.heap, c.owned, c.nextId);
    forall j | 0 <= j < |t.ptrs| ensures t.ptrs[j] < c.nextId {
      assert OpenIn(c.heap, t.ptrs[j]);
    }
  }

  lemma StartPollKeeps(s: Sys, reported: seq<Mask>)
    requires Inv(s) && s.stack == [] && Allowed(s, CallPoll(reported)) && s.poller.Idle?
    ensures Defined(StartPoll(s, reported), false)
  {
    SteadyUnlessExec(s);
    if |reported| == |s.core.table.sockets| && s.core.table.sockets != [] {
      var t := Dispatch.Report(s.core.table, reported);
      var p := Polling(0, Dispatch.ReadyCount(t, 0), t.invalid, t.changes, Head, t);
      ReportedValid(s.core, reported);
      ReportedWaiting(s.core, reported, p);
      ReportedPoller(s.core, t);
      ReportedTracked(s, t, p);
    }
  }

  // ------------------------------------------------------------------------------------------
  // Any step
  // ------------------------------------------------------------------------------------------

  /** From a state with the invariant, every allowed choice is defined, keeps the invariant, and aborts only where the
      kernel answers an accept with descriptor 0. */
  lemma StepKeeps(s: Sys, ch: Choice)
    requires Inv(s) && WithinCounter(s) && Allowed(s, ch)
    ensures Defined(Step(s, ch), AcceptsZero(s, ch))
  {
    if s.stack == [] {
      TopLevelKeeps(s, ch);
    } else {
      match s.stack[0]
      case Hook => HookKeeps(s, ch);
      case Exec(id, tag, i, end) =>
        if ch.Go? { ExecKeeps(s, id, tag, i, end, ch.answer); }
      case Draining(o) =>
        if ch.Go? { DrainKeeps(s, o); }
      case CloseNext(id) =>
        if ch.Go? { CloseNextStepKeeps(s, id); }
      case RaiseError(o) =>
        if ch.Go? { RaiseErrorKeeps(s, o); }
    }
  }

  lemma HookKeeps(s: Sys, ch: Choice)
    requires Inv(s) && s.stack != [] && s.stack[0].Hook? && UserMay(s, ch)
    ensures Defined(if ch.Return? then Stepped(s.(stack := s.stack[1..])) else UserStep(s, ch), false)
  {
    CallingUnder(s);
    SteadyUnlessExec(s);
    if ch.Return? {
      PopKeeps(s);
    } else {
      UserStepKeeps(s, ch);
    }
  }

  lemma TopLevelKeeps(s: Sys, ch: Choice)
    requires Inv(s) && WithinCounter(s) && Allowed(s, ch) && s.stack == []
    ensures Defined(Step(s, ch), false)
  {
    if s.poller.Polling? {
      if ch.Go? { PollKeeps(s); }
    } else if ch.CallPoll? {
      StartPollKeeps(s, ch.reported);
    } else {
      SteadyUnlessExec(s);
      UserStepKeeps(s, ch);
    }
  }

  /** A descriptor 0 answered to an accept aborts the program: the assertion of `make_socket` fails. */
  lemma ZeroAborts(s: Sys, ch: Choice)
    requires Inv(s) && AcceptsZero(s, ch)
    ensures Step(s, ch).Aborted?
  {
    var f := s.stack[0];
    AtCallback(s, f.id, f.tag, f.i, f.end);
    AlignedIn(s);
    WhichCallback(s.core.heap[f.id], f.tag, f.i);
    ExecIs(s, f.id, f.tag, f.i, f.end, 0);
  }
}
