/** The invariant of the machine, step by step. */
module Preservation {
  import opened PollHandler
  import opened Core
  import opened Machine
  import opened Safety
  import Actions
  import SendQueue

  // ------------------------------------------------------------------------------------------
  // Frames and states
  // ------------------------------------------------------------------------------------------

  /** Callbacks run only between the dispatch loop's visits to its head. */
  predicate Calling(s: Sys) {
    s.poller.Polling? ==> s.poller.phase != Head
  }

  lemma PushKeeps(s: Sys, f: Frame)
    requires Steady(s) && Calling(s)
    requires FrameOk(s.core.heap, s.poller, f, s.stack) && (f.Exec? ==> f.i >= 1)
    ensures Steady(s.Push(f))
  {
    assert s.Push(f).stack[1..] == s.stack;
  }

  lemma MayDrainCovers(s: Sys, o: Owner)
    requires Valid(s.core) && MayDrain(s, o)
    ensures FrameOk(s.core.heap, s.poller, Draining(o), s.stack)
  {
    forall id: ObjId | id in s.core.heap && Busy(s.stack, id) && s.core.heap[id].owner == o
      ensures !s.core.heap[id].Open()
    {
      var k := Key(o, s.core.heap[id].key);
      assert k in s.core.owned && s.core.owned[k] == id;
    }
  }

  lemma {:induction false} ListsOfPinned(heap: Heap, p: Poller, stack: seq<Frame>)
    requires StackOk(heap, p, stack)
    ensures forall f :: f in stack && f.Exec? && f.i < f.end ==>
              f.id in heap && |heap[f.id].On(f.tag)| == f.end && Busy(stack, f.id)
    decreases |stack|
  {
    if stack != [] {
      ListsOfPinned(heap, p, stack[1..]);
      forall f | f in stack && f.Exec? && f.i < f.end
        ensures f.id in heap && |heap[f.id].On(f.tag)| == f.end && Busy(stack, f.id)
      {
        if f == stack[0] { assert Pins(f, f.id); } else { assert f in stack[1..]; }
      }
    }
  }

  /** One object replaced: same container, not reopened, and no list that is executing changes its length. */
  predicate Replaceable(sock: Sock, sock': Sock) {
    sock.owner == sock'.owner && (sock'.Open() ==> sock.Open())
  }

  lemma StackReplaced(heap: Heap, p: Poller, stack: seq<Frame>, id: ObjId, sock: Sock)
    requires StackOk(heap, p, stack) && id in heap && Replaceable(heap[id], sock)
    requires forall tag :: !Executing(stack, id, tag) || |sock.On(tag)| == |heap[id].On(tag)|
    ensures StackOk(heap[id := sock], p, stack)
  {
    ListsOfPinned(heap, p, stack);
    forall k: ObjId | Busy(stack, k) ensures k in heap { BusyIsLive(heap, p, stack, k); }
    forall f | f in stack && f.Exec? && f.i < f.end ensures |heap[id := sock][f.id].On(f.tag)| == f.end {
      if f.id == id { assert Executing(stack, id, f.tag); }
    }
    StackKeeps(heap, heap[id := sock], p, stack);
  }

  lemma StackAdded(heap: Heap, p: Poller, stack: seq<Frame>, id: ObjId, sock: Sock)
    requires StackOk(heap, p, stack) && id !in heap
    ensures StackOk(heap[id := sock], p, stack)
    ensures !Busy(stack, id)
  {
    ListsOfPinned(heap, p, stack);
    forall k: ObjId | Busy(stack, k) ensures k in heap { BusyIsLive(heap, p, stack, k); }
    StackKeeps(heap, heap[id := sock], p, stack);
  }

  lemma StackErased(heap: Heap, p: Poller, stack: seq<Frame>, id: ObjId)
    requires StackOk(heap, p, stack) && !Busy(stack, id)
    ensures StackOk(heap - {id}, p, stack)
  {
    ListsOfPinned(heap, p, stack);
    forall k: ObjId | Busy(stack, k) ensures k in heap { BusyIsLive(heap, p, stack, k); }
    StackKeeps(heap, heap - {id}, p, stack);
  }

  lemma RolesReplaced(heap: Heap, id: ObjId, sock: Sock)
    requires Roles(heap) && RoleOk(sock)
    ensures Roles(heap[id := sock])
  {
  }

  lemma WaitingReplaced(p: Poller, heap: Heap, id: ObjId, sock: Sock)
    requires Waiting(p, heap)
    requires id in heap ==> (heap[id].out.queue != [] ==> sock.out.queue != []) || Serving(p, AfterWrite, id)
    requires id !in heap ==> p.Polling? ==> id !in p.snap.ptrs
    requires p.Polling? ==> p.snap.Aligned() && DistinctPtrs(p.snap.ptrs)
    ensures Waiting(p, heap[id := sock])
  {
  }

  /** `sock` replaces `id`, open as before or just shut. */
  lemma LivesReplaced(log: seq<Event>, heap: Heap, nextId: ObjId, closing: set<ObjId>, id: ObjId, sock: Sock)
    requires Lives(log, heap, nextId, closing) && id in heap && Replaceable(heap[id], sock)
    ensures Lives(log, heap[id := sock], nextId, if sock.Open() == heap[id].Open() then closing else closing + {id})
  {
  }

  lemma SameLives(log: seq<Event>, log': seq<Event>, heap: Heap, nextId: ObjId, closing: set<ObjId>)
    requires Lives(log, heap, nextId, closing)
    requires forall k: ObjId :: LifeOf(log', k) == LifeOf(log, k)
    ensures Lives(log', heap, nextId, closing)
  {
  }

  lemma QuietEvent(log: seq<Event>, e: Event)
    requires !e.Accepted? && !e.Received? && !e.Disconnected?
    ensures forall k: ObjId :: LifeOf(log + [e], k) == LifeOf(log, k)
  {
    forall k: ObjId ensures LifeOf(log + [e], k) == LifeOf(log, k) {
      LifeAfter(log, e, k);
    }
  }

  // ------------------------------------------------------------------------------------------
  // Each update of the state
  // ------------------------------------------------------------------------------------------

  lemma AllocatedGood(s: Sys, fd: int, closing: set<ObjId>)
    requires Good(s, closing)
    ensures Good(s.On(Allocated(s.core, fd)), closing)
  {
  }

  /** An event that is nobody's conversation. */
  lemma LoggedGood(s: Sys, e: Event, closing: set<ObjId>)
    requires Good(s, closing) && !e.Accepted? && !e.Received? && !e.Disconnected?
    ensures Good(s.On(Logged(s.core, e)), closing)
  {
    QuietEvent(s.core.log, e);
    SameLives(s.core.log, s.core.log + [e], s.core.heap, s.core.nextId, closing);
  }

  lemma DisconnectedGood(s: Sys, id: ObjId)
    requires Good(s, {id}) && s.core.Live(id) && s.core.heap[id].owner.Clients? && !s.core.heap[id].Open()
    ensures Good(s.On(Logged(s.core, Disconnected(id))), {})
  {
    DisconnectedLives(s.core.log, s.core.heap, s.core.nextId, id);
  }

  lemma DisconnectedLives(log: seq<Event>, heap: Heap, nextId: ObjId, id: ObjId)
    requires Lives(log, heap, nextId, {id}) && id in heap && heap[id].owner.Clients? && !heap[id].Open()
    requires id < nextId
    ensures Lives(log + [Disconnected(id)], heap, nextId, {})
  {
    forall k: ObjId ensures LifeOf(log + [Disconnected(id)], k) == if k == id then Gone else LifeOf(log, k) {
      LifeAfter(log, Disconnected(id), k);
    }
  }

  lemma ReceivedGood(s: Sys, id: ObjId)
    requires Good(s, {}) && s.core.OpenAt(id) && s.core.heap[id].owner.Clients?
    ensures Good(s.On(Logged(s.core, Received(id))), {})
  {
    ReceivedLives(s.core.log, s.core.heap, s.core.nextId, id);
  }

  lemma ReceivedLives(log: seq<Event>, heap: Heap, nextId: ObjId, id: ObjId)
    requires Lives(log, heap, nextId, {}) && OpenIn(heap, id) && heap[id].owner.Clients?
    ensures Lives(log + [Received(id)], heap, nextId, {})
  {
    forall k: ObjId ensures LifeOf(log + [Received(id)], k) == LifeOf(log, k) {
      LifeAfter(log, Received(id), k);
    }
    SameLives(log, log + [Received(id)], heap, nextId, {});
  }

  lemma RegisteredGood(s: Sys, id: ObjId, tag: Tag, flags: Actions.Flags)
    requires Good(s, {}) && s.core.Live(id) && !Executing(s.stack, id, tag)
    requires tag == READABLE ==> s.core.heap[id].owner.Listeners?
    ensures Good(s.On(RegisteredOn(s.core, id, tag, Actions.Callback(User, flags))), {})
  {
    RegisteredKeeps(s.core, id, tag, Actions.Callback(User, flags));
    RegisteredTracked(s, id, tag, flags);
  }

  lemma RegisteredTracked(s: Sys, id: ObjId, tag: Tag, flags: Actions.Flags)
    requires Tracked(s, {}) && s.core.Live(id) && !Executing(s.stack, id, tag)
    requires tag == READABLE ==> s.core.heap[id].owner.Listeners?
    ensures Tracked(s.On(RegisteredOn(s.core, id, tag, Actions.Callback(User, flags))), {})
  {
    var sock := s.core.heap[id].With(tag, Actions.Callback(User, flags));
    RoleKept(s.core.heap[id], tag, flags);
    WithOthers(s.core.heap[id], tag, Actions.Callback(User, flags));
    ReplacedTracked(s, id, sock, s.core.table, {});
  }

  lemma WithOthers(sock: Sock, tag: Tag, cb: Callback)
    ensures forall t :: t != tag ==> sock.With(tag, cb).On(t) == sock.On(t)
    ensures Replaceable(sock, sock.With(tag, cb)) && sock.With(tag, cb).out == sock.out
  {
  }

  /** One object replaced, and the table by one of its shape. */
  lemma ReplacedTracked(s: Sys, id: ObjId, sock: Sock, t: Table, closing: set<ObjId>)
    requires Tracked(s, closing) && s.core.Live(id)
    requires Replaceable(s.core.heap[id], sock) && RoleOk(sock)
    requires forall tag :: !Executing(s.stack, id, tag) || |sock.On(tag)| == |s.core.heap[id].On(tag)|
    requires (s.core.heap[id].out.queue != [] ==> sock.out.queue != []) || Serving(s.poller, AfterWrite, id)
    requires t == s.core.table || (TableStep(s.core.table, t) && Calling(s))
    ensures Tracked(s.On(s.core.(heap := s.core.heap[id := sock], table := t)),
                    if sock.Open() == s.core.heap[id].Open() then closing else closing + {id})
  {
    RolesReplaced(s.core.heap, id, sock);
    StackReplaced(s.core.heap, s.poller, s.stack, id, sock);
    WaitingReplaced(s.poller, s.core.heap, id, sock);
    LivesReplaced(s.core.log, s.core.heap, s.core.nextId, closing, id, sock);
    if t != s.core.table {
      PollerKeeps(s.poller, s.core.table, t, s.core.nextId, s.core.nextId);
    }
  }

  /** One socket's stream is replaced, and perhaps its interest bit. */
  lemma StreamGood(s: Sys, id: ObjId, out: SendQueue.Stream<SendQueue.byte>, t: Table)
    requires Good(s, {}) && Calling(s) && s.core.Live(id)
    requires Valid(WithStream(s.core, id, out, t))
    requires t == s.core.table || t == SetInterest(s.core.table, s.core.heap[id].fd, POLLOUT, out.want)
    requires (s.core.heap[id].out.queue != [] ==> out.queue != []) || Serving(s.poller, AfterWrite, id)
    ensures Good(s.On(WithStream(s.core, id, out, t)), {})
  {
    StreamTracked(s, id, out, t);
  }

  lemma StreamTracked(s: Sys, id: ObjId, out: SendQueue.Stream<SendQueue.byte>, t: Table)
    requires Tracked(s, {}) && Calling(s) && s.core.Live(id)
    requires t == s.core.table || t == SetInterest(s.core.table, s.core.heap[id].fd, POLLOUT, out.want)
    requires (s.core.heap[id].out.queue != [] ==> out.queue != []) || Serving(s.poller, AfterWrite, id)
    ensures Tracked(s.On(WithStream(s.core, id, out, t)), {})
  {
    RoleOfSame(s.core.heap[id], s.core.heap[id].(out := out));
    InterestShape(s.core.table, s.core.heap[id].fd, POLLOUT, out.want);
    ReplacedTracked(s, id, s.core.heap[id].(out := out), t, {});
  }

  lemma SentIs(c: State, id: ObjId, message: seq<SendQueue.byte>, sent: int)
    requires c.Live(id) && SendQueue.Answer(sent, |message|)
    ensures var d := Sent(c, id, message, sent);
            && d.Live(id) && d == WithStream(c, id, d.heap[id].out, d.table)
            && (d.table == c.table || d.table == SetInterest(c.table, c.heap[id].fd, POLLOUT, d.heap[id].out.want))
            && (c.heap[id].out.queue != [] ==> d.heap[id].out.queue != [])
  {
  }

  lemma SentGood(s: Sys, id: ObjId, message: seq<SendQueue.byte>, sent: int)
    requires Good(s, {}) && Calling(s) && s.core.Live(id)
    requires SendQueue.Answer(sent, |message|) && (sent >= 0 ==> s.core.heap[id].Open())
    ensures Good(s.On(Sent(s.core, id, message, sent)), {})
  {
    var c := Sent(s.core, id, message, sent);
    SentKeeps(s.core, id, message, sent);
    SentIs(s.core, id, message, sent);
    StreamGood(s, id, c.heap[id].out, c.table);
  }

  lemma FlushedIs(c: State, id: ObjId, sent: int)
    requires c.Live(id) && SendQueue.Possible(c.heap[id].out, SendQueue.OpFlush(sent))
    ensures var d := Flushed(c, id, sent);
            && d.Live(id) && d == WithStream(c, id, d.heap[id].out, d.table)
            && (d.table == c.table || d.table == SetInterest(c.table, c.heap[id].fd, POLLOUT, d.heap[id].out.want))
  {
  }

  lemma FlushedGood(s: Sys, id: ObjId, sent: int)
    requires Good(s, {}) && s.core.Live(id) && Serving(s.poller, AfterWrite, id)
    requires SendQueue.Possible(s.core.heap[id].out, SendQueue.OpFlush(sent)) && (sent >= 0 ==> s.core.heap[id].Open())
    ensures Good(s.On(Flushed(s.core, id, sent)), {})
  {
    var c := Flushed(s.core, id, sent);
    FlushedKeeps(s.core, id, sent);
    FlushedIs(s.core, id, sent);
    StreamGood(s, id, c.heap[id].out, c.table);
  }

  lemma ShutGood(s: Sys, id: ObjId)
    requires Good(s, {}) && Calling(s) && s.core.OpenAt(id)
    ensures Good(s.On(Shut(s.core, id)), {id})
  {
    ShutKeeps(s.core, id);
    ShutTracked(s, id);
  }

  lemma ShutTracked(s: Sys, id: ObjId)
    requires Tracked(s, {}) && Calling(s) && s.core.OpenAt(id) && s.core.table.Aligned()
    ensures Tracked(s.On(Shut(s.core, id)), {id})
  {
    var c, sock := Shut(s.core, id), s.core.heap[id].(fd := -1);
    RoleOfSame(s.core.heap[id], sock);
    ReplacedTracked(s, id, sock, c.table, {});
    ShutLog(s.core.log, c, id, s.core.heap[id].fd);
  }

  lemma ShutLog(log: seq<Event>, c: State, id: ObjId, fd: int)
    requires Lives(log, c.heap, c.nextId, {id}) && c.log == log + [SysClose(id, fd)]
    ensures Lives(c.log, c.heap, c.nextId, {id})
  {
    QuietEvent(log, SysClose(id, fd));
    SameLives(log, c.log, c.heap, c.nextId, {id});
  }

  lemma ErasedGood(s: Sys, id: ObjId)
    requires Good(s, {}) && s.core.Live(id) && !s.core.heap[id].Open() && !Busy(s.stack, id)
    ensures Good(s.On(Erased(s.core, s.core.heap[id].owner, s.core.heap[id].key)), {})
  {
    ErasedKeeps(s.core, id);
    StackErased(s.core.heap, s.poller, s.stack, id);
    ErasedLives(s.core.log, s.core.heap, s.core.nextId, id);
  }

  lemma ErasedLives(log: seq<Event>, heap: Heap, nextId: ObjId, id: ObjId)
    requires Lives(log, heap, nextId, {}) && id in heap && !heap[id].Open()
    ensures Lives(log, heap - {id}, nextId, {})
  {
  }

  // ------------------------------------------------------------------------------------------
  // New sockets
  // ------------------------------------------------------------------------------------------

  lemma FirstRegistrations(e: Callback, x: Core.Exec)
    requires e.Queued()
    ensures Actions.Insert([e], Plain(x)) == [Plain(x), e]
    ensures Actions.Insert([], Plain(x)) == [Plain(x)]
  {
    assert Actions.InsertPosition([e]) == 0;
  }

  /** A new object after the library's own registrations: only its lists differ. */
  predicate Equipped(c: State, c': State, id: ObjId) {
    && c.Live(id) && c'.Live(id)
    && c' == c.(heap := c.heap[id := c'.heap[id]])
    && c'.heap[id] == c.heap[id].(lists := c'.heap[id].lists)
    && RoleOk(c'.heap[id])
  }

  lemma ListenerEquipped(c: State, id: ObjId, server: nat, fd: int, ready: bool)
    requires c.Live(id) && c.heap[id] == NewSock(Listeners(server), fd)
    ensures Equipped(c, ListenerActions(c, id, server, ready), id)
  {
    FirstRegistrations(EraseCallback(Listeners(server), fd), RaiseClosed);
    FirstRegistrations(EraseCallback(Listeners(server), fd), Accept(server));
    var sock := ListenerActions(c, id, server, ready).heap[id];
    assert sock.On(CLOSED) == [Plain(RaiseClosed), EraseCallback(Listeners(server), fd)];
    assert sock.On(READABLE) == if ready then [Plain(Accept(server))] else [];
    assert sock.On(WRITEABLE) == [] && sock.On(RECV) == [] && sock.On(ERROR) == [];
  }

  lemma ClientEquipped(c: State, id: ObjId, server: nat, fd: int)
    requires c.Live(id) && c.heap[id] == NewSock(Clients(server), fd)
    ensures Equipped(c, ClientActions(c, id), id)
  {
    var e := EraseCallback(Clients(server), fd);
    FirstRegistrations(e, Recv);
    FirstRegistrations(e, Flush);
    FirstRegistrations(e, RaiseDisconnect);
    FirstRegistrations(e, RaiseReceive);
    var sock := ClientActions(c, id).heap[id];
    assert sock.On(CLOSED) == [Plain(RaiseDisconnect), e];
    assert sock.On(READABLE) == [Plain(Recv)] && sock.On(WRITEABLE) == [Plain(Flush)];
    assert sock.On(RECV) == [Plain(RaiseReceive)] && sock.On(ERROR) == [];
  }

  lemma PeerEquipped(c: State, id: ObjId, client: nat, fd: int, ready: bool)
    requires c.Live(id) && c.heap[id] == NewSock(Peers(client), fd)
    ensures Equipped(c, PeerActions(c, id, ready), id)
  {
    var e := EraseCallback(Peers(client), fd);
    FirstRegistrations(e, RaiseClosed);
    FirstRegistrations(e, Recv);
    FirstRegistrations(e, RaisePeerReceive);
    var sock := PeerActions(c, id, ready).heap[id];
    assert sock.On(CLOSED) == [Plain(RaiseClosed), e];
    assert sock.On(READABLE) == if ready then [Plain(Recv)] else [];
    assert sock.On(RECV) == if ready then [Plain(RaisePeerReceive)] else [];
    assert sock.On(WRITEABLE) == [] && sock.On(ERROR) == [];
  }

  lemma ActionsValid(c: State, id: ObjId, server: nat, ready: bool)
    requires Valid(c) && c.Live(id)
    ensures Valid(ListenerActions(c, id, server, ready))
    ensures Valid(ClientActions(c, id))
    ensures Valid(PeerActions(c, id, ready))
  {
    RegisteredKeeps(c, id, CLOSED, Plain(RaiseClosed));
    var c1 := RegisteredOn(c, id, CLOSED, Plain(RaiseClosed));
    RegisteredKeeps(c1, id, READABLE, Plain(Accept(server)));
    RegisteredKeeps(c1, id, READABLE, Plain(Recv));
    RegisteredKeeps(RegisteredOn(c1, id, READABLE, Plain(Recv)), id, RECV, Plain(RaisePeerReceive));
    ClientActionsValid(c, id);
  }

  lemma ClientActionsValid(c: State, id: ObjId)
    requires Valid(c) && c.Live(id)
    ensures Valid(ClientActions(c, id))
  {
    RegisteredKeeps(c, id, READABLE, Plain(Recv));
    var c1 := RegisteredOn(c, id, READABLE, Plain(Recv));
    RegisteredKeeps(c1, id, WRITEABLE, Plain(Flush));
    var c2 := RegisteredOn(c1, id, WRITEABLE, Plain(Flush));
    RegisteredKeeps(c2, id, CLOSED, Plain(RaiseDisconnect));
    RegisteredKeeps(RegisteredOn(c2, id, CLOSED, Plain(RaiseDisconnect)), id, RECV, Plain(RaiseReceive));
  }

  lemma NextIsFree(c: State)
    requires Valid(c)
    ensures c.nextId !in c.heap
  {
  }

  /** A new object in the heap and the handler, and its event in the log if it is a server's client. */
  lemma AddedTracked(s: Sys, c: State)
    requires Tracked(s, {}) && Calling(s) && s.core.nextId !in s.core.heap && c.Live(s.core.nextId)
    requires c.heap == s.core.heap[s.core.nextId := c.heap[s.core.nextId]]
    requires c.heap[s.core.nextId].Open() && RoleOk(c.heap[s.core.nextId])
    requires TableStep(s.core.table, c.table) && c.nextId == s.core.nextId + 1
    requires c.log == if c.heap[s.core.nextId].owner.Clients? then s.core.log + [Accepted(s.core.nextId)]
             else s.core.log
    ensures Tracked(s.On(c), {}) && !Busy(s.stack, s.core.nextId)
  {
    var id := s.core.nextId;
    RolesReplaced(s.core.heap, id, c.heap[id]);
    StackAdded(s.core.heap, s.poller, s.stack, id, c.heap[id]);
    WaitingReplaced(s.poller, s.core.heap, id, c.heap[id]);
    PollerKeeps(s.poller, s.core.table, c.table, id, c.nextId);
    AddedLives(s.core.log, s.core.heap, id, c.heap[id]);
  }

  lemma AddedLives(log: seq<Event>, heap: Heap, id: ObjId, sock: Sock)
    requires Lives(log, heap, id, {}) && id !in heap && sock.Open()
    ensures Lives(if sock.owner.Clients? then log + [Accepted(id)] else log, heap[id := sock], id + 1, {})
  {
    forall k: ObjId ensures LifeOf(log + [Accepted(id)], k) == if k == id then Talking else LifeOf(log, k) {
      LifeAfter(log, Accepted(id), k);
    }
  }

  /** The state after `make_socket` of `fd` in container `o` and the registrations that follow it. */
  predicate Added(s: State, o: Owner, fd: int, c: State) {
    var c0 := Inserted(Allocated(s, fd), o, fd);
    && Equipped(c0, c.(log := c0.log), s.nextId)
    && c.log == if o.Clients? then s.log + [Accepted(s.nextId)] else s.log
  }

  lemma AddedFacts(s: State, o: Owner, fd: int, c: State)
    requires Added(s, o, fd, c)
    ensures c.Live(s.nextId) && c.heap == s.heap[s.nextId := c.heap[s.nextId]] && c.nextId == s.nextId + 1
    ensures c.heap[s.nextId].owner == o && c.heap[s.nextId].fd == fd && RoleOk(c.heap[s.nextId])
    ensures TableStep(s.table, c.table)
  {
  }

  lemma AddedGood(s: Sys, o: Owner, fd: int, c: State)
    requires Good(s, {}) && Calling(s) && fd >= 0 && Added(s.core, o, fd, c) && Valid(c)
    ensures Good(s.On(c), {}) && !Busy(s.stack, s.core.nextId)
  {
    NextIsFree(s.core);
    AddedFacts(s.core, o, fd, c);
    AddedTracked(s, c);
  }
}
