/** Sockets, the containers that own them and the handler that polls them: the state every entity of a program shares,
    and the elementary updates the library makes to it.
    A socket object is a record under its identity in `heap`; destroying it removes the identity. */
module Core {
  import opened PollHandler
  import Actions
  import SendQueue

  /** The container a socket lives in: a server's listeners, a server's accepted clients, a client's connections. */
  datatype Owner = Listeners(server: nat) | Clients(server: nat) | Peers(client: nat)

  datatype Tag = READABLE | WRITEABLE | CLOSED | ERROR | RECV

  /** What a callback in a socket's action lists does. All but `User` are registered by the library. */
  datatype Exec =
    | Erase(owner: Owner, key: int)
    | Accept(server: nat)
    | Recv
    | Flush
    | RaiseClosed
    | RaiseDisconnect
    | RaiseReceive
    | RaisePeerReceive
    | User

  type Callback = Actions.Callback<Exec>

  /** `fd` is -1 once the descriptor is closed. `key` is the container key. `out.want` is the POLLOUT bit of the
      entry. */
  datatype Sock = Sock(
    fd: int,
    owner: Owner,
    key: int,
    lists: map<Tag, seq<Callback>>,
    out: SendQueue.Stream<SendQueue.byte>)
  {
    function On(tag: Tag): seq<Callback> {
      if tag in lists then lists[tag] else []
    }

    function With(tag: Tag, cb: Callback): Sock {
      this.(lists := lists[tag := Actions.Insert(On(tag), cb)])
    }

    predicate Open() { fd >= 0 }
  }

  /** A key of a container's map. */
  datatype Key = Key(owner: Owner, fd: int)

  /** What the library raises to user code, and the close system call. `Failed` is the ERROR event of the server or
      client the container belongs to; the ERROR lists of connections are not recorded. */
  datatype Event =
    | SysClose(id: ObjId, fd: int)
    | Listening(id: ObjId)
    | Accepted(id: ObjId)
    | Received(id: ObjId)
    | Disconnected(id: ObjId)
    | Closed(id: ObjId)
    | Connected(id: ObjId)
    | PeerReceived(id: ObjId)
    | Failed(owner: Owner)

  /** `kernel` are the descriptors open in the kernel. */
  datatype State = State(
    table: Table,
    heap: map<ObjId, Sock>,
    owned: map<Key, ObjId>,
    nextId: ObjId,
    kernel: set<int>,
    log: seq<Event>)
  {
    /** The keys of one container's map. */
    function KeysOf(o: Owner): set<int> {
      set k | k in owned && k.owner == o :: k.fd
    }

    predicate Live(id: ObjId) { id in heap }

    predicate OpenAt(id: ObjId) { OpenIn(heap, id) }
  }

  // ------------------------------------------------------------------------------------------
  // Elementary updates
  // ------------------------------------------------------------------------------------------

  function EraseCallback(o: Owner, key: int): Callback {
    Actions.Callback(Erase(o, key), {Actions.QUEUE_END, Actions.STOP_AFTER})
  }

  function Plain(exec: Exec): Callback {
    Actions.Callback(exec, {})
  }

  function NewSock(o: Owner, fd: int): Sock {
    Sock(fd, o, fd, map[CLOSED := [EraseCallback(o, fd)]], SendQueue.Empty())
  }

  /** `_insert_socket` of an open descriptor whose key is free; the new object is `s.nextId`. */
  function Inserted(s: State, o: Owner, fd: int): State {
    s.(heap := s.heap[s.nextId := NewSock(o, fd)],
       owned := s.owned[Key(o, fd) := s.nextId],
       table := AddSocket(s.table, fd, s.nextId),
       nextId := s.nextId + 1)
  }

  /** The kernel handed out `fd`. */
  function Allocated(s: State, fd: int): State {
    s.(kernel := s.kernel + {fd})
  }

  function RegisteredOn(s: State, id: ObjId, tag: Tag, cb: Callback): State
    requires s.Live(id)
  {
    s.(heap := s.heap[id := s.heap[id].With(tag, cb)])
  }

  /** The part of `socket::close` before the CLOSED callbacks: out of the handler, descriptor closed, fd set to -1. */
  function Shut(s: State, id: ObjId): State
    requires s.Live(id) && s.table.Aligned()
  {
    var sock := s.heap[id];
    s.(table := DeleteSocket(s.table, sock.fd),
       heap := s.heap[id := sock.(fd := -1)],
       kernel := s.kernel - {sock.fd},
       log := s.log + [SysClose(id, sock.fd)])
  }

  /** `sockets.erase(key)`: the object in the container under `key`, if any, is destroyed. */
  function Erased(s: State, o: Owner, key: int): State {
    var k := Key(o, key);
    if k !in s.owned then s else s.(heap := s.heap - {s.owned[k]}, owned := s.owned - {k})
  }

  function Logged(s: State, e: Event): State {
    s.(log := s.log + [e])
  }

  /** One socket's stream replaced, and possibly the table. */
  function WithStream(s: State, id: ObjId, out: SendQueue.Stream<SendQueue.byte>, t: Table): State
    requires s.Live(id)
  {
    s.(heap := s.heap[id := s.heap[id].(out := out)], table := t)
  }

  function Sent(s: State, id: ObjId, message: seq<SendQueue.byte>, sent: int): State
    requires s.Live(id) && SendQueue.Answer(sent, |message|)
  {
    WithStream(s, id, SendQueue.AfterSend(s.heap[id].out, message, sent),
               if 0 <= sent < |message| then SetInterest(s.table, s.heap[id].fd, POLLOUT, true) else s.table)
  }

  function Flushed(s: State, id: ObjId, sent: int): State
    requires s.Live(id) && SendQueue.Possible(s.heap[id].out, SendQueue.OpFlush(sent))
  {
    var out := s.heap[id].out;
    WithStream(s, id, SendQueue.AfterFlush(out, sent),
               if out.queue != [] && sent == |out.queue[0]| then SetInterest(s.table, s.heap[id].fd, POLLOUT, false)
               else s.table)
  }

  // ------------------------------------------------------------------------------------------
  // The invariant
  // ------------------------------------------------------------------------------------------

  type Heap = map<ObjId, Sock>

  predicate OpenIn(heap: Heap, id: ObjId) {
    id in heap && heap[id].Open()
  }

  /** One entry per open live object, paired with that object; nothing else in the handler. */
  ghost predicate HandlerMatches(t: Table, heap: Heap) {
    var holds :=
      && t.Aligned()
      && (forall i :: 0 <= i < |t.ptrs| ==> OpenIn(heap, t.ptrs[i]) && heap[t.ptrs[i]].fd == t.sockets[i].fd)
      && (forall i, j :: 0 <= i < j < |t.ptrs| ==> t.ptrs[i] != t.ptrs[j])
      && (forall id: ObjId :: OpenIn(heap, id) ==> id in t.ptrs);
    holds
  }

  /** Open objects hold different descriptors, all open in the kernel. */
  ghost predicate DescriptorsDiffer(heap: Heap, kernel: set<int>) {
    var holds :=
      && (forall a: ObjId, b: ObjId :: OpenIn(heap, a) && OpenIn(heap, b) && heap[a].fd == heap[b].fd ==> a == b)
      && (forall a: ObjId :: OpenIn(heap, a) ==> heap[a].fd in kernel);
    holds
  }

  /** Each key maps to a live object of that container whose descriptor, while open, is the key; and each live object is
      in its container. */
  ghost predicate ContainersMatch(heap: Heap, owned: map<Key, ObjId>, nextId: ObjId) {
    var holds :=
      && (forall id: ObjId :: id in heap ==>
            var sock := heap[id];
            && id < nextId
            && (sock.fd == -1 || (sock.fd == sock.key && sock.fd >= 0))
            && Key(sock.owner, sock.key) in owned
            && owned[Key(sock.owner, sock.key)] == id)
      && (forall k :: k in owned ==>
            && owned[k] in heap
            && heap[owned[k]].owner == k.owner
            && heap[owned[k]].key == k.fd);
    holds
  }

  /** The erase action is last on CLOSED and nowhere else. */
  predicate EraseIsLast(sock: Sock) {
    var holds :=
      && sock.On(CLOSED) != []
      && sock.On(CLOSED)[|sock.On(CLOSED)| - 1] == EraseCallback(sock.owner, sock.key)
      && NoErase(sock.On(CLOSED)[..|sock.On(CLOSED)| - 1])
      && (forall tag :: tag != CLOSED ==> NoErase(sock.On(tag)));
    holds
  }

  predicate NoErase(list: seq<Callback>) {
    forall cb :: cb in list ==> !cb.exec.Erase?
  }

  ghost predicate EraseLast(heap: Heap) {
    forall id: ObjId :: id in heap ==> EraseIsLast(heap[id])
  }

  ghost predicate StreamsSound(heap: Heap) {
    forall id: ObjId :: id in heap ==> SendQueue.Sound(heap[id].out)
  }

  ghost predicate InterestMatches(t: Table, heap: Heap) {
    forall id: ObjId :: OpenIn(heap, id) ==> (heap[id].out.want <==> WantsWrite(t, heap[id].fd))
  }

  /** The invariant of the state. The conjunction is bound to a name so that a proof of it is one obligation. */
  ghost predicate Valid(s: State) {
    var holds :=
      && HandlerMatches(s.table, s.heap)
      && DescriptorsDiffer(s.heap, s.kernel)
      && ContainersMatch(s.heap, s.owned, s.nextId)
      && EraseLast(s.heap)
      && StreamsSound(s.heap)
      && InterestMatches(s.table, s.heap);
    holds
  }

  lemma TableWellFormed(s: State)
    requires HandlerMatches(s.table, s.heap) && DescriptorsDiffer(s.heap, s.kernel)
    ensures s.table.WellFormed()
    ensures forall id: ObjId :: OpenIn(s.heap, id) ==> s.table.Holds(s.heap[id].fd)
    ensures forall fd :: s.table.Holds(fd) ==> fd in s.kernel
  {
    forall id: ObjId | OpenIn(s.heap, id) ensures s.table.Holds(s.heap[id].fd) {
      var i :| 0 <= i < |s.table.ptrs| && s.table.ptrs[i] == id;
      assert s.table.sockets[i].fd == s.heap[id].fd;
    }
  }

  // ------------------------------------------------------------------------------------------
  // Every update keeps it
  // ------------------------------------------------------------------------------------------

  lemma InsertedKeeps(s: State, o: Owner, fd: int)
    requires Valid(s) && fd >= 0 && fd !in s.kernel && Key(o, fd) !in s.owned
    ensures Valid(Inserted(Allocated(s, fd), o, fd))
  {
    var u := Inserted(Allocated(s, fd), o, fd);
    TableWellFormed(s);
    assert s.nextId !in s.heap;
    InsertedMatches(s, o, fd);
    InsertedContainers(s, o, fd);
    NewSockSound(o, fd);
    PutSound(s.heap, s.nextId, NewSock(o, fd));
    InsertedInterest(s, o, fd);
  }

  lemma PutSound(heap: Heap, id: ObjId, sock: Sock)
    requires EraseLast(heap) && StreamsSound(heap) && EraseIsLast(sock) && SendQueue.Sound(sock.out)
    ensures EraseLast(heap[id := sock]) && StreamsSound(heap[id := sock])
  {
  }

  lemma InsertedContainers(s: State, o: Owner, fd: int)
    requires ContainersMatch(s.heap, s.owned, s.nextId) && fd >= 0 && Key(o, fd) !in s.owned
    ensures var u := Inserted(Allocated(s, fd), o, fd); ContainersMatch(u.heap, u.owned, u.nextId)
  {
  }

  lemma InsertedMatches(s: State, o: Owner, fd: int)
    requires HandlerMatches(s.table, s.heap) && DescriptorsDiffer(s.heap, s.kernel) && s.nextId !in s.heap
    requires fd >= 0 && fd !in s.kernel
    ensures var u := Inserted(Allocated(s, fd), o, fd);
            HandlerMatches(u.table, u.heap) && DescriptorsDiffer(u.heap, u.kernel)
  {
    var u, n := Inserted(Allocated(s, fd), o, fd), |s.table.ptrs|;
    assert forall id: ObjId :: OpenIn(u.heap, id) <==> id == s.nextId || OpenIn(s.heap, id);
    assert u.table.ptrs[n] == s.nextId;
  }

  lemma InsertedInterest(s: State, o: Owner, fd: int)
    requires s.table.WellFormed() && !s.table.Holds(fd) && InterestMatches(s.table, s.heap) && s.nextId !in s.heap
    requires DescriptorsDiffer(s.heap, s.kernel) && fd !in s.kernel
    ensures var u := Inserted(Allocated(s, fd), o, fd); InterestMatches(u.table, u.heap)
  {
    var u := Inserted(Allocated(s, fd), o, fd);
    InterestOfOthers(s.table, fd, s.nextId);
    assert forall id: ObjId :: OpenIn(u.heap, id) && id != s.nextId ==> OpenIn(s.heap, id) && u.heap[id] == s.heap[id];
  }

  lemma NewSockSound(o: Owner, fd: int)
    ensures EraseIsLast(NewSock(o, fd)) && SendQueue.Sound(NewSock(o, fd).out)
  {
    assert SendQueue.Flat(SendQueue.Empty<SendQueue.byte>().queue) == [];
  }

  lemma RegisteredKeeps(s: State, id: ObjId, tag: Tag, cb: Callback)
    requires Valid(s) && s.Live(id) && !cb.exec.Erase?
    ensures Valid(RegisteredOn(s, id, tag, cb))
  {
    var u := RegisteredOn(s, id, tag, cb);
    SameFds(s, u);
    InsertKeepsErase(s.heap[id], tag, cb);
    PutSound(s.heap, id, s.heap[id].With(tag, cb));
    RegisteredInterest(s.heap, id, tag, cb, s.table);
  }

  lemma RegisteredInterest(heap: Heap, id: ObjId, tag: Tag, cb: Callback, t: Table)
    requires id in heap && InterestMatches(t, heap)
    ensures InterestMatches(t, heap[id := heap[id].With(tag, cb)])
  {
    var heap' := heap[id := heap[id].With(tag, cb)];
    assert forall k: ObjId :: OpenIn(heap', k) ==> OpenIn(heap, k) && heap'[k].out == heap[k].out;
  }

  /** The parts of the invariant that read only descriptors, owners and keys of objects. */
  lemma SameFds(s: State, u: State)
    requires HandlerMatches(s.table, s.heap) && DescriptorsDiffer(s.heap, s.kernel)
    requires ContainersMatch(s.heap, s.owned, s.nextId)
    requires u.heap.Keys == s.heap.Keys
    requires forall k: ObjId :: k in s.heap ==>
               u.heap[k].fd == s.heap[k].fd && u.heap[k].owner == s.heap[k].owner && u.heap[k].key == s.heap[k].key
    requires u.owned == s.owned && u.kernel == s.kernel && u.nextId == s.nextId
    requires |s.table.sockets| == |u.table.sockets| && s.table.ptrs == u.table.ptrs
    requires forall i :: 0 <= i < |s.table.sockets| ==> s.table.sockets[i].fd == u.table.sockets[i].fd
    ensures HandlerMatches(u.table, u.heap) && DescriptorsDiffer(u.heap, u.kernel)
    ensures ContainersMatch(u.heap, u.owned, u.nextId)
  {
    assert forall id: ObjId :: OpenIn(s.heap, id) == OpenIn(u.heap, id);
  }

  lemma InsertKeepsErase(sock: Sock, tag: Tag, cb: Callback)
    requires EraseIsLast(sock) && !cb.exec.Erase?
    ensures EraseIsLast(sock.With(tag, cb))
  {
    var list, sock' := sock.On(tag), sock.With(tag, cb);
    assert forall t :: sock'.On(t) == if t == tag then Actions.Insert(list, cb) else sock.On(t);
    if tag == CLOSED {
      InsertBeforeQueued(list[..|list| - 1], list[|list| - 1], cb);
    } else {
      InsertMembers(list, cb);
    }
  }

  /** A list that ends with a QUEUE_END callback ends with it after any registration. */
  lemma InsertBeforeQueued(front: seq<Callback>, last: Callback, cb: Callback)
    requires last.Queued()
    ensures Actions.Insert(front + [last], cb) == Actions.Insert(front, cb) + [last]
    ensures forall x :: x in Actions.Insert(front, cb) <==> x in front || x == cb
  {
    assert (front + [last])[..|front|] == front;
    InsertMembers(front, cb);
  }

  lemma InsertMembers(list: seq<Callback>, cb: Callback)
    ensures forall x :: x in Actions.Insert(list, cb) <==> x in list || x == cb
  {
    var p := Actions.InsertPosition(list);
    assert list == list[..p] + list[p..];
  }

  lemma ShutKeeps(s: State, id: ObjId)
    requires Valid(s) && s.OpenAt(id)
    ensures Valid(Shut(s, id))
  {
    TableWellFormed(s);
    ShutMatches(s, id);
    ShutContainers(s, id);
    ShutSound(s.heap, id);
    ShutInterest(s, id);
  }

  lemma ShutContainers(s: State, id: ObjId)
    requires ContainersMatch(s.heap, s.owned, s.nextId) && s.OpenAt(id) && s.table.Aligned()
    ensures var u := Shut(s, id); ContainersMatch(u.heap, u.owned, u.nextId)
  {
  }

  lemma ShutSound(heap: Heap, id: ObjId)
    requires EraseLast(heap) && StreamsSound(heap) && id in heap
    ensures EraseLast(heap[id := heap[id].(fd := -1)]) && StreamsSound(heap[id := heap[id].(fd := -1)])
  {
    SameLists(heap[id], heap[id].(fd := -1));
    PutSound(heap, id, heap[id].(fd := -1));
  }

  lemma ShutMatches(s: State, id: ObjId)
    requires HandlerMatches(s.table, s.heap) && DescriptorsDiffer(s.heap, s.kernel) && s.OpenAt(id)
    ensures var u := Shut(s, id); HandlerMatches(u.table, u.heap) && DescriptorsDiffer(u.heap, u.kernel)
  {
    var u := Shut(s, id);
    var d := ShutTable(s, id);
    assert forall k: ObjId :: OpenIn(u.heap, k) <==> OpenIn(s.heap, k) && k != id;
    CutMatches(s.table, s.heap, d, u.table, u.heap);
  }

  /** Position `d` cut out of both vectors, its object no longer open. */
  lemma CutMatches(t: Table, heap: Heap, d: nat, u: Table, heap': Heap)
    requires HandlerMatches(t, heap) && d < |t.ptrs|
    requires u.ptrs == t.ptrs[..d] + t.ptrs[d + 1..] && u.sockets == t.sockets[..d] + t.sockets[d + 1..]
    requires forall k: ObjId :: OpenIn(heap', k) <==> OpenIn(heap, k) && k != t.ptrs[d]
    requires forall k: ObjId :: OpenIn(heap', k) ==> heap'[k].fd == heap[k].fd
    ensures HandlerMatches(u, heap')
  {
    CutAt(t.ptrs, d);
    CutAt(t.sockets, d);
    forall k: ObjId | OpenIn(heap', k) ensures k in u.ptrs {
      var i :| 0 <= i < |t.ptrs| && t.ptrs[i] == k;
      assert u.ptrs[if i < d then i else i - 1] == k;
    }
  }

  lemma ShutInterest(s: State, id: ObjId)
    requires s.table.WellFormed() && InterestMatches(s.table, s.heap) && DescriptorsDiffer(s.heap, s.kernel)
    requires s.OpenAt(id)
    ensures var u := Shut(s, id); InterestMatches(u.table, u.heap)
  {
    var u := Shut(s, id);
    InterestOfOthers(s.table, s.heap[id].fd, id);
    assert forall k: ObjId :: OpenIn(u.heap, k) ==>
             k != id && OpenIn(s.heap, k) && u.heap[k] == s.heap[k] && s.heap[k].fd != s.heap[id].fd;
  }

  /** Shutting a socket takes exactly its entry out of both vectors. */
  lemma ShutTable(s: State, id: ObjId) returns (d: nat)
    requires HandlerMatches(s.table, s.heap) && DescriptorsDiffer(s.heap, s.kernel) && s.OpenAt(id)
    ensures d < |s.table.ptrs| == |s.table.sockets| && s.table.ptrs[d] == id
    ensures Shut(s, id).table.ptrs == s.table.ptrs[..d] + s.table.ptrs[d + 1..]
    ensures Shut(s, id).table.sockets == s.table.sockets[..d] + s.table.sockets[d + 1..]
    ensures Shut(s, id).table.changes == s.table.changes + 1
  {
    TableWellFormed(s);
    d := Find(s.table.sockets, s.heap[id].fd);
    var i :| 0 <= i < |s.table.sockets| && s.table.sockets[i].fd == s.heap[id].fd;
    assert OpenIn(s.heap, s.table.ptrs[d]);
  }

  lemma ErasedKeeps(s: State, id: ObjId)
    requires Valid(s) && s.Live(id) && !s.heap[id].Open()
    ensures Valid(Erased(s, s.heap[id].owner, s.heap[id].key))
    ensures Erased(s, s.heap[id].owner, s.heap[id].key).heap == s.heap - {id}
  {
    var u := Erased(s, s.heap[id].owner, s.heap[id].key);
    assert forall k: ObjId :: OpenIn(u.heap, k) <==> OpenIn(s.heap, k);
    assert HandlerMatches(u.table, u.heap);
    assert DescriptorsDiffer(u.heap, u.kernel);
    ErasedContainers(s, id);
    assert InterestMatches(u.table, u.heap);
  }

  lemma ErasedContainers(s: State, id: ObjId)
    requires ContainersMatch(s.heap, s.owned, s.nextId) && s.Live(id)
    ensures var u := Erased(s, s.heap[id].owner, s.heap[id].key); ContainersMatch(u.heap, u.owned, u.nextId)
  {
  }

  lemma SameLists(a: Sock, b: Sock)
    requires EraseIsLast(a) && a.lists == b.lists && a.owner == b.owner && a.key == b.key
    ensures EraseIsLast(b)
  {
    assert forall tag :: a.On(tag) == b.On(tag);
  }

  /** Send and flush: one socket's stream changes, and with it at most its own interest bit. */
  lemma StreamKeeps(s: State, id: ObjId, out: SendQueue.Stream<SendQueue.byte>, t: Table)
    requires Valid(s) && s.Live(id)
    requires SendQueue.Sound(out)
    requires
      || (t == s.table && out.want == s.heap[id].out.want)
      || (s.OpenAt(id) && t == SetInterest(s.table, s.heap[id].fd, POLLOUT, out.want))
    ensures Valid(WithStream(s, id, out, t))
  {
    TableWellFormed(s);
    StreamFds(s, id, out, t);
    SameLists(s.heap[id], s.heap[id].(out := out));
    PutSound(s.heap, id, s.heap[id].(out := out));
    StreamInterest(s, id, out, t);
  }

  lemma StreamFds(s: State, id: ObjId, out: SendQueue.Stream<SendQueue.byte>, t: Table)
    requires HandlerMatches(s.table, s.heap) && DescriptorsDiffer(s.heap, s.kernel)
    requires ContainersMatch(s.heap, s.owned, s.nextId)
    requires s.Live(id)
    requires t == s.table || t == SetInterest(s.table, s.heap[id].fd, POLLOUT, out.want)
    ensures var u := WithStream(s, id, out, t);
            && HandlerMatches(u.table, u.heap) && DescriptorsDiffer(u.heap, u.kernel)
            && ContainersMatch(u.heap, u.owned, u.nextId)
  {
    InterestShape(s.table, s.heap[id].fd, POLLOUT, out.want);
    SameFds(s, WithStream(s, id, out, t));
  }

  lemma StreamInterest(s: State, id: ObjId, out: SendQueue.Stream<SendQueue.byte>, t: Table)
    requires s.table.WellFormed() && InterestMatches(s.table, s.heap) && DescriptorsDiffer(s.heap, s.kernel)
    requires s.Live(id)
    requires forall k: ObjId :: OpenIn(s.heap, k) ==> s.table.Holds(s.heap[k].fd)
    requires
      || (t == s.table && out.want == s.heap[id].out.want)
      || (s.OpenAt(id) && t == SetInterest(s.table, s.heap[id].fd, POLLOUT, out.want))
    ensures InterestMatches(t, WithStream(s, id, out, t).heap)
  {
    var heap := WithStream(s, id, out, t).heap;
    if t != s.table || out.want != s.heap[id].out.want {
      InterestSet(s.table, s.heap[id].fd, out.want);
    }
    forall k: ObjId | OpenIn(heap, k) ensures heap[k].out.want <==> WantsWrite(t, heap[k].fd) {
      assert OpenIn(s.heap, k) && heap[k].fd == s.heap[k].fd;
      assert k != id && s.OpenAt(id) ==> s.heap[k].fd != s.heap[id].fd;
    }
  }

  lemma SentKeeps(s: State, id: ObjId, message: seq<SendQueue.byte>, sent: int)
    requires Valid(s) && s.Live(id) && SendQueue.Answer(sent, |message|) && (sent >= 0 ==> s.heap[id].Open())
    ensures Valid(Sent(s, id, message, sent))
  {
    SendQueue.SendKeepsSound(s.heap[id].out, message, sent);
    StreamKeeps(s, id, Sent(s, id, message, sent).heap[id].out, Sent(s, id, message, sent).table);
  }

  lemma FlushedKeeps(s: State, id: ObjId, sent: int)
    requires Valid(s) && s.Live(id) && SendQueue.Possible(s.heap[id].out, SendQueue.OpFlush(sent))
    requires sent >= 0 ==> s.heap[id].Open()
    ensures Valid(Flushed(s, id, sent))
  {
    SendQueue.FlushKeepsSound(s.heap[id].out, sent);
    StreamKeeps(s, id, Flushed(s, id, sent).heap[id].out, Flushed(s, id, sent).table);
  }

  /** A descriptor fresh from the kernel is refused by a container only because an object that is closed but not erased
      still sits under that number; the descriptor is then left open with no object. */
  lemma RefusedOnlyByClosed(s: State, o: Owner, fd: int)
    requires Valid(s) && fd >= 0 && fd !in s.kernel
    ensures Key(o, fd) in s.owned <==>
            exists id :: s.Live(id) && s.heap[id].owner == o && s.heap[id].key == fd && !s.heap[id].Open()
  {
    if Key(o, fd) in s.owned {
      var id := s.owned[Key(o, fd)];
      assert s.Live(id) && s.heap[id].owner == o && s.heap[id].key == fd;
      assert !OpenIn(s.heap, id);
    }
  }
}
