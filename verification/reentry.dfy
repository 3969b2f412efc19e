/** What may happen to the state while user code that opens no socket runs: sockets and containers closed from inside
    callbacks, bytes sent, callbacks registered. */
module Reentry {
  import opened PollHandler
  import opened Core
  import opened Safety
  import opened Closing
  import Actions
  import SendQueue

  // ------------------------------------------------------------------------------------------
  // Each descriptor is closed once
  // ------------------------------------------------------------------------------------------

  /** How many times the descriptor of `id` was closed. */
  function Closings(log: seq<Event>, id: ObjId): nat {
    if log == [] then 0
    else Closings(log[..|log| - 1], id) + if log[|log| - 1].SysClose? && log[|log| - 1].id == id then 1 else 0
  }

  lemma ClosingsAfter(log: seq<Event>, e: Event, id: ObjId)
    ensures Closings(log + [e], id) == Closings(log, id) + if e.SysClose? && e.id == id then 1 else 0
  {
    assert (log + [e])[..|log|] == log;
  }

  /** Every object ever made is open and was not closed, or is not open any more and was closed exactly once. */
  ghost predicate ClosedOnce(log: seq<Event>, heap: Heap, nextId: ObjId) {
    var holds := forall id: ObjId :: Closings(log, id) == if id < nextId && !OpenIn(heap, id) then 1 else 0;
    holds
  }

  /** The invariant between calls into the library. */
  ghost predicate Consistent(s: State) {
    var holds := Valid(s) && Roles(s.heap) && ClosedOnce(s.log, s.heap, s.nextId);
    holds
  }

  lemma SameOpen(log: seq<Event>, log': seq<Event>, heap: Heap, heap': Heap, nextId: ObjId)
    requires ClosedOnce(log, heap, nextId)
    requires forall id: ObjId :: OpenIn(heap', id) == OpenIn(heap, id)
    requires log' == log || (exists e :: log' == log + [e] && !e.SysClose?)
    ensures ClosedOnce(log', heap', nextId)
  {
    if log' != log {
      var e :| log' == log + [e] && !e.SysClose?;
      forall id: ObjId ensures Closings(log', id) == Closings(log, id) { ClosingsAfter(log, e, id); }
    }
  }

  lemma ShutClosesOnce(log: seq<Event>, heap: Heap, nextId: ObjId, id: ObjId, fd: int)
    requires ClosedOnce(log, heap, nextId) && OpenIn(heap, id) && id < nextId
    ensures ClosedOnce(log + [SysClose(id, fd)], heap[id := heap[id].(fd := -1)], nextId)
  {
    forall k: ObjId ensures Closings(log + [SysClose(id, fd)], k) == Closings(log, k) + if k == id then 1 else 0 {
      ClosingsAfter(log, SysClose(id, fd), k);
    }
  }

  lemma AddedOnce(log: seq<Event>, heap: Heap, id: ObjId, sock: Sock)
    requires ClosedOnce(log, heap, id) && id !in heap && sock.Open()
    ensures ClosedOnce(log, heap[id := sock], id + 1)
  {
  }

  lemma LoggedConsistent(s: State, e: Event)
    requires Consistent(s) && !e.SysClose?
    ensures Consistent(Logged(s, e))
  {
    LogOnly(s, s.log + [e]);
    SameOpen(s.log, s.log + [e], s.heap, s.heap, s.nextId);
  }

  lemma ShutConsistent(s: State, id: ObjId)
    requires Consistent(s) && s.OpenAt(id)
    ensures Consistent(Shut(s, id))
  {
    ShutKeeps(s, id);
    IdsBelow(s, id);
    ShutParts(s, id);
  }

  lemma ShutParts(s: State, id: ObjId)
    requires Roles(s.heap) && ClosedOnce(s.log, s.heap, s.nextId) && s.OpenAt(id) && id < s.nextId && s.table.Aligned()
    ensures var u := Shut(s, id); Roles(u.heap) && ClosedOnce(u.log, u.heap, u.nextId)
  {
    RoleOfSame(s.heap[id], s.heap[id].(fd := -1));
    ShutClosesOnce(s.log, s.heap, s.nextId, id, s.heap[id].fd);
  }

  lemma IdsBelow(s: State, id: ObjId)
    requires Valid(s) && s.Live(id)
    ensures id < s.nextId && s.table.Aligned() && EraseIsLast(s.heap[id])
  {
  }

  lemma ErasedConsistent(s: State, id: ObjId)
    requires Consistent(s) && s.Live(id) && !s.heap[id].Open()
    ensures Consistent(Erased(s, s.heap[id].owner, s.heap[id].key))
    ensures Erased(s, s.heap[id].owner, s.heap[id].key).heap == s.heap - {id}
  {
    ErasedKeeps(s, id);
    SameOpen(s.log, s.log, s.heap, s.heap - {id}, s.nextId);
  }

  lemma SentConsistent(s: State, id: ObjId, message: seq<SendQueue.byte>, sent: int)
    requires Consistent(s) && s.Live(id) && SendQueue.Answer(sent, |message|) && (sent >= 0 ==> s.heap[id].Open())
    ensures Consistent(Sent(s, id, message, sent))
  {
    SentKeeps(s, id, message, sent);
    ReplacedOnce(s, id, s.heap[id].(out := SendQueue.AfterSend(s.heap[id].out, message, sent)),
      Sent(s, id, message, sent));
  }

  lemma ReplacedOnce(s: State, id: ObjId, sock: Sock, u: State)
    requires Roles(s.heap) && ClosedOnce(s.log, s.heap, s.nextId) && s.Live(id)
    requires sock.fd == s.heap[id].fd && sock.lists == s.heap[id].lists && sock.owner == s.heap[id].owner
    requires u.heap == s.heap[id := sock] && u.log == s.log && u.nextId == s.nextId
    ensures Roles(u.heap) && ClosedOnce(u.log, u.heap, u.nextId)
  {
    RoleOfSame(s.heap[id], sock);
    RolesOnce(s, id, sock, u);
  }

  lemma RolesOnce(s: State, id: ObjId, sock: Sock, u: State)
    requires Roles(s.heap) && ClosedOnce(s.log, s.heap, s.nextId) && s.Live(id)
    requires sock.fd == s.heap[id].fd && RoleOk(sock)
    requires u.heap == s.heap[id := sock] && u.log == s.log && u.nextId == s.nextId
    ensures Roles(u.heap) && ClosedOnce(u.log, u.heap, u.nextId)
  {
    SameOpen(s.log, s.log, s.heap, u.heap, s.nextId);
  }

  lemma RegisteredConsistent(s: State, id: ObjId, tag: Tag, flags: Actions.Flags)
    requires Consistent(s) && s.Live(id) && (tag == READABLE ==> s.heap[id].owner.Listeners?)
    ensures Consistent(RegisteredOn(s, id, tag, Actions.Callback(User, flags)))
  {
    RegisteredKeeps(s, id, tag, Actions.Callback(User, flags));
    RoleKept(s.heap[id], tag, flags);
    RolesOnce(s, id, s.heap[id].With(tag, Actions.Callback(User, flags)),
      RegisteredOn(s, id, tag, Actions.Callback(User, flags)));
  }

  // ------------------------------------------------------------------------------------------
  // What is heard of closing
  // ------------------------------------------------------------------------------------------

  /** A descriptor of `ids` closed, or user code told so. */
  predicate Parting(e: Event, ids: set<ObjId>) {
    (e.SysClose? || e.Disconnected? || e.Closed?) && e.id in ids
  }

  function Partings(log: seq<Event>, ids: set<ObjId>): seq<Event> {
    if log == [] then []
    else Partings(log[..|log| - 1], ids) + if Parting(log[|log| - 1], ids) then [log[|log| - 1]] else []
  }

  lemma PartingsAfter(log: seq<Event>, e: Event, ids: set<ObjId>)
    ensures Partings(log + [e], ids) == Partings(log, ids) + if Parting(e, ids) then [e] else []
  {
    assert (log + [e])[..|log|] == log;
  }

  lemma {:induction false} PartingsOfSum(log: seq<Event>, more: seq<Event>, ids: set<ObjId>)
    ensures Partings(log + more, ids) == Partings(log, ids) + Partings(more, ids)
    decreases more
  {
    if more == [] {
      assert log + more == log;
    } else {
      var front, last := more[..|more| - 1], more[|more| - 1];
      PartingsOfSum(log, front, ids);
      assert log + more == log + front + [last];
      PartingsAfter(log + front, last, ids);
    }
  }

  lemma {:induction false} FewerPartings(more: seq<Event>, ids: set<ObjId>, fewer: set<ObjId>)
    requires fewer <= ids && Partings(more, ids) == []
    ensures Partings(more, fewer) == []
  {
    if more == [] {
    } else {
      FewerPartings(more[..|more| - 1], ids, fewer);
    }
  }

  /** Nothing about `ids`, so nothing about some of them. */
  lemma Unheard(log: seq<Event>, log': seq<Event>, ids: set<ObjId>, fewer: set<ObjId>)
    requires log <= log' && Partings(log', ids) == Partings(log, ids) && fewer <= ids
    ensures Partings(log', fewer) == Partings(log, fewer)
  {
    var more := log'[|log|..];
    assert log' == log + more;
    PartingsOfSum(log, more, ids);
    FewerPartings(more, ids, fewer);
    PartingsOfSum(log, more, fewer);
  }

  lemma {:induction false} OnlyAbout(more: seq<Event>, others: set<ObjId>, ids: set<ObjId>)
    requires Partings(more, others) == []
    ensures Partings(more, others + ids) == Partings(more, ids)
  {
    if more == [] {
    } else {
      OnlyAbout(more[..|more| - 1], others, ids);
    }
  }

  /** Nothing about the others: what is heard of all is what is heard of `ids`. */
  lemma HeardOnly(log: seq<Event>, log': seq<Event>, others: set<ObjId>, ids: set<ObjId>, events: seq<Event>)
    requires log <= log' && Partings(log', others) == Partings(log, others)
    requires Partings(log', ids) == Partings(log, ids) + events
    ensures Partings(log', others + ids) == Partings(log, others + ids) + events
  {
    var more := log'[|log|..];
    assert log' == log + more;
    PartingsOfSum(log, more, others);
    PartingsOfSum(log, more, ids);
    PartingsOfSum(log, more, others + ids);
    Cancelled(Partings(log, others), Partings(more, others), []);
    Cancelled(Partings(log, ids), Partings(more, ids), events);
    OnlyAbout(more, others, ids);
  }

  lemma Cancelled<T>(a: seq<T>, b: seq<T>, c: seq<T>)
    requires a + b == a + c
    ensures b == c
  {
    assert b == (a + b)[|a|..] && c == (a + c)[|a|..];
  }

  // ------------------------------------------------------------------------------------------
  // What becomes of the sockets
  // ------------------------------------------------------------------------------------------

  function OpenIds(heap: Heap): set<ObjId> {
    set id | id in heap && heap[id].Open()
  }

  /** A socket that is closed stays as it is: its own activation still needs it. An open one is left alone, or closed
      for good, in which case it is destroyed unless its CLOSED list stops early. Pinned sockets stay open. */
  predicate Fate(heap: Heap, heap': Heap, pinned: set<ObjId>, id: ObjId)
    requires id in heap
  {
    var holds :=
      if id !in heap' then heap[id].Open() && Clean(heap[id]) && id !in pinned
      else
        && heap'[id].owner == heap[id].owner && heap'[id].key == heap[id].key
        && (Clean(heap'[id]) <==> Clean(heap[id]))
        && (heap'[id].fd == heap[id].fd || (heap[id].Open() && heap'[id].fd == -1 && !Clean(heap[id]) && id !in pinned))
        && (!heap[id].Open() ==> heap'[id].On(CLOSED) == heap[id].On(CLOSED));
    holds
  }

  /** From `s` to `u` nothing was opened; each socket outside `but` met its fate; the handler lost exactly the
      entries of the sockets no longer open, the others in their order; and the log grew, but for the pinned sockets. */
  ghost predicate Shrunk(s: State, u: State, pinned: set<ObjId>, but: set<ObjId>) {
    var holds :=
      && u.heap.Keys <= s.heap.Keys && OpenIds(u.heap) <= OpenIds(s.heap)
      && (forall id: ObjId :: id in s.heap && id !in but ==> Fate(s.heap, u.heap, pinned, id))
      && u.table.ptrs == Without(s.table.ptrs, s.heap.Keys - OpenIds(u.heap))
      && s.log <= u.log && Partings(u.log, pinned) == Partings(s.log, pinned)
      && u.nextId == s.nextId;
    holds
  }

  lemma OpenOnly(s: State)
    requires HandlerMatches(s.table, s.heap)
    ensures Without(s.table.ptrs, s.heap.Keys - OpenIds(s.heap)) == s.table.ptrs
  {
    NoneGone(s.table.ptrs, s.heap.Keys - OpenIds(s.heap));
  }

  /** Nothing happened but to the log, streams and lists. */
  lemma SameSockets(s: State, u: State, pinned: set<ObjId>)
    requires HandlerMatches(s.table, s.heap) && u.heap.Keys == s.heap.Keys
    requires forall id: ObjId :: id in s.heap ==> u.heap[id].fd == s.heap[id].fd && Fate(s.heap, u.heap, pinned, id)
    requires u.table.ptrs == s.table.ptrs && s.log <= u.log && u.nextId == s.nextId
    requires Partings(u.log, pinned) == Partings(s.log, pinned)
    ensures Shrunk(s, u, pinned, {})
  {
    assert OpenIds(u.heap) == OpenIds(s.heap);
    OpenOnly(s);
  }

  /** One object replaced by one that differs in streams and lists only. */
  lemma OneReplaced(s: State, id: ObjId, u: State, pinned: set<ObjId>)
    requires HandlerMatches(s.table, s.heap) && s.Live(id) && u.Live(id) && u.heap == s.heap[id := u.heap[id]]
    requires u.heap[id].owner == s.heap[id].owner && u.heap[id].key == s.heap[id].key && u.heap[id].fd == s.heap[id].fd
    requires Clean(u.heap[id]) <==> Clean(s.heap[id])
    requires !s.heap[id].Open() ==> u.heap[id].On(CLOSED) == s.heap[id].On(CLOSED)
    requires u.table.ptrs == s.table.ptrs && u.log == s.log && u.nextId == s.nextId
    ensures Shrunk(s, u, pinned, {})
  {
    forall k: ObjId | k in s.heap ensures Fate(s.heap, u.heap, pinned, k) {}
    SameSockets(s, u, pinned);
  }

  lemma ShrunkSame(s: State, pinned: set<ObjId>)
    requires HandlerMatches(s.table, s.heap)
    ensures Shrunk(s, s, pinned, {})
  {
    forall id: ObjId | id in s.heap ensures Fate(s.heap, s.heap, pinned, id) {}
    SameSockets(s, s, pinned);
  }

  lemma Onwards(s: State, m: State, u: State, pinned: set<ObjId>, but: set<ObjId>)
    requires Shrunk(s, m, pinned, {}) && Shrunk(m, u, pinned, but)
    requires forall id: ObjId :: id in but ==> id in m.heap
    ensures Shrunk(s, u, pinned, but)
  {
    WithoutTwice(s.table.ptrs, s.heap.Keys - OpenIds(m.heap), m.heap.Keys - OpenIds(u.heap));
    assert s.heap.Keys - OpenIds(u.heap) == (s.heap.Keys - OpenIds(m.heap)) + (m.heap.Keys - OpenIds(u.heap));
    forall id: ObjId | id in s.heap && id !in but ensures Fate(s.heap, u.heap, pinned, id) {
      assert Fate(s.heap, m.heap, pinned, id);
      if id in m.heap { assert Fate(m.heap, u.heap, pinned, id); }
    }
  }

  /** Fewer sockets pinned ask for less. */
  lemma FewerPins(s: State, u: State, pinned: set<ObjId>, fewer: set<ObjId>, but: set<ObjId>)
    requires Shrunk(s, u, pinned, but) && fewer <= pinned
    ensures Shrunk(s, u, fewer, but)
  {
    Unheard(s.log, u.log, pinned, fewer);
    forall id: ObjId | id in s.heap && id !in but ensures Fate(s.heap, u.heap, fewer, id) {
      assert Fate(s.heap, u.heap, pinned, id);
    }
  }

  lemma LoggedShrinks(s: State, e: Event, pinned: set<ObjId>)
    requires HandlerMatches(s.table, s.heap) && !Parting(e, pinned)
    ensures Shrunk(s, Logged(s, e), pinned, {})
  {
    PartingsAfter(s.log, e, pinned);
    forall id: ObjId | id in s.heap ensures Fate(s.heap, s.heap, pinned, id) {}
    SameSockets(s, Logged(s, e), pinned);
  }

  lemma SentShrinks(s: State, id: ObjId, message: seq<SendQueue.byte>, sent: int, pinned: set<ObjId>)
    requires HandlerMatches(s.table, s.heap) && s.Live(id) && SendQueue.Answer(sent, |message|)
    ensures Shrunk(s, Sent(s, id, message, sent), pinned, {})
  {
    var u := Sent(s, id, message, sent);
    InterestShape(s.table, s.heap[id].fd, POLLOUT, true);
    assert u.heap[id].On(CLOSED) == s.heap[id].On(CLOSED);
    OneReplaced(s, id, u, pinned);
  }

  /** A callback that does not stop the list keeps a CLOSED list as clean, or unclean, as it was. */
  lemma StaysClean(sock: Sock, cb: Callback)
    requires EraseIsLast(sock) && !cb.Stops()
    ensures Clean(sock.With(CLOSED, cb)) <==> Clean(sock)
  {
    var list := sock.On(CLOSED);
    var front, last := list[..|list| - 1], list[|list| - 1];
    assert list == front + [last];
    InsertBeforeQueued(front, last, cb);
    assert Front(sock.With(CLOSED, cb).On(CLOSED)) == Actions.Insert(front, cb);
  }

  lemma RegisteredShrinks(s: State, id: ObjId, tag: Tag, cb: Callback, pinned: set<ObjId>)
    requires HandlerMatches(s.table, s.heap) && s.Live(id) && EraseIsLast(s.heap[id])
    requires tag == CLOSED ==> s.heap[id].Open() && !cb.Stops()
    ensures Shrunk(s, RegisteredOn(s, id, tag, cb), pinned, {})
  {
    var u := RegisteredOn(s, id, tag, cb);
    if tag == CLOSED {
      StaysClean(s.heap[id], cb);
    } else {
      assert u.heap[id].On(CLOSED) == s.heap[id].On(CLOSED);
    }
    OneReplaced(s, id, u, pinned);
  }

  lemma ShutCuts(s: State, id: ObjId)
    requires Valid(s) && s.OpenAt(id)
    ensures s.table.Aligned() && Shut(s, id).table.ptrs == Without(s.table.ptrs, {id})
  {
    var d := ShutTable(s, id);
    PtrsDiffer(s);
    CutIsWithout(s.table.ptrs, d);
  }

  /** The whole of `socket::close`: the descriptor is shut, the callbacks run, and the object goes or stays. */
  lemma CloseShrinks(s: State, id: ObjId, u: State, pinned: set<ObjId>)
    requires s.OpenAt(id) && id !in pinned && s.table.Aligned() && Shut(s, id).table.ptrs == Without(s.table.ptrs, {id})
    requires Shrunk(Shut(s, id), u, pinned, {id})
    requires if id in u.heap then LeftOver(s.heap[id], u.heap[id]) else Clean(s.heap[id])
    requires Partings(u.log, {id}) == Partings(Shut(s, id).log, {id}) +
             Raised(Actions.Executed(s.heap[id].On(CLOSED)), id)
    ensures Shrunk(s, u, pinned, {}) && !OpenIn(u.heap, id)
    ensures Partings(u.log, {id}) == Partings(s.log, {id}) + CloseEvents(s.heap[id], id)
  {
    ShutHeard(s, id, pinned);
    Appended(Partings(s.log, {id}), [SysClose(id, s.heap[id].fd)], Raised(Actions.Executed(s.heap[id].On(CLOSED)), id));
    assert Shut(s, id).heap.Keys == s.heap.Keys && OpenIds(Shut(s, id).heap) <= OpenIds(s.heap);
    ShutPtrs(s, id, u);
    FatesAfterShut(s.heap, u.heap, id, pinned);
    assert s.log <= Shut(s, id).log;
  }

  lemma ShutHeard(s: State, id: ObjId, pinned: set<ObjId>)
    requires s.Live(id) && s.table.Aligned()
    ensures Partings(Shut(s, id).log, {id}) == Partings(s.log, {id}) + [SysClose(id, s.heap[id].fd)]
    ensures id !in pinned ==> Partings(Shut(s, id).log, pinned) == Partings(s.log, pinned)
  {
    PartingsAfter(s.log, SysClose(id, s.heap[id].fd), pinned);
    PartingsAfter(s.log, SysClose(id, s.heap[id].fd), {id});
  }

  /** What is left of a socket whose CLOSED list stopped before the erase action. */
  predicate LeftOver(sock: Sock, sock': Sock) {
    !Clean(sock) && !Clean(sock') && sock'.fd == -1 && sock'.owner == sock.owner && sock'.key == sock.key
  }

  lemma ShutPtrs(s: State, id: ObjId, u: State)
    requires s.OpenAt(id) && s.table.Aligned() && Shut(s, id).table.ptrs == Without(s.table.ptrs, {id})
    requires u.table.ptrs == Without(Shut(s, id).table.ptrs, s.heap.Keys - OpenIds(u.heap))
    requires id !in OpenIds(u.heap)
    ensures u.table.ptrs == Without(s.table.ptrs, s.heap.Keys - OpenIds(u.heap))
  {
    WithoutTwice(s.table.ptrs, {id}, s.heap.Keys - OpenIds(u.heap));
    assert {id} + (s.heap.Keys - OpenIds(u.heap)) == s.heap.Keys - OpenIds(u.heap);
  }

  lemma FatesAfterShut(heap: Heap, heap': Heap, id: ObjId, pinned: set<ObjId>)
    requires OpenIn(heap, id) && id !in pinned
    requires forall k: ObjId :: k in heap && k != id ==> Fate(heap[id := heap[id].(fd := -1)], heap', pinned, k)
    requires if id in heap' then LeftOver(heap[id], heap'[id]) else Clean(heap[id])
    ensures forall k: ObjId :: k in heap ==> Fate(heap, heap', pinned, k)
  {
    forall k: ObjId | k in heap ensures Fate(heap, heap', pinned, k) {
      if k != id { assert Fate(heap[id := heap[id].(fd := -1)], heap', pinned, k); }
    }
  }

  // ------------------------------------------------------------------------------------------
  // Containers
  // ------------------------------------------------------------------------------------------

  /** A container whose sockets are all open and clean stays so under user code. */
  lemma StaysReady(s: State, u: State, pinned: set<ObjId>, o: Owner)
    requires Shrunk(s, u, pinned, {}) && Ready(s.heap, o)
    ensures Ready(u.heap, o)
  {
    forall id: ObjId | id in u.heap && u.heap[id].owner == o ensures u.heap[id].Open() && Clean(u.heap[id]) {
      assert Fate(s.heap, u.heap, pinned, id);
    }
  }

  lemma FewerOpen(s: State, u: State, pinned: set<ObjId>, but: set<ObjId>)
    requires Shrunk(s, u, pinned, but)
    ensures |OpenIds(u.heap)| <= |OpenIds(s.heap)|
    ensures forall id: ObjId :: OpenIn(s.heap, id) && !OpenIn(u.heap, id) ==> |OpenIds(u.heap)| < |OpenIds(s.heap)|
  {
    Subset(OpenIds(u.heap), OpenIds(s.heap));
    forall id: ObjId | OpenIn(s.heap, id) && !OpenIn(u.heap, id) ensures |OpenIds(u.heap)| < |OpenIds(s.heap)| {
      Subset(OpenIds(u.heap), OpenIds(s.heap) - {id});
    }
  }

  lemma Subset<T>(a: set<T>, b: set<T>)
    requires a <= b
    ensures |a| <= |b|
  {
    assert b == a + (b - a);
  }

  lemma ShutFewer(s: State, id: ObjId)
    requires s.OpenAt(id) && s.table.Aligned()
    ensures |OpenIds(Shut(s, id).heap)| < |OpenIds(s.heap)|
  {
    assert OpenIds(Shut(s, id).heap) == OpenIds(s.heap) - {id};
  }
}
