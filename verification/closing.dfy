/** Closing sockets and whole containers when user code does nothing in its callbacks.
    Models `socket::close` of includes/socket/socket.hpp, `socket_container::close` of
    includes/socket/socket_container.hpp and the close methods of tcp::server and tcp::client. */
module Closing {
  import opened PollHandler
  import opened Core
  import opened Safety
  import Actions
  import Machine

  function Front(list: seq<Callback>): seq<Callback> {
    if list == [] then [] else list[..|list| - 1]
  }

  /** No callback before the last one on CLOSED, the erase action, stops the list. */
  predicate Clean(sock: Sock) {
    forall cb :: cb in Front(sock.On(CLOSED)) ==> !cb.Stops()
  }

  /** The events the library's callbacks raise. */
  function Raised(ran: seq<Core.Exec>, id: ObjId): seq<Event> {
    if ran == [] then []
    else
      (match ran[0]
       case RaiseClosed => [Closed(id)]
       case RaiseDisconnect => [Disconnected(id)]
       case _ => []) + Raised(ran[1..], id)
  }

  /** The events of closing socket `id`. */
  function CloseEvents(sock: Sock, id: ObjId): seq<Event> {
    [SysClose(id, sock.fd)] + Raised(Actions.Executed(sock.On(CLOSED)), id)
  }

  function EraseOf(sock: Sock): Core.Exec {
    Erase(sock.owner, sock.key)
  }

  /** The CLOSED list of `id` executed with passive user code: its events raised, and the object destroyed if the erase
      action is among the callbacks that ran. */
  function RanQuietly(s: State, id: ObjId): State
    requires s.Live(id)
  {
    var sock := s.heap[id];
    var ran := Actions.Executed(sock.On(CLOSED));
    var s1 := s.(log := s.log + Raised(ran, id));
    if EraseOf(sock) in ran then Erased(s1, sock.owner, sock.key) else s1
  }

  /** `socket::close` with passive user code: out of the handler, descriptor closed, CLOSED list executed. */
  function ClosedQuietly(s: State, id: ObjId): State
    requires s.Live(id) && s.table.Aligned()
  {
    if !s.heap[id].Open() then s else RanQuietly(Shut(s, id), id)
  }

  /** The erase action runs exactly on clean lists. */
  lemma ErasesIffClean(sock: Sock)
    requires EraseIsLast(sock)
    ensures EraseOf(sock) in Actions.Executed(sock.On(CLOSED)) <==> Clean(sock)
  {
    var list := sock.On(CLOSED);
    var front, last := list[..|list| - 1], list[|list| - 1];
    assert list == front + [last];
    NotActive(front, EraseOf(sock));
    Actions.LastRunsIff(front, last);
  }

  lemma {:induction false} NotActive(list: seq<Callback>, e: Core.Exec)
    requires NoErase(list) && e.Erase?
    ensures e !in Actions.Active(list)
  {
    if list == [] {
    } else {
      assert list[0] in list;
      assert forall cb :: cb in list[1..] ==> cb in list;
      NotActive(list[1..], e);
    }
  }

  lemma LogOnly(s: State, log: seq<Event>)
    requires Valid(s)
    ensures Valid(s.(log := log))
  {
  }

  lemma RanQuietlyKeeps(s: State, id: ObjId)
    requires Valid(s) && s.Live(id) && !s.heap[id].Open()
    ensures Valid(RanQuietly(s, id))
  {
    var s1 := s.(log := s.log + Raised(Actions.Executed(s.heap[id].On(CLOSED)), id));
    LogOnly(s, s1.log);
    ErasedKeeps(s1, id);
  }

  lemma ClosedQuietlyKeeps(s: State, id: ObjId)
    requires Valid(s) && s.Live(id)
    ensures Valid(ClosedQuietly(s, id))
  {
    if s.heap[id].Open() {
      ShutKeeps(s, id);
      RanQuietlyKeeps(Shut(s, id), id);
    }
  }

  /** What closing an open, clean socket does: the object is gone, everything else in the heap and in the maps is
      untouched, its two vector entries are cut out, its events are appended. */
  ghost predicate ClosedOne(s: State, id: ObjId, u: State)
    requires s.Live(id)
  {
    var holds :=
      && u.heap == s.heap - {id}
      && u.owned == s.owned - {Key(s.heap[id].owner, s.heap[id].key)}
      && u.table.ptrs == Without(s.table.ptrs, {id})
      && u.log == s.log + CloseEvents(s.heap[id], id)
      && u.kernel == s.kernel - {s.heap[id].fd}
      && u.nextId == s.nextId;
    holds
  }

  lemma ClosedCleanly(s: State, id: ObjId)
    requires Valid(s) && s.OpenAt(id) && Clean(s.heap[id])
    ensures ClosedOne(s, id, ClosedQuietly(s, id))
  {
    ErasesIffClean(s.heap[id]);
    OwnKey(s, id);
    PtrsDiffer(s);
    var d := ShutTable(s, id);
    CutIsWithout(s.table.ptrs, d);
    ClosedOneIs(s, id, d);
  }

  lemma OwnKey(s: State, id: ObjId)
    requires ContainersMatch(s.heap, s.owned, s.nextId) && s.Live(id)
    ensures var k := Key(s.heap[id].owner, s.heap[id].key); k in s.owned && s.owned[k] == id
    ensures s.heap[id].Open() ==> s.heap[id].key == s.heap[id].fd
  {
  }

  lemma ClosedOneIs(s: State, id: ObjId, d: nat)
    requires s.OpenAt(id) && s.table.Aligned() && EraseOf(s.heap[id]) in Actions.Executed(s.heap[id].On(CLOSED))
    requires var k := Key(s.heap[id].owner, s.heap[id].key); k in s.owned && s.owned[k] == id
    requires d < |s.table.ptrs| && Shut(s, id).table.ptrs == s.table.ptrs[..d] + s.table.ptrs[d + 1..]
    requires Without(s.table.ptrs, {id}) == s.table.ptrs[..d] + s.table.ptrs[d + 1..]
    ensures ClosedOne(s, id, ClosedQuietly(s, id))
  {
    var u := ClosedQuietly(s, id);
    assert u.heap == s.heap - {id};
    assert Shut(s, id).heap[id].On(CLOSED) == s.heap[id].On(CLOSED);
    Appended(s.log, [SysClose(id, s.heap[id].fd)], Raised(Actions.Executed(s.heap[id].On(CLOSED)), id));
  }

  lemma PtrsDiffer(s: State)
    requires Valid(s)
    ensures DistinctPtrs(s.table.ptrs)
  {
  }

  /** The pointers not in `gone`, in order. */
  function Without(ptrs: seq<ObjId>, gone: set<ObjId>): seq<ObjId> {
    if ptrs == [] then []
    else if ptrs[0] in gone then Without(ptrs[1..], gone)
    else [ptrs[0]] + Without(ptrs[1..], gone)
  }

  lemma {:induction false} CutIsWithout(ptrs: seq<ObjId>, d: nat)
    requires d < |ptrs| && DistinctPtrs(ptrs)
    ensures Without(ptrs, {ptrs[d]}) == ptrs[..d] + ptrs[d + 1..]
  {
    if d == 0 {
      NoneGone(ptrs[1..], {ptrs[0]});
    } else {
      CutIsWithout(ptrs[1..], d - 1);
      assert ptrs[..d] == [ptrs[0]] + ptrs[1..][..d - 1];
    }
  }

  lemma {:induction false} NoneGone(ptrs: seq<ObjId>, gone: set<ObjId>)
    requires forall p :: p in ptrs ==> p !in gone
    ensures Without(ptrs, gone) == ptrs
  {
    if ptrs == [] {
    } else {
      NoneGone(ptrs[1..], gone);
    }
  }

  lemma {:induction false} WithoutTwice(ptrs: seq<ObjId>, a: set<ObjId>, b: set<ObjId>)
    ensures Without(Without(ptrs, a), b) == Without(ptrs, a + b)
  {
    if ptrs == [] {
    } else {
      WithoutTwice(ptrs[1..], a, b);
      if ptrs[0] !in a {
        assert ([ptrs[0]] + Without(ptrs[1..], a))[1..] == Without(ptrs[1..], a);
      }
    }
  }

  /** An unclean socket is left behind: closed, in its container, out of the handler. */
  lemma ClosedUncleanly(s: State, id: ObjId)
    requires Valid(s) && s.OpenAt(id) && !Clean(s.heap[id])
    ensures var u := ClosedQuietly(s, id); u.heap == s.heap[id := s.heap[id].(fd := -1)] && u.owned == s.owned
  {
    ErasesIffClean(s.heap[id]);
  }

  // ------------------------------------------------------------------------------------------
  // The loop of socket_container::close
  // ------------------------------------------------------------------------------------------

  /** The socket the loop closes next. */
  function First(s: State, o: Owner): ObjId
    requires s.KeysOf(o) != {}
  {
    s.owned[Key(o, Machine.Least(s.KeysOf(o)))]
  }

  lemma FirstIsLive(s: State, o: Owner)
    requires Valid(s) && s.KeysOf(o) != {}
    ensures s.Live(First(s, o)) && s.heap[First(s, o)].owner == o
    ensures s.heap[First(s, o)].key == Machine.Least(s.KeysOf(o))
    ensures s.table.Aligned()
  {
    assert Key(o, Machine.Least(s.KeysOf(o))) in s.owned;
  }

  /** The condition that ends the loop. */
  predicate Empty(s: State, o: Owner) {
    var empty := s.KeysOf(o) == {};
    empty
  }

  /** One turn of the loop, or nothing when the loop is over. */
  function Turn(s: State, o: Owner): State {
    if s.KeysOf(o) == {} || !s.Live(First(s, o)) || !s.table.Aligned() then s else ClosedQuietly(s, First(s, o))
  }

  function Iterate<S>(step: S -> S, s: S, n: nat): S
    decreases n
  {
    if n == 0 then s else Iterate(step, step(s), n - 1)
  }

  lemma {:induction false} Always<S(!new)>(step: S -> S, p: S -> bool, s: S, n: nat)
    requires p(s) && forall x :: p(x) ==> p(step(x))
    ensures p(Iterate(step, s, n))
    decreases n
  {
    if n == 0 {
    } else {
      Always(step, p, step(s), n - 1);
    }
  }

  /** The state after `n` turns of the loop. */
  function Turns(s: State, o: Owner, n: nat): State {
    var after := Iterate(x => Turn(x, o), s, n);
    after
  }

  /** Every socket of the container is open and its erase action will run. */
  predicate Ready(heap: Heap, o: Owner) {
    var holds := forall id: ObjId :: id in heap && heap[id].owner == o ==> heap[id].Open() && Clean(heap[id]);
    holds
  }

  lemma FirstIsReady(s: State, o: Owner)
    requires Valid(s) && Ready(s.heap, o) && s.KeysOf(o) != {}
    ensures var id := First(s, o);
            s.OpenAt(id) && Clean(s.heap[id]) && s.heap[id].owner == o && s.heap[id].key == Machine.Least(s.KeysOf(o))
    ensures Turn(s, o) == ClosedQuietly(s, First(s, o))
  {
    FirstIsLive(s, o);
  }

  lemma TurnCloses(s: State, o: Owner)
    requires Valid(s) && Ready(s.heap, o) && s.KeysOf(o) != {}
    ensures s.OpenAt(First(s, o)) && s.heap[First(s, o)].owner == o && ClosedOne(s, First(s, o), Turn(s, o))
    ensures Valid(Turn(s, o)) && Ready(Turn(s, o).heap, o)
    ensures Turn(s, o).KeysOf(o) == s.KeysOf(o) - {Machine.Least(s.KeysOf(o))}
  {
    FirstIsReady(s, o);
    ClosedQuietlyKeeps(s, First(s, o));
    ClosedCleanly(s, First(s, o));
    AfterOne(s, First(s, o), Turn(s, o));
  }

  lemma AfterOne(s: State, id: ObjId, u: State)
    requires s.Live(id) && ClosedOne(s, id, u) && Ready(s.heap, s.heap[id].owner)
    ensures Ready(u.heap, s.heap[id].owner)
    ensures u.KeysOf(s.heap[id].owner) == s.KeysOf(s.heap[id].owner) - {s.heap[id].key}
  {
  }

  /** One object that is closed, or will not erase itself, keeps the container non-empty for ever. */
  ghost predicate Stuck(heap: Heap, o: Owner) {
    var holds := exists id: ObjId :: id in heap && heap[id].owner == o && !(heap[id].Open() && Clean(heap[id]));
    holds
  }

  lemma StuckKeys(s: State, o: Owner)
    requires Valid(s) && Stuck(s.heap, o)
    ensures !Empty(s, o)
  {
    var id: ObjId :| id in s.heap && s.heap[id].owner == o && !(s.heap[id].Open() && Clean(s.heap[id]));
    OwnKey(s, id);
    assert s.heap[id].key in s.KeysOf(o);
  }

  ghost predicate Jammed(s: State, o: Owner) {
    var jammed := Valid(s) && Stuck(s.heap, o);
    jammed
  }

  lemma TurnJams(s: State, o: Owner)
    requires Jammed(s, o)
    ensures !Empty(s, o) && Jammed(Turn(s, o), o)
  {
    StuckKeys(s, o);
    FirstIsLive(s, o);
    ClosedQuietlyKeeps(s, First(s, o));
    StuckSurvives(s, First(s, o), o);
  }

  lemma StuckSurvives(s: State, first: ObjId, o: Owner)
    requires Valid(s) && s.Live(first) && Stuck(s.heap, o)
    ensures Stuck(ClosedQuietly(s, first).heap, o)
  {
    if s.heap[first].Open() {
      assert EraseIsLast(s.heap[first]);
      if Clean(s.heap[first]) {
        ClosedCleanly(s, first);
        OneFewer(s, first, ClosedQuietly(s, first), o);
      } else {
        ClosedUncleanly(s, first);
        LeftBehind(s.heap, first, o);
      }
    }
  }

  lemma OneFewer(s: State, first: ObjId, u: State, o: Owner)
    requires s.OpenAt(first) && Clean(s.heap[first]) && ClosedOne(s, first, u) && Stuck(s.heap, o)
    ensures Stuck(u.heap, o)
  {
    var id: ObjId :| id in s.heap && s.heap[id].owner == o && !(s.heap[id].Open() && Clean(s.heap[id]));
    assert id in u.heap && u.heap[id] == s.heap[id];
  }

  lemma LeftBehind(heap: Heap, first: ObjId, o: Owner)
    requires first in heap && Stuck(heap, o)
    ensures Stuck(heap[first := heap[first].(fd := -1)], o)
  {
    var id: ObjId :| id in heap && heap[id].owner == o && !(heap[id].Open() && Clean(heap[id]));
    assert id in heap[first := heap[first].(fd := -1)];
  }

  // ------------------------------------------------------------------------------------------
  // What closing a container does
  // ------------------------------------------------------------------------------------------

  /** A set of keys in ascending order. */
  function Ascending(keys: set<int>): seq<int>
    decreases |keys|
  {
    if keys == {} then [] else [Machine.Least(keys)] + Ascending(keys - {Machine.Least(keys)})
  }

  lemma {:induction false} AscendingIsSorted(keys: set<int>)
    ensures forall i, j :: 0 <= i < j < |Ascending(keys)| ==> Ascending(keys)[i] < Ascending(keys)[j]
    ensures forall k :: k in Ascending(keys) <==> k in keys
    decreases |keys|
  {
    if keys == {} {
    } else {
      var least := Machine.Least(keys);
      AscendingIsSorted(keys - {least});
      SortedWithLeast(keys, least, Ascending(keys - {least}));
    }
  }

  lemma SortedWithLeast(keys: set<int>, least: int, rest: seq<int>)
    requires least in keys && (forall k :: k in keys ==> least <= k) && (forall k :: k in rest <==> k in keys - {least})
    requires forall i, j :: 0 <= i < j < |rest| ==> rest[i] < rest[j]
    ensures forall i, j :: 0 <= i < j < |[least] + rest| ==> ([least] + rest)[i] < ([least] + rest)[j]
    ensures forall k :: k in [least] + rest <==> k in keys
  {
    forall k ensures k in [least] + rest <==> k in keys {
      assert k in [least] + rest <==> k == least || k in rest;
    }
    forall i, j | 0 <= i < j < |[least] + rest| ensures ([least] + rest)[i] < ([least] + rest)[j] {
      assert ([least] + rest)[j] == rest[j - 1] && rest[j - 1] in keys - {least};
    }
  }

  /** The sockets of a container. */
  function Members(heap: Heap, o: Owner): set<ObjId> {
    set id | id in heap && heap[id].owner == o
  }

  /** The events of closing the sockets under `keys` one after the other. */
  function EventsOf(s: State, o: Owner, keys: seq<int>): seq<Event> {
    if keys == [] then []
    else
      (var k := Key(o, keys[0]);
       if k in s.owned && s.Live(s.owned[k]) then CloseEvents(s.heap[s.owned[k]], s.owned[k]) else []) +
      EventsOf(s, o, keys[1..])
  }

  /** The same object, unchanged, under `k` in both states. */
  predicate SameUnder(s: State, u: State, k: Key) {
    && k in s.owned && k in u.owned && s.owned[k] == u.owned[k]
    && s.Live(s.owned[k]) && u.Live(s.owned[k]) && s.heap[s.owned[k]] == u.heap[s.owned[k]]
  }

  lemma {:induction false} EventsSame(s: State, u: State, o: Owner, keys: seq<int>)
    requires forall k :: k in keys ==> SameUnder(s, u, Key(o, k))
    ensures EventsOf(s, o, keys) == EventsOf(u, o, keys)
  {
    if keys == [] {
    } else {
      assert SameUnder(s, u, Key(o, keys[0]));
      EventsSame(s, u, o, keys[1..]);
    }
  }

  function Under(owned: map<Key, ObjId>, o: Owner): set<Key> {
    set k | k in owned && k.owner == o
  }

  /** Everything the container held is gone; all else is as it was: other objects, other containers, the other
      entries of the handler in their order. The sockets were closed in ascending descriptor order, each once. */
  ghost predicate Drained(s: State, o: Owner, u: State) {
    var holds :=
      && u.heap == s.heap - Members(s.heap, o)
      && u.owned == s.owned - Under(s.owned, o)
      && u.table.ptrs == Without(s.table.ptrs, Members(s.heap, o))
      && u.log == s.log + EventsOf(s, o, Ascending(s.KeysOf(o)))
      && u.kernel == s.kernel - s.KeysOf(o)
      && u.nextId == s.nextId;
    holds
  }

  lemma {:induction false} ClosesInOrder(s: State, o: Owner, n: nat)
    requires Valid(s) && Ready(s.heap, o) && |s.KeysOf(o)| == n
    ensures Valid(Turns(s, o, n)) && Drained(s, o, Turns(s, o, n))
    decreases n
  {
    if n == 0 {
      NothingToDrain(s, o);
    } else {
      TurnCloses(s, o);
      ClosesInOrder(Turn(s, o), o, n - 1);
      DrainedAfterTurn(s, o, Turns(Turn(s, o), o, n - 1));
    }
  }

  /** Draining what one turn leaves drains the whole. */
  lemma DrainedAfterTurn(s: State, o: Owner, u: State)
    requires Valid(s) && Ready(s.heap, o) && s.KeysOf(o) != {} && Drained(Turn(s, o), o, u)
    ensures Drained(s, o, u)
  {
    TurnCloses(s, o);
    FirstIsReady(s, o);
    OwnKey(s, First(s, o));
    RestOfEvents(s, o, First(s, o), Turn(s, o));
    DrainsOn(s, o, First(s, o), Turn(s, o), u);
  }

  /** The loop of `socket_container::close` ends, with an empty map, exactly when every socket of the container is open
      and no callback on its CLOSED list other than the erase action stops the list. */
  lemma CloseEndsIff(s: State, o: Owner)
    requires Valid(s)
    ensures (exists n: nat :: Turns(s, o, n).KeysOf(o) == {}) <==> Ready(s.heap, o)
  {
    if Ready(s.heap, o) {
      ClosesInOrder(s, o, |s.KeysOf(o)|);
      DrainedIsEmpty(s, o, Turns(s, o, |s.KeysOf(o)|));
    } else {
      forall n: nat ensures Turns(s, o, n).KeysOf(o) != {} {
        StuckForever(s, o, n);
      }
    }
  }

  lemma DrainedIsEmpty(s: State, o: Owner, u: State)
    requires Drained(s, o, u)
    ensures u.KeysOf(o) == {}
  {
  }

  lemma StuckForever(s: State, o: Owner, n: nat)
    requires Valid(s) && !Ready(s.heap, o)
    ensures Turns(s, o, n).KeysOf(o) != {}
  {
    assert Jammed(s, o);
    forall x | Jammed(x, o) ensures Jammed(Turn(x, o), o) { TurnJams(x, o); }
    Always(x => Turn(x, o), x => Jammed(x, o), s, n);
    TurnJams(Turns(s, o, n), o);
  }

  lemma NothingToDrain(s: State, o: Owner)
    requires ContainersMatch(s.heap, s.owned, s.nextId) && s.KeysOf(o) == {}
    ensures Drained(s, o, s)
  {
    forall id: ObjId | id in s.heap ensures s.heap[id].owner != o {
      OwnKey(s, id);
      assert Key(s.heap[id].owner, s.heap[id].key) in s.owned;
      assert s.heap[id].key in s.KeysOf(s.heap[id].owner);
    }
    assert Members(s.heap, o) == {};
    NoneGone(s.table.ptrs, {});
    forall k | k in s.owned ensures k.owner != o { assert k.fd in s.KeysOf(k.owner); }
    assert Under(s.owned, o) == {};
  }

  /** A turn followed by the rest. */
  lemma DrainsOn(s: State, o: Owner, id: ObjId, t: State, u: State)
    requires s.OpenAt(id) && s.heap[id].owner == o && s.heap[id].key == s.heap[id].fd && ClosedOne(s, id, t)
    requires Drained(t, o, u)
    requires Key(o, s.heap[id].key) in s.owned
    requires EventsOf(s, o, Ascending(s.KeysOf(o))) ==
             CloseEvents(s.heap[id], id) + EventsOf(t, o, Ascending(t.KeysOf(o)))
    ensures Drained(s, o, u)
  {
    assert Members(s.heap, o) == {id} + Members(t.heap, o);
    WithoutTwice(s.table.ptrs, {id}, Members(t.heap, o));
    assert u.heap == s.heap - Members(s.heap, o);
    KeysDrained(s, o, s.heap[id].fd, t, u);
    Appended(s.log, CloseEvents(s.heap[id], id), EventsOf(t, o, Ascending(t.KeysOf(o))));
  }

  lemma KeysDrained(s: State, o: Owner, fd: int, t: State, u: State)
    requires Key(o, fd) in s.owned && t.owned == s.owned - {Key(o, fd)} && t.kernel == s.kernel - {fd}
    requires u.owned == t.owned - Under(t.owned, o) && u.kernel == t.kernel - t.KeysOf(o)
    ensures u.owned == s.owned - Under(s.owned, o) && u.kernel == s.kernel - s.KeysOf(o)
  {
    assert Under(s.owned, o) == {Key(o, fd)} + Under(t.owned, o);
    assert s.KeysOf(o) == {fd} + t.KeysOf(o);
  }

  lemma Appended<T>(a: seq<T>, b: seq<T>, c: seq<T>)
    ensures a + b + c == a + (b + c)
  {
  }

  lemma RestOfEvents(s: State, o: Owner, id: ObjId, t: State)
    requires ContainersMatch(s.heap, s.owned, s.nextId) && s.OpenAt(id) && s.heap[id].owner == o && ClosedOne(s, id, t)
    requires s.KeysOf(o) != {} && s.heap[id].key == Machine.Least(s.KeysOf(o))
    requires t.KeysOf(o) == s.KeysOf(o) - {s.heap[id].key}
    ensures EventsOf(s, o, Ascending(s.KeysOf(o))) ==
            CloseEvents(s.heap[id], id) + EventsOf(t, o, Ascending(t.KeysOf(o)))
  {
    var rest := Ascending(t.KeysOf(o));
    OwnKey(s, id);
    assert ([s.heap[id].key] + rest)[1..] == rest;
    AscendingIsSorted(t.KeysOf(o));
    forall k | k in rest ensures SameUnder(s, t, Key(o, k)) {
      assert k in s.KeysOf(o) && k != s.heap[id].key;
    }
    EventsSame(s, t, o, rest);
  }

  // ------------------------------------------------------------------------------------------
  // Closing a server
  // ------------------------------------------------------------------------------------------

  /** What a server hears of a socket it closes. */
  function Farewell(o: Owner, id: ObjId): Event {
    if o.Clients? then Disconnected(id) else Closed(id)
  }

  /** For each key in order: the descriptor is closed, then the server hears of it. */
  function Farewells(owned: map<Key, ObjId>, o: Owner, keys: seq<int>): seq<Event> {
    if keys == [] then []
    else
      (var k := Key(o, keys[0]);
       if k in owned then [SysClose(owned[k], keys[0]), Farewell(o, owned[k])] else []) + Farewells(owned, o, keys[1..])
  }

  /** The farewells of a whole container, in ascending descriptor order. */
  function AllFarewells(s: State, o: Owner): seq<Event> {
    Farewells(s.owned, o, Ascending(s.KeysOf(o)))
  }

  lemma {:induction false} OthersRaiseNothing(list: seq<Callback>, id: ObjId)
    requires forall cb :: cb in list ==> cb.exec.User? || cb.exec.Erase?
    ensures Raised(Actions.Executed(list), id) == []
  {
    if list == [] {
    } else {
      assert list[0] in list;
      OthersRaiseNothing(list[1..], id);
      assert ([list[0].exec] + Actions.Executed(list[1..]))[1..] == Actions.Executed(list[1..]);
      assert [list[0].exec][1..] == [];
    }
  }

  lemma CloseIsFarewell(sock: Sock, id: ObjId)
    requires RoleOk(sock)
    ensures CloseEvents(sock, id) == [SysClose(id, sock.fd), Farewell(sock.owner, id)]
  {
    var list := sock.On(CLOSED);
    OthersRaiseNothing(list[1..], id);
    assert ([list[0].exec] + Actions.Executed(list[1..]))[1..] == Actions.Executed(list[1..]);
  }

  lemma {:induction false} EventsAreFarewells(s: State, o: Owner, keys: seq<int>)
    requires Roles(s.heap)
    requires forall k :: k in keys ==> Key(o, k) in s.owned && MemberUnder(s, Key(o, k))
    ensures EventsOf(s, o, keys) == Farewells(s.owned, o, keys)
  {
    if keys == [] {
    } else {
      var id := s.owned[Key(o, keys[0])];
      assert MemberUnder(s, Key(o, keys[0]));
      CloseIsFarewell(s.heap[id], id);
      EventsAreFarewells(s, o, keys[1..]);
    }
  }

  /** An open object of the right container under `k`. */
  predicate MemberUnder(s: State, k: Key)
    requires k in s.owned
  {
    s.OpenAt(s.owned[k]) && s.heap[s.owned[k]].owner == k.owner && s.heap[s.owned[k]].fd == k.fd
  }

  lemma DrainedFarewells(s: State, o: Owner, u: State)
    requires Valid(s) && Roles(s.heap) && Ready(s.heap, o) && Drained(s, o, u)
    ensures u.log == s.log + AllFarewells(s, o)
  {
    AscendingIsSorted(s.KeysOf(o));
    forall k | k in Ascending(s.KeysOf(o)) ensures Key(o, k) in s.owned && MemberUnder(s, Key(o, k)) {
      MemberAt(s, Key(o, k));
    }
    EventsAreFarewells(s, o, Ascending(s.KeysOf(o)));
  }

  lemma MemberAt(s: State, k: Key)
    requires Valid(s) && Ready(s.heap, k.owner) && k in s.owned
    ensures MemberUnder(s, k)
  {
  }

  lemma {:induction false} FarewellsSame(a: map<Key, ObjId>, b: map<Key, ObjId>, o: Owner, keys: seq<int>)
    requires forall k :: k in keys ==> Key(o, k) in a && Key(o, k) in b && a[Key(o, k)] == b[Key(o, k)]
    ensures Farewells(a, o, keys) == Farewells(b, o, keys)
  {
    if keys == [] {
    } else {
      FarewellsSame(a, b, o, keys[1..]);
    }
  }

  /** The two loops of `server_impl::close`, clients first, seen from the state before. */
  ghost predicate ServerGone(s: State, server: nat, u: State)
  {
    var c, l := Clients(server), Listeners(server);
    && u.heap == s.heap - Members(s.heap, c) - Members(s.heap, l)
    && u.owned == s.owned - Under(s.owned, c) - Under(s.owned, l)
    && u.table.ptrs == Without(s.table.ptrs, Members(s.heap, c) + Members(s.heap, l))
    && u.log == s.log + AllFarewells(s, c) + AllFarewells(s, l)
  }

  /** `server_impl::close` with passive user code raises every DISCONNECT in ascending descriptor order and then every
      listener's CLOSED in ascending descriptor order, each after its descriptor was closed and each once. */
  lemma ServerCloses(s: State, server: nat, m: State, u: State)
    requires Valid(s) && Roles(s.heap) && Ready(s.heap, Clients(server)) && Ready(s.heap, Listeners(server))
    requires Drained(s, Clients(server), m) && Drained(m, Listeners(server), u) && Valid(m)
    ensures ServerGone(s, server, u)
  {
    var c, l := Clients(server), Listeners(server);
    AscendingIsSorted(s.KeysOf(l));
    DrainedFarewells(s, c, m);
    Untouched(s, c, m, l);
    DrainedFarewells(m, l, u);
    FarewellsSame(m.owned, s.owned, l, Ascending(s.KeysOf(l)));
    WithoutTwice(s.table.ptrs, Members(s.heap, c), Members(m.heap, l));
  }

  /** Draining one container leaves the others as they were. */
  lemma Untouched(s: State, o: Owner, m: State, other: Owner)
    requires Drained(s, o, m) && other != o && Roles(s.heap)
    ensures Roles(m.heap) && m.KeysOf(other) == s.KeysOf(other) && Members(m.heap, other) == Members(s.heap, other)
    ensures Under(m.owned, other) == Under(s.owned, other)
    ensures Ready(s.heap, other) ==> Ready(m.heap, other)
    ensures forall k :: k in s.owned && k.owner == other ==> k in m.owned && m.owned[k] == s.owned[k]
  {
    assert forall k :: k in s.owned && k.owner == other ==> k in m.owned && m.owned[k] == s.owned[k];
    assert m.KeysOf(other) == s.KeysOf(other);
  }

  /** After a server was closed the handler is empty, so that the next `events::poll` returns false, exactly when no
      other entity has an open socket. */
  lemma PollEndsIffNothingElse(s: State, server: nat, u: State)
    requires HandlerMatches(u.table, u.heap)
    requires u.heap == s.heap - Members(s.heap, Clients(server)) - Members(s.heap, Listeners(server))
    ensures u.table.sockets == [] <==>
            forall id: ObjId :: s.OpenAt(id) ==> s.heap[id].owner in {Clients(server), Listeners(server)}
  {
    EmptyIffNoneOpen(u);
    assert forall id: ObjId ::
        u.OpenAt(id) <==> s.OpenAt(id) && s.heap[id].owner !in {Clients(server), Listeners(server)};
  }

  lemma EmptyIffNoneOpen(u: State)
    requires HandlerMatches(u.table, u.heap)
    ensures u.table.sockets == [] <==> forall id: ObjId :: !OpenIn(u.heap, id)
  {
    if u.table.sockets != [] {
      assert OpenIn(u.heap, u.table.ptrs[0]);
    }
  }
}
