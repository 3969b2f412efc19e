/** The order in which sockets are closed when user code closes some of them itself. The sockets of a container stand
    in a line by descriptor, those of a server in one with its clients before its listeners. The order is kept
    exactly if user code never closes a socket out of turn. */
module Order {
  import opened PollHandler
  import opened Core
  import opened Closing
  import opened EngineFacts
  import opened Reentry
  import Actions
  import Machine
  import Safety
  import SendQueue

  // ------------------------------------------------------------------------------------------
  // Lines
  // ------------------------------------------------------------------------------------------

  datatype Line = OfContainer(o: Owner) | OfServer(server: nat)

  /** User code closed `id` out of its turn in `line`. */
  datatype Stray = Stray(line: Line, id: ObjId)

  function LinesOf(o: Owner): set<Line> {
    match o
    case Clients(server) => {OfContainer(o), OfServer(server)}
    case Listeners(server) => {OfContainer(o), OfServer(server)}
    case Peers(_) => {OfContainer(o)}
  }

  /** The open sockets of a container. */
  function OpenMembers(heap: Heap, o: Owner): set<ObjId> {
    set id | id in heap && heap[id].owner == o && heap[id].Open()
  }

  /** The open sockets of a line. */
  function InLine(heap: Heap, line: Line): set<ObjId> {
    match line
    case OfContainer(o) => OpenMembers(heap, o)
    case OfServer(server) => OpenMembers(heap, Clients(server)) + OpenMembers(heap, Listeners(server))
  }

  predicate Before(a: Sock, b: Sock) {
    (a.owner == b.owner && a.fd < b.fd) || (a.owner.Clients? && b.owner.Listeners?)
  }

  /** Of the open sockets of the line, `id` is the first. */
  predicate HasTurn(heap: Heap, line: Line, id: ObjId)
    requires id in heap
  {
    forall x: ObjId :: x in InLine(heap, line) && x != id ==> Before(heap[id], heap[x])
  }

  /** Closing the open socket `id` now is out of turn in these. */
  function StraysOf(heap: Heap, id: ObjId): set<Stray>
    requires id in heap
  {
    set line | line in LinesOf(heap[id].owner) && !HasTurn(heap, line, id) :: Stray(line, id)
  }

  function OpenKeys(heap: Heap, o: Owner): set<int> {
    set id | id in heap && heap[id].owner == o && heap[id].Open() :: heap[id].fd
  }

  /** The farewells of the open sockets of a container, in ascending descriptor order. */
  function Goodbyes(s: State, o: Owner): seq<Event> {
    Farewells(s.owned, o, Ascending(OpenKeys(s.heap, o)))
  }

  /** What is heard if the open sockets of the line are closed in turn. */
  function Waiting(s: State, line: Line): seq<Event> {
    match line
    case OfContainer(o) => Goodbyes(s, o)
    case OfServer(server) => Goodbyes(s, Clients(server)) + Goodbyes(s, Listeners(server))
  }

  predicate NoStray(ids: set<ObjId>, line: Line, strays: set<Stray>) {
    forall id: ObjId :: id in ids ==> Stray(line, id) !in strays
  }

  /** What was heard of the line from `s` to `u`. */
  function Heard(s: State, u: State, line: Line): seq<Event>
    requires s.log <= u.log
  {
    Partings(u.log[|s.log|..], InLine(s.heap, line))
  }

  /** From `s` to `u` the sockets of the line were closed in turn, or one was closed out of turn and what was heard
      of the line can no longer become what is heard in turn. */
  ghost predicate LineKept(s: State, u: State, line: Line, strays: set<Stray>)
    requires s.log <= u.log
  {
    var kept :=
      if NoStray(InLine(s.heap, line), line, strays) then Heard(s, u, line) + Waiting(u, line) == Waiting(s, line)
      else !(Heard(s, u, line) <= Waiting(s, line));
    kept
  }

  /** A descriptor was closed, or user code told so. */
  predicate Closes(e: Event) {
    e.SysClose? || e.Disconnected? || e.Closed?
  }

  /** The order from `s` to `u`, where the sockets closed out of turn were `before` and are `after`. */
  ghost predicate InTurn(s: State, u: State, before: set<Stray>, after: set<Stray>) {
    var holds :=
      && s.log <= u.log && before <= after
      && (forall x :: x in after && x !in before ==> OpenIn(s.heap, x.id))
      && (forall i :: |s.log| <= i < |u.log| && Closes(u.log[i]) ==> OpenIn(s.heap, u.log[i].id))
      && forall line: Line :: LineKept(s, u, line, after);
    holds
  }

  /** Sockets closed out of turn are known and not open. */
  ghost predicate Clear(strays: set<Stray>, s: State) {
    var clear := forall x :: x in strays ==> x.id < s.nextId && !OpenIn(s.heap, x.id);
    clear
  }

  /** The same, but `id` is about to be closed, and marked where that is out of turn. */
  ghost predicate Marked(strays: set<Stray>, s: State, id: ObjId) {
    var marked :=
      && s.OpenAt(id)
      && (forall x :: x in strays ==> x.id < s.nextId && (x.id != id ==> !OpenIn(s.heap, x.id)))
      && forall line :: line in LinesOf(s.heap[id].owner) ==>
         (Stray(line, id) in strays <==> !HasTurn(s.heap, line, id));
    marked
  }

  // ------------------------------------------------------------------------------------------
  // Keys and sockets
  // ------------------------------------------------------------------------------------------

  lemma ObjectKnown(s: State, id: ObjId)
    requires Consistent(s) && s.Live(id)
    ensures Key(s.heap[id].owner, s.heap[id].key) in s.owned && s.owned[Key(s.heap[id].owner, s.heap[id].key)] == id
    ensures s.heap[id].Open() ==> s.heap[id].fd == s.heap[id].key
    ensures id < s.nextId
  {
  }

  /** The open sockets of a container are found under their descriptors. */
  ghost predicate Keyed(s: State, o: Owner) {
    var holds :=
      && (forall id: ObjId :: id in OpenMembers(s.heap, o) ==> s.heap[id].fd in OpenKeys(s.heap, o))
      && (forall k :: k in OpenKeys(s.heap, o) ==>
            && Key(o, k) in s.owned && s.owned[Key(o, k)] in OpenMembers(s.heap, o)
            && s.heap[s.owned[Key(o, k)]].fd == k)
      && (forall id: ObjId :: id in OpenMembers(s.heap, o) ==> s.owned[Key(o, s.heap[id].fd)] == id);
    holds
  }

  lemma KeysAre(s: State, o: Owner)
    requires Consistent(s)
    ensures Keyed(s, o)
  {
    forall id: ObjId | id in OpenMembers(s.heap, o)
      ensures s.heap[id].fd in OpenKeys(s.heap, o) && Key(o, s.heap[id].fd) in s.owned
      ensures s.owned[Key(o, s.heap[id].fd)] == id
    {
      ObjectKnown(s, id);
    }
    forall k | k in OpenKeys(s.heap, o)
      ensures Key(o, k) in s.owned && s.owned[Key(o, k)] in OpenMembers(s.heap, o) && s.heap[s.owned[Key(o, k)]].fd == k
    {
      var id: ObjId :| id in s.heap && s.heap[id].owner == o && s.heap[id].Open() && s.heap[id].fd == k;
      ObjectKnown(s, id);
    }
  }

  lemma FarewellsStep(owned: map<Key, ObjId>, o: Owner, k: int, later: seq<int>)
    requires Key(o, k) in owned
    ensures Farewells(owned, o, [k] + later) ==
            [SysClose(owned[Key(o, k)], k), Farewell(o, owned[Key(o, k)])] + Farewells(owned, o, later)
  {
    assert ([k] + later)[1..] == later;
  }

  /** The goodbyes of a container begin with those of its least descriptor. */
  lemma LeastGoesFirst(s: State, o: Owner, id: ObjId)
    requires Keyed(s, o) && id in OpenMembers(s.heap, o) && s.heap[id].fd == Machine.Least(OpenKeys(s.heap, o))
    ensures Goodbyes(s, o) == [SysClose(id, s.heap[id].fd), Farewell(o, id)] +
                              Farewells(s.owned, o, Ascending(OpenKeys(s.heap, o) - {s.heap[id].fd}))
  {
    FarewellsStep(s.owned, o, s.heap[id].fd, Ascending(OpenKeys(s.heap, o) - {s.heap[id].fd}));
  }

  lemma SomeoneFirst(s: State, o: Owner) returns (first: ObjId)
    requires Keyed(s, o) && OpenMembers(s.heap, o) != {}
    ensures first in OpenMembers(s.heap, o) && s.heap[first].fd == Machine.Least(OpenKeys(s.heap, o))
    ensures Goodbyes(s, o) != [] && Goodbyes(s, o)[0] == SysClose(first, s.heap[first].fd)
  {
    var id: ObjId :| id in OpenMembers(s.heap, o);
    assert s.heap[id].fd in OpenKeys(s.heap, o);
    first := s.owned[Key(o, Machine.Least(OpenKeys(s.heap, o)))];
    LeastGoesFirst(s, o, first);
  }

  // ------------------------------------------------------------------------------------------
  // One socket closed
  // ------------------------------------------------------------------------------------------

  /** The descriptor of `id` is closed and its owner told so; the rest of its CLOSED list is still to come. */
  function Announced(s: State, id: ObjId): State
    requires s.Live(id) && s.table.Aligned()
  {
    Told(Shut(s, id), [Farewell(s.heap[id].owner, id)])
  }

  /** The open sockets and their keys, without one. */
  ghost predicate WithoutOne(s: State, id: ObjId, u: State) {
    var holds :=
      && s.OpenAt(id) && u.owned == s.owned && u.heap == s.heap[id := s.heap[id].(fd := -1)];
    holds
  }

  lemma AnnouncedIs(s: State, id: ObjId)
    requires s.OpenAt(id) && s.table.Aligned()
    ensures WithoutOne(s, id, Announced(s, id))
    ensures Announced(s, id).log == s.log + [SysClose(id, s.heap[id].fd), Farewell(s.heap[id].owner, id)]
  {
  }

  lemma KeysWithoutOne(s: State, id: ObjId, u: State, o: Owner)
    requires WithoutOne(s, id, u) && Keyed(s, o)
    ensures OpenMembers(u.heap, o) == OpenMembers(s.heap, o) - {id}
    ensures OpenKeys(u.heap, o) ==
            if s.heap[id].owner == o then OpenKeys(s.heap, o) - {s.heap[id].fd} else OpenKeys(s.heap, o)
  {
    forall k
      ensures k in OpenKeys(u.heap, o) <==> k in OpenKeys(s.heap, o) && !(s.heap[id].owner == o && k == s.heap[id].fd)
    {
      if k in OpenKeys(u.heap, o) {
        var x: ObjId :| x in u.heap && u.heap[x].owner == o && u.heap[x].Open() && u.heap[x].fd == k;
        assert x in OpenMembers(s.heap, o) && x != id;
        if s.heap[id].owner == o { assert id in OpenMembers(s.heap, o); }
      }
      if k in OpenKeys(s.heap, o) && !(s.heap[id].owner == o && k == s.heap[id].fd) {
        var x := s.owned[Key(o, k)];
        assert x in OpenMembers(s.heap, o) && x != id && x in u.heap && u.heap[x].fd == k;
      }
    }
  }

  /** In its container, `id` is the first to say goodbye exactly if it has the least descriptor. */
  lemma OneGoodbye(s: State, id: ObjId, u: State, o: Owner)
    requires WithoutOne(s, id, u) && Keyed(s, o)
    ensures s.heap[id].owner != o ==> Goodbyes(u, o) == Goodbyes(s, o)
    ensures s.heap[id].owner == o && s.heap[id].fd == Machine.Least(OpenKeys(s.heap, o)) ==>
              Goodbyes(s, o) == [SysClose(id, s.heap[id].fd), Farewell(o, id)] + Goodbyes(u, o)
    ensures s.heap[id].owner == o && s.heap[id].fd != Machine.Least(OpenKeys(s.heap, o)) ==>
              Goodbyes(s, o) != [] && Goodbyes(s, o)[0] != SysClose(id, s.heap[id].fd)
  {
    KeysWithoutOne(s, id, u, o);
    if s.heap[id].owner == o {
      assert id in OpenMembers(s.heap, o);
      if s.heap[id].fd == Machine.Least(OpenKeys(s.heap, o)) {
        LeastGoesFirst(s, o, id);
      } else {
        var first := SomeoneFirst(s, o);
      }
    }
  }

  /** The first of the open sockets of one container has the least descriptor. */
  lemma LeastIsFirst(s: State, o: Owner, id: ObjId)
    requires Keyed(s, o) && id in OpenMembers(s.heap, o)
    ensures s.heap[id].fd in OpenKeys(s.heap, o)
    ensures (forall x: ObjId :: x in OpenMembers(s.heap, o) && x != id ==> Before(s.heap[id], s.heap[x])) <==>
            s.heap[id].fd == Machine.Least(OpenKeys(s.heap, o))
  {
    var least := Machine.Least(OpenKeys(s.heap, o));
    if s.heap[id].fd == least {
      forall x: ObjId | x in OpenMembers(s.heap, o) && x != id ensures Before(s.heap[id], s.heap[x]) {
        assert s.heap[x].fd in OpenKeys(s.heap, o) && s.owned[Key(o, s.heap[x].fd)] == x;
      }
    } else {
      var first := s.owned[Key(o, least)];
      assert first in OpenMembers(s.heap, o) && first != id && !Before(s.heap[id], s.heap[first]);
    }
  }

  lemma ContainerTurn(s: State, id: ObjId)
    requires s.OpenAt(id) && Keyed(s, s.heap[id].owner)
    ensures HasTurn(s.heap, OfContainer(s.heap[id].owner), id) <==>
            s.heap[id].fd == Machine.Least(OpenKeys(s.heap, s.heap[id].owner))
  {
    assert id in OpenMembers(s.heap, s.heap[id].owner);
    LeastIsFirst(s, s.heap[id].owner, id);
  }

  lemma ServerTurn(s: State, id: ObjId, server: nat)
    requires s.OpenAt(id) && Keyed(s, s.heap[id].owner) && s.heap[id].owner in {Clients(server), Listeners(server)}
    ensures HasTurn(s.heap, OfServer(server), id) <==>
            && s.heap[id].fd == Machine.Least(OpenKeys(s.heap, s.heap[id].owner))
            && (s.heap[id].owner.Listeners? ==> OpenMembers(s.heap, Clients(server)) == {})
  {
    var o := s.heap[id].owner;
    assert id in OpenMembers(s.heap, o);
    LeastIsFirst(s, o, id);
    if o.Listeners? {
      forall x: ObjId | x in OpenMembers(s.heap, Clients(server)) ensures !Before(s.heap[id], s.heap[x]) && x != id {}
    }
    forall x: ObjId | x in OpenMembers(s.heap, o) ensures x in InLine(s.heap, OfServer(server)) {}
  }

  /** What closing `id` does to the line: it says goodbye first, or somebody else should have. */
  ghost predicate LineStep(s: State, id: ObjId, u: State, line: Line)
    requires s.OpenAt(id)
  {
    var holds :=
      && (id in InLine(s.heap, line) <==> line in LinesOf(s.heap[id].owner))
      && (line !in LinesOf(s.heap[id].owner) ==> Waiting(u, line) == Waiting(s, line))
      && (line in LinesOf(s.heap[id].owner) && HasTurn(s.heap, line, id) ==>
            Waiting(s, line) == [SysClose(id, s.heap[id].fd), Farewell(s.heap[id].owner, id)] + Waiting(u, line))
      && (line in LinesOf(s.heap[id].owner) && !HasTurn(s.heap, line, id) ==>
            Waiting(s, line) != [] && Waiting(s, line)[0] != SysClose(id, s.heap[id].fd));
    holds
  }

  lemma ContainerSteps(s: State, id: ObjId, u: State, o: Owner)
    requires WithoutOne(s, id, u) && Keyed(s, o)
    ensures LineStep(s, id, u, OfContainer(o))
  {
    OneGoodbye(s, id, u, o);
    if s.heap[id].owner == o { ContainerTurn(s, id); }
  }

  lemma ServerSteps(s: State, id: ObjId, u: State, server: nat)
    requires WithoutOne(s, id, u) && Keyed(s, Clients(server)) && Keyed(s, Listeners(server))
    ensures LineStep(s, id, u, OfServer(server))
  {
    var c, l := Clients(server), Listeners(server);
    OneGoodbye(s, id, u, c);
    OneGoodbye(s, id, u, l);
    if s.heap[id].owner in {c, l} { ServerTurn(s, id, server); }
    if s.heap[id].owner == c {
      Appended([SysClose(id, s.heap[id].fd), Farewell(c, id)], Goodbyes(u, c), Goodbyes(u, l));
    } else if s.heap[id].owner == l {
      if OpenMembers(s.heap, c) == {} {
        NoGoodbyes(s, c);
        assert [] + Goodbyes(s, l) == Goodbyes(s, l) && [] + Goodbyes(u, l) == Goodbyes(u, l);
      } else {
        var first := SomeoneFirst(s, c);
      }
    }
  }

  lemma NoGoodbyes(s: State, o: Owner)
    requires OpenMembers(s.heap, o) == {}
    ensures Goodbyes(s, o) == []
  {
    forall id: ObjId | id in s.heap && s.heap[id].owner == o ensures !s.heap[id].Open() {
      assert id !in OpenMembers(s.heap, o);
    }
    assert OpenKeys(s.heap, o) == {};
  }

  // ------------------------------------------------------------------------------------------
  // Turns add up
  // ------------------------------------------------------------------------------------------

  lemma {:induction false} Nothing(more: seq<Event>, ids: set<ObjId>)
    requires forall i :: 0 <= i < |more| ==> !Closes(more[i])
    ensures Partings(more, ids) == []
  {
    if more == [] {
    } else {
      Nothing(more[..|more| - 1], ids);
    }
  }

  /** The same sockets are open, in the same containers. */
  ghost predicate SameCrowd(heap: Heap, heap': Heap) {
    var same :=
      forall id: ObjId :: OpenIn(heap, id) == OpenIn(heap', id) &&
        (OpenIn(heap, id) ==> heap'[id].owner == heap[id].owner && heap'[id].fd == heap[id].fd);
    same
  }

  lemma SameGoodbyes(s: State, u: State, o: Owner)
    requires SameCrowd(s.heap, u.heap) && Keyed(s, o) && Keyed(u, o)
    ensures OpenMembers(u.heap, o) == OpenMembers(s.heap, o) && Goodbyes(u, o) == Goodbyes(s, o)
  {
    assert OpenMembers(u.heap, o) == OpenMembers(s.heap, o);
    forall k ensures k in OpenKeys(u.heap, o) <==> k in OpenKeys(s.heap, o) {
      if k in OpenKeys(s.heap, o) { assert s.owned[Key(o, k)] in OpenMembers(u.heap, o); }
      if k in OpenKeys(u.heap, o) { assert u.owned[Key(o, k)] in OpenMembers(s.heap, o); }
    }
    assert OpenKeys(u.heap, o) == OpenKeys(s.heap, o);
    AscendingIsSorted(OpenKeys(s.heap, o));
    forall k | k in Ascending(OpenKeys(s.heap, o))
      ensures Key(o, k) in s.owned && Key(o, k) in u.owned && s.owned[Key(o, k)] == u.owned[Key(o, k)]
    {
      assert s.owned[Key(o, k)] in OpenMembers(u.heap, o);
    }
    FarewellsSame(s.owned, u.owned, o, Ascending(OpenKeys(s.heap, o)));
  }

  lemma SameLine(s: State, u: State, line: Line)
    requires Consistent(s) && Consistent(u) && SameCrowd(s.heap, u.heap)
    ensures InLine(u.heap, line) == InLine(s.heap, line) && Waiting(u, line) == Waiting(s, line)
  {
    match line
    case OfContainer(o) =>
      KeysAre(s, o);
      KeysAre(u, o);
      SameGoodbyes(s, u, o);
    case OfServer(server) =>
      KeysAre(s, Clients(server));
      KeysAre(u, Clients(server));
      KeysAre(s, Listeners(server));
      KeysAre(u, Listeners(server));
      SameGoodbyes(s, u, Clients(server));
      SameGoodbyes(s, u, Listeners(server));
  }

  /** Nothing was opened or closed. */
  lemma StillInTurn(s: State, u: State, strays: set<Stray>)
    requires Consistent(s) && Consistent(u) && SameCrowd(s.heap, u.heap) && s.log <= u.log && u.nextId == s.nextId
    requires Clear(strays, s) && forall i :: |s.log| <= i < |u.log| ==> !Closes(u.log[i])
    ensures InTurn(s, u, strays, strays) && Clear(strays, u)
  {
    forall line: Line ensures LineKept(s, u, line, strays) {
      StillKept(s, u, line, strays);
    }
  }

  lemma StillKept(s: State, u: State, line: Line, strays: set<Stray>)
    requires Consistent(s) && Consistent(u) && SameCrowd(s.heap, u.heap) && s.log <= u.log
    requires Clear(strays, s) && forall i :: |s.log| <= i < |u.log| ==> !Closes(u.log[i])
    ensures LineKept(s, u, line, strays)
  {
    SameLine(s, u, line);
    Nothing(u.log[|s.log|..], InLine(s.heap, line));
    NoneInLine(s, line, strays);
    NothingHeard(s, u, line, strays);
  }

  lemma NothingHeard(s: State, u: State, line: Line, strays: set<Stray>)
    requires s.log <= u.log && Heard(s, u, line) == [] && Waiting(u, line) == Waiting(s, line)
    requires NoStray(InLine(s.heap, line), line, strays)
    ensures LineKept(s, u, line, strays)
  {
    assert [] + Waiting(u, line) == Waiting(u, line);
  }

  lemma NoneInLine(s: State, line: Line, strays: set<Stray>)
    requires Clear(strays, s)
    ensures NoStray(InLine(s.heap, line), line, strays)
  {
    forall id: ObjId | id in InLine(s.heap, line) ensures Stray(line, id) !in strays {
      assert OpenIn(s.heap, id);
    }
  }

  /** The close of one socket, in turn or not. */
  lemma OneInTurn(s: State, id: ObjId, strays: set<Stray>)
    requires Consistent(s) && s.OpenAt(id) && s.table.Aligned() && Marked(strays, s, id)
    ensures InTurn(s, Announced(s, id), strays, strays) && Clear(strays, Announced(s, id))
  {
    AnnouncedIs(s, id);
    OneLess(s, id, Announced(s, id), strays);
  }

  lemma OneLess(s: State, id: ObjId, u: State, strays: set<Stray>)
    requires Consistent(s) && WithoutOne(s, id, u) && Marked(strays, s, id) && u.nextId == s.nextId
    requires u.log == s.log + [SysClose(id, s.heap[id].fd), Farewell(s.heap[id].owner, id)]
    ensures InTurn(s, u, strays, strays) && Clear(strays, u)
  {
    OnlyItsOwn(s, id, u);
    forall line: Line ensures LineKept(s, u, line, strays) {
      OneKept(s, id, u, line, strays);
    }
    OneClear(s, id, u, strays);
  }

  lemma OnlyItsOwn(s: State, id: ObjId, u: State)
    requires s.OpenAt(id) && u.log == s.log + [SysClose(id, s.heap[id].fd), Farewell(s.heap[id].owner, id)]
    ensures s.log <= u.log && forall i :: |s.log| <= i < |u.log| ==> u.log[i].id == id
  {
  }

  lemma OneClear(s: State, id: ObjId, u: State, strays: set<Stray>)
    requires WithoutOne(s, id, u) && Marked(strays, s, id) && u.nextId == s.nextId
    ensures Clear(strays, u)
  {
  }

  lemma OneKept(s: State, id: ObjId, u: State, line: Line, strays: set<Stray>)
    requires Consistent(s) && WithoutOne(s, id, u) && Marked(strays, s, id)
    requires s.log <= u.log && u.log == s.log + [SysClose(id, s.heap[id].fd), Farewell(s.heap[id].owner, id)]
    ensures LineKept(s, u, line, strays)
  {
    match line {
      case OfContainer(o) =>
        KeysAre(s, o);
        ContainerSteps(s, id, u, o);
      case OfServer(server) =>
        KeysAre(s, Clients(server));
        KeysAre(s, Listeners(server));
        ServerSteps(s, id, u, server);
    }
    HeardOne(s, id, u, line);
    KeptByStep(s, id, u, line, strays);
  }

  lemma HeardOne(s: State, id: ObjId, u: State, line: Line)
    requires s.OpenAt(id) && u.log == s.log + [SysClose(id, s.heap[id].fd), Farewell(s.heap[id].owner, id)]
    ensures s.log <= u.log
    ensures Heard(s, u, line) ==
            if id in InLine(s.heap, line) then [SysClose(id, s.heap[id].fd), Farewell(s.heap[id].owner, id)] else []
  {
    var a, b := SysClose(id, s.heap[id].fd), Farewell(s.heap[id].owner, id);
    assert u.log[|s.log|..] == [a] + [b];
    PartingsAfter([], a, InLine(s.heap, line));
    PartingsAfter([a], b, InLine(s.heap, line));
    assert [] + [a] == [a];
  }

  lemma KeptByStep(s: State, id: ObjId, u: State, line: Line, strays: set<Stray>)
    requires s.OpenAt(id) && LineStep(s, id, u, line) && Marked(strays, s, id) && s.log <= u.log
    requires Heard(s, u, line) ==
             if id in InLine(s.heap, line) then [SysClose(id, s.heap[id].fd), Farewell(s.heap[id].owner, id)] else []
    ensures LineKept(s, u, line, strays)
  {
    forall x: ObjId | x in InLine(s.heap, line) && x != id ensures Stray(line, x) !in strays {
      assert OpenIn(s.heap, x);
    }
    assert [] + Waiting(u, line) == Waiting(u, line);
  }

  /** Of the sockets closed by then nothing more was heard. */
  lemma {:induction false} OnlyOf(more: seq<Event>, ids: set<ObjId>, fewer: set<ObjId>)
    requires fewer <= ids && forall i :: 0 <= i < |more| && Parting(more[i], ids) ==> more[i].id in fewer
    ensures Partings(more, ids) == Partings(more, fewer)
  {
    if more == [] {
    } else {
      OnlyOf(more[..|more| - 1], ids, fewer);
    }
  }

  /** Sockets open in `u` were open in `s`, in the same container with the same descriptor. */
  ghost predicate FewerOpenIn(heap: Heap, heap': Heap) {
    var holds :=
      forall id: ObjId :: OpenIn(heap', id) ==>
        OpenIn(heap, id) && heap[id].owner == heap'[id].owner && heap[id].fd == heap'[id].fd;
    holds
  }

  lemma LineShrinks(heap: Heap, heap': Heap, line: Line)
    requires FewerOpenIn(heap, heap')
    ensures InLine(heap', line) <= InLine(heap, line)
    ensures forall id: ObjId :: id in InLine(heap, line) && OpenIn(heap', id) ==> id in InLine(heap', line)
  {
  }

  lemma HeardInAll(s: State, m: State, u: State, line: Line)
    requires s.log <= m.log <= u.log && FewerOpenIn(s.heap, m.heap)
    requires forall i :: |m.log| <= i < |u.log| && Closes(u.log[i]) ==> OpenIn(m.heap, u.log[i].id)
    ensures s.log <= u.log && Heard(s, u, line) == Heard(s, m, line) + Heard(m, u, line)
  {
    LineShrinks(s.heap, m.heap, line);
    var first, second := m.log[|s.log|..], u.log[|m.log|..];
    assert u.log[|s.log|..] == first + second;
    PartingsOfSum(first, second, InLine(s.heap, line));
    OnlyOf(second, InLine(s.heap, line), InLine(m.heap, line));
  }

  lemma LineGoesOn(s: State, m: State, u: State, line: Line, middle: set<Stray>, after: set<Stray>)
    requires s.log <= m.log <= u.log && FewerOpenIn(s.heap, m.heap)
    requires forall i :: |m.log| <= i < |u.log| && Closes(u.log[i]) ==> OpenIn(m.heap, u.log[i].id)
    requires middle <= after && forall x :: x in after && x !in middle ==> OpenIn(m.heap, x.id)
    requires LineKept(s, m, line, middle) && LineKept(m, u, line, after)
    ensures s.log <= u.log && LineKept(s, u, line, after)
  {
    HeardInAll(s, m, u, line);
    LineShrinks(s.heap, m.heap, line);
    var a, b := Heard(s, m, line), Heard(m, u, line);
    if !NoStray(InLine(s.heap, line), line, middle) {
      assert !NoStray(InLine(s.heap, line), line, after);
      Longer(a, b, Waiting(s, line));
    } else if !NoStray(InLine(m.heap, line), line, after) {
      assert !NoStray(InLine(s.heap, line), line, after);
      SameStart(a, b, Waiting(m, line));
    } else {
      StillNone(s.heap, m.heap, line, middle, after);
      Appended(a, b, Waiting(u, line));
    }
  }

  lemma StillNone(heap: Heap, heap': Heap, line: Line, middle: set<Stray>, after: set<Stray>)
    requires FewerOpenIn(heap, heap') && forall x :: x in after && x !in middle ==> OpenIn(heap', x.id)
    requires NoStray(InLine(heap, line), line, middle) && NoStray(InLine(heap', line), line, after)
    ensures NoStray(InLine(heap, line), line, after)
  {
    LineShrinks(heap, heap', line);
  }

  lemma Longer<T>(a: seq<T>, b: seq<T>, all: seq<T>)
    ensures a + b <= all ==> a <= all
  {
    if a + b <= all { assert a == (a + b)[..|a|] == all[..|a|]; }
  }

  lemma SameStart<T>(a: seq<T>, b: seq<T>, rest: seq<T>)
    ensures a + b <= a + rest ==> b <= rest
  {
    if a + b <= a + rest { assert b == (a + b)[|a|..] == (a + rest)[|a|..][..|b|]; }
  }

  lemma TurnsGoOn(s: State, m: State, u: State, before: set<Stray>, middle: set<Stray>, after: set<Stray>)
    requires InTurn(s, m, before, middle) && InTurn(m, u, middle, after) && FewerOpenIn(s.heap, m.heap)
    ensures InTurn(s, u, before, after)
  {
    forall line: Line ensures LineKept(s, u, line, after) {
      LineGoesOn(s, m, u, line, middle, after);
    }
  }

  /** What user code marked just before. */
  lemma MarkedBefore(s: State, u: State, before: set<Stray>, marked: set<Stray>, after: set<Stray>)
    requires InTurn(s, u, marked, after) && before <= marked
    requires forall x :: x in marked && x !in before ==> OpenIn(s.heap, x.id)
    ensures InTurn(s, u, before, after)
  {
  }

  lemma FateFewer(s: State, u: State, pinned: set<ObjId>)
    requires Shrunk(s, u, pinned, {})
    ensures FewerOpenIn(s.heap, u.heap)
  {
    forall id: ObjId | OpenIn(u.heap, id)
      ensures OpenIn(s.heap, id) && s.heap[id].owner == u.heap[id].owner && s.heap[id].fd == u.heap[id].fd
    {
      assert id in OpenIds(u.heap) && id in OpenIds(s.heap);
      assert Fate(s.heap, u.heap, pinned, id);
    }
  }

  // ------------------------------------------------------------------------------------------
  // A container and a server
  // ------------------------------------------------------------------------------------------

  /** Every socket of the container was closed, and user code told so, in ascending descriptor order, each once. */
  ghost predicate ClosedInOrder(s: State, o: Owner, u: State) {
    Partings(u.log, Members(s.heap, o)) == Partings(s.log, Members(s.heap, o)) + AllFarewells(s, o)
  }

  /** Of the sockets of the server, clients were heard of first and then listeners, each in ascending descriptor
      order. */
  ghost predicate ServerClosedInOrder(s: State, server: nat, u: State) {
    var ids := Members(s.heap, Clients(server)) + Members(s.heap, Listeners(server));
    Partings(u.log, ids) ==
    Partings(s.log, ids) + (AllFarewells(s, Clients(server)) + AllFarewells(s, Listeners(server)))
  }

  lemma ReadyLine(s: State, o: Owner)
    requires Consistent(s) && Ready(s.heap, o)
    ensures OpenMembers(s.heap, o) == Members(s.heap, o) && OpenKeys(s.heap, o) == s.KeysOf(o)
    ensures Goodbyes(s, o) == AllFarewells(s, o)
  {
    KeysAre(s, o);
    forall k | k in s.KeysOf(o) ensures k in OpenKeys(s.heap, o) { KeyIsOpen(s, o, k); }
    KeysBelow(s, o);
    ReadyMembers(s.heap, o);
  }

  lemma KeysBelow(s: State, o: Owner)
    requires Keyed(s, o)
    ensures OpenKeys(s.heap, o) <= s.KeysOf(o)
  {
    forall k | k in OpenKeys(s.heap, o) ensures k in s.KeysOf(o) { assert Key(o, k) in s.owned; }
  }

  lemma ReadyMembers(heap: Heap, o: Owner)
    requires Ready(heap, o)
    ensures OpenMembers(heap, o) == Members(heap, o)
  {
  }

  lemma KeyIsOpen(s: State, o: Owner, k: int)
    requires Consistent(s) && Ready(s.heap, o) && k in s.KeysOf(o)
    ensures k in OpenKeys(s.heap, o)
  {
    KeyHasObject(s, Key(o, k));
    ObjectKnown(s, s.owned[Key(o, k)]);
    assert s.heap[s.owned[Key(o, k)]].fd == k;
  }

  lemma EmptyLine(s: State, o: Owner)
    requires Consistent(s) && s.KeysOf(o) == {}
    ensures OpenMembers(s.heap, o) == {} && Goodbyes(s, o) == []
  {
    forall id: ObjId | id in s.heap ensures s.heap[id].owner != o {
      ObjectKnown(s, id);
      assert s.heap[id].key in s.KeysOf(s.heap[id].owner);
    }
    NoGoodbyes(s, o);
  }

  /** What was heard is the whole line in turn exactly if nothing of it was closed out of turn. */
  lemma HeardAllIff(s: State, u: State, line: Line, strays: set<Stray>, ids: set<ObjId>, all: seq<Event>)
    requires s.log <= u.log && LineKept(s, u, line, strays) && Waiting(u, line) == []
    requires InLine(s.heap, line) == ids && Waiting(s, line) == all
    ensures Partings(u.log, ids) == Partings(s.log, ids) + all <==> NoStray(ids, line, strays)
  {
    var heard := Heard(s, u, line);
    assert u.log == s.log + u.log[|s.log|..];
    PartingsOfSum(s.log, u.log[|s.log|..], ids);
    assert heard + [] == heard;
    if Partings(u.log, ids) == Partings(s.log, ids) + all { Cancelled(Partings(s.log, ids), heard, all); }
  }

  /** `socket_container::close`: in order exactly if no socket of the container was closed out of turn. */
  lemma ContainerInOrderIff(s: State, o: Owner, u: State, before: set<Stray>, strays: set<Stray>)
    requires Consistent(s) && Ready(s.heap, o) && Consistent(u) && u.KeysOf(o) == {} && InTurn(s, u, before, strays)
    ensures ClosedInOrder(s, o, u) <==> NoStray(Members(s.heap, o), OfContainer(o), strays)
  {
    ReadyLine(s, o);
    EmptyLine(u, o);
    HeardAllIff(s, u, OfContainer(o), strays, Members(s.heap, o), AllFarewells(s, o));
  }

  /** `server_impl::close`: the same for the line of the server. */
  lemma ServerInOrderIff(s: State, server: nat, u: State, before: set<Stray>, strays: set<Stray>)
    requires Consistent(s) && Ready(s.heap, Clients(server)) && Ready(s.heap, Listeners(server))
    requires Consistent(u) && u.KeysOf(Clients(server)) == {} && u.KeysOf(Listeners(server)) == {}
    requires InTurn(s, u, before, strays)
    ensures ServerClosedInOrder(s, server, u) <==>
            NoStray(Members(s.heap, Clients(server)) + Members(s.heap, Listeners(server)), OfServer(server), strays)
  {
    var c, l := Clients(server), Listeners(server);
    ReadyLine(s, c);
    ReadyLine(s, l);
    EmptyLine(u, c);
    EmptyLine(u, l);
    HeardAllIff(s, u, OfServer(server), strays, Members(s.heap, c) + Members(s.heap, l),
                AllFarewells(s, c) + AllFarewells(s, l));
  }

  /** The sockets of a container may be closed now without getting ahead of others: those of a server's listeners
      only when it has no open client. */
  predicate Unblocked(heap: Heap, o: Owner) {
    o.Listeners? ==> OpenMembers(heap, Clients(o.server)) == {}
  }

  /** The loop of `socket_container::close` always closes the socket whose turn it is. */
  lemma LoopClosesInTurn(s: State, o: Owner)
    requires Consistent(s) && Ready(s.heap, o) && s.KeysOf(o) != {} && Unblocked(s.heap, o)
    ensures s.OpenAt(First(s, o)) && StraysOf(s.heap, First(s, o)) == {}
  {
    FirstIsReady(s, o);
    ObjectKnown(s, First(s, o));
    FirstHasTurn(s, o, First(s, o));
  }

  lemma FirstHasTurn(s: State, o: Owner, id: ObjId)
    requires Consistent(s) && Ready(s.heap, o) && Unblocked(s.heap, o) && s.OpenAt(id) && s.heap[id].owner == o
    requires s.KeysOf(o) != {} && s.heap[id].fd == Machine.Least(s.KeysOf(o))
    ensures forall line :: line in LinesOf(o) ==> HasTurn(s.heap, line, id)
  {
    KeysAre(s, o);
    ReadyLine(s, o);
    FirstInBoth(s, o, id);
  }

  lemma FirstInBoth(s: State, o: Owner, id: ObjId)
    requires Keyed(s, o) && s.OpenAt(id) && s.heap[id].owner == o && Unblocked(s.heap, o)
    requires id in OpenMembers(s.heap, o) && s.heap[id].fd in OpenKeys(s.heap, o)
    requires s.heap[id].fd == Machine.Least(OpenKeys(s.heap, o))
    ensures forall line :: line in LinesOf(o) ==> HasTurn(s.heap, line, id)
  {
    ContainerTurn(s, id);
    if !o.Peers? { ServerTurn(s, id, o.server); }
  }

  // ------------------------------------------------------------------------------------------
  // A CLOSED list
  // ------------------------------------------------------------------------------------------

  /** The loop over the CLOSED list of `id`, which began in `start`, is at callback `i`: the first one announces the
      close, and from there on the order is kept. */
  ghost predicate Since(start: State, id: ObjId, i: nat, m: State, before: set<Stray>, strays: set<Stray>) {
    var holds :=
      && start.Live(id) && Clear(strays, m)
      && (if i == 0 then m == start && strays == before
          else InTurn(Told(start, [Farewell(start.heap[id].owner, id)]), m, before, strays));
    holds
  }

  lemma SinceStart(start: State, id: ObjId, strays: set<Stray>)
    requires start.Live(id) && Clear(strays, start)
    ensures Since(start, id, 0, start, strays, strays)
  {
  }

  /** The first callback raises the farewell, and no other raises anything. */
  lemma FarewellIsFirst(s: State, m: State, id: ObjId, i: nat, pinned: set<ObjId>, told: seq<Event>)
    requires Running(s, m, id, i, pinned, told) && i < |s.heap[id].On(CLOSED)|
    ensures var cb := s.heap[id].On(CLOSED)[i];
            && RaisedBy(cb.exec, id) == (if i == 0 then [Farewell(s.heap[id].owner, id)] else [])
            && (cb.Skipped() || cb.exec.Erase? ==> i > 0)
  {
    ListsKnown(m, id);
    WhatIsRaised(m.heap[id], i, id);
  }

  lemma WhatIsRaised(sock: Sock, i: nat, id: ObjId)
    requires Safety.RoleOk(sock) && EraseIsLast(sock) && i < |sock.On(CLOSED)|
    ensures var cb := sock.On(CLOSED)[i];
            && RaisedBy(cb.exec, id) == (if i == 0 then [Farewell(sock.owner, id)] else [])
            && (cb.Skipped() || cb.exec.Erase? ==> i > 0)
  {
    var list := sock.On(CLOSED);
    if i > 0 { assert list[i] == list[1..][i - 1] && list[i] in list[1..]; }
  }

  lemma SinceSkips(start: State, id: ObjId, i: nat, m: State, before: set<Stray>, strays: set<Stray>)
    requires Since(start, id, i, m, before, strays) && i > 0
    ensures Since(start, id, i + 1, m, before, strays)
  {
  }

  lemma SinceErases(start: State, id: ObjId, i: nat, m: State, pinned: set<ObjId>, told: seq<Event>,
                    before: set<Stray>, strays: set<Stray>)
    requires Since(start, id, i, m, before, strays) && i > 0 && Running(start, m, id, i, pinned, told)
    ensures var u := Erased(m, m.heap[id].owner, m.heap[id].key); Since(start, id, i + 1, u, before, strays)
  {
    var u := Erased(m, m.heap[id].owner, m.heap[id].key);
    RunningFacts(start, m, id, i, pinned, told);
    ErasedConsistent(m, id);
    NoLoss(m, id, u);
    StillInTurn(m, u, strays);
    RunningFewer(start, m, id, i, pinned, told);
    TurnsGoOn(Told(start, [Farewell(start.heap[id].owner, id)]), m, u, before, strays, strays);
  }

  lemma NoLoss(m: State, id: ObjId, u: State)
    requires m.Live(id) && !m.heap[id].Open() && u == Erased(m, m.heap[id].owner, m.heap[id].key)
    requires u.heap == m.heap - {id}
    ensures SameCrowd(m.heap, u.heap) && u.log == m.log && u.nextId == m.nextId
  {
  }

  lemma RunningFewer(start: State, m: State, id: ObjId, i: nat, pinned: set<ObjId>, told: seq<Event>)
    requires Running(start, m, id, i, pinned, told)
    ensures FewerOpenIn(start.heap, m.heap)
  {
    FateFewer(start, m, pinned);
  }

  /** After a callback and the user code hooked to it. */
  lemma SinceNext(start: State, id: ObjId, i: nat, m: State, pinned: set<ObjId>, told: seq<Event>, u: State,
                  before: set<Stray>, middle: set<Stray>, strays: set<Stray>)
    requires Since(start, id, i, m, before, middle) && Running(start, m, id, i, pinned, told)
    requires i < |start.heap[id].On(CLOSED)| && Clear(strays, u)
    requires InTurn(Told(m, RaisedBy(start.heap[id].On(CLOSED)[i].exec, id)), u, middle, strays)
    ensures Since(start, id, i + 1, u, before, strays)
  {
    FarewellIsFirst(start, m, id, i, pinned, told);
    if i > 0 {
      assert m.log + [] == m.log && Told(m, []) == m;
      RunningFewer(start, m, id, i, pinned, told);
      TurnsGoOn(Told(start, [Farewell(start.heap[id].owner, id)]), m, u, before, middle, strays);
    }
  }

  /** The whole of `socket::close`. */
  lemma CloseInTurn(s: State, id: ObjId, u: State, i: nat, before: set<Stray>, strays: set<Stray>)
    requires Consistent(s) && s.OpenAt(id) && s.table.Aligned() && Marked(before, s, id)
    requires i > 0 && Since(Shut(s, id), id, i, u, before, strays)
    ensures InTurn(s, u, before, strays) && Clear(strays, u)
  {
    OneInTurn(s, id, before);
    SinceAnnounced(s, id, u, i, before, strays);
    OneFewer(s, id);
    TurnsGoOn(s, Announced(s, id), u, before, before, strays);
  }

  lemma SinceAnnounced(s: State, id: ObjId, u: State, i: nat, before: set<Stray>, strays: set<Stray>)
    requires s.OpenAt(id) && s.table.Aligned() && i > 0 && Since(Shut(s, id), id, i, u, before, strays)
    ensures InTurn(Announced(s, id), u, before, strays) && Clear(strays, u)
  {
  }

  lemma OneFewer(s: State, id: ObjId)
    requires s.OpenAt(id) && s.table.Aligned()
    ensures FewerOpenIn(s.heap, Announced(s, id).heap)
  {
  }

  // ------------------------------------------------------------------------------------------
  // Calls of the code
  // ------------------------------------------------------------------------------------------

  /** The invariant between calls into the library. */
  ghost predicate Settled(s: State, strays: set<Stray>) {
    var holds := Consistent(s) && Clear(strays, s);
    holds
  }

  /** What a call that opens nothing may do. */
  ghost predicate Moved(s: State, u: State, pinned: set<ObjId>, before: set<Stray>, after: set<Stray>) {
    var holds := Settled(u, after) && Shifted(s, u, pinned, before, after);
    holds
  }

  ghost predicate Shifted(s: State, u: State, pinned: set<ObjId>, before: set<Stray>, after: set<Stray>) {
    var holds := Shrunk(s, u, pinned, {}) && InTurn(s, u, before, after);
    holds
  }

  lemma SettledParts(s: State, strays: set<Stray>)
    requires Settled(s, strays)
    ensures Consistent(s) && Clear(strays, s) && s.table.Aligned()
  {
    AlignedSettled(s);
  }

  lemma AlignedSettled(s: State)
    requires Consistent(s)
    ensures s.table.Aligned()
  {
  }

  lemma MovedParts(s: State, u: State, pinned: set<ObjId>, before: set<Stray>, after: set<Stray>)
    requires Moved(s, u, pinned, before, after)
    ensures Settled(u, after) && Consistent(u) && Shrunk(s, u, pinned, {}) && u.table.Aligned()
    ensures |OpenIds(u.heap)| <= |OpenIds(s.heap)|
  {
    AlignedSettled(u);
    FewerOpen(s, u, pinned, {});
  }

  lemma Idles(s: State, pinned: set<ObjId>, strays: set<Stray>)
    requires Settled(s, strays)
    ensures Moved(s, s, pinned, strays, strays) && s.table.Aligned() && Consistent(s)
  {
    Unmoved(s, pinned);
    StillInTurn(s, s, strays);
  }

  lemma MovesOn(s: State, m: State, u: State, pinned: set<ObjId>, before: set<Stray>, middle: set<Stray>,
                after: set<Stray>)
    requires Moved(s, m, pinned, before, middle) && Moved(m, u, pinned, middle, after)
    ensures Moved(s, u, pinned, before, after)
  {
    Onwards(s, m, u, pinned, {});
    FateFewer(s, m, pinned);
    TurnsGoOn(s, m, u, before, middle, after);
  }

  lemma SentMoved(s: State, id: ObjId, message: seq<SendQueue.byte>, sent: int, u: State, pinned: set<ObjId>,
                  strays: set<Stray>)
    requires Settled(s, strays) && s.Live(id) && SendQueue.Answer(sent, |message|) && (sent >= 0 ==> s.heap[id].Open())
    requires u == Sent(s, id, message, sent)
    ensures Moved(s, u, pinned, strays, strays)
  {
    SentConsistent(s, id, message, sent);
    SentMoves(s, id, message, sent, pinned);
    SentSame(s, id, message, sent);
    StillInTurn(s, u, strays);
  }

  lemma SentSame(s: State, id: ObjId, message: seq<SendQueue.byte>, sent: int)
    requires s.Live(id) && SendQueue.Answer(sent, |message|)
    ensures var u := Sent(s, id, message, sent); SameCrowd(s.heap, u.heap) && u.log == s.log && u.nextId == s.nextId
  {
  }

  lemma RegisteredMoved(s: State, id: ObjId, tag: Tag, flags: Actions.Flags, u: State, pinned: set<ObjId>,
                        strays: set<Stray>)
    requires Settled(s, strays) && s.Live(id) && (tag == READABLE ==> s.heap[id].owner.Listeners?)
    requires tag == CLOSED ==> s.heap[id].Open() && !Actions.Callback(User, flags).Stops()
    requires u == RegisteredOn(s, id, tag, Actions.Callback(User, flags))
    ensures Moved(s, u, pinned, strays, strays)
  {
    RegisteredConsistent(s, id, tag, flags);
    RegisteredMoves(s, id, tag, flags, pinned);
    StillInTurn(s, u, strays);
  }

  lemma LoggedMoved(s: State, e: Event, u: State, pinned: set<ObjId>, strays: set<Stray>)
    requires Settled(s, strays) && !Closes(e) && u == Logged(s, e)
    ensures Moved(s, u, pinned, strays, strays)
  {
    LoggedConsistent(s, e);
    LoggedMoves(s, e, pinned);
    StillInTurn(s, u, strays);
  }

  lemma MarkNow(s: State, id: ObjId, strays: set<Stray>)
    requires Settled(s, strays) && s.OpenAt(id)
    ensures Consistent(s) && Marked(strays + StraysOf(s.heap, id), s, id) && s.table.Aligned()
    ensures forall x :: x in StraysOf(s.heap, id) ==> OpenIn(s.heap, x.id)
  {
    ObjectKnown(s, id);
    AlignedSettled(s);
  }

  lemma CloseBegins(s: State, id: ObjId, c: State, before: set<Stray>, marked: set<Stray>)
    requires Settled(s, before) && s.OpenAt(id) && s.table.Aligned() && c == Shut(s, id)
    requires marked == before + StraysOf(s.heap, id)
    ensures Settled(c, marked) && c.Live(id) && !c.heap[id].Open() && |OpenIds(c.heap)| < |OpenIds(s.heap)|
  {
    MarkNow(s, id, before);
    ShutBegins(s, id);
    ShutClears(s, id, marked);
  }

  lemma ShutClears(s: State, id: ObjId, strays: set<Stray>)
    requires Marked(strays, s, id) && s.table.Aligned()
    ensures Clear(strays, Shut(s, id))
  {
  }

  /** The CLOSED list of `id` ran to its end at `last`. */
  ghost predicate RanInTurn(start: State, u: State, id: ObjId, pinned: set<ObjId>, before: set<Stray>,
                            strays: set<Stray>) {
    var holds := Ran(start, u, id, pinned) && exists last :: last > 0 && Since(start, id, last, u, before, strays);
    holds
  }

  lemma CloseMoves(s: State, id: ObjId, c: State, u: State, pinned: set<ObjId>, before: set<Stray>, marked: set<Stray>,
                   strays: set<Stray>)
    requires Settled(s, before) && s.OpenAt(id) && id !in pinned && s.table.Aligned() && c == Shut(s, id)
    requires marked == before + StraysOf(s.heap, id) && RanInTurn(c, u, id, pinned, marked, strays)
    ensures Moved(s, u, pinned, before, strays) && !OpenIn(u.heap, id) && Parted(s, id, u)
    ensures c.Live(id) && (u == RanQuietly(c, id) ==> QuietlyClosed(s, id, u))
  {
    MarkNow(s, id, before);
    var last :| last > 0 && Since(c, id, last, u, marked, strays);
    CloseEnds(s, id, u, pinned);
    CloseInTurn(s, id, u, last, marked, strays);
    MarkedBefore(s, u, before, marked, strays);
  }

  lemma NoClose(s: State, id: ObjId, pinned: set<ObjId>, strays: set<Stray>)
    requires Settled(s, strays) && s.Live(id) && !s.heap[id].Open()
    ensures Moved(s, s, pinned, strays, strays) && Parted(s, id, s) && s.table.Aligned()
  {
    Idles(s, pinned, strays);
    NothingToClose(s, id, pinned);
  }

  // ------------------------------------------------------------------------------------------
  // The loop over a CLOSED list
  // ------------------------------------------------------------------------------------------

  /** The loop is at callback `i`. */
  ghost predicate RunningInTurn(start: State, m: State, id: ObjId, i: nat, pinned: set<ObjId>, told: seq<Event>,
                                before: set<Stray>, strays: set<Stray>)
  {
    var holds := Running(start, m, id, i, pinned, told) && Since(start, id, i, m, before, strays);
    holds
  }

  lemma ListBegins(s: State, id: ObjId, pinned: set<ObjId>, strays: set<Stray>)
    requires Settled(s, strays) && s.Live(id) && !s.heap[id].Open()
    ensures RunningInTurn(s, s, id, 0, pinned, [], strays, strays) && s == Told(s, [])
  {
    RunBegins(s, id, pinned);
    SinceStart(s, id, strays);
  }

  lemma ListFacts(s: State, m: State, id: ObjId, i: nat, pinned: set<ObjId>, told: seq<Event>,
                  before: set<Stray>, strays: set<Stray>)
    requires RunningInTurn(s, m, id, i, pinned, told, before, strays)
    ensures s.Live(id) && m.Live(id) && m.heap[id].On(CLOSED) == s.heap[id].On(CLOSED) && Settled(m, strays)
    ensures |OpenIds(m.heap)| <= |OpenIds(s.heap)| && i < |s.heap[id].On(CLOSED)|
    ensures var cb, sock := s.heap[id].On(CLOSED)[i], m.heap[id];
            && (cb.exec.Erase? ==> cb.exec == EraseOf(sock))
            && (!cb.exec.Erase? ==> cb.exec in {User, RaiseClosed, RaiseDisconnect})
  {
    RunningFacts(s, m, id, i, pinned, told);
    SinceClear(s, id, i, m, before, strays);
    RunNeverEnds(s, m, id, i, pinned, told);
  }

  lemma SinceClear(start: State, id: ObjId, i: nat, m: State, before: set<Stray>, strays: set<Stray>)
    requires Since(start, id, i, m, before, strays)
    ensures Clear(strays, m)
  {
  }

  lemma ListSkips(s: State, m: State, id: ObjId, i: nat, pinned: set<ObjId>, told: seq<Event>,
                  before: set<Stray>, strays: set<Stray>)
    requires RunningInTurn(s, m, id, i, pinned, told, before, strays)
    requires i < |s.heap[id].On(CLOSED)| && s.heap[id].On(CLOSED)[i].Skipped()
    ensures RunningInTurn(s, m, id, i + 1, pinned, told, before, strays)
  {
    RunningFacts(s, m, id, i, pinned, told);
    FarewellIsFirst(s, m, id, i, pinned, told);
    RunSkips(s, m, id, i, pinned, told);
    SinceSkips(s, id, i, m, before, strays);
  }

  lemma ListErases(s: State, m: State, id: ObjId, i: nat, pinned: set<ObjId>, told: seq<Event>, u: State,
                   before: set<Stray>, strays: set<Stray>)
    requires RunningInTurn(s, m, id, i, pinned, told, before, strays) && m.Live(id)
    requires i < |s.heap[id].On(CLOSED)| && s.heap[id].On(CLOSED)[i].exec == EraseOf(m.heap[id])
    requires u == Erased(m, s.heap[id].On(CLOSED)[i].exec.owner, s.heap[id].On(CLOSED)[i].exec.key)
    ensures RanInTurn(s, u, id, pinned, before, strays)
    ensures m == Told(s, told) ==> u == RanQuietly(s, id)
  {
    RunningFacts(s, m, id, i, pinned, told);
    FarewellIsFirst(s, m, id, i, pinned, told);
    RunErases(s, m, id, i, pinned, told);
    SinceErases(s, id, i, m, pinned, told, before, strays);
  }

  /** The callback ran and did not stop the list. */
  lemma ListGoesOn(s: State, m: State, u: State, id: ObjId, i: nat, pinned: set<ObjId>, told: seq<Event>,
                   more: seq<Event>, before: set<Stray>, middle: set<Stray>, strays: set<Stray>)
    requires RunningInTurn(s, m, id, i, pinned, told, before, middle) && i < |s.heap[id].On(CLOSED)|
    requires var cb := s.heap[id].On(CLOSED)[i];
             && !cb.Stops() && !cb.Skipped() && !cb.exec.Erase?
             && CalledBackInTurn(m, u, id, cb.exec, pinned, middle, strays)
    requires more == told + RaisedBy(s.heap[id].On(CLOSED)[i].exec, id)
    ensures RunningInTurn(s, u, id, i + 1, pinned, more, before, strays)
    ensures u == Told(m, RaisedBy(s.heap[id].On(CLOSED)[i].exec, id)) && m == Told(s, told) ==> u == Told(s, more)
  {
    ToldMore(s, told, RaisedBy(s.heap[id].On(CLOSED)[i].exec, id));
    RunGoesOn(s, m, u, id, i, pinned, told);
    SinceNext(s, id, i, m, pinned, told, u, before, middle, strays);
  }

  /** The callback ran and stopped the list. */
  lemma ListStops(s: State, m: State, u: State, id: ObjId, i: nat, pinned: set<ObjId>, told: seq<Event>,
                  before: set<Stray>, middle: set<Stray>, strays: set<Stray>)
    requires RunningInTurn(s, m, id, i, pinned, told, before, middle) && i < |s.heap[id].On(CLOSED)|
    requires var cb := s.heap[id].On(CLOSED)[i];
             cb.Stops() && !cb.exec.Erase? && CalledBackInTurn(m, u, id, cb.exec, pinned, middle, strays)
    ensures RanInTurn(s, u, id, pinned, before, strays)
    ensures u == Told(m, RaisedBy(s.heap[id].On(CLOSED)[i].exec, id)) && m == Told(s, told) ==> u == RanQuietly(s, id)
  {
    ToldMore(s, told, RaisedBy(s.heap[id].On(CLOSED)[i].exec, id));
    RunningFacts(s, m, id, i, pinned, told);
    RunStops(s, m, u, id, i, pinned, told);
    ToldAtStop(s, m, id, i, pinned, told);
    SinceNext(s, id, i, m, pinned, told, u, before, middle, strays);
  }

  /** One callback of the list of `id` and the user code hooked to its event. */
  ghost predicate CalledBackInTurn(m: State, u: State, id: ObjId, e: Core.Exec, pinned: set<ObjId>,
                                   before: set<Stray>, after: set<Stray>)
  {
    var holds :=
      CalledBack(m, u, id, e, pinned) && Clear(after, u) && InTurn(Told(m, RaisedBy(e, id)), u, before, after);
    holds
  }

  lemma ToldSettled(m: State, e: Core.Exec, id: ObjId, pinned: set<ObjId>, strays: set<Stray>)
    requires Settled(m, strays) && id !in pinned
    ensures Settled(Told(m, RaisedBy(e, id)), strays)
  {
    ToldMoves(m, e, id, pinned);
  }

  lemma CallbackMoved(m: State, e: Core.Exec, id: ObjId, u: State, pinned: set<ObjId>, before: set<Stray>,
                      after: set<Stray>)
    requires Settled(m, before) && id !in pinned && Moved(Told(m, RaisedBy(e, id)), u, pinned + {id}, before, after)
    ensures CalledBackInTurn(m, u, id, e, pinned, before, after)
  {
    CallbackRan(m, e, id, u, pinned);
  }

  // ------------------------------------------------------------------------------------------
  // The loop over a container
  // ------------------------------------------------------------------------------------------

  /** The loop of `socket_container::close`, begun in `s`, is in `m`. */
  ghost predicate Draining(s: State, m: State, o: Owner, pinned: set<ObjId>, before: set<Stray>, strays: set<Stray>) {
    var holds :=
      && Moved(s, m, pinned, before, strays)
      && Ready(m.heap, o) && NonePinned(m.heap, o, pinned) && Unblocked(m.heap, o);
    holds
  }

  lemma DrainBegins(s: State, o: Owner, pinned: set<ObjId>, strays: set<Stray>)
    requires Settled(s, strays) && Ready(s.heap, o) && NonePinned(s.heap, o, pinned) && Unblocked(s.heap, o)
    ensures Draining(s, s, o, pinned, strays, strays)
  {
    Idles(s, pinned, strays);
  }

  lemma DrainPicks(s: State, m: State, o: Owner, pinned: set<ObjId>, before: set<Stray>, strays: set<Stray>)
    requires Draining(s, m, o, pinned, before, strays) && m.KeysOf(o) != {}
    ensures m.OpenAt(First(m, o)) && First(m, o) !in pinned && Settled(m, strays) && Consistent(m)
    ensures StraysOf(m.heap, First(m, o)) == {}
    ensures Key(o, Machine.Least(m.KeysOf(o))) in m.owned && |OpenIds(m.heap)| <= |OpenIds(s.heap)| && m.table.Aligned()
    ensures Ready(m.heap, o)
  {
    MovedParts(s, m, pinned, before, strays);
    FirstOf(m, o, pinned);
    LoopClosesInTurn(m, o);
  }

  lemma DrainGoesOn(s: State, m: State, u: State, o: Owner, pinned: set<ObjId>, before: set<Stray>, middle: set<Stray>,
                    strays: set<Stray>)
    requires Draining(s, m, o, pinned, before, middle) && m.KeysOf(o) != {} && m.OpenAt(First(m, o))
    requires Moved(m, u, pinned, middle, strays) && !OpenIn(u.heap, First(m, o))
    ensures Draining(s, u, o, pinned, before, strays) && |OpenIds(u.heap)| < |OpenIds(m.heap)|
  {
    TurnDone(s, m, u, o, pinned);
    MovesOn(s, m, u, pinned, before, middle, strays);
    StaysUnblocked(m, u, o, pinned);
  }

  lemma DrainEnds(s: State, u: State, o: Owner, pinned: set<ObjId>, before: set<Stray>, strays: set<Stray>)
    requires Draining(s, u, o, pinned, before, strays) && u.KeysOf(o) == {} && Consistent(s) && Ready(s.heap, o)
    ensures Moved(s, u, pinned, before, strays) && Consistent(u)
    ensures ClosedInOrder(s, o, u) <==> NoStray(Members(s.heap, o), OfContainer(o), strays)
  {
    ContainerInOrderIff(s, o, u, before, strays);
  }

  lemma StaysUnblocked(s: State, u: State, o: Owner, pinned: set<ObjId>)
    requires Shrunk(s, u, pinned, {}) && Unblocked(s.heap, o)
    ensures Unblocked(u.heap, o)
  {
    FateFewer(s, u, pinned);
    if o.Listeners? {
      LineShrinks(s.heap, u.heap, OfContainer(Clients(o.server)));
    }
  }

  // ------------------------------------------------------------------------------------------
  // Closing a server
  // ------------------------------------------------------------------------------------------

  /** Between the two loops of `server_impl::close`. */
  lemma ServerBetween(s: State, server: nat, m: State, pinned: set<ObjId>, before: set<Stray>, strays: set<Stray>)
    requires Moved(s, m, pinned, before, strays) && m.KeysOf(Clients(server)) == {}
    requires Ready(s.heap, Listeners(server)) && NonePinned(s.heap, Listeners(server), pinned)
    ensures Settled(m, strays) && |OpenIds(m.heap)| <= |OpenIds(s.heap)|
    ensures Ready(m.heap, Listeners(server)) && NonePinned(m.heap, Listeners(server), pinned)
    ensures Unblocked(m.heap, Listeners(server))
  {
    MovedParts(s, m, pinned, before, strays);
    StaysReady(s, m, pinned, Listeners(server));
    EmptyLine(m, Clients(server));
    forall id: ObjId | id in pinned && id in m.heap ensures m.heap[id].owner != Listeners(server) {
      assert Fate(s.heap, m.heap, pinned, id);
    }
  }

  lemma ServerEnds(s: State, server: nat, m: State, u: State, pinned: set<ObjId>, before: set<Stray>,
                   middle: set<Stray>, strays: set<Stray>)
    requires Settled(s, before) && Ready(s.heap, Clients(server)) && Ready(s.heap, Listeners(server))
    requires Moved(s, m, pinned, before, middle) && m.KeysOf(Clients(server)) == {}
    requires Moved(m, u, pinned, middle, strays) && u.KeysOf(Listeners(server)) == {}
    ensures Moved(s, u, pinned, before, strays) && u.KeysOf(Clients(server)) == {} && Consistent(m) && Consistent(u)
    ensures ServerClosedInOrder(s, server, u) <==>
            NoStray(Members(s.heap, Clients(server)) + Members(s.heap, Listeners(server)), OfServer(server), strays)
  {
    MovedParts(s, m, pinned, before, middle);
    MovedParts(m, u, pinned, middle, strays);
    MovesOn(s, m, u, pinned, before, middle, strays);
    StaysEmpty(m, u, Clients(server), pinned);
    ServerInOrderIff(s, server, u, before, strays);
  }

  // ------------------------------------------------------------------------------------------
  // New sockets
  // ------------------------------------------------------------------------------------------

  lemma SettledWithNew(s: State, o: Owner, fd: int, u: State, strays: set<Stray>)
    requires Settled(s, strays) && Opened(s, o, fd, u) && Consistent(u)
    ensures Settled(u, strays)
  {
    OpenedFacts(s, o, fd, u);
  }

  /** A socket was made in a container since `s`, and hooked up so far. */
  ghost predicate MadeIn(s: State, o: Owner, fd: int, u: State) {
    var holds :=
      && fd >= 0 && fd !in s.kernel && Key(o, fd) !in s.owned && !o.Clients?
      && Opened(s, o, fd, u) && Consistent(u) && u.OpenAt(s.nextId) && Clean(u.heap[s.nextId])
      && u.heap.Keys == s.heap.Keys + {s.nextId};
    holds
  }

  lemma ListenerIn(s: State, server: nat, fd: int, c: State, u: State)
    requires Consistent(s) && fd >= 0 && fd !in s.kernel && Key(Listeners(server), fd) !in s.owned
    requires c == Inserted(Allocated(s, fd), Listeners(server), fd) && c.Live(s.nextId)
    requires u == RegisteredOn(c, s.nextId, CLOSED, Actions.Callback(RaiseClosed, {}))
    ensures MadeIn(s, Listeners(server), fd, u)
  {
    ListenerMade(s, server, fd, false);
  }

  lemma PeerIn(s: State, client: nat, fd: int, c: State, u: State)
    requires Consistent(s) && fd >= 0 && fd !in s.kernel && Key(Peers(client), fd) !in s.owned
    requires c == Inserted(Allocated(s, fd), Peers(client), fd) && c.Live(s.nextId)
    requires u == RegisteredOn(c, s.nextId, CLOSED, Actions.Callback(RaiseClosed, {}))
    ensures MadeIn(s, Peers(client), fd, u)
  {
    PeerMade(s, client, fd, false);
  }

  lemma MadeFacts(s: State, o: Owner, fd: int, u: State, strays: set<Stray>)
    requires Settled(s, strays) && MadeIn(s, o, fd, u)
    ensures Settled(u, strays) && u.OpenAt(s.nextId) && Clean(u.heap[s.nextId])
  {
    SettledWithNew(s, o, fd, u, strays);
  }

  lemma MadeAndGone(s: State, o: Owner, fd: int, made: State, m: State, u: State, before: set<Stray>, after: set<Stray>)
    requires MadeIn(s, o, fd, made) && Shrunk(made, m, {s.nextId}, {}) && m.OpenAt(s.nextId) && Clean(m.heap[s.nextId])
    requires Moved(m, u, {}, before, after) && !OpenIn(u.heap, s.nextId)
    ensures u.heap.Keys <= s.heap.Keys && Settled(u, after)
  {
    NewOneGone(s, made, m, u, s.nextId);
  }

  /** What is heard of a new socket closed again, after the ERROR event was raised if `told`. */
  function GivenUp(s: State, o: Owner, fd: int, told: bool): seq<Event> {
    if told then [Failed(o), SysClose(s.nextId, fd), Closed(s.nextId)] else [SysClose(s.nextId, fd), Closed(s.nextId)]
  }

  lemma MadeRollsBack(s: State, o: Owner, fd: int, made: State, called: State, u: State, told: bool)
    requires Consistent(s) && MadeIn(s, o, fd, made) && called == (if told then Logged(made, Failed(o)) else made)
    requires QuietlyClosed(called, s.nextId, u)
    ensures Restored(s, u, o, fd, GivenUp(s, o, fd, told))
  {
    if told { ToldRollsBack(s, o, fd, made, called, u); } else { RollsBack(s, o, fd, made); }
  }

  lemma ToldRollsBack(s: State, o: Owner, fd: int, made: State, called: State, u: State)
    requires Consistent(s) && MadeIn(s, o, fd, made) && called == Logged(made, Failed(o))
    requires QuietlyClosed(called, s.nextId, u)
    ensures Restored(s, u, o, fd, GivenUp(s, o, fd, true))
  {
    var s' := ToldFirst(s, o, fd, made, called);
    RollsBack(s', o, fd, called);
    RestoredSince(s, s', u, o, fd);
  }

  lemma ToldFirst(s: State, o: Owner, fd: int, made: State, called: State) returns (s': State)
    requires Consistent(s) && MadeIn(s, o, fd, made) && called == Logged(made, Failed(o))
    ensures s' == Logged(s, Failed(o)) && Consistent(s') && MadeIn(s', o, fd, called)
    ensures s'.nextId == s.nextId
  {
    s' := Logged(s, Failed(o));
    LoggedConsistent(s, Failed(o));
    LoggedConsistent(made, Failed(o));
    MadeWithLog(s, o, fd, made, Failed(o));
  }

  lemma MadeWithLog(s: State, o: Owner, fd: int, made: State, e: Event)
    requires MadeIn(s, o, fd, made)
    ensures Opened(Logged(s, e), o, fd, Logged(made, e))
  {
  }

  lemma RestoredSince(s: State, s': State, u: State, o: Owner, fd: int)
    requires s' == Logged(s, Failed(o)) && Restored(s', u, o, fd, [SysClose(s.nextId, fd), Closed(s.nextId)])
    ensures Restored(s, u, o, fd, GivenUp(s, o, fd, true))
  {
    assert (s.log + [Failed(o)]) + [SysClose(s.nextId, fd), Closed(s.nextId)] == s.log + GivenUp(s, o, fd, true);
  }

  /** A failure that was told of in time, or is now. */
  lemma FailureTold(s: State, o: Owner, fd: int, m: State, u: State, late: bool)
    requires fd >= 0 && Key(o, fd) !in s.owned
    requires Restored(s, m, o, fd, GivenUp(s, o, fd, !late)) && u == if late then Logged(m, Failed(o)) else m
    ensures RolledBack(s, u, o, fd, late)
  {
    if late { assert s.log + GivenUp(s, o, fd, false) + [Failed(o)] == s.log + FailureHeard(s, o, fd, true); }
  }

  lemma ListenerSettled(s: State, server: nat, fd: int, c: State, c1: State, u: State, strays: set<Stray>)
    requires Settled(s, strays) && fd >= 0 && fd !in s.kernel && Key(Listeners(server), fd) !in s.owned
    requires c == Inserted(Allocated(s, fd), Listeners(server), fd) && c.Live(s.nextId)
    requires c1 == RegisteredOn(c, s.nextId, CLOSED, Actions.Callback(RaiseClosed, {})) && c1.Live(s.nextId)
    requires u == RegisteredOn(c1, s.nextId, READABLE, Actions.Callback(Accept(server), {}))
    ensures Settled(u, strays)
    ensures Logged(u, Listening(s.nextId)) == ListenerOpen(s, server, fd)
  {
    ListenerMade(s, server, fd, true);
    SettledWithNew(s, Listeners(server), fd, u, strays);
  }

  lemma PeerSettled(s: State, client: nat, fd: int, c: State, c1: State, c2: State, u: State, strays: set<Stray>)
    requires Settled(s, strays) && fd >= 0 && fd !in s.kernel && Key(Peers(client), fd) !in s.owned
    requires c == Inserted(Allocated(s, fd), Peers(client), fd) && c.Live(s.nextId)
    requires c1 == RegisteredOn(c, s.nextId, CLOSED, Actions.Callback(RaiseClosed, {})) && c1.Live(s.nextId)
    requires c2 == RegisteredOn(c1, s.nextId, READABLE, Actions.Callback(Recv, {})) && c2.Live(s.nextId)
    requires u == RegisteredOn(c2, s.nextId, RECV, Actions.Callback(RaisePeerReceive, {}))
    ensures Settled(u, strays)
    ensures Logged(u, Connected(s.nextId)) == PeerOpen(s, client, fd)
  {
    PeerMade(s, client, fd, true);
    SettledWithNew(s, Peers(client), fd, u, strays);
  }

  lemma ClientSettled(s: State, server: nat, fd: int, c: State, u: State, strays: set<Stray>)
    requires Settled(s, strays) && fd >= 0 && fd !in s.kernel && Key(Clients(server), fd) !in s.owned
    requires c == Inserted(Allocated(s, fd), Clients(server), fd) && c.Live(s.nextId)
    requires u == Machine.ClientActions(c, s.nextId)
    ensures Settled(u, strays) && Logged(u, Accepted(s.nextId)) == ClientAdded(s, server, fd)
  {
    ClientMade(s, server, fd);
    SettledWithNew(s, Clients(server), fd, u, strays);
  }

  lemma SettledStill(s: State, u: State, strays: set<Stray>)
    requires Settled(s, strays) && Consistent(u) && u.heap == s.heap && u.nextId == s.nextId
    ensures Settled(u, strays)
  {
  }
}
