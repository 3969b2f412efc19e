/** A callback that closes another socket of a container that is being closed, in the machine: the order of the
    closes is kept exactly if the other socket is the next one. */
module Disorder {
  import opened PollHandler
  import opened Core
  import opened Machine
  import opened Closing
  import opened Quiet
  import opened Reentry
  import Actions
  import EngineFacts
  import Order
  import Safety
  import Steps

  // ------------------------------------------------------------------------------------------
  // Sequences of farewells
  // ------------------------------------------------------------------------------------------

  /** The descriptors in the order of their closes when the callback of the socket after `n` others closes `k`. */
  function CloseOrder(keys: set<int>, n: nat, k: int): seq<int>
    decreases n
  {
    if keys == {} then []
    else
      var least := Least(keys);
      [least] + if n == 0 then [k] + Ascending(keys - {least} - {k}) else CloseOrder(keys - {least}, n - 1, k)
  }

  /** `k` comes after more than `n` others. */
  predicate Later(keys: set<int>, n: nat, k: int)
    decreases n
  {
    k in keys && k != Least(keys) && (n > 0 ==> Later(keys - {Least(keys)}, n - 1, k))
  }

  lemma {:induction false} LaterThan(keys: set<int>, n: nat, k: int)
    requires n < |Ascending(keys)| && k in keys && Ascending(keys)[n] < k
    ensures Later(keys, n, k) && n + 1 < |Ascending(keys)|
    decreases n
  {
    AscendingIsSorted(keys);
    var least := Least(keys);
    assert Ascending(keys)[0] == least;
    if n == 0 {
      assert k != least;
    } else {
      assert Ascending(keys)[0] < Ascending(keys)[n];
      LaterThan(keys - {least}, n - 1, k);
    }
    assert k in Ascending(keys);
  }

  /** That is ascending order exactly if `k` is the next one. */
  lemma {:induction false} OrderIff(keys: set<int>, n: nat, k: int)
    requires Later(keys, n, k)
    ensures n + 1 < |Ascending(keys)|
    ensures CloseOrder(keys, n, k) == Ascending(keys) <==> k == Ascending(keys)[n + 1]
    decreases n
  {
    var least := Least(keys);
    var others := keys - {least};
    assert k in others;
    if n == 0 {
      SecondIff(others, k);
    } else {
      OrderIff(others, n - 1, k);
      SameTail(least, CloseOrder(others, n - 1, k), Ascending(others));
    }
  }

  lemma SecondIff(others: set<int>, k: int)
    requires k in others
    ensures Ascending(others) != []
    ensures [k] + Ascending(others - {k}) == Ascending(others) <==> k == Ascending(others)[0]
  {
    assert ([k] + Ascending(others - {k}))[0] == k;
  }

  lemma SameTail<T>(first: T, a: seq<T>, b: seq<T>)
    ensures [first] + a == [first] + b <==> a == b
  {
    assert ([first] + a)[1..] == a && ([first] + b)[1..] == b;
  }

  lemma {:induction false} OrderKeys(keys: set<int>, n: nat, k: int)
    requires Later(keys, n, k)
    ensures forall j :: j in CloseOrder(keys, n, k) ==> j in keys
    decreases n
  {
    var others := keys - {Least(keys)};
    if n == 0 {
      AscendingIsSorted(others - {k});
    } else {
      OrderKeys(others, n - 1, k);
    }
  }

  /** Farewells tell the descriptors they are for. */
  lemma {:induction false} FarewellsTell(owned: map<Key, ObjId>, o: Owner, a: seq<int>, b: seq<int>)
    requires forall k :: k in a || k in b ==> Key(o, k) in owned
    ensures Farewells(owned, o, a) == Farewells(owned, o, b) <==> a == b
    decreases a
  {
    if a == [] || b == [] {
      if a != [] { assert a[0] in a; }
      if b != [] { assert b[0] in b; }
    } else {
      assert a[0] in a && b[0] in b;
      assert a == [a[0]] + a[1..] && b == [b[0]] + b[1..];
      Order.FarewellsStep(owned, o, a[0], a[1..]);
      Order.FarewellsStep(owned, o, b[0], b[1..]);
      FarewellsTell(owned, o, a[1..], b[1..]);
      TwoFirst([SysClose(owned[Key(o, a[0])], a[0]), Farewell(o, owned[Key(o, a[0])])], Farewells(owned, o, a[1..]),
               [SysClose(owned[Key(o, b[0])], b[0]), Farewell(o, owned[Key(o, b[0])])], Farewells(owned, o, b[1..]));
    }
  }

  lemma TwoFirst<T>(a: seq<T>, a': seq<T>, b: seq<T>, b': seq<T>)
    requires |a| == |b|
    ensures a + a' == b + b' <==> a == b && a' == b'
  {
    assert (a + a')[..|a|] == a && (b + b')[..|a|] == b;
    assert (a + a')[|a|..] == a' && (b + b')[|a|..] == b';
  }

  /** They are all about the sockets of the container. */
  lemma {:induction false} FarewellsPart(owned: map<Key, ObjId>, o: Owner, keys: seq<int>, ids: set<ObjId>)
    requires forall k :: k in keys ==> Key(o, k) in owned && owned[Key(o, k)] in ids
    ensures Partings(Farewells(owned, o, keys), ids) == Farewells(owned, o, keys)
  {
    if keys == [] {
    } else {
      assert keys[0] in keys && keys == [keys[0]] + keys[1..];
      var id := owned[Key(o, keys[0])];
      FarewellsPart(owned, o, keys[1..], ids);
      Order.FarewellsStep(owned, o, keys[0], keys[1..]);
      TwoParts(SysClose(id, keys[0]), Farewell(o, id), ids);
      PartingsOfSum([SysClose(id, keys[0]), Farewell(o, id)], Farewells(owned, o, keys[1..]), ids);
    }
  }

  lemma TwoParts(a: Event, b: Event, ids: set<ObjId>)
    requires Parting(a, ids) && Parting(b, ids)
    ensures Partings([a, b], ids) == [a, b]
  {
    assert [a, b] == [] + [a] + [b];
    PartingsAfter([], a, ids);
    PartingsAfter([] + [a], b, ids);
  }

  /** Closed in the order of `keys`: that is ascending order exactly if `keys` are so. */
  lemma InOrderIff(c: State, o: Owner, u: State, keys: seq<int>)
    requires Consistent(c) && u.log == c.log + Farewells(c.owned, o, keys)
    requires forall k :: k in keys ==> k in c.KeysOf(o)
    ensures Order.ClosedInOrder(c, o, u) <==> keys == Ascending(c.KeysOf(o))
  {
    var ids, all := Members(c.heap, o), Ascending(c.KeysOf(o));
    AscendingIsSorted(c.KeysOf(o));
    forall k | k in keys || k in all ensures Key(o, k) in c.owned && c.owned[Key(o, k)] in ids {
      EngineFacts.KeyHasObject(c, Key(o, k));
    }
    FarewellsPart(c.owned, o, keys, ids);
    PartingsOfSum(c.log, Farewells(c.owned, o, keys), ids);
    FarewellsTell(c.owned, o, keys, all);
    if Order.ClosedInOrder(c, o, u) {
      Cancelled(Partings(c.log, ids), Farewells(c.owned, o, keys), AllFarewells(c, o));
    }
  }

  // ------------------------------------------------------------------------------------------
  // The callback of the first socket
  // ------------------------------------------------------------------------------------------

  /** The loop of `socket_container::close`, its first socket closed and user code told so. */
  function FirstHook(c: State, o: Owner, rest: seq<Frame>, p: Poller): Sys
    requires c.KeysOf(o) != {} && c.Live(First(c, o)) && c.table.Aligned()
  {
    var first := First(c, o);
    Sys(Order.Announced(c, first),
        [Hook] + ([Exec(first, CLOSED, 1, |c.heap[first].On(CLOSED)|)] + ([Draining(o)] + rest)), p)
  }

  lemma FirstHookIs(c: State, o: Owner, rest: seq<Frame>, p: Poller)
    requires Consistent(c) && Ready(c.heap, o) && c.KeysOf(o) != {}
    ensures c.OpenAt(First(c, o)) && c.table.Aligned() && Leads(Drainer(c, o, rest, p), FirstHook(c, o, rest, p))
  {
    var first := First(c, o);
    FirstIsReady(c, o);
    AlignedAfter(c);
    DrainStarts(c, o, rest, p);
    AllAnnounce(c, first);
    HookAfterShut(c, first, o, rest, p);
    Chain(Drainer(c, o, rest, p), CloseSocket(Drainer(c, o, rest, p), first), FirstHook(c, o, rest, p));
  }

  lemma HookAfterShut(c: State, id: ObjId, o: Owner, rest: seq<Frame>, p: Poller)
    requires c.KeysOf(o) != {} && id == First(c, o) && c.OpenAt(id) && c.table.Aligned() && Announces(c.heap[id])
    ensures Leads(CloseSocket(Drainer(c, o, rest, p), id), FirstHook(c, o, rest, p))
  {
    var closing := CloseSocket(Drainer(c, o, rest, p), id);
    ShutLists(c, id);
    FirstCallback(closing, id, [Draining(o)] + rest);
    OneStep(closing);
  }

  lemma ShutLists(c: State, id: ObjId)
    requires c.Live(id) && c.table.Aligned()
    ensures Shut(c, id).heap[id].On(CLOSED) == c.heap[id].On(CLOSED) && Shut(c, id).table.Aligned()
    ensures Announces(c.heap[id]) ==> Announces(Shut(c, id).heap[id])
  {
  }

  lemma FirstCallback(s: Sys, id: ObjId, rest: seq<Frame>)
    requires s.core.Live(id) && s.core.table.Aligned() && Announces(s.core.heap[id])
    requires s.stack == [Exec(id, CLOSED, 0, |s.core.heap[id].On(CLOSED)|)] + rest
    ensures Step(s, Lazy(s)) ==
            Stepped(Sys(EngineFacts.Told(s.core, [Farewell(s.core.heap[id].owner, id)]),
                        [Hook] + ([Exec(id, CLOSED, 1, |s.core.heap[id].On(CLOSED)|)] + rest), s.poller))
  {
    assert s.stack[1..] == rest;
  }

  /** The socket whose callback it is goes when its list ends. */
  lemma RestErases(c: State, id: ObjId, rest: seq<Frame>, p: Poller) returns (u: State)
    requires Consistent(c) && c.Live(id) && !c.heap[id].Open() && Clean(c.heap[id])
    ensures Consistent(u) && u.heap == c.heap - {id} && u.log == c.log
    ensures u.owned == c.owned - {Key(c.heap[id].owner, c.heap[id].key)}
    ensures Leads(Sys(c, [Exec(id, CLOSED, 1, |c.heap[id].On(CLOSED)|)] + rest, p), Sys(u, rest, p))
  {
    u := RestGone(c, id);
    var k := ListRuns(c, id, 1, rest, p);
    Leading(At(c, id, 1, rest, p), k, Sys(u, rest, p));
  }

  /** The state in that callback. */
  lemma HookedFacts(c: State, o: Owner, first: ObjId, x: ObjId) returns (h: State)
    requires Consistent(c) && Ready(c.heap, o) && c.OpenAt(first) && c.table.Aligned() && first in Members(c.heap, o)
    requires x in Members(c.heap, o) && x != first
    ensures h == Order.Announced(c, first) && Consistent(h) && h.table.Aligned() && h.owned == c.owned
    ensures h.heap == c.heap[first := c.heap[first].(fd := -1)] && h.OpenAt(x) && Clean(h.heap[x])
    ensures Clean(h.heap[first])
    ensures h.log == c.log + [SysClose(first, c.heap[first].fd), Farewell(o, first)]
  {
    ShutConsistent(c, first);
    LoggedConsistent(Shut(c, first), Farewell(o, first));
    h := Logged(Shut(c, first), Farewell(o, first));
    AlignedAfter(h);
    ShutLists(c, first);
    SameClosedList(c.heap[first], h.heap[first]);
    Order.AnnouncedIs(c, first);
    assert h == Order.Announced(c, first);
  }

  lemma MayCloseOther(s: Sys, first: ObjId, end: nat, o: Owner, rest: seq<Frame>, x: ObjId)
    requires s.core.Live(x) && x != first && !Busy(rest, x)
    requires s.stack == [Hook] + ([Exec(first, CLOSED, 1, end)] + ([Draining(o)] + rest))
    ensures UserMay(s, CallClose(x))
  {
    var below := [Exec(first, CLOSED, 1, end)] + ([Draining(o)] + rest);
    assert s.stack[1..] == below && below[1..] == [Draining(o)] + rest && ([Draining(o)] + rest)[1..] == rest;
    assert !Busy([Draining(o)] + rest, x);
    assert !Busy(below, x);
  }

  /** After `x` was closed. */
  lemma OtherClosed(h: State, o: Owner, x: ObjId) returns (u: State)
    requires Consistent(h) && h.table.Aligned() && h.OpenAt(x) && Clean(h.heap[x]) && h.heap[x].owner == o
    ensures u == ClosedQuietly(h, x) && Consistent(u) && u.heap == h.heap - {x}
    ensures u.log == h.log + [SysClose(x, h.heap[x].fd), Farewell(o, x)]
    ensures u.owned == h.owned - {Key(o, h.heap[x].key)}
  {
    u := ClosedQuietly(h, x);
    ConsistentCloses(h, x);
    ClosedConsistent(h, x);
    ClosedCleanly(h, x);
    EngineFacts.ListsKnown(h, x);
    CloseIsFarewell(h.heap[x], x);
  }

  /** The rest of the loop. */
  lemma RestDrained(c: State, o: Owner, rest: seq<Frame>, p: Poller) returns (u: State)
    requires Consistent(c) && Ready(c.heap, o)
    ensures Leads(Drainer(c, o, rest, p), Sys(u, rest, p)) && u.KeysOf(o) == {}
    ensures u.log == c.log + Farewells(c.owned, o, Ascending(c.KeysOf(o)))
  {
    u := DrainsFully(c, o, rest, p, |c.KeysOf(o)|);
    DrainedIsEmpty(c, o, u);
    RolesOf(c);
    DrainedFarewells(c, o, u);
  }

  lemma RolesOf(c: State)
    requires Consistent(c)
    ensures Valid(c) && Safety.Roles(c.heap)
  {
  }

  lemma ReadyWithout(heap: Heap, o: Owner, first: ObjId, x: ObjId, heap': Heap)
    requires Ready(heap, o) && first in heap && heap' == heap[first := heap[first].(fd := -1)] - {x} - {first}
    ensures Ready(heap', o)
  {
  }

  /** From the close of `x` to the end of the loop. */
  lemma ClosesOther(h: Sys, heap: Heap, o: Owner, first: ObjId, rest: seq<Frame>, x: ObjId) returns (c: State, u: State)
    requires Consistent(h.core) && h.core.table.Aligned() && Ready(heap, o) && first in heap && x != first
    requires h.core.heap == heap[first := heap[first].(fd := -1)] && heap[first].owner == o && Clean(h.core.heap[first])
    requires h.core.OpenAt(x) && Clean(h.core.heap[x]) && h.core.heap[x].owner == o
    requires h.stack == [Hook] + ([Exec(first, CLOSED, 1, |h.core.heap[first].On(CLOSED)|)] + ([Draining(o)] + rest))
    ensures Leads(CloseSocket(h, x), Sys(u, rest, h.poller)) && u.KeysOf(o) == {}
    ensures c.owned == h.core.owned - {Key(o, h.core.heap[x].key)} - {Key(o, heap[first].key)}
    ensures u.log == h.core.log + [SysClose(x, h.core.heap[x].fd), Farewell(o, x)] +
                     Farewells(c.owned, o, Ascending(c.KeysOf(o)))
  {
    var c1 := OtherClosed(h.core, o, x);
    var below, p := [Draining(o)] + rest, h.poller;
    var at := Sys(c1, [Exec(first, CLOSED, 1, |c1.heap[first].On(CLOSED)|)] + below, p);
    ConsistentClosable(h.core, x);
    var closed := CloseLeads(h, x);
    HookReturns(c1, at.stack, p);
    Chain(CloseSocket(h, x), h.On(c1), at);
    c := RestErases(c1, first, below, p);
    Chain(CloseSocket(h, x), at, Drainer(c, o, rest, p));
    ReadyWithout(heap, o, first, x, c.heap);
    u := RestDrained(c, o, rest, p);
    Chain(CloseSocket(h, x), Drainer(c, o, rest, p), Sys(u, rest, p));
  }

  /** In the callback of the first socket, `x` is closed: the order of the closes. */
  lemma FirstHookCloses(c: State, o: Owner, rest: seq<Frame>, p: Poller, x: ObjId) returns (u: State)
    requires Consistent(c) && Ready(c.heap, o) && c.KeysOf(o) != {} && c.OpenAt(First(c, o)) && c.table.Aligned()
    requires First(c, o) in Members(c.heap, o) && c.heap[First(c, o)].key == Least(c.KeysOf(o))
    requires x in Members(c.heap, o) && x != First(c, o)
    ensures var hooked := FirstHook(c, o, rest, p);
            && hooked.core.Live(x) && hooked.core.table.Aligned()
            && Leads(CloseSocket(hooked, x), Sys(u, rest, p)) && u.KeysOf(o) == {}
    ensures u.log == c.log + Farewells(c.owned, o, CloseOrder(c.KeysOf(o), 0, c.heap[x].key))
  {
    var first, hooked := First(c, o), FirstHook(c, o, rest, p);
    var core := HookedFacts(c, o, first, x);
    ShutLists(c, first);
    var left;
    left, u := ClosesOther(hooked, c.heap, o, first, rest, x);
    Order.ObjectKnown(c, first);
    Order.ObjectKnown(c, x);
    OrderOfFirst(c, o, first, x, left.owned, left.KeysOf(o), u.log);
  }

  lemma OrderOfFirst(c: State, o: Owner, first: ObjId, x: ObjId, owned: map<Key, ObjId>, left: set<int>,
                     log: seq<Event>)
    requires c.KeysOf(o) != {} && first in Members(c.heap, o) && x in Members(c.heap, o)
    requires Least(c.KeysOf(o)) == c.heap[first].key
    requires Key(o, c.heap[first].key) in c.owned && c.owned[Key(o, c.heap[first].key)] == first
    requires Key(o, c.heap[x].key) in c.owned && c.owned[Key(o, c.heap[x].key)] == x
    requires c.heap[first].fd == c.heap[first].key && c.heap[x].fd == c.heap[x].key
    requires owned == c.owned - {Key(o, c.heap[x].key)} - {Key(o, c.heap[first].key)}
    requires left == set k | k in owned && k.owner == o :: k.fd
    requires log == c.log + [SysClose(first, c.heap[first].fd), Farewell(o, first)] +
                    [SysClose(x, c.heap[x].fd), Farewell(o, x)] + Farewells(owned, o, Ascending(left))
    ensures log == c.log + Farewells(c.owned, o, CloseOrder(c.KeysOf(o), 0, c.heap[x].key))
  {
    var a, b := c.heap[first].key, c.heap[x].key;
    KeysLeft(c, o, a, b, owned, left);
    Order.FarewellsStep(c.owned, o, b, Ascending(left));
    Order.FarewellsStep(c.owned, o, a, [b] + Ascending(left));
    ThreeParts(c.log, [SysClose(first, a), Farewell(o, first)], [SysClose(x, b), Farewell(o, x)],
               Farewells(c.owned, o, Ascending(left)));
  }

  lemma KeysLeft(c: State, o: Owner, a: int, b: int, owned: map<Key, ObjId>, left: set<int>)
    requires owned == c.owned - {Key(o, b)} - {Key(o, a)} && left == set k | k in owned && k.owner == o :: k.fd
    ensures left == c.KeysOf(o) - {a} - {b}
    ensures Farewells(owned, o, Ascending(left)) == Farewells(c.owned, o, Ascending(left))
  {
    forall k ensures k in left <==> k in c.KeysOf(o) - {a} - {b} {
      if k in c.KeysOf(o) - {a} - {b} { assert Key(o, k) in owned; }
    }
    AscendingIsSorted(left);
    forall k | k in Ascending(left)
      ensures Key(o, k) in owned && Key(o, k) in c.owned && owned[Key(o, k)] == c.owned[Key(o, k)]
    {
      assert Key(o, k) in owned;
    }
    FarewellsSame(owned, c.owned, o, Ascending(left));
  }

  lemma ThreeParts<T>(log: seq<T>, a: seq<T>, b: seq<T>, rest: seq<T>)
    ensures log + a + b + rest == log + (a + (b + rest))
  {
  }

  // ------------------------------------------------------------------------------------------
  // The callback of any socket
  // ------------------------------------------------------------------------------------------

  /** The state of the machine in the callback of the socket after `n` others. */
  function HookAfter(c: State, o: Owner, n: nat, rest: seq<Frame>, p: Poller): (hooked: Sys)
    requires Consistent(c) && Ready(c.heap, o) && n < |c.KeysOf(o)|
    decreases n
  {
    FirstHookIs(c, o, rest, p);
    if n == 0 then FirstHook(c, o, rest, p)
    else
      TurnConsistent(c, o);
      HookAfter(Turn(c, o), o, n - 1, rest, p)
  }

  ghost predicate ClosesFrom(h: Sys, x: ObjId, u: Sys) {
    h.core.Live(x) && h.core.table.Aligned() && UserMay(h, CallClose(x)) && Leads(CloseSocket(h, x), u)
  }

  lemma FirstHookMay(c: State, o: Owner, rest: seq<Frame>, p: Poller, x: ObjId) returns (u: State)
    requires Consistent(c) && Ready(c.heap, o) && c.KeysOf(o) != {} && x in Members(c.heap, o) && !Busy(rest, x)
    requires c.heap[x].key != Least(c.KeysOf(o))
    ensures c.OpenAt(First(c, o)) && c.table.Aligned()
    ensures ClosesFrom(FirstHook(c, o, rest, p), x, Sys(u, rest, p)) && u.KeysOf(o) == {}
    ensures u.log == c.log + Farewells(c.owned, o, CloseOrder(c.KeysOf(o), 0, c.heap[x].key))
  {
    FirstIsReady(c, o);
    AlignedAfter(c);
    u := FirstHookCloses(c, o, rest, p, x);
    MayCloseOther(FirstHook(c, o, rest, p), First(c, o), |c.heap[First(c, o)].On(CLOSED)|, o, rest, x);
  }

  /** One turn of the loop, and then the rest. */
  lemma TurnThen(c: State, o: Owner, n: nat, x: ObjId, t: State, u: State)
    requires Consistent(c) && Ready(c.heap, o) && c.KeysOf(o) != {} && x in Members(c.heap, o) && t == Turn(c, o)
    requires n > 0 && Later(c.KeysOf(o), n, c.heap[x].key) && t.KeysOf(o) == c.KeysOf(o) - {Least(c.KeysOf(o))}
    requires x in t.heap && t.heap[x].key == c.heap[x].key
    requires u.log == t.log + Farewells(t.owned, o, CloseOrder(t.KeysOf(o), n - 1, t.heap[x].key))
    ensures u.log == c.log + Farewells(c.owned, o, CloseOrder(c.KeysOf(o), n, c.heap[x].key))
  {
    var first, keys := First(c, o), CloseOrder(t.KeysOf(o), n - 1, c.heap[x].key);
    TurnCloses(c, o);
    FirstIsReady(c, o);
    AllAnnounce(c, first);
    CloseIsFarewell(c.heap[first], first);
    Order.ObjectKnown(c, first);
    OrderKeys(t.KeysOf(o), n - 1, c.heap[x].key);
    forall k | k in keys
      ensures Key(o, k) in t.owned && Key(o, k) in c.owned && t.owned[Key(o, k)] == c.owned[Key(o, k)]
    {
      assert k in t.KeysOf(o);
    }
    FarewellsSame(t.owned, c.owned, o, keys);
    Order.FarewellsStep(c.owned, o, c.heap[first].key, keys);
    Appended(c.log, [SysClose(first, c.heap[first].fd), Farewell(o, first)], Farewells(c.owned, o, keys));
  }

  lemma OthersStay(c: State, o: Owner, x: ObjId)
    requires Consistent(c) && Ready(c.heap, o) && c.KeysOf(o) != {} && x in Members(c.heap, o)
    requires c.heap[x].key != Least(c.KeysOf(o))
    ensures x in Members(Turn(c, o).heap, o) && Turn(c, o).heap[x] == c.heap[x]
    ensures Turn(c, o).KeysOf(o) == c.KeysOf(o) - {Least(c.KeysOf(o))}
  {
    TurnCloses(c, o);
    FirstIsReady(c, o);
    StillThere(c, o, First(c, o), Turn(c, o), x);
  }

  lemma StillThere(c: State, o: Owner, first: ObjId, u: State, x: ObjId)
    requires c.Live(first) && ClosedOne(c, first, u) && x in Members(c.heap, o) && c.heap[x].key != c.heap[first].key
    ensures x in Members(u.heap, o) && u.heap[x] == c.heap[x]
  {
  }

  lemma {:induction false} HookCloses(c: State, o: Owner, n: nat, rest: seq<Frame>, p: Poller, x: ObjId)
    returns (u: State)
    requires Consistent(c) && Ready(c.heap, o) && n < |c.KeysOf(o)| && x in Members(c.heap, o) && !Busy(rest, x)
    requires Later(c.KeysOf(o), n, c.heap[x].key)
    ensures Leads(Drainer(c, o, rest, p), HookAfter(c, o, n, rest, p))
    ensures ClosesFrom(HookAfter(c, o, n, rest, p), x, Sys(u, rest, p)) && u.KeysOf(o) == {}
    ensures u.log == c.log + Farewells(c.owned, o, CloseOrder(c.KeysOf(o), n, c.heap[x].key))
    decreases n
  {
    FirstHookIs(c, o, rest, p);
    if n == 0 {
      u := FirstHookMay(c, o, rest, p, x);
    } else {
      TurnConsistent(c, o);
      OthersStay(c, o, x);
      DrainTurn(c, o, rest, p);
      u := HookCloses(Turn(c, o), o, n - 1, rest, p, x);
      Chain(Drainer(c, o, rest, p), Drainer(Turn(c, o), o, rest, p), HookAfter(Turn(c, o), o, n - 1, rest, p));
      TurnThen(c, o, n, x, Turn(c, o), u);
    }
  }

  /** The loop of `socket_container::close` is in the callback of any of its sockets, which closes a later one, `x`.
      It may, and all sockets are closed: in ascending order exactly if `x` is the next one. */
  lemma HookKeepsOrderIff(c: State, o: Owner, n: nat, rest: seq<Frame>, p: Poller, x: ObjId) returns (u: State)
    requires Consistent(c) && Ready(c.heap, o) && n < |Ascending(c.KeysOf(o))| && x in Members(c.heap, o)
    requires c.heap[x].key > Ascending(c.KeysOf(o))[n] && !Busy(rest, x)
    ensures n + 1 < |Ascending(c.KeysOf(o))| && |Ascending(c.KeysOf(o))| == |c.KeysOf(o)|
    ensures Leads(Drainer(c, o, rest, p), HookAfter(c, o, n, rest, p))
    ensures UserMay(HookAfter(c, o, n, rest, p), CallClose(x))
    ensures var called := UserStep(HookAfter(c, o, n, rest, p), CallClose(x));
            called.Stepped? && Leads(called.sys, Sys(u, rest, p))
    ensures u.KeysOf(o) == {}
    ensures Order.ClosedInOrder(c, o, u) <==> c.heap[x].key == Ascending(c.KeysOf(o))[n + 1]
  {
    var keys := c.KeysOf(o);
    AscendingLength(keys);
    Order.ObjectKnown(c, x);
    assert c.heap[x].key in keys;
    LaterThan(keys, n, c.heap[x].key);
    u := HookCloses(c, o, n, rest, p, x);
    Steps.ClosesAre(HookAfter(c, o, n, rest, p), CallClose(x));
    OrderKeys(keys, n, c.heap[x].key);
    OrderIff(keys, n, c.heap[x].key);
    InOrderIff(c, o, u, CloseOrder(keys, n, c.heap[x].key));
  }

  lemma {:induction false} AscendingLength(keys: set<int>)
    ensures |Ascending(keys)| == |keys|
    decreases |keys|
  {
    if keys == {} {
    } else {
      AscendingLength(keys - {Least(keys)});
    }
  }
}
