/** The machine under passive user code: its steps add up to the closed forms of module Closing. */
module Quiet {
  import opened PollHandler
  import opened Core
  import opened Machine
  import opened Closing
  import opened Reentry
  import Actions
  import EngineFacts
  import Safety

  /** User code returns at once; everything else goes on. */
  function Lazy(s: Sys): Choice {
    if s.stack != [] && s.stack[0].Hook? then Return else Go(0)
  }

  function LazyStep(out: Outcome): Outcome {
    match out
    case Stepped(s) => Step(s, Lazy(s))
    case _ => out
  }

  /** The machine after `n` steps. */
  function Lazily(s: Sys, n: nat): Outcome {
    Iterate(LazyStep, Stepped(s), n)
  }

  lemma {:induction false} IterateSum<S>(step: S -> S, s: S, a: nat, b: nat)
    ensures Iterate(step, s, a + b) == Iterate(step, Iterate(step, s, a), b)
    decreases a
  {
    if a == 0 {
    } else {
      IterateSum(step, step(s), a - 1, b);
    }
  }

  lemma Further(s: Sys, a: nat, u: Sys, b: nat)
    requires Lazily(s, a) == Stepped(u)
    ensures Lazily(s, a + b) == Lazily(u, b)
  {
    IterateSum(LazyStep, Stepped(s), a, b);
  }

  lemma FirstSteps(s: Sys)
    ensures Lazily(s, 1) == Step(s, Lazy(s))
    ensures Step(s, Lazy(s)).Stepped? ==> Lazily(s, 2) == Step(Step(s, Lazy(s)).sys, Lazy(Step(s, Lazy(s)).sys))
  {
    IterateSum(LazyStep, Stepped(s), 1, 1);
  }

  // ------------------------------------------------------------------------------------------
  // A CLOSED list
  // ------------------------------------------------------------------------------------------

  /** The callbacks from `i` on, run with passive user code. */
  function RanFrom(c: State, id: ObjId, i: nat): State
    requires c.Live(id) && i <= |c.heap[id].On(CLOSED)|
  {
    var ran := Actions.Executed(c.heap[id].On(CLOSED)[i..]);
    var c1 := c.(log := c.log + Raised(ran, id));
    if EraseOf(c.heap[id]) in ran then Erased(c1, c.heap[id].owner, c.heap[id].key) else c1
  }

  /** The machine about to look at callback `i` of the CLOSED list of `id`. */
  function At(c: State, id: ObjId, i: nat, rest: seq<Frame>, p: Poller): Sys
    requires c.Live(id)
  {
    Sys(c, [Exec(id, CLOSED, i, |c.heap[id].On(CLOSED)|)] + rest, p)
  }

  /** The callbacks of a CLOSED list are the library's own or user code, and the erase action is that of the socket. */
  predicate ClosingList(sock: Sock) {
    forall cb :: cb in sock.On(CLOSED) ==>
      cb == EraseCallback(sock.owner, sock.key) || cb.exec in {User, RaiseClosed, RaiseDisconnect}
  }

  lemma IsClosingList(sock: Sock)
    requires EraseIsLast(sock) && Safety.RoleOk(sock)
    ensures ClosingList(sock)
  {
    forall cb | cb in sock.On(CLOSED)
      ensures cb == EraseCallback(sock.owner, sock.key) || cb.exec in {User, RaiseClosed, RaiseDisconnect}
    {
      var i :| 0 <= i < |sock.On(CLOSED)| && sock.On(CLOSED)[i] == cb;
      EngineFacts.ClosedCallback(sock, i);
    }
  }

  /** The steps of one callback: to the next one, or out of the list. */
  lemma OneCallback(c: State, id: ObjId, i: nat, rest: seq<Frame>, p: Poller) returns (k: nat)
    requires c.Live(id) && c.table.Aligned() && ClosingList(c.heap[id]) && i < |c.heap[id].On(CLOSED)|
    ensures var cb := c.heap[id].On(CLOSED)[i];
            var c1 := EngineFacts.Told(c, EngineFacts.RaisedBy(cb.exec, id));
            && k > 0
            && Lazily(At(c, id, i, rest, p), k) ==
               if cb.Skipped() then Stepped(At(c, id, i + 1, rest, p))
               else if cb.exec.Erase? then Stepped(Sys(Erased(c, c.heap[id].owner, c.heap[id].key), rest, p))
               else if cb.Stops() then Stepped(Sys(c1, rest, p))
               else Stepped(At(c1, id, i + 1, rest, p))
  {
    var s, cb := At(c, id, i, rest, p), c.heap[id].On(CLOSED)[i];
    assert cb in c.heap[id].On(CLOSED);
    assert s.stack[1..] == rest;
    EngineFacts.ToldOnce(c, cb.exec, id);
    FirstSteps(s);
    k := if cb.Skipped() || cb.exec.Erase? then 1 else 2;
    if k == 2 {
      var u := Step(s, Go(0)).sys;
      assert u.stack[0] == Hook;
      assert u.stack[1..] == if cb.Stops() then rest else [Exec(id, CLOSED, i + 1, |c.heap[id].On(CLOSED)|)] + rest;
    }
  }

  /** What running from `i` on comes to, by the callback at `i`. */
  lemma RanFromIs(c: State, id: ObjId, i: nat)
    requires c.Live(id) && ClosingList(c.heap[id]) && i <= |c.heap[id].On(CLOSED)|
    ensures i == |c.heap[id].On(CLOSED)| ==> RanFrom(c, id, i) == c
    ensures i < |c.heap[id].On(CLOSED)| ==>
              var cb := c.heap[id].On(CLOSED)[i];
              var c1 := EngineFacts.Told(c, EngineFacts.RaisedBy(cb.exec, id));
              RanFrom(c, id, i) ==
              if cb.Skipped() then RanFrom(c, id, i + 1)
              else if cb.exec.Erase? then Erased(c, c.heap[id].owner, c.heap[id].key)
              else if cb.Stops() then c1
              else RanFrom(c1, id, i + 1)
  {
    var list := c.heap[id].On(CLOSED);
    assert c.log + [] == c.log;
    if i < |list| {
      var cb, rest := list[i], Actions.Executed(list[i + 1..]);
      assert cb in list && list[i..][1..] == list[i + 1..];
      assert ([cb.exec] + rest)[1..] == rest && [cb.exec][1..] == [];
      assert Raised([cb.exec], id) == EngineFacts.RaisedBy(cb.exec, id);
      Appended(c.log, EngineFacts.RaisedBy(cb.exec, id), Raised(rest, id));
    }
  }

  /** Executing the rest of the list. */
  lemma {:induction false} ListRuns(c: State, id: ObjId, i: nat, rest: seq<Frame>, p: Poller) returns (k: nat)
    requires c.Live(id) && c.table.Aligned() && ClosingList(c.heap[id]) && i <= |c.heap[id].On(CLOSED)|
    ensures Lazily(At(c, id, i, rest, p), k) == Stepped(Sys(RanFrom(c, id, i), rest, p))
    decreases |c.heap[id].On(CLOSED)| - i
  {
    RanFromIs(c, id, i);
    if i == |c.heap[id].On(CLOSED)| {
      ListOver(c, id, rest, p);
      return 1;
    }
    var cb := c.heap[id].On(CLOSED)[i];
    k := OneCallback(c, id, i, rest, p);
    if cb.Skipped() {
      var more := ListRuns(c, id, i + 1, rest, p);
      Further(At(c, id, i, rest, p), k, At(c, id, i + 1, rest, p), more);
      k := k + more;
    } else if !cb.exec.Erase? && !cb.Stops() {
      var c1 := EngineFacts.Told(c, EngineFacts.RaisedBy(cb.exec, id));
      var more := ListRuns(c1, id, i + 1, rest, p);
      Further(At(c, id, i, rest, p), k, At(c1, id, i + 1, rest, p), more);
      k := k + more;
    }
  }

  lemma ListOver(c: State, id: ObjId, rest: seq<Frame>, p: Poller)
    requires c.Live(id)
    ensures Lazily(At(c, id, |c.heap[id].On(CLOSED)|, rest, p), 1) == Stepped(Sys(c, rest, p))
  {
    FirstSteps(At(c, id, |c.heap[id].On(CLOSED)|, rest, p));
    assert At(c, id, |c.heap[id].On(CLOSED)|, rest, p).stack[1..] == rest;
  }

  // ------------------------------------------------------------------------------------------
  // Closing
  // ------------------------------------------------------------------------------------------

  /** `socket::close` of the machine, run to its end, is the closed form, whatever other lists the socket has. */
  lemma CloseRuns(s: Sys, id: ObjId) returns (k: nat)
    requires Valid(s.core) && s.core.Live(id) && ClosingList(s.core.heap[id])
    ensures s.core.table.Aligned()
    ensures Lazily(CloseSocket(s, id), k) == Stepped(s.On(ClosedQuietly(s.core, id)))
  {
    AlignedValid(s.core);
    if s.core.heap[id].Open() {
      var c := Shut(s.core, id);
      ShutKeeps(s.core, id);
      AlignedValid(c);
      SameClosingList(s.core, id);
      k := ListRuns(c, id, 0, s.stack, s.poller);
      FromTheStart(c, id);
    } else {
      k := 0;
    }
  }

  lemma AlignedValid(c: State)
    requires Valid(c)
    ensures c.table.Aligned()
  {
  }

  lemma SameClosingList(c: State, id: ObjId)
    requires c.Live(id) && c.table.Aligned() && ClosingList(c.heap[id])
    ensures ClosingList(Shut(c, id).heap[id])
  {
    assert Shut(c, id).heap[id].On(CLOSED) == c.heap[id].On(CLOSED);
  }

  lemma ConsistentCloses(c: State, id: ObjId)
    requires Consistent(c) && c.Live(id)
    ensures Valid(c) && ClosingList(c.heap[id])
  {
    EngineFacts.ListsKnown(c, id);
    IsClosingList(c.heap[id]);
  }

  lemma AlignedAfter(c: State)
    requires Consistent(c)
    ensures c.table.Aligned()
  {
  }

  lemma FromTheStart(c: State, id: ObjId)
    requires c.Live(id)
    ensures RanFrom(c, id, 0) == RanQuietly(c, id)
  {
    assert c.heap[id].On(CLOSED)[0..] == c.heap[id].On(CLOSED);
  }

  lemma {:induction false} RaisedCloseNothing(log: seq<Event>, ran: seq<Core.Exec>, id: ObjId, k: ObjId)
    ensures Closings(log + Raised(ran, id), k) == Closings(log, k)
    decreases ran
  {
    if ran == [] {
      assert log + [] == log;
    } else {
      var e := EngineFacts.RaisedBy(ran[0], id);
      assert Raised(ran, id) == e + Raised(ran[1..], id);
      Appended(log, e, Raised(ran[1..], id));
      RaisedCloseNothing(log + e, ran[1..], id, k);
      if e != [] { ClosingsAfter(log, e[0], k); } else { assert log + e == log; }
    }
  }

  lemma ToldConsistent(s: State, ran: seq<Core.Exec>, id: ObjId)
    requires Consistent(s)
    ensures Consistent(s.(log := s.log + Raised(ran, id)))
  {
    LogOnly(s, s.log + Raised(ran, id));
    OnceTold(s.log, s.heap, s.nextId, ran, id);
  }

  lemma OnceTold(log: seq<Event>, heap: Heap, nextId: ObjId, ran: seq<Core.Exec>, id: ObjId)
    requires ClosedOnce(log, heap, nextId)
    ensures ClosedOnce(log + Raised(ran, id), heap, nextId)
  {
    forall k: ObjId ensures Closings(log + Raised(ran, id), k) == Closings(log, k) {
      RaisedCloseNothing(log, ran, id, k);
    }
  }

  lemma RanConsistent(c: State, id: ObjId)
    requires Consistent(c) && c.Live(id) && !c.heap[id].Open()
    ensures Consistent(RanQuietly(c, id))
  {
    var ran := Actions.Executed(c.heap[id].On(CLOSED));
    ToldConsistent(c, ran, id);
    ErasedConsistent(c.(log := c.log + Raised(ran, id)), id);
  }

  lemma ClosedConsistent(s: State, id: ObjId)
    requires Consistent(s) && s.OpenAt(id) && s.table.Aligned()
    ensures Consistent(ClosedQuietly(s, id))
  {
    ShutConsistent(s, id);
    RanConsistent(Shut(s, id), id);
  }

  /** From `s` to `u` in some number of steps. */
  ghost predicate Leads(s: Sys, u: Sys) {
    var leads := exists k: nat :: Lazily(s, k) == Stepped(u);
    leads
  }

  lemma Leading(s: Sys, k: nat, u: Sys)
    requires Lazily(s, k) == Stepped(u)
    ensures Leads(s, u)
  {
  }

  lemma Chain(s: Sys, m: Sys, u: Sys)
    requires Leads(s, m) && Leads(m, u)
    ensures Leads(s, u)
  {
    var a: nat :| Lazily(s, a) == Stepped(m);
    var b: nat :| Lazily(m, b) == Stepped(u);
    Further(s, a, m, b);
    Leading(s, a + b, u);
  }

  function Drainer(c: State, o: Owner, rest: seq<Frame>, p: Poller): Sys {
    Sys(c, [Draining(o)] + rest, p)
  }

  lemma DrainStarts(c: State, o: Owner, rest: seq<Frame>, p: Poller)
    requires c.KeysOf(o) != {} ==> c.Live(First(c, o)) && c.table.Aligned()
    ensures c.KeysOf(o) == {} ==> Leads(Drainer(c, o, rest, p), Sys(c, rest, p))
    ensures c.KeysOf(o) != {} ==> Leads(Drainer(c, o, rest, p), CloseSocket(Drainer(c, o, rest, p), First(c, o)))
  {
    var s := Drainer(c, o, rest, p);
    FirstSteps(s);
    assert s.stack[1..] == rest;
    Leading(s, 1, if c.KeysOf(o) == {} then Sys(c, rest, p) else CloseSocket(s, First(c, o)));
  }

  /** One turn of the loop of `socket_container::close` in the machine. */
  lemma DrainTurn(c: State, o: Owner, rest: seq<Frame>, p: Poller)
    requires Consistent(c) && Ready(c.heap, o) && c.KeysOf(o) != {}
    ensures Leads(Drainer(c, o, rest, p), Drainer(Turn(c, o), o, rest, p))
  {
    var s := Drainer(c, o, rest, p);
    FirstIsReady(c, o);
    AlignedAfter(c);
    DrainStarts(c, o, rest, p);
    ConsistentCloses(c, First(c, o));
    var k := CloseRuns(s, First(c, o));
    Leading(CloseSocket(s, First(c, o)), k, s.On(Turn(c, o)));
    Chain(s, CloseSocket(s, First(c, o)), s.On(Turn(c, o)));
  }

  lemma TurnConsistent(c: State, o: Owner)
    requires Consistent(c) && Ready(c.heap, o) && c.KeysOf(o) != {}
    ensures Consistent(Turn(c, o)) && Ready(Turn(c, o).heap, o) && |Turn(c, o).KeysOf(o)| == |c.KeysOf(o)| - 1
  {
    TurnCloses(c, o);
    FirstIsReady(c, o);
    AlignedAfter(c);
    ClosedConsistent(c, First(c, o));
  }

  /** The loop of `socket_container::close` in the machine ends and leaves the container drained. */
  lemma {:induction false} DrainsFully(c: State, o: Owner, rest: seq<Frame>, p: Poller, n: nat) returns (u: State)
    requires Consistent(c) && Ready(c.heap, o) && n == |c.KeysOf(o)|
    ensures Consistent(u) && Drained(c, o, u)
    ensures Leads(Drainer(c, o, rest, p), Sys(u, rest, p))
    decreases n
  {
    if n == 0 {
      u := c;
      DrainStarts(c, o, rest, p);
      NothingLeft(c, o);
    } else {
      DrainTurn(c, o, rest, p);
      TurnConsistent(c, o);
      u := DrainsFully(Turn(c, o), o, rest, p, n - 1);
      Chain(Drainer(c, o, rest, p), Drainer(Turn(c, o), o, rest, p), Sys(u, rest, p));
      DrainedAfterTurn(c, o, u);
    }
  }

  lemma NothingLeft(c: State, o: Owner)
    requires Consistent(c) && c.KeysOf(o) == {}
    ensures Drained(c, o, c)
  {
    NothingToDrain(c, o);
  }

  lemma CloseServerStarts(s: Sys, server: nat)
    ensures UserStep(s, CallCloseServer(server)) ==
            Stepped(Drainer(s.core, Clients(server), [Draining(Listeners(server))] + s.stack, s.poller))
  {
  }

  /** `tcp::server::close` in the machine, with passive user code and every socket of the server open and clean: it
      runs to its end, raises every DISCONNECT in ascending descriptor order, then every listener's CLOSED in
      ascending order, and leaves the handler empty exactly when no other entity has an open socket. */
  lemma ServerCloseRuns(s: Sys, server: nat) returns (u: State)
    requires Consistent(s.core) && Ready(s.core.heap, Clients(server)) && Ready(s.core.heap, Listeners(server))
    ensures var called := UserStep(s, CallCloseServer(server)); called.Stepped? && Leads(called.sys, s.On(u))
    ensures Consistent(u) && ServerGone(s.core, server, u)
    ensures u.table.sockets == [] <==>
            forall id: ObjId :: s.core.OpenAt(id) ==> s.core.heap[id].owner in {Clients(server), Listeners(server)}
  {
    var o, l := Clients(server), Listeners(server);
    var under := [Draining(l)] + s.stack;
    CloseServerStarts(s, server);
    var m := DrainsFully(s.core, o, under, s.poller, |s.core.KeysOf(o)|);
    ReadyStill(s.core, o, m, l);
    u := DrainsFully(m, l, s.stack, s.poller, |m.KeysOf(l)|);
    Chain(Drainer(s.core, o, under, s.poller), Drainer(m, l, s.stack, s.poller), s.On(u));
    EngineFacts.ServerClosed(s.core, server, m, u);
  }

  lemma ReadyStill(s: State, o: Owner, m: State, other: Owner)
    requires Consistent(s) && Drained(s, o, m) && other != o && Ready(s.heap, other)
    ensures Ready(m.heap, other)
  {
    Untouched(s, o, m, other);
  }

  lemma HookReturns(c: State, rest: seq<Frame>, p: Poller)
    ensures Leads(Sys(c, [Hook] + rest, p), Sys(c, rest, p))
  {
    FirstSteps(Sys(c, [Hook] + rest, p));
    assert ([Hook] + rest)[1..] == rest;
    Leading(Sys(c, [Hook] + rest, p), 1, Sys(c, rest, p));
  }

  lemma OneStep(s: Sys)
    requires Step(s, Lazy(s)).Stepped?
    ensures Leads(s, Step(s, Lazy(s)).sys)
  {
    FirstSteps(s);
    Leading(s, 1, Step(s, Lazy(s)).sys);
  }

  // ------------------------------------------------------------------------------------------
  // One socket
  // ------------------------------------------------------------------------------------------

  /** A state in which closing the open socket `id` destroys it. */
  ghost predicate Closable(c: State, id: ObjId) {
    var closable := Valid(c) && c.OpenAt(id) && Clean(c.heap[id]) && ClosingList(c.heap[id]);
    closable
  }

  /** Closing such a socket runs to its end and destroys the object. */
  lemma CloseLeads(s: Sys, id: ObjId) returns (u: State)
    requires Closable(s.core, id)
    ensures s.core.OpenAt(id) && s.core.table.Aligned() && Leads(CloseSocket(s, id), s.On(u)) && !u.Live(id)
    ensures u == ClosedQuietly(s.core, id)
  {
    var k := CloseRuns(s, id);
    u := ClosedQuietly(s.core, id);
    Leading(CloseSocket(s, id), k, s.On(u));
    GoneWhenClosed(s.core, id);
  }

  lemma GoneWhenClosed(c: State, id: ObjId)
    requires Valid(c) && c.OpenAt(id) && Clean(c.heap[id]) && c.table.Aligned()
    ensures !ClosedQuietly(c, id).Live(id)
  {
    ClosedCleanly(c, id);
  }

  lemma SameClosedList(a: Sock, b: Sock)
    requires b.On(CLOSED) == a.On(CLOSED) && b.owner == a.owner && b.key == a.key
    ensures Clean(a) ==> Clean(b)
    ensures ClosingList(a) ==> ClosingList(b)
  {
  }

  lemma ClosableIs(c: State, id: ObjId)
    requires Valid(c) && c.OpenAt(id) && Clean(c.heap[id]) && ClosingList(c.heap[id])
    ensures Closable(c, id)
  {
  }

  lemma ConsistentClosable(c: State, id: ObjId)
    requires Consistent(c) && c.OpenAt(id) && Clean(c.heap[id])
    ensures Closable(c, id)
  {
    ConsistentCloses(c, id);
  }

  /** The first callback on CLOSED raises the farewell. */
  predicate Announces(sock: Sock) {
    sock.On(CLOSED) != [] && sock.On(CLOSED)[0] == Plain(if sock.owner.Clients? then RaiseDisconnect else RaiseClosed)
  }

  lemma AllAnnounce(c: State, id: ObjId)
    requires Consistent(c) && c.Live(id)
    ensures Announces(c.heap[id]) && EraseIsLast(c.heap[id]) && Safety.RoleOk(c.heap[id])
  {
    EngineFacts.ListsKnown(c, id);
  }

  lemma RestIsErase(c: State, id: ObjId)
    requires c.Live(id) && EraseIsLast(c.heap[id]) && Clean(c.heap[id]) && Safety.RoleOk(c.heap[id])
    requires Announces(c.heap[id])
    ensures RanFrom(c, id, 1) == Erased(c, c.heap[id].owner, c.heap[id].key)
  {
    var list := c.heap[id].On(CLOSED);
    ErasesIffClean(c.heap[id]);
    OthersRaiseNothing(list[1..], id);
    assert c.log + [] == c.log;
    assert Actions.Executed(list) == [list[0].exec] + Actions.Executed(list[1..]);
  }

  /** What is left when the rest of a clean list ran. */
  lemma RestGone(c: State, id: ObjId) returns (u: State)
    requires Consistent(c) && c.Live(id) && !c.heap[id].Open() && Clean(c.heap[id])
    ensures ClosingList(c.heap[id]) && c.table.Aligned() && |c.heap[id].On(CLOSED)| >= 1 && u == RanFrom(c, id, 1)
    ensures Consistent(u) && u.heap == c.heap - {id} && u.log == c.log && u.table == c.table
    ensures u.owned == c.owned - {Key(c.heap[id].owner, c.heap[id].key)}
  {
    ConsistentCloses(c, id);
    AllAnnounce(c, id);
    AlignedAfter(c);
    u := RanFrom(c, id, 1);
    RestIsErase(c, id);
    ErasedConsistent(c, id);
    KeyOf(c, id);
  }

  lemma KeyOf(c: State, id: ObjId)
    requires Consistent(c) && c.Live(id)
    ensures Key(c.heap[id].owner, c.heap[id].key) in c.owned && c.owned[Key(c.heap[id].owner, c.heap[id].key)] == id
  {
  }
}
