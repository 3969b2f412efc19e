/** A callback registered on READABLE after `recv`, which closes the socket at the end of the stream. */
module EndOfStream {
  import opened PollHandler
  import opened Core
  import opened Machine
  import opened Closing
  import opened Quiet
  import opened Reentry
  import opened Reaching
  import Actions
  import Dispatch
  import EngineFacts
  import Histories
  import Runs
  import Safety
  import Steps

  /** The end of the stream in a `recv` that is not the last callback on READABLE: `recv` closes the socket, the
      container erases it, and `execute` goes on to read the list of the erased object. With nothing after it, all is
      well. */
  lemma RecvMustBeLast(s: Sys, id: ObjId, i: nat, end: nat)
    requires Closable(s.core, id) && s.core.OpenAt(id) && Room(s.core, s.poller, 1)
    requires s.stack != [] && s.stack[0] == Exec(id, READABLE, i, end)
    requires end == |s.core.heap[id].On(READABLE)| && i < end && s.core.heap[id].On(READABLE)[i] == Plain(Recv)
    ensures Step(s, Go(0)).Stepped?
    ensures i + 1 < end ==> MayGoWrong(Step(s, Go(0)).sys)
    ensures i + 1 == end ==>
              exists u: State :: Reaches(Step(s, Go(0)).sys, Sys(u, s.stack[1..], s.poller)) && !u.Live(id)
  {
    var rest := s.stack[1..];
    var under := Reading(s.core, id, i + 1, end, rest, s.poller);
    var u := CloseReaches(under, id);
    RecvStep(s, id, i, end, under);
    ReadsErased(u, id, i + 1, end, rest, s.poller);
    if i + 1 < end {
      WrongLater(CloseSocket(under, id), under.On(u));
    } else {
      ReachesOn(CloseSocket(under, id), under.On(u), Sys(u, rest, s.poller));
    }
  }

  function Reading(c: State, id: ObjId, i: nat, end: nat, rest: seq<Frame>, p: Poller): Sys {
    Sys(c, [Exec(id, READABLE, i, end)] + rest, p)
  }

  lemma RecvStep(s: Sys, id: ObjId, i: nat, end: nat, under: Sys)
    requires s.core.OpenAt(id) && s.core.table.Aligned() && s.stack != [] && s.stack[0] == Exec(id, READABLE, i, end)
    requires end == |s.core.heap[id].On(READABLE)| && i < end && s.core.heap[id].On(READABLE)[i] == Plain(Recv)
    requires under == Reading(s.core, id, i + 1, end, s.stack[1..], s.poller)
    ensures Step(s, Go(0)) == Stepped(CloseSocket(under, id))
  {
  }

  /** `execute` after its socket was erased: fine at the end of the list, undefined before it. */
  lemma ReadsErased(u: State, id: ObjId, i: nat, end: nat, rest: seq<Frame>, p: Poller)
    requires !u.Live(id) && Room(u, p, 0)
    ensures i < end ==> MayGoWrong(Reading(u, id, i, end, rest, p))
    ensures i >= end ==> Reaches(Reading(u, id, i, end, rest, p), Sys(u, rest, p))
  {
    var s := Reading(u, id, i, end, rest, p);
    assert s.stack[1..] == rest;
    if i < end { WrongNow(s, Go(-1)); } else { OneReach(s, Go(-1), Sys(u, rest, p)); }
  }

  lemma ExtraList(sock: Sock, flags: Actions.Flags)
    requires sock.On(READABLE) == [Plain(Recv)]
    ensures var cb := Actions.Callback(User, flags);
            && sock.With(READABLE, cb).On(READABLE) == [Plain(Recv), cb]
            && sock.With(READABLE, cb).On(CLOSED) == sock.On(CLOSED)
  {
    assert Actions.InsertPosition([Plain(Recv)]) == 1;
  }

  /** The pass reported nothing but READABLE of entry `at`. */
  function OnlyReadable(n: nat, at: nat): (reported: seq<Mask>)
    ensures |reported| == n && forall j :: 0 <= j < n ==> reported[j] == if j == at then {POLLIN} else {}
  {
    seq(n, j => if j == at then {POLLIN} else {})
  }

  function PassAt(c: State, t: Table, i: nat): Sys {
    Sys(c, [], Polling(i, Dispatch.ReadyCount(t, 0), t.invalid, t.changes, Head, t))
  }

  lemma {:induction false} PassSkips(c: State, i: nat)
    requires i <= |c.table.sockets| && forall j :: 0 <= j < i ==> c.table.sockets[j].revents == {}
    ensures Reaches(PassAt(c, c.table, 0), PassAt(c, c.table, i))
  {
    if i == 0 {
      AlreadyThere(PassAt(c, c.table, 0));
    } else {
      var before := PassAt(c, c.table, i - 1);
      PassSkips(c, i - 1);
      Steps.HeadIs(before);
      OneReach(before, Go(0), PassAt(c, c.table, i));
      ReachesOn(PassAt(c, c.table, 0), before, PassAt(c, c.table, i));
    }
  }

  /** The pass comes to entry `i` and calls its object. */
  lemma PassCalls(c: State, i: nat, id: ObjId) returns (s: Sys)
    requires i < |c.table.sockets| == |c.table.ptrs| && c.table.ptrs[i] == id && c.Live(id)
    requires forall j :: 0 <= j < |c.table.sockets| ==> c.table.sockets[j].revents == if j == i then {POLLIN} else {}
    ensures Reaches(PassAt(c, c.table, 0), s) && Room(s.core, s.poller, 1)
    ensures s.core == c && s.stack == [Exec(id, READABLE, 0, |c.heap[id].On(READABLE)|)]
  {
    var at := PassAt(c, c.table, i);
    PassSkips(c, i);
    Steps.HeadIs(at);
    Steps.ServeIs(Steps.TakeRef(at), POLLIN, READABLE, id);
    s := PushExec(Steps.TakeRef(at), id, READABLE);
    OneReach(at, Go(0), s);
    ReachesOn(PassAt(c, c.table, 0), at, s);
  }

  /** `recv` with a callback after it, called by the dispatch loop. */
  lemma CalledRecvGoesWrong(s: Sys, id: ObjId)
    requires Closable(s.core, id) && s.core.OpenAt(id) && s.core.heap[id].On(READABLE) != []
    requires s.core.heap[id].On(READABLE)[0] == Plain(Recv) && |s.core.heap[id].On(READABLE)| > 1
    requires s.stack == [Exec(id, READABLE, 0, |s.core.heap[id].On(READABLE)|)] && Room(s.core, s.poller, 1)
    ensures MayGoWrong(s)
  {
    var end := |s.core.heap[id].On(READABLE)|;
    RecvMustBeLast(s, id, 0, end);
    AlignedValid(s.core);
    RecvReached(s, id, end, Reading(s.core, id, 1, end, [], s.poller));
    WrongLater(s, Step(s, Go(0)).sys);
  }

  lemma RecvReached(s: Sys, id: ObjId, end: nat, under: Sys)
    requires s.core.OpenAt(id) && s.core.table.Aligned() && s.stack == [Exec(id, READABLE, 0, end)]
    requires end == |s.core.heap[id].On(READABLE)| && 0 < end && s.core.heap[id].On(READABLE)[0] == Plain(Recv)
    requires under == Reading(s.core, id, 1, end, [], s.poller) && Room(s.core, s.poller, 1)
    ensures Step(s, Go(0)).Stepped? && Reaches(s, Step(s, Go(0)).sys)
  {
    RecvStep(s, id, 0, end, under);
    RecvCounts(s, id, under);
    OneReach(s, Go(0), CloseSocket(under, id));
  }

  lemma RecvCounts(s: Sys, id: ObjId, under: Sys)
    requires s.core.OpenAt(id) && s.core.table.Aligned() && under.core == s.core && under.poller == s.poller
    requires Room(s.core, s.poller, 1)
    ensures WithinCounter(CloseSocket(under, id))
  {
    ShutCounts(s.core, id);
  }

  /** Where the handler has a socket. */
  lemma EntryOf(c: State, id: ObjId) returns (i: nat)
    requires Valid(c) && c.OpenAt(id)
    ensures i < |c.table.ptrs| == |c.table.sockets| && c.table.ptrs[i] == id
  {
    i :| i < |c.table.ptrs| && c.table.ptrs[i] == id;
  }

  lemma ReportedClosable(c: State, id: ObjId, reported: seq<Mask>)
    requires Closable(c, id) && |reported| == |c.table.sockets|
    ensures Closable(c.(table := Dispatch.Report(c.table, reported)), id)
  {
    Steps.ReportedValid(c, reported);
  }

  lemma RegisteredClosable(c: State, id: ObjId, flags: Actions.Flags)
    requires Closable(c, id) && c.OpenAt(id) && c.heap[id].On(READABLE) == [Plain(Recv)]
    ensures Closable(RegisteredOn(c, id, READABLE, Actions.Callback(User, flags)), id)
  {
    RegisteredKeeps(c, id, READABLE, Actions.Callback(User, flags));
    ExtraList(c.heap[id], flags);
    SameClosedList(c.heap[id], c.heap[id].With(READABLE, Actions.Callback(User, flags)));
    ClosableIs(RegisteredOn(c, id, READABLE, Actions.Callback(User, flags)), id);
  }

  /** One more READABLE callback on an accepted client. */
  lemma ExtraRegistered(c: State, id: ObjId, flags: Actions.Flags) returns (u: State)
    requires Consistent(c) && c.OpenAt(id) && c.heap[id].owner.Clients? && Clean(c.heap[id])
    ensures u == RegisteredOn(c, id, READABLE, Actions.Callback(User, flags))
    ensures Closable(u, id) && u.OpenAt(id) && u.heap[id].On(READABLE) == [Plain(Recv), Actions.Callback(User, flags)]
  {
    u := RegisteredOn(c, id, READABLE, Actions.Callback(User, flags));
    ConsistentClosable(c, id);
    EngineFacts.ListsKnown(c, id);
    ClientReads(c.heap[id]);
    RegisteredClosable(c, id, flags);
    ExtraList(c.heap[id], flags);
  }

  lemma ClientReads(sock: Sock)
    requires Safety.RoleOk(sock) && sock.owner.Clients?
    ensures sock.On(READABLE) == [Plain(Recv)]
  {
  }

  /** Between two passes of any run, user code registers one more READABLE callback on an accepted client whose erase
      action will run, against its obligations; the next pass reports the client readable; and `recv` answers 0: the
      library reads the erased client. */
  lemma ExtraReadableGoesWrong(s: Sys, id: ObjId, flags: Actions.Flags) returns (reported: seq<Mask>)
    requires Runs.Reachable(s) && s.stack == [] && s.poller.Idle?
    requires s.core.OpenAt(id) && s.core.heap[id].owner.Clients? && Clean(s.core.heap[id])
    ensures !UserMay(s, CallOn(id, READABLE, flags))
    ensures var called := UserStep(s, CallOn(id, READABLE, flags));
            && called.Stepped?
            && StartPoll(called.sys, reported).Stepped?
            && MayGoWrong(StartPoll(called.sys, reported).sys)
  {
    Histories.ReachableConsistent(s);
    MayNotRegister(s, id, flags);
    var c := ExtraRegistered(s.core, id, flags);
    Steps.RegisterIs(s, CallOn(id, READABLE, flags));
    reported := NextPassGoesWrong(s.On(c), id);
  }

  lemma MayNotRegister(s: Sys, id: ObjId, flags: Actions.Flags)
    requires s.core.Live(id) && s.core.heap[id].owner.Clients?
    ensures !UserMay(s, CallOn(id, READABLE, flags))
  {
  }

  lemma NextPassGoesWrong(s: Sys, id: ObjId) returns (reported: seq<Mask>)
    requires s.stack == [] && s.poller.Idle? && Closable(s.core, id) && s.core.OpenAt(id)
    requires |s.core.heap[id].On(READABLE)| > 1 && s.core.heap[id].On(READABLE)[0] == Plain(Recv)
    ensures StartPoll(s, reported).Stepped? && MayGoWrong(StartPoll(s, reported).sys)
  {
    var i := EntryOf(s.core, id);
    reported := OnlyReadable(|s.core.table.sockets|, i);
    var c := s.core.(table := Dispatch.Report(s.core.table, reported));
    ReportedClosable(s.core, id, reported);
    PassStarts(s, reported, c);
    var u := PassCalls(c, i, id);
    CalledRecvGoesWrong(u, id);
    WrongLater(PassAt(c, c.table, 0), u);
  }

  lemma PassStarts(s: Sys, reported: seq<Mask>, c: State)
    requires |reported| == |s.core.table.sockets| && s.core.table.sockets != []
    requires c == s.core.(table := Dispatch.Report(s.core.table, reported))
    ensures StartPoll(s, reported) == Stepped(PassAt(c, c.table, 0))
  {
  }

  // Such a client is reachable.

  /** A server listens on descriptor 3. */
  lemma Listened() returns (s: Sys)
    ensures Reaches(Initial(0, {}), s) && s.stack == [] && s.poller.Idle?
    ensures s.core.OpenAt(0) && s.core.nextId == 1 && s.core.kernel == {3} && Key(Clients(0), 4) !in s.core.owned
    ensures s.core.table.ptrs == [0] && s.core.table.Aligned() && s.core.heap[0].On(READABLE) == [Plain(Accept(0))]
  {
    var start := Initial(0, {});
    var c := ListenedFacts(start.core);
    s := start.On(c);
    OneReach(start, CallListen(0, 3, Succeeds), s.Push(Hook));
    HookReach(c, [], Idle);
    ReachesOn(start, s.Push(Hook), s);
  }

  lemma ListenedFacts(c: State) returns (u: State)
    requires c == Initial(0, {}).core
    ensures Listen(Initial(0, {}), 0, 3, Succeeds) == Initial(0, {}).On(u).Push(Hook)
    ensures u.OpenAt(0) && u.nextId == 1 && u.kernel == {3} && u.table.ptrs == [0] && u.table.Aligned()
    ensures u.heap[0].On(READABLE) == [Plain(Accept(0))] && Key(Clients(0), 4) !in u.owned
  {
    var listener := ListenerActions(Inserted(Allocated(c, 3), Listeners(0), 3), 0, 0, true);
    EngineFacts.ListenerOpened(c, 0, 3, true);
    EngineFacts.OpenedFacts(c, Listeners(0), 3, listener);
    u := Logged(listener, Listening(0));
  }

  /** The listener is reported readable. */
  lemma Polled(s: Sys) returns (u: Sys)
    requires s.stack == [] && s.poller.Idle? && s.core.OpenAt(0) && s.core.table.ptrs == [0] && s.core.table.Aligned()
    ensures Reaches(s, u) && u.stack == [Exec(0, READABLE, 0, |s.core.heap[0].On(READABLE)|)]
    ensures u.core.(table := s.core.table) == s.core && u.core.table.invalid == s.core.table.invalid
    ensures u.core.table.Aligned() && u.core.table.changes == s.core.table.changes
    ensures u.poller.Polling? && u.poller.phase == AfterRead
    ensures u.poller.ref == s.core.table.invalid && u.poller.at == s.core.table.changes
  {
    var c := s.core.(table := Dispatch.Report(s.core.table, [{POLLIN}]));
    var at := PassAt(c, c.table, 0);
    PassStarts(s, [{POLLIN}], c);
    OneReach(s, CallPoll([{POLLIN}]), at);
    Steps.HeadIs(at);
    Steps.ServeIs(Steps.TakeRef(at), POLLIN, READABLE, 0);
    u := PushExec(Steps.TakeRef(at), 0, READABLE);
    OneReach(at, Go(0), u);
    ReachesOn(s, at, u);
  }

  /** It accepts a client. */
  lemma AcceptRun(s: Sys) returns (u: Sys)
    requires s.stack == [Exec(0, READABLE, 0, 1)] && s.core.OpenAt(0)
    requires s.core.heap[0].On(READABLE) == [Plain(Accept(0))]
    requires s.core.table.Aligned() && WithinCounter(s) && s.poller.Polling?
    requires s.core.table.changes == s.poller.at && s.core.nextId == 1 && s.core.kernel == {3}
    requires Key(Clients(0), 4) !in s.core.owned
    ensures Reaches(s, u) && u.stack == [Exec(0, READABLE, 1, 1)] && u.poller == s.poller
    ensures u.core == EngineFacts.ClientAdded(s.core, 0, 4)
  {
    var under := Steps.Under(s, false);
    u := under.On(EngineFacts.ClientAdded(s.core, 0, 4));
    ClientFacts(s.core);
    Steps.ExecIs(s, 0, READABLE, 0, 1, 4);
    var hooked := Sys(u.core, [Hook] + u.stack, u.poller);
    OneReach(s, Go(4), hooked);
    HookReach(u.core, u.stack, u.poller);
    ReachesOn(s, hooked, u);
  }

  lemma ClientFacts(c: State)
    requires c.nextId == 1 && Key(Clients(0), 4) !in c.owned
    ensures var u := EngineFacts.ClientAdded(c, 0, 4);
            && u.OpenAt(1) && u.heap[1].owner == Clients(0) && Clean(u.heap[1])
            && u.table == AddSocket(c.table, 4, 1)
  {
    EngineFacts.ClientOpened(c, 0, 4);
    EngineFacts.OpenedFacts(c, Clients(0), 4, ClientActions(Inserted(Allocated(c, 4), Clients(0), 4), 1));
  }

  /** The loop leaves, because a socket was added. */
  lemma LoopLeaves(s: Sys)
    requires s.stack == [Exec(0, READABLE, 1, 1)] && s.poller.Polling? && s.poller.phase == AfterRead
    requires s.core.table.invalid != s.poller.ref && WithinCounter(s)
    ensures Reaches(s, Sys(s.core, [], Idle))
  {
    var at := Sys(s.core, [], s.poller);
    OneReach(s, Go(-1), at);
    OneReach(at, Go(-1), Sys(s.core, [], Idle));
    ReachesOn(s, at, Sys(s.core, [], Idle));
  }

  /** The states of `ExtraReadableGoesWrong` occur: a server listens and accepts a client. */
  lemma AcceptedClientIsReachable() returns (s: Sys)
    ensures Runs.Reachable(s) && s.stack == [] && s.poller.Idle?
    ensures s.core.OpenAt(1) && s.core.heap[1].owner.Clients? && Clean(s.core.heap[1])
  {
    var start := Initial(0, {});
    var listened := Listened();
    var polled := Polled(listened);
    var accepted := AcceptRun(polled);
    s := Sys(accepted.core, [], Idle);
    ClientFacts(polled.core);
    LoopLeaves(accepted);
    ReachesOn(start, listened, polled);
    ReachesOn(start, polled, accepted);
    ReachesOn(start, accepted, s);
    FromTheBeginning(s);
  }

  lemma FromTheBeginning(s: Sys)
    requires Reaches(Initial(0, {}), s)
    ensures Runs.Reachable(s)
  {
  }
}
