/** What each answer of the kernel, and each call from user code, comes to in a reachable state of the machine when user
    code returns at once: what is heard, what is sent, what is left behind. */
module Answers {
  import opened PollHandler
  import opened Core
  import opened Machine
  import opened Closing
  import opened Quiet
  import opened Safety
  import Actions
  import EngineFacts
  import Histories
  import Limits
  import Order
  import Preservation
  import Reentry
  import Runs
  import SendQueue
  import Steps

  // ------------------------------------------------------------------------------------------
  // Lists of user code
  // ------------------------------------------------------------------------------------------

  /** The execution of callback list `tag` about to look at callback `i`. */
  function ListAt(c: State, id: ObjId, tag: Tag, i: nat, rest: seq<Frame>, p: Poller): Sys
    requires c.Live(id)
  {
    Sys(c, [Exec(id, tag, i, |c.heap[id].On(tag)|)] + rest, p)
  }

  predicate UsersFrom(list: seq<Callback>, i: nat) {
    forall j :: i <= j < |list| ==> list[j].exec.User?
  }

  /** What is left on the stack while callback `i` runs. */
  function Pending(c: State, id: ObjId, tag: Tag, i: nat, rest: seq<Frame>): seq<Frame>
    requires c.Live(id) && i < |c.heap[id].On(tag)|
  {
    if c.heap[id].On(tag)[i].Stops() then rest else [Exec(id, tag, i + 1, |c.heap[id].On(tag)|)] + rest
  }

  lemma UserStarts(c: State, id: ObjId, tag: Tag, i: nat, rest: seq<Frame>, p: Poller)
    requires c.Live(id) && c.table.Aligned() && i < |c.heap[id].On(tag)| && c.heap[id].On(tag)[i].exec.User?
    ensures Leads(ListAt(c, id, tag, i, rest, p),
                  if c.heap[id].On(tag)[i].Skipped() then ListAt(c, id, tag, i + 1, rest, p)
                  else Sys(c, [Hook] + Pending(c, id, tag, i, rest), p))
  {
    assert ListAt(c, id, tag, i, rest, p).stack[1..] == rest;
    OneStep(ListAt(c, id, tag, i, rest, p));
  }

  lemma ListEnds(c: State, id: ObjId, tag: Tag, rest: seq<Frame>, p: Poller)
    requires c.Live(id)
    ensures Leads(ListAt(c, id, tag, |c.heap[id].On(tag)|, rest, p), Sys(c, rest, p))
  {
    assert ListAt(c, id, tag, |c.heap[id].On(tag)|, rest, p).stack[1..] == rest;
    OneStep(ListAt(c, id, tag, |c.heap[id].On(tag)|, rest, p));
  }

  /** Callbacks of user code that return at once change nothing. */
  lemma {:induction false} UsersLead(c: State, id: ObjId, tag: Tag, i: nat, rest: seq<Frame>, p: Poller)
    requires c.Live(id) && c.table.Aligned() && i <= |c.heap[id].On(tag)| && UsersFrom(c.heap[id].On(tag), i)
    ensures Leads(ListAt(c, id, tag, i, rest, p), Sys(c, rest, p))
    decreases |c.heap[id].On(tag)| - i
  {
    var list := c.heap[id].On(tag);
    if i == |list| {
      ListEnds(c, id, tag, rest, p);
    } else {
      var s, next := ListAt(c, id, tag, i, rest, p), ListAt(c, id, tag, i + 1, rest, p);
      UserStarts(c, id, tag, i, rest, p);
      UsersLead(c, id, tag, i + 1, rest, p);
      if !list[i].Skipped() {
        HookReturns(c, Pending(c, id, tag, i, rest), p);
        Chain(s, Sys(c, [Hook] + Pending(c, id, tag, i, rest), p), Sys(c, Pending(c, id, tag, i, rest), p));
        if !list[i].Stops() { Chain(s, next, Sys(c, rest, p)); }
      } else {
        Chain(s, next, Sys(c, rest, p));
      }
    }
  }

  /** Nothing in front of position `j` ends the list. */
  predicate NoneStops(list: seq<Callback>, i: nat, j: nat)
    requires j <= |list|
  {
    forall k :: i <= k < j ==> list[k].Skipped() || !list[k].Stops()
  }

  /** Each callback of user code that is not skipped is called, unless one before it stops the list. */
  lemma {:induction false} UserIsCalled(c: State, id: ObjId, tag: Tag, i: nat, j: nat, rest: seq<Frame>, p: Poller)
    requires c.Live(id) && c.table.Aligned() && i <= j < |c.heap[id].On(tag)| && UsersFrom(c.heap[id].On(tag), i)
    requires !c.heap[id].On(tag)[j].Skipped() && NoneStops(c.heap[id].On(tag), i, j)
    ensures Leads(ListAt(c, id, tag, i, rest, p), Sys(c, [Hook] + Pending(c, id, tag, j, rest), p))
    decreases j - i
  {
    UserStarts(c, id, tag, i, rest, p);
    if i < j {
      var s, next := ListAt(c, id, tag, i, rest, p), ListAt(c, id, tag, i + 1, rest, p);
      UserIsCalled(c, id, tag, i + 1, j, rest, p);
      if !c.heap[id].On(tag)[i].Skipped() {
        HookReturns(c, Pending(c, id, tag, i, rest), p);
        Chain(s, Sys(c, [Hook] + Pending(c, id, tag, i, rest), p), next);
      }
      Chain(s, next, Sys(c, [Hook] + Pending(c, id, tag, j, rest), p));
    }
  }

  // ------------------------------------------------------------------------------------------
  // How often user code is called
  // ------------------------------------------------------------------------------------------

  predicate OnHook(s: Sys) {
    s.stack != [] && s.stack[0].Hook?
  }

  predicate InHook(out: Outcome) {
    out.Stepped? && OnHook(out.sys)
  }

  /** How many of the first `n` states of an iteration have a property. */
  function Count<S(!new)>(step: S -> S, p: S -> bool, s: S, n: nat): nat
    decreases n
  {
    if n == 0 then 0 else (if p(s) then 1 else 0) + Count(step, p, step(s), n - 1)
  }

  lemma {:induction false} CountOn<S(!new)>(step: S -> S, p: S -> bool, s: S, a: nat, b: nat)
    ensures Count(step, p, s, a + b) == Count(step, p, s, a) + Count(step, p, Iterate(step, s, a), b)
    decreases a
  {
    if a == 0 {
    } else {
      CountOn(step, p, step(s), a - 1, b);
    }
  }

  /** How many calls of user code return in the first `n` steps. */
  function Called(s: Sys, n: nat): nat {
    Count(LazyStep, InHook, Stepped(s), n)
  }

  ghost predicate LeadsWith(s: Sys, u: Sys, calls: nat) {
    var leads := exists k: nat :: Lazily(s, k) == Stepped(u) && Called(s, k) == calls;
    leads
  }

  lemma ChainWith(s: Sys, m: Sys, u: Sys, a: nat, b: nat)
    requires LeadsWith(s, m, a) && LeadsWith(m, u, b)
    ensures LeadsWith(s, u, a + b)
  {
    var j: nat :| Lazily(s, j) == Stepped(m) && Called(s, j) == a;
    var k: nat :| Lazily(m, k) == Stepped(u) && Called(m, k) == b;
    Further(s, j, m, k);
    CountOn(LazyStep, InHook, Stepped(s), j, k);
  }

  lemma StepWith(s: Sys)
    requires Step(s, Lazy(s)).Stepped?
    ensures LeadsWith(s, Step(s, Lazy(s)).sys, if OnHook(s) then 1 else 0)
  {
    FirstSteps(s);
    assert Called(s, 1) == if OnHook(s) then 1 else 0;
  }

  lemma HookWith(c: State, rest: seq<Frame>, p: Poller)
    ensures LeadsWith(Sys(c, [Hook] + rest, p), Sys(c, rest, p), 1)
  {
    assert ([Hook] + rest)[1..] == rest;
    StepWith(Sys(c, [Hook] + rest, p));
  }

  /** The callbacks that call user code: all but the erase action. */
  function Voices(execs: seq<Core.Exec>): nat {
    if execs == [] then 0 else (if execs[0].Erase? then 0 else 1) + Voices(execs[1..])
  }

  /** No system call, and nothing behind the erase action. */
  predicate Plainly(list: seq<Callback>, i: nat) {
    forall j :: i <= j < |list| ==> Limits.Gentle(list[j].exec) && (list[j].exec.Erase? ==> j == |list| - 1)
  }

  lemma CallbackWith(c: State, id: ObjId, tag: Tag, i: nat, rest: seq<Frame>, p: Poller) returns (u: State)
    requires c.Live(id) && c.table.Aligned() && i < |c.heap[id].On(tag)| && Plainly(c.heap[id].On(tag), i)
    ensures var cb := c.heap[id].On(tag)[i];
            var s := ListAt(c, id, tag, i, rest, p);
            if cb.Skipped() then u == c && LeadsWith(s, ListAt(c, id, tag, i + 1, rest, p), 0)
            else if cb.exec.Erase? then LeadsWith(s, Sys(u, rest, p), 0)
            else u.heap == c.heap && u.table == c.table && LeadsWith(s, Sys(u, Pending(c, id, tag, i, rest), p), 1)
  {
    var s, cb := ListAt(c, id, tag, i, rest, p), c.heap[id].On(tag)[i];
    assert s.stack[1..] == rest;
    StepWith(s);
    if cb.Skipped() {
      u := c;
    } else if cb.exec.Erase? {
      u := Erased(c, cb.exec.owner, cb.exec.key);
      if !cb.Stops() {
        var m := Sys(u, [Exec(id, tag, i + 1, i + 1)] + rest, p);
        assert m.stack[1..] == rest;
        StepWith(m);
        ChainWith(s, m, Sys(u, rest, p), 0, 0);
      }
    } else {
      u := Limits.TellOf(c, id, cb.exec);
      HookWith(u, Pending(c, id, tag, i, rest), p);
      ChainWith(s, Sys(u, [Hook] + Pending(c, id, tag, i, rest), p), Sys(u, Pending(c, id, tag, i, rest), p), 0, 1);
    }
  }

  /** A list calls user code once for each callback that one execution of it runs, the erase action aside. */
  lemma {:induction false} ListCalls(c: State, id: ObjId, tag: Tag, i: nat, rest: seq<Frame>, p: Poller)
    returns (u: State)
    requires c.Live(id) && c.table.Aligned() && i <= |c.heap[id].On(tag)| && Plainly(c.heap[id].On(tag), i)
    ensures LeadsWith(ListAt(c, id, tag, i, rest, p), Sys(u, rest, p),
            Voices(Actions.Executed(c.heap[id].On(tag)[i..])))
    decreases |c.heap[id].On(tag)| - i
  {
    var s, list := ListAt(c, id, tag, i, rest, p), c.heap[id].On(tag);
    if i == |list| {
      assert s.stack[1..] == rest;
      StepWith(s);
      return c;
    }
    assert list[i..][1..] == list[i + 1..];
    u := CallbackWith(c, id, tag, i, rest, p);
    var m := u;
    var voices := Voices(Actions.Executed(list[i + 1..]));
    if list[i].Skipped() {
      u := ListCalls(c, id, tag, i + 1, rest, p);
      ChainWith(s, ListAt(c, id, tag, i + 1, rest, p), Sys(u, rest, p), 0, voices);
    } else if list[i].exec.Erase? {
      assert list[i + 1..] == [];
    } else if !list[i].Stops() {
      assert ([list[i].exec] + Actions.Executed(list[i + 1..]))[1..] == Actions.Executed(list[i + 1..]);
      u := ListCalls(m, id, tag, i + 1, rest, p);
      ChainWith(s, ListAt(m, id, tag, i + 1, rest, p), Sys(u, rest, p), 1, voices);
    } else {
      assert [list[i].exec][1..] == [];
    }
  }

  lemma RestIsPlain(sock: Sock, tag: Tag, i: nat)
    requires RoleOk(sock) && EraseIsLast(sock) && (i >= 1 || tag in {CLOSED, ERROR, RECV})
    ensures Plainly(sock.On(tag), i)
  {
    forall j | i <= j < |sock.On(tag)|
      ensures Limits.Gentle(sock.On(tag)[j].exec) && (sock.On(tag)[j].exec.Erase? ==> j == |sock.On(tag)| - 1)
    {
      WhichCallback(sock, tag, j);
    }
  }

  /** In any reachable state in which a list that makes no system call is executed: from callback `i` on, user code is
      called once for each callback that `Actions.Executed` lists, the erase action aside, and then the list is left. */
  lemma ExecutesAsListed(s: Sys, id: ObjId, tag: Tag, i: nat, end: nat) returns (u: State)
    requires Runs.Reachable(s) && Steps.OnTop(s, id, tag, i, end) && i < end && s.core.Live(id)
    requires i >= 1 || tag in {CLOSED, ERROR, RECV}
    ensures i <= |s.core.heap[id].On(tag)|
    ensures LeadsWith(s, Sys(u, s.stack[1..], s.poller), Voices(Actions.Executed(s.core.heap[id].On(tag)[i..])))
  {
    ListFacts(s, id, tag, i, end);
    u := ListCalls(s.core, id, tag, i, s.stack[1..], s.poller);
  }

  lemma ListFacts(s: Sys, id: ObjId, tag: Tag, i: nat, end: nat)
    requires Runs.Reachable(s) && Steps.OnTop(s, id, tag, i, end) && i < end && s.core.Live(id)
    requires i >= 1 || tag in {CLOSED, ERROR, RECV}
    ensures i <= |s.core.heap[id].On(tag)| && Plainly(s.core.heap[id].On(tag), i) && s.core.table.Aligned()
    ensures s == ListAt(s.core, id, tag, i, s.stack[1..], s.poller)
  {
    Runs.ReachableHolds(s);
    Steps.AlignedIn(s);
    Steps.AtCallback(s, id, tag, i, end);
    RestIsPlain(s.core.heap[id], tag, i);
    TopIs(s, id, tag, i, end);
  }

  lemma TopIs(s: Sys, id: ObjId, tag: Tag, i: nat, end: nat)
    requires Steps.OnTop(s, id, tag, i, end) && s.core.Live(id) && end == |s.core.heap[id].On(tag)|
    ensures s == ListAt(s.core, id, tag, i, s.stack[1..], s.poller)
  {
    assert s.stack == [s.stack[0]] + s.stack[1..];
  }

  // ------------------------------------------------------------------------------------------
  // Data arrives
  // ------------------------------------------------------------------------------------------

  /** The event of received data on a connection. */
  function Arrival(sock: Sock, id: ObjId): Event {
    if sock.owner.Clients? then Received(id) else PeerReceived(id)
  }

  /** The RECV list raises the event first. */
  predicate Hears(sock: Sock) {
    && sock.On(RECV) != []
    && sock.On(RECV)[0] == Plain(if sock.owner.Clients? then RaiseReceive else RaisePeerReceive)
    && UsersFrom(sock.On(RECV), 1)
  }

  lemma RecvHears(sock: Sock)
    requires RoleOk(sock) && EraseIsLast(sock) && sock.On(READABLE) == [Plain(Recv)]
    ensures Hears(sock)
  {
    forall j | 1 <= j < |sock.On(RECV)| ensures sock.On(RECV)[j].exec.User? {
      assert sock.On(RECV)[j] == sock.On(RECV)[1..][j - 1];
      WhichCallback(sock, RECV, j);
    }
  }

  /** The RECV list, from its first callback. */
  lemma ArrivalIsHeard(c: State, id: ObjId, rest: seq<Frame>, p: Poller)
    requires c.Live(id) && c.table.Aligned() && Hears(c.heap[id])
    ensures Leads(ListAt(c, id, RECV, 0, rest, p), Sys(Logged(c, Arrival(c.heap[id], id)), rest, p))
  {
    var s, c1 := ListAt(c, id, RECV, 0, rest, p), Logged(c, Arrival(c.heap[id], id));
    assert s.stack[1..] == rest;
    OneStep(s);
    HookReturns(c1, Pending(c1, id, RECV, 0, rest), p);
    Chain(s, Sys(c1, [Hook] + Pending(c1, id, RECV, 0, rest), p), ListAt(c1, id, RECV, 1, rest, p));
    UsersLead(c1, id, RECV, 1, rest, p);
    Chain(s, ListAt(c1, id, RECV, 1, rest, p), Sys(c1, rest, p));
  }

  /** A READABLE call of a connection about to begin, on a reachable state. */
  predicate BeginsRead(s: Sys, id: ObjId, end: nat) {
    Steps.OnTop(s, id, READABLE, 0, end) && s.core.Live(id) && !s.core.heap[id].owner.Listeners? && end > 0
  }

  lemma ReadIsRecv(s: Sys, id: ObjId, end: nat)
    requires Runs.Reachable(s) && BeginsRead(s, id, end)
    ensures end == 1 && s.core.heap[id].On(READABLE) == [Plain(Recv)] && s.stack == [Exec(id, READABLE, 0, 1)]
    ensures s.core.heap[id].Open() && s.core.table.Aligned() && Hears(s.core.heap[id])
    ensures UsersFrom(s.core.heap[id].On(ERROR), 0)
  {
    Runs.ReachableHolds(s);
    Steps.AlignedIn(s);
    Steps.AtCallback(s, id, READABLE, 0, end);
    ConnectionReads(s.core.heap[id]);
    OnlyFrame(s.stack);
  }

  lemma OnlyFrame(stack: seq<Frame>)
    requires stack != [] && stack[1..] == []
    ensures stack == [stack[0]]
  {
    assert stack == [stack[0]] + stack[1..];
  }

  lemma ConnectionReads(sock: Sock)
    requires RoleOk(sock) && EraseIsLast(sock) && !sock.owner.Listeners? && sock.On(READABLE) != []
    ensures sock.On(READABLE) == [Plain(Recv)] && Hears(sock) && UsersFrom(sock.On(ERROR), 0)
  {
    RecvHears(sock);
  }

  /** In any reachable state in which the READABLE call of a connection begins: when its `recv` gets bytes, user code of
      the server or client hears so once, and nothing else changes. */
  lemma ReceiveIsRaised(s: Sys, id: ObjId, end: nat, answer: int) returns (u: Sys)
    requires Runs.Reachable(s) && BeginsRead(s, id, end) && answer > 0
    ensures Step(s, Go(answer)).Stepped? && Leads(Step(s, Go(answer)).sys, u)
    ensures u.stack == [] && u.poller == s.poller
    ensures u.core == s.core.(log := s.core.log + [if s.core.heap[id].owner.Clients? then Received(id)
                                                   else PeerReceived(id)])
  {
    ReadIsRecv(s, id, end);
    var m := Step(s, Go(answer)).sys;
    var under := [Exec(id, READABLE, 1, 1)];
    var c1 := Logged(s.core, Arrival(s.core.heap[id], id));
    assert m == ListAt(s.core, id, RECV, 0, under, s.poller);
    ArrivalIsHeard(s.core, id, under, s.poller);
    ListEnds(c1, id, READABLE, [], s.poller);
    u := Sys(c1, [], s.poller);
    assert under + [] == under;
    Chain(m, Sys(c1, under, s.poller), u);
  }

  /** When its `recv` finds the end of the stream, a connection whose erase action will run is closed and destroyed,
      with one event, and nothing else changes but for its entry in the handler. */
  lemma EndIsClosed(s: Sys, id: ObjId, end: nat) returns (u: Sys)
    requires Runs.Reachable(s) && BeginsRead(s, id, end) && Clean(s.core.heap[id])
    ensures Step(s, Go(0)).Stepped? && Leads(Step(s, Go(0)).sys, u) && u.stack == [] && u.poller == s.poller
    ensures u.core.heap == s.core.heap - {id}
    ensures u.core.owned == s.core.owned - {Key(s.core.heap[id].owner, s.core.heap[id].key)}
    ensures u.core.table.ptrs == Without(s.core.table.ptrs, {id})
    ensures u.core.kernel == s.core.kernel - {s.core.heap[id].fd}
    ensures u.core.log == s.core.log + [SysClose(id, s.core.heap[id].fd), if s.core.heap[id].owner.Clients? then
                                          Disconnected(id) else Closed(id)]
  {
    ReadIsRecv(s, id, end);
    var c := EndOfRead(s, id);
    u := Sys(c, [], s.poller);
  }

  lemma EndOfRead(s: Sys, id: ObjId) returns (c: State)
    requires Runs.Reachable(s) && s.stack == [Exec(id, READABLE, 0, 1)] && s.core.OpenAt(id) && s.core.table.Aligned()
    requires s.core.heap[id].On(READABLE) == [Plain(Recv)] && Clean(s.core.heap[id])
    ensures Step(s, Go(0)).Stepped? && Leads(Step(s, Go(0)).sys, Sys(c, [], s.poller))
    ensures ClosedOne(s.core, id, c)
    ensures CloseEvents(s.core.heap[id], id) ==
            [SysClose(id, s.core.heap[id].fd),
             if s.core.heap[id].owner.Clients? then Disconnected(id) else Closed(id)]
  {
    var under := Sys(s.core, [Exec(id, READABLE, 1, 1)], s.poller);
    EndStep(s, id, under);
    ClosableIn(s, id);
    c := CloseLeads(under, id);
    ReadEnds(c, id, s.poller);
    Chain(CloseSocket(under, id), Sys(c, [Exec(id, READABLE, 1, 1)], s.poller), Sys(c, [], s.poller));
  }

  lemma EndStep(s: Sys, id: ObjId, under: Sys)
    requires s.stack == [Exec(id, READABLE, 0, 1)] && s.core.OpenAt(id) && s.core.table.Aligned()
    requires s.core.heap[id].On(READABLE) == [Plain(Recv)]
    requires under == Sys(s.core, [Exec(id, READABLE, 1, 1)], s.poller)
    ensures Step(s, Go(0)) == Stepped(CloseSocket(under, id))
  {
    assert [Exec(id, READABLE, 1, 1)] + [] == [Exec(id, READABLE, 1, 1)];
  }

  lemma ClosableIn(s: Sys, id: ObjId)
    requires Runs.Reachable(s) && s.core.OpenAt(id) && Clean(s.core.heap[id]) && s.core.table.Aligned()
    ensures Closable(s.core, id) && ClosedOne(s.core, id, ClosedQuietly(s.core, id))
    ensures CloseEvents(s.core.heap[id], id) ==
            [SysClose(id, s.core.heap[id].fd),
             if s.core.heap[id].owner.Clients? then Disconnected(id) else Closed(id)]
  {
    Histories.ReachableConsistent(s);
    ConsistentClosable(s.core, id);
    ClosedForGood(s.core, id, ClosedQuietly(s.core, id));
  }

  lemma ReadEnds(c: State, id: ObjId, p: Poller)
    ensures Leads(Sys(c, [Exec(id, READABLE, 1, 1)], p), Sys(c, [], p))
  {
    OneStep(Sys(c, [Exec(id, READABLE, 1, 1)], p));
  }

  lemma ClosedForGood(c: State, id: ObjId, u: State)
    requires Reentry.Consistent(c) && c.OpenAt(id) && Clean(c.heap[id]) && c.table.Aligned()
    requires u == ClosedQuietly(c, id)
    ensures ClosedOne(c, id, u)
    ensures CloseEvents(c.heap[id], id) ==
            [SysClose(id, c.heap[id].fd), if c.heap[id].owner.Clients? then Disconnected(id) else Closed(id)]
  {
    ClosedCleanly(c, id);
    AllAnnounce(c, id);
    CloseIsFarewell(c.heap[id], id);
  }

  // ------------------------------------------------------------------------------------------
  // Errors of a connection
  // ------------------------------------------------------------------------------------------

  /** The ERROR list of `id` runs on top of `rest`: it changes nothing when user code returns at once, and each of its
      callbacks is called unless it is skipped or one before it stops the list. */
  ghost predicate ErrorIsHeard(m: Sys, c: State, id: ObjId, rest: seq<Frame>, p: Poller)
    requires c.Live(id)
  {
    var list := c.heap[id].On(ERROR);
    && Leads(m, Sys(c, rest, p))
    && forall j: nat :: IsCalled(list, j) ==> Leads(m, Sys(c, [Hook] + Pending(c, id, ERROR, j, rest), p))
  }

  /** The callback is not skipped, and nothing before it stops the list. */
  predicate IsCalled(list: seq<Callback>, j: nat) {
    j < |list| && !list[j].Skipped() && NoneStops(list, 0, j)
  }

  lemma ErrorListLeads(c: State, id: ObjId, rest: seq<Frame>, p: Poller)
    requires c.Live(id) && c.table.Aligned() && UsersFrom(c.heap[id].On(ERROR), 0)
    ensures ErrorIsHeard(ListAt(c, id, ERROR, 0, rest, p), c, id, rest, p)
  {
    UsersLead(c, id, ERROR, 0, rest, p);
    forall j: nat | IsCalled(c.heap[id].On(ERROR), j)
      ensures Leads(ListAt(c, id, ERROR, 0, rest, p), Sys(c, [Hook] + Pending(c, id, ERROR, j, rest), p))
    {
      UserIsCalled(c, id, ERROR, 0, j, rest, p);
    }
  }

  lemma ErrorsAreUsers(s: Sys, id: ObjId)
    requires Runs.Reachable(s) && s.core.Live(id)
    ensures UsersFrom(s.core.heap[id].On(ERROR), 0) && s.core.table.Aligned()
  {
    Runs.ReachableHolds(s);
    Steps.AlignedIn(s);
    assert RoleOk(s.core.heap[id]);
  }

  /** A `recv` that fails executes the ERROR list of its connection. */
  lemma RecvFails(s: Sys, id: ObjId, end: nat, answer: int)
    requires Runs.Reachable(s) && BeginsRead(s, id, end) && answer < 0
    ensures Step(s, Go(answer)).Stepped?
    ensures ErrorIsHeard(Step(s, Go(answer)).sys, s.core, id, [Exec(id, READABLE, 1, 1)], s.poller)
  {
    ReadIsRecv(s, id, end);
    assert Step(s, Go(answer)).sys == ListAt(s.core, id, ERROR, 0, [Exec(id, READABLE, 1, 1)], s.poller);
    ErrorListLeads(s.core, id, [Exec(id, READABLE, 1, 1)], s.poller);
  }

  // ------------------------------------------------------------------------------------------
  // Bytes leave
  // ------------------------------------------------------------------------------------------

  /** Of `c`, only what is said here of socket `id` may differ in `u`: `chunk` came to its wire, and its queue is now
      `queue`. */
  ghost predicate Written(c: State, u: State, id: ObjId, chunk: seq<SendQueue.byte>, queue: seq<seq<SendQueue.byte>>)
    requires c.Live(id)
  {
    var holds :=
      && u.Live(id) && u.heap[id] == c.heap[id].(out := u.heap[id].out) && u.heap == c.heap[id := u.heap[id]]
      && u.heap[id].out.wire == c.heap[id].out.wire + chunk && u.heap[id].out.queue == queue
      && u.owned == c.owned && u.nextId == c.nextId && u.kernel == c.kernel && u.log == c.log
      && SameShape(c.table, u.table) && u.table.invalid == c.table.invalid;
    holds
  }

  /** A WRITEABLE call about to run the library's flush, with an answer of the kernel. */
  predicate BeginsFlush(s: Sys, id: ObjId, i: nat, end: nat, answer: int) {
    && Steps.OnTop(s, id, WRITEABLE, i, end) && i < end && s.core.Live(id) && i < |s.core.heap[id].On(WRITEABLE)|
    && s.core.heap[id].On(WRITEABLE)[i].exec.Flush?
    && s.core.heap[id].out.queue != [] && SendQueue.Answer(answer, |s.core.heap[id].out.queue[0]|)
  }

  lemma FlushFacts(s: Sys, id: ObjId, i: nat, end: nat, answer: int)
    requires Runs.Reachable(s) && BeginsFlush(s, id, i, end, answer)
    ensures i == 0 && end == |s.core.heap[id].On(WRITEABLE)| && s.core.heap[id].On(WRITEABLE)[0] == Plain(Flush)
    ensures s.stack == [Exec(id, WRITEABLE, 0, end)] && s.core.table.Aligned()
    ensures UsersFrom(s.core.heap[id].On(WRITEABLE), 1) && UsersFrom(s.core.heap[id].On(ERROR), 0)
  {
    Runs.ReachableHolds(s);
    Steps.AlignedIn(s);
    Steps.AtCallback(s, id, WRITEABLE, i, end);
    FlushesFirst(s.core.heap[id], i);
    OnlyFrame(s.stack);
  }

  lemma FlushesFirst(sock: Sock, i: nat)
    requires RoleOk(sock) && EraseIsLast(sock) && i < |sock.On(WRITEABLE)| && sock.On(WRITEABLE)[i].exec.Flush?
    ensures i == 0 && sock.On(WRITEABLE)[0] == Plain(Flush)
    ensures UsersFrom(sock.On(WRITEABLE), 1) && UsersFrom(sock.On(ERROR), 0)
  {
    WhichCallback(sock, WRITEABLE, i);
    forall j | 1 <= j < |sock.On(WRITEABLE)| ensures sock.On(WRITEABLE)[j].exec.User? {
      assert sock.On(WRITEABLE)[j] == sock.On(WRITEABLE)[1..][j - 1];
      WhichCallback(sock, WRITEABLE, j);
    }
  }

  /** What the kernel takes of a leftover is a beginning of it, as long as its answer. */
  lemma FlushWrites(c: State, id: ObjId, answer: int) returns (chunk: seq<SendQueue.byte>)
    requires c.Live(id) && c.heap[id].out.queue != [] && 0 <= answer <= |c.heap[id].out.queue[0]|
    ensures |chunk| == answer && chunk <= c.heap[id].out.queue[0]
    ensures Written(c, Flushed(c, id, answer), id, chunk,
                    if chunk == c.heap[id].out.queue[0] then c.heap[id].out.queue[1..] else c.heap[id].out.queue)
  {
    var out := c.heap[id].out;
    chunk := SendQueue.WritesBeginning(out, SendQueue.OpFlush(answer));
    InterestShape(c.table, c.heap[id].fd, POLLOUT, false);
  }

  /** In any reachable state in which the flush of a connection is about to run and the kernel takes `answer` bytes:
      they are the beginning of the first leftover and come to the wire, and the leftover goes exactly if all of it
      was taken. */
  lemma FlushSends(s: Sys, id: ObjId, i: nat, end: nat, answer: int) returns (u: Sys, chunk: seq<SendQueue.byte>)
    requires Runs.Reachable(s) && BeginsFlush(s, id, i, end, answer) && answer >= 0
    ensures Step(s, Go(answer)).Stepped? && Leads(Step(s, Go(answer)).sys, u)
    ensures u.stack == [] && u.poller == s.poller
    ensures |chunk| == answer && chunk <= s.core.heap[id].out.queue[0]
    ensures u.core.Live(id) && u.core.heap[id].out.accepted == s.core.heap[id].out.accepted
    ensures var queue := s.core.heap[id].out.queue;
            Written(s.core, u.core, id, chunk, if chunk == queue[0] then queue[1..] else queue)
  {
    FlushFacts(s, id, i, end, answer);
    chunk := FlushWrites(s.core, id, answer);
    var c1 := Flushed(s.core, id, answer);
    FlushStep(s, id, end, answer);
    WrittenKeeps(s.core, c1, id, WRITEABLE);
    UsersLead(c1, id, WRITEABLE, 1, [], s.poller);
    u := Sys(c1, [], s.poller);
  }

  lemma FlushStep(s: Sys, id: ObjId, end: nat, answer: int)
    requires BeginsFlush(s, id, 0, end, answer) && s.stack == [Exec(id, WRITEABLE, 0, end)] && s.core.table.Aligned()
    requires end == |s.core.heap[id].On(WRITEABLE)| && s.core.heap[id].On(WRITEABLE)[0] == Plain(Flush) && answer >= 0
    ensures Step(s, Go(answer)) ==
            Stepped(Sys(Flushed(s.core, id, answer), [Exec(id, WRITEABLE, 1, end)] + [], s.poller))
  {
  }

  /** Lists and alignment are as before. */
  lemma WrittenKeeps(c: State, u: State, id: ObjId, tag: Tag)
    requires c.Live(id) && u.Live(id) && u.heap[id].lists == c.heap[id].lists && c.table.Aligned()
    requires SameShape(c.table, u.table)
    ensures u.heap[id].On(tag) == c.heap[id].On(tag) && u.table.Aligned()
  {
  }

  /** A flush that fails changes nothing and executes the ERROR list of its connection. */
  lemma FlushFails(s: Sys, id: ObjId, i: nat, end: nat, answer: int)
    requires Runs.Reachable(s) && BeginsFlush(s, id, i, end, answer) && answer < 0
    ensures Step(s, Go(answer)).Stepped?
    ensures ErrorIsHeard(Step(s, Go(answer)).sys, s.core, id, [Exec(id, WRITEABLE, 1, end)], s.poller)
  {
    FlushFacts(s, id, i, end, answer);
    SameHeap(s.core, id);
    assert Step(s, Go(answer)).sys == ListAt(s.core, id, ERROR, 0, [Exec(id, WRITEABLE, 1, end)], s.poller);
    ErrorListLeads(s.core, id, [Exec(id, WRITEABLE, 1, end)], s.poller);
  }

  lemma SameHeap(c: State, id: ObjId)
    requires c.Live(id)
    ensures WithStream(c, id, c.heap[id].out, c.table) == c
  {
  }

  // ------------------------------------------------------------------------------------------
  // Calls from user code
  // ------------------------------------------------------------------------------------------

  /** Where user code may call into the library. */
  predicate InUserCode(s: Sys) {
    if s.stack == [] then s.poller.Idle? else s.stack[0].Hook?
  }

  /** In any reachable state in which user code sends: the beginning of the message that the kernel takes comes to the
      wire, the rest of it to the end of the queue. */
  lemma SendTakes(s: Sys, id: ObjId, message: seq<SendQueue.byte>, sent: int) returns (u: State)
    requires Runs.Reachable(s) && InUserCode(s) && Allowed(s, CallSend(id, message, sent))
    requires 0 <= sent <= |message|
    ensures s.core.Live(id) && Step(s, CallSend(id, message, sent)) == Stepped(s.On(u))
    ensures var out := s.core.heap[id].out;
            && Written(s.core, u, id, message[..sent],
                       if sent < |message| then out.queue + [message[sent..]] else out.queue)
            && u.heap[id].out.accepted == out.accepted + message
  {
    u := Sent(s.core, id, message, sent);
    InterestShape(s.core.table, s.core.heap[id].fd, POLLOUT, true);
  }

  /** A send that fails changes nothing and executes the ERROR list of its connection. */
  lemma SendFails(s: Sys, id: ObjId, message: seq<SendQueue.byte>, sent: int)
    requires Runs.Reachable(s) && InUserCode(s) && Allowed(s, CallSend(id, message, sent)) && sent == -1
    ensures s.core.Live(id) && Step(s, CallSend(id, message, sent)).Stepped?
    ensures ErrorIsHeard(Step(s, CallSend(id, message, sent)).sys, s.core, id, s.stack, s.poller)
  {
    ErrorsAreUsers(s, id);
    SameHeap(s.core, id);
    assert Step(s, CallSend(id, message, sent)).sys == ListAt(s.core, id, ERROR, 0, s.stack, s.poller);
    ErrorListLeads(s.core, id, s.stack, s.poller);
  }

  /** A registration by user code puts one callback with its flags into that list of that socket, just behind the last
      one without QUEUE_END, and changes nothing else. */
  lemma RegistrationAdds(s: Sys, id: ObjId, tag: Tag, flags: Actions.Flags) returns (u: State, at: nat)
    requires Runs.Reachable(s) && InUserCode(s) && Allowed(s, CallOn(id, tag, flags))
    ensures s.core.Live(id) && Step(s, CallOn(id, tag, flags)) == Stepped(s.On(u))
    ensures u.Live(id) && u == s.core.(heap := s.core.heap[id := u.heap[id]])
    ensures u.heap[id] == s.core.heap[id].(lists := u.heap[id].lists)
    ensures forall t: Tag :: t != tag ==> u.heap[id].On(t) == s.core.heap[id].On(t)
    ensures var list := s.core.heap[id].On(tag);
            && at <= |list|
            && u.heap[id].On(tag) == list[..at] + [Actions.Callback(User, flags)] + list[at..]
            && (at > 0 ==> !list[at - 1].Queued()) && (forall j :: at <= j < |list| ==> list[j].Queued())
  {
    var list := s.core.heap[id].On(tag);
    u := RegisteredOn(s.core, id, tag, Actions.Callback(User, flags));
    at := Actions.InsertPosition(list);
  }

  // ------------------------------------------------------------------------------------------
  // Sockets that come to be
  // ------------------------------------------------------------------------------------------

  /** Of `c`, only these differ in `u`: there is one new socket `sock`, under its descriptor in its container, last in
      both vectors and asking for POLLIN; and `e` is heard. */
  ghost predicate Added(c: State, u: State, sock: Sock, e: Event) {
    var holds :=
      && u.heap == c.heap[c.nextId := sock] && u.owned == c.owned[Key(sock.owner, sock.fd) := c.nextId]
      && u.table.sockets == c.table.sockets + [PollFd(sock.fd, {POLLIN}, {})]
      && u.table.ptrs == c.table.ptrs + [c.nextId]
      && u.kernel == c.kernel + {sock.fd} && u.nextId == c.nextId + 1
      && u.log == c.log + [e];
    holds
  }

  /** A socket with these callbacks, and a fresh stream. */
  ghost predicate Hooked(sock: Sock, o: Owner, fd: int, readable: seq<Core.Exec>, writeable: seq<Core.Exec>,
                         closed: Core.Exec, recv: seq<Core.Exec>)
  {
    var holds :=
      && sock.fd == fd == sock.key && sock.owner == o && sock.out == SendQueue.FRESH
      && sock.On(READABLE) == PlainAll(readable) && sock.On(WRITEABLE) == PlainAll(writeable)
      && sock.On(CLOSED) == [Plain(closed), EraseCallback(o, fd)]
      && sock.On(RECV) == PlainAll(recv) && sock.On(ERROR) == [];
    holds
  }

  function PlainAll(execs: seq<Core.Exec>): seq<Callback> {
    seq(|execs|, i requires 0 <= i < |execs| => Plain(execs[i]))
  }

  lemma OnePlain(e: Core.Exec)
    ensures PlainAll([e]) == [Plain(e)] && PlainAll([]) == []
  {
  }

  lemma NewListener(c: State, id: ObjId, server: nat, fd: int)
    requires c.Live(id) && c.heap[id] == NewSock(Listeners(server), fd)
    ensures Hooked(ListenerActions(c, id, server, true).heap[id], Listeners(server), fd, [Accept(server)], [],
                   RaiseClosed, [])
  {
    var erase := EraseCallback(Listeners(server), fd);
    Preservation.FirstRegistrations(erase, RaiseClosed);
    Preservation.FirstRegistrations(erase, Accept(server));
    OnePlain(Accept(server));
  }

  lemma NewClient(c: State, id: ObjId, server: nat, fd: int)
    requires c.Live(id) && c.heap[id] == NewSock(Clients(server), fd)
    ensures Hooked(ClientActions(c, id).heap[id], Clients(server), fd, [Recv], [Flush], RaiseDisconnect, [RaiseReceive])
  {
    var erase := EraseCallback(Clients(server), fd);
    Preservation.FirstRegistrations(erase, Recv);
    Preservation.FirstRegistrations(erase, Flush);
    Preservation.FirstRegistrations(erase, RaiseDisconnect);
    Preservation.FirstRegistrations(erase, RaiseReceive);
    OnePlain(Recv);
    OnePlain(Flush);
    OnePlain(RaiseReceive);
  }

  lemma NewPeer(c: State, id: ObjId, client: nat, fd: int)
    requires c.Live(id) && c.heap[id] == NewSock(Peers(client), fd)
    ensures Hooked(PeerActions(c, id, true).heap[id], Peers(client), fd, [Recv], [], RaiseClosed, [RaisePeerReceive])
  {
    var erase := EraseCallback(Peers(client), fd);
    Preservation.FirstRegistrations(erase, RaiseClosed);
    Preservation.FirstRegistrations(erase, Recv);
    Preservation.FirstRegistrations(erase, RaisePeerReceive);
    OnePlain(Recv);
    OnePlain(RaisePeerReceive);
  }

  /** A `listen` that succeeds adds a listener that accepts on READABLE and is told of. */
  lemma ListenOpens(s: Sys, server: nat, fd: int) returns (u: State, sock: Sock)
    requires Runs.Reachable(s) && InUserCode(s) && Allowed(s, CallListen(server, fd, Succeeds))
    requires fd >= 0 && Key(Listeners(server), fd) !in s.core.owned
    ensures Step(s, CallListen(server, fd, Succeeds)) == Stepped(s.On(u).Push(Hook))
    ensures Added(s.core, u, sock, Listening(s.core.nextId))
    ensures Hooked(sock, Listeners(server), fd, [Accept(server)], [], RaiseClosed, [])
  {
    u := Listen(s, server, fd, Succeeds).core;
    sock := u.heap[s.core.nextId];
    NewListener(Inserted(Allocated(s.core, fd), Listeners(server), fd), s.core.nextId, server, fd);
  }

  /** A `connect` that succeeds adds a connection that receives on READABLE, raises what it receives and is told of. */
  lemma ConnectOpens(s: Sys, client: nat, fd: int) returns (u: State, sock: Sock)
    requires Runs.Reachable(s) && InUserCode(s) && Allowed(s, CallConnect(client, fd, Succeeds))
    requires fd >= 0 && Key(Peers(client), fd) !in s.core.owned
    ensures Step(s, CallConnect(client, fd, Succeeds)) == Stepped(s.On(u).Push(Hook))
    ensures Added(s.core, u, sock, Connected(s.core.nextId))
    ensures Hooked(sock, Peers(client), fd, [Recv], [], RaiseClosed, [RaisePeerReceive])
  {
    u := Connect(s, client, fd, Succeeds).core;
    sock := u.heap[s.core.nextId];
    NewPeer(Inserted(Allocated(s.core, fd), Peers(client), fd), s.core.nextId, client, fd);
  }

  /** Accepting, about to make its system call. */
  predicate BeginsAccept(s: Sys, id: ObjId, i: nat, end: nat, server: nat) {
    && Steps.OnTop(s, id, READABLE, i, end) && i < end && s.core.Live(id) && i < |s.core.heap[id].On(READABLE)|
    && s.core.heap[id].On(READABLE)[i] == Plain(Accept(server))
  }

  lemma AcceptFacts(s: Sys, id: ObjId, i: nat, end: nat, server: nat)
    requires Runs.Reachable(s) && BeginsAccept(s, id, i, end, server)
    ensures i == 0 && end == |s.core.heap[id].On(READABLE)| && s.core.OpenAt(id) && s.core.table.Aligned()
    ensures s.stack == [Exec(id, READABLE, 0, end)] && UsersFrom(s.core.heap[id].On(READABLE), 1)
    ensures id < s.core.nextId
  {
    Runs.ReachableHolds(s);
    Steps.AlignedIn(s);
    Steps.AtCallback(s, id, READABLE, i, end);
    AcceptsAtHead(s.core.heap[id], i);
    OnlyFrame(s.stack);
  }

  lemma AcceptsAtHead(sock: Sock, i: nat)
    requires RoleOk(sock) && EraseIsLast(sock) && i < |sock.On(READABLE)| && sock.On(READABLE)[i].exec.Accept?
    ensures i == 0 && UsersFrom(sock.On(READABLE), 1)
  {
    WhichCallback(sock, READABLE, i);
    forall j | 1 <= j < |sock.On(READABLE)| ensures sock.On(READABLE)[j].exec.User? {
      assert sock.On(READABLE)[j] == sock.On(READABLE)[1..][j - 1];
      WhichCallback(sock, READABLE, j);
    }
  }

  /** In any reachable state in which a listener is about to accept, and the kernel hands out a descriptor that its
      server has no socket under: a client is added that receives and flushes, raises what it receives and its end,
      and ACCEPT is heard. */
  lemma AcceptOpens(s: Sys, id: ObjId, i: nat, end: nat, server: nat, fd: int) returns (u: State, sock: Sock)
    requires Runs.Reachable(s) && BeginsAccept(s, id, i, end, server) && Allowed(s, Go(fd))
    requires fd > 0 && Key(Clients(server), fd) !in s.core.owned
    ensures Step(s, Go(fd)).Stepped? && Leads(Step(s, Go(fd)).sys, Sys(u, [], s.poller))
    ensures Added(s.core, u, sock, Accepted(s.core.nextId))
    ensures Hooked(sock, Clients(server), fd, [Recv], [Flush], RaiseDisconnect, [RaiseReceive])
  {
    AcceptFacts(s, id, i, end, server);
    u := Logged(ClientActions(Inserted(Allocated(s.core, fd), Clients(server), fd), s.core.nextId),
                Accepted(s.core.nextId));
    sock := u.heap[s.core.nextId];
    NewClient(Inserted(Allocated(s.core, fd), Clients(server), fd), s.core.nextId, server, fd);
    AddedLeads(s, id, end, fd, u);
  }

  lemma AddedLeads(s: Sys, id: ObjId, end: nat, fd: int, u: State)
    requires s.stack == [Exec(id, READABLE, 0, end)] && s.core.OpenAt(id) && end == |s.core.heap[id].On(READABLE)| > 0
    requires s.core.table.Aligned() && UsersFrom(s.core.heap[id].On(READABLE), 1) && id < s.core.nextId
    requires s.core.heap[id].On(READABLE)[0].exec.Accept? && fd > 0
    requires s.core.heap[id].On(READABLE)[0] == Plain(s.core.heap[id].On(READABLE)[0].exec)
    requires AcceptClient(Sys(s.core, [Exec(id, READABLE, 1, end)], s.poller),
                          s.core.heap[id].On(READABLE)[0].exec.server, fd) ==
             Stepped(Sys(u, [Hook] + [Exec(id, READABLE, 1, end)], s.poller))
    requires u.Live(id) && u.heap[id] == s.core.heap[id] && u.table.Aligned()
    ensures Step(s, Go(fd)).Stepped? && Leads(Step(s, Go(fd)).sys, Sys(u, [], s.poller))
  {
    var m := Sys(u, [Hook] + [Exec(id, READABLE, 1, end)], s.poller);
    assert s.stack[1..] == [] && [Exec(id, READABLE, 1, end)] + [] == [Exec(id, READABLE, 1, end)];
    assert Step(s, Go(fd)) == Stepped(m);
    HookReturns(u, [Exec(id, READABLE, 1, end)], s.poller);
    UsersLead(u, id, READABLE, 1, [], s.poller);
    Chain(m, ListAt(u, id, READABLE, 1, [], s.poller), Sys(u, [], s.poller));
  }

  // ------------------------------------------------------------------------------------------
  // Sockets that do not
  // ------------------------------------------------------------------------------------------

  lemma ErrorLeads(c: State, o: Owner, rest: seq<Frame>, p: Poller)
    ensures Leads(Sys(c, [RaiseError(o)] + rest, p), Sys(Logged(c, Failed(o)), rest, p))
  {
    var s := Sys(c, [RaiseError(o)] + rest, p);
    assert s.stack[1..] == rest;
    OneStep(s);
    HookReturns(Logged(c, Failed(o)), rest, p);
    Chain(s, Sys(Logged(c, Failed(o)), [Hook] + rest, p), Sys(Logged(c, Failed(o)), rest, p));
  }

  /** The `socket->close()` of a `listen` or `connect` that failed. */
  lemma NextLeads(c: State, id: ObjId, rest: seq<Frame>, p: Poller) returns (u: State)
    requires Closable(c, id)
    ensures c.OpenAt(id) && c.table.Aligned() && u == ClosedQuietly(c, id)
    ensures Leads(Sys(c, [CloseNext(id)] + rest, p), Sys(u, rest, p))
  {
    var s := Sys(c, [CloseNext(id)] + rest, p);
    u := CloseLeads(Sys(c, rest, p), id);
    NextCloses(c, id, rest, p);
    Chain(s, CloseSocket(Sys(c, rest, p), id), Sys(u, rest, p));
  }

  lemma NextCloses(c: State, id: ObjId, rest: seq<Frame>, p: Poller)
    requires c.Live(id) && c.table.Aligned()
    ensures Leads(Sys(c, [CloseNext(id)] + rest, p), CloseSocket(Sys(c, rest, p), id))
  {
    var s := Sys(c, [CloseNext(id)] + rest, p);
    assert s.stack[1..] == rest;
    OneStep(s);
  }

  /** The ERROR event, and then the new socket is closed. */
  lemma ErrorThenClose(s: State, o: Owner, fd: int, made: State, rest: seq<Frame>, p: Poller) returns (u: State)
    requires Reentry.Consistent(s) && Order.MadeIn(s, o, fd, made)
    ensures Leads(Sys(made, [RaiseError(o)] + ([CloseNext(s.nextId)] + rest), p), Sys(u, rest, p))
    ensures EngineFacts.RolledBack(s, u, o, fd, false)
  {
    var id, told := s.nextId, Logged(made, Failed(o));
    var s' := Order.ToldFirst(s, o, fd, made, told);
    ErrorLeads(made, o, [CloseNext(id)] + rest, p);
    ConsistentClosable(told, id);
    u := NextLeads(told, id, rest, p);
    Chain(Sys(made, [RaiseError(o)] + ([CloseNext(id)] + rest), p), Sys(told, [CloseNext(id)] + rest, p),
          Sys(u, rest, p));
    Order.MadeRollsBack(s, o, fd, made, told, u, true);
    Order.FailureTold(s, o, fd, u, u, false);
  }

  /** The new socket is closed, and then the ERROR event. */
  lemma CloseThenError(s: State, o: Owner, fd: int, made: State, rest: seq<Frame>, p: Poller) returns (u: State)
    requires Reentry.Consistent(s) && Order.MadeIn(s, o, fd, made)
    ensures Leads(Sys(made, [CloseNext(s.nextId)] + ([RaiseError(o)] + rest), p), Sys(u, rest, p))
    ensures EngineFacts.RolledBack(s, u, o, fd, true)
  {
    var id := s.nextId;
    ConsistentClosable(made, id);
    var gone := NextLeads(made, id, [RaiseError(o)] + rest, p);
    ErrorLeads(gone, o, rest, p);
    u := Logged(gone, Failed(o));
    Chain(Sys(made, [CloseNext(id)] + ([RaiseError(o)] + rest), p), Sys(gone, [RaiseError(o)] + rest, p),
          Sys(u, rest, p));
    Order.MadeRollsBack(s, o, fd, made, made, gone, false);
    Order.FailureTold(s, o, fd, gone, u, true);
  }

  /** No socket was made. */
  lemma OnlyError(s: State, o: Owner, fd: int, c: State, late: bool, rest: seq<Frame>, p: Poller) returns (u: State)
    requires Reentry.Consistent(s) && c == (if fd < 0 then s else Allocated(s, fd)) && (fd < 0 || Key(o, fd) in s.owned)
    ensures Leads(Sys(c, [RaiseError(o)] + rest, p), Sys(u, rest, p))
    ensures EngineFacts.RolledBack(s, u, o, fd, late)
  {
    ErrorLeads(c, o, rest, p);
    EngineFacts.NothingMade(s, c, o, fd);
    u := Logged(c, Failed(o));
  }

  lemma ConnectionMade(s: State, client: nat, fd: int) returns (made: State)
    requires Reentry.Consistent(s) && fd >= 0 && fd !in s.kernel && Key(Peers(client), fd) !in s.owned
    ensures made == PeerActions(Inserted(Allocated(s, fd), Peers(client), fd), s.nextId, false)
    ensures Order.MadeIn(s, Peers(client), fd, made)
  {
    made := PeerActions(Inserted(Allocated(s, fd), Peers(client), fd), s.nextId, false);
    EngineFacts.PeerMade(s, client, fd, false);
  }

  lemma ListenerMade(s: State, server: nat, fd: int) returns (made: State)
    requires Reentry.Consistent(s) && fd >= 0 && fd !in s.kernel && Key(Listeners(server), fd) !in s.owned
    ensures made == ListenerActions(Inserted(Allocated(s, fd), Listeners(server), fd), s.nextId, server, false)
    ensures Order.MadeIn(s, Listeners(server), fd, made)
  {
    made := ListenerActions(Inserted(Allocated(s, fd), Listeners(server), fd), s.nextId, server, false);
    EngineFacts.ListenerMade(s, server, fd, false);
  }

  lemma ConnectIs(s: Sys, client: nat, fd: int, stage: Stage, made: State)
    requires fd >= 0 && Key(Peers(client), fd) !in s.core.owned && !stage.Succeeds?
    requires made == PeerActions(Inserted(Allocated(s.core, fd), Peers(client), fd), s.core.nextId, false)
    ensures Connect(s, client, fd, stage) ==
            Sys(made, if stage.AddressFails? then [RaiseError(Peers(client))] + ([CloseNext(s.core.nextId)] + s.stack)
                      else [CloseNext(s.core.nextId)] + ([RaiseError(Peers(client))] + s.stack), s.poller)
  {
  }

  lemma ListenIs(s: Sys, server: nat, fd: int, stage: Stage, made: State)
    requires fd >= 0 && Key(Listeners(server), fd) !in s.core.owned && !stage.Succeeds?
    requires made == ListenerActions(Inserted(Allocated(s.core, fd), Listeners(server), fd), s.core.nextId, server,
             false)
    ensures Listen(s, server, fd, stage) ==
            Sys(made, [RaiseError(Listeners(server))] + ([CloseNext(s.core.nextId)] + s.stack), s.poller)
  {
  }

  /** In any reachable state in which user code may call, a `connect` that fails leaves objects, containers and both
      vectors as they were. A connection that had been inserted was closed, with one CLOSED event; and the ERROR event
      comes before that if the address was not found and after it if the connection was refused. */
  lemma ConnectFails(s: Sys, client: nat, fd: int, stage: Stage) returns (u: State)
    requires Runs.Reachable(s) && InUserCode(s) && Allowed(s, CallConnect(client, fd, stage))
    requires fd < 0 || Key(Peers(client), fd) in s.core.owned || !stage.Succeeds?
    ensures Step(s, CallConnect(client, fd, stage)).Stepped?
    ensures Leads(Step(s, CallConnect(client, fd, stage)).sys, s.On(u))
    ensures u.heap == s.core.heap && u.owned == s.core.owned
    ensures u.table.sockets == s.core.table.sockets && u.table.ptrs == s.core.table.ptrs
    ensures u.kernel == s.core.kernel + if fd >= 0 && Key(Peers(client), fd) in s.core.owned then {fd} else {}
    ensures var error, close := Failed(Peers(client)), [SysClose(s.core.nextId, fd), Closed(s.core.nextId)];
            u.log == s.core.log +
                     if fd < 0 || Key(Peers(client), fd) in s.core.owned then [error]
                     else if stage.AddressFails? then [error] + close
                     else close + [error]
  {
    u := ConnectRollsBack(s, client, fd, stage);
    CalledFrom(s, CallConnect(client, fd, stage));
    RolledBackMeans(s.core, u, Peers(client), fd, stage.SetupFails?);
  }

  lemma ConnectRollsBack(s: Sys, client: nat, fd: int, stage: Stage) returns (u: State)
    requires Runs.Reachable(s) && Fresh(s.core, fd)
    requires fd < 0 || Key(Peers(client), fd) in s.core.owned || !stage.Succeeds?
    ensures Leads(Connect(s, client, fd, stage), s.On(u))
    ensures EngineFacts.RolledBack(s.core, u, Peers(client), fd, stage.SetupFails?)
  {
    var o, c := Peers(client), s.core;
    Histories.ReachableConsistent(s);
    if fd < 0 || Key(o, fd) in c.owned {
      u := OnlyError(c, o, fd, if fd < 0 then c else Allocated(c, fd), stage.SetupFails?, s.stack, s.poller);
    } else {
      var made := ConnectionMade(c, client, fd);
      ConnectIs(s, client, fd, stage, made);
      if stage.AddressFails? {
        u := ErrorThenClose(c, o, fd, made, s.stack, s.poller);
      } else {
        u := CloseThenError(c, o, fd, made, s.stack, s.poller);
      }
    }
  }

  lemma CalledFrom(s: Sys, ch: Choice)
    requires InUserCode(s) && !ch.Go? && !ch.Return? && !ch.CallPoll?
    ensures Step(s, ch) == UserStep(s, ch)
  {
  }

  lemma RolledBackMeans(s: State, u: State, o: Owner, fd: int, late: bool)
    requires EngineFacts.RolledBack(s, u, o, fd, late)
    ensures u.heap == s.heap && u.owned == s.owned
    ensures u.table.sockets == s.table.sockets && u.table.ptrs == s.table.ptrs
    ensures u.kernel == s.kernel + if fd >= 0 && Key(o, fd) in s.owned then {fd} else {}
    ensures u.log == s.log +
                     if fd < 0 || Key(o, fd) in s.owned then [Failed(o)]
                     else if late then [SysClose(s.nextId, fd), Closed(s.nextId)] + [Failed(o)]
                     else [Failed(o)] + [SysClose(s.nextId, fd), Closed(s.nextId)]
  {
  }

  /** The same for `listen`, whose ERROR event always comes first. */
  lemma ListenFails(s: Sys, server: nat, fd: int, stage: Stage) returns (u: State)
    requires Runs.Reachable(s) && InUserCode(s) && Allowed(s, CallListen(server, fd, stage))
    requires fd < 0 || Key(Listeners(server), fd) in s.core.owned || !stage.Succeeds?
    ensures Step(s, CallListen(server, fd, stage)).Stepped?
    ensures Leads(Step(s, CallListen(server, fd, stage)).sys, s.On(u))
    ensures u.heap == s.core.heap && u.owned == s.core.owned
    ensures u.table.sockets == s.core.table.sockets && u.table.ptrs == s.core.table.ptrs
    ensures u.kernel == s.core.kernel + if fd >= 0 && Key(Listeners(server), fd) in s.core.owned then {fd} else {}
    ensures u.log == s.core.log +
                     if fd < 0 || Key(Listeners(server), fd) in s.core.owned then [Failed(Listeners(server))]
                     else [Failed(Listeners(server))] + [SysClose(s.core.nextId, fd), Closed(s.core.nextId)]
  {
    u := ListenRollsBack(s, server, fd, stage);
    CalledFrom(s, CallListen(server, fd, stage));
    RolledBackMeans(s.core, u, Listeners(server), fd, false);
  }

  lemma ListenRollsBack(s: Sys, server: nat, fd: int, stage: Stage) returns (u: State)
    requires Runs.Reachable(s) && Fresh(s.core, fd)
    requires fd < 0 || Key(Listeners(server), fd) in s.core.owned || !stage.Succeeds?
    ensures Leads(Listen(s, server, fd, stage), s.On(u))
    ensures EngineFacts.RolledBack(s.core, u, Listeners(server), fd, false)
  {
    var o, c := Listeners(server), s.core;
    Histories.ReachableConsistent(s);
    if fd < 0 || Key(o, fd) in c.owned {
      u := OnlyError(c, o, fd, if fd < 0 then c else Allocated(c, fd), false, s.stack, s.poller);
    } else {
      var made := ListenerMade(c, server, fd);
      ListenIs(s, server, fd, stage, made);
      u := ErrorThenClose(c, o, fd, made, s.stack, s.poller);
    }
  }

  /** An `accept` that fails, or whose descriptor the container refuses, adds nothing and raises the ERROR event. */
  lemma AcceptFails(s: Sys, id: ObjId, i: nat, end: nat, server: nat, fd: int) returns (u: State)
    requires Runs.Reachable(s) && BeginsAccept(s, id, i, end, server) && Allowed(s, Go(fd))
    requires fd < 0 || (fd > 0 && Key(Clients(server), fd) in s.core.owned)
    ensures Step(s, Go(fd)).Stepped? && Leads(Step(s, Go(fd)).sys, Sys(u, [], s.poller))
    ensures u == s.core.(kernel := u.kernel, log := s.core.log + [Failed(Clients(server))])
    ensures u.kernel == s.core.kernel + if fd < 0 then {} else {fd}
  {
    AcceptFacts(s, id, i, end, server);
    var c, rest := if fd < 0 then s.core else Allocated(s.core, fd), [Exec(id, READABLE, 1, end)];
    u := Logged(c, Failed(Clients(server)));
    var m := Sys(c, [RaiseError(Clients(server))] + rest, s.poller);
    assert s.stack[1..] == [] && rest + [] == rest;
    assert Step(s, Go(fd)) == Stepped(m);
    ErrorLeads(c, Clients(server), rest, s.poller);
    UsersLead(u, id, READABLE, 1, [], s.poller);
    Chain(m, ListAt(u, id, READABLE, 1, [], s.poller), Sys(u, [], s.poller));
  }
}
