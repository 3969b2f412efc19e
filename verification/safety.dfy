/** What every step of the machine keeps, and what follows for every run. */
module Safety {
  import opened PollHandler
  import opened Core
  import opened Machine
  import Actions

  // ------------------------------------------------------------------------------------------
  // What is registered where
  // ------------------------------------------------------------------------------------------

  predicate Users(list: seq<Callback>) {
    forall cb :: cb in list ==> cb.exec.User?
  }

  /** `e` first, only user code (and on CLOSED the erase action) after it. */
  predicate StartsWith(list: seq<Callback>, e: Core.Exec) {
    var holds :=
      && list != []
      && list[0] == Plain(e)
      && forall cb :: cb in list[1..] ==> cb.exec.User? || cb.exec.Erase?;
    holds
  }

  /** Only user code, but for the library's accept, without flags, at the head. */
  predicate AcceptsFirst(list: seq<Callback>) {
    var holds :=
      list != [] ==>
        && (list[0].exec.User? || (list[0].exec.Accept? && list[0] == Plain(list[0].exec)))
        && Users(list[1..]);
    holds
  }

  predicate RoleOk(sock: Sock) {
    var holds :=
      match sock.owner
      case Clients(_) =>
        && sock.On(READABLE) == [Plain(Recv)]
        && StartsWith(sock.On(WRITEABLE), Flush)
        && StartsWith(sock.On(CLOSED), RaiseDisconnect)
        && StartsWith(sock.On(RECV), RaiseReceive)
        && Users(sock.On(ERROR))
      case Listeners(_) =>
        && AcceptsFirst(sock.On(READABLE))
        && StartsWith(sock.On(CLOSED), RaiseClosed)
        && Users(sock.On(WRITEABLE)) && Users(sock.On(RECV)) && Users(sock.On(ERROR))
      case Peers(_) =>
        && ((sock.On(READABLE) == [] && Users(sock.On(RECV))) ||
            (sock.On(READABLE) == [Plain(Recv)] && StartsWith(sock.On(RECV), RaisePeerReceive)))
        && StartsWith(sock.On(CLOSED), RaiseClosed)
        && Users(sock.On(WRITEABLE)) && Users(sock.On(ERROR));
    holds
  }

  ghost predicate Roles(heap: Heap) {
    forall id: ObjId :: id in heap ==> RoleOk(heap[id])
  }

  lemma StartsWithKept(list: seq<Callback>, e: Core.Exec, cb: Callback)
    requires StartsWith(list, e) && cb.exec.User?
    ensures StartsWith(Actions.Insert(list, cb), e)
  {
    var p := Actions.InsertPosition(list);
    assert p > 0;
    var rest := Actions.Insert(list, cb)[1..];
    assert rest == list[1..p] + [cb] + list[p..];
    forall x | x in rest ensures x.exec.User? || x.exec.Erase? {
      assert x == cb || x in list[1..];
    }
  }

  lemma AcceptsFirstKept(list: seq<Callback>, cb: Callback)
    requires AcceptsFirst(list) && cb.exec.User?
    ensures AcceptsFirst(Actions.Insert(list, cb))
  {
    var p := Actions.InsertPosition(list);
    var list' := Actions.Insert(list, cb);
    if p == 0 {
      assert list'[1..] == list;
      if list != [] {
        assert list[0].Queued();
        assert forall x :: x in list ==> x == list[0] || x in list[1..];
      }
    } else {
      assert list'[1..] == list[1..p] + [cb] + list[p..];
      assert forall x :: x in list'[1..] ==> x == cb || x in list[1..];
    }
  }

  /** A registration by user code keeps the library's own callbacks where they are. */
  lemma RoleKept(sock: Sock, tag: Tag, flags: Actions.Flags)
    requires RoleOk(sock) && (tag == READABLE ==> sock.owner.Listeners?)
    ensures RoleOk(sock.With(tag, Actions.Callback(User, flags)))
  {
    var cb := Actions.Callback(User, flags);
    var sock' := sock.With(tag, cb);
    assert forall t :: sock'.On(t) == if t == tag then Actions.Insert(sock.On(tag), cb) else sock.On(t);
    InsertMembers(sock.On(tag), cb);
    if tag == READABLE {
      AcceptsFirstKept(sock.On(tag), cb);
    }
    if StartsWith(sock.On(tag), Flush) { StartsWithKept(sock.On(tag), Flush, cb); }
    if StartsWith(sock.On(tag), RaiseDisconnect) { StartsWithKept(sock.On(tag), RaiseDisconnect, cb); }
    if StartsWith(sock.On(tag), RaiseClosed) { StartsWithKept(sock.On(tag), RaiseClosed, cb); }
    if StartsWith(sock.On(tag), RaiseReceive) { StartsWithKept(sock.On(tag), RaiseReceive, cb); }
    if StartsWith(sock.On(tag), RaisePeerReceive) { StartsWithKept(sock.On(tag), RaisePeerReceive, cb); }
  }

  lemma RoleOfSame(a: Sock, b: Sock)
    requires RoleOk(a) && a.lists == b.lists && a.owner == b.owner
    ensures RoleOk(b)
  {
    assert forall t :: a.On(t) == b.On(t);
  }

  /** Which library callback can stand where. */
  lemma WhichCallback(sock: Sock, tag: Tag, i: nat)
    requires RoleOk(sock) && EraseIsLast(sock) && i < |sock.On(tag)|
    ensures var cb := sock.On(tag)[i];
            && (cb.exec.Erase? ==> tag == CLOSED)
            && (cb.exec.Erase? ==> i == |sock.On(tag)| - 1 && cb == EraseCallback(sock.owner, sock.key))
            && (cb.exec.Accept? ==> tag == READABLE && i == 0 && sock.owner.Listeners? && cb == Plain(cb.exec))
            && (cb.exec.Recv? ==> tag == READABLE && i == 0 && |sock.On(tag)| == 1 && cb == Plain(Recv))
            && (cb.exec.Flush? ==> tag == WRITEABLE && i == 0 && sock.owner.Clients? && cb == Plain(Flush))
            && (cb.exec.RaiseDisconnect? ==> tag == CLOSED && i == 0 && sock.owner.Clients?)
            && (cb.exec.RaiseClosed? ==> tag == CLOSED && !sock.owner.Clients?)
            && (cb.exec.RaiseReceive? ==> tag == RECV && i == 0 && sock.owner.Clients?)
            && (cb.exec.RaisePeerReceive? ==> tag == RECV && i == 0 && sock.owner.Peers?)
            && (tag == CLOSED && i == 0 && sock.owner.Clients? ==> cb == Plain(RaiseDisconnect))
  {
    var list := sock.On(tag);
    var cb := list[i];
    assert cb in list;
    if i > 0 { assert cb == list[1..][i - 1]; assert cb in list[1..]; }
    if tag == CLOSED && i < |list| - 1 { assert cb == list[..|list| - 1][i]; assert cb in list[..|list| - 1]; }
  }

  // ------------------------------------------------------------------------------------------
  // The stack
  // ------------------------------------------------------------------------------------------

  /** The sockets a frame will read are alive, and what it remembers of their lists is still so. A socket being
      closed is pinned by nothing below. READABLE and WRITEABLE run directly under the dispatch loop. */
  ghost predicate FrameOk(heap: Heap, p: Poller, f: Frame, rest: seq<Frame>) {
    var holds :=
      match f
      case Hook => true
      case Exec(id, tag, i, end) =>
        && i <= end
        && (i < end ==>
              && id in heap
              && |heap[id].On(tag)| == end
              && (tag == CLOSED ==> !heap[id].Open() && !Busy(rest, id)))
        && (tag == READABLE ==> rest == [] && Serving(p, AfterRead, id))
        && (tag == WRITEABLE ==> rest == [] && Serving(p, AfterWrite, id))
      case Draining(o) => forall id: ObjId :: id in heap && Busy(rest, id) && heap[id].owner == o ==> !heap[id].Open()
      case CloseNext(id) => id in heap && !Busy(rest, id)
      case RaiseError(_) => true;
    holds
  }

  predicate Serving(p: Poller, phase: Phase, id: ObjId) {
    p.Polling? && p.phase == phase && p.i < |p.snap.ptrs| && p.snap.ptrs[p.i] == id
  }

  ghost predicate StackOk(heap: Heap, p: Poller, stack: seq<Frame>) {
    stack == [] || (FrameOk(heap, p, stack[0], stack[1..]) && StackOk(heap, p, stack[1..]))
  }

  /** Every execution on the stack has begun its first callback. */
  predicate Begun(stack: seq<Frame>) {
    forall f :: f in stack && f.Exec? ==> f.i >= 1
  }

  lemma {:induction false} BusyIsLive(heap: Heap, p: Poller, stack: seq<Frame>, id: ObjId)
    requires StackOk(heap, p, stack) && Busy(stack, id)
    ensures id in heap
    decreases |stack|
  {
    if !Pins(stack[0], id) {
      BusyIsLive(heap, p, stack[1..], id);
    }
  }

  /** What may happen to a socket without disturbing the frames that pin it. */
  predicate Undisturbed(heap: Heap, heap': Heap, id: ObjId) {
    id in heap && id in heap' && heap'[id].owner == heap[id].owner && (heap'[id].Open() ==> heap[id].Open())
  }

  lemma {:induction false} StackKeeps(heap: Heap, heap': Heap, p: Poller, stack: seq<Frame>)
    requires StackOk(heap, p, stack)
    requires forall id: ObjId :: Busy(stack, id) ==> Undisturbed(heap, heap', id)
    requires forall f :: f in stack && f.Exec? && f.i < f.end && f.id in heap' ==> |heap'[f.id].On(f.tag)| == f.end
    ensures StackOk(heap', p, stack)
    decreases |stack|
  {
    if stack == [] {
    } else {
      var f, rest := stack[0], stack[1..];
      forall id: ObjId | Busy(rest, id) ensures Undisturbed(heap, heap', id) { assert Busy(stack, id); }
      StackKeeps(heap, heap', p, rest);
      assert FrameOk(heap', p, f, rest) by {
        if f.Exec? && f.i < f.end { assert Pins(f, f.id) && Busy(stack, f.id) && f in stack; }
        if f.CloseNext? { assert Pins(f, f.id) && Busy(stack, f.id); }
      }
    }
  }

  // ------------------------------------------------------------------------------------------
  // The dispatch loop
  // ------------------------------------------------------------------------------------------

  /** The counter after `k` increments. */
  function Advance(x: ushort, k: nat): ushort {
    if k == 0 then x else PollHandler.Next(Advance(x, k - 1))
  }

  lemma {:induction false} AdvanceTurns(x: ushort, k: nat) returns (turns: nat)
    ensures x + k == Advance(x, k) + turns * SPAN
  {
    if k == 0 {
      turns := 0;
    } else {
      turns := AdvanceTurns(x, k - 1);
      if Advance(x, k - 1) == 0xFFFF { turns := turns + 1; }
    }
  }

  lemma UnchangedCounter(x: ushort, k: nat)
    requires k < SPAN
    ensures Advance(x, k) == x <==> k == 0
  {
    var turns := AdvanceTurns(x, k);
    SameAfterTurns(x, Advance(x, k), k, turns);
  }

  predicate DistinctPtrs(ptrs: seq<ObjId>) {
    forall i, j :: 0 <= i < j < |ptrs| ==> ptrs[i] != ptrs[j]
  }

  /** While the loop's counter value stands for no change, the table still has the shape the kernel reported on. */
  ghost predicate PollerOk(p: Poller, t: Table, nextId: ObjId) {
    var holds :=
      p.Polling? ==>
        && p.snap.Aligned() && DistinctPtrs(p.snap.ptrs)
        && (forall j :: 0 <= j < |p.snap.ptrs| ==> p.snap.ptrs[j] < nextId)
        && p.at <= t.changes && t.invalid == Advance(p.ref, t.changes - p.at)
        && p.i <= |p.snap.sockets|
        && (if p.phase == Head then p.at == t.changes else p.i < |p.snap.sockets|)
        && (p.at == t.changes ==> SameShape(p.snap, t));
    holds
  }

  /** Entry `j` was reported writeable and its writeable call is still to come. */
  predicate ToServe(p: Poller, j: nat) {
    && p.Polling?
    && j < |p.snap.sockets|
    && (p.i < j || (p.i == j && p.phase != AfterWrite))
    && POLLOUT in p.snap.sockets[j].revents
  }

  /** Sockets reported writeable and not yet served have something to flush. */
  ghost predicate Waiting(p: Poller, heap: Heap) {
    p.Polling? ==>
      forall j :: 0 <= j < |p.snap.ptrs| && ToServe(p, j) && p.snap.ptrs[j] in heap ==>
        heap[p.snap.ptrs[j]].out.queue != []
  }

  /** The changes one step makes to the table: none to its shape, or one counted add or delete. */
  ghost predicate TableStep(t: Table, u: Table) {
    || (SameShape(t, u) && u.invalid == t.invalid && u.changes == t.changes)
    || (u.invalid == PollHandler.Next(t.invalid) && u.changes == t.changes + 1)
  }

  lemma PollerKeeps(p: Poller, t: Table, u: Table, nextId: ObjId, nextId': ObjId)
    requires PollerOk(p, t, nextId) && TableStep(t, u) && nextId <= nextId'
    requires u.changes == t.changes || !p.Polling? || p.phase != Head
    ensures PollerOk(p, u, nextId')
  {
    if p.Polling? && u.changes == t.changes + 1 {
      assert u.changes - p.at - 1 == t.changes - p.at;
    }
  }

  // ------------------------------------------------------------------------------------------
  // Conversations
  // ------------------------------------------------------------------------------------------

  /** How far a server's client has come in the log. */
  datatype Life = Unknown | Talking | Gone | Broken

  function Lived(l: Life, e: Event, id: ObjId): Life {
    if e == Accepted(id) then (if l == Unknown then Talking else Broken)
    else if e == Received(id) then (if l == Talking then Talking else Broken)
    else if e == Disconnected(id) then (if l == Talking then Gone else Broken)
    else l
  }

  function LifeOf(log: seq<Event>, id: ObjId): Life {
    if log == [] then Unknown else Lived(LifeOf(log[..|log| - 1], id), log[|log| - 1], id)
  }

  lemma LifeAfter(log: seq<Event>, e: Event, id: ObjId)
    ensures LifeOf(log + [e], id) == Lived(LifeOf(log, id), e, id)
  {
    assert (log + [e])[..|log|] == log;
  }

  /** `closing` are the sockets whose CLOSED list is about to start. */
  ghost predicate Lives(log: seq<Event>, heap: Heap, nextId: ObjId, closing: set<ObjId>) {
    var holds :=
      && (forall id: ObjId :: nextId <= id ==> LifeOf(log, id) == Unknown)
      && (forall id: ObjId :: id !in heap ==> LifeOf(log, id) == Unknown || LifeOf(log, id) == Gone)
      && (forall id: ObjId :: id in heap ==>
            if !heap[id].owner.Clients? then LifeOf(log, id) == Unknown
            else if heap[id].Open() then LifeOf(log, id) == Talking
            else LifeOf(log, id) == if id in closing then Talking else Gone);
    holds
  }

  // ------------------------------------------------------------------------------------------
  // The invariant
  // ------------------------------------------------------------------------------------------

  ghost predicate Good(s: Sys, closing: set<ObjId>) {
    var holds := Valid(s.core) && Tracked(s, closing);
    holds
  }

  /** What the lists, the stack, the dispatch loop and the log add to the invariant of the state. */
  ghost predicate Tracked(s: Sys, closing: set<ObjId>) {
    var holds :=
      && Roles(s.core.heap)
      && StackOk(s.core.heap, s.poller, s.stack)
      && PollerOk(s.poller, s.core.table, s.core.nextId)
      && (s.stack != [] && s.poller.Polling? ==> s.poller.phase != Head)
      && Waiting(s.poller, s.core.heap)
      && Lives(s.core.log, s.core.heap, s.core.nextId, closing);
    holds
  }

  /** User code or a loop on top, or an execution under way. */
  ghost predicate Steady(s: Sys) {
    var holds :=
      Good(s, {}) && Begun(s.stack);
    holds
  }

  predicate JustStarted(s: Sys) {
    s.stack != [] && s.stack[0].Exec? && s.stack[0].i == 0
  }

  function ClosingOf(f: Frame): set<ObjId> {
    if f.Exec? && f.tag == CLOSED then {f.id} else {}
  }

  /** An execution about to look at its first callback. */
  ghost predicate Starting(s: Sys) {
    var holds :=
      && JustStarted(s)
      && Good(s, ClosingOf(s.stack[0]))
      && Begun(s.stack[1..])
      && (s.stack[0].tag in {READABLE, WRITEABLE, RECV} && s.stack[0].end > 0 ==> OpenIn(s.core.heap, s.stack[0].id))
      && (s.stack[0].tag == WRITEABLE && s.stack[0].end > 0 ==> s.core.heap[s.stack[0].id].out.queue != [])
      && (s.stack[0].tag == CLOSED ==> s.stack[0].end > 0);
    holds
  }

  ghost predicate Inv(s: Sys) {
    var holds :=
      Steady(s) || Starting(s);
    holds
  }
}
