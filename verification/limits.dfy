/** Why the obligations of user code in `Machine.UserMay` are needed. When a callback closes a socket that an activation
    below it will read again, the library may read a destroyed object; when none will, it never does. */
module Limits {
  import opened PollHandler
  import opened Core
  import opened Machine
  import opened Closing
  import opened Quiet
  import opened Reaching
  import opened Reentry
  import Actions
  import EngineFacts
  import Histories
  import Nesting
  import Runs
  import Safety
  import Steps

  // ------------------------------------------------------------------------------------------
  // Activations that end by themselves
  // ------------------------------------------------------------------------------------------

  /** A callback that makes no system call. */
  predicate Gentle(e: Core.Exec) {
    !e.Accept? && !e.Recv? && !e.Flush?
  }

  predicate GentleFrom(list: seq<Callback>, i: nat) {
    forall j :: i <= j < |list| ==> Gentle(list[j].exec)
  }

  /** User code under way or about to be called, an execution with nothing but gentle callbacks left, or a
      `socket->close()` still to come. */
  predicate Mild(heap: Heap, f: Frame) {
    match f
    case Hook => true
    case Exec(id, tag, i, end) =>
      i < end && id in heap ==> |heap[id].On(tag)| == end && GentleFrom(heap[id].On(tag), i)
    case CloseNext(id) => id in heap ==> GentleFrom(heap[id].On(CLOSED), 0)
    case RaiseError(_) => true
    case Draining(_) => false
  }

  predicate AllMild(heap: Heap, stack: seq<Frame>) {
    forall f :: f in stack ==> Mild(heap, f)
  }

  /** Sockets of `heap'` were there in `heap`, with the same lists. */
  ghost predicate FewerSockets(heap: Heap, heap': Heap) {
    var fewer := forall id: ObjId :: id in heap' ==> id in heap && heap'[id].lists == heap[id].lists;
    fewer
  }

  lemma StaysMild(heap: Heap, heap': Heap, stack: seq<Frame>)
    requires AllMild(heap, stack) && FewerSockets(heap, heap')
    ensures AllMild(heap', stack)
  {
    forall f | f in stack ensures Mild(heap', f) {
      assert Mild(heap, f);
      if f.Exec? && f.id in heap' { SameOn(heap[f.id], heap'[f.id], f.tag); }
      if f.CloseNext? && f.id in heap' { SameOn(heap[f.id], heap'[f.id], CLOSED); }
    }
  }

  lemma SameOn(a: Sock, b: Sock, tag: Tag)
    requires a.lists == b.lists
    ensures a.On(tag) == b.On(tag)
  {
  }

  /** How many sockets are still to be closed. */
  function ToClose(stack: seq<Frame>): nat {
    if stack == [] then 0 else (if stack[0].CloseNext? then 1 else 0) + ToClose(stack[1..])
  }

  lemma ToClosePush(f: Frame, stack: seq<Frame>)
    ensures ToClose([f] + stack) == (if f.CloseNext? then 1 else 0) + ToClose(stack)
  {
    assert ([f] + stack)[1..] == stack;
  }

  lemma MildPush(heap: Heap, f: Frame, stack: seq<Frame>)
    requires AllMild(heap, stack) && Mild(heap, f)
    ensures AllMild(heap, [f] + stack)
  {
  }

  /** One callback of an execution on top, and the user code it calls. */
  lemma GentleReaches(c: State, f: Frame, rest: seq<Frame>, p: Poller) returns (u: State, stops: bool)
    requires f.Exec? && f.i < f.end && c.Live(f.id) && Mild(c.heap, f) && c.table.Aligned() && Room(c, p, 0)
    ensures Reaches(Sys(c, [f] + rest, p), Sys(u, if stops then rest else [f.(i := f.i + 1)] + rest, p))
    ensures u.table == c.table && FewerSockets(c.heap, u.heap)
  {
    var hook;
    u, hook, stops := GentleStep(c, f, rest, p);
    var under := if stops then rest else [f.(i := f.i + 1)] + rest;
    var next := if hook then [Hook] + under else under;
    OneReach(Sys(c, [f] + rest, p), Go(-1), Sys(u, next, p));
    if hook {
      HookReach(u, under, p);
      ReachesOn(Sys(c, [f] + rest, p), Sys(u, next, p), Sys(u, under, p));
    }
  }

  lemma GentleStep(c: State, f: Frame, rest: seq<Frame>, p: Poller) returns (u: State, hook: bool, stops: bool)
    requires f.Exec? && f.i < f.end && c.Live(f.id) && Mild(c.heap, f) && c.table.Aligned()
    ensures Allowed(Sys(c, [f] + rest, p), Go(-1))
    ensures var under := if stops then rest else [f.(i := f.i + 1)] + rest;
            Step(Sys(c, [f] + rest, p), Go(-1)) == Stepped(Sys(u, if hook then [Hook] + under else under, p))
    ensures u.table == c.table && FewerSockets(c.heap, u.heap)
  {
    var s, cb := Sys(c, [f] + rest, p), c.heap[f.id].On(f.tag)[f.i];
    assert s.stack[1..] == rest;
    stops, hook, u := cb.Stops(), !cb.Skipped() && !cb.exec.Erase?, c;
    if !cb.Skipped() {
      u := if cb.exec.Erase? then Erased(c, cb.exec.owner, cb.exec.key) else TellOf(c, f.id, cb.exec);
    }
  }

  /** The event a gentle callback raises. */
  function TellOf(c: State, id: ObjId, e: Core.Exec): State {
    match e
    case RaiseClosed => Logged(c, Closed(id))
    case RaiseDisconnect => Logged(c, Disconnected(id))
    case RaiseReceive => Logged(c, Received(id))
    case RaisePeerReceive => Logged(c, PeerReceived(id))
    case _ => c
  }

  lemma StillGentle(heap: Heap, f: Frame)
    requires f.Exec? && f.i < f.end && Mild(heap, f)
    ensures Mild(heap, f.(i := f.i + 1))
  {
  }

  lemma ExecOver(c: State, f: Frame, rest: seq<Frame>, p: Poller)
    requires f.Exec? && f.i >= f.end && Room(c, p, 0)
    ensures Reaches(Sys(c, [f] + rest, p), Sys(c, rest, p))
  {
    assert ([f] + rest)[1..] == rest;
    OneReach(Sys(c, [f] + rest, p), Go(-1), Sys(c, rest, p));
  }

  lemma PinnedReads(c: State, f: Frame, rest: seq<Frame>, p: Poller, id: ObjId)
    requires Pins(f, id) && !c.Live(id)
    ensures MayGoWrong(Sys(c, [f] + rest, p))
  {
    WrongNow(Sys(c, [f] + rest, p), Go(-1));
  }

  /** The `socket->close()` of a failed `listen` or `connect`. */
  lemma NextReaches(c: State, id: ObjId, rest: seq<Frame>, p: Poller)
    requires c.Live(id) && c.table.Aligned() && Room(c, p, 1)
    ensures !c.heap[id].Open() ==> Reaches(Sys(c, [CloseNext(id)] + rest, p), Sys(c, rest, p))
    ensures c.heap[id].Open() ==>
              Reaches(Sys(c, [CloseNext(id)] + rest, p),
                      Sys(Shut(c, id), [Exec(id, CLOSED, 0, |c.heap[id].On(CLOSED)|)] + rest, p))
  {
    var s := Sys(c, [CloseNext(id)] + rest, p);
    assert s.stack[1..] == rest;
    ShutCounts(c, id);
    SameOn(c.heap[id], Shut(c, id).heap[id], CLOSED);
    OneReach(s, Go(0), CloseSocket(Sys(c, rest, p), id));
  }

  lemma ShutMild(c: State, id: ObjId, rest: seq<Frame>)
    requires c.Live(id) && c.table.Aligned() && AllMild(c.heap, rest) && Mild(c.heap, CloseNext(id))
    ensures Shut(c, id).table.Aligned()
    ensures AllMild(Shut(c, id).heap, [Exec(id, CLOSED, 0, |c.heap[id].On(CLOSED)|)] + rest)
  {
    StaysMild(c.heap, Shut(c, id).heap, rest);
    SameOn(c.heap[id], Shut(c, id).heap[id], CLOSED);
    MildPush(Shut(c, id).heap, Exec(id, CLOSED, 0, |c.heap[id].On(CLOSED)|), rest);
  }

  function Remaining(stack: seq<Frame>): nat {
    if stack != [] && stack[0].Exec? && stack[0].i < stack[0].end then stack[0].end - stack[0].i
    else if stack != [] && stack[0].RaiseError? then 1
    else 0
  }

  lemma MildParts(heap: Heap, above: seq<Frame>)
    requires AllMild(heap, above) && above != []
    ensures Mild(heap, above[0]) && AllMild(heap, above[1..]) && above == [above[0]] + above[1..]
    ensures ToClose(above) == (if above[0].CloseNext? then 1 else 0) + ToClose(above[1..])
  {
  }

  lemma NextMild(c: State, u: State, g: Frame, rest: seq<Frame>, top: seq<Frame>)
    requires g.Exec? && g.i < g.end && Mild(c.heap, g) && AllMild(c.heap, rest) && FewerSockets(c.heap, u.heap)
    requires top == rest || top == [g.(i := g.i + 1)] + rest
    ensures AllMild(u.heap, top) && ToClose(top) == ToClose(rest)
  {
    StillGentle(c.heap, g);
    MildPush(c.heap, g.(i := g.i + 1), rest);
    StaysMild(c.heap, u.heap, top);
    ToClosePush(g.(i := g.i + 1), rest);
  }

  /** The stack is shorter, or has less to close, or less to run on top. */
  predicate Less(top: seq<Frame>, above: seq<Frame>) {
    || ToClose(top) < ToClose(above)
    || (ToClose(top) == ToClose(above) &&
        (|top| < |above| || (|top| == |above| && Remaining(top) < Remaining(above))))
  }

  /** What is on top came nearer to its end. */
  ghost predicate Nearer(c: State, above: seq<Frame>, u: State, top: seq<Frame>, p: Poller) {
    var holds :=
      && AllMild(u.heap, top) && u.table.Aligned() && Room(u, p, ToClose(top)) && FewerSockets(c.heap, u.heap)
      && Less(top, above);
    holds
  }

  lemma PopNearer(c: State, above: seq<Frame>, tail: seq<Frame>, p: Poller)
    requires above != [] && AllMild(c.heap, above) && c.table.Aligned() && Room(c, p, ToClose(above))
    requires above[0].Hook? || (above[0].Exec? && above[0].i >= above[0].end)
    ensures Reaches(Sys(c, above + tail, p), Sys(c, above[1..] + tail, p)) && Nearer(c, above, c, above[1..], p)
  {
    var g, rest := above[0], above[1..];
    MildParts(c.heap, above);
    StackSplit(c, above, tail, p);
    if g.Hook? { HookReach(c, rest + tail, p); } else { ExecOver(c, g, rest + tail, p); }
    PopLess(above);
  }

  lemma StackSplit(c: State, above: seq<Frame>, tail: seq<Frame>, p: Poller)
    requires above != []
    ensures Sys(c, above + tail, p) == Sys(c, [above[0]] + (above[1..] + tail), p)
  {
    assert above + tail == [above[0]] + (above[1..] + tail);
  }

  lemma PopLess(above: seq<Frame>)
    requires above != [] && !above[0].CloseNext?
    ensures Less(above[1..], above)
  {
  }

  lemma RunNearer(c: State, above: seq<Frame>, tail: seq<Frame>, p: Poller) returns (u: State, top: seq<Frame>)
    requires above != [] && AllMild(c.heap, above) && c.table.Aligned() && Room(c, p, ToClose(above))
    requires above[0].Exec? && above[0].i < above[0].end && c.Live(above[0].id)
    ensures Reaches(Sys(c, above + tail, p), Sys(u, top + tail, p)) && Nearer(c, above, u, top, p)
  {
    var g, rest := above[0], above[1..];
    MildParts(c.heap, above);
    StackSplit(c, above, tail, p);
    var stops;
    u, stops := GentleReaches(c, g, rest + tail, p);
    top := if stops then rest else [g.(i := g.i + 1)] + rest;
    NextMild(c, u, g, rest, top);
    RunLess(above, g.(i := g.i + 1), rest, top);
    TopOver(g.(i := g.i + 1), rest, tail);
  }

  lemma RunLess(above: seq<Frame>, next: Frame, rest: seq<Frame>, top: seq<Frame>)
    requires above != [] && rest == above[1..] && above[0].Exec? && above[0].i < above[0].end
    requires next == above[0].(i := above[0].i + 1) && (top == rest || top == [next] + rest)
    ensures Less(top, above)
  {
    ToClosePush(next, rest);
  }

  lemma TopOver(f: Frame, rest: seq<Frame>, tail: seq<Frame>)
    ensures ([f] + rest) + tail == [f] + (rest + tail)
  {
  }

  lemma CloseNearer(c: State, above: seq<Frame>, tail: seq<Frame>, p: Poller) returns (u: State, top: seq<Frame>)
    requires above != [] && AllMild(c.heap, above) && c.table.Aligned() && Room(c, p, ToClose(above))
    requires above[0].CloseNext? && c.Live(above[0].id)
    ensures Reaches(Sys(c, above + tail, p), Sys(u, top + tail, p)) && Nearer(c, above, u, top, p)
  {
    var id, rest := above[0].id, above[1..];
    MildParts(c.heap, above);
    assert above + tail == [CloseNext(id)] + (rest + tail);
    NextReaches(c, id, rest + tail, p);
    if c.heap[id].Open() {
      var exec := Exec(id, CLOSED, 0, |c.heap[id].On(CLOSED)|);
      u, top := Shut(c, id), [exec] + rest;
      ShutMild(c, id, rest);
      ShutCounts(c, id);
      ToClosePush(exec, rest);
      assert top + tail == [exec] + (rest + tail);
    } else {
      u, top := c, rest;
    }
  }

  /** The ERROR event of a `listen` or `connect` that failed: user code is called. */
  lemma ErrorNearer(c: State, above: seq<Frame>, tail: seq<Frame>, p: Poller) returns (u: State, top: seq<Frame>)
    requires above != [] && AllMild(c.heap, above) && c.table.Aligned() && Room(c, p, ToClose(above))
    requires above[0].RaiseError?
    ensures Reaches(Sys(c, above + tail, p), Sys(u, top + tail, p)) && Nearer(c, above, u, top, p)
  {
    var o, rest := above[0].owner, above[1..];
    MildParts(c.heap, above);
    StackSplit(c, above, tail, p);
    u, top := Logged(c, Failed(o)), [Hook] + rest;
    ErrorReaches(c, o, rest + tail, p);
    TopOver(Hook, rest, tail);
    MildPush(c.heap, Hook, rest);
    ToClosePush(Hook, rest);
  }

  /** Whatever is mild on top of an activation that reads a destroyed socket ends, or itself reads one before. */
  lemma {:induction false} Unwinds(c: State, above: seq<Frame>, f: Frame, below: seq<Frame>, p: Poller, id: ObjId)
    requires Pins(f, id) && !c.Live(id) && c.table.Aligned()
    requires AllMild(c.heap, above) && Room(c, p, ToClose(above))
    ensures MayGoWrong(Sys(c, above + ([f] + below), p))
    decreases ToClose(above), |above|, Remaining(above)
  {
    var tail, u, top := [f] + below, c, above;
    if above == [] {
      assert [] + tail == tail;
      PinnedReads(c, f, below, p, id);
      return;
    }
    MildParts(c.heap, above);
    if above[0].Hook? || (above[0].Exec? && above[0].i >= above[0].end) {
      top := above[1..];
      PopNearer(c, above, tail, p);
    } else if above[0].RaiseError? {
      u, top := ErrorNearer(c, above, tail, p);
    } else if !c.Live(above[0].id) {
      assert above + tail == [above[0]] + (above[1..] + tail);
      PinnedReads(c, above[0], above[1..] + tail, p, above[0].id);
      return;
    } else if above[0].Exec? {
      u, top := RunNearer(c, above, tail, p);
    } else {
      u, top := CloseNearer(c, above, tail, p);
    }
    Unwinds(u, top, f, below, p, id);
    WrongLater(Sys(c, above + tail, p), Sys(u, top + tail, p));
  }

  // ------------------------------------------------------------------------------------------
  // What a reachable stack looks like
  // ------------------------------------------------------------------------------------------

  /** What runs above the first activation that reads `id`, and the stack from there. */
  function AbovePin(stack: seq<Frame>, id: ObjId): seq<Frame>
    requires Busy(stack, id)
  {
    if Pins(stack[0], id) then [] else [stack[0]] + AbovePin(stack[1..], id)
  }

  function FromPin(stack: seq<Frame>, id: ObjId): (from: seq<Frame>)
    requires Busy(stack, id)
    ensures from != [] && Pins(from[0], id)
  {
    if Pins(stack[0], id) then stack else FromPin(stack[1..], id)
  }

  /** No loop of `socket_container::close` runs above the first activation that reads `id`. */
  predicate Straight(stack: seq<Frame>, id: ObjId) {
    Busy(stack, id) ==> forall f :: f in AbovePin(stack, id) ==> !f.Draining?
  }

  lemma {:induction false} PinSplits(stack: seq<Frame>, id: ObjId)
    requires Busy(stack, id)
    ensures stack == AbovePin(stack, id) + FromPin(stack, id)
    ensures forall f :: f in AbovePin(stack, id) ==> f in stack
    ensures ToClose(AbovePin(stack, id)) <= ToClose(stack)
  {
    if Pins(stack[0], id) {
    } else {
      PinSplits(stack[1..], id);
      assert stack == [stack[0]] + stack[1..];
      ToClosePush(stack[0], AbovePin(stack[1..], id));
    }
  }

  /** In a state with the invariant, every activation but a loop of `socket_container::close` ends by itself. */
  lemma FrameMild(heap: Heap, p: Poller, f: Frame, rest: seq<Frame>)
    requires Safety.FrameOk(heap, p, f, rest) && Safety.Roles(heap) && EraseLast(heap)
    requires (f.Exec? ==> f.i >= 1) && !f.Draining?
    ensures Mild(heap, f)
  {
    if f.Exec? && f.i < f.end {
      LaterGentle(heap[f.id], f.tag, f.i);
    } else if f.CloseNext? {
      ClosedGentle(heap[f.id]);
    }
  }

  lemma LaterGentle(sock: Sock, tag: Tag, i: nat)
    requires Safety.RoleOk(sock) && EraseIsLast(sock) && i >= 1
    ensures GentleFrom(sock.On(tag), i)
  {
    forall j | i <= j < |sock.On(tag)| ensures Gentle(sock.On(tag)[j].exec) { Safety.WhichCallback(sock, tag, j); }
  }

  lemma ClosedGentle(sock: Sock)
    requires Safety.RoleOk(sock) && EraseIsLast(sock)
    ensures GentleFrom(sock.On(CLOSED), 0)
  {
    forall j | 0 <= j < |sock.On(CLOSED)| ensures Gentle(sock.On(CLOSED)[j].exec) {
      Safety.WhichCallback(sock, CLOSED, j);
    }
  }

  lemma {:induction false} StackMild(heap: Heap, p: Poller, stack: seq<Frame>)
    requires Safety.StackOk(heap, p, stack) && Safety.Begun(stack) && Safety.Roles(heap) && EraseLast(heap)
    ensures forall f :: f in stack && !f.Draining? ==> Mild(heap, f)
  {
    if stack == [] {
    } else {
      assert forall f :: f in stack[1..] ==> f in stack;
      StackMild(heap, p, stack[1..]);
      if !stack[0].Draining? { FrameMild(heap, p, stack[0], stack[1..]); }
    }
  }

  lemma ReachableMild(s: Sys, id: ObjId)
    requires Runs.Reachable(s) && s.stack != [] && s.stack[0].Hook? && Busy(s.stack, id) && Straight(s.stack, id)
    ensures AllMild(s.core.heap, AbovePin(s.stack, id))
  {
    Runs.ReachableHolds(s);
    Steps.SteadyUnlessExec(s);
    SteadyParts(s);
    StackMild(s.core.heap, s.poller, s.stack);
    PinSplits(s.stack, id);
  }

  lemma SteadyParts(s: Sys)
    requires Safety.Steady(s)
    ensures Safety.StackOk(s.core.heap, s.poller, s.stack) && Safety.Begun(s.stack)
    ensures Safety.Roles(s.core.heap) && EraseLast(s.core.heap)
  {
  }

  // ------------------------------------------------------------------------------------------
  // When a close is safe
  // ------------------------------------------------------------------------------------------

  /** A callback closes a socket that an activation below it will read again: the rest of a callback list that is not
      at its end, or the `socket->close()` of a `listen` or `connect` that failed. */
  lemma CloseOfPinned(s: Sys, id: ObjId)
    requires Closable(s.core, id) && Busy(s.stack, id) && AllMild(s.core.heap, AbovePin(s.stack, id))
    requires Room(s.core, s.poller, 1 + ToClose(AbovePin(s.stack, id)))
    ensures s.core.OpenAt(id) && s.core.table.Aligned() && MayGoWrong(CloseSocket(s, id))
  {
    var u := CloseReaches(s, id);
    FewerWithout(s.core.heap, u.heap, {id});
    ReadsPinned(CloseSocket(s, id), s, u, id);
  }

  lemma FewerWithout(heap: Heap, heap': Heap, gone: set<ObjId>)
    requires heap' == heap - gone
    ensures FewerSockets(heap, heap')
  {
  }

  /** The call led to a state without the pinned socket. */
  lemma ReadsPinned(called: Sys, s: Sys, u: State, id: ObjId)
    requires Busy(s.stack, id) && AllMild(s.core.heap, AbovePin(s.stack, id)) && Reaches(called, s.On(u))
    requires !u.Live(id) && u.table.Aligned() && FewerSockets(s.core.heap, u.heap)
    requires Room(u, s.poller, ToClose(AbovePin(s.stack, id)))
    ensures MayGoWrong(called)
  {
    var above, from := AbovePin(s.stack, id), FromPin(s.stack, id);
    PinSplits(s.stack, id);
    StaysMild(s.core.heap, u.heap, above);
    Unwinds(u, above, from[0], from[1..], s.poller, id);
    assert from == [from[0]] + from[1..];
    WrongLater(called, s.On(u));
  }

  /** Where user code is called: in a callback, or between two passes of the dispatch loop. */
  predicate InUserCode(s: Sys) {
    if s.stack == [] then s.poller.Idle? else s.stack[0].Hook?
  }

  /** The condition on `close` in `Machine.UserMay` is the exact one, unless a loop of `socket_container::close` runs
      between the call and the first activation that reads the socket again. User code closes an open socket whose
      list is clean: some later run that keeps all obligations goes wrong exactly if an activation below reads the
      socket again. */
  lemma CloseIsSafeIff(s: Sys, id: ObjId)
    requires Runs.Reachable(s) && InUserCode(s) && s.core.OpenAt(id) && Clean(s.core.heap[id])
    requires Straight(s.stack, id) && Room(s.core, s.poller, 1 + ToClose(s.stack))
    ensures s.core.table.Aligned() && (MayGoWrong(CloseSocket(s, id)) <==> Busy(s.stack, id))
  {
    Histories.ReachableConsistent(s);
    AlignedAfter(s.core);
    if Busy(s.stack, id) {
      ConsistentClosable(s.core, id);
      ReachableMild(s, id);
      PinSplits(s.stack, id);
      CloseOfPinned(s, id);
    } else {
      CloseStaysDefined(s, id);
    }
  }

  lemma CloseStaysDefined(s: Sys, id: ObjId)
    requires Runs.Reachable(s) && InUserCode(s) && s.core.OpenAt(id) && s.core.table.Aligned()
    requires !Busy(s.stack, id) && Room(s.core, s.poller, 1)
    ensures !MayGoWrong(CloseSocket(s, id))
  {
    var called := CloseSocket(s, id);
    Runs.ReachableHolds(s);
    Steps.ClosesAre(s, CallClose(id));
    Nesting.StepInv(s, CallClose(id), called);
    ShutCounts(s.core, id);
    forall choices | IsRun(called, choices) ensures !EndOf(called, choices).Undefined? {
      Runs.RunKeeps(called, choices);
    }
  }

  /** With such a loop between them it is not: if the loop cannot end, because a socket `z` of its container is
      closed, still there and not being executed above it, then what is below is never read, whatever user code does. */
  lemma LoopShields(s: Sys, above: seq<Frame>, o: Owner, below: seq<Frame>, z: ObjId, id: ObjId)
    requires Runs.Reachable(s) && s.stack == above + ([Draining(o)] + below) && above != [] && above[0].Hook?
    requires s.core.Live(z) && !s.core.heap[z].Open() && s.core.heap[z].owner == o && Nesting.NotClosing(above, z)
    requires s.core.OpenAt(id) && !Busy(above, id) && Room(s.core, s.poller, 1)
    ensures s.core.table.Aligned() && !MayGoWrong(CloseSocket(s, id))
  {
    var top := Sys(s.core, above, s.poller);
    Histories.ReachableConsistent(s);
    AlignedAfter(s.core);
    var called := CloseSocket(top, id);
    Runs.ReachableHolds(s);
    Nesting.LoopCut(s, top, o, below);
    ClosesUnder(top, o, id);
    Nesting.CloseOver(top, id, [Draining(o)] + below);
    Nesting.CloseLeaves(top, id, z, o);
    ShutCounts(s.core, id);
    forall choices | IsRun(CloseSocket(s, id), choices) ensures !EndOf(CloseSocket(s, id), choices).Undefined? {
      Nesting.LoopHides(called, o, below, z, choices);
    }
  }

  /** Seen without what is below the loop, the call keeps the obligations. */
  lemma ClosesUnder(top: Sys, o: Owner, id: ObjId)
    requires Safety.Inv(Nesting.OnLoop(top, o, [])) && top.stack != [] && top.stack[0].Hook? && !Busy(top.stack, id)
    requires top.core.OpenAt(id) && top.core.table.Aligned() && Room(top.core, top.poller, 1)
    ensures Safety.Inv(Nesting.OnLoop(CloseSocket(top, id), o, []))
    ensures WithinCounter(Nesting.OnLoop(CloseSocket(top, id), o, []))
  {
    var cut := Nesting.OnLoop(top, o, []);
    NotBusyOver(top.stack, Draining(o), id);
    Nesting.CloseOver(top, id, [Draining(o)] + []);
    Steps.ClosesAre(cut, CallClose(id));
    assert cut.stack[0] == top.stack[0];
    Nesting.StepInv(cut, CallClose(id), CloseSocket(cut, id));
    ShutCounts(top.core, id);
  }

  lemma {:induction false} NotBusyOver(stack: seq<Frame>, f: Frame, id: ObjId)
    requires !Busy(stack, id) && f.Draining?
    ensures !Busy(stack + ([f] + []), id)
  {
    var all := stack + ([f] + []);
    if stack == [] {
      assert all == [f] && all[1..] == [];
    } else {
      NotBusyOver(stack[1..], f, id);
      assert all[1..] == stack[1..] + ([f] + []);
    }
  }

  /** A loop that can end hides nothing. It runs directly below the call, in the callback of its first socket, and every
      other socket of its container is open and clean: when it has ended, what is below reads the closed socket. */
  lemma LoopThatEnds(s: Sys, first: ObjId, o: Owner, rest: seq<Frame>, id: ObjId)
    requires Consistent(s.core) && s.core.OpenAt(id) && Clean(s.core.heap[id]) && id != first
    requires s.core.Live(first) && !s.core.heap[first].Open() && Clean(s.core.heap[first])
    requires Ready(s.core.heap - {first}, o)
    requires s.stack ==
             [Hook] + ([Exec(first, CLOSED, 1, |s.core.heap[first].On(CLOSED)|)] + ([Draining(o)] + rest))
    requires Busy(rest, id) && AllMild(s.core.heap, AbovePin(rest, id))
    requires Room(s.core, s.poller, 1 + |s.core.KeysOf(o)| + ToClose(AbovePin(rest, id)))
    ensures s.core.table.Aligned() && MayGoWrong(CloseSocket(s, id))
  {
    var c2 := ToTheLoop(s, first, o, rest, id);
    ReadyLess(s.core.heap, c2.heap, o, id, first);
    var u := DrainReaches(c2, o, rest, s.poller, |c2.KeysOf(o)|);
    ReachesOn(CloseSocket(s, id), Drainer(c2, o, rest, s.poller), Sys(u, rest, s.poller));
    AlignedAfter(u);
    DrainedFewer(s.core.heap, c2, o, u, id, first);
    ReadsPinned(CloseSocket(s, id), Sys(s.core, rest, s.poller), u, id);
  }

  /** From the call to the next turn of the loop. */
  lemma ToTheLoop(s: Sys, first: ObjId, o: Owner, rest: seq<Frame>, id: ObjId) returns (c2: State)
    requires Consistent(s.core) && s.core.OpenAt(id) && Clean(s.core.heap[id]) && id != first
    requires s.core.Live(first) && !s.core.heap[first].Open() && Clean(s.core.heap[first])
    requires s.stack ==
             [Hook] + ([Exec(first, CLOSED, 1, |s.core.heap[first].On(CLOSED)|)] + ([Draining(o)] + rest))
    requires Room(s.core, s.poller, 1)
    ensures s.core.table.Aligned() && Reaches(CloseSocket(s, id), Drainer(c2, o, rest, s.poller)) && Consistent(c2)
    ensures c2.heap == s.core.heap - {id} - {first} && c2.table.changes == s.core.table.changes + 1
    ensures |c2.KeysOf(o)| <= |s.core.KeysOf(o)|
  {
    var c1 := OtherGone(s, id, first);
    c2 := FirstEnds(c1, first, o, rest, s.poller);
    FewerKeys(s.core, c1, c2, id, first, o);
    ReachesOn(CloseSocket(s, id), s.On(c1), Drainer(c2, o, rest, s.poller));
  }

  /** `id` is closed and gone; `first` is still there as it was. */
  lemma OtherGone(s: Sys, id: ObjId, first: ObjId) returns (c: State)
    requires Consistent(s.core) && s.core.OpenAt(id) && Clean(s.core.heap[id]) && s.core.Live(first) && id != first
    requires Room(s.core, s.poller, 1)
    ensures s.core.table.Aligned() && Reaches(CloseSocket(s, id), s.On(c)) && Consistent(c)
    ensures c == ClosedQuietly(s.core, id) && c.heap == s.core.heap - {id}
    ensures c.table.changes == s.core.table.changes + 1
    ensures c.Live(first) && c.heap[first] == s.core.heap[first]
  {
    AlignedAfter(s.core);
    ConsistentClosable(s.core, id);
    c := CloseReaches(s, id);
    StillConsistent(s.core, id, c);
    StillAsItWas(s.core.heap, c.heap, id, first);
  }

  lemma StillConsistent(c: State, id: ObjId, u: State)
    requires Consistent(c) && c.OpenAt(id) && c.table.Aligned() && u == ClosedQuietly(c, id)
    ensures Consistent(u)
  {
    ClosedConsistent(c, id);
  }

  lemma StillAsItWas(heap: Heap, heap': Heap, id: ObjId, first: ObjId)
    requires heap' == heap - {id} && first in heap && first != id
    ensures first in heap' && heap'[first] == heap[first]
  {
  }

  /** The callback returns and the list of its socket ends. */
  lemma FirstEnds(c: State, first: ObjId, o: Owner, rest: seq<Frame>, p: Poller) returns (u: State)
    requires Consistent(c) && c.Live(first) && !c.heap[first].Open() && Clean(c.heap[first]) && Room(c, p, 0)
    ensures Consistent(u) && u.heap == c.heap - {first} && u.table == c.table
    ensures u.owned == c.owned - {Key(c.heap[first].owner, c.heap[first].key)}
    ensures Reaches(Sys(c, [Hook] + ([Exec(first, CLOSED, 1, |c.heap[first].On(CLOSED)|)] + ([Draining(o)] + rest)), p),
                    Drainer(u, o, rest, p))
  {
    var below := [Draining(o)] + rest;
    var at := At(c, first, 1, below, p);
    u := RestGone(c, first);
    var choices := ListIsRun(c, first, 1, below, p);
    assert RunsTo(at, choices, Sys(u, below, p));
    HookReach(c, at.stack, p);
    ReachesOn(Sys(c, [Hook] + at.stack, p), at, Sys(u, below, p));
  }

  lemma FewerKeys(c: State, c1: State, c2: State, id: ObjId, first: ObjId, o: Owner)
    requires Consistent(c) && c.OpenAt(id) && Clean(c.heap[id]) && c.table.Aligned() && c1 == ClosedQuietly(c, id)
    requires c2.owned.Keys <= c1.owned.Keys
    ensures |c2.KeysOf(o)| <= |c.KeysOf(o)|
  {
    ClosedCleanly(c, id);
    forall k | k in c2.KeysOf(o) ensures k in c.KeysOf(o) {
      assert Key(o, k) in c2.owned && Key(o, k) in c.owned;
    }
    Subset(c2.KeysOf(o), c.KeysOf(o));
  }

  lemma ReadyLess(heap: Heap, heap': Heap, o: Owner, id: ObjId, first: ObjId)
    requires Ready(heap - {first}, o) && heap' == heap - {id} - {first}
    ensures Ready(heap', o)
  {
    forall x: ObjId | x in heap' && heap'[x].owner == o ensures heap'[x].Open() && Clean(heap'[x]) {
      assert x in heap - {first} && (heap - {first})[x] == heap'[x];
    }
  }

  lemma DrainedFewer(heap: Heap, c: State, o: Owner, u: State, id: ObjId, first: ObjId)
    requires c.heap == heap - {id} - {first} && Drained(c, o, u)
    ensures FewerSockets(heap, u.heap) && !u.Live(id)
  {
  }

  // ------------------------------------------------------------------------------------------
  // Closing a whole server or client
  // ------------------------------------------------------------------------------------------

  /** A callback closes the server of a socket that an activation below it will read again. */
  lemma ServerCloseOfPinned(s: Sys, id: ObjId, server: nat)
    requires Consistent(s.core) && s.core.Live(id) && s.core.heap[id].owner in {Listeners(server), Clients(server)}
    requires Ready(s.core.heap, Clients(server)) && Ready(s.core.heap, Listeners(server))
    requires Busy(s.stack, id) && AllMild(s.core.heap, AbovePin(s.stack, id))
    requires Room(s.core, s.poller, |s.core.KeysOf(Clients(server))| + |s.core.KeysOf(Listeners(server))| +
                                    ToClose(AbovePin(s.stack, id)))
    ensures var called := UserStep(s, CallCloseServer(server)); called.Stepped? && MayGoWrong(called.sys)
  {
    var u := ServerCloseReaches(s, server);
    ServerTakes(s.core, server, u, id);
    AlignedAfter(u);
    ReadsPinned(UserStep(s, CallCloseServer(server)).sys, s, u, id);
  }

  lemma ServerTakes(c: State, server: nat, u: State, id: ObjId)
    requires ServerGone(c, server, u) && c.Live(id) && c.heap[id].owner in {Listeners(server), Clients(server)}
    ensures !u.Live(id) && FewerSockets(c.heap, u.heap)
  {
  }

  /** The same for the client of the socket. */
  lemma ClientCloseOfPinned(s: Sys, id: ObjId, client: nat)
    requires Consistent(s.core) && s.core.Live(id) && s.core.heap[id].owner == Peers(client)
    requires Ready(s.core.heap, Peers(client)) && Busy(s.stack, id) && AllMild(s.core.heap, AbovePin(s.stack, id))
    requires Room(s.core, s.poller, |s.core.KeysOf(Peers(client))| + ToClose(AbovePin(s.stack, id)))
    ensures var called := UserStep(s, CallCloseClient(client)); called.Stepped? && MayGoWrong(called.sys)
  {
    var u := ClientCloseReaches(s, client);
    DrainTakes(s.core, Peers(client), u, id);
    AlignedAfter(u);
    ReadsPinned(UserStep(s, CallCloseClient(client)).sys, s, u, id);
  }

  lemma DrainTakes(c: State, o: Owner, u: State, id: ObjId)
    requires Drained(c, o, u) && c.Live(id) && c.heap[id].owner == o
    ensures !u.Live(id) && FewerSockets(c.heap, u.heap)
  {
  }

  /** `listen` fails after its socket was inserted, and the ERROR callback closes the server: the `socket->close()` that
      follows calls an erased object. */
  lemma ErrorHookMustNotClose(s: Sys, server: nat, fd: int, stage: Stage) returns (hooked: Sys)
    requires Consistent(s.core) && fd >= 0 && fd !in s.core.kernel && Key(Listeners(server), fd) !in s.core.owned
    requires !stage.Succeeds? && Ready(s.core.heap, Clients(server)) && Ready(s.core.heap, Listeners(server))
    requires Room(s.core, s.poller, |s.core.KeysOf(Clients(server))| + |s.core.KeysOf(Listeners(server))| + 2)
    ensures Reaches(Listen(s, server, fd, stage), hooked) && hooked.stack != [] && hooked.stack[0].Hook?
    ensures hooked.core.log == s.core.log + [Failed(Listeners(server))]
    ensures var called := UserStep(hooked, CallCloseServer(server)); called.Stepped? && MayGoWrong(called.sys)
  {
    var id := s.core.nextId;
    var c := NewListener(s.core, server, fd);
    var failed := Listen(s, server, fd, stage);
    hooked := Sys(Logged(c, Failed(Listeners(server))), [Hook] + ([CloseNext(id)] + s.stack), s.poller);
    FailedListen(s, server, fd, stage, c, failed);
    ErrorReaches(c, Listeners(server), [CloseNext(id)] + s.stack, s.poller);
    JustBelow(c.heap, id, s.stack);
    LoggedConsistent(c, Failed(Listeners(server)));
    ServerCloseOfPinned(hooked, id, server);
  }

  lemma NewListener(s: State, server: nat, fd: int) returns (c: State)
    requires Consistent(s) && fd >= 0 && fd !in s.kernel && Key(Listeners(server), fd) !in s.owned
    requires Ready(s.heap, Clients(server)) && Ready(s.heap, Listeners(server))
    ensures c == ListenerActions(Inserted(Allocated(s, fd), Listeners(server), fd), s.nextId, server, false)
    ensures Consistent(c) && c.Live(s.nextId) && c.heap[s.nextId].owner == Listeners(server)
    ensures Ready(c.heap, Clients(server)) && Ready(c.heap, Listeners(server))
    ensures |c.KeysOf(Clients(server))| == |s.KeysOf(Clients(server))|
    ensures |c.KeysOf(Listeners(server))| == |s.KeysOf(Listeners(server))| + 1 && c.table.changes == s.table.changes + 1
  {
    c := ListenerActions(Inserted(Allocated(s, fd), Listeners(server), fd), s.nextId, server, false);
    EngineFacts.ListenerMade(s, server, fd, false);
    EngineFacts.OpenedFacts(s, Listeners(server), fd, c);
    ReadyWithNew(s, c, s.nextId, server);
    KeysWithNew(s, c, server, fd);
  }

  lemma JustBelow(heap: Heap, id: ObjId, rest: seq<Frame>)
    ensures var stack := [Hook] + ([CloseNext(id)] + rest);
            Busy(stack, id) && AllMild(heap, AbovePin(stack, id)) && ToClose(AbovePin(stack, id)) == 0
  {
    var stack := [Hook] + ([CloseNext(id)] + rest);
    assert stack[1..] == [CloseNext(id)] + rest;
    assert AbovePin(stack[1..], id) == [];
    assert AbovePin(stack, id) == [Hook];
  }

  lemma KeysWithNew(s: State, c: State, server: nat, fd: int)
    requires c.owned == s.owned[Key(Listeners(server), fd) := s.nextId] && Key(Listeners(server), fd) !in s.owned
    requires c.table == AddSocket(s.table, fd, s.nextId)
    ensures |c.KeysOf(Clients(server))| == |s.KeysOf(Clients(server))|
    ensures |c.KeysOf(Listeners(server))| == |s.KeysOf(Listeners(server))| + 1 && c.table.changes == s.table.changes + 1
  {
    assert c.KeysOf(Clients(server)) == s.KeysOf(Clients(server));
    assert c.KeysOf(Listeners(server)) == s.KeysOf(Listeners(server)) + {fd} && fd !in s.KeysOf(Listeners(server));
  }

  lemma ReadyWithNew(s: State, c: State, id: ObjId, server: nat)
    requires id in c.heap && c.heap == s.heap[id := c.heap[id]] && c.heap[id].Open() && Clean(c.heap[id])
    requires Ready(s.heap, Clients(server)) && Ready(s.heap, Listeners(server))
    ensures Ready(c.heap, Clients(server)) && Ready(c.heap, Listeners(server))
  {
  }

  lemma FailedListen(s: Sys, server: nat, fd: int, stage: Stage, c: State, failed: Sys)
    requires fd >= 0 && Key(Listeners(server), fd) !in s.core.owned && !stage.Succeeds?
    requires c == ListenerActions(Inserted(Allocated(s.core, fd), Listeners(server), fd), s.core.nextId, server, false)
    requires failed == Listen(s, server, fd, stage)
    ensures failed == Sys(c, [RaiseError(Listeners(server))] + ([CloseNext(s.core.nextId)] + s.stack), s.poller)
    ensures c.log == s.core.log
  {
  }

  // ------------------------------------------------------------------------------------------
  // Registering on a list that is executing
  // ------------------------------------------------------------------------------------------

  /** A callback registers one more on the list it was called from, which is not at its end: the range-for goes on
      over a vector that was inserted into. */
  lemma RegisterWhileExecuting(s: Sys, f: Frame, rest: seq<Frame>, flags: Actions.Flags)
    requires s.stack == [Hook] + ([f] + rest) && f.Exec? && f.i < f.end && WithinCounter(s)
    requires s.core.Live(f.id) && |s.core.heap[f.id].On(f.tag)| == f.end
    ensures var called := UserStep(s, CallOn(f.id, f.tag, flags)); called.Stepped? && MayGoWrong(called.sys)
  {
    var u := RegisteredOn(s.core, f.id, f.tag, Actions.Callback(User, flags));
    Steps.RegisterIs(s, CallOn(f.id, f.tag, flags));
    HookReach(u, [f] + rest, s.poller);
    ReadsLonger(u, f, rest, s.poller);
    WrongLater(s.On(u), Sys(u, [f] + rest, s.poller));
  }

  lemma ReadsLonger(u: State, f: Frame, rest: seq<Frame>, p: Poller)
    requires f.Exec? && f.i < f.end && u.Live(f.id) && |u.heap[f.id].On(f.tag)| != f.end
    ensures MayGoWrong(Sys(u, [f] + rest, p))
  {
    WrongNow(Sys(u, [f] + rest, p), Go(-1));
  }
}
