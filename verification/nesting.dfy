/** The call stack of the machine: what runs on top does not look at what is below, and a loop of
    `socket_container::close` over a container with a socket that will not go never ends, in any run. */
module Nesting {
  import opened PollHandler
  import opened Core
  import opened Machine
  import opened Safety
  import Actions
  import Runs
  import SendQueue
  import Steps

  // ------------------------------------------------------------------------------------------
  // What is below does not matter
  // ------------------------------------------------------------------------------------------

  function Over(s: Sys, below: seq<Frame>): Sys {
    s.(stack := s.stack + below)
  }

  function OutOver(out: Outcome, below: seq<Frame>): Outcome {
    match out
    case Stepped(s) => Stepped(Over(s, below))
    case _ => out
  }

  lemma PushOver(s: Sys, f: Frame, below: seq<Frame>)
    ensures Over(s, below).Push(f) == Over(s.Push(f), below)
  {
    assert [f] + (s.stack + below) == ([f] + s.stack) + below;
  }

  lemma CloseOver(s: Sys, id: ObjId, below: seq<Frame>)
    requires s.core.Live(id) && s.core.table.Aligned()
    ensures CloseSocket(Over(s, below), id) == Over(CloseSocket(s, id), below)
  {
    if s.core.heap[id].Open() {
      var c := Shut(s.core, id);
      PushOver(s.On(c), Exec(id, CLOSED, 0, |c.heap[id].On(CLOSED)|), below);
    }
  }

  lemma ListenOver(s: Sys, server: nat, fd: int, stage: Stage, below: seq<Frame>)
    ensures Listen(Over(s, below), server, fd, stage) == Over(Listen(s, server, fd, stage), below)
  {
    PushOver(s, Hook, below);
    PushOver(s, RaiseError(Listeners(server)), below);
    PushOver(s, CloseNext(s.core.nextId), below);
    PushOver(s.Push(CloseNext(s.core.nextId)), RaiseError(Listeners(server)), below);
  }

  lemma ConnectOver(s: Sys, client: nat, fd: int, stage: Stage, below: seq<Frame>)
    ensures Connect(Over(s, below), client, fd, stage) == Over(Connect(s, client, fd, stage), below)
  {
    var error := RaiseError(Peers(client));
    PushOver(s, Hook, below);
    PushOver(s, error, below);
    PushOver(s, CloseNext(s.core.nextId), below);
    PushOver(s.Push(CloseNext(s.core.nextId)), error, below);
    PushOver(s.Push(error), CloseNext(s.core.nextId), below);
  }

  lemma AcceptOver(s: Sys, server: nat, fd: int, below: seq<Frame>)
    ensures AcceptClient(Over(s, below), server, fd) == OutOver(AcceptClient(s, server, fd), below)
  {
    PushOver(s, Hook, below);
    PushOver(s, RaiseError(Clients(server)), below);
  }

  lemma PushExecOver(s: Sys, id: ObjId, tag: Tag, below: seq<Frame>)
    requires s.core.Live(id)
    ensures PushExec(Over(s, below), id, tag) == Over(PushExec(s, id, tag), below)
  {
    PushOver(s, Exec(id, tag, 0, |s.core.heap[id].On(tag)|), below);
  }

  lemma SendOver(s: Sys, ch: Choice, below: seq<Frame>)
    requires ch.CallSend?
    ensures UserStep(Over(s, below), ch) == OutOver(UserStep(s, ch), below)
  {
    if s.core.Live(ch.id) && SendQueue.Answer(ch.sent, |ch.message|) {
      PushExecOver(s.On(Sent(s.core, ch.id, ch.message, ch.sent)), ch.id, ERROR, below);
    }
  }

  lemma DrainsOver(s: Sys, ch: Choice, below: seq<Frame>)
    requires ch.CallCloseServer? || ch.CallCloseClient?
    ensures UserStep(Over(s, below), ch) == OutOver(UserStep(s, ch), below)
  {
    if ch.CallCloseServer? {
      PushOver(s, Draining(Listeners(ch.server)), below);
      PushOver(s.Push(Draining(Listeners(ch.server))), Draining(Clients(ch.server)), below);
    } else {
      PushOver(s, Draining(Peers(ch.client)), below);
    }
  }

  lemma UserOver(s: Sys, ch: Choice, below: seq<Frame>)
    ensures UserStep(Over(s, below), ch) == OutOver(UserStep(s, ch), below)
  {
    match ch
    case CallListen(server, fd, stage) => ListenOver(s, server, fd, stage, below);
    case CallConnect(client, fd, stage) => ConnectOver(s, client, fd, stage, below);
    case CallSend(_, _, _) => SendOver(s, ch, below);
    case CallClose(id) => if s.core.Live(id) && s.core.table.Aligned() { CloseOver(s, id, below); }
    case CallCloseServer(_) => DrainsOver(s, ch, below);
    case CallCloseClient(_) => DrainsOver(s, ch, below);
    case _ =>
  }

  lemma FlushOver(s: Sys, id: ObjId, answer: int, below: seq<Frame>)
    requires s.core.Live(id) && s.core.table.Aligned()
    ensures Dispatched(Over(s, below), id, Flush, answer) == OutOver(Dispatched(s, id, Flush, answer), below)
  {
    var queue := s.core.heap[id].out.queue;
    if queue != [] && SendQueue.Answer(answer, |queue[0]|) {
      PushExecOver(s.On(Flushed(s.core, id, answer)), id, ERROR, below);
    }
  }

  lemma CallbackOver(s: Sys, id: ObjId, e: Core.Exec, answer: int, below: seq<Frame>)
    requires s.core.Live(id) && s.core.table.Aligned()
    ensures Dispatched(Over(s, below), id, e, answer) == OutOver(Dispatched(s, id, e, answer), below)
  {
    PushOver(s, Hook, below);
    match e
    case Accept(server) => AcceptOver(s, server, answer, below);
    case Recv =>
      PushExecOver(s, id, ERROR, below);
      PushExecOver(s, id, RECV, below);
      CloseOver(s, id, below);
    case Flush => FlushOver(s, id, answer, below);
    case _ =>
  }

  lemma TailOver(s: Sys, below: seq<Frame>)
    requires s.stack != []
    ensures (s.stack + below)[0] == s.stack[0] && (s.stack + below)[1..] == s.stack[1..] + below
  {
  }

  lemma ExecOver(s: Sys, id: ObjId, tag: Tag, i: nat, end: nat, answer: int, below: seq<Frame>)
    requires s.stack != []
    ensures ExecStep(Over(s, below), id, tag, i, end, answer) == OutOver(ExecStep(s, id, tag, i, end, answer), below)
  {
    var rest := s.stack[1..];
    TailOver(s, below);
    var onward := [Exec(id, tag, i + 1, end)] + rest;
    assert [Exec(id, tag, i + 1, end)] + (rest + below) == onward + below;
    if i < end && s.core.Live(id) && |s.core.heap[id].On(tag)| == end && s.core.table.Aligned() {
      var cb := s.core.heap[id].On(tag)[i];
      CallbackOver(s.(stack := if cb.Stops() then rest else onward), id, cb.exec, answer, below);
    }
  }

  lemma DrainOver(s: Sys, o: Owner, below: seq<Frame>)
    requires s.stack != []
    ensures DrainStep(Over(s, below), o) == OutOver(DrainStep(s, o), below)
  {
    TailOver(s, below);
    if s.core.KeysOf(o) != {} {
      var id := s.core.owned[Key(o, Least(s.core.KeysOf(o)))];
      if s.core.Live(id) && s.core.table.Aligned() { CloseOver(s, id, below); }
    }
  }

  lemma StepOver(s: Sys, ch: Choice, below: seq<Frame>)
    requires s.stack != []
    ensures Step(Over(s, below), ch) == OutOver(Step(s, ch), below)
  {
    TailOver(s, below);
    match s.stack[0]
    case Hook => UserOver(s, ch, below);
    case Exec(id, tag, i, end) => if ch.Go? { ExecOver(s, id, tag, i, end, ch.answer, below); }
    case Draining(o) => DrainOver(s, o, below);
    case CloseNext(id) =>
      if s.core.Live(id) && s.core.table.Aligned() { CloseOver(s.(stack := s.stack[1..]), id, below); }
    case RaiseError(o) =>
      assert [Hook] + (s.stack[1..] + below) == ([Hook] + s.stack[1..]) + below;
  }

  // ------------------------------------------------------------------------------------------
  // A socket that will not go
  // ------------------------------------------------------------------------------------------

  /** A closed socket of the container that is still there, and whose CLOSED list nothing on the stack is executing. */
  ghost predicate Left(s: Sys, z: ObjId, o: Owner) {
    var left := s.core.Live(z) && !s.core.heap[z].Open() && s.core.heap[z].owner == o && NotClosing(s.stack, z);
    left
  }

  predicate NotClosing(stack: seq<Frame>, z: ObjId) {
    forall f :: f in stack ==> !(f.Exec? && f.id == z && f.tag == CLOSED)
  }

  /** The socket stays as it is and no execution of its CLOSED list begins. */
  ghost predicate Leaves(z: ObjId, o: Owner, out: Outcome) {
    out.Stepped? ==> Left(out.sys, z, o)
  }

  lemma PushLeaves(s: Sys, f: Frame, z: ObjId, o: Owner)
    requires Left(s, z, o) && !(f.Exec? && f.id == z && f.tag == CLOSED)
    ensures Left(s.Push(f), z, o)
  {
  }

  /** The state changed elsewhere only. */
  lemma ElsewhereLeaves(s: Sys, c: State, z: ObjId, o: Owner)
    requires Left(s, z, o) && c.Live(z) && !c.heap[z].Open() && c.heap[z].owner == s.core.heap[z].owner
    ensures Left(s.On(c), z, o)
  {
  }

  lemma CloseLeaves(s: Sys, id: ObjId, z: ObjId, o: Owner)
    requires Left(s, z, o) && s.core.Live(id) && s.core.table.Aligned()
    ensures Left(CloseSocket(s, id), z, o)
  {
    if s.core.heap[id].Open() {
      var c := Shut(s.core, id);
      ElsewhereLeaves(s, c, z, o);
      PushLeaves(s.On(c), Exec(id, CLOSED, 0, |c.heap[id].On(CLOSED)|), z, o);
    }
  }

  lemma ExecLeaves(s: Sys, id: ObjId, tag: Tag, z: ObjId, o: Owner)
    requires Left(s, z, o) && s.core.Live(id) && tag != CLOSED
    ensures Left(PushExec(s, id, tag), z, o)
  {
    PushLeaves(s, Exec(id, tag, 0, |s.core.heap[id].On(tag)|), z, o);
  }

  lemma NewIsOther(s: Sys, z: ObjId, o: Owner)
    requires Left(s, z, o) && Valid(s.core)
    ensures z != s.core.nextId
  {
  }

  lemma ListenLeaves(s: Sys, server: nat, fd: int, stage: Stage, z: ObjId, o: Owner)
    requires Left(s, z, o) && Valid(s.core)
    ensures Left(Listen(s, server, fd, stage), z, o)
  {
    NewIsOther(s, z, o);
    var c := Listen(s, server, fd, stage).core;
    ElsewhereLeaves(s, c, z, o);
    PushLeaves(s.On(c), Hook, z, o);
    PushLeaves(s.On(c), RaiseError(Listeners(server)), z, o);
    PushLeaves(s.On(c), CloseNext(s.core.nextId), z, o);
    PushLeaves(s.On(c).Push(CloseNext(s.core.nextId)), RaiseError(Listeners(server)), z, o);
  }

  lemma ConnectLeaves(s: Sys, client: nat, fd: int, stage: Stage, z: ObjId, o: Owner)
    requires Left(s, z, o) && Valid(s.core)
    ensures Left(Connect(s, client, fd, stage), z, o)
  {
    NewIsOther(s, z, o);
    var c := Connect(s, client, fd, stage).core;
    ElsewhereLeaves(s, c, z, o);
    var error := RaiseError(Peers(client));
    PushLeaves(s.On(c), Hook, z, o);
    PushLeaves(s.On(c), error, z, o);
    PushLeaves(s.On(c), CloseNext(s.core.nextId), z, o);
    PushLeaves(s.On(c).Push(CloseNext(s.core.nextId)), error, z, o);
    PushLeaves(s.On(c).Push(error), CloseNext(s.core.nextId), z, o);
  }

  lemma AcceptLeaves(s: Sys, server: nat, fd: int, z: ObjId, o: Owner)
    requires Left(s, z, o) && Valid(s.core)
    ensures Leaves(z, o, AcceptClient(s, server, fd))
  {
    NewIsOther(s, z, o);
    if AcceptClient(s, server, fd).Stepped? {
      var c := AcceptClient(s, server, fd).sys.core;
      ElsewhereLeaves(s, c, z, o);
      PushLeaves(s.On(c), Hook, z, o);
      PushLeaves(s.On(c), RaiseError(Clients(server)), z, o);
    }
  }

  lemma SendLeaves(s: Sys, ch: Choice, z: ObjId, o: Owner)
    requires Left(s, z, o) && ch.CallSend?
    ensures Leaves(z, o, UserStep(s, ch))
  {
    if s.core.Live(ch.id) && SendQueue.Answer(ch.sent, |ch.message|) {
      var c := Sent(s.core, ch.id, ch.message, ch.sent);
      ElsewhereLeaves(s, c, z, o);
      ExecLeaves(s.On(c), ch.id, ERROR, z, o);
    }
  }

  lemma DrainsLeave(s: Sys, ch: Choice, z: ObjId, o: Owner)
    requires Left(s, z, o) && (ch.CallCloseServer? || ch.CallCloseClient?)
    ensures Leaves(z, o, UserStep(s, ch))
  {
    if ch.CallCloseServer? {
      PushLeaves(s, Draining(Listeners(ch.server)), z, o);
      PushLeaves(s.Push(Draining(Listeners(ch.server))), Draining(Clients(ch.server)), z, o);
    } else {
      PushLeaves(s, Draining(Peers(ch.client)), z, o);
    }
  }

  lemma UserLeaves(s: Sys, ch: Choice, z: ObjId, o: Owner)
    requires Left(s, z, o) && Valid(s.core)
    ensures Leaves(z, o, UserStep(s, ch))
  {
    match ch
    case CallListen(server, fd, stage) => ListenLeaves(s, server, fd, stage, z, o);
    case CallConnect(client, fd, stage) => ConnectLeaves(s, client, fd, stage, z, o);
    case CallSend(_, _, _) => SendLeaves(s, ch, z, o);
    case CallClose(id) => if s.core.Live(id) && s.core.table.Aligned() { CloseLeaves(s, id, z, o); }
    case CallCloseServer(_) => DrainsLeave(s, ch, z, o);
    case CallCloseClient(_) => DrainsLeave(s, ch, z, o);
    case CallOn(id, tag, flags) =>
      if s.core.Live(id) { ElsewhereLeaves(s, RegisteredOn(s.core, id, tag, Actions.Callback(User, flags)), z, o); }
    case _ =>
  }

  lemma FlushLeaves(s: Sys, id: ObjId, answer: int, z: ObjId, o: Owner)
    requires Left(s, z, o) && s.core.Live(id) && s.core.table.Aligned()
    ensures Leaves(z, o, Dispatched(s, id, Flush, answer))
  {
    var queue := s.core.heap[id].out.queue;
    if queue != [] && SendQueue.Answer(answer, |queue[0]|) {
      var c := Flushed(s.core, id, answer);
      ElsewhereLeaves(s, c, z, o);
      ExecLeaves(s.On(c), id, ERROR, z, o);
    }
  }

  lemma RaiseLeaves(s: Sys, e: Event, z: ObjId, o: Owner)
    requires Left(s, z, o)
    ensures Left(s.On(Logged(s.core, e)).Push(Hook), z, o)
  {
    ElsewhereLeaves(s, Logged(s.core, e), z, o);
    PushLeaves(s.On(Logged(s.core, e)), Hook, z, o);
  }

  lemma CallbackLeaves(s: Sys, id: ObjId, e: Core.Exec, answer: int, z: ObjId, o: Owner)
    requires Left(s, z, o) && Valid(s.core) && s.core.Live(id) && s.core.table.Aligned() && !e.Erase?
    ensures Leaves(z, o, Dispatched(s, id, e, answer))
  {
    match e
    case Accept(server) => AcceptLeaves(s, server, answer, z, o);
    case Recv =>
      ExecLeaves(s, id, ERROR, z, o);
      ExecLeaves(s, id, RECV, z, o);
      CloseLeaves(s, id, z, o);
    case Flush => FlushLeaves(s, id, answer, z, o);
    case RaiseClosed => RaiseLeaves(s, Closed(id), z, o);
    case RaiseDisconnect => RaiseLeaves(s, Disconnected(id), z, o);
    case RaiseReceive => RaiseLeaves(s, Received(id), z, o);
    case RaisePeerReceive => RaiseLeaves(s, PeerReceived(id), z, o);
    case User => PushLeaves(s, Hook, z, o);
  }

  /** Only the CLOSED list of a socket erases it. */
  lemma ErasesItself(c: State, id: ObjId, tag: Tag, i: nat)
    requires Valid(c) && c.Live(id) && i < |c.heap[id].On(tag)| && c.heap[id].On(tag)[i].exec.Erase?
    ensures tag == CLOSED
    ensures var e := c.heap[id].On(tag)[i].exec;
            Key(e.owner, e.key) in c.owned && c.owned[Key(e.owner, e.key)] == id
  {
    EraseOnlyOnClosed(c.heap[id], tag, i);
  }

  lemma EraseOnlyOnClosed(sock: Sock, tag: Tag, i: nat)
    requires EraseIsLast(sock) && i < |sock.On(tag)| && sock.On(tag)[i].exec.Erase?
    ensures tag == CLOSED && sock.On(tag)[i] == EraseCallback(sock.owner, sock.key)
  {
    assert sock.On(tag)[i] in sock.On(tag);
  }

  lemma ExecStepLeaves(s: Sys, id: ObjId, tag: Tag, i: nat, end: nat, answer: int, z: ObjId, o: Owner)
    requires Left(s, z, o) && Valid(s.core) && s.stack != [] && s.stack[0] == Exec(id, tag, i, end)
    ensures Leaves(z, o, ExecStep(s, id, tag, i, end, answer))
  {
    var rest := s.stack[1..];
    if i < end && s.core.Live(id) && |s.core.heap[id].On(tag)| == end && s.core.table.Aligned() {
      var cb := s.core.heap[id].On(tag)[i];
      var under := s.(stack := if cb.Stops() then rest else [Exec(id, tag, i + 1, end)] + rest);
      UnderLeaves(s, id, tag, i, end, under, z, o);
      if cb.exec.Erase? {
        ErasesItself(s.core, id, tag, i);
        ElsewhereLeaves(under, Erased(s.core, cb.exec.owner, cb.exec.key), z, o);
      } else {
        CallbackLeaves(under, id, cb.exec, answer, z, o);
      }
    }
  }

  lemma UnderLeaves(s: Sys, id: ObjId, tag: Tag, i: nat, end: nat, u: Sys, z: ObjId, o: Owner)
    requires Left(s, z, o) && s.stack != [] && s.stack[0] == Exec(id, tag, i, end) && u.core == s.core
    requires u.stack == s.stack[1..] || u.stack == [Exec(id, tag, i + 1, end)] + s.stack[1..]
    ensures Left(u, z, o)
    ensures tag == CLOSED ==> id != z
  {
    assert s.stack[0] in s.stack;
  }

  lemma DrainLeaves(s: Sys, d: Owner, z: ObjId, o: Owner)
    requires Left(s, z, o) && s.stack != []
    ensures Leaves(z, o, DrainStep(s, d))
  {
    if s.core.KeysOf(d) != {} {
      var id := s.core.owned[Key(d, Least(s.core.KeysOf(d)))];
      if s.core.Live(id) && s.core.table.Aligned() { CloseLeaves(s, id, z, o); }
    }
  }

  lemma PopLeaves(s: Sys, z: ObjId, o: Owner)
    requires Left(s, z, o) && s.stack != []
    ensures Left(s.(stack := s.stack[1..]), z, o)
  {
  }

  lemma NextLeaves(s: Sys, id: ObjId, ch: Choice, z: ObjId, o: Owner)
    requires Left(s, z, o) && s.stack != [] && s.stack[0] == CloseNext(id)
    ensures Leaves(z, o, Step(s, ch))
  {
    if s.core.Live(id) && s.core.table.Aligned() {
      PopLeaves(s, z, o);
      CloseLeaves(s.(stack := s.stack[1..]), id, z, o);
    }
  }

  lemma ErrorLeaves(s: Sys, ch: Choice, z: ObjId, o: Owner)
    requires Left(s, z, o) && s.stack != [] && s.stack[0].RaiseError?
    ensures Leaves(z, o, Step(s, ch))
  {
    PopLeaves(s, z, o);
    var c := Logged(s.core, Failed(s.stack[0].owner));
    ElsewhereLeaves(s.(stack := s.stack[1..]), c, z, o);
    PushLeaves(s.(stack := s.stack[1..]).On(c), Hook, z, o);
  }

  lemma HookLeaves(s: Sys, ch: Choice, z: ObjId, o: Owner)
    requires Left(s, z, o) && Valid(s.core) && s.stack != [] && s.stack[0].Hook?
    ensures Leaves(z, o, Step(s, ch))
  {
    PopLeaves(s, z, o);
    UserLeaves(s, ch, z, o);
  }

  lemma StepLeaves(s: Sys, ch: Choice, z: ObjId, o: Owner)
    requires Left(s, z, o) && Valid(s.core) && s.stack != []
    ensures Leaves(z, o, Step(s, ch))
  {
    match s.stack[0]
    case Hook => HookLeaves(s, ch, z, o);
    case Exec(id, tag, i, end) => if ch.Go? { ExecStepLeaves(s, id, tag, i, end, ch.answer, z, o); }
    case Draining(d) => DrainLeaves(s, d, z, o);
    case CloseNext(id) => NextLeaves(s, id, ch, z, o);
    case RaiseError(_) => ErrorLeaves(s, ch, z, o);
  }

  // ------------------------------------------------------------------------------------------
  // Loops that never end
  // ------------------------------------------------------------------------------------------

  /** On top of a loop over `o`. */
  function OnLoop(s: Sys, o: Owner, below: seq<Frame>): Sys {
    Over(s, [Draining(o)] + below)
  }

  /** The loop itself: a turn that does not end it. */
  lemma TurnGoesOn(s: Sys, o: Owner, below: seq<Frame>, ch: Choice, z: ObjId) returns (u: Sys)
    requires s.stack == [] && Left(s, z, o) && Valid(s.core) && Step(OnLoop(s, o, below), ch).Stepped?
    ensures Step(OnLoop(s, o, below), ch) == Stepped(OnLoop(u, o, below)) && Left(u, z, o)
  {
    var at := Sys(s.core, [], s.poller);
    KeyThere(s.core, z, o);
    var id := s.core.owned[Key(o, Least(s.core.KeysOf(o)))];
    assert OnLoop(s, o, below).stack == [Draining(o)] + below;
    CloseOver(at, id, [Draining(o)] + below);
    CloseLeaves(at, id, z, o);
    u := CloseSocket(at, id);
  }

  lemma KeyThere(c: State, z: ObjId, o: Owner)
    requires Valid(c) && c.Live(z) && c.heap[z].owner == o
    ensures c.KeysOf(o) != {} && c.table.Aligned()
    ensures Key(o, Least(c.KeysOf(o))) in c.owned && c.Live(c.owned[Key(o, Least(c.KeysOf(o)))])
  {
    assert Key(o, c.heap[z].key) in c.owned;
    assert c.heap[z].key in c.KeysOf(o);
    TableWellFormed(c);
  }

  lemma StepOnLoop(s: Sys, o: Owner, below: seq<Frame>, ch: Choice, z: ObjId) returns (u: Sys)
    requires Left(s, z, o) && Valid(s.core) && Step(OnLoop(s, o, below), ch).Stepped?
    ensures Step(OnLoop(s, o, below), ch) == Stepped(OnLoop(u, o, below)) && Left(u, z, o)
  {
    if s.stack == [] {
      u := TurnGoesOn(s, o, below, ch, z);
    } else {
      StepOver(s, ch, [Draining(o)] + below);
      StepLeaves(s, ch, z, o);
      u := Step(s, ch).sys;
    }
  }

  /** In no run does a loop of `socket_container::close` end over a container with a closed socket that is still
      there and whose CLOSED list nothing above the loop is executing. */
  lemma {:induction false} LoopNeverEnds(s: Sys, o: Owner, below: seq<Frame>, z: ObjId, choices: seq<Choice>)
    returns (u: Sys)
    requires Left(s, z, o) && Inv(OnLoop(s, o, below)) && WithinCounter(OnLoop(s, o, below))
    requires IsRun(OnLoop(s, o, below), choices) && EndOf(OnLoop(s, o, below), choices).Stepped?
    ensures EndOf(OnLoop(s, o, below), choices) == Stepped(OnLoop(u, o, below)) && Left(u, z, o)
    decreases choices
  {
    if choices == [] {
      u := s;
    } else {
      InvIsValid(OnLoop(s, o, below));
      var m := StepOnLoop(s, o, below, choices[0], z);
      StepInv(OnLoop(s, o, below), choices[0], OnLoop(m, o, below));
      u := LoopNeverEnds(m, o, below, z, choices[1..]);
    }
  }

  lemma InvIsValid(s: Sys)
    requires Inv(s)
    ensures Valid(s.core)
  {
    assert Good(s, {}) || Good(s, ClosingOf(s.stack[0]));
  }

  lemma StepInv(s: Sys, ch: Choice, u: Sys)
    requires Inv(s) && WithinCounter(s) && Allowed(s, ch) && Step(s, ch) == Stepped(u)
    ensures Inv(u)
  {
    Steps.StepKeeps(s, ch);
  }

  /** A server closed from inside the DISCONNECT callback of one of its clients: in no run does that call return. */
  lemma ServerCloseNeverReturns(s: Sys, server: nat, z: ObjId, choices: seq<Choice>)
    requires Runs.Reachable(s) && s.stack != [] && s.stack[0].Hook? && UserMay(s, CallCloseServer(server))
    requires s.core.Live(z) && !s.core.heap[z].Open() && s.core.heap[z].owner == Clients(server)
    ensures var called := UserStep(s, CallCloseServer(server));
            && called.Stepped?
            && (IsRun(called.sys, choices) && EndOf(called.sys, choices).Stepped? ==>
                  |EndOf(called.sys, choices).sys.stack| > |s.stack|)
  {
    var below := [Draining(Listeners(server))] + s.stack;
    var top := Sys(s.core, [], s.poller);
    Runs.ReachableHolds(s);
    ServerCloseIs(s, server);
    StepInv(s, CallCloseServer(server), OnLoop(top, Clients(server), below));
    if IsRun(OnLoop(top, Clients(server), below), choices) &&
      EndOf(OnLoop(top, Clients(server), below), choices).Stepped? {
      var u := LoopNeverEnds(top, Clients(server), below, z, choices);
    }
  }

  lemma ServerCloseIs(s: Sys, server: nat)
    ensures UserStep(s, CallCloseServer(server)) ==
            Stepped(OnLoop(Sys(s.core, [], s.poller), Clients(server), [Draining(Listeners(server))] + s.stack))
  {
    assert [Draining(Clients(server))] + ([Draining(Listeners(server))] + s.stack) ==
           [] + ([Draining(Clients(server))] + ([Draining(Listeners(server))] + s.stack));
  }

  // ------------------------------------------------------------------------------------------
  // What such a loop hides
  // ------------------------------------------------------------------------------------------

  /** What is on top of the loop after a step. */
  function TopStep(s: Sys, o: Owner, ch: Choice): Outcome {
    if s.stack != [] then Step(s, ch)
    else if !ch.Go? then Ignored
    else if s.core.KeysOf(o) == {} then Aborted
    else
      var k := Key(o, Least(s.core.KeysOf(o)));
      if k !in s.core.owned || !s.core.Live(s.core.owned[k]) || !s.core.table.Aligned() then Undefined
      else Stepped(CloseSocket(s, s.core.owned[k]))
  }

  lemma StepIsTop(s: Sys, o: Owner, below: seq<Frame>, ch: Choice, z: ObjId)
    requires Left(s, z, o) && Valid(s.core)
    ensures Step(OnLoop(s, o, below), ch) == OutOver(TopStep(s, o, ch), [Draining(o)] + below)
    ensures Leaves(z, o, TopStep(s, o, ch))
  {
    if s.stack == [] {
      TurnIsTop(s, o, below, ch, z);
    } else {
      StepOver(s, ch, [Draining(o)] + below);
      StepLeaves(s, ch, z, o);
    }
  }

  lemma TurnIsTop(s: Sys, o: Owner, below: seq<Frame>, ch: Choice, z: ObjId)
    requires s.stack == [] && Left(s, z, o) && Valid(s.core)
    ensures Step(OnLoop(s, o, below), ch) == OutOver(TopStep(s, o, ch), [Draining(o)] + below)
    ensures Leaves(z, o, TopStep(s, o, ch))
  {
    KeyThere(s.core, z, o);
    var id := s.core.owned[Key(o, Least(s.core.KeysOf(o)))];
    assert OnLoop(s, o, below).stack == [Draining(o)] + below;
    CloseOver(s, id, [Draining(o)] + below);
    CloseLeaves(s, id, z, o);
  }

  lemma {:induction false} BusyOver(stack: seq<Frame>, below: seq<Frame>, id: ObjId)
    requires Busy(stack, id)
    ensures Busy(stack + below, id)
  {
    if Pins(stack[0], id) {
    } else {
      BusyOver(stack[1..], below, id);
      assert (stack + below)[1..] == stack[1..] + below;
    }
  }

  lemma MayOver(s: Sys, below: seq<Frame>, ch: Choice)
    requires UserMay(Over(s, below), ch)
    ensures UserMay(s, ch)
  {
    forall id: ObjId | Busy(s.stack, id) ensures Busy(s.stack + below, id) { BusyOver(s.stack, below, id); }
  }

  /** What may be chosen may be chosen with less below. */
  lemma AllowedOver(s: Sys, below: seq<Frame>, ch: Choice)
    requires s.stack != [] && Allowed(Over(s, below), ch)
    ensures Allowed(s, ch)
  {
    if s.stack[0].Hook? { MayOver(s, below, ch); }
  }

  lemma LoopAlone(s: Sys, o: Owner, below: seq<Frame>)
    ensures OnLoop(s, o, []).stack != [] && Over(OnLoop(s, o, []), below) == OnLoop(s, o, below)
  {
    assert (s.stack + ([Draining(o)] + [])) + below == s.stack + ([Draining(o)] + below);
  }

  /** What is below a loop that does not end is never read, so nothing there can go wrong. */
  lemma {:induction false} LoopHides(s: Sys, o: Owner, below: seq<Frame>, z: ObjId, choices: seq<Choice>)
    requires Left(s, z, o) && Inv(OnLoop(s, o, [])) && WithinCounter(OnLoop(s, o, []))
    requires IsRun(OnLoop(s, o, below), choices)
    ensures !EndOf(OnLoop(s, o, below), choices).Undefined?
    decreases choices
  {
    if choices == [] {
    } else {
      LoopAlone(s, o, below);
      AllowedOver(OnLoop(s, o, []), below, choices[0]);
      InvIsValid(OnLoop(s, o, []));
      StepIsTop(s, o, below, choices[0], z);
      StepIsTop(s, o, [], choices[0], z);
      Steps.StepKeeps(OnLoop(s, o, []), choices[0]);
      var out := TopStep(s, o, choices[0]);
      if out.Stepped? { LoopHides(out.sys, o, below, z, choices[1..]); }
    }
  }

  lemma {:induction false} OkWithLess(heap: Heap, p: Poller, stack: seq<Frame>, f: Frame, below: seq<Frame>)
    requires StackOk(heap, p, stack + ([f] + below)) && f.Draining?
    ensures StackOk(heap, p, stack + ([f] + []))
  {
    var all, cut := stack + ([f] + below), stack + ([f] + []);
    if stack == [] {
      assert all == [f] + below && cut == [f];
    } else {
      assert all[1..] == stack[1..] + ([f] + below) && cut[1..] == stack[1..] + ([f] + []);
      OkWithLess(heap, p, stack[1..], f, below);
      FrameWithLess(heap, p, stack[0], cut[1..], below, all[1..]);
    }
  }

  lemma FrameWithLess(heap: Heap, p: Poller, f: Frame, rest: seq<Frame>, below: seq<Frame>, all: seq<Frame>)
    requires FrameOk(heap, p, f, all) && all == rest + below && rest != []
    ensures FrameOk(heap, p, f, rest)
  {
    forall id: ObjId | Busy(rest, id) ensures Busy(all, id) { BusyOver(rest, below, id); }
  }

  /** Without what is below the loop the invariant still holds. */
  lemma LoopCut(s: Sys, top: Sys, o: Owner, below: seq<Frame>)
    requires Inv(s) && s == OnLoop(top, o, below) && top.stack != [] && top.stack[0].Hook?
    ensures Inv(OnLoop(top, o, [])) && Good(OnLoop(top, o, []), {})
  {
    assert s.stack[0] == top.stack[0];
    Steps.SteadyUnlessExec(s);
    OkWithLess(s.core.heap, s.poller, top.stack, Draining(o), below);
    BegunWithLess(s.stack, OnLoop(top, o, []).stack);
    CutGood(s, OnLoop(top, o, []));
  }

  lemma BegunWithLess(stack: seq<Frame>, fewer: seq<Frame>)
    requires Begun(stack) && forall f :: f in fewer ==> f in stack
    ensures Begun(fewer)
  {
  }

  lemma CutGood(s: Sys, t: Sys)
    requires Good(s, {}) && t.core == s.core && t.poller == s.poller && s.stack != [] && t.stack != []
    requires StackOk(t.core.heap, t.poller, t.stack) && Begun(t.stack)
    ensures Good(t, {}) && Inv(t)
  {
    assert Tracked(t, {});
    assert Steady(t);
  }
}
