/** The whole library as a machine with an explicit call stack, driven by user code and the kernel. User code may do
    anything the library offers at any point where it is called, any number of times; the kernel may answer anything
    its contract permits. Object lifetime is explicit: a step that would read a destroyed object, or go on over
    vectors that were edited since the loop took its iterator, is Undefined. */
module Machine {
  import opened PollHandler
  import opened Core
  import Actions
  import Dispatch
  import SendQueue

  /** A pending activation. `Exec` is the range-for of `action::execute` about to look at callback `i` of `end`;
      `Draining` is the loop of `socket_container::close`; `CloseNext` is a `socket->close()` still to come in a
      `listen` or `connect` that failed, and `RaiseError` the `execute` of its ERROR event. Activations that read no
      object after a call returns leave no frame. */
  datatype Frame =
    | Hook
    | Exec(id: ObjId, tag: Tag, i: nat, end: nat)
    | Draining(owner: Owner)
    | CloseNext(id: ObjId)
    | RaiseError(owner: Owner)

  datatype Phase = Head | AfterRead | AfterWrite

  /** The dispatch loop: entry `i`, countdown `n`, the counter value taken for this entry and the number of changes at
      that moment, and the table as the kernel reported it. */
  datatype Poller =
    | Idle
    | Polling(i: nat, n: int, ref: ushort, at: nat, phase: Phase, snap: Table)

  datatype Sys = Sys(core: State, stack: seq<Frame>, poller: Poller)
  {
    function Push(f: Frame): Sys { this.(stack := [f] + stack) }
    function On(c: State): Sys { this.(core := c) }
  }

  datatype Outcome =
    | Stepped(sys: Sys)
    | Undefined
    | Aborted
    | Ignored

  /** How far a `listen` or `connect` gets once its socket exists. */
  datatype Stage = AddressFails | SetupFails | Succeeds

  datatype Choice =
    | Go(answer: int)
    | Return
    | CallPoll(reported: seq<Mask>)
    | CallListen(server: nat, fd: int, stage: Stage)
    | CallConnect(client: nat, fd: int, stage: Stage)
    | CallSend(id: ObjId, message: seq<SendQueue.byte>, sent: int)
    | CallClose(id: ObjId)
    | CallCloseServer(server: nat)
    | CallCloseClient(client: nat)
    | CallOn(id: ObjId, tag: Tag, flags: Actions.Flags)

  // ------------------------------------------------------------------------------------------
  // Steps
  // ------------------------------------------------------------------------------------------

  function PushExec(s: Sys, id: ObjId, tag: Tag): Sys
    requires s.core.Live(id)
  {
    s.Push(Exec(id, tag, 0, |s.core.heap[id].On(tag)|))
  }

  /** `socket::close`. */
  function CloseSocket(s: Sys, id: ObjId): Sys
    requires s.core.Live(id) && s.core.table.Aligned()
  {
    if !s.core.heap[id].Open() then s else PushExec(s.On(Shut(s.core, id)), id, CLOSED)
  }

  function ListenerActions(c: State, id: ObjId, server: nat, ready: bool): State
    requires c.Live(id)
  {
    var c1 := RegisteredOn(c, id, CLOSED, Plain(RaiseClosed));
    if ready then RegisteredOn(c1, id, READABLE, Plain(Accept(server))) else c1
  }

  function ClientActions(c: State, id: ObjId): State
    requires c.Live(id)
  {
    var c1 := RegisteredOn(c, id, READABLE, Plain(Recv));
    var c2 := RegisteredOn(c1, id, WRITEABLE, Plain(Flush));
    var c3 := RegisteredOn(c2, id, CLOSED, Plain(RaiseDisconnect));
    RegisteredOn(c3, id, RECV, Plain(RaiseReceive))
  }

  function PeerActions(c: State, id: ObjId, ready: bool): State
    requires c.Live(id)
  {
    var c1 := RegisteredOn(c, id, CLOSED, Plain(RaiseClosed));
    if !ready then c1
    else RegisteredOn(RegisteredOn(c1, id, READABLE, Plain(Recv)), id, RECV, Plain(RaisePeerReceive))
  }

  function Listen(s: Sys, server: nat, fd: int, stage: Stage): Sys {
    var o := Listeners(server);
    if fd < 0 then s.Push(RaiseError(o))
    else
      var c := Allocated(s.core, fd);
      if Key(o, fd) in c.owned then s.On(c).Push(RaiseError(o))
      else
        var id := c.nextId;
        var c1 := ListenerActions(Inserted(c, o, fd), id, server, stage == Succeeds);
        if stage == Succeeds then s.On(Logged(c1, Listening(id))).Push(Hook)
        else s.On(c1).Push(CloseNext(id)).Push(RaiseError(o))
  }

  function Connect(s: Sys, client: nat, fd: int, stage: Stage): Sys {
    var o := Peers(client);
    if fd < 0 then s.Push(RaiseError(o))
    else
      var c := Allocated(s.core, fd);
      if Key(o, fd) in c.owned then s.On(c).Push(RaiseError(o))
      else
        var id := c.nextId;
        var c1 := PeerActions(Inserted(c, o, fd), id, stage == Succeeds);
        match stage
        case Succeeds => s.On(Logged(c1, Connected(id))).Push(Hook)
        case AddressFails => s.On(c1).Push(CloseNext(id)).Push(RaiseError(o))
        case SetupFails => s.On(c1).Push(RaiseError(o)).Push(CloseNext(id))
  }

  /** `server_impl::accept` after the system call returned `fd`; `make_socket` asserts that it is positive. */
  function AcceptClient(s: Sys, server: nat, fd: int): Outcome {
    var o := Clients(server);
    if fd < 0 then Stepped(s.Push(RaiseError(o)))
    else if fd == 0 then Aborted
    else
      var c := Allocated(s.core, fd);
      if Key(o, fd) in c.owned then Stepped(s.On(c).Push(RaiseError(o)))
      else
        var id := c.nextId;
        Stepped(s.On(Logged(ClientActions(Inserted(c, o, fd), id), Accepted(id))).Push(Hook))
  }

  /** A call into the library from user code. */
  function UserStep(s: Sys, ch: Choice): Outcome {
    match ch
    case CallListen(server, fd, stage) => Stepped(Listen(s, server, fd, stage))
    case CallConnect(client, fd, stage) => Stepped(Connect(s, client, fd, stage))
    case CallSend(id, message, sent) =>
      if !s.core.Live(id) then Undefined
      else if !SendQueue.Answer(sent, |message|) then Ignored
      else
        var s1 := s.On(Sent(s.core, id, message, sent));
        Stepped(if sent < 0 then PushExec(s1, id, ERROR) else s1)
    case CallClose(id) =>
      if !s.core.Live(id) || !s.core.table.Aligned() then Undefined else Stepped(CloseSocket(s, id))
    case CallCloseServer(server) => Stepped(s.Push(Draining(Listeners(server))).Push(Draining(Clients(server))))
    case CallCloseClient(client) => Stepped(s.Push(Draining(Peers(client))))
    case CallOn(id, tag, flags) =>
      if !s.core.Live(id) then Undefined
      else Stepped(s.On(RegisteredOn(s.core, id, tag, Actions.Callback(User, flags))))
    case _ => Ignored
  }

  /** One callback of socket `id`; `answer` is the kernel's reply if the callback makes a system call. */
  function Dispatched(s: Sys, id: ObjId, e: Core.Exec, answer: int): Outcome
    requires s.core.Live(id) && s.core.table.Aligned()
  {
    match e
    case Erase(o, key) => Stepped(s.On(Erased(s.core, o, key)))
    case Accept(server) => if s.core.heap[id].Open() then AcceptClient(s, server, answer) else Aborted
    case Recv =>
      Stepped(if answer < 0 then PushExec(s, id, ERROR)
              else if answer == 0 then CloseSocket(s, id)
              else PushExec(s, id, RECV))
    case Flush =>
      var queue := s.core.heap[id].out.queue;
      if queue == [] then Stepped(s)
      else if !SendQueue.Answer(answer, |queue[0]|) then Ignored
      else
        var s1 := s.On(Flushed(s.core, id, answer));
        Stepped(if answer < 0 then PushExec(s1, id, ERROR) else s1)
    case RaiseClosed => Stepped(s.On(Logged(s.core, Closed(id))).Push(Hook))
    case RaiseDisconnect => Stepped(s.On(Logged(s.core, Disconnected(id))).Push(Hook))
    case RaiseReceive => Stepped(s.On(Logged(s.core, Received(id))).Push(Hook))
    case RaisePeerReceive => Stepped(s.On(Logged(s.core, PeerReceived(id))).Push(Hook))
    case User => Stepped(s.Push(Hook))
  }

  /** `action::execute`: the iterators are locals, so leaving at the end reads no object. */
  function ExecStep(s: Sys, id: ObjId, tag: Tag, i: nat, end: nat, answer: int): Outcome
    requires s.stack != []
  {
    var rest := s.stack[1..];
    if i >= end then Stepped(s.(stack := rest))
    else if !s.core.Live(id) || |s.core.heap[id].On(tag)| != end || !s.core.table.Aligned() then Undefined
    else
      var cb := s.core.heap[id].On(tag)[i];
      var onward := [Exec(id, tag, i + 1, end)] + rest;
      if cb.Skipped() then Stepped(s.(stack := onward))
      else Dispatched(s.(stack := if cb.Stops() then rest else onward), id, cb.exec, answer)
  }

  lemma Member<T>(keys: set<T>) returns (x: T)
    requires keys != {}
    ensures x in keys
  {
    x :| x in keys;
  }

  lemma {:induction false} LeastKey(keys: set<int>)
    requires keys != {}
    ensures exists k :: k in keys && forall j :: j in keys ==> k <= j
  {
    var x := Member(keys);
    var rest := keys - {x};
    if rest == {} {
      forall j | j in keys ensures x <= j {
        assert j == x || j in rest;
      }
    } else {
      LeastKey(rest);
      var y :| y in rest && forall j :: j in rest ==> y <= j;
      var k := if x <= y then x else y;
      forall j | j in keys ensures k <= j {
        assert j == x || j in rest;
      }
      assert k in keys;
    }
  }

  /** `sockets.begin()->first`. */
  function Least(keys: set<int>): (k: int)
    requires keys != {}
    ensures k in keys && forall j :: j in keys ==> k <= j
  {
    LeastKey(keys);
    var k :| k in keys && forall j :: j in keys ==> k <= j;
    k
  }

  /** `socket_container::close`. */
  function DrainStep(s: Sys, o: Owner): Outcome
    requires s.stack != []
  {
    var keys := s.core.KeysOf(o);
    if keys == {} then Stepped(s.(stack := s.stack[1..]))
    else
      var id := s.core.owned[Key(o, Least(keys))];
      if !s.core.Live(id) || !s.core.table.Aligned() then Undefined else Stepped(CloseSocket(s, id))
  }

  /** The dispatch loop between callbacks. */
  function PollStep(s: Sys): Outcome
    requires s.poller.Polling?
  {
    var p, t := s.poller, s.core.table;
    match p.phase
    case Head =>
      if p.i >= |t.sockets| then Stepped(s.(poller := Idle))
      else if t.sockets[p.i].revents == {} then Stepped(s.(poller := p.(i := p.i + 1)))
      else Serve(s.(poller := p.(ref := t.invalid, at := t.changes, phase := AfterRead)), POLLIN, READABLE)
    case AfterRead =>
      if t.invalid != p.ref then Stepped(s.(poller := Idle))
      else if t.edits != p.snap.edits then Undefined
      else Serve(s.(poller := p.(phase := AfterWrite)), POLLOUT, WRITEABLE)
    case AfterWrite =>
      if p.n - 1 == 0 || t.invalid != p.ref then Stepped(s.(poller := Idle))
      else if t.edits != p.snap.edits then Undefined
      else Stepped(s.(poller := p.(i := p.i + 1, n := p.n - 1, phase := Head)))
  }

  /** Calls `on_readable` or `on_writeable` of the object at the loop's index if its entry reported `bit`. */
  function Serve(s: Sys, bit: Bit, tag: Tag): Outcome
    requires s.poller.Polling?
  {
    var i, t := s.poller.i, s.core.table;
    if i >= |t.sockets| then Undefined
    else if bit !in t.sockets[i].revents then Stepped(s)
    else if i >= |t.ptrs| || !s.core.Live(t.ptrs[i]) then Undefined
    else Stepped(PushExec(s, t.ptrs[i], tag))
  }

  function StartPoll(s: Sys, reported: seq<Mask>): Outcome {
    if |reported| != |s.core.table.sockets| then Ignored
    else if s.core.table.sockets == [] then Stepped(s)
    else
      var t := Dispatch.Report(s.core.table, reported);
      Stepped(Sys(s.core.(table := t), [], Polling(0, Dispatch.ReadyCount(t, 0), t.invalid, t.changes, Head, t)))
  }

  function Step(s: Sys, ch: Choice): Outcome {
    if s.stack == [] then
      if s.poller.Polling? then (if ch.Go? then PollStep(s) else Ignored)
      else if ch.CallPoll? then StartPoll(s, ch.reported)
      else UserStep(s, ch)
    else
      match s.stack[0]
      case Hook => if ch.Return? then Stepped(s.(stack := s.stack[1..])) else UserStep(s, ch)
      case Exec(id, tag, i, end) => if ch.Go? then ExecStep(s, id, tag, i, end, ch.answer) else Ignored
      case Draining(o) => if ch.Go? then DrainStep(s, o) else Ignored
      case CloseNext(id) =>
        if !ch.Go? then Ignored
        else if !s.core.Live(id) || !s.core.table.Aligned() then Undefined
        else Stepped(CloseSocket(s.(stack := s.stack[1..]), id))
      case RaiseError(o) =>
        if ch.Go? then Stepped(s.On(Logged(s.core, Failed(o))).(stack := [Hook] + s.stack[1..])) else Ignored
  }

  // ------------------------------------------------------------------------------------------
  // What user code and the kernel may choose
  // ------------------------------------------------------------------------------------------

  /** An activation that will read `id` again. */
  predicate Pins(f: Frame, id: ObjId) {
    (f.Exec? && f.id == id && f.i < f.end) || (f.CloseNext? && f.id == id)
  }

  predicate Busy(stack: seq<Frame>, id: ObjId) {
    stack != [] && (Pins(stack[0], id) || Busy(stack[1..], id))
  }

  predicate Executing(stack: seq<Frame>, id: ObjId, tag: Tag) {
    exists f :: f in stack && f.Exec? && f.id == id && f.tag == tag
  }

  /** No open socket of the container is pinned. */
  predicate MayDrain(s: Sys, o: Owner) {
    forall k :: k in s.core.owned && k.owner == o && OpenIn(s.core.heap, s.core.owned[k]) ==>
      !Busy(s.stack, s.core.owned[k])
  }

  /** A descriptor from the kernel: an error or one that is not open. */
  predicate Fresh(c: State, fd: int) {
    fd < 0 || fd !in c.kernel
  }

  /** User code passes live objects only; it closes a socket, directly or with its container, only when no activation
      will read that socket again (a callback not last in its list and without STOP_AFTER is what pins one); it does not
      register on a list being executed; and it registers on READABLE of listeners only, since on a connection that
      would pin the socket during the `recv` that may close it. */
  predicate UserMay(s: Sys, ch: Choice) {
    match ch
    case CallListen(_, fd, _) => Fresh(s.core, fd)
    case CallConnect(_, fd, _) => Fresh(s.core, fd)
    case CallSend(id, message, sent) => s.core.Live(id) && (s.core.heap[id].Open() || sent < 0)
    case CallClose(id) => s.core.Live(id) && (s.core.heap[id].Open() ==> !Busy(s.stack, id))
    case CallCloseServer(server) => MayDrain(s, Listeners(server)) && MayDrain(s, Clients(server))
    case CallCloseClient(client) => MayDrain(s, Peers(client))
    case CallOn(id, tag, _) =>
      s.core.Live(id) && !Executing(s.stack, id, tag) && (tag == READABLE ==> s.core.heap[id].owner.Listeners?)
    case _ => true
  }

  /** The kernel's contract for the system call of callback `e` on socket `id`. */
  predicate KernelMay(c: State, id: ObjId, e: Core.Exec, answer: int) {
    match e
    case Accept(_) => Fresh(c, answer)
    case Recv => c.OpenAt(id) || answer < 0
    case Flush => c.OpenAt(id) || answer < 0
    case _ => true
  }

  predicate Allowed(s: Sys, ch: Choice) {
    if s.stack == [] then
      if s.poller.Polling? then true
      else if ch.CallPoll? then
        forall i :: 0 <= i < |ch.reported| && i < |s.core.table.sockets| && POLLOUT in ch.reported[i] ==>
          POLLOUT in s.core.table.sockets[i].events
      else UserMay(s, ch)
    else
      match s.stack[0]
      case Hook => UserMay(s, ch)
      case Exec(id, tag, i, end) =>
        ch.Go? && s.core.Live(id) && i < |s.core.heap[id].On(tag)| ==>
          KernelMay(s.core, id, s.core.heap[id].On(tag)[i].exec, ch.answer)
      case _ => true
  }

  /** Since the loop took its counter value, fewer than 65536 sockets were added or deleted. */
  predicate WithinCounter(s: Sys) {
    s.poller.Polling? ==> s.core.table.changes < s.poller.at + SPAN
  }

  function Initial(garbage: ushort, kernel: set<int>): Sys {
    Sys(State(Table([], [], garbage, 0, 0), map[], map[], 0, kernel, []), [], Idle)
  }

  /** A run: every choice is allowed where it is made and applies there, every state reached is within the counter, and
      nothing follows a step that is undefined or aborts. */
  predicate IsRun(s: Sys, choices: seq<Choice>)
    decreases choices
  {
    choices == [] ||
    (Allowed(s, choices[0]) &&
     match Step(s, choices[0])
     case Stepped(s1) => WithinCounter(s1) && IsRun(s1, choices[1..])
     case Ignored => false
     case _ => choices[1..] == [])
  }

  /** Where a run ends. */
  function EndOf(s: Sys, choices: seq<Choice>): Outcome
    requires IsRun(s, choices)
    decreases choices
  {
    if choices == [] then Stepped(s)
    else
      match Step(s, choices[0])
      case Stepped(s1) => EndOf(s1, choices[1..])
      case o => o
  }
}
