/** The containers, servers and clients of one handler as code that updates fields in place and calls user code back in
    the middle. Models includes/socket/socket.hpp, includes/socket/socket_container.hpp, includes/tcp/server.hpp and
    includes/tcp/client.hpp. What the kernel answers is a parameter. */
module Engine {
  import opened PollHandler
  import opened Core
  import opened Closing
  import opened EngineFacts
  import opened Order
  import opened Reentry
  import Actions
  import Machine
  import SendQueue

  /** The pointer a container's `make_socket` returns. */
  datatype Made = NullPtr | Ptr(id: ObjId)

  /** What a call that was to make a socket with descriptor `fd` made of `start`: the new state lacks only `e` of
      `goal`, or no socket was made. */
  ghost predicate Entered(start: State, now: State, made: Made, o: Owner, fd: int, e: Event, goal: State,
                          strays: set<Stray>) {
    var holds :=
      if made.Ptr? then Settled(now, strays) && Logged(now, e) == goal
      else
        && Settled(start, strays) && now == (if fd < 0 then start else Allocated(start, fd))
        && (fd < 0 || Key(o, fd) in start.owned);
    holds
  }

  class Program {
    const handler: Handler
    /** Whether user code returns at once whenever it is called. */
    const passive: bool
    var heap: map<ObjId, Sock>
    var owned: map<Key, ObjId>
    var nextId: ObjId
    ghost var kernel: set<int>
    ghost var log: seq<Event>
    /** The sockets closed out of turn. The loops of `close` never do so: `Order.LoopClosesInTurn`. */
    ghost var astray: set<Stray>

    ghost function Now(): State
      reads this, handler
    {
      State(handler.State(), heap, owned, nextId, kernel, log)
    }

    constructor (garbage: ushort, passive: bool, ghost open: set<int>)
      ensures fresh(handler) && this.passive == passive
      ensures Now() == State(Table([], [], garbage, 0, 0), map[], map[], 0, open, [])
      ensures Settled(Now(), astray) && astray == {}
    {
      var h := new Handler(garbage);
      handler, this.passive := h, passive;
      heap, owned, nextId, kernel, log, astray := map[], map[], 0, open, [], {};
    }

    // ----------------------------------------------------------------------------------------
    // User code
    // ----------------------------------------------------------------------------------------

    /** User code called back: any finite number of calls into the library, none of which opens a socket, closes a
        pinned one, closes a server or client that cannot be emptied, or registers a callback that stops a CLOSED
        list. */
    method UserCode(pinned: set<ObjId>)
      requires Settled(Now(), astray)
      modifies this, handler
      ensures Moved(old(Now()), Now(), pinned, old(astray), astray)
      ensures passive ==> Now() == old(Now())
      decreases |OpenIds(heap)|, 6
    {
      Idles(Now(), pinned, astray);
      if passive {
        return;
      }
      var calls: nat := *;
      while calls > 0
        invariant Moved(old(Now()), Now(), pinned, old(astray), astray)
      {
        ghost var before, strays := Now(), astray;
        MovedParts(old(Now()), before, pinned, old(astray), strays);
        UserCall(pinned);
        MovesOn(old(Now()), before, Now(), pinned, old(astray), strays, astray);
        calls := calls - 1;
      }
    }

    method UserCall(pinned: set<ObjId>)
      requires Settled(Now(), astray) && !passive
      modifies this, handler
      ensures Moved(old(Now()), Now(), pinned, old(astray), astray)
      decreases |OpenIds(heap)|, 5
    {
      var which: nat, id: ObjId := *, *;
      if id in heap && which < 3 {
        UserUses(which, id, pinned);
      } else {
        UserCloses(which, pinned);
      }
    }

    /** A call on a socket. */
    method UserUses(which: nat, id: ObjId, pinned: set<ObjId>)
      requires Settled(Now(), astray) && id in heap
      modifies this, handler
      ensures Moved(old(Now()), Now(), pinned, old(astray), astray)
      decreases |OpenIds(heap)|, 4
    {
      if which == 0 && !(heap[id].Open() && id in pinned) {
        CloseSocket(id, pinned);
      } else if which == 1 {
        UserWrites(id, pinned);
      } else {
        UserRegisters(id, pinned);
      }
    }

    /** A call on a server or client. */
    method UserCloses(owner: nat, pinned: set<ObjId>)
      requires Settled(Now(), astray)
      modifies this, handler
      ensures Moved(old(Now()), Now(), pinned, old(astray), astray)
      decreases |OpenIds(heap)|, 4
    {
      var server: bool := *;
      Idles(Now(), pinned, astray);
      if server {
        if Ready(heap, Clients(owner)) && NonePinned(heap, Clients(owner), pinned) &&
           Ready(heap, Listeners(owner)) && NonePinned(heap, Listeners(owner), pinned) {
          CloseServer(owner, pinned);
        }
      } else if Ready(heap, Peers(owner)) && NonePinned(heap, Peers(owner), pinned) {
        CloseClient(owner, pinned);
      }
    }

    method UserWrites(id: ObjId, pinned: set<ObjId>)
      requires Settled(Now(), astray) && id in heap
      modifies this`heap, handler
      ensures Moved(old(Now()), Now(), pinned, astray, astray)
    {
      var message: seq<SendQueue.byte>, answer: int := *, *;
      Idles(Now(), pinned, astray);
      if SendQueue.Answer(answer, |message|) && (answer >= 0 ==> heap[id].Open()) {
        Send(id, message, answer, pinned);
      }
    }

    method UserRegisters(id: ObjId, pinned: set<ObjId>)
      requires Settled(Now(), astray) && id in heap
      modifies this`heap
      ensures Moved(old(Now()), Now(), pinned, astray, astray)
    {
      var tag: Tag, flags: Actions.Flags := *, *;
      Idles(Now(), pinned, astray);
      if (tag == READABLE ==> heap[id].owner.Listeners?) &&
         (tag == CLOSED ==> heap[id].Open() && !Actions.Callback(User, flags).Stops()) {
        Register(id, tag, flags, pinned);
      }
    }

    /** `connection_base::send`, whose ERROR callbacks are taken as further calls of the user code that sent. */
    method Send(id: ObjId, message: seq<SendQueue.byte>, sent: int, pinned: set<ObjId>)
      requires Settled(Now(), astray) && id in heap && SendQueue.Answer(sent, |message|)
      requires sent >= 0 ==> heap[id].Open()
      modifies this`heap, handler
      ensures Now() == Sent(old(Now()), id, message, sent)
      ensures Moved(old(Now()), Now(), pinned, astray, astray)
    {
      ghost var start := Now();
      SettledParts(start, astray);
      Write(id, message, sent);
      SentMoved(start, id, message, sent, Now(), pinned, astray);
    }

    method Write(id: ObjId, message: seq<SendQueue.byte>, sent: int)
      requires handler.State().Aligned() && id in heap && SendQueue.Answer(sent, |message|)
      modifies this`heap, handler
      ensures Now() == Sent(old(Now()), id, message, sent)
    {
      if 0 <= sent < |message| {
        handler.SocketWantWrite(heap[id].fd, true);
      }
      heap := heap[id := heap[id].(out := SendQueue.AfterSend(heap[id].out, message, sent))];
    }

    method Register(id: ObjId, tag: Tag, flags: Actions.Flags, pinned: set<ObjId>)
      requires Settled(Now(), astray) && id in heap && (tag == READABLE ==> heap[id].owner.Listeners?)
      requires tag == CLOSED ==> heap[id].Open() && !Actions.Callback(User, flags).Stops()
      modifies this`heap
      ensures Now() == RegisteredOn(old(Now()), id, tag, Actions.Callback(User, flags))
      ensures Moved(old(Now()), Now(), pinned, astray, astray)
    {
      ghost var start := Now();
      On(id, tag, User, flags);
      RegisteredMoved(start, id, tag, flags, Now(), pinned, astray);
    }

    /** `on<tag>` of a socket. */
    method On(id: ObjId, tag: Tag, exec: Core.Exec, flags: Actions.Flags)
      requires id in heap
      modifies this`heap
      ensures Now() == RegisteredOn(old(Now()), id, tag, Actions.Callback(exec, flags))
    {
      var action := new Actions.Action<Core.Exec>.Of(heap[id].On(tag));
      action.AddCallback(exec, flags);
      heap := heap[id := heap[id].(lists := heap[id].lists[tag := action.executorList])];
    }

    /** User code is told of `e`. */
    method Raise(e: Event, pinned: set<ObjId>)
      requires Settled(Now(), astray) && !Closes(e)
      modifies this, handler
      ensures Moved(old(Now()), Now(), pinned, old(astray), astray)
      ensures passive ==> Now() == Logged(old(Now()), e)
      decreases |OpenIds(heap)|, 7
    {
      ghost var start, strays := Now(), astray;
      log := log + [e];
      ghost var told := Now();
      LoggedMoved(start, e, told, pinned, strays);
      MovedParts(start, told, pinned, strays, strays);
      UserCode(pinned);
      MovesOn(start, told, Now(), pinned, strays, strays, astray);
    }

    /** User code is told of a new socket; told so and passive, it leaves things as in `goal`. */
    method Announce(e: Event, ghost goal: State)
      requires Settled(Now(), astray) && !Closes(e) && Logged(Now(), e) == goal
      modifies this, handler
      ensures Settled(Now(), astray)
      ensures passive ==> Now() == goal
    {
      ghost var start, strays := Now(), astray;
      Raise(e, {});
      MovedParts(start, Now(), {}, strays, astray);
    }

    // ----------------------------------------------------------------------------------------
    // Closing
    // ----------------------------------------------------------------------------------------

    /** `socket::close`. */
    method CloseSocket(id: ObjId, pinned: set<ObjId>)
      requires Settled(Now(), astray) && id in heap && (heap[id].Open() ==> id !in pinned)
      modifies this, handler
      ensures Moved(old(Now()), Now(), pinned, old(astray), astray) && !OpenIn(heap, id)
      ensures Parted(old(Now()), id, Now())
      ensures passive ==> QuietlyClosed(old(Now()), id, Now())
      decreases |OpenIds(heap)|, 1
    {
      if heap[id].fd < 0 {
        NoClose(Now(), id, pinned, astray);
      } else {
        CloseOpen(id, pinned);
      }
    }

    /** An open socket: out of the handler, its descriptor closed, then its CLOSED list. It is marked if out of turn. */
    method CloseOpen(id: ObjId, pinned: set<ObjId>)
      requires Settled(Now(), astray) && OpenIn(heap, id) && id !in pinned
      modifies this, handler
      ensures Moved(old(Now()), Now(), pinned, old(astray), astray) && !OpenIn(heap, id)
      ensures Parted(old(Now()), id, Now())
      ensures passive ==> QuietlyClosed(old(Now()), id, Now())
      decreases |OpenIds(heap)|, 0
    {
      ghost var start, strays := Now(), astray;
      SettledParts(start, strays);
      ShutMarked(id);
      ghost var shut, marked := Now(), astray;
      ExecuteClosed(id, pinned);
      CloseMoves(start, id, shut, Now(), pinned, strays, marked, astray);
    }

    method ShutMarked(id: ObjId)
      requires Settled(Now(), astray) && OpenIn(heap, id) && Now().table.Aligned()
      modifies this`heap, this`kernel, this`log, this`astray, handler
      ensures Now() == Shut(old(Now()), id) && astray == old(astray + StraysOf(heap, id))
      ensures Settled(Now(), astray) && id in heap && !heap[id].Open()
      ensures |OpenIds(heap)| < |OpenIds(old(heap))|
    {
      ghost var start, strays := Now(), astray;
      ghost var marked := strays + StraysOf(heap, id);
      ShutDown(id);
      astray := marked;
      CloseBegins(start, id, Now(), strays, marked);
    }

    /** Out of the handler; then the descriptor is closed and set to -1. */
    method ShutDown(id: ObjId)
      requires handler.State().Aligned() && id in heap
      modifies this`heap, this`kernel, this`log, handler
      ensures Now() == Shut(old(Now()), id)
    {
      var fd := heap[id].fd;
      handler.DeleteSocket(fd);
      kernel, log := kernel - {fd}, log + [SysClose(id, fd)];
      heap := heap[id := heap[id].(fd := -1)];
    }

    /** `socket_container::close`. Its sockets are closed in ascending descriptor order exactly if user code closed
        none of them out of turn. */
    method CloseContainer(o: Owner, pinned: set<ObjId>)
      requires Settled(Now(), astray) && Ready(heap, o) && NonePinned(heap, o, pinned) && Unblocked(heap, o)
      modifies this, handler
      ensures Moved(old(Now()), Now(), pinned, old(astray), astray) && Now().KeysOf(o) == {}
      ensures ClosedInOrder(old(Now()), o, Now()) <==> NoStray(Members(old(heap), o), OfContainer(o), astray)
      ensures passive ==> Drained(old(Now()), o, Now())
      decreases |OpenIds(heap)|, 2
    {
      SettledParts(Now(), astray);
      DrainBegins(Now(), o, pinned, astray);
      while KeysIn(o) != {}
        invariant Draining(old(Now()), Now(), o, pinned, old(astray), astray)
        invariant passive ==> DrainsAlso(old(Now()), Now(), o)
        decreases |OpenIds(heap)|
      {
        ghost var before, strays := Now(), astray;
        DrainPicks(old(Now()), before, o, pinned, old(astray), strays);
        CloseSocket(owned[Key(o, Machine.Least(KeysIn(o)))], pinned);
        DrainGoesOn(old(Now()), before, Now(), o, pinned, old(astray), strays, astray);
        if passive { TurnDoneQuietly(old(Now()), before, Now(), o); }
      }
      DrainEnds(old(Now()), Now(), o, pinned, old(astray), astray);
      if passive { AllDrained(old(Now()), Now(), o); }
    }

    function KeysIn(o: Owner): (keys: set<int>)
      reads this
    {
      set k | k in owned && k.owner == o :: k.fd
    }

    /** `execute<CLOSED>` of a socket: a loop over the list inside the object, which user code may change and
        destroy. */
    method ExecuteClosed(id: ObjId, pinned: set<ObjId>)
      requires Settled(Now(), astray) && id in heap && !heap[id].Open() && id !in pinned
      modifies this, handler
      ensures RanInTurn(old(Now()), Now(), id, pinned, old(astray), astray)
      ensures passive ==> Now() == RanQuietly(old(Now()), id)
      decreases |OpenIds(heap)|, 11
    {
      ghost var start, strays, told: seq<Event> := Now(), astray, [];
      ListBegins(start, id, pinned, strays);
      for i := 0 to |heap[id].On(CLOSED)|
        invariant RunningInTurn(start, Now(), id, i, pinned, told, strays, astray)
        invariant passive ==> Now() == Told(start, told)
      {
        ListFacts(start, Now(), id, i, pinned, told, strays, astray);
        var more;
        more, told := ExecuteAt(start, strays, id, i, pinned, told);
        if !more {
          return;
        }
      }
      ListFacts(start, Now(), id, |start.heap[id].On(CLOSED)|, pinned, told, strays, astray);
    }

    /** One turn of the loop, which began in `start`; `more` unless the callback stops the list. */
    method ExecuteAt(ghost start: State, ghost strays: set<Stray>, id: ObjId, i: nat, pinned: set<ObjId>,
                     ghost told: seq<Event>)
      returns (more: bool, ghost told': seq<Event>)
      requires RunningInTurn(start, Now(), id, i, pinned, told, strays, astray) && id !in pinned
      requires start.Live(id) && i < |start.heap[id].On(CLOSED)|
      requires passive ==> Now() == Told(start, told)
      modifies this, handler
      ensures more ==> RunningInTurn(start, Now(), id, i + 1, pinned, told', strays, astray)
      ensures more ==> (passive ==> Now() == Told(start, told'))
      ensures !more ==> RanInTurn(start, Now(), id, pinned, strays, astray)
      ensures !more ==> (passive ==> Now() == RanQuietly(start, id))
      decreases |OpenIds(heap)|, 10
    {
      ghost var before, marked := Now(), astray;
      ListFacts(start, before, id, i, pinned, told, strays, marked);
      more, told' := true, told;
      var executor := heap[id].On(CLOSED)[i];
      if Actions.SKIP in executor.flags {
        ListSkips(start, before, id, i, pinned, told, strays, marked);
      } else if executor.exec.Erase? {
        more := false;
        EraseAt(start, strays, id, i, executor, pinned, told);
      } else {
        more, told' := CallAt(start, strays, id, i, executor, pinned, told);
      }
    }

    /** The callback is the erase action. */
    method EraseAt(ghost start: State, ghost strays: set<Stray>, id: ObjId, i: nat, executor: Callback,
                   pinned: set<ObjId>, ghost told: seq<Event>)
      requires RunningInTurn(start, Now(), id, i, pinned, told, strays, astray) && id in heap
      requires start.Live(id) && i < |start.heap[id].On(CLOSED)| && executor == start.heap[id].On(CLOSED)[i]
      requires executor.exec.Erase? && executor.exec == EraseOf(heap[id])
      modifies this`heap, this`owned
      ensures RanInTurn(start, Now(), id, pinned, strays, astray)
      ensures old(Now()) == Told(start, told) ==> Now() == RanQuietly(start, id)
    {
      ghost var before := Now();
      Erase(executor.exec.owner, executor.exec.key);
      ListErases(start, before, id, i, pinned, told, Now(), strays, astray);
    }

    /** The callback is neither skipped nor the erase action. */
    method CallAt(ghost start: State, ghost strays: set<Stray>, id: ObjId, i: nat, executor: Callback,
                  pinned: set<ObjId>, ghost told: seq<Event>)
      returns (more: bool, ghost told': seq<Event>)
      requires RunningInTurn(start, Now(), id, i, pinned, told, strays, astray) && id !in pinned
      requires Settled(Now(), astray)
      requires start.Live(id) && i < |start.heap[id].On(CLOSED)| && executor == start.heap[id].On(CLOSED)[i]
      requires !executor.Skipped() && executor.exec in {User, RaiseClosed, RaiseDisconnect}
      requires passive ==> Now() == Told(start, told)
      modifies this, handler
      ensures more ==> RunningInTurn(start, Now(), id, i + 1, pinned, told', strays, astray)
      ensures more ==> (passive ==> Now() == Told(start, told'))
      ensures !more ==> RanInTurn(start, Now(), id, pinned, strays, astray)
      ensures !more ==> (passive ==> Now() == RanQuietly(start, id))
      decreases |OpenIds(heap)|, 9
    {
      ghost var before, marked := Now(), astray;
      RunClosed(id, executor.exec, pinned);
      more, told' := Actions.STOP_AFTER !in executor.flags, told + RaisedBy(executor.exec, id);
      if more {
        ListGoesOn(start, before, Now(), id, i, pinned, told, told', strays, marked, astray);
      } else {
        ListStops(start, before, Now(), id, i, pinned, told, strays, marked, astray);
      }
    }

    /** One callback of a CLOSED list other than the erase action: the event it raises, if any, and user code. */
    method RunClosed(id: ObjId, exec: Core.Exec, pinned: set<ObjId>)
      requires Settled(Now(), astray) && exec in {User, RaiseClosed, RaiseDisconnect} && id !in pinned
      modifies this, handler
      ensures CalledBackInTurn(old(Now()), Now(), id, exec, pinned, old(astray), astray)
      ensures passive ==> Now() == Told(old(Now()), RaisedBy(exec, id))
      decreases |OpenIds(heap)|, 8
    {
      ghost var told := Told(Now(), RaisedBy(exec, id));
      ToldSettled(Now(), exec, id, pinned, astray);
      log := log + RaisedBy(exec, id);
      assert Now() == told;
      UserCode(pinned + {id});
      CallbackMoved(old(Now()), exec, id, Now(), pinned, old(astray), astray);
    }

    /** `sockets.erase(key)`. */
    method Erase(o: Owner, key: int)
      modifies this`heap, this`owned
      ensures Now() == Erased(old(Now()), o, key)
    {
      if Key(o, key) in owned {
        heap, owned := heap - {owned[Key(o, key)]}, owned - {Key(o, key)};
      }
    }

    /** `server_impl::close`. Clients are closed before listeners, each in ascending descriptor order, exactly if
        user code closed none of them out of turn, nor a listener before the last client. */
    method CloseServer(server: nat, pinned: set<ObjId>)
      requires Settled(Now(), astray) && Ready(heap, Clients(server)) && Ready(heap, Listeners(server))
      requires NonePinned(heap, Clients(server), pinned) && NonePinned(heap, Listeners(server), pinned)
      modifies this, handler
      ensures Moved(old(Now()), Now(), pinned, old(astray), astray)
      ensures Now().KeysOf(Clients(server)) == {} && Now().KeysOf(Listeners(server)) == {}
      ensures ServerClosedInOrder(old(Now()), server, Now()) <==>
              NoStray(Members(old(heap), Clients(server)) + Members(old(heap), Listeners(server)), OfServer(server),
                      astray)
      ensures passive ==> ServerGone(old(Now()), server, Now())
      ensures passive ==> (handler.sockets == [] <==>
                           forall id: ObjId :: OpenIn(old(heap), id) ==>
                             old(heap)[id].owner in {Clients(server), Listeners(server)})
      decreases |OpenIds(heap)|, 3
    {
      SettledParts(Now(), astray);
      CloseContainer(Clients(server), pinned);
      ghost var middle, strays := Now(), astray;
      ServerBetween(old(Now()), server, middle, pinned, old(astray), strays);
      CloseContainer(Listeners(server), pinned);
      ServerEnds(old(Now()), server, middle, Now(), pinned, old(astray), strays, astray);
      if passive { ServerClosed(old(Now()), server, middle, Now()); }
    }

    /** `client_impl::close`. */
    method CloseClient(client: nat, pinned: set<ObjId>)
      requires Settled(Now(), astray) && Ready(heap, Peers(client)) && NonePinned(heap, Peers(client), pinned)
      modifies this, handler
      ensures Moved(old(Now()), Now(), pinned, old(astray), astray)
      ensures Now().KeysOf(Peers(client)) == {}
      ensures ClosedInOrder(old(Now()), Peers(client), Now()) <==>
              NoStray(Members(old(heap), Peers(client)), OfContainer(Peers(client)), astray)
      ensures passive ==> Drained(old(Now()), Peers(client), Now())
      decreases |OpenIds(heap)|, 3
    {
      CloseContainer(Peers(client), pinned);
    }

    // ----------------------------------------------------------------------------------------
    // Opening
    // ----------------------------------------------------------------------------------------

    /** `_insert_socket` of the open descriptor `fd`. */
    method InsertSocket(o: Owner, fd: int) returns (made: Made)
      requires handler.State().Aligned()
      modifies this`heap, this`owned, this`nextId, handler
      ensures made.NullPtr? <==> Key(o, fd) in old(owned)
      ensures Now() == if made.Ptr? then Inserted(old(Now()), o, fd) else old(Now())
      ensures made.Ptr? ==> made.id == old(nextId)
    {
      if Key(o, fd) in owned {
        return NullPtr;
      }
      var id := nextId;
      heap, owned, nextId := heap[id := Sock(fd, o, fd, map[], SendQueue.Empty())], owned[Key(o, fd) := id], nextId + 1;
      On(id, CLOSED, Core.Erase(o, fd), {Actions.QUEUE_END, Actions.STOP_AFTER});
      handler.AddSocket(heap[id].fd, id);
      made := Ptr(id);
      assert Actions.Insert([], EraseCallback(o, fd)) == [EraseCallback(o, fd)];
    }

    /** `make_socket(domain, type, protocol)`; `fd` is what the `socket` system call returned. */
    method MakeSocket(o: Owner, fd: int) returns (made: Made)
      requires handler.State().Aligned()
      modifies this`heap, this`owned, this`nextId, this`kernel, handler
      ensures made.Ptr? <==> fd >= 0 && Key(o, fd) !in old(owned)
      ensures made.Ptr? ==> made.id == old(nextId) && Now() == Inserted(Allocated(old(Now()), fd), o, fd)
      ensures made.NullPtr? ==> Now() == if fd < 0 then old(Now()) else Allocated(old(Now()), fd)
    {
      if fd < 0 {
        return NullPtr;
      }
      kernel := kernel + {fd};
      made := InsertSocket(o, fd);
    }

    /** `server_impl::listen`; `stage` says how far name resolution, `bind` and the `listen` system call get. A
        failed call leaves nothing behind, whatever user code did meanwhile; with passive user code it leaves
        everything as it was. */
    method Listen(server: nat, fd: int, stage: Machine.Stage) returns (ok: bool)
      requires Settled(Now(), astray) && Machine.Fresh(Now(), fd)
      modifies this, handler
      ensures Settled(Now(), astray)
      ensures ok <==> fd >= 0 && Key(Listeners(server), fd) !in old(owned) && stage.Succeeds?
      ensures !ok ==> heap.Keys <= old(heap.Keys)
      ensures passive && ok ==> Now() == ListenerOpen(old(Now()), server, fd)
      ensures passive && !ok ==> RolledBack(old(Now()), Now(), Listeners(server), fd, false)
    {
      if stage.Succeeds? {
        ok := ListenFully(server, fd);
      } else {
        ok := false;
        ListenPartly(server, fd);
      }
    }

    method ListenFully(server: nat, fd: int) returns (ok: bool)
      requires Settled(Now(), astray) && Machine.Fresh(Now(), fd)
      modifies this, handler
      ensures Settled(Now(), astray)
      ensures ok <==> fd >= 0 && Key(Listeners(server), fd) !in old(owned)
      ensures !ok ==> heap.Keys <= old(heap.Keys)
      ensures passive && ok ==> Now() == ListenerOpen(old(Now()), server, fd)
      ensures passive && !ok ==> RolledBack(old(Now()), Now(), Listeners(server), fd, false)
    {
      ghost var start := Now();
      var news := Listening(nextId);
      ghost var goal := ListenerOpen(start, server, fd);
      var made := ReadyListener(server, fd, goal);
      ok := made.Ptr?;
      Tell(start, Listeners(server), fd, made, news, goal);
    }

    method ReadyListener(server: nat, fd: int, ghost goal: State) returns (made: Made)
      requires Settled(Now(), astray) && Machine.Fresh(Now(), fd) && goal == ListenerOpen(Now(), server, fd)
      modifies this`heap, this`owned, this`nextId, this`kernel, handler
      ensures made.Ptr? <==> fd >= 0 && Key(Listeners(server), fd) !in old(owned)
      ensures Entered(old(Now()), Now(), made, Listeners(server), fd, Listening(old(nextId)), goal, astray)
    {
      made := EnterListener(server, fd, true);
    }

    method ListenPartly(server: nat, fd: int)
      requires Settled(Now(), astray) && Machine.Fresh(Now(), fd)
      modifies this, handler
      ensures Settled(Now(), astray) && heap.Keys <= old(heap.Keys)
      ensures passive ==> RolledBack(old(Now()), Now(), Listeners(server), fd, false)
    {
      var made := EnterListener(server, fd, false);
      if made.NullPtr? {
        NotMade(old(Now()), Listeners(server), fd, false);
      } else {
        ghost var start := old(Now());
        Abandon(start, Listeners(server), fd, made.id, true);
        if passive { FailureTold(start, Listeners(server), fd, Now(), Now(), false); }
      }
    }

    /** The listener in its container, with the callbacks it gets as far as it gets. */
    method EnterListener(server: nat, fd: int, ready: bool) returns (made: Made)
      requires Settled(Now(), astray) && Machine.Fresh(Now(), fd)
      modifies this`heap, this`owned, this`nextId, this`kernel, handler
      ensures made.Ptr? <==> fd >= 0 && Key(Listeners(server), fd) !in old(owned)
      ensures made.Ptr? ==> made.id == old(nextId)
      ensures made.NullPtr? ==> Now() == if fd < 0 then old(Now()) else Allocated(old(Now()), fd)
      ensures made.Ptr? && !ready ==> MadeIn(old(Now()), Listeners(server), fd, Now())
      ensures made.Ptr? && ready ==>
                Settled(Now(), astray) && Logged(Now(), Listening(made.id)) == ListenerOpen(old(Now()), server, fd)
    {
      ghost var start := Now();
      SettledParts(start, astray);
      made := MakeSocket(Listeners(server), fd);
      if made.Ptr? {
        ghost var inserted := Now();
        On(made.id, CLOSED, RaiseClosed, {});
        if ready {
          SettleListener(start, server, fd, made.id, inserted);
        } else {
          ListenerIn(start, server, fd, inserted, Now());
        }
      }
    }

    method SettleListener(ghost start: State, server: nat, fd: int, id: ObjId, ghost inserted: State)
      requires Settled(start, astray) && fd >= 0 && fd !in start.kernel && Key(Listeners(server), fd) !in start.owned
      requires inserted == Inserted(Allocated(start, fd), Listeners(server), fd) && inserted.Live(id)
      requires id == start.nextId
      requires Now() == RegisteredOn(inserted, id, CLOSED, Actions.Callback(RaiseClosed, {})) && id in heap
      modifies this`heap
      ensures Settled(Now(), astray)
      ensures Logged(Now(), Listening(id)) == ListenerOpen(start, server, fd)
    {
      ghost var hooked := Now();
      On(id, READABLE, Accept(server), {});
      ListenerSettled(start, server, fd, inserted, hooked, Now(), astray);
    }

    /** User code hears of the new socket, or the ERROR event if there is none. */
    method Tell(ghost start: State, o: Owner, fd: int, made: Made, e: Event, ghost goal: State)
      requires Entered(start, Now(), made, o, fd, e, goal, astray) && !Closes(e)
      modifies this, handler
      ensures Settled(Now(), astray)
      ensures made.NullPtr? ==> heap.Keys <= start.heap.Keys
      ensures passive ==> if made.Ptr? then Now() == goal else RolledBack(start, Now(), o, fd, false)
    {
      if made.Ptr? {
        Announce(e, goal);
      } else {
        NotMade(start, o, fd, false);
      }
    }

    /** No socket was made since `start`, and user code hears the ERROR event. */
    method NotMade(ghost start: State, o: Owner, fd: int, ghost late: bool)
      requires Settled(start, astray) && Now() == if fd < 0 then start else Allocated(start, fd)
      requires fd < 0 || Key(o, fd) in start.owned
      modifies this, handler
      ensures Settled(Now(), astray) && heap.Keys <= start.heap.Keys
      ensures passive ==> RolledBack(start, Now(), o, fd, late)
    {
      ghost var made := Now();
      NothingMade(start, made, o, fd);
      SettledStill(start, made, astray);
      Raise(Failed(o), {});
      MovedParts(made, Now(), {}, old(astray), astray);
    }

    /** The rest of a `listen` or `connect` that fails: user code hears the ERROR event if it comes now, and the
        socket made since `start` is closed. */
    method Abandon(ghost start: State, o: Owner, fd: int, id: ObjId, tell: bool)
      requires Settled(start, astray) && MadeIn(start, o, fd, Now()) && id == start.nextId
      modifies this, handler
      ensures Settled(Now(), astray) && heap.Keys <= start.heap.Keys
      ensures passive ==> Restored(start, Now(), o, fd, GivenUp(start, o, fd, tell))
    {
      ghost var made := Now();
      SettledParts(start, astray);
      MadeFacts(start, o, fd, made, astray);
      TellOf(id, o, tell);
      ghost var called, strays := Now(), astray;
      CloseSocket(id, {});
      MadeAndGone(start, o, fd, made, called, Now(), strays, astray);
      if passive { MadeRollsBack(start, o, fd, made, called, Now(), tell); }
    }

    /** User code hears the ERROR event if `tell`; it does not close the new socket `id`. */
    method TellOf(id: ObjId, o: Owner, tell: bool)
      requires Settled(Now(), astray) && OpenIn(heap, id) && Clean(heap[id])
      modifies this, handler
      ensures Settled(Now(), astray) && Shrunk(old(Now()), Now(), {id}, {}) && OpenIn(heap, id) && Clean(heap[id])
      ensures passive ==> Now() == if tell then Logged(old(Now()), Failed(o)) else old(Now())
    {
      Idles(Now(), {id}, astray);
      if tell {
        Raise(Failed(o), {id});
      }
      MovedParts(old(Now()), Now(), {id}, old(astray), astray);
      StaysOpen(old(Now()), Now(), id);
    }

    /** `client_impl::connect`. The ERROR event comes before the socket is closed if the address is not found, and after
        that if the connection is refused. */
    method Connect(client: nat, fd: int, stage: Machine.Stage) returns (ok: bool)
      requires Settled(Now(), astray) && Machine.Fresh(Now(), fd)
      modifies this, handler
      ensures Settled(Now(), astray)
      ensures ok <==> fd >= 0 && Key(Peers(client), fd) !in old(owned) && stage.Succeeds?
      ensures !ok ==> heap.Keys <= old(heap.Keys)
      ensures passive && ok ==> Now() == PeerOpen(old(Now()), client, fd)
      ensures passive && !ok ==> RolledBack(old(Now()), Now(), Peers(client), fd, stage.SetupFails?)
    {
      if stage.Succeeds? {
        ok := ConnectFully(client, fd);
      } else {
        ok := false;
        ConnectPartly(client, fd, stage);
      }
    }

    method ConnectFully(client: nat, fd: int) returns (ok: bool)
      requires Settled(Now(), astray) && Machine.Fresh(Now(), fd)
      modifies this, handler
      ensures Settled(Now(), astray)
      ensures ok <==> fd >= 0 && Key(Peers(client), fd) !in old(owned)
      ensures !ok ==> heap.Keys <= old(heap.Keys)
      ensures passive && ok ==> Now() == PeerOpen(old(Now()), client, fd)
      ensures passive && !ok ==> RolledBack(old(Now()), Now(), Peers(client), fd, false)
    {
      ghost var start := Now();
      var news := Connected(nextId);
      ghost var goal := PeerOpen(start, client, fd);
      var made := ReadyPeer(client, fd, goal);
      ok := made.Ptr?;
      Tell(start, Peers(client), fd, made, news, goal);
    }

    method ReadyPeer(client: nat, fd: int, ghost goal: State) returns (made: Made)
      requires Settled(Now(), astray) && Machine.Fresh(Now(), fd) && goal == PeerOpen(Now(), client, fd)
      modifies this`heap, this`owned, this`nextId, this`kernel, handler
      ensures made.Ptr? <==> fd >= 0 && Key(Peers(client), fd) !in old(owned)
      ensures Entered(old(Now()), Now(), made, Peers(client), fd, Connected(old(nextId)), goal, astray)
    {
      made := EnterPeer(client, fd, true);
    }

    method ConnectPartly(client: nat, fd: int, stage: Machine.Stage)
      requires Settled(Now(), astray) && Machine.Fresh(Now(), fd) && !stage.Succeeds?
      modifies this, handler
      ensures Settled(Now(), astray) && heap.Keys <= old(heap.Keys)
      ensures passive ==> RolledBack(old(Now()), Now(), Peers(client), fd, stage.SetupFails?)
    {
      var made := EnterPeer(client, fd, false);
      if made.NullPtr? {
        NotMade(old(Now()), Peers(client), fd, stage.SetupFails?);
      } else {
        Refused(old(Now()), client, fd, made.id, stage);
      }
    }

    /** The rest of `connect` when it fails. */
    method Refused(ghost start: State, client: nat, fd: int, id: ObjId, stage: Machine.Stage)
      requires Settled(start, astray) && MadeIn(start, Peers(client), fd, Now()) && id == start.nextId
      requires !stage.Succeeds?
      modifies this, handler
      ensures Settled(Now(), astray) && heap.Keys <= start.heap.Keys
      ensures passive ==> RolledBack(start, Now(), Peers(client), fd, stage.SetupFails?)
    {
      Abandon(start, Peers(client), fd, id, stage.AddressFails?);
      ghost var closed := Now();
      if stage.SetupFails? {
        TellOthers(Peers(client));
      }
      if passive { FailureTold(start, Peers(client), fd, closed, Now(), stage.SetupFails?); }
    }

    /** The connection in its container, with the callbacks it gets as far as it gets. */
    method EnterPeer(client: nat, fd: int, ready: bool) returns (made: Made)
      requires Settled(Now(), astray) && Machine.Fresh(Now(), fd)
      modifies this`heap, this`owned, this`nextId, this`kernel, handler
      ensures made.Ptr? <==> fd >= 0 && Key(Peers(client), fd) !in old(owned)
      ensures made.Ptr? ==> made.id == old(nextId)
      ensures made.NullPtr? ==> Now() == if fd < 0 then old(Now()) else Allocated(old(Now()), fd)
      ensures made.Ptr? && !ready ==> MadeIn(old(Now()), Peers(client), fd, Now())
      ensures made.Ptr? && ready ==>
                Settled(Now(), astray) && Logged(Now(), Connected(made.id)) == PeerOpen(old(Now()), client, fd)
    {
      ghost var start := Now();
      SettledParts(start, astray);
      made := MakeSocket(Peers(client), fd);
      if made.Ptr? {
        ghost var inserted := Now();
        On(made.id, CLOSED, RaiseClosed, {});
        if ready {
          SettlePeer(start, client, fd, made.id, inserted);
        } else {
          PeerIn(start, client, fd, inserted, Now());
        }
      }
    }

    method SettlePeer(ghost start: State, client: nat, fd: int, id: ObjId, ghost inserted: State)
      requires Settled(start, astray) && fd >= 0 && fd !in start.kernel && Key(Peers(client), fd) !in start.owned
      requires inserted == Inserted(Allocated(start, fd), Peers(client), fd) && inserted.Live(id) && id == start.nextId
      requires Now() == RegisteredOn(inserted, id, CLOSED, Actions.Callback(RaiseClosed, {})) && id in heap
      modifies this`heap
      ensures Settled(Now(), astray)
      ensures Logged(Now(), Connected(id)) == PeerOpen(start, client, fd)
    {
      ghost var hooked := Now();
      ghost var readable := HookPeer(id);
      PeerSettled(start, client, fd, inserted, hooked, readable, Now(), astray);
    }

    /** The registrations on a connection that is up. */
    method HookPeer(id: ObjId) returns (ghost readable: State)
      requires id in heap
      modifies this`heap
      ensures readable == RegisteredOn(old(Now()), id, READABLE, Actions.Callback(Recv, {})) && readable.Live(id)
      ensures Now() == RegisteredOn(readable, id, RECV, Actions.Callback(RaisePeerReceive, {}))
    {
      On(id, READABLE, Recv, {});
      readable := Now();
      On(id, RECV, RaisePeerReceive, {});
    }

    /** User code hears the ERROR event, free to close what it likes. */
    method TellOthers(o: Owner)
      requires Settled(Now(), astray)
      modifies this, handler
      ensures Settled(Now(), astray) && heap.Keys <= old(heap.Keys)
      ensures passive ==> Now() == Logged(old(Now()), Failed(o))
    {
      ghost var closed, strays := Now(), astray;
      Raise(Failed(o), {});
      MovedParts(closed, Now(), {}, strays, astray);
    }

    /** `server_impl::accept`; `fd` is what the `accept` system call returned. It asserts that the listener is open, and
        `make_socket` that the new descriptor is not 0. */
    method AcceptOn(server: nat, connection: ObjId, fd: int) returns (aborted: bool)
      requires Settled(Now(), astray) && Machine.Fresh(Now(), fd) && connection in heap
      modifies this, handler
      ensures Settled(Now(), astray)
      ensures aborted <==> !OpenIn(old(heap), connection) || fd == 0
      ensures aborted ==> Now() == old(Now())
      ensures passive && !aborted ==>
                var out := Machine.AcceptClient(Machine.Sys(old(Now()), [], Machine.Idle), server, fd);
                out.Stepped? && Now() == OnceTold(out.sys)
    {
      if heap[connection].fd < 0 || fd == 0 {
        return true;
      }
      AcceptSteps(Now(), server, fd);
      aborted := false;
      if fd < 0 {
        TellOthers(Clients(server));
      } else {
        AddClient(server, fd);
      }
    }

    method AddClient(server: nat, fd: int)
      requires Settled(Now(), astray) && fd > 0 && fd !in kernel
      modifies this, handler
      ensures Settled(Now(), astray)
      ensures passive ==> Now() == ClientAdded(old(Now()), server, fd)
    {
      var made := EnterClient(server, fd);
      if made.NullPtr? {
        TellOthers(Clients(server));
      } else {
        Announce(Accepted(made.id), ClientAdded(old(Now()), server, fd));
      }
    }

    /** The client in its container with its callbacks, if the container takes it. */
    method EnterClient(server: nat, fd: int) returns (made: Made)
      requires Settled(Now(), astray) && fd > 0 && fd !in kernel
      modifies this`heap, this`owned, this`nextId, this`kernel, handler
      ensures Settled(Now(), astray)
      ensures Logged(Now(), if made.Ptr? then Accepted(made.id) else Failed(Clients(server))) ==
              ClientAdded(old(Now()), server, fd)
    {
      ghost var start := Now();
      SettledParts(start, astray);
      kernel := kernel + {fd};
      assert Now() == Allocated(start, fd);
      made := InsertSocket(Clients(server), fd);
      if made.NullPtr? {
        NothingMade(start, Now(), Clients(server), fd);
        SettledStill(start, Now(), astray);
      } else {
        SettleClient(start, server, fd, made.id);
      }
    }

    method SettleClient(ghost start: State, server: nat, fd: int, id: ObjId)
      requires Settled(start, astray) && fd >= 0 && fd !in start.kernel && Key(Clients(server), fd) !in start.owned
      requires Now() == Inserted(Allocated(start, fd), Clients(server), fd) && id in heap && id == start.nextId
      modifies this`heap
      ensures Settled(Now(), astray) && Logged(Now(), Accepted(id)) == ClientAdded(start, server, fd)
    {
      ghost var inserted := Now();
      HookClient(id);
      ClientSettled(start, server, fd, inserted, Now(), astray);
    }

    /** The four registrations on an accepted client. */
    method HookClient(id: ObjId)
      requires id in heap
      modifies this`heap
      ensures Now() == Machine.ClientActions(old(Now()), id)
    {
      On(id, READABLE, Recv, {});
      On(id, WRITEABLE, Flush, {});
      On(id, CLOSED, RaiseDisconnect, {});
      On(id, RECV, RaiseReceive, {});
    }
  }
}
