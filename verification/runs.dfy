/** What holds in every run of the machine, whatever user code and the kernel do. */
module Runs {
  import opened PollHandler
  import opened Core
  import opened Machine
  import opened Safety
  import opened Steps
  import SendQueue

  lemma InitialHolds(garbage: ushort, kernel: set<int>)
    ensures Inv(Initial(garbage, kernel)) && WithinCounter(Initial(garbage, kernel))
  {
    var s := Initial(garbage, kernel);
    assert Valid(s.core);
    assert Tracked(s, {});
    assert Steady(s);
  }

  /** Some choice of the run answers an accept with descriptor 0, where `make_socket` asserts. */
  predicate AcceptedZero(s: Sys, choices: seq<Choice>)
    decreases choices
  {
    choices != [] &&
    (AcceptsZero(s, choices[0]) ||
     (Step(s, choices[0]).Stepped? && AcceptedZero(Step(s, choices[0]).sys, choices[1..])))
  }

  lemma {:induction false} RunKeeps(s: Sys, choices: seq<Choice>)
    requires Inv(s) && WithinCounter(s) && IsRun(s, choices)
    ensures EndOf(s, choices).Stepped? ==> Inv(EndOf(s, choices).sys) && WithinCounter(EndOf(s, choices).sys)
    ensures !EndOf(s, choices).Undefined?
    ensures EndOf(s, choices).Aborted? <==> AcceptedZero(s, choices)
    decreases choices
  {
    if choices == [] {
    } else {
      StepKeeps(s, choices[0]);
      if AcceptsZero(s, choices[0]) { ZeroAborts(s, choices[0]); }
      var out := Step(s, choices[0]);
      if out.Stepped? {
        RunKeeps(out.sys, choices[1..]);
      }
    }
  }

  /** Reached from a program's start: any value in the uninitialised counter, any descriptors already open. */
  ghost predicate Reachable(s: Sys) {
    exists garbage: ushort, kernel: set<int>, choices: seq<Choice> ::
      IsRun(Initial(garbage, kernel), choices) && EndOf(Initial(garbage, kernel), choices) == Stepped(s)
  }

  /** Safety over whole runs: no run reads a destroyed object or goes on over edited vectors, even when a callback
      closes its own socket or the whole server; and a run aborts exactly on an accepted descriptor 0. */
  lemma EveryRunIsDefined(garbage: ushort, kernel: set<int>, choices: seq<Choice>)
    requires IsRun(Initial(garbage, kernel), choices)
    ensures !EndOf(Initial(garbage, kernel), choices).Undefined?
    ensures EndOf(Initial(garbage, kernel), choices).Aborted? <==> AcceptedZero(Initial(garbage, kernel), choices)
    ensures EndOf(Initial(garbage, kernel), choices).Stepped? ==> Inv(EndOf(Initial(garbage, kernel), choices).sys)
  {
    InitialHolds(garbage, kernel);
    RunKeeps(Initial(garbage, kernel), choices);
  }

  lemma ReachableHolds(s: Sys)
    requires Reachable(s)
    ensures Inv(s) && Valid(s.core) && (exists closing :: Good(s, closing)) && WithinCounter(s)
  {
    var garbage: ushort, kernel: set<int>, choices: seq<Choice> :|
      IsRun(Initial(garbage, kernel), choices) && EndOf(Initial(garbage, kernel), choices) == Stepped(s);
    InitialHolds(garbage, kernel);
    RunKeeps(Initial(garbage, kernel), choices);
    assert Good(s, {}) || Good(s, ClosingOf(s.stack[0]));
  }

  /** In every reachable state the handler is the map from the descriptor of each open live object to that object; no
      entry refers to an erased object, and each container key is the descriptor of the open object under it. */
  lemma HandlerIsTheOpenSockets(s: Sys)
    requires Reachable(s)
    ensures s.core.table.WellFormed()
    ensures forall id: ObjId :: s.core.OpenAt(id) ==>
              var i := Find(s.core.table.sockets, s.core.heap[id].fd);
              i < |s.core.table.sockets| && s.core.table.ptrs[i] == id
    ensures forall i :: 0 <= i < |s.core.table.ptrs| ==>
              s.core.OpenAt(s.core.table.ptrs[i]) && s.core.heap[s.core.table.ptrs[i]].fd == s.core.table.sockets[i].fd
    ensures forall k :: k in s.core.owned ==>
              s.core.Live(s.core.owned[k]) && (s.core.OpenAt(s.core.owned[k]) ==>
                s.core.heap[s.core.owned[k]].fd == k.fd)
    ensures forall id: ObjId :: s.core.Live(id) ==>
              var k := Key(s.core.heap[id].owner, s.core.heap[id].key); k in s.core.owned && s.core.owned[k] == id
  {
    ReachableHolds(s);
    HandlerFacts(s.core);
  }

  lemma HandlerFacts(c: State)
    requires Valid(c)
    ensures c.table.WellFormed()
    ensures forall id: ObjId :: c.OpenAt(id) ==>
              var i := Find(c.table.sockets, c.heap[id].fd); i < |c.table.sockets| && c.table.ptrs[i] == id
    ensures forall i :: 0 <= i < |c.table.ptrs| ==>
              c.OpenAt(c.table.ptrs[i]) && c.heap[c.table.ptrs[i]].fd == c.table.sockets[i].fd
    ensures forall k :: k in c.owned ==> c.Live(c.owned[k]) && (c.OpenAt(c.owned[k]) ==> c.heap[c.owned[k]].fd == k.fd)
    ensures forall id: ObjId :: c.Live(id) ==>
              var k := Key(c.heap[id].owner, c.heap[id].key); k in c.owned && c.owned[k] == id
  {
    TableWellFormed(c);
    forall id: ObjId | c.OpenAt(id)
      ensures var i := Find(c.table.sockets, c.heap[id].fd); i < |c.table.sockets| && c.table.ptrs[i] == id
    {
      var j :| 0 <= j < |c.table.ptrs| && c.table.ptrs[j] == id;
      SearchIs(c.table.sockets, c.heap[id].fd, j);
    }
  }

  /** In every reachable state, for every connection: every byte accepted is on the wire or queued, partial flushes are
      the only surplus on the wire; the queue is the unsent tails of what was sent, in send order, less those a single
      write took whole; and the handler asks for writeability only while something is queued. */
  lemma StreamsAreSound(s: Sys, id: ObjId)
    requires Reachable(s) && s.core.Live(id)
    ensures SendQueue.Conserved(s.core.heap[id].out)
    ensures s.core.heap[id].out.flushed + s.core.heap[id].out.queue == s.core.heap[id].out.tails
    ensures s.core.OpenAt(id) && WantsWrite(s.core.table, s.core.heap[id].fd) ==> s.core.heap[id].out.queue != []
  {
    ReachableHolds(s);
  }

  // ------------------------------------------------------------------------------------------
  // Calls of the dispatch loop
  // ------------------------------------------------------------------------------------------

  /** The frame on top of `u` serves a live open object whose own descriptor the kernel reported with the frame's event
      in this pass, and nothing was added or deleted since the loop took its counter value. */
  predicate ServesReported(u: Sys) {
    && u.stack != [] && u.stack[0].Exec? && u.stack[0].tag in {READABLE, WRITEABLE}
    && u.poller.Polling? && u.poller.at == u.core.table.changes
    && u.core.OpenAt(u.stack[0].id)
    && u.poller.i < |u.poller.snap.sockets| == |u.poller.snap.ptrs|
    && u.poller.snap.ptrs[u.poller.i] == u.stack[0].id
    && u.poller.snap.sockets[u.poller.i].fd == u.core.heap[u.stack[0].id].fd
    && (if u.stack[0].tag == READABLE then POLLIN else POLLOUT) in u.poller.snap.sockets[u.poller.i].revents
  }

  /** Whenever the dispatch loop calls an object, it is a live one, at the loop's position in its copy of the report. */
  lemma CallsAreServed(s: Sys, u: Sys)
    requires Inv(s) && WithinCounter(s)
    requires s.stack == [] && s.poller.Polling? && PollStep(s) == Stepped(u) && u.stack != []
    ensures u.core == s.core && ServesReported(u)
  {
    SteadyUnlessExec(s);
    CounterTells(s);
    CallsReported(s, u);
  }

  lemma CallsReported(s: Sys, u: Sys)
    requires Good(s, {}) && s.stack == [] && s.poller.Polling? && PollStep(s) == Stepped(u) && u.stack != []
    requires s.core.table.invalid == s.poller.ref <==> s.core.table.changes == s.poller.at
    ensures u.core == s.core && ServesReported(u)
  {
    if s.poller.phase == Head {
      HeadIs(s);
      HeadAt(s);
      EntryIsLive(s);
      ServedIs(TakeRef(s), POLLIN, READABLE, s.core.table.ptrs[s.poller.i], u);
    } else if s.poller.phase == AfterRead {
      AfterReadIndex(s);
      EntryIsLive(s);
      ServedIs(s.(poller := s.poller.(phase := AfterWrite)), POLLOUT, WRITEABLE, s.core.table.ptrs[s.poller.i], u);
    }
  }

  lemma HeadAt(s: Sys)
    requires Good(s, {}) && s.poller.Polling? && s.poller.phase == Head
    ensures s.poller.at == s.core.table.changes
  {
  }

  lemma ServedIs(s: Sys, bit: Bit, tag: Tag, id: ObjId, u: Sys)
    requires s.poller.Polling? && s.core.OpenAt(id) && s.stack == [] && Serve(s, bit, tag) == Stepped(u)
    requires u.stack != []
    requires (bit == POLLIN && tag == READABLE) || (bit == POLLOUT && tag == WRITEABLE)
    requires s.poller.i < |s.core.table.sockets| == |s.core.table.ptrs| == |s.poller.snap.sockets| ==
             |s.poller.snap.ptrs|
    requires s.core.table.ptrs[s.poller.i] == id == s.poller.snap.ptrs[s.poller.i]
    requires s.poller.at == s.core.table.changes
    requires s.core.heap[id].fd == s.poller.snap.sockets[s.poller.i].fd
    requires s.core.table.sockets[s.poller.i].revents == s.poller.snap.sockets[s.poller.i].revents
    ensures u.core == s.core && ServesReported(u)
  {
  }

  /** A flush is only ever called with something to flush. */
  lemma FlushNeverFindsNothing(s: Sys, i: nat, end: nat, id: ObjId)
    requires Reachable(s) && OnTop(s, id, WRITEABLE, i, end) && i < end && s.core.Live(id)
    requires i < |s.core.heap[id].On(WRITEABLE)| && s.core.heap[id].On(WRITEABLE)[i].exec.Flush?
    ensures s.core.heap[id].Open() && s.core.heap[id].out.queue != []
  {
    ReachableHolds(s);
    AtCallback(s, id, WRITEABLE, i, end);
    WhichCallback(s.core.heap[id], WRITEABLE, i);
  }

  // ------------------------------------------------------------------------------------------
  // Conversations
  // ------------------------------------------------------------------------------------------

  predicate About(e: Event, id: ObjId) {
    e == Accepted(id) || e == Received(id) || e == Disconnected(id)
  }

  /** The events of one client, in order. */
  function Heard(log: seq<Event>, id: ObjId): seq<Event> {
    if log == [] then []
    else Heard(log[..|log| - 1], id) + if About(log[|log| - 1], id) then [log[|log| - 1]] else []
  }

  /** ACCEPT, then `n` times RECEIVE. */
  function Talk(id: ObjId, n: nat): seq<Event> {
    if n == 0 then [Accepted(id)] else Talk(id, n - 1) + [Received(id)]
  }

  lemma {:induction false} LifeIsHeard(log: seq<Event>, id: ObjId) returns (n: nat)
    requires LifeOf(log, id) != Broken
    ensures Heard(log, id) ==
            match LifeOf(log, id)
            case Unknown => []
            case Talking => Talk(id, n)
            case _ => Talk(id, n) + [Disconnected(id)]
  {
    n := 0;
    if log != [] {
      n := LifeIsHeard(log[..|log| - 1], id);
      var e := log[|log| - 1];
      if e == Accepted(id) {
        n := 0;
      } else if e == Received(id) {
        n := n + 1;
      }
    }
  }

  /** In every reachable state each server client was heard as ACCEPT, any number of RECEIVE, and at most one DISCONNECT
      with nothing after it; and an accepted client that has left its container was heard to disconnect. */
  lemma EveryConversationIsProper(s: Sys, id: ObjId) returns (n: nat)
    requires Reachable(s)
    ensures Heard(s.core.log, id) in {[], Talk(id, n), Talk(id, n) + [Disconnected(id)]}
    ensures s.core.OpenAt(id) && s.core.heap[id].owner.Clients? ==> Heard(s.core.log, id) == Talk(id, n)
    ensures !s.core.Live(id) && Heard(s.core.log, id) != [] ==>
              Heard(s.core.log, id) == Talk(id, n) + [Disconnected(id)]
  {
    ReachableHolds(s);
    LifeFacts(s, id);
    n := LifeIsHeard(s.core.log, id);
  }

  lemma LifeFacts(s: Sys, id: ObjId)
    requires exists closing :: Good(s, closing)
    ensures LifeOf(s.core.log, id) != Broken
    ensures s.core.OpenAt(id) && s.core.heap[id].owner.Clients? ==> LifeOf(s.core.log, id) == Talking
    ensures !s.core.Live(id) ==> LifeOf(s.core.log, id) == Unknown || LifeOf(s.core.log, id) == Gone
  {
    var closing :| Good(s, closing);
  }
}
