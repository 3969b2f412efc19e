/** The dispatch loop in runs of the machine: a pass in which nothing is added or deleted makes exactly the calls that
    `Dispatch.AllCalls` lists, whatever else user code does between and inside them. */
module Passes {
  import opened PollHandler
  import opened Core
  import opened Machine
  import opened Safety
  import Dispatch
  import Runs
  import Steps

  /** The countdown is the number of ready entries from the current one on, which is itself ready while it is served. */
  predicate Counted(p: Poller) {
    var counted :=
      p.Polling? ==>
        && p.snap.Aligned() && p.i <= |p.snap.sockets| && p.n == Dispatch.ReadyCount(p.snap, p.i)
        && (p.phase != Head ==> p.i < |p.snap.sockets| && p.snap.sockets[p.i].revents != {});
    counted
  }

  /** The calls still to come in the pass. */
  function Ahead(p: Poller): seq<Dispatch.Call>
    requires Counted(p)
  {
    if !p.Polling? then []
    else
      match p.phase
      case Head => Dispatch.AllCalls(p.snap, p.i)
      case AfterRead => Dispatch.WriteCalls(p.snap, p.i) + Dispatch.AllCalls(p.snap, p.i + 1)
      case AfterWrite => Dispatch.AllCalls(p.snap, p.i + 1)
  }

  /** The call of an object with which the loop went from `s` to `u`, if it made one. */
  function CallOf(s: Sys, u: Sys): seq<Dispatch.Call> {
    if s.stack == [] && s.poller.Polling? && u.stack != [] && u.stack[0].Exec? &&
      s.poller.i < |s.poller.snap.sockets| then
      var id, fd := u.stack[0].id, s.poller.snap.sockets[s.poller.i].fd;
      if u.stack[0].tag == READABLE then [Dispatch.Readable(id, fd)]
      else if u.stack[0].tag == WRITEABLE then [Dispatch.Writeable(id, fd)]
      else []
    else []
  }

  /** The calls the loop makes in a run. */
  function CallsMade(s: Sys, choices: seq<Choice>): seq<Dispatch.Call>
    decreases choices
  {
    if choices == [] || !Step(s, choices[0]).Stepped? then []
    else CallOf(s, Step(s, choices[0]).sys) + CallsMade(Step(s, choices[0]).sys, choices[1..])
  }

  /** The pass is not over before the end of the run. */
  predicate DuringPass(s: Sys, choices: seq<Choice>)
    decreases choices
  {
    choices == [] ||
    (s.poller.Polling? && Step(s, choices[0]).Stepped? && DuringPass(Step(s, choices[0]).sys, choices[1..]))
  }

  // ------------------------------------------------------------------------------------------
  // The steps of the loop
  // ------------------------------------------------------------------------------------------

  /** The table still has the shape of the report. */
  lemma Snapped(s: Sys)
    requires Good(s, {}) && s.poller.Polling? && s.poller.at == s.core.table.changes
    ensures SameShape(s.poller.snap, s.core.table) && s.core.table.Aligned() && s.poller.snap.Aligned()
    ensures s.poller.phase != Head ==> s.poller.i < |s.poller.snap.sockets|
  {
    TableWellFormed(s.core);
  }

  /** The loop served one entry with one event. */
  lemma Serves(s: Sys, p: Poller, bit: Bit, tag: Tag, u: Sys)
    requires Good(s, {}) && s.stack == [] && s.poller.Polling? && s.poller.at == s.core.table.changes
    requires s.poller.i < |s.poller.snap.sockets| && p.Polling? && p.snap == s.poller.snap && p.i == s.poller.i
    requires (bit == POLLIN && tag == READABLE) || (bit == POLLOUT && tag == WRITEABLE)
    requires Serve(s.(poller := p), bit, tag) == Stepped(u)
    ensures u.poller == p && u.core == s.core
    ensures CallOf(s, u) == if bit !in s.poller.snap.sockets[p.i].revents then []
                            else if bit == POLLIN then
                              [Dispatch.Readable(s.poller.snap.ptrs[p.i], s.poller.snap.sockets[p.i].fd)]
                            else [Dispatch.Writeable(s.poller.snap.ptrs[p.i], s.poller.snap.sockets[p.i].fd)]
  {
    Snapped(s);
    Steps.EntryIsLive(s);
    var id := s.core.table.ptrs[p.i];
    Steps.ServeIs(s.(poller := p), bit, tag, id);
    CallIs(s, p, tag, id);
  }

  lemma CallIs(s: Sys, p: Poller, tag: Tag, id: ObjId)
    requires s.stack == [] && s.poller.Polling? && s.poller.i < |s.poller.snap.sockets| && s.core.Live(id)
    ensures CallOf(s, s.(poller := p)) == []
    ensures var fd := s.poller.snap.sockets[s.poller.i].fd;
            CallOf(s, PushExec(s.(poller := p), id, tag)) ==
            if tag == READABLE then [Dispatch.Readable(id, fd)]
            else if tag == WRITEABLE then [Dispatch.Writeable(id, fd)] else []
  {
  }

  lemma HeadServes(s: Sys, u: Sys)
    requires Good(s, {}) && s.stack == [] && Counted(s.poller) && s.poller.Polling? && s.poller.phase == Head
    requires s.poller.at == s.core.table.changes && PollStep(s) == Stepped(u)
    ensures Counted(u.poller) && CallOf(s, u) + Ahead(u.poller) == Ahead(s.poller) && u.core == s.core
    ensures u.poller.Polling? ==> u.poller.at == u.core.table.changes
  {
    Steps.HeadIs(s);
    Snapped(s);
    if s.poller.i < |s.poller.snap.sockets| && s.poller.snap.sockets[s.poller.i].revents != {} {
      Serves(s, Steps.TakeRef(s).poller, POLLIN, READABLE, u);
      ReadAhead(s.poller, u.poller);
    } else {
      HeadSkips(s, u);
    }
  }

  lemma HeadSkips(s: Sys, u: Sys)
    requires s.stack == [] && Counted(s.poller) && s.poller.Polling? && s.poller.phase == Head
    requires u == if s.poller.i == |s.poller.snap.sockets| then s.(poller := Idle)
             else s.(poller := s.poller.(i := s.poller.i + 1))
    requires s.poller.i < |s.poller.snap.sockets| ==> s.poller.snap.sockets[s.poller.i].revents == {}
    ensures Counted(u.poller) && CallOf(s, u) + Ahead(u.poller) == Ahead(s.poller)
  {
    NothingHere(s.poller);
    NoCall(CallOf(s, u), Ahead(u.poller));
  }

  lemma NoCall<T>(none: seq<T>, calls: seq<T>)
    requires none == []
    ensures none + calls == calls
  {
  }

  /** The calls of an entry are its readable call, if any, and then those still to come. */
  lemma ReadAhead(p: Poller, q: Poller)
    requires Counted(p) && p.Polling? && p.phase == Head && p.i < |p.snap.sockets| && p.snap.sockets[p.i].revents != {}
    requires q.Polling? && q.phase == AfterRead && q.snap == p.snap && q.i == p.i && q.n == p.n
    ensures Counted(q)
    ensures Ahead(p) == (if POLLIN in p.snap.sockets[p.i].revents
                         then [Dispatch.Readable(p.snap.ptrs[p.i], p.snap.sockets[p.i].fd)] else []) + Ahead(q)
  {
  }

  lemma NothingHere(p: Poller)
    requires Counted(p) && p.Polling? && p.phase == Head
    requires p.i < |p.snap.sockets| ==> p.snap.sockets[p.i].revents == {}
    ensures p.i == |p.snap.sockets| ==> Ahead(p) == []
    ensures p.i < |p.snap.sockets| ==> Counted(p.(i := p.i + 1)) && Ahead(p.(i := p.i + 1)) == Ahead(p)
  {
  }

  lemma AfterReadServes(s: Sys, u: Sys)
    requires Good(s, {}) && s.stack == [] && Counted(s.poller) && s.poller.Polling? && s.poller.phase == AfterRead
    requires s.poller.at == s.core.table.changes && s.core.table.invalid == s.poller.ref && PollStep(s) == Stepped(u)
    ensures Counted(u.poller) && CallOf(s, u) + Ahead(u.poller) == Ahead(s.poller) && u.core == s.core
    ensures u.poller.Polling? ==> u.poller.at == u.core.table.changes
  {
    var q := s.poller.(phase := AfterWrite);
    Steps.NoEditSince(s);
    AfterReadIs(s, q);
    Serves(s, q, POLLOUT, WRITEABLE, u);
    WriteAhead(s.poller, q);
  }

  lemma WriteAhead(p: Poller, q: Poller)
    requires Counted(p) && p.Polling? && p.phase == AfterRead && q == p.(phase := AfterWrite)
    ensures Counted(q)
    ensures Ahead(p) == (if POLLOUT in p.snap.sockets[p.i].revents
                         then [Dispatch.Writeable(p.snap.ptrs[p.i], p.snap.sockets[p.i].fd)] else []) + Ahead(q)
  {
  }

  lemma AfterReadIs(s: Sys, q: Poller)
    requires s.poller.Polling? && s.poller.phase == AfterRead && q == s.poller.(phase := AfterWrite)
    requires s.core.table.invalid == s.poller.ref && s.core.table.edits == s.poller.snap.edits
    ensures PollStep(s) == Serve(s.(poller := q), POLLOUT, WRITEABLE)
    ensures Counted(s.poller) ==> Counted(q)
  {
  }

  lemma AfterWriteServes(s: Sys, u: Sys)
    requires Good(s, {}) && s.stack == [] && Counted(s.poller) && s.poller.Polling? && s.poller.phase == AfterWrite
    requires s.poller.at == s.core.table.changes && s.core.table.invalid == s.poller.ref && PollStep(s) == Stepped(u)
    ensures Counted(u.poller) && CallOf(s, u) + Ahead(u.poller) == Ahead(s.poller) && u.core == s.core
    ensures u.poller.Polling? ==> u.poller.at == u.core.table.changes
  {
    Steps.NoEditSince(s);
    Steps.AfterWriteIs(s);
    GoesOn(s, u);
  }

  lemma GoesOn(s: Sys, u: Sys)
    requires s.stack == [] && Counted(s.poller) && s.poller.Polling? && s.poller.phase == AfterWrite
    requires u == if s.poller.n - 1 == 0 then s.(poller := Idle)
                  else s.(poller := s.poller.(i := s.poller.i + 1, n := s.poller.n - 1, phase := Head))
    ensures Counted(u.poller) && CallOf(s, u) + Ahead(u.poller) == Ahead(s.poller)
  {
    EntryDone(s.poller);
    NoCall(CallOf(s, u), Ahead(u.poller));
  }

  /** After an entry: none is left, or the next one is counted. */
  lemma EntryDone(p: Poller)
    requires Counted(p) && p.Polling? && p.phase == AfterWrite
    ensures p.n - 1 == 0 ==> Ahead(p) == []
    ensures p.n - 1 != 0 ==>
              var q := p.(i := p.i + 1, n := p.n - 1, phase := Head); Counted(q) && Ahead(q) == Ahead(p)
  {
    if p.n - 1 == 0 { NoneAhead(p.snap, p.i + 1); }
  }

  /** No ready entry is left, so no call. */
  lemma {:induction false} NoneAhead(t: Table, i: nat)
    requires t.Aligned() && i <= |t.sockets| && Dispatch.ReadyCount(t, i) == 0
    ensures Dispatch.AllCalls(t, i) == []
    decreases |t.sockets| - i
  {
    if i == |t.sockets| {
    } else {
      NoneAhead(t, i + 1);
    }
  }

  /** One step of the loop when nothing was added or deleted since the report. */
  lemma LoopServes(s: Sys, u: Sys)
    requires Inv(s) && WithinCounter(s) && s.stack == [] && s.poller.Polling? && Counted(s.poller)
    requires s.poller.at == s.core.table.changes && PollStep(s) == Stepped(u)
    ensures Counted(u.poller) && CallOf(s, u) + Ahead(u.poller) == Ahead(s.poller) && u.core == s.core
    ensures u.poller.Polling? ==> u.poller.at == u.core.table.changes
  {
    Steps.SteadyUnlessExec(s);
    Steps.CounterTells(s);
    match s.poller.phase
    case Head => HeadServes(s, u);
    case AfterRead => AfterReadServes(s, u);
    case AfterWrite => AfterWriteServes(s, u);
  }

  // ------------------------------------------------------------------------------------------
  // Everything else
  // ------------------------------------------------------------------------------------------

  /** A step inside a callback leaves the loop's own state alone, and changes to the handler only add up. */
  predicate Apart(s: Sys, out: Outcome) {
    out.Stepped? ==> out.sys.poller == s.poller && out.sys.core.table.changes >= s.core.table.changes
  }

  lemma CloseApart(s: Sys, id: ObjId)
    requires s.core.Live(id) && s.core.table.Aligned()
    ensures Apart(s, Stepped(CloseSocket(s, id)))
  {
  }

  lemma ListenApart(s: Sys, server: nat, fd: int, stage: Stage)
    ensures Apart(s, Stepped(Listen(s, server, fd, stage)))
  {
  }

  lemma ConnectApart(s: Sys, client: nat, fd: int, stage: Stage)
    ensures Apart(s, Stepped(Connect(s, client, fd, stage)))
  {
  }

  lemma AcceptApart(s: Sys, server: nat, fd: int)
    ensures Apart(s, AcceptClient(s, server, fd))
  {
  }

  lemma SendApart(s: Sys, ch: Choice)
    requires ch.CallSend?
    ensures Apart(s, UserStep(s, ch))
  {
  }

  lemma UserApart(s: Sys, ch: Choice)
    ensures Apart(s, UserStep(s, ch))
  {
    match ch
    case CallListen(server, fd, stage) => ListenApart(s, server, fd, stage);
    case CallConnect(client, fd, stage) => ConnectApart(s, client, fd, stage);
    case CallSend(_, _, _) => SendApart(s, ch);
    case CallClose(id) => if s.core.Live(id) && s.core.table.Aligned() { CloseApart(s, id); }
    case _ =>
  }

  lemma CallbackApart(s: Sys, id: ObjId, e: Core.Exec, answer: int)
    requires s.core.Live(id) && s.core.table.Aligned()
    ensures Apart(s, Dispatched(s, id, e, answer))
  {
    match e
    case Accept(server) => AcceptApart(s, server, answer);
    case Recv => CloseApart(s, id);
    case _ =>
  }

  lemma ExecApart(s: Sys, id: ObjId, tag: Tag, i: nat, end: nat, answer: int)
    requires s.stack != []
    ensures Apart(s, ExecStep(s, id, tag, i, end, answer))
  {
    if i < end && s.core.Live(id) && |s.core.heap[id].On(tag)| == end && s.core.table.Aligned() {
      var cb := s.core.heap[id].On(tag)[i];
      var rest := s.stack[1..];
      var under := s.(stack := if cb.Stops() then rest else [Exec(id, tag, i + 1, end)] + rest);
      CallbackApart(under, id, cb.exec, answer);
    }
  }

  lemma DrainApart(s: Sys, o: Owner)
    requires s.stack != []
    ensures Apart(s, DrainStep(s, o))
  {
  }

  lemma StepApart(s: Sys, ch: Choice)
    requires s.stack != []
    ensures Apart(s, Step(s, ch))
  {
    match s.stack[0]
    case Hook => UserApart(s, ch);
    case Exec(id, tag, i, end) => if ch.Go? { ExecApart(s, id, tag, i, end, ch.answer); }
    case Draining(o) => DrainApart(s, o);
    case CloseNext(id) =>
      if s.core.Live(id) && s.core.table.Aligned() { CloseApart(s.(stack := s.stack[1..]), id); }
    case RaiseError(_) =>
  }

  // ------------------------------------------------------------------------------------------
  // A whole pass
  // ------------------------------------------------------------------------------------------

  lemma StepOnward(s: Sys, ch: Choice, u: Sys)
    requires Step(s, ch) == Stepped(u) && (s.stack != [] || s.poller.Polling?)
    ensures u.core.table.changes >= s.core.table.changes
    ensures s.stack != [] ==> u.poller == s.poller && CallOf(s, u) == []
  {
    if s.stack != [] { StepApart(s, ch); }
  }

  lemma {:induction false} RunOnward(s: Sys, choices: seq<Choice>, u: Sys)
    requires IsRun(s, choices) && EndOf(s, choices) == Stepped(u) && DuringPass(s, choices)
    ensures u.core.table.changes >= s.core.table.changes
    decreases choices
  {
    if choices == [] {
    } else {
      StepOnward(s, choices[0], Step(s, choices[0]).sys);
      RunOnward(Step(s, choices[0]).sys, choices[1..], u);
    }
  }

  /** As long as nothing is added or deleted, what the loop calls and what is still ahead is what was ahead. */
  lemma {:induction false} PassServes(s: Sys, choices: seq<Choice>, u: Sys)
    requires Inv(s) && WithinCounter(s) && Counted(s.poller)
    requires s.poller.Polling? ==> s.poller.at == s.core.table.changes
    requires IsRun(s, choices) && EndOf(s, choices) == Stepped(u) && DuringPass(s, choices)
    requires u.core.table.changes == s.core.table.changes
    ensures Counted(u.poller) && CallsMade(s, choices) + Ahead(u.poller) == Ahead(s.poller)
    decreases choices
  {
    if choices == [] {
      NoCall([], Ahead(u.poller));
    } else {
      var m := Step(s, choices[0]).sys;
      StepServes(s, choices[0], m, choices[1..], u);
      PassServes(m, choices[1..], u);
      Dispatch.Appended(CallOf(s, m), CallsMade(m, choices[1..]), Ahead(u.poller));
    }
  }

  lemma StepServes(s: Sys, ch: Choice, m: Sys, choices: seq<Choice>, u: Sys)
    requires Inv(s) && WithinCounter(s) && Counted(s.poller) && s.poller.Polling? && s.poller.at == s.core.table.changes
    requires Allowed(s, ch) && Step(s, ch) == Stepped(m)
    requires IsRun(m, choices) && EndOf(m, choices) == Stepped(u) && DuringPass(m, choices)
    requires u.core.table.changes == s.core.table.changes
    ensures Inv(m) && m.core.table.changes == s.core.table.changes
    ensures Counted(m.poller) && CallOf(s, m) + Ahead(m.poller) == Ahead(s.poller)
    ensures m.poller.Polling? ==> m.poller.at == m.core.table.changes
  {
    Steps.StepKeeps(s, ch);
    StepOnward(s, ch, m);
    RunOnward(m, choices, u);
    if s.stack == [] {
      LoopServes(s, m);
    } else {
      NoCall(CallOf(s, m), Ahead(m.poller));
    }
  }

  // ------------------------------------------------------------------------------------------
  // Against the kernel's own answer
  // ------------------------------------------------------------------------------------------

  predicate Starts(s: Sys, reported: seq<Mask>) {
    && s.stack == [] && s.poller.Idle? && Allowed(s, CallPoll(reported))
    && |reported| == |s.core.table.sockets| && s.core.table.sockets != []
  }

  lemma Started(s: Sys, reported: seq<Mask>, started: Sys)
    requires Runs.Reachable(s) && Starts(s, reported) && StartPoll(s, reported) == Stepped(started)
    ensures s.core.table.Aligned() && Inv(started) && WithinCounter(started) && Counted(started.poller)
    ensures started.poller.snap == Dispatch.Report(s.core.table, reported)
    ensures started.poller.at == started.core.table.changes == s.core.table.changes
    ensures Ahead(started.poller) == Dispatch.Due(s.core.table, reported, 0)
  {
    Runs.ReachableHolds(s);
    TableWellFormed(s.core);
    Steps.StepKeeps(s, CallPoll(reported));
    Dispatch.ReportIsDue(s.core.table, reported, 0);
  }

  /** Once something was added or deleted, the loop leaves at its next look and calls nothing. */
  lemma LoopLeaves(s: Sys, u: Sys)
    requires Inv(s) && WithinCounter(s) && s.stack == [] && s.poller.Polling?
    requires s.poller.at != s.core.table.changes && PollStep(s) == Stepped(u)
    ensures u.poller.Idle? && CallOf(s, u) == []
  {
    Steps.SteadyUnlessExec(s);
    Steps.CounterTells(s);
    if s.poller.phase == Head { Runs.HeadAt(s); }
  }

  lemma PollStepIs(s: Sys, ch: Choice, m: Sys)
    requires s.stack == [] && s.poller.Polling? && Step(s, ch) == Stepped(m)
    ensures PollStep(s) == Stepped(m)
  {
  }

  lemma FirstCalls<T>(call: seq<T>, more: seq<T>, ahead: seq<T>, all: seq<T>)
    requires call + ahead == all && more <= ahead
    ensures call + more <= all
  {
  }

  /** Whatever happens during a pass, the calls made so far are the first of those that were ahead. */
  lemma {:induction false} PassCalls(s: Sys, choices: seq<Choice>)
    requires Inv(s) && WithinCounter(s) && Counted(s.poller) && IsRun(s, choices) && DuringPass(s, choices)
    ensures CallsMade(s, choices) <= Ahead(s.poller)
    decreases choices
  {
    if choices != [] {
      var m, rest := Step(s, choices[0]).sys, choices[1..];
      Steps.StepKeeps(s, choices[0]);
      if s.stack != [] {
        StepOnward(s, choices[0], m);
        PassCalls(m, rest);
        NoCall(CallOf(s, m), CallsMade(m, rest));
      } else {
        PollStepIs(s, choices[0], m);
        if s.poller.at == s.core.table.changes {
          LoopServes(s, m);
          PassCalls(m, rest);
          FirstCalls(CallOf(s, m), CallsMade(m, rest), Ahead(m.poller), Ahead(s.poller));
        } else {
          LoopLeaves(s, m);
          assert rest == [];
        }
      }
    }
  }

  /** In any run, whatever user code does in its callbacks: the calls a pass makes are the first of those that the
      kernel's answer asks for, position by position, each of the object and the descriptor that were at that position
      when the kernel answered. */
  lemma PassCallsWhatIsDue(s: Sys, reported: seq<Mask>, started: Sys, choices: seq<Choice>)
    requires Runs.Reachable(s) && Starts(s, reported) && StartPoll(s, reported) == Stepped(started)
    requires IsRun(started, choices) && DuringPass(started, choices)
    ensures s.core.table.Aligned()
    ensures CallsMade(started, choices) <= Dispatch.Due(s.core.table, reported, 0)
  {
    Started(s, reported, started);
    PassCalls(started, choices);
  }

  /** The loop's copy of the report stays the one it started with. */
  lemma {:induction false} SameReport(s: Sys, choices: seq<Choice>, u: Sys)
    requires IsRun(s, choices) && DuringPass(s, choices) && EndOf(s, choices) == Stepped(u) && u.poller.Polling?
    ensures s.poller.Polling? && u.poller.snap == s.poller.snap
    decreases choices
  {
    if choices != [] {
      var m := Step(s, choices[0]).sys;
      if s.stack != [] {
        StepApart(s, choices[0]);
      } else if m.poller.Polling? {
        PollStepIs(s, choices[0], m);
        LoopKeepsReport(s, m);
      }
      SameReport(m, choices[1..], u);
    }
  }

  /** Whenever the loop calls an object in a pass, that object is alive and open, and the kernel's own answer for the
      position it was at, under the descriptor it still has, carries the event it is called for. */
  lemma LoopCallsReportedObjects(s: Sys, reported: seq<Mask>, started: Sys, choices: seq<Choice>, m: Sys, u: Sys)
    returns (i: nat)
    requires Runs.Reachable(s) && Starts(s, reported) && StartPoll(s, reported) == Stepped(started)
    requires IsRun(started, choices) && DuringPass(started, choices) && EndOf(started, choices) == Stepped(m)
    requires m.stack == [] && m.poller.Polling? && PollStep(m) == Stepped(u) && u.stack != []
    ensures u.core == m.core && u.stack[0].Exec? && u.core.OpenAt(u.stack[0].id)
    ensures i < |reported| == |s.core.table.sockets| == |s.core.table.ptrs|
    ensures s.core.table.ptrs[i] == u.stack[0].id && s.core.table.sockets[i].fd == u.core.heap[u.stack[0].id].fd
    ensures if u.stack[0].tag == READABLE then POLLIN in reported[i]
            else u.stack[0].tag == WRITEABLE && POLLOUT in reported[i]
  {
    Started(s, reported, started);
    Runs.RunKeeps(started, choices);
    SameReport(started, choices, m);
    Runs.CallsAreServed(m, u);
    LoopKeepsReport(m, u);
    i := u.poller.i;
    ServedIsReported(s.core.table, reported, u);
  }

  lemma LoopKeepsReport(s: Sys, u: Sys)
    requires s.stack == [] && s.poller.Polling? && PollStep(s) == Stepped(u) && u.poller.Polling?
    ensures u.poller.snap == s.poller.snap
  {
  }

  lemma ServedIsReported(t: Table, reported: seq<Mask>, u: Sys)
    requires t.Aligned() && |reported| == |t.sockets|
    requires Runs.ServesReported(u) && u.poller.snap == Dispatch.Report(t, reported)
    ensures var i, id := u.poller.i, u.stack[0].id;
            && u.core.OpenAt(id)
            && i < |reported| && t.ptrs[i] == id && t.sockets[i].fd == u.core.heap[id].fd
            && (if u.stack[0].tag == READABLE then POLLIN in reported[i]
                else u.stack[0].tag == WRITEABLE && POLLOUT in reported[i])
  {
  }

  /** In any run, a pass of the loop during which nothing was added or deleted makes one readable call for each position
      the kernel answered with POLLIN and one writeable call for each answered with POLLOUT, in index order, read before
      write, and no other: what `Dispatch.Pass` makes with callbacks that leave the handler alone. */
  lemma PassIsComplete(s: Sys, reported: seq<Mask>, started: Sys, choices: seq<Choice>, u: Sys)
    requires Runs.Reachable(s) && Starts(s, reported) && StartPoll(s, reported) == Stepped(started)
    requires IsRun(started, choices) && EndOf(started, choices) == Stepped(u) && DuringPass(started, choices)
    requires u.poller.Idle? && u.core.table.changes == s.core.table.changes
    ensures s.core.table.Aligned()
    ensures CallsMade(started, choices) == Dispatch.Due(s.core.table, reported, 0)
    ensures var t := Dispatch.Report(s.core.table, reported);
            Dispatch.Pass(t, Dispatch.ReadyCount(t, 0), []).calls == Dispatch.Due(s.core.table, reported, 0)
  {
    Started(s, reported, started);
    PassServes(started, choices, u);
    NoCallAhead(CallsMade(started, choices));
    Dispatch.DispatchIsComplete(Dispatch.Report(s.core.table, reported), []);
    Dispatch.ReportIsDue(s.core.table, reported, 0);
  }

  lemma NoCallAhead<T>(calls: seq<T>)
    ensures calls + [] == calls
  {
  }
}
