/** Runs of the machine in which user code returns at once, which it may always do: from where to where they lead. */
module Reaching {
  import opened PollHandler
  import opened Core
  import opened Machine
  import opened Closing
  import opened Quiet
  import opened Reentry
  import EngineFacts

  /** A run from `s` to `u`. */
  ghost predicate RunsTo(s: Sys, choices: seq<Choice>, u: Sys) {
    IsRun(s, choices) && EndOf(s, choices) == Stepped(u)
  }

  ghost predicate Reaches(s: Sys, u: Sys) {
    exists choices :: RunsTo(s, choices, u)
  }

  /** Some run that keeps every obligation of user code and kernel reads a destroyed object, or goes on over edited
      vectors. */
  ghost predicate MayGoWrong(s: Sys) {
    exists choices :: IsRun(s, choices) && EndOf(s, choices).Undefined?
  }

  /** `n` adds or deletes more will not bring the loop's counter value round. */
  predicate Room(c: State, p: Poller, n: nat) {
    p.Polling? ==> c.table.changes + n < p.at + SPAN
  }

  lemma ReachesOn(s: Sys, m: Sys, u: Sys)
    requires Reaches(s, m) && Reaches(m, u)
    ensures Reaches(s, u)
  {
    var a :| RunsTo(s, a, m);
    var b :| RunsTo(m, b, u);
    RunOn(s, a, m, b);
    assert RunsTo(s, a + b, u);
  }

  lemma OneReach(s: Sys, ch: Choice, u: Sys)
    requires Allowed(s, ch) && Step(s, ch) == Stepped(u) && WithinCounter(u)
    ensures Reaches(s, u)
  {
    OneRun(s, ch);
    assert RunsTo(s, [ch], u);
  }

  lemma {:induction false} RunOn(s: Sys, a: seq<Choice>, m: Sys, b: seq<Choice>)
    requires RunsTo(s, a, m) && IsRun(m, b)
    ensures IsRun(s, a + b) && EndOf(s, a + b) == EndOf(m, b)
    decreases a
  {
    if a == [] {
      assert a + b == b;
    } else {
      var u := RunTail(s, a, m);
      RunOn(u, a[1..], m, b);
      TailOfSum(a, b);
      RunCons(s, a + b, u);
    }
  }

  lemma TailOfSum<T>(a: seq<T>, b: seq<T>)
    requires a != []
    ensures a + b != [] && (a + b)[0] == a[0] && (a + b)[1..] == a[1..] + b
  {
  }

  lemma RunTail(s: Sys, a: seq<Choice>, m: Sys) returns (u: Sys)
    requires RunsTo(s, a, m) && a != []
    ensures Allowed(s, a[0]) && Step(s, a[0]) == Stepped(u) && WithinCounter(u) && RunsTo(u, a[1..], m)
  {
    u := Step(s, a[0]).sys;
  }

  lemma RunCons(s: Sys, choices: seq<Choice>, u: Sys)
    requires choices != [] && Allowed(s, choices[0]) && Step(s, choices[0]) == Stepped(u)
    requires WithinCounter(u) && IsRun(u, choices[1..])
    ensures IsRun(s, choices) && EndOf(s, choices) == EndOf(u, choices[1..])
  {
  }

  lemma OneRun(s: Sys, ch: Choice)
    requires Allowed(s, ch) && (Step(s, ch).Stepped? ==> WithinCounter(Step(s, ch).sys)) && !Step(s, ch).Ignored?
    ensures IsRun(s, [ch]) && EndOf(s, [ch]) == Step(s, ch)
  {
    assert [ch][1..] == [];
    if Step(s, ch).Stepped? {
      assert EndOf(Step(s, ch).sys, []) == Step(s, ch);
    }
  }

  /** The steps of one callback of a CLOSED list, to the next one or out of the list: user code returns at once,
      which it may always do, and no callback there asks the kernel for anything. */
  lemma OneCallbackRun(c: State, id: ObjId, i: nat, rest: seq<Frame>, p: Poller) returns (choices: seq<Choice>)
    requires c.Live(id) && c.table.Aligned() && ClosingList(c.heap[id]) && i < |c.heap[id].On(CLOSED)|
    requires WithinCounter(Sys(c, rest, p))
    ensures var cb := c.heap[id].On(CLOSED)[i];
            var c1 := EngineFacts.Told(c, EngineFacts.RaisedBy(cb.exec, id));
            RunsTo(At(c, id, i, rest, p), choices,
                   if cb.Skipped() then At(c, id, i + 1, rest, p)
                   else if cb.exec.Erase? then Sys(Erased(c, c.heap[id].owner, c.heap[id].key), rest, p)
                   else if cb.Stops() then Sys(c1, rest, p)
                   else At(c1, id, i + 1, rest, p))
  {
    var s, cb := At(c, id, i, rest, p), c.heap[id].On(CLOSED)[i];
    assert cb in c.heap[id].On(CLOSED);
    assert s.stack[1..] == rest;
    EngineFacts.ToldOnce(c, cb.exec, id);
    OneRun(s, Go(0));
    choices := [Go(0)];
    if !cb.Skipped() && !cb.exec.Erase? {
      var u := Step(s, Go(0)).sys;
      assert u.stack[0] == Hook;
      assert u.stack[1..] == if cb.Stops() then rest else [Exec(id, CLOSED, i + 1, |c.heap[id].On(CLOSED)|)] + rest;
      OneRun(u, Return);
      RunOn(s, [Go(0)], u, [Return]);
      choices := [Go(0)] + [Return];
    }
  }

  lemma {:induction false} ListIsRun(c: State, id: ObjId, i: nat, rest: seq<Frame>, p: Poller)
    returns (choices: seq<Choice>)
    requires c.Live(id) && c.table.Aligned() && ClosingList(c.heap[id]) && i <= |c.heap[id].On(CLOSED)|
    requires WithinCounter(Sys(c, rest, p))
    ensures RunsTo(At(c, id, i, rest, p), choices, Sys(RanFrom(c, id, i), rest, p))
    decreases |c.heap[id].On(CLOSED)| - i
  {
    RanFromIs(c, id, i);
    if i == |c.heap[id].On(CLOSED)| {
      assert At(c, id, i, rest, p).stack[1..] == rest;
      OneRun(At(c, id, i, rest, p), Go(0));
      return [Go(0)];
    }
    var cb := c.heap[id].On(CLOSED)[i];
    choices := OneCallbackRun(c, id, i, rest, p);
    if cb.Skipped() {
      var more := ListIsRun(c, id, i + 1, rest, p);
      RunOn(At(c, id, i, rest, p), choices, At(c, id, i + 1, rest, p), more);
      choices := choices + more;
    } else if !cb.exec.Erase? && !cb.Stops() {
      var c1 := EngineFacts.Told(c, EngineFacts.RaisedBy(cb.exec, id));
      var more := ListIsRun(c1, id, i + 1, rest, p);
      RunOn(At(c, id, i, rest, p), choices, At(c1, id, i + 1, rest, p), more);
      choices := choices + more;
    }
  }

  lemma SameTable(c: State, id: ObjId)
    requires c.Live(id)
    ensures RanQuietly(c, id).table == c.table
  {
  }

  lemma HookIsRun(c: State, rest: seq<Frame>, p: Poller)
    requires WithinCounter(Sys(c, rest, p))
    ensures RunsTo(Sys(c, [Hook] + rest, p), [Return], Sys(c, rest, p))
  {
    assert ([Hook] + rest)[1..] == rest;
    OneRun(Sys(c, [Hook] + rest, p), Return);
  }

  lemma AlreadyThere(s: Sys)
    ensures Reaches(s, s)
  {
    assert RunsTo(s, [], s);
  }

  lemma HookReach(c: State, rest: seq<Frame>, p: Poller)
    requires WithinCounter(Sys(c, rest, p))
    ensures Reaches(Sys(c, [Hook] + rest, p), Sys(c, rest, p))
  {
    HookIsRun(c, rest, p);
    assert RunsTo(Sys(c, [Hook] + rest, p), [Return], Sys(c, rest, p));
  }

  /** The ERROR event of a server or client is raised and user code called. */
  lemma ErrorReaches(c: State, o: Owner, rest: seq<Frame>, p: Poller)
    requires WithinCounter(Sys(c, rest, p))
    ensures Reaches(Sys(c, [RaiseError(o)] + rest, p), Sys(Logged(c, Failed(o)), [Hook] + rest, p))
  {
    assert ([RaiseError(o)] + rest)[1..] == rest;
    OneReach(Sys(c, [RaiseError(o)] + rest, p), Go(0), Sys(Logged(c, Failed(o)), [Hook] + rest, p));
  }

  /** A step into going wrong. */
  lemma WrongNow(s: Sys, ch: Choice)
    requires Allowed(s, ch) && Step(s, ch) == Undefined
    ensures MayGoWrong(s)
  {
    OneRun(s, ch);
    WrongRun(s, [ch]);
  }

  lemma WrongRun(s: Sys, choices: seq<Choice>)
    requires IsRun(s, choices) && EndOf(s, choices).Undefined?
    ensures MayGoWrong(s)
  {
  }

  /** What goes wrong later goes wrong. */
  lemma WrongLater(s: Sys, u: Sys)
    requires Reaches(s, u) && MayGoWrong(u)
    ensures MayGoWrong(s)
  {
    var a :| RunsTo(s, a, u);
    var b :| IsRun(u, b) && EndOf(u, b).Undefined?;
    RunOn(s, a, u, b);
    WrongRun(s, a + b);
  }

  // ------------------------------------------------------------------------------------------
  // Closing
  // ------------------------------------------------------------------------------------------

  /** `socket::close` of a socket that it destroys. */
  lemma CloseReaches(s: Sys, id: ObjId) returns (u: State)
    requires Closable(s.core, id) && Room(s.core, s.poller, 1)
    ensures s.core.OpenAt(id) && s.core.table.Aligned() && Reaches(CloseSocket(s, id), s.On(u)) && !u.Live(id)
    ensures u == ClosedQuietly(s.core, id) && u.heap == s.core.heap - {id} && u.table.Aligned()
    ensures u.table.changes == s.core.table.changes + 1
  {
    AlignedValid(s.core);
    var c := Shut(s.core, id);
    ShutKeeps(s.core, id);
    AlignedValid(c);
    SameClosingList(s.core, id);
    ShutCounts(s.core, id);
    var choices := ListIsRun(c, id, 0, s.stack, s.poller);
    assert RunsTo(CloseSocket(s, id), choices, Sys(RanFrom(c, id, 0), s.stack, s.poller));
    FromTheStart(c, id);
    u := ClosedQuietly(s.core, id);
    HeapWithout(s.core, id);
    SameTable(c, id);
  }

  lemma HeapWithout(c: State, id: ObjId)
    requires Closable(c, id)
    ensures c.OpenAt(id) && c.table.Aligned() && ClosedQuietly(c, id).heap == c.heap - {id}
  {
    AlignedValid(c);
    ClosedCleanly(c, id);
  }

  lemma ShutCounts(c: State, id: ObjId)
    requires c.Live(id) && c.table.Aligned()
    ensures Shut(c, id).table.changes == c.table.changes + 1
  {
  }

  /** One turn of the loop of `socket_container::close`. */
  lemma TurnReaches(c: State, o: Owner, rest: seq<Frame>, p: Poller)
    requires Consistent(c) && Ready(c.heap, o) && c.KeysOf(o) != {} && Room(c, p, 1)
    ensures Reaches(Drainer(c, o, rest, p), Drainer(Turn(c, o), o, rest, p))
    ensures Turn(c, o).table.changes == c.table.changes + 1
  {
    var s, id := Drainer(c, o, rest, p), First(c, o);
    FirstIsReady(c, o);
    ConsistentClosable(c, id);
    AlignedAfter(c);
    var u := CloseReaches(s, id);
    DrainStepIs(c, o, rest, p);
    ShutCounts(c, id);
    OneReach(s, Go(0), CloseSocket(s, id));
    ReachesOn(s, CloseSocket(s, id), s.On(u));
  }

  lemma TurnTo(c: State, o: Owner, rest: seq<Frame>, p: Poller) returns (t: State)
    requires Consistent(c) && Ready(c.heap, o) && c.KeysOf(o) != {} && Room(c, p, |c.KeysOf(o)|)
    ensures t == Turn(c, o) && Consistent(t) && Ready(t.heap, o) && |t.KeysOf(o)| == |c.KeysOf(o)| - 1
    ensures Reaches(Drainer(c, o, rest, p), Drainer(t, o, rest, p)) && t.table.changes == c.table.changes + 1
    ensures Room(t, p, |t.KeysOf(o)|)
  {
    t := Turn(c, o);
    TurnReaches(c, o, rest, p);
    TurnConsistent(c, o);
  }

  lemma DrainStepIs(c: State, o: Owner, rest: seq<Frame>, p: Poller)
    requires c.KeysOf(o) != {} ==> c.Live(First(c, o)) && c.table.Aligned()
    ensures c.KeysOf(o) == {} ==> Step(Drainer(c, o, rest, p), Go(0)) == Stepped(Sys(c, rest, p))
    ensures c.KeysOf(o) != {} ==>
              Step(Drainer(c, o, rest, p), Go(0)) == Stepped(CloseSocket(Drainer(c, o, rest, p), First(c, o)))
  {
    assert Drainer(c, o, rest, p).stack[1..] == rest;
  }

  /** From `c` the loop ran to its end in `u`. */
  ghost predicate DrainedTo(c: State, o: Owner, rest: seq<Frame>, p: Poller, u: State) {
    var holds :=
      && Consistent(u) && Drained(c, o, u) && u.table.changes == c.table.changes + |c.KeysOf(o)|
      && Reaches(Drainer(c, o, rest, p), Sys(u, rest, p));
    holds
  }

  lemma DrainOver(c: State, o: Owner, rest: seq<Frame>, p: Poller)
    requires Consistent(c) && c.KeysOf(o) == {} && Room(c, p, 0)
    ensures DrainedTo(c, o, rest, p, c)
  {
    DrainStepIs(c, o, rest, p);
    OneReach(Drainer(c, o, rest, p), Go(0), Sys(c, rest, p));
    NothingLeft(c, o);
  }

  lemma TurnThen(c: State, o: Owner, rest: seq<Frame>, p: Poller, t: State, u: State)
    requires Consistent(c) && Ready(c.heap, o) && c.KeysOf(o) != {} && t == Turn(c, o)
    requires Reaches(Drainer(c, o, rest, p), Drainer(t, o, rest, p)) && t.table.changes == c.table.changes + 1
    requires |t.KeysOf(o)| == |c.KeysOf(o)| - 1 && DrainedTo(t, o, rest, p, u)
    ensures DrainedTo(c, o, rest, p, u)
  {
    ReachesOn(Drainer(c, o, rest, p), Drainer(t, o, rest, p), Sys(u, rest, p));
    AfterTurn(c, o, t, u);
  }

  lemma AfterTurn(c: State, o: Owner, t: State, u: State)
    requires Consistent(c) && Ready(c.heap, o) && c.KeysOf(o) != {} && t == Turn(c, o) && Drained(t, o, u)
    ensures Drained(c, o, u)
  {
    DrainedAfterTurn(c, o, u);
  }

  lemma {:induction false} DrainGoes(c: State, o: Owner, rest: seq<Frame>, p: Poller) returns (u: State)
    requires Consistent(c) && Ready(c.heap, o) && Room(c, p, |c.KeysOf(o)|)
    ensures DrainedTo(c, o, rest, p, u)
    decreases |c.KeysOf(o)|
  {
    if c.KeysOf(o) == {} {
      DrainOver(c, o, rest, p);
      u := c;
    } else {
      var t := TurnTo(c, o, rest, p);
      u := DrainGoes(t, o, rest, p);
      TurnThen(c, o, rest, p, t, u);
    }
  }

  /** The whole loop. */
  lemma DrainReaches(c: State, o: Owner, rest: seq<Frame>, p: Poller, n: nat) returns (u: State)
    requires Consistent(c) && Ready(c.heap, o) && n == |c.KeysOf(o)| && Room(c, p, n)
    ensures Consistent(u) && Drained(c, o, u) && u.table.changes == c.table.changes + n
    ensures Reaches(Drainer(c, o, rest, p), Sys(u, rest, p))
  {
    u := DrainGoes(c, o, rest, p);
  }

  /** `tcp::server::close`. */
  lemma ServerCloseReaches(s: Sys, server: nat) returns (u: State)
    requires Consistent(s.core) && Ready(s.core.heap, Clients(server)) && Ready(s.core.heap, Listeners(server))
    requires Room(s.core, s.poller, |s.core.KeysOf(Clients(server))| + |s.core.KeysOf(Listeners(server))|)
    ensures var called := UserStep(s, CallCloseServer(server)); called.Stepped? && Reaches(called.sys, s.On(u))
    ensures ServerGone(s.core, server, u) && Consistent(u)
    ensures u.table.changes == s.core.table.changes + |s.core.KeysOf(Clients(server))| +
            |s.core.KeysOf(Listeners(server))|
  {
    var o, l := Clients(server), Listeners(server);
    var under := [Draining(l)] + s.stack;
    CloseServerStarts(s, server);
    var m := DrainReaches(s.core, o, under, s.poller, |s.core.KeysOf(o)|);
    ReadyStill(s.core, o, m, l);
    KeysStill(s.core, o, m, l);
    u := DrainReaches(m, l, s.stack, s.poller, |m.KeysOf(l)|);
    ReachesOn(Drainer(s.core, o, under, s.poller), Drainer(m, l, s.stack, s.poller), s.On(u));
    EngineFacts.ServerClosed(s.core, server, m, u);
  }

  lemma KeysStill(s: State, o: Owner, m: State, other: Owner)
    requires Consistent(s) && Drained(s, o, m) && other != o
    ensures m.KeysOf(other) == s.KeysOf(other)
  {
    Untouched(s, o, m, other);
  }

  /** `tcp::client::close`. */
  lemma ClientCloseReaches(s: Sys, client: nat) returns (u: State)
    requires Consistent(s.core) && Ready(s.core.heap, Peers(client))
    requires Room(s.core, s.poller, |s.core.KeysOf(Peers(client))|)
    ensures var called := UserStep(s, CallCloseClient(client)); called.Stepped? && Reaches(called.sys, s.On(u))
    ensures Drained(s.core, Peers(client), u) && Consistent(u)
    ensures u.table.changes == s.core.table.changes + |s.core.KeysOf(Peers(client))|
  {
    u := DrainReaches(s.core, Peers(client), s.stack, s.poller, |s.core.KeysOf(Peers(client))|);
    CloseClientStarts(s, client);
  }

  lemma CloseClientStarts(s: Sys, client: nat)
    ensures UserStep(s, CallCloseClient(client)) == Stepped(Drainer(s.core, Peers(client), s.stack, s.poller))
  {
  }
}
