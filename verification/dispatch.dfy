/** The poll dispatch loop over a handler that callbacks change under it.
    Models includes/events/handlers/poll/poll_impl.hpp and `events::poll` of includes/events/events.hpp.
    A callback is the finite sequence of handler operations it performs; `hooks[k]` is the k-th callback run,
    and a callback beyond the end performs none. */
module Dispatch {
  import opened PollHandler

  datatype Call =
    | Readable(ptr: ObjId, fd: int)
    | Writeable(ptr: ObjId, fd: int)

  /** `used` is the number of callbacks run so far. `exhausted` says the loop left because `n_changes` reached zero.
      Stale: the loop would go on although its vectors were edited since it took the iterator. An add counts, because
      `push_back` may reallocate, and so does a delete of a descriptor that is there, because `erase` moves what
      follows. */
  datatype Outcome =
    | Finished(calls: seq<Call>, table: Table, used: nat, exhausted: bool)
    | Stale(calls: seq<Call>, used: nat)

  function HookAt(hooks: seq<seq<HandlerOp>>, k: nat): seq<HandlerOp> {
    if k < |hooks| then hooks[k] else []
  }

  /** The work on one entry with a non-zero `revents`: either the loop goes on or it leaves. */
  datatype Visited =
    | GoOn(calls: seq<Call>, table: Table, used: nat)
    | Leave(out: Outcome)

  function Visit(t: Table, i: nat, n: int, hooks: seq<seq<HandlerOp>>, k: nat, calls: seq<Call>): (v: Visited)
    requires t.Aligned() && i < |t.sockets|
    ensures v.GoOn? ==> SameShape(t, v.table)
  {
    var readable := POLLIN in t.sockets[i].revents;
    var read := if readable then calls + [Readable(t.ptrs[i], t.sockets[i].fd)] else calls;
    var t1 := if readable then Run(t, HookAt(hooks, k)) else t;
    var k1 := if readable then k + 1 else k;
    if t1.invalid != t.invalid then Leave(Finished(read, t1, k1, false))
    else if t1.edits != t.edits then Leave(Stale(read, k1))
    else VisitWriteable(t1, i, n, hooks, k1, read)
  }

  /** The second half of a visit, after a readable callback that left the vectors alone. */
  function VisitWriteable(t: Table, i: nat, n: int, hooks: seq<seq<HandlerOp>>, k: nat, calls: seq<Call>): (v: Visited)
    requires t.Aligned() && i < |t.sockets|
    ensures v.GoOn? ==> SameShape(t, v.table)
  {
    var writeable := POLLOUT in t.sockets[i].revents;
    var written := if writeable then calls + [Writeable(t.ptrs[i], t.sockets[i].fd)] else calls;
    var t2 := if writeable then Run(t, HookAt(hooks, k)) else t;
    var k2 := if writeable then k + 1 else k;
    if n - 1 == 0 || t2.invalid != t.invalid then Leave(Finished(written, t2, k2, n - 1 == 0))
    else if t2.edits != t.edits then Leave(Stale(written, k2))
    else GoOn(written, t2, k2)
  }

  /** The loop from entry `i` with `n` reported changes left, `k` callbacks already run and `calls` made. */
  function Loop(t: Table, i: nat, n: int, hooks: seq<seq<HandlerOp>>, k: nat, calls: seq<Call>): Outcome
    requires t.Aligned() && i <= |t.sockets|
    decreases |t.sockets| - i
  {
    if i == |t.sockets| then Finished(calls, t, k, false)
    else if t.sockets[i].revents == {} then Loop(t, i + 1, n, hooks, k, calls)
    else
      match Visit(t, i, n, hooks, k, calls)
      case Leave(out) => out
      case GoOn(more, t2, k2) => Loop(t2, i + 1, n - 1, hooks, k2, more)
  }

  /** The whole pass over a handler on which `poll` returned `n`. */
  function Pass(t: Table, n: int, hooks: seq<seq<HandlerOp>>): Outcome
    requires t.Aligned()
  {
    Loop(t, 0, n, hooks, 0, [])
  }

  // ------------------------------------------------------------------------------------------
  // Safety
  // ------------------------------------------------------------------------------------------

  /** What a callback does on a handler that holds `fds`. Quiet: vectors and counter stay as they are. Concealed: it
      edits the vectors, with at least one add or delete of a descriptor that is there, but makes a multiple of 65536
      adds and deletes, so that the counter does not show it. Visible: the counter moves. */
  datatype Kind = Quiet | Concealed | Visible

  function KindOf(fds: seq<int>, ops: seq<HandlerOp>): Kind {
    if !Hidden(StructuralCount(ops)) then Visible
    else if Edits(fds, ops) > 0 then Concealed
    else Quiet
  }

  function Kinds(fds: seq<int>, hooks: seq<seq<HandlerOp>>): (kinds: seq<Kind>)
    ensures |kinds| == |hooks|
  {
    if hooks == [] then [] else [KindOf(fds, hooks[0])] + Kinds(fds, hooks[1..])
  }

  lemma {:induction false} KindsAt(fds: seq<int>, hooks: seq<seq<HandlerOp>>, k: nat)
    requires k < |hooks|
    ensures Kinds(fds, hooks)[k] == KindOf(fds, hooks[k])
  {
    if k == 0 {
    } else {
      KindsAt(fds, hooks[1..], k - 1);
    }
  }

  /** A callback beyond the end does nothing. */
  function KindAt(kinds: seq<Kind>, k: nat): Kind {
    if k < |kinds| then kinds[k] else Quiet
  }

  predicate AllQuiet(kinds: seq<Kind>, from: nat, to: int) {
    forall j: nat :: from <= j < to ==> KindAt(kinds, j) == Quiet
  }

  /** The kinds of the callbacks on a handler. */
  function KindsOn(t: Table, hooks: seq<seq<HandlerOp>>): seq<Kind> {
    Kinds(Fds(t), hooks)
  }

  lemma KindsOfShape(t: Table, u: Table, hooks: seq<seq<HandlerOp>>)
    requires SameShape(t, u)
    ensures KindsOn(t, hooks) == KindsOn(u, hooks)
  {
    FdsOfShape(t, u);
  }

  /** The kind of a callback is what running it does to the counter and the vectors. */
  predicate KindFits(t: Table, ops: seq<HandlerOp>, kind: Kind)
    requires t.Aligned()
  {
    var u := Run(t, ops);
    match kind
    case Quiet => u.invalid == t.invalid && u.edits == t.edits
    case Concealed => u.invalid == t.invalid && u.edits != t.edits
    case Visible => u.invalid != t.invalid
  }

  lemma WhatKind(t: Table, ops: seq<HandlerOp>)
    requires t.Aligned()
    ensures KindFits(t, ops, KindOf(Fds(t), ops))
  {
    UnseenIffMultiple(t, ops);
    HiddenIsMultiple(StructuralCount(ops));
    RunEdits(t, ops);
  }

  lemma HookKind(t: Table, hooks: seq<seq<HandlerOp>>, k: nat)
    requires t.Aligned()
    ensures KindFits(t, HookAt(hooks, k), KindAt(KindsOn(t, hooks), k))
  {
    if k < |hooks| {
      KindsAt(Fds(t), hooks, k);
      WhatKind(t, hooks[k]);
    }
  }

  /** The loop goes on past a callback only if that callback left the vectors and the counter alone, for any
      callbacks and any counter value. */
  lemma {:induction false} OnlyLastChanges(t: Table, i: nat, n: int, hooks: seq<seq<HandlerOp>>, k: nat,
                                           calls: seq<Call>)
    requires t.Aligned() && i <= |t.sockets|
    ensures Loop(t, i, n, hooks, k, calls).used >= k
    ensures AllQuiet(KindsOn(t, hooks), k, Loop(t, i, n, hooks, k, calls).used - 1)
    decreases |t.sockets| - i
  {
    if i == |t.sockets| {
    } else if t.sockets[i].revents == {} {
      OnlyLastChanges(t, i + 1, n, hooks, k, calls);
    } else {
      VisitFacts(t, i, n, hooks, k, calls);
      var v := Visit(t, i, n, hooks, k, calls);
      if v.GoOn? {
        KindsOfShape(t, v.table, hooks);
        OnlyLastChanges(v.table, i + 1, n - 1, hooks, v.used, v.calls);
      }
    }
  }

  /** One visited entry: the calls made, and what the callbacks must have been for the loop to go on or leave. */
  ghost predicate Visitable(v: Visited, expected: seq<Call>, calls: seq<Call>, n: int, kinds: seq<Kind>, k: nat)
  {
    var holds :=
      match v
      case GoOn(more, t2, k2) => k <= k2 && more == expected && n != 1 && AllQuiet(kinds, k, k2)
      case Leave(out) =>
        && k <= out.used
        && AllQuiet(kinds, k, out.used - 1)
        && calls <= out.calls <= expected
        && (AllQuiet(kinds, k, out.used) ==> n == 1 && out.calls == expected)
        && (out.Stale? ==> out.used > k && KindAt(kinds, out.used - 1) == Concealed)
        && (out.Finished? && out.used > k && KindAt(kinds, out.used - 1) == Concealed ==> out.exhausted);
    holds
  }

  lemma VisitFacts(t: Table, i: nat, n: int, hooks: seq<seq<HandlerOp>>, k: nat, calls: seq<Call>)
    requires t.Aligned() && i < |t.sockets|
    ensures Visitable(Visit(t, i, n, hooks, k, calls), calls + EntryCalls(t, i), calls, n, KindsOn(t, hooks), k)
  {
    HookKind(t, hooks, k);
    QuietFrom(KindsOn(t, hooks), k);
    if POLLIN in t.sockets[i].revents {
      var read := [Readable(t.ptrs[i], t.sockets[i].fd)];
      var t1 := Run(t, HookAt(hooks, k));
      assert EntryCalls(t, i) == read + WriteCalls(t, i);
      Appended(calls, read, WriteCalls(t, i));
      if t1.invalid == t.invalid && t1.edits == t.edits {
        assert SameShape(t, t1);
        KindsOfShape(t, t1, hooks);
        VisitWriteableFacts(t1, i, n, hooks, k + 1, calls + read);
        var v := VisitWriteable(t1, i, n, hooks, k + 1, calls + read);
        QuietBefore(v, calls + EntryCalls(t, i), calls, read, n, KindsOn(t, hooks), k);
      }
    } else {
      assert EntryCalls(t, i) == WriteCalls(t, i);
      VisitWriteableFacts(t, i, n, hooks, k, calls);
    }
  }

  /** A quiet callback before. */
  lemma QuietBefore(v: Visited, expected: seq<Call>, calls: seq<Call>, read: seq<Call>, n: int, kinds: seq<Kind>,
                    k: nat)
    requires Visitable(v, expected, calls + read, n, kinds, k + 1) && KindAt(kinds, k) == Quiet
    requires v.Leave? && v.out.Finished? && v.out.used == k + 1 ==> v.out.exhausted
    ensures Visitable(v, expected, calls, n, kinds, k)
  {
    var end := if v.GoOn? then v.used else v.out.used;
    assert AllQuiet(kinds, k + 1, end) <==> AllQuiet(kinds, k, end);
    assert AllQuiet(kinds, k + 1, end - 1) <==> AllQuiet(kinds, k, end - 1);
    assert calls <= calls + read;
  }

  function WriteCalls(t: Table, i: nat): seq<Call>
    requires t.Aligned() && i < |t.sockets|
  {
    if POLLOUT in t.sockets[i].revents then [Writeable(t.ptrs[i], t.sockets[i].fd)] else []
  }

  lemma VisitWriteableFacts(t: Table, i: nat, n: int, hooks: seq<seq<HandlerOp>>, k: nat, calls: seq<Call>)
    requires t.Aligned() && i < |t.sockets|
    ensures var v := VisitWriteable(t, i, n, hooks, k, calls);
            && Visitable(v, calls + WriteCalls(t, i), calls, n, KindsOn(t, hooks), k)
            && (v.Leave? && v.out.Finished? && v.out.used == k ==> v.out.exhausted)
  {
    assert calls + [] == calls;
    if POLLOUT in t.sockets[i].revents {
      HookKind(t, hooks, k);
      QuietFrom(KindsOn(t, hooks), k);
    } else {
      QuietFrom(KindsOn(t, hooks), k);
    }
  }

  lemma QuietFrom(kinds: seq<Kind>, k: nat)
    ensures AllQuiet(kinds, k, k) && AllQuiet(kinds, k, k - 1)
    ensures AllQuiet(kinds, k, k + 1) <==> KindAt(kinds, k) == Quiet
  {
  }

  /** The judgement of `StaleIffUnseen` as one obligation. */
  ghost predicate Judged(out: Outcome, kinds: seq<Kind>, k: nat) {
    var judged :=
      out.Stale? <==> out.used > k && KindAt(kinds, out.used - 1) == Concealed && !(out.Finished? && out.exhausted);
    judged
  }

  lemma QuietStart(out: Outcome, kinds: seq<Kind>, k: nat, k2: nat)
    requires Judged(out, kinds, k2) && AllQuiet(kinds, k, k2) && k <= k2 <= out.used
    ensures Judged(out, kinds, k)
  {
    if k < out.used == k2 { assert KindAt(kinds, k2 - 1) == Quiet; }
  }

  lemma LeaveJudged(v: Visited, expected: seq<Call>, calls: seq<Call>, n: int, kinds: seq<Kind>, k: nat)
    requires Visitable(v, expected, calls, n, kinds, k) && v.Leave?
    ensures Judged(v.out, kinds, k)
  {
  }

  lemma {:induction false} LoopJudged(t: Table, i: nat, n: int, hooks: seq<seq<HandlerOp>>, k: nat, calls: seq<Call>)
    requires t.Aligned() && i <= |t.sockets|
    ensures Judged(Loop(t, i, n, hooks, k, calls), KindsOn(t, hooks), k)
    decreases |t.sockets| - i
  {
    if i == |t.sockets| {
    } else if t.sockets[i].revents == {} {
      LoopJudged(t, i + 1, n, hooks, k, calls);
      LoopSkips(t, i, n, hooks, k, calls);
    } else {
      VisitFacts(t, i, n, hooks, k, calls);
      LoopVisits(t, i, n, hooks, k, calls);
      var v := Visit(t, i, n, hooks, k, calls);
      if v.GoOn? {
        LaterJudged(t, i, n, hooks, k, v);
        LoopJudged(v.table, i + 1, n - 1, hooks, v.used, v.calls);
        QuietStart(Loop(t, i, n, hooks, k, calls), KindsOn(t, hooks), k, v.used);
      } else {
        LeaveJudged(v, calls + EntryCalls(t, i), calls, n, KindsOn(t, hooks), k);
      }
    }
  }

  lemma LaterJudged(t: Table, i: nat, n: int, hooks: seq<seq<HandlerOp>>, k: nat, v: Visited)
    requires t.Aligned() && i < |t.sockets| && v.GoOn? && SameShape(t, v.table) && v.table.Aligned()
    ensures KindsOn(v.table, hooks) == KindsOn(t, hooks)
    ensures Loop(v.table, i + 1, n - 1, hooks, v.used, v.calls).used >= v.used
  {
    KindsOfShape(t, v.table, hooks);
    OnlyLastChanges(v.table, i + 1, n - 1, hooks, v.used, v.calls);
  }

  /** For any count: the loop goes on over edited vectors exactly if the last callback it ran edited them without the
      counter showing it, and the loop was not leaving anyway because the countdown had reached zero. */
  lemma StaleIffUnseen(t: Table, n: int, hooks: seq<seq<HandlerOp>>)
    requires t.Aligned()
    ensures var out := Pass(t, n, hooks);
            out.Stale? <==>
            out.used > 0 && KindAt(KindsOn(t, hooks), out.used - 1) == Concealed && !(out.Finished? && out.exhausted)
  {
    LoopJudged(t, 0, n, hooks, 0, []);
  }

  lemma BoundedIsSeen(fds: seq<int>, hooks: seq<seq<HandlerOp>>, k: nat)
    requires forall j :: 0 <= j < |hooks| ==> StructuralCount(hooks[j]) < SPAN
    ensures KindAt(Kinds(fds, hooks), k) != Concealed
  {
    if k < |hooks| {
      KindsAt(fds, hooks, k);
      EditsAreStructural(fds, hooks[k]);
    }
  }

  /** Callbacks with fewer than 65536 adds and deletes each never make the loop go on over edited vectors. */
  lemma BoundedCallbacksAreSafe(t: Table, n: int, hooks: seq<seq<HandlerOp>>)
    requires t.Aligned()
    requires forall j :: 0 <= j < |hooks| ==> StructuralCount(hooks[j]) < SPAN
    ensures Pass(t, n, hooks).Finished?
  {
    StaleIffUnseen(t, n, hooks);
    var out := Pass(t, n, hooks);
    if out.used > 0 {
      BoundedIsSeen(Fds(t), hooks, out.used - 1);
    }
  }

  /** Some entry of `t` at or after `i` reported this call's event for this call's descriptor and object. */
  ghost predicate Reported(t: Table, i: nat, c: Call)
    requires t.Aligned()
  {
    exists j :: i <= j < |t.sockets| && t.ptrs[j] == c.ptr && t.sockets[j].fd == c.fd &&
                (if c.Readable? then POLLIN else POLLOUT) in t.sockets[j].revents
  }

  /** Every call goes to the object paired with a descriptor that was itself reported ready, whatever the callbacks
      do. */
  lemma {:induction false} CallsAreReported(t: Table, i: nat, n: int, hooks: seq<seq<HandlerOp>>, k: nat,
                                            calls: seq<Call>)
    requires t.Aligned() && i <= |t.sockets|
    ensures forall c :: c in Loop(t, i, n, hooks, k, calls).calls ==> c in calls || Reported(t, i, c)
    decreases |t.sockets| - i
  {
    if i < |t.sockets| {
      if t.sockets[i].revents == {} {
        CallsAreReported(t, i + 1, n, hooks, k, calls);
      } else {
        EntryCallsReported(t, i);
        VisitFacts(t, i, n, hooks, k, calls);
        var v := Visit(t, i, n, hooks, k, calls);
        if v.GoOn? {
          var t2 := v.table;
          CallsAreReported(t2, i + 1, n - 1, hooks, v.used, v.calls);
          forall c | c in Loop(t2, i + 1, n - 1, hooks, v.used, v.calls).calls ensures c in calls || Reported(t, i, c) {
            if c in v.calls {
              assert c in calls || c in EntryCalls(t, i);
            } else {
              var j :| i + 1 <= j < |t2.sockets| && t2.ptrs[j] == c.ptr && t2.sockets[j].fd == c.fd &&
                       (if c.Readable? then POLLIN else POLLOUT) in t2.sockets[j].revents;
              assert t.ptrs[j] == c.ptr && t.sockets[j].fd == c.fd;
            }
          }
        }
      }
    }
  }

  lemma EntryCallsReported(t: Table, i: nat)
    requires t.Aligned() && i < |t.sockets|
    ensures forall c :: c in EntryCalls(t, i) ==> Reported(t, i, c)
  {
  }

  // ------------------------------------------------------------------------------------------
  // Completeness
  // ------------------------------------------------------------------------------------------

  /** One readable call for POLLIN, then one writeable call for POLLOUT. */
  function EntryCalls(t: Table, i: nat): seq<Call>
    requires t.Aligned() && i < |t.sockets|
  {
    (if POLLIN in t.sockets[i].revents then [Readable(t.ptrs[i], t.sockets[i].fd)] else []) +
    (if POLLOUT in t.sockets[i].revents then [Writeable(t.ptrs[i], t.sockets[i].fd)] else [])
  }

  /** The number of entries from `i` on with a non-zero `revents`. */
  function ReadyCount(t: Table, i: nat): nat
    requires i <= |t.sockets|
    decreases |t.sockets| - i
  {
    if i == |t.sockets| then 0
    else (if t.sockets[i].revents == {} then 0 else 1) + ReadyCount(t, i + 1)
  }

  /** The calls of the first `m` ready entries from `i` on, in index order. */
  function CallsOfFirst(t: Table, i: nat, m: nat): seq<Call>
    requires t.Aligned() && i <= |t.sockets|
    decreases |t.sockets| - i
  {
    if i == |t.sockets| || m == 0 then []
    else if t.sockets[i].revents == {} then CallsOfFirst(t, i + 1, m)
    else EntryCalls(t, i) + CallsOfFirst(t, i + 1, m - 1)
  }

  lemma {:induction false} ShapeDecidesCalls(t: Table, u: Table, i: nat, m: nat)
    requires t.Aligned() && u.Aligned() && SameShape(t, u) && i <= |t.sockets|
    ensures ReadyCount(t, i) == ReadyCount(u, i)
    ensures CallsOfFirst(t, i, m) == CallsOfFirst(u, i, m)
    decreases |t.sockets| - i
  {
    if i == |t.sockets| {
    } else {
      ShapeDecidesCalls(t, u, i + 1, m);
      if m > 0 {
        ShapeDecidesCalls(t, u, i + 1, m - 1);
      }
    }
  }

  /** How many ready entries a countdown from `n` lets the loop serve. */
  function Served(n: int, ready: nat): nat {
    if 1 <= n <= ready then n else ready
  }

  predicate QuietHooks(kinds: seq<Kind>) {
    forall j :: 0 <= j < |kinds| ==> kinds[j] == Quiet
  }

  /** When no callback changes the vectors or the counter, the loop serves exactly the first `n` ready entries if `n` is
      between one and the number of ready entries, and all ready entries otherwise. */
  lemma {:induction false} ServesFirst(t: Table, i: nat, n: int, hooks: seq<seq<HandlerOp>>, k: nat, calls: seq<Call>)
    requires t.Aligned() && i <= |t.sockets| && QuietHooks(KindsOn(t, hooks))
    ensures Loop(t, i, n, hooks, k, calls).calls == calls + CallsOfFirst(t, i, Served(n, ReadyCount(t, i)))
    decreases |t.sockets| - i
  {
    if i == |t.sockets| {
      assert calls + [] == calls;
    } else if t.sockets[i].revents == {} {
      ServesFirst(t, i + 1, n, hooks, k, calls);
      LoopSkips(t, i, n, hooks, k, calls);
      SkipsNone(t, i, Served(n, ReadyCount(t, i)));
    } else {
      VisitFacts(t, i, n, hooks, k, calls);
      LoopVisits(t, i, n, hooks, k, calls);
      var v := Visit(t, i, n, hooks, k, calls);
      if v.GoOn? {
        KindsOfShape(t, v.table, hooks);
        ServesFirst(v.table, i + 1, n - 1, hooks, v.used, v.calls);
        ServesOn(t, i, n, v.table, calls, Loop(t, i, n, hooks, k, calls).calls);
      } else {
        LeavesAtLast(t, i, n, hooks, k, calls, v);
      }
    }
  }

  lemma SkipsNone(t: Table, i: nat, m: nat)
    requires t.Aligned() && i < |t.sockets| && t.sockets[i].revents == {}
    ensures CallsOfFirst(t, i, m) == CallsOfFirst(t, i + 1, m) && ReadyCount(t, i) == ReadyCount(t, i + 1)
  {
    if m == 0 { assert CallsOfFirst(t, i + 1, 0) == []; }
  }

  lemma LeavesAtLast(t: Table, i: nat, n: int, hooks: seq<seq<HandlerOp>>, k: nat, calls: seq<Call>, v: Visited)
    requires t.Aligned() && i < |t.sockets| && t.sockets[i].revents != {} && v.Leave? && QuietHooks(KindsOn(t, hooks))
    requires Visitable(v, calls + EntryCalls(t, i), calls, n, KindsOn(t, hooks), k)
    ensures v.out.calls == calls + CallsOfFirst(t, i, Served(n, ReadyCount(t, i)))
  {
    assert AllQuiet(KindsOn(t, hooks), k, v.out.used);
    ServesRest(t, i, 1, t);
  }

  lemma LoopSkips(t: Table, i: nat, n: int, hooks: seq<seq<HandlerOp>>, k: nat, calls: seq<Call>)
    requires t.Aligned() && i < |t.sockets| && t.sockets[i].revents == {}
    ensures Loop(t, i, n, hooks, k, calls) == Loop(t, i + 1, n, hooks, k, calls)
  {
  }

  lemma LoopVisits(t: Table, i: nat, n: int, hooks: seq<seq<HandlerOp>>, k: nat, calls: seq<Call>)
    requires t.Aligned() && i < |t.sockets| && t.sockets[i].revents != {}
    ensures Loop(t, i, n, hooks, k, calls) ==
            match Visit(t, i, n, hooks, k, calls)
            case Leave(out) => out
            case GoOn(more, t2, k2) => Loop(t2, i + 1, n - 1, hooks, k2, more)
  {
  }

  /** The first entry and then the rest. */
  lemma ServesOn(t: Table, i: nat, n: int, u: Table, calls: seq<Call>, made: seq<Call>)
    requires t.Aligned() && u.Aligned() && SameShape(t, u) && n != 1
    requires i < |t.sockets| && t.sockets[i].revents != {}
    requires made == calls + EntryCalls(t, i) + CallsOfFirst(u, i + 1, Served(n - 1, ReadyCount(u, i + 1)))
    ensures made == calls + CallsOfFirst(t, i, Served(n, ReadyCount(t, i)))
  {
    ServesRest(t, i, n, u);
    Appended(calls, EntryCalls(t, i), CallsOfFirst(u, i + 1, Served(n - 1, ReadyCount(u, i + 1))));
  }

  lemma Appended(a: seq<Call>, b: seq<Call>, c: seq<Call>)
    ensures (a + b) + c == a + (b + c)
  {
  }

  lemma ServesRest(t: Table, i: nat, n: int, u: Table)
    requires t.Aligned() && u.Aligned() && SameShape(t, u)
    requires i < |t.sockets| && t.sockets[i].revents != {}
    ensures n != 1 ==>
              CallsOfFirst(t, i, Served(n, ReadyCount(t, i))) ==
              EntryCalls(t, i) + CallsOfFirst(u, i + 1, Served(n - 1, ReadyCount(u, i + 1)))
    ensures n == 1 ==> CallsOfFirst(t, i, Served(n, ReadyCount(t, i))) == EntryCalls(t, i)
  {
    var m := Served(n, ReadyCount(t, i));
    assert ReadyCount(t, i) == 1 + ReadyCount(t, i + 1);
    ShapeDecidesCalls(t, u, i + 1, m - 1);
    assert CallsOfFirst(t, i, m) == EntryCalls(t, i) + CallsOfFirst(t, i + 1, m - 1);
    if n == 1 {
      assert CallsOfFirst(t, i + 1, 0) == [];
    }
  }

  /** With the count `poll` returns, the early exit skips nothing: each POLLIN entry gets one readable call and each
      POLLOUT entry one writeable call, in index order, read before write. */
  lemma DispatchIsComplete(t: Table, hooks: seq<seq<HandlerOp>>)
    requires t.Aligned() && QuietHooks(KindsOn(t, hooks))
    ensures Pass(t, ReadyCount(t, 0), hooks).Finished?
    ensures Pass(t, ReadyCount(t, 0), hooks).calls == AllCalls(t, 0)
  {
    ServesFirst(t, 0, ReadyCount(t, 0), hooks, 0, []);
    StaleIffUnseen(t, ReadyCount(t, 0), hooks);
    var out := Pass(t, ReadyCount(t, 0), hooks);
    if out.used > 0 { assert KindAt(KindsOn(t, hooks), out.used - 1) == Quiet; }
    FirstAllIsAll(t, 0);
  }

  function AllCalls(t: Table, i: nat): seq<Call>
    requires t.Aligned() && i <= |t.sockets|
    decreases |t.sockets| - i
  {
    if i == |t.sockets| then [] else EntryCalls(t, i) + AllCalls(t, i + 1)
  }

  lemma {:induction false} FirstAllIsAll(t: Table, i: nat)
    requires t.Aligned() && i <= |t.sockets|
    ensures CallsOfFirst(t, i, ReadyCount(t, i)) == AllCalls(t, i)
    decreases |t.sockets| - i
  {
    if i == |t.sockets| {
    } else {
      FirstAllIsAll(t, i + 1);
      if ReadyCount(t, i) == 0 {
        assert AllCalls(t, i + 1) == [];
      }
    }
  }

  // ------------------------------------------------------------------------------------------
  // Which calls a pass makes
  // ------------------------------------------------------------------------------------------

  /** The handler after callbacks `k` up to, not including, `m`. */
  function Since(t: Table, hooks: seq<seq<HandlerOp>>, k: nat, m: nat): (u: Table)
    requires t.Aligned() && k <= m
    ensures u.Aligned()
    decreases m - k
  {
    if m == k then t else Since(Run(t, HookAt(hooks, k)), hooks, k + 1, m)
  }

  lemma {:induction false} SinceOn(t: Table, hooks: seq<seq<HandlerOp>>, k: nat, j: nat, m: nat)
    requires t.Aligned() && k <= j <= m
    ensures Since(Since(t, hooks, k, j), hooks, j, m) == Since(t, hooks, k, m)
    decreases j - k
  {
    if k == j {
    } else {
      SinceOn(Run(t, HookAt(hooks, k)), hooks, k + 1, j, m);
    }
  }

  /** One call was made for each callback run, they are the first of those `due`, and if nothing went wrong the handler
      is what exactly these callbacks made of it. */
  ghost predicate Matches(out: Outcome, t: Table, due: seq<Call>, hooks: seq<seq<HandlerOp>>, k: nat, calls: seq<Call>)
    requires t.Aligned()
  {
    var holds :=
      && k <= out.used <= k + |due|
      && out.calls == calls + due[..out.used - k]
      && (out.Finished? ==> out.table == Since(t, hooks, k, out.used));
    holds
  }

  ghost predicate VisitMatches(v: Visited, t: Table, due: seq<Call>, hooks: seq<seq<HandlerOp>>, k: nat,
                               calls: seq<Call>)
    requires t.Aligned()
  {
    match v
    case Leave(out) => Matches(out, t, due, hooks, k, calls)
    case GoOn(more, u, used) => used == k + |due| && more == calls + due && u == Since(t, hooks, k, used)
  }

  lemma WriteMatches(t: Table, i: nat, n: int, hooks: seq<seq<HandlerOp>>, k: nat, calls: seq<Call>)
    requires t.Aligned() && i < |t.sockets|
    ensures VisitMatches(VisitWriteable(t, i, n, hooks, k, calls), t, WriteCalls(t, i), hooks, k, calls)
  {
    assert calls + [] == calls;
    assert Since(t, hooks, k, k + 1) == Run(t, HookAt(hooks, k));
  }

  lemma VisitMakes(t: Table, i: nat, n: int, hooks: seq<seq<HandlerOp>>, k: nat, calls: seq<Call>)
    requires t.Aligned() && i < |t.sockets|
    ensures VisitMatches(Visit(t, i, n, hooks, k, calls), t, EntryCalls(t, i), hooks, k, calls)
  {
    if POLLIN in t.sockets[i].revents {
      var read, t1 := [Readable(t.ptrs[i], t.sockets[i].fd)], Run(t, HookAt(hooks, k));
      assert EntryCalls(t, i) == read + WriteCalls(t, i);
      assert t1 == Since(t, hooks, k, k + 1);
      if t1.invalid == t.invalid && t1.edits == t.edits {
        VisitAfterRead(t, i, n, hooks, k, t1, calls);
        WriteMatches(t1, i, n, hooks, k + 1, calls + read);
        ReadBefore(Visit(t, i, n, hooks, k, calls), t, t1, read, WriteCalls(t, i), hooks, k, calls);
      } else {
        assert (read + WriteCalls(t, i))[..1] == read;
      }
    } else {
      assert EntryCalls(t, i) == WriteCalls(t, i);
      WriteMatches(t, i, n, hooks, k, calls);
    }
  }

  /** A first part that was carried out whole, and then the rest. */
  lemma MoreBefore(out: Outcome, t: Table, t1: Table, first: seq<Call>, rest: seq<Call>, hooks: seq<seq<HandlerOp>>,
                   k: nat, j: nat, calls: seq<Call>)
    requires t.Aligned() && j == k + |first| && t1 == Since(t, hooks, k, j)
    requires Matches(out, t1, rest, hooks, j, calls + first)
    ensures Matches(out, t, first + rest, hooks, k, calls)
  {
    MoreCalls(out.calls, first, rest, calls, out.used - j);
    SinceOn(t, hooks, k, j, out.used);
  }

  lemma MoreCalls(made: seq<Call>, first: seq<Call>, rest: seq<Call>, calls: seq<Call>, m: nat)
    requires m <= |rest| && made == (calls + first) + rest[..m]
    ensures made == calls + (first + rest)[..|first| + m] && |first + rest| == |first| + |rest|
  {
    assert (first + rest)[..|first| + m] == first + rest[..m];
    Appended(calls, first, rest[..m]);
  }

  lemma ReadBefore(v: Visited, t: Table, t1: Table, read: seq<Call>, rest: seq<Call>, hooks: seq<seq<HandlerOp>>,
                   k: nat, calls: seq<Call>)
    requires t.Aligned() && |read| == 1 && t1 == Since(t, hooks, k, k + 1)
    requires VisitMatches(v, t1, rest, hooks, k + 1, calls + read)
    ensures VisitMatches(v, t, read + rest, hooks, k, calls)
  {
    if v.Leave? {
      MoreBefore(v.out, t, t1, read, rest, hooks, k, k + 1, calls);
    } else {
      Appended(calls, read, rest);
      SinceOn(t, hooks, k, k + 1, v.used);
    }
  }

  lemma {:induction false} LoopMakes(t: Table, i: nat, n: int, hooks: seq<seq<HandlerOp>>, k: nat, calls: seq<Call>)
    requires t.Aligned() && i <= |t.sockets|
    ensures Matches(Loop(t, i, n, hooks, k, calls), t, AllCalls(t, i), hooks, k, calls)
    decreases |t.sockets| - i
  {
    if i == |t.sockets| {
      assert calls + [] == calls;
    } else if t.sockets[i].revents == {} {
      LoopMakes(t, i + 1, n, hooks, k, calls);
      LoopSkips(t, i, n, hooks, k, calls);
      assert AllCalls(t, i) == AllCalls(t, i + 1);
    } else {
      VisitMakes(t, i, n, hooks, k, calls);
      LoopVisits(t, i, n, hooks, k, calls);
      var v := Visit(t, i, n, hooks, k, calls);
      if v.GoOn? {
        CountByShape(t, v.table, i + 1);
        LoopMakes(v.table, i + 1, n - 1, hooks, v.used, v.calls);
        MoreBefore(Loop(t, i, n, hooks, k, calls), t, v.table, EntryCalls(t, i), AllCalls(t, i + 1), hooks, k, v.used,
                   calls);
      } else {
        LessOf(v.out, t, EntryCalls(t, i), AllCalls(t, i + 1), hooks, k, calls);
      }
    }
  }

  lemma LessOf(out: Outcome, t: Table, due: seq<Call>, rest: seq<Call>, hooks: seq<seq<HandlerOp>>, k: nat,
               calls: seq<Call>)
    requires t.Aligned() && Matches(out, t, due, hooks, k, calls)
    ensures Matches(out, t, due + rest, hooks, k, calls)
  {
    assert (due + rest)[..out.used - k] == due[..out.used - k];
  }

  /** Whatever the callbacks do and however the pass ends: one call was made for each callback that ran, and the calls
      are the first of those the report asks for, in index order, read before write. */
  lemma CallsMatchCallbacks(t: Table, n: int, hooks: seq<seq<HandlerOp>>)
    requires t.Aligned()
    ensures var out := Pass(t, n, hooks);
            && out.used <= |AllCalls(t, 0)|
            && |out.calls| == out.used
            && out.calls == AllCalls(t, 0)[..out.used]
            && (out.Finished? ==> out.table == Since(t, hooks, 0, out.used))
  {
    LoopMakes(t, 0, n, hooks, 0, []);
  }

  lemma {:induction false} LoopStops(t: Table, i: nat, hooks: seq<seq<HandlerOp>>, k: nat, calls: seq<Call>)
    requires t.Aligned() && i <= |t.sockets|
    ensures var out := Loop(t, i, ReadyCount(t, i), hooks, k, calls);
            AllQuiet(KindsOn(t, hooks), k, out.used) ==> out.used == k + |AllCalls(t, i)|
    decreases |t.sockets| - i
  {
    if i == |t.sockets| {
    } else if t.sockets[i].revents == {} {
      LoopStops(t, i + 1, hooks, k, calls);
      LoopSkips(t, i, ReadyCount(t, i), hooks, k, calls);
      CallsSplit(t, i);
    } else {
      var n := ReadyCount(t, i);
      VisitFacts(t, i, n, hooks, k, calls);
      VisitMakes(t, i, n, hooks, k, calls);
      LoopVisits(t, i, n, hooks, k, calls);
      CallsSplit(t, i);
      var v := Visit(t, i, n, hooks, k, calls);
      if v.GoOn? {
        CountByShape(t, v.table, i + 1);
        KindsOfShape(t, v.table, hooks);
        LoopStops(v.table, i + 1, hooks, v.used, v.calls);
      } else if n == 1 {
        NoneReady(t, i + 1);
      }
    }
  }

  /** With the count `poll` returns, whatever the callbacks do: the pass ends after the first callback that is not
      quiet, and makes every call the report asks for if there is none. */
  lemma StopsAtFirstChange(t: Table, hooks: seq<seq<HandlerOp>>)
    requires t.Aligned()
    ensures var out, kinds := Pass(t, ReadyCount(t, 0), hooks), KindsOn(t, hooks);
            && AllQuiet(kinds, 0, out.used - 1)
            && (out.used == |AllCalls(t, 0)| || (0 < out.used && KindAt(kinds, out.used - 1) != Quiet))
  {
    OnlyLastChanges(t, 0, ReadyCount(t, 0), hooks, 0, []);
    LoopStops(t, 0, hooks, 0, []);
  }

  // ------------------------------------------------------------------------------------------
  // When a pass goes wrong
  // ------------------------------------------------------------------------------------------

  /** The last ready entry from `i` on was reported writeable: its writeable call is the last of all, and the countdown
      ends with it. */
  ghost predicate EndsInWrite(t: Table, i: nat) {
    var ends := exists e: nat :: i <= e && LastWrite(t, e);
    ends
  }

  predicate LastWrite(t: Table, e: nat) {
    e < |t.sockets| && POLLOUT in t.sockets[e].revents && ReadyCount(t, e + 1) == 0
  }

  /** Of `len` callbacks to come from `k` on, the first that is not quiet edits the vectors without the counter
      showing it, and it is not the last of all if the countdown `ends` with that one. */
  predicate FirstHides(len: nat, ends: bool, kinds: seq<Kind>, k: nat) {
    if len == 0 then false
    else if KindAt(kinds, k) == Quiet then FirstHides(len - 1, ends, kinds, k + 1)
    else KindAt(kinds, k) == Concealed && !(len == 1 && ends)
  }

  /** The same for the callbacks of the calls from entry `i` on. */
  ghost predicate SomeHides(t: Table, i: nat, kinds: seq<Kind>, k: nat)
    requires t.Aligned() && i <= |t.sockets|
  {
    var some := FirstHides(|AllCalls(t, i)|, EndsInWrite(t, i), kinds, k);
    some
  }

  lemma {:induction false} WriteIsCalled(t: Table, i: nat)
    requires t.Aligned() && i <= |t.sockets| && EndsInWrite(t, i)
    ensures AllCalls(t, i) != [] && AllCalls(t, i)[|AllCalls(t, i)| - 1].Writeable?
    decreases |t.sockets| - i
  {
    var e: nat :| i <= e && LastWrite(t, e);
    if e == i {
      NoneReady(t, i + 1);
    } else {
      WriteIsCalled(t, i + 1);
    }
  }

  lemma {:induction false} NoneReady(t: Table, i: nat)
    requires t.Aligned() && i <= |t.sockets| && ReadyCount(t, i) == 0
    ensures AllCalls(t, i) == [] && !EndsInWrite(t, i)
    decreases |t.sockets| - i
  {
    if i == |t.sockets| {
    } else {
      NoneReady(t, i + 1);
    }
  }

  lemma EndIsLater(t: Table, i: nat)
    requires i < |t.sockets| && (ReadyCount(t, i + 1) > 0 || t.sockets[i].revents == {})
    ensures EndsInWrite(t, i) == EndsInWrite(t, i + 1)
  {
  }

  lemma {:induction false} CountByShape(t: Table, u: Table, i: nat)
    requires SameShape(t, u) && t.Aligned() && u.Aligned() && i <= |t.sockets|
    ensures ReadyCount(t, i) == ReadyCount(u, i) && AllCalls(t, i) == AllCalls(u, i)
    ensures EndsInWrite(t, i) == EndsInWrite(u, i)
    decreases |t.sockets| - i
  {
    if i == |t.sockets| {
    } else {
      CountByShape(t, u, i + 1);
    }
    forall e: nat ensures LastWrite(t, e) == LastWrite(u, e) {
      if e < |t.sockets| { ShapeDecidesCalls(t, u, e + 1, 0); }
    }
  }

  /** After `m` quiet callbacks the rest decide. */
  lemma {:induction false} QuietPrefix(len: nat, m: nat, ends: bool, kinds: seq<Kind>, k: nat, k1: nat)
    requires k1 == k + m && AllQuiet(kinds, k, k1)
    ensures FirstHides(len + m, ends, kinds, k) == FirstHides(len, ends, kinds, k1)
    decreases m
  {
    if m == 0 {
    } else {
      assert KindAt(kinds, k) == Quiet;
      QuietPrefix(len, m - 1, ends, kinds, k + 1, k1);
    }
  }

  lemma CallsSplit(t: Table, i: nat)
    requires t.Aligned() && i < |t.sockets|
    ensures |AllCalls(t, i)| == |AllCalls(t, i + 1)| + |EntryCalls(t, i)|
    ensures t.sockets[i].revents == {} ==> EntryCalls(t, i) == [] && ReadyCount(t, i) == ReadyCount(t, i + 1)
  {
  }

  lemma EntryQuiet(t: Table, i: nat, u: Table, kinds: seq<Kind>, k: nat, k1: nat)
    requires t.Aligned() && u.Aligned() && SameShape(t, u) && i < |t.sockets| && k1 == k + |EntryCalls(t, i)|
    requires ReadyCount(t, i + 1) > 0 || t.sockets[i].revents == {}
    requires AllQuiet(kinds, k, k1)
    ensures SomeHides(t, i, kinds, k) == SomeHides(u, i + 1, kinds, k1)
  {
    EndIsLater(t, i);
    CallsSplit(t, i);
    CountByShape(t, u, i + 1);
    QuietPrefix(|AllCalls(u, i + 1)|, |EntryCalls(t, i)|, EndsInWrite(t, i), kinds, k, k1);
  }

  lemma SkipHides(t: Table, i: nat, kinds: seq<Kind>, k: nat)
    requires t.Aligned() && i < |t.sockets| && t.sockets[i].revents == {}
    ensures SomeHides(t, i, kinds, k) == SomeHides(t, i + 1, kinds, k)
    ensures ReadyCount(t, i) == ReadyCount(t, i + 1)
  {
    CallsSplit(t, i);
    EndIsLater(t, i);
  }

  /** The first callback that is not quiet decides. */
  lemma FirstDecides(t: Table, i: nat, kinds: seq<Kind>, k: nat, j: nat)
    requires t.Aligned() && i < |t.sockets| && j < |EntryCalls(t, i)|
    requires AllQuiet(kinds, k, k + j) && KindAt(kinds, k + j) != Quiet
    ensures SomeHides(t, i, kinds, k) <==>
            KindAt(kinds, k + j) == Concealed && !(j == |AllCalls(t, i)| - 1 && EndsInWrite(t, i))
  {
    CallsSplit(t, i);
    QuietPrefix(|AllCalls(t, i)| - j, j, EndsInWrite(t, i), kinds, k, k + j);
  }

  lemma QuietHidesNothing(t: Table, i: nat, kinds: seq<Kind>, k: nat)
    requires t.Aligned() && i <= |t.sockets| && AllQuiet(kinds, k, k + |AllCalls(t, i)|)
    ensures !SomeHides(t, i, kinds, k)
  {
    QuietPrefix(0, |AllCalls(t, i)|, EndsInWrite(t, i), kinds, k, k + |AllCalls(t, i)|);
  }

  /** A readable callback, and a writeable one with ready entries behind it, are not where the countdown ends. */
  lemma NotExempt(t: Table, i: nat, j: nat)
    requires t.Aligned() && i < |t.sockets| && j < |EntryCalls(t, i)|
    requires EntryCalls(t, i)[j].Readable? || ReadyCount(t, i + 1) > 0
    ensures !(j == |AllCalls(t, i)| - 1 && EndsInWrite(t, i))
  {
    assert AllCalls(t, i)[j] == EntryCalls(t, i)[j];
    if EndsInWrite(t, i) {
      WriteIsCalled(t, i);
      if ReadyCount(t, i + 1) > 0 {
        EndIsLater(t, i);
        WriteIsCalled(t, i + 1);
      }
    }
  }

  /** What one visited entry decides: it goes wrong at once exactly if one of its own callbacks hides its changes. */
  lemma VisitHides(t: Table, i: nat, hooks: seq<seq<HandlerOp>>, kinds: seq<Kind>, k: nat, calls: seq<Call>)
    requires t.Aligned() && i < |t.sockets| && t.sockets[i].revents != {} && kinds == KindsOn(t, hooks)
    ensures Decided(Visit(t, i, ReadyCount(t, i), hooks, k, calls), t, i, kinds, k)
  {
    HookKind(t, hooks, k);
    if POLLIN !in t.sockets[i].revents {
      WriteHides(t, i, hooks, kinds, k, 0, t, calls);
    } else if KindAt(kinds, k) != Quiet {
      LoudRead(t, i, hooks, kinds, k, calls);
    } else {
      var t1, read := Run(t, HookAt(hooks, k)), calls + [Readable(t.ptrs[i], t.sockets[i].fd)];
      AfterQuiet(t, hooks, kinds, k);
      VisitAfterRead(t, i, ReadyCount(t, i), hooks, k, t1, calls);
      QuietRead(Visit(t, i, ReadyCount(t, i), hooks, k, calls), t, i, hooks, kinds, k, t1, read);
    }
  }

  /** The kinds are still right after a quiet callback. */
  lemma AfterQuiet(t: Table, hooks: seq<seq<HandlerOp>>, kinds: seq<Kind>, k: nat)
    requires t.Aligned() && kinds == KindsOn(t, hooks) && KindAt(kinds, k) == Quiet
    ensures var t1 := Run(t, HookAt(hooks, k));
            t1.invalid == t.invalid && t1.edits == t.edits && KindFits(t1, HookAt(hooks, k + 1), KindAt(kinds, k + 1))
  {
    var t1 := Run(t, HookAt(hooks, k));
    HookKind(t, hooks, k);
    KindsOfShape(t, t1, hooks);
    HookKind(t1, hooks, k + 1);
  }

  ghost predicate Decided(v: Visited, t: Table, i: nat, kinds: seq<Kind>, k: nat)
    requires t.Aligned() && i < |t.sockets|
  {
    var decided :=
      && (v.Leave? ==> (v.out.Stale? <==> SomeHides(t, i, kinds, k)))
      && (v.GoOn? ==> v.used == k + |EntryCalls(t, i)| && AllQuiet(kinds, k, v.used) && ReadyCount(t, i + 1) > 0);
    decided
  }

  lemma QuietRead(v: Visited, t: Table, i: nat, hooks: seq<seq<HandlerOp>>, kinds: seq<Kind>, k: nat, t1: Table,
      read: seq<Call>)
    requires t.Aligned() && t1.Aligned() && SameShape(t, t1) && i < |t.sockets| && POLLIN in t.sockets[i].revents
    requires KindAt(kinds, k) == Quiet && KindFits(t1, HookAt(hooks, k + 1), KindAt(kinds, k + 1))
    requires v == VisitWriteable(t1, i, ReadyCount(t, i), hooks, k + 1, read)
    ensures Decided(v, t, i, kinds, k)
  {
    QuietFrom(kinds, k);
    WriteHides(t, i, hooks, kinds, k, 1, t1, read);
  }

  lemma VisitAfterRead(t: Table, i: nat, n: int, hooks: seq<seq<HandlerOp>>, k: nat, t1: Table, calls: seq<Call>)
    requires t.Aligned() && i < |t.sockets| && POLLIN in t.sockets[i].revents && t1 == Run(t, HookAt(hooks, k))
    requires t1.invalid == t.invalid && t1.edits == t.edits
    ensures SameShape(t, t1) && t1.Aligned()
    ensures Visit(t, i, n, hooks, k, calls) ==
            VisitWriteable(t1, i, n, hooks, k + 1, calls + [Readable(t.ptrs[i], t.sockets[i].fd)])
  {
  }

  lemma LoudRead(t: Table, i: nat, hooks: seq<seq<HandlerOp>>, kinds: seq<Kind>, k: nat, calls: seq<Call>)
    requires t.Aligned() && i < |t.sockets| && POLLIN in t.sockets[i].revents && KindAt(kinds, k) != Quiet
    requires KindFits(t, HookAt(hooks, k), KindAt(kinds, k))
    ensures Decided(Visit(t, i, ReadyCount(t, i), hooks, k, calls), t, i, kinds, k)
  {
    ReadDecides(t, i, kinds, k);
  }

  lemma ReadDecides(t: Table, i: nat, kinds: seq<Kind>, k: nat)
    requires t.Aligned() && i < |t.sockets| && POLLIN in t.sockets[i].revents && KindAt(kinds, k) != Quiet
    ensures SomeHides(t, i, kinds, k) <==> KindAt(kinds, k) == Concealed
  {
    FirstDecides(t, i, kinds, k, 0);
    NotExempt(t, i, 0);
  }

  lemma WriteDecides(t: Table, i: nat, kinds: seq<Kind>, k: nat, j: nat)
    requires t.Aligned() && i < |t.sockets| && POLLOUT in t.sockets[i].revents
    requires j == (if POLLIN in t.sockets[i].revents then 1 else 0)
    requires AllQuiet(kinds, k, k + j) && KindAt(kinds, k + j) != Quiet
    ensures SomeHides(t, i, kinds, k) <==> KindAt(kinds, k + j) == Concealed && ReadyCount(t, i + 1) > 0
  {
    FirstDecides(t, i, kinds, k, j);
    if ReadyCount(t, i + 1) == 0 {
      NoneReady(t, i + 1);
      assert LastWrite(t, i);
    } else {
      NotExempt(t, i, j);
    }
  }

  /** The writeable half, after `j` quiet callbacks of the same entry. */
  lemma WriteHides(t: Table, i: nat, hooks: seq<seq<HandlerOp>>, kinds: seq<Kind>, k: nat, j: nat, t1: Table,
      calls: seq<Call>)
    requires t.Aligned() && t1.Aligned() && SameShape(t, t1) && i < |t.sockets| && t.sockets[i].revents != {}
    requires j == (if POLLIN in t.sockets[i].revents then 1 else 0) && AllQuiet(kinds, k, k + j)
    requires KindFits(t1, HookAt(hooks, k + j), KindAt(kinds, k + j))
    ensures Decided(VisitWriteable(t1, i, ReadyCount(t, i), hooks, k + j, calls), t, i, kinds, k)
  {
    if POLLOUT in t.sockets[i].revents && KindAt(kinds, k + j) != Quiet {
      WriteDecides(t, i, kinds, k, j);
    } else {
      EntryAllQuiet(t, i, kinds, k, j);
      if ReadyCount(t, i + 1) == 0 { LastQuiet(t, i, kinds, k); }
    }
  }

  lemma LastQuiet(t: Table, i: nat, kinds: seq<Kind>, k: nat)
    requires t.Aligned() && i < |t.sockets| && ReadyCount(t, i + 1) == 0 && AllQuiet(kinds, k, k + |EntryCalls(t, i)|)
    ensures !SomeHides(t, i, kinds, k)
  {
    NoneReady(t, i + 1);
    CallsSplit(t, i);
    QuietHidesNothing(t, i, kinds, k);
  }

  lemma EntryAllQuiet(t: Table, i: nat, kinds: seq<Kind>, k: nat, j: nat)
    requires t.Aligned() && i < |t.sockets| && j == (if POLLIN in t.sockets[i].revents then 1 else 0)
    requires AllQuiet(kinds, k, k + j) && (POLLOUT in t.sockets[i].revents ==> KindAt(kinds, k + j) == Quiet)
    ensures AllQuiet(kinds, k, k + |EntryCalls(t, i)|)
  {
    assert |EntryCalls(t, i)| == if POLLOUT in t.sockets[i].revents then j + 1 else j;
  }

  lemma {:induction false} LoopGoesWrongIff(t: Table, i: nat, hooks: seq<seq<HandlerOp>>, kinds: seq<Kind>, k: nat,
      calls: seq<Call>)
    requires t.Aligned() && i <= |t.sockets| && kinds == KindsOn(t, hooks)
    ensures Loop(t, i, ReadyCount(t, i), hooks, k, calls).Stale? <==> SomeHides(t, i, kinds, k)
    decreases |t.sockets| - i
  {
    if i == |t.sockets| {
      QuietHidesNothing(t, i, kinds, k);
    } else if t.sockets[i].revents == {} {
      LoopGoesWrongIff(t, i + 1, hooks, kinds, k, calls);
      SkipHides(t, i, kinds, k);
      LoopSkips(t, i, ReadyCount(t, i), hooks, k, calls);
    } else {
      VisitHides(t, i, hooks, kinds, k, calls);
      LoopVisits(t, i, ReadyCount(t, i), hooks, k, calls);
      var v := Visit(t, i, ReadyCount(t, i), hooks, k, calls);
      if v.GoOn? {
        CountByShape(t, v.table, i + 1);
        KindsOfShape(t, v.table, hooks);
        LoopGoesWrongIff(v.table, i + 1, hooks, kinds, v.used, v.calls);
        EntryQuiet(t, i, v.table, kinds, k, v.used);
      }
    }
  }

  /** With the count `poll` returns, a pass goes on over edited vectors exactly when one of the callbacks it would
      run edits them and hides it: a condition on the report and the callbacks alone. */
  lemma PassGoesWrongIff(t: Table, hooks: seq<seq<HandlerOp>>)
    requires t.Aligned()
    ensures Pass(t, ReadyCount(t, 0), hooks).Stale? <==>
            FirstHides(|AllCalls(t, 0)|, EndsInWrite(t, 0), KindsOn(t, hooks), 0)
  {
    LoopGoesWrongIff(t, 0, hooks, KindsOn(t, hooks), 0, []);
  }

  /** Such passes exist: one entry, reported readable, whose callback adds 65536 descriptors. */
  lemma SomePassGoesWrong(fd: int, ptr: ObjId, counter: ushort, hook: seq<HandlerOp>)
    requires |hook| == SPAN && forall k :: 0 <= k < |hook| ==> hook[k].Add?
    ensures var t := Table([PollFd(fd, {POLLIN}, {POLLIN})], [ptr], counter, 0, 0);
            Pass(t, ReadyCount(t, 0), [hook]).Stale?
  {
    var t := Table([PollFd(fd, {POLLIN}, {POLLIN})], [ptr], counter, 0, 0);
    AddsEdit(Fds(t), hook);
    HiddenIsMultiple(SPAN);
    KindsAt(Fds(t), [hook], 0);
    assert KindAt(KindsOn(t, [hook]), 0) == Concealed;
    assert AllCalls(t, 1) == [] && AllCalls(t, 0) == [Readable(ptr, fd)];
    assert !EndsInWrite(t, 0);
    PassGoesWrongIff(t, [hook]);
  }

  lemma {:induction false} AddsEdit(fds: seq<int>, ops: seq<HandlerOp>)
    requires forall k :: 0 <= k < |ops| ==> ops[k].Add?
    ensures Edits(fds, ops) == |ops| && StructuralCount(ops) == |ops|
    decreases ops
  {
    if ops == [] {
    } else {
      AddsEdit(FdsAfter(fds, ops[0]), ops[1..]);
    }
  }

  /** Deletes of descriptors that are not there edit nothing, however many they are: the loop sees them, or they are a
      multiple of 65536 and harmless. */
  lemma AbsentDeletesAreHarmless(fds: seq<int>, ops: seq<HandlerOp>)
    requires forall k :: 0 <= k < |ops| ==> ops[k].Delete? && ops[k].fd !in fds
    ensures KindOf(fds, ops) == if Hidden(|ops|) then Quiet else Visible
    ensures |ops| == SPAN ==> KindOf(fds, ops) == Quiet
  {
    AbsentDeletes(fds, ops);
    HiddenIsMultiple(|ops|);
  }

  lemma {:induction false} AbsentDeletes(fds: seq<int>, ops: seq<HandlerOp>)
    requires forall k :: 0 <= k < |ops| ==> ops[k].Delete? && ops[k].fd !in fds
    ensures Edits(fds, ops) == 0 && StructuralCount(ops) == |ops|
    decreases ops
  {
    if ops == [] {
    } else {
      assert FdsAfter(fds, ops[0]) == fds;
      AbsentDeletes(fds, ops[1..]);
    }
  }

  // ------------------------------------------------------------------------------------------
  // The loop as written
  // ------------------------------------------------------------------------------------------

  /** A callback at work on the handler. */
  method RunHook(handler: Handler, ops: seq<HandlerOp>)
    requires handler.State().Aligned()
    modifies handler
    ensures handler.State() == Run(old(handler.State()), ops)
  {
    for i := 0 to |ops|
      invariant handler.State().Aligned()
      invariant Run(handler.State(), ops[i..]) == Run(old(handler.State()), ops)
    {
      assert ops[i..][1..] == ops[i + 1..];
      match ops[i]
      case Add(fd, ptr) => handler.AddSocket(fd, ptr);
      case Delete(fd) => handler.DeleteSocket(fd);
      case WantRead(fd, active) => handler.SocketWantRead(fd, active);
      case WantWrite(fd, active) => handler.SocketWantWrite(fd, active);
    }
  }

  /** The work on one entry whose `revents` is not zero; `stop` when the loop is to be left. */
  method VisitEntry(handler: Handler, it: nat, changed: int, hooks: seq<seq<HandlerOp>>, used: nat, calls: seq<Call>)
    returns (stop: bool, more: seq<Call>, used': nat, ghost exhausted: bool)
    requires handler.State().Aligned() && it < |handler.sockets|
    requires var v := Visit(handler.State(), it, changed, hooks, used, calls); v.Leave? ==> v.out.Finished?
    modifies handler
    ensures Visit(old(handler.State()), it, changed, hooks, used, calls) ==
            if stop then Leave(Finished(more, handler.State(), used', exhausted))
              else GoOn(more, handler.State(), used')
  {
    var socket, ptr := handler.sockets[it], handler.socketPtrs[it];
    var handlerRef := handler.GetRef();
    more, used', exhausted := calls, used, false;
    if POLLIN in socket.revents {
      more := more + [Readable(ptr, socket.fd)];
      RunHook(handler, HookAt(hooks, used'));
      used' := used' + 1;
    }
    stop := handler.RefHasChanged(handlerRef);
    if stop {
      return;
    }
    stop, more, used', exhausted := FinishEntry(handler, it, changed, hooks, used', more, handlerRef);
  }

  /** The writeable half of an entry, after a readable callback that left the vectors alone. */
  method FinishEntry(handler: Handler, it: nat, changed: int, hooks: seq<seq<HandlerOp>>, used: nat, calls: seq<Call>,
      handlerRef: ushort)
    returns (stop: bool, more: seq<Call>, used': nat, ghost exhausted: bool)
    requires handler.State().Aligned() && it < |handler.sockets| && handlerRef == handler.invalid
    requires var v := VisitWriteable(handler.State(), it, changed, hooks, used, calls); v.Leave? ==> v.out.Finished?
    modifies handler
    ensures VisitWriteable(old(handler.State()), it, changed, hooks, used, calls) ==
            if stop then Leave(Finished(more, handler.State(), used', exhausted))
              else GoOn(more, handler.State(), used')
  {
    more, used' := calls, used;
    var socket, ptr := handler.sockets[it], handler.socketPtrs[it];
    if POLLOUT in socket.revents {
      more := more + [Writeable(ptr, socket.fd)];
      RunHook(handler, HookAt(hooks, used'));
      used' := used' + 1;
    }
    stop := handler.RefHasChanged(handlerRef);
    stop, exhausted := changed - 1 == 0 || stop, changed - 1 == 0;
  }

  /** The loop as written, for every handler, count and callbacks with which it does not go on over edited vectors. */
  method PollImpl(handler: Handler, changed: int, hooks: seq<seq<HandlerOp>>)
    returns (calls: seq<Call>, used: nat, ghost exhausted: bool)
    requires handler.State().Aligned() && Pass(handler.State(), changed, hooks).Finished?
    modifies handler
    ensures Pass(old(handler.State()), changed, hooks) == Finished(calls, handler.State(), used, exhausted)
    ensures used <= |AllCalls(old(handler.State()), 0)| && calls == AllCalls(old(handler.State()), 0)[..used]
    ensures handler.State() == Since(old(handler.State()), hooks, 0, used)
  {
    ghost var start := handler.State();
    calls, used, exhausted := [], 0, false;
    var nChanges, it := changed, 0;
    while it != |handler.sockets|
      invariant handler.State().Aligned() && it <= |handler.sockets| && !exhausted
      invariant Pass(old(handler.State()), changed, hooks) == Loop(handler.State(), it, nChanges, hooks, used, calls)
      decreases |handler.sockets| - it
    {
      if handler.sockets[it].revents == {} {
        it := it + 1;
        continue;
      }
      LoopVisits(handler.State(), it, nChanges, hooks, used, calls);
      var stop;
      ghost var last;
      stop, calls, used, last := VisitEntry(handler, it, nChanges, hooks, used, calls);
      nChanges := nChanges - 1;
      if stop {
        exhausted := last;
        CallsOfFinished(start, changed, hooks, calls, handler.State(), used, exhausted);
        return;
      }
      it := it + 1;
    }
    CallsOfFinished(start, changed, hooks, calls, handler.State(), used, exhausted);
  }

  lemma CallsOfFinished(t: Table, n: int, hooks: seq<seq<HandlerOp>>, calls: seq<Call>, u: Table, used: nat,
                        exhausted: bool)
    requires t.Aligned() && Pass(t, n, hooks) == Finished(calls, u, used, exhausted)
    ensures used <= |AllCalls(t, 0)| && calls == AllCalls(t, 0)[..used] && u == Since(t, hooks, 0, used)
  {
    CallsMatchCallbacks(t, n, hooks);
  }

  /** The kernel's answer written into the `revents` fields. */
  function Report(t: Table, reported: seq<Mask>): (u: Table)
    requires |reported| == |t.sockets|
    ensures |u.sockets| == |t.sockets|
    ensures forall i :: 0 <= i < |t.sockets| ==>
              && u.sockets[i].revents == reported[i]
              && u.sockets[i].fd == t.sockets[i].fd
              && u.sockets[i].events == t.sockets[i].events
    ensures u.ptrs == t.ptrs && u.invalid == t.invalid && u.changes == t.changes && u.edits == t.edits
  {
    t.(sockets := seq(|t.sockets|, i requires 0 <= i < |t.sockets| => t.sockets[i].(revents := reported[i])))
  }

  /** The calls that the kernel's answer asks for: for each position, in order, its own object with its own descriptor,
      read before write. */
  function Due(t: Table, reported: seq<Mask>, i: nat): seq<Call>
    requires t.Aligned() && |reported| == |t.sockets| && i <= |reported|
    decreases |reported| - i
  {
    if i == |reported| then []
    else
      (if POLLIN in reported[i] then [Readable(t.ptrs[i], t.sockets[i].fd)] else []) +
      (if POLLOUT in reported[i] then [Writeable(t.ptrs[i], t.sockets[i].fd)] else []) +
      Due(t, reported, i + 1)
  }

  /** The kernel's own answer at some position from `i` on asks for this call, of the object and the descriptor at that
      position. */
  ghost predicate Asked(t: Table, reported: seq<Mask>, i: nat, c: Call)
    requires t.Aligned() && |reported| == |t.sockets|
  {
    exists j :: i <= j < |reported| && t.ptrs[j] == c.ptr && t.sockets[j].fd == c.fd &&
                (if c.Readable? then POLLIN else POLLOUT) in reported[j]
  }

  /** A call is due exactly if some position's own answer asks for it. */
  lemma {:induction false} DueIffAsked(t: Table, reported: seq<Mask>, i: nat, c: Call)
    requires t.Aligned() && |reported| == |t.sockets| && i <= |reported|
    ensures c in Due(t, reported, i) <==> Asked(t, reported, i, c)
    decreases |reported| - i
  {
    if i < |reported| {
      DueIffAsked(t, reported, i + 1, c);
      var here := t.ptrs[i] == c.ptr && t.sockets[i].fd == c.fd && (if c.Readable? then POLLIN else POLLOUT) in
                    reported[i];
      assert Asked(t, reported, i, c) <==> here || Asked(t, reported, i + 1, c);
    }
  }

  lemma {:induction false} ReportIsDue(t: Table, reported: seq<Mask>, i: nat)
    requires t.Aligned() && |reported| == |t.sockets| && i <= |reported|
    ensures AllCalls(Report(t, reported), i) == Due(t, reported, i)
    decreases |reported| - i
  {
    if i < |reported| { ReportIsDue(t, reported, i + 1); }
  }

  /** The report changes no descriptor, so that a callback is of the same kind before and after it. */
  lemma {:induction false} SameKinds(t: Table, reported: seq<Mask>, hooks: seq<seq<HandlerOp>>)
    requires |reported| == |t.sockets|
    ensures KindsOn(Report(t, reported), hooks) == KindsOn(t, hooks)
  {
    assert Fds(Report(t, reported)) == Fds(t);
  }

  /** `events::poll`: false on an empty handler, otherwise one pass over what the kernel reported. */
  method Poll(handler: Handler, reported: seq<Mask>, hooks: seq<seq<HandlerOp>>) returns (r: bool, calls: seq<Call>)
    requires handler.State().Aligned() && |reported| == |handler.sockets|
    requires var t := Report(handler.State(), reported); Pass(t, ReadyCount(t, 0), hooks).Finished?
    modifies handler
    ensures r <==> old(handler.State()).sockets != []
    ensures !r ==> calls == [] && handler.State() == old(handler.State())
    ensures r ==> var t := Report(old(handler.State()), reported);
                  var out := Pass(t, ReadyCount(t, 0), hooks);
                  out.Finished? && calls == out.calls && handler.State() == out.table
    ensures r ==> calls <= Due(old(handler.State()), reported, 0)
    ensures r ==> var kinds := KindsOn(old(handler.State()), hooks);
                  && AllQuiet(kinds, 0, |calls| - 1)
                  && (calls == Due(old(handler.State()), reported, 0) ||
                      (calls != [] && KindAt(kinds, |calls| - 1) != Quiet))
    ensures r ==> handler.State() == Since(Report(old(handler.State()), reported), hooks, 0, |calls|)
  {
    var empty := handler.Empty();
    if empty {
      return false, [];
    }
    ghost var start := handler.State();
    PassOfReport(start, reported, hooks);
    var sockets := handler.sockets;
    handler.sockets := seq(|sockets|, i requires 0 <= i < |sockets| => sockets[i].(revents := reported[i]));
    assert handler.State() == Report(start, reported);
    var n := ReadyCount(Table(handler.sockets, handler.socketPtrs, handler.invalid, 0, 0), 0);
    CountIgnoresChanges(Table(handler.sockets, handler.socketPtrs, handler.invalid, 0, 0), handler.State(), 0);
    var used;
    ghost var exhausted;
    calls, used, exhausted := PollImpl(handler, n, hooks);
    r := true;
  }

  /** What a pass over the kernel's answer calls, whatever the callbacks do: the first of the calls the answer asks for,
      up to and with the first callback that is not quiet, or all of them; and what the handler is then. */
  lemma PassOfReport(t: Table, reported: seq<Mask>, hooks: seq<seq<HandlerOp>>)
    requires t.Aligned() && |reported| == |t.sockets|
    ensures var u, kinds := Report(t, reported), KindsOn(t, hooks);
            var out := Pass(u, ReadyCount(u, 0), hooks);
            && |out.calls| == out.used
            && out.calls <= Due(t, reported, 0)
            && AllQuiet(kinds, 0, out.used - 1)
            && (out.calls == Due(t, reported, 0) || (0 < out.used && KindAt(kinds, out.used - 1) != Quiet))
            && (out.Finished? ==> out.table == Since(u, hooks, 0, out.used))
  {
    var u := Report(t, reported);
    CallsMatchCallbacks(u, ReadyCount(u, 0), hooks);
    StopsAtFirstChange(u, hooks);
    ReportIsDue(t, reported, 0);
    SameKinds(t, reported, hooks);
  }

  lemma {:induction false} CountIgnoresChanges(t: Table, u: Table, i: nat)
    requires t.sockets == u.sockets && i <= |t.sockets|
    ensures ReadyCount(t, i) == ReadyCount(u, i)
    decreases |t.sockets| - i
  {
    if i == |t.sockets| {
    } else {
      CountIgnoresChanges(t, u, i + 1);
    }
  }
}
