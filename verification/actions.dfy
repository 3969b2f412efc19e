/** Ordered callback lists with SKIP / STOP_AFTER / QUEUE_END flags.
    Models `action` of includes/events/action_hanlder.hpp. */
module Actions {

  datatype Flag = SKIP | STOP_AFTER | QUEUE_END

  /** A flag word is the set of its bits. */
  type Flags = set<Flag>

  datatype Callback<T> = Callback(exec: T, flags: Flags)
  {
    predicate Skipped() { SKIP in flags }
    predicate Stops() { SKIP !in flags && STOP_AFTER in flags }
    predicate Queued() { QUEUE_END in flags }
  }

  // ------------------------------------------------------------------------------------------
  // Insertion
  // ------------------------------------------------------------------------------------------

  /** The position just after the last callback without QUEUE_END. */
  function InsertPosition<T>(list: seq<Callback<T>>): (p: nat)
    ensures p <= |list|
    ensures p > 0 ==> !list[p - 1].Queued()
    ensures forall i :: p <= i < |list| ==> list[i].Queued()
  {
    if list == [] then 0
    else if !list[|list| - 1].Queued() then |list|
    else InsertPosition(list[..|list| - 1])
  }

  function Insert<T>(list: seq<Callback<T>>, cb: Callback<T>): seq<Callback<T>> {
    list[..InsertPosition(list)] + [cb] + list[InsertPosition(list)..]
  }

  /** The list after registering `regs` in order, starting from an empty list. */
  function Registered<T>(regs: seq<Callback<T>>): seq<Callback<T>> {
    if regs == [] then [] else Insert(Registered(regs[..|regs| - 1]), regs[|regs| - 1])
  }

  /** The callbacks registered without QUEUE_END, in registration order. */
  function InOrder<T>(regs: seq<Callback<T>>): (r: seq<Callback<T>>)
    ensures forall cb :: cb in r ==> !cb.Queued()
  {
    if regs == [] then []
    else InOrder(regs[..|regs| - 1]) + (if regs[|regs| - 1].Queued() then [] else [regs[|regs| - 1]])
  }

  /** The callbacks registered with QUEUE_END, latest first. */
  function AtEnd<T>(regs: seq<Callback<T>>): (r: seq<Callback<T>>)
    ensures forall cb :: cb in r ==> cb.Queued()
  {
    if regs == [] then []
    else (if regs[|regs| - 1].Queued() then [regs[|regs| - 1]] else []) + AtEnd(regs[..|regs| - 1])
  }

  lemma {:induction false} SplitPosition<T>(front: seq<Callback<T>>, back: seq<Callback<T>>)
    requires forall cb :: cb in front ==> !cb.Queued()
    requires forall cb :: cb in back ==> cb.Queued()
    ensures InsertPosition(front + back) == |front|
    decreases |back|
  {
    if back == [] {
      assert front + back == front;
    } else {
      SplitPosition(front, back[..|back| - 1]);
      assert (front + back)[..|front + back| - 1] == front + back[..|back| - 1];
    }
  }

  lemma InsertBetween<T>(front: seq<Callback<T>>, back: seq<Callback<T>>, cb: Callback<T>)
    requires InsertPosition(front + back) == |front|
    ensures Insert(front + back, cb) == front + [cb] + back
    ensures front + [cb] + back == (front + [cb]) + ([] + back) == (front + []) + ([cb] + back)
  {
  }

  /** Registration order: the callbacks without QUEUE_END as registered, then those with it, last registered first. */
  lemma {:induction false} RegistrationOrder<T>(regs: seq<Callback<T>>)
    ensures Registered(regs) == InOrder(regs) + AtEnd(regs)
  {
    if regs == [] {
    } else {
      var before := regs[..|regs| - 1];
      RegistrationOrder(before);
      SplitPosition(InOrder(before), AtEnd(before));
      InsertBetween(InOrder(before), AtEnd(before), regs[|regs| - 1]);
    }
  }

  /** The QUEUE_END callback registered first stays last whatever is registered afterwards. */
  lemma {:induction false} FirstQueuedStaysLast<T>(regs: seq<Callback<T>>, first: Callback<T>, later: seq<Callback<T>>)
    requires (forall cb :: cb in regs ==> !cb.Queued()) && first.Queued()
    ensures EndsWith(Registered(regs + [first] + later), first, |regs| + 1 + |later|)
    decreases |later|
  {
    if later == [] {
      assert regs + [first] + later == regs + [first];
      AppendedFirst(regs, first);
    } else {
      var before, cb := later[..|later| - 1], later[|later| - 1];
      FirstQueuedStaysLast(regs, first, before);
      RegisteredNext(regs + [first] + before, cb);
      assert (regs + [first] + before) + [cb] == regs + [first] + later;
      InsertKeepsLast(Registered(regs + [first] + before), first, |regs| + 1 + |before|, cb);
    }
  }

  predicate EndsWith<T(==)>(list: seq<Callback<T>>, last: Callback<T>, length: nat) {
    var ends := |list| == length && list != [] && list[|list| - 1] == last;
    ends
  }

  lemma RegisteredNext<T>(regs: seq<Callback<T>>, cb: Callback<T>)
    ensures Registered(regs + [cb]) == Insert(Registered(regs), cb)
  {
    assert (regs + [cb])[..|regs|] == regs;
  }

  lemma AppendedFirst<T>(regs: seq<Callback<T>>, first: Callback<T>)
    requires forall cb :: cb in regs ==> !cb.Queued()
    ensures Registered(regs + [first]) == regs + [first]
  {
    RegisteredNext(regs, first);
    RegistrationOrder(regs);
    NoneQueued(regs);
    SplitPosition(regs, []);
    assert regs + [] == regs;
  }

  lemma InsertKeepsLast<T>(list: seq<Callback<T>>, last: Callback<T>, length: nat, cb: Callback<T>)
    requires EndsWith(list, last, length) && last.Queued()
    ensures EndsWith(Insert(list, cb), last, length + 1)
  {
  }

  lemma {:induction false} NoneQueued<T>(regs: seq<Callback<T>>)
    requires forall cb :: cb in regs ==> !cb.Queued()
    ensures InOrder(regs) == regs && AtEnd(regs) == []
  {
    if regs == [] {
    } else {
      var before, last := regs[..|regs| - 1], regs[|regs| - 1];
      assert regs == before + [last];
      NoneQueued(before);
      assert InOrder(regs) == InOrder(before) + [last];
    }
  }

  // ------------------------------------------------------------------------------------------
  // Execution
  // ------------------------------------------------------------------------------------------

  /** What one execution of the list runs, in order. */
  function Executed<T>(list: seq<Callback<T>>): seq<T> {
    if list == [] then []
    else if list[0].Skipped() then Executed(list[1..])
    else if list[0].Stops() then [list[0].exec]
    else [list[0].exec] + Executed(list[1..])
  }

  /** All callbacks that are not SKIP, in list order. */
  function Active<T>(list: seq<Callback<T>>): seq<T> {
    if list == [] then []
    else (if list[0].Skipped() then [] else [list[0].exec]) + Active(list[1..])
  }

  ghost predicate AnyStops<T>(list: seq<Callback<T>>) {
    exists cb :: cb in list && cb.Stops()
  }

  /** The last callback of a list runs exactly when it is not SKIP and nothing before it stops;
      then it runs once, after every other callback that is not SKIP. */
  lemma {:induction false} LastRunsIff<T>(front: seq<Callback<T>>, last: Callback<T>)
    requires !last.Skipped() && last.exec !in Active(front)
    ensures last.exec in Executed(front + [last]) <==> !AnyStops(front)
    ensures !AnyStops(front) ==> Executed(front + [last]) == Active(front) + [last.exec]
    ensures AnyStops(front) ==> Executed(front + [last]) <= Active(front)
    decreases |front|
  {
    var list := front + [last];
    if front == [] {
      assert list[1..] == [];
    } else {
      assert list[1..] == front[1..] + [last];
      LastRunsIff(front[1..], last);
      assert AnyStops(front) <==> front[0].Stops() || AnyStops(front[1..]);
      if front[0].Stops() {
        assert Executed(list) == [front[0].exec];
        assert last.exec != front[0].exec;
      }
    }
  }

  /** The erase action of a socket container, registered first with QUEUE_END and STOP_AFTER: over any later
      registrations it runs exactly when no other callback that is not SKIP has STOP_AFTER, and then runs once and
      last. */
  lemma EraseRunsIff<T>(erase: T, later: seq<Callback<T>>)
    requires forall cb :: cb in later ==> cb.exec != erase
    ensures var ran := Executed(Registered([Callback(erase, {QUEUE_END, STOP_AFTER})] + later));
            && (erase in ran <==> !AnyStops(later))
            && (erase in ran ==> ran == Active(InOrder(later) + AtEnd(later)) + [erase])
            && (erase !in ran ==> ran <= Active(InOrder(later) + AtEnd(later)))
  {
    var first := Callback(erase, {QUEUE_END, STOP_AFTER});
    var front := InOrder(later) + AtEnd(later);
    EraseIsLast(first, later);
    assert AnyStops(later) <==> AnyStops(front) by { RearrangedMembers(later); }
    assert erase !in Active(front) by {
      RearrangedMembers(later);
      ActiveMembers(front);
    }
    LastRunsIff(front, first);
  }

  lemma EraseIsLast<T>(first: Callback<T>, later: seq<Callback<T>>)
    requires first.Queued()
    ensures Registered([first] + later) == InOrder(later) + AtEnd(later) + [first]
  {
    RegistrationOrder([first] + later);
    FirstQueued(first, later);
  }

  lemma {:induction false} FirstQueued<T>(first: Callback<T>, later: seq<Callback<T>>)
    requires first.Queued()
    ensures InOrder([first] + later) == InOrder(later)
    ensures AtEnd([first] + later) == AtEnd(later) + [first]
    decreases |later|
  {
    var all := [first] + later;
    if later == [] {
      assert all[..0] == [];
    } else {
      assert all[..|all| - 1] == [first] + later[..|later| - 1];
      FirstQueued(first, later[..|later| - 1]);
    }
  }

  lemma {:induction false} RearrangedMembers<T>(regs: seq<Callback<T>>)
    ensures forall cb :: cb in regs <==> cb in InOrder(regs) + AtEnd(regs)
  {
    if regs == [] {
    } else {
      var before := regs[..|regs| - 1];
      RearrangedMembers(before);
      forall cb ensures cb in regs <==> cb in InOrder(regs) + AtEnd(regs) {
        assert cb in regs <==> cb in before || cb == regs[|regs| - 1];
        assert cb in before <==> cb in InOrder(before) || cb in AtEnd(before);
      }
    }
  }

  lemma {:induction false} ActiveMembers<T>(list: seq<Callback<T>>)
    ensures forall e :: e in Active(list) <==> exists cb :: cb in list && !cb.Skipped() && cb.exec == e
  {
    if list == [] {
    } else {
      ActiveMembers(list[1..]);
      assert forall cb :: cb in list <==> cb == list[0] || cb in list[1..];
    }
  }

  // ------------------------------------------------------------------------------------------
  // The action object
  // ------------------------------------------------------------------------------------------

  class Action<T> {
    var executorList: seq<Callback<T>>

    constructor ()
      ensures executorList == []
    {
      executorList := [];
    }

    constructor Of(list: seq<Callback<T>>)
      ensures executorList == list
    {
      executorList := list;
    }

    /** Scans backwards over the callbacks with QUEUE_END and inserts in front of them. */
    method AddCallback(func: T, flags: Flags)
      modifies this
      ensures executorList == Insert(old(executorList), Callback(func, flags))
    {
      var it := |executorList|;
      while it > 0 && QUEUE_END in executorList[it - 1].flags
        invariant 0 <= it <= |executorList|
        invariant forall i :: it <= i < |executorList| ==> executorList[i].Queued()
      {
        it := it - 1;
      }
      assert it == InsertPosition(executorList);
      executorList := executorList[..it] + [Callback(func, flags)] + executorList[it..];
    }

    /** Runs the list; `ran` records the callbacks executed, in order. */
    method Execute() returns (ran: seq<T>)
      ensures ran == Executed(executorList)
    {
      ran := [];
      for i := 0 to |executorList|
        invariant ran + Executed(executorList[i..]) == Executed(executorList)
      {
        var executor := executorList[i];
        assert executorList[i..][1..] == executorList[i + 1..];
        if SKIP in executor.flags {
          continue;
        }
        if STOP_AFTER in executor.flags {
          ran := ran + [executor.exec];
          return;
        }
        ran := ran + [executor.exec];
      }
    }
  }
}
