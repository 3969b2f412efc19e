/** What the code of module Engine does to the state, stated on values: closing a socket whose callbacks run user code,
    draining a container, and making a socket and taking it back. */
module EngineFacts {
  import opened PollHandler
  import opened Core
  import opened Closing
  import opened Reentry
  import Actions
  import Machine
  import Preservation
  import Safety
  import SendQueue

  lemma Unmoved(s: State, pinned: set<ObjId>)
    requires Consistent(s)
    ensures Shrunk(s, s, pinned, {}) && s.table.Aligned()
  {
    ShrunkSame(s, pinned);
  }

  lemma SentMoves(s: State, id: ObjId, message: seq<SendQueue.byte>, sent: int, pinned: set<ObjId>)
    requires Consistent(s) && s.Live(id) && SendQueue.Answer(sent, |message|)
    ensures Shrunk(s, Sent(s, id, message, sent), pinned, {})
  {
    SentShrinks(s, id, message, sent, pinned);
  }

  lemma LoggedMoves(s: State, e: Event, pinned: set<ObjId>)
    requires Consistent(s) && !Parting(e, pinned)
    ensures Shrunk(s, Logged(s, e), pinned, {})
  {
    LoggedShrinks(s, e, pinned);
  }

  lemma RegisteredMoves(s: State, id: ObjId, tag: Tag, flags: Actions.Flags, pinned: set<ObjId>)
    requires Consistent(s) && s.Live(id)
    requires tag == CLOSED ==> s.heap[id].Open() && !Actions.Callback(User, flags).Stops()
    ensures Shrunk(s, RegisteredOn(s, id, tag, Actions.Callback(User, flags)), pinned, {})
  {
    IdsBelow(s, id);
    RegisteredShrinks(s, id, tag, Actions.Callback(User, flags), pinned);
  }

  lemma ShutMoves(s: State, id: ObjId)
    requires Consistent(s) && s.OpenAt(id)
    ensures s.table.Aligned() && Shut(s, id).table.ptrs == Without(s.table.ptrs, {id})
  {
    ShutCuts(s, id);
  }

  predicate NonePinned(heap: Heap, o: Owner, pinned: set<ObjId>) {
    forall id: ObjId :: id in pinned && id in heap ==> heap[id].owner != o
  }

  // ------------------------------------------------------------------------------------------
  // Running a CLOSED list
  // ------------------------------------------------------------------------------------------

  /** The event of one callback. */
  function RaisedBy(e: Core.Exec, id: ObjId): seq<Event> {
    match e
    case RaiseClosed => [Closed(id)]
    case RaiseDisconnect => [Disconnected(id)]
    case _ => []
  }

  function Told(s: State, events: seq<Event>): State {
    s.(log := s.log + events)
  }

  lemma ToldOnce(s: State, e: Core.Exec, id: ObjId)
    ensures Told(s, RaisedBy(e, id)) ==
            if e.RaiseClosed? then Logged(s, Closed(id))
            else if e.RaiseDisconnect? then Logged(s, Disconnected(id))
            else s
  {
    assert s.log + [] == s.log;
  }

  /** A closed socket and its CLOSED list have not changed. */
  predicate SameClosed(sock: Sock, sock': Sock) {
    var holds :=
      && sock'.fd == sock.fd && !sock'.Open() && sock'.owner == sock.owner && sock'.key == sock.key
      && sock'.On(CLOSED) == sock.On(CLOSED);
    holds
  }

  predicate PassedBy(front: seq<Callback>) {
    forall cb :: cb in front ==> !cb.Stops() && !cb.exec.Erase?
  }

  /** What the callbacks from `i` on will raise completes what was told, and the erase action is among them if it is
      among those of the whole list. */
  ghost predicate StillToRun(list: seq<Callback>, i: nat, id: ObjId, told: seq<Event>)
    requires i <= |list|
  {
    var holds :=
      && Raised(Actions.Executed(list), id) == told + Raised(Actions.Executed(list[i..]), id)
      && forall e: Core.Exec :: e.Erase? ==> (e in Actions.Executed(list) <==> e in Actions.Executed(list[i..]));
    holds
  }

  /** The loop over the CLOSED list of `id`, started in `s`, is about to look at callback `i` in `m`: the object is
      still there with the same list, nothing it ran stopped the list or erased it, and `told` is what was heard of
      it. */
  ghost predicate Running(s: State, m: State, id: ObjId, i: nat, pinned: set<ObjId>, told: seq<Event>) {
    var holds :=
      && s.Live(id) && m.Live(id) && SameClosed(s.heap[id], m.heap[id])
      && i <= |s.heap[id].On(CLOSED)| && PassedBy(s.heap[id].On(CLOSED)[..i])
      && StillToRun(s.heap[id].On(CLOSED), i, id, told)
      && Partings(m.log, {id}) == Partings(s.log, {id}) + told
      && Consistent(m) && Shrunk(s, m, pinned, {});
    holds
  }

  /** The loop ended: the object is gone if its list was clean and left behind if not, and of closing it user code heard
      what the callbacks that ran raise. */
  ghost predicate Ran(s: State, u: State, id: ObjId, pinned: set<ObjId>) {
    var holds :=
      && s.Live(id) && Consistent(u) && Shrunk(s, u, pinned, {id})
      && Partings(u.log, {id}) == Partings(s.log, {id}) + Raised(Actions.Executed(s.heap[id].On(CLOSED)), id)
      && (if u.Live(id) then LeftOver(s.heap[id], u.heap[id]) else Clean(s.heap[id]));
    holds
  }

  /** One callback of the list of `id` ran. */
  ghost predicate CalledBack(m: State, u: State, id: ObjId, e: Core.Exec, pinned: set<ObjId>) {
    var holds :=
      && Consistent(u) && Shrunk(m, u, pinned, {})
      && Partings(u.log, {id}) == Partings(m.log, {id}) + RaisedBy(e, id);
    holds
  }

  lemma RunBegins(s: State, id: ObjId, pinned: set<ObjId>)
    requires Consistent(s) && s.Live(id) && !s.heap[id].Open()
    ensures Running(s, s, id, 0, pinned, []) && s == Told(s, [])
  {
    Unmoved(s, pinned);
    NothingPassed(s.heap[id].On(CLOSED));
    AllToRun(s.heap[id].On(CLOSED), id);
    assert s.log + [] == s.log && Partings(s.log, {id}) + [] == Partings(s.log, {id});
  }

  lemma NothingPassed(list: seq<Callback>)
    ensures PassedBy(list[..0])
  {
  }

  lemma AllToRun(list: seq<Callback>, id: ObjId)
    ensures StillToRun(list, 0, id, [])
  {
    assert list[0..] == list;
    assert [] + Raised(Actions.Executed(list), id) == Raised(Actions.Executed(list), id);
  }

  lemma PassesOn(list: seq<Callback>, i: nat)
    requires i < |list| && PassedBy(list[..i]) && !list[i].Stops() && !list[i].exec.Erase?
    ensures PassedBy(list[..i + 1])
  {
    assert list[..i + 1] == list[..i] + [list[i]];
  }

  lemma RunningFacts(s: State, m: State, id: ObjId, i: nat, pinned: set<ObjId>, told: seq<Event>)
    requires Running(s, m, id, i, pinned, told)
    ensures s.Live(id) && m.Live(id) && m.heap[id].On(CLOSED) == s.heap[id].On(CLOSED) && !m.heap[id].Open()
    ensures Consistent(m)
    ensures |OpenIds(m.heap)| <= |OpenIds(s.heap)|
    ensures i < |s.heap[id].On(CLOSED)| ==>
              var cb, sock := s.heap[id].On(CLOSED)[i], m.heap[id];
              && (cb.exec.Erase? ==> i == |sock.On(CLOSED)| - 1 && !cb.Skipped())
              && (cb.exec.Erase? ==> cb == EraseCallback(sock.owner, sock.key))
              && (!cb.exec.Erase? ==> i < |sock.On(CLOSED)| - 1 && cb.exec in {User, RaiseClosed, RaiseDisconnect})
  {
    FewerOpen(s, m, pinned, {});
    ListsKnown(m, id);
    if i < |s.heap[id].On(CLOSED)| { ClosedCallback(m.heap[id], i); }
  }

  /** A callback of the list, and the user code hooked to its event, which leaves `id` alone. */
  lemma CallbackRan(m: State, e: Core.Exec, id: ObjId, u: State, pinned: set<ObjId>)
    requires Consistent(m) && id !in pinned && Consistent(u) && Shrunk(Told(m, RaisedBy(e, id)), u, pinned + {id}, {})
    ensures CalledBack(m, u, id, e, pinned)
  {
    var told := Told(m, RaisedBy(e, id));
    ToldMoves(m, e, id, pinned);
    Unheard(told.log, u.log, pinned + {id}, {id});
    FewerPins(told, u, pinned + {id}, pinned, {});
    Onwards(m, told, u, pinned, {});
  }

  lemma ToldMoves(s: State, e: Core.Exec, id: ObjId, pinned: set<ObjId>)
    requires Consistent(s) && id !in pinned
    ensures var u := Told(s, RaisedBy(e, id));
            && Consistent(u) && Shrunk(s, u, pinned, {})
            && Partings(u.log, {id}) == Partings(s.log, {id}) + RaisedBy(e, id)
  {
    if RaisedBy(e, id) != [] {
      EventMoves(s, RaisedBy(e, id)[0], id, pinned);
    } else {
      Unmoved(s, pinned);
      assert s.log + [] == s.log && Partings(s.log, {id}) + [] == Partings(s.log, {id});
    }
  }

  lemma EventMoves(s: State, e: Event, id: ObjId, pinned: set<ObjId>)
    requires Consistent(s) && id !in pinned && (e.Closed? || e.Disconnected?) && e.id == id
    ensures var u := Told(s, [e]);
            Consistent(u) && Shrunk(s, u, pinned, {}) && Partings(u.log, {id}) == Partings(s.log, {id}) + [e]
  {
    assert Told(s, [e]) == Logged(s, e);
    LoggedConsistent(s, e);
    LoggedMoves(s, e, pinned);
    PartingsAfter(s.log, e, {id});
  }

  lemma RunSkips(s: State, m: State, id: ObjId, i: nat, pinned: set<ObjId>, told: seq<Event>)
    requires Running(s, m, id, i, pinned, told) && i < |s.heap[id].On(CLOSED)| && s.heap[id].On(CLOSED)[i].Skipped()
    requires s.heap[id].On(CLOSED)[i].exec.Erase? ==> !s.heap[id].On(CLOSED)[i].Skipped()
    ensures Running(s, m, id, i + 1, pinned, told)
  {
    PassesOn(s.heap[id].On(CLOSED), i);
    NextRuns(s.heap[id].On(CLOSED), i, id, told);
  }

  lemma RunGoesOn(s: State, m: State, u: State, id: ObjId, i: nat, pinned: set<ObjId>, told: seq<Event>)
    requires Running(s, m, id, i, pinned, told) && i < |s.heap[id].On(CLOSED)|
    requires !s.heap[id].On(CLOSED)[i].Stops() && !s.heap[id].On(CLOSED)[i].exec.Erase?
    requires !s.heap[id].On(CLOSED)[i].Skipped() && CalledBack(m, u, id, s.heap[id].On(CLOSED)[i].exec, pinned)
    ensures Running(s, u, id, i + 1, pinned, told + RaisedBy(s.heap[id].On(CLOSED)[i].exec, id))
  {
    NextRuns(s.heap[id].On(CLOSED), i, id, told);
    Appended(Partings(s.log, {id}), told, RaisedBy(s.heap[id].On(CLOSED)[i].exec, id));
    StaysClosed(m, u, pinned, id);
    Onwards(s, m, u, pinned, {});
    PassesOn(s.heap[id].On(CLOSED), i);
  }

  lemma RunStops(s: State, m: State, u: State, id: ObjId, i: nat, pinned: set<ObjId>, told: seq<Event>)
    requires Running(s, m, id, i, pinned, told) && i < |s.heap[id].On(CLOSED)| - 1 && s.heap[id].On(CLOSED)[i].Stops()
    requires !s.heap[id].On(CLOSED)[i].exec.Erase? && CalledBack(m, u, id, s.heap[id].On(CLOSED)[i].exec, pinned)
    ensures Ran(s, u, id, pinned)
  {
    NextRuns(s.heap[id].On(CLOSED), i, id, told);
    Appended(Partings(s.log, {id}), told, RaisedBy(s.heap[id].On(CLOSED)[i].exec, id));
    StaysClosed(m, u, pinned, id);
    Onwards(s, m, u, pinned, {});
    FdGone(m, id);
    StoppedEarly(s, u, pinned, id, i);
  }

  lemma FdGone(m: State, id: ObjId)
    requires Consistent(m) && m.Live(id) && !m.heap[id].Open()
    ensures m.heap[id].fd == -1
  {
  }

  lemma RunErases(s: State, m: State, id: ObjId, i: nat, pinned: set<ObjId>, told: seq<Event>)
    requires Running(s, m, id, i, pinned, told) && i == |s.heap[id].On(CLOSED)| - 1
    requires s.heap[id].On(CLOSED)[i] == EraseCallback(m.heap[id].owner, m.heap[id].key)
    ensures Ran(s, Erased(m, m.heap[id].owner, m.heap[id].key), id, pinned)
    ensures Erased(Told(s, told), m.heap[id].owner, m.heap[id].key) == RanQuietly(s, id)
  {
    EraseMoves(s, m, id, pinned);
    EraseIsRun(s.heap[id].On(CLOSED), i, id, told);
    ToldAtErase(s, id, i, told);
  }

  lemma EraseIsRun(list: seq<Callback>, i: nat, id: ObjId, told: seq<Event>)
    requires i == |list| - 1 && PassedBy(list[..i]) && StillToRun(list, i, id, told)
    requires list[i].exec.Erase? && list[i].Stops() && !list[i].Skipped()
    ensures forall cb :: cb in Front(list) ==> !cb.Stops()
    ensures Raised(Actions.Executed(list), id) == told && list[i].exec in Actions.Executed(list)
  {
    NextRuns(list, i, id, told);
    assert told + [] == told;
    assert Front(list) == list[..i];
  }

  lemma RunShrinks(s: State, m: State, id: ObjId, i: nat, pinned: set<ObjId>, told: seq<Event>)
    requires Running(s, m, id, i, pinned, told)
    ensures |OpenIds(m.heap)| <= |OpenIds(s.heap)|
  {
    FewerOpen(s, m, pinned, {});
  }

  lemma RunNeverEnds(s: State, m: State, id: ObjId, i: nat, pinned: set<ObjId>, told: seq<Event>)
    requires Running(s, m, id, i, pinned, told)
    ensures i < |s.heap[id].On(CLOSED)|
  {
    ListsKnown(m, id);
    NeverPassed(m.heap[id], i);
  }

  lemma NeverPassed(sock: Sock, i: nat)
    requires EraseIsLast(sock) && i <= |sock.On(CLOSED)| && PassedBy(sock.On(CLOSED)[..i])
    ensures i < |sock.On(CLOSED)|
  {
    assert sock.On(CLOSED)[|sock.On(CLOSED)| - 1].exec.Erase?;
  }

  lemma NextRuns(list: seq<Callback>, i: nat, id: ObjId, told: seq<Event>)
    requires i < |list|
    ensures list[i].Skipped() && StillToRun(list, i, id, told) ==> StillToRun(list, i + 1, id, told)
    ensures !list[i].Skipped() && !list[i].Stops() && !list[i].exec.Erase? && StillToRun(list, i, id, told) ==>
              StillToRun(list, i + 1, id, told + RaisedBy(list[i].exec, id))
    ensures !list[i].Skipped() && list[i].Stops() && StillToRun(list, i, id, told) ==>
              && Raised(Actions.Executed(list), id) == told + RaisedBy(list[i].exec, id)
              && forall e: Core.Exec :: e.Erase? ==> (e in Actions.Executed(list) <==> e == list[i].exec)
  {
    var e, rest := list[i].exec, Actions.Executed(list[i + 1..]);
    assert list[i..][1..] == list[i + 1..];
    assert ([e] + rest)[1..] == rest && [e][1..] == [];
    assert Raised([e], id) == RaisedBy(e, id) + [];
    assert told + (RaisedBy(e, id) + Raised(rest, id)) == told + RaisedBy(e, id) + Raised(rest, id);
  }

  // With passive user code.

  lemma ToldMore(s: State, told: seq<Event>, more: seq<Event>)
    ensures Told(Told(s, told), more) == Told(s, told + more)
  {
    Appended(s.log, told, more);
  }

  lemma ToldAtErase(s: State, id: ObjId, i: nat, told: seq<Event>)
    requires s.Live(id) && i == |s.heap[id].On(CLOSED)| - 1 && PassedBy(s.heap[id].On(CLOSED)[..i])
    requires StillToRun(s.heap[id].On(CLOSED), i, id, told)
    requires s.heap[id].On(CLOSED)[i] == EraseCallback(s.heap[id].owner, s.heap[id].key)
    ensures Erased(Told(s, told), s.heap[id].owner, s.heap[id].key) == RanQuietly(s, id)
  {
    EraseIsRun(s.heap[id].On(CLOSED), i, id, told);
    ErasedQuietly(s, id, told);
  }

  lemma ErasedQuietly(s: State, id: ObjId, told: seq<Event>)
    requires s.Live(id) && Raised(Actions.Executed(s.heap[id].On(CLOSED)), id) == told
    requires EraseOf(s.heap[id]) in Actions.Executed(s.heap[id].On(CLOSED))
    ensures RanQuietly(s, id) == Erased(Told(s, told), s.heap[id].owner, s.heap[id].key)
  {
  }

  lemma ToldAtStop(s: State, m: State, id: ObjId, i: nat, pinned: set<ObjId>, told: seq<Event>)
    requires Running(s, m, id, i, pinned, told) && i < |s.heap[id].On(CLOSED)|
    requires s.heap[id].On(CLOSED)[i].Stops() && !s.heap[id].On(CLOSED)[i].exec.Erase?
    ensures Told(s, told + RaisedBy(s.heap[id].On(CLOSED)[i].exec, id)) == RanQuietly(s, id)
  {
    NextRuns(s.heap[id].On(CLOSED), i, id, told);
  }

  /** What can stand at position `i` of a CLOSED list. */
  lemma ClosedCallback(sock: Sock, i: nat)
    requires EraseIsLast(sock) && Safety.RoleOk(sock) && i < |sock.On(CLOSED)|
    ensures var cb := sock.On(CLOSED)[i];
            && (cb.exec.Erase? ==> i == |sock.On(CLOSED)| - 1 && !cb.Skipped())
            && (cb.exec.Erase? ==> cb == EraseCallback(sock.owner, sock.key))
            && (!cb.exec.Erase? ==> i < |sock.On(CLOSED)| - 1 && cb.exec in {User, RaiseClosed, RaiseDisconnect})
  {
    Safety.WhichCallback(sock, CLOSED, i);
    var list := sock.On(CLOSED);
    assert list[i] in list;
    if i > 0 { assert list[i] == list[1..][i - 1]; assert list[i] in list[1..]; }
  }

  lemma ListsKnown(s: State, id: ObjId)
    requires Consistent(s) && s.Live(id)
    ensures EraseIsLast(s.heap[id]) && Safety.RoleOk(s.heap[id])
  {
    IdsBelow(s, id);
  }

  lemma StaysClosed(s: State, u: State, pinned: set<ObjId>, id: ObjId)
    requires Shrunk(s, u, pinned, {}) && s.Live(id) && !s.heap[id].Open()
    ensures u.Live(id) && SameClosed(s.heap[id], u.heap[id])
  {
    assert Fate(s.heap, u.heap, pinned, id);
  }

  /** The erase action ran. */
  lemma EraseMoves(s: State, m: State, id: ObjId, pinned: set<ObjId>)
    requires Consistent(m) && Shrunk(s, m, pinned, {}) && m.Live(id) && !m.heap[id].Open()
    ensures var u := Erased(m, m.heap[id].owner, m.heap[id].key);
            Consistent(u) && u.heap == m.heap - {id} && Shrunk(s, u, pinned, {id})
  {
    ErasedConsistent(m, id);
    EraseShrinks(s, m, id, Erased(m, m.heap[id].owner, m.heap[id].key), pinned);
  }

  lemma EraseShrinks(s: State, m: State, id: ObjId, u: State, pinned: set<ObjId>)
    requires Shrunk(s, m, pinned, {}) && m.Live(id) && !m.heap[id].Open() && u.heap == m.heap - {id}
    requires u.table == m.table && u.log == m.log && u.nextId == m.nextId
    ensures Shrunk(s, u, pinned, {id})
  {
    assert OpenIds(u.heap) == OpenIds(m.heap);
    forall k: ObjId | k in s.heap && k != id ensures Fate(s.heap, u.heap, pinned, k) {
      assert Fate(s.heap, m.heap, pinned, k);
    }
  }

  /** The list stopped at position `i`, before the erase action. */
  lemma StoppedEarly(s: State, u: State, pinned: set<ObjId>, id: ObjId, i: nat)
    requires Shrunk(s, u, pinned, {}) && s.Live(id) && u.Live(id) && SameClosed(s.heap[id], u.heap[id])
    requires u.heap[id].fd == -1
    requires i < |s.heap[id].On(CLOSED)| - 1 && s.heap[id].On(CLOSED)[i].Stops()
    ensures Shrunk(s, u, pinned, {id}) && LeftOver(s.heap[id], u.heap[id])
  {
    assert Front(s.heap[id].On(CLOSED))[i].Stops();
  }

  /** The events of `socket::close`. */
  function EventsOfClosing(heap: Heap, id: ObjId): seq<Event>
    requires id in heap
  {
    if heap[id].Open() then CloseEvents(heap[id], id) else []
  }

  /** What was heard of closing `id` from `s` to `u` is what closing it in `s` raises. */
  ghost predicate Parted(s: State, id: ObjId, u: State) {
    s.Live(id) && Partings(u.log, {id}) == Partings(s.log, {id}) + EventsOfClosing(s.heap, id)
  }

  /** `u` is what closing `id` in `s` with passive user code leads to. */
  predicate QuietlyClosed(s: State, id: ObjId, u: State) {
    s.Live(id) && s.table.Aligned() && u == ClosedQuietly(s, id)
  }

  lemma NothingToClose(s: State, id: ObjId, pinned: set<ObjId>)
    requires Consistent(s) && s.Live(id) && !s.heap[id].Open()
    ensures Shrunk(s, s, pinned, {}) && s.table.Aligned()
    ensures Parted(s, id, s)
  {
    Unmoved(s, pinned);
    assert Partings(s.log, {id}) + [] == Partings(s.log, {id});
  }

  lemma ShutBegins(s: State, id: ObjId)
    requires Consistent(s) && s.OpenAt(id)
    ensures s.table.Aligned() && Consistent(Shut(s, id)) && |OpenIds(Shut(s, id).heap)| < |OpenIds(s.heap)|
  {
    ShutMoves(s, id);
    ShutConsistent(s, id);
    ShutFewer(s, id);
  }

  /** The whole of `socket::close`. */
  lemma CloseEnds(s: State, id: ObjId, u: State, pinned: set<ObjId>)
    requires Consistent(s) && s.OpenAt(id) && id !in pinned && s.table.Aligned() && Ran(Shut(s, id), u, id, pinned)
    ensures Consistent(u) && Shrunk(s, u, pinned, {}) && !OpenIn(u.heap, id)
    ensures Parted(s, id, u)
  {
    ShutMoves(s, id);
    ShutRan(s, id, u, pinned);
    CloseShrinks(s, id, u, pinned);
    PartedIs(s, id, u);
  }

  lemma PartedIs(s: State, id: ObjId, u: State)
    requires s.OpenAt(id) && Partings(u.log, {id}) == Partings(s.log, {id}) + CloseEvents(s.heap[id], id)
    ensures Parted(s, id, u)
  {
  }

  lemma ShutRan(s: State, id: ObjId, u: State, pinned: set<ObjId>)
    requires s.OpenAt(id) && s.table.Aligned() && Ran(Shut(s, id), u, id, pinned)
    ensures Consistent(u) && Shrunk(Shut(s, id), u, pinned, {id})
    ensures if id in u.heap then LeftOver(s.heap[id], u.heap[id]) else Clean(s.heap[id])
    ensures Partings(u.log, {id}) == Partings(Shut(s, id).log, {id}) +
            Raised(Actions.Executed(s.heap[id].On(CLOSED)), id)
  {
    assert Shut(s, id).heap[id].On(CLOSED) == s.heap[id].On(CLOSED);
  }

  // ------------------------------------------------------------------------------------------
  // Draining a container
  // ------------------------------------------------------------------------------------------

  lemma FirstOf(s: State, o: Owner, pinned: set<ObjId>)
    requires Consistent(s) && Ready(s.heap, o) && NonePinned(s.heap, o, pinned) && s.KeysOf(o) != {}
    ensures s.OpenAt(First(s, o)) && s.heap[First(s, o)].owner == o && First(s, o) !in pinned
  {
    FirstIsReady(s, o);
  }

  /** After the first socket was closed. */
  lemma TurnDone(s: State, m: State, u: State, o: Owner, pinned: set<ObjId>)
    requires Shrunk(s, m, pinned, {}) && Ready(m.heap, o) && NonePinned(m.heap, o, pinned) && m.KeysOf(o) != {}
    requires m.OpenAt(First(m, o)) && Shrunk(m, u, pinned, {}) && !OpenIn(u.heap, First(m, o))
    ensures Shrunk(s, u, pinned, {}) && Ready(u.heap, o) && NonePinned(u.heap, o, pinned)
    ensures |OpenIds(u.heap)| < |OpenIds(m.heap)|
  {
    Onwards(s, m, u, pinned, {});
    StaysReady(m, u, pinned, o);
    FewerOpen(m, u, pinned, {});
    forall id: ObjId | id in pinned && id in u.heap ensures u.heap[id].owner != o {
      assert Fate(m.heap, u.heap, pinned, id);
    }
  }

  /** Draining what is left in `m` completes the draining of `s`. */
  ghost predicate DrainsAlso(s: State, m: State, o: Owner) {
    var also := forall u :: Drained(m, o, u) ==> Drained(s, o, u);
    also
  }

  /** With passive user code that was one turn of the loop. */
  lemma TurnDoneQuietly(s: State, m: State, u: State, o: Owner)
    requires DrainsAlso(s, m, o) && Consistent(m) && Ready(m.heap, o) && m.KeysOf(o) != {}
    requires m.Live(First(m, o)) && m.table.Aligned() && u == ClosedQuietly(m, First(m, o))
    ensures DrainsAlso(s, u, o)
  {
    FirstIsReady(m, o);
    forall x | Drained(u, o, x) ensures Drained(s, o, x) { DrainedAfterTurn(m, o, x); }
  }

  lemma AllDrained(s: State, u: State, o: Owner)
    requires DrainsAlso(s, u, o) && Consistent(u) && u.KeysOf(o) == {}
    ensures Drained(s, o, u)
  {
    NothingToDrain(u, o);
  }

  // ------------------------------------------------------------------------------------------
  // Closing a server
  // ------------------------------------------------------------------------------------------

  lemma StaysEmpty(s: State, u: State, o: Owner, pinned: set<ObjId>)
    requires Shrunk(s, u, pinned, {}) && s.KeysOf(o) == {} && Consistent(s) && Consistent(u)
    ensures u.KeysOf(o) == {}
  {
    forall k | k in u.owned && k.owner == o ensures k.fd in s.KeysOf(o) {
      KeyHasObject(u, k);
      SameOwner(s, u, u.owned[k], pinned);
      ObjectHasKey(s, u.owned[k]);
    }
  }

  lemma SameOwner(s: State, u: State, id: ObjId, pinned: set<ObjId>)
    requires Shrunk(s, u, pinned, {}) && u.Live(id)
    ensures s.Live(id) && s.heap[id].owner == u.heap[id].owner && s.heap[id].key == u.heap[id].key
  {
    assert Fate(s.heap, u.heap, pinned, id);
  }

  lemma KeyHasObject(s: State, k: Key)
    requires Consistent(s) && k in s.owned
    ensures s.Live(s.owned[k]) && s.heap[s.owned[k]].owner == k.owner && s.heap[s.owned[k]].key == k.fd
  {
  }

  lemma ObjectHasKey(s: State, id: ObjId)
    requires Consistent(s) && s.Live(id)
    ensures Key(s.heap[id].owner, s.heap[id].key) in s.owned
  {
  }

  lemma ServerClosed(s: State, server: nat, m: State, u: State)
    requires Consistent(s) && Ready(s.heap, Clients(server)) && Ready(s.heap, Listeners(server))
    requires Drained(s, Clients(server), m) && Drained(m, Listeners(server), u) && Consistent(m) && Consistent(u)
    ensures ServerGone(s, server, u)
    ensures u.table.sockets == [] <==>
            forall id: ObjId :: OpenIn(s.heap, id) ==> s.heap[id].owner in {Clients(server), Listeners(server)}
  {
    ServerCloses(s, server, m, u);
    PollEndsIffNothingElse(s, server, u);
  }

  // ------------------------------------------------------------------------------------------
  // New sockets
  // ------------------------------------------------------------------------------------------

  /** Heap, containers and handler entries are as before, and `heard` came to the log. A descriptor that its container
      refused stays open in the kernel. */
  ghost predicate Restored(s: State, u: State, o: Owner, fd: int, heard: seq<Event>) {
    var holds :=
      && u.heap == s.heap && u.owned == s.owned
      && u.table.sockets == s.table.sockets && u.table.ptrs == s.table.ptrs
      && u.log == s.log + heard
      && u.kernel == s.kernel + (if fd >= 0 && Key(o, fd) in s.owned then {fd} else {});
    holds
  }

  /** What is heard of a `listen` or `connect` that fails: the ERROR event, and of a socket that had been inserted
      that it was closed, before the ERROR event if that is `late` and after it otherwise. */
  function FailureHeard(s: State, o: Owner, fd: int, late: bool): seq<Event> {
    if fd < 0 || Key(o, fd) in s.owned then [Failed(o)]
    else if late then [SysClose(s.nextId, fd), Closed(s.nextId), Failed(o)]
    else [Failed(o), SysClose(s.nextId, fd), Closed(s.nextId)]
  }

  ghost predicate RolledBack(s: State, u: State, o: Owner, fd: int, late: bool) {
    var holds := Restored(s, u, o, fd, FailureHeard(s, o, fd, late));
    holds
  }

  lemma NothingMade(s: State, u: State, o: Owner, fd: int)
    requires Consistent(s) && u == if fd < 0 then s else Allocated(s, fd)
    ensures Consistent(u)
    ensures fd < 0 || Key(o, fd) in s.owned ==> forall late :: RolledBack(s, Logged(u, Failed(o)), o, fd, late)
  {
  }

  /** The state with a new socket in it, after the registrations the library makes. */
  predicate Opened(s: State, o: Owner, fd: int, u: State) {
    var holds :=
      && Preservation.Equipped(Inserted(Allocated(s, fd), o, fd), u, s.nextId)
      && Clean(u.heap[s.nextId]);
    holds
  }

  lemma OpenedFacts(s: State, o: Owner, fd: int, u: State)
    requires Opened(s, o, fd, u)
    ensures u.Live(s.nextId) && u.heap == s.heap[s.nextId := u.heap[s.nextId]] && Clean(u.heap[s.nextId])
    ensures u.heap[s.nextId].fd == fd && u.heap[s.nextId].owner == o && u.heap[s.nextId].key == fd
    ensures Safety.RoleOk(u.heap[s.nextId])
    ensures u.owned == s.owned[Key(o, fd) := s.nextId] && u.table == AddSocket(s.table, fd, s.nextId)
    ensures u.log == s.log && u.nextId == s.nextId + 1 && u.kernel == s.kernel + {fd}
  {
  }

  lemma MadeConsistent(s: State, o: Owner, fd: int, u: State)
    requires Consistent(s) && fd >= 0 && Opened(s, o, fd, u) && Valid(u)
    ensures Consistent(u) && u.OpenAt(s.nextId) && Clean(u.heap[s.nextId])
    ensures u.heap.Keys == s.heap.Keys + {s.nextId}
  {
    NextFree(s);
    OpenedFacts(s, o, fd, u);
    AddedParts(s, u, u.heap[s.nextId]);
  }

  lemma AddedParts(s: State, u: State, sock: Sock)
    requires Safety.Roles(s.heap) && ClosedOnce(s.log, s.heap, s.nextId) && s.nextId !in s.heap
    requires u.heap == s.heap[s.nextId := sock] && sock.Open() && Safety.RoleOk(sock)
    requires u.log == s.log && u.nextId == s.nextId + 1
    ensures Safety.Roles(u.heap) && ClosedOnce(u.log, u.heap, u.nextId)
  {
    AddedOnce(s.log, s.heap, s.nextId, sock);
  }

  lemma NextFree(s: State)
    requires Consistent(s)
    ensures s.nextId !in s.heap
  {
  }

  lemma CleanWhenNew(sock: Sock, e: Core.Exec)
    requires |sock.On(CLOSED)| == 2 && sock.On(CLOSED)[0] == Plain(e)
    ensures Clean(sock)
  {
  }

  lemma ListenerOpened(s: State, server: nat, fd: int, ready: bool)
    ensures Opened(s, Listeners(server), fd,
                   Machine.ListenerActions(Inserted(Allocated(s, fd), Listeners(server), fd), s.nextId, server, ready))
  {
    var base := Inserted(Allocated(s, fd), Listeners(server), fd);
    var u := Machine.ListenerActions(base, s.nextId, server, ready);
    Preservation.ListenerEquipped(base, s.nextId, server, fd, ready);
    Preservation.FirstRegistrations(EraseCallback(Listeners(server), fd), RaiseClosed);
    assert u.heap[s.nextId].On(CLOSED) == [Plain(RaiseClosed), EraseCallback(Listeners(server), fd)];
    CleanWhenNew(u.heap[s.nextId], RaiseClosed);
  }

  lemma ListenerMade(s: State, server: nat, fd: int, ready: bool)
    requires Consistent(s) && fd >= 0 && fd !in s.kernel && Key(Listeners(server), fd) !in s.owned
    ensures var c := Inserted(Allocated(s, fd), Listeners(server), fd);
            var u := Machine.ListenerActions(c, s.nextId, server, ready);
            && Opened(s, Listeners(server), fd, u) && Consistent(u) && u.OpenAt(s.nextId) && Clean(u.heap[s.nextId])
            && u.heap.Keys == s.heap.Keys + {s.nextId}
  {
    var base := Inserted(Allocated(s, fd), Listeners(server), fd);
    InsertedKeeps(s, Listeners(server), fd);
    Preservation.ActionsValid(base, s.nextId, server, ready);
    ListenerOpened(s, server, fd, ready);
    MadeConsistent(s, Listeners(server), fd, Machine.ListenerActions(base, s.nextId, server, ready));
  }

  /** The state after a `listen` that succeeds, with passive user code. */
  function ListenerOpen(s: State, server: nat, fd: int): State {
    Logged(Machine.ListenerActions(Inserted(Allocated(s, fd), Listeners(server), fd), s.nextId, server, true),
           Listening(s.nextId))
  }

  /** The state after a `connect` that succeeds, with passive user code. */
  function PeerOpen(s: State, client: nat, fd: int): State {
    Logged(Machine.PeerActions(Inserted(Allocated(s, fd), Peers(client), fd), s.nextId, true), Connected(s.nextId))
  }

  lemma ListenIs(s: State, server: nat, fd: int)
    requires fd >= 0 && Key(Listeners(server), fd) !in s.owned
    ensures Machine.Listen(Machine.Sys(s, [], Machine.Idle), server, fd, Machine.Succeeds).core ==
            ListenerOpen(s, server, fd)
  {
  }

  lemma ConnectIs(s: State, client: nat, fd: int)
    requires fd >= 0 && Key(Peers(client), fd) !in s.owned
    ensures Machine.Connect(Machine.Sys(s, [], Machine.Idle), client, fd, Machine.Succeeds).core ==
            PeerOpen(s, client, fd)
  {
  }

  lemma PeerOpened(s: State, client: nat, fd: int, ready: bool)
    ensures Opened(s, Peers(client), fd,
                   Machine.PeerActions(Inserted(Allocated(s, fd), Peers(client), fd), s.nextId, ready))
  {
    var base := Inserted(Allocated(s, fd), Peers(client), fd);
    var u := Machine.PeerActions(base, s.nextId, ready);
    Preservation.PeerEquipped(base, s.nextId, client, fd, ready);
    Preservation.FirstRegistrations(EraseCallback(Peers(client), fd), RaiseClosed);
    assert u.heap[s.nextId].On(CLOSED) == [Plain(RaiseClosed), EraseCallback(Peers(client), fd)];
    CleanWhenNew(u.heap[s.nextId], RaiseClosed);
  }

  lemma PeerMade(s: State, client: nat, fd: int, ready: bool)
    requires Consistent(s) && fd >= 0 && fd !in s.kernel && Key(Peers(client), fd) !in s.owned
    ensures var u := Machine.PeerActions(Inserted(Allocated(s, fd), Peers(client), fd), s.nextId, ready);
            && Opened(s, Peers(client), fd, u) && Consistent(u) && u.OpenAt(s.nextId) && Clean(u.heap[s.nextId])
            && u.heap.Keys == s.heap.Keys + {s.nextId}
  {
    var base := Inserted(Allocated(s, fd), Peers(client), fd);
    InsertedKeeps(s, Peers(client), fd);
    Preservation.ActionsValid(base, s.nextId, 0, ready);
    PeerOpened(s, client, fd, ready);
    MadeConsistent(s, Peers(client), fd, Machine.PeerActions(base, s.nextId, ready));
  }

  lemma ClientOpened(s: State, server: nat, fd: int)
    ensures Opened(s, Clients(server), fd,
                   Machine.ClientActions(Inserted(Allocated(s, fd), Clients(server), fd), s.nextId))
  {
    var base := Inserted(Allocated(s, fd), Clients(server), fd);
    var u := Machine.ClientActions(base, s.nextId);
    Preservation.ClientEquipped(base, s.nextId, server, fd);
    Preservation.FirstRegistrations(EraseCallback(Clients(server), fd), RaiseDisconnect);
    assert u.heap[s.nextId].On(CLOSED) == [Plain(RaiseDisconnect), EraseCallback(Clients(server), fd)];
    CleanWhenNew(u.heap[s.nextId], RaiseDisconnect);
  }

  /** The client in its container with its callbacks and the ACCEPT event raised; or the ERROR event, if there is no
      descriptor or the container refuses it. */
  function ClientAdded(s: State, server: nat, fd: int): State {
    if fd < 0 then Logged(s, Failed(Clients(server)))
    else if Key(Clients(server), fd) in s.owned then Logged(Allocated(s, fd), Failed(Clients(server)))
    else Logged(Machine.ClientActions(Inserted(Allocated(s, fd), Clients(server), fd), s.nextId), Accepted(s.nextId))
  }

  /** The state once the event that a call ends with was raised. */
  function OnceTold(s: Machine.Sys): State {
    if s.stack != [] && s.stack[0].RaiseError? then Logged(s.core, Failed(s.stack[0].owner)) else s.core
  }

  lemma AcceptSteps(s: State, server: nat, fd: int)
    requires fd != 0
    ensures var out := Machine.AcceptClient(Machine.Sys(s, [], Machine.Idle), server, fd);
            out.Stepped? && OnceTold(out.sys) == ClientAdded(s, server, fd)
  {
  }

  lemma ClientMade(s: State, server: nat, fd: int)
    requires Consistent(s) && fd >= 0 && fd !in s.kernel && Key(Clients(server), fd) !in s.owned
    ensures Consistent(Machine.ClientActions(Inserted(Allocated(s, fd), Clients(server), fd), s.nextId))
    ensures Opened(s, Clients(server), fd,
                   Machine.ClientActions(Inserted(Allocated(s, fd), Clients(server), fd), s.nextId))
  {
    var base := Inserted(Allocated(s, fd), Clients(server), fd);
    InsertedKeeps(s, Clients(server), fd);
    Preservation.ActionsValid(base, s.nextId, server, true);
    ClientOpened(s, server, fd);
    MadeConsistent(s, Clients(server), fd, Machine.ClientActions(base, s.nextId));
  }

  /** User code leaves a pinned socket open. */
  lemma StaysOpen(s: State, u: State, id: ObjId)
    requires Shrunk(s, u, {id}, {}) && s.OpenAt(id) && Clean(s.heap[id])
    ensures u.OpenAt(id) && Clean(u.heap[id])
  {
    assert Fate(s.heap, u.heap, {id}, id);
  }

  /** The new socket is destroyed again and no other is left that was not there before. */
  lemma NewOneGone(s: State, made: State, m: State, u: State, id: ObjId)
    requires made.heap.Keys == s.heap.Keys + {id}
    requires Shrunk(made, m, {id}, {}) && m.OpenAt(id) && Clean(m.heap[id])
    requires Shrunk(m, u, {}, {}) && !OpenIn(u.heap, id)
    ensures u.heap.Keys <= s.heap.Keys
  {
    assert Fate(m.heap, u.heap, {}, id);
  }

  lemma RollsBack(s: State, o: Owner, fd: int, made: State)
    requires Consistent(s) && fd >= 0 && fd !in s.kernel && Key(o, fd) !in s.owned && !o.Clients?
    requires Opened(s, o, fd, made) && Consistent(made) && made.table.Aligned() && made.Live(s.nextId)
    ensures Restored(s, ClosedQuietly(made, s.nextId), o, fd, [SysClose(s.nextId, fd), Closed(s.nextId)])
  {
    NextFree(s);
    HandlerFree(s, fd);
    OpenedFacts(s, o, fd, made);
    ClosedCleanly(made, s.nextId);
    ClosedTable(made, s.nextId);
    RolledBackIs(s, o, fd, made, ClosedQuietly(made, s.nextId));
  }

  lemma ClosedTable(s: State, id: ObjId)
    requires s.OpenAt(id) && s.table.Aligned()
    ensures ClosedQuietly(s, id).table == DeleteSocket(s.table, s.heap[id].fd)
  {
  }

  lemma RolledBackIs(s: State, o: Owner, fd: int, made: State, u: State)
    requires s.nextId !in s.heap && s.table.WellFormed() && !s.table.Holds(fd) && fd !in s.kernel && fd >= 0
    requires Key(o, fd) !in s.owned && !o.Clients?
    requires made.Live(s.nextId) && made.heap == s.heap[s.nextId := made.heap[s.nextId]]
    requires made.heap[s.nextId].fd == fd && made.heap[s.nextId].owner == o && made.heap[s.nextId].key == fd
    requires Safety.RoleOk(made.heap[s.nextId]) && made.table == AddSocket(s.table, fd, s.nextId)
    requires made.owned == s.owned[Key(o, fd) := s.nextId] && made.log == s.log && made.kernel == s.kernel + {fd}
    requires ClosedOne(made, s.nextId, u) && u.table == DeleteSocket(made.table, fd)
    ensures Restored(s, u, o, fd, [SysClose(s.nextId, fd), Closed(s.nextId)])
  {
    CloseIsFarewell(made.heap[s.nextId], s.nextId);
    AddedThenDeleted(s.table, fd, s.nextId);
    assert u.heap == s.heap;
    assert u.owned == s.owned;
    assert u.kernel == s.kernel + {};
  }

  lemma HandlerFree(s: State, fd: int)
    requires Consistent(s) && fd !in s.kernel
    ensures s.table.WellFormed() && !s.table.Holds(fd)
  {
    TableWellFormed(s);
  }

  lemma AddedThenDeleted(t: Table, fd: int, id: ObjId)
    requires t.WellFormed() && !t.Holds(fd)
    ensures var u := DeleteSocket(AddSocket(t, fd, id), fd); u.sockets == t.sockets && u.ptrs == t.ptrs
  {
    var n, added := |t.sockets|, AddSocket(t, fd, id);
    assert added.sockets[n].fd == fd;
    assert Find(added.sockets, fd) == n by { FindsLast(added.sockets, fd); }
    assert added.sockets[..n] + added.sockets[n + 1..] == t.sockets;
    assert added.ptrs[..n] + added.ptrs[n + 1..] == t.ptrs;
  }

  lemma FindsLast(sockets: seq<PollFd>, fd: int)
    requires sockets != [] && sockets[|sockets| - 1].fd == fd
    requires forall i :: 0 <= i < |sockets| - 1 ==> sockets[i].fd != fd
    ensures Find(sockets, fd) == |sockets| - 1
  {
  }
}
