/** The poll handler: two parallel vectors and a 16-bit change counter.
    Models src/events/handlers/poll.cpp, includes/events/handlers/poll/handler_impl.hpp
    and includes/events/polling_handler.hpp. */
module PollHandler {

  /** Identity of a socket object; what a `socket_base*` stands for. */
  type ObjId = nat

  /** The width of the change counter. */
  type ushort = x: int | 0 <= x < 0x1_0000

  /** The bits of a `pollfd` mask. POLLERR stands for every bit reported without being asked for. */
  datatype Bit = POLLIN | POLLOUT | POLLERR

  /** A mask is the set of its bits: `m | b` is union, `m & ~b` difference, `m & b != 0` membership. */
  type Mask = set<Bit>

  datatype PollFd = PollFd(fd: int, events: Mask, revents: Mask)

  /** The value of a handler. `changes` counts the increments of `invalid` without wrapping, `edits` the calls that
      changed the vectors: every add, and every delete of a descriptor that is there. The program has neither;
      statements about the counter and about iterators need them. */
  datatype Table = Table(sockets: seq<PollFd>, ptrs: seq<ObjId>, invalid: ushort, changes: nat, edits: nat)
  {
    /** The same-size claim of handler_impl.hpp, line 59. */
    predicate Aligned() {
      |sockets| == |ptrs|
    }

    predicate DistinctFds() {
      forall i, j :: 0 <= i < j < |sockets| ==> sockets[i].fd != sockets[j].fd
    }

    predicate WellFormed() {
      Aligned() && DistinctFds()
    }

    predicate Holds(fd: int) {
      exists i :: 0 <= i < |sockets| && sockets[i].fd == fd
    }
  }

  const SPAN: nat := 0x1_0000

  /** Increment of the counter, as `++invalid` on an unsigned short. */
  function Next(x: ushort): ushort {
    if x == 0xFFFF then 0 else x + 1
  }

  /** First position holding `fd`, or the length: `std::find` through `operator==`. */
  function Find(s: seq<PollFd>, fd: int): (i: nat)
    ensures i <= |s|
    ensures i < |s| ==> s[i].fd == fd
    ensures forall j :: 0 <= j < i ==> s[j].fd != fd
  {
    if s == [] || s[0].fd == fd then 0 else 1 + Find(s[1..], fd)
  }

  function SetBit(events: Mask, bit: Bit, active: bool): Mask {
    if active then events + {bit} else events - {bit}
  }

  // ------------------------------------------------------------------------------------------
  // Operations on values
  // ------------------------------------------------------------------------------------------

  function AddSocket(t: Table, fd: int, ptr: ObjId): Table {
    Table(t.sockets + [PollFd(fd, {POLLIN}, {})], t.ptrs + [ptr], Next(t.invalid), t.changes + 1, t.edits + 1)
  }

  function DeleteSocket(t: Table, fd: int): Table
    requires t.Aligned()
  {
    var i := Find(t.sockets, fd);
    if i == |t.sockets| then t.(invalid := Next(t.invalid), changes := t.changes + 1)
    else
      Table(t.sockets[..i] + t.sockets[i + 1..], t.ptrs[..i] + t.ptrs[i + 1..], Next(t.invalid),
            t.changes + 1, t.edits + 1)
  }

  function SetInterest(t: Table, fd: int, bit: Bit, active: bool): Table {
    var i := Find(t.sockets, fd);
    if i == |t.sockets| then t
    else t.(sockets := t.sockets[i := t.sockets[i].(events := SetBit(t.sockets[i].events, bit, active))])
  }

  /** Whether the entry of `fd` asks for writeability. */
  predicate WantsWrite(t: Table, fd: int) {
    var i := Find(t.sockets, fd);
    i < |t.sockets| && POLLOUT in t.sockets[i].events
  }

  datatype HandlerOp =
    | Add(fd: int, ptr: ObjId)
    | Delete(fd: int)
    | WantRead(fd: int, active: bool)
    | WantWrite(fd: int, active: bool)

  predicate Structural(op: HandlerOp) {
    op.Add? || op.Delete?
  }

  function StructuralCount(ops: seq<HandlerOp>): nat {
    if ops == [] then 0 else (if Structural(ops[0]) then 1 else 0) + StructuralCount(ops[1..])
  }

  /** Same descriptors, same objects, same reported events, and no edit between; only interest bits and the counter may
      differ. */
  predicate SameShape(t: Table, u: Table) {
    && |t.sockets| == |u.sockets|
    && t.ptrs == u.ptrs
    && t.edits == u.edits
    && forall i :: 0 <= i < |t.sockets| ==>
         t.sockets[i].fd == u.sockets[i].fd && t.sockets[i].revents == u.sockets[i].revents
  }

  function Apply(t: Table, op: HandlerOp): (u: Table)
    requires t.Aligned()
    ensures u.Aligned()
    ensures !Structural(op) ==> SameShape(t, u) && u.invalid == t.invalid && u.changes == t.changes
    ensures Structural(op) ==> u.changes == t.changes + 1
    ensures t.edits <= u.edits && (u.edits == t.edits ==> SameShape(t, u))
  {
    match op
    case Add(fd, ptr) => AddSocket(t, fd, ptr)
    case Delete(fd) => DeleteSocket(t, fd)
    case WantRead(fd, active) => SetInterest(t, fd, POLLIN, active)
    case WantWrite(fd, active) => SetInterest(t, fd, POLLOUT, active)
  }

  function Run(t: Table, ops: seq<HandlerOp>): (u: Table)
    requires t.Aligned()
    ensures u.Aligned()
    ensures u.changes == t.changes + StructuralCount(ops)
    ensures t.edits <= u.edits && (u.edits == t.edits ==> SameShape(t, u))
    decreases ops
  {
    if ops == [] then t else Run(Apply(t, ops[0]), ops[1..])
  }

  // ------------------------------------------------------------------------------------------
  // Edits
  // ------------------------------------------------------------------------------------------

  function FdsOf(sockets: seq<PollFd>): (fds: seq<int>)
    ensures |fds| == |sockets| && forall i :: 0 <= i < |sockets| ==> fds[i] == sockets[i].fd
  {
    if sockets == [] then [] else [sockets[0].fd] + FdsOf(sockets[1..])
  }

  function Fds(t: Table): seq<int> {
    FdsOf(t.sockets)
  }

  /** The descriptors after an operation on a handler that holds `fds`. */
  function FdsAfter(fds: seq<int>, op: HandlerOp): seq<int> {
    match op
    case Add(fd, _) => fds + [fd]
    case Delete(fd) => Cut(fds, FirstAt(fds, fd))
    case _ => fds
  }

  function FirstAt(fds: seq<int>, fd: int): (i: nat)
    ensures i <= |fds|
    ensures i < |fds| ==> fds[i] == fd
    ensures forall j :: 0 <= j < i ==> fds[j] != fd
  {
    if fds == [] || fds[0] == fd then 0 else 1 + FirstAt(fds[1..], fd)
  }

  function Cut<T>(s: seq<T>, d: nat): seq<T> {
    if d < |s| then s[..d] + s[d + 1..] else s
  }

  /** The operation changes the vectors of a handler that holds `fds`. */
  predicate Edit(fds: seq<int>, op: HandlerOp) {
    op.Add? || (op.Delete? && op.fd in fds)
  }

  /** How many of the operations change the vectors. */
  function Edits(fds: seq<int>, ops: seq<HandlerOp>): nat
    decreases ops
  {
    if ops == [] then 0 else (if Edit(fds, ops[0]) then 1 else 0) + Edits(FdsAfter(fds, ops[0]), ops[1..])
  }

  lemma ApplyEdits(t: Table, op: HandlerOp)
    requires t.Aligned()
    ensures Fds(Apply(t, op)) == FdsAfter(Fds(t), op)
    ensures Apply(t, op).edits == t.edits + if Edit(Fds(t), op) then 1 else 0
  {
    if op.Delete? {
      DeleteEdits(t, op.fd);
    } else {
      OtherEdits(t, op);
    }
  }

  lemma DeleteEdits(t: Table, fd: int)
    requires t.Aligned()
    ensures Fds(DeleteSocket(t, fd)) == Cut(Fds(t), FirstAt(Fds(t), fd))
    ensures DeleteSocket(t, fd).edits == t.edits + if fd in Fds(t) then 1 else 0
  {
    FirstAtIsFind(t, fd);
    CutFds(t.sockets, Find(t.sockets, fd));
  }

  lemma CutFds(sockets: seq<PollFd>, d: nat)
    requires d <= |sockets|
    ensures FdsOf(if d < |sockets| then sockets[..d] + sockets[d + 1..] else sockets) == Cut(FdsOf(sockets), d)
  {
  }

  lemma OtherEdits(t: Table, op: HandlerOp)
    requires t.Aligned() && !op.Delete?
    ensures Fds(Apply(t, op)) == FdsAfter(Fds(t), op)
    ensures Apply(t, op).edits == t.edits + if op.Add? then 1 else 0
  {
  }

  lemma FirstAtIsFind(t: Table, fd: int)
    ensures FirstAt(Fds(t), fd) == Find(t.sockets, fd)
  {
    var i, d := FirstAt(Fds(t), fd), Find(t.sockets, fd);
    assert !(i < d) && !(d < i);
  }

  /** Over any operations the number of changes to the vectors is decided by the descriptors held at the start. */
  lemma {:induction false} RunEdits(t: Table, ops: seq<HandlerOp>)
    requires t.Aligned()
    ensures Run(t, ops).edits == t.edits + Edits(Fds(t), ops)
    decreases ops
  {
    if ops == [] {
    } else {
      ApplyEdits(t, ops[0]);
      RunEdits(Apply(t, ops[0]), ops[1..]);
    }
  }

  lemma {:induction false} EditsAreStructural(fds: seq<int>, ops: seq<HandlerOp>)
    ensures Edits(fds, ops) <= StructuralCount(ops)
    decreases ops
  {
    if ops == [] {
    } else {
      EditsAreStructural(FdsAfter(fds, ops[0]), ops[1..]);
    }
  }

  lemma FdsOfShape(t: Table, u: Table)
    requires SameShape(t, u)
    ensures Fds(t) == Fds(u)
  {
  }

  // ------------------------------------------------------------------------------------------
  // The change counter
  // ------------------------------------------------------------------------------------------

  /** The counter is the starting value plus the number of changes, less whole turns of 65536. */
  lemma {:induction false} CounterCounts(t: Table, ops: seq<HandlerOp>) returns (turns: nat)
    requires t.Aligned()
    ensures t.invalid + StructuralCount(ops) == Run(t, ops).invalid + turns * SPAN
    decreases ops
  {
    if ops == [] {
      turns := 0;
    } else {
      turns := CounterCounts(Apply(t, ops[0]), ops[1..]);
      if Structural(ops[0]) && t.invalid == 0xFFFF {
        turns := turns + 1;
      }
    }
  }

  /** A batch of changes goes unseen exactly when their number is a multiple of 65536, from any counter value. */
  lemma UnseenIffMultiple(t: Table, ops: seq<HandlerOp>)
    requires t.Aligned()
    ensures Run(t, ops).invalid == t.invalid <==> StructuralCount(ops) % SPAN == 0
  {
    var turns := CounterCounts(t, ops);
    SameAfterTurns(t.invalid, Run(t, ops).invalid, StructuralCount(ops), turns);
  }

  lemma SameAfterTurns(x: ushort, y: ushort, k: nat, turns: nat)
    requires x + k == y + turns * SPAN
    ensures x == y <==> k % SPAN == 0
  {
  }

  /** `n` increments bring the counter back to where it was. */
  predicate Hidden(n: nat) {
    n == 0 || (n >= SPAN && Hidden(n - SPAN))
  }

  lemma {:induction false} HiddenIsMultiple(n: nat)
    ensures Hidden(n) <==> n % SPAN == 0
  {
    if n < SPAN {
    } else {
      HiddenIsMultiple(n - SPAN);
      assert n % SPAN == (n - SPAN) % SPAN;
    }
  }

  // ------------------------------------------------------------------------------------------
  // Refinement of a finite map
  // ------------------------------------------------------------------------------------------

  datatype Entry = Entry(ptr: ObjId, events: Mask, revents: Mask)

  function EntryAt(t: Table, i: nat): Entry
    requires t.Aligned() && i < |t.sockets|
  {
    Entry(t.ptrs[i], t.sockets[i].events, t.sockets[i].revents)
  }

  /** The vectors are the map `m`: one entry for each key, nothing else, no descriptor twice. */
  ghost predicate Represents(t: Table, m: map<int, Entry>) {
    && t.WellFormed()
    && (forall i :: 0 <= i < |t.sockets| ==> t.sockets[i].fd in m && m[t.sockets[i].fd] == EntryAt(t, i))
    && (forall fd :: fd in m ==> t.Holds(fd))
  }

  function ApplyIndex(m: map<int, Entry>, op: HandlerOp): map<int, Entry> {
    match op
    case Add(fd, ptr) => m[fd := Entry(ptr, {POLLIN}, {})]
    case Delete(fd) => m - {fd}
    case WantRead(fd, active) =>
      if fd in m then m[fd := m[fd].(events := SetBit(m[fd].events, POLLIN, active))] else m
    case WantWrite(fd, active) =>
      if fd in m then m[fd := m[fd].(events := SetBit(m[fd].events, POLLOUT, active))] else m
  }

  function RunIndex(m: map<int, Entry>, ops: seq<HandlerOp>): map<int, Entry>
    decreases ops
  {
    if ops == [] then m else RunIndex(ApplyIndex(m, ops[0]), ops[1..])
  }

  /** The linear search is the map's look-up, for present and absent descriptors. */
  lemma SearchIsLookup(t: Table, m: map<int, Entry>, fd: int)
    requires Represents(t, m)
    ensures Find(t.sockets, fd) < |t.sockets| <==> fd in m
    ensures fd in m ==> EntryAt(t, Find(t.sockets, fd)) == m[fd]
  {
    if fd in m {
      var i :| 0 <= i < |t.sockets| && t.sockets[i].fd == fd;
      assert Find(t.sockets, fd) <= i;
    }
  }

  /** Descriptors stay distinct exactly when no add repeats one. */
  lemma StaysWellFormedIff(t: Table, op: HandlerOp)
    requires t.WellFormed()
    ensures Apply(t, op).WellFormed() <==> !(op.Add? && t.Holds(op.fd))
  {
    var u := Apply(t, op);
    if op.Add? {
      if t.Holds(op.fd) {
        var i :| 0 <= i < |t.sockets| && t.sockets[i].fd == op.fd;
        assert u.sockets[i].fd == u.sockets[|t.sockets|].fd;
      } else {
        forall i, j | 0 <= i < j < |u.sockets| ensures u.sockets[i].fd != u.sockets[j].fd {}
      }
    }
  }

  /** One operation on the vectors is the same operation on the map. */
  lemma StepRefines(t: Table, m: map<int, Entry>, op: HandlerOp)
    requires Represents(t, m) && !(op.Add? && t.Holds(op.fd))
    ensures Represents(Apply(t, op), ApplyIndex(m, op))
  {
    StaysWellFormedIff(t, op);
    match op
    case Add(fd, ptr) => AddRefines(t, m, fd, ptr);
    case Delete(fd) => DeleteRefines(t, m, fd);
    case WantRead(fd, active) => InterestRefines(t, m, fd, POLLIN, active);
    case WantWrite(fd, active) => InterestRefines(t, m, fd, POLLOUT, active);
  }

  lemma AddRefines(t: Table, m: map<int, Entry>, fd: int, ptr: ObjId)
    requires Represents(t, m) && !t.Holds(fd) && AddSocket(t, fd, ptr).WellFormed()
    ensures Represents(AddSocket(t, fd, ptr), m[fd := Entry(ptr, {POLLIN}, {})])
  {
    var u := AddSocket(t, fd, ptr);
    assert u.sockets[|t.sockets|].fd == fd;
    forall k | k in m ensures u.Holds(k) {
      var i :| 0 <= i < |t.sockets| && t.sockets[i].fd == k;
      assert u.sockets[i].fd == k;
    }
  }

  /** Where position `i` of a sequence was before position `d` was cut out of it. */
  function Past(i: nat, d: nat): nat {
    if i < d then i else i + 1
  }

  lemma CutAt<T>(s: seq<T>, d: nat)
    requires d < |s|
    ensures forall i :: 0 <= i < |s| - 1 ==> (s[..d] + s[d + 1..])[i] == s[Past(i, d)]
  {
  }

  /** Position `i` after a deletion is position `Past(i, d)` before, in both vectors. */
  lemma DeletedAt(t: Table, fd: int)
    requires t.Aligned()
    ensures var u, d := DeleteSocket(t, fd), Find(t.sockets, fd);
            && |u.sockets| == |u.ptrs| == (if d < |t.sockets| then |t.sockets| - 1 else |t.sockets|)
            && forall i :: 0 <= i < |u.sockets| ==>
                 Past(i, d) < |t.sockets| && u.sockets[i] == t.sockets[Past(i, d)] && u.ptrs[i] == t.ptrs[Past(i, d)]
  {
    var d := Find(t.sockets, fd);
    if d < |t.sockets| {
      CutAt(t.sockets, d);
      CutAt(t.ptrs, d);
    }
  }

  lemma DeleteRefines(t: Table, m: map<int, Entry>, fd: int)
    requires Represents(t, m) && DeleteSocket(t, fd).WellFormed()
    ensures Represents(DeleteSocket(t, fd), m - {fd})
  {
    DeletedAt(t, fd);
    var u, d := DeleteSocket(t, fd), Find(t.sockets, fd);
    forall i | 0 <= i < |u.sockets|
      ensures u.sockets[i].fd in m - {fd} && m[u.sockets[i].fd] == EntryAt(u, i)
    {
      assert t.sockets[Past(i, d)].fd in m;
    }
    forall k | k in m - {fd} ensures u.Holds(k) { StillHeld(t, fd, k); }
  }

  lemma StillHeld(t: Table, fd: int, k: int)
    requires t.WellFormed() && t.Holds(k) && k != fd
    ensures DeleteSocket(t, fd).Holds(k)
  {
    DeletedAt(t, fd);
    var u, d := DeleteSocket(t, fd), Find(t.sockets, fd);
    var i :| 0 <= i < |t.sockets| && t.sockets[i].fd == k;
    assert u.sockets[if i < d then i else i - 1].fd == k;
  }

  lemma InterestRefines(t: Table, m: map<int, Entry>, fd: int, bit: Bit, active: bool)
    requires Represents(t, m) && SetInterest(t, fd, bit, active).WellFormed()
    ensures Represents(SetInterest(t, fd, bit, active),
                       if fd in m then m[fd := m[fd].(events := SetBit(m[fd].events, bit, active))] else m)
  {
    SearchIsLookup(t, m, fd);
    forall k | k in m ensures SetInterest(t, fd, bit, active).Holds(k) { InterestHolds(t, fd, bit, active, k); }
  }

  lemma InterestHolds(t: Table, fd: int, bit: Bit, active: bool, k: int)
    requires t.Holds(k)
    ensures SetInterest(t, fd, bit, active).Holds(k)
  {
    var i :| 0 <= i < |t.sockets| && t.sockets[i].fd == k;
    assert SetInterest(t, fd, bit, active).sockets[i].fd == k;
  }

  /** No add in the sequence repeats a descriptor held at that point. */
  predicate FreshAdds(t: Table, ops: seq<HandlerOp>)
    requires t.Aligned()
    decreases ops
  {
    ops == [] || (!(ops[0].Add? && t.Holds(ops[0].fd)) && FreshAdds(Apply(t, ops[0]), ops[1..]))
  }

  /** Over any sequence of operations with fresh adds, the two vectors with linear search are a finite map. */
  lemma {:induction false} VectorsRefineMap(t: Table, m: map<int, Entry>, ops: seq<HandlerOp>)
    requires Represents(t, m) && FreshAdds(t, ops)
    ensures Represents(Run(t, ops), RunIndex(m, ops))
    decreases ops
  {
    if ops == [] {
    } else {
      StepRefines(t, m, ops[0]);
      VectorsRefineMap(Apply(t, ops[0]), ApplyIndex(m, ops[0]), ops[1..]);
    }
  }

  /** Deleting removes exactly the entry of `fd` and keeps every other entry, its object and their order. */
  lemma DeleteKeepsOrder(t: Table, fd: int)
    requires t.WellFormed()
    ensures var u, d := DeleteSocket(t, fd), Find(t.sockets, fd);
            && u.sockets == Others(t.sockets, fd)
            && |u.ptrs| == |u.sockets|
            && forall i :: 0 <= i < |u.sockets| ==>
                 Past(i, d) < |t.sockets| && u.sockets[i] == t.sockets[Past(i, d)] && u.ptrs[i] == t.ptrs[Past(i, d)]
  {
    OthersAre(t.sockets, fd);
    DeletedAt(t, fd);
  }

  /** The entries of all other descriptors, in order. */
  function Others(s: seq<PollFd>, fd: int): seq<PollFd> {
    if s == [] then []
    else if s[0].fd == fd then Others(s[1..], fd)
    else [s[0]] + Others(s[1..], fd)
  }

  lemma CutNext<T>(s: seq<T>, d: nat)
    requires s != []
    ensures Cut(s, 0) == s[1..] && Cut(s, d + 1) == [s[0]] + Cut(s[1..], d)
  {
    if d + 1 < |s| {
      assert s[..d + 1] == [s[0]] + s[1..][..d];
    }
  }

  lemma {:induction false} AllOthers(s: seq<PollFd>, fd: int)
    requires forall i :: 0 <= i < |s| ==> s[i].fd != fd
    ensures Others(s, fd) == s
  {
    if s == [] {
    } else {
      AllOthers(s[1..], fd);
    }
  }

  lemma {:induction false} OthersAre(s: seq<PollFd>, fd: int)
    requires forall i :: Find(s, fd) < i < |s| ==> s[i].fd != fd
    ensures Others(s, fd) == Cut(s, Find(s, fd))
  {
    if s == [] {
    } else if s[0].fd == fd {
      AllOthers(s[1..], fd);
      CutNext(s, 0);
    } else {
      OthersAre(s[1..], fd);
      CutNext(s, Find(s[1..], fd));
    }
  }

  /** After `socket_want_write` the interest of that descriptor is what was asked for, any other is as before. */
  lemma InterestSet(t: Table, fd: int, active: bool)
    requires t.Aligned()
    ensures t.Holds(fd) ==> WantsWrite(Apply(t, WantWrite(fd, active)), fd) == active
    ensures forall k :: k != fd ==> WantsWrite(Apply(t, WantWrite(fd, active)), k) == WantsWrite(t, k)
    ensures forall k :: WantsWrite(Apply(t, WantRead(fd, active)), k) == WantsWrite(t, k)
  {
    SameSearch(t.sockets, SetInterest(t, fd, POLLOUT, active).sockets);
    SameSearch(t.sockets, SetInterest(t, fd, POLLIN, active).sockets);
  }

  /** Adding a descriptor that is not held, or deleting one, leaves the interest of every other descriptor alone. */
  lemma InterestOfOthers(t: Table, fd: int, ptr: ObjId)
    requires t.WellFormed()
    ensures !t.Holds(fd) ==> !WantsWrite(AddSocket(t, fd, ptr), fd)
    ensures forall k :: k != fd ==> WantsWrite(AddSocket(t, fd, ptr), k) == WantsWrite(t, k)
    ensures forall k :: k != fd ==> WantsWrite(DeleteSocket(t, fd), k) == WantsWrite(t, k)
  {
    SearchAppended(t.sockets, PollFd(fd, {POLLIN}, {}));
    forall k | k != fd ensures WantsWrite(DeleteSocket(t, fd), k) == WantsWrite(t, k) {
      DeletedInterest(t, fd, k);
    }
  }

  lemma DeletedInterest(t: Table, fd: int, k: int)
    requires t.WellFormed() && k != fd
    ensures WantsWrite(DeleteSocket(t, fd), k) == WantsWrite(t, k)
  {
    var x, i := Find(t.sockets, fd), Find(t.sockets, k);
    if x < |t.sockets| {
      CutAt(t.sockets, x);
      SearchIs(DeleteSocket(t, fd).sockets, k, if i < x then i else i - 1);
    }
  }

  lemma InterestShape(t: Table, fd: int, bit: Bit, active: bool)
    ensures SameShape(t, SetInterest(t, fd, bit, active))
  {
  }

  lemma SearchAppended(s: seq<PollFd>, e: PollFd)
    ensures forall k :: Find(s + [e], k) == if Find(s, k) < |s| then Find(s, k) else if e.fd == k then |s| else |s| + 1
  {
    forall k
      ensures Find(s + [e], k) == if Find(s, k) < |s| then Find(s, k) else if e.fd == k then |s| else |s| + 1
    {
      var i := if Find(s, k) < |s| then Find(s, k) else if e.fd == k then |s| else |s| + 1;
      SearchIs(s + [e], k, i);
    }
  }

  lemma SearchIs(s: seq<PollFd>, fd: int, i: nat)
    requires i <= |s| && (i < |s| ==> s[i].fd == fd) && forall j :: 0 <= j < i ==> s[j].fd != fd
    ensures Find(s, fd) == i
  {
    var k := Find(s, fd);
    assert !(k < i) && !(i < k);
  }

  lemma SameSearch(s: seq<PollFd>, r: seq<PollFd>)
    requires |s| == |r| && forall i :: 0 <= i < |s| ==> s[i].fd == r[i].fd
    ensures forall k :: Find(s, k) == Find(r, k)
  {
    forall k ensures Find(s, k) == Find(r, k) {
      var i, j := Find(s, k), Find(r, k);
      assert i < |s| ==> r[i].fd == k;
      assert j < |r| ==> s[j].fd == k;
    }
  }

  /** A flag update changes only its own bit of its own entry. */
  lemma InterestIsLocal(t: Table, fd: int, bit: Bit, active: bool)
    requires t.WellFormed()
    ensures var u := SetInterest(t, fd, bit, active);
            && SameShape(t, u)
            && forall i, b :: 0 <= i < |t.sockets| && b in {POLLIN, POLLOUT, POLLERR} ==>
                 (b in u.sockets[i].events <==>
                  if t.sockets[i].fd == fd && b == bit then active else b in t.sockets[i].events)
  {
  }

  // ------------------------------------------------------------------------------------------
  // The handler object
  // ------------------------------------------------------------------------------------------

  class Handler {
    var sockets: seq<PollFd>
    var socketPtrs: seq<ObjId>
    var invalid: ushort
    ghost var changes: nat
    ghost var edits: nat

    ghost function State(): Table
      reads this
    {
      Table(sockets, socketPtrs, invalid, changes, edits)
    }

    /** The program leaves the counter uninitialised, so any value may be there. */
    constructor (garbage: ushort)
      ensures State() == Table([], [], garbage, 0, 0)
    {
      sockets, socketPtrs, invalid, changes, edits := [], [], garbage, 0, 0;
    }

    method FindSocket(socket: int) returns (i: nat)
      ensures i == Find(sockets, socket)
    {
      i := 0;
      while i < |sockets| && sockets[i].fd != socket
        invariant i <= |sockets|
        invariant forall j :: 0 <= j < i ==> sockets[j].fd != socket
      {
        i := i + 1;
      }
    }

    method AddSocket(socket: int, ptr: ObjId)
      requires State().Aligned()
      modifies this
      ensures State() == Apply(old(State()), Add(socket, ptr))
    {
      sockets := sockets + [PollFd(socket, {POLLIN}, {})];
      socketPtrs := socketPtrs + [ptr];
      invalid := Next(invalid);
      changes, edits := changes + 1, edits + 1;
    }

    method DeleteSocket(socket: int)
      requires State().Aligned()
      modifies this
      ensures State() == Apply(old(State()), Delete(socket))
    {
      var i := FindSocket(socket);
      if i != |sockets| {
        socketPtrs := socketPtrs[..i] + socketPtrs[i + 1..];
        sockets := sockets[..i] + sockets[i + 1..];
        edits := edits + 1;
      }
      invalid := Next(invalid);
      changes := changes + 1;
    }

    method SocketWantRead(socket: int, active: bool)
      requires State().Aligned()
      modifies this`sockets
      ensures State() == Apply(old(State()), WantRead(socket, active))
    {
      var i := FindSocket(socket);
      if i == |sockets| {
        return;
      }
      var entry := sockets[i];
      if active {
        entry := entry.(events := entry.events + {POLLIN});
      } else {
        entry := entry.(events := entry.events - {POLLIN});
      }
      sockets := sockets[i := entry];
    }

    method SocketWantWrite(socket: int, active: bool)
      requires State().Aligned()
      modifies this`sockets
      ensures State() == Apply(old(State()), WantWrite(socket, active))
    {
      var i := FindSocket(socket);
      if i == |sockets| {
        return;
      }
      var entry := sockets[i];
      if active {
        entry := entry.(events := entry.events + {POLLOUT});
      } else {
        entry := entry.(events := entry.events - {POLLOUT});
      }
      sockets := sockets[i := entry];
    }

    method Empty() returns (r: bool)
      ensures r <==> State().sockets == []
    {
      r := |sockets| == 0;
    }

    method Count() returns (n: nat)
      ensures n == |State().sockets|
    {
      n := |sockets|;
    }

    method GetRef() returns (r: ushort)
      ensures r == invalid
    {
      r := invalid;
    }

    method RefHasChanged(oldRef: ushort) returns (r: bool)
      ensures r <==> oldRef != invalid
    {
      r := oldRef != invalid;
    }
  }
}
