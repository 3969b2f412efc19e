/** The send queue of a TCP connection, as written and repaired.
    Models `connection_base::send` and `send_flush` of includes/tcp/connection.hpp.
    The answer of the `send` system call is a parameter: -1, or how many bytes it took. */
module SendQueue {
  import opened PollHandler

  type byte = x: int | 0 <= x < 0x100

  /** A connection's outgoing side. `want` is the POLLOUT interest bit of its handler entry. The rest records
      history: `wire` is what the kernel took, in order; `accepted` is the concatenation of all messages for which
      `send` returned true; `flushed` are the leftovers whose removal from the queue was due to a single write that
      took all of them; `repeated` is what partial flushes wrote; `tails` are the non-empty unsent tails of the
      accepted messages, in send order. */
  datatype Stream<B> = Stream(
    queue: seq<seq<B>>,
    want: bool,
    wire: seq<B>,
    accepted: seq<B>,
    flushed: seq<seq<B>>,
    repeated: seq<B>,
    tails: seq<seq<B>>)

  const FRESH: Stream<byte> := Stream([], false, [], [], [], [], [])

  function Empty<B>(): Stream<B> {
    Stream([], false, [], [], [], [], [])
  }

  function Flat<B>(chunks: seq<seq<B>>): seq<B> {
    if chunks == [] then [] else chunks[0] + Flat(chunks[1..])
  }

  lemma {:induction false} FlatAppend<B>(a: seq<seq<B>>, b: seq<seq<B>>)
    ensures Flat(a + b) == Flat(a) + Flat(b)
  {
    if a == [] {
      assert a + b == b;
    } else {
      FlatAppend(a[1..], b);
      assert (a + b)[1..] == a[1..] + b;
    }
  }

  lemma FlatOne<B>(chunk: seq<B>)
    ensures Flat([chunk]) == chunk
  {
    assert Flat<B>([]) == [];
  }

  /** What the system call may answer for a buffer of length `len`. */
  predicate Answer(sent: int, len: nat) {
    -1 <= sent <= len
  }

  // ------------------------------------------------------------------------------------------
  // As written
  // ------------------------------------------------------------------------------------------

  function AfterSend<B>(st: Stream<B>, message: seq<B>, sent: int): Stream<B>
    requires Answer(sent, |message|)
  {
    if sent < 0 then st
    else
      var st1 := st.(wire := st.wire + message[..sent], accepted := st.accepted + message);
      if sent < |message| then 
        st1.(queue := st1.queue + [message[sent..]], want := true, tails := st1.tails + [message[sent..]])
      else st1
  }

  /** The partial case computes a suffix of the front and throws it away: the queue keeps the whole front. */
  function AfterFlush<B>(st: Stream<B>, sent: int): Stream<B>
    requires st.queue != [] ==> Answer(sent, |st.queue[0]|)
  {
    if st.queue == [] || sent < 0 then st
    else if sent < |st.queue[0]| then
      st.(wire := st.wire + st.queue[0][..sent], repeated := st.repeated + st.queue[0][..sent])
    else
      st.(wire := st.wire + st.queue[0], queue := st.queue[1..], want := false, flushed := st.flushed + [st.queue[0]])
  }

  datatype Op<B> =
    | OpSend(message: seq<B>, sent: int)
    | OpFlush(sent: int)

  predicate Possible<B>(st: Stream<B>, op: Op<B>) {
    match op
    case OpSend(message, sent) => Answer(sent, |message|)
    case OpFlush(sent) => st.queue != [] ==> Answer(sent, |st.queue[0]|)
  }

  function Step<B>(st: Stream<B>, op: Op<B>): Stream<B>
    requires Possible(st, op)
  {
    match op
    case OpSend(message, sent) => AfterSend(st, message, sent)
    case OpFlush(sent) => AfterFlush(st, sent)
  }

  /** A run from an empty queue in which every answer of the kernel was possible. */
  predicate IsRun<B>(ops: seq<Op<B>>)
    decreases |ops|, 0
  {
    ops == [] || (IsRun(ops[..|ops| - 1]) && Possible(Run(ops[..|ops| - 1]), ops[|ops| - 1]))
  }

  function Run<B>(ops: seq<Op<B>>): Stream<B>
    requires IsRun(ops)
    decreases |ops|, 1
  {
    if ops == [] then Empty() else Step(Run(ops[..|ops| - 1]), ops[|ops| - 1])
  }

  /** The non-empty unsent tails of the accepted messages, in send order. */
  function Tails<B>(ops: seq<Op<B>>): seq<seq<B>>
    requires IsRun(ops)
  {
    if ops == [] then []
    else Tails(ops[..|ops| - 1]) + TailOf(ops[|ops| - 1])
  }

  predicate NoEmptyLeftover<B>(st: Stream<B>) {
    forall i :: 0 <= i < |st.queue| ==> st.queue[i] != []
  }

  /** Every accepted byte is on the wire or still queued, and the only surplus on the wire is what partial flushes
      wrote. */
  ghost predicate Conserved<B>(st: Stream<B>) {
    && multiset(st.wire) + multiset(Flat(st.queue)) == multiset(st.accepted) + multiset(st.repeated)
    && |st.wire| + |Flat(st.queue)| == |st.accepted| + |st.repeated|
  }

  /** What every operation keeps, from any state that has it. The queue is the unsent tails in send order, less those at
      the front that a single write took whole. */
  ghost predicate Sound<B>(st: Stream<B>) {
    && NoEmptyLeftover(st)
    && Conserved(st)
    && st.flushed + st.queue == st.tails
    && (st.want ==> st.queue != [])
  }

  lemma SendKeepsSound<B>(st: Stream<B>, message: seq<B>, sent: int)
    requires Sound(st) && Answer(sent, |message|)
    ensures Sound(AfterSend(st, message, sent))
  {
    SendConserves(st, message, sent);
  }

  lemma SendConserves<B>(st: Stream<B>, message: seq<B>, sent: int)
    requires Conserved(st) && Answer(sent, |message|)
    ensures Conserved(AfterSend(st, message, sent))
  {
    if sent >= 0 {
      var st' := AfterSend(st, message, sent);
      var head, tail := message[..sent], message[sent..];
      assert message == head + tail;
      Bag(head, tail);
      Bag(st.wire, head);
      Bag(st.accepted, message);
      if sent < |message| {
        FlatAppend(st.queue, [tail]);
        FlatOne(tail);
        Bag(Flat(st.queue), tail);
      } else {
        assert tail == [];
      }
      assert multiset(st'.wire) + multiset(Flat(st'.queue)) ==
             (multiset(st.wire) + multiset(Flat(st.queue))) + (multiset(head) + multiset(tail));
      assert multiset(st'.accepted) + multiset(st'.repeated) ==
             (multiset(st.accepted) + multiset(st.repeated)) + multiset(message);
    }
  }

  lemma Bag<B>(a: seq<B>, b: seq<B>)
    ensures multiset(a + b) == multiset(a) + multiset(b)
  {
  }

  lemma FlushKeepsSound<B>(st: Stream<B>, sent: int)
    requires Sound(st) && (st.queue != [] ==> Answer(sent, |st.queue[0]|))
    ensures Sound(AfterFlush(st, sent))
  {
    if st.queue != [] && sent >= 0 {
      var st', front := AfterFlush(st, sent), st.queue[0];
      if sent < |front| {
        Bag(st.wire, front[..sent]);
        Bag(st.repeated, front[..sent]);
        assert multiset(st'.wire) + multiset(Flat(st'.queue)) ==
               (multiset(st.wire) + multiset(Flat(st.queue))) + multiset(front[..sent]);
        assert multiset(st'.accepted) + multiset(st'.repeated) ==
               (multiset(st.accepted) + multiset(st.repeated)) + multiset(front[..sent]);
      } else {
        Bag(st.wire, front);
        Bag(front, Flat(st.queue[1..]));
        assert multiset(st'.wire) + multiset(Flat(st'.queue)) == multiset(st.wire) + multiset(Flat(st.queue));
      }
    }
  }

  /** No loss: in every run the queue is exactly the unsent tails of the accepted messages in send order, less those
      a single write took whole; and every accepted byte is on the wire or queued. */
  lemma {:induction false} NoLoss<B>(ops: seq<Op<B>>)
    requires IsRun(ops)
    ensures Run(ops).flushed + Run(ops).queue == Tails(ops)
    ensures Sound(Run(ops))
  {
    if ops == [] {
    } else {
      var before, op := ops[..|ops| - 1], ops[|ops| - 1];
      NoLoss(before);
      StepKeepsSound(Run(before), op);
      StepTails(Run(before), op);
    }
  }

  lemma StepKeepsSound<B>(st: Stream<B>, op: Op<B>)
    requires Sound(st) && Possible(st, op)
    ensures Sound(Step(st, op))
  {
    match op
    case OpSend(message, sent) => SendKeepsSound(st, message, sent);
    case OpFlush(sent) => FlushKeepsSound(st, sent);
  }

  /** The tail one operation adds, if any. */
  function TailOf<B>(op: Op<B>): seq<seq<B>> {
    if op.OpSend? && 0 <= op.sent < |op.message| then [op.message[op.sent..]] else []
  }

  lemma StepTails<B>(st: Stream<B>, op: Op<B>)
    requires Possible(st, op)
    ensures Step(st, op).flushed + Step(st, op).queue == st.flushed + st.queue + TailOf(op)
  {
    if op.OpFlush? && st.queue != [] {
      assert st.flushed + st.queue == (st.flushed + [st.queue[0]]) + st.queue[1..];
    }
  }

  // ------------------------------------------------------------------------------------------
  // When the byte stream is exact
  // ------------------------------------------------------------------------------------------

  /** The bytes on the wire followed by the queue are the accepted messages. */
  ghost predicate Exact<B>(st: Stream<B>) {
    st.wire + Flat(st.queue) == st.accepted
  }

  /** The branch conditions under which the written code keeps order: nothing is written ahead of a queued leftover,
      and no flush takes a part of the front. */
  predicate Orderly<B>(st: Stream<B>, op: Op<B>)
    requires Possible(st, op)
  {
    match op
    case OpSend(message, sent) => sent <= 0 || st.queue == []
    case OpFlush(sent) => st.queue == [] || sent <= 0 || sent == |st.queue[0]|
  }

  predicate AllOrderly<B>(ops: seq<Op<B>>)
    requires IsRun(ops)
  {
    ops == [] || (AllOrderly(ops[..|ops| - 1]) && Orderly(Run(ops[..|ops| - 1]), ops[|ops| - 1]))
  }

  ghost predicate Distinct<B(!new)>(s: seq<B>) {
    forall i, j :: 0 <= i < j < |s| ==> s[i] != s[j]
  }

  lemma FlatNonEmpty<B>(chunks: seq<seq<B>>)
    requires chunks != [] && chunks[0] != []
    ensures Flat(chunks) != []
  {
  }

  lemma SendExactIff<B(!new)>(st: Stream<B>, message: seq<B>, sent: int)
    requires Sound(st) && Answer(sent, |message|) && (sent >= 0 ==> Distinct(st.accepted + message))
    ensures Exact(AfterSend(st, message, sent)) <==> Exact(st) && Orderly(st, OpSend(message, sent))
  {
    if sent >= 0 {
      var st' := AfterSend(st, message, sent);
      var head, tail, rest := message[..sent], message[sent..], Flat(st.queue);
      FlatAppend(st.queue, [tail]);
      FlatOne(tail);
      assert Flat(st'.queue) == rest + tail;
      if sent > 0 && st.queue != [] {
        FlatNonEmpty(st.queue);
        JumpingAheadShows(st.wire, rest, message, sent, st.accepted);
      } else {
        InOrderRegroups(st.wire, rest, message, sent);
        SameEnd(st.wire + rest, st.accepted, message);
      }
    }
  }

  lemma JumpingAheadShows<B(!new)>(wire: seq<B>, rest: seq<B>, message: seq<B>, sent: nat, accepted: seq<B>)
    requires 0 < sent <= |message| && rest != [] && Distinct(accepted + message)
    requires |wire| + |rest| >= |accepted|
    ensures (wire + message[..sent]) + (rest + message[sent..]) != accepted + message
  {
    var left, right := (wire + message[..sent]) + (rest + message[sent..]), accepted + message;
    assert left[|wire|] == message[0] == right[|accepted|];
    if |left| == |right| {
      assert |wire| < |accepted|;
      assert right[|wire|] != right[|accepted|];
    }
  }

  lemma InOrderRegroups<B>(wire: seq<B>, rest: seq<B>, message: seq<B>, sent: nat)
    requires sent <= |message| && (sent == 0 || rest == [])
    ensures (wire + message[..sent]) + (rest + message[sent..]) == (wire + rest) + message
  {
    assert message == message[..sent] + message[sent..];
  }

  lemma SameEnd<B>(a: seq<B>, b: seq<B>, end: seq<B>)
    ensures a + end == b + end <==> a == b
  {
    if a + end == b + end {
      assert (a + end)[..|a|] == a && (b + end)[..|a|] == b;
    }
  }

  lemma FlushExactIff<B(!new)>(st: Stream<B>, sent: int)
    requires Sound(st) && Possible(st, OpFlush(sent))
    ensures Exact(AfterFlush(st, sent)) <==> Exact(st) && Orderly(st, OpFlush(sent))
  {
    if st.queue != [] && sent >= 0 {
      var st' := AfterFlush(st, sent);
      if sent == |st.queue[0]| {
        assert st.wire + Flat(st.queue) == (st.wire + st.queue[0]) + Flat(st.queue[1..]);
      } else if sent > 0 {
        assert |st'.wire| + |Flat(st'.queue)| > |st'.accepted|;
      } else {
        assert st.queue[0][..0] == [] && st'.wire == st.wire;
      }
    }
  }

  /** As written, the stream is exact after a run if and only if no step of it wrote ahead of a leftover or flushed a
      part. The bytes of the run are told apart (see `TaggedRunIsRun`), so that equal values cannot hide a wrong
      order. */
  lemma {:induction false} WrittenExactIff<B(!new)>(ops: seq<Op<B>>)
    requires IsRun(ops) && Distinct(Run(ops).accepted)
    ensures Exact(Run(ops)) <==> AllOrderly(ops)
  {
    if ops != [] {
      var before, op := ops[..|ops| - 1], ops[|ops| - 1];
      var st := Run(before);
      NoLoss(before);
      DistinctPrefix(st.accepted, Run(ops).accepted);
      WrittenExactIff(before);
      match op
      case OpSend(message, sent) =>
        SendExactIff(st, message, sent);
      case OpFlush(sent) => FlushExactIff(st, sent);
    }
  }

  lemma DistinctPrefix<B(!new)>(a: seq<B>, b: seq<B>)
    requires a <= b && Distinct(b)
    ensures Distinct(a)
  {
    forall i, j | 0 <= i < j < |a| ensures a[i] != a[j] {
      assert a[i] == b[i] && a[j] == b[j];
    }
  }

  // Tagging bytes with where they come from ---------------------------------------------------

  datatype Token = Token(message: nat, offset: nat, value: byte)

  function Values(s: seq<Token>): seq<byte> {
    seq(|s|, i requires 0 <= i < |s| => s[i].value)
  }

  function ValuesOf(chunks: seq<seq<Token>>): seq<seq<byte>> {
    seq(|chunks|, i requires 0 <= i < |chunks| => Values(chunks[i]))
  }

  function Untagged(st: Stream<Token>): Stream<byte> {
    Stream(ValuesOf(st.queue), st.want, Values(st.wire), Values(st.accepted), ValuesOf(st.flushed), Values(st.repeated),
           ValuesOf(st.tails))
  }

  function Tag(message: seq<byte>, k: nat): seq<Token> {
    seq(|message|, i requires 0 <= i < |message| => Token(k, i, message[i]))
  }

  function TagOp(op: Op<byte>, k: nat): Op<Token> {
    match op
    case OpSend(message, sent) => OpSend(Tag(message, k), sent)
    case OpFlush(sent) => OpFlush(sent)
  }

  /** The same run with each byte tagged by the position of its send in the run and its offset in the message. */
  function TagRun(ops: seq<Op<byte>>): seq<Op<Token>> {
    seq(|ops|, k requires 0 <= k < |ops| => TagOp(ops[k], k))
  }

  /** The written code does not look at byte values: a run of tagged bytes, untagged, is the run itself;
      and tagged bytes are all different. */
  lemma {:induction false} TaggedRunIsRun(ops: seq<Op<byte>>)
    requires IsRun(ops)
    ensures IsRun(TagRun(ops))
    ensures Untagged(Run(TagRun(ops))) == Run(ops)
    ensures forall t :: t in Run(TagRun(ops)).accepted ==> t.message < |ops|
    ensures Distinct(Run(TagRun(ops)).accepted)
  {
    if ops != [] {
      var before, op, k := ops[..|ops| - 1], ops[|ops| - 1], |ops| - 1;
      TaggedRunIsRun(before);
      var tagged := TagRun(ops);
      assert tagged[..k] == TagRun(before);
      UntagStep(Run(tagged[..k]), op, k);
    } else {
      assert Untagged(Empty()) == Empty<byte>();
    }
  }

  lemma UntagStep(st: Stream<Token>, op: Op<byte>, k: nat)
    requires Possible(Untagged(st), op)
    requires Distinct(st.accepted) && forall t :: t in st.accepted ==> t.message < k
    ensures Possible(st, TagOp(op, k))
    ensures var st' := Step(st, TagOp(op, k));
            && Untagged(st') == Step(Untagged(st), op)
            && (forall t :: t in st'.accepted ==> t.message <= k)
            && Distinct(st'.accepted)
  {
    match op
    case OpSend(message, sent) => UntagSend(st, message, sent, k);
    case OpFlush(sent) => UntagFlush(st, sent);
  }

  lemma UntagSend(st: Stream<Token>, message: seq<byte>, sent: int, k: nat)
    requires Answer(sent, |message|)
    requires Distinct(st.accepted) && forall t :: t in st.accepted ==> t.message < k
    ensures |Tag(message, k)| == |message|
    ensures var st' := AfterSend(st, Tag(message, k), sent);
            && Untagged(st') == AfterSend(Untagged(st), message, sent)
            && (forall t :: t in st'.accepted ==> t.message <= k)
            && Distinct(st'.accepted)
  {
    UntaggedSend(st, message, Tag(message, k), sent);
    TagsDistinct(st.accepted, message, k);
  }

  lemma UntaggedSend(st: Stream<Token>, message: seq<byte>, tagged: seq<Token>, sent: int)
    requires Values(tagged) == message && |tagged| == |message| && Answer(sent, |message|)
    ensures Untagged(AfterSend(st, tagged, sent)) == AfterSend(Untagged(st), message, sent)
  {
    if sent >= 0 {
      assert Values(tagged[..sent]) == message[..sent] && Values(tagged[sent..]) == message[sent..];
      assert Values(st.wire + tagged[..sent]) == Values(st.wire) + message[..sent];
      assert Values(st.accepted + tagged) == Values(st.accepted) + message;
      assert ValuesOf(st.queue + [tagged[sent..]]) == ValuesOf(st.queue) + [message[sent..]];
    }
  }

  lemma TagsDistinct(accepted: seq<Token>, message: seq<byte>, k: nat)
    requires Distinct(accepted) && forall t :: t in accepted ==> t.message < k
    ensures Values(Tag(message, k)) == message && |Tag(message, k)| == |message|
    ensures Distinct(accepted + Tag(message, k)) && forall t :: t in accepted + Tag(message, k) ==> t.message <= k
  {
  }

  lemma UntagFlush(st: Stream<Token>, sent: int)
    requires Untagged(st).queue != [] ==> Answer(sent, |Untagged(st).queue[0]|)
    ensures st.queue != [] ==> Answer(sent, |st.queue[0]|)
    ensures Untagged(AfterFlush(st, sent)) == AfterFlush(Untagged(st), sent)
    ensures AfterFlush(st, sent).accepted == st.accepted
  {
    if st.queue != [] && sent >= 0 {
      var front := st.queue[0];
      assert ValuesOf(st.queue)[0] == Values(front);
      assert Values(st.wire + front) == Values(st.wire) + Values(front);
      assert ValuesOf(st.queue[1..]) == ValuesOf(st.queue)[1..];
      assert ValuesOf(st.flushed + [front]) == ValuesOf(st.flushed) + [Values(front)];
      assert Values(front[..sent]) == Values(front)[..sent];
      assert Values(st.wire + front[..sent]) == Values(st.wire) + Values(front)[..sent];
      assert Values(st.repeated + front[..sent]) == Values(st.repeated) + Values(front)[..sent];
    }
  }

  /** The exact condition for a run of plain bytes: judged on where each byte comes from, the wire is a prefix in order
      of what was accepted if and only if every step was orderly. */
  lemma PlainRunExactIff(ops: seq<Op<byte>>)
    requires IsRun(ops)
    ensures IsRun(TagRun(ops)) && Untagged(Run(TagRun(ops))) == Run(ops)
    ensures Exact(Run(TagRun(ops))) <==> AllOrderly(ops)
    ensures AllOrderly(ops) ==> Exact(Run(ops))
  {
    TaggedRunIsRun(ops);
    SameOrderly(ops);
    WrittenExactIff(TagRun(ops));
    if AllOrderly(ops) {
      UntagExact(Run(TagRun(ops)));
    }
  }

  /** Telling bytes apart does not change which operations are orderly. */
  lemma {:induction false} SameOrderly(ops: seq<Op<byte>>)
    requires IsRun(ops)
    ensures IsRun(TagRun(ops)) && (AllOrderly(TagRun(ops)) <==> AllOrderly(ops))
  {
    TaggedRunIsRun(ops);
    if ops == [] {
    } else {
      var before := ops[..|ops| - 1];
      SameOrderly(before);
      TaggedRunIsRun(before);
      assert TagRun(ops)[..|ops| - 1] == TagRun(before);
      OrderlyTagged(Run(TagRun(before)), ops[|ops| - 1], |before|);
    }
  }

  lemma OrderlyTagged(st: Stream<Token>, op: Op<byte>, k: nat)
    requires Possible(Untagged(st), op)
    ensures Possible(st, TagOp(op, k)) && (Orderly(st, TagOp(op, k)) <==> Orderly(Untagged(st), op))
  {
  }

  lemma UntagExact(st: Stream<Token>)
    requires Exact(st)
    ensures Exact(Untagged(st))
  {
    FlatValues(st.queue);
    assert Values(st.wire + Flat(st.queue)) == Values(st.wire) + Values(Flat(st.queue));
  }

  lemma {:induction false} FlatValues(chunks: seq<seq<Token>>)
    ensures Flat(ValuesOf(chunks)) == Values(Flat(chunks))
  {
    if chunks == [] {
    } else {
      FlatValues(chunks[1..]);
      assert ValuesOf(chunks)[1..] == ValuesOf(chunks[1..]);
      assert Values(chunks[0] + Flat(chunks[1..])) == Values(chunks[0]) + Values(Flat(chunks[1..]));
    }
  }

  // ------------------------------------------------------------------------------------------
  // Which bytes are written
  // ------------------------------------------------------------------------------------------

  /** What an operation asks the kernel to write: a send its message, a flush the first leftover. */
  function Offered<B>(st: Stream<B>, op: Op<B>): seq<B> {
    match op
    case OpSend(message, _) => message
    case OpFlush(_) => if st.queue == [] then [] else st.queue[0]
  }

  /** Each operation puts the beginning of what it offers on the wire, as long as the kernel's answer, behind what is
      there. */
  lemma WritesBeginning<B>(st: Stream<B>, op: Op<B>) returns (chunk: seq<B>)
    requires Possible(st, op)
    ensures Step(st, op).wire == st.wire + chunk && chunk <= Offered(st, op)
    ensures |chunk| == if op.sent < 0 || Offered(st, op) == [] then 0 else op.sent
  {
    chunk := if op.sent < 0 || Offered(st, op) == [] then [] else Offered(st, op)[..op.sent];
    assert st.wire + [] == st.wire;
  }

  /** `b` is the byte after `a` in the same message. */
  predicate Follows(a: Token, b: Token) {
    b.message == a.message && b.offset == a.offset + 1
  }

  ghost predicate Led(wire: seq<Token>, t: Token) {
    t.offset > 0 ==> exists j :: 0 <= j < |wire| && Follows(wire[j], t)
  }

  /** No byte is on the wire before the byte in front of it in its message. */
  ghost predicate InOrder(wire: seq<Token>) {
    forall i :: 0 <= i < |wire| ==> Led(wire[..i], wire[i])
  }

  predicate Consecutive(chunk: seq<Token>) {
    forall x :: 0 < x < |chunk| ==> Follows(chunk[x - 1], chunk[x])
  }

  /** A piece of one message, all of whose earlier bytes are on the wire. */
  ghost predicate Piece(wire: seq<Token>, chunk: seq<Token>) {
    Consecutive(chunk) && (chunk != [] ==> Led(wire, chunk[0]))
  }

  ghost predicate Ordered(st: Stream<Token>) {
    InOrder(st.wire) && forall i :: 0 <= i < |st.queue| ==> Piece(st.wire, st.queue[i])
  }

  lemma LedLater(wire: seq<Token>, more: seq<Token>, t: Token)
    requires Led(wire, t)
    ensures Led(wire + more, t)
  {
    if t.offset > 0 {
      var j :| 0 <= j < |wire| && Follows(wire[j], t);
      assert (wire + more)[j] == wire[j];
    }
  }

  lemma PieceOnWire(wire: seq<Token>, chunk: seq<Token>)
    requires InOrder(wire) && Piece(wire, chunk)
    ensures InOrder(wire + chunk)
  {
    var all := wire + chunk;
    forall i | 0 <= i < |all| ensures Led(all[..i], all[i]) {
      if i < |wire| {
        assert all[..i] == wire[..i];
      } else if i == |wire| {
        assert all[..i] == wire;
      } else {
        assert all[..i][i - 1] == chunk[i - 1 - |wire|] && Follows(all[..i][i - 1], all[i]);
      }
    }
  }

  /** After the beginning of a piece went on the wire, the rest is a piece still. */
  lemma PieceCut(wire: seq<Token>, chunk: seq<Token>, sent: nat)
    requires Piece(wire, chunk) && sent <= |chunk|
    ensures Piece(wire, chunk[..sent]) && Piece(wire + chunk[..sent], chunk[sent..])
  {
    if 0 < sent < |chunk| {
      var w := wire + chunk[..sent];
      assert w[|wire| + sent - 1] == chunk[sent - 1] && Follows(w[|wire| + sent - 1], chunk[sent]);
    } else if sent == 0 {
      assert wire + chunk[..0] == wire && chunk[0..] == chunk;
    }
  }

  lemma PiecesLater(wire: seq<Token>, more: seq<Token>, queue: seq<seq<Token>>)
    requires forall i :: 0 <= i < |queue| ==> Piece(wire, queue[i])
    ensures forall i :: 0 <= i < |queue| ==> Piece(wire + more, queue[i])
  {
    forall i | 0 <= i < |queue| ensures Piece(wire + more, queue[i]) {
      if queue[i] != [] { LedLater(wire, more, queue[i][0]); }
    }
  }

  lemma SendOrdered(st: Stream<Token>, message: seq<Token>, sent: int)
    requires Ordered(st) && Answer(sent, |message|) && Piece([], message)
    ensures Ordered(AfterSend(st, message, sent))
  {
    if sent >= 0 {
      if message != [] { LedLater([], st.wire, message[0]); assert [] + st.wire == st.wire; }
      PieceCut(st.wire, message, sent);
      PieceOnWire(st.wire, message[..sent]);
      PiecesLater(st.wire, message[..sent], st.queue);
    }
  }

  lemma FlushOrdered(st: Stream<Token>, sent: int)
    requires Ordered(st) && Possible(st, OpFlush(sent))
    ensures Ordered(AfterFlush(st, sent))
  {
    if st.queue != [] && sent >= 0 {
      var front := st.queue[0];
      assert front[..|front|] == front;
      PieceCut(st.wire, front, sent);
      PieceOnWire(st.wire, front[..sent]);
      PiecesLater(st.wire, front[..sent], st.queue);
    }
  }

  /** In every run, bytes told apart by the message they come from and their place in it: no byte is written before the
      byte in front of it in its message has been, and each leftover is a piece of one message whose earlier bytes are
      all on the wire. */
  lemma {:induction false} WireFollowsMessages(ops: seq<Op<byte>>)
    requires IsRun(ops)
    ensures IsRun(TagRun(ops)) && Untagged(Run(TagRun(ops))) == Run(ops)
    ensures Ordered(Run(TagRun(ops)))
  {
    TaggedRunIsRun(ops);
    if ops != [] {
      var before, op, k := ops[..|ops| - 1], ops[|ops| - 1], |ops| - 1;
      WireFollowsMessages(before);
      assert TagRun(ops)[..k] == TagRun(before);
      match op
      case OpSend(message, sent) => SendOrdered(Run(TagRun(before)), Tag(message, k), sent);
      case OpFlush(sent) => FlushOrdered(Run(TagRun(before)), sent);
    }
  }

  /** What the kernel took in a run. */
  function Taken<B>(ops: seq<Op<B>>): nat
    requires IsRun(ops)
  {
    if ops == [] then 0
    else
      var before, op := ops[..|ops| - 1], ops[|ops| - 1];
      Taken(before) + if op.sent < 0 || (op.OpFlush? && Run(before).queue == []) then 0 else op.sent
  }

  /** Nothing else is on the wire. */
  lemma {:induction false} WireIsWhatWasTaken<B>(ops: seq<Op<B>>)
    requires IsRun(ops)
    ensures |Run(ops).wire| == Taken(ops)
  {
    if ops != [] {
      var before, op := ops[..|ops| - 1], ops[|ops| - 1];
      WireIsWhatWasTaken(before);
      var chunk := WritesBeginning(Run(before), op);
    }
  }

  /** The interest bit stays equivalent to a non-empty queue exactly when the step is not a flush that empties the front
      of a queue with more leftovers behind it. */
  lemma InterestIff<B>(st: Stream<B>, op: Op<B>)
    requires Possible(st, op) && NoEmptyLeftover(st) && (st.want <==> st.queue != [])
    ensures var st' := Step(st, op);
            (st'.want <==> st'.queue != []) <==> !(op.OpFlush? && |st.queue| > 1 && op.sent == |st.queue[0]|)
  {
  }

  /** The operation writes the flag or changes the queue. */
  predicate Touches<B>(st: Stream<B>, op: Op<B>)
    requires Possible(st, op)
  {
    match op
    case OpSend(message, sent) => 0 <= sent < |message|
    case OpFlush(sent) => st.queue != [] && sent == |st.queue[0]|
  }

  /** Of the operations that did so, the last was a flush that took the whole front of a longer queue. */
  predicate LostLast<B>(ops: seq<Op<B>>)
    requires IsRun(ops)
  {
    ops != [] &&
    var st, op := Run(ops[..|ops| - 1]), ops[|ops| - 1];
    if Touches(st, op) then op.OpFlush? && |st.queue| > 1 else LostLast(ops[..|ops| - 1])
  }

  /** Over whole runs: interest may be lost and won back, and is lost at the end exactly in this case. */
  lemma {:induction false} InterestRunIff<B>(ops: seq<Op<B>>)
    requires IsRun(ops)
    ensures (Run(ops).want <==> Run(ops).queue != []) <==> !LostLast(ops)
  {
    if ops == [] {
    } else {
      var before, op := ops[..|ops| - 1], ops[|ops| - 1];
      NoLoss(before);
      InterestRunIff(before);
    }
  }

  // ------------------------------------------------------------------------------------------
  // Repaired. Not the code: what the documentation at lines 222-227 describes.
  // ------------------------------------------------------------------------------------------

  function RepairedSend<B>(st: Stream<B>, message: seq<B>, sent: int): Stream<B>
    requires st.queue == [] ==> Answer(sent, |message|)
  {
    if st.queue != [] then
      st.(queue := st.queue + (if message == [] then [] else [message]), accepted := st.accepted + message)
    else AfterSend(st, message, sent)
  }

  function RepairedFlush<B>(st: Stream<B>, sent: int): Stream<B>
    requires st.queue != [] ==> Answer(sent, |st.queue[0]|)
  {
    if st.queue == [] || sent < 0 then st
    else if sent < |st.queue[0]| then
      st.(wire := st.wire + st.queue[0][..sent], queue := [st.queue[0][sent..]] + st.queue[1..])
    else
      st.(wire := st.wire + st.queue[0], queue := st.queue[1..], want := |st.queue| > 1,
          flushed := st.flushed + [st.queue[0]])
  }

  predicate RepairedPossible<B>(st: Stream<B>, op: Op<B>) {
    match op
    case OpSend(message, sent) => st.queue == [] ==> Answer(sent, |message|)
    case OpFlush(sent) => st.queue != [] ==> Answer(sent, |st.queue[0]|)
  }

  function RepairedStep<B>(st: Stream<B>, op: Op<B>): Stream<B>
    requires RepairedPossible(st, op)
  {
    match op
    case OpSend(message, sent) => RepairedSend(st, message, sent)
    case OpFlush(sent) => RepairedFlush(st, sent)
  }

  predicate IsRepairedRun<B>(ops: seq<Op<B>>)
    decreases |ops|, 0
  {
    ops == [] ||
    (IsRepairedRun(ops[..|ops| - 1]) && RepairedPossible(RepairedRun(ops[..|ops| - 1]), ops[|ops| - 1]))
  }

  function RepairedRun<B>(ops: seq<Op<B>>): Stream<B>
    requires IsRepairedRun(ops)
    decreases |ops|, 1
  {
    if ops == [] then Empty() else RepairedStep(RepairedRun(ops[..|ops| - 1]), ops[|ops| - 1])
  }

  /** Repaired, every run has an exact stream and asks for writeability exactly while something is queued. */
  lemma {:induction false} RepairedIsExact<B>(ops: seq<Op<B>>)
    requires IsRepairedRun(ops)
    ensures var st := RepairedRun(ops);
            NoEmptyLeftover(st) && Exact(st) && (st.want <==> st.queue != [])
  {
    if ops != [] {
      var before, op := ops[..|ops| - 1], ops[|ops| - 1];
      RepairedIsExact(before);
      var st := RepairedRun(before);
      match op
      case OpSend(message, sent) => RepairedSendExact(st, message, sent);
      case OpFlush(sent) => RepairedFlushExact(st, sent);
    }
  }

  lemma RepairedSendExact<B>(st: Stream<B>, message: seq<B>, sent: int)
    requires RepairedPossible(st, OpSend(message, sent))
    requires Exact(st) && NoEmptyLeftover(st) && (st.want <==> st.queue != [])
    ensures var st' := RepairedSend(st, message, sent);
            Exact(st') && NoEmptyLeftover(st') && (st'.want <==> st'.queue != [])
  {
    if st.queue != [] {
      RepairedQueues(st, message);
    } else if sent >= 0 {
      RepairedWrites(st, message, sent);
    }
  }

  lemma RepairedQueues<B>(st: Stream<B>, message: seq<B>)
    requires st.queue != [] && Exact(st)
    ensures Exact(RepairedSend(st, message, -1))
  {
    FlatAppend(st.queue, [message]);
    FlatOne(message);
    assert st.queue + [] == st.queue;
    assert message == [] ==> st.accepted + message == st.accepted;
    assert st.wire + (Flat(st.queue) + message) == (st.wire + Flat(st.queue)) + message;
  }

  lemma RepairedWrites<B>(st: Stream<B>, message: seq<B>, sent: int)
    requires st.queue == [] && Exact(st) && 0 <= sent <= |message|
    ensures Exact(AfterSend(st, message, sent))
  {
    FlatOne(message[sent..]);
    assert [] + [message[sent..]] == [message[sent..]];
    assert st.wire + [] == st.wire;
    assert message == message[..sent] + message[sent..];
    assert st.wire + message[..sent] + message[sent..] == st.wire + message;
  }

  /** A repaired flush moves what the kernel took from the queue to the wire. */
  lemma RepairedFlushExact<B>(st: Stream<B>, sent: int)
    requires RepairedPossible(st, OpFlush(sent))
    requires Exact(st) && NoEmptyLeftover(st) && (st.want <==> st.queue != [])
    ensures var st' := RepairedFlush(st, sent);
            && Exact(st') && NoEmptyLeftover(st') && (st'.want <==> st'.queue != [])
            && (st.queue != [] && sent >= 0 ==> |Flat(st'.queue)| == |Flat(st.queue)| - sent)
  {
    if st.queue != [] && sent >= 0 {
      var front, rest := st.queue[0], st.queue[1..];
      assert Flat(st.queue) == front + Flat(rest);
      assert front == front[..sent] + front[sent..];
      if sent < |front| {
        var st' := RepairedFlush(st, sent);
        assert st'.queue[1..] == rest;
        assert Flat(st'.queue) == front[sent..] + Flat(rest);
        assert st.wire + front[..sent] + (front[sent..] + Flat(rest)) == st.wire + (front + Flat(rest));
      } else {
        assert (st.wire + front) + Flat(rest) == st.wire + (front + Flat(rest));
      }
    }
  }

  // ------------------------------------------------------------------------------------------
  // The connection object, as written
  // ------------------------------------------------------------------------------------------

  class Connection {
    const handler: Handler
    var socket: int
    var sendBuffer: seq<seq<byte>>
    ghost var wire: seq<byte>
    ghost var accepted: seq<byte>
    ghost var flushed: seq<seq<byte>>
    ghost var repeated: seq<byte>
    ghost var tails: seq<seq<byte>>

    ghost function State(): Stream<byte>
      reads this, handler
    {
      Stream(sendBuffer, WantsWrite(handler.State(), socket), wire, accepted, flushed, repeated, tails)
    }

    constructor (handler: Handler, socket: int)
      requires !WantsWrite(handler.State(), socket)
      ensures this.handler == handler && this.socket == socket && State() == FRESH
    {
      this.handler, this.socket := handler, socket;
      sendBuffer, wire, accepted, flushed, repeated, tails := [], [], [], [], [], [];
    }

    /** `sent` is the kernel's answer; it can only be non-negative on an open socket, and those are in the handler. */
    method Send(message: seq<byte>, sent: int) returns (ok: bool)
      requires Answer(sent, |message|) && handler.State().Aligned()
      requires sent >= 0 ==> handler.State().Holds(socket)
      modifies this`sendBuffer, this`wire, this`accepted, this`tails, handler`sockets
      ensures ok <==> sent >= 0
      ensures State() == AfterSend(old(State()), message, sent)
      ensures if ok then |wire| == |old(wire)| + sent && old(wire) <= wire <= old(wire) + message else wire == old(wire)
      ensures forall fd :: fd != socket ==> WantsWrite(handler.State(), fd) == old(WantsWrite(handler.State(), fd))
    {
      var nBytes := sent;
      if nBytes < 0 {
        return false;
      }
      wire, accepted := wire + message[..nBytes], accepted + message;
      if nBytes < |message| {
        sendBuffer, tails := sendBuffer + [message[nBytes..]], tails + [message[nBytes..]];
        ghost var before := handler.State();
        handler.SocketWantWrite(socket, true);
        InterestSet(before, socket, true);
        return true;
      }
      return true;
    }

    method SendFlush(sent: int)
      requires handler.State().Aligned() && (handler.State().Holds(socket) || sent < 0)
      requires sendBuffer != [] ==> Answer(sent, |sendBuffer[0]|)
      modifies this`sendBuffer, this`wire, this`flushed, this`repeated, handler`sockets
      ensures State() == AfterFlush(old(State()), sent)
      ensures if old(sendBuffer) != [] && sent >= 0
              then |wire| == |old(wire)| + sent && old(wire) <= wire <= old(wire) + old(sendBuffer)[0]
              else wire == old(wire)
      ensures forall fd :: fd != socket ==> WantsWrite(handler.State(), fd) == old(WantsWrite(handler.State(), fd))
    {
      if |sendBuffer| == 0 {
        return;
      }
      var nBytes := sent;
      if nBytes < 0 {
        return;
      }
      if nBytes < |sendBuffer[0]| {
        wire, repeated := wire + sendBuffer[0][..nBytes], repeated + sendBuffer[0][..nBytes];
        var unused := sendBuffer[0][nBytes..];
        return;
      }
      wire, flushed := wire + sendBuffer[0], flushed + [sendBuffer[0]];
      sendBuffer := sendBuffer[1..];
      ghost var before := handler.State();
      handler.SocketWantWrite(socket, false);
      InterestSet(before, socket, false);
    }
  }
}
