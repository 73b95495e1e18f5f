/**
 Framing of the Anthropic byte stream into server-sent-event blocks.

 The network hands the bytes over in chunks of its own choosing.  `Poll` is the parser's
 transition function and `SseParser.Next` its imperative form; `Delivery` describes, without
 any mention of chunks, what the same bytes ought to yield.  The main theorem says exactly
 for which inputs the two always agree.
 */
module SseFraming {
  import opened Options

  newtype byte = x: int | 0 <= x < 256

  const LF: byte := 10
  const CR: byte := 13

  /** Largest buffer that may be held without containing a boundary. */
  const MAX_BUFFER: nat := 16 * 1024

  // ---------------------------------------------------------------- boundaries

  /** Length of the blank-line boundary that starts at `i`, or 0 when none does. */
  function BoundaryLength(buf: seq<byte>, i: nat): nat {
    if i + 1 < |buf| && buf[i] == LF && buf[i + 1] == LF then 2
    else if i + 3 < |buf| && buf[i] == CR && buf[i + 1] == LF && buf[i + 2] == CR && buf[i + 3] == LF then 4
    else 0
  }

  /** A boundary is a line feed twice, or a carriage return and a line feed twice. */
  lemma {:induction false} BoundaryLengthIs(buf: seq<byte>, i: nat)
    ensures BoundaryLength(buf, i) == 2 <==> i + 2 <= |buf| && buf[i..i + 2] == [10, 10]
    ensures BoundaryLength(buf, i) == 4 <==> i + 4 <= |buf| && buf[i..i + 4] == [13, 10, 13, 10]
    ensures BoundaryLength(buf, i) in {0, 2, 4}
  {
  }

  /** `end` lies just past the first boundary of `buf`. */
  ghost predicate IsFirstBoundaryEnd(buf: seq<byte>, end: nat) {
    exists i: nat :: BoundaryLength(buf, i) > 0 && end == i + BoundaryLength(buf, i)
                     && forall j: nat :: j < i ==> BoundaryLength(buf, j) == 0
  }

  ghost predicate HasNoBoundary(buf: seq<byte>) {
    forall i: nat :: BoundaryLength(buf, i) == 0
  }

  /** Offset just past the first boundary at or after `i`. */
  function BoundaryFrom(buf: seq<byte>, i: nat): (r: Option<nat>)
    requires forall j: nat :: j < i ==> BoundaryLength(buf, j) == 0
    ensures r.Some? ==> r.value <= |buf| && 2 <= r.value && IsFirstBoundaryEnd(buf, r.value)
    ensures r.None? ==> HasNoBoundary(buf)
    decreases |buf| - i
  {
    if |buf| <= i then None
    else if BoundaryLength(buf, i) > 0 then Some(i + BoundaryLength(buf, i))
    else BoundaryFrom(buf, i + 1)
  }

  function Boundary(buf: seq<byte>): (r: Option<nat>)
    ensures r.Some? ==> r.value <= |buf| && 2 <= r.value && IsFirstBoundaryEnd(buf, r.value)
    ensures r.None? ==> HasNoBoundary(buf)
  {
    BoundaryFrom(buf, 0)
  }

  /** The scanning loop over the buffer. */
  method FindSseBoundary(buf: seq<byte>) returns (r: Option<nat>)
    ensures r.None? ==> HasNoBoundary(buf)
    ensures r.Some? ==> r.value <= |buf| && IsFirstBoundaryEnd(buf, r.value)
    ensures r == Boundary(buf)
  {
    var i := 0;
    while i < |buf|
      invariant 0 <= i <= |buf|
      invariant forall j: nat :: j < i ==> BoundaryLength(buf, j) == 0
      invariant Boundary(buf) == BoundaryFrom(buf, i)
    {
      if buf[i] == LF && i + 1 < |buf| && buf[i + 1] == LF {
        return Some(i + 2);
      }
      if buf[i] == CR && i + 3 < |buf| && buf[i + 1] == LF && buf[i + 2] == CR && buf[i + 3] == LF {
        return Some(i + 4);
      }
      i := i + 1;
    }
    return None;
  }

  /** There is at most one first boundary. */
  lemma {:induction false} FirstBoundaryUnique(buf: seq<byte>, a: nat, b: nat)
    requires IsFirstBoundaryEnd(buf, a) && IsFirstBoundaryEnd(buf, b)
    ensures a == b
  {
    var i: nat :| BoundaryLength(buf, i) > 0 && a == i + BoundaryLength(buf, i) && forall j: nat :: j < i ==> BoundaryLength(buf, j) == 0;
    var k: nat :| BoundaryLength(buf, k) > 0 && b == k + BoundaryLength(buf, k) && forall j: nat :: j < k ==> BoundaryLength(buf, j) == 0;
    if i < k {
      assert false;
    } else if k < i {
      assert false;
    }
  }

  /** Bytes that arrive later never reveal an earlier boundary. */
  lemma {:induction false} BoundaryStable(buf: seq<byte>, more: seq<byte>)
    requires Boundary(buf).Some?
    ensures Boundary(buf + more) == Boundary(buf)
  {
    var all := buf + more;
    var end := Boundary(buf).value;
    var i: nat :| BoundaryLength(buf, i) > 0 && end == i + BoundaryLength(buf, i) && forall j: nat :: j < i ==> BoundaryLength(buf, j) == 0;
    assert BoundaryLength(all, i) == BoundaryLength(buf, i);
    forall j: nat | j < i
      ensures BoundaryLength(all, j) == 0
    {
      assert BoundaryLength(buf, j) == 0;
    }
    assert IsFirstBoundaryEnd(all, end);
    assert BoundaryLength(all, i) > 0;
    FirstBoundaryUnique(all, end, Boundary(all).value);
  }

  /** A boundary that appears only once `more` has arrived ends inside `more`. */
  lemma {:induction false} BoundaryAppears(buf: seq<byte>, more: seq<byte>)
    requires Boundary(buf).None? && Boundary(buf + more).Some?
    ensures Boundary(buf + more).value > |buf|
  {
    var all := buf + more;
    var end := Boundary(all).value;
    var i: nat :| BoundaryLength(all, i) > 0 && end == i + BoundaryLength(all, i) && forall j: nat :: j < i ==> BoundaryLength(all, j) == 0;
    assert BoundaryLength(buf, i) == 0;
  }

  // ---------------------------------------------------------------- the parser

  /** What parsing one block yields: an event, nothing (ping or comment), or a failure. */
  datatype BlockResult<+E> = Parsed(event: E) | Silent | Malformed(message: string)

  /** One item of the parser's output stream. */
  datatype Item<+E> = Event(event: E) | ParseFailed(message: string) | BufferExceeded | SourceFailed(message: string)

  /** How the byte source ends once its chunks are used up. */
  datatype SourceEnd = Eof | Dropped(message: string)

  /** The parser's state: chunks still to be pulled, bytes held, and whether it has closed. */
  datatype State = State(chunks: seq<seq<byte>>, buf: seq<byte>, done: bool) {
    /** Every byte that has not been taken out as part of a block. */
    function Rest(): seq<byte> { buf + Flatten(chunks) }
  }

  function Flatten(chunks: seq<seq<byte>>): seq<byte> {
    if chunks == [] then [] else chunks[0] + Flatten(chunks[1..])
  }

  function Fresh(chunks: seq<seq<byte>>): State {
    State(chunks, [], false)
  }

  /** One poll of the stream: the next item, if any, and the state that remains. */
  function Poll<E>(parse: seq<byte> -> BlockResult<E>, end: SourceEnd, st: State): (r: (Option<Item<E>>, State))
    ensures r.0.Some? ==> !st.done
    ensures r.0.Some? && !r.1.done ==>
              |r.1.chunks| < |st.chunks| || (|r.1.chunks| == |st.chunks| && |r.1.buf| < |st.buf|)
    decreases |st.chunks|, |st.buf|
  {
    if st.done then (None, st)
    else match Boundary(st.buf)
      case Some(n) =>
        var drained := st.(buf := st.buf[n..]);
        (match parse(st.buf[..n])
         case Parsed(e) => (Some(Event(e)), drained)
         case Silent => Poll(parse, end, drained)
         case Malformed(m) => (Some(ParseFailed(m)), drained.(done := true)))
      case None =>
        if |st.buf| > MAX_BUFFER then (Some(BufferExceeded), st.(done := true))
        else if st.chunks != [] then Poll(parse, end, State(st.chunks[1..], st.buf + st.chunks[0], false))
        else match end
          case Eof => (None, st)
          case Dropped(m) => (Some(SourceFailed(m)), st.(done := true))
  }

  /** The imperative parser: a chunk source, a byte buffer and a closed flag. */
  class SseParser<E> {
    const parse: seq<byte> -> BlockResult<E>
    const end: SourceEnd
    var chunks: seq<seq<byte>>
    var buf: seq<byte>
    var done: bool

    constructor (parse: seq<byte> -> BlockResult<E>, chunks: seq<seq<byte>>, end: SourceEnd)
      ensures Current() == Fresh(chunks) && this.parse == parse && this.end == end
    {
      this.parse, this.end := parse, end;
      this.chunks, buf, done := chunks, [], false;
    }

    function Current(): State
      reads this
    {
      State(chunks, buf, done)
    }

    /** Drains, guards and pulls until one item can be returned or the stream ends. */
    method Next() returns (item: Option<Item<E>>)
      modifies this
      ensures (item, Current()) == Poll(parse, end, old(Current()))
    {
      while true
        invariant Poll(parse, end, Current()) == Poll(parse, end, old(Current()))
        decreases |chunks|, |buf|
      {
        if done {
          return None;
        }
        var boundary := FindSseBoundary(buf);
        if boundary.Some? {
          var block := buf[..boundary.value];
          buf := buf[boundary.value..];
          match parse(block) {
            case Parsed(e) => return Some(Event(e));
            case Silent => continue;
            case Malformed(m) =>
              done := true;
              return Some(ParseFailed(m));
          }
        }
        if |buf| > MAX_BUFFER {
          done := true;
          return Some(BufferExceeded);
        }
        if chunks == [] {
          match end {
            case Eof => return None;
            case Dropped(m) =>
              done := true;
              return Some(SourceFailed(m));
          }
        }
        buf, chunks := buf + chunks[0], chunks[1..];
      }
    }
  }

  /** Everything a consumer sees: the items in order and the bytes never framed. */
  datatype Outcome<+E> = Outcome(items: seq<Item<E>>, rest: seq<byte>)

  /** Polls until the stream ends. */
  function Run<E>(parse: seq<byte> -> BlockResult<E>, end: SourceEnd, st: State): Outcome<E>
    decreases !st.done, |st.chunks|, |st.buf|
  {
    var (item, next) := Poll(parse, end, st);
    if item.None? then Outcome([], next.Rest())
    else
      var later := Run(parse, end, next);
      Outcome([item.value] + later.items, later.rest)
  }

  // ---------------------------------------------------------------- chunk-free reference

  /** The complete blocks of `s`, each up to and including its boundary. */
  function Blocks(s: seq<byte>): seq<seq<byte>>
    decreases |s|
  {
    match Boundary(s)
    case None => []
    case Some(n) => [s[..n]] + Blocks(s[n..])
  }

  /** What is left of `s` after its last complete block. */
  function Tail(s: seq<byte>): seq<byte>
    decreases |s|
  {
    match Boundary(s)
    case None => s
    case Some(n) => Tail(s[n..])
  }

  /** What blocks and tail ought to yield, whatever way they were transported. */
  function Deliver<E>(parse: seq<byte> -> BlockResult<E>, end: SourceEnd, blocks: seq<seq<byte>>, tail: seq<byte>): Outcome<E> {
    if blocks == [] then
      if |tail| > MAX_BUFFER then Outcome([BufferExceeded], tail)
      else if end.Dropped? then Outcome([SourceFailed(end.message)], tail)
      else Outcome([], tail)
    else match parse(blocks[0])
      case Malformed(m) => Outcome([ParseFailed(m)], Flatten(blocks[1..]) + tail)
      case Silent => Deliver(parse, end, blocks[1..], tail)
      case Parsed(e) =>
        var later := Deliver(parse, end, blocks[1..], tail);
        Outcome([Event(e)] + later.items, later.rest)
  }

  function Delivery<E>(parse: seq<byte> -> BlockResult<E>, end: SourceEnd, s: seq<byte>): Outcome<E> {
    Deliver(parse, end, Blocks(s), Tail(s))
  }

  /** Every block up to the first malformed one, boundary included, is at most one byte over the cap. */
  predicate BlocksFit<E>(parse: seq<byte> -> BlockResult<E>, blocks: seq<seq<byte>>) {
    blocks != [] ==>
      |blocks[0]| <= 16_385 && (parse(blocks[0]).Malformed? || BlocksFit(parse, blocks[1..]))
  }

  /** Framing loses and invents nothing. */
  lemma {:induction false} FramingConserves(s: seq<byte>)
    ensures Flatten(Blocks(s)) + Tail(s) == s
    decreases |s|
  {
    if Boundary(s).Some? {
      var n := Boundary(s).value;
      FramingConserves(s[n..]);
      FlattenFirst(s[..n], Blocks(s[n..]), Tail(s[n..]));
      SplitAt(s, n);
    }
  }

  lemma {:induction false} SplitAt(s: seq<byte>, n: nat)
    requires n <= |s|
    ensures s[..n] + s[n..] == s
  {
  }

  lemma {:induction false} TailHasNoBoundary(s: seq<byte>)
    ensures HasNoBoundary(Tail(s))
    decreases |s|
  {
    if Boundary(s).Some? {
      TailHasNoBoundary(s[Boundary(s).value..]);
    }
  }

  /** Each block ends at its only boundary. */
  lemma {:induction false} BlocksEndAtBoundaries(s: seq<byte>, i: nat)
    requires i < |Blocks(s)|
    ensures IsFirstBoundaryEnd(Blocks(s)[i], |Blocks(s)[i]|)
    decreases |s|
  {
    match Boundary(s)
    case Some(n) =>
      if i == 0 {
        BlockEndsAtBoundary(s, n);
      } else {
        BlocksEndAtBoundaries(s[n..], i - 1);
      }
  }

  lemma {:induction false} FlattenFirst(first: seq<byte>, rest: seq<seq<byte>>, tail: seq<byte>)
    ensures Flatten([first] + rest) + tail == first + (Flatten(rest) + tail)
  {
    assert ([first] + rest)[1..] == rest;
  }

  lemma {:induction false} BlockEndsAtBoundary(s: seq<byte>, n: nat)
    requires Boundary(s) == Some(n)
    ensures IsFirstBoundaryEnd(s[..n], n)
  {
    var i: nat :| BoundaryLength(s, i) > 0 && n == i + BoundaryLength(s, i) && forall j: nat :: j < i ==> BoundaryLength(s, j) == 0;
    assert BoundaryLength(s[..n], i) == BoundaryLength(s, i);
    forall j: nat | j < i
      ensures BoundaryLength(s[..n], j) == 0
    {
      assert BoundaryLength(s, j) == 0;
    }
  }

  // ---------------------------------------------------------------- chunking theorem

  /** A closed parser yields nothing more. */
  lemma {:induction false} RunClosed<E>(parse: seq<byte> -> BlockResult<E>, end: SourceEnd, st: State)
    requires st.done
    ensures Run(parse, end, st) == Outcome([], st.Rest())
  {
    assert Poll(parse, end, st) == (None, st);
  }

  /** Draining the buffer's first block is draining the first block of all the bytes. */
  lemma {:induction false} DrainFirstBlock(st: State)
    requires Boundary(st.buf).Some?
    ensures var n, all := Boundary(st.buf).value, st.Rest();
            && Boundary(all) == Some(n)
            && all[..n] == st.buf[..n]
            && all[n..] == st.(buf := st.buf[n..]).Rest()
  {
    BoundaryStable(st.buf, Flatten(st.chunks));
  }

  /** A buffer over the cap without a boundary is the start of an overlong tail when blocks fit. */
  lemma {:induction false} OverfullIsTail<E>(parse: seq<byte> -> BlockResult<E>, st: State)
    requires Boundary(st.buf).None? && |st.buf| > MAX_BUFFER
    requires BlocksFit(parse, Blocks(st.Rest()))
    ensures Boundary(st.Rest()).None?
  {
    if Boundary(st.Rest()).Some? {
      BoundaryAppears(st.buf, Flatten(st.chunks));
      assert false;
    }
  }

  /** With fitting blocks the parser yields the reference delivery, whatever the chunks. */
  lemma {:induction false} RunDelivers<E>(parse: seq<byte> -> BlockResult<E>, end: SourceEnd, st: State)
    requires !st.done && BlocksFit(parse, Blocks(st.Rest()))
    ensures Run(parse, end, st) == Delivery(parse, end, st.Rest())
    decreases |st.chunks|, |st.buf|
  {
    match Boundary(st.buf)
    case Some(n) =>
      RunDeliversBlock(parse, end, st, n);
    case None =>
      if |st.buf| > MAX_BUFFER {
        OverfullIsTail(parse, st);
        RunClosed(parse, end, st.(done := true));
      } else if st.chunks != [] {
        var pulled := State(st.chunks[1..], st.buf + st.chunks[0], false);
        assert pulled.Rest() == st.Rest();
        RunDelivers(parse, end, pulled);
      } else {
        assert st.Rest() == st.buf;
        RunClosed(parse, end, st.(done := true));
      }
  }

  lemma {:induction false} RunDeliversBlock<E>(parse: seq<byte> -> BlockResult<E>, end: SourceEnd, st: State, n: nat)
    requires !st.done && BlocksFit(parse, Blocks(st.Rest()))
    requires Boundary(st.buf) == Some(n)
    ensures Run(parse, end, st) == Delivery(parse, end, st.Rest())
    decreases |st.chunks|, |st.buf|, 0
  {
    var all := st.Rest();
    var drained := st.(buf := st.buf[n..]);
    DrainFirstBlock(st);
    assert Blocks(all) == [all[..n]] + Blocks(all[n..]);
    assert Blocks(all)[1..] == Blocks(drained.Rest());
    if parse(all[..n]).Malformed? {
      FramingConserves(drained.Rest());
      RunClosed(parse, end, drained.(done := true));
    } else {
      RunDelivers(parse, end, drained);
    }
  }

  /** Running never grows the unframed bytes. */
  lemma {:induction false} RunRestShrinks<E>(parse: seq<byte> -> BlockResult<E>, end: SourceEnd, st: State)
    ensures |Run(parse, end, st).rest| <= |st.Rest()|
    decreases !st.done, |st.chunks|, |st.buf|
  {
    PollRestShrinks(parse, end, st);
    var (item, next) := Poll(parse, end, st);
    if item.Some? {
      RunRestShrinks(parse, end, next);
    }
  }

  lemma {:induction false} PollRestShrinks<E>(parse: seq<byte> -> BlockResult<E>, end: SourceEnd, st: State)
    ensures |Poll(parse, end, st).1.Rest()| <= |st.Rest()|
    decreases |st.chunks|, |st.buf|
  {
    if !st.done {
      match Boundary(st.buf)
      case Some(n) =>
        if parse(st.buf[..n]).Silent? {
          PollRestShrinks(parse, end, st.(buf := st.buf[n..]));
        }
      case None =>
        if |st.buf| <= MAX_BUFFER && st.chunks != [] {
          PollRestShrinks(parse, end, State(st.chunks[1..], st.buf + st.chunks[0], false));
        }
    }
  }

  /** The outcome of a run whose buffer starts with a complete block, in terms of the run after it. */
  function AfterBlock<E>(result: BlockResult<E>, drained: State, later: Outcome<E>): Outcome<E> {
    match result
    case Parsed(e) => Outcome([Event(e)] + later.items, later.rest)
    case Silent => later
    case Malformed(m) => Outcome([ParseFailed(m)], drained.Rest())
  }

  lemma {:induction false} RunThroughBlock<E>(parse: seq<byte> -> BlockResult<E>, end: SourceEnd, st: State, n: nat)
    requires !st.done && Boundary(st.buf) == Some(n)
    ensures var drained := st.(buf := st.buf[n..]);
            Run(parse, end, st) == AfterBlock(parse(st.buf[..n]), drained, Run(parse, end, drained))
  {
    RunClosed(parse, end, st.(buf := st.buf[n..], done := true));
  }

  /** Runs that differ after a well-formed block differ when that block is put in front. */
  lemma {:induction false} AfterBlockTells<E>(result: BlockResult<E>, d0: State, d1: State, later0: Outcome<E>, later1: Outcome<E>)
    requires !result.Malformed? && later0 != later1
    ensures AfterBlock(result, d0, later0) != AfterBlock(result, d1, later1)
  {
    if result.Parsed? {
      assert ([Event(result.event)] + later0.items)[1..] == later0.items;
      assert ([Event(result.event)] + later1.items)[1..] == later1.items;
    }
  }

  /** An oversized block tells some delivery in two chunks from the delivery in one. */
  lemma {:induction false} OversizedBlockSplits<E>(parse: seq<byte> -> BlockResult<E>, end: SourceEnd, s: seq<byte>) returns (p: nat)
    requires !BlocksFit(parse, Blocks(s))
    ensures p <= |s|
    ensures Run(parse, end, State([s[p..]], s[..p], false)) != Run(parse, end, State([], s, false))
    decreases |s|
  {
    var n := Boundary(s).value;
    if n > MAX_BUFFER + 1 {
      p := MAX_BUFFER + 1;
      CutOversizedBlock(parse, end, s, n);
    } else {
      assert Blocks(s)[1..] == Blocks(s[n..]);
      var q := OversizedBlockSplits(parse, end, s[n..]);
      p := n + q;
      CutBehindBlock(s, n, p);
      RunThroughBlock(parse, end, State([s[p..]], s[..p], false), n);
      RunThroughBlock(parse, end, State([], s, false), n);
      assert s[n..][q..] == s[p..];
      AfterBlockTells(parse(s[..n]), State([s[p..]], s[n..][..q], false), State([], s[n..], false),
                      Run(parse, end, State([s[p..]], s[n..][..q], false)), Run(parse, end, State([], s[n..], false)));
    }
  }

  /** Cutting one byte past the cap inside an oversized first block closes the parser before it. */
  lemma {:induction false} CutOversizedBlock<E>(parse: seq<byte> -> BlockResult<E>, end: SourceEnd, s: seq<byte>, n: nat)
    requires Boundary(s) == Some(n) && n > MAX_BUFFER + 1
    ensures var p := MAX_BUFFER + 1;
            Run(parse, end, State([s[p..]], s[..p], false)) != Run(parse, end, State([], s, false))
  {
    var p := MAX_BUFFER + 1;
    var split := State([s[p..]], s[..p], false);
    assert s[..p] + s[p..] == s;
    if Boundary(s[..p]).Some? {
      BoundaryStable(s[..p], s[p..]);
      assert false;
    }
    FlattenOne(s[p..]);
    RunClosed(parse, end, split.(done := true));
    FirstBlockLeaves(parse, end, s, n);
  }

  lemma {:induction false} CutBehindBlock(s: seq<byte>, n: nat, p: nat)
    requires Boundary(s) == Some(n) && n <= p <= |s|
    ensures Boundary(s[..p]) == Some(n) && s[..p][..n] == s[..n] && s[..p][n..] == s[n..][..p - n]
  {
    assert s[..p] + s[p..] == s;
    if Boundary(s[..p]).None? {
      BoundaryAppears(s[..p], s[p..]);
      assert false;
    }
    BoundaryStable(s[..p], s[p..]);
  }

  /** Once a block has been drained its bytes are gone from the rest. */
  lemma {:induction false} FirstBlockLeaves<E>(parse: seq<byte> -> BlockResult<E>, end: SourceEnd, s: seq<byte>, n: nat)
    requires Boundary(s) == Some(n)
    ensures |Run(parse, end, State([], s, false)).rest| < |s|
  {
    var drained := State([], s[n..], false);
    RunThroughBlock(parse, end, State([], s, false), n);
    RunRestShrinks(parse, end, drained);
  }

  /**
   The same bytes give the same items and the same stopping point under every chunking
   exactly when no block that is reached is more than one byte over the 16 KiB cap.
   */
  lemma {:induction false} ChunkingIrrelevantIff<E(!new)>(parse: seq<byte> -> BlockResult<E>, end: SourceEnd, s: seq<byte>)
    ensures (forall c, d :: Flatten(c) == s && Flatten(d) == s ==> Run(parse, end, Fresh(c)) == Run(parse, end, Fresh(d)))
            <==> BlocksFit(parse, Blocks(s))
  {
    if BlocksFit(parse, Blocks(s)) {
      forall c, d | Flatten(c) == s && Flatten(d) == s
        ensures Run(parse, end, Fresh(c)) == Run(parse, end, Fresh(d))
      {
        assert Fresh(c).Rest() == s == Fresh(d).Rest();
        RunDelivers(parse, end, Fresh(c));
        RunDelivers(parse, end, Fresh(d));
      }
    } else {
      var c, d := DifferentChunkings(parse, end, s);
      assert Run(parse, end, Fresh(c)) != Run(parse, end, Fresh(d));
    }
  }

  lemma {:induction false} DifferentChunkings<E>(parse: seq<byte> -> BlockResult<E>, end: SourceEnd, s: seq<byte>) returns (c: seq<seq<byte>>, d: seq<seq<byte>>)
    requires !BlocksFit(parse, Blocks(s))
    ensures Flatten(c) == s && Flatten(d) == s && Run(parse, end, Fresh(c)) != Run(parse, end, Fresh(d))
  {
    var p := OversizedBlockSplits(parse, end, s);
    c, d := [s[..p]] + [s[p..]], [s] + [];
    FlattenTwo(s[..p], s[p..]);
    FlattenOne(s);
    SplitAt(s, p);
    FirstPull(parse, end, s[..p], [s[p..]]);
    FirstPull(parse, end, s, []);
  }

  lemma {:induction false} FlattenOne(a: seq<byte>)
    ensures Flatten([a]) == a
  {
    assert [a][1..] == [];
  }

  lemma {:induction false} FlattenTwo(a: seq<byte>, b: seq<byte>)
    ensures Flatten([a, b]) == a + b
  {
    assert [a, b][1..] == [b];
    FlattenOne(b);
  }

  /** A fresh parser begins by pulling its first chunk. */
  lemma {:induction false} FirstPull<E>(parse: seq<byte> -> BlockResult<E>, end: SourceEnd, first: seq<byte>, more: seq<seq<byte>>)
    ensures Run(parse, end, Fresh([first] + more)) == Run(parse, end, State(more, first, false))
  {
    assert ([first] + more)[1..] == more;
    assert [] + first == first;
  }
}
