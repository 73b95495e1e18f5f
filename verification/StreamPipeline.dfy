/** The task spawned for one completion: the framing parser feeding the translator loop. */
module StreamPipeline {
  import opened Options
  import opened Sequences
  import opened SseFraming
  import opened StreamTranslator
  import opened StreamTranslatorProperties

  type BlockParser = seq<byte> -> BlockResult<StreamEvent>

  const OVERFLOW_MESSAGE := "SSE parse error: buffer exceeded 16 KiB without event boundary"

  function ToStreamItem(item: Item<StreamEvent>): StreamItem {
    match item
    case Event(e) => Arrived(e)
    case ParseFailed(m) => Broken(m)
    case BufferExceeded => Broken(OVERFLOW_MESSAGE)
    case SourceFailed(m) => Broken(m)
  }

  function ToStreamItems(items: seq<Item<StreamEvent>>): seq<StreamItem> {
    seq(|items|, i requires 0 <= i < |items| => ToStreamItem(items[i]))
  }

  function Take<T>(s: seq<T>, n: nat): seq<T> {
    if n < |s| then s[..n] else s
  }

  /** Everything sent for the bytes still to come from parser state `st`, given the translator's tables. */
  function SentFrom(blocks: BlockParser, parse: JsonParser, end: SourceEnd, st: State, t: Tables, cancelAt: nat): seq<Tagged> {
    Translate(parse, t, Take(ToStreamItems(Run(blocks, end, st).items), cancelAt))
  }

  /** Everything sent for a fresh stream; cancellation is noticed before item `cancelAt` is taken. */
  function Sent(blocks: BlockParser, parse: JsonParser, end: SourceEnd, chunks: seq<seq<byte>>, cancelAt: nat): seq<Tagged> {
    SentFrom(blocks, parse, end, Fresh(chunks), EMPTY_TABLES, cancelAt)
  }

  lemma {:induction false} TakeFirst(first: Item<StreamEvent>, later: seq<Item<StreamEvent>>, n: nat)
    requires n > 0
    ensures var all := Take(ToStreamItems([first] + later), n);
            all != [] && all[0] == ToStreamItem(first) && all[1..] == Take(ToStreamItems(later), n - 1)
  {
    assert ToStreamItems([first] + later) == [ToStreamItem(first)] + ToStreamItems(later);
  }

  lemma {:induction false} PollThenSend(blocks: BlockParser, parse: JsonParser, end: SourceEnd, st: State, t: Tables, cancelAt: nat)
    requires 0 < cancelAt
    ensures var (item, next) := Poll(blocks, end, st);
            SentFrom(blocks, parse, end, st, t, cancelAt) ==
              if item.None? then []
              else match item.value
                case ParseFailed(m) => [Tagged(None, Failure(m))]
                case SourceFailed(m) => [Tagged(None, Failure(m))]
                case BufferExceeded =>
                  [Tagged(None, Failure("SSE parse error: buffer exceeded 16 KiB without event boundary"))]
                case Event(ev) =>
                  var (t', out) := Step(parse, t, ev);
                  if ev.MessageStop? then out else out + SentFrom(blocks, parse, end, next, t', cancelAt - 1)
  {
    var (item, next) := Poll(blocks, end, st);
    if item.None? {
      assert Run(blocks, end, st).items == [];
    } else {
      var later := Run(blocks, end, next).items;
      assert Run(blocks, end, st).items == [item.value] + later;
      TakeFirst(item.value, later, cancelAt);
    }
  }

  /** Takes one item and translates it; `ended` says that the loop breaks. */
  method Pump(parser: SseParser<StreamEvent>, translator: Translator, ghost left: nat) returns (out: seq<Tagged>, ended: bool)
    requires 0 < left
    modifies parser, translator
    ensures var blocks, end, parse := parser.parse, parser.end, translator.parse;
            SentFrom(blocks, parse, end, old(parser.Current()), old(translator.Current()), left)
            == out + if ended then [] else SentFrom(blocks, parse, end, parser.Current(), translator.Current(), left - 1)
  {
    ghost var t := translator.Current();
    PollThenSend(parser.parse, translator.parse, parser.end, parser.Current(), t, left);
    var item := parser.Next();
    assert translator.Current() == t;
    if item.None? {
      return [], true;
    }
    match ToStreamItem(item.value) {
      case Broken(m) =>
        return [Tagged(None, Failure(m))], true;
      case Arrived(event) =>
        out := translator.OnEvent(event);
        ended := event.MessageStop?;
    }
  }

  /** The loop: check for cancellation, take the next item, translate it, stop at the first ending one. */
  method Drive(parser: SseParser<StreamEvent>, translator: Translator, cancelAt: nat) returns (sent: seq<Tagged>)
    modifies parser, translator
    ensures sent == SentFrom(parser.parse, translator.parse, parser.end, old(parser.Current()), old(translator.Current()), cancelAt)
  {
    ghost var goal := SentFrom(parser.parse, translator.parse, parser.end, parser.Current(), translator.Current(), cancelAt);
    ghost var owed := goal;
    sent := [];
    var taken := 0;
    while taken < cancelAt
      invariant taken <= cancelAt
      invariant owed == SentFrom(parser.parse, translator.parse, parser.end, parser.Current(), translator.Current(), cancelAt - taken)
      invariant goal == sent + owed
    {
      var out, ended := Pump(parser, translator, cancelAt - taken);
      taken := taken + 1;
      ghost var later := if ended then [] else SentFrom(parser.parse, translator.parse, parser.end, parser.Current(), translator.Current(), cancelAt - taken);
      Reassociate(sent, out, later);
      sent, owed := sent + out, later;
      if ended {
        return;
      }
    }
    NothingTaken(parser.parse, translator.parse, parser.end, parser.Current(), translator.Current());
  }

  method Complete(blocks: BlockParser, parse: JsonParser, chunks: seq<seq<byte>>, end: SourceEnd, cancelAt: nat)
    returns (sent: seq<Tagged>)
    ensures sent == Sent(blocks, parse, end, chunks, cancelAt)
  {
    var parser := new SseParser<StreamEvent>(blocks, chunks, end);
    var translator := new Translator(parse);
    sent := Drive(parser, translator, cancelAt);
  }

  lemma {:induction false} NothingTaken(blocks: BlockParser, parse: JsonParser, end: SourceEnd, st: State, t: Tables)
    ensures SentFrom(blocks, parse, end, st, t, 0) == []
  {
  }

  /** The completion events do not depend on how the network cut the bytes, as long as every block fits. */
  lemma {:induction false} CompletionIgnoresChunking(blocks: BlockParser, parse: JsonParser, end: SourceEnd, c: seq<seq<byte>>, d: seq<seq<byte>>, cancelAt: nat)
    requires Flatten(c) == Flatten(d) && BlocksFit(blocks, Blocks(Flatten(c)))
    ensures Sent(blocks, parse, end, c, cancelAt) == Sent(blocks, parse, end, d, cancelAt)
  {
    ChunkingIrrelevantIff(blocks, end, Flatten(c));
  }

  // ---------------------------------------------------------------- what the bytes amount to

  /** The items that complete blocks, a tail and the end of the source amount to, without any framing. */
  function Told(blocks: BlockParser, end: SourceEnd, complete: seq<seq<byte>>, tail: seq<byte>): seq<StreamItem> {
    if complete != [] then
      match blocks(complete[0])
      case Parsed(event) => [Arrived(event)] + Told(blocks, end, complete[1..], tail)
      case Silent => Told(blocks, end, complete[1..], tail)
      case Malformed(m) => [Broken(m)]
    else if |tail| > 16_384 then [Broken("SSE parse error: buffer exceeded 16 KiB without event boundary")]
    else match end
      case Dropped(m) => [Broken(m)]
      case Eof => []
  }

  lemma {:induction false} DeliveredIsTold(blocks: BlockParser, end: SourceEnd, complete: seq<seq<byte>>, tail: seq<byte>)
    ensures ToStreamItems(Deliver(blocks, end, complete, tail).items) == Told(blocks, end, complete, tail)
  {
    if complete != [] && !blocks(complete[0]).Malformed? {
      DeliveredIsTold(blocks, end, complete[1..], tail);
      if blocks(complete[0]).Parsed? {
        var later := Deliver(blocks, end, complete[1..], tail).items;
        assert ToStreamItems([Event(blocks(complete[0]).event)] + later) == [Arrived(blocks(complete[0]).event)] + ToStreamItems(later);
      }
    }
  }

  lemma {:induction false} ItemsAreTold(blocks: BlockParser, end: SourceEnd, chunks: seq<seq<byte>>, bytes: seq<byte>)
    requires bytes == Flatten(chunks) && BlocksFit(blocks, Blocks(bytes))
    ensures ToStreamItems(Run(blocks, end, Fresh(chunks)).items) == Told(blocks, end, Blocks(bytes), Tail(bytes))
  {
    assert Fresh(chunks).Rest() == [] + bytes == bytes;
    RunDelivers(blocks, end, Fresh(chunks));
    DeliveredIsTold(blocks, end, Blocks(bytes), Tail(bytes));
  }

  /** Cancellation before item `cancelAt` lets exactly the items before it through. */
  lemma {:induction false} SentTakes(blocks: BlockParser, parse: JsonParser, end: SourceEnd, chunks: seq<seq<byte>>, cancelAt: nat,
                                     items: seq<StreamItem>)
    requires items == ToStreamItems(Run(blocks, end, Fresh(chunks)).items)
    ensures Sent(blocks, parse, end, chunks, cancelAt)
            == Translate(parse, EMPTY_TABLES, if cancelAt <= |items| then items[..cancelAt] else items)
  {
    assert items[..|items|] == items;
  }

  /** When every block fits, sent is the translation of what the bytes amount to, cut where cancellation is noticed. */
  lemma {:induction false} SentIsTold(blocks: BlockParser, parse: JsonParser, end: SourceEnd, chunks: seq<seq<byte>>, cancelAt: nat)
    requires BlocksFit(blocks, Blocks(Flatten(chunks)))
    ensures var told := Told(blocks, end, Blocks(Flatten(chunks)), Tail(Flatten(chunks)));
            Sent(blocks, parse, end, chunks, cancelAt)
            == Translate(parse, EMPTY_TABLES, if cancelAt <= |told| then told[..cancelAt] else told)
  {
    ItemsAreTold(blocks, end, chunks, Flatten(chunks));
    SentTakes(blocks, parse, end, chunks, cancelAt, ToStreamItems(Run(blocks, end, Fresh(chunks)).items));
  }

  // ---------------------------------------------------------------- a source that breaks off

  /** The item is a failure with this message. */
  predicate FailsWith(item: Item<StreamEvent>, message: string) {
    match item
    case Event(_) => false
    case ParseFailed(m) => m == message
    case SourceFailed(m) => m == message
    case BufferExceeded => message == "SSE parse error: buffer exceeded 16 KiB without event boundary"
  }

  /** Only the last item may be a failure. */
  ghost predicate FailsOnlyLast(items: seq<Item<StreamEvent>>) {
    forall i :: 0 <= i < |items| - 1 ==> items[i].Event?
  }

  /** A failure closes the parser, and a dropped source always leads to one. */
  lemma {:induction false} PollFails(blocks: BlockParser, end: SourceEnd, st: State)
    ensures var (item, next) := Poll(blocks, end, st);
            && (item.Some? && !item.value.Event? ==> next.done)
            && (end.Dropped? && !st.done ==> item.Some?)
            && (item.Some? && item.value.Event? ==> !next.done)
            && (item.Some? && item.value.SourceFailed? ==> end == Dropped(item.value.message))
    decreases |st.chunks|, |st.buf|
  {
    if !st.done {
      match Boundary(st.buf)
      case Some(n) =>
        if blocks(st.buf[..n]).Silent? {
          PollFails(blocks, end, st.(buf := st.buf[n..]));
        }
      case None =>
        if |st.buf| <= MAX_BUFFER && st.chunks != [] {
          PollFails(blocks, end, State(st.chunks[1..], st.buf + st.chunks[0], false));
        }
    }
  }

  lemma {:induction false} RunFails(blocks: BlockParser, end: SourceEnd, st: State)
    ensures var items := Run(blocks, end, st).items;
            && FailsOnlyLast(items)
            && (end.Dropped? && !st.done ==> items != [] && !items[|items| - 1].Event?)
            && (items != [] && items[|items| - 1].SourceFailed? ==> end == Dropped(items[|items| - 1].message))
    decreases !st.done, |st.chunks|, |st.buf|
  {
    var (item, next) := Poll(blocks, end, st);
    PollFails(blocks, end, st);
    if item.Some? {
      RunFails(blocks, end, next);
      if !item.value.Event? {
        RunClosed(blocks, end, next);
      }
    }
  }

  /** A run that no event ends: after the translation of its events, the failure is sent and nothing else. */
  lemma {:induction false} FailureIsSent(blocks: BlockParser, parse: JsonParser, end: SourceEnd, chunks: seq<seq<byte>>, cancelAt: nat, message: string)
    requires var items := Run(blocks, end, Fresh(chunks)).items;
             && 0 < |items| <= cancelAt && FailsWith(items[|items| - 1], message)
             && forall ev: StreamEvent :: Event(ev) in items ==> !ev.MessageStop?
    ensures var items := Run(blocks, end, Fresh(chunks)).items;
            Sent(blocks, parse, end, chunks, cancelAt)
            == Sent(blocks, parse, end, chunks, |items| - 1) + [Tagged(None, Failure(message))]
  {
    var items := Run(blocks, end, Fresh(chunks)).items;
    var all := ToStreamItems(items);
    RunFails(blocks, end, Fresh(chunks));
    var before := all[..|all| - 1];
    assert NoneEnds(before) by {
      forall i | 0 <= i < |before|
        ensures !before[i].Ends()
      {
        assert items[i] in items;
      }
    }
    assert all == before + [Broken(message)];
    TranslateAppend(parse, EMPTY_TABLES, before, [Broken(message)]);
  }

  /** A source that drops always ends in a failure, unless the message has stopped before. */
  lemma {:induction false} DroppedSourceFails(blocks: BlockParser, parse: JsonParser, reason: string, chunks: seq<seq<byte>>, cancelAt: nat)
    requires var items := Run(blocks, Dropped(reason), Fresh(chunks)).items;
             |items| <= cancelAt && forall ev: StreamEvent :: Event(ev) in items ==> !ev.MessageStop?
    ensures var sent := Sent(blocks, parse, Dropped(reason), chunks, cancelAt);
            sent != [] && sent[|sent| - 1].event.Failure?
    ensures var items := Run(blocks, Dropped(reason), Fresh(chunks)).items;
            items != [] && (items[|items| - 1].SourceFailed? ==> items[|items| - 1].message == reason)
  {
    RunFails(blocks, Dropped(reason), Fresh(chunks));
    var items := Run(blocks, Dropped(reason), Fresh(chunks)).items;
    var last := items[|items| - 1];
    var message := ToStreamItem(last).message;
    FailureIsSent(blocks, parse, Dropped(reason), chunks, cancelAt, message);
  }

  /** Cancelling earlier sends a prefix of what is sent later, never anything else. */
  lemma {:induction false} CancellationSendsPrefix(blocks: BlockParser, parse: JsonParser, end: SourceEnd, chunks: seq<seq<byte>>, n: nat, m: nat)
    requires n <= m
    ensures Sent(blocks, parse, end, chunks, n) <= Sent(blocks, parse, end, chunks, m)
  {
    var items := Take(ToStreamItems(Run(blocks, end, Fresh(chunks)).items), m);
    if n <= |items| {
      CancelledRunIsPrefix(parse, EMPTY_TABLES, items, n);
      assert items[..n] == Take(ToStreamItems(Run(blocks, end, Fresh(chunks)).items), n);
    }
  }
}
