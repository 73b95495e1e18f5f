/**
 What the translator sends, told from the items that have arrived and not from its tables.

 `Due` says what the next item makes the loop send, given all items before it.  Together with the
 empty start this describes every run completely.
 */
module StreamTranslatorHistory {
  import opened Options
  import opened Sequences
  import opened Json
  import opened StreamTranslator
  import opened StreamTranslatorProperties

  // ---------------------------------------------------------------- the past of one block

  /** The events of a block since its last stop. */
  function Open(events: seq<BlockEvent>): seq<BlockEvent> {
    if events == [] || events[|events| - 1].Stop? then []
    else Open(events[..|events| - 1]) + [events[|events| - 1]]
  }

  /** The concatenated reasoning texts among `events`. */
  function Reasoning(events: seq<BlockEvent>): string {
    if events == [] then ""
    else
      Reasoning(events[..|events| - 1])
      + match events[|events| - 1]
        case Piece(ThinkingDelta(text)) => text
        case _ => ""
  }

  /** The JSON pieces since the last stop of a tool use, concatenated: no other stop takes them. */
  function PendingJson(events: seq<BlockEvent>): string {
    if events == [] then ""
    else
      var before := events[..|events| - 1];
      match events[|events| - 1]
      case Piece(InputJsonDelta(piece)) => PendingJson(before) + piece
      case Stop => if IsTool(LastKind(Open(before))) then "" else PendingJson(before)
      case _ => PendingJson(before)
  }

  /** The last signature since the last stop of a block that showed thinking. */
  function PendingSignature(events: seq<BlockEvent>): Option<string> {
    if events == [] then None
    else
      var before := events[..|events| - 1];
      match events[|events| - 1]
      case Piece(SignatureDelta(signature)) => Some(signature)
      case Stop => if ShowsThinking(Open(before)) then None else PendingSignature(before)
      case _ => PendingSignature(before)
  }

  /** The slot holds what the past of the block says. */
  ghost predicate Remembers(s: Slot, events: seq<BlockEvent>) {
    var open := Open(events);
    && s.pending == LastKind(open) && s.redacted == LastRedaction(open) && (s.anchored <==> ShowsThinking(open))
    && s.text.GetOr("") == Reasoning(open) && s.input.GetOr("") == PendingJson(events) && s.signature == PendingSignature(events)
    && (s.text.Some? ==> s.anchored)
  }

  lemma {:induction false} LastKindGrows(events: seq<BlockEvent>, ev: BlockEvent)
    ensures LastKind(events + [ev]) == if ev.Start? then Some(ev.kind) else LastKind(events)
  {
    if events != [] {
      assert (events + [ev])[1..] == events[1..] + [ev];
      LastKindGrows(events[1..], ev);
    }
  }

  lemma {:induction false} LastRedactionGrows(events: seq<BlockEvent>, ev: BlockEvent)
    ensures LastRedaction(events + [ev]) ==
              if ev.Start? && ev.kind.RedactedThinking? then Some(ev.kind.data) else LastRedaction(events)
  {
    if events != [] {
      assert (events + [ev])[1..] == events[1..] + [ev];
      LastRedactionGrows(events[1..], ev);
    }
  }

  lemma {:induction false} ShowsThinkingGrows(events: seq<BlockEvent>, ev: BlockEvent)
    ensures ShowsThinking(events + [ev]) <==>
              ShowsThinking(events) || (ev.Start? && ev.kind.Thinking?) || (ev.Piece? && ev.delta.ThinkingDelta?)
  {
    assert forall e :: e in events + [ev] <==> e in events || e == ev;
  }

  lemma {:induction false} ReasoningGrows(events: seq<BlockEvent>, ev: BlockEvent)
    ensures Reasoning(events + [ev]) ==
              Reasoning(events) + if ev.Piece? && ev.delta.ThinkingDelta? then ev.delta.text else ""
  {
    assert (events + [ev])[..|events|] == events;
  }

  lemma {:induction false} OpenGrows(before: seq<BlockEvent>, ev: BlockEvent)
    ensures Open(before + [ev]) == if ev.Stop? then [] else Open(before) + [ev]
  {
    assert (before + [ev])[..|before|] == before;
  }

  lemma {:induction false} PendingGrows(before: seq<BlockEvent>, ev: BlockEvent)
    ensures PendingJson(before + [ev]) ==
              match ev
              case Piece(InputJsonDelta(piece)) => PendingJson(before) + piece
              case Stop => if IsTool(LastKind(Open(before))) then "" else PendingJson(before)
              case _ => PendingJson(before)
    ensures PendingSignature(before + [ev]) ==
              match ev
              case Piece(SignatureDelta(signature)) => Some(signature)
              case Stop => if ShowsThinking(Open(before)) then None else PendingSignature(before)
              case _ => PendingSignature(before)
  {
    assert (before + [ev])[..|before|] == before;
  }

  /** How the open part of a block grows with an event that does not stop it. */
  lemma {:induction false} OpenTells(open: seq<BlockEvent>, ev: BlockEvent, grown: seq<BlockEvent>)
    requires !ev.Stop? && grown == open + [ev]
    ensures LastKind(grown) == if ev.Start? then Some(ev.kind) else LastKind(open)
    ensures LastRedaction(grown) == if ev.Start? && ev.kind.RedactedThinking? then Some(ev.kind.data) else LastRedaction(open)
    ensures ShowsThinking(grown) <==> ShowsThinking(open) || (ev.Start? && ev.kind.Thinking?) || (ev.Piece? && ev.delta.ThinkingDelta?)
    ensures Reasoning(grown) == Reasoning(open) + if ev.Piece? && ev.delta.ThinkingDelta? then ev.delta.text else ""
  {
    LastKindGrows(open, ev);
    LastRedactionGrows(open, ev);
    ShowsThinkingGrows(open, ev);
    ReasoningGrows(open, ev);
  }

  lemma {:induction false} StartRemembers(k: nat, s: Slot, past: seq<BlockEvent>, kind: BlockKind)
    requires Remembers(s, past)
    ensures Remembers(StartSlot(k, s, kind).0, past + [Start(kind)])
  {
    var ev := Start(kind);
    OpenGrows(past, ev);
    PendingGrows(past, ev);
    OpenTells(Open(past), ev, Open(past + [ev]));
    assert Reasoning(Open(past)) + "" == Reasoning(Open(past));
  }

  lemma {:induction false} PieceRemembers(k: nat, s: Slot, past: seq<BlockEvent>, delta: Delta)
    requires Remembers(s, past)
    ensures Remembers(PieceSlot(k, s, delta).0, past + [Piece(delta)])
  {
    var ev := Piece(delta);
    OpenGrows(past, ev);
    PendingGrows(past, ev);
    OpenTells(Open(past), ev, Open(past + [ev]));
    assert Reasoning(Open(past)) + "" == Reasoning(Open(past));
  }

  lemma {:induction false} StopRemembers(s: Slot, past: seq<BlockEvent>)
    requires Remembers(s, past)
    ensures Remembers(AfterStop(s), past + [Stop])
  {
    OpenGrows(past, Stop);
    PendingGrows(past, Stop);
  }

  lemma {:induction false} StepRemembers(parse: JsonParser, k: nat, s: Slot, past: seq<BlockEvent>, ev: BlockEvent)
    requires Remembers(s, past)
    ensures Remembers(SlotStep(parse, k, s, ev).0, past + [ev])
  {
    match ev
    case Start(kind) => StartRemembers(k, s, past, kind);
    case Piece(delta) => PieceRemembers(k, s, past, delta);
    case Stop => StopRemembers(s, past);
  }

  lemma {:induction false} SlotAfterLast(parse: JsonParser, k: nat, s: Slot, before: seq<BlockEvent>, ev: BlockEvent)
    ensures SlotAfter(parse, k, s, before + [ev]) == SlotStep(parse, k, SlotAfter(parse, k, s, before), ev).0
    decreases |before|
  {
    if before == [] {
      assert [ev][1..] == [];
    } else {
      assert (before + [ev])[1..] == before[1..] + [ev];
      SlotAfterLast(parse, k, SlotStep(parse, k, s, before[0]).0, before[1..], ev);
    }
  }

  lemma {:induction false} SlotRemembers(parse: JsonParser, k: nat, events: seq<BlockEvent>)
    ensures Remembers(SlotAfter(parse, k, EMPTY_SLOT, events), events)
  {
    if events != [] {
      var before, ev := events[..|events| - 1], events[|events| - 1];
      assert events == before + [ev];
      SlotRemembers(parse, k, before);
      SlotAfterLast(parse, k, EMPTY_SLOT, before, ev);
      StepRemembers(parse, k, SlotAfter(parse, k, EMPTY_SLOT, before), before, ev);
    }
  }

  // ---------------------------------------------------------------- the tables after some items

  lemma {:induction false} SlotOfTables(parse: JsonParser, t: Tables, items: seq<StreamItem>, k: nat)
    requires NoneEnds(items)
    ensures SlotOf(TablesAfter(parse, t, items), k) == SlotAfter(parse, k, SlotOf(t, k), EventsFor(k, items))
    decreases |items|
  {
    if items != [] {
      var ev := items[0].event;
      StepOnSlot(parse, t, ev, k);
      SlotOfTables(parse, Step(parse, t, ev).0, items[1..], k);
      if ev.Index() == Some(k) {
        assert EventsFor(k, items)[1..] == EventsFor(k, items[1..]);
      } else {
        assert EventsFor(k, items) == EventsFor(k, items[1..]);
      }
    }
  }

  lemma {:induction false} TablesRemember(parse: JsonParser, items: seq<StreamItem>, k: nat)
    requires NoneEnds(items)
    ensures Remembers(SlotOf(TablesAfter(parse, EMPTY_TABLES, items), k), EventsFor(k, items))
  {
    SlotOfTables(parse, EMPTY_TABLES, items, k);
    SlotRemembers(parse, k, EventsFor(k, items));
  }

  // ---------------------------------------------------------------- what is due

  /** What one more event sends for block `k`, whose events so far are `past`. */
  function DueFor(parse: JsonParser, k: nat, past: seq<BlockEvent>, ev: BlockEvent): seq<Tagged> {
    match ev
    case Start(Thinking) => [Tagged(Some(k), ThinkingStarted)]
    case Start(_) => []
    case Piece(TextDelta(text)) => [Tagged(Some(k), AssistantText(text))]
    case Piece(ThinkingDelta(text)) =>
      if ShowsThinking(Open(past)) then [Tagged(Some(k), ThinkingText(text))]
      else [Tagged(Some(k), ThinkingStarted), Tagged(Some(k), ThinkingText(text))]
    case Piece(_) => []
    case Stop =>
      var open := Open(past);
      Replay(parse, k, ShowsThinking(open), Reasoning(open), PendingSignature(past), LastRedaction(open), LastKind(open), PendingJson(past))
  }

  /** What the item after `items` sends. */
  function Due(parse: JsonParser, items: seq<StreamItem>, item: StreamItem): seq<Tagged> {
    match item
    case Broken(message) => [Tagged(None, Failure(message))]
    case Arrived(MessageStart(Some(usage))) => [Tagged(None, UsageReport(usage))]
    case Arrived(MessageDelta(_, Some(usage))) => [Tagged(None, UsageReport(usage))]
    case Arrived(MessageStop) =>
      [Tagged(None, TurnComplete(match LastReason(items) case Some(raw) => FromProvider(raw) case None => Natural))]
    case Arrived(BlockStart(k, kind)) => DueFor(parse, k, EventsFor(k, items), Start(kind))
    case Arrived(BlockDelta(k, delta)) => DueFor(parse, k, EventsFor(k, items), Piece(delta))
    case Arrived(BlockStop(k)) => DueFor(parse, k, EventsFor(k, items), Stop)
    case _ => []
  }

  lemma {:induction false} SlotSendsWhatIsDue(parse: JsonParser, k: nat, s: Slot, past: seq<BlockEvent>, ev: BlockEvent)
    requires Remembers(s, past)
    ensures SlotStep(parse, k, s, ev).1 == DueFor(parse, k, past, ev)
  {
    if ev.Stop? {
      ClosingIsReplay(parse, k, s);
    }
  }

  lemma {:induction false} StepSendsWhatIsDue(parse: JsonParser, items: seq<StreamItem>, ev: StreamEvent)
    requires NoneEnds(items)
    ensures Step(parse, TablesAfter(parse, EMPTY_TABLES, items), ev).1 == Due(parse, items, Arrived(ev))
  {
    var t := TablesAfter(parse, EMPTY_TABLES, items);
    if ev.Index().Some? {
      var k := ev.index;
      StepOnSlot(parse, t, ev, k);
      TablesRemember(parse, items, k);
      SlotSendsWhatIsDue(parse, k, SlotOf(t, k), EventsFor(k, items), Unindexed(ev));
    } else {
      ReasonIsKept(parse, EMPTY_TABLES, items);
    }
  }

  /**
   After any items, the next one makes the loop send exactly what is due: texts and reports as they
   arrive, a start marker where none is shown, and at a stop the replay of what the block was sent.
   */
  lemma {:induction false} NextItemSendsWhatIsDue(parse: JsonParser, items: seq<StreamItem>, item: StreamItem)
    requires NoneEnds(items)
    ensures Translate(parse, EMPTY_TABLES, items + [item]) == Translate(parse, EMPTY_TABLES, items) + Due(parse, items, item)
  {
    var t := TablesAfter(parse, EMPTY_TABLES, items);
    TranslateAppend(parse, EMPTY_TABLES, items, [item]);
    if item.Arrived? {
      StepSendsWhatIsDue(parse, items, item.event);
      assert [item][1..] == [];
      assert Step(parse, t, item.event).1 + [] == Step(parse, t, item.event).1;
    }
  }

  /** And an ending item is the last one that sends anything. */
  lemma {:induction false} NothingIsDueAfterTheEnd(parse: JsonParser, items: seq<StreamItem>, last: StreamItem, more: seq<StreamItem>)
    requires NoneEnds(items) && last.Ends()
    ensures Translate(parse, EMPTY_TABLES, items + [last] + more) == Translate(parse, EMPTY_TABLES, items + [last])
  {
    TranslateAppend(parse, EMPTY_TABLES, items, [last] + more);
    TranslateAppend(parse, EMPTY_TABLES, items, [last]);
    Reassociate(items, [last], more);
  }
}
