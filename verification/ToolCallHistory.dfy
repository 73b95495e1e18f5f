/**
 What a Gemini turn sends, told from the items that have arrived: `Due` says what the next item makes
 the translator send, given all items before it.
 */
module ToolCallHistory {
  import opened Options
  import opened Sequences
  import opened Json
  import opened ToolCallOrder

  /** No item ends the loop. */
  ghost predicate NoneEnds(items: seq<Arrival>) {
    forall i :: 0 <= i < |items| ==> !Ends(items[i])
  }

  predicate Ends(item: Arrival) {
    match item
    case Failed(_) => true
    case Arrived(ev) => ev.finishReason.Some?
  }

  /** What the part at absolute position `index` sends: a text wins over a call, anything else is skipped. */
  function PartSends(turn: nat, index: nat, part: StreamPart): seq<Completion> {
    match part
    case StreamPart(Some(text), _) => [AssistantText(text)]
    case StreamPart(None, Some(FunctionCall(name, args))) =>
      [ToolUse("gemini-call-" + Decimal(turn) + "-" + Decimal(index),
               match name case Some(given) => given case None => "",
               match args case Some(input) => input case None => Obj(map[]))]
    case StreamPart(None, None) => []
  }

  function PartsSend(turn: nat, index: nat, parts: seq<StreamPart>): seq<Completion>
    decreases |parts|
  {
    if parts == [] then [] else PartSends(turn, index, parts[0]) + PartsSend(turn, index + 1, parts[1..])
  }

  /** A call among the parts, unless a text in the same part hides it. */
  ghost predicate HasCall(parts: seq<StreamPart>) {
    exists p :: p in parts && p.text.None? && p.functionCall.Some?
  }

  /** What the item after `past` sends: its parts, numbered on from those of `past`, and the end of the turn if it gives a reason. */
  ghost function Due(turn: nat, past: seq<Arrival>, item: Arrival): seq<Completion> {
    match item
    case Failed(message) => [Failure(message)]
    case Arrived(StreamEvent(parts, None, _)) => PartsSend(turn, |PartsSeen(past)|, parts)
    case Arrived(StreamEvent(parts, Some(reason), usage)) =>
      PartsSend(turn, |PartsSeen(past)|, parts)
      + (match usage
         case Some(report) => [UsageReport(report)]
         case None => [])
      + [TurnComplete(reason, HasCall(PartsSeen(past) + parts))]
  }

  lemma {:induction false} HasCallFirst(parts: seq<StreamPart>)
    requires parts != []
    ensures HasCall(parts) <==> parts[0].IsCall() || HasCall(parts[1..])
  {
    assert forall p :: p in parts <==> p == parts[0] || p in parts[1..];
  }

  lemma {:induction false} HasCallAppend(a: seq<StreamPart>, b: seq<StreamPart>)
    ensures HasCall(a + b) <==> HasCall(a) || HasCall(b)
  {
    assert forall p :: p in a + b <==> p in a || p in b;
  }

  lemma {:induction false} StepPartSends(turn: nat, st: TurnState, part: StreamPart)
    ensures var (st', out) := StepPart(turn, st, part);
            && out == PartSends(turn, st.nextPart, part)
            && st'.nextPart == st.nextPart + 1 && (st'.hadCalls <==> st.hadCalls || part.IsCall())
  {
  }

  lemma {:induction false} StepPartsSend(turn: nat, st: TurnState, parts: seq<StreamPart>)
    ensures var (st', out) := StepParts(turn, st, parts);
            && out == PartsSend(turn, st.nextPart, parts)
            && st'.nextPart == st.nextPart + |parts| && (st'.hadCalls <==> st.hadCalls || HasCall(parts))
    decreases |parts|
  {
    if parts != [] {
      StepPartSends(turn, st, parts[0]);
      StepPartsSend(turn, StepPart(turn, st, parts[0]).0, parts[1..]);
      HasCallFirst(parts);
    }
  }

  // ---------------------------------------------------------------- the loop goes on where it stopped

  /** The state after items none of which ends the loop. */
  ghost function StateAfter(turn: nat, st: TurnState, items: seq<Arrival>): TurnState
    requires NoneEnds(items)
    decreases |items|
  {
    if items == [] then st else StateAfter(turn, StepParts(turn, st, items[0].event.parts).0, items[1..])
  }

  lemma {:induction false} TranslateAppend(turn: nat, st: TurnState, items: seq<Arrival>, more: seq<Arrival>)
    requires NoneEnds(items)
    ensures Translate(turn, st, items + more).1
            == Translate(turn, st, items).1 + Translate(turn, StateAfter(turn, st, items), more).1
    decreases |items|
  {
    if items == [] {
      assert items + more == more;
    } else {
      assert (items + more)[0] == items[0] && (items + more)[1..] == items[1..] + more;
      var (st1, out) := StepParts(turn, st, items[0].event.parts);
      TranslateAppend(turn, st1, items[1..], more);
      Reassociate(out, Translate(turn, st1, items[1..]).1, Translate(turn, StateAfter(turn, st1, items[1..]), more).1);
    }
  }

  lemma {:induction false} StateTells(turn: nat, st: TurnState, items: seq<Arrival>)
    requires NoneEnds(items)
    ensures var st' := StateAfter(turn, st, items);
            st'.nextPart == st.nextPart + |PartsSeen(items)| && (st'.hadCalls <==> st.hadCalls || HasCall(PartsSeen(items)))
    decreases |items|
  {
    if items != [] {
      var parts := items[0].event.parts;
      StepPartsSend(turn, st, parts);
      StateTells(turn, StepParts(turn, st, parts).0, items[1..]);
      HasCallAppend(parts, PartsSeen(items[1..]));
    }
  }

  lemma {:induction false} OneItemSends(turn: nat, st: TurnState, past: seq<Arrival>, item: Arrival)
    requires st.nextPart == |PartsSeen(past)| && (st.hadCalls <==> HasCall(PartsSeen(past)))
    ensures Translate(turn, st, [item]).1 == Due(turn, past, item)
  {
    assert [item][1..] == [];
    if item.Arrived? {
      var parts := item.event.parts;
      StepPartsSend(turn, st, parts);
      HasCallAppend(PartsSeen(past), parts);
      var out := PartsSend(turn, st.nextPart, parts);
      assert out + [] == out;
      if item.event.finishReason.Some? {
        var usage := if item.event.usage.Some? then [UsageReport(item.event.usage.value)] else [];
        Reassociate(out, usage, [TurnComplete(item.event.finishReason.value, HasCall(PartsSeen(past) + parts))]);
      }
    }
  }

  /**
   After any items, the next one makes the turn send exactly what is due: its texts and calls under
   their absolute positions, and with a finish reason the usage report and that reason.
   */
  lemma {:induction false} NextItemSendsWhatIsDue(turn: nat, calls: Calls, past: seq<Arrival>, item: Arrival)
    requires NoneEnds(past)
    ensures var start := TurnState(0, false, calls);
            Translate(turn, start, past + [item]).1 == Translate(turn, start, past).1 + Due(turn, past, item)
  {
    var start := TurnState(0, false, calls);
    TranslateAppend(turn, start, past, [item]);
    StateTells(turn, start, past);
    OneItemSends(turn, StateAfter(turn, start, past), past, item);
  }

  /** And an ending item is the last one that sends anything. */
  lemma {:induction false} NothingIsDueAfterTheEnd(turn: nat, calls: Calls, past: seq<Arrival>, last: Arrival, more: seq<Arrival>)
    requires NoneEnds(past) && Ends(last)
    ensures var start := TurnState(0, false, calls);
            Translate(turn, start, past + [last] + more).1 == Translate(turn, start, past + [last]).1
  {
    var start := TurnState(0, false, calls);
    TranslateAppend(turn, start, past, [last] + more);
    TranslateAppend(turn, start, past, [last]);
    Reassociate(past, [last], more);
  }
}
