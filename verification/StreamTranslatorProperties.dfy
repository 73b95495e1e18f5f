/** What holds of every run of the translator loop, and of each block inside it. */
module StreamTranslatorProperties {
  import opened Options
  import opened Sequences
  import opened Json
  import opened StreamTranslator

  // ---------------------------------------------------------------- what is passed on as it arrives

  predicate PassesThrough(c: Completion) {
    c.AssistantText? || c.ThinkingText? || c.UsageReport?
  }

  /** The outputs that carry text, reasoning or usage, in order. */
  function Passed(out: seq<Tagged>): seq<Tagged> {
    if out == [] then [] else IfPassed(out[0]) + Passed(out[1..])
  }

  function IfPassed(o: Tagged): seq<Tagged> {
    if PassesThrough(o.event) then [o] else []
  }

  lemma {:induction false} PassedAppend(a: seq<Tagged>, b: seq<Tagged>)
    ensures Passed(a + b) == Passed(a) + Passed(b)
  {
    if a == [] {
      assert a + b == b;
    } else {
      assert (a + b)[0] == a[0] && (a + b)[1..] == a[1..] + b;
      PassedAppend(a[1..], b);
      Reassociate(IfPassed(a[0]), Passed(a[1..]), Passed(b));
    }
  }

  /** What an event brings that is to be shown at once. */
  function Brings(ev: StreamEvent): seq<Tagged> {
    match ev
    case BlockDelta(k, TextDelta(text)) => [Tagged(Some(k), AssistantText(text))]
    case BlockDelta(k, ThinkingDelta(text)) => [Tagged(Some(k), ThinkingText(text))]
    case MessageStart(Some(usage)) => [Tagged(None, UsageReport(usage))]
    case MessageDelta(_, Some(usage)) => [Tagged(None, UsageReport(usage))]
    case _ => []
  }

  /** What the items up to the first ending one bring. */
  function Brought(items: seq<StreamItem>): seq<Tagged>
    decreases |items|
  {
    if items == [] || items[0].Ends() then [] else Brings(items[0].event) + Brought(items[1..])
  }

  lemma {:induction false} StopPassesNothing(parse: JsonParser, t: Tables, k: nat)
    ensures Passed(StepStop(parse, t, k).1) == []
  {
    var kind := Lookup<BlockKind>(t.pending, k);
    var a := ThinkingClose(k, k in t.anchors, Lookup(t.texts, k), Lookup(t.signatures, k));
    var b, c := RedactedClose(k, Lookup(t.redacted, k)), ToolClose(parse, k, kind, Lookup(t.inputs, k));
    PassedAppend(a + b, c);
    PassedAppend(a, b);
    assert (a != [] ==> a[1..][1..] == []) && (b != [] ==> b[1..] == []) && (c != [] ==> c[1..] == []);
  }

  lemma {:induction false} StepPassesOn(parse: JsonParser, t: Tables, ev: StreamEvent)
    ensures Passed(Step(parse, t, ev).1) == Brings(ev)
  {
    var out := Step(parse, t, ev).1;
    match ev
    case BlockStop(k) => StopPassesNothing(parse, t, k);
    case BlockDelta(k, delta) =>
      if delta.ThinkingDelta? {
        PassedAppend(if k in t.anchors then [] else [Tagged(Some(k), ThinkingStarted)], [Tagged(Some(k), ThinkingText(delta.text))]);
      }
      assert |out| == 1 ==> out[1..] == [];
    case _ => assert out != [] ==> out[1..] == [];
  }

  /** Every text, reasoning and usage report that arrives is sent, once, for its block and in arrival order, and nothing else of the kind. */
  lemma {:induction false} TextIsPassedOn(parse: JsonParser, t: Tables, items: seq<StreamItem>)
    ensures Passed(Translate(parse, t, items)) == Brought(items)
    decreases |items|
  {
    if items != [] {
      if items[0].Ends() {
        assert Translate(parse, t, items)[1..] == [];
      } else {
        var (t', out) := Step(parse, t, items[0].event);
        StepPassesOn(parse, t, items[0].event);
        TextIsPassedOn(parse, t', items[1..]);
        PassedAppend(out, Translate(parse, t', items[1..]));
      }
    }
  }

  /** The last stop reason the provider gives. */
  function LastReason(items: seq<StreamItem>): Option<string> {
    if items == [] then None else OrElse(LastReason(items[1..]), ReasonIn(items[0]))
  }

  function ReasonIn(item: StreamItem): Option<string> {
    if item.Arrived? && item.event.MessageDelta? then item.event.stopReason else None
  }

  ghost predicate NoneEnds(items: seq<StreamItem>) {
    forall i :: 0 <= i < |items| ==> !items[i].Ends()
  }

  /** The tables after items none of which ends the loop. */
  ghost function TablesAfter(parse: JsonParser, t: Tables, items: seq<StreamItem>): Tables
    requires NoneEnds(items)
    decreases |items|
  {
    if items == [] then t else TablesAfter(parse, Step(parse, t, items[0].event).0, items[1..])
  }

  lemma {:induction false} TranslateAppend(parse: JsonParser, t: Tables, items: seq<StreamItem>, more: seq<StreamItem>)
    requires NoneEnds(items)
    ensures Translate(parse, t, items + more) == Translate(parse, t, items) + Translate(parse, TablesAfter(parse, t, items), more)
    decreases |items|
  {
    if items == [] {
      assert items + more == more;
    } else {
      assert (items + more)[0] == items[0] && (items + more)[1..] == items[1..] + more;
      var (t', out) := Step(parse, t, items[0].event);
      TranslateAppend(parse, t', items[1..], more);
      Reassociate(out, Translate(parse, t', items[1..]), Translate(parse, TablesAfter(parse, t', items[1..]), more));
    }
  }

  function Reason(raw: Option<string>, otherwise: Option<StopReason>): Option<StopReason> {
    if raw.Some? then Some(FromProvider(raw.value)) else otherwise
  }

  lemma {:induction false} ReasonIsKept(parse: JsonParser, t: Tables, items: seq<StreamItem>)
    requires NoneEnds(items)
    ensures TablesAfter(parse, t, items).stopReason == Reason(LastReason(items), t.stopReason)
    decreases |items|
  {
    if items != [] {
      ReasonIsKept(parse, Step(parse, t, items[0].event).0, items[1..]);
    }
  }

  /** A turn ends with the last stop reason given on the way, or naturally if there was none. */
  lemma {:induction false} EndCarriesLastReason(parse: JsonParser, items: seq<StreamItem>)
    requires NoneEnds(items)
    ensures var reason := Reason(LastReason(items), None).GetOr(Natural);
            Translate(parse, EMPTY_TABLES, items + [Arrived(MessageStop)])
            == Translate(parse, EMPTY_TABLES, items) + [Tagged(None, TurnComplete(reason))]
  {
    TranslateAppend(parse, EMPTY_TABLES, items, [Arrived(MessageStop)]);
    ReasonIsKept(parse, EMPTY_TABLES, items);
  }

  // ---------------------------------------------------------------- end of the stream

  predicate Terminal(c: Completion) {
    c.TurnComplete? || c.Failure?
  }

  lemma {:induction false} StepIsNotTerminal(parse: JsonParser, t: Tables, ev: StreamEvent)
    requires !ev.MessageStop?
    ensures forall o :: o in Step(parse, t, ev).1 ==> !Terminal(o.event)
  {
  }

  /** Only the last output may end the turn. */
  ghost predicate EndsOnlyLast(out: seq<Tagged>) {
    forall i :: 0 <= i < |out| - 1 ==> !Terminal(out[i].event)
  }

  lemma {:induction false} EndsStayLast(out: seq<Tagged>, later: seq<Tagged>)
    requires (forall o :: o in out ==> !Terminal(o.event)) && EndsOnlyLast(later)
    ensures EndsOnlyLast(out + later)
    ensures (out + later != [] && Terminal((out + later)[|out + later| - 1].event)) <==>
            (later != [] && Terminal(later[|later| - 1].event))
  {
  }

  /** Nothing follows a turn's end or a failure, and one of them is sent exactly when an ending item arrives. */
  lemma {:induction false} NothingFollowsTheEnd(parse: JsonParser, t: Tables, items: seq<StreamItem>)
    ensures var out := Translate(parse, t, items);
            && EndsOnlyLast(out)
            && ((out != [] && Terminal(out[|out| - 1].event)) <==> exists item :: item in items && item.Ends())
    decreases |items|
  {
    if items != [] && !items[0].Ends() {
      var (t', out) := Step(parse, t, items[0].event);
      StepIsNotTerminal(parse, t, items[0].event);
      NothingFollowsTheEnd(parse, t', items[1..]);
      EndsStayLast(out, Translate(parse, t', items[1..]));
      assert forall item :: item in items <==> item == items[0] || item in items[1..];
    } else if items != [] {
      assert items[0] in items;
    }
  }

  /** A cancelled run sends a prefix of what the uncancelled run sends. */
  lemma {:induction false} CancelledRunIsPrefix(parse: JsonParser, t: Tables, items: seq<StreamItem>, n: nat)
    requires n <= |items|
    ensures Translate(parse, t, items[..n]) <= Translate(parse, t, items)
    decreases |items|
  {
    if n > 0 && !items[0].Ends() {
      var (t', out) := Step(parse, t, items[0].event);
      CancelledRunIsPrefix(parse, t', items[1..], n - 1);
      assert items[..n][1..] == items[1..][..n - 1];
    }
  }

  // ---------------------------------------------------------------- one block's share of the tables

  /** What the tables hold for one block index. */
  datatype Slot = Slot(
    pending: Option<BlockKind>,
    input: Option<string>,
    anchored: bool,
    text: Option<string>,
    signature: Option<string>,
    redacted: Option<string>)

  const EMPTY_SLOT := Slot(None, None, false, None, None, None)

  function SlotOf(t: Tables, k: nat): Slot {
    Slot(Lookup(t.pending, k), Lookup(t.inputs, k), k in t.anchors, Lookup(t.texts, k), Lookup(t.signatures, k), Lookup(t.redacted, k))
  }

  /** An event of one block, its index left out. */
  datatype BlockEvent = Start(kind: BlockKind) | Piece(delta: Delta) | Stop

  function Unindexed(ev: StreamEvent): BlockEvent
    requires ev.Index().Some?
  {
    match ev
    case BlockStart(_, kind) => Start(kind)
    case BlockDelta(_, delta) => Piece(delta)
    case BlockStop(_) => Stop
  }

  function StartSlot(k: nat, s: Slot, kind: BlockKind): (Slot, seq<Tagged>) {
    var started := s.(pending := Some(kind));
    match kind
    case Thinking => (started.(anchored := true), [Tagged(Some(k), ThinkingStarted)])
    case RedactedThinking(data) => (started.(redacted := Some(data)), [])
    case _ => (started, [])
  }

  function PieceSlot(k: nat, s: Slot, delta: Delta): (Slot, seq<Tagged>) {
    match delta
    case TextDelta(text) => (s, [Tagged(Some(k), AssistantText(text))])
    case InputJsonDelta(piece) => (s.(input := Some(s.input.GetOr("") + piece)), [])
    case ThinkingDelta(text) =>
      (s.(anchored := true, text := Some(s.text.GetOr("") + text)),
       (if s.anchored then [] else [Tagged(Some(k), ThinkingStarted)]) + [Tagged(Some(k), ThinkingText(text))])
    case SignatureDelta(signature) => (s.(signature := Some(signature)), [])
  }

  /** What a stop leaves behind. */
  function AfterStop(s: Slot): Slot {
    Slot(None,
         if IsTool(s.pending) then None else s.input,
         false,
         if s.anchored then None else s.text,
         if s.anchored then None else s.signature,
         None)
  }

  function Closing(parse: JsonParser, k: nat, s: Slot): seq<Tagged> {
    ThinkingClose(k, s.anchored, s.text, s.signature) + RedactedClose(k, s.redacted) + ToolClose(parse, k, s.pending, s.input)
  }

  /** The iteration as one block sees it. */
  function SlotStep(parse: JsonParser, k: nat, s: Slot, ev: BlockEvent): (Slot, seq<Tagged>) {
    match ev
    case Start(kind) => StartSlot(k, s, kind)
    case Piece(delta) => PieceSlot(k, s, delta)
    case Stop => (AfterStop(s), Closing(parse, k, s))
  }

  lemma {:induction false} StartOnSlot(t: Tables, j: nat, kind: BlockKind, k: nat)
    ensures SlotOf(StepStart(t, j, kind).0, k) == if j == k then StartSlot(k, SlotOf(t, k), kind).0 else SlotOf(t, k)
  {
  }

  lemma {:induction false} DeltaOnSlot(t: Tables, j: nat, delta: Delta, k: nat)
    ensures SlotOf(StepDelta(t, j, delta).0, k) == if j == k then PieceSlot(k, SlotOf(t, k), delta).0 else SlotOf(t, k)
  {
  }

  lemma {:induction false} StopOnSlot(parse: JsonParser, t: Tables, j: nat, k: nat)
    ensures SlotOf(StepStop(parse, t, j).0, k) == if j == k then AfterStop(SlotOf(t, k)) else SlotOf(t, k)
  {
    var t' := StepStop(parse, t, j).0;
    var s, s' := SlotOf(t, k), SlotOf(t', k);
    if j == k {
      assert s'.pending == None && s'.redacted == None && !s'.anchored;
      assert s'.input == if IsTool(s.pending) then None else s.input;
    } else {
      assert s'.pending == s.pending && s'.redacted == s.redacted && s'.anchored == s.anchored;
    }
  }

  /** An event changes its own slot as `SlotStep` says, leaves every other slot alone, and speaks only for its own block. */
  lemma {:induction false} StepOnSlot(parse: JsonParser, t: Tables, ev: StreamEvent, k: nat)
    ensures var (t', out) := Step(parse, t, ev);
            && (ev.Index() != Some(k) ==> SlotOf(t', k) == SlotOf(t, k))
            && (ev.Index() == Some(k) ==> (SlotOf(t', k), out) == SlotStep(parse, k, SlotOf(t, k), Unindexed(ev)))
  {
    match ev
    case BlockStart(j, kind) => StartOnSlot(t, j, kind, k);
    case BlockDelta(j, delta) => DeltaOnSlot(t, j, delta, k);
    case BlockStop(j) => StopOnSlot(parse, t, j, k);
    case _ =>
  }

  lemma {:induction false} StepSpeaksForItsBlock(parse: JsonParser, t: Tables, ev: StreamEvent)
    ensures forall o :: o in Step(parse, t, ev).1 ==> o.index == ev.Index()
  {
    match ev
    case BlockDelta(k, delta) =>
      assert forall o :: o in StepDelta(t, k, delta).1 ==> o.index == Some(k);
    case BlockStop(k) =>
      assert forall o :: o in StepStop(parse, t, k).1 ==> o.index == Some(k);
    case _ =>
  }

  // ---------------------------------------------------------------- thinking indicators

  /** Every end marker has its replay block right behind it, and the other way round. */
  ghost predicate EndsPaired(out: seq<Tagged>) {
    forall i {:trigger out[i]} :: 0 <= i < |out| ==>
      && (out[i].event.ThinkingEnded? ==> i + 1 < |out| && out[i + 1].event.ThinkingBlock? && out[i + 1].index == out[i].index)
      && (out[i].event.ThinkingBlock? ==> 0 < i && out[i - 1].event.ThinkingEnded?)
  }

  lemma {:induction false} EndsPairedAppend(a: seq<Tagged>, b: seq<Tagged>)
    requires EndsPaired(a) && EndsPaired(b)
    ensures EndsPaired(a + b)
  {
    var s := a + b;
    forall i {:trigger s[i]} | 0 <= i < |s|
      ensures s[i].event.ThinkingEnded? ==> i + 1 < |s| && s[i + 1].event.ThinkingBlock? && s[i + 1].index == s[i].index
      ensures s[i].event.ThinkingBlock? ==> 0 < i && s[i - 1].event.ThinkingEnded?
    {
      if i < |a| {
        assert s[i] == a[i];
        assert i + 1 < |a| ==> s[i + 1] == a[i + 1];
      } else {
        assert s[i] == b[i - |a|];
        assert i + 1 < |s| ==> s[i + 1] == b[i + 1 - |a|];
        assert |a| < i ==> s[i - 1] == b[i - 1 - |a|];
      }
    }
  }

  lemma {:induction false} StepIsPaired(parse: JsonParser, t: Tables, ev: StreamEvent)
    ensures EndsPaired(Step(parse, t, ev).1)
  {
    if ev.BlockStop? {
      var s := SlotOf(t, ev.index);
      var a := ThinkingClose(ev.index, s.anchored, s.text, s.signature);
      var b := RedactedClose(ev.index, s.redacted);
      assert EndsPaired(a) && EndsPaired(b);
      EndsPairedAppend(a, b);
      EndsPairedAppend(a + b, ToolClose(parse, ev.index, s.pending, s.input));
    }
  }

  /** Each `ThinkingEnded` is immediately followed by the `ThinkingBlock` of the same content block. */
  lemma {:induction false} ThinkingEndsArePaired(parse: JsonParser, t: Tables, items: seq<StreamItem>)
    ensures EndsPaired(Translate(parse, t, items))
    decreases |items|
  {
    if items != [] && !items[0].Ends() {
      var (t', out) := Step(parse, t, items[0].event);
      ThinkingEndsArePaired(parse, t', items[1..]);
      StepIsPaired(parse, t, items[0].event);
      EndsPairedAppend(out, Translate(parse, t', items[1..]));
    }
  }

  /** +1 for a start marker and -1 for an end marker of a selected block. */
  function Weight(sel: nat -> bool, o: Tagged): int {
    if o.index.None? || !sel(o.index.value) then 0
    else if o.event.ThinkingStarted? then 1
    else if o.event.ThinkingEnded? then -1
    else 0
  }

  function Balance(sel: nat -> bool, out: seq<Tagged>): int {
    if out == [] then 0 else Weight(sel, out[0]) + Balance(sel, out[1..])
  }

  /** Starting from `credit`, the balance stays non-negative all the way. */
  predicate Covered(sel: nat -> bool, out: seq<Tagged>, credit: int) {
    0 <= credit && (out == [] || Covered(sel, out[1..], credit + Weight(sel, out[0])))
  }

  lemma {:induction false} CoveredAppend(sel: nat -> bool, a: seq<Tagged>, b: seq<Tagged>, credit: int)
    requires Covered(sel, a, credit) && Covered(sel, b, credit + Balance(sel, a))
    ensures Covered(sel, a + b, credit)
  {
    if a == [] {
      assert a + b == b;
    } else {
      assert (a + b)[1..] == a[1..] + b;
      CoveredAppend(sel, a[1..], b, credit + Weight(sel, a[0]));
    }
  }

  lemma {:induction false} CoveredMeans(sel: nat -> bool, out: seq<Tagged>, credit: int, n: nat)
    requires Covered(sel, out, credit) && n <= |out|
    ensures 0 <= credit + Balance(sel, out[..n])
  {
    if n > 0 {
      assert out[..n][1..] == out[1..][..n - 1];
      CoveredMeans(sel, out[1..], credit + Weight(sel, out[0]), n - 1);
    }
  }

  lemma {:induction false} CreditGrows(sel: nat -> bool, out: seq<Tagged>, low: int, high: int)
    requires Covered(sel, out, low) && low <= high
    ensures Covered(sel, out, high)
  {
    if out != [] {
      CreditGrows(sel, out[1..], low + Weight(sel, out[0]), high + Weight(sel, out[0]));
    }
  }

  /** How many selected blocks currently show a thinking indicator. */
  ghost function Shown(sel: nat -> bool, t: Tables): nat {
    |Selected(sel, t.anchors)|
  }

  function Selected(sel: nat -> bool, ids: set<nat>): set<nat> {
    set k | k in ids && sel(k)
  }

  lemma {:induction false} ShownAfterStart(sel: nat -> bool, t: Tables, k: nat, kind: BlockKind)
    ensures var (t', out) := StepStart(t, k, kind);
            Covered(sel, out, Shown(sel, t)) && Shown(sel, t') <= Shown(sel, t) + Balance(sel, out)
  {
    ShownWith(sel, t, k);
    var out := StepStart(t, k, kind).1;
    assert out == [] || out == [Tagged(Some(k), ThinkingStarted)];
    MarkerBalance(sel, out, Shown(sel, t));
    assert StepStart(t, k, kind).0.anchors == if kind.Thinking? then t.anchors + {k} else t.anchors;
  }

  lemma {:induction false} ShownAfterDelta(sel: nat -> bool, t: Tables, k: nat, delta: Delta)
    ensures var (t', out) := StepDelta(t, k, delta);
            Covered(sel, out, Shown(sel, t)) && Shown(sel, t') <= Shown(sel, t) + Balance(sel, out)
  {
    ShownWith(sel, t, k);
    DeltaBalance(sel, t, k, delta, Shown(sel, t));
    assert StepDelta(t, k, delta).0.anchors == if delta.ThinkingDelta? then t.anchors + {k} else t.anchors;
  }

  /** A step's markers account for the indicators it adds or takes away. */
  lemma {:induction false} ShownAfterStep(sel: nat -> bool, parse: JsonParser, t: Tables, ev: StreamEvent)
    ensures var (t', out) := Step(parse, t, ev);
            Covered(sel, out, Shown(sel, t)) && Shown(sel, t') <= Shown(sel, t) + Balance(sel, out)
  {
    match ev
    case BlockStart(k, kind) => ShownAfterStart(sel, t, k, kind);
    case BlockDelta(k, delta) => ShownAfterDelta(sel, t, k, delta);
    case BlockStop(k) =>
      ShownWithout(sel, t, k);
      StopBalance(sel, parse, t, k, Shown(sel, t));
    case MessageStart(usage) =>
      QuietIsCovered(sel, Reports(usage), Shown(sel, t));
    case MessageDelta(_, usage) =>
      QuietIsCovered(sel, Reports(usage), Shown(sel, t));
    case MessageStop =>
      QuietIsCovered(sel, Step(parse, t, ev).1, Shown(sel, t));
  }

  /** Showing one more indicator. */
  lemma {:induction false} ShownWith(sel: nat -> bool, t: Tables, k: nat)
    ensures Shown(sel, t.(anchors := t.anchors + {k})) == Shown(sel, t) + if sel(k) && k !in t.anchors then 1 else 0
  {
    if sel(k) && k !in t.anchors {
      assert Selected(sel, t.anchors + {k}) == Selected(sel, t.anchors) + {k};
    } else {
      assert Selected(sel, t.anchors + {k}) == Selected(sel, t.anchors);
    }
  }

  /** Hiding one indicator. */
  lemma {:induction false} ShownWithout(sel: nat -> bool, t: Tables, k: nat)
    ensures Shown(sel, t.(anchors := t.anchors - {k})) == Shown(sel, t) - if sel(k) && k in t.anchors then 1 else 0
  {
    if sel(k) && k in t.anchors {
      assert Selected(sel, t.anchors) == Selected(sel, t.anchors - {k}) + {k};
    } else {
      assert Selected(sel, t.anchors - {k}) == Selected(sel, t.anchors);
    }
  }

  /** At most one marker, a start. */
  lemma {:induction false} MarkerBalance(sel: nat -> bool, out: seq<Tagged>, credit: nat)
    requires out == [] || (|out| == 1 && out[0].event.ThinkingStarted?)
    ensures Covered(sel, out, credit) && Balance(sel, out) == if out == [] then 0 else Weight(sel, out[0])
  {
    if out != [] {
      assert out[1..] == [];
    }
  }

  lemma {:induction false} DeltaBalance(sel: nat -> bool, t: Tables, k: nat, delta: Delta, credit: nat)
    ensures var out := StepDelta(t, k, delta).1;
            && Balance(sel, out) == (if delta.ThinkingDelta? && sel(k) && k !in t.anchors then 1 else 0)
            && Covered(sel, out, credit)
  {
    var out := StepDelta(t, k, delta).1;
    if delta.ThinkingDelta? && k !in t.anchors {
      assert out[0] == Tagged(Some(k), ThinkingStarted);
      QuietIsCovered(sel, out[1..], credit + Weight(sel, out[0]));
    } else {
      QuietIsCovered(sel, out, credit);
    }
  }

  lemma {:induction false} StopBalance(sel: nat -> bool, parse: JsonParser, t: Tables, k: nat, credit: nat)
    requires k in t.anchors && sel(k) ==> 0 < credit
    ensures var out := StepStop(parse, t, k).1;
            Balance(sel, out) == (if k in t.anchors && sel(k) then -1 else 0) && Covered(sel, out, credit)
  {
    var out := StepStop(parse, t, k).1;
    if k in t.anchors {
      assert out[0] == Tagged(Some(k), ThinkingEnded);
      QuietIsCovered(sel, out[1..], credit + Weight(sel, out[0]));
    } else {
      QuietIsCovered(sel, out, credit);
    }
  }

  /** Outputs without markers neither need nor give credit. */
  lemma {:induction false} QuietIsCovered(sel: nat -> bool, out: seq<Tagged>, credit: int)
    requires 0 <= credit
    requires forall o :: o in out ==> !o.event.ThinkingStarted? && !o.event.ThinkingEnded?
    ensures Covered(sel, out, credit) && Balance(sel, out) == 0
  {
    if out != [] {
      assert out[0] in out;
      QuietIsCovered(sel, out[1..], credit);
    }
  }

  lemma {:induction false} RunIsCovered(sel: nat -> bool, parse: JsonParser, t: Tables, items: seq<StreamItem>)
    ensures Covered(sel, Translate(parse, t, items), Shown(sel, t))
    decreases |items|
  {
    if items != [] && items[0].Arrived? {
      var (t', out) := Step(parse, t, items[0].event);
      ShownAfterStep(sel, parse, t, items[0].event);
      if !items[0].event.MessageStop? {
        RunIsCovered(sel, parse, t', items[1..]);
        CreditGrows(sel, Translate(parse, t', items[1..]), Shown(sel, t'), Shown(sel, t) + Balance(sel, out));
        CoveredAppend(sel, out, Translate(parse, t', items[1..]), Shown(sel, t));
      }
    }
  }

  /** For any selection of blocks (one of them, or all), no prefix of a run shows more ends than starts. */
  lemma {:induction false} EndsNeverExceedStarts(sel: nat -> bool, parse: JsonParser, items: seq<StreamItem>, n: nat)
    requires n <= |Translate(parse, EMPTY_TABLES, items)|
    ensures Balance(sel, Translate(parse, EMPTY_TABLES, items)[..n]) >= 0
  {
    RunIsCovered(sel, parse, EMPTY_TABLES, items);
    assert (set k | k in EMPTY_TABLES.anchors && sel(k)) == {};
    CoveredMeans(sel, Translate(parse, EMPTY_TABLES, items), 0, n);
  }

  // ---------------------------------------------------------------- interleaved blocks

  /** The events of block `k` that the loop gets to see, in order. */
  function EventsFor(k: nat, items: seq<StreamItem>): seq<BlockEvent>
    decreases |items|
  {
    if items == [] || items[0].Ends() then []
    else
      (if items[0].event.Index() == Some(k) then [Unindexed(items[0].event)] else []) + EventsFor(k, items[1..])
  }

  function SlotRun(parse: JsonParser, k: nat, s: Slot, events: seq<BlockEvent>): seq<Tagged>
    decreases |events|
  {
    if events == [] then []
    else var (s', out) := SlotStep(parse, k, s, events[0]);
         out + SlotRun(parse, k, s', events[1..])
  }

  /** The outputs that belong to block `k`, in order. */
  function OutputsFor(k: nat, out: seq<Tagged>): seq<Tagged> {
    if out == [] then []
    else OnlyFor(k, out[0]) + OutputsFor(k, out[1..])
  }

  function OnlyFor(k: nat, o: Tagged): seq<Tagged> {
    if o.index == Some(k) then [o] else []
  }

  lemma {:induction false} OutputsForAppend(k: nat, a: seq<Tagged>, b: seq<Tagged>)
    ensures OutputsFor(k, a + b) == OutputsFor(k, a) + OutputsFor(k, b)
  {
    if a == [] {
      assert a + b == b;
    } else {
      assert (a + b)[0] == a[0] && (a + b)[1..] == a[1..] + b;
      OutputsForAppend(k, a[1..], b);
      Reassociate(OnlyFor(k, a[0]), OutputsFor(k, a[1..]), OutputsFor(k, b));
    }
  }

  lemma {:induction false} OutputsOfOneBlock(k: nat, index: Option<nat>, out: seq<Tagged>)
    requires forall o :: o in out ==> o.index == index
    ensures OutputsFor(k, out) == if index == Some(k) then out else []
  {
    if out != [] {
      assert out[0] in out;
      OutputsOfOneBlock(k, index, out[1..]);
    }
  }

  /** What a run says about block `k` is a function of the events of block `k` alone. */
  lemma {:induction false} BlockSeesOnlyItsEvents(parse: JsonParser, t: Tables, items: seq<StreamItem>, k: nat)
    ensures OutputsFor(k, Translate(parse, t, items)) == SlotRun(parse, k, SlotOf(t, k), EventsFor(k, items))
    decreases |items|
  {
    if items != [] && !items[0].Ends() {
      var ev := items[0].event;
      var (t', out) := Step(parse, t, ev);
      BlockSeesOnlyItsEvents(parse, t', items[1..], k);
      OutputsForAppend(k, out, Translate(parse, t', items[1..]));
      StepOnSlot(parse, t, ev, k);
      StepSpeaksForItsBlock(parse, t, ev);
      OutputsOfOneBlock(k, ev.Index(), out);
      if ev.Index() == Some(k) {
        assert EventsFor(k, items)[1..] == EventsFor(k, items[1..]);
        assert OutputsFor(k, Translate(parse, t, items)) == out + SlotRun(parse, k, SlotOf(t', k), EventsFor(k, items[1..]));
      } else {
        assert EventsFor(k, items) == EventsFor(k, items[1..]);
        assert OutputsFor(k, Translate(parse, t, items)) == [] + SlotRun(parse, k, SlotOf(t', k), EventsFor(k, items[1..]));
      }
    }
  }

  /** Two interleavings that agree on the events of block `k` agree on everything sent for block `k`. */
  lemma {:induction false} InterleavingIrrelevant(parse: JsonParser, a: seq<StreamItem>, b: seq<StreamItem>, k: nat)
    requires EventsFor(k, a) == EventsFor(k, b)
    ensures OutputsFor(k, Translate(parse, EMPTY_TABLES, a)) == OutputsFor(k, Translate(parse, EMPTY_TABLES, b))
  {
    BlockSeesOnlyItsEvents(parse, EMPTY_TABLES, a, k);
    BlockSeesOnlyItsEvents(parse, EMPTY_TABLES, b, k);
  }

  // ---------------------------------------------------------------- what a block amounts to

  /** The concatenated JSON pieces among `events`. */
  function InputText(events: seq<BlockEvent>): string {
    if events == [] then ""
    else (if events[0].Piece? && events[0].delta.InputJsonDelta? then events[0].delta.partialJson else "") + InputText(events[1..])
  }

  /** The concatenated reasoning texts sent out among `sent`. */
  function SentThinking(sent: seq<Tagged>): string {
    if sent == [] then ""
    else (if sent[0].event.ThinkingText? then sent[0].event.text else "") + SentThinking(sent[1..])
  }

  function LastSignature(events: seq<BlockEvent>): Option<string> {
    if events == [] then None
    else
      var later := LastSignature(events[1..]);
      if later.None? && events[0].Piece? && events[0].delta.SignatureDelta? then Some(events[0].delta.signature) else later
  }

  function LastKind(events: seq<BlockEvent>): Option<BlockKind> {
    if events == [] then None
    else
      var later := LastKind(events[1..]);
      if later.None? && events[0].Start? then Some(events[0].kind) else later
  }

  function LastRedaction(events: seq<BlockEvent>): Option<string> {
    if events == [] then None
    else
      var later := LastRedaction(events[1..]);
      if later.None? && events[0].Start? && events[0].kind.RedactedThinking? then Some(events[0].kind.data) else later
  }

  /** Some event shows reasoning: a thinking start or a thinking piece. */
  predicate ShowsThinking(events: seq<BlockEvent>) {
    exists ev :: ev in events && ((ev.Start? && ev.kind.Thinking?) || (ev.Piece? && ev.delta.ThinkingDelta?))
  }

  function SlotAfter(parse: JsonParser, k: nat, s: Slot, events: seq<BlockEvent>): Slot
    decreases |events|
  {
    if events == [] then s else SlotAfter(parse, k, SlotStep(parse, k, s, events[0]).0, events[1..])
  }

  function OrElse<T>(first: Option<T>, second: Option<T>): Option<T> {
    if first.Some? then first else second
  }

  lemma {:induction false} SlotRunAppend(parse: JsonParser, k: nat, s: Slot, a: seq<BlockEvent>, b: seq<BlockEvent>)
    ensures SlotRun(parse, k, s, a + b) == SlotRun(parse, k, s, a) + SlotRun(parse, k, SlotAfter(parse, k, s, a), b)
    decreases |a|
  {
    if a == [] {
      assert a + b == b;
    } else {
      assert (a + b)[1..] == a[1..] + b;
      SlotRunAppend(parse, k, SlotStep(parse, k, s, a[0]).0, a[1..], b);
    }
  }

  lemma {:induction false} SentThinkingAppend(a: seq<Tagged>, b: seq<Tagged>)
    ensures SentThinking(a + b) == SentThinking(a) + SentThinking(b)
  {
    if a == [] {
      assert a + b == b;
    } else {
      assert (a + b)[1..] == a[1..] + b;
      SentThinkingAppend(a[1..], b);
    }
  }

  lemma {:induction false} InputAccumulates(parse: JsonParser, k: nat, s: Slot, events: seq<BlockEvent>)
    requires Stop !in events
    ensures SlotAfter(parse, k, s, events).input.GetOr("") == s.input.GetOr("") + InputText(events)
    decreases |events|
  {
    if events != [] {
      assert events[0] in events;
      InputAccumulates(parse, k, SlotStep(parse, k, s, events[0]).0, events[1..]);
    }
  }

  lemma {:induction false} TextAccumulates(parse: JsonParser, k: nat, s: Slot, events: seq<BlockEvent>)
    requires Stop !in events
    ensures SlotAfter(parse, k, s, events).text.GetOr("") == s.text.GetOr("") + SentThinking(SlotRun(parse, k, s, events))
    decreases |events|
  {
    if events != [] {
      assert events[0] in events;
      var (s', out) := SlotStep(parse, k, s, events[0]);
      TextAccumulates(parse, k, s', events[1..]);
      SentThinkingAppend(out, SlotRun(parse, k, s', events[1..]));
      TextOfStep(k, s, events[0], parse);
    }
  }

  lemma {:induction false} TextOfStep(k: nat, s: Slot, ev: BlockEvent, parse: JsonParser)
    requires !ev.Stop?
    ensures var (s', out) := SlotStep(parse, k, s, ev); s'.text.GetOr("") == s.text.GetOr("") + SentThinking(out)
  {
    if ev.Piece? && ev.delta.ThinkingDelta? && !s.anchored {
      SentThinkingAppend([Tagged(Some(k), ThinkingStarted)], [Tagged(Some(k), ThinkingText(ev.delta.text))]);
    }
  }

  lemma {:induction false} LatestAccumulate(parse: JsonParser, k: nat, s: Slot, events: seq<BlockEvent>)
    requires Stop !in events
    ensures var e := SlotAfter(parse, k, s, events);
            && e.pending == OrElse(LastKind(events), s.pending)
            && e.signature == OrElse(LastSignature(events), s.signature)
            && e.redacted == OrElse(LastRedaction(events), s.redacted)
    decreases |events|
  {
    if events != [] {
      assert events[0] in events;
      LatestAccumulate(parse, k, SlotStep(parse, k, s, events[0]).0, events[1..]);
    }
  }

  lemma {:induction false} AnchorAccumulates(parse: JsonParser, k: nat, s: Slot, events: seq<BlockEvent>)
    requires Stop !in events
    ensures SlotAfter(parse, k, s, events).anchored <==> s.anchored || ShowsThinking(events)
    decreases |events|
  {
    if events != [] {
      assert events[0] in events;
      assert forall ev :: ev in events <==> ev == events[0] || ev in events[1..];
      AnchorAccumulates(parse, k, SlotStep(parse, k, s, events[0]).0, events[1..]);
    }
  }

  /** The slot after some pieces, described by the pieces themselves. */
  lemma {:induction false} SlotAccumulates(parse: JsonParser, k: nat, s: Slot, events: seq<BlockEvent>)
    requires Stop !in events
    ensures var e := SlotAfter(parse, k, s, events);
            && e.pending == OrElse(LastKind(events), s.pending)
            && e.input.GetOr("") == s.input.GetOr("") + InputText(events)
            && e.text.GetOr("") == s.text.GetOr("") + SentThinking(SlotRun(parse, k, s, events))
            && e.signature == OrElse(LastSignature(events), s.signature)
            && e.redacted == OrElse(LastRedaction(events), s.redacted)
            && (e.anchored <==> s.anchored || ShowsThinking(events))
  {
    InputAccumulates(parse, k, s, events);
    TextAccumulates(parse, k, s, events);
    LatestAccumulate(parse, k, s, events);
    AnchorAccumulates(parse, k, s, events);
  }

  /** Nothing for nothing and for an empty text. */
  function Filled(s: Option<string>): Option<string> {
    match s
    case Some(text) => if text == "" then None else Some(text)
    case None => None
  }

  /** The replay events that close a block, told from what the block was sent. */
  function Replay(parse: JsonParser, k: nat, shown: bool, reasoning: string, signature: Option<string>,
                  redaction: Option<string>, kind: Option<BlockKind>, json: string): seq<Tagged> {
    (if shown then
       [Tagged(Some(k), ThinkingEnded), Tagged(Some(k), ThinkingBlock(if reasoning == "" then None else Some(reasoning), Filled(signature)))]
     else [])
    + (match redaction
       case Some(data) => [Tagged(Some(k), RedactedBlock(data))]
       case None => [])
    + (match kind
       case Some(ToolUse(id, name)) =>
         [Tagged(Some(k), ToolCall(id, name, match parse(json) case Some(input) => input case None => Obj(map[])))]
       case _ => [])
  }

  /** The replay events a block ends with, given the events it received and the reasoning sent for it. */
  function BlockContents(parse: JsonParser, k: nat, events: seq<BlockEvent>, thinking: string): seq<Tagged> {
    Replay(parse, k, ShowsThinking(events), thinking, LastSignature(events), LastRedaction(events), LastKind(events), InputText(events))
  }

  /** The closing outputs of the tables are those events. */
  lemma {:induction false} ClosingIsReplay(parse: JsonParser, k: nat, s: Slot)
    ensures Closing(parse, k, s) ==
              Replay(parse, k, s.anchored, s.text.GetOr(""), s.signature, s.redacted, s.pending, s.input.GetOr(""))
  {
  }

  lemma {:induction false} StopRuns(parse: JsonParser, k: nat, s: Slot, later: seq<BlockEvent>)
    ensures SlotRun(parse, k, s, [Stop] + later) == Closing(parse, k, s) + SlotRun(parse, k, AfterStop(s), later)
  {
    assert ([Stop] + later)[1..] == later;
  }

  /** What the first stop sends, read off the events instead of the tables. */
  lemma {:induction false} ClosingIsContents(parse: JsonParser, k: nat, events: seq<BlockEvent>)
    requires Stop !in events
    ensures Closing(parse, k, SlotAfter(parse, k, EMPTY_SLOT, events))
            == BlockContents(parse, k, events, SentThinking(SlotRun(parse, k, EMPTY_SLOT, events)))
  {
    var open := SlotRun(parse, k, EMPTY_SLOT, events);
    SlotAccumulates(parse, k, EMPTY_SLOT, events);
    ClosingIsReplay(parse, k, SlotAfter(parse, k, EMPTY_SLOT, events));
    assert "" + InputText(events) == InputText(events);
    assert "" + SentThinking(open) == SentThinking(open);
  }

  /**
   The outputs of block `k` in any run: while it is open only its pieces, and at its first stop
   the tool call with the parse of the concatenated JSON pieces, the reasoning block with the
   concatenation of the reasoning texts that were sent, and the redacted payload.
   */
  lemma {:induction false} BlockAmountsTo(parse: JsonParser, items: seq<StreamItem>, k: nat, events: seq<BlockEvent>, later: seq<BlockEvent>)
    requires EventsFor(k, items) == events + [Stop] + later && Stop !in events
    ensures var open := SlotRun(parse, k, EMPTY_SLOT, events);
            OutputsFor(k, Translate(parse, EMPTY_TABLES, items))
            == open + BlockContents(parse, k, events, SentThinking(open))
               + SlotRun(parse, k, AfterStop(SlotAfter(parse, k, EMPTY_SLOT, events)), later)
  {
    var open := SlotRun(parse, k, EMPTY_SLOT, events);
    var s := SlotAfter(parse, k, EMPTY_SLOT, events);
    BlockSeesOnlyItsEvents(parse, EMPTY_TABLES, items, k);
    Reassociate(events, [Stop], later);
    SlotRunAppend(parse, k, EMPTY_SLOT, events, [Stop] + later);
    StopRuns(parse, k, s, later);
    ClosingIsContents(parse, k, events);
    Reassociate(open, Closing(parse, k, s), SlotRun(parse, k, AfterStop(s), later));
  }

  // ---------------------------------------------------------------- an index that is used again

  /** Two slots that no later output can tell apart. */
  predicate Alike(s: Slot, t: Slot) {
    && s.pending == t.pending && s.anchored == t.anchored && s.redacted == t.redacted
    && s.input.GetOr("") == t.input.GetOr("") && s.text.GetOr("") == t.text.GetOr("") && s.signature.GetOr("") == t.signature.GetOr("")
  }

  lemma {:induction false} AlikeStep(parse: JsonParser, k: nat, s: Slot, t: Slot, ev: BlockEvent)
    requires Alike(s, t)
    ensures SlotStep(parse, k, s, ev).1 == SlotStep(parse, k, t, ev).1
    ensures Alike(SlotStep(parse, k, s, ev).0, SlotStep(parse, k, t, ev).0)
  {
  }

  lemma {:induction false} AlikeRun(parse: JsonParser, k: nat, s: Slot, t: Slot, events: seq<BlockEvent>)
    requires Alike(s, t)
    ensures SlotRun(parse, k, s, events) == SlotRun(parse, k, t, events)
    decreases |events|
  {
    if events != [] {
      AlikeStep(parse, k, s, t, events[0]);
      AlikeRun(parse, k, SlotStep(parse, k, s, events[0]).0, SlotStep(parse, k, t, events[0]).0, events[1..]);
    }
  }

  /** Collected reasoning text implies a shown indicator, so a stop always takes it. */
  lemma {:induction false} CollectedText(parse: JsonParser, k: nat, s: Slot, events: seq<BlockEvent>)
    requires Stop !in events && (s.text.Some? ==> s.anchored)
    ensures var e := SlotAfter(parse, k, s, events); e.text.Some? ==> e.anchored
    decreases |events|
  {
    if events != [] {
      assert events[0] in events;
      CollectedText(parse, k, SlotStep(parse, k, s, events[0]).0, events[1..]);
    }
  }

  /** What the events of a block collect and its stop does not take away is empty. */
  predicate LeavesNothing(events: seq<BlockEvent>) {
    && (InputText(events) == "" || IsTool(LastKind(events)))
    && (LastSignature(events).GetOr("") == "" || ShowsThinking(events))
  }

  /** The slot of a closed block. */
  function Leftover(parse: JsonParser, k: nat, events: seq<BlockEvent>): Slot {
    AfterStop(SlotAfter(parse, k, EMPTY_SLOT, events))
  }

  lemma {:induction false} LeftoverIs(parse: JsonParser, k: nat, events: seq<BlockEvent>)
    requires Stop !in events
    ensures var left := Leftover(parse, k, events);
            && left.pending == None && !left.anchored && left.redacted == None && left.text == None
            && left.input.GetOr("") == (if IsTool(LastKind(events)) then "" else InputText(events))
            && left.signature.GetOr("") == (if ShowsThinking(events) then "" else LastSignature(events).GetOr(""))
  {
    SlotAccumulates(parse, k, EMPTY_SLOT, events);
    CollectedText(parse, k, EMPTY_SLOT, events);
    assert "" + InputText(events) == InputText(events);
  }

  /** The events of a block as a stream of its own. */
  function StreamOf(k: nat, events: seq<BlockEvent>): seq<StreamItem> {
    if events == [] then [] else [Arrived(Reindexed(k, events[0]))] + StreamOf(k, events[1..])
  }

  function Reindexed(k: nat, ev: BlockEvent): StreamEvent {
    match ev
    case Start(kind) => BlockStart(k, kind)
    case Piece(delta) => BlockDelta(k, delta)
    case Stop => BlockStop(k)
  }

  lemma {:induction false} StreamOfHas(k: nat, events: seq<BlockEvent>)
    ensures EventsFor(k, StreamOf(k, events)) == events
  {
    if events != [] {
      StreamOfHas(k, events[1..]);
      assert StreamOf(k, events)[1..] == StreamOf(k, events[1..]);
    }
  }

  /** What a stream with these events for block `k` and no others sends for it. */
  function Alone(parse: JsonParser, k: nat, events: seq<BlockEvent>): seq<Tagged> {
    OutputsFor(k, Translate(parse, EMPTY_TABLES, StreamOf(k, events)))
  }

  lemma {:induction false} AloneIsRun(parse: JsonParser, k: nat, events: seq<BlockEvent>)
    ensures Alone(parse, k, events) == SlotRun(parse, k, EMPTY_SLOT, events)
  {
    BlockSeesOnlyItsEvents(parse, EMPTY_TABLES, StreamOf(k, events), k);
    StreamOfHas(k, events);
  }

  /** After a stop, an index continues from what the stop left. */
  lemma {:induction false} AloneAgain(parse: JsonParser, k: nat, events: seq<BlockEvent>, later: seq<BlockEvent>)
    ensures Alone(parse, k, events + [Stop] + later)
            == Alone(parse, k, events + [Stop]) + SlotRun(parse, k, Leftover(parse, k, events), later)
  {
    AloneIsRun(parse, k, events + [Stop] + later);
    AloneIsRun(parse, k, events + [Stop]);
    SlotRunAppend(parse, k, EMPTY_SLOT, events + [Stop], later);
    SlotAfterStop(parse, k, EMPTY_SLOT, events);
  }

  lemma {:induction false} SlotAfterStop(parse: JsonParser, k: nat, s: Slot, events: seq<BlockEvent>)
    ensures SlotAfter(parse, k, s, events + [Stop]) == AfterStop(SlotAfter(parse, k, s, events))
    decreases |events|
  {
    if events == [] {
      assert events + [Stop] == [Stop] && [Stop][1..] == [];
    } else {
      assert (events + [Stop])[1..] == events[1..] + [Stop];
      SlotAfterStop(parse, k, SlotStep(parse, k, s, events[0]).0, events[1..]);
    }
  }

  /** What comes after the stop of `events` is sent as if the index had never been used. */
  ghost predicate SentAfresh(parse: JsonParser, k: nat, events: seq<BlockEvent>, later: seq<BlockEvent>) {
    Alone(parse, k, events + [Stop] + later) == Alone(parse, k, events + [Stop]) + Alone(parse, k, later)
  }

  /** A parser that tells the empty text from every other one. */
  function TellsEmpty(text: string): Option<Json> {
    if text == "" then None else Some(Null)
  }

  /** A tool call, or a thinking block, that brings to light what is left. */
  const PROBE_INPUT: seq<BlockEvent> := [Start(ToolUse("", "")), Stop]
  const PROBE_SIGNATURE: seq<BlockEvent> := [Start(Thinking), Stop]

  lemma {:induction false} ToolShowsInput(parse: JsonParser, k: nat, s: Slot, id: string, name: string)
    requires !s.anchored && s.redacted == None
    ensures SlotRun(parse, k, s, [Start(ToolUse(id, name)), Stop])
            == [Tagged(Some(k), ToolCall(id, name, parse(s.input.GetOr("")).GetOr(EMPTY_OBJECT)))]
  {
    assert [Start(ToolUse(id, name)), Stop][1..] == [Stop] && [Stop][1..] == [];
  }

  lemma {:induction false} ProbeSignature(parse: JsonParser, k: nat, s: Slot)
    requires s.redacted == None && s.text == None
    ensures SlotRun(parse, k, s, PROBE_SIGNATURE)
            == [Tagged(Some(k), ThinkingStarted), Tagged(Some(k), ThinkingEnded),
                Tagged(Some(k), ThinkingBlock(None, NonEmpty(s.signature.GetOr(""))))]
  {
    assert PROBE_SIGNATURE[1..] == [Stop] && [Stop][1..] == [];
  }

  /** Something left shows in one of the two probes. */
  lemma {:induction false} LeftoverShows(k: nat, events: seq<BlockEvent>)
    requires Stop !in events && !LeavesNothing(events)
    ensures !SentAfresh(TellsEmpty, k, events, PROBE_INPUT) || !SentAfresh(TellsEmpty, k, events, PROBE_SIGNATURE)
  {
    var left := Leftover(TellsEmpty, k, events);
    LeftoverIs(TellsEmpty, k, events);
    if InputText(events) != "" && !IsTool(LastKind(events)) {
      AloneAgain(TellsEmpty, k, events, PROBE_INPUT);
      AloneIsRun(TellsEmpty, k, PROBE_INPUT);
      ToolShowsInput(TellsEmpty, k, left, "", "");
      ToolShowsInput(TellsEmpty, k, EMPTY_SLOT, "", "");
      SamePrefix(Alone(TellsEmpty, k, events + [Stop]), SlotRun(TellsEmpty, k, left, PROBE_INPUT), Alone(TellsEmpty, k, PROBE_INPUT));
    } else {
      AloneAgain(TellsEmpty, k, events, PROBE_SIGNATURE);
      AloneIsRun(TellsEmpty, k, PROBE_SIGNATURE);
      ProbeSignature(TellsEmpty, k, left);
      ProbeSignature(TellsEmpty, k, EMPTY_SLOT);
      SamePrefix(Alone(TellsEmpty, k, events + [Stop]), SlotRun(TellsEmpty, k, left, PROBE_SIGNATURE), Alone(TellsEmpty, k, PROBE_SIGNATURE));
    }
  }

  /**
   A closed index is as good as new, whatever is sent to it later and whatever the parser, exactly
   when no JSON text was sent to a block that is not a tool use, and no signature to a block that
   shows no thinking.
   */
  lemma {:induction false} ReusedIndexIsFreshIff(k: nat, events: seq<BlockEvent>)
    requires Stop !in events
    ensures (forall parse: JsonParser, later :: SentAfresh(parse, k, events, later)) <==> LeavesNothing(events)
  {
    if LeavesNothing(events) {
      forall parse: JsonParser, later
        ensures SentAfresh(parse, k, events, later)
      {
        AloneAgain(parse, k, events, later);
        AloneIsRun(parse, k, later);
        LeftoverIs(parse, k, events);
        AlikeRun(parse, k, Leftover(parse, k, events), EMPTY_SLOT, later);
      }
    } else {
      LeftoverShows(k, events);
    }
  }

  /** And then in every interleaving what follows the stop is sent as in a stream of its own. */
  lemma {:induction false} FreshInAnyInterleaving(parse: JsonParser, items: seq<StreamItem>, k: nat, events: seq<BlockEvent>, later: seq<BlockEvent>)
    requires EventsFor(k, items) == events + [Stop] + later && Stop !in events && LeavesNothing(events)
    ensures OutputsFor(k, Translate(parse, EMPTY_TABLES, items)) == Alone(parse, k, events + [Stop]) + Alone(parse, k, later)
  {
    ReusedIndexIsFreshIff(k, events);
    assert SentAfresh(parse, k, events, later);
    StreamOfHas(k, events + [Stop] + later);
    InterleavingIrrelevant(parse, items, StreamOf(k, events + [Stop] + later), k);
  }

  /** JSON pieces sent to a text block leak into a tool block that reuses its index. */
  lemma {:induction false} StaleInputLeaks(parse: JsonParser, k: nat, id: string, name: string)
    ensures var tool := [Start(ToolUse(id, name)), Stop];
            && Alone(parse, k, tool) == [Tagged(Some(k), ToolCall(id, name, parse("").GetOr(EMPTY_OBJECT)))]
            && Alone(parse, k, [Start(Text), Piece(InputJsonDelta("7"))] + [Stop] + tool)
               == [Tagged(Some(k), ToolCall(id, name, parse("7").GetOr(EMPTY_OBJECT)))]
  {
    var open, tool := [Start(Text), Piece(InputJsonDelta("7"))], [Start(ToolUse(id, name)), Stop];
    var left := Leftover(parse, k, open);
    assert open[1..] == [Piece(InputJsonDelta("7"))] && open[1..][1..] == [];
    LeftoverIs(parse, k, open);
    assert InputText(open) == "7";
    AloneIsRun(parse, k, tool);
    ToolShowsInput(parse, k, EMPTY_SLOT, id, name);
    ToolShowsInput(parse, k, left, id, name);
    AloneAgain(parse, k, open, tool);
    TextStaysSilent(parse, k);
  }

  lemma {:induction false} TextStaysSilent(parse: JsonParser, k: nat)
    ensures Alone(parse, k, [Start(Text), Piece(InputJsonDelta("7"))] + [Stop]) == []
  {
    var open := [Start(Text), Piece(InputJsonDelta("7"))];
    assert open[1..] == [Piece(InputJsonDelta("7"))] && open[1..][1..] == [] && [Stop][1..] == [];
    AloneIsRun(parse, k, open + [Stop]);
    SlotRunAppend(parse, k, EMPTY_SLOT, open, [Stop]);
  }
}
