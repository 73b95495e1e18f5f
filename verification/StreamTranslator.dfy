/**
 The translator loop of the Anthropic client: typed stream events in, completion events out.

 The loop keeps six tables keyed by content-block index.  `Step` is one iteration on those
 tables; `Translator` updates them in place.  Every output is tagged with the block index it
 belongs to, so that the theorems can speak about one block among interleaved ones.
 */
module StreamTranslator {
  import opened Options
  import opened Json

  datatype BlockKind = Text | ToolUse(id: string, name: string) | Thinking | RedactedThinking(data: string)

  datatype Delta =
    | TextDelta(text: string)
    | InputJsonDelta(partialJson: string)
    | ThinkingDelta(text: string)
    | SignatureDelta(signature: string)

  /** `usage` fields hold what usage extraction found, if anything. */
  datatype StreamEvent =
    | MessageStart(usage: Option<string>)
    | BlockStart(index: nat, kind: BlockKind)
    | BlockDelta(index: nat, delta: Delta)
    | BlockStop(index: nat)
    | MessageDelta(stopReason: Option<string>, usage: Option<string>)
    | MessageStop
  {
    function Index(): Option<nat> {
      if BlockStart? || BlockDelta? || BlockStop? then Some(index) else None
    }
  }

  datatype StopReason = Natural | FromProvider(raw: string)

  datatype Completion =
    | UsageReport(usage: string)
    | AssistantText(text: string)
    | ThinkingStarted
    | ThinkingText(text: string)
    | ThinkingEnded
    | ThinkingBlock(thinking: Option<string>, signature: Option<string>)
    | RedactedBlock(data: string)
    | ToolCall(id: string, name: string, input: Json)
    | TurnComplete(stopReason: StopReason)
    | Failure(message: string)

  /** An output together with the index of the block it came from, if it came from one. */
  datatype Tagged = Tagged(index: Option<nat>, event: Completion)

  /** One item of the event stream. */
  datatype StreamItem = Arrived(event: StreamEvent) | Broken(message: string) {
    predicate Ends() { Broken? || event.MessageStop? }
  }

  type JsonParser = string -> Option<Json>

  /** The loop's tables.  Clock readings are not modelled, so anchors are a set. */
  datatype Tables = Tables(
    pending: map<nat, BlockKind>,
    inputs: map<nat, string>,
    anchors: set<nat>,
    texts: map<nat, string>,
    signatures: map<nat, string>,
    redacted: map<nat, string>,
    stopReason: Option<StopReason>)

  const EMPTY_TABLES := Tables(map[], map[], {}, map[], map[], map[], None)

  function Lookup<V>(m: map<nat, V>, k: nat): Option<V> {
    if k in m then Some(m[k]) else None
  }

  /** `Some(text)` unless the text is empty. */
  function NonEmpty(s: string): Option<string> {
    if s == "" then None else Some(s)
  }

  function Reports(usage: Option<string>): seq<Tagged> {
    if usage.Some? then [Tagged(None, UsageReport(usage.value))] else []
  }

  // ---------------------------------------------------------------- one iteration

  function StepStart(t: Tables, k: nat, kind: BlockKind): (Tables, seq<Tagged>) {
    var started := t.(pending := t.pending[k := kind]);
    match kind
    case Thinking => (started.(anchors := t.anchors + {k}), [Tagged(Some(k), ThinkingStarted)])
    case RedactedThinking(data) => (started.(redacted := t.redacted[k := data]), [])
    case _ => (started, [])
  }

  function StepDelta(t: Tables, k: nat, delta: Delta): (Tables, seq<Tagged>) {
    match delta
    case TextDelta(text) => (t, [Tagged(Some(k), AssistantText(text))])
    case InputJsonDelta(piece) => (t.(inputs := t.inputs[k := Lookup(t.inputs, k).GetOr("") + piece]), [])
    case ThinkingDelta(text) =>
      (t.(anchors := t.anchors + {k}, texts := t.texts[k := Lookup(t.texts, k).GetOr("") + text]),
       (if k in t.anchors then [] else [Tagged(Some(k), ThinkingStarted)]) + [Tagged(Some(k), ThinkingText(text))])
    case SignatureDelta(signature) => (t.(signatures := t.signatures[k := signature]), [])
  }

  /** A shown indicator ends, and its reasoning is replayed. */
  function ThinkingClose(k: nat, anchored: bool, text: Option<string>, signature: Option<string>): seq<Tagged> {
    if anchored then
      [Tagged(Some(k), ThinkingEnded),
       Tagged(Some(k), ThinkingBlock(NonEmpty(text.GetOr("")), NonEmpty(signature.GetOr(""))))]
    else []
  }

  function RedactedClose(k: nat, data: Option<string>): seq<Tagged> {
    if data.Some? then [Tagged(Some(k), RedactedBlock(data.value))] else []
  }

  predicate IsTool(kind: Option<BlockKind>) {
    kind.Some? && kind.value.ToolUse?
  }

  /** A tool block turns its collected JSON text into a call; text that does not parse counts as `{}`. */
  function ToolClose(parse: JsonParser, k: nat, kind: Option<BlockKind>, input: Option<string>): seq<Tagged> {
    if IsTool(kind) then
      [Tagged(Some(k), ToolCall(kind.value.id, kind.value.name, parse(input.GetOr("")).GetOr(EMPTY_OBJECT)))]
    else []
  }

  function StepStop(parse: JsonParser, t: Tables, k: nat): (Tables, seq<Tagged>) {
    var kind := Lookup<BlockKind>(t.pending, k);
    (Tables(
       t.pending - {k},
       if IsTool(kind) then t.inputs - {k} else t.inputs,
       t.anchors - {k},
       if k in t.anchors then t.texts - {k} else t.texts,
       if k in t.anchors then t.signatures - {k} else t.signatures,
       t.redacted - {k},
       t.stopReason),
     ThinkingClose(k, k in t.anchors, Lookup(t.texts, k), Lookup(t.signatures, k))
     + RedactedClose(k, Lookup(t.redacted, k))
     + ToolClose(parse, k, kind, Lookup(t.inputs, k)))
  }

  function Step(parse: JsonParser, t: Tables, ev: StreamEvent): (Tables, seq<Tagged>) {
    match ev
    case MessageStart(usage) => (t, Reports(usage))
    case BlockStart(k, kind) => StepStart(t, k, kind)
    case BlockDelta(k, delta) => StepDelta(t, k, delta)
    case BlockStop(k) => StepStop(parse, t, k)
    case MessageDelta(reason, usage) =>
      (if reason.Some? then t.(stopReason := Some(FromProvider(reason.value))) else t, Reports(usage))
    case MessageStop => (t, [Tagged(None, TurnComplete(t.stopReason.GetOr(Natural)))])
  }

  /** The loop over a stream: it ends after a failure, after `MessageStop`, or with the stream. */
  function Translate(parse: JsonParser, t: Tables, items: seq<StreamItem>): seq<Tagged>
    decreases |items|
  {
    if items == [] then []
    else match items[0]
      case Broken(m) => [Tagged(None, Failure(m))]
      case Arrived(ev) =>
        var (t', out) := Step(parse, t, ev);
        if ev.MessageStop? then out else out + Translate(parse, t', items[1..])
  }

  // ---------------------------------------------------------------- the imperative loop

  class Translator {
    const parse: JsonParser
    var pending: map<nat, BlockKind>
    var inputs: map<nat, string>
    var anchors: set<nat>
    var texts: map<nat, string>
    var signatures: map<nat, string>
    var redacted: map<nat, string>
    var stopReason: Option<StopReason>

    constructor (parse: JsonParser)
      ensures Current() == EMPTY_TABLES && this.parse == parse
    {
      this.parse := parse;
      pending, inputs, anchors, texts, signatures, redacted, stopReason := map[], map[], {}, map[], map[], map[], None;
    }

    function Current(): Tables
      reads this
    {
      Tables(pending, inputs, anchors, texts, signatures, redacted, stopReason)
    }

    method OnStart(k: nat, kind: BlockKind) returns (out: seq<Tagged>)
      modifies this
      ensures (Current(), out) == StepStart(old(Current()), k, kind)
    {
      out := [];
      match kind {
        case Thinking =>
          anchors := anchors + {k};
          out := [Tagged(Some(k), ThinkingStarted)];
        case RedactedThinking(data) =>
          redacted := redacted[k := data];
        case _ =>
      }
      pending := pending[k := kind];
    }

    method OnDelta(k: nat, delta: Delta) returns (out: seq<Tagged>)
      modifies this
      ensures (Current(), out) == StepDelta(old(Current()), k, delta)
    {
      out := [];
      match delta {
        case TextDelta(text) =>
          out := [Tagged(Some(k), AssistantText(text))];
        case InputJsonDelta(piece) =>
          inputs := inputs[k := Lookup(inputs, k).GetOr("") + piece];
        case ThinkingDelta(text) =>
          assert k in anchors ==> anchors + {k} == anchors;
          if k !in anchors {
            anchors := anchors + {k};
            out := [Tagged(Some(k), ThinkingStarted)];
          }
          texts := texts[k := Lookup(texts, k).GetOr("") + text];
          out := out + [Tagged(Some(k), ThinkingText(text))];
        case SignatureDelta(signature) =>
          signatures := signatures[k := signature];
      }
    }

    method OnStop(k: nat) returns (out: seq<Tagged>)
      modifies this
      ensures (Current(), out) == StepStop(parse, old(Current()), k)
    {
      out := [];
      assert k !in anchors ==> anchors - {k} == anchors;
      assert k !in redacted ==> redacted - {k} == redacted;
      if k in anchors {
        anchors := anchors - {k};
        var text := NonEmpty(Lookup(texts, k).GetOr(""));
        texts := texts - {k};
        var signature := NonEmpty(Lookup(signatures, k).GetOr(""));
        signatures := signatures - {k};
        out := [Tagged(Some(k), ThinkingEnded), Tagged(Some(k), ThinkingBlock(text, signature))];
      }
      assert out + [] == out;
      if k in redacted {
        out := out + [Tagged(Some(k), RedactedBlock(redacted[k]))];
        redacted := redacted - {k};
      }
      assert out + [] == out;
      var kind := Lookup(pending, k);
      pending := pending - {k};
      if kind.Some? && kind.value.ToolUse? {
        var json := Lookup(inputs, k).GetOr("");
        inputs := inputs - {k};
        out := out + [Tagged(Some(k), ToolCall(kind.value.id, kind.value.name, parse(json).GetOr(EMPTY_OBJECT)))];
      }
    }

    method OnEvent(ev: StreamEvent) returns (out: seq<Tagged>)
      modifies this
      ensures (Current(), out) == Step(parse, old(Current()), ev)
    {
      match ev {
        case MessageStart(usage) =>
          out := Reports(usage);
        case BlockStart(k, kind) =>
          out := OnStart(k, kind);
        case BlockDelta(k, delta) =>
          out := OnDelta(k, delta);
        case BlockStop(k) =>
          out := OnStop(k);
        case MessageDelta(reason, usage) =>
          if reason.Some? {
            stopReason := Some(FromProvider(reason.value));
          }
          out := Reports(usage);
        case MessageStop =>
          out := [Tagged(None, TurnComplete(stopReason.GetOr(Natural)))];
      }
    }
  }
}
