/**
 The wire shapes of the Anthropic messages, field by field: exactly which JSON values the decoder
 accepts, and as what, and which fields the encoder writes.
 */
module AnthropicShapes {
  import opened Options
  import opened Json
  import opened Messages
  import opened AnthropicMessages

  /** The field is there and holds this value. */
  predicate Has(value: Json, key: string, field: Json) {
    value.Obj? && key in value.fields && value.fields[key] == field
  }

  /** The string in a field, if the field is there and holds one that is not empty. */
  function FilledIn(value: Json, key: string): Option<string> {
    if value.Obj? && key in value.fields && value.fields[key].Str? && value.fields[key].s != "" then Some(value.fields[key].s) else None
  }

  /** The block has a source with this media type and data; what else the source says is not looked at. */
  predicate HasSource(block: Json, mediaType: string, data: string) {
    && block.Obj? && "source" in block.fields
    && Has(block.fields["source"], "media_type", Str(mediaType)) && Has(block.fields["source"], "data", Str(data))
  }

  /** What a JSON value has to look like to be read as block `b`. */
  predicate Shows(block: Json, b: ContentBlock) {
    match b
    case Text(text) => Has(block, "type", Str("text")) && Has(block, "text", Str(text))
    case ToolUse(id, name, input) =>
      && Has(block, "type", Str("tool_use")) && Has(block, "id", Str(id)) && Has(block, "name", Str(name)) && Has(block, "input", input)
    case ToolResult(id, output, isError) =>
      && Has(block, "type", Str("tool_result")) && Has(block, "tool_use_id", Str(id)) && Has(block, "content", Str(output))
      && isError == Has(block, "is_error", Bool(true))
    case Thinking(thinking, signature) =>
      Has(block, "type", Str("thinking")) && thinking == FilledIn(block, "thinking") && signature == FilledIn(block, "signature")
    case RedactedThinking(blob) => Has(block, "type", Str("redacted_thinking")) && Has(block, "data", Str(blob))
    case Image(mediaType, data) => Has(block, "type", Str("image")) && HasSource(block, mediaType, data)
    case Document(mediaType, data, title) =>
      && Has(block, "type", Str("document")) && HasSource(block, mediaType, data)
      && match title
         case Some(given) => Has(block, "title", Str(given))
         case None => !(block.Obj? && "title" in block.fields && block.fields["title"].Str?)
  }

  lemma {:induction false} HasIs(value: Json, key: string, s: string)
    ensures value.GetStr(key) == Some(s) <==> Has(value, key, Str(s))
  {
  }

  lemma {:induction false} FlagIs(value: Json)
    ensures value.GetBool("is_error").GetOr(false) == Has(value, "is_error", Bool(true))
  {
  }

  lemma {:induction false} FilledInIs(value: Json, key: string)
    ensures NonEmptyStr(value, key) == FilledIn(value, key)
  {
  }

  lemma {:induction false} SourceIs(block: Json, mediaType: string, data: string)
    ensures ParseBase64Source(block) == Ok((mediaType, data)) <==> HasSource(block, mediaType, data)
  {
  }

  /** The name of a kind on the wire. */
  function WireName(kind: Kind): string {
    match kind
    case TextKind => "text"
    case ToolUseKind => "tool_use"
    case ToolResultKind => "tool_result"
    case ThinkingKind => "thinking"
    case RedactedKind => "redacted_thinking"
    case ImageKind => "image"
    case DocumentKind => "document"
  }

  lemma {:induction false} NamesAreDifferent()
    ensures |"text"| == 4 && |"tool_use"| == 8 && |"tool_result"| == 11 && |"thinking"| == 8 && |"redacted_thinking"| == 17
    ensures |"image"| == 5 && |"document"| == 8
    ensures "tool_use"[1] == 'o' && "thinking"[1] == 'h' && "document"[1] == 'o' && "tool_use"[0] == 't' && "document"[0] == 'd'
  {
  }

  lemma {:induction false} KindNamedIff(name: string, kind: Kind)
    ensures KindNamed(name) == Some(kind) <==> name == WireName(kind)
  {
    NamesAreDifferent();
  }

  lemma {:induction false} TextParsesIff(block: Json, b: ContentBlock)
    requires Has(block, "type", Str("text"))
    ensures ParseText(block) == Ok(b) <==> b.Text? && Shows(block, b)
  {
    if b.Text? {
      HasIs(block, "text", b.text);
    }
  }

  lemma {:induction false} ToolUseParsesIff(block: Json, b: ContentBlock)
    requires Has(block, "type", Str("tool_use"))
    ensures ParseToolUse(block) == Ok(b) <==> b.ToolUse? && Shows(block, b)
  {
    if b.ToolUse? {
      HasIs(block, "id", b.id);
      HasIs(block, "name", b.name);
    }
  }

  lemma {:induction false} ToolResultParsesIff(block: Json, b: ContentBlock)
    requires Has(block, "type", Str("tool_result"))
    ensures ParseToolResult(block) == Ok(b) <==> b.ToolResult? && Shows(block, b)
  {
    FlagIs(block);
    if b.ToolResult? {
      HasIs(block, "tool_use_id", b.toolUseId);
      HasIs(block, "content", b.output);
    }
  }

  lemma {:induction false} ThinkingParsesIff(block: Json, b: ContentBlock)
    requires Has(block, "type", Str("thinking"))
    ensures ParseThinking(block) == Ok(b) <==> b.Thinking? && Shows(block, b)
  {
    FilledInIs(block, "thinking");
    FilledInIs(block, "signature");
  }

  lemma {:induction false} RedactedThinkingParsesIff(block: Json, b: ContentBlock)
    requires Has(block, "type", Str("redacted_thinking"))
    ensures ParseRedacted(block) == Ok(b) <==> b.RedactedThinking? && Shows(block, b)
  {
    if b.RedactedThinking? {
      HasIs(block, "data", b.blob);
    }
  }

  lemma {:induction false} ImageParsesIff(block: Json, b: ContentBlock)
    requires Has(block, "type", Str("image"))
    ensures ParseImage(block) == Ok(b) <==> b.Image? && Shows(block, b)
  {
    if b.Image? {
      SourceIs(block, b.mediaType, b.data);
    }
  }

  lemma {:induction false} TitleIs(block: Json, title: Option<string>)
    ensures block.GetStr("title") == title <==>
              match title
              case Some(given) => Has(block, "title", Str(given))
              case None => !(block.Obj? && "title" in block.fields && block.fields["title"].Str?)
  {
  }

  lemma {:induction false} DocumentParsesIff(block: Json, b: ContentBlock)
    requires Has(block, "type", Str("document"))
    ensures ParseDocument(block) == Ok(b) <==> b.Document? && Shows(block, b)
  {
    if b.Document? {
      SourceIs(block, b.mediaType, b.data);
      TitleIs(block, b.title);
    }
  }

  lemma {:induction false} ParsesAsIff(kind: Kind, block: Json, b: ContentBlock)
    requires Has(block, "type", Str(WireName(kind)))
    ensures ParseAs(kind, block) == Ok(b) <==> kind == KindOf(b) && Shows(block, b)
  {
    match kind
    case TextKind => TextParsesIff(block, b);
    case ToolUseKind => ToolUseParsesIff(block, b);
    case ToolResultKind => ToolResultParsesIff(block, b);
    case ThinkingKind => ThinkingParsesIff(block, b);
    case RedactedKind => RedactedThinkingParsesIff(block, b);
    case ImageKind => ImageParsesIff(block, b);
    case DocumentKind => DocumentParsesIff(block, b);
  }

  lemma {:induction false} ShowsItsKind(block: Json, b: ContentBlock)
    requires Shows(block, b)
    ensures Has(block, "type", Str(WireName(KindOf(b))))
  {
  }

  /** The decoder reads a value as a block exactly when the value has the block's shape. */
  lemma {:induction false} BlockParsesIff(block: Json, b: ContentBlock)
    ensures ParseContentBlock(block) == Ok(b) <==> Shows(block, b)
  {
    if Shows(block, b) {
      ShowsItsKind(block, b);
      KindNamedIff(WireName(KindOf(b)), KindOf(b));
      ParsesAsIff(KindOf(b), block, b);
    } else if ParseContentBlock(block) == Ok(b) {
      var name := block.GetStr("type").value;
      var kind := KindNamed(name).value;
      KindNamedIff(name, kind);
      ParsesAsIff(kind, block, b);
    }
  }

  /** Each value has the shape of the block at its place. */
  ghost predicate ShowAll(values: seq<Json>, blocks: seq<ContentBlock>) {
    |values| == |blocks| && forall i :: 0 <= i < |values| ==> Shows(values[i], blocks[i])
  }

  lemma {:induction false} BlocksParseIff(values: seq<Json>, blocks: seq<ContentBlock>)
    ensures ParseContentBlocks(values) == Ok(blocks) <==> ShowAll(values, blocks)
  {
    if values != [] && blocks != [] {
      BlockParsesIff(values[0], blocks[0]);
      BlocksParseIff(values[1..], blocks[1..]);
      assert blocks == [blocks[0]] + blocks[1..];
      assert ShowAll(values, blocks) <==> Shows(values[0], blocks[0]) && ShowAll(values[1..], blocks[1..]) by {
        assert forall i :: 0 <= i < |values| - 1 ==> values[1..][i] == values[i + 1];
        assert forall i :: 0 <= i < |blocks| - 1 ==> blocks[1..][i] == blocks[i + 1];
        assert forall i :: 0 < i < |values| && i < |blocks| ==> values[i] == values[1..][i - 1] && blocks[i] == blocks[1..][i - 1];
      }
    }
  }

  /** One `tool_result` block whose content is an array, not a string. */
  predicate IsTranscriptLevel(content: seq<Json>) {
    |content| == 1 && Has(content[0], "type", Str("tool_result")) && content[0].GetArr("content").Some?
  }

  /** What a JSON value has to look like to be read as message `m`. */
  ghost predicate ShowsMessage(value: Json, m: Message) {
    match m
    case System(_) => false
    case User(blocks) =>
      Has(value, "role", Str("user")) && exists content ::
        Has(value, "content", Arr(content)) && !IsTranscriptLevel(content) && ShowAll(content, blocks)
    case Assistant(blocks) =>
      Has(value, "role", Str("assistant")) && exists content :: Has(value, "content", Arr(content)) && ShowAll(content, blocks)
    case ToolResultMessage(id, blocks, isError) =>
      Has(value, "role", Str("user")) && exists result, inner ::
        && Has(value, "content", Arr([result])) && Has(result, "type", Str("tool_result")) && Has(result, "content", Arr(inner))
        && Has(result, "tool_use_id", Str(id)) && isError == Has(result, "is_error", Bool(true)) && ShowAll(inner, blocks)
  }

  lemma {:induction false} ContentIs(value: Json, key: string, content: seq<Json>)
    ensures value.GetArr(key) == Some(content) <==> Has(value, key, Arr(content))
  {
  }

  lemma {:induction false} TranscriptLevelIff(content: seq<Json>, id: string, blocks: seq<ContentBlock>, isError: bool)
    ensures TryDecodeToolResult(content) == Ok(None) <==> !IsTranscriptLevel(content)
    ensures TryDecodeToolResult(content) == Ok(Some(ToolResultMessage(id, blocks, isError))) <==>
              && IsTranscriptLevel(content) && Has(content[0], "tool_use_id", Str(id))
              && isError == Has(content[0], "is_error", Bool(true)) && ShowAll(content[0].GetArr("content").value, blocks)
  {
    if |content| == 1 {
      HasIs(content[0], "type", "tool_result");
      if IsTranscriptLevel(content) {
        HasIs(content[0], "tool_use_id", id);
        FlagIs(content[0]);
        BlocksParseIff(content[0].GetArr("content").value, blocks);
      }
    }
  }

  lemma {:induction false} UserParsesIff(value: Json, content: seq<Json>, blocks: seq<ContentBlock>)
    requires Has(value, "role", Str("user")) && Has(value, "content", Arr(content))
    ensures ParseMessage(value) == Ok(User(blocks)) <==> !IsTranscriptLevel(content) && ShowAll(content, blocks)
  {
    HasIs(value, "role", "user");
    ContentIs(value, "content", content);
    TranscriptLevelIff(content, "", [], false);
    BlocksParseIff(content, blocks);
    match TryDecodeToolResult(content)
    case Ok(Some(m)) => DecodedIsResult(content, m);
    case _ =>
  }

  lemma {:induction false} DecodedIsResult(content: seq<Json>, m: Message)
    requires TryDecodeToolResult(content) == Ok(Some(m))
    ensures m.ToolResultMessage?
  {
  }

  lemma {:induction false} ResultParsesIff(value: Json, content: seq<Json>, id: string, blocks: seq<ContentBlock>, isError: bool)
    requires Has(value, "role", Str("user")) && Has(value, "content", Arr(content))
    ensures ParseMessage(value) == Ok(ToolResultMessage(id, blocks, isError)) <==>
              && IsTranscriptLevel(content) && Has(content[0], "tool_use_id", Str(id))
              && isError == Has(content[0], "is_error", Bool(true)) && ShowAll(content[0].GetArr("content").value, blocks)
  {
    HasIs(value, "role", "user");
    ContentIs(value, "content", content);
    TranscriptLevelIff(content, id, blocks, isError);
  }

  lemma {:induction false} AssistantParsesIff(value: Json, content: seq<Json>, blocks: seq<ContentBlock>)
    requires Has(value, "role", Str("assistant")) && Has(value, "content", Arr(content))
    ensures ParseMessage(value) == Ok(Assistant(blocks)) <==> ShowAll(content, blocks)
  {
    HasIs(value, "role", "assistant");
    ContentIs(value, "content", content);
    BlocksParseIff(content, blocks);
    assert |"user"| == 4 && |"assistant"| == 9;
  }

  /** Nothing parses without one of the two roles and a content array, and the role fixes the kind of message. */
  lemma {:induction false} ParsedHasRole(value: Json, m: Message) returns (content: seq<Json>)
    requires ParseMessage(value) == Ok(m)
    ensures Has(value, "content", Arr(content))
    ensures if m.Assistant? then Has(value, "role", Str("assistant")) else !m.System? && Has(value, "role", Str("user"))
  {
    content := value.GetArr("content").value;
    ContentIs(value, "content", content);
    HasIs(value, "role", "user");
    HasIs(value, "role", "assistant");
    match TryDecodeToolResult(content)
    case Ok(Some(decoded)) => DecodedIsResult(content, decoded);
    case _ =>
  }

  /** The decoder reads a value as a message exactly when the value has the message's shape. */
  lemma {:induction false} MessageParsesIff(value: Json, m: Message)
    ensures ParseMessage(value) == Ok(m) <==> ShowsMessage(value, m)
  {
    if ParseMessage(value) == Ok(m) {
      var content := ParsedHasRole(value, m);
      ShowsWhenParsed(value, m, content);
    }
    if ShowsMessage(value, m) {
      ParsesWhenShown(value, m);
    }
  }

  lemma {:induction false} ShowsWhenParsed(value: Json, m: Message, content: seq<Json>)
    requires ParseMessage(value) == Ok(m) && Has(value, "content", Arr(content))
    requires if m.Assistant? then Has(value, "role", Str("assistant")) else !m.System? && Has(value, "role", Str("user"))
    ensures ShowsMessage(value, m)
  {
    match m
    case System(_) =>
    case User(blocks) => UserParsesIff(value, content, blocks);
    case Assistant(blocks) => AssistantParsesIff(value, content, blocks);
    case ToolResultMessage(id, blocks, isError) =>
      ResultParsesIff(value, content, id, blocks, isError);
      var result := content[0];
      assert content == [result];
      ContentIs(result, "content", result.GetArr("content").value);
  }

  lemma {:induction false} ParsesWhenShown(value: Json, m: Message)
    requires ShowsMessage(value, m)
    ensures ParseMessage(value) == Ok(m)
  {
    match m
    case System(_) =>
    case User(blocks) =>
      var content :| Has(value, "content", Arr(content)) && !IsTranscriptLevel(content) && ShowAll(content, blocks);
      UserParsesIff(value, content, blocks);
    case Assistant(blocks) =>
      var content :| Has(value, "content", Arr(content)) && ShowAll(content, blocks);
      AssistantParsesIff(value, content, blocks);
    case ToolResultMessage(id, blocks, isError) =>
      var result, inner :|
        && Has(value, "content", Arr([result])) && Has(result, "type", Str("tool_result")) && Has(result, "content", Arr(inner))
        && Has(result, "tool_use_id", Str(id)) && isError == Has(result, "is_error", Bool(true)) && ShowAll(inner, blocks);
      ContentIs(result, "content", inner);
      ResultParsesIff(value, [result], id, blocks, isError);
  }

  // ---------------------------------------------------------------- what the encoder writes

  /** The fields that a block is written with, and no others. */
  function FieldNames(b: ContentBlock): set<string> {
    match b
    case Text(_) => {"type", "text"}
    case ToolUse(_, _, _) => {"type", "id", "name", "input"}
    case ToolResult(_, _, _) => {"type", "tool_use_id", "content", "is_error"}
    case Thinking(thinking, signature) =>
      {"type"} + (if thinking.Some? then {"thinking"} else {}) + (if signature.Some? then {"signature"} else {})
    case RedactedThinking(_) => {"type", "data"}
    case Image(_, _) => {"type", "source"}
    case Document(_, _, title) => {"type", "source"} + if title.Some? then {"title"} else {}
  }

  /** An encoded block has the shape of its block, exactly these fields, and a base64 source where it has one. */
  lemma {:induction false} EncodedShape(b: ContentBlock)
    ensures Shows(MapBlock(b), CanonicalBlock(b)) && MapBlock(b).Obj? && MapBlock(b).fields.Keys == FieldNames(b)
    ensures b.Image? || b.Document? ==>
              Has(MapBlock(b), "source", Obj(map["type" := Str("base64"), "media_type" := Str(b.mediaType), "data" := Str(b.data)]))
    ensures b.ToolResult? ==> Has(MapBlock(b), "is_error", Bool(b.isError))
  {
    BlockRoundTrip(b);
    BlockParsesIff(MapBlock(b), CanonicalBlock(b));
    EncodedFields(b);
  }

  lemma {:induction false} EncodedFields(b: ContentBlock)
    ensures MapBlock(b).Obj? && MapBlock(b).fields.Keys == FieldNames(b)
  {
  }

  /** An encoded message has exactly a role and its content. */
  lemma {:induction false} EncodedMessageShape(m: Message)
    ensures match MapMessage(m)
            case Ok(wire) => !m.System? && ShowsMessage(wire, CanonicalMessage(m)) && wire.Obj? && wire.fields.Keys == {"role", "content"}
            case Err(_) => m.System?
  {
    if !m.System? {
      MessageRoundTrip(m);
      MessageParsesIff(MapMessage(m).value, CanonicalMessage(m));
    }
  }
}
