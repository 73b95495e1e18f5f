/**
 The Anthropic message normalizer: the transcript to wire JSON and back.

 Tool results have two wire shapes.  A transcript-level result is a user message whose single
 `tool_result` block holds an array; an inline result block holds a string.  The round-trip
 theorem says that the decoder never takes one for the other.
 */
module AnthropicMessages {
  import opened Options
  import opened Sequences
  import opened Json
  import opened Messages

  // ---------------------------------------------------------------- blocks

  function Base64Source(mediaType: string, data: string): Json {
    Obj(map["type" := Str("base64"), "media_type" := Str(mediaType), "data" := Str(data)])
  }

  /** `fields` with one more entry when there is a value for it. */
  function WithOptional(fields: map<string, Json>, key: string, value: Option<string>): map<string, Json> {
    if value.Some? then fields[key := Str(value.value)] else fields
  }

  function MapBlock(b: ContentBlock): Json {
    match b
    case Text(text) => Obj(map["type" := Str("text"), "text" := Str(text)])
    case ToolUse(id, name, input) => Obj(map["type" := Str("tool_use"), "id" := Str(id), "name" := Str(name), "input" := input])
    case ToolResult(id, output, isError) =>
      Obj(map["type" := Str("tool_result"), "tool_use_id" := Str(id), "content" := Str(output), "is_error" := Bool(isError)])
    case Thinking(thinking, signature) =>
      Obj(WithOptional(WithOptional(map["type" := Str("thinking")], "thinking", thinking), "signature", signature))
    case RedactedThinking(blob) => Obj(map["type" := Str("redacted_thinking"), "data" := Str(blob)])
    case Image(mediaType, data) => Obj(map["type" := Str("image"), "source" := Base64Source(mediaType, data)])
    case Document(mediaType, data, title) =>
      Obj(WithOptional(map["type" := Str("document"), "source" := Base64Source(mediaType, data)], "title", title))
  }

  /** A string field, dropped when it is empty. */
  function NonEmptyStr(block: Json, key: string): Option<string> {
    match block.GetStr(key)
    case Some(s) => if s == "" then None else Some(s)
    case None => None
  }

  function ParseBase64Source(block: Json): Result<(string, string), string> {
    match block.Get("source")
    case None => Err("block missing 'source' field")
    case Some(source) =>
      match (source.GetStr("media_type"), source.GetStr("data"))
      case (None, _) => Err("source missing 'media_type' field")
      case (Some(_), None) => Err("source missing 'data' field")
      case (Some(mediaType), Some(data)) => Ok((mediaType, data))
  }

  function ParseText(block: Json): Result<ContentBlock, string> {
    match block.GetStr("text")
    case Some(text) => Ok(Text(text))
    case None => Err("text block missing 'text' field")
  }

  function ParseToolUse(block: Json): Result<ContentBlock, string> {
    match (block.GetStr("id"), block.GetStr("name"), block.Get("input"))
    case (None, _, _) => Err("tool_use block missing 'id' field")
    case (_, None, _) => Err("tool_use block missing 'name' field")
    case (_, _, None) => Err("tool_use block missing 'input' field")
    case (Some(id), Some(name), Some(input)) => Ok(ToolUse(id, name, input))
  }

  function ParseToolResult(block: Json): Result<ContentBlock, string> {
    match (block.GetStr("tool_use_id"), block.GetStr("content"))
    case (None, _) => Err("tool_result block missing 'tool_use_id' field")
    case (_, None) => Err("inline tool_result block 'content' must be a string")
    case (Some(id), Some(output)) => Ok(ToolResult(id, output, block.GetBool("is_error").GetOr(false)))
  }

  function ParseThinking(block: Json): Result<ContentBlock, string> {
    Ok(Thinking(NonEmptyStr(block, "thinking"), NonEmptyStr(block, "signature")))
  }

  function ParseRedacted(block: Json): Result<ContentBlock, string> {
    match block.GetStr("data")
    case Some(blob) => Ok(RedactedThinking(blob))
    case None => Err("redacted_thinking block missing 'data' field")
  }

  function ParseImage(block: Json): Result<ContentBlock, string> {
    match ParseBase64Source(block)
    case Ok((mediaType, data)) => Ok(Image(mediaType, data))
    case Err(e) => Err(e)
  }

  function ParseDocument(block: Json): Result<ContentBlock, string> {
    match ParseBase64Source(block)
    case Ok((mediaType, data)) => Ok(Document(mediaType, data, block.GetStr("title")))
    case Err(e) => Err(e)
  }

  datatype Kind = TextKind | ToolUseKind | ToolResultKind | ThinkingKind | RedactedKind | ImageKind | DocumentKind

  function KindNamed(name: string): Option<Kind> {
    if name == "text" then Some(TextKind)
    else if name == "tool_use" then Some(ToolUseKind)
    else if name == "tool_result" then Some(ToolResultKind)
    else if name == "thinking" then Some(ThinkingKind)
    else if name == "redacted_thinking" then Some(RedactedKind)
    else if name == "image" then Some(ImageKind)
    else if name == "document" then Some(DocumentKind)
    else None
  }

  function ParseAs(kind: Kind, block: Json): Result<ContentBlock, string> {
    match kind
    case TextKind => ParseText(block)
    case ToolUseKind => ParseToolUse(block)
    case ToolResultKind => ParseToolResult(block)
    case ThinkingKind => ParseThinking(block)
    case RedactedKind => ParseRedacted(block)
    case ImageKind => ParseImage(block)
    case DocumentKind => ParseDocument(block)
  }

  function ParseContentBlock(block: Json): Result<ContentBlock, string> {
    match block.GetStr("type")
    case None => Err("content block missing 'type' field")
    case Some(name) =>
      match KindNamed(name)
      case None => Err("unknown content block type")
      case Some(kind) => ParseAs(kind, block)
  }

  function MapBlocks(blocks: seq<ContentBlock>): seq<Json> {
    if blocks == [] then [] else [MapBlock(blocks[0])] + MapBlocks(blocks[1..])
  }

  /** All blocks, or the first failure. */
  function ParseContentBlocks(blocks: seq<Json>): Result<seq<ContentBlock>, string> {
    if blocks == [] then Ok([])
    else match ParseContentBlock(blocks[0])
      case Err(e) => Err(e)
      case Ok(b) =>
        match ParseContentBlocks(blocks[1..])
        case Err(e) => Err(e)
        case Ok(rest) => Ok([b] + rest)
  }

  // ---------------------------------------------------------------- messages

  function WireMessage(role: string, content: seq<Json>): Json {
    Obj(map["role" := Str(role), "content" := Arr(content)])
  }

  /** The `tool_result` block of a transcript-level result: its content is an array. */
  function TranscriptLevel(id: string, content: seq<Json>, isError: bool): Json {
    Obj(map["type" := Str("tool_result"), "tool_use_id" := Str(id), "content" := Arr(content), "is_error" := Bool(isError)])
  }

  function MapMessage(m: Message): Result<Json, string> {
    match m
    case System(_) => Err("Message::System must be extracted to the request top level")
    case User(content) => Ok(WireMessage("user", MapBlocks(content)))
    case Assistant(content) => Ok(WireMessage("assistant", MapBlocks(content)))
    case ToolResultMessage(id, content, isError) =>
      Ok(WireMessage("user", [TranscriptLevel(id, MapBlocks(content), isError)]))
  }

  /** The transcript-level result, if `content` is its encoding: one `tool_result` block that holds an array. */
  function TryDecodeToolResult(content: seq<Json>): Result<Option<Message>, string> {
    if |content| != 1 || content[0].GetStr("type") != Some("tool_result") then Ok(None)
    else match content[0].GetArr("content")
      case None => Ok(None)
      case Some(inner) =>
        match content[0].GetStr("tool_use_id")
        case None => Err("tool_result block missing 'tool_use_id'")
        case Some(id) =>
          match ParseContentBlocks(inner)
          case Err(e) => Err(e)
          case Ok(blocks) => Ok(Some(ToolResultMessage(id, blocks, content[0].GetBool("is_error").GetOr(false))))
  }

  function ParseMessage(obj: Json): Result<Message, string> {
    match obj.GetStr("role")
    case None => Err("message object missing 'role' field")
    case Some(role) =>
      if role == "user" then
        (match obj.GetArr("content")
         case None => Err("user message missing 'content' array")
         case Some(content) =>
           match TryDecodeToolResult(content)
           case Err(e) => Err(e)
           case Ok(Some(decoded)) => Ok(decoded)
           case Ok(None) =>
             match ParseContentBlocks(content)
             case Err(e) => Err(e)
             case Ok(blocks) => Ok(User(blocks)))
      else if role == "assistant" then
        (match obj.GetArr("content")
         case None => Err("assistant message missing 'content' array")
         case Some(content) =>
           match ParseContentBlocks(content)
           case Err(e) => Err(e)
           case Ok(blocks) => Ok(Assistant(blocks)))
      else Err("unknown message role")
  }

  function Encode(messages: seq<Message>): (r: Result<seq<Json>, string>)
    ensures r.Ok? ==> |r.value| == |messages|
  {
    if messages == [] then Ok([])
    else match MapMessage(messages[0])
      case Err(e) => Err(e)
      case Ok(wire) =>
        match Encode(messages[1..])
        case Err(e) => Err(e)
        case Ok(rest) => Ok([wire] + rest)
  }

  function Decode(items: seq<Json>): Result<seq<Message>, string> {
    if items == [] then Ok([])
    else match ParseMessage(items[0])
      case Err(e) => Err(e)
      case Ok(m) =>
        match Decode(items[1..])
        case Err(e) => Err(e)
        case Ok(rest) => Ok([m] + rest)
  }

  /** A failed decoding reports the first value that cannot be read. */
  lemma {:induction false} DecodingFailsWith(items: seq<Json>, i: nat)
    requires i < |items| && ParseMessage(items[i]).Err? && forall j :: 0 <= j < i ==> ParseMessage(items[j]).Ok?
    ensures Decode(items) == Err(ParseMessage(items[i]).error)
  {
    if i > 0 {
      DecodingFailsWith(items[1..], i - 1);
    }
  }

  /** Pushes the wire form of each message in turn. */
  method ToProvider(messages: seq<Message>) returns (r: Result<Json, string>)
    ensures r == match Encode(messages)
                 case Ok(items) => Ok(Arr(items))
                 case Err(e) => Err(e)
  {
    var wire: seq<Json> := [];
    var i := 0;
    assert messages[0..] == messages;
    AfterEnds(Encode(messages), []);
    while i < |messages|
      invariant 0 <= i <= |messages|
      invariant Encode(messages) == After(wire, Encode(messages[i..]))
    {
      assert messages[i..][0] == messages[i] && messages[i..][1..] == messages[i + 1..];
      var next := MapMessage(messages[i]);
      if next.Err? {
        return Err(next.error);
      }
      AfterAfter(wire, [next.value], Encode(messages[i + 1..]));
      wire := wire + [next.value];
      i := i + 1;
    }
    assert messages[|messages|..] == [];
    AfterEnds(Encode([]), wire);
    return Ok(Arr(wire));
  }

  method FromProvider(value: Json) returns (r: Result<seq<Message>, string>)
    ensures r == if value.Arr? then Decode(value.items) else Err("expected a JSON array of Anthropic message objects")
  {
    if !value.Arr? {
      return Err("expected a JSON array of Anthropic message objects");
    }
    var items, messages: seq<Message> := value.items, [];
    var i := 0;
    assert items[0..] == items;
    AfterEnds(Decode(items), []);
    while i < |items|
      invariant 0 <= i <= |items|
      invariant Decode(items) == After(messages, Decode(items[i..]))
    {
      assert items[i..][0] == items[i] && items[i..][1..] == items[i + 1..];
      var next := ParseMessage(items[i]);
      if next.Err? {
        return Err(next.error);
      }
      AfterAfter(messages, [next.value], Decode(items[i + 1..]));
      messages := messages + [next.value];
      i := i + 1;
    }
    assert items[|items|..] == [];
    AfterEnds(Decode([]), messages);
    return Ok(messages);
  }

  // ---------------------------------------------------------------- round trip

  /** Thinking text and signature that are empty strings collapse to nothing. */
  function CanonicalBlock(b: ContentBlock): ContentBlock {
    if b.Thinking? then
      Thinking(if b.thinking == Some("") then None else b.thinking, if b.signature == Some("") then None else b.signature)
    else b
  }

  function CanonicalBlocks(blocks: seq<ContentBlock>): seq<ContentBlock> {
    if blocks == [] then [] else [CanonicalBlock(blocks[0])] + CanonicalBlocks(blocks[1..])
  }

  function CanonicalMessage(m: Message): Message {
    match m
    case System(_) => m
    case User(content) => User(CanonicalBlocks(content))
    case Assistant(content) => Assistant(CanonicalBlocks(content))
    case ToolResultMessage(id, content, isError) => ToolResultMessage(id, CanonicalBlocks(content), isError)
  }

  function CanonicalMessages(messages: seq<Message>): seq<Message> {
    if messages == [] then [] else [CanonicalMessage(messages[0])] + CanonicalMessages(messages[1..])
  }

  function KindOf(b: ContentBlock): Kind {
    match b
    case Text(_) => TextKind
    case ToolUse(_, _, _) => ToolUseKind
    case ToolResult(_, _, _) => ToolResultKind
    case Thinking(_, _) => ThinkingKind
    case RedactedThinking(_) => RedactedKind
    case Image(_, _) => ImageKind
    case Document(_, _, _) => DocumentKind
  }

  /** The `type` field tells the decoder which kind of block was encoded. */
  lemma {:induction false} EncodedKind(b: ContentBlock)
    ensures MapBlock(b).GetStr("type").Some? && KindNamed(MapBlock(b).GetStr("type").value) == Some(KindOf(b))
    ensures MapBlock(b).GetStr("type") == Some("tool_result") <==> b.ToolResult?
  {
  }

  lemma {:induction false} ToolUseRoundTrip(b: ContentBlock)
    requires b.ToolUse?
    ensures ParseToolUse(MapBlock(b)) == Ok(b)
  {
  }

  lemma {:induction false} ToolResultRoundTrip(b: ContentBlock)
    requires b.ToolResult?
    ensures ParseToolResult(MapBlock(b)) == Ok(b)
  {
  }

  lemma {:induction false} ThinkingRoundTrip(b: ContentBlock)
    requires b.Thinking?
    ensures ParseThinking(MapBlock(b)) == Ok(CanonicalBlock(b))
  {
    assert MapBlock(b).GetStr("thinking") == b.thinking && MapBlock(b).GetStr("signature") == b.signature;
  }

  lemma {:induction false} MediaRoundTrip(b: ContentBlock)
    requires b.Image? || b.Document?
    ensures ParseAs(KindOf(b), MapBlock(b)) == Ok(b)
  {
    SourceRoundTrip(MapBlock(b), b.mediaType, b.data);
    if b.Document? {
      assert MapBlock(b).GetStr("title") == b.title;
    }
  }

  lemma {:induction false} SourceRoundTrip(block: Json, mediaType: string, data: string)
    requires block.Get("source") == Some(Base64Source(mediaType, data))
    ensures ParseBase64Source(block) == Ok((mediaType, data))
  {
  }

  lemma {:induction false} BlockRoundTrip(b: ContentBlock)
    ensures ParseContentBlock(MapBlock(b)) == Ok(CanonicalBlock(b))
  {
    EncodedKind(b);
    match b
    case Text(_) =>
    case ToolUse(_, _, _) => ToolUseRoundTrip(b);
    case ToolResult(_, _, _) => ToolResultRoundTrip(b);
    case Thinking(_, _) => ThinkingRoundTrip(b);
    case RedactedThinking(_) =>
    case Image(_, _) => MediaRoundTrip(b);
    case Document(_, _, _) => MediaRoundTrip(b);
  }

  lemma {:induction false} BlocksRoundTrip(blocks: seq<ContentBlock>)
    ensures ParseContentBlocks(MapBlocks(blocks)) == Ok(CanonicalBlocks(blocks)) && |MapBlocks(blocks)| == |blocks|
  {
    if blocks != [] {
      BlockRoundTrip(blocks[0]);
      BlocksRoundTrip(blocks[1..]);
      assert MapBlocks(blocks)[1..] == MapBlocks(blocks[1..]);
    }
  }

  /** An inline result holds a string, so a user message is never taken for a transcript-level result. */
  lemma {:induction false} InlineIsNotTranscriptLevel(content: seq<ContentBlock>)
    ensures TryDecodeToolResult(MapBlocks(content)) == Ok(None)
  {
    BlocksRoundTrip(content);
    if |content| == 1 {
      assert MapBlocks(content)[0] == MapBlock(content[0]);
      EncodedKind(content[0]);
      if content[0].ToolResult? {
        assert MapBlock(content[0]).Get("content") == Some(Str(content[0].output));
      }
    }
  }

  lemma {:induction false} WireFields(role: string, content: seq<Json>)
    ensures WireMessage(role, content).GetStr("role") == Some(role)
    ensures WireMessage(role, content).GetArr("content") == Some(content)
  {
  }

  lemma {:induction false} TranscriptLevelIsDecoded(id: string, content: seq<Json>, isError: bool, blocks: seq<ContentBlock>)
    requires ParseContentBlocks(content) == Ok(blocks)
    ensures TryDecodeToolResult([TranscriptLevel(id, content, isError)]) == Ok(Some(ToolResultMessage(id, blocks, isError)))
  {
    var block := TranscriptLevel(id, content, isError);
    assert block.GetStr("type") == Some("tool_result") && block.GetArr("content") == Some(content);
    assert block.GetStr("tool_use_id") == Some(id) && block.GetBool("is_error") == Some(isError);
  }

  lemma {:induction false} MessageRoundTrip(m: Message)
    requires !m.System?
    ensures MapMessage(m).Ok? && ParseMessage(MapMessage(m).value) == Ok(CanonicalMessage(m))
  {
    BlocksRoundTrip(m.content);
    match m
    case User(content) =>
      WireFields("user", MapBlocks(content));
      InlineIsNotTranscriptLevel(content);
    case Assistant(content) =>
      WireFields("assistant", MapBlocks(content));
    case ToolResultMessage(id, content, isError) =>
      WireFields("user", [TranscriptLevel(id, MapBlocks(content), isError)]);
      TranscriptLevelIsDecoded(id, MapBlocks(content), isError, CanonicalBlocks(content));
  }

  /** Every transcript without a system message decodes to itself, up to empty thinking fields. */
  lemma {:induction false} TranscriptRoundTrip(messages: seq<Message>)
    requires forall m :: m in messages ==> !m.System?
    ensures Encode(messages).Ok? && Decode(Encode(messages).value) == Ok(CanonicalMessages(messages))
  {
    if messages != [] {
      assert messages[0] in messages;
      MessageRoundTrip(messages[0]);
      TranscriptRoundTrip(messages[1..]);
      assert Encode(messages).value[1..] == Encode(messages[1..]).value;
    }
  }

  /** Encoding fails exactly when there is a system message, wherever it stands. */
  lemma {:induction false} SystemNeverEncodes(messages: seq<Message>)
    ensures Encode(messages).Err? <==> exists m :: m in messages && m.System?
    ensures Encode(messages).Err? ==> Encode(messages) == Err("Message::System must be extracted to the request top level")
  {
    if messages != [] {
      SystemNeverEncodes(messages[1..]);
      assert forall m :: m in messages <==> m == messages[0] || m in messages[1..];
    }
  }
}
