/**
 Gemini contents back to a transcript.  Calls carry no ids on the wire, so decoded calls get stub
 ids; the theorem says which transcripts come back, and as what.
 */
module GeminiDecoding {
  import opened Options
  import opened Sequences
  import opened Json
  import opened Messages
  import opened ToolCallOrder
  import opened GeminiMessages
  import opened GeminiEncoding

  const PDF := "application/pdf"

  function StubId(index: nat): string {
    "gemini-call-stub-" + Decimal(index)
  }

  function MediaOfPart(mediaType: string, data: string): ContentBlock {
    if mediaType == PDF then Document(mediaType, data, None) else Image(mediaType, data)
  }

  function ParsePart(part: WirePart, index: nat): Result<ContentBlock, string> {
    match part
    case TextPart(text) => Ok(Text(text))
    case CallPart(name, args) => Ok(ContentBlock.ToolUse(StubId(index), name, args))
    case InlinePart(mediaType, data) => Ok(MediaOfPart(mediaType, data))
    case ResponsePart(_, _) => Err("unsupported part type")
  }

  /** All parts, numbered from `index`, or the first failure. */
  function ParseParts(parts: seq<WirePart>, index: nat): Result<seq<ContentBlock>, string>
    decreases |parts|
  {
    if parts == [] then Ok([])
    else match ParsePart(parts[0], index)
      case Err(e) => Err(e)
      case Ok(b) => After([b], ParseParts(parts[1..], index + 1))
  }

  function DecodeContent(content: WireContent): Result<Message, string> {
    match ParseParts(content.parts, 0)
    case Err(e) => Err(e)
    case Ok(blocks) => Ok(if content.role.UserRole? then User(blocks) else Assistant(blocks))
  }

  function Decode(contents: seq<WireContent>): Result<seq<Message>, string> {
    if contents == [] then Ok([])
    else match DecodeContent(contents[0])
      case Err(e) => Err(e)
      case Ok(m) => After([m], Decode(contents[1..]))
  }

  method FromProvider(contents: seq<WireContent>) returns (r: Result<seq<Message>, string>)
    ensures r == Decode(contents)
  {
    var messages: seq<Message> := [];
    var i := 0;
    assert contents[0..] == contents;
    AfterEnds(Decode(contents), []);
    while i < |contents|
      invariant 0 <= i <= |contents|
      invariant Decode(contents) == After(messages, Decode(contents[i..]))
    {
      assert contents[i..][0] == contents[i] && contents[i..][1..] == contents[i + 1..];
      var next := DecodeContent(contents[i]);
      if next.Err? {
        return Err(next.error);
      }
      AfterAfter(messages, [next.value], Decode(contents[i + 1..]));
      messages := messages + [next.value];
      i := i + 1;
    }
    assert contents[|contents|..] == [];
    AfterEnds(Decode([]), messages);
    return Ok(messages);
  }

  /** A failed decoding reports the first content that cannot be read. */
  lemma {:induction false} DecodingFailsWith(contents: seq<WireContent>, i: nat)
    requires i < |contents| && DecodeContent(contents[i]).Err? && forall j :: 0 <= j < i ==> DecodeContent(contents[j]).Ok?
    ensures Decode(contents) == Err(DecodeContent(contents[i]).error)
  {
    if i > 0 {
      DecodingFailsWith(contents[1..], i - 1);
    }
  }

  // ---------------------------------------------------------------- what comes back

  /** A stub id is never taken for a recorded one. */
  lemma {:induction false} StubIdIsNotRecorded(index: nat)
    ensures ParseToolUseId(StubId(index)) == None
  {
    var rest := "stub" + "-" + Decimal(index);
    assert StubId(index) == ID_PREFIX + rest && StubId(index)[|ID_PREFIX|..] == rest;
    FirstDashAfter("stub", Decimal(index));
    assert rest[..4] == "stub" && 's' in "stub" && !IsDigit('s');
    assert ParseUsize("stub") == None;
  }

  /** Calls of one message get different stub ids. */
  lemma {:induction false} StubIdsDistinct(i: nat, j: nat)
    ensures StubId(i) == StubId(j) <==> i == j
  {
    ValueOfDecimal(i);
    ValueOfDecimal(j);
    assert StubId(i)[|"gemini-call-stub-"|..] == Decimal(i) && StubId(j)[|"gemini-call-stub-"|..] == Decimal(j);
  }

  /** What an assistant message says and calls; reasoning and media are gone, ids are stubs by position. */
  function AssistantBack(content: seq<ContentBlock>, index: nat): seq<ContentBlock>
    decreases |content|
  {
    if content == [] then []
    else match content[0]
      case Text(text) => [Text(text)] + AssistantBack(content[1..], index + 1)
      case ToolUse(_, name, input) =>
        [ContentBlock.ToolUse("gemini-call-stub-" + Decimal(index), name, input)] + AssistantBack(content[1..], index + 1)
      case _ => AssistantBack(content[1..], index)
  }

  /** What one block of a user message comes back as; a document loses its title, and is an image unless it is a PDF. */
  function UserBlockBack(b: ContentBlock): seq<ContentBlock> {
    match b
    case Text(text) => [Text(text)]
    case Image(mediaType, data) =>
      [if mediaType == "application/pdf" then Document(mediaType, data, None) else Image(mediaType, data)]
    case Document(mediaType, data, _) =>
      [if mediaType == "application/pdf" then Document(mediaType, data, None) else Image(mediaType, data)]
    case _ => []
  }

  /** What a user message says and shows. */
  function UserBack(content: seq<ContentBlock>): seq<ContentBlock> {
    if content == [] then [] else UserBlockBack(content[0]) + UserBack(content[1..])
  }

  lemma {:induction false} AssistantComesBack(content: seq<ContentBlock>, index: nat)
    requires EncodeAssistantContent(content).Ok?
    ensures ParseParts(EncodeAssistantContent(content).value, index) == Ok(AssistantBack(content, index))
    decreases |content|
  {
    if content != [] {
      var parts := EncodeAssistantBlock(content[0]).value;
      var rest := EncodeAssistantContent(content[1..]).value;
      AssistantComesBack(content[1..], index + |parts|);
      assert parts == [] ==> parts + rest == rest;
      assert parts != [] ==> (parts + rest)[0] == parts[0] && (parts + rest)[1..] == rest;
    }
  }

  predicate HasResult(content: seq<ContentBlock>) {
    exists b :: b in content && b.ToolResult?
  }

  lemma {:induction false} HasResultFirst(content: seq<ContentBlock>)
    requires content != []
    ensures HasResult(content) <==> content[0].ToolResult? || HasResult(content[1..])
  {
    assert forall b :: b in content <==> b == content[0] || b in content[1..];
  }

  /** Parsing goes through the parts one after the other. */
  lemma {:induction false} ParsePartsFirst(part: WirePart, rest: seq<WirePart>, index: nat)
    ensures ParseParts([part] + rest, index) ==
              match ParsePart(part, index)
              case Err(e) => Err(e)
              case Ok(b) => After([b], ParseParts(rest, index + 1))
  {
    assert ([part] + rest)[1..] == rest;
  }

  /** A block of a user message becomes one part or none; a tool result becomes one that does not parse. */
  lemma {:induction false} UserBlockComesBack(b: ContentBlock, calls: Calls, index: nat)
    requires EncodeUserBlock(b, calls).Ok?
    ensures var parts := EncodeUserBlock(b, calls).value;
            if b.ToolResult? then |parts| == 1 && ParsePart(parts[0], index).Err?
            else |parts| == |UserBlockBack(b)| <= 1 && (parts != [] ==> ParsePart(parts[0], index) == Ok(UserBlockBack(b)[0]))
  {
  }

  lemma {:induction false} FirstBlockComesBack(b: ContentBlock, rest: seq<WirePart>, calls: Calls, index: nat, n: nat)
    requires EncodeUserBlock(b, calls).Ok? && n == index + |EncodeUserBlock(b, calls).value|
    ensures var r := ParseParts(EncodeUserBlock(b, calls).value + rest, index);
            if b.ToolResult? then r.Err? else r == After(UserBlockBack(b), ParseParts(rest, n))
  {
    var parts := EncodeUserBlock(b, calls).value;
    UserBlockComesBack(b, calls, index);
    if parts == [] {
      assert parts + rest == rest;
      AfterEnds(ParseParts(rest, n), []);
    } else {
      assert parts == [parts[0]];
      ParsePartsFirst(parts[0], rest, index);
    }
  }

  lemma {:induction false} UserComesBack(content: seq<ContentBlock>, calls: Calls, index: nat)
    requires EncodeUserContent(content, calls).Ok?
    ensures var r := ParseParts(EncodeUserContent(content, calls).value, index);
            if HasResult(content) then r.Err? else r == Ok(UserBack(content))
    decreases |content|
  {
    if content != [] {
      var n := index + |EncodeUserBlock(content[0], calls).value|;
      FirstBlockComesBack(content[0], EncodeUserContent(content[1..], calls).value, calls, index, n);
      HasResultFirst(content);
      UserComesBack(content[1..], calls, n);
    }
  }

  predicate ComesBack(m: Message) {
    m.Assistant? || (m.User? && !HasResult(m.content))
  }

  function Back(m: Message): Message {
    if m.Assistant? then Assistant(AssistantBack(m.content, 0))
    else if m.User? then User(UserBack(m.content))
    else m
  }

  function BackAll(messages: seq<Message>): seq<Message> {
    if messages == [] then [] else [Back(messages[0])] + BackAll(messages[1..])
  }

  lemma {:induction false} SingleComesBack(m: Message, calls: Calls)
    requires !m.ToolResultMessage? && EncodeSingle(m, calls).Ok?
    ensures if ComesBack(m) then DecodeContent(EncodeSingle(m, calls).value) == Ok(Back(m))
            else DecodeContent(EncodeSingle(m, calls).value).Err?
  {
    if m.User? {
      UserComesBack(m.content, calls, 0);
    } else {
      AssistantComesBack(m.content, 0);
    }
  }

  /** A run of tool results begins with a response, which the decoder refuses. */
  lemma {:induction false} RunNeverComesBack(run: seq<Message>, calls: Calls)
    requires IsRun(run)
    ensures EncodeSegment(run, calls).Ok? && DecodeContent(EncodeSegment(run, calls).value).Err?
  {
    var collected := CollectRun(run);
    var responses := ResponsesOf(calls, collected);
    ResponsesAreResponseParts(calls, collected);
    SomeResponse(calls, collected);
    assert responses[0] in responses;
    assert (responses + MediaOf(collected))[0] == responses[0];
  }

  lemma {:induction false} SomeResponse(calls: Calls, collected: seq<Collected>)
    requires collected != []
    ensures ResponsesOf(calls, collected) != []
  {
    if FirstTurn(collected).Some? {
      SomeIndexed(collected);
      if Indexed(collected) != [] {
        InsertIndexedGrows(Indexed(collected)[0], SortIndexed(Indexed(collected)[1..]));
      }
    }
  }

  lemma {:induction false} InsertIndexedGrows(x: (nat, WirePart), xs: seq<(nat, WirePart)>)
    ensures InsertIndexed(x, xs) != []
  {
  }

  lemma {:induction false} SomeIndexed(collected: seq<Collected>)
    requires FirstTurn(collected).Some?
    ensures Indexed(collected) != []
  {
    if ParseToolUseId(collected[0].id).None? {
      SomeIndexed(collected[1..]);
    }
  }

  /**
   An encoded transcript decodes exactly when no tool result is in it, inside or outside a user
   message, and then message by message into what Gemini can represent.
   */
  lemma {:induction false} TranscriptComesBackIff(messages: seq<Message>, calls: Calls)
    requires Encode(messages, calls).Ok?
    ensures var r := Decode(Encode(messages, calls).value);
            && (r.Ok? <==> forall m :: m in messages ==> ComesBack(m))
            && (r.Ok? ==> r == Ok(BackAll(messages)))
    decreases |messages|
  {
    if messages != [] {
      var n := SegmentLength(messages);
      var content := EncodeSegment(messages[..n], calls).value;
      var rest := Encode(messages[n..], calls).value;
      assert Encode(messages, calls).value == [content] + rest;
      assert ([content] + rest)[1..] == rest;
      assert messages[0] in messages;
      if messages[0].ToolResultMessage? {
        RunNeverComesBack(messages[..n], calls);
      } else {
        SingleIsNoRun(messages);
        SingleComesBack(messages[0], calls);
        TranscriptComesBackIff(messages[1..], calls);
        assert forall m :: m in messages <==> m == messages[0] || m in messages[1..];
      }
    }
  }

  lemma {:induction false} SingleIsNoRun(messages: seq<Message>)
    requires messages != [] && !messages[0].ToolResultMessage?
    ensures !IsRun(messages[..1]) && messages[..1][0] == messages[0]
  {
    assert messages[..1][0] in messages[..1];
  }
}
