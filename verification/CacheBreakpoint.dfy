/** The prompt-cache breakpoint, inserted in place into an encoded transcript. */
module CacheBreakpoint {
  import opened Options
  import opened Json
  import opened Messages
  import opened AnthropicMessages

  const EPHEMERAL: Json := Obj(map["type" := Str("ephemeral")])

  predicate IsUser(msg: Json) {
    msg.GetStr("role") == Some("user")
  }

  /** An object with the breakpoint added; other values cannot carry one. */
  function Marked(block: Json): Json {
    if block.Obj? then Obj(block.fields["cache_control" := EPHEMERAL]) else block
  }

  /** A message with its last content block marked, if it has one. */
  function MarkLast(msg: Json): Json {
    match msg.GetArr("content")
    case Some(content) =>
      if content == [] then msg
      else Obj(msg.fields["content" := Arr(content[|content| - 1 := Marked(content[|content| - 1])])])
    case None => msg
  }

  /** The position of the last user message among the first `n`. */
  function LastUser(items: seq<Json>, n: nat): (r: Option<nat>)
    requires n <= |items|
    ensures r.Some? ==> r.value < n && IsUser(items[r.value]) && forall i :: r.value < i < n ==> !IsUser(items[i])
    ensures r.None? ==> forall i :: 0 <= i < n ==> !IsUser(items[i])
  {
    if n == 0 then None
    else if IsUser(items[n - 1]) then Some(n - 1)
    else LastUser(items, n - 1)
  }

  function WithBreakpoint(items: seq<Json>): (marked: seq<Json>)
    ensures |marked| == |items|
  {
    match LastUser(items, |items|)
    case Some(i) => items[i := MarkLast(items[i])]
    case None => items
  }

  /** The reverse loop over the messages; it edits at most one of them and stops. */
  method InsertUserCacheControl(arr: array<Json>)
    modifies arr
    ensures arr[..] == WithBreakpoint(old(arr[..]))
  {
    var i := arr.Length;
    while i > 0
      invariant 0 <= i <= arr.Length && arr[..] == old(arr[..])
      invariant LastUser(arr[..], arr.Length) == LastUser(arr[..], i)
    {
      i := i - 1;
      var msg := arr[i];
      if msg.GetStr("role") == Some("user") {
        var content := msg.GetArr("content");
        if content.None? {
          return;
        }
        if content.value != [] {
          var last := content.value[|content.value| - 1];
          if last.Obj? {
            last := Obj(last.fields["cache_control" := EPHEMERAL]);
          }
          arr[i] := Obj(msg.fields["content" := Arr(content.value[|content.value| - 1 := last])]);
        }
        return;
      }
    }
  }

  // ---------------------------------------------------------------- which value changes, and how

  /** Item `i` is the last one with the user role, and its content is an array that ends in an object. */
  ghost predicate TakesMark(items: seq<Json>, i: nat, content: seq<Json>) {
    && i < |items| && items[i].Obj? && items[i].GetStr("role") == Some("user")
    && (forall j :: i < j < |items| ==> items[j].GetStr("role") != Some("user"))
    && items[i].GetArr("content") == Some(content) && content != [] && content[|content| - 1].Obj?
  }

  lemma {:induction false} LastUserIs(items: seq<Json>, i: nat)
    ensures LastUser(items, |items|) == Some(i) <==>
              && i < |items| && items[i].GetStr("role") == Some("user")
              && forall j :: i < j < |items| ==> items[j].GetStr("role") != Some("user")
  {
    if LastUser(items, |items|).Some? {
      assert IsUser(items[LastUser(items, |items|).value]);
    }
    if i < |items| && LastUser(items, |items|) != Some(i) {
      assert IsUser(items[i]) <==> items[i].GetStr("role") == Some("user");
    }
    assert forall j :: 0 <= j < |items| ==> (IsUser(items[j]) <==> items[j].GetStr("role") == Some("user"));
  }

  /**
   For any JSON values, well-formed or not: only the last block of the last user message gets a
   `cache_control` of type `ephemeral`, if it is an object, and nothing else changes anywhere.
   */
  lemma {:induction false} BreakpointIs(items: seq<Json>, i: nat, content: seq<Json>)
    requires i < |items|
    ensures TakesMark(items, i, content) ==>
              WithBreakpoint(items)[i] ==
              Obj(items[i].fields["content" := Arr(content[..|content| - 1]
                + [Obj(content[|content| - 1].fields["cache_control" := Obj(map["type" := Str("ephemeral")])])])])
    ensures (forall c :: !TakesMark(items, i, c)) ==> WithBreakpoint(items)[i] == items[i]
  {
    LastUserIs(items, i);
    if TakesMark(items, i, content) {
      var n := |content| - 1;
      assert content[n := Marked(content[n])] == content[..n] + [Marked(content[n])];
    } else if LastUser(items, |items|) == Some(i) && items[i].GetArr("content").Some? {
      var own := items[i].GetArr("content").value;
      if own != [] && own[|own| - 1].Obj? {
        assert TakesMark(items, i, own);
      } else {
        UnmarkedStays(items[i], own);
      }
    }
  }

  lemma {:induction false} UnmarkedStays(msg: Json, content: seq<Json>)
    requires msg.GetArr("content") == Some(content) && (content != [] ==> !content[|content| - 1].Obj?)
    ensures MarkLast(msg) == msg
  {
    if content != [] {
      assert content[|content| - 1 := content[|content| - 1]] == content;
      assert msg.fields["content" := Arr(content)] == msg.fields;
    }
  }

  // ---------------------------------------------------------------- the decoder does not see it

  /** Two values that differ at most in their `cache_control` field. */
  ghost predicate SameBut(a: Json, b: Json) {
    forall key: string :: key != "cache_control" ==> a.Get(key) == b.Get(key)
  }

  lemma {:induction false} MarkedIsSameBut(block: Json)
    ensures SameBut(Marked(block), block)
  {
  }

  lemma {:induction false} SameToolUse(a: Json, b: Json)
    requires SameBut(a, b)
    ensures ParseToolUse(a) == ParseToolUse(b)
  {
    assert a.Get("id") == b.Get("id") && a.Get("name") == b.Get("name") && a.Get("input") == b.Get("input");
  }

  lemma {:induction false} SameField(a: Json, b: Json, key: string)
    requires SameBut(a, b) && key != "cache_control"
    ensures a.GetStr(key) == b.GetStr(key) && a.GetBool(key) == b.GetBool(key)
  {
    assert a.Get(key) == b.Get(key);
  }

  lemma {:induction false} SameToolResult(a: Json, b: Json)
    requires SameBut(a, b)
    ensures ParseToolResult(a) == ParseToolResult(b)
  {
    SameField(a, b, "tool_use_id");
    SameField(a, b, "content");
    SameField(a, b, "is_error");
  }

  lemma {:induction false} SameReasoning(a: Json, b: Json)
    requires SameBut(a, b)
    ensures ParseThinking(a) == ParseThinking(b) && ParseRedacted(a) == ParseRedacted(b)
  {
    assert a.Get("thinking") == b.Get("thinking") && a.Get("signature") == b.Get("signature");
    assert a.Get("data") == b.Get("data");
  }

  lemma {:induction false} SameMedia(a: Json, b: Json)
    requires SameBut(a, b)
    ensures ParseImage(a) == ParseImage(b) && ParseDocument(a) == ParseDocument(b)
  {
    assert a.Get("source") == b.Get("source") && a.Get("title") == b.Get("title");
  }

  lemma {:induction false} SameKind(kind: Kind, a: Json, b: Json)
    requires SameBut(a, b)
    ensures ParseAs(kind, a) == ParseAs(kind, b)
  {
    match kind
    case TextKind => assert a.Get("text") == b.Get("text");
    case ToolUseKind => SameToolUse(a, b);
    case ToolResultKind => SameToolResult(a, b);
    case ThinkingKind => SameReasoning(a, b);
    case RedactedKind => SameReasoning(a, b);
    case ImageKind => SameMedia(a, b);
    case DocumentKind => SameMedia(a, b);
  }

  lemma {:induction false} MarkedParsesAlike(block: Json)
    ensures ParseContentBlock(Marked(block)) == ParseContentBlock(block)
  {
    MarkedIsSameBut(block);
    assert Marked(block).Get("type") == block.Get("type");
    forall kind: Kind
      ensures ParseAs(kind, Marked(block)) == ParseAs(kind, block)
    {
      SameKind(kind, Marked(block), block);
    }
  }

  lemma {:induction false} BlocksParseAlike(a: seq<Json>, b: seq<Json>)
    requires |a| == |b| && forall i :: 0 <= i < |a| ==> ParseContentBlock(a[i]) == ParseContentBlock(b[i])
    ensures ParseContentBlocks(a) == ParseContentBlocks(b)
  {
    if a != [] {
      BlocksParseAlike(a[1..], b[1..]);
    }
  }

  lemma {:induction false} ToolResultDecodesAlike(content: seq<Json>, content': seq<Json>)
    requires content != [] && content' == content[|content| - 1 := Marked(content[|content| - 1])]
    ensures TryDecodeToolResult(content') == TryDecodeToolResult(content)
  {
    if |content| == 1 {
      var a, b := content'[0], content[0];
      MarkedIsSameBut(b);
      assert a.Get("type") == b.Get("type") && a.Get("content") == b.Get("content");
      assert a.Get("tool_use_id") == b.Get("tool_use_id") && a.Get("is_error") == b.Get("is_error");
    }
  }

  /** The decoder reads two fields of a message. */
  lemma {:induction false} MessagesParseAlike(a: Json, b: Json, content: seq<Json>, content': seq<Json>)
    requires a.GetStr("role") == b.GetStr("role") && a.GetArr("content") == Some(content) && b.GetArr("content") == Some(content')
    requires ParseContentBlocks(content) == ParseContentBlocks(content')
    requires TryDecodeToolResult(content) == TryDecodeToolResult(content')
    ensures ParseMessage(a) == ParseMessage(b)
  {
  }

  lemma {:induction false} MarkLastParsesAlike(msg: Json)
    ensures ParseMessage(MarkLast(msg)) == ParseMessage(msg)
  {
    match msg.GetArr("content")
    case None =>
    case Some(content) =>
      if content != [] {
        var n := |content| - 1;
        var content' := content[n := Marked(content[n])];
        MarkedParsesAlike(content[n]);
        BlocksParseAlike(content', content);
        ToolResultDecodesAlike(content, content');
        assert MarkLast(msg).Get("role") == msg.Get("role") && MarkLast(msg).GetArr("content") == Some(content');
        MessagesParseAlike(MarkLast(msg), msg, content', content);
      }
  }

  lemma {:induction false} DecodesAlike(a: seq<Json>, b: seq<Json>)
    requires |a| == |b| && forall i :: 0 <= i < |a| ==> ParseMessage(a[i]) == ParseMessage(b[i])
    ensures Decode(a) == Decode(b)
  {
    if a != [] {
      DecodesAlike(a[1..], b[1..]);
    }
  }

  /** Whatever the messages are, well-formed or not, the breakpoint never changes what they decode to. */
  lemma {:induction false} BreakpointIsInvisible(items: seq<Json>)
    ensures Decode(WithBreakpoint(items)) == Decode(items)
  {
    match LastUser(items, |items|)
    case Some(i) =>
      MarkLastParsesAlike(items[i]);
      DecodesAlike(WithBreakpoint(items), items);
    case None =>
  }

  // ---------------------------------------------------------------- where it lands

  predicate HasMark(block: Json) {
    block.Get("cache_control").Some?
  }

  /** The content blocks of a wire message. */
  function BlocksIn(msg: Json): seq<Json> {
    msg.GetArr("content").GetOr([])
  }

  /** A message that the encoder puts on the wire with the user role. */
  predicate IsUserRole(m: Message) {
    m.User? || m.ToolResultMessage?
  }

  lemma {:induction false} BlockIsUnmarked(b: ContentBlock)
    ensures MapBlock(b).Obj? && !HasMark(MapBlock(b))
  {
  }

  lemma {:induction false} BlocksAreUnmarked(blocks: seq<ContentBlock>)
    ensures |MapBlocks(blocks)| == |blocks|
    ensures forall j :: j in MapBlocks(blocks) ==> j.Obj? && !HasMark(j)
  {
    if blocks != [] {
      BlockIsUnmarked(blocks[0]);
      BlocksAreUnmarked(blocks[1..]);
    }
  }

  lemma {:induction false} MessageIsUnmarked(m: Message)
    requires !m.System?
    ensures var wire := MapMessage(m).value;
            && (IsUser(wire) <==> IsUserRole(m))
            && wire.Obj? && wire.GetArr("content") == Some(BlocksIn(wire))
            && (forall j :: j in BlocksIn(wire) ==> j.Obj? && !HasMark(j))
            && |BlocksIn(wire)| == (if m.ToolResultMessage? then 1 else |m.content|)
  {
    if m.User? || m.Assistant? {
      BlocksAreUnmarked(m.content);
    }
  }

  lemma {:induction false} EncodingIsPointwise(messages: seq<Message>)
    requires Encode(messages).Ok?
    ensures var items := Encode(messages).value;
            |items| == |messages| && forall i :: 0 <= i < |items| ==> !messages[i].System? && MapMessage(messages[i]) == Ok(items[i])
  {
    if messages != [] {
      EncodingIsPointwise(messages[1..]);
    }
  }

  /** Message `i` is the last one with the user role. */
  ghost predicate IsLastUserRole(messages: seq<Message>, i: nat) {
    i < |messages| && IsUserRole(messages[i]) && forall j :: i < j < |messages| ==> !IsUserRole(messages[j])
  }

  /** The wire messages with the user role are those of the user-role messages. */
  ghost predicate RolesMatch(items: seq<Json>, messages: seq<Message>) {
    |items| == |messages| && forall j :: 0 <= j < |items| ==> (IsUser(items[j]) <==> IsUserRole(messages[j]))
  }

  lemma {:induction false} EncodingMatchesRoles(messages: seq<Message>)
    requires Encode(messages).Ok?
    ensures RolesMatch(Encode(messages).value, messages)
  {
    EncodingIsPointwise(messages);
    var items := Encode(messages).value;
    forall j | 0 <= j < |items|
      ensures IsUser(items[j]) <==> IsUserRole(messages[j])
    {
      MessageIsUnmarked(messages[j]);
    }
  }

  lemma {:induction false} LastUserIsLastUserRole(items: seq<Json>, messages: seq<Message>, i: nat)
    requires RolesMatch(items, messages) && i < |messages|
    ensures LastUser(items, |items|) == Some(i) <==> IsLastUserRole(messages, i)
  {
    if LastUser(items, |items|).Some? {
      var last := LastUser(items, |items|).value;
      assert IsUserRole(messages[last]);
    }
  }

  lemma {:induction false} MarkLastMarksOneBlock(msg: Json, k: nat)
    requires msg.Obj? && msg.GetArr("content") == Some(BlocksIn(msg)) && k < |BlocksIn(msg)|
    requires forall j :: j in BlocksIn(msg) ==> j.Obj? && !HasMark(j)
    ensures |BlocksIn(MarkLast(msg))| == |BlocksIn(msg)|
    ensures HasMark(BlocksIn(MarkLast(msg))[k]) <==> k == |BlocksIn(msg)| - 1
    ensures k < |BlocksIn(msg)| - 1 ==> BlocksIn(MarkLast(msg))[k] == BlocksIn(msg)[k]
  {
    var own := BlocksIn(msg);
    assert own[k] in own;
    assert MarkLast(msg).GetArr("content") == Some(own[|own| - 1 := Marked(own[|own| - 1])]);
  }

  lemma {:induction false} MarkLastKeepsCount(msg: Json)
    ensures |BlocksIn(MarkLast(msg))| == |BlocksIn(msg)|
  {
    var own := BlocksIn(msg);
    assert msg.GetArr("content").Some? && own != [] ==>
      MarkLast(msg).GetArr("content") == Some(own[|own| - 1 := Marked(own[|own| - 1])]);
  }

  /**
   In an encoded transcript the breakpoint marks the last block of the last user-role message and
   no other block; when there is no such block, it marks nothing.
   */
  lemma {:induction false} BreakpointMarksLastUserBlock(messages: seq<Message>, i: nat, k: nat)
    requires Encode(messages).Ok? && i < |messages| && k < |BlocksIn(WithBreakpoint(Encode(messages).value)[i])|
    ensures var blocks := BlocksIn(WithBreakpoint(Encode(messages).value)[i]);
            && |blocks| == |BlocksIn(Encode(messages).value[i])|
            && (HasMark(blocks[k]) <==> IsLastUserRole(messages, i) && k == |blocks| - 1)
            && (!HasMark(blocks[k]) ==> blocks[k] == BlocksIn(Encode(messages).value[i])[k])
  {
    var items := Encode(messages).value;
    EncodingIsPointwise(messages);
    MessageIsUnmarked(messages[i]);
    EncodingMatchesRoles(messages);
    LastUserIsLastUserRole(items, messages, i);
    assert forall j :: 0 <= j < |BlocksIn(items[i])| ==> BlocksIn(items[i])[j] in BlocksIn(items[i]);
    if LastUser(items, |items|) == Some(i) {
      MarkLastKeepsCount(items[i]);
      MarkLastMarksOneBlock(items[i], k);
    }
  }

  // ---------------------------------------------------------------- the last text block

  predicate IsText(block: Json) {
    block.GetStr("type") == Some("text")
  }

  ghost predicate IsLastText(blocks: seq<Json>, k: nat) {
    k < |blocks| && IsText(blocks[k]) && forall j :: k < j < |blocks| ==> !IsText(blocks[j])
  }

  lemma {:induction false} EncodedText(b: ContentBlock)
    ensures IsText(MapBlock(b)) <==> b.Text?
  {
    EncodedKind(b);
  }

  lemma {:induction false} MapBlocksAt(blocks: seq<ContentBlock>, k: nat)
    requires k < |blocks|
    ensures k < |MapBlocks(blocks)| && MapBlocks(blocks)[k] == MapBlock(blocks[k])
  {
    if k > 0 {
      MapBlocksAt(blocks[1..], k - 1);
    }
  }

  /** The message ends in a text block. */
  predicate EndsInText(m: Message) {
    m.User? && m.content != [] && m.content[|m.content| - 1].Text?
  }

  lemma {:induction false} LastBlockIsText(m: Message, wire: Json)
    requires MapMessage(m) == Ok(wire) && IsUserRole(m) && BlocksIn(wire) != []
    ensures IsText(BlocksIn(wire)[|BlocksIn(wire)| - 1]) <==> EndsInText(m)
  {
    MessageIsUnmarked(m);
    if m.User? {
      WireFields("user", MapBlocks(m.content));
      MapBlocksAt(m.content, |m.content| - 1);
      EncodedText(m.content[|m.content| - 1]);
    } else {
      var block := TranscriptLevel(m.toolUseId, MapBlocks(m.content), m.isError);
      WireFields("user", [block]);
      assert block.GetStr("type") == Some("tool_result") && |"tool_result"| == 11 && |"text"| == 4;
    }
  }

  /** Marking keeps the type of the last block. */
  lemma {:induction false} MarkedBlockIs(messages: seq<Message>, i: nat)
    requires Encode(messages).Ok? && IsLastUserRole(messages, i) && BlocksIn(Encode(messages).value[i]) != []
    requires |BlocksIn(WithBreakpoint(Encode(messages).value)[i])| == |BlocksIn(Encode(messages).value[i])|
    ensures var own, blocks := BlocksIn(Encode(messages).value[i]), BlocksIn(WithBreakpoint(Encode(messages).value)[i]);
            IsText(blocks[|own| - 1]) <==> IsText(own[|own| - 1])
  {
    var items := Encode(messages).value;
    var own := BlocksIn(items[i]);
    EncodingMatchesRoles(messages);
    LastUserIsLastUserRole(items, messages, i);
    assert items[i].GetArr("content") == Some(own);
    assert MarkLast(items[i]).GetArr("content") == Some(own[|own| - 1 := Marked(own[|own| - 1])]);
    MarkedIsSameBut(own[|own| - 1]);
    assert Marked(own[|own| - 1]).Get("type") == own[|own| - 1].Get("type");
  }

  /** The last block is marked and no other. */
  ghost predicate MarksOnlyLast(blocks: seq<Json>) {
    forall k :: 0 <= k < |blocks| ==> (HasMark(blocks[k]) <==> k == |blocks| - 1)
  }

  /** Some block is marked that is the last text block. */
  ghost predicate MarksLastText(blocks: seq<Json>) {
    exists k: nat :: IsLastText(blocks, k) && HasMark(blocks[k])
  }

  lemma {:induction false} MarkedTextIsLast(blocks: seq<Json>)
    requires blocks != [] && MarksOnlyLast(blocks)
    ensures MarksLastText(blocks) <==> IsText(blocks[|blocks| - 1])
  {
    if IsText(blocks[|blocks| - 1]) {
      assert IsLastText(blocks, |blocks| - 1);
    }
  }

  /** The content blocks of message `i` once the breakpoint is in. */
  function BlocksSent(messages: seq<Message>, i: nat): seq<Json>
    requires Encode(messages).Ok? && i < |messages|
  {
    BlocksIn(WithBreakpoint(Encode(messages).value)[i])
  }

  lemma {:induction false} LastUserIsMarkedLast(messages: seq<Message>, i: nat, blocks: seq<Json>)
    requires Encode(messages).Ok? && IsLastUserRole(messages, i) && blocks == BlocksSent(messages, i)
    ensures MarksOnlyLast(blocks)
  {
    forall k | 0 <= k < |blocks|
      ensures HasMark(blocks[k]) <==> k == |blocks| - 1
    {
      BreakpointMarksLastUserBlock(messages, i, k);
    }
  }

  /** Before marking, the last block is a text exactly when the message ends in one. */
  lemma {:induction false} EndOfEncoding(messages: seq<Message>, i: nat, own: seq<Json>)
    requires Encode(messages).Ok? && IsLastUserRole(messages, i)
    requires own == BlocksIn(Encode(messages).value[i]) && own != []
    ensures IsText(own[|own| - 1]) <==> EndsInText(messages[i])
  {
    EncodingIsPointwise(messages);
    LastBlockIsText(messages[i], Encode(messages).value[i]);
  }

  lemma {:induction false} SameCount(messages: seq<Message>, i: nat, blocks: seq<Json>, own: seq<Json>)
    requires Encode(messages).Ok? && IsLastUserRole(messages, i)
    requires blocks == BlocksSent(messages, i) && blocks != [] && own == BlocksIn(Encode(messages).value[i])
    ensures |own| == |blocks|
  {
    BreakpointMarksLastUserBlock(messages, i, 0);
  }

  lemma {:induction false} MarkedEndIsText(messages: seq<Message>, i: nat, blocks: seq<Json>)
    requires Encode(messages).Ok? && IsLastUserRole(messages, i) && blocks == BlocksSent(messages, i) && blocks != []
    ensures IsText(blocks[|blocks| - 1]) <==> EndsInText(messages[i])
  {
    var own := BlocksIn(Encode(messages).value[i]);
    SameCount(messages, i, blocks, own);
    EndOfEncoding(messages, i, own);
    MarkedBlockIs(messages, i);
  }

  /**
   The marked block is the last text block of the last user-role message exactly when that message
   ends in a text block.
   */
  lemma {:induction false} MarkIsOnLastTextIff(messages: seq<Message>, i: nat, blocks: seq<Json>)
    requires Encode(messages).Ok? && IsLastUserRole(messages, i) && blocks == BlocksSent(messages, i) && blocks != []
    ensures MarksLastText(blocks) <==> EndsInText(messages[i])
  {
    LastUserIsMarkedLast(messages, i, blocks);
    MarkedTextIsLast(blocks);
    MarkedEndIsText(messages, i, blocks);
  }

  /** A question followed by an image: no text block is marked. */
  lemma {:induction false} ImageIsMarked(text: string, mediaType: string, data: string)
    ensures var encoded := Encode([User([Text(text), Image(mediaType, data)])]);
            && encoded.Ok?
            && var blocks := BlocksIn(WithBreakpoint(encoded.value)[0]);
               |blocks| == 2 && HasMark(blocks[1]) && !HasMark(blocks[0]) && !MarksLastText(blocks)
  {
    var content := [Text(text), Image(mediaType, data)];
    var messages := [User(content)];
    var wire := WireMessage("user", MapBlocks(content));
    assert messages[1..] == [] && [wire] + [] == [wire];
    assert Encode(messages) == Ok([wire]);
    WireFields("user", MapBlocks(content));
    MapBlocksAt(content, 1);
    BlocksAreUnmarked(content);
    MarkLastKeepsCount(wire);
    assert IsLastUserRole(messages, 0);
    EncodingMatchesRoles(messages);
    LastUserIsLastUserRole([wire], messages, 0);
    BreakpointMarksLastUserBlock(messages, 0, 0);
    BreakpointMarksLastUserBlock(messages, 0, 1);
    MarkIsOnLastTextIff(messages, 0, BlocksSent(messages, 0));
  }

  // ---------------------------------------------------------------- thinking budgets

  datatype ReasoningEffort = Low | Medium | High

  const MIN_BUDGET_TOKENS: nat := 1024

  function Tier(effort: ReasoningEffort): nat {
    match effort
    case Low => 1024
    case Medium => 4096
    case High => 10_000
  }

  /** A budget within the tier that leaves the minimum for the answer. */
  predicate Affordable(budget: nat, effort: ReasoningEffort, maxOutputTokens: nat) {
    budget <= Tier(effort) && budget + MIN_BUDGET_TOKENS <= maxOutputTokens
  }

  /**
   The thinking budget for an effort level: what the API accepts, or nothing when there is no room.
   It is the largest affordable budget, or the minimum when that is too small.
   */
  function ReasoningBudget(effort: ReasoningEffort, maxOutputTokens: nat): (budget: Option<nat>)
    ensures budget.Some? <==> MIN_BUDGET_TOKENS < maxOutputTokens
    ensures budget.Some? ==> MIN_BUDGET_TOKENS <= budget.value < maxOutputTokens && budget.value <= Tier(effort)
    ensures budget.Some? ==> budget.value == MIN_BUDGET_TOKENS || Affordable(budget.value, effort, maxOutputTokens)
    ensures forall v: nat :: budget.Some? && Affordable(v, effort, maxOutputTokens) ==> v <= budget.value
  {
    if maxOutputTokens <= MIN_BUDGET_TOKENS then None
    else
      var room := maxOutputTokens - MIN_BUDGET_TOKENS;
      var clamped := if Tier(effort) < room then Tier(effort) else room;
      Some(if clamped < MIN_BUDGET_TOKENS then MIN_BUDGET_TOKENS else clamped)
  }

  /** The tiers, and what is left of them under a small output limit. */
  lemma {:induction false} BudgetsAre()
    ensures ReasoningBudget(Low, 64_000) == Some(1024) && ReasoningBudget(Medium, 64_000) == Some(4096)
    ensures ReasoningBudget(High, 64_000) == Some(10_000)
    ensures ReasoningBudget(High, 8192) == Some(7168) && ReasoningBudget(High, 1025) == Some(1024) && ReasoningBudget(High, 1024) == None
  {
  }
}
