/** The whole transcript for Gemini: one content object per message, tool results collapsed run by run. */
module GeminiEncoding {
  import opened Options
  import opened Sequences
  import opened Json
  import opened Messages
  import opened ToolCallOrder
  import opened GeminiMessages

  // ---------------------------------------------------------------- the responses as a function

  lemma {:induction false} PartsExist(calls: Calls, turn: nat, todo: set<(nat, nat)>) returns (parts: seq<Call>)
    requires forall k :: k in todo ==> k in calls && k.0 == turn
    ensures SortedByPart(parts)
    ensures forall c: Call :: c in parts <==> (turn, c.part) in todo && calls[(turn, c.part)] == c.name
    decreases todo
  {
    if todo == {} {
      parts := [];
    } else {
      var k :| k in todo;
      var rest := PartsExist(calls, turn, todo - {k});
      assert k == (turn, k.1);
      parts := InsertCall(Call(k.1, calls[k]), rest);
    }
  }

  lemma {:induction false} ResponsesExist(calls: Calls, collected: seq<Collected>)
    ensures exists responses :: AreResponses(calls, collected, responses)
  {
    match FirstTurn(collected)
    case Some(turn) =>
      var parts := PartsExist(calls, turn, set k | k in calls.Keys && k.0 == turn);
      assert IsPartsOf(calls, turn, parts);
      assert AreResponses(calls, collected, TurnResponses(parts, collected));
    case None =>
      assert AreResponses(calls, collected, seq(|collected|, i requires 0 <= i < |collected| => NamedById(collected[i])));
  }

  /** The order of the tracker's table does not matter: there is one list of responses. */
  lemma {:induction false} ResponsesUnique(calls: Calls, collected: seq<Collected>, a: seq<WirePart>, b: seq<WirePart>)
    requires AreResponses(calls, collected, a) && AreResponses(calls, collected, b)
    ensures a == b
  {
    match FirstTurn(collected)
    case Some(turn) =>
      var pa :| IsPartsOf(calls, turn, pa) && a == TurnResponses(pa, collected);
      var pb :| IsPartsOf(calls, turn, pb) && b == TurnResponses(pb, collected);
      PartsUnique(calls, turn, pa, pb);
    case None =>
  }

  ghost function ResponsesOf(calls: Calls, collected: seq<Collected>): (r: seq<WirePart>)
    ensures AreResponses(calls, collected, r)
  {
    ResponsesExist(calls, collected);
    var r :| AreResponses(calls, collected, r);
    r
  }

  // ---------------------------------------------------------------- single messages

  /** A user-role block; reasoning is dropped, a tool use cannot be represented. */
  function EncodeUserBlock(b: ContentBlock, calls: Calls): Result<seq<WirePart>, string> {
    match b
    case Text(text) => Ok([TextPart(text)])
    case ToolResult(id, output, _) =>
      var name := match ParseToolUseId(id)
        case Some((turn, part)) => NameOf(calls, turn, part).GetOr(id)
        case None => id;
      Ok([ResponsePart(name, output)])
    case ToolUse(_, _, _) => Err("ToolUse blocks cannot appear in user-role content")
    case Image(mediaType, data) => Ok([InlinePart(mediaType, data)])
    case Document(mediaType, data, _) => Ok([InlinePart(mediaType, data)])
    case Thinking(_, _) => Ok([])
    case RedactedThinking(_) => Ok([])
  }

  /** A model-role block; reasoning and media are dropped, a tool result cannot be represented. */
  function EncodeAssistantBlock(b: ContentBlock): Result<seq<WirePart>, string> {
    match b
    case Text(text) => Ok([TextPart(text)])
    case ToolUse(_, name, input) => Ok([CallPart(name, input)])
    case ToolResult(_, _, _) => Err("ToolResult blocks cannot appear in model-role content")
    case _ => Ok([])
  }

  function EncodeUserContent(content: seq<ContentBlock>, calls: Calls): Result<seq<WirePart>, string> {
    if content == [] then Ok([])
    else match EncodeUserBlock(content[0], calls)
      case Err(e) => Err(e)
      case Ok(parts) =>
        match EncodeUserContent(content[1..], calls)
        case Err(e) => Err(e)
        case Ok(rest) => Ok(parts + rest)
  }

  function EncodeAssistantContent(content: seq<ContentBlock>): Result<seq<WirePart>, string> {
    if content == [] then Ok([])
    else match EncodeAssistantBlock(content[0])
      case Err(e) => Err(e)
      case Ok(parts) =>
        match EncodeAssistantContent(content[1..])
        case Err(e) => Err(e)
        case Ok(rest) => Ok(parts + rest)
  }

  predicate Encodable(m: Message) {
    match m
    case System(_) => false
    case User(content) => forall b :: b in content ==> !b.ToolUse?
    case Assistant(content) => forall b :: b in content ==> !b.ToolResult?
    case ToolResultMessage(_, _, _) => true
  }

  // ---------------------------------------------------------------- runs of tool results

  predicate AllToolResults(messages: seq<Message>) {
    forall m :: m in messages ==> m.ToolResultMessage?
  }

  /** The length of the longest run of tool results at the front. */
  function RunLength(messages: seq<Message>): (n: nat)
    ensures n <= |messages| && AllToolResults(messages[..n])
    ensures n < |messages| ==> !messages[n].ToolResultMessage?
  {
    if messages == [] || !messages[0].ToolResultMessage? then 0
    else
      var n := RunLength(messages[1..]);
      assert messages[..n + 1] == [messages[0]] + messages[1..][..n];
      n + 1
  }

  function CollectRun(run: seq<Message>): seq<Collected>
    requires AllToolResults(run)
  {
    seq(|run|, i requires 0 <= i < |run| => assert run[i] in run; Collected(run[i].toolUseId, run[i].content))
  }

  predicate IsRun(segment: seq<Message>) {
    segment != [] && AllToolResults(segment)
  }

  predicate IsSegment(segment: seq<Message>) {
    IsRun(segment) || (|segment| == 1 && !segment[0].ToolResultMessage?)
  }

  /** How far the first segment reaches: a whole run of tool results, or one other message. */
  function SegmentLength(messages: seq<Message>): (n: nat)
    requires messages != []
    ensures 0 < n <= |messages| && IsSegment(messages[..n])
    ensures messages[0].ToolResultMessage? ==> IsRun(messages[..n]) && (n < |messages| ==> !messages[n].ToolResultMessage?)
    ensures !messages[0].ToolResultMessage? ==> n == 1
  {
    if messages[0].ToolResultMessage? then RunLength(messages) else 1
  }

  /** The transcript cut into single messages and maximal runs of tool results. */
  function Segments(messages: seq<Message>): (segments: seq<seq<Message>>)
    ensures forall s :: s in segments ==> IsSegment(s)
    decreases |messages|
  {
    if messages == [] then []
    else [messages[..SegmentLength(messages)]] + Segments(messages[SegmentLength(messages)..])
  }

  function Join(segments: seq<seq<Message>>): seq<Message> {
    if segments == [] then [] else segments[0] + Join(segments[1..])
  }

  lemma {:induction false} JoinFirst(first: seq<Message>, rest: seq<seq<Message>>)
    ensures Join([first] + rest) == first + Join(rest)
  {
    assert ([first] + rest)[1..] == rest;
  }

  lemma {:induction false} InTwo(messages: seq<Message>, n: nat)
    requires n <= |messages|
    ensures messages[..n] + messages[n..] == messages
  {
  }

  /** Cutting into segments loses nothing and keeps the order. */
  lemma {:induction false} SegmentsJoin(messages: seq<Message>)
    ensures Join(Segments(messages)) == messages
    decreases |messages|
  {
    if messages != [] {
      var n := SegmentLength(messages);
      var rest := messages[n..];
      SegmentsJoin(rest);
      JoinFirst(messages[..n], Segments(rest));
      InTwo(messages, n);
    }
  }

  /** No two runs are adjacent, so every run is maximal. */
  lemma {:induction false} RunsAreMaximal(messages: seq<Message>, i: nat)
    requires i + 1 < |Segments(messages)|
    ensures !(IsRun(Segments(messages)[i]) && IsRun(Segments(messages)[i + 1]))
    decreases |messages|
  {
    var n := SegmentLength(messages);
    var rest := messages[n..];
    assert Segments(messages)[1..] == Segments(rest);
    if i > 0 {
      RunsAreMaximal(rest, i - 1);
    } else if IsRun(messages[..n]) {
      assert messages[..n][0] in messages[..n];
      var next := rest[..SegmentLength(rest)];
      assert next[0] == messages[n] && next[0] in next;
    }
  }

  // ---------------------------------------------------------------- the transcript

  /** A segment as one content object. */
  ghost function EncodeSegment(segment: seq<Message>, calls: Calls): Result<WireContent, string>
    requires IsSegment(segment)
  {
    if IsRun(segment) then
      var collected := CollectRun(segment);
      Ok(WireContent(UserRole, ResponsesOf(calls, collected) + MediaOf(collected)))
    else EncodeSingle(segment[0], calls)
  }

  function EncodeSingle(m: Message, calls: Calls): Result<WireContent, string>
    requires !m.ToolResultMessage?
  {
    match m
    case System(_) => Err("System messages must be extracted before encoding")
    case User(content) =>
      (match EncodeUserContent(content, calls)
       case Ok(parts) => Ok(WireContent(UserRole, parts))
       case Err(e) => Err(e))
    case Assistant(content) =>
      (match EncodeAssistantContent(content)
       case Ok(parts) => Ok(WireContent(ModelRole, parts))
       case Err(e) => Err(e))
  }

  ghost function Encode(messages: seq<Message>, calls: Calls): Result<seq<WireContent>, string>
    decreases |messages|
  {
    if messages == [] then Ok([])
    else
      var n := SegmentLength(messages);
      match EncodeSegment(messages[..n], calls)
      case Err(e) => Err(e)
      case Ok(content) => After([content], Encode(messages[n..], calls))
  }

  /** One message that is not a tool result. */
  lemma {:induction false} EncodeStepsOver(messages: seq<Message>, calls: Calls, contents: seq<WireContent>)
    requires messages != [] && !messages[0].ToolResultMessage?
    ensures After(contents, Encode(messages, calls)) ==
              match EncodeSingle(messages[0], calls)
              case Err(e) => Err(e)
              case Ok(content) => After(contents + [content], Encode(messages[1..], calls))
  {
    assert !IsRun(messages[..1]) by {
      assert messages[..1][0] in messages[..1];
    }
    match EncodeSingle(messages[0], calls)
    case Ok(content) => AfterAfter(contents, [content], Encode(messages[1..], calls));
    case Err(_) =>
  }

  /** One run of tool results. */
  lemma {:induction false} EncodeRunsOver(messages: seq<Message>, calls: Calls, contents: seq<WireContent>, content: WireContent, n: nat)
    requires messages != [] && messages[0].ToolResultMessage? && n == RunLength(messages)
    requires IsRun(messages[..n]) && EncodeSegment(messages[..n], calls) == Ok(content)
    ensures After(contents, Encode(messages, calls)) == After(contents + [content], Encode(messages[n..], calls))
  {
    AfterAfter(contents, [content], Encode(messages[n..], calls));
  }

  lemma {:induction false} EncodingStarts(messages: seq<Message>, calls: Calls)
    ensures After([], Encode(messages[0..], calls)) == Encode(messages, calls)
  {
    assert messages[0..] == messages;
    AfterEnds(Encode(messages, calls), []);
  }

  lemma {:induction false} EncodingEnds(messages: seq<Message>, calls: Calls, contents: seq<WireContent>)
    ensures After(contents, Encode(messages[|messages|..], calls)) == Ok(contents)
  {
    assert messages[|messages|..] == [];
    AfterEnds(Encode([], calls), contents);
  }

  lemma {:induction false} EncodingGoesOn(messages: seq<Message>, i: nat, calls: Calls, contents: seq<WireContent>)
    requires i < |messages| && !messages[i].ToolResultMessage?
    ensures After(contents, Encode(messages[i..], calls)) ==
              match EncodeSingle(messages[i], calls)
              case Err(e) => Err(e)
              case Ok(content) => After(contents + [content], Encode(messages[i + 1..], calls))
  {
    assert messages[i..][0] == messages[i] && messages[i..][1..] == messages[i + 1..];
    EncodeStepsOver(messages[i..], calls, contents);
  }

  /** The encoder: nested loops over the messages, the inner one collecting a run of tool results. */
  method ToProvider(messages: seq<Message>, tracker: ToolCallOrderTracker) returns (r: Result<seq<WireContent>, string>)
    ensures r == Encode(messages, tracker.calls)
  {
    var contents: seq<WireContent> := [];
    var i := 0;
    EncodingStarts(messages, tracker.calls);
    while i < |messages|
      invariant 0 <= i <= |messages|
      invariant Encode(messages, tracker.calls) == After(contents, Encode(messages[i..], tracker.calls))
    {
      if messages[i].ToolResultMessage? {
        var content;
        content, i := EncodeRun(messages, i, tracker, contents);
        contents := contents + [content];
      } else {
        EncodingGoesOn(messages, i, tracker.calls, contents);
        var content := EncodeOne(messages[i], tracker);
        if content.Err? {
          return Err(content.error);
        }
        contents := contents + [content.value];
        i := i + 1;
      }
    }
    EncodingEnds(messages, tracker.calls, contents);
    return Ok(contents);
  }

  /** The match arms for messages that are not tool results. */
  method EncodeOne(m: Message, tracker: ToolCallOrderTracker) returns (r: Result<WireContent, string>)
    requires !m.ToolResultMessage?
    ensures r == EncodeSingle(m, tracker.calls)
  {
    match m {
      case System(_) =>
        return Err("System messages must be extracted before encoding");
      case User(content) =>
        var parts := EncodeUserContent(content, tracker.calls);
        return if parts.Ok? then Ok(WireContent(UserRole, parts.value)) else Err(parts.error);
      case Assistant(content) =>
        var parts := EncodeAssistantContent(content);
        return if parts.Ok? then Ok(WireContent(ModelRole, parts.value)) else Err(parts.error);
    }
  }

  lemma {:induction false} CollectOneMore(run: seq<Message>, m: Message)
    requires AllToolResults(run) && m.ToolResultMessage?
    ensures AllToolResults(run + [m]) && CollectRun(run + [m]) == CollectRun(run) + [Collected(m.toolUseId, m.content)]
  {
  }

  /** The inner loop: collects the run of tool results at `start`. */
  method CollectFrom(messages: seq<Message>, start: nat) returns (collected: seq<Collected>, i: nat)
    requires start < |messages| && messages[start].ToolResultMessage?
    ensures start < i <= |messages| && AllToolResults(messages[start..i]) && collected == CollectRun(messages[start..i])
    ensures i < |messages| ==> !messages[i].ToolResultMessage?
  {
    collected, i := [], start;
    while i < |messages| && messages[i].ToolResultMessage?
      invariant start <= i <= |messages|
      invariant AllToolResults(messages[start..i]) && collected == CollectRun(messages[start..i])
    {
      CollectOneMore(messages[start..i], messages[i]);
      assert messages[start..i + 1] == messages[start..i] + [messages[i]];
      collected := collected + [Collected(messages[i].toolUseId, messages[i].content)];
      i := i + 1;
    }
  }

  /** Encodes the run of tool results at `start` as one user turn. */
  method EncodeRun(messages: seq<Message>, start: nat, tracker: ToolCallOrderTracker, ghost before: seq<WireContent>)
    returns (content: WireContent, i: nat)
    requires start < |messages| && messages[start].ToolResultMessage?
    ensures start < i <= |messages|
    ensures After(before, Encode(messages[start..], tracker.calls)) == After(before + [content], Encode(messages[i..], tracker.calls))
  {
    var collected;
    collected, i := CollectFrom(messages, start);
    var parts := BuildToolResultParts(collected, tracker);
    ghost var responses :| AreResponses(tracker.calls, collected, responses) && parts == responses + MediaOf(collected);
    ResponsesUnique(tracker.calls, collected, responses, ResponsesOf(tracker.calls, collected));
    content := WireContent(UserRole, parts);
    RunIsEncoded(messages, start, i, tracker.calls, before);
  }

  lemma {:induction false} RunIsEncoded(messages: seq<Message>, start: nat, i: nat, calls: Calls, before: seq<WireContent>)
    requires start < i <= |messages| && AllToolResults(messages[start..i]) && (i < |messages| ==> !messages[i].ToolResultMessage?)
    ensures var collected := CollectRun(messages[start..i]);
            var content := WireContent(UserRole, ResponsesOf(calls, collected) + MediaOf(collected));
            After(before, Encode(messages[start..], calls)) == After(before + [content], Encode(messages[i..], calls))
  {
    var todo, n := messages[start..], i - start;
    var collected := CollectRun(messages[start..i]);
    assert todo[..n] == messages[start..i] && todo[n..] == messages[i..];
    assert messages[start..i][0] in messages[start..i];
    RunLengthIs(todo, n);
    EncodeRunsOver(todo, calls, before, WireContent(UserRole, ResponsesOf(calls, collected) + MediaOf(collected)), n);
  }

  lemma {:induction false} RunLengthIs(messages: seq<Message>, n: nat)
    requires n <= |messages| && AllToolResults(messages[..n])
    requires n < |messages| ==> !messages[n].ToolResultMessage?
    ensures RunLength(messages) == n
    decreases n
  {
    if n > 0 {
      assert messages[..n][0] in messages[..n];
      assert forall m :: m in messages[1..][..n - 1] ==> m in messages[..n];
      RunLengthIs(messages[1..], n - 1);
    }
  }

  // ---------------------------------------------------------------- what the encoding keeps

  /** The encoding of a transcript is that of its first segment, then that of the rest. */
  lemma {:induction false} FirstSegmentEncodes(messages: seq<Message>, calls: Calls, rest: seq<Message>)
    requires messages != [] && Encode(messages, calls).Ok? && rest == messages[SegmentLength(messages)..]
    ensures var first := messages[..SegmentLength(messages)];
            && Segments(messages) == [first] + Segments(rest) && IsSegment(first) && EncodeSegment(first, calls).Ok?
            && Encode(rest, calls).Ok?
            && Encode(messages, calls).value == [EncodeSegment(first, calls).value] + Encode(rest, calls).value
  {
  }

  /** The contents are the segments, one for one and in order. */
  lemma {:induction false} EncodingFollowsSegments(messages: seq<Message>, calls: Calls, i: nat)
    requires Encode(messages, calls).Ok?
    ensures |Encode(messages, calls).value| == |Segments(messages)|
    ensures i < |Segments(messages)| ==>
              IsSegment(Segments(messages)[i]) && EncodeSegment(Segments(messages)[i], calls) == Ok(Encode(messages, calls).value[i])
    decreases |messages|
  {
    if messages != [] {
      var rest := messages[SegmentLength(messages)..];
      FirstSegmentEncodes(messages, calls, rest);
      EncodingFollowsSegments(rest, calls, if i == 0 then 0 else i - 1);
    }
  }

  lemma {:induction false} UserContentFailsIff(content: seq<ContentBlock>, calls: Calls)
    ensures EncodeUserContent(content, calls).Err? <==> exists b :: b in content && b.ToolUse?
  {
    if content != [] {
      assert forall b :: b in content <==> b == content[0] || b in content[1..];
      UserContentFailsIff(content[1..], calls);
    }
  }

  lemma {:induction false} AssistantContentFailsIff(content: seq<ContentBlock>)
    ensures EncodeAssistantContent(content).Err? <==> exists b :: b in content && b.ToolResult?
  {
    if content != [] {
      assert forall b :: b in content <==> b == content[0] || b in content[1..];
      AssistantContentFailsIff(content[1..]);
    }
  }

  lemma {:induction false} SingleSucceedsIff(m: Message, calls: Calls)
    requires !m.ToolResultMessage?
    ensures EncodeSingle(m, calls).Ok? <==> Encodable(m)
  {
    match m
    case System(_) =>
    case User(content) => UserContentFailsIff(content, calls);
    case Assistant(content) => AssistantContentFailsIff(content);
  }

  lemma {:induction false} SegmentSucceedsIff(segment: seq<Message>, calls: Calls)
    requires IsSegment(segment)
    ensures EncodeSegment(segment, calls).Ok? <==> forall m :: m in segment ==> Encodable(m)
  {
    if !IsRun(segment) {
      assert forall m :: m in segment <==> m == segment[0];
      SingleSucceedsIff(segment[0], calls);
    }
  }

  /** Encoding succeeds exactly when every message can be represented. */
  lemma {:induction false} EncodingSucceedsIff(messages: seq<Message>, calls: Calls)
    ensures Encode(messages, calls).Ok? <==> forall m :: m in messages ==> Encodable(m)
    decreases |messages|
  {
    if messages != [] {
      var n := SegmentLength(messages);
      SegmentSucceedsIff(messages[..n], calls);
      EncodingSucceedsIff(messages[n..], calls);
      assert forall m :: m in messages <==> m in messages[..n] || m in messages[n..] by {
        assert messages == messages[..n] + messages[n..];
      }
    }
  }

  /** Why a message cannot be encoded. */
  function Complaint(m: Message): string {
    match m
    case System(_) => "System messages must be extracted before encoding"
    case User(_) => "ToolUse blocks cannot appear in user-role content"
    case Assistant(_) => "ToolResult blocks cannot appear in model-role content"
    case ToolResultMessage(_, _, _) => ""
  }

  lemma {:induction false} UserContentFailsWith(content: seq<ContentBlock>, calls: Calls)
    requires EncodeUserContent(content, calls).Err?
    ensures EncodeUserContent(content, calls) == Err("ToolUse blocks cannot appear in user-role content")
  {
    if EncodeUserBlock(content[0], calls).Ok? {
      UserContentFailsWith(content[1..], calls);
    }
  }

  lemma {:induction false} AssistantContentFailsWith(content: seq<ContentBlock>)
    requires EncodeAssistantContent(content).Err?
    ensures EncodeAssistantContent(content) == Err("ToolResult blocks cannot appear in model-role content")
  {
    if EncodeAssistantBlock(content[0]).Ok? {
      AssistantContentFailsWith(content[1..]);
    }
  }

  lemma {:induction false} SingleFailsWith(m: Message, calls: Calls)
    requires !m.ToolResultMessage? && EncodeSingle(m, calls).Err?
    ensures EncodeSingle(m, calls) == Err(Complaint(m))
  {
    match m
    case System(_) =>
    case User(content) => UserContentFailsWith(content, calls);
    case Assistant(content) => AssistantContentFailsWith(content);
  }

  /** A run never fails, so the failure is in what follows it. */
  lemma {:induction false} FailsAfterRun(messages: seq<Message>, calls: Calls, n: nat, e: string)
    requires messages != [] && messages[0].ToolResultMessage? && n == SegmentLength(messages) && Encode(messages[n..], calls) == Err(e)
    ensures Encode(messages, calls) == Err(e)
  {
  }

  lemma {:induction false} RunIsToolResults(messages: seq<Message>, n: nat, i: nat)
    requires n <= |messages| && IsRun(messages[..n]) && i < n
    ensures messages[i].ToolResultMessage?
  {
    assert messages[..n][i] in messages[..n];
  }

  lemma {:induction false} FailsAfterSingle(messages: seq<Message>, calls: Calls, e: string)
    requires messages != [] && !messages[0].ToolResultMessage?
    requires match EncodeSingle(messages[0], calls) case Err(own) => e == own case Ok(_) => Encode(messages[1..], calls) == Err(e)
    ensures Encode(messages, calls) == Err(e)
  {
    EncodeStepsOver(messages, calls, []);
    AfterEnds(Encode(messages, calls), []);
  }

  /** Encoding fails with the complaint about the first message that cannot be represented. */
  lemma {:induction false} EncodingFailsWith(messages: seq<Message>, calls: Calls, i: nat)
    requires i < |messages| && !Encodable(messages[i]) && forall j :: 0 <= j < i ==> Encodable(messages[j])
    ensures Encode(messages, calls) == Err(Complaint(messages[i]))
    decreases |messages|
  {
    if messages[0].ToolResultMessage? {
      var n := SegmentLength(messages);
      if i < n {
        RunIsToolResults(messages, n, i);
      }
      EncodingFailsWith(messages[n..], calls, i - n);
      FailsAfterRun(messages, calls, n, Complaint(messages[i]));
    } else {
      SingleSucceedsIff(messages[0], calls);
      if i == 0 {
        SingleFailsWith(messages[0], calls);
      } else {
        EncodingFailsWith(messages[1..], calls, i - 1);
      }
      FailsAfterSingle(messages, calls, Complaint(messages[i]));
    }
  }

  /** An inline result is named after its recorded call, and by its id when there is none. */
  lemma {:induction false} InlineResultIsNamed(id: string, output: string, isError: bool, calls: Calls)
    ensures EncodeUserContent([ToolResult(id, output, isError)], calls) ==
              Ok([ResponsePart(match ParseToolUseId(id)
                               case Some((turn, part)) => if (turn, part) in calls then calls[(turn, part)] else id
                               case None => id,
                               output)])
  {
    var content := [ToolResult(id, output, isError)];
    var parts := EncodeUserBlock(content[0], calls).value;
    assert content[1..] == [] && parts + [] == parts;
  }

  // ---------------------------------------------------------------- a run, end to end

  /** The output that the results with this id amount to: the joined texts of one of them, or nothing. */
  ghost predicate AnsweredBy(run: seq<Message>, id: string, output: string)
    requires AllToolResults(run)
  {
    if exists m :: m in run && m.toolUseId == id
    then exists m :: m in run && m.toolUseId == id && output == Concat(TextsIn(m.content))
    else output == ""
  }

  /** The results of a run are all for calls of one turn, each call at most once. */
  ghost predicate RunAnswersTurn(run: seq<Message>, turn: nat, emitted: seq<Call>)
    requires AllToolResults(run)
  {
    && (forall m :: m in run ==> exists c :: c in emitted && m.toolUseId == FormatId(turn, c.part))
    && (forall i, j :: 0 <= i < j < |run| ==> assert run[i] in run && run[j] in run; run[i].toolUseId != run[j].toolUseId)
  }

  lemma {:induction false} CollectedAre(run: seq<Message>, id: string, output: string)
    requires AllToolResults(run)
    ensures AnswerOf(CollectRun(run), id, output) <==> AnsweredBy(run, id, output)
  {
    var collected := CollectRun(run);
    forall m | m in run
      ensures Collected(m.toolUseId, m.content) in collected
    {
      var i :| 0 <= i < |run| && run[i] == m;
      assert collected[i] == Collected(m.toolUseId, m.content);
    }
    forall r | r in collected
      ensures exists m :: m in run && m.toolUseId == r.id && m.content == r.content
    {
      var i :| 0 <= i < |collected| && collected[i] == r;
      assert run[i] in run;
    }
  }

  lemma {:induction false} CollectedAnswersTurn(run: seq<Message>, turn: nat, emitted: seq<Call>)
    requires IsRun(run) && RunAnswersTurn(run, turn, emitted)
    ensures AnswersTurn(turn, emitted, CollectRun(run))
  {
    var collected := CollectRun(run);
    forall r | r in collected
      ensures exists c :: c in emitted && r.id == FormatId(turn, c.part)
    {
      var i :| 0 <= i < |collected| && collected[i] == r;
      assert run[i] in run && run[i].toolUseId == r.id;
    }
    forall i, j | 0 <= i < j < |collected|
      ensures collected[i].id != collected[j].id
    {
      assert run[i] in run && run[j] in run;
    }
  }

  /**
   End to end, from messages to the wire: a run that answers calls of a recorded turn begins with one
   response per emitted call, in emission order, each with the call's name and the joined texts of its
   own message, or nothing if it has none.
   */
  lemma {:induction false} RunIsAnswered(turn: nat, calls: Calls, items: seq<Arrival>, run: seq<Message>, i: nat)
    requires turn <= USIZE_MAX && |PartsSeen(items)| <= USIZE_MAX
    requires IsPartsOf(calls, turn, EmittedCalls(items)) && IsRun(run) && RunAnswersTurn(run, turn, EmittedCalls(items))
    requires i < |EmittedCalls(items)|
    ensures match EncodeSegment(run, calls)
            case Err(_) => false
            case Ok(content) =>
              var emitted := EmittedCalls(items);
              && |content.parts| >= |emitted|
              && content.parts[i].ResponsePart? && content.parts[i].name == emitted[i].name
              && AnsweredBy(run, FormatId(turn, emitted[i].part), content.parts[i].output)
  {
    var collected := CollectRun(run);
    var responses := ResponsesOf(calls, collected);
    CollectedAnswersTurn(run, turn, EmittedCalls(items));
    ResultsArePairedByPosition(turn, calls, items, collected, responses);
    CollectedAre(run, FormatId(turn, EmittedCalls(items)[i].part), responses[i].output);
    assert (responses + MediaOf(collected))[i] == responses[i];
  }

  // ---------------------------------------------------------------- media

  /** Every block of the run's results, in input order. */
  function BlocksOf(collected: seq<Collected>): seq<ContentBlock> {
    if collected == [] then [] else collected[0].content + BlocksOf(collected[1..])
  }

  function MediaBlocks(content: seq<ContentBlock>): seq<ContentBlock>
    ensures forall b :: b in MediaBlocks(content) <==> b in content && (b.Image? || b.Document?)
  {
    if content == [] then []
    else (if content[0].Image? || content[0].Document? then [content[0]] else []) + MediaBlocks(content[1..])
  }

  function InlineAll(media: seq<ContentBlock>): seq<WirePart>
    requires forall b :: b in media ==> IsMedia(b)
  {
    if media == [] then []
    else
      assert media[0] in media && IsMedia(media[0]);
      [InlinePart(media[0].mediaType, media[0].data)] + InlineAll(media[1..])
  }

  lemma {:induction false} InlineAllAppend(a: seq<ContentBlock>, b: seq<ContentBlock>)
    requires forall x :: x in a + b ==> IsMedia(x)
    requires forall x :: x in a ==> IsMedia(x)
    requires forall x :: x in b ==> IsMedia(x)
    ensures InlineAll(a + b) == InlineAll(a) + InlineAll(b)
  {
    if a == [] {
      assert a + b == b;
    } else {
      assert (a + b)[1..] == a[1..] + b;
      InlineAllAppend(a[1..], b);
    }
  }

  lemma {:induction false} MediaPartsAre(content: seq<ContentBlock>)
    ensures MediaInlineParts(content) == InlineAll(MediaBlocks(content))
  {
    if content != [] {
      MediaPartsAre(content[1..]);
      var rest := MediaBlocks(content[1..]);
      if IsMedia(content[0]) {
        assert ([content[0]] + rest)[1..] == rest;
        assert InlineAll([content[0]] + rest) == [InlineOf(content[0])] + InlineAll(rest);
      } else {
        assert MediaBlocks(content) == rest;
      }
    }
  }

  lemma {:induction false} MediaBlocksAppend(a: seq<ContentBlock>, b: seq<ContentBlock>)
    ensures MediaBlocks(a + b) == MediaBlocks(a) + MediaBlocks(b)
  {
    if a == [] {
      assert a + b == b;
    } else {
      assert (a + b)[1..] == a[1..] + b;
      MediaBlocksAppend(a[1..], b);
    }
  }

  lemma {:induction false} MediaOfRun(collected: seq<Collected>)
    ensures MediaOf(collected) == InlineAll(MediaBlocks(BlocksOf(collected)))
  {
    if collected != [] {
      MediaOfRun(collected[1..]);
      MediaPartsAre(collected[0].content);
      MediaBlocksAppend(collected[0].content, BlocksOf(collected[1..]));
      InlineAllAppend(MediaBlocks(collected[0].content), MediaBlocks(BlocksOf(collected[1..])));
    }
  }

  lemma {:induction false} SortedIndexedAreResponses(xs: seq<(nat, WirePart)>)
    requires forall x :: x in xs ==> x.1.ResponsePart?
    ensures forall x :: x in SortIndexed(xs) ==> x.1.ResponsePart?
  {
    if xs != [] {
      SortedIndexedAreResponses(xs[1..]);
      InsertedIsMember(xs[0], SortIndexed(xs[1..]));
      assert xs[0] in xs;
    }
  }

  lemma {:induction false} InsertedIsMember(x: (nat, WirePart), xs: seq<(nat, WirePart)>)
    ensures forall y :: y in InsertIndexed(x, xs) <==> y == x || y in xs
  {
    if xs != [] && x.0 > xs[0].0 {
      InsertedIsMember(x, xs[1..]);
      assert xs == [xs[0]] + xs[1..];
    }
  }

  lemma {:induction false} IndexedAreResponses(collected: seq<Collected>)
    ensures forall x :: x in Indexed(collected) ==> x.1.ResponsePart?
  {
    if collected != [] {
      IndexedAreResponses(collected[1..]);
    }
  }

  lemma {:induction false} ResponsesAreResponseParts(calls: Calls, collected: seq<Collected>)
    ensures forall r :: r in ResponsesOf(calls, collected) ==> r.ResponsePart?
  {
    var responses := ResponsesOf(calls, collected);
    match FirstTurn(collected)
    case Some(turn) =>
      var parts :| IsPartsOf(calls, turn, parts) && responses == TurnResponses(parts, collected);
      IndexedAreResponses(collected);
      SortedIndexedAreResponses(Indexed(collected));
    case None =>
  }

  /**
   A run becomes one user turn: function responses first, then every image or document the tools
   returned, each exactly once and in input order, and nothing else.
   */
  lemma {:induction false} RunCarriesMediaOnce(run: seq<Message>, calls: Calls)
    requires IsRun(run)
    ensures var media := MediaBlocks(BlocksOf(CollectRun(run)));
            match EncodeSegment(run, calls)
            case Err(_) => false
            case Ok(content) =>
              var front := |content.parts| - |media|;
              && content.role == UserRole
              && 0 <= front && content.parts[front..] == InlineAll(media)
              && forall i :: 0 <= i < front ==> content.parts[i].ResponsePart?
  {
    var collected := CollectRun(run);
    var responses := ResponsesOf(calls, collected);
    ResponsesAreResponseParts(calls, collected);
    MediaOfRun(collected);
    InlineAllLength(MediaBlocks(BlocksOf(collected)));
    assert forall i :: 0 <= i < |responses| ==> responses[i] in responses;
  }

  lemma {:induction false} InlineAllLength(media: seq<ContentBlock>)
    requires forall b :: b in media ==> IsMedia(b)
    ensures |InlineAll(media)| == |media|
  {
    if media != [] {
      InlineAllLength(media[1..]);
    }
  }
}
