/**
 Encoding a transcript for Gemini: runs of tool results become one user turn each, and their
 responses are put back into the order in which the calls were made.
 */
module GeminiMessages {
  import opened Options
  import opened Sequences
  import opened Json
  import opened Messages
  import opened ToolCallOrder

  /** One element of the wire format's `parts` array. */
  datatype WirePart =
    | TextPart(text: string)
    | CallPart(name: string, args: Json)
    | ResponsePart(name: string, output: string)
    | InlinePart(mimeType: string, data: string)

  datatype Role = UserRole | ModelRole

  datatype WireContent = WireContent(role: Role, parts: seq<WirePart>)

  /** One tool result of a run: the id it answers and what the tool returned. */
  datatype Collected = Collected(id: string, content: seq<ContentBlock>)

  function ExtractText(content: seq<ContentBlock>): string {
    if content == [] then ""
    else (if content[0].Text? then content[0].text else "") + ExtractText(content[1..])
  }

  /** The texts among `content`, in order. */
  function TextsIn(content: seq<ContentBlock>): seq<string> {
    if content == [] then []
    else
      TextsIn(content[..|content| - 1])
      + match content[|content| - 1]
        case Text(text) => [text]
        case _ => []
  }

  function TextOf(b: ContentBlock): string {
    if b.Text? then b.text else ""
  }

  /** All of `texts`, one after the other with nothing in between. */
  function Concat(texts: seq<string>): string {
    if texts == [] then "" else Concat(texts[..|texts| - 1]) + texts[|texts| - 1]
  }

  lemma {:induction false} ConcatGrows(texts: seq<string>, text: string)
    ensures Concat(texts + [text]) == Concat(texts) + text
  {
    assert (texts + [text])[..|texts|] == texts;
  }

  lemma {:induction false} ExtractTextGrows(content: seq<ContentBlock>, b: ContentBlock)
    ensures ExtractText(content + [b]) == ExtractText(content) + TextOf(b)
  {
    if content == [] {
      assert [] + [b] == [b] && [b][1..] == [];
    } else {
      assert (content + [b])[0] == content[0] && (content + [b])[1..] == content[1..] + [b];
      ExtractTextGrows(content[1..], b);
      Reassociate(TextOf(content[0]), ExtractText(content[1..]), TextOf(b));
    }
  }

  /** The output for a result is all of its texts joined, and nothing else of its content. */
  lemma {:induction false} ExtractTextJoins(content: seq<ContentBlock>)
    ensures ExtractText(content) == Concat(TextsIn(content))
  {
    if content != [] {
      var init, last := content[..|content| - 1], content[|content| - 1];
      assert content == init + [last];
      ExtractTextJoins(init);
      ExtractTextGrows(init, last);
      if last.Text? {
        ConcatGrows(TextsIn(init), last.text);
      } else {
        assert TextsIn(init) + [] == TextsIn(init) && ExtractText(init) + "" == ExtractText(init);
      }
    }
  }

  predicate IsMedia(b: ContentBlock) {
    b.Image? || b.Document?
  }

  function InlineOf(b: ContentBlock): WirePart
    requires IsMedia(b)
  {
    InlinePart(b.mediaType, b.data)
  }

  function MediaInlineParts(content: seq<ContentBlock>): seq<WirePart> {
    if content == [] then []
    else (if IsMedia(content[0]) then [InlineOf(content[0])] else []) + MediaInlineParts(content[1..])
  }

  // ---------------------------------------------------------------- pairing results with calls

  /** The turn of the first result whose id parses. */
  function FirstTurn(collected: seq<Collected>): Option<nat> {
    if collected == [] then None
    else match ParseToolUseId(collected[0].id)
      case Some((turn, _)) => Some(turn)
      case None => FirstTurn(collected[1..])
  }

  /** The result at `i` names the turn, and no result before it names any. */
  ghost predicate NamesTurnFirst(collected: seq<Collected>, turn: nat, i: nat) {
    && i < |collected| && (exists part :: ParseToolUseId(collected[i].id) == Some((turn, part)))
    && forall j :: 0 <= j < i ==> ParseToolUseId(collected[j].id).None?
  }

  lemma {:induction false} NamesTurnLater(collected: seq<Collected>, turn: nat, i: nat)
    requires collected != [] && ParseToolUseId(collected[0].id).None?
    ensures NamesTurnFirst(collected, turn, i) <==> i > 0 && NamesTurnFirst(collected[1..], turn, i - 1)
  {
    var rest := collected[1..];
    assert forall j :: 0 <= j < |rest| ==> rest[j] == collected[j + 1];
    if i > 0 && NamesTurnFirst(rest, turn, i - 1) {
      assert forall j :: 0 < j < i ==> collected[j] == rest[j - 1];
    }
  }

  lemma {:induction false} SomeNamesTurnLater(collected: seq<Collected>, turn: nat)
    requires collected != [] && ParseToolUseId(collected[0].id).None?
    ensures (exists i: nat :: NamesTurnFirst(collected, turn, i)) <==> exists i: nat :: NamesTurnFirst(collected[1..], turn, i)
  {
    if i: nat :| NamesTurnFirst(collected, turn, i) {
      NamesTurnLater(collected, turn, i);
    }
    if i: nat :| NamesTurnFirst(collected[1..], turn, i) {
      NamesTurnLater(collected, turn, i + 1);
    }
  }

  lemma {:induction false} FirstTurnIsFirst(collected: seq<Collected>, turn: nat)
    ensures FirstTurn(collected) == Some(turn) <==> exists i: nat :: NamesTurnFirst(collected, turn, i)
    ensures FirstTurn(collected) == None <==> forall r :: r in collected ==> ParseToolUseId(r.id).None?
  {
    if collected != [] {
      FirstTurnIsFirst(collected[1..], turn);
      assert forall r :: r in collected <==> r == collected[0] || r in collected[1..];
      if ParseToolUseId(collected[0].id).None? {
        SomeNamesTurnLater(collected, turn);
      } else {
        assert ParseToolUseId(collected[0].id).value.0 == turn ==> NamesTurnFirst(collected, turn, 0);
      }
    }
  }

  /** The text of the last result for part `part`, whatever its turn. */
  function ResultFor(collected: seq<Collected>, part: nat): Option<string> {
    if collected == [] then None
    else
      var last := collected[|collected| - 1];
      match ParseToolUseId(last.id)
      case Some((_, p)) => if p == part then Some(ExtractText(last.content)) else ResultFor(collected[..|collected| - 1], part)
      case None => ResultFor(collected[..|collected| - 1], part)
  }

  /** One response per recorded call, in recorded order; a call without a result gets an empty one. */
  function RecordedResponses(parts: seq<Call>, collected: seq<Collected>): seq<WirePart> {
    seq(|parts|, i requires 0 <= i < |parts| => ResponsePart(parts[i].name, ResultFor(collected, parts[i].part).GetOr("")))
  }

  /** A response that carries its id as the name. */
  function NamedById(c: Collected): WirePart {
    ResponsePart(c.id, ExtractText(c.content))
  }

  /** The results whose id parses, each with its part index, in input order. */
  function Indexed(collected: seq<Collected>): seq<(nat, WirePart)> {
    if collected == [] then []
    else (match ParseToolUseId(collected[0].id)
          case Some((_, part)) => [(part, NamedById(collected[0]))]
          case None => []) + Indexed(collected[1..])
  }

  /** Inserts in front of the first element with an index that is not smaller, which keeps equal indices in order. */
  function InsertIndexed(x: (nat, WirePart), xs: seq<(nat, WirePart)>): seq<(nat, WirePart)> {
    if xs == [] || x.0 <= xs[0].0 then [x] + xs else [xs[0]] + InsertIndexed(x, xs[1..])
  }

  /** A stable sort by part index. */
  function SortIndexed(xs: seq<(nat, WirePart)>): seq<(nat, WirePart)> {
    if xs == [] then [] else InsertIndexed(xs[0], SortIndexed(xs[1..]))
  }

  predicate SortedByIndex(xs: seq<(nat, WirePart)>) {
    forall i, j :: 0 <= i < j < |xs| ==> xs[i].0 <= xs[j].0
  }

  /** The elements with one index, in order. */
  function WithIndex(xs: seq<(nat, WirePart)>, index: nat): seq<(nat, WirePart)> {
    if xs == [] then [] else (if xs[0].0 == index then [xs[0]] else []) + WithIndex(xs[1..], index)
  }

  lemma {:induction false} InsertIndexedSorts(x: (nat, WirePart), xs: seq<(nat, WirePart)>)
    requires SortedByIndex(xs)
    ensures SortedByIndex(InsertIndexed(x, xs))
    ensures forall y :: y in InsertIndexed(x, xs) <==> y == x || y in xs
  {
    if xs != [] && x.0 > xs[0].0 {
      InsertIndexedSorts(x, xs[1..]);
      assert forall y :: y in xs <==> y == xs[0] || y in xs[1..];
      assert forall i :: 0 <= i < |InsertIndexed(x, xs[1..])| ==> InsertIndexed(x, xs[1..])[i] in InsertIndexed(x, xs[1..]);
    }
  }

  lemma {:induction false} InsertIndexedKeeps(x: (nat, WirePart), xs: seq<(nat, WirePart)>, index: nat)
    requires SortedByIndex(xs)
    ensures WithIndex(InsertIndexed(x, xs), index) == (if x.0 == index then [x] else []) + WithIndex(xs, index)
  {
    if xs == [] || x.0 <= xs[0].0 {
      assert ([x] + xs)[1..] == xs;
    } else {
      InsertIndexedKeeps(x, xs[1..], index);
      assert ([xs[0]] + InsertIndexed(x, xs[1..]))[1..] == InsertIndexed(x, xs[1..]);
      if xs[0].0 != index || x.0 != index {
        assert [] + WithIndex(xs[1..], index) == WithIndex(xs[1..], index);
      }
    }
  }

  /** The sort is by part index and stable: results of one index keep their order, and none is lost or repeated. */
  lemma {:induction false} SortIsStable(xs: seq<(nat, WirePart)>, index: nat)
    ensures SortedByIndex(SortIndexed(xs)) && WithIndex(SortIndexed(xs), index) == WithIndex(xs, index)
  {
    if xs != [] {
      SortIsStable(xs[1..], index);
      InsertIndexedSorts(xs[0], SortIndexed(xs[1..]));
      InsertIndexedKeeps(xs[0], SortIndexed(xs[1..]), index);
    }
  }

  function Second(xs: seq<(nat, WirePart)>): seq<WirePart> {
    seq(|xs|, i requires 0 <= i < |xs| => xs[i].1)
  }

  /** The responses for a run that belongs to a turn, given what the tracker has for that turn. */
  function TurnResponses(parts: seq<Call>, collected: seq<Collected>): seq<WirePart> {
    if parts != [] then RecordedResponses(parts, collected) else Second(SortIndexed(Indexed(collected)))
  }

  /** `responses` are the function responses for a run; ids of foreign shape are answered in input order. */
  ghost predicate AreResponses(calls: Calls, collected: seq<Collected>, responses: seq<WirePart>) {
    match FirstTurn(collected)
    case Some(turn) => exists parts :: IsPartsOf(calls, turn, parts) && responses == TurnResponses(parts, collected)
    case None => responses == seq(|collected|, i requires 0 <= i < |collected| => NamedById(collected[i]))
  }

  /** Builds the part-to-text table in a loop, then emits in recorded order. */
  method FunctionResponseParts(collected: seq<Collected>, tracker: ToolCallOrderTracker) returns (responses: seq<WirePart>)
    ensures AreResponses(tracker.calls, collected, responses)
  {
    var resultMap: map<nat, string> := map[];
    var firstTurn: Option<nat> := None;
    var i := 0;
    while i < |collected|
      invariant 0 <= i <= |collected|
      invariant forall part: nat :: part in resultMap <==> ResultFor(collected[..i], part).Some?
      invariant forall part: nat :: part in resultMap ==> ResultFor(collected[..i], part) == Some(resultMap[part])
      invariant firstTurn.Some? ==> FirstTurn(collected) == firstTurn
      invariant firstTurn.None? ==> FirstTurn(collected) == FirstTurn(collected[i..])
    {
      assert collected[..i + 1][..i] == collected[..i];
      assert collected[i..][0] == collected[i] && collected[i..][1..] == collected[i + 1..];
      match ParseToolUseId(collected[i].id) {
        case Some((turn, part)) =>
          if firstTurn.None? {
            firstTurn := Some(turn);
          }
          resultMap := resultMap[part := ExtractText(collected[i].content)];
        case None =>
      }
      i := i + 1;
    }
    assert collected[..|collected|] == collected && collected[|collected|..] == [];
    if firstTurn.Some? {
      var parts := tracker.PartsForTurn(firstTurn.value);
      if parts != [] {
        responses := seq(|parts|, j requires 0 <= j < |parts| =>
          ResponsePart(parts[j].name, if parts[j].part in resultMap then resultMap[parts[j].part] else ""));
      } else {
        responses := Second(SortIndexed(Indexed(collected)));
      }
      assert responses == TurnResponses(parts, collected);
    } else {
      responses := seq(|collected|, j requires 0 <= j < |collected| => NamedById(collected[j]));
    }
  }

  /** The responses, then every image or document of the run, in input order. */
  function MediaOf(collected: seq<Collected>): seq<WirePart> {
    if collected == [] then [] else MediaInlineParts(collected[0].content) + MediaOf(collected[1..])
  }

  method BuildToolResultParts(collected: seq<Collected>, tracker: ToolCallOrderTracker) returns (parts: seq<WirePart>)
    ensures exists responses :: AreResponses(tracker.calls, collected, responses) && parts == responses + MediaOf(collected)
  {
    var responses := FunctionResponseParts(collected, tracker);
    parts := responses;
    var i := 0;
    assert collected[0..] == collected;
    while i < |collected|
      invariant 0 <= i <= |collected|
      invariant parts + MediaOf(collected[i..]) == responses + MediaOf(collected)
    {
      assert collected[i..][0] == collected[i] && collected[i..][1..] == collected[i + 1..];
      Reassociate(parts, MediaInlineParts(collected[i].content), MediaOf(collected[i + 1..]));
      parts := parts + MediaInlineParts(collected[i].content);
      i := i + 1;
    }
    assert collected[|collected|..] == [] && parts + [] == parts;
  }

  // ---------------------------------------------------------------- the end-to-end theorem

  /** The tool results of one turn: ids of emitted calls, each at most once, in any order. */
  ghost predicate AnswersTurn(turn: nat, emitted: seq<Call>, collected: seq<Collected>) {
    && collected != []
    && (forall r :: r in collected ==> exists c :: c in emitted && r.id == FormatId(turn, c.part))
    && (forall i, j :: 0 <= i < j < |collected| ==> collected[i].id != collected[j].id)
  }

  /** The text a call is answered with: that of the result with its id, or nothing. */
  ghost predicate AnswerOf(collected: seq<Collected>, id: string, output: string) {
    if exists r :: r in collected && r.id == id
    then exists r :: r in collected && r.id == id && output == Concat(TextsIn(r.content))
    else output == ""
  }

  lemma {:induction false} ResultForId(turn: nat, emitted: seq<Call>, collected: seq<Collected>, part: nat)
    requires turn <= USIZE_MAX && part <= USIZE_MAX && forall c: Call :: c in emitted ==> c.part <= USIZE_MAX
    requires forall r :: r in collected ==> exists c :: c in emitted && r.id == FormatId(turn, c.part)
    ensures AnswerOf(collected, FormatId(turn, part), ResultFor(collected, part).GetOr(""))
    ensures ResultFor(collected, part).Some? <==> exists r :: r in collected && r.id == FormatId(turn, part)
    decreases |collected|
  {
    if collected != [] {
      var last, init := collected[|collected| - 1], collected[..|collected| - 1];
      assert last in collected;
      var c :| c in emitted && last.id == FormatId(turn, c.part);
      IdRoundTrip(turn, c.part);
      IdsDistinct(turn, c.part, turn, part);
      assert forall r :: r in collected <==> r in init || r == last by {
        assert collected == init + [last];
      }
      ExtractTextJoins(last.content);
      ResultForId(turn, emitted, init, part);
    }
  }

  lemma {:induction false} FirstTurnIs(turn: nat, emitted: seq<Call>, collected: seq<Collected>)
    requires turn <= USIZE_MAX && forall c: Call :: c in emitted ==> c.part <= USIZE_MAX
    requires AnswersTurn(turn, emitted, collected)
    ensures FirstTurn(collected) == Some(turn)
  {
    assert collected[0] in collected;
    var c :| c in emitted && collected[0].id == FormatId(turn, c.part);
    IdRoundTrip(turn, c.part);
  }

  /** One response per call, in order, each with the call's name and its own answer. */
  ghost predicate PairedByPosition(turn: nat, emitted: seq<Call>, collected: seq<Collected>, responses: seq<WirePart>) {
    |responses| == |emitted| &&
    forall i {:trigger responses[i]} :: 0 <= i < |emitted| ==>
      && responses[i].ResponsePart? && responses[i].name == emitted[i].name
      && AnswerOf(collected, FormatId(turn, emitted[i].part), responses[i].output)
  }

  lemma {:induction false} RecordedArePaired(turn: nat, emitted: seq<Call>, collected: seq<Collected>)
    requires turn <= USIZE_MAX && forall c: Call :: c in emitted ==> c.part <= USIZE_MAX
    requires AnswersTurn(turn, emitted, collected)
    ensures PairedByPosition(turn, emitted, collected, RecordedResponses(emitted, collected))
  {
    var responses := RecordedResponses(emitted, collected);
    forall i | 0 <= i < |emitted|
      ensures AnswerOf(collected, FormatId(turn, emitted[i].part), responses[i].output)
    {
      assert emitted[i] in emitted;
      ResultForId(turn, emitted, collected, emitted[i].part);
    }
  }

  /**
   End to end: when the translator has run turn `turn` over `items`, any non-empty choice of its
   tool results in any order is encoded as exactly one response per emitted call, in emission
   order, each with the emitted name and the output of its own result, or an empty output.
   */
  lemma {:induction false} ResultsArePairedByPosition(turn: nat, calls: Calls, items: seq<Arrival>, collected: seq<Collected>, responses: seq<WirePart>)
    requires turn <= USIZE_MAX && |PartsSeen(items)| <= USIZE_MAX
    requires IsPartsOf(calls, turn, EmittedCalls(items))
    requires AnswersTurn(turn, EmittedCalls(items), collected)
    requires AreResponses(calls, collected, responses)
    ensures PairedByPosition(turn, EmittedCalls(items), collected, responses)
  {
    var emitted := EmittedCalls(items);
    CallsInAreSorted(0, PartsSeen(items));
    FirstTurnIs(turn, emitted, collected);
    var parts :| IsPartsOf(calls, turn, parts) && responses == TurnResponses(parts, collected);
    PartsUnique(calls, turn, parts, emitted);
    SomethingEmitted(turn, emitted, collected);
    RecordedArePaired(turn, emitted, collected);
  }

  lemma {:induction false} SomethingEmitted(turn: nat, emitted: seq<Call>, collected: seq<Collected>)
    requires AnswersTurn(turn, emitted, collected)
    ensures emitted != []
  {
    assert collected[0] in collected;
  }

  /** The order in which tools finish cannot be seen in the encoding. */
  lemma {:induction false} CompletionOrderIrrelevant(turn: nat, calls: Calls, items: seq<Arrival>, a: seq<Collected>, b: seq<Collected>,
                                  ra: seq<WirePart>, rb: seq<WirePart>)
    requires turn <= USIZE_MAX && |PartsSeen(items)| <= USIZE_MAX
    requires IsPartsOf(calls, turn, EmittedCalls(items))
    requires AnswersTurn(turn, EmittedCalls(items), a) && AnswersTurn(turn, EmittedCalls(items), b)
    requires forall r :: r in a <==> r in b
    requires AreResponses(calls, a, ra) && AreResponses(calls, b, rb)
    ensures ra == rb
  {
    var emitted := EmittedCalls(items);
    ResultsArePairedByPosition(turn, calls, items, a, ra);
    ResultsArePairedByPosition(turn, calls, items, b, rb);
    forall i | 0 <= i < |emitted|
      ensures ra[i] == rb[i]
    {
      var id := FormatId(turn, emitted[i].part);
      AnswerUnique(a, b, id, ra[i].output, rb[i].output);
    }
  }

  lemma {:induction false} AnswerUnique(a: seq<Collected>, b: seq<Collected>, id: string, x: string, y: string)
    requires forall r :: r in a <==> r in b
    requires forall i, j :: 0 <= i < j < |a| ==> a[i].id != a[j].id
    requires AnswerOf(a, id, x) && AnswerOf(b, id, y)
    ensures x == y
  {
    if r :| r in a && r.id == id {
      var i :| 0 <= i < |a| && a[i] == r;
      var s :| s in a && s.id == id && x == Concat(TextsIn(s.content));
      var t :| t in b && t.id == id && y == Concat(TextsIn(t.content));
      var j :| 0 <= j < |a| && a[j] == s;
      var k :| 0 <= k < |a| && a[k] == t;
      assert i == j == k;
    }
  }

  // ---------------------------------------------------------------- runs of a turn that is not on record

  /** Without any id that parses, every result is answered in input order, under its own id. */
  lemma {:induction false} ForeignResultsKeepTheirOrder(calls: Calls, collected: seq<Collected>, responses: seq<WirePart>)
    requires (forall r :: r in collected ==> ParseToolUseId(r.id).None?) && AreResponses(calls, collected, responses)
    ensures |responses| == |collected|
    ensures forall i :: 0 <= i < |collected| ==> responses[i] == ResponsePart(collected[i].id, Concat(TextsIn(collected[i].content)))
  {
    FirstTurnIsFirst(collected, 0);
    forall i | 0 <= i < |collected|
      ensures responses[i] == ResponsePart(collected[i].id, Concat(TextsIn(collected[i].content)))
    {
      ExtractTextJoins(collected[i].content);
    }
  }

  /** The results whose id carries a part index, each under its own id, in input order. */
  function AnswersAt(collected: seq<Collected>, index: nat): seq<(nat, WirePart)> {
    if collected == [] then []
    else
      (match ParseToolUseId(collected[0].id)
       case Some((_, part)) => if part == index then [(part, ResponsePart(collected[0].id, Concat(TextsIn(collected[0].content))))] else []
       case None => [])
      + AnswersAt(collected[1..], index)
  }

  lemma {:induction false} IndexedAre(collected: seq<Collected>, index: nat)
    ensures WithIndex(Indexed(collected), index) == AnswersAt(collected, index)
  {
    if collected != [] {
      IndexedAre(collected[1..], index);
      ExtractTextJoins(collected[0].content);
      var rest := Indexed(collected[1..]);
      match ParseToolUseId(collected[0].id)
      case Some((_, part)) => assert ([(part, NamedById(collected[0]))] + rest)[1..] == rest;
      case None => assert [] + rest == rest;
    }
  }

  /**
   When nothing is on record for the turn of the first result, the results whose id parses are answered
   by part index, those of one index in input order, each under its own id.
   */
  lemma {:induction false} UnrecordedTurnIsSorted(turn: nat, calls: Calls, collected: seq<Collected>, responses: seq<WirePart>)
    returns (sorted: seq<(nat, WirePart)>)
    requires FirstTurn(collected) == Some(turn) && (forall part: nat :: (turn, part) !in calls)
    requires AreResponses(calls, collected, responses)
    ensures |responses| == |sorted| && forall i :: 0 <= i < |sorted| ==> responses[i] == sorted[i].1
    ensures SortedByIndex(sorted) && forall index :: WithIndex(sorted, index) == AnswersAt(collected, index)
  {
    var parts :| IsPartsOf(calls, turn, parts) && responses == TurnResponses(parts, collected);
    if parts != [] {
      HasCall(parts);
      assert false;
    }
    sorted := SortIndexed(Indexed(collected));
    forall index
      ensures SortedByIndex(sorted) && WithIndex(sorted, index) == AnswersAt(collected, index)
    {
      SortIsStable(Indexed(collected), index);
      IndexedAre(collected, index);
    }
    SortIsStable(Indexed(collected), 0);
  }

  // ---------------------------------------------------------------- results of several turns in one run

  predicate IsForPart(c: Collected, part: nat) {
    match ParseToolUseId(c.id)
    case Some((_, p)) => p == part
    case None => false
  }

  /** The position of the last of the first `n` results that carries a part index, whatever its turn. */
  function LastForPart(collected: seq<Collected>, part: nat, n: nat): (r: Option<nat>)
    requires n <= |collected|
    ensures r.Some? ==> r.value < n && IsForPart(collected[r.value], part)
    ensures forall j :: (if r.Some? then r.value + 1 else 0) <= j < n ==> !IsForPart(collected[j], part)
  {
    if n == 0 then None
    else if IsForPart(collected[n - 1], part) then Some(n - 1)
    else LastForPart(collected, part, n - 1)
  }

  function LastText(collected: seq<Collected>, part: nat): string {
    match LastForPart(collected, part, |collected|)
    case Some(i) => Concat(TextsIn(collected[i].content))
    case None => ""
  }

  lemma {:induction false} ResultForIsLast(collected: seq<Collected>, part: nat, n: nat)
    requires n <= |collected|
    ensures ResultFor(collected[..n], part) ==
              match LastForPart(collected, part, n)
              case Some(i) => Some(Concat(TextsIn(collected[i].content)))
              case None => None
  {
    if n > 0 {
      ExtractTextJoins(collected[n - 1].content);
      assert collected[..n][..n - 1] == collected[..n - 1] && collected[..n][n - 1] == collected[n - 1];
      ResultForIsLast(collected, part, n - 1);
    }
  }

  /** A run is answered for the turn of its first result: one response per call of that turn, each with the last text for its part. */
  lemma {:induction false} FirstTurnDecides(turn: nat, calls: Calls, parts: seq<Call>, collected: seq<Collected>, responses: seq<WirePart>)
    requires FirstTurn(collected) == Some(turn) && IsPartsOf(calls, turn, parts) && parts != []
    requires AreResponses(calls, collected, responses)
    ensures |responses| == |parts|
    ensures forall i :: 0 <= i < |parts| ==> responses[i] == ResponsePart(parts[i].name, LastText(collected, parts[i].part))
  {
    var own :| IsPartsOf(calls, turn, own) && responses == TurnResponses(own, collected);
    PartsUnique(calls, turn, own, parts);
    forall i | 0 <= i < |parts|
      ensures responses[i] == ResponsePart(parts[i].name, LastText(collected, parts[i].part))
    {
      ResultForIsLast(collected, parts[i].part, |collected|);
      assert collected[..|collected|] == collected;
    }
  }

  /**
   Whatever turns the results of a run come from, each call of the first result's turn is answered
   rightly exactly when, for every such call, the last result with its part index has the text of one
   of the call's own results, or no text when the call has none.
   */
  lemma {:induction false} MixedTurnsPairIff(turn: nat, calls: Calls, parts: seq<Call>, collected: seq<Collected>, responses: seq<WirePart>)
    requires FirstTurn(collected) == Some(turn) && IsPartsOf(calls, turn, parts) && parts != []
    requires AreResponses(calls, collected, responses)
    ensures PairedByPosition(turn, parts, collected, responses)
            <==> forall c: Call :: c in parts ==> AnswerOf(collected, FormatId(turn, c.part), LastText(collected, c.part))
  {
    FirstTurnDecides(turn, calls, parts, collected, responses);
    assert forall i :: 0 <= i < |parts| ==> parts[i] in parts;
    if PairedByPosition(turn, parts, collected, responses) {
      forall c: Call | c in parts
        ensures AnswerOf(collected, FormatId(turn, c.part), LastText(collected, c.part))
      {
        var i :| 0 <= i < |parts| && parts[i] == c;
        assert responses[i] == ResponsePart(parts[i].name, LastText(collected, parts[i].part));
      }
    }
  }

  /** A later result for the same part, from whatever turn, spoils the answer unless its text is the right one anyway. */
  lemma {:induction false} LaterTurnSpoils(turn: nat, calls: Calls, parts: seq<Call>, collected: seq<Collected>, responses: seq<WirePart>, c: Call, i: nat)
    requires FirstTurn(collected) == Some(turn) && IsPartsOf(calls, turn, parts) && c in parts
    requires AreResponses(calls, collected, responses)
    requires LastForPart(collected, c.part, |collected|) == Some(i) && Concat(TextsIn(collected[i].content)) != ""
    requires forall r :: r in collected && r.id == FormatId(turn, c.part) ==> Concat(TextsIn(r.content)) != Concat(TextsIn(collected[i].content))
    ensures !PairedByPosition(turn, parts, collected, responses)
  {
    MixedTurnsPairIff(turn, calls, parts, collected, responses);
    assert !AnswerOf(collected, FormatId(turn, c.part), LastText(collected, c.part));
  }

  /** The record of two turns with one call each. */
  const TWO_TURNS: Calls := map[(0, 0) := "Read", (1, 0) := "Grep"]

  lemma {:induction false} TwoTurnsRecorded(own: seq<ContentBlock>, foreign: seq<ContentBlock>)
    ensures var collected := [Collected(FormatId(0, 0), own), Collected(FormatId(1, 0), foreign)];
            FirstTurn(collected) == Some(0) && LastForPart(collected, 0, 2) == Some(1)
    ensures IsPartsOf(TWO_TURNS, 0, [Call(0, "Read")]) && FormatId(0, 0) != FormatId(1, 0)
  {
    IdRoundTrip(0, 0);
    IdRoundTrip(1, 0);
    IdsDistinct(0, 0, 1, 0);
  }

  lemma {:induction false} SecondTurnAnswers(own: seq<ContentBlock>, foreign: seq<ContentBlock>, responses: seq<WirePart>)
    requires AreResponses(TWO_TURNS, [Collected(FormatId(0, 0), own), Collected(FormatId(1, 0), foreign)], responses)
    ensures responses == [ResponsePart("Read", Concat(TextsIn(foreign)))]
  {
    var collected := [Collected(FormatId(0, 0), own), Collected(FormatId(1, 0), foreign)];
    TwoTurnsRecorded(own, foreign);
    FirstTurnDecides(0, TWO_TURNS, [Call(0, "Read")], collected, responses);
    assert responses[0] == ResponsePart("Read", LastText(collected, 0));
  }

  /** The one right answer, when only the first of two results has the id. */
  lemma {:induction false} OwnAnswer(first: Collected, second: Collected, output: string)
    requires first.id != second.id
    ensures AnswerOf([first, second], first.id, output) <==> output == Concat(TextsIn(first.content))
  {
    assert forall r :: r in [first, second] <==> r == first || r == second;
    assert first in [first, second];
  }

  /** Two turns with one call each: the first turn's call is answered with the second turn's result. */
  lemma {:induction false} MixedTurnsAreConfused(own: seq<ContentBlock>, foreign: seq<ContentBlock>, responses: seq<WirePart>)
    requires Concat(TextsIn(foreign)) != Concat(TextsIn(own))
    requires AreResponses(TWO_TURNS, [Collected(FormatId(0, 0), own), Collected(FormatId(1, 0), foreign)], responses)
    ensures responses == [ResponsePart("Read", Concat(TextsIn(foreign)))]
    ensures !PairedByPosition(0, [Call(0, "Read")], [Collected(FormatId(0, 0), own), Collected(FormatId(1, 0), foreign)], responses)
  {
    TwoTurnsRecorded(own, foreign);
    SecondTurnAnswers(own, foreign, responses);
    OwnAnswer(Collected(FormatId(0, 0), own), Collected(FormatId(1, 0), foreign), responses[0].output);
    assert responses[0].output == Concat(TextsIn(foreign));
  }
}
