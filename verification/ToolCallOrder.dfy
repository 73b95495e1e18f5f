/**
 Gemini's parallel tool calls: synthesised ids, the order tracker, and the translator loop
 that records every function call at its absolute position in the turn.
 */
module ToolCallOrder {
  import opened Options
  import opened Sequences
  import opened Json

  // ---------------------------------------------------------------- ids

  /** `usize` on a 64-bit machine. */
  const USIZE_MAX: nat := 0xffff_ffff_ffff_ffff

  const ID_PREFIX := "gemini-call-"

  function DigitChar(d: nat): char
    requires d < 10
  {
    ('0' as int + d) as char
  }

  predicate IsDigit(c: char) {
    '0' <= c <= '9'
  }

  function DigitOf(c: char): nat
    requires IsDigit(c)
  {
    c as int - '0' as int
  }

  /** Decimal notation without leading zeros. */
  function Decimal(n: nat): (s: string)
    ensures s != "" && forall c :: c in s ==> IsDigit(c)
  {
    if n < 10 then [DigitChar(n)] else Decimal(n / 10) + [DigitChar(n % 10)]
  }

  /** The number a digit string denotes. */
  function Value(s: string): nat
    requires forall c :: c in s ==> IsDigit(c)
  {
    if s == "" then 0 else 10 * Value(s[..|s| - 1]) + DigitOf(s[|s| - 1])
  }

  /** `str::parse::<usize>`: an optional plus sign, at least one digit, and no overflow. */
  function ParseUsize(s: string): Option<nat> {
    var digits := if s != "" && s[0] == '+' then s[1..] else s;
    if digits != "" && (forall c :: c in digits ==> IsDigit(c)) && Value(digits) <= USIZE_MAX
    then Some(Value(digits))
    else None
  }

  /** The position of the first dash. */
  function FirstDash(s: string): Option<nat> {
    if s == "" then None
    else if s[0] == '-' then Some(0)
    else match FirstDash(s[1..])
      case Some(i) => Some(i + 1)
      case None => None
  }

  function FormatId(turn: nat, part: nat): string {
    ID_PREFIX + Decimal(turn) + "-" + Decimal(part)
  }

  function ParseToolUseId(id: string): Option<(nat, nat)> {
    if !(ID_PREFIX <= id) then None
    else
      var rest := id[|ID_PREFIX|..];
      match FirstDash(rest)
      case None => None
      case Some(i) =>
        assert i < |rest| by { FirstDashIsInside(rest); }
        match (ParseUsize(rest[..i]), ParseUsize(rest[i + 1..]))
        case (Some(turn), Some(part)) => Some((turn, part))
        case _ => None
  }

  lemma {:induction false} FirstDashIsInside(s: string)
    ensures FirstDash(s).Some? ==> FirstDash(s).value < |s|
  {
    if s != "" && s[0] != '-' {
      FirstDashIsInside(s[1..]);
    }
  }

  lemma {:induction false} FirstDashAfter(head: string, tail: string)
    requires '-' !in head
    ensures FirstDash(head + "-" + tail) == Some(|head|)
  {
    var s := head + "-" + tail;
    if head != "" {
      assert s[1..] == head[1..] + "-" + tail;
      FirstDashAfter(head[1..], tail);
    }
  }

  lemma {:induction false} ValueOfDecimal(n: nat)
    ensures Value(Decimal(n)) == n
  {
    var s := Decimal(n);
    if n < 10 {
      assert s[..0] == "";
    } else {
      ValueOfDecimal(n / 10);
      assert s[..|s| - 1] == Decimal(n / 10);
    }
  }

  lemma {:induction false} ParseDecimal(n: nat)
    requires n <= USIZE_MAX
    ensures ParseUsize(Decimal(n)) == Some(n)
  {
    ValueOfDecimal(n);
    assert Decimal(n)[0] in Decimal(n);
  }

  /** A recorded id parses back to its turn and part, for every pair of machine integers. */
  lemma {:induction false} IdRoundTrip(turn: nat, part: nat)
    requires turn <= USIZE_MAX && part <= USIZE_MAX
    ensures ParseToolUseId(FormatId(turn, part)) == Some((turn, part))
  {
    var id := FormatId(turn, part);
    var rest := id[|ID_PREFIX|..];
    assert id == ID_PREFIX + (Decimal(turn) + "-" + Decimal(part));
    assert rest == Decimal(turn) + "-" + Decimal(part);
    FirstDashAfter(Decimal(turn), Decimal(part));
    assert rest[..|Decimal(turn)|] == Decimal(turn) && rest[|Decimal(turn)| + 1..] == Decimal(part);
    ParseDecimal(turn);
    ParseDecimal(part);
  }

  /** Distinct calls never share an id. */
  lemma {:induction false} IdsDistinct(turn0: nat, part0: nat, turn1: nat, part1: nat)
    requires turn0 <= USIZE_MAX && part0 <= USIZE_MAX && turn1 <= USIZE_MAX && part1 <= USIZE_MAX
    ensures FormatId(turn0, part0) == FormatId(turn1, part1) <==> (turn0, part0) == (turn1, part1)
  {
    IdRoundTrip(turn0, part0);
    IdRoundTrip(turn1, part1);
  }

  /** Decimal digits that do not overflow. */
  predicate IsNumber(digits: string, n: nat) {
    && digits != "" && (forall c :: c in digits ==> '0' <= c <= '9')
    && Value(digits) == n && n <= 18_446_744_073_709_551_615
  }

  /** What `str::parse::<usize>` accepts, and as which number. */
  predicate Denotes(s: string, n: nat) {
    IsNumber(s, n) || (s != "" && s[0] == '+' && IsNumber(s[1..], n))
  }

  lemma {:induction false} NumberIs(digits: string, n: nat)
    ensures IsNumber(digits, n) <==>
              digits != "" && (forall c :: c in digits ==> IsDigit(c)) && Value(digits) == n && n <= USIZE_MAX
  {
  }

  lemma {:induction false} ParseUsizeIff(s: string, n: nat)
    ensures ParseUsize(s) == Some(n) <==> Denotes(s, n)
  {
    NumberIs(s, n);
    if s != "" && s[0] == '+' {
      assert s[0] in s;
      NumberIs(s[1..], n);
    }
  }

  lemma {:induction false} FirstDashSplits(s: string, head: string, tail: string)
    requires '-' !in head
    ensures s == head + "-" + tail <==> FirstDash(s) == Some(|head|) && |head| < |s| && s[..|head|] == head && s[|head| + 1..] == tail
  {
    if s == head + "-" + tail {
      FirstDashAfter(head, tail);
    } else if FirstDash(s) == Some(|head|) && |head| < |s| {
      FirstDashIs(s);
      assert s == s[..|head|] + [s[|head|]] + s[|head| + 1..];
    }
  }

  lemma {:induction false} FirstDashIs(s: string)
    ensures FirstDash(s).Some? ==> FirstDash(s).value < |s| && s[FirstDash(s).value] == '-' && '-' !in s[..FirstDash(s).value]
  {
    if s != "" && s[0] != '-' && FirstDash(s[1..]).Some? {
      FirstDashIs(s[1..]);
      var i := FirstDash(s[1..]).value;
      assert s[..i + 1] == [s[0]] + s[1..][..i];
    }
  }

  /** The text that follows the prefix, cut at its first dash, names the turn and the part. */
  ghost predicate Names(rest: string, turn: nat, part: nat) {
    exists head, tail :: rest == head + "-" + tail && '-' !in head && Denotes(head, turn) && Denotes(tail, part)
  }

  lemma {:induction false} RestParses(rest: string, turn: nat, part: nat)
    ensures Names(rest, turn, part) <==>
              match FirstDash(rest)
              case None => false
              case Some(i) => i < |rest| && ParseUsize(rest[..i]) == Some(turn) && ParseUsize(rest[i + 1..]) == Some(part)
  {
    FirstDashIs(rest);
    if FirstDash(rest).Some? {
      var i := FirstDash(rest).value;
      FirstDashSplits(rest, rest[..i], rest[i + 1..]);
      ParseUsizeIff(rest[..i], turn);
      ParseUsizeIff(rest[i + 1..], part);
    }
    forall head, tail | rest == head + "-" + tail && '-' !in head
      ensures FirstDash(rest) == Some(|head|) && rest[..|head|] == head && rest[|head| + 1..] == tail
    {
      FirstDashSplits(rest, head, tail);
    }
  }

  /** Exactly the ids of the documented shape parse, as the turn and the part that they name. */
  lemma {:induction false} ParsesIff(id: string, turn: nat, part: nat)
    ensures ParseToolUseId(id) == Some((turn, part)) <==> exists rest :: id == "gemini-call-" + rest && Names(rest, turn, part)
  {
    forall rest | id == "gemini-call-" + rest
      ensures ID_PREFIX <= id && id[|ID_PREFIX|..] == rest
    {
    }
    if ID_PREFIX <= id {
      var rest := id[|ID_PREFIX|..];
      assert id == "gemini-call-" + rest;
      RestParses(rest, turn, part);
      FirstDashIs(rest);
      assert ParseToolUseId(id) == Some((turn, part)) <==> Names(rest, turn, part);
    }
  }

  /** Ids as the documentation shows them. */
  lemma {:induction false} IdsLookLike(turn: nat, part: nat)
    ensures FormatId(turn, part) == "gemini-call-" + Decimal(turn) + "-" + Decimal(part)
    ensures FormatId(0, 12) == "gemini-call-0-12"
  {
    assert Decimal(0) == "0" && Decimal(12) == "1" + "2" == "12";
    assert FormatId(0, 12) == "gemini-call-" + "0" + "-" + "12";
    assert "gemini-call-" + "0" + "-" + "12" == "gemini-call-0-12";
  }

  // ---------------------------------------------------------------- the tracker

  type Calls = map<(nat, nat), string>

  /** A recorded call of one turn. */
  datatype Call = Call(part: nat, name: string)

  predicate SortedByPart(calls: seq<Call>) {
    forall i, j :: 0 <= i < j < |calls| ==> calls[i].part < calls[j].part
  }

  /** `parts` lists exactly the calls recorded for `turn`, by increasing part index. */
  ghost predicate IsPartsOf(calls: Calls, turn: nat, parts: seq<Call>) {
    SortedByPart(parts) && forall c: Call :: c in parts <==> (turn, c.part) in calls && calls[(turn, c.part)] == c.name
  }

  lemma {:induction false} SortedCallsUnique(a: seq<Call>, b: seq<Call>)
    requires SortedByPart(a) && SortedByPart(b) && forall c :: c in a <==> c in b
    ensures a == b
  {
    if a == [] {
      if b != [] {
        HasCall(b);
        assert false;
      }
    } else {
      assert a[0] in a;
      assert a[0] in b && b[0] in b;
      assert a[0].part <= b[0].part && b[0].part <= a[0].part;
      assert a[0] == b[0];
      forall c
        ensures c in a[1..] <==> c in b[1..]
      {
        LaterCalls(a, c);
        LaterCalls(b, c);
      }
      SortedCallsUnique(a[1..], b[1..]);
      assert a == [a[0]] + a[1..] && b == [b[0]] + b[1..];
    }
  }

  lemma {:induction false} HasCall(calls: seq<Call>)
    requires calls != []
    ensures exists c :: c in calls
  {
    assert calls[0] in calls;
  }

  lemma {:induction false} LaterCalls(calls: seq<Call>, c: Call)
    requires SortedByPart(calls) && calls != []
    ensures c in calls[1..] <==> c in calls && c != calls[0]
  {
    if c in calls && c != calls[0] {
      var i :| 0 <= i < |calls| && calls[i] == c;
      assert calls[1..][i - 1] == c;
    }
    if c in calls[1..] {
      var i :| 0 <= i < |calls[1..]| && calls[1..][i] == c;
      assert calls[i + 1] == c && calls[0].part < calls[i + 1].part;
    }
  }

  lemma {:induction false} PartsUnique(calls: Calls, turn: nat, a: seq<Call>, b: seq<Call>)
    requires IsPartsOf(calls, turn, a) && IsPartsOf(calls, turn, b)
    ensures a == b
  {
    SortedCallsUnique(a, b);
  }

  lemma {:induction false} PrependKeepsSorted(c: Call, rest: seq<Call>)
    requires SortedByPart(rest) && forall d :: d in rest ==> c.part < d.part
    ensures SortedByPart([c] + rest)
  {
    assert forall i :: 0 <= i < |rest| ==> rest[i] in rest;
  }

  function InsertCall(c: Call, calls: seq<Call>): (r: seq<Call>)
    requires SortedByPart(calls) && forall d :: d in calls ==> d.part != c.part
    ensures SortedByPart(r) && forall d :: d in r <==> d == c || d in calls
  {
    if calls == [] then [c]
    else if c.part < calls[0].part then [c] + calls
    else
      assert calls == [calls[0]] + calls[1..];
      assert calls[0] in calls;
      var rest := InsertCall(c, calls[1..]);
      assert forall d :: d in rest ==> calls[0].part < d.part by {
        forall d | d in rest ensures calls[0].part < d.part { LaterCalls(calls, d); }
      }
      PrependKeepsSorted(calls[0], rest);
      [calls[0]] + rest
  }

  /** The name recorded for a call, if it was. */
  function NameOf(calls: Calls, turn: nat, part: nat): Option<string> {
    if (turn, part) in calls then Some(calls[(turn, part)]) else None
  }

  class ToolCallOrderTracker {
    var calls: Calls

    constructor ()
      ensures calls == map[]
    {
      calls := map[];
    }

    method Record(turn: nat, part: nat, name: string) returns (id: string)
      modifies this
      ensures calls == old(calls)[(turn, part) := name] && id == FormatId(turn, part)
    {
      calls := calls[(turn, part) := name];
      return FormatId(turn, part);
    }

    /** Collects the turn's calls in whatever order the table yields them, and sorts them. */
    method PartsForTurn(turn: nat) returns (parts: seq<Call>)
      ensures IsPartsOf(calls, turn, parts)
    {
      var todo := set k | k in calls.Keys && k.0 == turn;
      parts := [];
      while todo != {}
        invariant forall k :: k in todo ==> k in calls && k.0 == turn
        invariant SortedByPart(parts)
        invariant forall c: Call :: c in parts <==>
                    (turn, c.part) in calls && calls[(turn, c.part)] == c.name && (turn, c.part) !in todo
        decreases todo
      {
        var k :| k in todo;
        assert k == (turn, k.1);
        parts := InsertCall(Call(k.1, calls[k]), parts);
        todo := todo - {k};
      }
    }
  }

  // ---------------------------------------------------------------- the translator

  datatype FunctionCall = FunctionCall(name: Option<string>, args: Option<Json>)

  /** One element of a stream event's `parts` array, as far as the translator looks at it. */
  datatype StreamPart = StreamPart(text: Option<string>, functionCall: Option<FunctionCall>) {
    predicate IsCall() { text.None? && functionCall.Some? }

    /** A call without a name is recorded under the empty name. */
    function CallName(): string
      requires IsCall()
    {
      functionCall.value.name.GetOr("")
    }
  }

  datatype StreamEvent = StreamEvent(parts: seq<StreamPart>, finishReason: Option<string>, usage: Option<string>)

  datatype Arrival = Arrived(event: StreamEvent) | Failed(message: string)

  datatype Completion =
    | AssistantText(text: string)
    | ToolUse(id: string, name: string, input: Json)
    | UsageReport(usage: string)
    | TurnComplete(finishReason: string, hadCalls: bool)
    | Failure(message: string)

  /** The loop's variables: next part index, whether a call was seen, and the shared table. */
  datatype TurnState = TurnState(nextPart: nat, hadCalls: bool, calls: Calls)

  function StepPart(turn: nat, st: TurnState, p: StreamPart): (TurnState, seq<Completion>) {
    var moved := st.(nextPart := st.nextPart + 1);
    if p.text.Some? then (moved, [AssistantText(p.text.value)])
    else if p.functionCall.Some? then
      (moved.(hadCalls := true, calls := st.calls[(turn, st.nextPart) := p.CallName()]),
       [ToolUse(FormatId(turn, st.nextPart), p.CallName(), p.functionCall.value.args.GetOr(EMPTY_OBJECT))])
    else (moved, [])
  }

  function StepParts(turn: nat, st: TurnState, parts: seq<StreamPart>): (TurnState, seq<Completion>)
    decreases |parts|
  {
    if parts == [] then (st, [])
    else
      var (st1, out1) := StepPart(turn, st, parts[0]);
      var (st2, out2) := StepParts(turn, st1, parts[1..]);
      (st2, out1 + out2)
  }

  function Ending(ev: StreamEvent, hadCalls: bool): seq<Completion>
    requires ev.finishReason.Some?
  {
    (if ev.usage.Some? then [UsageReport(ev.usage.value)] else []) + [TurnComplete(ev.finishReason.value, hadCalls)]
  }

  /** The loop over a turn's events: it ends after a failure, after a finish reason, or with the stream. */
  function Translate(turn: nat, st: TurnState, items: seq<Arrival>): (TurnState, seq<Completion>)
    decreases |items|
  {
    if items == [] then (st, [])
    else match items[0]
      case Failed(m) => (st, [Failure(m)])
      case Arrived(ev) =>
        var (st1, out1) := StepParts(turn, st, ev.parts);
        if ev.finishReason.Some? then (st1, out1 + Ending(ev, st1.hadCalls))
        else
          var (st2, out2) := Translate(turn, st1, items[1..]);
          (st2, out1 + out2)
  }

  /** Sends one part and, if it is a call, records it at its position. */
  method SendPart(tracker: ToolCallOrderTracker, turn: nat, part: StreamPart, partIndex: nat, hadCalls: bool)
    returns (sent: seq<Completion>, hadCalls': bool)
    modifies tracker
    ensures (TurnState(partIndex + 1, hadCalls', tracker.calls), sent)
            == StepPart(turn, TurnState(partIndex, hadCalls, old(tracker.calls)), part)
  {
    sent, hadCalls' := [], hadCalls;
    if part.text.Some? {
      sent := [AssistantText(part.text.value)];
    } else if part.functionCall.Some? {
      hadCalls' := true;
      var name := part.functionCall.value.name.GetOr("");
      var input := part.functionCall.value.args.GetOr(EMPTY_OBJECT);
      var id := tracker.Record(turn, partIndex, name);
      sent := [ToolUse(id, name, input)];
    }
  }

  /** Sends the parts of one event. */
  method SendParts(tracker: ToolCallOrderTracker, turn: nat, parts: seq<StreamPart>, nextPart: nat, hadCalls: bool)
    returns (sent: seq<Completion>, nextPart': nat, hadCalls': bool)
    modifies tracker
    ensures (TurnState(nextPart', hadCalls', tracker.calls), sent)
            == StepParts(turn, TurnState(nextPart, hadCalls, old(tracker.calls)), parts)
  {
    ghost var goal := StepParts(turn, TurnState(nextPart, hadCalls, tracker.calls), parts);
    sent, nextPart', hadCalls' := [], nextPart, hadCalls;
    var i := 0;
    assert parts[0..] == parts;
    while i < |parts|
      invariant 0 <= i <= |parts|
      invariant goal.0 == StepParts(turn, TurnState(nextPart', hadCalls', tracker.calls), parts[i..]).0
      invariant goal.1 == sent + StepParts(turn, TurnState(nextPart', hadCalls', tracker.calls), parts[i..]).1
    {
      assert parts[i..][0] == parts[i] && parts[i..][1..] == parts[i + 1..];
      ghost var before := sent;
      var out;
      out, hadCalls' := SendPart(tracker, turn, parts[i], nextPart', hadCalls');
      nextPart', i := nextPart' + 1, i + 1;
      sent := sent + out;
      Reassociate(before, out, StepParts(turn, TurnState(nextPart', hadCalls', tracker.calls), parts[i..]).1);
    }
    assert parts[|parts|..] == [] && sent + [] == sent;
  }

  /** The terminal event, after the usage report if there is one. */
  method SendEnding(ev: StreamEvent, hadCalls: bool) returns (sent: seq<Completion>)
    requires ev.finishReason.Some?
    ensures sent == Ending(ev, hadCalls)
  {
    sent := [];
    if ev.usage.Some? {
      sent := sent + [UsageReport(ev.usage.value)];
    }
    sent := sent + [TurnComplete(ev.finishReason.value, hadCalls)];
  }

  /** The translator; the turn may be cancelled before any item, which cuts `items` short. */
  method RunTranslator(tracker: ToolCallOrderTracker, turn: nat, items: seq<Arrival>) returns (sent: seq<Completion>)
    modifies tracker
    ensures (tracker.calls, sent)
            == (Translate(turn, TurnState(0, false, old(tracker.calls)), items).0.calls,
                Translate(turn, TurnState(0, false, old(tracker.calls)), items).1)
  {
    ghost var goal := Translate(turn, TurnState(0, false, tracker.calls), items);
    var nextPart, hadCalls, i := 0, false, 0;
    sent := [];
    assert items[0..] == items;
    while i < |items|
      invariant 0 <= i <= |items|
      invariant goal.0 == Translate(turn, TurnState(nextPart, hadCalls, tracker.calls), items[i..]).0
      invariant goal.1 == sent + Translate(turn, TurnState(nextPart, hadCalls, tracker.calls), items[i..]).1
    {
      assert items[i..][0] == items[i] && items[i..][1..] == items[i + 1..];
      if items[i].Failed? {
        sent := sent + [Failure(items[i].message)];
        return;
      }
      var ev := items[i].event;
      ghost var before := sent;
      var out;
      out, nextPart, hadCalls := SendParts(tracker, turn, ev.parts, nextPart, hadCalls);
      sent := sent + out;
      if ev.finishReason.Some? {
        var ending := SendEnding(ev, hadCalls);
        Reassociate(before, out, ending);
        return sent + ending;
      }
      i := i + 1;
      Reassociate(before, out, Translate(turn, TurnState(nextPart, hadCalls, tracker.calls), items[i..]).1);
    }
    assert items[|items|..] == [] && sent + [] == sent;
  }

  // ---------------------------------------------------------------- what a turn records

  /** The calls among `parts`, at the absolute positions they have when `parts` starts at `index`. */
  function CallsIn(index: nat, parts: seq<StreamPart>): seq<Call>
    decreases |parts|
  {
    if parts == [] then [] else CallAt(index, parts[0]) + CallsIn(index + 1, parts[1..])
  }

  function CallAt(index: nat, part: StreamPart): seq<Call> {
    if part.IsCall() then [Call(index, part.CallName())] else []
  }

  /** Every part the loop gets to see, across all events of the turn. */
  function PartsSeen(items: seq<Arrival>): seq<StreamPart>
    decreases |items|
  {
    if items == [] || items[0].Failed? then []
    else items[0].event.parts + if items[0].event.finishReason.Some? then [] else PartsSeen(items[1..])
  }

  /** The tool calls a turn emits, read off its parts. */
  function EmittedCalls(items: seq<Arrival>): seq<Call> {
    CallsIn(0, PartsSeen(items))
  }

  lemma {:induction false} CallsInAppend(index: nat, a: seq<StreamPart>, b: seq<StreamPart>)
    ensures CallsIn(index, a + b) == CallsIn(index, a) + CallsIn(index + |a|, b)
    decreases |a|
  {
    if a == [] {
      assert a + b == b;
    } else {
      assert (a + b)[0] == a[0] && (a + b)[1..] == a[1..] + b;
      CallsInAppend(index + 1, a[1..], b);
      Reassociate(CallAt(index, a[0]), CallsIn(index + 1, a[1..]), CallsIn(index + |a|, b));
    }
  }

  lemma {:induction false} CallsInAreSorted(index: nat, parts: seq<StreamPart>)
    ensures SortedByPart(CallsIn(index, parts))
    ensures forall c :: c in CallsIn(index, parts) ==> index <= c.part < index + |parts|
    decreases |parts|
  {
    if parts != [] {
      CallsInAreSorted(index + 1, parts[1..]);
    }
  }

  /** The table with the calls of one turn added. */
  function WithCalls(calls: Calls, turn: nat, added: seq<Call>): Calls
    decreases |added|
  {
    if added == [] then calls else WithCalls(calls[(turn, added[0].part) := added[0].name], turn, added[1..])
  }

  lemma {:induction false} WithCallsAppend(calls: Calls, turn: nat, a: seq<Call>, b: seq<Call>)
    ensures WithCalls(calls, turn, a + b) == WithCalls(WithCalls(calls, turn, a), turn, b)
    decreases |a|
  {
    if a == [] {
      assert a + b == b;
    } else {
      assert (a + b)[1..] == a[1..] + b;
      WithCallsAppend(calls[(turn, a[0].part) := a[0].name], turn, a[1..], b);
    }
  }

  /** The id and the name that a tool use is announced with. */
  datatype Label = Label(id: string, name: string)

  function LabelOf(c: Completion): seq<Label> {
    if c.ToolUse? then [Label(c.id, c.name)] else []
  }

  /** What is announced among `out`, in order. */
  function Announced(out: seq<Completion>): seq<Label> {
    if out == [] then [] else LabelOf(out[0]) + Announced(out[1..])
  }

  /** The calls of a turn under their recorded ids. */
  function Labels(turn: nat, emitted: seq<Call>): seq<Label> {
    seq(|emitted|, i requires 0 <= i < |emitted| => Label(FormatId(turn, emitted[i].part), emitted[i].name))
  }

  /** The tool uses among `out` are the emitted calls, each with its id and its name. */
  predicate Announces(turn: nat, out: seq<Completion>, emitted: seq<Call>) {
    Announced(out) == Labels(turn, emitted)
  }

  lemma {:induction false} AnnouncedAppend(a: seq<Completion>, b: seq<Completion>)
    ensures Announced(a + b) == Announced(a) + Announced(b)
  {
    if a == [] {
      assert a + b == b;
    } else {
      assert (a + b)[0] == a[0] && (a + b)[1..] == a[1..] + b;
      AnnouncedAppend(a[1..], b);
      Reassociate(LabelOf(a[0]), Announced(a[1..]), Announced(b));
    }
  }

  lemma {:induction false} AnnouncesAppend(turn: nat, a: seq<Completion>, b: seq<Completion>, ea: seq<Call>, eb: seq<Call>)
    requires Announces(turn, a, ea) && Announces(turn, b, eb)
    ensures Announces(turn, a + b, ea + eb)
  {
    AnnouncedAppend(a, b);
    assert Labels(turn, ea + eb) == Labels(turn, ea) + Labels(turn, eb);
  }

  lemma {:induction false} StepPartRecords(turn: nat, st: TurnState, part: StreamPart)
    ensures var (st', out) := StepPart(turn, st, part);
            && st'.nextPart == st.nextPart + 1
            && st'.calls == WithCalls(st.calls, turn, CallAt(st.nextPart, part))
            && Announces(turn, out, CallAt(st.nextPart, part))
  {
    var out, first := StepPart(turn, st, part).1, CallAt(st.nextPart, part);
    assert (out != [] ==> out[1..] == []) && (first != [] ==> first[1..] == []);
  }

  /** The table gained exactly the calls that the outputs announce. */
  predicate Records(turn: nat, before: Calls, after: Calls, out: seq<Completion>, emitted: seq<Call>) {
    after == WithCalls(before, turn, emitted) && Announces(turn, out, emitted)
  }

  lemma {:induction false} RecordsAppend(turn: nat, c0: Calls, c1: Calls, c2: Calls, out1: seq<Completion>, out2: seq<Completion>, e1: seq<Call>, e2: seq<Call>)
    requires Records(turn, c0, c1, out1, e1) && Records(turn, c1, c2, out2, e2)
    ensures Records(turn, c0, c2, out1 + out2, e1 + e2)
  {
    AnnouncesAppend(turn, out1, out2, e1, e2);
    WithCallsAppend(c0, turn, e1, e2);
  }

  lemma {:induction false} StepPartsRecords(turn: nat, st: TurnState, parts: seq<StreamPart>)
    ensures var (st', out) := StepParts(turn, st, parts);
            st'.nextPart == st.nextPart + |parts| && Records(turn, st.calls, st'.calls, out, CallsIn(st.nextPart, parts))
    decreases |parts|
  {
    if parts != [] {
      var (st1, out1) := StepPart(turn, st, parts[0]);
      StepPartRecords(turn, st, parts[0]);
      StepPartsRecords(turn, st1, parts[1..]);
      var (st2, out2) := StepParts(turn, st1, parts[1..]);
      RecordsAppend(turn, st.calls, st1.calls, st2.calls, out1, out2,
                    CallAt(st.nextPart, parts[0]), CallsIn(st.nextPart + 1, parts[1..]));
    }
  }

  lemma {:induction false} EndingAnnouncesNothing(turn: nat, ev: StreamEvent, hadCalls: bool)
    requires ev.finishReason.Some?
    ensures Announces(turn, Ending(ev, hadCalls), [])
  {
    var usage := if ev.usage.Some? then [UsageReport(ev.usage.value)] else [];
    var done := [TurnComplete(ev.finishReason.value, hadCalls)];
    assert done[1..] == [] && (usage != [] ==> usage[1..] == []);
    AnnouncedAppend(usage, done);
  }

  lemma {:induction false} TurnEnds(turn: nat, st: TurnState, ev: StreamEvent)
    requires ev.finishReason.Some?
    ensures var (st1, out) := StepParts(turn, st, ev.parts);
            Records(turn, st.calls, st1.calls, out + Ending(ev, st1.hadCalls), CallsIn(st.nextPart, ev.parts))
  {
    var (st1, out) := StepParts(turn, st, ev.parts);
    var emitted := CallsIn(st.nextPart, ev.parts);
    StepPartsRecords(turn, st, ev.parts);
    EndingAnnouncesNothing(turn, ev, st1.hadCalls);
    RecordsAppend(turn, st.calls, st1.calls, st1.calls, out, Ending(ev, st1.hadCalls), emitted, []);
    assert emitted + [] == emitted;
  }

  /** Parts and what follows them, when each records what it emits. */
  lemma {:induction false} PartsGoOn(turn: nat, index: nat, parts: seq<StreamPart>, rest: seq<StreamPart>,
                                     c0: Calls, c1: Calls, c2: Calls, out: seq<Completion>, later: seq<Completion>)
    requires Records(turn, c0, c1, out, CallsIn(index, parts)) && Records(turn, c1, c2, later, CallsIn(index + |parts|, rest))
    ensures Records(turn, c0, c2, out + later, CallsIn(index, parts + rest))
  {
    CallsInAppend(index, parts, rest);
    RecordsAppend(turn, c0, c1, c2, out, later, CallsIn(index, parts), CallsIn(index + |parts|, rest));
  }

  /** A turn records exactly the calls it emits, under the ids and names it announces them with. */
  lemma {:induction false} TurnRecordsItsCalls(turn: nat, st: TurnState, items: seq<Arrival>)
    ensures var (st', out) := Translate(turn, st, items);
            Records(turn, st.calls, st'.calls, out, CallsIn(st.nextPart, PartsSeen(items)))
    decreases |items|
  {
    if items == [] {
    } else if items[0].Failed? {
      assert [Failure(items[0].message)][1..] == [];
    } else {
      var ev := items[0].event;
      if ev.finishReason.Some? {
        TurnEnds(turn, st, ev);
        assert ev.parts + [] == ev.parts;
      } else {
        var (st1, out) := StepParts(turn, st, ev.parts);
        var (st2, later) := Translate(turn, st1, items[1..]);
        StepPartsRecords(turn, st, ev.parts);
        TurnRecordsItsCalls(turn, st1, items[1..]);
        PartsGoOn(turn, st.nextPart, ev.parts, PartsSeen(items[1..]), st.calls, st1.calls, st2.calls, out, later);
      }
    }
  }

  // ---------------------------------------------------------------- what a turn passes on

  /** What one part amounts to, whatever id its call is given. */
  datatype Passage = Words(text: string) | Invocation(name: string, args: Json)

  function PassageOf(c: Completion): seq<Passage> {
    match c
    case AssistantText(text) => [Words(text)]
    case ToolUse(_, name, input) => [Invocation(name, input)]
    case _ => []
  }

  function Passages(out: seq<Completion>): seq<Passage> {
    if out == [] then [] else PassageOf(out[0]) + Passages(out[1..])
  }

  /** A text wins over a call in the same part; a part with neither is skipped. */
  function PassageIn(part: StreamPart): seq<Passage> {
    if part.text.Some? then [Words(part.text.value)]
    else if part.functionCall.Some? then [Invocation(part.CallName(), part.functionCall.value.args.GetOr(EMPTY_OBJECT))]
    else []
  }

  function PassagesIn(parts: seq<StreamPart>): seq<Passage> {
    if parts == [] then [] else PassageIn(parts[0]) + PassagesIn(parts[1..])
  }

  lemma {:induction false} PassagesAppend(a: seq<Completion>, b: seq<Completion>)
    ensures Passages(a + b) == Passages(a) + Passages(b)
  {
    if a == [] {
      assert a + b == b;
    } else {
      assert (a + b)[0] == a[0] && (a + b)[1..] == a[1..] + b;
      PassagesAppend(a[1..], b);
      Reassociate(PassageOf(a[0]), Passages(a[1..]), Passages(b));
    }
  }

  lemma {:induction false} PassagesInAppend(a: seq<StreamPart>, b: seq<StreamPart>)
    ensures PassagesIn(a + b) == PassagesIn(a) + PassagesIn(b)
  {
    if a == [] {
      assert a + b == b;
    } else {
      assert (a + b)[0] == a[0] && (a + b)[1..] == a[1..] + b;
      PassagesInAppend(a[1..], b);
      Reassociate(PassageIn(a[0]), PassagesIn(a[1..]), PassagesIn(b));
    }
  }

  lemma {:induction false} StepPartsCount(turn: nat, st: TurnState, parts: seq<StreamPart>)
    ensures StepParts(turn, st, parts).0.nextPart == st.nextPart + |parts|
    decreases |parts|
  {
    if parts != [] {
      StepPartsCount(turn, StepPart(turn, st, parts[0]).0, parts[1..]);
    }
  }

  lemma {:induction false} StepPartsPassOn(turn: nat, st: TurnState, parts: seq<StreamPart>)
    ensures Passages(StepParts(turn, st, parts).1) == PassagesIn(parts)
    decreases |parts|
  {
    if parts != [] {
      var (st1, out1) := StepPart(turn, st, parts[0]);
      var out2 := StepParts(turn, st1, parts[1..]).1;
      StepPartPassesOn(turn, st, parts[0]);
      StepPartsPassOn(turn, st1, parts[1..]);
      PassagesAppend(out1, out2);
    }
  }

  lemma {:induction false} StepPartPassesOn(turn: nat, st: TurnState, part: StreamPart)
    ensures Passages(StepPart(turn, st, part).1) == PassageIn(part)
  {
    var out := StepPart(turn, st, part).1;
    assert out != [] ==> out[1..] == [];
  }

  /** After some parts the translator knows whether there was any call. */
  lemma {:induction false} StepPartsHadCalls(turn: nat, st: TurnState, parts: seq<StreamPart>)
    ensures StepParts(turn, st, parts).0.hadCalls <==> st.hadCalls || CallsIn(st.nextPart, parts) != []
    decreases |parts|
  {
    if parts != [] {
      StepPartsHadCalls(turn, StepPart(turn, st, parts[0]).0, parts[1..]);
    }
  }

  lemma {:induction false} EndingPassesNothing(ev: StreamEvent, hadCalls: bool)
    requires ev.finishReason.Some?
    ensures Passages(Ending(ev, hadCalls)) == []
  {
    var usage := if ev.usage.Some? then [UsageReport(ev.usage.value)] else [];
    var done := [TurnComplete(ev.finishReason.value, hadCalls)];
    assert done[1..] == [] && (usage != [] ==> usage[1..] == []);
    PassagesAppend(usage, done);
  }

  /** Every text and every call with its arguments is sent, once and in the order of the parts, and nothing else of the kind. */
  lemma {:induction false} PartsArePassedOn(turn: nat, st: TurnState, items: seq<Arrival>)
    ensures Passages(Translate(turn, st, items).1) == PassagesIn(PartsSeen(items))
    decreases |items|
  {
    if items == [] {
    } else if items[0].Failed? {
      assert [Failure(items[0].message)][1..] == [];
    } else {
      var ev := items[0].event;
      var (st1, out1) := StepParts(turn, st, ev.parts);
      StepPartsPassOn(turn, st, ev.parts);
      if ev.finishReason.Some? {
        EndingPassesNothing(ev, st1.hadCalls);
        PassagesAppend(out1, Ending(ev, st1.hadCalls));
        assert ev.parts + [] == ev.parts;
      } else {
        PartsArePassedOn(turn, st1, items[1..]);
        PassagesAppend(out1, Translate(turn, st1, items[1..]).1);
        PassagesInAppend(ev.parts, PartsSeen(items[1..]));
      }
    }
  }

  /** If `out` ends with the terminal event, that event carries `hadCalls`. */
  predicate EndTells(out: seq<Completion>, hadCalls: bool) {
    out != [] && out[|out| - 1].TurnComplete? ==> out[|out| - 1].hadCalls == hadCalls
  }

  lemma {:induction false} EndTellsAfter(out: seq<Completion>, later: seq<Completion>, hadCalls: bool)
    requires (forall c :: c in out ==> !c.TurnComplete?) && EndTells(later, hadCalls)
    ensures EndTells(out + later, hadCalls)
  {
    if later == [] && out != [] {
      assert out[|out| - 1] in out;
    }
  }

  lemma {:induction false} EndingTells(out: seq<Completion>, ev: StreamEvent, hadCalls: bool)
    requires ev.finishReason.Some?
    ensures EndTells(out + Ending(ev, hadCalls), hadCalls)
  {
  }

  lemma {:induction false} EndTellsFurther(index: nat, parts: seq<StreamPart>, rest: seq<StreamPart>, before: bool, between: bool,
                                           out: seq<Completion>, later: seq<Completion>)
    requires (forall c :: c in out ==> !c.TurnComplete?) && (between <==> before || CallsIn(index, parts) != [])
    requires EndTells(later, between || CallsIn(index + |parts|, rest) != [])
    ensures EndTells(out + later, before || CallsIn(index, parts + rest) != [])
  {
    CallsInAppend(index, parts, rest);
    EndTellsAfter(out, later, before || CallsIn(index, parts + rest) != []);
  }

  lemma {:induction false} EventEnds(turn: nat, st: TurnState, ev: StreamEvent)
    requires ev.finishReason.Some?
    ensures var (st1, out) := StepParts(turn, st, ev.parts);
            EndTells(out + Ending(ev, st1.hadCalls), st.hadCalls || CallsIn(st.nextPart, ev.parts) != [])
  {
    StepPartsHadCalls(turn, st, ev.parts);
    EndingTells(StepParts(turn, st, ev.parts).1, ev, StepParts(turn, st, ev.parts).0.hadCalls);
  }

  lemma {:induction false} EventGoesOn(turn: nat, st: TurnState, ev: StreamEvent, rest: seq<StreamPart>, later: seq<Completion>)
    requires var st1 := StepParts(turn, st, ev.parts).0; EndTells(later, st1.hadCalls || CallsIn(st1.nextPart, rest) != [])
    ensures EndTells(StepParts(turn, st, ev.parts).1 + later, st.hadCalls || CallsIn(st.nextPart, ev.parts + rest) != [])
  {
    var (st1, out) := StepParts(turn, st, ev.parts);
    StepPartsHadCalls(turn, st, ev.parts);
    StepPartsCount(turn, st, ev.parts);
    NoneIsComplete(turn, st, ev.parts);
    EndTellsFurther(st.nextPart, ev.parts, rest, st.hadCalls, st1.hadCalls, out, later);
  }

  /** The terminal event says whether the turn made any call. */
  lemma {:induction false} EndKnowsOfCalls(turn: nat, st: TurnState, items: seq<Arrival>)
    ensures EndTells(Translate(turn, st, items).1, st.hadCalls || CallsIn(st.nextPart, PartsSeen(items)) != [])
    decreases |items|
  {
    if items != [] && items[0].Arrived? {
      var ev := items[0].event;
      if ev.finishReason.Some? {
        EventEnds(turn, st, ev);
        assert ev.parts + [] == ev.parts;
      } else {
        var st1 := StepParts(turn, st, ev.parts).0;
        EndKnowsOfCalls(turn, st1, items[1..]);
        EventGoesOn(turn, st, ev, PartsSeen(items[1..]), Translate(turn, st1, items[1..]).1);
      }
    }
  }

  lemma {:induction false} NoneIsComplete(turn: nat, st: TurnState, parts: seq<StreamPart>)
    ensures forall c :: c in StepParts(turn, st, parts).1 ==> !c.TurnComplete?
    decreases |parts|
  {
    if parts != [] {
      NoneIsComplete(turn, StepPart(turn, st, parts[0]).0, parts[1..]);
    }
  }

  lemma {:induction false} WithCallsLookup(calls: Calls, turn: nat, added: seq<Call>, k: (nat, nat))
    requires SortedByPart(added)
    ensures var all := WithCalls(calls, turn, added);
            && (k in all <==> k in calls || (k.0 == turn && exists c :: c in added && c.part == k.1))
            && (forall c :: c in added && k == (turn, c.part) ==> all[k] == c.name)
            && (k in calls && (k.0 != turn || forall c :: c in added ==> c.part != k.1) ==> all[k] == calls[k])
    decreases |added|
  {
    if added != [] {
      var calls1 := calls[(turn, added[0].part) := added[0].name];
      WithCallsLookup(calls1, turn, added[1..], k);
      assert added[0] in added;
      assert forall c :: c in added <==> c == added[0] || c in added[1..];
    }
  }

  lemma {:induction false} RecordedCallsAre(turn: nat, calls: Calls, parts: seq<StreamPart>)
    requires forall p: nat :: (turn, p) !in calls
    ensures IsPartsOf(WithCalls(calls, turn, CallsIn(0, parts)), turn, CallsIn(0, parts))
  {
    var emitted := CallsIn(0, parts);
    CallsInAreSorted(0, parts);
    forall c: Call
      ensures var all := WithCalls(calls, turn, emitted);
              c in emitted <==> (turn, c.part) in all && all[(turn, c.part)] == c.name
    {
      WithCallsLookup(calls, turn, emitted, (turn, c.part));
      if d :| d in emitted && d.part == c.part {
        assert c in emitted ==> c == d;
      }
    }
  }

  /** After a turn with a fresh number, the table lists exactly the emitted calls for it, in emission order. */
  lemma {:induction false} RecordedPartsAreEmitted(turn: nat, calls: Calls, items: seq<Arrival>)
    requires forall p: nat :: (turn, p) !in calls
    ensures IsPartsOf(Translate(turn, TurnState(0, false, calls), items).0.calls, turn, EmittedCalls(items))
  {
    TurnRecordsItsCalls(turn, TurnState(0, false, calls), items);
    RecordedCallsAre(turn, calls, PartsSeen(items));
  }

  /** Recording one turn leaves every other turn's calls as they were. */
  lemma {:induction false} OtherTurnsUntouched(turn: nat, other: nat, calls: Calls, items: seq<Arrival>, parts: seq<Call>)
    requires other != turn && IsPartsOf(calls, other, parts)
    ensures IsPartsOf(Translate(turn, TurnState(0, false, calls), items).0.calls, other, parts)
  {
    TurnRecordsItsCalls(turn, TurnState(0, false, calls), items);
    CallsInAreSorted(0, PartsSeen(items));
    forall p: nat
      ensures var all := WithCalls(calls, turn, EmittedCalls(items));
              ((other, p) in all <==> (other, p) in calls) && ((other, p) in calls ==> all[(other, p)] == calls[(other, p)])
    {
      WithCallsLookup(calls, turn, EmittedCalls(items), (other, p));
    }
  }

  /** The client: one tracker for all its turns, and a counter that numbers them. */
  class GeminiClient {
    const tracker: ToolCallOrderTracker
    var turnCounter: nat

    /** Only turns that have been started have calls on record. */
    ghost predicate Valid()
      reads this, tracker
    {
      forall k :: k in tracker.calls ==> k.0 < turnCounter
    }

    constructor ()
      ensures Valid() && fresh(tracker) && turnCounter == 0
    {
      tracker := new ToolCallOrderTracker();
      turnCounter := 0;
    }

    /** Takes the next turn number and runs its translator; earlier turns keep their records. */
    method Complete(items: seq<Arrival>) returns (turn: nat, sent: seq<Completion>)
      requires Valid()
      modifies this, tracker
      ensures Valid() && turn == old(turnCounter) && turnCounter == turn + 1
      ensures IsPartsOf(tracker.calls, turn, EmittedCalls(items)) && Announces(turn, sent, EmittedCalls(items))
      ensures forall other: nat, parts :: other < turn && IsPartsOf(old(tracker.calls), other, parts) ==> IsPartsOf(tracker.calls, other, parts)
    {
      turn := turnCounter;
      turnCounter := turnCounter + 1;
      ghost var before := tracker.calls;
      RecordedPartsAreEmitted(turn, before, items);
      TurnRecordsItsCalls(turn, TurnState(0, false, before), items);
      CallsInAreSorted(0, PartsSeen(items));
      sent := RunTranslator(tracker, turn, items);
      forall k | k in tracker.calls
        ensures k.0 < turnCounter
      {
        WithCallsLookup(before, turn, EmittedCalls(items), k);
      }
      forall other: nat, parts | other < turn && IsPartsOf(before, other, parts)
        ensures IsPartsOf(tracker.calls, other, parts)
      {
        OtherTurnsUntouched(turn, other, before, items, parts);
      }
    }
  }
}
