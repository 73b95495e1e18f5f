/**
 Turns that run at the same time.  The client starts a translator for each turn and returns, so the
 parts of several turns may arrive in any interleaving; the translators share one tracker, whose lock
 is held for one recording at a time.
 */
module ConcurrentTurns {
  import opened Options
  import opened Sequences
  import opened ToolCallOrder

  /** A part that arrives for one of the running turns. */
  datatype Event = Event(turn: nat, part: StreamPart)

  /** A translator's own counter and flag. */
  datatype Own = Own(nextPart: nat, hadCalls: bool)

  /** The shared table, and what each translator keeps to itself. */
  datatype Shared = Shared(calls: Calls, own: map<nat, Own>) {
    function OwnOf(turn: nat): Own {
      if turn in own then own[turn] else Own(0, false)
    }
  }

  /** A completion together with the turn on whose channel it is sent. */
  datatype Sent = Sent(turn: nat, completion: Completion)

  function Addressed(turn: nat, out: seq<Completion>): seq<Sent> {
    seq(|out|, i requires 0 <= i < |out| => Sent(turn, out[i]))
  }

  /** One translator handles one part; every other translator stands still. */
  function Next(s: Shared, ev: Event): (Shared, seq<Sent>) {
    var own := s.OwnOf(ev.turn);
    var (st, out) := StepPart(ev.turn, TurnState(own.nextPart, own.hadCalls, s.calls), ev.part);
    (Shared(st.calls, s.own[ev.turn := Own(st.nextPart, st.hadCalls)]), Addressed(ev.turn, out))
  }

  function Run(s: Shared, events: seq<Event>): (Shared, seq<Sent>)
    decreases |events|
  {
    if events == [] then (s, [])
    else
      var (s1, out1) := Next(s, events[0]);
      var (s2, out2) := Run(s1, events[1..]);
      (s2, out1 + out2)
  }

  /** The parts of one turn, in order. */
  function PartsOf(events: seq<Event>, turn: nat): seq<StreamPart> {
    if events == [] then [] else (if events[0].turn == turn then [events[0].part] else []) + PartsOf(events[1..], turn)
  }

  function SentOn(out: seq<Sent>, turn: nat): seq<Completion> {
    if out == [] then [] else (if out[0].turn == turn then [out[0].completion] else []) + SentOn(out[1..], turn)
  }

  lemma {:induction false} SentOnAppend(a: seq<Sent>, b: seq<Sent>, turn: nat)
    ensures SentOn(a + b, turn) == SentOn(a, turn) + SentOn(b, turn)
  {
    if a == [] {
      assert a + b == b;
    } else {
      assert (a + b)[0] == a[0] && (a + b)[1..] == a[1..] + b;
      SentOnAppend(a[1..], b, turn);
      Reassociate(if a[0].turn == turn then [a[0].completion] else [], SentOn(a[1..], turn), SentOn(b, turn));
    }
  }

  lemma {:induction false} SentOnAddressed(sender: nat, out: seq<Completion>, turn: nat)
    ensures SentOn(Addressed(sender, out), turn) == if sender == turn then out else []
  {
    if out != [] {
      assert Addressed(sender, out)[1..] == Addressed(sender, out[1..]);
      SentOnAddressed(sender, out[1..], turn);
    }
  }

  /** Two tables agree on one turn. */
  ghost predicate SameTurn(a: Calls, b: Calls, turn: nat) {
    forall part: nat :: ((turn, part) in a <==> (turn, part) in b) && ((turn, part) in a ==> a[(turn, part)] == b[(turn, part)])
  }

  lemma {:induction false} OtherTurnStandsStill(s: Shared, ev: Event, turn: nat)
    requires ev.turn != turn
    ensures var s1 := Next(s, ev).0; s1.OwnOf(turn) == s.OwnOf(turn) && SameTurn(s1.calls, s.calls, turn)
  {
  }

  lemma {:induction false} OwnTurnSteps(s: Shared, st: TurnState, ev: Event)
    requires s.OwnOf(ev.turn) == Own(st.nextPart, st.hadCalls) && SameTurn(s.calls, st.calls, ev.turn)
    ensures var (s1, out) := Next(s, ev);
            var (st1, own) := StepPart(ev.turn, st, ev.part);
            out == Addressed(ev.turn, own) && s1.OwnOf(ev.turn) == Own(st1.nextPart, st1.hadCalls) && SameTurn(s1.calls, st1.calls, ev.turn)
  {
  }

  /**
   In every interleaving each turn sends what it would send alone, and records what it would
   record alone.
   */
  lemma {:induction false} TurnsRunAsIfAlone(s: Shared, st: TurnState, events: seq<Event>, turn: nat)
    requires s.OwnOf(turn) == Own(st.nextPart, st.hadCalls) && SameTurn(s.calls, st.calls, turn)
    ensures var (s', out) := Run(s, events);
            var (st', own) := StepParts(turn, st, PartsOf(events, turn));
            SentOn(out, turn) == own && s'.OwnOf(turn) == Own(st'.nextPart, st'.hadCalls) && SameTurn(s'.calls, st'.calls, turn)
    decreases |events|
  {
    if events != [] {
      var ev := events[0];
      var (s1, out1) := Next(s, ev);
      var (s2, out2) := Run(s1, events[1..]);
      SentOnAppend(out1, out2, turn);
      if ev.turn == turn {
        var (st1, own1) := StepPart(turn, st, ev.part);
        OwnTurnSteps(s, st, ev);
        SentOnAddressed(turn, own1, turn);
        TurnsRunAsIfAlone(s1, st1, events[1..], turn);
        assert PartsOf(events, turn)[1..] == PartsOf(events[1..], turn);
      } else {
        OtherTurnStandsStill(s, ev, turn);
        SentOnAddressed(ev.turn, StepPart(ev.turn, TurnState(s.OwnOf(ev.turn).nextPart, s.OwnOf(ev.turn).hadCalls, s.calls), ev.part).1, turn);
        TurnsRunAsIfAlone(s1, st, events[1..], turn);
        assert PartsOf(events, turn) == PartsOf(events[1..], turn);
      }
    }
  }

  lemma {:induction false} SamePartsOf(a: Calls, b: Calls, turn: nat, parts: seq<Call>)
    requires SameTurn(a, b, turn) && IsPartsOf(a, turn, parts)
    ensures IsPartsOf(b, turn, parts)
  {
  }

  /**
   Turns that run at the same time on one tracker each end up with exactly their own calls on
   record, in emission order, and each announces them under the recorded ids.
   */
  lemma {:induction false} ConcurrentTurnsKeepApart(calls: Calls, events: seq<Event>, turn: nat)
    requires forall part: nat :: (turn, part) !in calls
    ensures var (s', out) := Run(Shared(calls, map[]), events);
            var emitted := CallsIn(0, PartsOf(events, turn));
            IsPartsOf(s'.calls, turn, emitted) && Announces(turn, SentOn(out, turn), emitted)
  {
    var parts := PartsOf(events, turn);
    var st := TurnState(0, false, calls);
    TurnsRunAsIfAlone(Shared(calls, map[]), st, events, turn);
    StepPartsRecords(turn, st, parts);
    RecordedCallsAre(turn, calls, parts);
    SamePartsOf(StepParts(turn, st, parts).0.calls, Run(Shared(calls, map[]), events).0.calls, turn, CallsIn(0, parts));
  }
}
