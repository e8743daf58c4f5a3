/** One chat request: its candidates tried in order, and the events that reports. */
module Chat {
  import opened Results
  import opened Utf8
  import opened Streaming

  /** What the agent loop of one answer does: the events it sends, then success or a failure. */
  datatype Served = Finishes(stream: seq<Event>) | Fails(stream: seq<Event>, kind: Failure)

  /** One candidate, with what the world answers when its turn comes: whether the request is cancelled
      by then, whether the circuit breaker allows it, whether it is healthy, and how it serves. */
  datatype Leg = Leg(local: bool, name: string, cancelled: bool, allowed: bool, healthy: bool, served: Served)

  predicate LoopEvent(event: Event) {
    event.Delta? || event.Progress? || event.ToolResult? || event.ActionProposal?
  }

  predicate ValidLegs(legs: seq<Leg>) {
    forall i, j :: 0 <= i < |legs| && 0 <= j < |legs[i].served.stream| ==> LoopEvent(legs[i].served.stream[j])
  }

  function CodeOf(failure: Failure): Code {
    match failure
    case CancelledFailure => CancelledCode
    case PrivacyDenied => PolicyDenied
    case ProviderFailure(Timeout) => TimedOut
    case ProviderFailure(_) => ProviderUnavailable
  }

  // ----- the events, as a function of what happens

  function Opening(leg: Leg, fallback: Option<Failure>, failed: Option<Failure>): seq<Event> {
    var transitions :=
      if failed.Some? then
        if leg.local then
          [StateTransition(RunningRemote, FallbackToLocal), StateTransition(FallbackToLocal, RunningLocal)]
        else []
      else [StateTransition(Queued, if leg.local then RunningLocal else RunningRemote)];
    transitions + [AnswerStarted(leg.name, fallback)]
  }

  /** The events of one candidate's turn, and the failure that hands the request to the next one. */
  function Turn(leg: Leg, fallback: Option<Failure>, failed: Option<Failure>): (seq<Event>, Option<Failure>) {
    if leg.cancelled then ([Error(CancelledCode), Done], None)
    else if !leg.local && !leg.allowed then ([], Some(ProviderFailure(CircuitOpen)))
    else if !leg.local && !leg.healthy then ([], Some(ProviderFailure(Network)))
    else
      var started := Opening(leg, fallback, failed) + leg.served.stream;
      match leg.served
      case Finishes(_) => (started + [AnswerFinished(false), Done], None)
      case Fails(_, kind) =>
        if kind == CancelledFailure then (started + [AnswerFinished(true), Error(CancelledCode), Done], None)
        else (started + [AnswerFinished(true), Progress(false)], Some(kind))
  }

  function Legs(legs: seq<Leg>, fallback: Option<Failure>, failed: Option<Failure>): seq<Event> {
    if legs == [] then [Error(if failed.Some? then CodeOf(failed.value) else ProviderUnavailable), Done]
    else
      var (events, next) := Turn(legs[0], fallback, failed);
      if next.None? then events else events + Legs(legs[1..], next, next)
  }

  datatype Plan = Plan(legs: seq<Leg>, initialFallback: Option<Failure>)

  function ChatEvents(valid: bool, route: Result<Plan, Code>): seq<Event> {
    if !valid then [Error(InvalidRequest), Done]
    else
      [Accepted, StateTransition(Received, Queued)] +
      match route
      case Err(code) => [Error(code), Done]
      case Ok(plan) => Legs(plan.legs, plan.initialFallback, None)
  }

  // ----- the loop

  /** The body of the candidate loop. */
  method TakeTurn(leg: Leg, fallback: Option<Failure>, failed: Option<Failure>)
    returns (events: seq<Event>, next: Option<Failure>)
    ensures (events, next) == Turn(leg, fallback, failed)
  {
    if leg.cancelled { return [Error(CancelledCode), Done], None; }
    if !leg.local && !leg.allowed { return [], Some(ProviderFailure(CircuitOpen)); }
    if !leg.local && !leg.healthy { return [], Some(ProviderFailure(Network)); }
    var running := if leg.local then RunningLocal else RunningRemote;
    events := [];
    if failed.Some? {
      if leg.local {
        events := [StateTransition(RunningRemote, FallbackToLocal)];
        events := events + [StateTransition(FallbackToLocal, RunningLocal)];
      }
    } else {
      events := [StateTransition(Queued, running)];
    }
    events := events + [AnswerStarted(leg.name, fallback)];
    assert events == Opening(leg, fallback, failed);
    events := events + leg.served.stream;
    if leg.served.Finishes? { return events + [AnswerFinished(false), Done], None; }
    if leg.served.kind == CancelledFailure {
      return events + [AnswerFinished(true), Error(CancelledCode), Done], None;
    }
    events, next := events + [AnswerFinished(true), Progress(false)], Some(leg.served.kind);
  }

  /** `chat`: walks through the candidates until one ends the request. */
  method Run(valid: bool, route: Result<Plan, Code>) returns (events: seq<Event>)
    ensures events == ChatEvents(valid, route)
  {
    hide Turn;
    if !valid { return [Error(InvalidRequest), Done]; }
    events := [Accepted, StateTransition(Received, Queued)];
    if route.Err? { return events + [Error(route.error), Done]; }
    var legs := route.value.legs;
    var fallback, failed := route.value.initialFallback, None;
    var i := 0;
    assert legs[0..] == legs;
    while i < |legs|
      invariant 0 <= i <= |legs|
      invariant ChatEvents(valid, route) == events + Legs(legs[i..], fallback, failed)
    {
      assert legs[i..][1..] == legs[i + 1..];
      ghost var before := events;
      var sent, next := TakeTurn(legs[i], fallback, failed);
      events := events + sent;
      if next.None? { return; }
      assert before + (sent + Legs(legs[i + 1..], next, next)) == events + Legs(legs[i + 1..], next, next);
      fallback, failed := next, next;
      i := i + 1;
    }
    events := events + [Error(if failed.Some? then CodeOf(failed.value) else ProviderUnavailable), Done];
  }

  // ----- what a request comes to, said without events

  datatype End = Cancels | Answers(text: seq<byte>) | Passes(kind: Failure)

  /** The text an answer streams. */
  function Spoken(stream: seq<Event>): seq<byte> {
    if stream == [] then []
    else
      var last := stream[|stream| - 1];
      Spoken(stream[..|stream| - 1]) + if last.Delta? then last.content else []
  }

  function EndOf(leg: Leg): End {
    if leg.cancelled then Cancels
    else if !leg.local && !leg.allowed then Passes(ProviderFailure(CircuitOpen))
    else if !leg.local && !leg.healthy then Passes(ProviderFailure(Network))
    else
      match leg.served
      case Finishes(stream) => Answers(Spoken(stream))
      case Fails(_, kind) => if kind == CancelledFailure then Cancels else Passes(kind)
  }

  /** The first candidate that does not pass the request on decides it. */
  predicate Decides(legs: seq<Leg>, i: nat) {
    i < |legs| && !EndOf(legs[i]).Passes? && forall j :: 0 <= j < i ==> EndOf(legs[j]).Passes?
  }

  predicate AllPass(legs: seq<Leg>) {
    forall j :: 0 <= j < |legs| ==> EndOf(legs[j]).Passes?
  }

  /** What the events before the end must add up to. */
  ghost predicate ComesTo(s: Summary, legs: seq<Leg>, failed: Option<Failure>) {
    && (forall i: nat :: Decides(legs, i) && EndOf(legs[i]).Cancels? ==> s.cancelled && s.error == Some(CancelledCode))
    && (forall i: nat :: Decides(legs, i) && EndOf(legs[i]).Answers? ==>
          !s.cancelled && s.error == None && s.control == None && s.answer == EndOf(legs[i]).text)
    && (AllPass(legs) ==>
          !s.cancelled && s.error == Some(if legs != [] then CodeOf(EndOf(legs[|legs| - 1]).kind)
                                          else if failed.Some? then CodeOf(failed.value) else ProviderUnavailable))
  }

  /** Nothing decided yet, and no text but what the next fallback answer will discard. */
  predicate Undecided(s: Summary, fallback: Option<Failure>, failed: Option<Failure>) {
    && !s.completed && !s.cancelled && s.error.None? && s.control.None?
    && (fallback.None? ==> s.answer == [])
    && failed != Some(CancelledFailure)
  }

  predicate NoDone(events: seq<Event>) {
    forall i :: 0 <= i < |events| ==> !events[i].Done?
  }

  /** The agent loop's own events add text and nothing else. */
  lemma {:induction false} LoopAdds(s: Summary, stream: seq<Event>)
    requires forall j :: 0 <= j < |stream| ==> LoopEvent(stream[j])
    ensures Summarize(s, stream) == s.(answer := s.answer + Spoken(stream), output := s.output + Spoken(stream))
    ensures Safe(s, stream) && NoDone(stream)
  {
    if stream != [] {
      var init, last := stream[..|stream| - 1], stream[|stream| - 1];
      LoopAdds(s, init);
      assert LoopEvent(last);
      if last.Delta? {
        assert s.answer + (Spoken(init) + last.content) == (s.answer + Spoken(init)) + last.content;
        assert s.output + (Spoken(init) + last.content) == (s.output + Spoken(init)) + last.content;
      }
    }
  }

  lemma One(s: Summary, event: Event)
    ensures Summarize(s, [event]) == Added(s, event)
    ensures Safe(s, [event]) <==>
      (event.StateTransition? ==> ValidTransition(event.from, event.to)) && (event.Done? ==> Closable(s))
  {
    assert [event][..0] == [];
  }

  lemma OpeningAdds(s: Summary, leg: Leg, fallback: Option<Failure>, failed: Option<Failure>)
    requires fallback.None? ==> s.answer == []
    ensures Summarize(s, Opening(leg, fallback, failed)) == s.(answer := [])
    ensures Safe(s, Opening(leg, fallback, failed)) && NoDone(Opening(leg, fallback, failed))
  {
    var started := AnswerStarted(leg.name, fallback);
    var first, second :=
      StateTransition(RunningRemote, FallbackToLocal), StateTransition(FallbackToLocal, RunningLocal);
    var only := StateTransition(Queued, if leg.local then RunningLocal else RunningRemote);
    One(s, started);
    One(s, first);
    One(s, second);
    One(s, only);
    InTwoParts(s, [first], [second]);
    assert [first] + [second] == [first, second];
    InTwoParts(s, [first, second], [started]);
    InTwoParts(s, [only], [started]);
    assert [] + [started] == [started];
  }

  /** A turn's events up to its last agent-loop event. */
  lemma StartedAdds(s: Summary, leg: Leg, fallback: Option<Failure>, failed: Option<Failure>)
    requires fallback.None? ==> s.answer == []
    requires forall j :: 0 <= j < |leg.served.stream| ==> LoopEvent(leg.served.stream[j])
    ensures var started := Opening(leg, fallback, failed) + leg.served.stream; var text := Spoken(leg.served.stream);
      && Summarize(s, started) == s.(answer := text, output := s.output + text)
      && Safe(s, started) && NoDone(started)
  {
    OpeningAdds(s, leg, fallback, failed);
    var cleared := s.(answer := []);
    LoopAdds(cleared, leg.served.stream);
    InTwoParts(s, Opening(leg, fallback, failed), leg.served.stream);
    assert [] + Spoken(leg.served.stream) == Spoken(leg.served.stream);
  }

  /** A turn that ends the request: everything but its final Done. */
  ghost predicate Ends(s: Summary, events: seq<Event>, after: Summary) {
    && events != [] && events[|events| - 1] == Done && NoDone(events[..|events| - 1])
    && Safe(s, events) && Summarize(s, events[..|events| - 1]) == after
  }

  lemma EndsWith(s: Summary, front: seq<Event>, after: Summary)
    requires NoDone(front) && Safe(s, front) && Summarize(s, front) == after && Closable(after)
    ensures Ends(s, front + [Done], after)
  {
    assert (front + [Done])[..|front|] == front;
    One(after, Done);
    InTwoParts(s, front, [Done]);
  }

  /** Text already output, in the order it was output. */
  function OutputOf(leg: Leg): seq<byte> {
    if leg.cancelled || (!leg.local && (!leg.allowed || !leg.healthy)) then [] else Spoken(leg.served.stream)
  }

  /** What one candidate's turn adds, by how it ends. */
  ghost predicate TurnComesTo(s: Summary, leg: Leg, events: seq<Event>, next: Option<Failure>) {
    match EndOf(leg)
    case Passes(kind) =>
      && next == Some(kind) && Safe(s, events) && NoDone(events)
      && Undecided(Summarize(s, events), next, next) && Summarize(s, events).output == s.output + OutputOf(leg)
    case Cancels =>
      next == None && exists after ::
        Ends(s, events, after) && after.cancelled && after.error == Some(CancelledCode)
          && after.output == s.output + OutputOf(leg)
    case Answers(text) =>
      next == None && Ends(s, events, s.(answer := text, output := s.output + text, completed := true))
  }

  predicate Skipped(leg: Leg) {
    !leg.local && (!leg.allowed || !leg.healthy)
  }

  lemma IdleTurnAdds(s: Summary, leg: Leg, fallback: Option<Failure>, failed: Option<Failure>)
    requires Undecided(s, fallback, failed) && (leg.cancelled || Skipped(leg))
    ensures TurnComesTo(s, leg, Turn(leg, fallback, failed).0, Turn(leg, fallback, failed).1)
  {
    hide Opening, Summarize, Safe, Spoken, Ends;
    assert s.output + [] == s.output;
    if leg.cancelled {
      CancelledNow(s);
    } else {
      Empty(s);
    }
  }

  lemma CancelledNow(s: Summary)
    ensures Ends(s, [Error(CancelledCode), Done], Added(s, Error(CancelledCode)))
  {
    hide Summarize, Safe, Ends;
    One(s, Error(CancelledCode));
    assert [Error(CancelledCode)] + [Done] == [Error(CancelledCode), Done];
    EndsWith(s, [Error(CancelledCode)], Added(s, Error(CancelledCode)));
  }

  /** What a turn that started has added by the time its answer is over. */
  ghost predicate Spoke(s: Summary, started: seq<Event>, text: seq<byte>) {
    Summarize(s, started) == s.(answer := text, output := s.output + text) && Safe(s, started) && NoDone(started)
  }

  lemma FinishedAdds(s: Summary, started: seq<Event>, text: seq<byte>)
    requires Spoke(s, started, text)
    ensures Ends(s, started + [AnswerFinished(false), Done],
      s.(answer := text, output := s.output + text, completed := true))
  {
    hide Summarize, Safe;
    var spoken := Summarize(s, started);
    One(spoken, AnswerFinished(false));
    InTwoParts(s, started, [AnswerFinished(false)]);
    assert started + [AnswerFinished(false)] + [Done] == started + [AnswerFinished(false), Done];
    EndsWith(s, started + [AnswerFinished(false)], Added(spoken, AnswerFinished(false)));
  }

  lemma CancelledAdds(s: Summary, started: seq<Event>, text: seq<byte>)
    requires Spoke(s, started, text)
    ensures Ends(s, started + [AnswerFinished(true), Error(CancelledCode), Done],
                 s.(answer := text, output := s.output + text, cancelled := true, error := Some(CancelledCode)))
  {
    hide Summarize, Safe;
    var spoken, tail := Summarize(s, started), [AnswerFinished(true), Error(CancelledCode)];
    Two(spoken, AnswerFinished(true), Error(CancelledCode));
    InTwoParts(s, started, tail);
    assert started + tail + [Done] == started + [AnswerFinished(true), Error(CancelledCode), Done];
    EndsWith(s, started + tail, Added(spoken, Error(CancelledCode)));
  }

  lemma FailedAdds(s: Summary, started: seq<Event>, text: seq<byte>)
    requires Spoke(s, started, text)
    ensures var events := started + [AnswerFinished(true), Progress(false)];
      Safe(s, events) && NoDone(events) && Summarize(s, events) == s.(answer := text, output := s.output + text)
  {
    hide Summarize, Safe;
    Two(Summarize(s, started), AnswerFinished(true), Progress(false));
    InTwoParts(s, started, [AnswerFinished(true), Progress(false)]);
  }

  lemma TurnAdds(s: Summary, leg: Leg, fallback: Option<Failure>, failed: Option<Failure>)
    requires Undecided(s, fallback, failed)
    requires forall j :: 0 <= j < |leg.served.stream| ==> LoopEvent(leg.served.stream[j])
    ensures TurnComesTo(s, leg, Turn(leg, fallback, failed).0, Turn(leg, fallback, failed).1)
  {
    if leg.cancelled || Skipped(leg) {
      IdleTurnAdds(s, leg, fallback, failed);
    } else {
      StartedAdds(s, leg, fallback, failed);
      hide Opening, Summarize, Safe, Spoken, Ends, NoDone;
      var started, text := Opening(leg, fallback, failed) + leg.served.stream, Spoken(leg.served.stream);
      assert Spoke(s, started, text);
      if leg.served.Finishes? {
        FinishedAdds(s, started, text);
      } else if leg.served.kind == CancelledFailure {
        CancelledAdds(s, started, text);
      } else {
        FailedAdds(s, started, text);
      }
    }
  }

  lemma Empty(s: Summary)
    ensures Summarize(s, []) == s && Safe(s, [])
  {
  }

  lemma Two(s: Summary, a: Event, b: Event)
    requires a == AnswerFinished(true) && !b.Done? && !b.StateTransition?
    ensures Summarize(s, [a, b]) == Added(s, b) && Safe(s, [a, b])
  {
    One(s, a);
    One(s, b);
    InTwoParts(s, [a], [b]);
    assert [a] + [b] == [a, b];
  }

  lemma EndsLater(s: Summary, front: seq<Event>, rest: seq<Event>, after: Summary)
    requires Safe(s, front) && NoDone(front) && Ends(Summarize(s, front), rest, after)
    ensures Ends(s, front + rest, after)
  {
    var init := rest[..|rest| - 1];
    assert (front + rest)[..|front + rest| - 1] == front + init;
    InTwoParts(s, front, rest);
    InTwoParts(s, front, init);
  }

  /** The text all answers of the request stream, failed ones included. */
  function AllOutput(legs: seq<Leg>): seq<byte> {
    if legs == [] then []
    else OutputOf(legs[0]) + if EndOf(legs[0]).Passes? then AllOutput(legs[1..]) else []
  }

  lemma DecidesLater(legs: seq<Leg>)
    requires legs != []
    ensures Decides(legs, 0) <==> !EndOf(legs[0]).Passes?
    ensures forall i: nat :: i > 0 ==> (Decides(legs, i) <==> EndOf(legs[0]).Passes? && Decides(legs[1..], i - 1))
    ensures AllPass(legs) <==> EndOf(legs[0]).Passes? && AllPass(legs[1..])
  {
    hide EndOf;
    assert forall j :: 0 <= j < |legs| - 1 ==> legs[1..][j] == legs[j + 1];
    forall i: nat | i > 0 ensures Decides(legs, i) <==> EndOf(legs[0]).Passes? && Decides(legs[1..], i - 1) {
      if EndOf(legs[0]).Passes? && Decides(legs[1..], i - 1) {
        assert forall j :: 0 < j < i ==> legs[j] == legs[1..][j - 1];
      }
    }
    if EndOf(legs[0]).Passes? && AllPass(legs[1..]) {
      assert forall j :: 0 < j < |legs| ==> legs[j] == legs[1..][j - 1];
    }
  }

  lemma ComesToLater(after: Summary, legs: seq<Leg>, failed: Option<Failure>)
    requires legs != [] && EndOf(legs[0]).Passes? && ComesTo(after, legs[1..], Some(EndOf(legs[0]).kind))
    ensures ComesTo(after, legs, failed)
  {
    hide EndOf, Decides, AllPass;
    DecidesLater(legs);
    forall i: nat | Decides(legs, i)
      ensures i > 0 && i < |legs| && Decides(legs[1..], i - 1) && legs[i] == legs[1..][i - 1]
    {
      DecidesInside(legs, i);
    }
    if AllPass(legs) && |legs| > 1 { assert legs[|legs| - 1] == legs[1..][|legs| - 2]; }
    AllPassLast(legs);
  }

  lemma DecidesInside(legs: seq<Leg>, i: nat)
    requires Decides(legs, i)
    ensures i < |legs| && (i > 0 ==> EndOf(legs[0]).Passes?)
  {
  }

  lemma AllPassLast(legs: seq<Leg>)
    requires legs != []
    ensures AllPass(legs) ==> EndOf(legs[|legs| - 1]).Passes?
  {
  }

  lemma DecidedNow(after: Summary, legs: seq<Leg>, failed: Option<Failure>)
    requires legs != []
    requires match EndOf(legs[0])
             case Passes(_) => false
             case Cancels => after.cancelled && after.error == Some(CancelledCode)
             case Answers(text) =>
               !after.cancelled && after.error == None && after.control == None && after.answer == text
    ensures ComesTo(after, legs, failed)
  {
    hide EndOf;
    assert forall i: nat :: Decides(legs, i) ==> i == 0;
    assert !AllPass(legs);
  }

  /** Whatever the candidates do, the request ends once and comes to what the first candidate that does
      not pass it on makes of it; if all do, to the last one's failure. */
  lemma {:induction false} LegsComeTo(s: Summary, legs: seq<Leg>, fallback: Option<Failure>, failed: Option<Failure>)
    returns (after: Summary)
    requires Undecided(s, fallback, failed) && ValidLegs(legs)
    ensures Ends(s, Legs(legs, fallback, failed), after) && ComesTo(after, legs, failed)
    ensures after.output == s.output + AllOutput(legs)
    decreases |legs|
  {
    hide Turn, Summarize, Safe, ComesTo, EndOf, OutputOf, Ends;
    if legs == [] {
      var error := Error(if failed.Some? then CodeOf(failed.value) else ProviderUnavailable);
      after := Added(s, error);
      One(s, error);
      EndsWith(s, [error], after);
      assert [error] + [Done] == [error, Done];
      assert s.output + [] == s.output;
      assert ComesTo(after, legs, failed) by { NoLegs(s, failed); }
    } else {
      var (events, next) := Turn(legs[0], fallback, failed);
      TurnAdds(s, legs[0], fallback, failed);
      assert TurnComesTo(s, legs[0], events, next);
      if EndOf(legs[0]).Passes? {
        var mid := Summarize(s, events);
        assert ValidLegs(legs[1..]);
        after := LegsComeTo(mid, legs[1..], next, next);
        EndsLater(s, events, Legs(legs[1..], next, next), after);
        ComesToLater(after, legs, failed);
        assert s.output + OutputOf(legs[0]) + AllOutput(legs[1..]) == s.output + AllOutput(legs);
      } else {
        after := EndsHere(s, legs, events, next, failed);
        assert OutputOf(legs[0]) + [] == OutputOf(legs[0]);
      }
    }
  }

  lemma EndsHere(s: Summary, legs: seq<Leg>, events: seq<Event>, next: Option<Failure>, failed: Option<Failure>)
    returns (after: Summary)
    requires legs != [] && TurnComesTo(s, legs[0], events, next) && !EndOf(legs[0]).Passes?
    requires !s.cancelled && s.error.None? && s.control.None?
    ensures next == None && Ends(s, events, after)
    ensures ComesTo(after, legs, failed) && after.output == s.output + OutputOf(legs[0])
  {
    hide Summarize, Safe, ComesTo, EndOf, Ends;
    if EndOf(legs[0]).Cancels? {
      after :| Ends(s, events, after) && after.cancelled && after.error == Some(CancelledCode)
        && after.output == s.output + OutputOf(legs[0]);
    } else {
      after := s.(answer := EndOf(legs[0]).text, output := s.output + EndOf(legs[0]).text, completed := true);
      AnswersOutput(legs[0]);
    }
    DecidedNow(after, legs, failed);
  }

  lemma AnswersOutput(leg: Leg)
    ensures EndOf(leg).Answers? ==> EndOf(leg).text == OutputOf(leg)
  {
  }

  lemma NoLegs(s: Summary, failed: Option<Failure>)
    requires failed != Some(CancelledFailure)
    ensures ComesTo(Added(s, Error(if failed.Some? then CodeOf(failed.value) else ProviderUnavailable)), [], failed)
  {
  }

  // ----- the request, from its first event to the result frame

  /** What a request must come to. */
  ghost predicate Settled(s: Summary, valid: bool, route: Result<Plan, Code>) {
    if !valid then !s.cancelled && s.error == Some(InvalidRequest) && s.output == []
    else
      match route
      case Err(code) => s.error == Some(code) && s.cancelled == (code == CancelledCode) && s.output == []
      case Ok(plan) => ComesTo(s, plan.legs, None) && s.output == AllOutput(plan.legs)
  }

  lemma ChatSettles(valid: bool, route: Result<Plan, Code>) returns (after: Summary)
    requires route.Ok? ==> ValidLegs(route.value.legs)
    ensures Ends(NOTHING, ChatEvents(valid, route), after) && Settled(after, valid, route)
  {
    hide Legs, Summarize, Safe, ComesTo, AllOutput;
    var opening := [Accepted, StateTransition(Received, Queued)];
    OpensChat();
    if !valid || route.Err? {
      var error := Error(if !valid then InvalidRequest else route.error);
      after := Added(NOTHING, error);
      One(NOTHING, error);
      EndsWith(NOTHING, [error], after);
      assert [error] + [Done] == [error, Done];
      if valid { EndsLater(NOTHING, opening, [error, Done], after); }
    } else {
      after := LegsComeTo(NOTHING, route.value.legs, route.value.initialFallback, None);
      EndsLater(NOTHING, opening, Legs(route.value.legs, route.value.initialFallback, None), after);
      assert [] + AllOutput(route.value.legs) == AllOutput(route.value.legs);
    }
  }

  lemma OpensChat()
    ensures var opening := [Accepted, StateTransition(Received, Queued)];
      Summarize(NOTHING, opening) == NOTHING && Safe(NOTHING, opening) && NoDone(opening)
  {
    One(NOTHING, Accepted);
    One(NOTHING, StateTransition(Received, Queued));
    InTwoParts(NOTHING, [Accepted], [StateTransition(Received, Queued)]);
    assert [Accepted] + [StateTransition(Received, Queued)] == [Accepted, StateTransition(Received, Queued)];
  }

  /** A stream as it should end: numbered, carrying what the summary says was output, and closed by one
      terminal event and one result that report the summary. */
  ghost predicate WellEnded(frames: seq<Frame>, s: Summary) {
    && |frames| >= 2 && Open(frames[..|frames| - 2]) && Numbered(frames) && Output(frames) == s.output
    && var terminal, result := frames[|frames| - 2], frames[|frames| - 1];
    && terminal.EventFrame? && terminal.payload == Terminal(terminal.status)
    && result.ResultFrame? && result.final == terminal.status && Reports(s, result)
  }

  /** The events of a chat, pumped to its client. */
  method Deliver(events: seq<Event>, valid: bool, route: Result<Plan, Code>)
    returns (frames: seq<Frame>, ghost s: Summary)
    requires events == ChatEvents(valid, route) && (route.Ok? ==> ValidLegs(route.value.legs))
    ensures WellEnded(frames, s) && Settled(s, valid, route)
  {
    hide Summarize, Safe, Settled, Reports, Streams, Numbered, Output, ChatEvents, ValidLegs;
    s := ChatSettles(valid, route);
    ghost var init := events[..|events| - 1];
    assert events == init + [Done];
    var ok; ghost var v;
    frames, ok, v := Serve(events);
    StreamEnds(init, v);
  }

  /** A whole chat request. Its stream never breaks off on an internal error; it carries every delta
      of every answer, and ends in one terminal event and one result. */
  method ServeChat(valid: bool, route: Result<Plan, Code>) returns (frames: seq<Frame>, ghost s: Summary)
    requires route.Ok? ==> ValidLegs(route.value.legs)
    ensures WellEnded(frames, s) && Settled(s, valid, route)
  {
    hide ChatEvents, WellEnded, Settled, ValidLegs;
    var events := Run(valid, route);
    frames, s := Deliver(events, valid, route);
  }

  /** The result of a chat, read off the candidates alone. */
  lemma ResultOf(s: Summary, legs: seq<Leg>, result: Frame)
    requires ComesTo(s, legs, None) && Reports(s, result)
    ensures result.final == Completed <==> exists i: nat :: Decides(legs, i) && EndOf(legs[i]).Answers?
    ensures result.final == Status.Cancelled <==> exists i: nat :: Decides(legs, i) && EndOf(legs[i]).Cancels?
    ensures result.final == Failed <==> AllPass(legs)
    ensures forall i: nat :: Decides(legs, i) && EndOf(legs[i]).Answers? ==>
      result.content.Some? && IsCut(EndOf(legs[i]).text, RESULT_BYTES, result.content.value)
  {
    hide EndOf, IsCut, Decides, AllPass;
    SomeoneDecides(legs);
    if i: nat :| Decides(legs, i) { DecidesInside(legs, i); }
  }

  lemma {:induction false} SomeoneDecides(legs: seq<Leg>)
    ensures AllPass(legs) <==> !exists i: nat :: Decides(legs, i)
    ensures forall i: nat :: Decides(legs, i) ==> i < |legs| && !EndOf(legs[i]).Passes?
  {
    hide EndOf;
    if legs != [] {
      DecidesLater(legs);
      SomeoneDecides(legs[1..]);
      if EndOf(legs[0]).Passes? && !AllPass(legs[1..]) {
        var i: nat :| Decides(legs[1..], i);
        assert Decides(legs, i + 1);
      }
    }
  }

  // ----- who is said to answer, and why

  /** The answers announced, each with the failure it is a fallback for. */
  function Announced(events: seq<Event>): seq<(string, Option<Failure>)> {
    if events == [] then []
    else
      var last := events[|events| - 1];
      Announced(events[..|events| - 1]) + if last.AnswerStarted? then [(last.provider, last.fallback)] else []
  }

  /** The candidates that were really asked, up to the one that decides, each with what the one before failed with. */
  function Tried(legs: seq<Leg>, fallback: Option<Failure>): seq<(string, Option<Failure>)> {
    if legs == [] then []
    else
      var leg, end := legs[0], EndOf(legs[0]);
      (if leg.cancelled || (!leg.local && (!leg.allowed || !leg.healthy)) then [] else [(leg.name, fallback)])
      + if end.Passes? then Tried(legs[1..], Some(end.kind)) else []
  }

  lemma {:induction false} AnnouncedParts(a: seq<Event>, b: seq<Event>)
    ensures Announced(a + b) == Announced(a) + Announced(b)
  {
    if b == [] {
      assert a + b == a;
    } else {
      AnnouncedParts(a, b[..|b| - 1]);
      assert (a + b)[..|a + b| - 1] == a + b[..|b| - 1];
    }
  }

  lemma {:induction false} NoneAnnounced(events: seq<Event>)
    requires forall j :: 0 <= j < |events| ==> !events[j].AnswerStarted?
    ensures Announced(events) == []
  {
    if events != [] { NoneAnnounced(events[..|events| - 1]); }
  }

  lemma OpeningAnnounces(leg: Leg, fallback: Option<Failure>, failed: Option<Failure>)
    ensures Announced(Opening(leg, fallback, failed)) == [(leg.name, fallback)]
  {
    var events := Opening(leg, fallback, failed);
    var front := events[..|events| - 1];
    assert events == front + [AnswerStarted(leg.name, fallback)];
    NoneAnnounced(front);
  }

  lemma TurnAnnounces(leg: Leg, fallback: Option<Failure>, failed: Option<Failure>)
    requires forall j :: 0 <= j < |leg.served.stream| ==> LoopEvent(leg.served.stream[j])
    ensures Announced(Turn(leg, fallback, failed).0) ==
      if leg.cancelled || (!leg.local && (!leg.allowed || !leg.healthy)) then [] else [(leg.name, fallback)]
    ensures Turn(leg, fallback, failed).1 == if EndOf(leg).Passes? then Some(EndOf(leg).kind) else None
  {
    OpeningAnnounces(leg, fallback, failed);
    NoneAnnounced(leg.served.stream);
    hide Opening, Spoken, LoopEvent;
    AnnouncedParts(Opening(leg, fallback, failed), leg.served.stream);
    var started := Opening(leg, fallback, failed) + leg.served.stream;
    EndsAnnounceNothing();
    AnnouncedParts(started, [AnswerFinished(false), Done]);
    AnnouncedParts(started, [AnswerFinished(true), Error(CancelledCode), Done]);
    AnnouncedParts(started, [AnswerFinished(true), Progress(false)]);
    hide Announced;
    assert Announced(started) + [] == Announced(started);
  }

  lemma EndsAnnounceNothing()
    ensures Announced([]) == Announced([Error(CancelledCode), Done]) == Announced([AnswerFinished(false), Done]) == []
    ensures Announced([AnswerFinished(true), Error(CancelledCode), Done]) == []
    ensures Announced([AnswerFinished(true), Progress(false)]) == []
  {
    NoneAnnounced([Error(CancelledCode), Done]);
    NoneAnnounced([AnswerFinished(false), Done]);
    NoneAnnounced([AnswerFinished(true), Error(CancelledCode), Done]);
    NoneAnnounced([AnswerFinished(true), Progress(false)]);
  }

  /** The client is told of exactly the candidates that were asked, in order, each with the reason for it. */
  lemma {:induction false} AnnouncesTried(legs: seq<Leg>, fallback: Option<Failure>, failed: Option<Failure>)
    requires ValidLegs(legs)
    ensures Announced(Legs(legs, fallback, failed)) == Tried(legs, fallback)
    decreases |legs|
  {
    hide Turn, EndOf;
    if legs == [] {
      NoneAnnounced(Legs(legs, fallback, failed));
    } else {
      TurnAnnounces(legs[0], fallback, failed);
      var (sent, next) := Turn(legs[0], fallback, failed);
      if next.Some? {
        AnnouncesTried(legs[1..], next, next);
        AnnouncedParts(sent, Legs(legs[1..], next, next));
      }
    }
  }

  /** The code of an error tells what went wrong. */
  lemma CodesTell(failure: Failure)
    ensures CodeOf(failure) == TimedOut <==> failure == ProviderFailure(Timeout)
    ensures CodeOf(failure) == PolicyDenied <==> failure == PrivacyDenied
    ensures CodeOf(failure) == CancelledCode <==> failure == CancelledFailure
    ensures CodeOf(failure) in {TimedOut, PolicyDenied, CancelledCode, ProviderUnavailable}
  {
  }

  // ----- do the reported transitions form a path?

  function Tracked(at: Option<Status>, event: Event): Option<Status> {
    if at.None? || !event.StateTransition? then at
    else if event.from == at.value then Some(event.to)
    else None
  }

  /** Where the transitions lead from `at`, or nothing once one does not start where the last ended. */
  function Track(at: Option<Status>, events: seq<Event>): Option<Status> {
    if events == [] then at else Tracked(Track(at, events[..|events| - 1]), events[|events| - 1])
  }

  lemma {:induction false} TrackParts(at: Option<Status>, a: seq<Event>, b: seq<Event>)
    ensures Track(at, a + b) == Track(Track(at, a), b)
  {
    if b == [] {
      assert a + b == a;
    } else {
      assert (a + b)[..|a + b| - 1] == a + b[..|b| - 1];
      TrackParts(at, a, b[..|b| - 1]);
    }
  }

  lemma {:induction false} TrackStill(at: Option<Status>, events: seq<Event>)
    requires forall i :: 0 <= i < |events| ==> !events[i].StateTransition?
    ensures Track(at, events) == at
  {
    if events != [] { TrackStill(at, events[..|events| - 1]); }
  }

  function TrackedTurn(at: Status, leg: Leg, failed: Option<Failure>): Option<Status> {
    if leg.cancelled || (!leg.local && (!leg.allowed || !leg.healthy)) then Some(at)
    else if failed.None? then
      if at == Queued then Some(if leg.local then RunningLocal else RunningRemote) else None
    else if leg.local then
      if at == RunningRemote then Some(RunningLocal) else None
    else Some(at)
  }

  lemma TrackOpening(at: Status, leg: Leg, fallback: Option<Failure>, failed: Option<Failure>)
    requires !leg.cancelled && (leg.local || (leg.allowed && leg.healthy))
    ensures Track(Some(at), Opening(leg, fallback, failed)) == TrackedTurn(at, leg, failed)
  {
    var opening := Opening(leg, fallback, failed);
    var n := |opening| - 1;
    assert opening == opening[..n] + [opening[n]];
    TrackParts(Some(at), opening[..n], [opening[n]]);
    TrackStill(Track(Some(at), opening[..n]), [opening[n]]);
    if failed.Some? && leg.local {
      assert opening[..n] == [opening[0]] + [opening[1]];
      TrackParts(Some(at), [opening[0]], [opening[1]]);
      TrackOne(Some(at), opening[0]);
      TrackOne(Track(Some(at), [opening[0]]), opening[1]);
    } else if failed.None? {
      assert opening[..n] == [opening[0]];
      TrackOne(Some(at), opening[0]);
    } else {
      assert opening[..n] == [];
    }
  }

  lemma TrackOne(at: Option<Status>, event: Event)
    ensures Track(at, [event]) == Tracked(at, event)
  {
    assert [event][..0] == [];
  }

  lemma TrackTurn(at: Status, leg: Leg, fallback: Option<Failure>, failed: Option<Failure>)
    requires forall j :: 0 <= j < |leg.served.stream| ==> LoopEvent(leg.served.stream[j])
    ensures Track(Some(at), Turn(leg, fallback, failed).0) == TrackedTurn(at, leg, failed)
  {
    hide Track, TrackedTurn;
    var events := Turn(leg, fallback, failed).0;
    if leg.cancelled || (!leg.local && (!leg.allowed || !leg.healthy)) {
      TrackStill(Some(at), events);
      assert TrackedTurn(at, leg, failed) == Some(at) by { IdleTurn(at, leg, failed); }
    } else {
      hide Opening;
      TrackOpening(at, leg, fallback, failed);
      var opening, stream := Opening(leg, fallback, failed), leg.served.stream;
      var tail := TurnTail(leg);
      assert events == opening + stream + tail;
      TrackParts(Some(at), opening, stream);
      TrackParts(Some(at), opening + stream, tail);
      TrackStill(Track(Some(at), opening), stream);
      TrackStill(Track(Some(at), opening), tail);
    }
  }

  function TurnTail(leg: Leg): seq<Event> {
    if leg.served.Finishes? then [AnswerFinished(false), Done]
    else if leg.served.kind == CancelledFailure then [AnswerFinished(true), Error(CancelledCode), Done]
    else [AnswerFinished(true), Progress(false)]
  }

  lemma IdleTurn(at: Status, leg: Leg, failed: Option<Failure>)
    requires leg.cancelled || (!leg.local && (!leg.allowed || !leg.healthy))
    ensures TrackedTurn(at, leg, failed) == Some(at)
  {
  }

  /** A route never has more than one local and one remote candidate. */
  predicate Routed(legs: seq<Leg>) {
    |legs| <= 2 && (|legs| == 2 ==> legs[0].local != legs[1].local)
  }

  /** A remote candidate was put aside without being tried, and the local one then started. */
  predicate SkipsRemote(legs: seq<Leg>) {
    && |legs| == 2 && !legs[0].local && !legs[0].cancelled && !(legs[0].allowed && legs[0].healthy)
    && !legs[1].cancelled
  }

  lemma LastTurn(at: Status, legs: seq<Leg>, fallback: Option<Failure>, failed: Option<Failure>)
    requires |legs| <= 1 && ValidLegs(legs)
    ensures Track(Some(at), Legs(legs, fallback, failed)) ==
      if legs == [] then Some(at) else TrackedTurn(at, legs[0], failed)
  {
    hide Turn, TrackedTurn;
    if legs == [] {
      TrackStill(Some(at), Legs(legs, fallback, failed));
    } else {
      var (events, next) := Turn(legs[0], fallback, failed);
      TrackTurn(at, legs[0], fallback, failed);
      if next.Some? {
        assert legs[1..] == [];
        TrackParts(Some(at), events, Legs([], next, next));
        TrackStill(Track(Some(at), events), Legs([], next, next));
      }
    }
  }

  lemma NextLeg(leg: Leg, fallback: Option<Failure>, failed: Option<Failure>)
    ensures Turn(leg, fallback, failed).1 == if EndOf(leg).Passes? then Some(EndOf(leg).kind) else None
  {
  }

  /** Every transition a chat reports is a legal one, but they form a path from Received exactly when
      the request did not fall back from a remote candidate that never ran. */
  lemma PathIff(plan: Plan)
    requires Routed(plan.legs) && ValidLegs(plan.legs)
    ensures Track(Some(Received), ChatEvents(true, Ok(plan))).Some? <==> !SkipsRemote(plan.legs)
  {
    hide Turn, Legs, Track;
    var legs, fallback := plan.legs, plan.initialFallback;
    var opening := [Accepted, StateTransition(Received, Queued)];
    assert opening == [Accepted] + [StateTransition(Received, Queued)];
    TrackParts(Some(Received), [Accepted], [StateTransition(Received, Queued)]);
    TrackOne(Some(Received), Accepted);
    TrackOne(Some(Received), StateTransition(Received, Queued));
    TrackParts(Some(Received), opening, Legs(legs, fallback, None));
    if |legs| <= 1 {
      LastTurn(Queued, legs, fallback, None);
    } else {
      TwoLegs(legs, fallback);
    }
  }

  lemma TwoLegs(legs: seq<Leg>, fallback: Option<Failure>)
    requires Routed(legs) && |legs| == 2 && ValidLegs(legs)
    ensures Track(Some(Queued), Legs(legs, fallback, None)).Some? <==> !SkipsRemote(legs)
  {
    hide Turn, Track;
    var (events, next) := Turn(legs[0], fallback, None);
    TrackTurn(Queued, legs[0], fallback, None);
    NextLeg(legs[0], fallback, None);
    if next.Some? {
      TrackParts(Some(Queued), events, Legs(legs[1..], next, next));
      LastTurn(TrackedTurn(Queued, legs[0], None).value, legs[1..], next, next);
    }
  }

  /** A remote whose circuit is open, then a local answer: the transitions jump. */
  lemma PathBreaks(text: Text)
    ensures var remote := Leg(false, "remote", false, false, true, Finishes([]));
      var local := Leg(true, "local", false, true, true, Finishes([Delta(text)]));
      Track(Some(Received), ChatEvents(true, Ok(Plan([remote, local], None)))).None?
  {
    var remote := Leg(false, "remote", false, false, true, Finishes([]));
    var local := Leg(true, "local", false, true, true, Finishes([Delta(text)]));
    PathIff(Plan([remote, local], None));
  }
}
