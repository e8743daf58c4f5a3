/** What holds over every run of the router, however its chats and previews interleave. */
module DispatchRuns {
  import opened Results
  import opened Utf8
  import opened Dispatch
  import Privacy
  import Routing
  import Breaker
  import Streaming
  import Chat
  import AgentLoop

  // ----- what a session has behind it

  /** Its route was made from the consents as they then were, and its one attempt is where the history says. */
  ghost predicate RouteMade(setup: Setup, input: Input, history: seq<Privacy.Event>, x: Session) {
    && x.route.Some? && x.before <= |history|
    && RouteFits(setup, input, history[..x.before], x.now, x.route.value)
    && var attempt := AttemptOf(setup, input, history[..x.before], x.now);
    attempt.Some? ==>
      && input.request.consent.Some? && x.before < |history|
      && history[x.before] == Privacy.Attempted(input.request.consent.value.id, attempt.value)
  }

  /** The breaker was asked there, and allowed the provider exactly if its record then did not block it. */
  ghost predicate QuestionFits(setup: Setup, ops: seq<Breaker.Op>, q: nat, name: string, allowed: bool) {
    && q < |ops| && ops[q].Asked? && ops[q].provider == name
    && (allowed <==> Allowed(setup, ops[..q], name, ops[q].now))
  }

  predicate Idle(leg: Chat.Leg) {
    leg.cancelled || (!leg.local && (!leg.allowed || !leg.healthy))
  }

  ghost predicate TurnFits(
    setup: Setup, request: Routing.Request, ops: seq<Breaker.Op>, candidate: Routing.Candidate, turn: Turn)
  {
    && turn.leg.local == candidate.Local? && turn.leg.name == NameOf(candidate)
    && (candidate.Remote? && !turn.leg.cancelled ==>
          turn.question.Some? && QuestionFits(setup, ops, turn.question.value, candidate.name, turn.leg.allowed))
    && (turn.call.None? <==> Idle(turn.leg))
    && (if turn.call.Some? then Converses(setup, candidate, request, turn.call.value, turn.leg.served)
        else turn.leg.served == Chat.Finishes([]))
  }

  ghost predicate TurnsFit(setup: Setup, request: Routing.Request, ops: seq<Breaker.Op>, x: Session)
    requires Routed(x)
  {
    && |x.turns| <= |Candidates(x)|
    && (forall k :: 0 <= k < |x.turns| ==> TurnFits(setup, request, ops, Candidates(x)[k], x.turns[k]))
    && (x.stage.Trying? ==>
          && Open(x)
          && var candidate := Candidates(x)[|x.turns|];
          candidate.Remote? ==>
            x.stage.question.Some? && QuestionFits(setup, ops, x.stage.question.value, candidate.name, true))
  }

  function LegsOf(turns: seq<Turn>): seq<Chat.Leg> {
    seq(|turns|, i requires 0 <= i < |turns| => turns[i].leg)
  }

  function PlanOf(x: Session, legs: seq<Chat.Leg>): Result<Chat.Plan, Streaming.Code>
    requires Routed(x)
  {
    Ok(Chat.Plan(legs, FailureOf(x.route.value.value.fallback)))
  }

  /** After legs that all passed the request on: what was sent, and the two variables of the loop. */
  function SoFar(first: Option<Streaming.Failure>, legs: seq<Chat.Leg>)
    : (seq<Streaming.Event>, Option<Streaming.Failure>, Option<Streaming.Failure>)
  {
    if legs == [] then (OPENING, first, None)
    else
      var n := |legs| - 1;
      var (events, fallback, failed) := SoFar(first, legs[..n]);
      var (sent, next) := Chat.Turn(legs[n], fallback, failed);
      (events + sent, next, next)
  }

  /** Every candidate but the last passed the request on, and the last did only if none was left. */
  predicate Decided(x: Session)
    requires Routed(x)
  {
    var legs := LegsOf(x.turns);
    && (forall k :: 0 <= k < |legs| - 1 ==> Chat.EndOf(legs[k]).Passes?)
    && (legs == [] || Chat.EndOf(legs[|legs| - 1]).Passes? ==> |legs| == |Candidates(x)|)
  }

  /** The events are those of a chat with these turns: all of them, or those before the turns to come. */
  ghost predicate EventsFit(x: Session)
    requires Routed(x)
  {
    if x.stage.Closed? then x.events == Chat.ChatEvents(true, PlanOf(x, LegsOf(x.turns))) && Decided(x)
    else
      && Open(x) && (forall k :: 0 <= k < |x.turns| ==> Chat.EndOf(x.turns[k].leg).Passes?)
      && (x.events, x.fallback, x.failed) == SoFar(FailureOf(x.route.value.value.fallback), LegsOf(x.turns))
  }

  ghost predicate SessionFits(
    setup: Setup, input: Input, history: seq<Privacy.Event>, ops: seq<Breaker.Op>, x: Session)
  {
    if x.stage.Waiting? then x == NEW
    else if !input.valid then x == REFUSED
    else
      && RouteMade(setup, input, history, x)
      && if x.route.value.Err? then x == Begun(x.route.value, x.before, x.now)
         else TurnsFit(setup, input.request, ops, x) && EventsFit(x)
  }

  // ----- the log

  function OfChat(log: seq<Sending>, chat: nat): seq<Sending> {
    if log == [] then []
    else OfChat(log[..|log| - 1], chat) + if log[|log| - 1].chat == chat then [log[|log| - 1]] else []
  }

  /** The provider calls of a chat, turn by turn and round by round. */
  function CallsOf(chat: nat, turns: seq<Turn>): seq<Sending> {
    if turns == [] then []
    else
      var n := |turns| - 1;
      CallsOf(chat, turns[..n]) + Entries(chat, n, AskedOf(turns[n]))
  }

  // ----- the invariant

  ghost predicate AllFit(setup: Setup, inputs: seq<Input>, s: State) {
    && |s.sessions| == |inputs|
    && forall i :: 0 <= i < |inputs| ==> SessionFits(setup, inputs[i], s.history, s.ops, s.sessions[i])
  }

  /** The log misses no call of any chat, and has no other. */
  ghost predicate LogFits(s: State) {
    && (forall j :: 0 <= j < |s.log| ==> s.log[j].chat < |s.sessions|)
    && forall i :: 0 <= i < |s.sessions| ==> OfChat(s.log, i) == CallsOf(i, s.sessions[i].turns)
  }

  /** The chat has made an attempt on its token. */
  ghost predicate Attempts(setup: Setup, input: Input, history: seq<Privacy.Event>, x: Session) {
    && !x.stage.Waiting? && input.valid && x.before < |history|
    && AttemptOf(setup, input, history[..x.before], x.now).Some?
  }

  /** No two chats have made the same attempt. */
  ghost predicate Unshared(setup: Setup, inputs: seq<Input>, s: State)
    requires |s.sessions| == |inputs|
  {
    forall i, j :: 0 <= i < j < |inputs| ==> Apart(setup, inputs[i], inputs[j], s.history, s.sessions[i], s.sessions[j])
  }

  ghost predicate Apart(
    setup: Setup, first: Input, second: Input, history: seq<Privacy.Event>, x: Session, y: Session)
  {
    Attempts(setup, first, history, x) && Attempts(setup, second, history, y) ==> x.before != y.before
  }

  ghost predicate Inv(setup: Setup, inputs: seq<Input>, s: State) {
    AllFit(setup, inputs, s) && LogFits(s) && Privacy.Lawful(s.history) && Unshared(setup, inputs, s)
  }

  // ----- what others do does not matter to a session

  lemma RouteStays(
    setup: Setup, input: Input, history: seq<Privacy.Event>, more: seq<Privacy.Event>, x: Session)
    requires history <= more && RouteMade(setup, input, history, x)
    ensures RouteMade(setup, input, more, x)
  {
    hide RouteFits, Dispatch.AttemptOf;
    assert more[..x.before] == history[..x.before];
  }

  lemma QuestionStays(setup: Setup, ops: seq<Breaker.Op>, more: seq<Breaker.Op>, q: nat, name: string, allowed: bool)
    requires ops <= more && QuestionFits(setup, ops, q, name, allowed)
    ensures QuestionFits(setup, more, q, name, allowed)
  {
    hide Allowed;
    assert more[..q] == ops[..q];
  }

  lemma TurnStays(
    setup: Setup, request: Routing.Request, ops: seq<Breaker.Op>, more: seq<Breaker.Op>, candidate: Routing.Candidate,
    turn: Turn)
    requires ops <= more && TurnFits(setup, request, ops, candidate, turn)
    ensures TurnFits(setup, request, more, candidate, turn)
  {
    hide QuestionFits, Converses;
    if candidate.Remote? && !turn.leg.cancelled {
      QuestionStays(setup, ops, more, turn.question.value, candidate.name, turn.leg.allowed);
    }
  }

  lemma TurnsStay(setup: Setup, request: Routing.Request, ops: seq<Breaker.Op>, more: seq<Breaker.Op>, x: Session)
    requires Routed(x) && ops <= more && TurnsFit(setup, request, ops, x)
    ensures TurnsFit(setup, request, more, x)
  {
    hide TurnFits, QuestionFits;
    forall k | 0 <= k < |x.turns| ensures TurnFits(setup, request, more, Candidates(x)[k], x.turns[k]) {
      TurnStays(setup, request, ops, more, Candidates(x)[k], x.turns[k]);
    }
    if x.stage.Trying? && Candidates(x)[|x.turns|].Remote? {
      QuestionStays(setup, ops, more, x.stage.question.value, Candidates(x)[|x.turns|].name, true);
    }
  }

  lemma SessionStays(
    setup: Setup, input: Input, history: seq<Privacy.Event>, ops: seq<Breaker.Op>, more: seq<Privacy.Event>,
    moreOps: seq<Breaker.Op>, x: Session)
    requires history <= more && ops <= moreOps && SessionFits(setup, input, history, ops, x)
    ensures SessionFits(setup, input, more, moreOps, x)
  {
    hide RouteMade, TurnsFit, EventsFit;
    if !x.stage.Waiting? && input.valid {
      RouteStays(setup, input, history, more, x);
      assert x.route.Some? by { MadeHasRoute(setup, input, history, x); }
      if x.route.value.Ok? { TurnsStay(setup, input.request, ops, moreOps, x); }
    }
  }

  lemma MadeHasRoute(setup: Setup, input: Input, history: seq<Privacy.Event>, x: Session)
    requires RouteMade(setup, input, history, x)
    ensures x.route.Some? && x.before <= |history|
  {
    hide RouteFits, Dispatch.AttemptOf;
  }

  /** One session changes, the histories grow, and every session still fits. */
  lemma AllStillFit(setup: Setup, inputs: seq<Input>, s: State, t: State, i: nat)
    requires AllFit(setup, inputs, s) && i < |inputs| == |t.sessions| && s.history <= t.history && s.ops <= t.ops
    requires t.sessions == s.sessions[i := t.sessions[i]]
    requires SessionFits(setup, inputs[i], t.history, t.ops, t.sessions[i])
    ensures AllFit(setup, inputs, t)
  {
    hide SessionFits;
    forall j | 0 <= j < |inputs| ensures SessionFits(setup, inputs[j], t.history, t.ops, t.sessions[j]) {
      if j != i { SessionStays(setup, inputs[j], s.history, s.ops, t.history, t.ops, s.sessions[j]); }
    }
  }

  // ----- the events of a session

  lemma PassesOn(leg: Chat.Leg, fallback: Option<Streaming.Failure>, failed: Option<Streaming.Failure>)
    ensures Chat.Turn(leg, fallback, failed).1.Some? <==> Chat.EndOf(leg).Passes?
  {
    hide Chat.Opening, Chat.Spoken;
  }

  /** The rest of a chat follows what was sent so far. */
  lemma {:induction false} SoFarLeads(first: Option<Streaming.Failure>, legs: seq<Chat.Leg>, rest: seq<Chat.Leg>)
    requires forall k :: 0 <= k < |legs| ==> Chat.EndOf(legs[k]).Passes?
    ensures var (events, fallback, failed) := SoFar(first, legs);
      Chat.ChatEvents(true, Ok(Chat.Plan(legs + rest, first))) == events + Chat.Legs(rest, fallback, failed)
    decreases |legs|
  {
    hide Chat.Turn, Chat.EndOf;
    if legs == [] {
      assert legs + rest == rest;
    } else {
      var n := |legs| - 1;
      var leg := legs[n];
      var (events, fallback, failed) := SoFar(first, legs[..n]);
      var (sent, next) := Chat.Turn(leg, fallback, failed);
      SoFarLeads(first, legs[..n], [leg] + rest);
      PassesOn(leg, fallback, failed);
      assert legs[..n] + ([leg] + rest) == legs + rest && ([leg] + rest)[1..] == rest;
      assert events + (sent + Chat.Legs(rest, next, next)) == (events + sent) + Chat.Legs(rest, next, next);
    }
  }

  /** With no candidate left the chat is over; with one left it goes on. */
  lemma OnwardFits(x: Session)
    requires Routed(x) && |x.turns| <= |Candidates(x)|
    requires forall k :: 0 <= k < |x.turns| ==> Chat.EndOf(x.turns[k].leg).Passes?
    requires (x.events, x.fallback, x.failed) == SoFar(FailureOf(x.route.value.value.fallback), LegsOf(x.turns))
    ensures EventsFit(Onward(x))
  {
    hide Chat.EndOf, Chat.ChatEvents, SoFar;
    if !Open(x) {
      var legs := LegsOf(x.turns);
      SoFarLeads(FailureOf(x.route.value.value.fallback), legs, []);
      assert legs + [] == legs;
    }
  }

  lemma BegunFits(plan: Routing.Plan, before: nat, now: nat)
    ensures Routed(Begun(Ok(plan), before, now)) && Begun(Ok(plan), before, now).route == Some(Ok(plan))
    ensures Begun(Ok(plan), before, now).turns == [] && EventsFit(Begun(Ok(plan), before, now))
  {
    var x := NEW.(route := Some(Ok(plan)), before := before, now := now, events := OPENING,
                  fallback := FailureOf(plan.fallback));
    OnwardFits(x);
    hide EventsFit;
  }

  lemma ConcludedFits(x: Session, turn: Turn)
    requires Open(x) && !x.stage.Closed? && EventsFit(x)
    ensures Routed(Concluded(x, turn)) && EventsFit(Concluded(x, turn))
    ensures Concluded(x, turn).turns == x.turns + [turn] && Concluded(x, turn).route == x.route
    ensures Concluded(x, turn).before == x.before && Concluded(x, turn).now == x.now
    ensures Concluded(x, turn).stage.Closed? || Concluded(x, turn).stage.Choosing?
  {
    hide Chat.Turn, Chat.EndOf, Chat.ChatEvents;
    var first := FailureOf(x.route.value.value.fallback);
    var (sent, next) := Chat.Turn(turn.leg, x.fallback, x.failed);
    var y := x.(turns := x.turns + [turn], events := x.events + sent);
    var legs := LegsOf(x.turns);
    assert LegsOf(y.turns) == legs + [turn.leg] && (legs + [turn.leg])[..|legs|] == legs;
    PassesOn(turn.leg, x.fallback, x.failed);
    if next.Some? {
      OnwardFits(y.(fallback := next, failed := next));
    } else {
      SoFarLeads(first, legs, [turn.leg]);
      hide SoFar;
    }
  }

  // ----- the log of one more turn

  lemma {:induction false} OfChatAppend(log: seq<Sending>, more: seq<Sending>, chat: nat)
    ensures OfChat(log + more, chat) == OfChat(log, chat) + OfChat(more, chat)
  {
    if more == [] {
      assert log + more == log;
    } else {
      OfChatAppend(log, more[..|more| - 1], chat);
      assert (log + more)[..|log + more| - 1] == log + more[..|more| - 1];
    }
  }

  lemma {:induction false} OfChatAll(log: seq<Sending>, owner: nat, chat: nat)
    requires forall j :: 0 <= j < |log| ==> log[j].chat == owner
    ensures OfChat(log, chat) == if chat == owner then log else []
  {
    if log != [] {
      OfChatAll(log[..|log| - 1], owner, chat);
      assert log[..|log| - 1] + [log[|log| - 1]] == log;
    }
  }

  lemma LogStillFits(s: State, t: State, i: nat, turn: Turn)
    requires LogFits(s) && i < |s.sessions| == |t.sessions| && t.sessions == s.sessions[i := t.sessions[i]]
    requires t.sessions[i].turns == s.sessions[i].turns + [turn]
    requires t.log == s.log + Entries(i, |s.sessions[i].turns|, AskedOf(turn))
    ensures LogFits(t)
  {
    hide OfChat;
    var entries := Entries(i, |s.sessions[i].turns|, AskedOf(turn));
    forall j | 0 <= j < |t.sessions| ensures OfChat(t.log, j) == CallsOf(j, t.sessions[j].turns) {
      OfChatAppend(s.log, entries, j);
      OfChatAll(entries, i, j);
      assert OfChat(s.log, j) == CallsOf(j, s.sessions[j].turns);
      if j == i { assert t.sessions[i].turns[..|s.sessions[i].turns|] == s.sessions[i].turns; }
    }
  }

  lemma LogUnchanged(s: State, t: State, i: nat)
    requires LogFits(s) && i < |s.sessions| == |t.sessions| && t.sessions == s.sessions[i := t.sessions[i]]
    requires t.log == s.log && t.sessions[i].turns == s.sessions[i].turns
    ensures LogFits(t)
  {
    hide OfChat, CallsOf;
    forall j | 0 <= j < |t.sessions| ensures OfChat(t.log, j) == CallsOf(j, t.sessions[j].turns) {
      assert OfChat(s.log, j) == CallsOf(j, s.sessions[j].turns);
    }
  }

  // ----- attempts stay apart

  /** An attempt found in a longer history was there before, unless the chat has only just been routed. */
  lemma AttemptIsOld(
    setup: Setup, input: Input, history: seq<Privacy.Event>, ops: seq<Breaker.Op>, more: seq<Privacy.Event>, x: Session,
    y: Session)
    requires history <= more && SessionFits(setup, input, history, ops, x)
    requires y.before == x.before && y.now == x.now && (y.stage.Waiting? <==> x.stage.Waiting?)
    requires Attempts(setup, input, more, y)
    ensures Attempts(setup, input, history, x) && x.before < |history|
  {
    hide RouteFits, Dispatch.AttemptOf, TurnsFit, EventsFit;
    assert more[..x.before] == history[..x.before];
  }

  /** No chat is routed in this step. */
  ghost predicate SameRoutes(s: State, t: State) {
    && |s.sessions| == |t.sessions|
    && forall j :: 0 <= j < |s.sessions| ==>
         && t.sessions[j].before == s.sessions[j].before && t.sessions[j].now == s.sessions[j].now
         && (t.sessions[j].stage.Waiting? <==> s.sessions[j].stage.Waiting?)
  }

  lemma UnsharedStays(setup: Setup, inputs: seq<Input>, s: State, t: State)
    requires AllFit(setup, inputs, s) && Unshared(setup, inputs, s) && SameRoutes(s, t) && s.history <= t.history
    ensures Unshared(setup, inputs, t)
  {
    hide SessionFits, Attempts;
    forall i, j | 0 <= i < j < |inputs|
      ensures Apart(setup, inputs[i], inputs[j], t.history, t.sessions[i], t.sessions[j])
    {
      if Attempts(setup, inputs[i], t.history, t.sessions[i]) && Attempts(setup, inputs[j], t.history, t.sessions[j]) {
        AttemptIsOld(setup, inputs[i], s.history, s.ops, t.history, s.sessions[i], t.sessions[i]);
        AttemptIsOld(setup, inputs[j], s.history, s.ops, t.history, s.sessions[j], t.sessions[j]);
        assert Apart(setup, inputs[i], inputs[j], s.history, s.sessions[i], s.sessions[j]);
      }
    }
  }

  lemma UnsharedRouted(setup: Setup, inputs: seq<Input>, s: State, t: State, k: nat)
    requires AllFit(setup, inputs, s) && Unshared(setup, inputs, s) && k < |inputs| == |t.sessions|
    requires s.history <= t.history && t.sessions == s.sessions[k := t.sessions[k]]
    requires Attempts(setup, inputs[k], t.history, t.sessions[k]) ==> t.sessions[k].before == |s.history|
    ensures Unshared(setup, inputs, t)
  {
    hide SessionFits, Attempts;
    forall i, j | 0 <= i < j < |inputs|
      ensures Apart(setup, inputs[i], inputs[j], t.history, t.sessions[i], t.sessions[j])
    {
      if Attempts(setup, inputs[i], t.history, t.sessions[i]) && Attempts(setup, inputs[j], t.history, t.sessions[j]) {
        if i != k { AttemptIsOld(setup, inputs[i], s.history, s.ops, t.history, s.sessions[i], t.sessions[i]); }
        if j != k { AttemptIsOld(setup, inputs[j], s.history, s.ops, t.history, s.sessions[j], t.sessions[j]); }
        assert Apart(setup, inputs[i], inputs[j], s.history, s.sessions[i], s.sessions[j]);
      }
    }
  }

  // ----- every step keeps the invariant

  lemma PreviewKeeps(setup: Setup, inputs: seq<Input>, s: State, step: Step, t: State)
    requires Inv(setup, inputs, s) && step.Preview? && Next(setup, inputs, s, step, t)
    ensures Inv(setup, inputs, t)
  {
    hide SessionFits, Attempts, Privacy.MayLeave, Privacy.SafePayload, Privacy.Lawful, OfChat, CallsOf;
    forall j | 0 <= j < |inputs| ensures SessionFits(setup, inputs[j], t.history, t.ops, t.sessions[j]) {
      SessionStays(setup, inputs[j], s.history, s.ops, t.history, t.ops, s.sessions[j]);
    }
    UnsharedStays(setup, inputs, s, t);
    if t.history != s.history { Privacy.LawfulAppend(s.history, PreviewOf(setup, step)); }
  }

  lemma StatusKeeps(setup: Setup, inputs: seq<Input>, s: State, step: Step, t: State)
    requires Inv(setup, inputs, s) && step.Status? && Next(setup, inputs, s, step, t)
    ensures Inv(setup, inputs, t)
  {
    hide SessionFits, Attempts, Privacy.Lawful, OfChat, CallsOf;
    forall j | 0 <= j < |inputs| ensures SessionFits(setup, inputs[j], t.history, t.ops, t.sessions[j]) {
      SessionStays(setup, inputs[j], s.history, s.ops, t.history, t.ops, s.sessions[j]);
    }
  }

  /** An attempt succeeds on a consent that stands. */
  lemma AttemptIsLawful(setup: Setup, input: Input, history: seq<Privacy.Event>, now: nat)
    requires Privacy.Lawful(history)
    ensures var attempt := AttemptOf(setup, input, history, now);
      && (attempt.Some? ==> input.request.consent.Some?)
      && Privacy.Lawful(history + Routing.AfterAttempt([], input.request, attempt))
  {
    hide Privacy.Lawful, Privacy.MayLeave, Privacy.SafePayload, Privacy.Agrees, Privacy.Standing;
    var attempt := AttemptOf(setup, input, history, now);
    if attempt.Some? {
      var event := Privacy.Attempted(input.request.consent.value.id, attempt.value);
      assert Routing.AfterAttempt([], input.request, attempt) == [event];
      Privacy.LawfulAppend(history, event);
    } else {
      assert history + [] == history;
    }
  }

  lemma StartedFits(
    setup: Setup, input: Input, history: seq<Privacy.Event>, ops: seq<Breaker.Op>, now: nat, x: Session)
    requires Starts(setup, input, history, now, x)
    ensures !x.stage.Waiting? && x.turns == []
    ensures input.valid ==> x.before == |history|
    ensures var more := history + if input.valid
        then Routing.AfterAttempt([], input.request, AttemptOf(setup, input, history, now)) else [];
      SessionFits(setup, input, more, ops, x)
  {
    hide RouteFits, Routing.AttemptOf, EventsFit;
    if input.valid {
      var attempt := AttemptOf(setup, input, history, now);
      var more := history + Routing.AfterAttempt([], input.request, attempt);
      assert more[..|history|] == history;
      assert attempt.Some? ==> input.request.consent.Some? by { AttemptNeedsToken(setup, input, history, now); }
      match x.route.value
      case Ok(plan) => BegunFits(plan, |history|, now);
      case Err(_) =>
    }
  }

  lemma AttemptNeedsToken(setup: Setup, input: Input, history: seq<Privacy.Event>, now: nat)
    ensures AttemptOf(setup, input, history, now).Some? ==> input.request.consent.Some?
  {
  }

  lemma RouteKeeps(setup: Setup, inputs: seq<Input>, s: State, step: Step, t: State)
    requires Inv(setup, inputs, s) && step.Route? && Next(setup, inputs, s, step, t)
    ensures Inv(setup, inputs, t)
  {
    hide SessionFits, Starts, Attempts, Privacy.Lawful, Dispatch.AttemptOf, OfChat, CallsOf;
    var i := step.chat;
    if i < |inputs| && s.sessions[i].stage.Waiting? {
      WaitingIsNew(setup, inputs[i], s.history, s.ops, s.sessions[i]);
      StartedFits(setup, inputs[i], s.history, s.ops, step.now, t.sessions[i]);
      AttemptIsLawful(setup, inputs[i], s.history, step.now);
      assert s.history + [] == s.history;
      AllStillFit(setup, inputs, s, t, i);
      LogUnchanged(s, t, i);
      AttemptsIfValid(setup, inputs[i], t.history, t.sessions[i]);
      UnsharedRouted(setup, inputs, s, t, i);
    }
  }

  lemma WaitingIsNew(setup: Setup, input: Input, history: seq<Privacy.Event>, ops: seq<Breaker.Op>, x: Session)
    requires SessionFits(setup, input, history, ops, x) && x.stage.Waiting?
    ensures x == NEW
  {
  }

  lemma AttemptsIfValid(setup: Setup, input: Input, history: seq<Privacy.Event>, x: Session)
    ensures Attempts(setup, input, history, x) ==> input.valid
  {
  }

  /** A turn more that fits its candidate. */
  lemma TurnAdded(setup: Setup, request: Routing.Request, ops: seq<Breaker.Op>, x: Session, turn: Turn)
    requires Open(x) && !x.stage.Closed? && EventsFit(x) && TurnsFit(setup, request, ops, x)
    requires TurnFits(setup, request, ops, Candidates(x)[|x.turns|], turn)
    ensures Routed(Concluded(x, turn)) && TurnsFit(setup, request, ops, Concluded(x, turn))
  {
    hide TurnFits, QuestionFits, EventsFit, Concluded;
    ConcludedFits(x, turn);
  }

  /** A session in its candidate loop, and the same session after a turn. */
  lemma ConcludedKeeps(
    setup: Setup, input: Input, history: seq<Privacy.Event>, ops: seq<Breaker.Op>, more: seq<Breaker.Op>, x: Session,
    turn: Turn)
    requires SessionFits(setup, input, history, ops, x) && ops <= more
    requires Open(x) && (x.stage.Choosing? || x.stage.Trying?)
    requires TurnFits(setup, input.request, more, Candidates(x)[|x.turns|], turn)
    ensures SessionFits(setup, input, history, more, Concluded(x, turn))
  {
    hide TurnFits, RouteFits, Dispatch.AttemptOf, Concluded, EventsFit, TurnsFit;
    assert x != REFUSED;
    TurnsStay(setup, input.request, ops, more, x);
    ConcludedFits(x, turn);
    TurnAdded(setup, input.request, more, x, turn);
  }

  lemma TryingKeeps(
    setup: Setup, input: Input, history: seq<Privacy.Event>, ops: seq<Breaker.Op>, more: seq<Breaker.Op>, x: Session,
    question: Option<nat>)
    requires SessionFits(setup, input, history, ops, x) && ops <= more && Open(x) && x.stage.Choosing?
    requires var candidate := Candidates(x)[|x.turns|];
      candidate.Remote? ==> question.Some? && QuestionFits(setup, more, question.value, candidate.name, true)
    ensures SessionFits(setup, input, history, more, x.(stage := Trying(question)))
  {
    hide RouteFits, Dispatch.AttemptOf, TurnFits, QuestionFits, Chat.EndOf, Chat.ChatEvents, SoFar;
    assert x != REFUSED;
    TurnsStay(setup, input.request, ops, more, x);
  }

  lemma AskKeeps(setup: Setup, inputs: seq<Input>, s: State, step: Step, t: State)
    requires Inv(setup, inputs, s) && step.Ask? && Next(setup, inputs, s, step, t)
    ensures Inv(setup, inputs, t)
  {
    hide SessionFits, Concluded, Attempts, Privacy.Lawful, TurnFits, OfChat, CallsOf, Allowed;
    var i := step.chat;
    if i < |inputs| && s.sessions[i].stage.Choosing? && Open(s.sessions[i]) {
      var x := s.sessions[i];
      var candidate := Candidates(x)[|x.turns|];
      assert t.ops[..|s.ops|] == s.ops;
      if !step.cancelled && (candidate.Local? || Allowed(setup, s.ops, candidate.name, step.now)) {
        TryingKeeps(setup, inputs[i], s.history, s.ops, t.ops, x, t.sessions[i].stage.question);
        LogUnchanged(s, t, i);
      } else {
        var turn := if step.cancelled then Turn(LegOf(candidate, true, true, true), None, None)
          else Turn(LegOf(candidate, false, false, true), Some(|s.ops|), None);
        IdleTurnFits(setup, inputs[i].request, t.ops, candidate, turn);
        ConcludedKeeps(setup, inputs[i], s.history, s.ops, t.ops, x, turn);
        Advanced(setup, inputs[i], s.history, s.ops, x, turn);
        assert Entries(i, |x.turns|, AskedOf(turn)) == [] && s.log + [] == s.log;
        LogStillFits(s, t, i, turn);
      }
      AllStillFit(setup, inputs, s, t, i);
      UnsharedStays(setup, inputs, s, t);
    }
  }

  lemma IdleTurnFits(
    setup: Setup, request: Routing.Request, ops: seq<Breaker.Op>, candidate: Routing.Candidate, turn: Turn)
    requires turn.call.None? && turn.leg.served == Chat.Finishes([])
    requires turn.leg.local == candidate.Local? && turn.leg.name == NameOf(candidate) && Idle(turn.leg)
    requires candidate.Remote? && !turn.leg.cancelled ==>
      turn.question.Some? && QuestionFits(setup, ops, turn.question.value, candidate.name, turn.leg.allowed)
    ensures TurnFits(setup, request, ops, candidate, turn)
  {
    hide QuestionFits;
  }

  lemma Advanced(
    setup: Setup, input: Input, history: seq<Privacy.Event>, ops: seq<Breaker.Op>, x: Session, turn: Turn)
    requires SessionFits(setup, input, history, ops, x) && Open(x) && (x.stage.Choosing? || x.stage.Trying?)
    ensures var y := Concluded(x, turn);
      && y.turns == x.turns + [turn] && y.before == x.before && y.now == x.now && !y.stage.Waiting?
      && !y.stage.Trying? && y.route == x.route && x.route.Some? && input.valid && EventsFit(x)
  {
    hide RouteMade, TurnsFit, EventsFit, Concluded;
    assert x != REFUSED;
    ConcludedFits(x, turn);
  }

  lemma ServeKeeps(setup: Setup, inputs: seq<Input>, s: State, step: Step, t: State)
    requires Inv(setup, inputs, s) && step.Serve? && Next(setup, inputs, s, step, t)
    ensures Inv(setup, inputs, t)
  {
    hide SessionFits, Concluded, Attempts, Privacy.Lawful, TurnFits, OfChat, CallsOf, Answers, Outcome, Entries;
    var i := step.chat;
    if i < |inputs| && s.sessions[i].stage.Trying? && Open(s.sessions[i]) {
      var x := s.sessions[i];
      var turn :| ServesAs(setup, inputs, s, step, t, turn);
      var candidate := Candidates(x)[|x.turns|];
      AnswerFits(setup, inputs[i], s.history, s.ops, t.ops, x, step, turn);
      ConcludedKeeps(setup, inputs[i], s.history, s.ops, t.ops, x, turn);
      Advanced(setup, inputs[i], s.history, s.ops, x, turn);
      LogStillFits(s, t, i, turn);
      AllStillFit(setup, inputs, s, t, i);
      UnsharedStays(setup, inputs, s, t);
    }
  }

  lemma AnswerFits(
    setup: Setup, input: Input, history: seq<Privacy.Event>, ops: seq<Breaker.Op>, more: seq<Breaker.Op>, x: Session,
    step: Step, turn: Turn)
    requires SessionFits(setup, input, history, ops, x) && ops <= more && x.stage.Trying? && Open(x) && step.Serve?
    requires Answers(setup, input.request, Candidates(x)[|x.turns|], x.stage.question, step, turn)
    ensures TurnFits(setup, input.request, more, Candidates(x)[|x.turns|], turn)
  {
    hide RouteMade, EventsFit, QuestionFits, Converses, TurnFits;
    assert x != REFUSED;
    TurnsStay(setup, input.request, ops, more, x);
    TryingFits(setup, input.request, more, x, step, turn);
  }

  lemma TryingFits(
    setup: Setup, request: Routing.Request, ops: seq<Breaker.Op>, x: Session, step: Step, turn: Turn)
    requires x.stage.Trying? && Open(x) && step.Serve? && TurnsFit(setup, request, ops, x)
    requires Answers(setup, request, Candidates(x)[|x.turns|], x.stage.question, step, turn)
    ensures TurnFits(setup, request, ops, Candidates(x)[|x.turns|], turn)
  {
    hide QuestionFits, Converses;
  }

  lemma NextKeeps(setup: Setup, inputs: seq<Input>, s: State, step: Step, t: State)
    requires Inv(setup, inputs, s) && Next(setup, inputs, s, step, t)
    ensures Inv(setup, inputs, t)
  {
    hide Inv, Next;
    match step
    case Preview(_, _, _, _, _) => PreviewKeeps(setup, inputs, s, step, t);
    case Status(_, _) => StatusKeeps(setup, inputs, s, step, t);
    case Route(_, _) => RouteKeeps(setup, inputs, s, step, t);
    case Ask(_, _, _) => AskKeeps(setup, inputs, s, step, t);
    case Serve(_, _, _, _, _) => ServeKeeps(setup, inputs, s, step, t);
  }

  lemma StartFits(setup: Setup, inputs: seq<Input>)
    ensures Inv(setup, inputs, Start(|inputs|))
  {
  }

  /** The invariant holds after every step of every run. */
  lemma {:induction false} RunKeeps(setup: Setup, inputs: seq<Input>, steps: seq<Step>, states: seq<State>, n: nat)
    requires IsRun(setup, inputs, steps, states) && n <= |steps|
    ensures Inv(setup, inputs, states[n])
    decreases n
  {
    hide Inv, Next;
    if n == 0 {
      StartFits(setup, inputs);
    } else {
      RunKeeps(setup, inputs, steps, states, n - 1);
      assert Next(setup, inputs, states[n - 1], steps[n - 1], states[n - 1 + 1]);
      NextKeeps(setup, inputs, states[n - 1], steps[n - 1], states[n]);
    }
  }

  // ----- what is sent

  /** The chat's own attempt used up a consent then in force for exactly this payload. */
  ghost predicate ConsentUsed(
    setup: Setup, input: Input, history: seq<Privacy.Event>, x: Session, candidate: Routing.Candidate)
    requires candidate.Remote?
  {
    && input.request.consent.Some? && x.before < |history|
    && history[x.before] == Privacy.Attempted(input.request.consent.value.id, true)
    && Routing.Consented(history[..x.before], input.request, candidate.payload, setup.digest, x.now)
  }

  /** What must hold of a remote provider before a client's request may go to it. */
  ghost predicate MayGet(
    setup: Setup, input: Input, history: seq<Privacy.Event>, x: Session, candidate: Routing.Candidate)
    requires candidate.Remote?
  {
    var request := input.request;
    && request.policy != Routing.LocalOnly
    && Routing.RemoteName(request, input.settings, setup.registry) == Some(candidate.name)
    && (if request.policy == Routing.AskBeforeRemote then
          ConsentUsed(setup, input, history, x, candidate) && Privacy.MayLeave(request.question, request.context, None)
        else
          && !Routing.KeptLocal(request)
          && Privacy.MayLeave(request.question, request.context, Some(input.settings.categories)))
    && candidate.payload == Privacy.SafePayload(candidate.name, request.question, request.context, setup.maxTokens)
  }

  /** The messages start with the instruction, the items if there are any, and the question. */
  ghost predicate StartsWith(messages: seq<AgentLoop.Message>, question: string, context: seq<Privacy.Item>) {
    && |messages| >= 2 && messages[0] == AgentLoop.Prompt(Routing.Instruction)
    && if context == [] then messages[1] == AgentLoop.Prompt(Routing.Question(question))
       else
         && |messages| >= 3 && messages[1] == AgentLoop.Prompt(Routing.ContextBlock(context))
         && messages[2] == AgentLoop.Prompt(Routing.Question(question))
  }

  /** A local provider is given the whole request, a remote one the whole of its payload. */
  ghost predicate GivesAll(candidate: Routing.Candidate, request: Routing.Request, messages: seq<AgentLoop.Message>) {
    match candidate
    case Local => StartsWith(messages, request.question, request.context)
    case Remote(_, payload) => StartsWith(messages, payload.question, payload.context)
  }

  lemma BuiltGivesAll(candidate: Routing.Candidate, request: Routing.Request, messages: seq<AgentLoop.Message>)
    requires BuiltFor(candidate, request, messages)
    ensures GivesAll(candidate, request, messages)
  {
    hide OwnWords;
    Routing.MessagesPresent(candidate, request);
    hide Routing.BuildMessages;
    var prompt := Prompts(candidate, request);
    assert forall i :: 0 <= i < |prompt| ==> messages[i] == prompt[i];
  }

  /** A provider call is for the client's own request, to a candidate of its route; its messages give all of what
      that candidate is to be given; and a remote candidate may get it, hears nothing else but its own words,
      and was not blocked when the breaker was asked. */
  ghost predicate Permitted(setup: Setup, inputs: seq<Input>, s: State, e: Sending) {
    && e.chat < |inputs| == |s.sessions| && inputs[e.chat].valid
    && var x, input := s.sessions[e.chat], inputs[e.chat];
    && Routed(x) && e.turn < |x.turns| <= |Candidates(x)|
    && var candidate, turn := Candidates(x)[e.turn], x.turns[e.turn];
    && GivesAll(candidate, input.request, e.messages)
    && BuiltFor(candidate, input.request, e.messages) && turn.leg.name == NameOf(candidate)
    && (candidate.Remote? ==>
          && MayGet(setup, input, s.history, x, candidate)
          && turn.question.Some? && QuestionFits(setup, s.ops, turn.question.value, candidate.name, true))
  }

  lemma RouteMayGet(
    setup: Setup, input: Input, history: seq<Privacy.Event>, x: Session, k: nat)
    requires RouteMade(setup, input, history, x) && Routed(x) && k < |Candidates(x)| && Candidates(x)[k].Remote?
    ensures MayGet(setup, input, history, x, Candidates(x)[k])
  {
    hide Privacy.MayLeave, Privacy.SafePayload, Routing.Follows, Routing.AttemptOf, Routing.Consented;
    var before, candidate := history[..x.before], Candidates(x)[k];
    var consented := AttemptOf(setup, input, before, x.now) == Some(true);
    Routing.StaysLocal(x.route.value, input.request, input.settings, setup.registry, consented);
    assert Routing.CarriesSanitized(candidate, input.request, setup.maxTokens);
    if input.request.policy == Routing.AskBeforeRemote {
      Routing.AskedConsent(x.route.value, input.request, input.settings, setup.registry, setup.maxTokens, setup.digest,
        x.now, before, candidate);
    }
  }

  lemma {:induction false} CallsHave(chat: nat, turns: seq<Turn>, e: Sending)
    requires e in CallsOf(chat, turns)
    ensures e.chat == chat && e.turn < |turns| && e.messages in AskedOf(turns[e.turn])
  {
    var n := |turns| - 1;
    if e in CallsOf(chat, turns[..n]) { CallsHave(chat, turns[..n], e); }
  }

  lemma {:induction false} InOfChat(log: seq<Sending>, j: nat)
    requires j < |log|
    ensures log[j] in OfChat(log, log[j].chat)
  {
    if j < |log| - 1 { InOfChat(log[..|log| - 1], j); }
  }

  lemma TurnOf(
    setup: Setup, input: Input, history: seq<Privacy.Event>, ops: seq<Breaker.Op>, x: Session, k: nat)
    requires SessionFits(setup, input, history, ops, x) && k < |x.turns|
    ensures input.valid && Routed(x) && |x.turns| <= |Candidates(x)| && RouteMade(setup, input, history, x)
    ensures TurnFits(setup, input.request, ops, Candidates(x)[k], x.turns[k])
  {
    hide RouteMade, EventsFit, TurnFits;
    assert x != NEW && x != REFUSED;
    MadeHasRoute(setup, input, history, x);
  }

  lemma TurnPermits(
    setup: Setup, request: Routing.Request, ops: seq<Breaker.Op>, candidate: Routing.Candidate, turn: Turn,
    messages: seq<AgentLoop.Message>)
    requires TurnFits(setup, request, ops, candidate, turn) && messages in AskedOf(turn)
    ensures BuiltFor(candidate, request, messages) && turn.leg.name == NameOf(candidate)
    ensures candidate.Remote? ==>
      turn.question.Some? && QuestionFits(setup, ops, turn.question.value, candidate.name, true)
  {
    hide QuestionFits, BuiltFor, AgentLoop.Heard, AgentLoop.Requested, AgentLoop.EndsAs, AgentLoop.Told;
    var c := turn.call.value;
    AllBuilt(candidate, request, c.tools, c.asked, c.rounds);
    var r :| 0 <= r < |c.asked| && c.asked[r] == messages;
  }

  /** Over every run, at every moment: every provider call made so far is permitted. No remote provider is sent
      anything for a local-only request, nor for sensitive data or under a policy that asks unless the chat
      itself has used up a consent then in force for exactly that payload; what it is sent, in every round,
      is the sanitized request and its own words; and its breaker was asked, and did not block it. */
  lemma SendsPermitted(setup: Setup, inputs: seq<Input>, steps: seq<Step>, states: seq<State>, n: nat, j: nat)
    requires IsRun(setup, inputs, steps, states) && n <= |steps| && j < |states[n].log|
    ensures Permitted(setup, inputs, states[n], states[n].log[j])
  {
    hide SessionFits, Next, MayGet, RouteMade, TurnFits, QuestionFits, BuiltFor, GivesAll, OfChat, CallsOf, Unshared,
      Privacy.Lawful;
    RunKeeps(setup, inputs, steps, states, n);
    var s := states[n];
    var e := s.log[j];
    InOfChat(s.log, j);
    var x := s.sessions[e.chat];
    assert OfChat(s.log, e.chat) == CallsOf(e.chat, x.turns);
    CallsHave(e.chat, x.turns, e);
    TurnOf(setup, inputs[e.chat], s.history, s.ops, x, e.turn);
    TurnPermits(setup, inputs[e.chat].request, s.ops, Candidates(x)[e.turn], x.turns[e.turn], e.messages);
    BuiltGivesAll(Candidates(x)[e.turn], inputs[e.chat].request, e.messages);
    if Candidates(x)[e.turn].Remote? { RouteMayGet(setup, inputs[e.chat], s.history, x, e.turn); }
  }

  /** The log is complete: what it has of a chat is every message list its agent loops gave a provider. */
  lemma LogComplete(setup: Setup, inputs: seq<Input>, steps: seq<Step>, states: seq<State>, n: nat, i: nat)
    requires IsRun(setup, inputs, steps, states) && n <= |steps| && i < |inputs|
    ensures |states[n].sessions| == |inputs| && OfChat(states[n].log, i) == CallsOf(i, states[n].sessions[i].turns)
  {
    hide SessionFits, Next, OfChat, CallsOf, Unshared, Privacy.Lawful;
    RunKeeps(setup, inputs, steps, states, n);
  }

  // ----- where consents come from

  lemma NextRecords(setup: Setup, inputs: seq<Input>, s: State, step: Step, t: State)
    requires Next(setup, inputs, s, step, t)
    ensures t.history == s.history + Recorded(setup, inputs, s, step) && |Recorded(setup, inputs, s, step)| <= 1
  {
    hide Starts, Asked, Privacy.MayLeave, PreviewOf, Dispatch.AttemptOf, Answers, Concluded, Outcome, Entries;
    assert s.history + [] == s.history;
  }

  /** Every entry of the consent history is what one step recorded, on the history before it: a preview's consent
      or a chat's attempt, in the order of the steps. */
  lemma {:induction false} HistoryOrigin(
    setup: Setup, inputs: seq<Input>, steps: seq<Step>, states: seq<State>, n: nat, j: nat)
    returns (k: nat)
    requires IsRun(setup, inputs, steps, states) && n <= |steps| && j < |states[n].history|
    ensures k < n && states[k].history == states[n].history[..j]
    ensures Recorded(setup, inputs, states[k], steps[k]) == [states[n].history[j]]
    decreases n
  {
    hide Next, Recorded;
    assert n > 0;
    assert Next(setup, inputs, states[n - 1], steps[n - 1], states[n - 1 + 1]);
    NextRecords(setup, inputs, states[n - 1], steps[n - 1], states[n]);
    var before := states[n - 1].history;
    if j < |before| {
      k := HistoryOrigin(setup, inputs, steps, states, n - 1, j);
      assert before[..j] == states[n].history[..j];
    } else {
      k := n - 1;
      assert states[n].history[..j] == before;
    }
  }

  /** Where the last thing that happened to a token is. */
  lemma {:induction false} LastOnAt(history: seq<Privacy.Event>, id: string) returns (m: nat)
    requires Privacy.LastOn(history, id).Some?
    ensures m < |history| && Some(history[m]) == Privacy.LastOn(history, id) && history[m].id == id
    ensures forall k :: m < k < |history| ==> history[k].id != id
  {
    var n := |history| - 1;
    if history[n].id == id {
      m := n;
    } else {
      m := LastOnAt(history[..n], id);
    }
  }

  /** The step that recorded a preview is a preview of that provider, under that token, at that time. */
  lemma RecordedPreview(setup: Setup, inputs: seq<Input>, s: State, step: Step, event: Privacy.Event)
    requires Recorded(setup, inputs, s, step) == [event] && event.Previewed?
    ensures step.Preview? && event == PreviewOf(setup, step)
  {
    hide Privacy.MayLeave, PreviewOf, Dispatch.AttemptOf;
    assert Recorded(setup, inputs, s, step)[0] == event;
  }

  /** The payload a preview shows. */
  ghost function Shown(setup: Setup, step: Step): Privacy.Payload
    requires step.Preview?
  {
    Privacy.SafePayload(step.provider, step.question, step.context, setup.maxTokens)
  }

  ghost predicate SamePayload(setup: Setup, shown: Privacy.Payload, sent: Privacy.Payload) {
    shown == sent || (shown != sent && setup.digest(shown) == setup.digest(sent))
  }

  /** Over every run: what a remote provider is sent under the policy that asks is what a preview showed, for that
      provider and under the token of the request, at most five minutes before, with nothing having happened to
      the token since; or two payloads have one digest. */
  lemma SentWasShown(setup: Setup, inputs: seq<Input>, steps: seq<Step>, states: seq<State>, n: nat, j: nat)
    returns (k: nat)
    requires IsRun(setup, inputs, steps, states) && n <= |steps| && j < |states[n].log|
    requires Permitted(setup, inputs, states[n], states[n].log[j])
    requires inputs[states[n].log[j].chat].request.policy == Routing.AskBeforeRemote
    requires var e := states[n].log[j]; Candidates(states[n].sessions[e.chat])[e.turn].Remote?
    ensures var e := states[n].log[j]; var x, request := states[n].sessions[e.chat], inputs[e.chat].request;
      && k < n && steps[k].Preview? && request.consent.Some? && steps[k].tokenId == request.consent.value.id
      && steps[k].provider == Candidates(x)[e.turn].name && x.now <= steps[k].now + 300000
      && SamePayload(setup, Shown(setup, steps[k]), Candidates(x)[e.turn].payload)
      && x.before < |states[n].history| && |states[k].history| < x.before
      && forall m :: |states[k].history| < m < x.before ==> states[n].history[m].id != request.consent.value.id
  {
    hide Next, BuiltFor, GivesAll, QuestionFits, Recorded, Privacy.MayLeave, Privacy.SafePayload, Privacy.LatestSince;
    var s := states[n];
    var e := s.log[j];
    var x, request := s.sessions[e.chat], inputs[e.chat].request;
    var before := s.history[..x.before];
    var m := LastOnAt(before, request.consent.value.id);
    k := HistoryOrigin(setup, inputs, steps, states, n, m);
    RecordedPreview(setup, inputs, states[k], steps[k], s.history[m]);
    assert |states[k].history| == m && s.history[m] == before[m];
    assert forall q :: m < q < x.before ==> s.history[q] == before[q];
    PayloadNamed(Candidates(x)[e.turn].name, request.question, request.context, setup.maxTokens);
  }

  lemma PayloadNamed(provider: string, question: string, context: seq<Privacy.Item>, maxTokens: nat)
    ensures Privacy.SafePayload(provider, question, context, maxTokens).provider == provider
  {
  }

  /** No consent is used more often than it was given, and no two chats use the same. */
  lemma ConsentsUsedOnce(
    setup: Setup, inputs: seq<Input>, steps: seq<Step>, states: seq<State>, n: nat, id: string, i: nat, j: nat)
    requires IsRun(setup, inputs, steps, states) && n <= |steps| && i < j < |inputs|
    ensures Privacy.Uses(states[n].history, id) <= Privacy.Previews(states[n].history, id)
    ensures |states[n].sessions| == |inputs|
    ensures Apart(setup, inputs[i], inputs[j], states[n].history, states[n].sessions[i], states[n].sessions[j])
  {
    hide SessionFits, Next, OfChat, CallsOf, Privacy.Lawful, Apart;
    RunKeeps(setup, inputs, steps, states, n);
    Privacy.UsesBounded(states[n].history, id);
  }

  // ----- what the client gets

  function RouteOf(x: Session): Result<Chat.Plan, Streaming.Code> {
    match x.route
    case None => Err(Streaming.Internal)
    case Some(Err(error)) => Err(CodeOf(error))
    case Some(Ok(_)) => PlanOf(x, LegsOf(x.turns))
  }

  /** A closed session has sent the events of a chat with its turns, and has tried every candidate it had to. */
  lemma ClosedIsChat(setup: Setup, input: Input, history: seq<Privacy.Event>, ops: seq<Breaker.Op>, x: Session)
    requires SessionFits(setup, input, history, ops, x) && x.stage.Closed?
    ensures x.events == Chat.ChatEvents(input.valid, RouteOf(x))
    ensures RouteOf(x).Ok? ==> Routed(x) && Decided(x) && Chat.ValidLegs(RouteOf(x).value.legs)
  {
    hide RouteMade, Chat.Legs, Decided, Chat.LoopEvent;
    if !input.valid {
      assert x == REFUSED;
    } else if x.route.Some? && x.route.value.Err? {
      assert x == Begun(x.route.value, x.before, x.now);
    } else {
      MadeHasRoute(setup, input, history, x);
      forall i, j | 0 <= i < |x.turns| && 0 <= j < |x.turns[i].leg.served.stream|
        ensures Chat.LoopEvent(x.turns[i].leg.served.stream[j])
      {
        StreamFits(setup, input.request, ops, Candidates(x)[i], x.turns[i], j);
      }
    }
  }

  lemma StreamFits(
    setup: Setup, request: Routing.Request, ops: seq<Breaker.Op>, candidate: Routing.Candidate, turn: Turn, j: nat)
    requires TurnFits(setup, request, ops, candidate, turn) && j < |turn.leg.served.stream|
    ensures Chat.LoopEvent(turn.leg.served.stream[j])
  {
    hide QuestionFits, AgentLoop.Heard, AgentLoop.Requested, AgentLoop.EndsAs, AgentLoop.Told, Chat.LoopEvent;
  }

  /** What the leg of a turn streamed is a beginning of what its provider sent, and all of it when it answered. */
  lemma TurnTold(
    setup: Setup, request: Routing.Request, ops: seq<Breaker.Op>, candidate: Routing.Candidate, turn: Turn)
    requires TurnFits(setup, request, ops, candidate, turn) && turn.call.Some?
    ensures var c := turn.call.value; var spoken := Chat.Spoken(turn.leg.served.stream);
      && spoken <= AgentLoop.Sent(c.provider, c.asked)
      && (turn.leg.served.Finishes? ==> spoken == AgentLoop.Sent(c.provider, c.asked))
  {
    hide QuestionFits, AgentLoop.Heard, AgentLoop.Told, AgentLoop.Forwarded, AgentLoop.Sent, AgentLoop.Invoked;
    var c := turn.call.value;
    forall k | 0 <= k < |c.rounds| ensures AgentLoop.PhaseOf(c.provider(k, c.asked[k])).Finished? {
      assert AgentLoop.Asks(c.provider(k, c.asked[k]), c.rounds[k]);
    }
    AgentLoop.ForwardedIsSent(c.provider, c.asked);
  }

  /** The local provider's tool calls reach the service as the loop allows; a remote one's never do. */
  lemma TurnTools(
    setup: Setup, request: Routing.Request, ops: seq<Breaker.Op>, candidate: Routing.Candidate, turn: Turn)
    requires TurnFits(setup, request, ops, candidate, turn) && turn.call.Some?
    ensures var c := turn.call.value;
      c.invoked == if candidate.Local? then AgentLoop.Invoked(c.tools, AgentLoop.Flat(c.rounds)) else []
  {
    hide QuestionFits, AgentLoop.Heard, AgentLoop.Told, AgentLoop.Requested, AgentLoop.EndsAs;
    var c := turn.call.value;
    if candidate.Remote? { AgentLoop.RemoteInvokesNothing(ToolsFor(candidate, c.tools), AgentLoop.Flat(c.rounds)); }
  }

  /** A breaker is told of every turn its provider took: a success exactly if the turn answered, and otherwise a
      failure at the time the turn ended. */
  lemma OutcomeTold(setup: Setup, inputs: seq<Input>, s: State, step: Step, t: State)
    requires Inv(setup, inputs, s) && Next(setup, inputs, s, step, t)
    requires step.Serve? && step.chat < |inputs| && s.sessions[step.chat].stage.Trying?
    ensures Open(s.sessions[step.chat]) && Routed(t.sessions[step.chat])
    ensures |t.sessions[step.chat].turns| == |s.sessions[step.chat].turns| + 1
    ensures var x := s.sessions[step.chat]; var candidate := Candidates(x)[|x.turns|];
      var leg := t.sessions[step.chat].turns[|x.turns|].leg;
      t.ops == s.ops + if candidate.Local? then []
        else if Chat.EndOf(leg).Answers? then [Breaker.Succeeded(candidate.name)]
        else [Breaker.FailedAt(candidate.name, step.now)]
  {
    hide Inv, SessionFits, Concluded, Entries, AskedOf, Answers, StepsLeft, Chat.EndOf;
    var i := step.chat;
    var x := s.sessions[i];
    FitsOf(setup, inputs, s, i);
    StepsLeftFit(setup, inputs[i], s.history, s.ops, x);
    var turn :| ServesAs(setup, inputs, s, step, t, turn);
    Advanced(setup, inputs[i], s.history, s.ops, x, turn);
    if Candidates(x)[|x.turns|].Remote? {
      AnswerEnds(setup, inputs[i].request, Candidates(x)[|x.turns|], x.stage.question, step, turn);
    }
  }

  lemma AnswerEnds(
    setup: Setup, request: Routing.Request, candidate: Routing.Candidate, question: Option<nat>, step: Step, turn: Turn)
    requires step.Serve? && Answers(setup, request, candidate, question, step, turn) && candidate.Remote?
    ensures Chat.EndOf(turn.leg).Answers? <==> turn.call.Some? && turn.call.value.result.Ok?
  {
    hide AgentLoop.Heard, AgentLoop.Told, AgentLoop.Requested, AgentLoop.EndsAs, Chat.Spoken, AgentLoop.Forwarded;
  }

  /** The result's text is the cut of what the provider of turn `k`, which decided the chat, sent. */
  ghost predicate CutOfSent(x: Session, k: nat, content: seq<byte>) {
    && k < |x.turns| && x.turns[k].call.Some? && Chat.Decides(LegsOf(x.turns), k)
    && var c := x.turns[k].call.value;
    IsCut(AgentLoop.Sent(c.provider, c.asked), Streaming.RESULT_BYTES, content)
  }

  ghost predicate TellsProvidersText(frames: seq<Streaming.Frame>, x: Session) {
    && |frames| > 0 && frames[|frames| - 1].ResultFrame?
    && var result := frames[|frames| - 1];
    result.final == Streaming.Completed ==>
      result.content.Some? && exists k: nat :: CutOfSent(x, k, result.content.value)
  }

  lemma TextTold(
    setup: Setup, input: Input, history: seq<Privacy.Event>, ops: seq<Breaker.Op>, x: Session,
    frames: seq<Streaming.Frame>, s: Streaming.Summary)
    requires SessionFits(setup, input, history, ops, x) && x.stage.Closed?
    requires Chat.WellEnded(frames, s) && Chat.Settled(s, input.valid, RouteOf(x))
    ensures TellsProvidersText(frames, x)
  {
    hide Chat.ComesTo, Streaming.Reports, IsCut, AgentLoop.Sent, Chat.Spoken, Streaming.Numbered, Streaming.Output,
      Chat.AllOutput, RouteMade, EventsFit, TurnFits, Chat.Decides;
    var result := frames[|frames| - 1];
    if input.valid && Routed(x) {
      var legs := LegsOf(x.turns);
      Chat.ResultOf(s, legs, result);
      if result.final == Streaming.Completed {
        Chat.SomeoneDecides(legs);
        var k: nat :| Chat.Decides(legs, k) && Chat.EndOf(legs[k]).Answers?;
        assert TurnFits(setup, input.request, ops, Candidates(x)[k], x.turns[k]);
        AnsweredTurn(setup, input.request, ops, Candidates(x)[k], x.turns[k]);
        assert CutOfSent(x, k, result.content.value);
      }
    } else {
      NoAnswer(s, input.valid, RouteOf(x), result);
    }
  }

  lemma AnsweredTurn(
    setup: Setup, request: Routing.Request, ops: seq<Breaker.Op>, candidate: Routing.Candidate, turn: Turn)
    requires TurnFits(setup, request, ops, candidate, turn) && Chat.EndOf(turn.leg).Answers?
    ensures turn.call.Some?
    ensures Chat.EndOf(turn.leg).text == AgentLoop.Sent(turn.call.value.provider, turn.call.value.asked)
  {
    hide QuestionFits, Converses, Chat.Spoken, AgentLoop.Sent;
    assert turn.call.Some?;
    TurnTold(setup, request, ops, candidate, turn);
  }

  lemma NoAnswer(s: Streaming.Summary, valid: bool, route: Result<Chat.Plan, Streaming.Code>, result: Streaming.Frame)
    requires Chat.Settled(s, valid, route) && (!valid || route.Err?) && Streaming.Reports(s, result)
    ensures result.ResultFrame? && result.final != Streaming.Completed
  {
    hide IsCut;
  }

  /** The stream of any chat that is over, in any state any run reaches: it ends in one terminal event and one
      result that report how the request settled, and a completed text is what the provider sent. */
  method Deliver(setup: Setup, inputs: seq<Input>, s: State, i: nat)
    returns (frames: seq<Streaming.Frame>, ghost end: Streaming.Summary)
    requires Inv(setup, inputs, s) && i < |inputs| && s.sessions[i].stage.Closed?
    ensures Chat.WellEnded(frames, end) && Chat.Settled(end, inputs[i].valid, RouteOf(s.sessions[i]))
    ensures TellsProvidersText(frames, s.sessions[i])
  {
    hide SessionFits, LogFits, Unshared, Privacy.Lawful, Chat.WellEnded, Chat.Settled, TellsProvidersText, RouteOf,
      Chat.ChatEvents, Chat.ValidLegs, Decided;
    var x := s.sessions[i];
    assert SessionFits(setup, inputs[i], s.history, s.ops, x);
    ClosedIsChat(setup, inputs[i], s.history, s.ops, x);
    frames, end := Chat.Deliver(x.events, inputs[i].valid, RouteOf(x));
    TextTold(setup, inputs[i], s.history, s.ops, x, frames, end);
  }

  // ----- every chat gets there

  /** How many steps of its own a chat can still take. */
  function StepsLeft(x: Session): nat {
    match x.stage
    case Waiting => 5
    case Choosing => if Open(x) then 2 * (|Candidates(x)| - |x.turns|) else 0
    case Trying(_) => if Open(x) then 2 * (|Candidates(x)| - |x.turns|) - 1 else 0
    case Closed => 0
  }

  /** The step is the one chat `i` has to take next. */
  predicate Due(step: Step, i: nat, x: Session) {
    match x.stage
    case Waiting => step.Route? && step.chat == i
    case Choosing => step.Ask? && step.chat == i
    case Trying(_) => step.Serve? && step.chat == i
    case Closed => false
  }

  lemma FewCandidates(setup: Setup, input: Input, history: seq<Privacy.Event>, x: Session)
    requires RouteMade(setup, input, history, x) && Routed(x)
    ensures |Candidates(x)| <= 2
  {
    hide Routing.Follows, Dispatch.AttemptOf;
    var consented := AttemptOf(setup, input, history[..x.before], x.now) == Some(true);
    Routing.OneOfEach(x.route.value, input.request, input.settings, setup.registry, consented);
  }

  /** At most five steps are left, and none exactly when the chat is over. */
  lemma StepsLeftFit(setup: Setup, input: Input, history: seq<Privacy.Event>, ops: seq<Breaker.Op>, x: Session)
    requires SessionFits(setup, input, history, ops, x)
    ensures StepsLeft(x) <= 5 && (StepsLeft(x) == 0 <==> x.stage.Closed?)
    ensures x.stage.Choosing? || x.stage.Trying? ==> Open(x) && StepsLeft(x) <= 4
  {
    hide RouteMade, TurnsFit, Chat.ChatEvents, Chat.EndOf;
    if (x.stage.Choosing? || x.stage.Trying?) && input.valid { FewCandidates(setup, input, history, x); }
  }

  /** A step that is due takes the chat further, whatever the world answers; no other step touches it. */
  lemma DueAdvances(setup: Setup, inputs: seq<Input>, s: State, step: Step, t: State, i: nat)
    requires Inv(setup, inputs, s) && Next(setup, inputs, s, step, t) && i < |inputs|
    ensures if Due(step, i, s.sessions[i]) then StepsLeft(t.sessions[i]) < StepsLeft(s.sessions[i])
            else t.sessions[i] == s.sessions[i]
  {
    hide Inv, Next, SessionFits, StepsLeft, Due;
    FitsOf(setup, inputs, s, i);
    if !Due(step, i, s.sessions[i]) {
      NotDue(setup, inputs, s, step, t, i);
    } else {
      DueIsOwn(step, i, s.sessions[i]);
      if step.Route? { RouteAdvances(setup, inputs, s, step, t); }
      if step.Ask? { AskAdvances(setup, inputs, s, step, t); }
      if step.Serve? { ServeAdvances(setup, inputs, s, step, t); }
    }
  }

  lemma NotDue(setup: Setup, inputs: seq<Input>, s: State, step: Step, t: State, i: nat)
    requires Next(setup, inputs, s, step, t) && i < |inputs|
    requires |s.sessions| == |inputs| && !Due(step, i, s.sessions[i])
    ensures t.sessions[i] == s.sessions[i]
  {
    hide Starts, Concluded, Recorded, Answers, Allowed, Outcome, Entries, Asked;
  }

  lemma DueIsOwn(step: Step, i: nat, x: Session)
    requires Due(step, i, x)
    ensures (step.Route? || step.Ask? || step.Serve?) && step.chat == i
  {
  }

  lemma FitsOf(setup: Setup, inputs: seq<Input>, s: State, i: nat)
    requires Inv(setup, inputs, s) && i < |inputs|
    ensures |s.sessions| == |inputs| && SessionFits(setup, inputs[i], s.history, s.ops, s.sessions[i])
  {
    hide SessionFits, LogFits, Unshared, Privacy.Lawful;
  }

  lemma RouteAdvances(setup: Setup, inputs: seq<Input>, s: State, step: Step, t: State)
    requires Inv(setup, inputs, s) && Next(setup, inputs, s, step, t)
    requires step.Route? && step.chat < |inputs| && Due(step, step.chat, s.sessions[step.chat])
    ensures StepsLeft(t.sessions[step.chat]) < StepsLeft(s.sessions[step.chat])
  {
    hide Inv, SessionFits, Starts, Recorded;
    var i := step.chat;
    FitsOf(setup, inputs, s, i);
    NextKeeps(setup, inputs, s, step, t);
    FitsOf(setup, inputs, t, i);
    StepsLeftFit(setup, inputs[i], t.history, t.ops, t.sessions[i]);
    StartedFits(setup, inputs[i], s.history, s.ops, step.now, t.sessions[i]);
  }

  lemma AskAdvances(setup: Setup, inputs: seq<Input>, s: State, step: Step, t: State)
    requires Inv(setup, inputs, s) && Next(setup, inputs, s, step, t)
    requires step.Ask? && step.chat < |inputs| && Due(step, step.chat, s.sessions[step.chat])
    ensures StepsLeft(t.sessions[step.chat]) < StepsLeft(s.sessions[step.chat])
  {
    hide Inv, SessionFits, Concluded, Allowed;
    var i := step.chat;
    var x := s.sessions[i];
    FitsOf(setup, inputs, s, i);
    StepsLeftFit(setup, inputs[i], s.history, s.ops, x);
    var candidate := Candidates(x)[|x.turns|];
    TurnTaken(setup, inputs[i], s.history, s.ops, x, Turn(LegOf(candidate, true, true, true), None, None));
    TurnTaken(setup, inputs[i], s.history, s.ops, x, Turn(LegOf(candidate, false, false, true), Some(|s.ops|), None));
  }

  lemma ServeAdvances(setup: Setup, inputs: seq<Input>, s: State, step: Step, t: State)
    requires Inv(setup, inputs, s) && Next(setup, inputs, s, step, t)
    requires step.Serve? && step.chat < |inputs| && Due(step, step.chat, s.sessions[step.chat])
    ensures StepsLeft(t.sessions[step.chat]) < StepsLeft(s.sessions[step.chat])
  {
    hide Inv, SessionFits, Concluded, Answers, Outcome, Entries, StepsLeft;
    var i := step.chat;
    var x := s.sessions[i];
    FitsOf(setup, inputs, s, i);
    StepsLeftFit(setup, inputs[i], s.history, s.ops, x);
    var turn :| ServesAs(setup, inputs, s, step, t, turn);
    TurnTaken(setup, inputs[i], s.history, s.ops, x, turn);
  }

  lemma TurnTaken(setup: Setup, input: Input, history: seq<Privacy.Event>, ops: seq<Breaker.Op>, x: Session, turn: Turn)
    requires SessionFits(setup, input, history, ops, x) && Open(x) && (x.stage.Choosing? || x.stage.Trying?)
    ensures StepsLeft(Concluded(x, turn)) < StepsLeft(x)
  {
    hide SessionFits, Concluded;
    Advanced(setup, input, history, ops, x, turn);
  }

  /** The steps of a run that were chat `i`'s own. */
  ghost function Taken(steps: seq<Step>, states: seq<State>, i: nat, n: nat): nat
    requires n <= |steps| < |states|
    requires forall k :: 0 <= k < |states| ==> i < |states[k].sessions|
  {
    if n == 0 then 0
    else Taken(steps, states, i, n - 1) + if Due(steps[n - 1], i, states[n - 1].sessions[i]) then 1 else 0
  }

  /** Over every run: a chat takes at most five steps of its own, however many steps of others come in between,
      and is over after them. */
  lemma {:induction false} ChatsEnd(
    setup: Setup, inputs: seq<Input>, steps: seq<Step>, states: seq<State>, i: nat, n: nat)
    requires IsRun(setup, inputs, steps, states) && i < |inputs| && n <= |steps|
    ensures forall k :: 0 <= k < |states| ==> i < |states[k].sessions|
    ensures Taken(steps, states, i, n) + StepsLeft(states[n].sessions[i]) <= 5
    ensures StepsLeft(states[n].sessions[i]) == 0 <==> states[n].sessions[i].stage.Closed?
    decreases n
  {
    hide Inv, Next, SessionFits, StepsLeft, Due;
    forall k | 0 <= k < |states| ensures |states[k].sessions| == |inputs| {
      RunKeeps(setup, inputs, steps, states, k);
      InvCounts(setup, inputs, states[k], i);
    }
    RunKeeps(setup, inputs, steps, states, n);
    InvCounts(setup, inputs, states[n], i);
    if n > 0 {
      ChatsEnd(setup, inputs, steps, states, i, n - 1);
      assert Next(setup, inputs, states[n - 1], steps[n - 1], states[n - 1 + 1]);
      RunKeeps(setup, inputs, steps, states, n - 1);
      DueAdvances(setup, inputs, states[n - 1], steps[n - 1], states[n], i);
    }
  }

  lemma InvCounts(setup: Setup, inputs: seq<Input>, s: State, i: nat)
    requires Inv(setup, inputs, s) && i < |inputs|
    ensures |s.sessions| == |inputs| && StepsLeft(s.sessions[i]) <= 5
    ensures StepsLeft(s.sessions[i]) == 0 <==> s.sessions[i].stage.Closed?
  {
    hide SessionFits, LogFits, Unshared, Privacy.Lawful, StepsLeft;
    assert SessionFits(setup, inputs[i], s.history, s.ops, s.sessions[i]);
    StepsLeftFit(setup, inputs[i], s.history, s.ops, s.sessions[i]);
  }
}
