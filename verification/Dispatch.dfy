/** One router serving many clients at once: previews and chats in any interleaving, what is sent to which
    provider, and what each client gets. Joins the route, the consents, the circuit breakers, the agent
    loop and the stream.

    A chat is a session. Its route is one step; then each candidate is one step up to the circuit breaker's
    answer and one from there to the end of its agent loop. Between any two of them other chats and
    previews may come, and questions about the providers' status, with the consents and the breakers
    shared. */
module Dispatch {
  import opened Results
  import opened Utf8
  import Redaction
  import Privacy
  import Routing
  import Breaker
  import Streaming
  import Chat
  import AgentLoop

  // ----- what the messages of a conversation hold

  function NameOf(candidate: Routing.Candidate): string {
    if candidate.Local? then "local" else candidate.name
  }

  /** Remote providers are offered no tools. */
  function ToolsFor(candidate: Routing.Candidate, tools: AgentLoop.Tools): AgentLoop.Tools {
    if candidate.Local? then tools else tools.(definitions := [])
  }

  function Prompts(candidate: Routing.Candidate, request: Routing.Request): seq<AgentLoop.Message> {
    var parts := Routing.BuildMessages(candidate, request);
    seq(|parts|, i requires 0 <= i < |parts| => AgentLoop.Prompt(parts[i]))
  }

  /** A provider's own requests, and refusals of them. */
  predicate OwnWords(messages: seq<AgentLoop.Message>) {
    forall i :: 0 <= i < |messages| ==> messages[i].Assistant? || (messages[i].Tool? && messages[i].reply.Unavailable?)
  }

  /** Built from the prompt; and for a remote provider nothing joins it but its own words. */
  ghost predicate BuiltFor(candidate: Routing.Candidate, request: Routing.Request, messages: seq<AgentLoop.Message>) {
    var prompt := Prompts(candidate, request);
    prompt <= messages && (candidate.Remote? ==> OwnWords(messages[|prompt|..]))
  }

  lemma AnswersWithoutTools(
    tools: AgentLoop.Tools, earlier: seq<AgentLoop.Call>, calls: seq<AgentLoop.Call>, replies: seq<AgentLoop.Message>)
    requires tools.definitions == [] && AgentLoop.Answers(tools, earlier, calls, replies)
    ensures OwnWords(replies)
  {
    hide AgentLoop.Served, AgentLoop.Invoked;
    forall i | 0 <= i < |replies| ensures replies[i].Tool? && replies[i].reply.Unavailable? {
      assert AgentLoop.Answered(tools, earlier + calls[..i], calls[i], replies[i]);
    }
  }

  lemma {:induction false} TranscriptWithoutTools(
    tools: AgentLoop.Tools, messages: seq<AgentLoop.Message>, rounds: seq<seq<AgentLoop.Call>>)
    requires tools.definitions == [] && AgentLoop.Transcript(tools, messages, rounds)
    ensures OwnWords(messages)
    decreases |rounds|
  {
    hide AgentLoop.Answers;
    if rounds != [] {
      var calls, before := rounds[|rounds| - 1], rounds[..|rounds| - 1];
      var n := |messages| - |calls| - 1;
      TranscriptWithoutTools(tools, messages[..n], before);
      AnswersWithoutTools(tools, AgentLoop.Flat(before), calls, messages[n + 1..]);
      assert messages == messages[..n] + [messages[n]] + messages[n + 1..];
    }
  }

  lemma AllBuilt(
    candidate: Routing.Candidate, request: Routing.Request, tools: AgentLoop.Tools, asked: seq<seq<AgentLoop.Message>>,
    rounds: seq<seq<AgentLoop.Call>>)
    requires AgentLoop.Heard(ToolsFor(candidate, tools), Prompts(candidate, request), asked, rounds)
    ensures forall k :: 0 <= k < |asked| ==> BuiltFor(candidate, request, asked[k])
  {
    hide AgentLoop.Transcript, OwnWords, Prompts;
    var prompt := Prompts(candidate, request);
    forall k | 0 <= k < |asked| ensures BuiltFor(candidate, request, asked[k]) {
      assert AgentLoop.HeardAt(ToolsFor(candidate, tools), prompt, asked[k], rounds, k);
      if candidate.Remote? {
        TranscriptWithoutTools(ToolsFor(candidate, tools), asked[k][|prompt|..], rounds[..k]);
      }
    }
  }

  // ----- the state of a router

  /** What does not change while the router runs. */
  datatype Setup = Setup(
    registry: Routing.Registry, maxTokens: nat, digest: Privacy.Payload -> string, maxRounds: nat, threshold: nat,
    cooldown: nat)

  /** What a client asks for: the request, whether it passes validation, and the settings it is served under. */
  datatype Input = Input(valid: bool, request: Routing.Request, settings: Routing.Settings)

  /** An agent loop with a provider: the messages of every provider call, the tool calls of every answered
      round, those that reached the service, and how it ended. */
  datatype Conversation = Conversation(
    tools: AgentLoop.Tools, provider: AgentLoop.Provider, asked: seq<seq<AgentLoop.Message>>,
    rounds: seq<seq<AgentLoop.Call>>, invoked: seq<AgentLoop.Call>, result: Result<seq<byte>, Streaming.Failure>)

  /** A candidate's turn. `question` is where its question to the breaker is among the operations. */
  datatype Turn = Turn(leg: Chat.Leg, question: Option<nat>, call: Option<Conversation>)

  datatype Stage = Waiting | Choosing | Trying(question: Option<nat>) | Closed

  /** A chat: how far it is, its route and the length of the consent history and the time when it was made,
      the turns so far, the events sent so far, and the two variables of the candidate loop. */
  datatype Session = Session(
    stage: Stage, route: Option<Result<Routing.Plan, Routing.RouteError>>, before: nat, now: nat, turns: seq<Turn>,
    events: seq<Streaming.Event>, fallback: Option<Streaming.Failure>, failed: Option<Streaming.Failure>)

  /** A provider call: the chat, the turn, and what was sent. */
  datatype Sending = Sending(chat: nat, turn: nat, messages: seq<AgentLoop.Message>)

  datatype State = State(
    sessions: seq<Session>, history: seq<Privacy.Event>, ops: seq<Breaker.Op>, log: seq<Sending>)

  /** A step, with what the world answers. */
  datatype Step =
    | Preview(provider: string, question: string, context: seq<Privacy.Item>, tokenId: string, now: nat)
    | Status(name: string, now: nat)
    | Route(chat: nat, now: nat)
    | Ask(chat: nat, cancelled: bool, now: nat)
    | Serve(chat: nat, healthy: bool, partner: AgentLoop.Provider, tools: AgentLoop.Tools, now: nat)

  const NEW := Session(Waiting, None, 0, 0, [], [], None, None)

  const OPENING := [Streaming.Accepted, Streaming.StateTransition(Streaming.Received, Streaming.Queued)]

  predicate Routed(x: Session) { x.route.Some? && x.route.value.Ok? }

  function Candidates(x: Session): seq<Routing.Candidate>
    requires Routed(x)
  {
    x.route.value.value.candidates
  }

  /** Whether a candidate is left to try. */
  predicate Open(x: Session) { Routed(x) && |x.turns| < |Candidates(x)| }

  function FailureOf(reason: Option<Routing.Reason>): Option<Streaming.Failure> {
    match reason
    case None => None
    case Some(PrivacyDenied) => Some(Streaming.PrivacyDenied)
    case Some(UnsupportedCapability) => Some(Streaming.ProviderFailure(Streaming.UnsupportedCapability))
  }

  function CodeOf(error: Routing.RouteError): Streaming.Code {
    match error
    case ProviderUnavailable => Streaming.ProviderUnavailable
    case PolicyDenied => Streaming.PolicyDenied
  }

  /** What the route says reaches the client as it is. */
  lemma ReasonsKept(error: Routing.RouteError, reason: Option<Routing.Reason>)
    ensures CodeOf(error) == Streaming.PolicyDenied <==> error == Routing.PolicyDenied
    ensures CodeOf(error) == Streaming.ProviderUnavailable <==> error == Routing.ProviderUnavailable
    ensures FailureOf(reason).None? <==> reason.None?
    ensures FailureOf(reason) == Some(Streaming.PrivacyDenied) <==> reason == Some(Routing.PrivacyDenied)
  {
  }

  // ----- one step

  /** A consent to send exactly the sanitized payload to the provider, for five minutes. */
  ghost function PreviewOf(setup: Setup, step: Step): Privacy.Event
    requires step.Preview?
  {
    var payload := Privacy.SafePayload(step.provider, step.question, step.context, setup.maxTokens);
    var expires := step.now + Privacy.CONSENT_LIFETIME_MS;
    Privacy.Previewed(step.tokenId, Privacy.Entry(step.provider, setup.digest(payload), expires), step.now)
  }

  ghost function AttemptOf(setup: Setup, input: Input, history: seq<Privacy.Event>, now: nat): Option<bool> {
    Routing.AttemptOf(history, input.request, input.settings, setup.registry, setup.maxTokens, setup.digest, now)
  }

  /** What a step adds to the consent history: a preview its consent, if the provider is configured and the
      payload may leave; a route the attempt on its own token, if the policy asks for one. */
  ghost function Recorded(setup: Setup, inputs: seq<Input>, s: State, step: Step): seq<Privacy.Event> {
    match step
    case Preview(provider, question, context, _, _) =>
      if provider in setup.registry.remotes && Privacy.MayLeave(question, context, None) then [PreviewOf(setup, step)]
      else []
    case Route(i, now) =>
      if i < |s.sessions| == |inputs| && s.sessions[i].stage.Waiting? && inputs[i].valid then
        Routing.AfterAttempt([], inputs[i].request, AttemptOf(setup, inputs[i], s.history, now))
      else []
    case _ => []
  }

  /** The loop over candidates goes on, or ends when there is none left. */
  function Onward(x: Session): Session
    requires Routed(x)
  {
    if Open(x) then x.(stage := Choosing)
    else
      var code := if x.failed.Some? then Chat.CodeOf(x.failed.value) else Streaming.ProviderUnavailable;
      x.(stage := Closed, events := x.events + [Streaming.Error(code), Streaming.Done])
  }

  /** A candidate's turn is over. */
  function Concluded(x: Session, turn: Turn): Session
    requires Routed(x)
  {
    var (sent, next) := Chat.Turn(turn.leg, x.fallback, x.failed);
    var y := x.(turns := x.turns + [turn], events := x.events + sent);
    if next.None? then y.(stage := Closed) else Onward(y.(fallback := next, failed := next))
  }

  /** The route is the one the policy allows, and what a remote candidate gets is the sanitized request. */
  ghost predicate RouteFits(
    setup: Setup, input: Input, history: seq<Privacy.Event>, now: nat, r: Result<Routing.Plan, Routing.RouteError>)
  {
    var consented := AttemptOf(setup, input, history, now) == Some(true);
    && Routing.Follows(r, input.request, input.settings, setup.registry, consented)
    && (r.Ok? ==> forall i :: 0 <= i < |r.value.candidates| ==>
          Routing.CarriesSanitized(r.value.candidates[i], input.request, setup.maxTokens))
  }

  function Begun(r: Result<Routing.Plan, Routing.RouteError>, before: nat, now: nat): Session {
    var x := NEW.(route := Some(r), before := before, now := now, events := OPENING);
    match r
    case Err(error) => x.(stage := Closed, events := OPENING + [Streaming.Error(CodeOf(error)), Streaming.Done])
    case Ok(plan) => Onward(x.(fallback := FailureOf(plan.fallback)))
  }

  const REFUSED := NEW.(stage := Closed, events := [Streaming.Error(Streaming.InvalidRequest), Streaming.Done])

  ghost predicate Starts(setup: Setup, input: Input, history: seq<Privacy.Event>, now: nat, x: Session) {
    if !input.valid then x == REFUSED
    else
      && x.route.Some? && RouteFits(setup, input, history, now, x.route.value)
      && x == Begun(x.route.value, |history|, now)
  }

  /** A leg about which only this much is known yet. */
  function LegOf(candidate: Routing.Candidate, cancelled: bool, allowed: bool, healthy: bool): Chat.Leg {
    Chat.Leg(candidate.Local?, NameOf(candidate), cancelled, allowed, healthy, Chat.Finishes([]))
  }

  predicate Allowed(setup: Setup, ops: seq<Breaker.Op>, name: string, now: nat) {
    var record := Breaker.RecordOf(ops, name, setup.threshold, setup.cooldown);
    !Breaker.Blocked(record, setup.threshold, setup.cooldown, now)
  }

  /** Up to the breaker's answer. */
  function Asked(setup: Setup, x: Session, ops: seq<Breaker.Op>, cancelled: bool, now: nat): Session
    requires Open(x)
  {
    var candidate := Candidates(x)[|x.turns|];
    if cancelled then Concluded(x, Turn(LegOf(candidate, true, true, true), None, None))
    else if candidate.Local? then x.(stage := Trying(None))
    else if Allowed(setup, ops, candidate.name, now) then x.(stage := Trying(Some(|ops|)))
    else Concluded(x, Turn(LegOf(candidate, false, false, true), Some(|ops|), None))
  }

  /** An agent loop as it may go with a provider, and what it makes of the leg. */
  ghost predicate Converses(
    setup: Setup, candidate: Routing.Candidate, request: Routing.Request, c: Conversation, served: Chat.Served)
  {
    var tools := ToolsFor(candidate, c.tools);
    && |c.asked| <= setup.maxRounds && |c.rounds| <= |c.asked|
    && AgentLoop.Heard(tools, Prompts(candidate, request), c.asked, c.rounds)
    && AgentLoop.Requested(c.provider, c.asked, c.rounds)
    && c.invoked == AgentLoop.Invoked(tools, AgentLoop.Flat(c.rounds))
    && AgentLoop.EndsAs(c.provider, setup.maxRounds, c.asked, |c.rounds|, c.result)
    && served.stream == AgentLoop.Told(tools, c.provider, c.asked, c.rounds)
    && AgentLoop.LoopEvents(served.stream) && Chat.Spoken(served.stream) == AgentLoop.Forwarded(c.provider, c.asked)
    && served == if c.result.Ok? then Chat.Finishes(served.stream) else Chat.Fails(served.stream, c.result.error)
  }

  /** From the breaker's answer to the end of the agent loop. */
  ghost predicate Answers(
    setup: Setup, request: Routing.Request, candidate: Routing.Candidate, question: Option<nat>, step: Step, turn: Turn)
    requires step.Serve?
  {
    if candidate.Remote? && !step.healthy then turn == Turn(LegOf(candidate, false, true, false), question, None)
    else
      && turn.call.Some? && turn.call.value.provider == step.partner && turn.call.value.tools == step.tools
      && Converses(setup, candidate, request, turn.call.value, turn.leg.served)
      && turn == turn.(leg := LegOf(candidate, false, true, step.healthy).(served := turn.leg.served),
                       question := question)
  }

  /** What the breaker is told of a turn. */
  function Outcome(candidate: Routing.Candidate, turn: Turn, now: nat): seq<Breaker.Op> {
    if candidate.Local? then []
    else if turn.call.Some? && turn.call.value.result.Ok? then [Breaker.Succeeded(candidate.name)]
    else [Breaker.FailedAt(candidate.name, now)]
  }

  function AskedOf(turn: Turn): seq<seq<AgentLoop.Message>> {
    if turn.call.Some? then turn.call.value.asked else []
  }

  /** Entries of the log for the calls of one turn. */
  function Entries(chat: nat, turn: nat, asked: seq<seq<AgentLoop.Message>>): seq<Sending> {
    seq(|asked|, k requires 0 <= k < |asked| => Sending(chat, turn, asked[k]))
  }

  ghost predicate AskNext(setup: Setup, s: State, step: Step, t: State)
    requires step.Ask? && step.chat < |s.sessions|
  {
    var i, x := step.chat, s.sessions[step.chat];
    if !x.stage.Choosing? || !Open(x) then t == s
    else
      var candidate := Candidates(x)[|x.turns|];
      var question := if step.cancelled || candidate.Local? then [] else [Breaker.Asked(candidate.name, step.now)];
      t == s.(sessions := s.sessions[i := Asked(setup, x, s.ops, step.cancelled, step.now)], ops := s.ops + question)
  }

  ghost predicate ServeNext(setup: Setup, inputs: seq<Input>, s: State, step: Step, t: State)
    requires step.Serve? && step.chat < |s.sessions| == |inputs|
  {
    var i, x := step.chat, s.sessions[step.chat];
    if !x.stage.Trying? || !Open(x) then t == s
    else
      exists turn :: ServesAs(setup, inputs, s, step, t, turn)
  }

  ghost predicate ServesAs(setup: Setup, inputs: seq<Input>, s: State, step: Step, t: State, turn: Turn)
    requires step.Serve? && step.chat < |s.sessions| == |inputs|
    requires s.sessions[step.chat].stage.Trying? && Open(s.sessions[step.chat])
  {
    var i, x := step.chat, s.sessions[step.chat];
    var candidate := Candidates(x)[|x.turns|];
    && Answers(setup, inputs[i].request, candidate, x.stage.question, step, turn)
    && t == State(s.sessions[i := Concluded(x, turn)], s.history, s.ops + Outcome(candidate, turn, step.now),
                  s.log + Entries(i, |x.turns|, AskedOf(turn)))
  }

  /** One step of a preview or of any chat. A step that is not due changes nothing. */
  ghost predicate Next(setup: Setup, inputs: seq<Input>, s: State, step: Step, t: State) {
    && |s.sessions| == |t.sessions| == |inputs|
    && match step
       case Preview(_, _, _, _, _) => t == s.(history := s.history + Recorded(setup, inputs, s, step))
       case Status(name, now) =>
         t == s.(ops := s.ops + if name in setup.registry.remotes then [Breaker.Asked(name, now)] else [])
       case Route(i, now) =>
         if i >= |inputs| || !s.sessions[i].stage.Waiting? then t == s
         else
           && Starts(setup, inputs[i], s.history, now, t.sessions[i])
           && t == s.(sessions := s.sessions[i := t.sessions[i]],
                      history := s.history + Recorded(setup, inputs, s, step))
       case Ask(i, _, _) => if i >= |inputs| then t == s else AskNext(setup, s, step, t)
       case Serve(i, _, _, _, _) => if i >= |inputs| then t == s else ServeNext(setup, inputs, s, step, t)
  }

  function Start(n: nat): State {
    State(seq(n, _ => NEW), [], [], [])
  }

  ghost predicate IsRun(setup: Setup, inputs: seq<Input>, steps: seq<Step>, states: seq<State>) {
    && |states| == |steps| + 1 && states[0] == Start(|inputs|)
    && forall k :: 0 <= k < |steps| ==> Next(setup, inputs, states[k], steps[k], states[k + 1])
  }

  // ----- the router

  class Router {
    const setup: Setup
    const inputs: seq<Input>
    const store: Privacy.ConsentStore
    const breakers: Breaker.CircuitBreakers
    var sessions: seq<Session>
    var history: seq<Privacy.Event>
    var ops: seq<Breaker.Op>
    var log: seq<Sending>

    ghost predicate Valid()
      reads this, store, breakers
    {
      && |sessions| == |inputs| && store.Holds(history) && breakers.Holds(ops)
      && breakers.threshold == setup.threshold && breakers.cooldown == setup.cooldown
    }

    function Current(): State
      reads this
    {
      State(sessions, history, ops, log)
    }

    constructor (setup: Setup, inputs: seq<Input>)
      requires setup.threshold <= Breaker.U32_MAX
      ensures Valid() && fresh(store) && fresh(breakers) && this.setup == setup && this.inputs == inputs
      ensures Current() == Start(|inputs|)
    {
      this.setup, this.inputs := setup, inputs;
      store := new Privacy.ConsentStore();
      breakers := new Breaker.CircuitBreakers(setup.threshold, setup.cooldown);
      sessions, history, ops, log := seq(|inputs|, _ => NEW), [], [], [];
    }

    /** consent_preview */
    method Preview(step: Step)
      requires Valid() && step.Preview?
      modifies this, store
      ensures Valid() && Next(setup, inputs, old(Current()), step, Current())
    {
      hide Privacy.SafePayload, Privacy.MayLeave, Privacy.FirstRefused, Redaction.ByteLen, Privacy.Standing;
      assert history + [] == history;
      if step.provider !in setup.registry.remotes { return; }
      var payload := Privacy.Sanitize(step.provider, step.question, step.context, setup.maxTokens, None);
      if payload.Err? { return; }
      var digest := setup.digest(payload.value);
      var token := store.Preview(step.provider, digest, step.tokenId, step.now, history);
      history := history
        + [Privacy.Previewed(step.tokenId, Privacy.Entry(step.provider, digest, token.expires), step.now)];
    }

    /** The breaker's part of `status`, for one remote provider: a question like any other. */
    method Status(step: Step) returns (allowed: bool)
      requires Valid() && step.Status?
      modifies this, breakers
      ensures Valid() && Next(setup, inputs, old(Current()), step, Current())
      ensures step.name in setup.registry.remotes ==> (allowed <==> Allowed(setup, old(ops), step.name, step.now))
    {
      hide Breaker.RecordOf, Breaker.Blocked, Privacy.Standing;
      assert ops + [] == ops;
      allowed := false;
      if step.name !in setup.registry.remotes { return; }
      allowed := breakers.Allow(step.name, step.now, ops);
      ops := ops + [Breaker.Asked(step.name, step.now)];
    }

    /** `chat` up to its route. */
    method Route(step: Step)
      requires Valid() && step.Route?
      modifies this, store
      ensures Valid() && Next(setup, inputs, old(Current()), step, Current())
    {
      hide Routing.Follows, Routing.CarriesSanitized, Routing.AttemptOf, Privacy.Standing;
      assert history + [] == history;
      var i := step.chat;
      if i >= |inputs| || !sessions[i].stage.Waiting? { return; }
      if !inputs[i].valid {
        sessions := sessions[i := REFUSED];
        return;
      }
      var request := inputs[i].request;
      ghost var before := history;
      var r, attempt := Routing.BuildRoute(
        request, inputs[i].settings, setup.registry, setup.maxTokens, store, setup.digest, step.now, history);
      sessions := sessions[i := Begun(r, |history|, step.now)];
      history := Routing.AfterAttempt(history, request, attempt);
      assert history == before + Routing.AfterAttempt([], request, attempt);
    }

    /** A candidate's turn up to the breaker's answer. */
    method Ask(step: Step)
      requires Valid() && step.Ask?
      modifies this, breakers
      ensures Valid() && Next(setup, inputs, old(Current()), step, Current())
    {
      hide Concluded, Breaker.RecordOf, Breaker.Blocked, Privacy.Standing;
      assert ops + [] == ops;
      var i := step.chat;
      if i >= |inputs| || !sessions[i].stage.Choosing? || !Open(sessions[i]) { return; }
      var x := sessions[i];
      var candidate := Candidates(x)[|x.turns|];
      if step.cancelled {
        x := Conclude(x, Turn(LegOf(candidate, true, true, true), None, None));
      } else if candidate.Remote? {
        var allowed := breakers.Allow(candidate.name, step.now, ops);
        if allowed {
          x := x.(stage := Trying(Some(|ops|)));
        } else {
          x := Conclude(x, Turn(LegOf(candidate, false, false, true), Some(|ops|), None));
        }
        ops := ops + [Breaker.Asked(candidate.name, step.now)];
      } else {
        x := x.(stage := Trying(None));
      }
      sessions := sessions[i := x];
    }

    /** The rest of a candidate's turn. */
    method Serve(step: Step)
      requires Valid() && step.Serve?
      modifies this, breakers
      ensures Valid() && Next(setup, inputs, old(Current()), step, Current())
    {
      hide Concluded, Answers, Breaker.RecordOf, Privacy.Standing;
      ghost var s := Current();
      var i := step.chat;
      if i >= |inputs| || !sessions[i].stage.Trying? || !Open(sessions[i]) { return; }
      var x := sessions[i];
      var candidate := Candidates(x)[|x.turns|];
      var turn := Answer(inputs[i].request, candidate, x.stage.question, step);
      if candidate.Remote? {
        if turn.call.Some? && turn.call.value.result.Ok? {
          breakers.Success(candidate.name, ops);
        } else {
          breakers.Failure(candidate.name, step.now, ops);
        }
      }
      var after := Conclude(x, turn);
      sessions := sessions[i := after];
      ops := ops + Outcome(candidate, turn, step.now);
      log := log + Entries(i, |x.turns|, AskedOf(turn));
      assert s.ops + [] == s.ops;
      assert ServesAs(setup, inputs, s, step, Current(), turn);
    }

    /** The provider's health, then the agent loop. */
    method Answer(request: Routing.Request, candidate: Routing.Candidate, question: Option<nat>, step: Step)
      returns (turn: Turn)
      requires step.Serve?
      ensures Answers(setup, request, candidate, question, step, turn)
    {
      hide AgentLoop.Forwarded, AgentLoop.Heard, AgentLoop.Requested, AgentLoop.EndsAs, AgentLoop.Invoked,
        AgentLoop.Flat, AgentLoop.Told, AgentLoop.LoopEvents, Prompts, Chat.Spoken;
      if candidate.Remote? && !step.healthy {
        return Turn(LegOf(candidate, false, true, false), question, None);
      }
      var r, events, asked, invoked, rounds := AgentLoop.RunAgentLoop(
        ToolsFor(candidate, step.tools), step.partner, setup.maxRounds, Prompts(candidate, request));
      assert |rounds| <= |asked| by { AgentLoop.RoundsAsked(step.partner, asked, rounds); }
      var served := if r.Ok? then Chat.Finishes(events) else Chat.Fails(events, r.error);
      turn := Turn(LegOf(candidate, false, true, step.healthy).(served := served), question,
                   Some(Conversation(step.tools, step.partner, asked, rounds, invoked, r)));
    }

    /** The events of a turn, and whether the request goes on to the next candidate. */
    method Conclude(x: Session, turn: Turn) returns (y: Session)
      requires Routed(x)
      ensures y == Concluded(x, turn)
    {
      hide Chat.Turn;
      var sent, next := Chat.TakeTurn(turn.leg, x.fallback, x.failed);
      y := x.(turns := x.turns + [turn], events := x.events + sent);
      if next.None? { return y.(stage := Closed); }
      y := Onward(y.(fallback := next, failed := next));
    }

    method Do(step: Step)
      requires Valid()
      modifies this, store, breakers
      ensures Valid() && Next(setup, inputs, old(Current()), step, Current())
    {
      match step {
        case Preview(_, _, _, _, _) => Preview(step);
        case Status(_, _) => var allowed := Status(step);
        case Route(_, _) => Route(step);
        case Ask(_, _, _) => Ask(step);
        case Serve(_, _, _, _, _) => Serve(step);
      }
    }
  }

  /** The router does what the steps say, whatever they are. */
  method ServeAll(setup: Setup, inputs: seq<Input>, steps: seq<Step>) returns (states: seq<State>)
    requires setup.threshold <= Breaker.U32_MAX
    ensures IsRun(setup, inputs, steps, states)
  {
    hide Next;
    var router := new Router(setup, inputs);
    states := [router.Current()];
    var k := 0;
    while k < |steps|
      invariant 0 <= k <= |steps| && |states| == k + 1 && fresh(router) && fresh(router.store) && fresh(router.breakers)
      invariant router.Valid() && router.setup == setup && router.inputs == inputs
      invariant states[0] == Start(|inputs|) && states[k] == router.Current()
      invariant forall j :: 0 <= j < k ==> Next(setup, inputs, states[j], steps[j], states[j + 1])
    {
      router.Do(steps[k]);
      states := states + [router.Current()];
      k := k + 1;
    }
  }
}
