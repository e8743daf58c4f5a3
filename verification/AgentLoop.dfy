/** The agent loop: rounds with a provider, and the tool calls answered between them. */
module AgentLoop {
  import opened Results
  import opened Utf8
  import Streaming
  import Chat
  import Routing
  import AgentRound

  // ----- answering tool calls

  const MAX_ID_BYTES := 64
  const MAX_ARGUMENT_BYTES := 64 * 1024
  const MAX_RESULT_BYTES := 256 * 1024

  datatype Class = ReadOnly | ActionProposal
  datatype Definition = Definition(name: seq<byte>, kind: Class)
  datatype Call = Call(id: seq<byte>, name: seq<byte>, arguments: seq<byte>)
  datatype Output = Output(calls: seq<Call>, reason: seq<byte>)
  datatype ToolError = Duplicate | OutOfBounds | Unknown | NeedsApproval | BadArguments | ServiceFailed | ResultTooLarge

  datatype Reply = Proposed | Returned(content: seq<byte>) | Unavailable(error: ToolError)
  datatype Message =
    | Prompt(part: Routing.Part)
    | Assistant(calls: seq<Call>)
    | Tool(id: seq<byte>, name: seq<byte>, reply: Reply)

  function Find(definitions: seq<Definition>, name: seq<byte>): Option<Class> {
    if definitions == [] then None
    else if definitions[0].name == name then Some(definitions[0].kind)
    else Find(definitions[1..], name)
  }

  predicate Proposal(definitions: seq<Definition>, call: Call) {
    Find(definitions, call.name) == Some(ActionProposal)
  }

  /** The tools the loop may use: their definitions, a check of the arguments, a service that answers
      the n-th invocation, and the names the client's protocol knows. */
  datatype Tools = Tools(
    definitions: seq<Definition>, argumentsOk: Call -> bool, serve: (nat, Call) -> Option<seq<byte>>,
    known: seq<byte> -> bool)

  predicate InBounds(call: Call) {
    call.id != [] && |call.id| <= MAX_ID_BYTES && |call.arguments| <= MAX_ARGUMENT_BYTES
  }

  /** The call is one the service is asked about, given the calls before it. */
  predicate Invocable(tools: Tools, earlier: seq<Call>, call: Call) {
    && Find(tools.definitions, call.name) == Some(ReadOnly) && InBounds(call) && tools.argumentsOk(call)
    && forall i :: 0 <= i < |earlier| && earlier[i].id == call.id ==> Proposal(tools.definitions, earlier[i])
  }

  /** The calls that reach the service, out of all the calls of the conversation. */
  function Invoked(tools: Tools, calls: seq<Call>): seq<Call> {
    if calls == [] then []
    else
      var init, last := calls[..|calls| - 1], calls[|calls| - 1];
      Invoked(tools, init) + if Invocable(tools, init, last) then [last] else []
  }

  function SeenIds(tools: Tools, calls: seq<Call>): set<seq<byte>> {
    set i | 0 <= i < |calls| && !Proposal(tools.definitions, calls[i]) :: calls[i].id
  }

  lemma SeenAppend(tools: Tools, calls: seq<Call>, call: Call)
    ensures SeenIds(tools, calls + [call]) ==
      SeenIds(tools, calls) + if Proposal(tools.definitions, call) then {} else {call.id}
  {
    var all := calls + [call];
    forall id | id in SeenIds(tools, calls) ensures id in SeenIds(tools, all) {
      var i :| 0 <= i < |calls| && !Proposal(tools.definitions, calls[i]) && calls[i].id == id;
      assert all[i] == calls[i];
    }
    assert all[|calls|] == call;
  }

  lemma InvokedAppend(tools: Tools, calls: seq<Call>, call: Call)
    ensures Invoked(tools, calls + [call]) ==
      Invoked(tools, calls) + if Invocable(tools, calls, call) then [call] else []
  {
    assert (calls + [call])[..|calls|] == calls;
  }

  /** No identifier reaches the service twice, and nothing that only proposes an action reaches it. */
  lemma {:induction false} InvokedOnce(tools: Tools, calls: seq<Call>)
    ensures forall i, j :: 0 <= i < j < |Invoked(tools, calls)| ==>
      Invoked(tools, calls)[i].id != Invoked(tools, calls)[j].id
    ensures forall i :: 0 <= i < |Invoked(tools, calls)| ==>
      var call := Invoked(tools, calls)[i];
      && Find(tools.definitions, call.name) == Some(ReadOnly) && InBounds(call) && call in calls
  {
    hide Find, InBounds;
    if calls != [] {
      var init, last := calls[..|calls| - 1], calls[|calls| - 1];
      InvokedOnce(tools, init);
      assert calls == init + [last];
      if Invocable(tools, init, last) {
        forall i | 0 <= i < |Invoked(tools, init)| ensures Invoked(tools, init)[i].id != last.id {
          var call := Invoked(tools, init)[i];
          var k :| 0 <= k < |init| && init[k] == call;
        }
      }
    }
  }

  /** Without definitions, which is what a remote provider gets, no call reaches the service. */
  lemma {:induction false} RemoteInvokesNothing(tools: Tools, calls: seq<Call>)
    requires tools.definitions == []
    ensures Invoked(tools, calls) == []
  {
    if calls != [] { RemoteInvokesNothing(tools, calls[..|calls| - 1]); }
  }

  /** validate_and_invoke */
  method ValidateAndInvoke(tools: Tools, call: Call, seen: set<seq<byte>>, invocations: nat)
    returns (r: Result<seq<byte>, ToolError>, after: set<seq<byte>>, invoked: bool)
    ensures after == seen + {call.id}
    ensures invoked <==>
      call.id !in seen && InBounds(call) && Find(tools.definitions, call.name) == Some(ReadOnly)
        && tools.argumentsOk(call)
    ensures r.Ok? <==>
      invoked && tools.serve(invocations, call).Some? && |tools.serve(invocations, call).value| <= MAX_RESULT_BYTES
    ensures r.Ok? ==> r.value == tools.serve(invocations, call).value
    ensures r == Err(Duplicate) <==> call.id in seen
    ensures r == Err(OutOfBounds) <==> call.id !in seen && !InBounds(call)
    ensures r == Err(Unknown) <==> call.id !in seen && InBounds(call) && Find(tools.definitions, call.name) == None
    ensures r == Err(NeedsApproval) <==> call.id !in seen && InBounds(call) && Proposal(tools.definitions, call)
    ensures r == Err(BadArguments) <==>
      && call.id !in seen && InBounds(call) && Find(tools.definitions, call.name) == Some(ReadOnly)
      && !tools.argumentsOk(call)
    ensures r == Err(ServiceFailed) <==> invoked && tools.serve(invocations, call) == None
  {
    after, invoked := seen + {call.id}, false;
    if call.id in seen { return Err(Duplicate), after, false; }
    if call.id == [] || |call.id| > MAX_ID_BYTES || |call.arguments| > MAX_ARGUMENT_BYTES {
      return Err(OutOfBounds), after, false;
    }
    var found := Find(tools.definitions, call.name);
    if found.None? { return Err(Unknown), after, false; }
    if found.value != ReadOnly { return Err(NeedsApproval), after, false; }
    if !tools.argumentsOk(call) { return Err(BadArguments), after, false; }
    var result := tools.serve(invocations, call);
    invoked := true;
    if result.None? { return Err(ServiceFailed), after, true; }
    if |result.value| > MAX_RESULT_BYTES { return Err(ResultTooLarge), after, true; }
    r := Ok(result.value);
  }

  /** What the service answers a call that reaches it, if that is not too long. */
  function Served(tools: Tools, earlier: seq<Call>, call: Call): Option<seq<byte>> {
    var answer := tools.serve(|Invoked(tools, earlier)|, call);
    if answer.Some? && |answer.value| <= MAX_RESULT_BYTES then answer else None
  }

  /** The tool message that answers a call after the calls before it: under its identifier and name,
      with the service's answer if and only if there is one, and the notice if it is a proposal. */
  predicate Answered(tools: Tools, earlier: seq<Call>, call: Call, m: Message) {
    && m.Tool? && m.id == call.id && m.name == call.name
    && (m.reply == Proposed <==> Proposal(tools.definitions, call))
    && (m.reply.Returned? <==> Invocable(tools, earlier, call) && Served(tools, earlier, call).Some?)
    && (m.reply.Returned? ==> Served(tools, earlier, call) == Some(m.reply.content))
  }

  /** What the client is shown of a call after the calls before it: proposals and results, no refusals. */
  function Shown(tools: Tools, earlier: seq<Call>, call: Call): seq<Streaming.Event> {
    if Proposal(tools.definitions, call) then [Streaming.ActionProposal(tools.known(call.name))]
    else if Invocable(tools, earlier, call) && Served(tools, earlier, call).Some? then
      [Streaming.ToolResult(tools.known(call.name))]
    else []
  }

  function ShownAll(tools: Tools, earlier: seq<Call>, calls: seq<Call>): seq<Streaming.Event> {
    if calls == [] then []
    else
      var n := |calls| - 1;
      ShownAll(tools, earlier, calls[..n]) + Shown(tools, earlier + calls[..n], calls[n])
  }

  /** One such message for each call, in order. */
  predicate Answers(tools: Tools, earlier: seq<Call>, calls: seq<Call>, replies: seq<Message>) {
    |replies| == |calls| && forall i :: 0 <= i < |calls| ==> Answered(tools, earlier + calls[..i], calls[i], replies[i])
  }

  /** The conversation after rounds that asked for `rounds`. */
  ghost predicate Transcript(tools: Tools, messages: seq<Message>, rounds: seq<seq<Call>>) {
    if rounds == [] then messages == []
    else
      var calls, before := rounds[|rounds| - 1], rounds[..|rounds| - 1];
      var n := |messages| - |calls| - 1;
      && n >= 0 && Transcript(tools, messages[..n], before)
      && messages[n] == Assistant(calls) && Answers(tools, Flat(before), calls, messages[n + 1..])
  }

  function Flat<T>(rounds: seq<seq<T>>): seq<T> {
    if rounds == [] then [] else Flat(rounds[..|rounds| - 1]) + rounds[|rounds| - 1]
  }

  /** The body of the loop over calls. */
  method AnswerOne(tools: Tools, call: Call, seen: set<seq<byte>>, invoked: seq<Call>, ghost earlier: seq<Call>)
    returns (reply: Message, events: seq<Streaming.Event>, seenAfter: set<seq<byte>>, invokedAfter: seq<Call>)
    requires seen == SeenIds(tools, earlier) && invoked == Invoked(tools, earlier)
    ensures Answered(tools, earlier, call, reply) && events == Shown(tools, earlier, call)
    ensures seenAfter == SeenIds(tools, earlier + [call]) && invokedAfter == Invoked(tools, earlier + [call])
  {
    hide Find, InBounds, SeenIds, Invoked;
    SeenAppend(tools, earlier, call);
    InvokedAppend(tools, earlier, call);
    InvocableBySeen(tools, earlier, call);
    if Find(tools.definitions, call.name) == Some(ActionProposal) {
      return Tool(call.id, call.name, Proposed), [Streaming.ActionProposal(tools.known(call.name))], seen, invoked;
    }
    var r, after, asked := ValidateAndInvoke(tools, call, seen, |invoked|);
    seenAfter := after;
    invokedAfter := if asked then invoked + [call] else invoked;
    reply := Tool(call.id, call.name, if r.Ok? then Returned(r.value) else Unavailable(r.error));
    events := if r.Ok? then [Streaming.ToolResult(tools.known(call.name))] else [];
  }

  /** Events of the loop that carry no text. */
  predicate Silent(events: seq<Streaming.Event>) {
    forall i :: 0 <= i < |events| ==> events[i].ToolResult? || events[i].ActionProposal?
  }

  /** The inner loop: answers the calls of one round. */
  method AnswerCalls(tools: Tools, calls: seq<Call>, seen: set<seq<byte>>, invoked: seq<Call>, ghost earlier: seq<Call>)
    returns (replies: seq<Message>, events: seq<Streaming.Event>, seenAfter: set<seq<byte>>, invokedAfter: seq<Call>)
    requires seen == SeenIds(tools, earlier) && invoked == Invoked(tools, earlier)
    ensures Answers(tools, earlier, calls, replies)
    ensures events == ShownAll(tools, earlier, calls) && Silent(events)
    ensures seenAfter == SeenIds(tools, earlier + calls) && invokedAfter == Invoked(tools, earlier + calls)
  {
    hide SeenIds, Invoked, Answered, Invocable, Served;
    replies, events, seenAfter, invokedAfter := [], [], seen, invoked;
    var i := 0;
    assert earlier + calls[..0] == earlier;
    while i < |calls|
      invariant 0 <= i <= |calls| && |replies| == i && events == ShownAll(tools, earlier, calls[..i]) && Silent(events)
      invariant forall k :: 0 <= k < i ==> Answered(tools, earlier + calls[..k], calls[k], replies[k])
      invariant seenAfter == SeenIds(tools, earlier + calls[..i])
      invariant invokedAfter == Invoked(tools, earlier + calls[..i])
    {
      assert earlier + calls[..i + 1] == (earlier + calls[..i]) + [calls[i]];
      assert calls[..i + 1][..i] == calls[..i];
      var reply, shown;
      reply, shown, seenAfter, invokedAfter :=
        AnswerOne(tools, calls[i], seenAfter, invokedAfter, earlier + calls[..i]);
      replies := replies + [reply];
      events := events + shown;
      i := i + 1;
    }
    assert calls[..i] == calls;
  }

  lemma InvocableBySeen(tools: Tools, earlier: seq<Call>, call: Call)
    ensures Invocable(tools, earlier, call) <==>
      && call.id !in SeenIds(tools, earlier) && InBounds(call)
      && Find(tools.definitions, call.name) == Some(ReadOnly) && tools.argumentsOk(call)
  {
    hide Find, InBounds;
    if call.id in SeenIds(tools, earlier) {
      var i :| 0 <= i < |earlier| && !Proposal(tools.definitions, earlier[i]) && earlier[i].id == call.id;
    } else {
      assert forall i :: 0 <= i < |earlier| && earlier[i].id == call.id ==> Proposal(tools.definitions, earlier[i]);
    }
  }

  // ----- the loop

  /** How a round plays out: the interleaving of its two tasks, what the provider answers if it
      succeeds, and how it fails if it does not. */
  datatype Playing = Playing(steps: seq<AgentRound.Step>, output: Output, failure: Streaming.ProviderCode)

  type Play = p: Playing | AgentRound.Over(AgentRound.Run(p.steps))
    witness Playing([AgentRound.Cancel], Output([], []), Streaming.Network)

  function PhaseOf(p: Play): AgentRound.Phase {
    AgentRound.Run(p.steps).phase
  }

  type Provider = (nat, seq<Message>) -> Play

  /** The prompt and, after it, the first `k` rounds with every call answered. */
  ghost predicate HeardAt(tools: Tools, prompt: seq<Message>, messages: seq<Message>, rounds: seq<seq<Call>>, k: nat) {
    k <= |rounds| && prompt <= messages && Transcript(tools, messages[|prompt|..], rounds[..k])
  }

  /** Every round was given the prompt and all earlier rounds. */
  ghost predicate Heard(tools: Tools, prompt: seq<Message>, asked: seq<seq<Message>>, rounds: seq<seq<Call>>) {
    forall k :: 0 <= k < |asked| ==> HeardAt(tools, prompt, asked[k], rounds, k)
  }

  /** The rounds are what the provider asked for when given that. */
  ghost predicate Requested(provider: Provider, asked: seq<seq<Message>>, rounds: seq<seq<Call>>) {
    |rounds| <= |asked| && forall k :: 0 <= k < |rounds| ==> Asks(provider(k, asked[k]), rounds[k])
  }

  ghost predicate Asks(play: Play, calls: seq<Call>) {
    calls != [] && PhaseOf(play) == AgentRound.Finished && play.output.calls == calls
  }

  /** The text the client was sent, and the text the provider sent, over the first `n` rounds. */
  ghost function Forwarded(provider: Provider, asked: seq<seq<Message>>): seq<byte> {
    if asked == [] then []
    else
      var n := |asked| - 1;
      Forwarded(provider, asked[..n]) + AgentRound.TextOf(AgentRound.Run(provider(n, asked[n]).steps).forwarded)
  }

  /** All events of the loop: of every round what was forwarded, and after it what became of its calls. */
  ghost function Told(tools: Tools, provider: Provider, asked: seq<seq<Message>>, rounds: seq<seq<Call>>)
    : seq<Streaming.Event>
    requires |rounds| <= |asked|
  {
    if asked == [] then []
    else
      var n := |asked| - 1;
      var before := if |rounds| <= n then rounds else rounds[..n];
      Told(tools, provider, asked[..n], before)
      + AgentRound.EventsOf(AgentRound.Run(provider(n, asked[n]).steps).forwarded)
      + if |rounds| <= n then [] else ShownAll(tools, Flat(before), rounds[n])
  }

  ghost function Sent(provider: Provider, asked: seq<seq<Message>>): seq<byte> {
    if asked == [] then []
    else
      var n := |asked| - 1;
      Sent(provider, asked[..n]) + AgentRound.TextOf(AgentRound.Run(provider(n, asked[n]).steps).sent)
  }

  /** All rounds but the last finished, so the client has all their text; of the last it has a
      beginning, and all if it finished too. */
  lemma {:induction false} ForwardedIsSent(provider: Provider, asked: seq<seq<Message>>)
    requires forall k :: 0 <= k < |asked| - 1 ==> PhaseOf(provider(k, asked[k])) == AgentRound.Finished
    ensures Forwarded(provider, asked) <= Sent(provider, asked)
    ensures asked == [] || PhaseOf(provider(|asked| - 1, asked[|asked| - 1])) == AgentRound.Finished ==>
      Forwarded(provider, asked) == Sent(provider, asked)
  {
    hide AgentRound.Run, AgentRound.TextOf;
    if asked != [] {
      var n := |asked| - 1;
      ForwardedIsSent(provider, asked[..n]);
      AgentRound.RoundText(provider(n, asked[n]).steps);
    }
  }

  lemma {:induction false} SpokenAppend(a: seq<Streaming.Event>, b: seq<Streaming.Event>)
    ensures Chat.Spoken(a + b) == Chat.Spoken(a) + Chat.Spoken(b)
  {
    if b == [] {
      assert a + b == a;
    } else {
      assert (a + b)[..|a + b| - 1] == a + b[..|b| - 1];
      SpokenAppend(a, b[..|b| - 1]);
    }
  }

  lemma {:induction false} SilentSpeaksNothing(events: seq<Streaming.Event>)
    requires Silent(events)
    ensures Chat.Spoken(events) == []
  {
    if events != [] { SilentSpeaksNothing(events[..|events| - 1]); }
  }

  predicate LoopEvents(events: seq<Streaming.Event>) {
    forall i :: 0 <= i < |events| ==> Chat.LoopEvent(events[i])
  }

  /** How the loop can end after the rounds it answered. */
  ghost predicate EndsAs(
    provider: Provider, maxRounds: nat, asked: seq<seq<Message>>, answered: nat,
    r: Result<seq<byte>, Streaming.Failure>)
  {
    if |asked| == answered then
      answered == maxRounds && r == Err(Streaming.ProviderFailure(Streaming.UnsupportedCapability))
    else
      && |asked| == answered + 1
      && var play := provider(answered, asked[answered]);
      match PhaseOf(play)
      case Finished => play.output.calls == [] && r == Ok(play.output.reason)
      case Aborted => r == Err(Streaming.CancelledFailure)
      case _ => r == Err(Streaming.ProviderFailure(play.failure))
  }

  lemma HeardMore(
    tools: Tools, prompt: seq<Message>, asked: seq<seq<Message>>, rounds: seq<seq<Call>>, messages: seq<Message>)
    requires Heard(tools, prompt, asked, rounds) && |asked| == |rounds|
    requires prompt <= messages && Transcript(tools, messages[|prompt|..], rounds)
    ensures Heard(tools, prompt, asked + [messages], rounds)
  {
    assert rounds[..|rounds|] == rounds;
    assert HeardAt(tools, prompt, messages, rounds, |rounds|);
    hide HeardAt, Transcript;
  }

  lemma HeardAtLonger(
    tools: Tools, prompt: seq<Message>, messages: seq<Message>, rounds: seq<seq<Call>>, k: nat, calls: seq<Call>)
    requires HeardAt(tools, prompt, messages, rounds, k)
    ensures HeardAt(tools, prompt, messages, rounds + [calls], k)
  {
    assert (rounds + [calls])[..k] == rounds[..k];
  }

  lemma HeardLonger(
    tools: Tools, prompt: seq<Message>, asked: seq<seq<Message>>, rounds: seq<seq<Call>>, calls: seq<Call>)
    requires Heard(tools, prompt, asked, rounds)
    ensures Heard(tools, prompt, asked, rounds + [calls])
  {
    hide HeardAt;
    forall k | 0 <= k < |asked| ensures HeardAt(tools, prompt, asked[k], rounds + [calls], k) {
      HeardAtLonger(tools, prompt, asked[k], rounds, k, calls);
    }
  }

  /** One round: what the provider is asked, what of it reaches the client, and what is answered. */
  method PlayRound(provider: Provider, round: nat, messages: seq<Message>, events: seq<Streaming.Event>)
    returns (play: Play, after: seq<Streaming.Event>)
    requires LoopEvents(events)
    ensures play == provider(round, messages) && LoopEvents(after)
    ensures after == events + AgentRound.EventsOf(AgentRound.Run(play.steps).forwarded)
    ensures Chat.Spoken(after) == Chat.Spoken(events) + AgentRound.TextOf(AgentRound.Run(play.steps).forwarded)
  {
    hide AgentRound.Run, AgentRound.TextOf, AgentRound.EventsOf;
    play := provider(round, messages);
    var shown := AgentRound.EventsOf(AgentRound.Run(play.steps).forwarded);
    AgentRound.EventsSpeak(AgentRound.Run(play.steps).forwarded);
    SpokenAppend(events, shown);
    after := events + shown;
  }

  /** run_agent_loop. `asked` is what the provider was given, round by round. */
  method RunAgentLoop(tools: Tools, provider: Provider, maxRounds: nat, prompt: seq<Message>)
    returns (r: Result<seq<byte>, Streaming.Failure>, events: seq<Streaming.Event>, asked: seq<seq<Message>>,
             invoked: seq<Call>, rounds: seq<seq<Call>>)
    ensures |asked| <= maxRounds && Heard(tools, prompt, asked, rounds) && Requested(provider, asked, rounds)
    ensures invoked == Invoked(tools, Flat(rounds))
    ensures EndsAs(provider, maxRounds, asked, |rounds|, r)
    ensures LoopEvents(events) && events == Told(tools, provider, asked, rounds)
    ensures Chat.Spoken(events) == Forwarded(provider, asked)
  {
    hide Invoked, SeenIds, Heard, Answers, AgentRound.Run, AgentRound.TextOf, Chat.Spoken, LoopEvents, Silent, Flat,
      Requested, Forwarded, Told, ShownAll, AgentRound.EventsOf;
    var messages := prompt;
    var seen: set<seq<byte>> := {};
    events, asked, invoked, rounds := [], [], [], [];
    NothingYet(tools, prompt);
    NothingAsked(tools, provider);
    var round := 0;
    while round < maxRounds
      invariant 0 <= round <= maxRounds && |asked| == |rounds| == round
      invariant prompt <= messages && Transcript(tools, messages[|prompt|..], rounds)
      invariant Heard(tools, prompt, asked, rounds) && Requested(provider, asked, rounds)
      invariant seen == SeenIds(tools, Flat(rounds)) && invoked == Invoked(tools, Flat(rounds))
      invariant LoopEvents(events) && events == Told(tools, provider, asked, rounds)
      invariant Chat.Spoken(events) == Forwarded(provider, asked)
    {
      hide Transcript;
      HeardMore(tools, prompt, asked, rounds, messages);
      asked := asked + [messages];
      assert asked[..round] == asked[..|asked| - 1];
      var play;
      play, events := PlayRound(provider, round, messages, events);
      ForwardedMore(provider, asked[..round], messages);
      ToldRound(tools, provider, asked[..round], rounds, messages);
      RequestedStill(provider, asked[..round], rounds, messages);
      assert asked == asked[..round] + [messages];
      var phase := PhaseOf(play);
      if phase == AgentRound.Aborted { return Err(Streaming.CancelledFailure), events, asked, invoked, rounds; }
      if phase != AgentRound.Finished {
        return Err(Streaming.ProviderFailure(play.failure)), events, asked, invoked, rounds;
      }
      var calls := play.output.calls;
      if calls == [] { return Ok(play.output.reason), events, asked, invoked, rounds; }
      var replies, shown;
      replies, shown, seen, invoked := AnswerCalls(tools, calls, seen, invoked, Flat(rounds));
      QuietEvents(events, shown);
      events := events + shown;
      Extend(tools, prompt, messages, asked, rounds, calls, replies);
      messages := messages + ([Assistant(calls)] + replies);
      RequestedMore(provider, asked, rounds, calls);
      ToldCalls(tools, provider, asked, rounds, calls);
      rounds := rounds + [calls];
      round := round + 1;
    }
    r := Err(Streaming.ProviderFailure(Streaming.UnsupportedCapability));
  }

  lemma NothingAsked(tools: Tools, provider: Provider)
    ensures Forwarded(provider, []) == [] && Requested(provider, [], []) && Told(tools, provider, [], []) == []
  {
  }

  lemma ForwardedMore(provider: Provider, asked: seq<seq<Message>>, messages: seq<Message>)
    ensures Forwarded(provider, asked + [messages]) ==
      Forwarded(provider, asked) + AgentRound.TextOf(AgentRound.Run(provider(|asked|, messages).steps).forwarded)
  {
    assert (asked + [messages])[..|asked|] == asked;
  }

  lemma ToldRound(
    tools: Tools, provider: Provider, asked: seq<seq<Message>>, rounds: seq<seq<Call>>, messages: seq<Message>)
    requires |rounds| == |asked|
    ensures Told(tools, provider, asked + [messages], rounds) ==
      Told(tools, provider, asked, rounds)
      + AgentRound.EventsOf(AgentRound.Run(provider(|asked|, messages).steps).forwarded)
  {
    assert (asked + [messages])[..|asked|] == asked;
  }

  lemma ToldCalls(
    tools: Tools, provider: Provider, asked: seq<seq<Message>>, rounds: seq<seq<Call>>, calls: seq<Call>)
    requires |asked| == |rounds| + 1
    ensures Told(tools, provider, asked, rounds + [calls]) ==
      Told(tools, provider, asked, rounds) + ShownAll(tools, Flat(rounds), calls)
  {
    assert (rounds + [calls])[..|rounds|] == rounds;
  }

  lemma QuietEvents(events: seq<Streaming.Event>, shown: seq<Streaming.Event>)
    requires LoopEvents(events) && Silent(shown)
    ensures LoopEvents(events + shown) && Chat.Spoken(events + shown) == Chat.Spoken(events)
  {
    SpokenAppend(events, shown);
    SilentSpeaksNothing(shown);
  }

  lemma RoundsAsked(provider: Provider, asked: seq<seq<Message>>, rounds: seq<seq<Call>>)
    requires Requested(provider, asked, rounds)
    ensures |rounds| <= |asked|
  {
  }

  lemma RequestedStill(provider: Provider, asked: seq<seq<Message>>, rounds: seq<seq<Call>>, messages: seq<Message>)
    requires Requested(provider, asked, rounds)
    ensures Requested(provider, asked + [messages], rounds)
  {
    hide Asks;
    forall k | 0 <= k < |rounds| ensures Asks(provider(k, (asked + [messages])[k]), rounds[k]) {
      assert Asks(provider(k, asked[k]), rounds[k]) && (asked + [messages])[k] == asked[k];
    }
  }

  lemma RequestedMore(provider: Provider, asked: seq<seq<Message>>, rounds: seq<seq<Call>>, calls: seq<Call>)
    requires Requested(provider, asked, rounds) && |asked| == |rounds| + 1
    requires Asks(provider(|rounds|, asked[|rounds|]), calls)
    ensures Requested(provider, asked, rounds + [calls])
  {
    hide Asks;
    var more := rounds + [calls];
    forall k | 0 <= k < |more| ensures Asks(provider(k, asked[k]), more[k]) {
      if k < |rounds| { assert Asks(provider(k, asked[k]), rounds[k]) && more[k] == rounds[k]; }
    }
  }

  /** A round answered makes the conversation one round longer. */
  lemma Extend(
    tools: Tools, prompt: seq<Message>, messages: seq<Message>, asked: seq<seq<Message>>, rounds: seq<seq<Call>>,
    calls: seq<Call>, replies: seq<Message>)
    requires prompt <= messages && Transcript(tools, messages[|prompt|..], rounds)
    requires Heard(tools, prompt, asked, rounds)
    requires Answers(tools, Flat(rounds), calls, replies)
    ensures var after := messages + ([Assistant(calls)] + replies);
      && prompt <= after && Transcript(tools, after[|prompt|..], rounds + [calls])
      && Heard(tools, prompt, asked, rounds + [calls]) && Flat(rounds + [calls]) == Flat(rounds) + calls
  {
    hide Heard, Answers;
    var after := messages + ([Assistant(calls)] + replies);
    TranscriptGrows(tools, messages[|prompt|..], rounds, calls, replies);
    assert after[|prompt|..] == messages[|prompt|..] + ([Assistant(calls)] + replies);
    HeardLonger(tools, prompt, asked, rounds, calls);
    assert (rounds + [calls])[..|rounds|] == rounds;
  }

  lemma NothingYet(tools: Tools, prompt: seq<Message>)
    ensures Flat<Call>([]) == [] && SeenIds(tools, []) == {} && Invoked(tools, []) == [] && Heard(tools, prompt, [], [])
    ensures Chat.Spoken([]) == [] && LoopEvents([])
  {
  }

  lemma TranscriptGrows(
    tools: Tools, messages: seq<Message>, rounds: seq<seq<Call>>, calls: seq<Call>, replies: seq<Message>)
    requires Transcript(tools, messages, rounds) && Answers(tools, Flat(rounds), calls, replies)
    ensures Transcript(tools, messages + ([Assistant(calls)] + replies), rounds + [calls])
  {
    assert |replies| == |calls|;
    hide Answers;
    var all := messages + ([Assistant(calls)] + replies);
    assert (rounds + [calls])[..|rounds|] == rounds;
    assert all[..|messages|] == messages && all[|messages| + 1..] == replies;
  }
}
